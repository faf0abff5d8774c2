# Healthcare symptom checker: relay handler and form controller

This project models the two pieces of logic in the symptom checker, a web form
that passes free-text symptoms to a language-model gateway and shows the
structured answer.

- **`check-symptoms` edge function** (`check_symptoms.dfy`, module
  `CheckSymptoms`). This handler validates the request body and reads
  `LOVABLE_API_KEY`. It calls the AI gateway once and maps the gateway's
  failure statuses. It takes `choices[0].message.content` from the reply,
  trims it and strips a ```` ```json ```` or ```` ``` ```` fence. It then
  parses the text or builds the fixed fallback result, attempts the
  `symptom_checks` insert, and answers. `Handle` is a method with the
  source's early returns, over an abstract environment `Env`. That
  environment holds the request body, the key, the gateway's answer, a
  `JSON.parse` oracle and the database's behaviour. The method returns the
  response and a `Trace`: whether the key was read, whether the gateway was
  called, and which row was handed to `insert`.
- **Index page** (`index_page.dfy`, module `IndexPage`). Class
  `SymptomForm` holds the page's state `symptoms`, `loading` and `result`.
  Its methods are the text area's change handler and `handleAnalyze`, split
  at the `await` into `Submit` and `Settle` and composed in `HandleAnalyze`.
  The module also has the button's `disabled` rule, the failure-message
  choice and `getLikelihoodColor`.
- Support modules: `JsValues` (`js_values.dfy`) holds JSON values, JavaScript
  property reads (`.`, `?.`, `[0]`) and truthiness. `Text` (`text.dfy`) holds
  `String.prototype.trim` over the exact white-space and line-terminator set
  of sections 12.2 and 12.3 of ECMA-262. `Wrappers` (`wrappers.dfy`) holds
  `Option`.

These run-time cases take their own path in the handler, and the model keeps
each one:
- An empty `LOVABLE_API_KEY` counts as missing.
- `symptoms` that is truthy but not a string makes `trim` throw, giving a 500.
- Reply content that is truthy but not a string makes `trim` throw inside
  the parsing `try`, so the answer is the fallback with that value as its
  description.
- A reply that parses to `null` makes the read of `probable_conditions`
  throw, giving a 500 with no insert.
- When no database client can be created (a missing URL or key), the
  handler answers 500.

Exceptions raised by the runtime or a library are the `Fault` variants. They
are answered 500 and carry the runtime's own message, so the model names the
cause instead of the text.

Two consequences of the code's order of operations:
- The insert is skipped, and the answer is 500, when the parsed value is
  `null` or no store client can be created.
- A failed submit sets `loading` to false and leaves `result` null, as it
  was cleared at the start of the submit.

## Model

| member | source | states |
|---|---|---|
| `CheckSymptoms.Handle` | supabase/functions/check-symptoms/index.ts:15-149 | Status 200 exactly when the body is a result, and the status is always 200, 400, 402, 429 or 500. A body that is not JSON, or is null, gives a 500 with no effects. Missing, falsy or all-white-space symptoms give 400 "Symptoms cannot be empty" before the key is read or the gateway called. Truthy non-string symptoms give a 500; falsy ones such as `0`, `false` or `null` give the 400. The key is read exactly when validation passes. The gateway is called exactly when the key is also set, and an unset or empty key gives 500 "LOVABLE_API_KEY is not configured". A failed fetch gives 500. A non-ok status maps 429 to 429 and 402 to 402 with their fixed messages, and any other to 500 "AI gateway error". A reply that is not JSON, or is null, gives 500; falsy content gives 500 "No content received from AI". Otherwise the answer is 200 with the parsed-or-fallback value, except 500 when no store client exists or that value is null. The insert happens exactly on the 200 path, with the untrimmed symptoms and the answer's `probable_conditions` and `recommendations`. The insert's own outcome never enters the answer. |
| `CheckSymptoms.AcceptedSymptoms` | supabase/functions/check-symptoms/index.ts:16-23 | The accepted text is the request's own `symptoms` string, untrimmed, and it is never blank. No symptoms are accepted exactly when the body is unreadable or null, or the symptoms are rejected or not a string. |
| `CheckSymptoms.RemovePrefix` | supabase/functions/check-symptoms/index.ts:100-102 | `/^p/` replacement: when `s` starts with `p`, `p` followed by the result is `s`; otherwise `s` is unchanged. |
| `CheckSymptoms.RemoveSuffix` | supabase/functions/check-symptoms/index.ts:100-102 | `/q$/` replacement: when `s` ends with `q`, the result followed by `q` is `s`; otherwise `s` is unchanged. |
| `CheckSymptoms.CleanContent` | supabase/functions/check-symptoms/index.ts:97-103 | The cleaned text is never longer than the trimmed reply, and it is the trimmed reply itself when that does not start with a fence. |
| `CheckSymptoms.TaggedFenceRoundTrip` | supabase/functions/check-symptoms/index.ts:97-100 | For every `s`, cleaning "```json\n" + s + "\n```" yields exactly `s`. |
| `CheckSymptoms.PlainFenceRoundTrip` | supabase/functions/check-symptoms/index.ts:101-102 | For every `s`, cleaning "```\n" + s + "\n```" yields exactly `s`. |
| `CheckSymptoms.UnfencedPassesThrough` | supabase/functions/check-symptoms/index.ts:97-103 | Trimmed content that does not start with "```" reaches the parser unchanged. |
| `CheckSymptoms.FencingIsTransparent` | supabase/functions/check-symptoms/index.ts:97-104 | Wrapping a trimmed, unfenced reply in either fence gives the parser the same text as the bare reply. |
| `CheckSymptoms.ParsedVerbatim` | supabase/functions/check-symptoms/index.ts:104 | When the cleaned text parses, `parsedResponse` is the parsed value itself, with no validation or change. |
| `CheckSymptoms.FencedReplyParsed` | supabase/functions/check-symptoms/index.ts:97-104 | A fenced reply, tagged or not, yields what the parser makes of the text inside the fence. |
| `CheckSymptoms.FallbackOnParseFailure` | supabase/functions/check-symptoms/index.ts:105-113 | When the content is not a string or its cleaned text does not parse, `probable_conditions` is exactly one condition: "Analysis Available", likelihood "unknown", with the raw, untrimmed and unstripped content as its description. `recommendations` and `disclaimer` are then the two fixed texts. |
| `CheckSymptoms.FallbackIsObject` | supabase/functions/check-symptoms/index.ts:108-112 | The fallback is an object, never null, so a parse failure cannot reach the null-read 500 at line 124. |
| `CheckSymptoms.IsOk` | supabase/functions/check-symptoms/index.ts:68 | `response.ok`: the two statuses given their own answers, 429 and 402, are failures, and 200 is a success. |
| `CheckSymptoms.KeyConfigured` | supabase/functions/check-symptoms/index.ts:26 | The key counts as configured exactly when it is set and truthy as a string, so an empty key counts as missing. |
| `CheckSymptoms.ReplyContent` | supabase/functions/check-symptoms/index.ts:86 | Content is found only in an object reply that has a `choices` member. |
| `CheckSymptoms.ChatCompletionContent` | supabase/functions/check-symptoms/index.ts:86 | A reply shaped as `{choices: [{message: {content: c}}]}` yields exactly `c`. |
| `CheckSymptoms.Fallback` | supabase/functions/check-symptoms/index.ts:108-112 | The fallback is an object whose `probable_conditions` is one condition (name "Analysis Available", likelihood "unknown", the given description), whose `recommendations` is the fixed consult-a-professional text, and whose `disclaimer` is the fixed educational-use text. |
| `CheckSymptoms.ParseOrFallback` | supabase/functions/check-symptoms/index.ts:95-113 | `parsedResponse` is either the fallback for the content or what the parser returned for the cleaned text. It can be null only when the parser returned null. |
| `JsValues.Get` | supabase/functions/check-symptoms/index.ts:16 | A property read finds a value exactly when the value is an object with a member of that key. |
| `JsValues.First` | supabase/functions/check-symptoms/index.ts:86 | `[0]` gives an array's first element or a string's first character, when there is one, and nothing on booleans and numbers; null never reaches it, since reading through null throws. |
| `JsValues.ChainGet` | supabase/functions/check-symptoms/index.ts:86 | `?.` stops at null or undefined, and a named member can be found only in an object. |
| `JsValues.ChainFirst` | supabase/functions/check-symptoms/index.ts:86 | `?.[0]` stops at null or undefined, and finds something only in an array, an object or a string. |
| `JsValues.Falsy` | supabase/functions/check-symptoms/index.ts:18 | `!x` holds of null and undefined, never of an array or object (even an empty one), and of a string exactly when it is empty. |
| `JsValues.Lookup` | supabase/functions/check-symptoms/index.ts:124-125 | A member read finds a value exactly when some member has that key. The value is that of the last such member, as `JSON.parse` keeps it. |
| `Text.TrimStart` | supabase/functions/check-symptoms/index.ts:18 | The result is a suffix of the input. Everything removed is white space, and the result is empty or starts with a character that is not white space. |
| `Text.TrimEnd` | supabase/functions/check-symptoms/index.ts:18 | The result is a prefix of the input. Everything removed is white space, and the result is empty or ends with a character that is not white space. |
| `Text.Trim` | supabase/functions/check-symptoms/index.ts:18 | `trim()` is empty exactly when every character is white space. A non-empty result neither starts nor ends with white space, and it is the input with its leading white space removed, cut where only white space follows. |
| `Text.TrimKeepsUnpadded` | supabase/functions/check-symptoms/index.ts:97 | A string whose first and last characters are not white space is left whole by `trim()`. |
| `Text.TrimIdempotent` | supabase/functions/check-symptoms/index.ts:97 | Trimming twice equals trimming once. |
| `IndexPage.FailureMessage` | src/pages/Index.tsx:46-48 | The failure notification is `error.message` when that is non-empty, otherwise "Failed to analyze symptoms. Please try again."; it is never empty. |
| `IndexPage.AnalyzeDisabled` | src/pages/Index.tsx:105 | The analyze button is disabled exactly when `loading` is set or the symptoms are all white space. |
| `IndexPage.LikelihoodColor` | src/pages/Index.tsx:54-61 | `getLikelihoodColor` gives "outline" exactly when the likelihood is not "high", "medium" or "low". |
| `IndexPage.LikelihoodColorCases` | src/pages/Index.tsx:55-58 | "high" gives "destructive", "medium" gives "default" and "low" gives "secondary", three pairwise different variants. |
| `IndexPage.FallbackLikelihoodOutlined` | src/pages/Index.tsx:54-61 | The handler's fallback likelihood "unknown" is outside the declared three and is shown with the "outline" badge. |
| `IndexPage.SymptomForm.constructor` | src/pages/Index.tsx:24-26 | The form starts with empty text, not loading, and no result. |
| `IndexPage.SymptomForm.Edit` | src/pages/Index.tsx:98-101 | Typing replaces the text and nothing else. It is possible only while no request runs, because the text area is disabled then. |
| `IndexPage.SymptomForm.Submit` | src/pages/Index.tsx:29-35 | The function is invoked exactly when the text does not trim to empty. Blank text leaves `loading` and `result` as they were, with the "Please enter your symptoms" notification. Otherwise `loading` becomes true and `result` null before the invoke. |
| `IndexPage.SymptomForm.Settle` | src/pages/Index.tsx:42-51 | Returned data becomes `result`, with "Analysis complete". An error leaves `result` null, with the chosen failure message. `loading` is false either way. |
| `IndexPage.SymptomForm.HandleAnalyze` | src/pages/Index.tsx:28-52 | The whole handler. Blank text changes nothing and invokes nothing, and an enabled button always invokes. After any invoke, `loading` is false, and `result` is the data or stays null on error. Every method keeps the invariant that no result is on screen while loading. |

## Left out

- The CORS headers and the `OPTIONS` preflight are left out: they are constant plumbing.
- The `fetch` to the gateway, the Supabase client and its insert, `JSON.parse` and `JSON.stringify` are left out: they are network or library calls. They appear only as their outcomes in `Env` and `Store`, and the response body is the value before serialisation.
- The system-prompt text, the model name and the request headers are left out: they carry no logic.
- The `SUPABASE_URL` and `SUPABASE_SERVICE_ROLE_KEY` lookups and the `console` logging are left out. The lookups appear only as `Store.Unconfigured`.
- The wording of runtime and library exception messages is left out, because it belongs to the runtime or library. `Fault` names the cause of each such 500 instead.
- A rejection of `aiResponse.text()` in the failure branch (line 69) is not modelled. A rejection of the insert promise is not modelled either, because supabase-js reports insert failures through `error`.
- `async`/`await` interleaving is not modelled: two requests in flight at once, and the page re-rendering between `Submit` and `Settle`.
- JSX rendering, icons and styling are left out. Notifications appear only as returned `Toast` values. The result is shown only when `result` is non-null (line 125) and the disclaimer only when non-empty (line 170); these conditions are not modelled.
- JsValues.Get: only object members are read. Every key the two files read is absent from arrays, strings, numbers and booleans, and the model reads it as `undefined`.
- JsValues.First: for a string it takes the first Unicode scalar value, not the first UTF-16 code unit. The handler only reads `.message` from that value, which is `undefined` either way.
- JsValues.Json: an object may list a repeated key, which no `JSON.parse` result does; the parse oracle is taken to return objects with distinct keys, and such an object stands for no JavaScript value otherwise.
- JsValues.Json: a Dafny `string` holds Unicode scalar values, so a JSON string containing a lone surrogate (such as `"\ud800"`) cannot be represented. `trim`, the fence surgery and the fallback do not depend on this.
- JSON numbers are modelled as `real`, without floating-point rounding. For `!x` only zero matters.
- Text.IsWhitespace: the category Zs (space separators) is fixed at its current members and does not follow future Unicode versions.
- IndexPage.LikelihoodColor takes a string, as the page declares it. At run time a likelihood that is not a string also falls to "outline".
- IndexPage.SymptomForm.Settle requires `loading`, because the invoke settles only after `Submit` has started it.
