/**
 * The `check-symptoms` edge function: validate the request, call the AI
 * gateway once, strip a Markdown code fence from the reply, parse it or build
 * a fallback result, attempt to store the interaction, and answer.
 *
 * The network, the database and `JSON.parse` are not modelled; their outcomes
 * are fields of `Env`.
 */
module CheckSymptoms {
  import opened Wrappers
  import opened JsValues
  import opened Text

  const EmptySymptomsMessage := "Symptoms cannot be empty"
  const MissingKeyMessage := "LOVABLE_API_KEY is not configured"
  const RateLimitMessage := "Rate limit exceeded. Please try again later."
  const PaymentRequiredMessage := "Service temporarily unavailable. Please contact support."
  const GatewayErrorMessage := "AI gateway error"
  const NoContentMessage := "No content received from AI"

  const FallbackName := "Analysis Available"
  const FallbackLikelihood := "unknown"
  const FallbackRecommendations := "Please consult with a healthcare professional for proper evaluation."
  const FallbackDisclaimer :=
    "This information is for educational purposes only and not a substitute for professional medical advice."

  const TaggedFence := "```json"
  const Fence := "```"

  /**
   * Exceptions raised by the JavaScript runtime or a library rather than by the
   * handler's own `throw`. The outer `catch` answers each with status 500 and
   * the exception's message, whose wording is the runtime's.
   */
  datatype Fault =
    | MalformedRequestBody   // `req.json()` rejects: the body is not JSON
    | NullRequestBody        // destructuring `{ symptoms }` from null
    | SymptomsNotString      // `symptoms.trim` is not a function
    | FetchRejected          // the request to the gateway did not complete
    | MalformedUpstreamBody  // `aiResponse.json()` rejects
    | NullUpstreamBody       // `aiData.choices` read through null
    | StoreUnconfigured      // `createClient` throws without a URL or key
    | NullParsedResponse     // `parsedResponse.probable_conditions` read through null

  /** What `JSON.stringify` is applied to in the response. */
  datatype Body = Payload(value: Json) | ErrorMessage(message: string) | RuntimeError(fault: Fault)

  datatype Response = Response(status: int, body: Body)

  /** The gateway's answer: none at all, or a status and the reply parsed as JSON (`None`: not JSON). */
  datatype Upstream = Rejected | Reply(status: int, json: Option<Json>)

  /** The database as the handler meets it: no client can be made, the insert succeeds, or it reports an error. */
  datatype Store = Unconfigured | Accepts | Fails

  /**
   * Everything the handler depends on besides its code: the request body as
   * `req.json()` yields it (`None`: not JSON), the `LOVABLE_API_KEY`
   * variable, the gateway's answer, `JSON.parse` (`None`: it throws), and the
   * database.
   */
  datatype Env = Env(
    request: Option<Json>,
    apiKey: Option<string>,
    upstream: Upstream,
    parse: string -> Option<Json>,
    store: Store)

  /** The row handed to `insert`: the symptoms as received, and two fields of the chosen result. */
  datatype Record = Record(symptoms: string, probableConditions: Option<Json>, recommendations: Option<Json>)

  /** The handler's effects besides its answer. */
  datatype Trace = Trace(keyRead: bool, calledUpstream: bool, insert: Option<Record>)

  const NoEffects := Trace(false, false, None)

  /** `response.ok` */
  predicate IsOk(status: int)
    ensures status == 429 || status == 402 ==> !IsOk(status)
    ensures status == 200 ==> IsOk(status)
  {
    200 <= status <= 299
  }

  /** `!LOVABLE_API_KEY`: an unset variable and an empty one are both missing. */
  predicate KeyConfigured(apiKey: Option<string>)
    ensures KeyConfigured(apiKey) <==> apiKey.Some? && !Falsy(Some(JStr(apiKey.value)))
  {
    apiKey.Some? && apiKey.value != []
  }

  /** The `symptoms` field of a request body that is JSON and not null. */
  function SymptomsField(request: Option<Json>): Option<Json>
    requires request.Some? && !request.value.JNull?
  {
    Get(request.value, "symptoms")
  }

  /** The request fails the check at line 18 and is answered 400. */
  predicate RejectedSymptoms(request: Option<Json>)
  {
    request.Some? && !request.value.JNull? &&
    var field := SymptomsField(request);
    Falsy(field) || (field.value.JStr? && IsBlank(field.value.s))
  }

  /** `symptoms` is truthy but not a string, so calling `trim` on it throws. */
  predicate NonStringSymptoms(request: Option<Json>)
  {
    request.Some? && !request.value.JNull? && !Falsy(SymptomsField(request)) && !SymptomsField(request).value.JStr?
  }

  /** The symptoms text of a request that passes validation. */
  function AcceptedSymptoms(request: Option<Json>): (r: Option<string>)
    ensures r.Some? ==> !IsBlank(r.value)
    ensures r.Some? ==> request.Some? && !request.value.JNull? && SymptomsField(request) == Some(JStr(r.value))
    ensures r.None? <==> request.None? || request.value.JNull? || RejectedSymptoms(request) || NonStringSymptoms(request)
  {
    if request.None? || request.value.JNull? then None
    else
      var field := SymptomsField(request);
      if !Falsy(field) && field.value.JStr? && !IsBlank(field.value.s) then Some(field.value.s) else None
  }

  /** The first choice's message content, read through optional chains, on a reply that is not null (line 86). */
  function ReplyContent(aiData: Json): (r: Option<Json>)
    requires !aiData.JNull?
    ensures r.Some? ==> aiData.JObj? && Get(aiData, "choices").Some?
  {
    ChainGet(ChainGet(ChainFirst(Get(aiData, "choices")), "message"), "content")
  }

  /** A reply of the conventional chat-completion shape yields the content of its first choice's message. */
  lemma {:induction false} ChatCompletionContent(content: Json)
    ensures ReplyContent(JObj([("choices", JArr([JObj([("message", JObj([("content", content)]))])]))])) == Some(content)
  {
    var message := JObj([("content", content)]);
    var choice := JObj([("message", message)]);
    var aiData := JObj([("choices", JArr([choice]))]);
    assert Get(aiData, "choices") == Some(JArr([choice]));
    assert ChainFirst(Some(JArr([choice]))) == Some(choice);
    assert Get(choice, "message") == Some(message);
    assert Get(message, "content") == Some(content);
  }

  /** `s.replace(/^p/, '')`: drop `p` when `s` starts with it. */
  function RemovePrefix(s: string, p: string): (r: string)
    ensures p <= s ==> p + r == s
    ensures !(p <= s) ==> r == s
  {
    if p <= s then s[|p|..] else s
  }

  /** `s.replace(/q$/, '')`: drop `q` when `s` ends with it. */
  function RemoveSuffix(s: string, q: string): (r: string)
    ensures |q| <= |s| && s[|s| - |q|..] == q ==> r + q == s
    ensures !(|q| <= |s| && s[|s| - |q|..] == q) ==> r == s
  {
    if |q| <= |s| && s[|s| - |q|..] == q then s[..|s| - |q|] else s
  }

  /**
   * Lines 97 to 103: trim the reply, then, when it starts with a tagged or an
   * untagged fence, remove the opening fence line and then a closing fence line.
   */
  function CleanContent(raw: string): (r: string)
    ensures |r| <= |Trim(raw)|
    ensures !(Fence <= Trim(raw)) ==> r == Trim(raw)
  {
    var t := Trim(raw);
    if TaggedFence <= t then RemoveSuffix(RemovePrefix(t, TaggedFence + "\n"), "\n" + Fence)
    else if Fence <= t then RemoveSuffix(RemovePrefix(t, Fence + "\n"), "\n" + Fence)
    else t
  }

  /** The single condition of the fallback result. */
  function FallbackCondition(description: Json): Json
  {
    JObj([("name", JStr(FallbackName)), ("likelihood", JStr(FallbackLikelihood)), ("description", description)])
  }

  /**
   * The result built at lines 108 to 112 when the reply cannot be parsed:
   * read as the handler and the page read it, it has one condition and the
   * two fixed texts.
   */
  function Fallback(description: Json): (r: Json)
    ensures r.JObj?
    ensures Get(r, "probable_conditions") == Some(JArr([FallbackCondition(description)]))
    ensures Get(r, "recommendations") == Some(JStr(FallbackRecommendations))
    ensures Get(r, "disclaimer") == Some(JStr(FallbackDisclaimer))
  {
    var fields := [
      ("probable_conditions", JArr([FallbackCondition(description)])),
      ("recommendations", JStr(FallbackRecommendations)),
      ("disclaimer", JStr(FallbackDisclaimer))];
    assert Lookup(fields, "disclaimer") == Some(JStr(FallbackDisclaimer));
    assert Lookup(fields[..2], "recommendations") == Some(JStr(FallbackRecommendations));
    assert Lookup(fields[..1], "probable_conditions") == Some(fields[0].1);
    JObj(fields)
  }

  /**
   * Lines 95 to 113: `parsedResponse`. Any exception inside the `try` (content
   * that is not a string has no `trim`; `JSON.parse` rejects the text) selects
   * the fallback, whose description is the reply exactly as received.
   */
  function ParseOrFallback(content: Json, parse: string -> Option<Json>): (r: Json)
    ensures r == Fallback(content) || (content.JStr? && parse(CleanContent(content.s)) == Some(r))
    ensures r == JNull ==> content.JStr? && parse(CleanContent(content.s)) == Some(JNull)
  {
    if content.JStr? && parse(CleanContent(content.s)).Some? then parse(CleanContent(content.s)).value
    else Fallback(content)
  }

  /** A reply wrapped in a ```json fence comes out of the cleaning step exactly as it went in. */
  lemma {:induction false} TaggedFenceRoundTrip(s: string)
    ensures CleanContent(TaggedFence + "\n" + s + "\n" + Fence) == s
  {
    var w := TaggedFence + "\n" + s + "\n" + Fence;
    assert w[0] == '`' && w[|w| - 1] == '`';
    TrimKeepsUnpadded(w);
    assert TaggedFence <= w;
    assert (TaggedFence + "\n") <= w;
    var afterPrefix := RemovePrefix(w, TaggedFence + "\n");
    assert afterPrefix == s + "\n" + Fence;
    assert afterPrefix[|afterPrefix| - 4..] == "\n" + Fence;
  }

  /** So does a reply wrapped in an untagged ``` fence. */
  lemma {:induction false} PlainFenceRoundTrip(s: string)
    ensures CleanContent(Fence + "\n" + s + "\n" + Fence) == s
  {
    var w := Fence + "\n" + s + "\n" + Fence;
    assert w[0] == '`' && w[|w| - 1] == '`';
    TrimKeepsUnpadded(w);
    assert w[3] == '\n';
    assert !(TaggedFence <= w);
    assert (Fence + "\n") <= w;
    var afterPrefix := RemovePrefix(w, Fence + "\n");
    assert afterPrefix == s + "\n" + Fence;
    assert afterPrefix[|afterPrefix| - 4..] == "\n" + Fence;
  }

  /** Trimmed content that does not start with a fence reaches the parser unchanged. */
  lemma {:induction false} UnfencedPassesThrough(raw: string)
    requires !(Fence <= Trim(raw))
    ensures CleanContent(raw) == Trim(raw)
  {
  }

  /**
   * Wrapping a bare reply (already trimmed, not itself starting with a fence)
   * in either fence changes nothing about what the parser is given.
   */
  lemma {:induction false} FencingIsTransparent(s: string)
    requires Trim(s) == s && !(Fence <= s)
    ensures CleanContent(TaggedFence + "\n" + s + "\n" + Fence) == CleanContent(s)
    ensures CleanContent(Fence + "\n" + s + "\n" + Fence) == CleanContent(s)
  {
    TaggedFenceRoundTrip(s);
    PlainFenceRoundTrip(s);
    UnfencedPassesThrough(s);
  }

  /** Text the parser accepts is answered with the parsed value itself, unvalidated and unchanged. */
  lemma {:induction false} ParsedVerbatim(raw: string, parse: string -> Option<Json>)
    requires parse(CleanContent(raw)).Some?
    ensures ParseOrFallback(JStr(raw), parse) == parse(CleanContent(raw)).value
  {
  }

  /** A fenced reply is answered with what the parser makes of the text inside the fence. */
  lemma {:induction false} FencedReplyParsed(s: string, parse: string -> Option<Json>)
    requires parse(s).Some?
    ensures ParseOrFallback(JStr(TaggedFence + "\n" + s + "\n" + Fence), parse) == parse(s).value
    ensures ParseOrFallback(JStr(Fence + "\n" + s + "\n" + Fence), parse) == parse(s).value
  {
    TaggedFenceRoundTrip(s);
    PlainFenceRoundTrip(s);
  }

  /**
   * When the cleaned text does not parse, or the content is not a string, the
   * answer is the fallback: one condition named "Analysis Available" with
   * likelihood "unknown" and the raw content as its description, and the two
   * fixed texts.
   */
  lemma {:induction false} FallbackOnParseFailure(content: Json, parse: string -> Option<Json>)
    requires !content.JStr? || parse(CleanContent(content.s)).None?
    ensures var r := ParseOrFallback(content, parse);
      Get(r, "probable_conditions") ==
        Some(JArr([JObj([("name", JStr(FallbackName)),
                         ("likelihood", JStr(FallbackLikelihood)),
                         ("description", content)])])) &&
      Get(r, "recommendations") == Some(JStr(FallbackRecommendations)) &&
      Get(r, "disclaimer") == Some(JStr(FallbackDisclaimer))
  {
    assert ParseOrFallback(content, parse) == Fallback(content);
  }

  /** The fallback is never null, so a reply that cannot be parsed is always answered 200 once it is stored. */
  lemma {:induction false} FallbackIsObject(content: Json, parse: string -> Option<Json>)
    requires !content.JStr? || parse(CleanContent(content.s)).None?
    ensures ParseOrFallback(content, parse).JObj?
  {
  }

  /**
   * The `POST` handler (lines 15 to 149). It answers, and says whether it read
   * the API key, whether it called the gateway, and what it asked the database
   * to insert.
   */
  method Handle(env: Env) returns (resp: Response, trace: Trace)
    // the answer's shape: a result is sent exactly when the status is 200
    ensures resp.status == 200 <==> resp.body.Payload?
    ensures resp.status in {200, 400, 402, 429, 500}
    // the request body cannot be read
    ensures env.request.None? ==> resp == Response(500, RuntimeError(MalformedRequestBody)) && trace == NoEffects
    ensures env.request == Some(JNull) ==> resp == Response(500, RuntimeError(NullRequestBody)) && trace == NoEffects
    // missing or blank symptoms: 400, before the key is read
    ensures RejectedSymptoms(env.request) ==>
              resp == Response(400, ErrorMessage(EmptySymptomsMessage)) && trace == NoEffects
    ensures NonStringSymptoms(env.request) ==> resp == Response(500, RuntimeError(SymptomsNotString)) && trace == NoEffects
    // the key is read exactly when validation passes, the gateway called exactly when the key is also set
    ensures trace.keyRead <==> AcceptedSymptoms(env.request).Some?
    ensures trace.calledUpstream <==> AcceptedSymptoms(env.request).Some? && KeyConfigured(env.apiKey)
    ensures trace.keyRead && !KeyConfigured(env.apiKey) ==> resp == Response(500, ErrorMessage(MissingKeyMessage))
    // the gateway's failures
    ensures trace.calledUpstream && env.upstream.Rejected? ==> resp == Response(500, RuntimeError(FetchRejected))
    ensures trace.calledUpstream && env.upstream.Reply? && !IsOk(env.upstream.status) ==>
              resp == (if env.upstream.status == 429 then Response(429, ErrorMessage(RateLimitMessage))
                       else if env.upstream.status == 402 then Response(402, ErrorMessage(PaymentRequiredMessage))
                       else Response(500, ErrorMessage(GatewayErrorMessage)))
    ensures trace.calledUpstream && env.upstream.Reply? && IsOk(env.upstream.status) && env.upstream.json.None? ==>
              resp == Response(500, RuntimeError(MalformedUpstreamBody))
    ensures trace.calledUpstream && env.upstream.Reply? && IsOk(env.upstream.status) && env.upstream.json == Some(JNull) ==>
              resp == Response(500, RuntimeError(NullUpstreamBody))
    ensures trace.calledUpstream && env.upstream.Reply? && IsOk(env.upstream.status) &&
            env.upstream.json.Some? && !env.upstream.json.value.JNull? && Falsy(ReplyContent(env.upstream.json.value)) ==>
              resp == Response(500, ErrorMessage(NoContentMessage))
    // a reply with content: the store is attempted only with a client and a non-null result
    ensures trace.insert.Some? <==>
              trace.calledUpstream && env.upstream.Reply? && IsOk(env.upstream.status) &&
              env.upstream.json.Some? && !env.upstream.json.value.JNull? &&
              !Falsy(ReplyContent(env.upstream.json.value)) && !env.store.Unconfigured? &&
              ParseOrFallback(ReplyContent(env.upstream.json.value).value, env.parse) != JNull
    ensures trace.calledUpstream && env.upstream.Reply? && IsOk(env.upstream.status) &&
            env.upstream.json.Some? && !env.upstream.json.value.JNull? &&
            !Falsy(ReplyContent(env.upstream.json.value)) ==>
              var parsed := ParseOrFallback(ReplyContent(env.upstream.json.value).value, env.parse);
              resp == (if env.store.Unconfigured? then Response(500, RuntimeError(StoreUnconfigured))
                       else if parsed == JNull then Response(500, RuntimeError(NullParsedResponse))
                       else Response(200, Payload(parsed)))
    // what is stored, and that the store's own outcome never shapes the answer
    ensures trace.insert.Some? ==>
              resp.status == 200 &&
              trace.insert.value == Record(AcceptedSymptoms(env.request).value,
                                           Get(resp.body.value, "probable_conditions"),
                                           Get(resp.body.value, "recommendations"))
  {
    trace := NoEffects;

    // line 16: read the body and take its `symptoms` field
    if env.request.None? {
      return Response(500, RuntimeError(MalformedRequestBody)), trace;
    }
    if env.request.value.JNull? {
      return Response(500, RuntimeError(NullRequestBody)), trace;
    }
    var symptoms := Get(env.request.value, "symptoms");

    // line 18
    if Falsy(symptoms) {
      return Response(400, ErrorMessage(EmptySymptomsMessage)), trace;
    }
    if !symptoms.value.JStr? {
      return Response(500, RuntimeError(SymptomsNotString)), trace;
    }
    var text := symptoms.value.s;
    if |Trim(text)| == 0 {
      return Response(400, ErrorMessage(EmptySymptomsMessage)), trace;
    }

    // lines 25 to 28
    trace := trace.(keyRead := true);
    if !KeyConfigured(env.apiKey) {
      return Response(500, ErrorMessage(MissingKeyMessage)), trace;
    }

    // lines 33 to 83
    trace := trace.(calledUpstream := true);
    if env.upstream.Rejected? {
      return Response(500, RuntimeError(FetchRejected)), trace;
    }
    var status := env.upstream.status;
    if !IsOk(status) {
      if status == 429 {
        return Response(429, ErrorMessage(RateLimitMessage)), trace;
      }
      if status == 402 {
        return Response(402, ErrorMessage(PaymentRequiredMessage)), trace;
      }
      return Response(500, ErrorMessage(GatewayErrorMessage)), trace;
    }

    // lines 85 to 90
    if env.upstream.json.None? {
      return Response(500, RuntimeError(MalformedUpstreamBody)), trace;
    }
    var aiData := env.upstream.json.value;
    if aiData.JNull? {
      return Response(500, RuntimeError(NullUpstreamBody)), trace;
    }
    var aiContent := ReplyContent(aiData);
    if Falsy(aiContent) {
      return Response(500, ErrorMessage(NoContentMessage)), trace;
    }

    // lines 95 to 113
    var parsedResponse := ParseOrFallback(aiContent.value, env.parse);

    // lines 116 to 131; an insert error is only logged
    if env.store.Unconfigured? {
      return Response(500, RuntimeError(StoreUnconfigured)), trace;
    }
    if parsedResponse.JNull? {
      return Response(500, RuntimeError(NullParsedResponse)), trace;
    }
    var row := Record(text, Get(parsedResponse, "probable_conditions"), Get(parsedResponse, "recommendations"));
    trace := trace.(insert := Some(row));

    // lines 133 to 139
    resp := Response(200, Payload(parsedResponse));
  }
}
