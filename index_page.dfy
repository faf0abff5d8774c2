/**
 * The symptom form on the index page: the state behind it (`symptoms`,
 * `loading`, `result`), the analyze handler, the analyze button's
 * `disabled` rule, and the badge variant chosen for a likelihood.
 */
module IndexPage {
  import opened Wrappers
  import opened JsValues
  import Text
  import CheckSymptoms

  const EnterSymptomsMessage := "Please enter your symptoms"
  const CompleteMessage := "Analysis complete"
  const DefaultFailureMessage := "Failed to analyze symptoms. Please try again."

  /** A notification: `toast.success` or `toast.error`. */
  datatype Toast = SuccessToast(message: string) | ErrorToast(message: string)

  /** What `supabase.functions.invoke` settles with: data, or an error carrying a message. */
  datatype InvokeOutcome = Returned(data: Json) | Errored(message: string)

  /** The message shown when the call fails (line 48): the error's own message unless it is empty. */
  function FailureMessage(errorMessage: string): (r: string)
    ensures r != []
    ensures errorMessage != [] ==> r == errorMessage
    ensures errorMessage == [] ==> r == DefaultFailureMessage
  {
    if errorMessage != [] then errorMessage else DefaultFailureMessage
  }

  /** The analyze button's `disabled` rule (line 105). */
  predicate AnalyzeDisabled(loading: bool, symptoms: string)
    ensures AnalyzeDisabled(loading, symptoms) <==> loading || Text.IsBlank(symptoms)
  {
    loading || Text.Trim(symptoms) == []
  }

  /** The `Badge` variants the page uses. */
  datatype BadgeVariant = Destructive | Default | Secondary | Outline

  /** `getLikelihoodColor` */
  function LikelihoodColor(likelihood: string): (r: BadgeVariant)
    ensures r == Outline <==> likelihood !in {"high", "medium", "low"}
  {
    match likelihood
    case "high" => Destructive
    case "medium" => Default
    case "low" => Secondary
    case _ => Outline
  }

  /** The three declared likelihoods each get a variant of their own, each a different one. */
  lemma LikelihoodColorCases()
    ensures LikelihoodColor("high") == Destructive
    ensures LikelihoodColor("medium") == Default
    ensures LikelihoodColor("low") == Secondary
    ensures LikelihoodColor("high") != LikelihoodColor("medium")
    ensures LikelihoodColor("medium") != LikelihoodColor("low")
    ensures LikelihoodColor("high") != LikelihoodColor("low")
  {
  }

  /** The handler's fallback condition, whose likelihood is outside the declared three, is shown outlined. */
  lemma FallbackLikelihoodOutlined()
    ensures CheckSymptoms.FallbackLikelihood !in {"high", "medium", "low"}
    ensures LikelihoodColor(CheckSymptoms.FallbackLikelihood) == Outline
  {
  }

  /** The page's state. `result` is `JNull` while there is no analysis to show. */
  class SymptomForm {
    var symptoms: string
    var loading: bool
    var result: Json

    /** No result is on screen while a request is running. */
    ghost predicate Valid()
      reads this
    {
      loading ==> result == JNull
    }

    /** The three `useState` initial values. */
    constructor ()
      ensures Valid()
      ensures symptoms == [] && !loading && result == JNull
    {
      symptoms := [];
      loading := false;
      result := JNull;
    }

    /** The button's `disabled` attribute. */
    predicate ButtonDisabled()
      reads this
    {
      AnalyzeDisabled(loading, symptoms)
    }

    /** The text area's `onChange`; the text area is disabled while a request is running. */
    method Edit(text: string)
      requires Valid() && !loading
      modifies this
      ensures Valid()
      ensures symptoms == text && loading == old(loading) && result == old(result)
    {
      symptoms := text;
    }

    /**
     * `handleAnalyze` up to the `await` (lines 29 to 35): blank text is refused
     * with a notification and nothing changes; otherwise the request starts
     * with `loading` set and the old result cleared.
     */
    method Submit() returns (invoked: bool, toast: Option<Toast>)
      requires Valid()
      modifies this
      ensures Valid()
      ensures symptoms == old(symptoms)
      ensures invoked <==> !Text.IsBlank(symptoms)
      ensures !invoked ==> loading == old(loading) && result == old(result) && toast == Some(ErrorToast(EnterSymptomsMessage))
      ensures invoked ==> loading && result == JNull && toast.None?
    {
      if Text.Trim(symptoms) == [] {
        return false, Some(ErrorToast(EnterSymptomsMessage));
      }
      loading := true;
      result := JNull;
      return true, None;
    }

    /**
     * `handleAnalyze` after the `await` (lines 42 to 51): data is shown, an
     * error is reported, and `loading` is cleared either way.
     */
    method Settle(outcome: InvokeOutcome) returns (toast: Toast)
      requires Valid() && loading
      modifies this
      ensures Valid()
      ensures symptoms == old(symptoms) && !loading
      ensures outcome.Returned? ==> result == outcome.data && toast == SuccessToast(CompleteMessage)
      ensures outcome.Errored? ==> result == JNull && toast == ErrorToast(FailureMessage(outcome.message))
    {
      match outcome {
        case Returned(data) =>
          result := data;
          toast := SuccessToast(CompleteMessage);
        case Errored(message) =>
          toast := ErrorToast(FailureMessage(message));
      }
      loading := false;
    }

    /** The whole of `handleAnalyze`, with the call settling as `outcome`; the notifications in the order shown. */
    method HandleAnalyze(outcome: InvokeOutcome) returns (invoked: bool, toasts: seq<Toast>)
      requires Valid()
      modifies this
      ensures Valid()
      ensures symptoms == old(symptoms)
      ensures invoked <==> !Text.IsBlank(symptoms)
      ensures invoked <== !old(ButtonDisabled())
      ensures !invoked ==> loading == old(loading) && result == old(result) && toasts == [ErrorToast(EnterSymptomsMessage)]
      ensures invoked ==> !loading
      ensures invoked && outcome.Returned? ==> result == outcome.data && toasts == [SuccessToast(CompleteMessage)]
      ensures invoked && outcome.Errored? ==> result == JNull && toasts == [ErrorToast(FailureMessage(outcome.message))]
    {
      var toast;
      invoked, toast := Submit();
      if !invoked {
        return invoked, [toast.value];
      }
      var settled := Settle(outcome);
      toasts := [settled];
    }
  }
}
