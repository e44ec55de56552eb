/**
 * Classification of `metadata.source` for support-bot examples: two cheap
 * heuristics first (adversarial parameters, FAQ keywords in the use case),
 * then an LLM classification that falls back to `tickets` when it fails.
 */
module SourceClassifier {
  import opened Base
  import opened Text
  import opened Values

  /** The `source` literal of `SourceClassification`. */
  datatype SourceType = Tickets | FaqParaphrase | Corner

  function SourceName(t: SourceType): (r: string)
    ensures r in ["tickets", "faq_paraphrase", "corner"]
  {
    match t
    case Tickets => "tickets"
    case FaqParaphrase => "faq_paraphrase"
    case Corner => "corner"
  }

  lemma SourceNameInjective(a: SourceType, b: SourceType)
    ensures SourceName(a) == SourceName(b) <==> a == b
  {
  }

  /** The adversarial values that make an example a corner case. */
  predicate IsAdversarialValue(v: Value) {
    v == Str("profanity") || v == Str("injection") || v == Str("garbage")
  }

  /** Some FAQ keyword occurs in the use-case description. */
  predicate HasFaqKeyword(description: string) {
    Contains(description, "FAQ") || Contains(description, "faq") || Contains(description, "ЧаВо")
    || Contains(description, "ЧЗВ") || Contains(description, "часто задаваемые")
  }

  /**
   * `classify_source_type`. `llm` is what the structured LLM call returns
   * when it is made: `None` when the call raises or yields no parsed value.
   * The generated input only feeds the prompt and the log.
   */
  function ClassifySourceType(useCaseDescription: string, generatedInput: string, parameters: Params,
                              llm: Option<SourceType>): (r: SourceType)
  {
    var adversarial := Get(parameters, "adversarial");
    if adversarial.Some? && Truthy(adversarial.value) && IsAdversarialValue(adversarial.value) then Corner
    else if HasFaqKeyword(useCaseDescription)
            && (adversarial.None? || !Truthy(adversarial.value) || adversarial.value == Str("none")) then
      FaqParaphrase
    else
      llm.GetOr(Tickets)
  }

  /** Heuristic 1: an adversarial parameter decides the source without asking the LLM. */
  lemma AdversarialIsCorner(description: string, input: string, parameters: Params, llm: Option<SourceType>)
    requires Get(parameters, "adversarial").Some? && IsAdversarialValue(Get(parameters, "adversarial").value)
    ensures ClassifySourceType(description, input, parameters, llm) == Corner
  {
  }

  /** Heuristic 2: a FAQ keyword with no (or a "none") adversarial parameter gives `faq_paraphrase`. */
  lemma FaqKeywordIsParaphrase(description: string, input: string, parameters: Params, llm: Option<SourceType>)
    requires HasFaqKeyword(description)
    requires Get(parameters, "adversarial").None? || Get(parameters, "adversarial").value == Str("none")
    ensures ClassifySourceType(description, input, parameters, llm) == FaqParaphrase
  {
  }

  /**
   * Exactly when neither heuristic applies the LLM answer is used, and a
   * failed call gives `tickets`.
   */
  lemma LlmDecidesOtherwise(description: string, input: string, parameters: Params, llm: Option<SourceType>)
    requires !HasFaqKeyword(description)
    requires Get(parameters, "adversarial").None? || !IsAdversarialValue(Get(parameters, "adversarial").value)
    ensures ClassifySourceType(description, input, parameters, llm) == llm.GetOr(Tickets)
    ensures llm.None? ==> ClassifySourceType(description, input, parameters, llm) == Tickets
  {
  }

  /**
   * A truthy adversarial value that is neither a listed attack nor "none"
   * (say `True`) blocks the FAQ shortcut, so the LLM decides even for a FAQ use case.
   */
  lemma OtherAdversarialGoesToLlm(description: string, input: string, llm: Option<SourceType>)
    ensures ClassifySourceType(description, input, [("adversarial", Bool(true))], llm) == llm.GetOr(Tickets)
  {
    assert Get([("adversarial", Bool(true))], "adversarial") == Some(Bool(true));
  }

  /** The two documented examples. */
  lemma DocumentedExamples(llm: Option<SourceType>)
    ensures ClassifySourceType("FAQ support", "test", [("adversarial", Str("profanity"))], llm) == Corner
    ensures ClassifySourceType("FAQ about delivery", "test", [], llm) == FaqParaphrase
  {
    assert Get([("adversarial", Str("profanity"))], "adversarial") == Some(Str("profanity"));
    ContainsAt("FAQ about delivery", "FAQ", 0);
  }
}
