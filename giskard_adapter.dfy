/** Giskard testset rows mapped to test cases and examples (generation/adapters/giskard_adapter.py). */
module GiskardAdapter {
  import opened Base
  import opened Text
  import opened Values
  import opened TestCaseModel
  import opened DatasetExampleModel
  import opened EngineRecords

  const Generator := "giskard"

  function Question(row: Row): Value { Cell(row, "question", Str("")) }
  function ReferenceAnswer(row: Row): Value { Cell(row, "reference_answer", Str("")) }
  function ReferenceContext(row: Row): Value { Cell(row, "reference_context", Str("")) }

  /** `row.metadata.get("question_type", "unknown")`, "unknown" when the row has no dict metadata. */
  function QuestionType(row: Row): Value {
    MetadataEntry(row, "question_type").GetOr(Str("unknown"))
  }

  const Complex := "complex"
  const Multi := "multi"
  const Simple := "simple"
  const Direct := "direct"
  const Conversational := "conversational"

  /** `str(question_type).lower()`, the text the substring tests look at. */
  function TypeText(qt: Value): string { Lower(Display(qt)) }

  predicate IsComplexText(t: string) { Contains(t, Complex) || Contains(t, Multi) }
  predicate IsSimpleText(t: string) { Contains(t, Simple) || Contains(t, Direct) }
  predicate IsConversationalText(t: string) { Contains(t, Conversational) }

  predicate IsComplex(qt: Value) { IsComplexText(TypeText(qt)) }
  predicate IsSimple(qt: Value) { IsSimpleText(TypeText(qt)) }
  predicate IsConversational(qt: Value) { IsConversationalText(TypeText(qt)) }

  const ComplexAxes := ["context_complexity", "knowledge_depth"]
  const SimpleAxes := ["tone", "specificity"]
  const ConversationalAxes := ["conversation_style", "formality_level"]
  const DefaultAxes := ["question_complexity", "knowledge_specificity"]

  /** Axes by question type: complex/multi, then simple/direct, then conversational, then knowledge-base defaults. */
  function QuestionAxes(qt: Value): (r: seq<string>)
    ensures |r| == 2
    ensures IsComplex(qt) ==> r == ComplexAxes
    ensures !IsComplex(qt) && IsSimple(qt) ==> r == SimpleAxes
    ensures !IsComplex(qt) && !IsSimple(qt) && IsConversational(qt) ==> r == ConversationalAxes
  {
    if IsComplex(qt) then ComplexAxes
    else if IsSimple(qt) then SimpleAxes
    else if IsConversational(qt) then ConversationalAxes
    else DefaultAxes
  }

  const ComplexCriteria := ["knowledge_accuracy", "context_relevance", "answer_completeness", "policy_compliance"]
  const ConversationalCriteria := ["conversation_naturalness", "answer_relevance", "policy_compliance"]
  const DefaultCriteria := ["knowledge_accuracy", "answer_relevance", "policy_compliance"]

  /** Criteria by question type; simple questions share the defaults. */
  function QuestionCriteria(qt: Value): (r: seq<string>)
    ensures |r| == (if IsComplex(qt) then 4 else 3)
    ensures "policy_compliance" in r
    ensures IsComplex(qt) ==> r == ComplexCriteria
    ensures !IsComplex(qt) && IsConversational(qt) ==> r == ConversationalCriteria
  {
    if IsComplex(qt) then ComplexCriteria
    else if IsConversational(qt) then ConversationalCriteria
    else DefaultCriteria
  }

  const SimpleConversationalType := Simple + "_" + Conversational

  /** "simple_conversational" passes the simple and the conversational tests and fails the complex one. */
  lemma SimpleConversationalTests()
    ensures !IsComplex(Str(SimpleConversationalType)) && IsSimple(Str(SimpleConversationalType))
            && IsConversational(Str(SimpleConversationalType))
  {
    var t := SimpleConversationalType;
    LowerKeepsLowercase(t);
    assert TypeText(Str(t)) == t;
    SimpleConversationalText();
  }

  lemma SimpleConversationalText()
    ensures !IsComplexText(SimpleConversationalType) && IsSimpleText(SimpleConversationalType)
            && IsConversationalText(SimpleConversationalType)
  {
    SimpleConversationalMatches();
    NotComplexWithout(SimpleConversationalType);
  }

  lemma SimpleConversationalMatches()
    ensures IsSimpleText(SimpleConversationalType) && IsConversationalText(SimpleConversationalType)
  {
    ContainsAt(SimpleConversationalType, Simple, 0);
    ContainsAt(SimpleConversationalType, Conversational, 7);
  }

  /** A text with no `x` and no `u` contains neither "complex" nor "multi". */
  lemma NotComplexWithout(t: string)
    requires 'x' !in t && 'u' !in t
    ensures !IsComplexText(t)
  {
    AbsentCharNotContained(t, Complex, 'x');
    AbsentCharNotContained(t, Multi, 'u');
  }

  /**
   * The two tables test in different orders: a "simple conversational"
   * question gets the simple axes but the conversational criteria.
   */
  lemma SimpleConversationalSplit()
    ensures QuestionAxes(Str(SimpleConversationalType)) == SimpleAxes
    ensures QuestionCriteria(Str(SimpleConversationalType)) == ConversationalCriteria
  {
    SimpleConversationalTests();
  }

  /** `str(reference_context)[:200]` when truthy, otherwise "". */
  function ContextPreview(row: Row): (r: string)
    ensures |r| <= 200
    ensures Truthy(ReferenceContext(row)) ==> StartsWith(Display(ReferenceContext(row)), r)
  {
    if Truthy(ReferenceContext(row)) then Take(Display(ReferenceContext(row)), 200) else ""
  }

  function OwnMetadata(row: Row): Metadata {
    map["generator" := Str(Generator), "question_type" := Str(Display(QuestionType(row))),
        "reference_context" := Str(ContextPreview(row))]
  }

  const TestCaseFallbackText := "Test case adapted from Giskard testset"

  /** `adapt_giskard_row_to_test_case`; as for DeepEval, it raises exactly on a use-case id without `uc_`. */
  function AdaptRowToTestCase(row: Row, useCaseId: string, index: nat): (r: Result<TestCase>)
    ensures r.Ok? <==> StartsWith(useCaseId, "uc_")
    ensures r.Ok? ==> TestCaseModel.Valid(r.value) && r.value.id == EngineTestCaseId(useCaseId, index)
                      && r.value.useCaseId == useCaseId
                      && (!AmbiguousNa(ReferenceAnswer(row)) ==>
                            r.value.name == EngineName(Question(row), index)
                            && r.value.description == AnswerDescription(ReferenceAnswer(row), Question(row), useCaseId).value
                            && r.value.parameterVariationAxes == QuestionAxes(QuestionType(row))
                            && r.value.metadata == OwnMetadata(row))
    ensures r.Ok? && AmbiguousNa(ReferenceAnswer(row)) ==>
              r.value.name == DefaultName(index) && r.value.description == TestCaseFallbackText
              && r.value.parameterVariationAxes == MinimalAxes
              && r.value.metadata == map["generator" := Str(Generator), "adaptation_error" := Str(AmbiguousTruthError)]
  {
    var q := Question(row);
    var description := AnswerDescription(ReferenceAnswer(row), q, useCaseId);
    if description.Err? then MinimalTestCase(Generator, TestCaseFallbackText, useCaseId, index, description.error)
    else
      var main := MakeTestCase(EngineTestCaseId(useCaseId, index), useCaseId, EngineName(q, index),
                               description.value, QuestionAxes(QuestionType(row)), OwnMetadata(row));
      OrMinimalTestCase(main, Generator, TestCaseFallbackText, useCaseId, index)
  }

  /** Policy ids are looked for only in a string reference context. */
  function ContextTexts(row: Row): seq<string> {
    if ReferenceContext(row).Str? then [ReferenceContext(row).s] else []
  }

  function ChosenPolicyIds(row: Row, policyIds: Option<seq<string>>): seq<string> {
    if policyIds.Some? then policyIds.value else ScrapedPolicyIds(ContextTexts(row))
  }

  /**
   * The policy ids the returned example carries (before `or ["pol_unknown"]`):
   * the given or scraped ones, except that an answer cell that raises does so
   * before the scraping, leaving the caller's `policy_ids`.
   */
  function IdsInUse(row: Row, policyIds: Option<seq<string>>): seq<string> {
    if AmbiguousNa(ReferenceAnswer(row)) then policyIds.GetOr([]) else ChosenPolicyIds(row, policyIds)
  }

  /** `adapt_giskard_row_to_example`: a missing or NaN reference answer gives an empty expected output. */
  function AdaptRowToExample(row: Row, useCaseId: string, testCaseId: string, index: nat, caseName: string,
                             format: string, policyIds: Option<seq<string>>): (r: Result<DatasetExample>)
    ensures r.Ok? <==> StartsWith(useCaseId, "uc_") && StartsWith(testCaseId, "tc_")
                       && AllPolicyIdsPrefixed(OrUnknown(IdsInUse(row, policyIds)))
    ensures r.Ok? ==> DatasetExampleModel.Valid(r.value) && r.value.id == EngineExampleId(useCaseId, index)
                      && r.value.caseName == caseName && r.value.format == format
                      && r.value.useCaseId == useCaseId && r.value.testCaseId == testCaseId
                      && r.value.policyIds == OrUnknown(IdsInUse(row, policyIds))
    ensures r.Ok? && !AmbiguousNa(ReferenceAnswer(row)) && ChosenPolicyIds(row, policyIds) != [] ==>
              r.value.input == InputData([Message(User, Display(Question(row)))], None)
              && r.value.expectedOutput == AnswerText(ReferenceAnswer(row)).value
              && r.value.evaluationCriteria == QuestionCriteria(QuestionType(row))
              && r.value.metadata == WithRowMetadata(OwnMetadata(row), row)
    ensures r.Ok? && !AmbiguousNa(ReferenceAnswer(row)) && ChosenPolicyIds(row, policyIds) == [] ==>
              r.value.evaluationCriteria == MinimalCriteria && "adaptation_error" in r.value.metadata
    ensures r.Ok? && AmbiguousNa(ReferenceAnswer(row)) ==>
              r.value.evaluationCriteria == MinimalCriteria && r.value.expectedOutput == ""
              && r.value.metadata == map["generator" := Str(Generator), "adaptation_error" := Str(AmbiguousTruthError)]
  {
    var answer := AnswerText(ReferenceAnswer(row));
    if answer.Err? then
      MinimalExample(Generator, useCaseId, testCaseId, index, caseName, format, policyIds.GetOr([]), answer.error)
    else
      var ids := ChosenPolicyIds(row, policyIds);
      var main := MakeExample(EngineExampleId(useCaseId, index), caseName, format, useCaseId, testCaseId,
                              InputData([Message(User, Display(Question(row)))], None), answer.value,
                              QuestionCriteria(QuestionType(row)), ids, WithRowMetadata(OwnMetadata(row), row));
      OrMinimalExample(main, Generator, useCaseId, testCaseId, index, caseName, format, ids)
  }

  /** A reference context that is not a string (say NaN) yields `pol_unknown` alone. */
  lemma {:induction false} NonStringContextIsUnknown(row: Row)
    requires !ReferenceContext(row).Str?
    ensures ScrapedPolicyIds(ContextTexts(row)) == [UnknownPolicy]
  {
    assert ConcatMap(ContextTexts(row), FindPolicyRefs) == [];
  }

  /** The merged row metadata never replaces the adapter's generator tag. */
  lemma GeneratorKept(row: Row)
    ensures "generator" in WithRowMetadata(OwnMetadata(row), row)
    ensures WithRowMetadata(OwnMetadata(row), row)["generator"] == Str(Generator)
  {
    WithRowMetadataSpec(OwnMetadata(row), row, "generator");
  }
}
