/** Ragas testset rows mapped to test cases and examples (generation/adapters/ragas_adapter.py). */
module RagasAdapter {
  import opened Base
  import opened Text
  import opened Values
  import opened TestCaseModel
  import opened DatasetExampleModel
  import opened EngineRecords

  const Generator := "ragas"

  /** Column precedence: `question` over `user_input`, `ground_truth` over `reference`, `contexts` over `reference_contexts`. */
  function Question(row: Row): Value { Cell(row, "question", Cell(row, "user_input", Str(""))) }
  function GroundTruth(row: Row): Value { Cell(row, "ground_truth", Cell(row, "reference", Str(""))) }
  function Contexts(row: Row): Value { Cell(row, "contexts", Cell(row, "reference_contexts", StrList([]))) }

  /** The string items of a list-valued contexts cell. */
  function ContextTexts(row: Row): seq<string> {
    if Contexts(row).StrList? then Contexts(row).items else []
  }

  /**
   * The evolution type: the metadata's `evolution_type or synthesizer_name`
   * when truthy, otherwise the row's own `evolution_type`, then
   * `synthesizer_name`, then "unknown".
   */
  function EvolutionType(row: Row): (r: Value)
    ensures var m := MetadataEntry(row, "evolution_type").GetOr(Null);
            var s := MetadataEntry(row, "synthesizer_name").GetOr(Null);
            (Truthy(m) ==> r == m) && (!Truthy(m) && Truthy(s) ==> r == s)
            && (!Truthy(m) && !Truthy(s) ==> r == Cell(row, "evolution_type", Cell(row, "synthesizer_name", Str("unknown"))))
  {
    var fromMetadata := OrValue(MetadataEntry(row, "evolution_type"), MetadataEntry(row, "synthesizer_name"));
    if Truthy(fromMetadata) then fromMetadata
    else Cell(row, "evolution_type", Cell(row, "synthesizer_name", Str("unknown")))
  }

  const Reasoning := "reasoning"
  const Abstract := "abstract"
  const Multi := "multi"
  const Specific := "specific"
  const Simple := "simple"
  const Single := "single"

  /** `str(evolution_type).lower()`, the text the substring tests look at. */
  function TypeText(ev: Value): string { Lower(Display(ev)) }

  predicate IsReasoningText(t: string) { Contains(t, Reasoning) || Contains(t, Abstract) }
  predicate IsMultiText(t: string) { Contains(t, Multi) || Contains(t, Specific) }
  predicate IsSimpleText(t: string) { Contains(t, Simple) || Contains(t, Single) }

  const ReasoningAxes := ["reasoning_depth", "context_complexity"]
  const MultiAxes := ["context_count", "cross_reference_depth"]
  const SimpleAxes := ["tone", "specificity"]
  const DefaultAxes := ["tone", "complexity"]

  /** Axes by evolution type, tested in the order reasoning/abstract, multi/specific, simple/single. */
  function EvolutionAxes(ev: Value): (r: seq<string>)
    ensures |r| == 2
    ensures IsReasoningText(TypeText(ev)) ==> r == ReasoningAxes
    ensures !IsReasoningText(TypeText(ev)) && IsMultiText(TypeText(ev)) ==> r == MultiAxes
    ensures !IsReasoningText(TypeText(ev)) && !IsMultiText(TypeText(ev)) && IsSimpleText(TypeText(ev)) ==> r == SimpleAxes
  {
    var t := TypeText(ev);
    if IsReasoningText(t) then ReasoningAxes
    else if IsMultiText(t) then MultiAxes
    else if IsSimpleText(t) then SimpleAxes
    else DefaultAxes
  }

  const ReasoningCriteria := ["reasoning_correctness", "logical_flow", "policy_compliance", "answer_completeness"]
  const MultiCriteria := ["context_integration", "cross_reference_accuracy", "policy_compliance", "response_completeness"]
  const SimpleCriteria := ["relevance_to_query", "answer_accuracy", "policy_compliance"]

  /** Four criteria for reasoning and multi-context questions, three otherwise. */
  function EvolutionCriteria(ev: Value): (r: seq<string>)
    ensures |r| == (if IsReasoningText(TypeText(ev)) || IsMultiText(TypeText(ev)) then 4 else 3)
    ensures "policy_compliance" in r
  {
    var t := TypeText(ev);
    if IsReasoningText(t) then ReasoningCriteria
    else if IsMultiText(t) then MultiCriteria
    else SimpleCriteria
  }

  /** Ragas' own synthesizer name: "specific" is tested before "single", so it counts as multi-context. */
  const SpecificQueryName := Single + "_hop_" + Specific + "_query_synthesizer"

  lemma SpecificBeatsSingle()
    ensures EvolutionAxes(Str(SpecificQueryName)) == MultiAxes
    ensures EvolutionCriteria(Str(SpecificQueryName)) == MultiCriteria
  {
    var t := SpecificQueryName;
    LowerKeepsLowercase(t);
    assert TypeText(Str(t)) == t;
    SpecificQueryText();
  }

  lemma SpecificQueryText()
    ensures !IsReasoningText(SpecificQueryName) && IsMultiText(SpecificQueryName)
  {
    ContainsAt(SpecificQueryName, Specific, 11);
    NotReasoningWithout(SpecificQueryName);
  }

  /** A text with no `a` contains neither "reasoning" nor "abstract". */
  lemma NotReasoningWithout(t: string)
    requires 'a' !in t
    ensures !IsReasoningText(t)
  {
    AbsentCharNotContained(t, Reasoning, 'a');
    AbsentCharNotContained(t, Abstract, 'a');
  }

  function OwnMetadata(row: Row): Metadata {
    var ev := EvolutionType(row);
    map["generator" := Str(Generator), "evolution_type" := Str(if Truthy(ev) then Display(ev) else "unknown"),
        "contexts_used" := Int(|ContextTexts(row)|)]
  }

  const TestCaseFallbackText := "Test case adapted from Ragas testset"

  /** `adapt_ragas_row_to_test_case`; it raises exactly on a use-case id without `uc_`. */
  function AdaptRowToTestCase(row: Row, useCaseId: string, index: nat): (r: Result<TestCase>)
    ensures r.Ok? <==> StartsWith(useCaseId, "uc_")
    ensures r.Ok? ==> TestCaseModel.Valid(r.value) && r.value.id == EngineTestCaseId(useCaseId, index)
                      && r.value.useCaseId == useCaseId
                      && (!AmbiguousNa(GroundTruth(row)) ==>
                            r.value.name == EngineName(Question(row), index)
                            && r.value.description == AnswerDescription(GroundTruth(row), Question(row), useCaseId).value
                            && r.value.parameterVariationAxes == EvolutionAxes(EvolutionType(row))
                            && r.value.metadata == OwnMetadata(row))
    ensures r.Ok? && AmbiguousNa(GroundTruth(row)) ==>
              r.value.name == DefaultName(index) && r.value.description == TestCaseFallbackText
              && r.value.parameterVariationAxes == MinimalAxes
              && r.value.metadata == map["generator" := Str(Generator), "adaptation_error" := Str(AmbiguousTruthError)]
  {
    var q := Question(row);
    var description := AnswerDescription(GroundTruth(row), q, useCaseId);
    if description.Err? then MinimalTestCase(Generator, TestCaseFallbackText, useCaseId, index, description.error)
    else
      var main := MakeTestCase(EngineTestCaseId(useCaseId, index), useCaseId, EngineName(q, index),
                               description.value, EvolutionAxes(EvolutionType(row)), OwnMetadata(row));
      OrMinimalTestCase(main, Generator, TestCaseFallbackText, useCaseId, index)
  }

  function ChosenPolicyIds(row: Row, policyIds: Option<seq<string>>): seq<string> {
    if policyIds.Some? then policyIds.value else ScrapedPolicyIds(ContextTexts(row))
  }

  /**
   * The policy ids the returned example carries (before `or ["pol_unknown"]`):
   * the given or scraped ones, except that an answer cell that raises does so
   * before the scraping, leaving the caller's `policy_ids`.
   */
  function IdsInUse(row: Row, policyIds: Option<seq<string>>): seq<string> {
    if AmbiguousNa(GroundTruth(row)) then policyIds.GetOr([]) else ChosenPolicyIds(row, policyIds)
  }

  /** `adapt_ragas_row_to_example`: a NaN or empty ground truth gives an empty expected output. */
  function AdaptRowToExample(row: Row, useCaseId: string, testCaseId: string, index: nat, caseName: string,
                             format: string, policyIds: Option<seq<string>>): (r: Result<DatasetExample>)
    ensures r.Ok? <==> StartsWith(useCaseId, "uc_") && StartsWith(testCaseId, "tc_")
                       && AllPolicyIdsPrefixed(OrUnknown(IdsInUse(row, policyIds)))
    ensures r.Ok? ==> DatasetExampleModel.Valid(r.value) && r.value.id == EngineExampleId(useCaseId, index)
                      && r.value.caseName == caseName && r.value.format == format
                      && r.value.useCaseId == useCaseId && r.value.testCaseId == testCaseId
                      && r.value.policyIds == OrUnknown(IdsInUse(row, policyIds))
    ensures r.Ok? && !AmbiguousNa(GroundTruth(row)) && ChosenPolicyIds(row, policyIds) != [] ==>
              r.value.input == InputData([Message(User, Display(Question(row)))], None)
              && r.value.expectedOutput == AnswerText(GroundTruth(row)).value
              && r.value.evaluationCriteria == EvolutionCriteria(EvolutionType(row))
              && r.value.metadata == WithRowMetadata(OwnMetadata(row), row)
    ensures r.Ok? && !AmbiguousNa(GroundTruth(row)) && ChosenPolicyIds(row, policyIds) == [] ==>
              r.value.evaluationCriteria == MinimalCriteria && "adaptation_error" in r.value.metadata
    ensures r.Ok? && AmbiguousNa(GroundTruth(row)) ==>
              r.value.evaluationCriteria == MinimalCriteria && r.value.expectedOutput == ""
              && r.value.metadata == map["generator" := Str(Generator), "adaptation_error" := Str(AmbiguousTruthError)]
  {
    var answer := AnswerText(GroundTruth(row));
    if answer.Err? then
      MinimalExample(Generator, useCaseId, testCaseId, index, caseName, format, policyIds.GetOr([]), answer.error)
    else
      var ids := ChosenPolicyIds(row, policyIds);
      var main := MakeExample(EngineExampleId(useCaseId, index), caseName, format, useCaseId, testCaseId,
                              InputData([Message(User, Display(Question(row)))], None), answer.value,
                              EvolutionCriteria(EvolutionType(row)), ids, WithRowMetadata(OwnMetadata(row), row));
      OrMinimalExample(main, Generator, useCaseId, testCaseId, index, caseName, format, ids)
  }

  /** A NaN ground truth becomes an empty expected output, while the test case falls back to the question. */
  lemma NanGroundTruth(row: Row, useCaseId: string, testCaseId: string, index: nat, caseName: string, format: string)
    requires GroundTruth(row) == Nan
    ensures var r := AdaptRowToExample(row, useCaseId, testCaseId, index, caseName, format, None);
            r.Ok? ==> r.value.expectedOutput == ""
    ensures var t := AdaptRowToTestCase(row, useCaseId, index);
            t.Ok? ==> t.value.description == QuestionDescription(Question(row), useCaseId)
  {
    ScrapedPolicyIdsSpec(ContextTexts(row), UnknownPolicy);
  }

  /** The merged row metadata never replaces the adapter's three own keys. */
  lemma OwnKeysKept(row: Row, key: string)
    requires key in {"generator", "evolution_type", "contexts_used"}
    ensures key in WithRowMetadata(OwnMetadata(row), row)
    ensures WithRowMetadata(OwnMetadata(row), row)[key] == OwnMetadata(row)[key]
  {
    WithRowMetadataSpec(OwnMetadata(row), row, key);
  }
}
