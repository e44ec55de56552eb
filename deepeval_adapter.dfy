/** DeepEval `Golden` records mapped to test cases and examples (generation/adapters/deepeval_adapter.py). */
module DeepevalAdapter {
  import opened Base
  import opened Text
  import opened Values
  import opened TestCaseModel
  import opened DatasetExampleModel
  import opened EngineRecords

  /**
   * A golden as the adapter reads it. `context` is `StrList` when it is a list
   * (of strings) and any other value otherwise; `additionalMetadata` is
   * `None` when it is not a dict.
   */
  datatype Golden = Golden(input: string, expectedOutput: Option<string>, context: Value,
                           additionalMetadata: Option<Params>)

  const Generator := "deepeval"

  /** `additional_metadata.get("evolution_type", "unknown")`, or "unknown" when there is no dict. */
  function EvolutionType(g: Golden): Value {
    if g.additionalMetadata.Some? then Get(g.additionalMetadata.value, "evolution_type").GetOr(Str("unknown"))
    else Str("unknown")
  }

  /** `additional_metadata.get("quality_score")`, `None` when absent. */
  function QualityScore(g: Golden): Value {
    if g.additionalMetadata.Some? then Get(g.additionalMetadata.value, "quality_score").GetOr(Null) else Null
  }

  const ReasoningAxes := ["reasoning_depth", "logical_complexity"]
  const MultiContextAxes := ["context_count", "cross_reference_depth"]
  const ConcretizingAxes := ["scenario_specificity", "detail_level"]
  const ConstrainedAxes := ["constraint_type", "edge_case_complexity"]
  const DefaultAxes := ["tone", "complexity", "policy_boundary"]

  predicate IsMultiContext(ev: Value) { ev == Str("multicontext") || ev == Str("multi_context") }

  /** The axes for an evolution type, cut to at most three. */
  function EvolutionAxes(ev: Value): (r: seq<string>)
    ensures 2 <= |r| <= 3
  {
    var axes :=
      if ev == Str("reasoning") then ReasoningAxes
      else if IsMultiContext(ev) then MultiContextAxes
      else if ev == Str("concretizing") then ConcretizingAxes
      else if ev == Str("constrained") then ConstrainedAxes
      else DefaultAxes;
    Take(axes, 3)
  }

  /** The five branches of the evolution-type table. */
  lemma AxesByEvolution(ev: Value)
    ensures ev == Str("reasoning") ==> EvolutionAxes(ev) == ReasoningAxes
    ensures IsMultiContext(ev) ==> EvolutionAxes(ev) == MultiContextAxes
    ensures ev == Str("concretizing") ==> EvolutionAxes(ev) == ConcretizingAxes
    ensures ev == Str("constrained") ==> EvolutionAxes(ev) == ConstrainedAxes
    ensures (ev !in {Str("reasoning"), Str("multicontext"), Str("multi_context"), Str("concretizing"),
                     Str("constrained")}) ==> EvolutionAxes(ev) == DefaultAxes
  {
  }

  /** The first context item cut to 200 characters, else the input, else a generic sentence. */
  function ContextDescription(g: Golden, useCaseId: string): (r: string)
    ensures g.context.StrList? && g.context.items != [] ==> StartsWith(g.context.items[0], r) && |r| <= 200
    ensures !(g.context.StrList? && g.context.items != []) ==> r == QuestionDescription(Str(g.input), useCaseId)
  {
    if Truthy(g.context) && g.context.StrList? then Take(g.context.items[0], 200)
    else QuestionDescription(Str(g.input), useCaseId)
  }

  function TestCaseMetadata(g: Golden): Metadata {
    map["generator" := Str(Generator), "evolution_type" := EvolutionType(g), "quality_score" := QualityScore(g)]
  }

  const TestCaseFallbackText := "Test case adapted from DeepEval golden"

  /**
   * `adapt_deepeval_golden_to_test_case`. The only failure of the main path
   * is a use-case id without `uc_`, and the minimal record of the `except`
   * branch fails on the same id, so the call raises exactly then.
   */
  function AdaptGoldenToTestCase(g: Golden, useCaseId: string, index: nat): (r: Result<TestCase>)
    ensures r.Ok? <==> StartsWith(useCaseId, "uc_")
    ensures r.Ok? ==> TestCaseModel.Valid(r.value) && r.value.id == EngineTestCaseId(useCaseId, index)
                      && r.value.useCaseId == useCaseId && r.value.name == EngineName(Str(g.input), index)
                      && r.value.description == ContextDescription(g, useCaseId)
                      && r.value.parameterVariationAxes == EvolutionAxes(EvolutionType(g))
                      && r.value.metadata == TestCaseMetadata(g)
  {
    var main := MakeTestCase(EngineTestCaseId(useCaseId, index), useCaseId, EngineName(Str(g.input), index),
                             ContextDescription(g, useCaseId), EvolutionAxes(EvolutionType(g)), TestCaseMetadata(g));
    OrMinimalTestCase(main, Generator, TestCaseFallbackText, useCaseId, index)
  }

  const ReasoningCriteria := ["logical_correctness", "reasoning_clarity", "policy_compliance", "response_completeness"]
  const MultiContextCriteria :=
    ["context_integration", "cross_reference_accuracy", "policy_compliance", "response_completeness"]
  const DefaultCriteria := ["relevance_to_query", "policy_compliance", "response_completeness", "answer_accuracy"]

  /** Every evolution type gets four criteria, policy compliance among them. */
  function ExampleCriteria(ev: Value): (r: seq<string>)
    ensures |r| == 4 && "policy_compliance" in r
  {
    if ev == Str("reasoning") then ReasoningCriteria
    else if IsMultiContext(ev) then MultiContextCriteria
    else DefaultCriteria
  }

  /** The string items of a list-valued context. */
  function ContextTexts(g: Golden): seq<string> {
    if g.context.StrList? then g.context.items else []
  }

  /** The policy ids the example carries: the given ones, or the ones scraped from the context. */
  function ChosenPolicyIds(g: Golden, policyIds: Option<seq<string>>): seq<string> {
    if policyIds.Some? then policyIds.value else ScrapedPolicyIds(ContextTexts(g))
  }

  /** The adapter's own keys, then the golden's metadata for the keys not taken. */
  function ExampleMetadata(g: Golden): Metadata {
    var own := map["generator" := Str(Generator), "evolution_type" := EvolutionType(g),
                   "context_count" := Int(|ContextTexts(g)|)];
    if g.additionalMetadata.Some? then MergeMissing(own, g.additionalMetadata.value) else own
  }

  /** The merge never overrides `generator`, `evolution_type` or `context_count`, and adds every other golden key. */
  lemma ExampleMetadataKeepsOwnKeys(g: Golden, key: string)
    ensures "generator" in ExampleMetadata(g) && ExampleMetadata(g)["generator"] == Str(Generator)
    ensures "evolution_type" in ExampleMetadata(g) && ExampleMetadata(g)["evolution_type"] == EvolutionType(g)
    ensures "context_count" in ExampleMetadata(g) && ExampleMetadata(g)["context_count"] == Int(|ContextTexts(g)|)
    ensures g.additionalMetadata.Some? && key in Keys(g.additionalMetadata.value)
            && key !in {"generator", "evolution_type", "context_count"}
            ==> key in ExampleMetadata(g) && Get(g.additionalMetadata.value, key) == Some(ExampleMetadata(g)[key])
  {
    if g.additionalMetadata.Some? {
      MergeMissingSpec(map["generator" := Str(Generator), "evolution_type" := EvolutionType(g),
                           "context_count" := Int(|ContextTexts(g)|)], g.additionalMetadata.value);
    }
  }

  /**
   * `adapt_deepeval_golden_to_example`. The main path fails on a bad id
   * prefix or on given policy ids that are empty or lack `pol_`; the minimal
   * record then replaces empty ids by `pol_unknown`, which saves only the
   * empty-list case.
   */
  function AdaptGoldenToExample(g: Golden, useCaseId: string, testCaseId: string, index: nat, caseName: string,
                                format: string, policyIds: Option<seq<string>>): (r: Result<DatasetExample>)
    ensures r.Ok? <==> StartsWith(useCaseId, "uc_") && StartsWith(testCaseId, "tc_")
                       && AllPolicyIdsPrefixed(OrUnknown(ChosenPolicyIds(g, policyIds)))
    ensures r.Ok? ==> DatasetExampleModel.Valid(r.value) && r.value.id == EngineExampleId(useCaseId, index)
                      && r.value.caseName == caseName && r.value.format == format
                      && r.value.useCaseId == useCaseId && r.value.testCaseId == testCaseId
                      && r.value.policyIds == OrUnknown(ChosenPolicyIds(g, policyIds))
    ensures r.Ok? && ChosenPolicyIds(g, policyIds) != [] ==>
              r.value.input == InputData([Message(User, g.input)], None)
              && r.value.expectedOutput == g.expectedOutput.GetOr("")
              && r.value.evaluationCriteria == ExampleCriteria(EvolutionType(g))
              && r.value.metadata == ExampleMetadata(g)
    ensures r.Ok? && ChosenPolicyIds(g, policyIds) == [] ==>
              r.value.evaluationCriteria == MinimalCriteria && "adaptation_error" in r.value.metadata
  {
    var ids := ChosenPolicyIds(g, policyIds);
    var main := MakeExample(EngineExampleId(useCaseId, index), caseName, format, useCaseId, testCaseId,
                            InputData([Message(User, g.input)], None), g.expectedOutput.GetOr(""),
                            ExampleCriteria(EvolutionType(g)), ids, ExampleMetadata(g));
    OrMinimalExample(main, Generator, useCaseId, testCaseId, index, caseName, format, ids)
  }

  /** Without given policy ids the example always carries scraped `pol_` ids, so only the id prefixes can fail it. */
  lemma {:induction false} ScrapedIdsNeverFail(g: Golden, useCaseId: string, testCaseId: string, index: nat,
                                               caseName: string, format: string)
    ensures AdaptGoldenToExample(g, useCaseId, testCaseId, index, caseName, format, None).Ok?
            <==> StartsWith(useCaseId, "uc_") && StartsWith(testCaseId, "tc_")
    ensures AdaptGoldenToExample(g, useCaseId, testCaseId, index, caseName, format, None).Ok? ==>
              AdaptGoldenToExample(g, useCaseId, testCaseId, index, caseName, format, None).value.policyIds
              == ScrapedPolicyIds(ContextTexts(g))
  {
    ScrapedPolicyIdsSpec(ContextTexts(g), UnknownPolicy);
  }

  /** The documented test case: a reasoning golden gets a `tc_` id and the deepeval generator tag. */
  lemma DocumentedTestCase()
    ensures var g := Golden("Test question", Some("Test answer"), StrList(["Policy context"]),
                            Some([("evolution_type", Str("reasoning")), ("quality_score", Int(1))]));
            var tc := AdaptGoldenToTestCase(g, "uc_001", 1);
            tc.Ok? && StartsWith(tc.value.id, "tc_") && tc.value.metadata["generator"] == Str("deepeval")
            && tc.value.parameterVariationAxes == ReasoningAxes
  {
    assert StartsWith("uc_001", "uc_");
  }

  /** The documented example: given `pol_001`, the example is built with four criteria. */
  lemma DocumentedExample()
    ensures var g := Golden("Test question", Some("Test answer"), StrList(["Policy pol_001 applies here"]),
                            Some([("evolution_type", Str("reasoning"))]));
            var ex := AdaptGoldenToExample(g, "uc_001", "tc_001_001", 1, "support_bot", "single_turn_qa",
                                           Some(["pol_001"]));
            ex.Ok? && StartsWith(ex.value.id, "ex_") && ex.value.metadata["generator"] == Str("deepeval")
            && |ex.value.evaluationCriteria| >= 3 && ex.value.policyIds == ["pol_001"]
  {
    var g := Golden("Test question", Some("Test answer"), StrList(["Policy pol_001 applies here"]),
                    Some([("evolution_type", Str("reasoning"))]));
    assert StartsWith("uc_001", "uc_") && StartsWith("tc_001_001", "tc_") && StartsWith("pol_001", "pol_");
    ExampleMetadataKeepsOwnKeys(g, "");
  }
}
