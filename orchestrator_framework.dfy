/**
 * The framework tier of the orchestrator (generation/orchestrator.py): the
 * routing LLM answers with tool calls, each naming a framework generator,
 * and the generated records are adapted and collected. A failing call adds
 * nothing and never stops the tier.
 */
module FrameworkTier {
  import opened Base
  import opened Text
  import opened Values
  import opened TestCaseModel
  import opened DatasetExampleModel
  import PolicyModel
  import EngineRecords
  import DeepevalAdapter

  /** Test cases and examples, in the order they were produced. */
  datatype Records = Records(testCases: seq<TestCase>, examples: seq<DatasetExample>)

  /** A tool call of the routing answer; `arguments` is `None` when its JSON does not parse. */
  datatype ToolCall = ToolCall(name: string, arguments: Option<Params>)

  /** What `generate_with_deepeval` is called with. */
  datatype DeepevalRequest = DeepevalRequest(documentPaths: Value, numGoldens: Value, includeExpectedOutput: Value,
                                             model: string)

  /** The arguments with their defaults: the temporary policy document, 10 goldens, expected outputs on. */
  function DeepevalArguments(args: Params, policyDocPath: string, model: string): (r: DeepevalRequest)
    ensures !HasKey(args, "document_paths") ==> r.documentPaths == StrList([policyDocPath])
    ensures !HasKey(args, "num_goldens") ==> r.numGoldens == Int(10)
    ensures !HasKey(args, "include_expected_output") ==> r.includeExpectedOutput == Bool(true)
    ensures HasKey(args, "num_goldens") ==> Some(r.numGoldens) == Get(args, "num_goldens")
    ensures r.model == model
  {
    GetSpec(args, "document_paths");
    GetSpec(args, "num_goldens");
    GetSpec(args, "include_expected_output");
    DeepevalRequest(Get(args, "document_paths").GetOr(StrList([policyDocPath])), Get(args, "num_goldens").GetOr(Int(10)),
                    Get(args, "include_expected_output").GetOr(Bool(true)), model)
  }

  /** `[p.id for p in policies]` */
  function PolicyIds(policies: seq<PolicyModel.Policy>): (r: seq<string>)
    ensures |r| == |policies| && forall i :: 0 <= i < |policies| ==> r[i] == policies[i].id
  {
    seq(|policies|, i requires 0 <= i < |policies| => policies[i].id)
  }

  const DeepevalFormat := "single_turn_qa"
  const DeepevalCase := "support_bot"

  /** One valid deepeval-tagged test case and one example per golden, the example pointing at its test case. */
  predicate DeepevalPair(useCaseId: string, k: nat, tc: TestCase, ex: DatasetExample) {
    TestCaseModel.Valid(tc) && tc.id == EngineRecords.EngineTestCaseId(useCaseId, k + 1) && tc.useCaseId == useCaseId
    && "generator" in tc.metadata && tc.metadata["generator"] == Str(DeepevalAdapter.Generator)
    && DatasetExampleModel.Valid(ex) && ex.testCaseId == tc.id && ex.caseName == DeepevalCase
    && ex.format == DeepevalFormat
  }

  /**
   * The golden at position `k` (numbered `k + 1`) adapted to a test case and
   * an example; the example is built only when the test case is.
   */
  function DeepevalGolden(useCaseId: string, policyIds: seq<string>, g: DeepevalAdapter.Golden, k: nat)
    : (r: Result<(TestCase, DatasetExample)>)
    ensures r.Ok? <==> StartsWith(useCaseId, "uc_") && AllPolicyIdsPrefixed(EngineRecords.OrUnknown(policyIds))
    ensures r.Ok? ==> DeepevalPair(useCaseId, k, r.value.0, r.value.1)
  {
    var tc := DeepevalAdapter.AdaptGoldenToTestCase(g, useCaseId, k + 1);
    if tc.Err? then Err(tc.error)
    else
      assert StartsWith(tc.value.id, "tc_");
      var ex := DeepevalAdapter.AdaptGoldenToExample(g, useCaseId, tc.value.id, k + 1, DeepevalCase, DeepevalFormat,
                                                     Some(policyIds));
      if ex.Err? then Err(ex.error) else Ok((tc.value, ex.value))
  }

  /** How the loop adapts the golden at position `k`; `_invoke_deepeval` uses `GoldenAdaptation`. */
  type GoldenAdapter = (DeepevalAdapter.Golden, nat) -> Result<(TestCase, DatasetExample)>

  function GoldenAdaptation(useCaseId: string, policyIds: seq<string>): GoldenAdapter {
    (g: DeepevalAdapter.Golden, k: nat) => DeepevalGolden(useCaseId, policyIds, g, k)
  }

  /**
   * The adaptation loop of `_invoke_deepeval` over the first `n` goldens;
   * any failure loses the whole batch.
   */
  function DeepevalUpTo(adapt: GoldenAdapter, goldens: seq<DeepevalAdapter.Golden>, n: nat): Result<Records>
    requires n <= |goldens|
  {
    if n == 0 then Ok(Records([], []))
    else
      var init := DeepevalUpTo(adapt, goldens, n - 1);
      if init.Err? then init
      else
        var pair := adapt(goldens[n - 1], n - 1);
        if pair.Err? then Err(pair.error)
        else Ok(Records(init.value.testCases + [pair.value.0], init.value.examples + [pair.value.1]))
  }

  lemma {:induction false} DeepevalErrorSticks(adapt: GoldenAdapter, goldens: seq<DeepevalAdapter.Golden>, n: nat, m: nat)
    requires n <= m <= |goldens|
    requires DeepevalUpTo(adapt, goldens, n).Err?
    ensures DeepevalUpTo(adapt, goldens, m) == DeepevalUpTo(adapt, goldens, n)
    decreases m
  {
    if n < m {
      DeepevalErrorSticks(adapt, goldens, n, m - 1);
      assert DeepevalUpTo(adapt, goldens, m) == DeepevalUpTo(adapt, goldens, m - 1);
    }
  }

  /** A successful batch holds, at every position, the pair its golden adapts to. */
  lemma {:induction false} DeepevalShape(adapt: GoldenAdapter, goldens: seq<DeepevalAdapter.Golden>, n: nat)
    requires n <= |goldens|
    requires DeepevalUpTo(adapt, goldens, n).Ok?
    ensures var r := DeepevalUpTo(adapt, goldens, n).value;
            |r.testCases| == n && |r.examples| == n
            && forall k :: 0 <= k < n ==> adapt(goldens[k], k) == Ok((r.testCases[k], r.examples[k]))
  {
    if n > 0 {
      DeepevalShape(adapt, goldens, n - 1);
      var init := DeepevalUpTo(adapt, goldens, n - 1).value;
      var r := DeepevalUpTo(adapt, goldens, n).value;
      forall k | 0 <= k < n
        ensures adapt(goldens[k], k) == Ok((r.testCases[k], r.examples[k]))
      {
        if k < n - 1 {
          assert r.testCases[k] == init.testCases[k] && r.examples[k] == init.examples[k];
        }
      }
    }
  }

  /** A batch succeeds exactly when every golden in it adapts. */
  lemma {:induction false} DeepevalOkIff(adapt: GoldenAdapter, goldens: seq<DeepevalAdapter.Golden>, n: nat)
    requires n <= |goldens|
    ensures DeepevalUpTo(adapt, goldens, n).Ok? <==> forall k :: 0 <= k < n ==> adapt(goldens[k], k).Ok?
  {
    if n > 0 {
      DeepevalOkIff(adapt, goldens, n - 1);
    }
  }

  /**
   * The batch succeeds exactly when the use case has `uc_` and the policy ids
   * (or `pol_unknown` when there are none) all have `pol_`; an empty batch
   * always succeeds.
   */
  lemma DeepevalOkExactly(useCaseId: string, policyIds: seq<string>, goldens: seq<DeepevalAdapter.Golden>, n: nat)
    requires n <= |goldens|
    ensures DeepevalUpTo(GoldenAdaptation(useCaseId, policyIds), goldens, n).Ok?
            <==> n == 0 || (StartsWith(useCaseId, "uc_") && AllPolicyIdsPrefixed(EngineRecords.OrUnknown(policyIds)))
  {
    var adapt := GoldenAdaptation(useCaseId, policyIds);
    DeepevalOkIff(adapt, goldens, n);
    if n > 0 {
      assert adapt(goldens[0], 0) == DeepevalGolden(useCaseId, policyIds, goldens[0], 0);
    }
  }

  /** The loop of `_invoke_deepeval` for a given adapter. */
  method AdaptGoldens(adapt: GoldenAdapter, goldens: seq<DeepevalAdapter.Golden>) returns (r: Result<Records>)
    ensures r == DeepevalUpTo(adapt, goldens, |goldens|)
  {
    var testCases: seq<TestCase> := [];
    var examples: seq<DatasetExample> := [];
    var idx := 0;
    while idx < |goldens|
      invariant 0 <= idx <= |goldens|
      invariant DeepevalUpTo(adapt, goldens, idx) == Ok(Records(testCases, examples))
    {
      var pair := adapt(goldens[idx], idx);
      if pair.Err? {
        DeepevalErrorSticks(adapt, goldens, idx + 1, |goldens|);
        return Err(pair.error);
      }
      testCases := testCases + [pair.value.0];
      examples := examples + [pair.value.1];
      idx := idx + 1;
    }
    return Ok(Records(testCases, examples));
  }

  /** `_invoke_deepeval`: the policy ids are read once, then every golden is adapted with them. */
  method InvokeDeepeval(useCaseId: string, policies: seq<PolicyModel.Policy>, goldens: seq<DeepevalAdapter.Golden>)
    returns (r: Result<Records>)
    ensures r == DeepevalUpTo(GoldenAdaptation(useCaseId, PolicyIds(policies)), goldens, |goldens|)
  {
    var policyIds := PolicyIds(policies);
    r := AdaptGoldens(GoldenAdaptation(useCaseId, policyIds), goldens);
  }

  /**
   * `_invoke_ragas` calls `.to_pandas()` on the DataFrame the generator already
   * returns, and `_invoke_giskard` calls the generator with keyword arguments
   * it does not accept; both raise before any row is adapted.
   */
  const RagasFailure := "'DataFrame' object has no attribute 'to_pandas'"
  const GiskardFailure := "generate_with_giskard() got an unexpected keyword argument 'document_paths'"
  const BadArguments := "tool call arguments are not valid JSON"
  const DeepevalFailure := "generate_with_deepeval failed"

  /** The external calls the tier makes: the temporary document's path and the DeepEval generator. */
  datatype Environment = Environment(policyDocPath: string, deepeval: DeepevalRequest -> Option<seq<DeepevalAdapter.Golden>>)

  /** `_invoke_deepeval` on the goldens the generator returned. */
  function DeepevalInvocation(useCaseId: string, policies: seq<PolicyModel.Policy>)
    : seq<DeepevalAdapter.Golden> -> Result<Records>
  {
    goldens => DeepevalUpTo(GoldenAdaptation(useCaseId, PolicyIds(policies)), goldens, |goldens|)
  }

  /**
   * One tool call; a name that matches no generator adds nothing. `invoke`
   * adapts the goldens of a DeepEval call (`DeepevalInvocation`).
   */
  function ToolCallResult(model: string, env: Environment, invoke: seq<DeepevalAdapter.Golden> -> Result<Records>,
                          call: ToolCall): (r: Result<Records>)
    ensures call.name == "generate_with_ragas" || call.name == "generate_with_giskard" ==> r.Err?
    ensures call.name !in {"generate_with_deepeval", "generate_with_ragas", "generate_with_giskard"} && r.Ok?
            ==> r.value == Records([], [])
  {
    if call.arguments.None? then Err(BadArguments)
    else if call.name == "generate_with_deepeval" then
      var goldens := env.deepeval(DeepevalArguments(call.arguments.value, env.policyDocPath, model));
      if goldens.None? then Err(DeepevalFailure) else invoke(goldens.value)
    else if call.name == "generate_with_ragas" then Err(RagasFailure)
    else if call.name == "generate_with_giskard" then Err(GiskardFailure)
    else Ok(Records([], []))
  }

  /** The records collected from the first `n` tool calls; failed calls are skipped. */
  function ToolCallsUpTo(model: string, env: Environment, invoke: seq<DeepevalAdapter.Golden> -> Result<Records>,
                         calls: seq<ToolCall>, n: nat): Records
    requires n <= |calls|
  {
    if n == 0 then Records([], [])
    else
      var init := ToolCallsUpTo(model, env, invoke, calls, n - 1);
      var r := ToolCallResult(model, env, invoke, calls[n - 1]);
      if r.Err? then init
      else Records(init.testCases + r.value.testCases, init.examples + r.value.examples)
  }

  /** The tool-call loop: each call's records are appended, a failing call is logged and skipped. */
  method RunToolCalls(model: string, env: Environment, invoke: seq<DeepevalAdapter.Golden> -> Result<Records>,
                      calls: seq<ToolCall>) returns (testCases: seq<TestCase>, examples: seq<DatasetExample>)
    ensures Records(testCases, examples) == ToolCallsUpTo(model, env, invoke, calls, |calls|)
  {
    testCases := [];
    examples := [];
    var i := 0;
    while i < |calls|
      invariant 0 <= i <= |calls|
      invariant Records(testCases, examples) == ToolCallsUpTo(model, env, invoke, calls, i)
    {
      var r := ToolCallResult(model, env, invoke, calls[i]);
      if r.Ok? {
        testCases := testCases + r.value.testCases;
        examples := examples + r.value.examples;
      }
      i := i + 1;
    }
  }

  /**
   * The tier: `toolCalls` is the routing answer, `None` when the routing
   * call fails. It never fails itself.
   */
  function FrameworkRecords(useCaseId: string, policies: seq<PolicyModel.Policy>, model: string, env: Environment,
                            toolCalls: Option<seq<ToolCall>>): Records
  {
    if toolCalls.None? then Records([], [])
    else ToolCallsUpTo(model, env, DeepevalInvocation(useCaseId, policies), toolCalls.value, |toolCalls.value|)
  }

  /** A collected test case is valid, of the use case and tagged `deepeval`, and its example points at it. */
  predicate FromDeepeval(useCaseId: string, tc: TestCase, ex: DatasetExample) {
    TestCaseModel.Valid(tc) && tc.useCaseId == useCaseId && "generator" in tc.metadata && tc.metadata["generator"] == Str(DeepevalAdapter.Generator)
    && DatasetExampleModel.Valid(ex) && ex.testCaseId == tc.id
  }

  /** One example per test case, every pair of DeepEval's making. */
  predicate AllFromDeepeval(useCaseId: string, r: Records) {
    |r.testCases| == |r.examples|
    && forall k :: 0 <= k < |r.testCases| ==> FromDeepeval(useCaseId, r.testCases[k], r.examples[k])
  }

  lemma AppendFromDeepeval(useCaseId: string, a: Records, b: Records)
    requires AllFromDeepeval(useCaseId, a) && AllFromDeepeval(useCaseId, b)
    ensures AllFromDeepeval(useCaseId, Records(a.testCases + b.testCases, a.examples + b.examples))
  {
    var r := Records(a.testCases + b.testCases, a.examples + b.examples);
    forall k | 0 <= k < |r.testCases|
      ensures FromDeepeval(useCaseId, r.testCases[k], r.examples[k])
    {
      if k < |a.testCases| {
        assert r.testCases[k] == a.testCases[k] && r.examples[k] == a.examples[k];
      } else {
        assert r.testCases[k] == b.testCases[k - |a.testCases|] && r.examples[k] == b.examples[k - |a.testCases|];
      }
    }
  }

  /** Every batch `invoke` adapts successfully is made of DeepEval pairs. */
  ghost predicate YieldsDeepeval(useCaseId: string, invoke: seq<DeepevalAdapter.Golden> -> Result<Records>) {
    forall goldens :: invoke(goldens).Ok? ==> AllFromDeepeval(useCaseId, invoke(goldens).value)
  }

  lemma DeepevalInvocationYields(useCaseId: string, policies: seq<PolicyModel.Policy>)
    ensures YieldsDeepeval(useCaseId, DeepevalInvocation(useCaseId, policies))
  {
    var invoke := DeepevalInvocation(useCaseId, policies);
    forall goldens | invoke(goldens).Ok?
      ensures AllFromDeepeval(useCaseId, invoke(goldens).value)
    {
      var adapt := GoldenAdaptation(useCaseId, PolicyIds(policies));
      DeepevalShape(adapt, goldens, |goldens|);
      var r := DeepevalUpTo(adapt, goldens, |goldens|).value;
      forall k | 0 <= k < |r.testCases| ensures FromDeepeval(useCaseId, r.testCases[k], r.examples[k]) {
        assert DeepevalGolden(useCaseId, PolicyIds(policies), goldens[k], k) == Ok((r.testCases[k], r.examples[k]));
      }
    }
  }

  /** For such an `invoke`, whatever the tool calls collect is made of DeepEval pairs. */
  lemma {:induction false} ToolCallsFromDeepeval(useCaseId: string, model: string, env: Environment,
                                                 invoke: seq<DeepevalAdapter.Golden> -> Result<Records>,
                                                 calls: seq<ToolCall>, n: nat)
    requires n <= |calls| && YieldsDeepeval(useCaseId, invoke)
    ensures AllFromDeepeval(useCaseId, ToolCallsUpTo(model, env, invoke, calls, n))
  {
    if n > 0 {
      ToolCallsFromDeepeval(useCaseId, model, env, invoke, calls, n - 1);
      var step := ToolCallResult(model, env, invoke, calls[n - 1]);
      if step.Ok? {
        AppendFromDeepeval(useCaseId, ToolCallsUpTo(model, env, invoke, calls, n - 1), step.value);
      }
    }
  }

  /** Only DeepEval contributes to the tier. */
  lemma OnlyDeepevalContributes(useCaseId: string, policies: seq<PolicyModel.Policy>, model: string,
                                env: Environment, toolCalls: Option<seq<ToolCall>>)
    ensures AllFromDeepeval(useCaseId, FrameworkRecords(useCaseId, policies, model, env, toolCalls))
  {
    if toolCalls.Some? {
      DeepevalInvocationYields(useCaseId, policies);
      ToolCallsFromDeepeval(useCaseId, model, env, DeepevalInvocation(useCaseId, policies), toolCalls.value, |toolCalls.value|);
    }
  }
}
