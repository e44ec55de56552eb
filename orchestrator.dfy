/**
 * `orchestrate_generation` (generation/orchestrator.py): the three tiers that
 * produce test cases and examples for one use case.
 *
 *  1. The format adapters: for every format and every parameter variation a
 *     test case, then (when the adapter's LLM call succeeds) an example.
 *  2. The framework tier, only while fewer than `min_test_cases` exist.
 *  3. The direct OpenAI fallback, asked for exactly the shortfall.
 *
 * A failure of the variation step replaces the whole run by the fallback
 * asked for the full minimum. Every LLM answer is an oracle value, keyed by
 * the position of the format in the list and the variation number.
 */
module Orchestrator {
  import opened Base
  import opened Text
  import opened Values
  import opened TestCaseModel
  import opened DatasetExampleModel
  import UseCaseModel
  import PolicyModel
  import VariationRouter
  import FormatAdapters
  import SourceClassifier
  import EngineRecords
  import Fallback
  import FrameworkTier

  type Variation = VariationRouter.Variation
  type Records = FrameworkTier.Records

  /** The arguments of `orchestrate_generation`; the document path only reaches prompts and the temporary file. */
  datatype Request = Request(useCase: UseCaseModel.UseCase, policies: seq<PolicyModel.Policy>, model: string,
                             minTestCases: int, caseName: string, formats: Option<seq<string>>)

  /**
   * What the outside world answers:
   *  - `allPairs`: the pairwise combinations (`None` when `AllPairs` raises);
   *  - `adapterOutput`, `uuid`, `classifier`: the adapter's structured answer,
   *    the fresh uuid of the example id and the source classification, for the
   *    format at position `j` and variation number `idx`;
   *  - `toolCalls`: the routing answer (`None` when the routing call raises);
   *  - `env`: the temporary policy document and the DeepEval generator;
   *  - `fallback`: the fallback's JSON answer when asked for `n` test cases.
   */
  datatype Oracles = Oracles(
    allPairs: Option<seq<seq<Value>>>,
    adapterOutput: (nat, nat) -> FormatAdapters.AdapterOutput,
    uuid: (nat, nat) -> string,
    classifier: (nat, nat) -> Option<SourceClassifier.SourceType>,
    toolCalls: Option<seq<FrameworkTier.ToolCall>>,
    env: FrameworkTier.Environment,
    fallback: int -> Option<Fallback.Reply>)

  /** The formats to generate, defaulted by case. */
  function Formats(req: Request): seq<string> {
    Fallback.DefaultFormats(req.caseName, req.formats)
  }

  // ---------------------------------------------------------------------------
  // Test case fields

  const AdapterGenerator := "format_adapter"
  const AdapterMetadata: Metadata := map["generator" := Str(AdapterGenerator)]
  const DefaultAxis := "default"
  const DefaultPair := [DefaultAxis, DefaultAxis]
  const SupportBot := "support_bot"

  /** `f"tc_{use_case.id.replace('uc_', '')}_{format_name}_{idx:03d}"`, as the use-case part and the format part. */
  function TestCaseId(useCaseId: string, format: string, idx: nat): (r: string)
    ensures StartsWith(r, "tc_")
  {
    IdPrefix(useCaseId) + IdSuffix(format, idx)
  }

  function IdPrefix(useCaseId: string): (r: string)
    ensures StartsWith(r, "tc_")
  {
    "tc_" + EngineRecords.UseCaseStem(useCaseId) + "_"
  }

  function IdSuffix(format: string, idx: nat): string {
    format + "_" + Pad3(idx)
  }

  lemma SameSuffix(p: string, a: string, b: string)
    requires p + a == p + b
    ensures a == b
  {
    assert a == (p + a)[|p|..];
    assert b == (p + b)[|p|..];
  }

  /** The three format names differ in their eighth character. */
  lemma KnownFormatsDifferAt7(f: string, g: string)
    requires f in FormatAdapters.SupportedFormats && g in FormatAdapters.SupportedFormats
    ensures |f| > 7 && |g| > 7 && (f[7] == g[7] ==> f == g)
  {
  }

  /**
   * Within one use case, the ids of two known formats' variations coincide
   * only for the same format and the same variation number.
   */
  lemma TestCaseIdInjective(useCaseId: string, f: string, i: nat, g: string, k: nat)
    requires f in FormatAdapters.SupportedFormats && g in FormatAdapters.SupportedFormats
    ensures TestCaseId(useCaseId, f, i) == TestCaseId(useCaseId, g, k) <==> f == g && i == k
  {
    if TestCaseId(useCaseId, f, i) == TestCaseId(useCaseId, g, k) {
      SameSuffix(IdPrefix(useCaseId), IdSuffix(f, i), IdSuffix(g, k));
      KnownFormatsDifferAt7(f, g);
      assert IdSuffix(f, i)[7] == f[7] && IdSuffix(g, k)[7] == g[7];
      assert Pad3(i) == IdSuffix(f, i)[|f| + 1..];
      assert Pad3(k) == IdSuffix(g, k)[|g| + 1..];
      Pad3Injective(i, k);
    }
  }

  /** The axes of line 145: two or more keep the first three, fewer are padded with "default". */
  function TestCaseAxes(axes: seq<string>): (r: seq<string>)
    ensures 2 <= |r| <= 3
    ensures |axes| >= 2 ==> r == axes[..Min(|axes|, 3)]
    ensures |axes| == 1 ==> r == [axes[0], DefaultAxis, DefaultAxis]
    ensures axes == [] ==> r == DefaultPair
  {
    if |axes| >= 2 then Take(axes, 3) else axes + Take(DefaultPair, 3 - |axes|)
  }

  /** `params.pop("_variation_axes", [])`: the axes, and the dict without the entry. */
  function PopAxes(v: Variation): (r: (seq<string>, Variation))
    ensures r.1.variationAxes.None? && r.1.params == v.params && VariationRouter.AsDict(r.1) == v.params
    ensures v.variationAxes.Some? ==> r.0 == v.variationAxes.value
                                      && VariationRouter.AsDict(v) == v.params + [("_variation_axes", StrList(r.0))]
    ensures v.variationAxes.None? ==> r.0 == []
  {
    (v.variationAxes.GetOr([]), VariationRouter.Variation(v.params, None))
  }

  function TestCaseName(useCaseName: string, format: string, idx: nat): string {
    useCaseName + " - " + format + " - variation " + NatToString(idx)
  }

  function TestCaseDescription(useCaseName: string, params: Params): string {
    "Test case for " + useCaseName + " with parameters: " + ReprParams(params)
  }

  // ---------------------------------------------------------------------------
  // Example post-processing

  /** The content of the first user message, or "" when there is none. */
  function FirstUserContent(messages: seq<Message>): (r: string)
    ensures (forall k :: 0 <= k < |messages| ==> messages[k].role != User) ==> r == ""
    decreases |messages|
  {
    if messages == [] then ""
    else if messages[0].role == User then messages[0].content
    else FirstUserContent(messages[1..])
  }

  lemma {:induction false} FirstUserContentAt(messages: seq<Message>, k: nat)
    requires k < |messages| && messages[k].role == User
    requires forall j :: 0 <= j < k ==> messages[j].role != User
    ensures FirstUserContent(messages) == messages[k].content
    decreases k
  {
    if k > 0 {
      FirstUserContentAt(messages[1..], k - 1);
    }
  }

  /** The loop of lines 169-173. */
  method FindUserContent(messages: seq<Message>) returns (content: string)
    ensures content == FirstUserContent(messages)
  {
    var i := 0;
    while i < |messages|
      invariant 0 <= i <= |messages|
      invariant forall j :: 0 <= j < i ==> messages[j].role != User
    {
      if messages[i].role == User {
        FirstUserContentAt(messages, i);
        return messages[i].content;
      }
      i := i + 1;
    }
    return "";
  }

  const SourceTags := [Str("tickets"), Str("faq_paraphrase"), Str("corner")]

  predicate HasSourceTag(e: DatasetExample) {
    "source" in e.metadata && e.metadata["source"] in SourceTags
  }

  /** `example.metadata["source"] = source_type` */
  function SourceTagged(e: DatasetExample, useCaseDescription: string, params: Params,
                        llm: Option<SourceClassifier.SourceType>): DatasetExample
  {
    var source := SourceClassifier.ClassifySourceType(useCaseDescription, FirstUserContent(e.input.messages), params, llm);
    e.(metadata := e.metadata["source" := Str(SourceClassifier.SourceName(source))])
  }

  /**
   * The tag is the classification of the first user message, one of the three
   * source names; every other key and every other field is kept.
   */
  lemma SourceTagKeepsMetadata(e: DatasetExample, useCaseDescription: string, params: Params,
                               llm: Option<SourceClassifier.SourceType>)
    ensures var r := SourceTagged(e, useCaseDescription, params, llm);
            HasSourceTag(r)
            && r.metadata["source"] == Str(SourceClassifier.SourceName(SourceClassifier.ClassifySourceType(
                 useCaseDescription, FirstUserContent(e.input.messages), params, llm)))
            && (forall key :: key in e.metadata && key != "source" ==> key in r.metadata && r.metadata[key] == e.metadata[key])
            && r == e.(metadata := r.metadata)
  {
  }

  /**
   * How an adapter produces an example from the use case id, the test case id,
   * the model, the uuid and its LLM answer; the tier runs on
   * `AdapterExamples()`, which is `FormatAdapters.GenerateExample`.
   */
  type Generate = (FormatAdapters.Adapter, string, string, string, string, FormatAdapters.AdapterOutput)
                  -> Result<DatasetExample>

  function AdapterExamples(): Generate {
    (a, useCaseId, testCaseId, model, uuid, output) =>
      FormatAdapters.GenerateExample(a, useCaseId, testCaseId, model, uuid, output)
  }

  /** Every example `generate` returns is valid, passes its adapter's check and carries the ids it was given. */
  ghost predicate GeneratesPassing(generate: Generate) {
    forall a, useCaseId, testCaseId, model, uuid, output
      | generate(a, useCaseId, testCaseId, model, uuid, output).Ok? ::
        var e := generate(a, useCaseId, testCaseId, model, uuid, output).value;
        DatasetExampleModel.Valid(e) && FormatAdapters.ValidateFormat(a, e) == []
        && e.format == FormatAdapters.FormatName(a.kind) && e.useCaseId == useCaseId && e.testCaseId == testCaseId
  }

  lemma AdapterExamplesPass()
    ensures GeneratesPassing(AdapterExamples())
  {
    forall a, useCaseId, testCaseId, model, uuid, output
      | FormatAdapters.GenerateExample(a, useCaseId, testCaseId, model, uuid, output).Ok?
      ensures var e := FormatAdapters.GenerateExample(a, useCaseId, testCaseId, model, uuid, output).value;
              DatasetExampleModel.Valid(e) && FormatAdapters.ValidateFormat(a, e) == []
              && e.format == FormatAdapters.FormatName(a.kind) && e.useCaseId == useCaseId
              && e.testCaseId == testCaseId
    {
      FormatAdapters.GeneratedExamplePasses(a, useCaseId, testCaseId, model, uuid, output);
    }
  }

  /** Lines 154-184 for one variation: the adapter's example with the case set and, for support_bot, the source. */
  function TierExample(req: Request, o: Oracles, generate: Generate, j: nat, idx: nat, adapter: FormatAdapters.Adapter,
                       tcId: string, params: Params): Result<DatasetExample>
  {
    var generated := generate(adapter, req.useCase.id, tcId, req.model, o.uuid(j, idx), o.adapterOutput(j, idx));
    if generated.Err? then Err(generated.error)
    else
      var e := generated.value.(caseName := req.caseName);
      if req.caseName == SupportBot then Ok(SourceTagged(e, req.useCase.description, params, o.classifier(j, idx)))
      else Ok(e)
  }

  /** A valid example of a known format for the request's case and use case, source-tagged for support_bot. */
  predicate TierExampleOk(req: Request, e: DatasetExample) {
    DatasetExampleModel.Valid(e) && e.caseName == req.caseName && e.useCaseId == req.useCase.id
    && e.format in FormatAdapters.SupportedFormats
    && FormatAdapters.ValidateFormat(FormatAdapters.GetAdapterForFormat(e.format, req.caseName).value, e) == []
    && (req.caseName == SupportBot ==> HasSourceTag(e))
  }

  /**
   * The example keeps the adapter's answer apart from its case and, for
   * support_bot only, its `source`; it still passes the adapter's own format
   * check, so the check at line 187 never reports.
   */
  lemma TierExamplePasses(req: Request, o: Oracles, generate: Generate, j: nat, idx: nat, format: string,
                          adapter: FormatAdapters.Adapter, tcId: string, params: Params)
    requires GeneratesPassing(generate) && FormatAdapters.GetAdapterForFormat(format, req.caseName) == Ok(adapter)
    ensures var r := TierExample(req, o, generate, j, idx, adapter, tcId, params);
            var generated := generate(adapter, req.useCase.id, tcId, req.model, o.uuid(j, idx), o.adapterOutput(j, idx));
            (r.Ok? <==> generated.Ok?)
            && (r.Ok? ==> (TierExampleOk(req, r.value) && r.value.testCaseId == tcId && r.value.format == format
                          && r.value.input == generated.value.input && r.value.id == generated.value.id))
            && (r.Ok? && req.caseName != SupportBot ==> r.value.metadata == generated.value.metadata)
  {
    if generate(adapter, req.useCase.id, tcId, req.model, o.uuid(j, idx), o.adapterOutput(j, idx)).Ok? {
      var e := generate(adapter, req.useCase.id, tcId, req.model, o.uuid(j, idx), o.adapterOutput(j, idx)).value;
      SourceTagKeepsMetadata(e.(caseName := req.caseName), req.useCase.description, params, o.classifier(j, idx));
    }
  }

  // ---------------------------------------------------------------------------
  // The adapter tier

  /** The two accumulators and the (shared, mutated) variation dicts. */
  datatype TierState = TierState(testCases: seq<TestCase>, examples: seq<DatasetExample>, variations: seq<Variation>)

  /**
   * One iteration of the inner loop (lines 131-195) for variation `i`, number
   * `i + 1`: the pop happens first, a test case that fails to build adds
   * nothing, a test case is appended before its example is generated, and a
   * failed example leaves the test case without one.
   */
  function VariationStep(req: Request, o: Oracles, generate: Generate, j: nat, format: string,
                         adapter: FormatAdapters.Adapter, st: TierState, i: nat): (r: TierState)
    requires i < |st.variations|
    ensures |r.variations| == |st.variations|
  {
    var popped := PopAxes(st.variations[i]);
    var variations := st.variations[i := popped.1];
    var tcId := TestCaseId(req.useCase.id, format, i + 1);
    var tc := MakeTestCase(tcId, req.useCase.id, TestCaseName(req.useCase.name, format, i + 1),
                           TestCaseDescription(req.useCase.name, popped.1.params), TestCaseAxes(popped.0),
                           AdapterMetadata);
    if tc.Err? then TierState(st.testCases, st.examples, variations)
    else
      var e := TierExample(req, o, generate, j, i + 1, adapter, tcId, popped.1.params);
      if e.Err? then TierState(st.testCases + [tc.value], st.examples, variations)
      else TierState(st.testCases + [tc.value], st.examples + [e.value], variations)
  }

  /** The inner loop's step as a value; an index past the variations changes nothing. */
  function VariationStepper(req: Request, o: Oracles, generate: Generate, j: nat, format: string,
                            adapter: FormatAdapters.Adapter): (TierState, nat) -> TierState
  {
    (st: TierState, i: nat) =>
      if i < |st.variations| then VariationStep(req, o, generate, j, format, adapter, st, i) else st
  }

  /** The inner loop over the first `n` variations. */
  function VariationsUpTo(req: Request, o: Oracles, generate: Generate, j: nat, format: string,
                          adapter: FormatAdapters.Adapter, st: TierState, n: nat): TierState
  {
    Iterate(VariationStepper(req, o, generate, j, format, adapter), st, n)
  }

  lemma VariationsKeepCount(req: Request, o: Oracles, generate: Generate, j: nat, format: string,
                                               adapter: FormatAdapters.Adapter, st: TierState, n: nat)
    ensures |VariationsUpTo(req, o, generate, j, format, adapter, st, n).variations| == |st.variations|
  {
    var step := VariationStepper(req, o, generate, j, format, adapter);
    var size := (s: TierState) => |s.variations|;
    forall s: TierState, i: nat ensures size(step(s, i)) == size(s) {
      if i < |s.variations| {
        assert step(s, i) == VariationStep(req, o, generate, j, format, adapter, s, i);
      }
    }
    IterateKeeps(step, size, st, n);
  }

  /** One format (lines 122-199): an unknown format is skipped, a known one runs over every variation. */
  function FormatStep(req: Request, o: Oracles, generate: Generate, formats: seq<string>, j: nat, st: TierState)
    : TierState
  {
    if j >= |formats| then st
    else
      var adapter := FormatAdapters.GetAdapterForFormat(formats[j], req.caseName);
      if adapter.Err? then st
      else VariationsUpTo(req, o, generate, j, formats[j], adapter.value, st, |st.variations|)
  }

  function FormatStepper(req: Request, o: Oracles, generate: Generate, formats: seq<string>)
    : (TierState, nat) -> TierState
  {
    (st: TierState, j: nat) => FormatStep(req, o, generate, formats, j, st)
  }

  /** The outer loop over the first `n` formats. */
  function FormatsUpTo(req: Request, o: Oracles, generate: Generate, formats: seq<string>, st: TierState, n: nat)
    : TierState
  {
    Iterate(FormatStepper(req, o, generate, formats), st, n)
  }

  /** The adapter tier from empty accumulators, over the defaulted formats. */
  function AdapterTier(req: Request, o: Oracles, generate: Generate, variations: seq<Variation>): TierState {
    FormatsUpTo(req, o, generate, Formats(req), TierState([], [], variations), |Formats(req)|)
  }

  /** The body of the inner loop, on the accumulators and the variation list. */
  method RunVariation(req: Request, o: Oracles, generate: Generate, j: nat, format: string,
                      adapter: FormatAdapters.Adapter, st: TierState, i: nat) returns (r: TierState)
    requires i < |st.variations|
    ensures r == VariationStep(req, o, generate, j, format, adapter, st, i)
  {
    var testCases, examples := st.testCases, st.examples;
    var (axes, popped) := PopAxes(st.variations[i]);
    var variations := st.variations[i := popped];
    var idx := i + 1;
    var tcId := TestCaseId(req.useCase.id, format, idx);
    var tc := MakeTestCase(tcId, req.useCase.id, TestCaseName(req.useCase.name, format, idx),
                           TestCaseDescription(req.useCase.name, popped.params), TestCaseAxes(axes), AdapterMetadata);
    if tc.Err? {
      return TierState(testCases, examples, variations);
    }
    testCases := testCases + [tc.value];
    var generated := generate(adapter, req.useCase.id, tcId, req.model, o.uuid(j, idx), o.adapterOutput(j, idx));
    if generated.Err? {
      return TierState(testCases, examples, variations);
    }
    var example := generated.value.(caseName := req.caseName);
    if req.caseName == SupportBot {
      var content := FindUserContent(example.input.messages);
      var source := SourceClassifier.ClassifySourceType(req.useCase.description, content, popped.params,
                                                        o.classifier(j, idx));
      example := example.(metadata := example.metadata["source" := Str(SourceClassifier.SourceName(source))]);
    }
    examples := examples + [example];
    return TierState(testCases, examples, variations);
  }

  /** The inner loop (lines 130-195) for the format at position `j`, once its adapter is found. */
  method RunFormat(req: Request, o: Oracles, generate: Generate, j: nat, format: string,
                   adapter: FormatAdapters.Adapter, st0: TierState) returns (st: TierState)
    ensures st == VariationsUpTo(req, o, generate, j, format, adapter, st0, |st0.variations|)
  {
    var step := VariationStepper(req, o, generate, j, format, adapter);
    st := st0;
    var i := 0;
    var n := |st0.variations|;
    while i < n
      invariant 0 <= i <= n && |st.variations| == n
      invariant st == Iterate(step, st0, i)
    {
      IterateStep(step, st0, i);
      st := RunVariation(req, o, generate, j, format, adapter, st, i);
      i := i + 1;
    }
  }

  /** The body of the outer loop: the adapter lookup (line 127), then the inner loop when one is found. */
  method RunFormatAt(req: Request, o: Oracles, generate: Generate, formats: seq<string>, j: nat, st0: TierState)
    returns (st: TierState)
    ensures st == FormatStep(req, o, generate, formats, j, st0)
  {
    st := st0;
    if j < |formats| {
      var adapter := FormatAdapters.GetAdapterForFormat(formats[j], req.caseName);
      if adapter.Ok? {
        st := RunFormat(req, o, generate, j, formats[j], adapter.value, st0);
      }
    }
  }

  /** The outer loop of lines 122-199; a format without an adapter is skipped. */
  method RunAdapterTier(req: Request, o: Oracles, generate: Generate, formats: seq<string>, variations: seq<Variation>)
    returns (st: TierState)
    ensures st == FormatsUpTo(req, o, generate, formats, TierState([], [], variations), |formats|)
  {
    var step := FormatStepper(req, o, generate, formats);
    st := TierState([], [], variations);
    var j := 0;
    while j < |formats|
      invariant 0 <= j <= |formats|
      invariant st == Iterate(step, TierState([], [], variations), j)
    {
      IterateStep(step, TierState([], [], variations), j);
      st := RunFormatAt(req, o, generate, formats, j, st);
      j := j + 1;
    }
  }

  // ---------------------------------------------------------------------------
  // What the adapter tier produces

  predicate HasUcPrefix(req: Request) {
    StartsWith(req.useCase.id, "uc_")
  }

  /**
   * One step pops variation `i`; it adds one test case exactly when the use
   * case id has `uc_`, with the step's id and axes, and at most one example,
   * and only together with a test case.
   */
  lemma VariationStepEffect(req: Request, o: Oracles, generate: Generate, j: nat, format: string,
                            adapter: FormatAdapters.Adapter, st: TierState, i: nat)
    requires i < |st.variations|
    ensures var r := VariationStep(req, o, generate, j, format, adapter, st, i);
            var popped := PopAxes(st.variations[i]);
            r.variations == st.variations[i := popped.1]
            && (HasUcPrefix(req) ==>
                  |r.testCases| == |st.testCases| + 1 && r.testCases[..|st.testCases|] == st.testCases
                  && r.testCases[|st.testCases|]
                     == TestCase(TestCaseId(req.useCase.id, format, i + 1), req.useCase.id,
                                 TestCaseName(req.useCase.name, format, i + 1),
                                 TestCaseDescription(req.useCase.name, popped.1.params),
                                 TestCaseAxes(popped.0), AdapterMetadata))
            && (!HasUcPrefix(req) ==> r.testCases == st.testCases && r.examples == st.examples)
            && (r.examples == st.examples
                || (HasUcPrefix(req) && r.examples == st.examples + [r.examples[|st.examples|]]
                    && Ok(r.examples[|st.examples|])
                       == TierExample(req, o, generate, j, i + 1, adapter, TestCaseId(req.useCase.id, format, i + 1),
                                      popped.1.params)))
  {
  }

  /** Every variation has lost its `_variation_axes` entry. */
  predicate AllPopped(vs: seq<Variation>) {
    forall k :: 0 <= k < |vs| ==> vs[k].variationAxes.None?
  }

  /** The first `i` variations of `vs0` popped, the others untouched. */
  predicate PoppedUpTo(vs0: seq<Variation>, vs: seq<Variation>, i: nat) {
    i <= |vs0| && |vs| == |vs0|
    && (forall k :: 0 <= k < i ==> vs[k] == VariationRouter.Variation(vs0[k].params, None))
    && (forall k :: i <= k < |vs| ==> vs[k] == vs0[k])
  }

  /**
   * The inner loop over the first `n` variations pops exactly those, keeping
   * their parameters, and leaves the others as they were.
   */
  lemma VariationsPop(req: Request, o: Oracles, generate: Generate, j: nat, format: string,
                      adapter: FormatAdapters.Adapter, st: TierState, n: nat)
    requires n <= |st.variations|
    ensures var vs := VariationsUpTo(req, o, generate, j, format, adapter, st, n).variations;
            |vs| == |st.variations|
            && (forall k :: 0 <= k < n ==> vs[k] == VariationRouter.Variation(st.variations[k].params, None))
            && (forall k :: n <= k < |vs| ==> vs[k] == st.variations[k])
  {
    var step := VariationStepper(req, o, generate, j, format, adapter);
    var inv := (s: TierState, i: nat) => PoppedUpTo(st.variations, s.variations, i);
    forall s: TierState, i: nat | i < n && inv(s, i) ensures inv(step(s, i), i + 1) {
      var r := VariationStep(req, o, generate, j, format, adapter, s, i);
      assert step(s, i) == r;
      VariationStepEffect(req, o, generate, j, format, adapter, s, i);
      assert s.variations[i] == st.variations[i];
      forall k | 0 <= k < i + 1 ensures r.variations[k] == VariationRouter.Variation(st.variations[k].params, None) {
      }
    }
    IterateInduction(step, inv, st, n);
  }

  /**
   * Each of the first `n` variations adds one test case exactly when the use
   * case id has `uc_`; what was collected before stays in front.
   */
  lemma VariationsGrow(req: Request, o: Oracles, generate: Generate, j: nat, format: string,
                       adapter: FormatAdapters.Adapter, st: TierState, n: nat)
    requires n <= |st.variations|
    ensures var r := VariationsUpTo(req, o, generate, j, format, adapter, st, n);
            |r.testCases| == |st.testCases| + (if HasUcPrefix(req) then n else 0)
            && st.testCases <= r.testCases && st.examples <= r.examples
  {
    var step := VariationStepper(req, o, generate, j, format, adapter);
    var inv := (s: TierState, i: nat) =>
      |s.variations| == |st.variations|
      && |s.testCases| == |st.testCases| + (if HasUcPrefix(req) then i else 0)
      && st.testCases <= s.testCases && st.examples <= s.examples;
    forall s: TierState, i: nat | i < n && inv(s, i) ensures inv(step(s, i), i + 1) {
      assert step(s, i) == VariationStep(req, o, generate, j, format, adapter, s, i);
      VariationStepEffect(req, o, generate, j, format, adapter, s, i);
    }
    IterateInduction(step, inv, st, n);
  }

  /** Once every variation is popped, the loop only adds test cases with the axes ["default", "default"]. */
  lemma VariationsDefaultAxes(req: Request, o: Oracles, generate: Generate, j: nat, format: string,
                              adapter: FormatAdapters.Adapter, st: TierState, n: nat)
    requires AllPopped(st.variations)
    ensures var r := VariationsUpTo(req, o, generate, j, format, adapter, st, n);
            r.variations == st.variations
            && forall k :: |st.testCases| <= k < |r.testCases| ==> r.testCases[k].parameterVariationAxes == DefaultPair
  {
    var step := VariationStepper(req, o, generate, j, format, adapter);
    var inv := (s: TierState, i: nat) =>
      s.variations == st.variations
      && forall k :: |st.testCases| <= k < |s.testCases| ==> s.testCases[k].parameterVariationAxes == DefaultPair;
    forall s: TierState, i: nat | i < n && inv(s, i) ensures inv(step(s, i), i + 1) {
      if i < |s.variations| {
        assert s.variations[i := PopAxes(s.variations[i]).1] == s.variations;
        assert step(s, i) == VariationStep(req, o, generate, j, format, adapter, s, i);
        VariationStepEffect(req, o, generate, j, format, adapter, s, i);
      }
    }
    IterateInduction(step, inv, st, n);
  }

  /** A test case of the tier: valid, of the request's use case, tagged `format_adapter`. */
  predicate TierTestCaseOk(req: Request, tc: TestCase) {
    TestCaseModel.Valid(tc) && tc.useCaseId == req.useCase.id && tc.metadata == AdapterMetadata
  }

  predicate HasTestCase(tcs: seq<TestCase>, id: string) {
    exists k :: 0 <= k < |tcs| && tcs[k].id == id
  }

  /**
   * The tier's invariant: valid test cases of the use case, no more examples
   * than test cases, and every example a passing one that points at a
   * collected test case.
   */
  predicate TierWellFormed(req: Request, st: TierState) {
    |st.examples| <= |st.testCases|
    && (forall k :: 0 <= k < |st.testCases| ==> TierTestCaseOk(req, st.testCases[k]))
    && (forall k :: 0 <= k < |st.examples| ==>
          TierExampleOk(req, st.examples[k]) && HasTestCase(st.testCases, st.examples[k].testCaseId))
  }

  lemma VariationStepWellFormed(req: Request, o: Oracles, generate: Generate, j: nat, format: string,
                                adapter: FormatAdapters.Adapter, st: TierState, i: nat)
    requires GeneratesPassing(generate) && FormatAdapters.GetAdapterForFormat(format, req.caseName) == Ok(adapter)
    requires i < |st.variations| && TierWellFormed(req, st)
    ensures TierWellFormed(req, VariationStep(req, o, generate, j, format, adapter, st, i))
  {
    VariationStepEffect(req, o, generate, j, format, adapter, st, i);
    StepTestCasesOk(req, o, generate, j, format, adapter, st, i);
    StepExamplesOk(req, o, generate, j, format, adapter, st, i);
  }

  lemma StepTestCasesOk(req: Request, o: Oracles, generate: Generate, j: nat, format: string,
                        adapter: FormatAdapters.Adapter, st: TierState, i: nat)
    requires i < |st.variations| && forall k :: 0 <= k < |st.testCases| ==> TierTestCaseOk(req, st.testCases[k])
    ensures var r := VariationStep(req, o, generate, j, format, adapter, st, i);
            forall k :: 0 <= k < |r.testCases| ==> TierTestCaseOk(req, r.testCases[k])
  {
    var r := VariationStep(req, o, generate, j, format, adapter, st, i);
    VariationStepEffect(req, o, generate, j, format, adapter, st, i);
    if HasUcPrefix(req) {
      forall k | 0 <= k < |r.testCases| ensures TierTestCaseOk(req, r.testCases[k]) {
        if k < |st.testCases| {
          assert r.testCases[k] == st.testCases[k];
        }
      }
    }
  }

  lemma StepExamplesOk(req: Request, o: Oracles, generate: Generate, j: nat, format: string,
                       adapter: FormatAdapters.Adapter, st: TierState, i: nat)
    requires GeneratesPassing(generate) && FormatAdapters.GetAdapterForFormat(format, req.caseName) == Ok(adapter)
    requires i < |st.variations|
    requires forall k :: 0 <= k < |st.examples| ==>
               TierExampleOk(req, st.examples[k]) && HasTestCase(st.testCases, st.examples[k].testCaseId)
    ensures var r := VariationStep(req, o, generate, j, format, adapter, st, i);
            forall k :: 0 <= k < |r.examples| ==>
              TierExampleOk(req, r.examples[k]) && HasTestCase(r.testCases, r.examples[k].testCaseId)
  {
    var r := VariationStep(req, o, generate, j, format, adapter, st, i);
    var tcId := TestCaseId(req.useCase.id, format, i + 1);
    VariationStepEffect(req, o, generate, j, format, adapter, st, i);
    if HasUcPrefix(req) {
      TierExamplePasses(req, o, generate, j, i + 1, format, adapter, tcId, PopAxes(st.variations[i]).1.params);
      forall k | 0 <= k < |r.examples|
        ensures TierExampleOk(req, r.examples[k]) && HasTestCase(r.testCases, r.examples[k].testCaseId)
      {
        if k < |st.examples| {
          assert r.examples[k] == st.examples[k];
          var w :| 0 <= w < |st.testCases| && st.testCases[w].id == st.examples[k].testCaseId;
          assert r.testCases[w] == st.testCases[w];
        } else {
          assert r.testCases[|st.testCases|].id == tcId;
        }
      }
    }
  }

  lemma VariationsWellFormed(req: Request, o: Oracles, generate: Generate, j: nat, format: string,
                             adapter: FormatAdapters.Adapter, st: TierState, n: nat)
    requires GeneratesPassing(generate) && FormatAdapters.GetAdapterForFormat(format, req.caseName) == Ok(adapter)
    requires TierWellFormed(req, st)
    ensures TierWellFormed(req, VariationsUpTo(req, o, generate, j, format, adapter, st, n))
  {
    var step := VariationStepper(req, o, generate, j, format, adapter);
    var inv := (s: TierState, i: nat) => TierWellFormed(req, s);
    forall s: TierState, i: nat | i < n && inv(s, i) ensures inv(step(s, i), i + 1) {
      if i < |s.variations| {
        assert step(s, i) == VariationStep(req, o, generate, j, format, adapter, s, i);
        VariationStepWellFormed(req, o, generate, j, format, adapter, s, i);
      }
    }
    IterateInduction(step, inv, st, n);
  }

  lemma FormatsWellFormed(req: Request, o: Oracles, generate: Generate, formats: seq<string>, st: TierState, n: nat)
    requires GeneratesPassing(generate) && TierWellFormed(req, st)
    ensures TierWellFormed(req, FormatsUpTo(req, o, generate, formats, st, n))
  {
    var step := FormatStepper(req, o, generate, formats);
    var inv := (s: TierState, i: nat) => TierWellFormed(req, s);
    forall s: TierState, i: nat | i < n && inv(s, i) ensures inv(step(s, i), i + 1) {
      assert step(s, i) == FormatStep(req, o, generate, formats, i, s);
      if i < |formats| && formats[i] in FormatAdapters.SupportedFormats {
        var adapter := FormatAdapters.GetAdapterForFormat(formats[i], req.caseName).value;
        VariationsWellFormed(req, o, generate, i, formats[i], adapter, s, |s.variations|);
      }
    }
    IterateInduction(step, inv, st, n);
  }

  /** How many of the first `n` formats have an adapter. */
  function KnownFormatCount(formats: seq<string>, n: nat): (r: nat)
    requires n <= |formats|
    ensures r <= n
  {
    if n == 0 then 0
    else KnownFormatCount(formats, n - 1) + (if formats[n - 1] in FormatAdapters.SupportedFormats then 1 else 0)
  }

  /** `n` test cases for each of the first `j` formats that has an adapter. */
  function TierSize(formats: seq<string>, j: nat, n: nat): nat
    requires j <= |formats|
  {
    if j == 0 then 0
    else TierSize(formats, j - 1, n) + (if formats[j - 1] in FormatAdapters.SupportedFormats then n else 0)
  }

  lemma {:induction false} TierSizeIsProduct(formats: seq<string>, j: nat, n: nat)
    requires j <= |formats|
    ensures TierSize(formats, j, n) == KnownFormatCount(formats, j) * n
  {
    if j > 0 {
      TierSizeIsProduct(formats, j - 1, n);
      assert KnownFormatCount(formats, j) * n
             == KnownFormatCount(formats, j - 1) * n
                + (if formats[j - 1] in FormatAdapters.SupportedFormats then n else 0);
    }
  }

  lemma {:induction false} TierSizeZero(formats: seq<string>, j: nat, n: nat)
    requires j <= |formats| && KnownFormatCount(formats, j) == 0
    ensures TierSize(formats, j, n) == 0
  {
    if j > 0 {
      TierSizeZero(formats, j - 1, n);
    }
  }

  /**
   * After the first `j` formats: one test case per variation for every known
   * format (none without `uc_`), the parameters kept, every variation popped
   * once a known format has run, and every test case past the first format's
   * with the axes ["default", "default"].
   */
  predicate FormatsShapeInv(req: Request, formats: seq<string>, variations: seq<Variation>, s: TierState, j: nat) {
    j <= |formats| && |s.variations| == |variations|
    && (forall k :: 0 <= k < |variations| ==> s.variations[k].params == variations[k].params)
    && |s.testCases| == (if HasUcPrefix(req) then TierSize(formats, j, |variations|) else 0)
    && (KnownFormatCount(formats, j) >= 1 ==> AllPopped(s.variations))
    && (forall k :: |variations| <= k < |s.testCases| ==> s.testCases[k].parameterVariationAxes == DefaultPair)
  }

  lemma FormatStepShape(req: Request, o: Oracles, generate: Generate, formats: seq<string>, variations: seq<Variation>,
                        s: TierState, j: nat)
    requires j < |formats| && FormatsShapeInv(req, formats, variations, s, j)
    ensures FormatsShapeInv(req, formats, variations, FormatStep(req, o, generate, formats, j, s), j + 1)
  {
    if formats[j] in FormatAdapters.SupportedFormats {
      var adapter := FormatAdapters.GetAdapterForFormat(formats[j], req.caseName).value;
      KnownFormatStepShape(req, o, generate, formats, variations, adapter, s, j);
    } else {
      assert KnownFormatCount(formats, j + 1) == KnownFormatCount(formats, j);
    }
  }

  lemma KnownFormatStepShape(req: Request, o: Oracles, generate: Generate, formats: seq<string>,
                             variations: seq<Variation>, adapter: FormatAdapters.Adapter, s: TierState, j: nat)
    requires j < |formats| && FormatsShapeInv(req, formats, variations, s, j)
    requires FormatAdapters.GetAdapterForFormat(formats[j], req.caseName) == Ok(adapter)
    ensures FormatsShapeInv(req, formats, variations, VariationsUpTo(req, o, generate, j, formats[j], adapter, s, |variations|), j + 1)
  {
    var n := |variations|;
    var c := KnownFormatCount(formats, j);
    var r := VariationsUpTo(req, o, generate, j, formats[j], adapter, s, n);
    assert KnownFormatCount(formats, j + 1) == c + 1;
    VariationsPop(req, o, generate, j, formats[j], adapter, s, n);
    assert forall k :: 0 <= k < n ==> r.variations[k].params == s.variations[k].params;
    assert AllPopped(r.variations);
    VariationsGrow(req, o, generate, j, formats[j], adapter, s, n);
    assert TierSize(formats, j + 1, n) == TierSize(formats, j, n) + n;
    if c >= 1 {
      VariationsDefaultAxes(req, o, generate, j, formats[j], adapter, s, n);
      forall k | n <= k < |s.testCases| ensures r.testCases[k].parameterVariationAxes == DefaultPair {
        assert r.testCases[k] == s.testCases[k];
      }
    } else {
      TierSizeZero(formats, j, n);
    }
  }

  lemma FormatsShape(req: Request, o: Oracles, generate: Generate, formats: seq<string>, variations: seq<Variation>,
                     n: nat)
    requires n <= |formats|
    ensures FormatsShapeInv(req, formats, variations, FormatsUpTo(req, o, generate, formats, TierState([], [], variations), n), n)
  {
    var step := FormatStepper(req, o, generate, formats);
    var inv := (s: TierState, j: nat) => FormatsShapeInv(req, formats, variations, s, j);
    forall s: TierState, j: nat | j < n && inv(s, j) ensures inv(step(s, j), j + 1) {
      assert step(s, j) == FormatStep(req, o, generate, formats, j, s);
      FormatStepShape(req, o, generate, formats, variations, s, j);
    }
    IterateInduction(step, inv, TierState([], [], variations), n);
  }

  /**
   * The adapter tier: one test case per variation and known format when the
   * use case id has `uc_` and none otherwise, whatever the adapters answer;
   * the parameters kept, and every test case after the first known format's
   * with the default axes, because the first one popped them all.
   */
  lemma AdapterTierShape(req: Request, o: Oracles, generate: Generate, variations: seq<Variation>)
    ensures var t := AdapterTier(req, o, generate, variations);
            var known := KnownFormatCount(Formats(req), |Formats(req)|);
            |t.testCases| == (if HasUcPrefix(req) then known * |variations| else 0)
            && |t.variations| == |variations|
            && (forall k :: 0 <= k < |variations| ==> t.variations[k].params == variations[k].params)
            && (known >= 1 ==> AllPopped(t.variations))
            && (forall k :: |variations| <= k < |t.testCases| ==> t.testCases[k].parameterVariationAxes == DefaultPair)
  {
    TierSizeIsProduct(Formats(req), |Formats(req)|, |variations|);
    FormatsShape(req, o, generate, Formats(req), variations, |Formats(req)|);
  }

  /**
   * With the adapters' examples, every test case of the tier is valid and of
   * the use case, there are at most as many examples as test cases, and every
   * example passes its adapter's check and points at a collected test case.
   */
  lemma AdapterTierWellFormed(req: Request, o: Oracles, variations: seq<Variation>)
    ensures var t := AdapterTier(req, o, AdapterExamples(), variations);
            TierWellFormed(req, t) && |t.examples| <= |t.testCases|
  {
    AdapterExamplesPass();
    FormatsWellFormed(req, o, AdapterExamples(), Formats(req), TierState([], [], variations), |Formats(req)|);
  }

  // ---------------------------------------------------------------------------
  // The whole run

  function TierRecords(t: TierState): Records {
    FrameworkTier.Records(t.testCases, t.examples)
  }

  /** Step 3 (lines 209-260): the framework tier's records are appended only while short, and nothing is removed. */
  function FrameworkStep(req: Request, o: Oracles, acc: Records): (r: Records)
    ensures |acc.testCases| >= req.minTestCases ==> r == acc
    ensures acc.testCases <= r.testCases && acc.examples <= r.examples
  {
    if |acc.testCases| < req.minTestCases then
      var f := FrameworkTier.FrameworkRecords(req.useCase.id, req.policies, req.model, o.env, o.toolCalls);
      FrameworkTier.Records(acc.testCases + f.testCases, acc.examples + f.examples)
    else acc
  }

  /** `_generate_with_fallback_only` asked for `n` test cases, with the defaulted formats. */
  function FallbackFor(req: Request, o: Oracles, n: int): (r: Result<Records>)
    ensures r.Err? ==> StartsWith(r.error, Fallback.FailurePrefix)
    ensures r.Ok? ==> o.fallback(n).Some?
  {
    var fb := Fallback.FallbackGeneration(req.useCase.id, req.caseName, req.model, Some(Formats(req)), o.fallback(n));
    if fb.Err? then Err(fb.error) else Ok(FrameworkTier.Records(fb.value.0, fb.value.1))
  }

  /**
   * Step 4 (lines 262-269): while still short, the fallback is asked for the
   * shortfall and its records are appended; its failure is the run's failure.
   */
  function FinalFallback(req: Request, o: Oracles, acc: Records): (r: Result<Records>)
    ensures |acc.testCases| >= req.minTestCases ==> r == Ok(acc)
    ensures r.Ok? ==> acc.testCases <= r.value.testCases && acc.examples <= r.value.examples
    ensures r.Err? ==> |acc.testCases| < req.minTestCases && StartsWith(r.error, Fallback.FailurePrefix)
  {
    if |acc.testCases| >= req.minTestCases then Ok(acc)
    else
      var fb := FallbackFor(req, o, req.minTestCases - |acc.testCases|);
      if fb.Err? then Err(fb.error)
      else Ok(FrameworkTier.Records(acc.testCases + fb.value.testCases, acc.examples + fb.value.examples))
  }

  /**
   * Lines 209-276 after the adapter tier `t`: its records come first in the
   * result and, when they alone reach the minimum, are the whole result.
   */
  function AfterTier(req: Request, o: Oracles, t: TierState): (r: Result<Records>)
    ensures |t.testCases| >= req.minTestCases ==> r == Ok(TierRecords(t))
    ensures r.Ok? ==> t.testCases <= r.value.testCases && t.examples <= r.value.examples
    ensures r.Err? ==> StartsWith(r.error, Fallback.FailurePrefix)
  {
    FinalFallback(req, o, FrameworkStep(req, o, TierRecords(t)))
  }

  /**
   * `orchestrate_generation` given what `generate_variations` returned: when
   * that raised, the fallback alone is asked for the full minimum (line 207).
   * A failure always comes from the fallback.
   */
  function Orchestration(req: Request, o: Oracles, generate: Generate, variations: Result<seq<Variation>>)
    : (r: Result<Records>)
    ensures r.Err? ==> StartsWith(r.error, Fallback.FailurePrefix)
  {
    if variations.Err? then FallbackFor(req, o, req.minTestCases)
    else AfterTier(req, o, AdapterTier(req, o, generate, variations.value))
  }

  /**
   * `orchestrate_generation` (lines 83-276), run with `generate` =
   * `AdapterExamples()`. The ghost outputs are what the variation step
   * returned and the combinations behind it.
   */
  method OrchestrateGeneration(req: Request, o: Oracles, generate: Generate)
    returns (r: Result<Records>, ghost variations: Result<seq<Variation>>, ghost combos: seq<Params>)
    ensures variations.Ok?
            <==> o.allPairs.Some? && VariationRouter.CombinationsFit(o.allPairs.value,
                                       VariationRouter.AxisNames(VariationRouter.AxesFor(req.caseName)))
    ensures variations.Ok? ==>
              var axes := VariationRouter.AxesFor(req.caseName);
              VariationRouter.PaddedFrom(VariationRouter.ZipAll(VariationRouter.AxisNames(axes), o.allPairs.value),
                                         combos, axes, Min(req.minTestCases, VariationRouter.DomainSize(axes)))
              && variations.value == VariationRouter.Enrich(combos, req.caseName)
    ensures r == Orchestration(req, o, generate, variations)
  {
    var vs;
    vs, combos := VariationRouter.GenerateVariations(req.caseName, req.minTestCases, o.allPairs);
    variations := vs;
    if vs.Err? {
      r := RunFallback(req, o, req.minTestCases);
      return r, variations, combos;
    }
    var tier := RunAdapterTier(req, o, generate, Formats(req), vs.value);
    r := RunAfterTier(req, o, tier);
  }

  /** `_generate_with_fallback_only`. */
  method RunFallback(req: Request, o: Oracles, n: int) returns (r: Result<Records>)
    ensures r == FallbackFor(req, o, n)
  {
    var fb := Fallback.GenerateWithOpenAiFallback(req.useCase.id, req.caseName, req.model, Some(Formats(req)),
                                                  o.fallback(n));
    if fb.Err? {
      return Err(fb.error);
    }
    return Ok(FrameworkTier.Records(fb.value.0, fb.value.1));
  }

  /** Steps 3 and 4 (lines 209-276) on the adapter tier's accumulators. */
  method RunAfterTier(req: Request, o: Oracles, tier: TierState) returns (r: Result<Records>)
    ensures r == AfterTier(req, o, tier)
  {
    var acc := TierRecords(tier);
    if |acc.testCases| < req.minTestCases {
      var f := RunFramework(req, o);
      acc := FrameworkTier.Records(acc.testCases + f.testCases, acc.examples + f.examples);
    }
    r := RunFinalFallback(req, o, acc);
  }

  /** The framework tier (lines 214-260): no routing answer, no records. */
  method RunFramework(req: Request, o: Oracles) returns (f: Records)
    ensures f == FrameworkTier.FrameworkRecords(req.useCase.id, req.policies, req.model, o.env, o.toolCalls)
  {
    f := FrameworkTier.Records([], []);
    if o.toolCalls.Some? {
      var tcs, exs := FrameworkTier.RunToolCalls(req.model, o.env,
                                                 FrameworkTier.DeepevalInvocation(req.useCase.id, req.policies),
                                                 o.toolCalls.value);
      f := FrameworkTier.Records(tcs, exs);
    }
  }

  /** Step 4 (lines 262-269). */
  method RunFinalFallback(req: Request, o: Oracles, acc: Records) returns (r: Result<Records>)
    ensures r == FinalFallback(req, o, acc)
  {
    if |acc.testCases| >= req.minTestCases {
      return Ok(acc);
    }
    var fb := RunFallback(req, o, req.minTestCases - |acc.testCases|);
    if fb.Err? {
      return Err(fb.error);
    }
    return Ok(FrameworkTier.Records(acc.testCases + fb.value.testCases, acc.examples + fb.value.examples));
  }

  /** Every test case is valid and of the use case, every example valid. */
  predicate RecordsValid(useCaseId: string, r: Records) {
    (forall k :: 0 <= k < |r.testCases| ==>
       TestCaseModel.Valid(r.testCases[k]) && r.testCases[k].useCaseId == useCaseId)
    && (forall k :: 0 <= k < |r.examples| ==> DatasetExampleModel.Valid(r.examples[k]))
  }

  lemma AppendValid(useCaseId: string, a: Records, b: Records)
    requires RecordsValid(useCaseId, a) && RecordsValid(useCaseId, b)
    ensures RecordsValid(useCaseId, FrameworkTier.Records(a.testCases + b.testCases, a.examples + b.examples))
  {
    var r := FrameworkTier.Records(a.testCases + b.testCases, a.examples + b.examples);
    forall k | |a.testCases| <= k < |r.testCases|
      ensures TestCaseModel.Valid(r.testCases[k]) && r.testCases[k].useCaseId == useCaseId
    {
      assert r.testCases[k] == b.testCases[k - |a.testCases|];
    }
    forall k | |a.examples| <= k < |r.examples| ensures DatasetExampleModel.Valid(r.examples[k]) {
      assert r.examples[k] == b.examples[k - |a.examples|];
    }
  }

  /** The fallback's records: valid, and one test case per entry of its reply. */
  lemma FallbackValid(req: Request, o: Oracles, n: int)
    requires FallbackFor(req, o, n).Ok?
    ensures RecordsValid(req.useCase.id, FallbackFor(req, o, n).value)
    ensures |FallbackFor(req, o, n).value.testCases| == |o.fallback(n).value.testCases|
  {
    Fallback.OneRecordPerEntry(req.useCase.id, req.caseName, req.model, Some(Formats(req)), o.fallback(n).value);
  }

  lemma FrameworkValid(req: Request, o: Oracles)
    ensures RecordsValid(req.useCase.id,
                         FrameworkTier.FrameworkRecords(req.useCase.id, req.policies, req.model, o.env, o.toolCalls))
  {
    FrameworkTier.OnlyDeepevalContributes(req.useCase.id, req.policies, req.model, o.env, o.toolCalls);
  }

  lemma FrameworkStepValid(req: Request, o: Oracles, acc: Records)
    requires RecordsValid(req.useCase.id, acc)
    ensures RecordsValid(req.useCase.id, FrameworkStep(req, o, acc))
  {
    if |acc.testCases| < req.minTestCases {
      FrameworkValid(req, o);
      AppendValid(req.useCase.id, acc,
                  FrameworkTier.FrameworkRecords(req.useCase.id, req.policies, req.model, o.env, o.toolCalls));
    }
  }

  lemma FinalFallbackValid(req: Request, o: Oracles, acc: Records)
    requires RecordsValid(req.useCase.id, acc) && FinalFallback(req, o, acc).Ok?
    ensures RecordsValid(req.useCase.id, FinalFallback(req, o, acc).value)
  {
    if |acc.testCases| < req.minTestCases {
      var n := req.minTestCases - |acc.testCases|;
      FallbackValid(req, o, n);
      AppendValid(req.useCase.id, acc, FallbackFor(req, o, n).value);
    }
  }

  /** Steps 3 and 4 keep valid records valid. */
  lemma AfterTierValid(req: Request, o: Oracles, t: TierState)
    requires RecordsValid(req.useCase.id, TierRecords(t)) && AfterTier(req, o, t).Ok?
    ensures RecordsValid(req.useCase.id, AfterTier(req, o, t).value)
  {
    FrameworkStepValid(req, o, TierRecords(t));
    FinalFallbackValid(req, o, FrameworkStep(req, o, TierRecords(t)));
  }

  lemma TierValid(req: Request, o: Oracles, variations: seq<Variation>)
    ensures RecordsValid(req.useCase.id, TierRecords(AdapterTier(req, o, AdapterExamples(), variations)))
  {
    AdapterTierWellFormed(req, o, variations);
  }

  /** Whatever tier produced them, the returned test cases are valid and of the use case, the examples valid. */
  lemma OrchestrationValid(req: Request, o: Oracles, variations: Result<seq<Variation>>)
    requires Orchestration(req, o, AdapterExamples(), variations).Ok?
    ensures RecordsValid(req.useCase.id, Orchestration(req, o, AdapterExamples(), variations).value)
  {
    if variations.Err? {
      FallbackValid(req, o, req.minTestCases);
    } else {
      TierValid(req, o, variations.value);
      AfterTierValid(req, o, AdapterTier(req, o, AdapterExamples(), variations.value));
    }
  }

  /** The fallback LLM returns at least as many test cases as it is asked for. */
  ghost predicate FallbackHonours(o: Oracles) {
    forall n: int :: 0 < n && o.fallback(n).Some? ==> |o.fallback(n).value.testCases| >= n
  }

  /** A successful run has at least `min_test_cases` test cases when the fallback gives what it is asked for. */
  lemma ReachesMinimum(req: Request, o: Oracles, generate: Generate, variations: Result<seq<Variation>>)
    requires FallbackHonours(o) && Orchestration(req, o, generate, variations).Ok?
    ensures |Orchestration(req, o, generate, variations).value.testCases| >= req.minTestCases
  {
    if variations.Err? {
      if req.minTestCases > 0 {
        FallbackValid(req, o, req.minTestCases);
      }
    } else {
      AfterTierReachesMinimum(req, o, AdapterTier(req, o, generate, variations.value));
    }
  }

  lemma AfterTierReachesMinimum(req: Request, o: Oracles, t: TierState)
    requires FallbackHonours(o) && AfterTier(req, o, t).Ok?
    ensures |AfterTier(req, o, t).value.testCases| >= req.minTestCases
  {
    var acc := FrameworkStep(req, o, TierRecords(t));
    if |acc.testCases| < req.minTestCases {
      FallbackValid(req, o, req.minTestCases - |acc.testCases|);
    }
  }

  lemma ProductAtLeast(k: nat, n: nat)
    requires k >= 1
    ensures k * n >= n
  {
    assert k * n == (k - 1) * n + n;
  }

  /**
   * With a `uc_` id, a known format and at least `min_test_cases`
   * variations, the adapter tier alone is the result, even when every
   * adapter call fails and no example is produced: its test cases are
   * appended before their examples are attempted.
   */
  lemma TierAloneSuffices(req: Request, o: Oracles, generate: Generate, variations: seq<Variation>)
    requires HasUcPrefix(req) && KnownFormatCount(Formats(req), |Formats(req)|) >= 1
    requires |variations| >= req.minTestCases
    ensures Orchestration(req, o, generate, Ok(variations)) == Ok(TierRecords(AdapterTier(req, o, generate, variations)))
  {
    AdapterTierShape(req, o, generate, variations);
    ProductAtLeast(KnownFormatCount(Formats(req), |Formats(req)|), |variations|);
  }
}
