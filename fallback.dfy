/**
 * The last-resort generator (generation/fallback.py): one JSON-mode LLM call
 * whose reply is turned, entry by entry, into test cases and examples with
 * defaults for every missing field. Any failure aborts the whole batch.
 */
module Fallback {
  import opened Base
  import opened Text
  import opened Values
  import opened TestCaseModel
  import opened DatasetExampleModel
  import opened EngineRecords

  const QaFormat := "single_turn_qa"
  const UtteranceFormat := "single_utterance_correction"
  const DialogFormat := "dialog_last_turn_correction"

  /** `formats` when given, else the two correction formats for operator_quality and single_turn_qa otherwise. */
  function DefaultFormats(caseName: string, formats: Option<seq<string>>): (r: seq<string>)
    ensures formats.Some? ==> r == formats.value
    ensures formats.None? && caseName == "operator_quality" ==> r == [UtteranceFormat, DialogFormat]
    ensures formats.None? && caseName != "operator_quality" ==> r == [QaFormat]
  {
    if formats.Some? then formats.value
    else if caseName == "operator_quality" then [UtteranceFormat, DialogFormat]
    else [QaFormat]
  }

  /**
   * `_build_format_instructions`: the formats whose instruction block the
   * prompt carries, in the fixed order of the three blocks.
   */
  function FormatSections(formats: seq<string>): (r: seq<string>)
    ensures |r| <= 3
    ensures forall f :: f in r <==> f in formats && f in [QaFormat, UtteranceFormat, DialogFormat]
  {
    (if QaFormat in formats then [QaFormat] else [])
    + (if UtteranceFormat in formats then [UtteranceFormat] else [])
    + (if DialogFormat in formats then [DialogFormat] else [])
  }

  // ---- the JSON reply --------------------------------------------------------

  /** A `test_cases` entry; `None` is a missing key. `parameters` and `policy_ids` are dropped by `TestCase`. */
  datatype TestCaseJson = TestCaseJson(id: Option<string>, name: Option<string>, description: Option<string>,
                                       axes: Option<seq<string>>, metadata: Params)

  datatype MessageJson = MessageJson(role: Option<string>, content: Option<string>)

  /** A `dataset_examples` entry. A missing `input` has no messages and no target. */
  datatype ExampleJson = ExampleJson(id: Option<string>, format: Option<string>, testCaseId: Option<string>,
                                     messages: seq<MessageJson>, target: Option<int>,
                                     expectedOutput: Option<string>, criteria: Option<seq<string>>,
                                     policyIds: Option<seq<string>>, metadata: Params)

  /** The parsed reply; a missing list is empty. */
  datatype Reply = Reply(testCases: seq<TestCaseJson>, examples: seq<ExampleJson>)

  /** A JSON object as a dict: a repeated key keeps its last value. */
  function ParamsToMap(p: Params): (r: Metadata)
    ensures forall k :: k in r <==> k in Keys(p)
    decreases |p|
  {
    if |p| == 0 then map[]
    else
      var init := p[..|p| - 1];
      assert Keys(p) == Keys(init) + [p[|p| - 1].0];
      ParamsToMap(init)[p[|p| - 1].0 := p[|p| - 1].1]
  }

  /** `{"generator": "openai_fallback", "model": model, **data}`: the reply's keys win. */
  function FallbackMetadata(model: string, data: Params): (r: Metadata)
    ensures forall k :: k in Keys(data) ==> k in r && r[k] == ParamsToMap(data)[k]
    ensures "generator" !in Keys(data) ==> "generator" in r && r["generator"] == Str("openai_fallback")
    ensures "model" !in Keys(data) ==> "model" in r && r["model"] == Str(model)
  {
    map["generator" := Str("openai_fallback"), "model" := Str(model)] + ParamsToMap(data)
  }

  // ---- test cases --------------------------------------------------------------

  /** Entry `index` (counted from 1) with its defaults filled in. */
  function FallbackTestCase(useCaseId: string, model: string, index: nat, t: TestCaseJson): (r: Result<TestCase>)
    ensures r.Ok? <==> StartsWith(t.id.GetOr(EngineTestCaseId(useCaseId, index)), "tc_")
                       && StartsWith(useCaseId, "uc_") && 2 <= |t.axes.GetOr(MinimalAxes)| <= 3
    ensures r.Ok? ==> TestCaseModel.Valid(r.value) && r.value.useCaseId == useCaseId
                      && r.value.id == t.id.GetOr(EngineTestCaseId(useCaseId, index))
                      && r.value.name == t.name.GetOr(DefaultName(index))
                      && r.value.description == t.description.GetOr("")
                      && r.value.parameterVariationAxes == t.axes.GetOr(MinimalAxes)
                      && r.value.metadata == FallbackMetadata(model, t.metadata)
  {
    MakeTestCase(t.id.GetOr(EngineTestCaseId(useCaseId, index)), useCaseId, t.name.GetOr(DefaultName(index)),
                 t.description.GetOr(""), t.axes.GetOr(MinimalAxes), FallbackMetadata(model, t.metadata))
  }

  /** Entry `index` of the reply's test cases, as the loop builds it. */
  function TestCaseBuilder(useCaseId: string, model: string): (nat, TestCaseJson) -> Result<TestCase> {
    (index: nat, t: TestCaseJson) => FallbackTestCase(useCaseId, model, index, t)
  }

  /**
   * The test cases built from the first `n` entries, entry `k` numbered
   * `k + 1`; the first failing entry's error stops everything.
   */
  function TestCasesUpTo(useCaseId: string, model: string, items: seq<TestCaseJson>, n: nat)
    : Result<seq<TestCase>>
    requires n <= |items|
  {
    CollectUpTo(items, TestCaseBuilder(useCaseId, model), n)
  }

  /** The first loop of `generate_with_openai_fallback`. */
  method BuildTestCases(useCaseId: string, model: string, items: seq<TestCaseJson>) returns (r: Result<seq<TestCase>>)
    ensures r == TestCasesUpTo(useCaseId, model, items, |items|)
  {
    var testCases: seq<TestCase> := [];
    var i := 0;
    while i < |items|
      invariant 0 <= i <= |items|
      invariant TestCasesUpTo(useCaseId, model, items, i) == Ok(testCases)
    {
      CollectStep(items, TestCaseBuilder(useCaseId, model), i);
      var tc := FallbackTestCase(useCaseId, model, i + 1, items[i]);
      if tc.Err? {
        CollectErrorSticks(items, TestCaseBuilder(useCaseId, model), i + 1, |items|);
        return Err(tc.error);
      }
      testCases := testCases + [tc.value];
      i := i + 1;
    }
    return Ok(testCases);
  }

  // ---- examples ------------------------------------------------------------------

  /** `Message(role=msg.get("role", "user"), content=msg.get("content", ""))` for every message. */
  function MessagesFrom(items: seq<MessageJson>): (r: Result<seq<Message>>)
    ensures r.Ok? ==> |r.value| == |items|
    ensures r.Ok? ==> forall k :: 0 <= k < |items| ==>
              MakeMessage(items[k].role.GetOr("user"), items[k].content.GetOr("")) == Ok(r.value[k])
    decreases |items|
  {
    if |items| == 0 then Ok([])
    else
      var m := MakeMessage(items[0].role.GetOr("user"), items[0].content.GetOr(""));
      if m.Err? then Err(m.error)
      else
        var rest := MessagesFrom(items[1..]);
        if rest.Err? then rest
        else
          assert forall k :: 1 <= k < |items| ==> items[k] == items[1..][k - 1];
          Ok([m.value] + rest.value)
  }

  /** The entry's format, else the first requested format, else single_turn_qa. */
  function ExampleFormat(e: ExampleJson, formats: seq<string>): string {
    e.format.GetOr(if |formats| > 0 then formats[0] else QaFormat)
  }

  /** A missing target points at the first message for single-utterance and the last for dialog examples. */
  function TargetIndex(format: string, target: Option<int>, count: nat): (r: Option<int>)
    ensures target.Some? ==> r == target
    ensures target.None? && format == UtteranceFormat ==> r == Some(0)
    ensures target.None? && format == DialogFormat ==> r == Some(count - 1)
    ensures target.None? && format != UtteranceFormat && format != DialogFormat ==> r.None?
  {
    if target.Some? then target
    else if format == UtteranceFormat then Some(0)
    else if format == DialogFormat then Some(count - 1)
    else None
  }

  const IndexOutOfRange := "list index out of range"
  const DefaultCriteria := ["relevance", "policy_compliance", "response_completeness"]

  /**
   * Entry `index` (counted from 1). The default test-case id
   * `test_cases[min(index - 1, len - 1)].id` is computed before the lookup,
   * so an empty test-case list fails every example, even one naming its test case.
   */
  function FallbackExample(useCaseId: string, caseName: string, model: string, formats: seq<string>,
                           testCases: seq<TestCase>, index: nat, e: ExampleJson): (r: Result<DatasetExample>)
  {
    var messages := MessagesFrom(e.messages);
    if messages.Err? then Err(messages.error)
    else if testCases == [] || index == 0 then Err(IndexOutOfRange)
    else
      var format := ExampleFormat(e, formats);
      var testCaseId := e.testCaseId.GetOr(testCases[Min(index - 1, |testCases| - 1)].id);
      var input := MakeInputData(messages.value, TargetIndex(format, e.target, |messages.value|));
      if input.Err? then Err(input.error)
      else
        MakeExample(e.id.GetOr(EngineExampleId(useCaseId, index)), caseName, format, useCaseId, testCaseId,
                    input.value, e.expectedOutput.GetOr(""), e.criteria.GetOr(DefaultCriteria),
                    e.policyIds.GetOr([UnknownPolicy]), FallbackMetadata(model, e.metadata))
  }

  /**
   * An example is only built with test cases to default to; it then carries
   * the entry's fields, the defaults for the missing ones, and the test case
   * of its own position (or the last one) when the entry names none.
   */
  lemma FallbackExampleFields(useCaseId: string, caseName: string, model: string, formats: seq<string>,
                              testCases: seq<TestCase>, index: nat, e: ExampleJson)
    ensures var r := FallbackExample(useCaseId, caseName, model, formats, testCases, index, e);
            (testCases == [] ==> r.Err?)
            && (r.Ok? ==> DatasetExampleModel.Valid(r.value) && r.value.caseName == caseName
                          && r.value.useCaseId == useCaseId && r.value.format == ExampleFormat(e, formats)
                          && r.value.id == e.id.GetOr(EngineExampleId(useCaseId, index))
                          && |r.value.input.messages| == |e.messages|
                          && r.value.input.targetMessageIndex
                             == TargetIndex(ExampleFormat(e, formats), e.target, |e.messages|)
                          && r.value.expectedOutput == e.expectedOutput.GetOr("")
                          && r.value.evaluationCriteria == e.criteria.GetOr(DefaultCriteria)
                          && r.value.policyIds == e.policyIds.GetOr([UnknownPolicy])
                          && r.value.metadata == FallbackMetadata(model, e.metadata))
            && (r.Ok? && e.testCaseId.None? ==>
                  index >= 1 && r.value.testCaseId == testCases[Min(index - 1, |testCases| - 1)].id)
            && (r.Ok? && e.testCaseId.Some? ==> r.value.testCaseId == e.testCaseId.value)
  {
  }

  /** Entry `index` of the reply's examples, as the loop builds it. */
  function ExampleBuilder(useCaseId: string, caseName: string, model: string, formats: seq<string>,
                          testCases: seq<TestCase>): (nat, ExampleJson) -> Result<DatasetExample> {
    (index: nat, e: ExampleJson) => FallbackExample(useCaseId, caseName, model, formats, testCases, index, e)
  }

  /** The examples built from the first `n` entries, entry `k` numbered `k + 1`. */
  function ExamplesUpTo(useCaseId: string, caseName: string, model: string, formats: seq<string>,
                        testCases: seq<TestCase>, items: seq<ExampleJson>, n: nat): Result<seq<DatasetExample>>
    requires n <= |items|
  {
    CollectUpTo(items, ExampleBuilder(useCaseId, caseName, model, formats, testCases), n)
  }

  /** The second loop of `generate_with_openai_fallback`. */
  method BuildExamples(useCaseId: string, caseName: string, model: string, formats: seq<string>,
                       testCases: seq<TestCase>, items: seq<ExampleJson>) returns (r: Result<seq<DatasetExample>>)
    ensures r == ExamplesUpTo(useCaseId, caseName, model, formats, testCases, items, |items|)
  {
    var examples: seq<DatasetExample> := [];
    var i := 0;
    while i < |items|
      invariant 0 <= i <= |items|
      invariant ExamplesUpTo(useCaseId, caseName, model, formats, testCases, items, i) == Ok(examples)
    {
      CollectStep(items, ExampleBuilder(useCaseId, caseName, model, formats, testCases), i);
      var ex := FallbackExample(useCaseId, caseName, model, formats, testCases, i + 1, items[i]);
      if ex.Err? {
        CollectErrorSticks(items, ExampleBuilder(useCaseId, caseName, model, formats, testCases), i + 1, |items|);
        return Err(ex.error);
      }
      examples := examples + [ex.value];
      i := i + 1;
    }
    return Ok(examples);
  }

  // ---- the whole call --------------------------------------------------------------

  const FailurePrefix := "OpenAI fallback generation failed: "
  const NoReply := "no parsable JSON reply"

  /**
   * `generate_with_openai_fallback`. `reply` is the parsed JSON answer,
   * `None` when the call or `json.loads` fails; every error is re-raised
   * as `RuntimeError` with the fixed prefix.
   */
  function FallbackGeneration(useCaseId: string, caseName: string, model: string, formats: Option<seq<string>>,
                              reply: Option<Reply>): (r: Result<(seq<TestCase>, seq<DatasetExample>)>)
    ensures r.Err? ==> StartsWith(r.error, FailurePrefix)
  {
    if reply.None? then Err(FailurePrefix + NoReply)
    else
      var testCases := TestCasesUpTo(useCaseId, model, reply.value.testCases, |reply.value.testCases|);
      if testCases.Err? then Err(FailurePrefix + testCases.error)
      else
        var examples := ExamplesUpTo(useCaseId, caseName, model, DefaultFormats(caseName, formats), testCases.value,
                                     reply.value.examples, |reply.value.examples|);
        if examples.Err? then Err(FailurePrefix + examples.error)
        else Ok((testCases.value, examples.value))
  }

  method GenerateWithOpenAiFallback(useCaseId: string, caseName: string, model: string, formats: Option<seq<string>>,
                                    reply: Option<Reply>) returns (r: Result<(seq<TestCase>, seq<DatasetExample>)>)
    ensures r == FallbackGeneration(useCaseId, caseName, model, formats, reply)
  {
    if reply.None? {
      return Err(FailurePrefix + NoReply);
    }
    var testCases := BuildTestCases(useCaseId, model, reply.value.testCases);
    if testCases.Err? {
      return Err(FailurePrefix + testCases.error);
    }
    var examples := BuildExamples(useCaseId, caseName, model, DefaultFormats(caseName, formats), testCases.value,
                                  reply.value.examples);
    if examples.Err? {
      return Err(FailurePrefix + examples.error);
    }
    return Ok((testCases.value, examples.value));
  }

  /** Built test cases: one per entry, each valid and of the given use case. */
  lemma TestCasesValid(useCaseId: string, model: string, items: seq<TestCaseJson>)
    requires TestCasesUpTo(useCaseId, model, items, |items|).Ok?
    ensures var tcs := TestCasesUpTo(useCaseId, model, items, |items|).value;
            |tcs| == |items| && forall k :: 0 <= k < |tcs| ==> TestCaseModel.Valid(tcs[k]) && tcs[k].useCaseId == useCaseId
  {
    var makeCase := TestCaseBuilder(useCaseId, model);
    CollectShape(items, makeCase, |items|);
    var tcs := TestCasesUpTo(useCaseId, model, items, |items|).value;
    forall k | 0 <= k < |tcs| ensures TestCaseModel.Valid(tcs[k]) && tcs[k].useCaseId == useCaseId {
      assert makeCase(k + 1, items[k]) == Ok(tcs[k]);
      assert FallbackTestCase(useCaseId, model, k + 1, items[k]) == Ok(tcs[k]);
    }
  }

  /** Built examples: one per entry, each valid and of the given case. */
  lemma ExamplesValid(useCaseId: string, caseName: string, model: string, formats: seq<string>,
                      testCases: seq<TestCase>, items: seq<ExampleJson>)
    requires ExamplesUpTo(useCaseId, caseName, model, formats, testCases, items, |items|).Ok?
    ensures var exs := ExamplesUpTo(useCaseId, caseName, model, formats, testCases, items, |items|).value;
            |exs| == |items|
            && forall k :: 0 <= k < |exs| ==> DatasetExampleModel.Valid(exs[k]) && exs[k].caseName == caseName
  {
    var makeExample := ExampleBuilder(useCaseId, caseName, model, formats, testCases);
    CollectShape(items, makeExample, |items|);
    var exs := ExamplesUpTo(useCaseId, caseName, model, formats, testCases, items, |items|).value;
    forall k | 0 <= k < |exs| ensures DatasetExampleModel.Valid(exs[k]) && exs[k].caseName == caseName {
      assert makeExample(k + 1, items[k]) == Ok(exs[k]);
      FallbackExampleFields(useCaseId, caseName, model, formats, testCases, k + 1, items[k]);
    }
  }

  /**
   * A successful call returns exactly one record per reply entry, whatever
   * was asked for, and every record is valid.
   */
  lemma OneRecordPerEntry(useCaseId: string, caseName: string, model: string,
                          formats: Option<seq<string>>, reply: Reply)
    requires FallbackGeneration(useCaseId, caseName, model, formats, Some(reply)).Ok?
    ensures var (tcs, exs) := FallbackGeneration(useCaseId, caseName, model, formats, Some(reply)).value;
            |tcs| == |reply.testCases| && |exs| == |reply.examples|
            && (forall k :: 0 <= k < |tcs| ==> TestCaseModel.Valid(tcs[k]) && tcs[k].useCaseId == useCaseId)
            && (forall k :: 0 <= k < |exs| ==> DatasetExampleModel.Valid(exs[k]) && exs[k].caseName == caseName)
  {
    TestCasesValid(useCaseId, model, reply.testCases);
    var tcs := TestCasesUpTo(useCaseId, model, reply.testCases, |reply.testCases|).value;
    ExamplesValid(useCaseId, caseName, model, DefaultFormats(caseName, formats), tcs, reply.examples);
  }

  /** A reply with examples but no test cases always fails, through the eagerly computed default id. */
  lemma {:induction false} ExamplesNeedTestCases(useCaseId: string, caseName: string, model: string,
                                                 formats: Option<seq<string>>, reply: Reply)
    requires reply.testCases == [] && reply.examples != []
    ensures FallbackGeneration(useCaseId, caseName, model, formats, Some(reply)).Err?
  {
    var fs := DefaultFormats(caseName, formats);
    var makeExample := ExampleBuilder(useCaseId, caseName, model, fs, []);
    assert TestCasesUpTo(useCaseId, model, reply.testCases, 0) == Ok([]);
    FallbackExampleFields(useCaseId, caseName, model, fs, [], 1, reply.examples[0]);
    assert makeExample(1, reply.examples[0]).Err?;
    assert CollectUpTo(reply.examples, makeExample, 1).Err?;
    CollectErrorSticks(reply.examples, makeExample, 1, |reply.examples|);
  }

  /** An example without `test_case_id` belongs to the test case of the same position, or to the last one. */
  lemma ExampleTestCaseClamped(useCaseId: string, caseName: string, model: string, formats: seq<string>,
                               testCases: seq<TestCase>, index: nat, e: ExampleJson)
    requires e.testCaseId.None?
    requires FallbackExample(useCaseId, caseName, model, formats, testCases, index, e).Ok?
    ensures var id := FallbackExample(useCaseId, caseName, model, formats, testCases, index, e).value.testCaseId;
            (index <= |testCases| ==> id == testCases[index - 1].id)
            && (index > |testCases| ==> id == testCases[|testCases| - 1].id)
  {
    FallbackExampleFields(useCaseId, caseName, model, formats, testCases, index, e);
  }
}
