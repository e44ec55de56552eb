/**
 * The single_turn_qa adapter (format_adapters/single_turn_qa.py): one user
 * message and the ideal support answer. The prompt fragments it builds
 * (`_format_policies`, `_format_parameters`, the use-case summary) and its
 * example-id scheme are shared word for word by the correction adapters, so
 * they are defined here once.
 */
module SingleTurnQa {
  import opened Base
  import opened Text
  import opened Values
  import opened DatasetExampleModel

  /** A policy as handed to an adapter: a dict with `id`, `name`, `type`, `description`, `statement`. */
  type PolicyDict = Params

  // ---------------------------------------------------------------------------
  // Prompt fragments

  /** `p.get("statement") or p.get("description", "")` */
  function PolicyStatement(p: PolicyDict): Value {
    var st := Get(p, "statement");
    if st.Some? && Truthy(st.value) then st.value else Get(p, "description").GetOr(Str(""))
  }

  /** One line of `_format_policies`. */
  function PolicyLine(p: PolicyDict): string {
    "- " + PolicyField(p, "id", "pol_unknown") + " (" + PolicyField(p, "type", "unknown") + "): "
    + Display(PolicyStatement(p))
  }

  /** `str(p.get(key, default))` */
  function PolicyField(p: PolicyDict, key: string, default: string): string {
    Display(Get(p, key).GetOr(Str(default)))
  }

  function PolicyLines(policies: seq<PolicyDict>): (r: seq<string>)
    ensures |r| == |policies|
  {
    seq(|policies|, i requires 0 <= i < |policies| => PolicyLine(policies[i]))
  }

  const NoPoliciesText := "No specific policies provided."

  /** The text `_format_policies` returns. */
  function FormatPolicies(policies: seq<PolicyDict>): string {
    if |policies| == 0 then NoPoliciesText else Join(PolicyLines(policies), "\n")
  }

  /** `_format_policies`: one line appended per policy, then the lines joined. */
  method FormatPoliciesText(policies: seq<PolicyDict>) returns (r: string)
    ensures r == FormatPolicies(policies)
  {
    if |policies| == 0 {
      return NoPoliciesText;
    }
    var lines: seq<string> := [];
    ghost var all := PolicyLines(policies);
    for i := 0 to |policies|
      invariant lines == all[..i]
    {
      lines := lines + [PolicyLine(policies[i])];
      assert all[..i + 1] == all[..i] + [all[i]];
    }
    assert all[..|policies|] == all;
    r := Join(lines, "\n");
  }

  /** No value of the dict prints with a line break. */
  predicate SingleLineValues(p: Params) {
    forall i :: 0 <= i < |p| ==> '\n' !in Display(p[i].1)
  }

  lemma {:induction false} GetSingleLine(p: Params, key: string, default: Value)
    requires SingleLineValues(p) && '\n' !in Display(default)
    ensures '\n' !in Display(Get(p, key).GetOr(default))
  {
    GetSpec(p, key);
  }

  lemma PolicyLineSingle(p: PolicyDict)
    requires SingleLineValues(p)
    ensures '\n' !in PolicyLine(p)
  {
    GetSingleLine(p, "id", Str("pol_unknown"));
    GetSingleLine(p, "type", Str("unknown"));
    GetSingleLine(p, "statement", Str(""));
    GetSingleLine(p, "description", Str(""));
  }

  /**
   * With no line breaks inside the values, the text has exactly one line per
   * policy, in order, each opening with "- ".
   */
  lemma {:induction false} OneLinePerPolicy(policies: seq<PolicyDict>)
    requires |policies| >= 1
    requires forall i :: 0 <= i < |policies| ==> SingleLineValues(policies[i])
    ensures Split(FormatPolicies(policies), '\n') == PolicyLines(policies)
    ensures forall i :: 0 <= i < |policies| ==> StartsWith(Split(FormatPolicies(policies), '\n')[i], "- ")
  {
    var lines := PolicyLines(policies);
    forall i | 0 <= i < |lines|
      ensures '\n' !in lines[i]
    {
      PolicyLineSingle(policies[i]);
    }
    SplitJoin(lines, '\n');
  }

  /** A dict with none of the four keys prints the documented defaults. */
  lemma MissingPolicyFields(p: PolicyDict)
    requires !HasKey(p, "id") && !HasKey(p, "type") && !HasKey(p, "statement") && !HasKey(p, "description")
    ensures PolicyLine(p) == "- pol_unknown (unknown): "
  {
    GetSpec(p, "id");
    GetSpec(p, "type");
    GetSpec(p, "statement");
    GetSpec(p, "description");
  }

  /** An empty or missing statement falls back to the description. */
  lemma StatementFallsBack(p: PolicyDict, description: string)
    requires Get(p, "statement").None? || Get(p, "statement") == Some(Str(""))
    requires Get(p, "description") == Some(Str(description))
    ensures Display(PolicyStatement(p)) == description
  {
  }

  /** One line of `_format_parameters`. */
  function ParameterLine(entry: (string, Value)): string {
    "- " + entry.0 + ": " + Display(entry.1)
  }

  function ParameterLines(parameters: Params): (r: seq<string>)
    ensures |r| == |parameters| && forall i :: 0 <= i < |parameters| ==> r[i] == ParameterLine(parameters[i])
  {
    seq(|parameters|, i requires 0 <= i < |parameters| => ParameterLine(parameters[i]))
  }

  const DefaultScenarioText := "Default scenario (neutral tone, standard case)"

  /** The text `_format_parameters` returns. */
  function FormatParameters(parameters: Params): string {
    if |parameters| == 0 then DefaultScenarioText else Join(ParameterLines(parameters), "\n")
  }

  /** `_format_parameters`: one "- key: value" line per entry, in the dict's order. */
  method FormatParametersText(parameters: Params) returns (r: string)
    ensures r == FormatParameters(parameters)
  {
    if |parameters| == 0 {
      return DefaultScenarioText;
    }
    var lines: seq<string> := [];
    ghost var all := ParameterLines(parameters);
    for i := 0 to |parameters|
      invariant lines == all[..i]
    {
      lines := lines + [ParameterLine(parameters[i])];
      assert all[..i + 1] == all[..i] + [all[i]];
    }
    assert all[..|parameters|] == all;
    r := Join(lines, "\n");
  }

  /** With no line breaks in keys or values, line `i` of the text is entry `i`. */
  lemma {:induction false} OneLinePerParameter(parameters: Params)
    requires |parameters| >= 1
    requires forall i :: 0 <= i < |parameters| ==> '\n' !in parameters[i].0
    requires SingleLineValues(parameters)
    ensures Split(FormatParameters(parameters), '\n') == ParameterLines(parameters)
  {
    var lines := ParameterLines(parameters);
    forall i | 0 <= i < |lines|
      ensures '\n' !in lines[i]
    {
    }
    SplitJoin(lines, '\n');
  }

  /** The policy names `_extract_use_case_description` lists: those of the first three policies. */
  function LeadingPolicyNames(policies: seq<PolicyDict>): (r: seq<string>)
    ensures |r| == Min(3, |policies|)
  {
    var n := Min(3, |policies|);
    seq(n, i requires 0 <= i < n => Display(Get(policies[i], "name").GetOr(Str(""))))
  }

  /** `_extract_use_case_description` */
  function UseCaseSummary(policies: seq<PolicyDict>): string {
    if |policies| == 0 then "General customer support scenario"
    else "Customer support scenario involving: " + Join(LeadingPolicyNames(policies), ", ")
  }

  /** Only the first three policies matter: anything after them leaves the summary unchanged. */
  lemma SummaryUsesFirstThree(policies: seq<PolicyDict>, more: seq<PolicyDict>)
    requires |policies| >= 3
    ensures UseCaseSummary(policies + more) == UseCaseSummary(policies)
    ensures UseCaseSummary(policies) == UseCaseSummary(policies[..3])
  {
    assert LeadingPolicyNames(policies + more) == LeadingPolicyNames(policies);
    assert LeadingPolicyNames(policies[..3]) == LeadingPolicyNames(policies);
  }

  // ---------------------------------------------------------------------------
  // Example id

  /**
   * `_generate_example_id`: "ex_", the test case id with every "tc_" removed,
   * "_", and the first eight characters of a fresh uuid (`uuid` here).
   */
  function ExampleId(testCaseId: string, uuid: string): (r: string)
    ensures StartsWith(r, "ex_")
  {
    "ex_" + ReplaceAll(testCaseId, "tc_", "") + "_" + Take(uuid, 8)
  }

  /** For a test case id "tc_" + rest with no further "tc_", the example id is "ex_" + rest + "_" + suffix. */
  lemma ExampleIdOfTestCase(rest: string, uuid: string)
    requires !Contains(rest, "tc_")
    requires |uuid| >= 8
    ensures ExampleId("tc_" + rest, uuid) == "ex_" + rest + "_" + uuid[..8]
    ensures |ExampleId("tc_" + rest, uuid)| == |rest| + 12
  {
    var s := "tc_" + rest;
    assert s[..3] == "tc_" && s[3..] == rest;
    ReplaceAbsent(rest, "tc_", "");
  }

  // ---------------------------------------------------------------------------
  // Building and checking examples

  /** Why a structured LLM call produced no example: it raised, or its answer broke the schema. */
  const CallError := "structured output call failed"
  const SchemaError := "response does not match the output schema"

  // The wording of the `validate_format` messages, shared by the three adapters.
  const ExactlyOneMessage := " must have exactly 1 message, got "
  const AtLeastTwoMessages := " must have at least 2 messages, got "
  const MessageRole := " message role must be '"
  const LastMessageRole := " last message role must be '"
  const NoTargetExpected := " should not have target_message_index"

  function FormatError(expected: string, got: string): string {
    "Format must be '" + expected + "', got '" + got + "'"
  }

  function RoleError(subject: string, expected: Role, got: Role): string {
    subject + RoleName(expected) + "', got '" + RoleName(got) + "'"
  }

  /** `f"{example.input.target_message_index}"`: `None` when absent. */
  function TargetText(t: Option<int>): string {
    if t.None? then "None" else IntToString(t.value)
  }

  function TargetError(format: string, expected: int, got: Option<int>): string {
    format + " target_message_index must be " + IntToString(expected) + ", got " + TargetText(got)
  }

  /** `SingleTurnQAGenerationOutput`, as the structured LLM call parses it. */
  datatype QaOutput = QaOutput(userMessage: string, expectedResponse: string,
                               evaluationCriteria: seq<string>, relevantPolicyIds: seq<string>)

  /** The `min_length` constraints of the response schema; a response breaking them fails to parse. */
  predicate QaSchema(o: QaOutput) {
    |o.evaluationCriteria| >= 3 && |o.relevantPolicyIds| >= 1
  }

  const FormatName := "single_turn_qa"

  /**
   * `generate_example`. `output` is the parsed LLM answer (`None` when the
   * call raises or parses to nothing); the parameters and policies only feed
   * the prompt, so they appear through `output`.
   */
  function GenerateExample(caseName: string, useCaseId: string, testCaseId: string, model: string,
                           uuid: string, output: Option<QaOutput>): (r: Result<DatasetExample>)
    ensures r.Ok? <==> output.Some? && QaSchema(output.value) && StartsWith(useCaseId, "uc_")
                       && StartsWith(testCaseId, "tc_") && AllPolicyIdsPrefixed(output.value.relevantPolicyIds)
    ensures r.Ok? ==> Valid(r.value) && ValidateFormat(r.value) == []
    ensures r.Ok? ==> r.value.id == ExampleId(testCaseId, uuid) && r.value.caseName == caseName
                      && r.value.useCaseId == useCaseId && r.value.testCaseId == testCaseId
                      && r.value.input.messages == [Message(User, output.value.userMessage)]
                      && r.value.expectedOutput == output.value.expectedResponse
                      && r.value.evaluationCriteria == output.value.evaluationCriteria
                      && r.value.policyIds == output.value.relevantPolicyIds
    ensures r.Ok? ==> r.value.metadata == map["source" := Str(""), "generator" := Str("single_turn_qa_adapter"),
                                              "model" := Str(model)]
  {
    if output.None? then Err(CallError)
    else if !QaSchema(output.value) then Err(SchemaError)
    else
      var o := output.value;
      var input := InputData([Message(User, o.userMessage)], None);
      MakeExample(ExampleId(testCaseId, uuid), caseName, FormatName, useCaseId, testCaseId, input,
                  o.expectedResponse, o.evaluationCriteria, o.relevantPolicyIds,
                  map["source" := Str(""), "generator" := Str("single_turn_qa_adapter"), "model" := Str(model)])
  }

  /** `validate_format`: one message per failed check, in the order the checks are made. */
  function ValidateFormat(e: DatasetExample): (r: seq<string>)
    ensures r == [] <==> e.format == FormatName && |e.input.messages| == 1 && e.input.messages[0].role == User
                         && e.input.targetMessageIndex.None?
    ensures |r| <= 4
  {
    var msgs := e.input.messages;
    (if e.format != FormatName then [FormatError(FormatName, e.format)] else [])
    + (if |msgs| != 1 then [FormatName + ExactlyOneMessage + NatToString(|msgs|)] else [])
    + (if |msgs| > 0 && msgs[0].role != User then [RoleError(FormatName + MessageRole, User, msgs[0].role)] else [])
    + (if e.input.targetMessageIndex.Some? then [FormatName + NoTargetExpected] else [])
  }

  /** An example with two messages and a stray target index fails exactly the count and the target checks. */
  lemma TwoFailedChecks(e: DatasetExample)
    requires e.format == FormatName && |e.input.messages| == 2 && e.input.messages[0].role == User
    requires e.input.targetMessageIndex.Some?
    ensures |ValidateFormat(e)| == 2
  {
  }
}
