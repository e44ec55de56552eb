/** A dataset example: conversation input plus expected result (models/dataset_example.py). */
module DatasetExampleModel {
  import opened Base
  import opened Text
  import opened Values

  datatype Role = User | Operator | Assistant | System

  function RoleName(r: Role): string {
    match r
    case User => "user"
    case Operator => "operator"
    case Assistant => "assistant"
    case System => "system"
  }

  /** The `Literal[...]` check on `Message.role`. */
  function ParseRole(s: string): (r: Option<Role>)
    ensures r.Some? ==> RoleName(r.value) == s
  {
    if s == "user" then Some(User)
    else if s == "operator" then Some(Operator)
    else if s == "assistant" then Some(Assistant)
    else if s == "system" then Some(System)
    else None
  }

  lemma ParseRoleName(r: Role)
    ensures ParseRole(RoleName(r)) == Some(r)
  {
  }

  // Validation messages, as Pydantic and the model's validators word them.
  const RoleLiteralError := "role: input should be 'user', 'operator', 'assistant' or 'system'"
  const NoMessagesError := "messages: list should have at least 1 item"
  const InvalidInputError := "input: invalid InputData"
  const IdPrefixError := "DatasetExample ID must start with 'ex_', got: "
  const UseCasePrefixError := "DatasetExample use_case_id must start with 'uc_', got: "
  const TestCasePrefixError := "DatasetExample test_case_id must start with 'tc_', got: "
  const CriteriaCountError := "DatasetExample must have at least 3 evaluation_criteria, got: "
  const NoPolicyIdError := "DatasetExample must have at least 1 policy_id, got: 0"
  const PolicyPrefixError := "All policy_ids must start with 'pol_', got: "

  const OutOfRange := " is out of range for messages list of length "
  const TargetNotOperator := "target_message_index must point to an operator message, but messages["

  function TargetRangeError(target: int, count: nat): string {
    "target_message_index=" + IntToString(target) + OutOfRange + IntToString(count)
  }

  function TargetRoleError(target: int, role: Role): string {
    TargetNotOperator + IntToString(target) + "].role=" + RoleName(role)
  }

  datatype Message = Message(role: Role, content: string)

  function MakeMessage(role: string, content: string): (r: Result<Message>)
    ensures r.Ok? <==> ParseRole(role).Some?
    ensures r.Ok? ==> RoleName(r.value.role) == role && r.value.content == content
  {
    match ParseRole(role)
    case Some(rl) => Ok(Message(rl, content))
    case None => Err(RoleLiteralError)
  }

  datatype InputData = InputData(messages: seq<Message>, targetMessageIndex: Option<int>)

  /** At least one message; a target index, when present, names an operator message. */
  predicate InputValid(d: InputData) {
    |d.messages| >= 1
    && (d.targetMessageIndex.Some? ==>
          0 <= d.targetMessageIndex.value < |d.messages|
          && d.messages[d.targetMessageIndex.value].role == Operator)
  }

  function MakeInputData(messages: seq<Message>, target: Option<int>): (r: Result<InputData>)
    ensures r.Ok? <==> InputValid(InputData(messages, target))
    ensures r.Ok? ==> r.value == InputData(messages, target)
  {
    if |messages| == 0 then Err(NoMessagesError)
    else if target.Some? && !(0 <= target.value < |messages|) then
      Err(TargetRangeError(target.value, |messages|))
    else if target.Some? && messages[target.value].role != Operator then
      Err(TargetRoleError(target.value, messages[target.value].role))
    else Ok(InputData(messages, target))
  }

  datatype DatasetExample = DatasetExample(
    id: string, caseName: string, format: string, useCaseId: string, testCaseId: string,
    input: InputData, expectedOutput: string, evaluationCriteria: seq<string>,
    policyIds: seq<string>, metadata: Metadata)

  predicate AllPolicyIdsPrefixed(ids: seq<string>) {
    forall i :: 0 <= i < |ids| ==> StartsWith(ids[i], "pol_")
  }

  predicate Valid(e: DatasetExample) {
    StartsWith(e.id, "ex_") && StartsWith(e.useCaseId, "uc_") && StartsWith(e.testCaseId, "tc_")
    && InputValid(e.input) && |e.evaluationCriteria| >= 3
    && |e.policyIds| >= 1 && AllPolicyIdsPrefixed(e.policyIds)
  }

  /** The first policy id without the `pol_` prefix. */
  function FirstUnprefixed(ids: seq<string>): (k: nat)
    requires !AllPolicyIdsPrefixed(ids)
    ensures k < |ids| && !StartsWith(ids[k], "pol_")
    ensures forall j :: 0 <= j < k ==> StartsWith(ids[j], "pol_")
  {
    if !StartsWith(ids[0], "pol_") then 0
    else
      assert !AllPolicyIdsPrefixed(ids[1..]);
      1 + FirstUnprefixed(ids[1..])
  }

  /** Construction with validation; `input` is a validated InputData. */
  function MakeExample(id: string, caseName: string, format: string, useCaseId: string, testCaseId: string,
                       input: InputData, expectedOutput: string, criteria: seq<string>,
                       policyIds: seq<string>, metadata: Metadata): (r: Result<DatasetExample>)
    ensures r.Ok? <==> Valid(DatasetExample(id, caseName, format, useCaseId, testCaseId, input, expectedOutput,
                                          criteria, policyIds, metadata))
    ensures r.Ok? ==> r.value == DatasetExample(id, caseName, format, useCaseId, testCaseId, input, expectedOutput,
                                                criteria, policyIds, metadata)
  {
    if !InputValid(input) then Err(InvalidInputError)
    else if !StartsWith(id, "ex_") then Err(IdPrefixError + id)
    else if !StartsWith(useCaseId, "uc_") then Err(UseCasePrefixError + useCaseId)
    else if !StartsWith(testCaseId, "tc_") then Err(TestCasePrefixError + testCaseId)
    else if |criteria| < 3 then
      Err(CriteriaCountError + IntToString(|criteria|))
    else if |policyIds| < 1 then Err(NoPolicyIdError)
    else if !AllPolicyIdsPrefixed(policyIds) then
      Err(PolicyPrefixError + policyIds[FirstUnprefixed(policyIds)])
    else Ok(DatasetExample(id, caseName, format, useCaseId, testCaseId, input, expectedOutput, criteria, policyIds, metadata))
  }

  /** A target index that is present but not an operator message is refused. */
  lemma TargetMustBeOperator(messages: seq<Message>, t: int)
    requires 0 <= t < |messages| && messages[t].role != Operator
    ensures MakeInputData(messages, Some(t)).Err?
  {
  }
}
