/**
 * The two operator-quality adapters (format_adapters/operator_corrections.py):
 * `single_utterance_correction` (one operator message with mixed errors and
 * its correction) and `dialog_last_turn_correction` (a dialog ending with a
 * flawed operator turn). Both build the same error instructions from the
 * test parameters; the dialog adapter adds context instructions.
 */
module OperatorCorrections {
  import opened Base
  import opened Text
  import opened Values
  import opened DatasetExampleModel
  import opened SingleTurnQa

  // ---------------------------------------------------------------------------
  // Prompt instructions built from the parameters

  predicate IsPunctuationLevel(v: Option<Value>) { v == Some(Str("minor")) || v == Some(Str("severe")) }
  predicate IsSlangLevel(v: Option<Value>) { v == Some(Str("moderate")) || v == Some(Str("excessive")) }
  predicate WantsCaps(v: Option<Value>) { v.Some? && Truthy(v.value) }
  predicate WantsMedicalTerms(v: Option<Value>) { v == Some(Str("present")) }

  /** A prompt bullet. */
  function Bullet(text: string): (r: string)
    ensures StartsWith(r, "- ") && r[1..] == " " + text
  {
    var r := "- " + text;
    assert r[..2] == "- ";
    r
  }

  /** One instruction of `_build_error_instructions`, before it is rendered as a line. */
  datatype ErrorInstruction =
    | PunctuationErrors(level: Value)
    | SlangEmoji(level: Value)
    | CapsExclamation
    | MedicalTerms
    | MessageLength(length: Value)

  const PunctuationDetail := "): missing commas/periods, incorrect spacing"
  const SlangDetail := "): informal language, excessive emojis"
  const CapsText := "Excessive caps and exclamation marks: КАПСЛОК!!! and multiple !!!"
  const MedicalText := "Include medical terms but DON'T corrupt them (they should remain correct)"

  function ErrorLine(item: ErrorInstruction): (r: string)
    ensures StartsWith(r, "- ")
  {
    match item
    case PunctuationErrors(level) => Bullet("Punctuation errors (" + Display(level) + PunctuationDetail)
    case SlangEmoji(level) => Bullet("Slang/emoji (" + Display(level) + SlangDetail)
    case CapsExclamation => Bullet(CapsText)
    case MedicalTerms => Bullet(MedicalText)
    case MessageLength(length) => Bullet("Message length: " + Display(length))
  }

  function When<T>(condition: bool, item: T): (r: seq<T>)
    ensures |r| == (if condition then 1 else 0) && (condition ==> r == [item])
  {
    if condition then [item] else []
  }

  /**
   * The instructions `_build_error_instructions` collects: one for each
   * error parameter at an error level, in a fixed order, then the length
   * instruction, which is always there ("medium" by default).
   */
  function ErrorInstructionItems(parameters: Params): (r: seq<ErrorInstruction>)
    ensures 1 <= |r| <= 5
    ensures r[|r| - 1] == MessageLength(Get(parameters, "phrase_length").GetOr(Str("medium")))
    ensures |r| == 1 + |When(IsPunctuationLevel(Get(parameters, "punctuation_errors")), 0)|
                     + |When(IsSlangLevel(Get(parameters, "slang_profanity_emoji")), 0)|
                     + |When(WantsCaps(Get(parameters, "caps_exclamation")), 0)|
                     + |When(WantsMedicalTerms(Get(parameters, "medical_terms")), 0)|
    ensures CapsExclamation in r <==> WantsCaps(Get(parameters, "caps_exclamation"))
    ensures MedicalTerms in r <==> WantsMedicalTerms(Get(parameters, "medical_terms"))
  {
    var punctuation := Get(parameters, "punctuation_errors");
    var slang := Get(parameters, "slang_profanity_emoji");
    When(IsPunctuationLevel(punctuation), PunctuationErrors(punctuation.GetOr(Null)))
    + When(IsSlangLevel(slang), SlangEmoji(slang.GetOr(Null)))
    + When(WantsCaps(Get(parameters, "caps_exclamation")), CapsExclamation)
    + When(WantsMedicalTerms(Get(parameters, "medical_terms")), MedicalTerms)
    + [MessageLength(Get(parameters, "phrase_length").GetOr(Str("medium")))]
  }

  function ErrorInstructionLines(parameters: Params): (r: seq<string>)
    ensures |r| == |ErrorInstructionItems(parameters)|
    ensures forall i :: 0 <= i < |r| ==> r[i] == ErrorLine(ErrorInstructionItems(parameters)[i])
  {
    var items := ErrorInstructionItems(parameters);
    seq(|items|, i requires 0 <= i < |items| => ErrorLine(items[i]))
  }

  const GenericErrorsText := "Generate typical operator errors (punctuation, tone, formatting)"

  /** `_build_error_instructions` (identical in both adapters). */
  function ErrorInstructions(parameters: Params): string {
    var lines := ErrorInstructionLines(parameters);
    if |lines| == 0 then GenericErrorsText else Join(lines, "\n")
  }

  /** A joined list of bullets starts as a bullet. */
  lemma JoinedBullets(lines: seq<string>)
    requires |lines| >= 1 && StartsWith(lines[0], "- ")
    ensures StartsWith(Join(lines, "\n"), "- ")
  {
    var text := Join(lines, "\n");
    JoinPrefix(lines, "\n");
    assert text[..|lines[0]|] == lines[0];
    assert text[..2] == lines[0][..2];
  }

  /**
   * The length line is always added, so the generic fallback text is never
   * produced: the instructions are the joined lines, the last of them the
   * length line, and they start with "- ".
   */
  lemma {:induction false} GenericErrorsUnreachable(parameters: Params)
    ensures ErrorInstructions(parameters) == Join(ErrorInstructionLines(parameters), "\n")
    ensures StartsWith(ErrorInstructions(parameters), "- ")
  {
    JoinedBullets(ErrorInstructionLines(parameters));
  }

  /** With none of the error parameters set, only the length line is left. */
  lemma DefaultParametersGiveLengthOnly(parameters: Params)
    requires !HasKey(parameters, "punctuation_errors") && !HasKey(parameters, "slang_profanity_emoji")
    requires !HasKey(parameters, "caps_exclamation") && !HasKey(parameters, "medical_terms")
    requires !HasKey(parameters, "phrase_length")
    ensures ErrorInstructionItems(parameters) == [MessageLength(Str("medium"))]
    ensures ErrorInstructions(parameters) == ErrorLine(MessageLength(Str("medium")))
  {
    GetSpec(parameters, "punctuation_errors");
    GetSpec(parameters, "slang_profanity_emoji");
    GetSpec(parameters, "caps_exclamation");
    GetSpec(parameters, "medical_terms");
    GetSpec(parameters, "phrase_length");
    assert ErrorInstructionLines(parameters) == [ErrorLine(MessageLength(Str("medium")))];
  }

  /** Neutral values ("none", False, "absent") add no instruction. */
  lemma NeutralValuesAddNothing(parameters: Params)
    requires Get(parameters, "punctuation_errors") == Some(Str("none"))
    requires Get(parameters, "slang_profanity_emoji") == Some(Str("none"))
    requires Get(parameters, "caps_exclamation") == Some(Bool(false))
    requires Get(parameters, "medical_terms") == Some(Str("absent"))
    ensures |ErrorInstructionItems(parameters)| == 1
  {
  }

  /** Every error parameter at an error level yields all five instructions at once ("mixed errors"). */
  lemma AllErrorsMixed(parameters: Params)
    requires IsPunctuationLevel(Get(parameters, "punctuation_errors"))
    requires IsSlangLevel(Get(parameters, "slang_profanity_emoji"))
    requires WantsCaps(Get(parameters, "caps_exclamation"))
    requires WantsMedicalTerms(Get(parameters, "medical_terms"))
    ensures |ErrorInstructionItems(parameters)| == 5
    ensures ErrorInstructionItems(parameters)[0] == PunctuationErrors(Get(parameters, "punctuation_errors").value)
    ensures ErrorInstructionItems(parameters)[1] == SlangEmoji(Get(parameters, "slang_profanity_emoji").value)
    ensures ErrorInstructionItems(parameters)[2] == CapsExclamation
    ensures ErrorInstructionItems(parameters)[3] == MedicalTerms
  {
    var punctuation := Get(parameters, "punctuation_errors");
    var slang := Get(parameters, "slang_profanity_emoji");
    var items := ErrorInstructionItems(parameters);
    assert When(IsPunctuationLevel(punctuation), PunctuationErrors(punctuation.GetOr(Null)))
           == [PunctuationErrors(punctuation.value)];
    assert When(IsSlangLevel(slang), SlangEmoji(slang.GetOr(Null))) == [SlangEmoji(slang.value)];
    assert items == [PunctuationErrors(punctuation.value), SlangEmoji(slang.value), CapsExclamation, MedicalTerms,
                     MessageLength(Get(parameters, "phrase_length").GetOr(Str("medium")))];
  }

  predicate IsAggressive(v: Value) { v == Str("frustrated") || v == Str("angry") }

  /** One instruction of `_build_context_instructions`. */
  datatype ContextInstruction = CustomerTone(tone: Value) | EscalationScenario

  const ToneDetail := " (use appropriate language and urgency)"
  const EscalationText := "Escalation scenario: customer complaint requires escalation to senior specialist"

  function ContextLine(item: ContextInstruction): (r: string)
    ensures StartsWith(r, "- ")
  {
    match item
    case CustomerTone(tone) => Bullet("Customer tone: " + Display(tone) + ToneDetail)
    case EscalationScenario => Bullet(EscalationText)
  }

  function ContextInstructionItems(parameters: Params): (r: seq<ContextInstruction>)
    ensures |r| == |When(IsAggressive(Get(parameters, "user_aggression").GetOr(Str("neutral"))), 0)|
                   + |When(Get(parameters, "escalation_needed") == Some(Str("yes")), 0)|
    ensures EscalationScenario in r <==> Get(parameters, "escalation_needed") == Some(Str("yes"))
  {
    var aggression := Get(parameters, "user_aggression").GetOr(Str("neutral"));
    When(IsAggressive(aggression), CustomerTone(aggression))
    + When(Get(parameters, "escalation_needed") == Some(Str("yes")), EscalationScenario)
  }

  const StandardDialogText := "Standard customer support dialog"

  /** `_build_context_instructions` of the dialog adapter. */
  function ContextInstructions(parameters: Params): string {
    var items := ContextInstructionItems(parameters);
    if |items| == 0 then StandardDialogText
    else Join(seq(|items|, i requires 0 <= i < |items| => ContextLine(items[i])), "\n")
  }

  /**
   * A calm customer with no escalation gives the standard dialog text; any
   * other combination gives the joined context bullets instead.
   */
  lemma {:induction false} StandardDialogExactly(parameters: Params)
    ensures !IsAggressive(Get(parameters, "user_aggression").GetOr(Str("neutral")))
            && Get(parameters, "escalation_needed") != Some(Str("yes"))
            ==> ContextInstructions(parameters) == StandardDialogText
    ensures IsAggressive(Get(parameters, "user_aggression").GetOr(Str("neutral")))
            || Get(parameters, "escalation_needed") == Some(Str("yes"))
            ==> StartsWith(ContextInstructions(parameters), "- ")
  {
    var items := ContextInstructionItems(parameters);
    if |items| > 0 {
      var lines := seq(|items|, i requires 0 <= i < |items| => ContextLine(items[i]));
      JoinedBullets(lines);
    }
  }

  // ---------------------------------------------------------------------------
  // single_utterance_correction

  /** `SingleUtteranceCorrectionOutput`, as the structured LLM call parses it. */
  datatype UtteranceOutput = UtteranceOutput(operatorMessageWithErrors: string, correctedMessage: string,
                                             evaluationCriteria: seq<string>, relevantPolicyIds: seq<string>)

  predicate UtteranceSchema(o: UtteranceOutput) {
    |o.evaluationCriteria| >= 3 && |o.relevantPolicyIds| >= 1
  }

  const UtteranceFormatName := "single_utterance_correction"

  /** `SingleUtteranceCorrectionAdapter.generate_example`; `output` is the parsed LLM answer. */
  function GenerateSingleUtterance(caseName: string, useCaseId: string, testCaseId: string, model: string,
                                   uuid: string, output: Option<UtteranceOutput>): (r: Result<DatasetExample>)
    ensures r.Ok? <==> output.Some? && UtteranceSchema(output.value) && StartsWith(useCaseId, "uc_")
                       && StartsWith(testCaseId, "tc_") && AllPolicyIdsPrefixed(output.value.relevantPolicyIds)
    ensures r.Ok? ==> Valid(r.value) && ValidateSingleUtterance(r.value) == []
    ensures r.Ok? ==> r.value.id == ExampleId(testCaseId, uuid) && r.value.caseName == caseName
                      && r.value.useCaseId == useCaseId && r.value.testCaseId == testCaseId
                      && r.value.input == InputData([Message(Operator, output.value.operatorMessageWithErrors)], Some(0))
                      && r.value.expectedOutput == output.value.correctedMessage
                      && r.value.evaluationCriteria == output.value.evaluationCriteria
                      && r.value.policyIds == output.value.relevantPolicyIds
    ensures r.Ok? ==> r.value.metadata == map["generator" := Str("single_utterance_correction_adapter"),
                                              "model" := Str(model)]
  {
    if output.None? then Err(CallError)
    else if !UtteranceSchema(output.value) then Err(SchemaError)
    else
      var o := output.value;
      var input := InputData([Message(Operator, o.operatorMessageWithErrors)], Some(0));
      MakeExample(ExampleId(testCaseId, uuid), caseName, UtteranceFormatName, useCaseId, testCaseId,
                  input, o.correctedMessage, o.evaluationCriteria, o.relevantPolicyIds,
                  map["generator" := Str("single_utterance_correction_adapter"), "model" := Str(model)])
  }

  /** `SingleUtteranceCorrectionAdapter.validate_format` */
  function ValidateSingleUtterance(e: DatasetExample): (r: seq<string>)
    ensures r == [] <==> e.format == UtteranceFormatName && |e.input.messages| == 1
                         && e.input.messages[0].role == Operator && e.input.targetMessageIndex == Some(0)
    ensures |r| <= 4
  {
    var msgs := e.input.messages;
    (if e.format != UtteranceFormatName then [FormatError(UtteranceFormatName, e.format)] else [])
    + (if |msgs| != 1 then [UtteranceFormatName + ExactlyOneMessage + NatToString(|msgs|)] else [])
    + (if |msgs| > 0 && msgs[0].role != Operator then
         [RoleError(UtteranceFormatName + MessageRole, Operator, msgs[0].role)]
       else [])
    + (if e.input.targetMessageIndex != Some(0) then [TargetError(UtteranceFormatName, 0, e.input.targetMessageIndex)]
       else [])
  }

  /** A single_turn_qa-shaped example (user message, no target) fails the role and the target checks. */
  lemma QaShapeIsNotUtterance(e: DatasetExample)
    requires e.format == UtteranceFormatName
    requires |e.input.messages| == 1 && e.input.messages[0].role == User && e.input.targetMessageIndex.None?
    ensures |ValidateSingleUtterance(e)| == 2
    ensures ValidateSingleUtterance(e)[1] == TargetError(UtteranceFormatName, 0, None)
  {
  }

  // ---------------------------------------------------------------------------
  // dialog_last_turn_correction

  /** `DialogLastTurnCorrectionOutput`: the dialog turns arrive as free-form dicts. */
  datatype DialogOutput = DialogOutput(dialogMessages: seq<Params>, correctedLastTurn: string,
                                       evaluationCriteria: seq<string>, relevantPolicyIds: seq<string>)

  predicate DialogSchema(o: DialogOutput) {
    |o.dialogMessages| >= 2 && |o.evaluationCriteria| >= 3 && |o.relevantPolicyIds| >= 1
  }

  /** A dialog turn Pydantic accepts as a `Message`: string `role` and `content`, the role one of the four. */
  predicate WellFormedTurn(msg: Params) {
    var role := Get(msg, "role");
    var content := Get(msg, "content");
    role.Some? && role.value.Str? && content.Some? && content.value.Str? && ParseRole(role.value.s).Some?
  }

  const MissingRole := "KeyError: 'role'"
  const MissingContent := "KeyError: 'content'"
  const ContentNotString := "content: input should be a valid string"

  /** `Message(role=msg["role"], content=msg["content"])`; a missing key raises `KeyError`. */
  function ConvertMessage(msg: Params): (r: Result<Message>)
    ensures r.Ok? <==> WellFormedTurn(msg)
    ensures r.Ok? ==> Get(msg, "role") == Some(Str(RoleName(r.value.role)))
                      && Get(msg, "content") == Some(Str(r.value.content))
  {
    var role := Get(msg, "role");
    var content := Get(msg, "content");
    if role.None? then Err(MissingRole)
    else if content.None? then Err(MissingContent)
    else if !role.value.Str? then Err(RoleLiteralError)
    else if !content.value.Str? then Err(ContentNotString)
    else MakeMessage(role.value.s, content.value.s)
  }

  /** Every turn is well formed, taken from the front. */
  predicate AllWellFormed(msgs: seq<Params>)
    decreases |msgs|
  {
    |msgs| == 0 || (WellFormedTurn(msgs[0]) && AllWellFormed(msgs[1..]))
  }

  lemma {:induction false} AllWellFormedSpec(msgs: seq<Params>)
    ensures AllWellFormed(msgs) <==> forall i :: 0 <= i < |msgs| ==> WellFormedTurn(msgs[i])
    decreases |msgs|
  {
    if |msgs| > 0 {
      AllWellFormedSpec(msgs[1..]);
      assert forall i :: 1 <= i < |msgs| ==> msgs[i] == msgs[1..][i - 1];
    }
  }

  /** The list comprehension over `dialog_messages`: the first failing turn aborts the whole example. */
  function ConvertMessages(msgs: seq<Params>): (r: Result<seq<Message>>)
    ensures r.Ok? <==> AllWellFormed(msgs)
    ensures r.Ok? ==> |r.value| == |msgs|
    decreases |msgs|
  {
    if |msgs| == 0 then Ok([])
    else
      var head := ConvertMessage(msgs[0]);
      if head.Err? then Err(head.error)
      else
        var tail := ConvertMessages(msgs[1..]);
        if tail.Err? then Err(tail.error) else Ok([head.value] + tail.value)
  }

  /** Turn `i` of a converted dialog is the conversion of turn `i`. */
  lemma {:induction false} ConvertMessagesAt(msgs: seq<Params>, i: nat)
    requires ConvertMessages(msgs).Ok? && i < |msgs|
    ensures ConvertMessage(msgs[i]).Ok? && ConvertMessages(msgs).value[i] == ConvertMessage(msgs[i]).value
    ensures Get(msgs[i], "role") == Some(Str(RoleName(ConvertMessages(msgs).value[i].role)))
  {
    if i > 0 {
      assert msgs[1..][i - 1] == msgs[i];
      ConvertMessagesAt(msgs[1..], i - 1);
    }
  }

  const DialogFormatName := "dialog_last_turn_correction"

  /** The example built from the converted turns; the target index is the last turn. */
  function DialogExample(caseName: string, useCaseId: string, testCaseId: string, model: string, uuid: string,
                         messages: seq<Message>, o: DialogOutput): (r: Result<DatasetExample>)
    requires |messages| >= 2
    ensures r.Ok? <==> messages[|messages| - 1].role == Operator && |o.evaluationCriteria| >= 3
                       && |o.relevantPolicyIds| >= 1 && StartsWith(useCaseId, "uc_") && StartsWith(testCaseId, "tc_")
                       && AllPolicyIdsPrefixed(o.relevantPolicyIds)
    ensures r.Ok? ==> Valid(r.value) && ValidateDialog(r.value) == []
    ensures r.Ok? ==> r.value.input == InputData(messages, Some(|messages| - 1))
                      && r.value.id == ExampleId(testCaseId, uuid) && r.value.caseName == caseName
                      && r.value.useCaseId == useCaseId && r.value.testCaseId == testCaseId
                      && r.value.expectedOutput == o.correctedLastTurn
                      && r.value.evaluationCriteria == o.evaluationCriteria && r.value.policyIds == o.relevantPolicyIds
                      && r.value.metadata == map["generator" := Str("dialog_last_turn_correction_adapter"),
                                                 "model" := Str(model)]
  {
    var input := MakeInputData(messages, Some(|messages| - 1));
    if input.Err? then Err(input.error)
    else
      MakeExample(ExampleId(testCaseId, uuid), caseName, DialogFormatName, useCaseId, testCaseId,
                  input.value, o.correctedLastTurn, o.evaluationCriteria, o.relevantPolicyIds,
                  map["generator" := Str("dialog_last_turn_correction_adapter"), "model" := Str(model)])
  }

  /** What the turns must be for a dialog example to exist: all well formed, the last an operator's. */
  predicate AcceptableTurns(msgs: seq<Params>) {
    |msgs| >= 1 && AllWellFormed(msgs) && Get(msgs[|msgs| - 1], "role") == Some(Str("operator"))
  }

  lemma OperatorName(r: Role)
    ensures RoleName(r) == "operator" <==> r == Operator
  {
  }

  /** The turns are acceptable exactly when they all convert and the last converted turn is the operator's. */
  lemma AcceptableTurnsConvert(msgs: seq<Params>)
    requires |msgs| >= 1
    ensures AcceptableTurns(msgs)
            <==> ConvertMessages(msgs).Ok? && ConvertMessages(msgs).value[|msgs| - 1].role == Operator
  {
    if ConvertMessages(msgs).Ok? {
      ConvertMessagesAt(msgs, |msgs| - 1);
      OperatorName(ConvertMessages(msgs).value[|msgs| - 1].role);
    }
  }

  /**
   * `DialogLastTurnCorrectionAdapter.generate_example`: the example only
   * validates when every turn converts and the LLM ended the dialog with an
   * operator turn; the target index is then the last turn.
   */
  function GenerateDialog(caseName: string, useCaseId: string, testCaseId: string, model: string,
                          uuid: string, output: Option<DialogOutput>): (r: Result<DatasetExample>)
    ensures r.Ok? <==> output.Some? && DialogSchema(output.value) && AcceptableTurns(output.value.dialogMessages)
                       && StartsWith(useCaseId, "uc_") && StartsWith(testCaseId, "tc_")
                       && AllPolicyIdsPrefixed(output.value.relevantPolicyIds)
    ensures r.Ok? ==> r == DialogExample(caseName, useCaseId, testCaseId, model, uuid,
                                         ConvertMessages(output.value.dialogMessages).value, output.value)
  {
    if output.None? then Err(CallError)
    else if !DialogSchema(output.value) then Err(SchemaError)
    else
      AcceptableTurnsConvert(output.value.dialogMessages);
      var converted := ConvertMessages(output.value.dialogMessages);
      if converted.Err? then Err(converted.error)
      else
        DialogExample(caseName, useCaseId, testCaseId, model, uuid, converted.value, output.value)
  }

  /** Every generated dialog example is valid and passes its own format check, targeting its last turn. */
  lemma GeneratedDialogPasses(caseName: string, useCaseId: string, testCaseId: string, model: string,
                              uuid: string, output: Option<DialogOutput>)
    requires GenerateDialog(caseName, useCaseId, testCaseId, model, uuid, output).Ok?
    ensures var e := GenerateDialog(caseName, useCaseId, testCaseId, model, uuid, output).value;
            Valid(e) && ValidateDialog(e) == []
            && e.input == InputData(ConvertMessages(output.value.dialogMessages).value,
                                    Some(|output.value.dialogMessages| - 1))
  {
    var messages := ConvertMessages(output.value.dialogMessages).value;
    assert GenerateDialog(caseName, useCaseId, testCaseId, model, uuid, output)
           == DialogExample(caseName, useCaseId, testCaseId, model, uuid, messages, output.value);
  }

  /** A dialog whose last turn is the user's never yields an example. */
  lemma UserLastTurnRejected(caseName: string, useCaseId: string, testCaseId: string, model: string,
                             uuid: string, o: DialogOutput)
    requires |o.dialogMessages| >= 1
    requires Get(o.dialogMessages[|o.dialogMessages| - 1], "role") == Some(Str("user"))
    ensures GenerateDialog(caseName, useCaseId, testCaseId, model, uuid, Some(o)).Err?
  {
    assert !AcceptableTurns(o.dialogMessages);
  }

  /** `DialogLastTurnCorrectionAdapter.validate_format` */
  function ValidateDialog(e: DatasetExample): (r: seq<string>)
    ensures r == [] <==> e.format == DialogFormatName && |e.input.messages| >= 2
                         && e.input.messages[|e.input.messages| - 1].role == Operator
                         && e.input.targetMessageIndex == Some(|e.input.messages| - 1)
    ensures |r| <= 4
  {
    var msgs := e.input.messages;
    var expected := |msgs| - 1;
    (if e.format != DialogFormatName then [FormatError(DialogFormatName, e.format)] else [])
    + (if |msgs| < 2 then [DialogFormatName + AtLeastTwoMessages + NatToString(|msgs|)] else [])
    + (if |msgs| > 0 && msgs[|msgs| - 1].role != Operator then
         [RoleError(DialogFormatName + LastMessageRole, Operator, msgs[|msgs| - 1].role)]
       else [])
    + (if e.input.targetMessageIndex != Some(expected) then
         [TargetError(DialogFormatName, expected, e.input.targetMessageIndex)]
       else [])
  }

  /** A valid single-utterance example is not a valid dialog: one message is too few. */
  lemma UtteranceIsNotDialog(e: DatasetExample)
    requires ValidateSingleUtterance(e) == []
    ensures ValidateDialog(e) != []
    ensures ValidateDialog(e)[0] == FormatError(DialogFormatName, UtteranceFormatName)
  {
  }
}
