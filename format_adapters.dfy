/**
 * The format adapter registry (generation/format_adapters/__init__.py):
 * a format name selects one of three adapters, each bound to a case.
 * The abstract adapter interface becomes a tag plus dispatch.
 */
module FormatAdapters {
  import opened Base
  import opened DatasetExampleModel
  import SingleTurnQa
  import OperatorCorrections

  datatype FormatKind = SingleTurnQaFormat | SingleUtteranceFormat | DialogFormat

  /** The registry's keys, in its insertion order. */
  const SupportedFormats: seq<string> :=
    [SingleTurnQa.FormatName, OperatorCorrections.UtteranceFormatName, OperatorCorrections.DialogFormatName]

  /** `get_format_name` */
  function FormatName(k: FormatKind): (r: string)
    ensures r in SupportedFormats
  {
    match k
    case SingleTurnQaFormat => SingleTurnQa.FormatName
    case SingleUtteranceFormat => OperatorCorrections.UtteranceFormatName
    case DialogFormat => OperatorCorrections.DialogFormatName
  }

  lemma FormatNameInjective(a: FormatKind, b: FormatKind)
    ensures FormatName(a) == FormatName(b) <==> a == b
  {
  }

  /** An adapter instance: its format and the case it was built for. */
  datatype Adapter = Adapter(kind: FormatKind, caseName: string)

  const UnknownFormat := "Unknown format '"
  const SupportedList :=
    "'. Supported formats: ['single_turn_qa', 'single_utterance_correction', 'dialog_last_turn_correction']"

  /** `get_adapter_for_format`; the `ValueError` becomes `Err` with the same message. */
  function GetAdapterForFormat(formatName: string, caseName: string): (r: Result<Adapter>)
    ensures r.Ok? <==> formatName in SupportedFormats
    ensures r.Ok? ==> FormatName(r.value.kind) == formatName && r.value.caseName == caseName
    ensures r.Err? ==> r.error == UnknownFormat + formatName + SupportedList
  {
    if formatName == SingleTurnQa.FormatName then Ok(Adapter(SingleTurnQaFormat, caseName))
    else if formatName == OperatorCorrections.UtteranceFormatName then Ok(Adapter(SingleUtteranceFormat, caseName))
    else if formatName == OperatorCorrections.DialogFormatName then Ok(Adapter(DialogFormat, caseName))
    else Err(UnknownFormat + formatName + SupportedList)
  }

  /** Looking up an adapter's own format name gives that adapter back. */
  lemma LookupRoundTrip(a: Adapter)
    ensures GetAdapterForFormat(FormatName(a.kind), a.caseName) == Ok(a)
  {
  }

  /**
   * The parsed structured answer of the LLM call an adapter makes; `None`
   * inside means the call failed or parsed to nothing. An answer of another
   * adapter's schema does not parse under this adapter's schema.
   */
  datatype AdapterOutput =
    | QaOut(qa: Option<SingleTurnQa.QaOutput>)
    | UtteranceOut(utterance: Option<OperatorCorrections.UtteranceOutput>)
    | DialogOut(dialog: Option<OperatorCorrections.DialogOutput>)

  /** The answer fits the adapter's schema family. */
  predicate OutputMatches(a: Adapter, o: AdapterOutput) {
    match a.kind
    case SingleTurnQaFormat => o.QaOut?
    case SingleUtteranceFormat => o.UtteranceOut?
    case DialogFormat => o.DialogOut?
  }

  /** `generate_example`, dispatched on the adapter. */
  function GenerateExample(a: Adapter, useCaseId: string, testCaseId: string, model: string, uuid: string,
                           output: AdapterOutput): (r: Result<DatasetExample>)
  {
    if !OutputMatches(a, output) then Err(SingleTurnQa.SchemaError)
    else
      match a.kind
      case SingleTurnQaFormat =>
        SingleTurnQa.GenerateExample(a.caseName, useCaseId, testCaseId, model, uuid, output.qa)
      case SingleUtteranceFormat =>
        OperatorCorrections.GenerateSingleUtterance(a.caseName, useCaseId, testCaseId, model, uuid, output.utterance)
      case DialogFormat =>
        OperatorCorrections.GenerateDialog(a.caseName, useCaseId, testCaseId, model, uuid, output.dialog)
  }

  /** `validate_format`, dispatched on the adapter. */
  function ValidateFormat(a: Adapter, e: DatasetExample): (r: seq<string>)
    ensures r == [] ==> e.format == FormatName(a.kind)
    ensures |r| <= 4
  {
    match a.kind
    case SingleTurnQaFormat => SingleTurnQa.ValidateFormat(e)
    case SingleUtteranceFormat => OperatorCorrections.ValidateSingleUtterance(e)
    case DialogFormat => OperatorCorrections.ValidateDialog(e)
  }

  /**
   * Whatever an adapter generates is a valid example of the adapter's format
   * and case that passes the adapter's own format check.
   */
  lemma {:induction false} GeneratedExamplePasses(a: Adapter, useCaseId: string, testCaseId: string, model: string,
                                                   uuid: string, output: AdapterOutput)
    requires GenerateExample(a, useCaseId, testCaseId, model, uuid, output).Ok?
    ensures var e := GenerateExample(a, useCaseId, testCaseId, model, uuid, output).value;
            Valid(e) && ValidateFormat(a, e) == [] && e.format == FormatName(a.kind)
            && e.caseName == a.caseName && e.useCaseId == useCaseId && e.testCaseId == testCaseId
  {
    match a.kind
    case SingleTurnQaFormat =>
    case SingleUtteranceFormat =>
    case DialogFormat =>
      OperatorCorrections.GeneratedDialogPasses(a.caseName, useCaseId, testCaseId, model, uuid, output.dialog);
  }

  /** Every adapter fails when the LLM call fails, and on an answer of another schema. */
  lemma FailedCallFails(a: Adapter, useCaseId: string, testCaseId: string, model: string, uuid: string,
                        output: AdapterOutput)
    requires !OutputMatches(a, output) || output == QaOut(None) || output == UtteranceOut(None)
             || output == DialogOut(None)
    ensures GenerateExample(a, useCaseId, testCaseId, model, uuid, output).Err?
  {
  }

  /** An example passes at most one adapter's format check: the one named by its format. */
  lemma ValidForOneFormatOnly(a: Adapter, b: Adapter, e: DatasetExample)
    requires ValidateFormat(a, e) == [] && ValidateFormat(b, e) == []
    ensures a.kind == b.kind
  {
    FormatNameInjective(a.kind, b.kind);
  }
}
