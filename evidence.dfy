/** A quoted span of the requirements document (models/evidence.py). */
module EvidenceModel {
  import opened Base
  import opened Text

  /** Lines are 1-based and the range is inclusive. */
  datatype Evidence = Evidence(inputFile: string, lineStart: int, lineEnd: int, quote: string)

  /** The record invariant pydantic enforces on every Evidence it builds. */
  predicate Valid(e: Evidence) {
    e.lineStart >= 1 && !IsBlank(e.quote) && e.lineEnd >= e.lineStart
  }

  /** Construction with validation: fields in declaration order, then the cross-field check. */
  function MakeEvidence(inputFile: string, lineStart: int, lineEnd: int, quote: string): (r: Result<Evidence>)
    ensures r.Ok? <==> lineStart >= 1 && !IsBlank(quote) && lineEnd >= lineStart
    ensures r.Ok? ==> r.value == Evidence(inputFile, lineStart, lineEnd, quote) && Valid(r.value)
  {
    if lineStart < 1 then Err("line_start: input should be greater than or equal to 1")
    else if IsBlank(quote) then Err("quote must not be empty")
    else if lineEnd < lineStart then
      Err("line_end (" + IntToString(lineEnd) + ") must be >= line_start (" + IntToString(lineStart) + ")")
    else Ok(Evidence(inputFile, lineStart, lineEnd, quote))
  }

  /** A record is valid exactly when building it from its own fields gives it back. */
  lemma ValidIffAccepted(e: Evidence)
    ensures Valid(e) <==> MakeEvidence(e.inputFile, e.lineStart, e.lineEnd, e.quote) == Ok(e)
  {
  }

  /** A quote made only of whitespace is refused, whatever its length. */
  lemma {:induction false} WhitespaceQuoteRejected(inputFile: string, lineStart: int, lineEnd: int, quote: string)
    requires forall i :: 0 <= i < |quote| ==> IsSpace(quote[i])
    ensures MakeEvidence(inputFile, lineStart, lineEnd, quote).Err?
  {
    BlankIffAllSpace(quote);
  }
}
