/** Checks every evidence quote against the document lines it cites (extraction/evidence_validator.py). */
module EvidenceValidator {
  import opened Base
  import opened Text
  import opened Values
  import EvidenceModel
  import MarkdownParser
  import FuzzyMatcher

  /** A Python slice bound: negative values count from the end, then the bound is clamped to the list. */
  function SliceBound(i: int, n: nat): (r: nat)
    ensures r <= n
    ensures 0 <= i <= n ==> r == i
  {
    if i < 0 then Max(0, i + n) else Min(i, n)
  }

  /** `items[a:b]` */
  function PySlice<T>(items: seq<T>, a: int, b: int): seq<T> {
    var lo, hi := SliceBound(a, |items|), SliceBound(b, |items|);
    if lo < hi then items[lo..hi] else []
  }

  /** The cited lines `lineStart..lineEnd` (1-based, inclusive), joined with `\n`. */
  function CitedText(lines: seq<string>, e: EvidenceModel.Evidence): string {
    Join(PySlice(lines, e.lineStart - 1, e.lineEnd), "\n")
  }

  /**
   * `(True, "")` when the normalised quote equals the normalised cited lines;
   * otherwise `False` with the reason: a start line below 1, an end line past
   * the end of the document, or a mismatch.
   */
  function ValidateEvidenceQuote(parsed: MarkdownParser.ParsedMarkdown, e: EvidenceModel.Evidence): (r: (bool, string))
  {
    var startIdx, endIdx := e.lineStart - 1, e.lineEnd;
    if startIdx < 0 then
      (false, "line_start=" + IntToString(e.lineStart) + " is invalid (must be >= 1)")
    else if endIdx > |parsed.lines| then
      (false, "line_end=" + IntToString(e.lineEnd) + " exceeds file length (" + IntToString(|parsed.lines|) + " lines)")
    else
      var actual := FuzzyMatcher.NormalizeForComparison(CitedText(parsed.lines, e));
      var quote := FuzzyMatcher.NormalizeForComparison(e.quote);
      if actual == quote then (true, "")
      else
        (false, "Quote mismatch at lines " + IntToString(e.lineStart) + "-" + IntToString(e.lineEnd) + ":\nExpected: "
                + Repr(Str(Take(actual, 100))) + "...\nGot:      " + Repr(Str(Take(quote, 100))) + "...")
  }

  /** What the verdict means: the bounds errors first, then the normalised comparison; a failure always carries a message. */
  lemma VerdictMeaning(parsed: MarkdownParser.ParsedMarkdown, e: EvidenceModel.Evidence)
    ensures var r := ValidateEvidenceQuote(parsed, e);
      && (e.lineStart < 1 ==> !r.0 && r.1 == "line_start=" + IntToString(e.lineStart) + " is invalid (must be >= 1)")
      && (e.lineStart >= 1 && e.lineEnd > |parsed.lines| ==> !r.0)
      && (r.0 <==> 1 <= e.lineStart && e.lineEnd <= |parsed.lines|
                   && FuzzyMatcher.NormalizeForComparison(CitedText(parsed.lines, e))
                      == FuzzyMatcher.NormalizeForComparison(e.quote))
      && (r.0 ==> r.1 == "")
      && (!r.0 ==> r.1 != "")
  {
  }

  /** The verdict sees the quote only through its normalised form: trailing blanks and CR/CRLF do not matter. */
  lemma QuoteSeenOnlyNormalized(parsed: MarkdownParser.ParsedMarkdown, e: EvidenceModel.Evidence, quote: string)
    requires FuzzyMatcher.NormalizeForComparison(quote) == FuzzyMatcher.NormalizeForComparison(e.quote)
    ensures ValidateEvidenceQuote(parsed, e.(quote := quote)) == ValidateEvidenceQuote(parsed, e)
  {
  }

  /** Quoting the cited lines themselves, or their normalised form, is accepted. */
  lemma {:induction false} OwnLinesAccepted(parsed: MarkdownParser.ParsedMarkdown, e: EvidenceModel.Evidence)
    requires 1 <= e.lineStart && e.lineEnd <= |parsed.lines|
    requires e.quote == CitedText(parsed.lines, e) || e.quote == FuzzyMatcher.NormalizeForComparison(CitedText(parsed.lines, e))
    ensures ValidateEvidenceQuote(parsed, e) == (true, "")
  {
    FuzzyMatcher.NormalizeIdempotent(CitedText(parsed.lines, e));
  }

  /** Anything carrying an id and evidence: a use case or a policy. */
  datatype EvidenceOwner = EvidenceOwner(id: string, evidence: seq<EvidenceModel.Evidence>)

  function EvidenceError(id: string, i: nat, msg: string): string {
    id + " evidence[" + IntToString(i) + "]: " + msg
  }

  /** The error lines for the first `|ev|` evidence items of one owner. */
  function OwnerErrors(parsed: MarkdownParser.ParsedMarkdown, id: string, ev: seq<EvidenceModel.Evidence>): seq<string>
    decreases |ev|
  {
    if ev == [] then []
    else
      var r := ValidateEvidenceQuote(parsed, ev[|ev| - 1]);
      OwnerErrors(parsed, id, ev[..|ev| - 1]) + (if r.0 then [] else [EvidenceError(id, |ev| - 1, r.1)])
  }

  function OwnerValid(parsed: MarkdownParser.ParsedMarkdown, ev: seq<EvidenceModel.Evidence>): nat
    decreases |ev|
  {
    if ev == [] then 0
    else OwnerValid(parsed, ev[..|ev| - 1]) + (if ValidateEvidenceQuote(parsed, ev[|ev| - 1]).0 then 1 else 0)
  }

  function AllErrors(parsed: MarkdownParser.ParsedMarkdown, items: seq<EvidenceOwner>): seq<string>
    decreases |items|
  {
    if items == [] then []
    else AllErrors(parsed, items[..|items| - 1]) + OwnerErrors(parsed, items[|items| - 1].id, items[|items| - 1].evidence)
  }

  function AllValid(parsed: MarkdownParser.ParsedMarkdown, items: seq<EvidenceOwner>): nat
    decreases |items|
  {
    if items == [] then 0
    else AllValid(parsed, items[..|items| - 1]) + OwnerValid(parsed, items[|items| - 1].evidence)
  }

  function TotalEvidence(items: seq<EvidenceOwner>): nat
    decreases |items|
  {
    if items == [] then 0 else TotalEvidence(items[..|items| - 1]) + |items[|items| - 1].evidence|
  }

  lemma {:induction false} OwnerCounts(parsed: MarkdownParser.ParsedMarkdown, id: string, ev: seq<EvidenceModel.Evidence>)
    ensures OwnerValid(parsed, ev) + |OwnerErrors(parsed, id, ev)| == |ev|
    decreases |ev|
  {
    if ev != [] { OwnerCounts(parsed, id, ev[..|ev| - 1]); }
  }

  /** Every evidence item is counted once, as valid or as one error line. */
  lemma {:induction false} AllCounts(parsed: MarkdownParser.ParsedMarkdown, items: seq<EvidenceOwner>)
    ensures AllValid(parsed, items) + |AllErrors(parsed, items)| == TotalEvidence(items)
    decreases |items|
  {
    if items != [] {
      AllCounts(parsed, items[..|items| - 1]);
      OwnerCounts(parsed, items[|items| - 1].id, items[|items| - 1].evidence);
    }
  }

  /** One more evidence item adds its own verdict to the counts of the items before it. */
  lemma OwnerStep(parsed: MarkdownParser.ParsedMarkdown, id: string, ev: seq<EvidenceModel.Evidence>, i: nat)
    requires i < |ev|
    ensures OwnerValid(parsed, ev[..i + 1])
            == OwnerValid(parsed, ev[..i]) + (if ValidateEvidenceQuote(parsed, ev[i]).0 then 1 else 0)
    ensures OwnerErrors(parsed, id, ev[..i + 1])
            == OwnerErrors(parsed, id, ev[..i])
               + (if ValidateEvidenceQuote(parsed, ev[i]).0 then [] else [EvidenceError(id, i, ValidateEvidenceQuote(parsed, ev[i]).1)])
  {
    assert ev[..i + 1][..i] == ev[..i] && ev[..i + 1][i] == ev[i];
  }

  /** The inner loop: one owner's evidence items in order. */
  method ValidateOwnerEvidence(parsed: MarkdownParser.ParsedMarkdown, item: EvidenceOwner)
    returns (validCount: nat, errors: seq<string>)
    ensures validCount == OwnerValid(parsed, item.evidence) && errors == OwnerErrors(parsed, item.id, item.evidence)
  {
    validCount, errors := 0, [];
    var i := 0;
    while i < |item.evidence|
      invariant 0 <= i <= |item.evidence|
      invariant validCount == OwnerValid(parsed, item.evidence[..i])
      invariant errors == OwnerErrors(parsed, item.id, item.evidence[..i])
    {
      var verdict := ValidateEvidenceQuote(parsed, item.evidence[i]);
      OwnerStep(parsed, item.id, item.evidence, i);
      if verdict.0 {
        validCount := validCount + 1;
      } else {
        errors := errors + [EvidenceError(item.id, i, verdict.1)];
      }
      i := i + 1;
    }
    assert item.evidence[..i] == item.evidence;
  }

  /** Walks every item's evidence in order, counting valid and invalid quotes and collecting one error line per invalid one. */
  method ValidateAllEvidence(parsed: MarkdownParser.ParsedMarkdown, items: seq<EvidenceOwner>)
    returns (validCount: nat, invalidCount: nat, errors: seq<string>)
    ensures validCount == AllValid(parsed, items) && errors == AllErrors(parsed, items)
    ensures invalidCount == |errors| && validCount + invalidCount == TotalEvidence(items)
  {
    validCount, invalidCount, errors := 0, 0, [];
    var k := 0;
    while k < |items|
      invariant 0 <= k <= |items|
      invariant validCount == AllValid(parsed, items[..k]) && errors == AllErrors(parsed, items[..k])
      invariant invalidCount == |errors|
    {
      var itemValid, itemErrors := ValidateOwnerEvidence(parsed, items[k]);
      ghost var done := items[..k + 1];
      assert done[..k] == items[..k] && done[k] == items[k];
      validCount := validCount + itemValid;
      invalidCount := invalidCount + |itemErrors|;
      errors := errors + itemErrors;
      k := k + 1;
    }
    assert items[..k] == items;
    AllCounts(parsed, items);
  }
}
