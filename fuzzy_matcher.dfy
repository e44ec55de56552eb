/** Text normalisation used before comparing quotes with the document (utils/fuzzy_matcher.py). */
module FuzzyMatcher {
  import opened Text

  /** `\r\n` and then any remaining `\r` become `\n`. */
  function NormalizeNewlines(text: string): string {
    ReplaceAll(ReplaceAll(text, "\r\n", "\n"), "\r", "\n")
  }

  function TrimLines(lines: seq<string>): (r: seq<string>)
    ensures |r| == |lines| && forall i :: 0 <= i < |r| ==> r[i] == RStrip(lines[i])
  {
    seq(|lines|, i requires 0 <= i < |lines| => RStrip(lines[i]))
  }

  /** Line endings unified, trailing whitespace of every line removed; case and indentation kept. */
  function NormalizeForComparison(text: string): string {
    Join(TrimLines(Split(NormalizeNewlines(text), '\n')), "\n")
  }

  lemma {:induction false} NewlinesHaveNoCR(text: string)
    ensures '\r' !in NormalizeNewlines(text)
  {
    ReplaceCharRemoves(ReplaceAll(text, "\r\n", "\n"), '\r', "\n");
  }

  /** Text without `\r` is left alone by the line-ending step. */
  lemma {:induction false} NewlinesFixed(text: string)
    ensures '\r' !in text ==> NormalizeNewlines(text) == text
  {
    if '\r' in text { return; }
    AbsentCharNotContained(text, "\r\n", '\r');
    ReplaceAbsent(text, "\r\n", "\n");
    AbsentCharNotContained(text, "\r", '\r');
    ReplaceAbsent(text, "\r", "\n");
  }

  /** The lines after the line-ending step hold neither `\n` nor `\r`, and so neither do the trimmed ones. */
  lemma {:induction false} TrimmedLinesClean(text: string)
    ensures forall i :: 0 <= i < |Split(NormalizeNewlines(text), '\n')| ==>
              '\n' !in TrimLines(Split(NormalizeNewlines(text), '\n'))[i]
              && '\r' !in TrimLines(Split(NormalizeNewlines(text), '\n'))[i]
  {
    var n := NormalizeNewlines(text);
    NewlinesHaveNoCR(text);
    var lines := Split(n, '\n');
    JoinSplit(n, '\n');
    forall i | 0 <= i < |lines| ensures '\r' !in lines[i] {
      LineOfJoinHasNoChar(lines, i, '\r');
    }
  }

  /** The normalised text has no carriage return, and none of its lines ends in whitespace. */
  lemma {:induction false} NormalizedShape(text: string)
    ensures '\r' !in NormalizeForComparison(text)
    ensures Split(NormalizeForComparison(text), '\n') == TrimLines(Split(NormalizeNewlines(text), '\n'))
    ensures forall i :: 0 <= i < |Split(NormalizeForComparison(text), '\n')| ==>
              var line := Split(NormalizeForComparison(text), '\n')[i];
              |line| == 0 || !IsSpace(line[|line| - 1])
  {
    var t := TrimLines(Split(NormalizeNewlines(text), '\n'));
    var y := Join(t, "\n");
    assert y == NormalizeForComparison(text);
    TrimmedLinesClean(text);
    JoinAbsentChar(t, "\n", '\r');
    SplitJoin(t, '\n');
    assert Split(y, '\n') == t;
  }

  /** A character absent from the joined text is absent from every piece. */
  lemma {:induction false} LineOfJoinHasNoChar(parts: seq<string>, i: nat, c: char)
    requires i < |parts| && c !in Join(parts, "\n")
    ensures c !in parts[i]
    decreases |parts|
  {
    if |parts| > 1 {
      if i > 0 {
        LineOfJoinHasNoChar(parts[1..], i - 1, c);
      }
    }
  }

  /** Normalising twice gives the same text as normalising once. */
  lemma {:induction false} NormalizeIdempotent(text: string)
    ensures NormalizeForComparison(NormalizeForComparison(text)) == NormalizeForComparison(text)
  {
    var y := NormalizeForComparison(text);
    NormalizedShape(text);
    NewlinesFixed(y);
    var t := Split(y, '\n');
    assert TrimLines(t) == t by {
      forall i | 0 <= i < |t| ensures RStrip(t[i]) == t[i] {
      }
    }
    JoinSplit(y, '\n');
  }

  /** Normalisation keeps the number of lines. */
  lemma {:induction false} NormalizeKeepsLineCount(text: string)
    ensures |Split(NormalizeForComparison(text), '\n')| == |Split(NormalizeNewlines(text), '\n')|
  {
    NormalizedShape(text);
  }
}
