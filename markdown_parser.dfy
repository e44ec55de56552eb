/** The requirements document split into numbered lines (extraction/markdown_parser.py). */
module MarkdownParser {
  import opened Text
  import FuzzyMatcher

  /** `lines[k]` is document line `k + 1`. */
  datatype ParsedMarkdown = ParsedMarkdown(fullText: string, lines: seq<string>, filePath: string)

  /** The file's contents are passed in; opening and reading the file is left out. */
  function ParseMarkdownWithLines(content: string, filePath: string): (r: ParsedMarkdown)
    ensures '\r' !in r.fullText && r.filePath == filePath
    ensures |r.lines| >= 1 && Join(r.lines, "\n") == r.fullText
    ensures forall i :: 0 <= i < |r.lines| ==> '\n' !in r.lines[i] && '\r' !in r.lines[i]
    ensures '\r' !in content ==> r.fullText == content
  {
    var text := FuzzyMatcher.NormalizeNewlines(content);
    FuzzyMatcher.NewlinesHaveNoCR(content);
    FuzzyMatcher.NewlinesFixed(content);
    JoinSplit(text, '\n');
    var lines := Split(text, '\n');
    assert forall i :: 0 <= i < |lines| ==> '\r' !in lines[i] by {
      forall i | 0 <= i < |lines| ensures '\r' !in lines[i] {
        FuzzyMatcher.LineOfJoinHasNoChar(lines, i, '\r');
      }
    }
    ParsedMarkdown(text, lines, filePath)
  }

  function NumberedLine(k: nat, line: string): string {
    NatToString(k + 1) + ": " + line
  }

  /** The document with `"<n>: "` in front of line `n`, for the extraction prompt. */
  function GetNumberedText(parsed: ParsedMarkdown): string {
    Join(seq(|parsed.lines|, k requires 0 <= k < |parsed.lines| => NumberedLine(k, parsed.lines[k])), "\n")
  }

  /** Line `k` of the numbered text is document line `k + 1` behind its number, and no line is added or lost. */
  lemma {:induction false} NumberedTextLines(parsed: ParsedMarkdown)
    requires |parsed.lines| >= 1
    requires forall i :: 0 <= i < |parsed.lines| ==> '\n' !in parsed.lines[i]
    ensures |Split(GetNumberedText(parsed), '\n')| == |parsed.lines|
    ensures forall k :: 0 <= k < |parsed.lines| ==>
              Split(GetNumberedText(parsed), '\n')[k] == NumberedLine(k, parsed.lines[k])
  {
    var numbered := seq(|parsed.lines|, k requires 0 <= k < |parsed.lines| => NumberedLine(k, parsed.lines[k]));
    forall k | 0 <= k < |numbered| ensures '\n' !in numbered[k] {
      var digits := NatToString(k + 1);
      assert numbered[k] == digits + ": " + parsed.lines[k];
      assert '\n' !in digits;
    }
    SplitJoin(numbered, '\n');
  }
}
