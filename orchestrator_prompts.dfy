/**
 * The text the orchestrator builds from the policies (generation/orchestrator.py):
 * the temporary policy document handed to the framework generators and the
 * policy summary of the tool-routing prompt.
 */
module OrchestratorPrompts {
  import opened Base
  import opened Text
  import EvidenceModel
  import opened PolicyModel

  const DocumentHeader := "# Policies\n\n"
  const HeadingMark := "## "
  const TypeMark := "**Type:** "
  const BlankLine := "\n\n"
  const EvidenceHeader := "**Evidence:**\n"
  const SectionEnd := "\n---\n\n"

  function EvidenceLine(e: EvidenceModel.Evidence): string {
    "- " + e.quote + "\n"
  }

  function Heading(p: Policy): string { HeadingMark + p.id + ": " + p.name + BlankLine }
  function TypeParagraph(p: Policy): string { TypeMark + PolicyTypeName(p.typ) + BlankLine }
  function DescriptionParagraph(p: Policy): string { p.description + BlankLine }

  /** The heading, type and description paragraphs of a policy. */
  function SectionHead(p: Policy): string {
    Heading(p) + TypeParagraph(p) + DescriptionParagraph(p)
  }

  /** The evidence quotes, one per line, under a heading; nothing when there is no evidence. */
  function EvidenceBlock(p: Policy): string {
    if |p.evidence| > 0 then EvidenceHeader + ConcatMap(p.evidence, EvidenceLine) else ""
  }

  /** One policy's part of the document. */
  function PolicySection(p: Policy): string {
    SectionHead(p) + EvidenceBlock(p) + SectionEnd
  }

  /** The content of the temporary markdown file: the header, then one section per policy in order. */
  function PolicyDocument(policies: seq<Policy>): string {
    DocumentHeader + ConcatMap(policies, PolicySection)
  }

  /** The inner loop: one line per evidence quote. */
  method AppendEvidence(content: string, evidence: seq<EvidenceModel.Evidence>) returns (r: string)
    ensures r == content + ConcatMap(evidence, EvidenceLine)
  {
    r := content;
    var k := 0;
    while k < |evidence|
      invariant 0 <= k <= |evidence|
      invariant r == content + ConcatMap(evidence[..k], EvidenceLine)
    {
      ConcatMapStep(evidence, k, EvidenceLine);
      r := r + EvidenceLine(evidence[k]);
      k := k + 1;
    }
    assert evidence[..k] == evidence;
  }

  /** The body of the outer loop for one policy. */
  method AppendSection(content: string, p: Policy) returns (r: string)
    ensures r == content + PolicySection(p)
  {
    r := content + Heading(p);
    r := r + TypeParagraph(p);
    r := r + DescriptionParagraph(p);
    ConcatAssoc(content + Heading(p), TypeParagraph(p), DescriptionParagraph(p));
    ConcatAssoc(content, Heading(p), TypeParagraph(p) + DescriptionParagraph(p));
    if |p.evidence| > 0 {
      r := r + EvidenceHeader;
      r := AppendEvidence(r, p.evidence);
      ConcatAssoc(content + SectionHead(p), EvidenceHeader, ConcatMap(p.evidence, EvidenceLine));
    }
    ConcatAssoc(content, SectionHead(p), EvidenceBlock(p));
    r := r + SectionEnd;
    ConcatAssoc(content, SectionHead(p) + EvidenceBlock(p), SectionEnd);
  }

  /** The `content +=` loop of `prepare_policy_documents`; the file it is written to is not modelled. */
  method BuildPolicyDocument(policies: seq<Policy>) returns (content: string)
    ensures content == PolicyDocument(policies)
  {
    content := DocumentHeader;
    var i := 0;
    while i < |policies|
      invariant 0 <= i <= |policies|
      invariant content == DocumentHeader + ConcatMap(policies[..i], PolicySection)
    {
      ConcatMapStep(policies, i, PolicySection);
      ConcatAssoc(DocumentHeader, ConcatMap(policies[..i], PolicySection), PolicySection(policies[i]));
      content := AppendSection(content, policies[i]);
      i := i + 1;
    }
    assert policies[..i] == policies;
  }

  /** Every policy's section occurs in the document, after the header. */
  lemma {:induction false} DocumentHasEverySection(policies: seq<Policy>, i: nat)
    requires i < |policies|
    ensures StartsWith(PolicyDocument(policies), DocumentHeader)
    ensures Contains(PolicyDocument(policies), PolicySection(policies[i]))
  {
    var all := ConcatMap(policies, PolicySection);
    var before := ConcatMap(policies[..i], PolicySection);
    var section := PolicySection(policies[i]);
    ConcatMapPrefix(policies, i + 1, PolicySection);
    ConcatMapStep(policies, i, PolicySection);
    PrefixSplit(all, before, section);
    ContainsInMiddle(DocumentHeader, before, section, all[|before| + |section|..]);
  }

  lemma ConcatAssoc<T>(a: seq<T>, b: seq<T>, c: seq<T>)
    ensures a + (b + c) == (a + b) + c
  {
  }

  /** A sequence with prefix `a + x` is `a + x` followed by the rest. */
  lemma PrefixSplit<T>(all: seq<T>, a: seq<T>, x: seq<T>)
    requires a + x <= all
    ensures all == a + x + all[|a| + |x|..]
  {
    assert all == all[..|a| + |x|] + all[|a| + |x|..];
  }

  /** `x` occurs in `h + (b + x + rest)`. */
  lemma ContainsInMiddle(h: string, b: string, x: string, rest: string)
    ensures Contains(h + (b + x + rest), x)
  {
    var doc := h + (b + x + rest);
    assert doc[|h| + |b|..|h| + |b| + |x|] == x;
    ContainsAt(doc, x, |h| + |b|);
  }

  /** `f"- {policy.id} ({policy.type}): {policy.description[:200]}"` */
  function SummaryLine(p: Policy): (r: string)
    ensures StartsWith(r, "- " + p.id)
  {
    "- " + p.id + " (" + PolicyTypeName(p.typ) + "): " + Take(p.description, 200)
  }

  /** The summary lines of the first five policies. */
  function SummaryLines(policies: seq<Policy>): (r: seq<string>)
    ensures |r| == Min(|policies|, 5)
  {
    seq(Min(|policies|, 5), i requires 0 <= i < Min(|policies|, 5) => SummaryLine(policies[i]))
  }

  function MoreLine(extra: nat): string {
    "\n- ... and " + NatToString(extra) + " more policies"
  }

  /** The policy block of the routing prompt: five summaries at most, then a count of the rest. */
  function PolicyText(policies: seq<Policy>): string {
    Join(SummaryLines(policies), "\n") + (if |policies| > 5 then MoreLine(|policies| - 5) else "")
  }

  /** The summary loop of `_build_orchestration_messages`. */
  method BuildPolicyText(policies: seq<Policy>) returns (text: string)
    ensures text == PolicyText(policies)
  {
    var summaries: seq<string> := [];
    var i := 0;
    while i < |policies| && i < 5
      invariant 0 <= i <= Min(|policies|, 5)
      invariant |summaries| == i && forall k :: 0 <= k < i ==> summaries[k] == SummaryLine(policies[k])
    {
      summaries := summaries + [SummaryLine(policies[i])];
      i := i + 1;
    }
    assert summaries == SummaryLines(policies);
    text := Join(summaries, "\n");
    if |policies| > 5 {
      text := text + MoreLine(|policies| - 5);
    }
  }

  /** Policies past the fifth change the prompt only through their number. */
  lemma PolicyTextSeesFirstFive(ps: seq<Policy>, qs: seq<Policy>)
    requires |ps| == |qs| && ps[..Min(|ps|, 5)] == qs[..Min(|qs|, 5)]
    ensures PolicyText(ps) == PolicyText(qs)
  {
    assert forall i :: 0 <= i < Min(|ps|, 5) ==> ps[i] == ps[..Min(|ps|, 5)][i] && qs[i] == qs[..Min(|qs|, 5)][i];
    assert SummaryLines(ps) == SummaryLines(qs);
  }
}
