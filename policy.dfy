/** A policy extracted from the document (models/policy.py). */
module PolicyModel {
  import opened Base
  import opened Text
  import EvidenceModel
  import UseCaseModel

  datatype PolicyType = Must | MustNot | Escalate | Style | Format

  function PolicyTypeName(t: PolicyType): string {
    match t
    case Must => "must"
    case MustNot => "must_not"
    case Escalate => "escalate"
    case Style => "style"
    case Format => "format"
  }

  /** The `Literal[...]` check on the `type` field. */
  function ParsePolicyType(s: string): (r: Option<PolicyType>)
    ensures r.Some? ==> PolicyTypeName(r.value) == s
  {
    if s == "must" then Some(Must)
    else if s == "must_not" then Some(MustNot)
    else if s == "escalate" then Some(Escalate)
    else if s == "style" then Some(Style)
    else if s == "format" then Some(Format)
    else None
  }

  lemma ParsePolicyTypeName(t: PolicyType)
    ensures ParsePolicyType(PolicyTypeName(t)) == Some(t)
  {
  }

  datatype Policy = Policy(id: string, name: string, description: string, typ: PolicyType,
                           evidence: seq<EvidenceModel.Evidence>, caseName: string, statement: string)

  predicate Valid(p: Policy) {
    StartsWith(p.id, "pol_") && |p.evidence| >= 1 && UseCaseModel.AllEvidenceValid(p.evidence)
    && (p.statement == "" ==> p.description == "")
  }

  /**
   * Construction with validation. `case` and `statement` default to the empty
   * string; once the fields are valid, an empty statement is filled from a
   * non-empty description.
   */
  function MakePolicy(id: string, name: string, description: string, typ: string,
                      evidence: seq<EvidenceModel.Evidence>, caseName: Option<string>, statement: Option<string>): (r: Result<Policy>)
    ensures r.Ok? <==> StartsWith(id, "pol_") && ParsePolicyType(typ).Some? && |evidence| >= 1
                       && UseCaseModel.AllEvidenceValid(evidence)
    ensures r.Ok? ==> Valid(r.value)
    ensures r.Ok? ==> r.value.id == id && r.value.name == name && r.value.description == description
                      && PolicyTypeName(r.value.typ) == typ && r.value.evidence == evidence
                      && r.value.caseName == caseName.GetOr("")
    ensures r.Ok? && statement.GetOr("") != "" ==> r.value.statement == statement.value
    ensures r.Ok? && statement.GetOr("") == "" ==> r.value.statement == description
  {
    if !UseCaseModel.AllEvidenceValid(evidence) then Err("evidence: invalid Evidence item")
    else if !StartsWith(id, "pol_") then Err("Policy ID must start with 'pol_', got: " + id)
    else if ParsePolicyType(typ).None? then Err("type: input should be 'must', 'must_not', 'escalate', 'style' or 'format'")
    else if |evidence| == 0 then Err("Policy must have at least 1 evidence item")
    else
      var st := statement.GetOr("");
      Ok(Policy(id, name, description, ParsePolicyType(typ).value, evidence, caseName.GetOr(""),
                if st == "" && description != "" then description else st))
  }

  /** `PolicyList`: a plain list of validated policies. */
  function MakePolicyList(items: seq<Policy>): (r: Result<seq<Policy>>)
    ensures r.Ok? <==> forall i :: 0 <= i < |items| ==> Valid(items[i])
    ensures r.Ok? ==> r.value == items
  {
    if forall i :: 0 <= i < |items| ==> Valid(items[i]) then Ok(items)
    else Err("policies: invalid Policy item")
  }
}
