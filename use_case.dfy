/** A use case extracted from the document (models/use_case.py). */
module UseCaseModel {
  import opened Base
  import opened Text
  import EvidenceModel

  datatype UseCase = UseCase(id: string, name: string, description: string, evidence: seq<EvidenceModel.Evidence>)

  predicate Valid(u: UseCase) {
    StartsWith(u.id, "uc_") && |u.evidence| >= 1
    && forall i :: 0 <= i < |u.evidence| ==> EvidenceModel.Valid(u.evidence[i])
  }

  predicate AllEvidenceValid(ev: seq<EvidenceModel.Evidence>) {
    forall i :: 0 <= i < |ev| ==> EvidenceModel.Valid(ev[i])
  }

  /** Construction with validation; nested evidence items are validated too. */
  function MakeUseCase(id: string, name: string, description: string, evidence: seq<EvidenceModel.Evidence>): (r: Result<UseCase>)
    ensures r.Ok? <==> StartsWith(id, "uc_") && |evidence| >= 1 && AllEvidenceValid(evidence)
    ensures r.Ok? ==> r.value == UseCase(id, name, description, evidence) && Valid(r.value)
  {
    if !AllEvidenceValid(evidence) then Err("evidence: invalid Evidence item")
    else if !StartsWith(id, "uc_") then Err("UseCase ID must start with 'uc_', got: " + id)
    else if |evidence| == 0 then Err("UseCase must have at least 1 evidence item")
    else Ok(UseCase(id, name, description, evidence))
  }

  /** `UseCaseList`: a plain list; every item is validated, duplicates and the empty list are accepted. */
  function MakeUseCaseList(items: seq<UseCase>): (r: Result<seq<UseCase>>)
    ensures r.Ok? <==> forall i :: 0 <= i < |items| ==> Valid(items[i])
    ensures r.Ok? ==> r.value == items
  {
    if forall i :: 0 <= i < |items| ==> Valid(items[i]) then Ok(items)
    else Err("use_cases: invalid UseCase item")
  }

  /** The list imposes no uniqueness: the same use case may appear twice. */
  lemma UseCaseListKeepsDuplicates(u: UseCase)
    requires Valid(u)
    ensures MakeUseCaseList([u, u]) == Ok([u, u])
  {
  }
}
