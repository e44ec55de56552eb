/** Post-generation coverage rules and the prefix-only integrity check (generation/coverage.py). */
module Coverage {
  import opened Base
  import opened Text
  import TestCaseModel
  import DatasetExampleModel
  import UseCaseModel

  type TestCase = TestCaseModel.TestCase
  type DatasetExample = DatasetExampleModel.DatasetExample

  /** One coverage warning; the last two carry the id sets the source prints sorted. */
  datatype CoverageWarning =
    | AxesOutOfRange(testCaseId: string, count: nat)
    | TooFewCriteria(exampleId: string, count: nat, minimum: int)
    | TooFewPolicyIds(exampleId: string, count: nat, minimum: int)
    | TestCasesWithoutExamples(ids: set<string>)
    | UnknownTestCaseReferences(ids: set<string>)

  function TestCaseIds(tcs: seq<TestCase>): set<string> {
    set i | 0 <= i < |tcs| :: tcs[i].id
  }

  function ExampleTestCaseIds(exs: seq<DatasetExample>): set<string> {
    set i | 0 <= i < |exs| :: exs[i].testCaseId
  }

  function AxesWarningOf(tc: TestCase): seq<CoverageWarning> {
    var n := |tc.parameterVariationAxes|;
    if 2 <= n <= 3 then [] else [AxesOutOfRange(tc.id, n)]
  }

  function CriteriaWarningOf(ex: DatasetExample, minCriteria: int): seq<CoverageWarning> {
    var n := |ex.evaluationCriteria|;
    if n < minCriteria then [TooFewCriteria(ex.id, n, minCriteria)] else []
  }

  function PolicyCountWarningOf(ex: DatasetExample, minPolicyIds: int): seq<CoverageWarning> {
    var n := |ex.policyIds|;
    if n < minPolicyIds then [TooFewPolicyIds(ex.id, n, minPolicyIds)] else []
  }

  function ReferenceWarnings(tcs: seq<TestCase>, exs: seq<DatasetExample>): seq<CoverageWarning> {
    var orphans := TestCaseIds(tcs) - ExampleTestCaseIds(exs);
    var invalid := ExampleTestCaseIds(exs) - TestCaseIds(tcs);
    (if orphans != {} then [TestCasesWithoutExamples(orphans)] else [])
    + (if invalid != {} then [UnknownTestCaseReferences(invalid)] else [])
  }

  /** All warnings, in the order the checks run. */
  function CoverageWarnings(tcs: seq<TestCase>, exs: seq<DatasetExample>, minCriteria: int, minPolicyIds: int): seq<CoverageWarning> {
    ConcatMap(tcs, AxesWarningOf) + ConcatMapWith(exs, minCriteria, CriteriaWarningOf)
    + ConcatMapWith(exs, minPolicyIds, PolicyCountWarningOf) + ReferenceWarnings(tcs, exs)
  }

  function TooFewMessage(useCaseId: string, count: nat, minimum: int): string {
    "Use case " + useCaseId + " has only " + IntToString(count) + " test cases, minimum required: " + IntToString(minimum)
  }

  /** Check 2: one warning per test case whose axis count is outside 2..3. */
  method CollectAxesWarnings(tcs: seq<TestCase>) returns (warnings: seq<CoverageWarning>)
    ensures warnings == ConcatMap(tcs, AxesWarningOf)
  {
    warnings := [];
    var i := 0;
    while i < |tcs|
      invariant 0 <= i <= |tcs| && warnings == ConcatMap(tcs[..i], AxesWarningOf)
    {
      ConcatMapStep(tcs, i, AxesWarningOf);
      var axesCount := |tcs[i].parameterVariationAxes|;
      if !(2 <= axesCount <= 3) {
        warnings := warnings + [AxesOutOfRange(tcs[i].id, axesCount)];
      }
      i := i + 1;
    }
    assert tcs[..i] == tcs;
  }

  /** Check 3: one warning per example with fewer evaluation criteria than the minimum. */
  method CollectCriteriaWarnings(exs: seq<DatasetExample>, minCriteria: int) returns (warnings: seq<CoverageWarning>)
    ensures warnings == ConcatMapWith(exs, minCriteria, CriteriaWarningOf)
  {
    warnings := [];
    var j := 0;
    while j < |exs|
      invariant 0 <= j <= |exs| && warnings == ConcatMapWith(exs[..j], minCriteria, CriteriaWarningOf)
    {
      ConcatMapWithStep(exs, j, minCriteria, CriteriaWarningOf);
      var criteriaCount := |exs[j].evaluationCriteria|;
      if criteriaCount < minCriteria {
        warnings := warnings + [TooFewCriteria(exs[j].id, criteriaCount, minCriteria)];
      }
      j := j + 1;
    }
    assert exs[..j] == exs;
  }

  /** Check 4: one warning per example with fewer policy ids than the minimum. */
  method CollectPolicyCountWarnings(exs: seq<DatasetExample>, minPolicyIds: int) returns (warnings: seq<CoverageWarning>)
    ensures warnings == ConcatMapWith(exs, minPolicyIds, PolicyCountWarningOf)
  {
    warnings := [];
    var j := 0;
    while j < |exs|
      invariant 0 <= j <= |exs| && warnings == ConcatMapWith(exs[..j], minPolicyIds, PolicyCountWarningOf)
    {
      ConcatMapWithStep(exs, j, minPolicyIds, PolicyCountWarningOf);
      var policyCount := |exs[j].policyIds|;
      if policyCount < minPolicyIds {
        warnings := warnings + [TooFewPolicyIds(exs[j].id, policyCount, minPolicyIds)];
      }
      j := j + 1;
    }
    assert exs[..j] == exs;
  }

  /**
   * Raises when there are fewer test cases than required; otherwise hands both
   * lists back unchanged together with the warnings of the remaining checks.
   */
  method EnforceCoverage(useCaseId: string, tcs: seq<TestCase>, exs: seq<DatasetExample>,
                         minTestCases: int, minCriteria: int, minPolicyIds: int)
    returns (r: Result<(seq<TestCase>, seq<DatasetExample>, seq<CoverageWarning>)>)
    ensures r.Err? <==> |tcs| < minTestCases
    ensures r.Err? ==> r.error == TooFewMessage(useCaseId, |tcs|, minTestCases)
    ensures r.Ok? ==> r.value == (tcs, exs, CoverageWarnings(tcs, exs, minCriteria, minPolicyIds))
  {
    if |tcs| < minTestCases {
      return Err(TooFewMessage(useCaseId, |tcs|, minTestCases));
    }
    var axesWarnings := CollectAxesWarnings(tcs);
    var criteriaWarnings := CollectCriteriaWarnings(exs, minCriteria);
    var policyWarnings := CollectPolicyCountWarnings(exs, minPolicyIds);
    var warnings := axesWarnings + criteriaWarnings + policyWarnings;
    ghost var counted := warnings;
    var testCaseIds := TestCaseIds(tcs);
    var exampleTestCaseIds := ExampleTestCaseIds(exs);
    var orphans := testCaseIds - exampleTestCaseIds;
    if orphans != {} {
      warnings := warnings + [TestCasesWithoutExamples(orphans)];
    }
    var invalid := exampleTestCaseIds - testCaseIds;
    if invalid != {} {
      warnings := warnings + [UnknownTestCaseReferences(invalid)];
    }
    assert warnings == counted + ReferenceWarnings(tcs, exs);
    return Ok((tcs, exs, warnings));
  }

  /** No warning at all exactly when every count rule holds and the two id sets coincide. */
  lemma {:induction false} NoWarningsIff(tcs: seq<TestCase>, exs: seq<DatasetExample>, minCriteria: int, minPolicyIds: int)
    ensures CoverageWarnings(tcs, exs, minCriteria, minPolicyIds) == [] <==>
      (forall i :: 0 <= i < |tcs| ==> 2 <= |tcs[i].parameterVariationAxes| <= 3)
      && (forall i :: 0 <= i < |exs| ==> |exs[i].evaluationCriteria| >= minCriteria && |exs[i].policyIds| >= minPolicyIds)
      && TestCaseIds(tcs) == ExampleTestCaseIds(exs)
  {
    ConcatMapEmpty(tcs, AxesWarningOf);
    ConcatMapWithEmpty(exs, minCriteria, CriteriaWarningOf);
    ConcatMapWithEmpty(exs, minPolicyIds, PolicyCountWarningOf);
  }

  /**
   * On records that passed their own validation, and with the default minimums
   * (or lower), the count checks never fire: only the two reference checks can warn.
   */
  lemma {:induction false} ValidatedRecordsOnlyReferenceWarnings(tcs: seq<TestCase>, exs: seq<DatasetExample>, minCriteria: int, minPolicyIds: int)
    requires forall i :: 0 <= i < |tcs| ==> TestCaseModel.Valid(tcs[i])
    requires forall i :: 0 <= i < |exs| ==> DatasetExampleModel.Valid(exs[i])
    requires minCriteria <= 3 && minPolicyIds <= 1
    ensures CoverageWarnings(tcs, exs, minCriteria, minPolicyIds) == ReferenceWarnings(tcs, exs)
  {
    ConcatMapEmpty(tcs, AxesWarningOf);
    ConcatMapWithEmpty(exs, minCriteria, CriteriaWarningOf);
    ConcatMapWithEmpty(exs, minPolicyIds, PolicyCountWarningOf);
  }

  // ---- referential integrity by prefix ------------------------------------

  function UseCaseIds(ucs: seq<UseCaseModel.UseCase>): set<string> {
    set i | 0 <= i < |ucs| :: ucs[i].id
  }

  function TestCaseUseCaseIssue(tc: TestCase, ucIds: set<string>): seq<string> {
    if tc.useCaseId in ucIds then [] else ["Test case " + tc.id + " references invalid use_case_id: " + tc.useCaseId]
  }

  function ExampleTestCaseIssue(ex: DatasetExample, tcIds: set<string>): seq<string> {
    if ex.testCaseId in tcIds then [] else ["Example " + ex.id + " references invalid test_case_id: " + ex.testCaseId]
  }

  function ExampleUseCaseIssue(ex: DatasetExample, ucIds: set<string>): seq<string> {
    if ex.useCaseId in ucIds then [] else ["Example " + ex.id + " references invalid use_case_id: " + ex.useCaseId]
  }

  function PolicyPrefixIssue(policyId: string, exampleId: string): seq<string> {
    if StartsWith(policyId, "pol_") then []
    else ["Example " + exampleId + " has invalid policy_id format: " + policyId + " (must start with pol_)"]
  }

  function ExamplePolicyPrefixIssues(ex: DatasetExample, unused: bool): seq<string> {
    ConcatMapWith(ex.policyIds, ex.id, PolicyPrefixIssue)
  }

  /** The issues in the order the four checks run. */
  function ReferentialIssues(ucs: seq<UseCaseModel.UseCase>, tcs: seq<TestCase>, exs: seq<DatasetExample>): seq<string> {
    ConcatMapWith(tcs, UseCaseIds(ucs), TestCaseUseCaseIssue)
    + ConcatMapWith(exs, TestCaseIds(tcs), ExampleTestCaseIssue)
    + ConcatMapWith(exs, UseCaseIds(ucs), ExampleUseCaseIssue)
    + ConcatMapWith(exs, true, ExamplePolicyPrefixIssues)
  }

  /** Check 1: every test case names a known use case. */
  method CollectTestCaseUseCaseIssues(tcs: seq<TestCase>, useCaseIds: set<string>) returns (issues: seq<string>)
    ensures issues == ConcatMapWith(tcs, useCaseIds, TestCaseUseCaseIssue)
  {
    issues := [];
    var i := 0;
    while i < |tcs|
      invariant 0 <= i <= |tcs| && issues == ConcatMapWith(tcs[..i], useCaseIds, TestCaseUseCaseIssue)
    {
      ConcatMapWithStep(tcs, i, useCaseIds, TestCaseUseCaseIssue);
      if tcs[i].useCaseId !in useCaseIds {
        issues := issues + ["Test case " + tcs[i].id + " references invalid use_case_id: " + tcs[i].useCaseId];
      }
      i := i + 1;
    }
    assert tcs[..i] == tcs;
  }

  /** Check 2: every example names a known test case. */
  method CollectExampleTestCaseIssues(exs: seq<DatasetExample>, testCaseIds: set<string>) returns (issues: seq<string>)
    ensures issues == ConcatMapWith(exs, testCaseIds, ExampleTestCaseIssue)
  {
    issues := [];
    var j := 0;
    while j < |exs|
      invariant 0 <= j <= |exs| && issues == ConcatMapWith(exs[..j], testCaseIds, ExampleTestCaseIssue)
    {
      ConcatMapWithStep(exs, j, testCaseIds, ExampleTestCaseIssue);
      if exs[j].testCaseId !in testCaseIds {
        issues := issues + ["Example " + exs[j].id + " references invalid test_case_id: " + exs[j].testCaseId];
      }
      j := j + 1;
    }
    assert exs[..j] == exs;
  }

  /** Check 3: every example names a known use case. */
  method CollectExampleUseCaseIssues(exs: seq<DatasetExample>, useCaseIds: set<string>) returns (issues: seq<string>)
    ensures issues == ConcatMapWith(exs, useCaseIds, ExampleUseCaseIssue)
  {
    issues := [];
    var j := 0;
    while j < |exs|
      invariant 0 <= j <= |exs| && issues == ConcatMapWith(exs[..j], useCaseIds, ExampleUseCaseIssue)
    {
      ConcatMapWithStep(exs, j, useCaseIds, ExampleUseCaseIssue);
      if exs[j].useCaseId !in useCaseIds {
        issues := issues + ["Example " + exs[j].id + " references invalid use_case_id: " + exs[j].useCaseId];
      }
      j := j + 1;
    }
    assert exs[..j] == exs;
  }

  /** Check 4: every policy id of every example carries the `pol_` prefix. */
  method CollectPolicyPrefixIssues(exs: seq<DatasetExample>) returns (issues: seq<string>)
    ensures issues == ConcatMapWith(exs, true, ExamplePolicyPrefixIssues)
  {
    issues := [];
    var j := 0;
    while j < |exs|
      invariant 0 <= j <= |exs| && issues == ConcatMapWith(exs[..j], true, ExamplePolicyPrefixIssues)
    {
      ConcatMapWithStep(exs, j, true, ExamplePolicyPrefixIssues);
      var ex := exs[j];
      ghost var before := issues;
      var k := 0;
      while k < |ex.policyIds|
        invariant 0 <= k <= |ex.policyIds| && issues == before + ConcatMapWith(ex.policyIds[..k], ex.id, PolicyPrefixIssue)
      {
        ConcatMapWithStep(ex.policyIds, k, ex.id, PolicyPrefixIssue);
        if !StartsWith(ex.policyIds[k], "pol_") {
          issues := issues + ["Example " + ex.id + " has invalid policy_id format: " + ex.policyIds[k] + " (must start with pol_)"];
        }
        k := k + 1;
      }
      assert ex.policyIds[..k] == ex.policyIds;
      j := j + 1;
    }
    assert exs[..j] == exs;
  }

  /** Policy ids are only checked for their `pol_` prefix, not against the extracted policies. */
  method CheckReferentialIntegrity(ucs: seq<UseCaseModel.UseCase>, tcs: seq<TestCase>, exs: seq<DatasetExample>)
    returns (issues: seq<string>)
    ensures issues == ReferentialIssues(ucs, tcs, exs)
  {
    var useCaseIds := UseCaseIds(ucs);
    var testCaseIds := TestCaseIds(tcs);
    var check1 := CollectTestCaseUseCaseIssues(tcs, useCaseIds);
    var check2 := CollectExampleTestCaseIssues(exs, testCaseIds);
    var check3 := CollectExampleUseCaseIssues(exs, useCaseIds);
    var check4 := CollectPolicyPrefixIssues(exs);
    issues := check1 + check2 + check3 + check4;
  }

  /** No issue exactly when every reference resolves and every policy id carries the prefix. */
  lemma {:induction false} ReferentialCleanIff(ucs: seq<UseCaseModel.UseCase>, tcs: seq<TestCase>, exs: seq<DatasetExample>)
    ensures ReferentialIssues(ucs, tcs, exs) == [] <==>
      (forall i :: 0 <= i < |tcs| ==> tcs[i].useCaseId in UseCaseIds(ucs))
      && (forall i :: 0 <= i < |exs| ==> exs[i].testCaseId in TestCaseIds(tcs) && exs[i].useCaseId in UseCaseIds(ucs))
      && (forall i :: 0 <= i < |exs| ==> DatasetExampleModel.AllPolicyIdsPrefixed(exs[i].policyIds))
  {
    ConcatMapWithEmpty(tcs, UseCaseIds(ucs), TestCaseUseCaseIssue);
    ConcatMapWithEmpty(exs, TestCaseIds(tcs), ExampleTestCaseIssue);
    ConcatMapWithEmpty(exs, UseCaseIds(ucs), ExampleUseCaseIssue);
    ConcatMapWithEmpty(exs, true, ExamplePolicyPrefixIssues);
    forall i | 0 <= i < |exs| ensures ExamplePolicyPrefixIssues(exs[i], true) == [] <==> DatasetExampleModel.AllPolicyIdsPrefixed(exs[i].policyIds) {
      ConcatMapWithEmpty(exs[i].policyIds, exs[i].id, PolicyPrefixIssue);
    }
  }
}
