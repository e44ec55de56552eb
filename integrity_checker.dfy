/** Referential integrity against the records that actually exist (validation/integrity_checker.py). */
module IntegrityChecker {
  import opened Base
  import opened Text
  import UseCaseModel
  import PolicyModel
  import TestCaseModel
  import DatasetExampleModel
  import Coverage

  type TestCase = TestCaseModel.TestCase
  type DatasetExample = DatasetExampleModel.DatasetExample

  function PolicyIds(pols: seq<PolicyModel.Policy>): set<string> {
    set i | 0 <= i < |pols| :: pols[i].id
  }

  function TestCaseUseCaseError(tc: TestCase, ucIds: set<string>): seq<string> {
    if tc.useCaseId in ucIds then []
    else ["Test case '" + tc.id + "' references non-existent use_case_id: '" + tc.useCaseId + "'"]
  }

  function ExampleUseCaseError(ex: DatasetExample, ucIds: set<string>): seq<string> {
    if ex.useCaseId in ucIds then []
    else ["Example '" + ex.id + "' references non-existent use_case_id: '" + ex.useCaseId + "'"]
  }

  function ExampleTestCaseError(ex: DatasetExample, tcIds: set<string>): seq<string> {
    if ex.testCaseId in tcIds then []
    else ["Example '" + ex.id + "' references non-existent test_case_id: '" + ex.testCaseId + "'"]
  }

  function PolicyError(policyId: string, context: (string, set<string>)): seq<string> {
    if policyId in context.1 then []
    else ["Example '" + context.0 + "' references non-existent policy_id: '" + policyId + "'"]
  }

  function ExamplePolicyErrors(ex: DatasetExample, polIds: set<string>): seq<string> {
    ConcatMapWith(ex.policyIds, (ex.id, polIds), PolicyError)
  }

  /** The errors in the order the four checks run. */
  function IntegrityErrors(ucs: seq<UseCaseModel.UseCase>, pols: seq<PolicyModel.Policy>,
                           tcs: seq<TestCase>, exs: seq<DatasetExample>): seq<string> {
    var ucIds := Coverage.UseCaseIds(ucs);
    ConcatMapWith(tcs, ucIds, TestCaseUseCaseError)
    + ConcatMapWith(exs, ucIds, ExampleUseCaseError)
    + ConcatMapWith(exs, Coverage.TestCaseIds(tcs), ExampleTestCaseError)
    + ConcatMapWith(exs, PolicyIds(pols), ExamplePolicyErrors)
  }

  method CollectTestCaseErrors(tcs: seq<TestCase>, useCaseIds: set<string>) returns (errors: seq<string>)
    ensures errors == ConcatMapWith(tcs, useCaseIds, TestCaseUseCaseError)
  {
    errors := [];
    var i := 0;
    while i < |tcs|
      invariant 0 <= i <= |tcs| && errors == ConcatMapWith(tcs[..i], useCaseIds, TestCaseUseCaseError)
    {
      ConcatMapWithStep(tcs, i, useCaseIds, TestCaseUseCaseError);
      if tcs[i].useCaseId !in useCaseIds {
        errors := errors + ["Test case '" + tcs[i].id + "' references non-existent use_case_id: '" + tcs[i].useCaseId + "'"];
      }
      i := i + 1;
    }
    assert tcs[..i] == tcs;
  }

  method CollectExampleUseCaseErrors(exs: seq<DatasetExample>, useCaseIds: set<string>) returns (errors: seq<string>)
    ensures errors == ConcatMapWith(exs, useCaseIds, ExampleUseCaseError)
  {
    errors := [];
    var j := 0;
    while j < |exs|
      invariant 0 <= j <= |exs| && errors == ConcatMapWith(exs[..j], useCaseIds, ExampleUseCaseError)
    {
      ConcatMapWithStep(exs, j, useCaseIds, ExampleUseCaseError);
      if exs[j].useCaseId !in useCaseIds {
        errors := errors + ["Example '" + exs[j].id + "' references non-existent use_case_id: '" + exs[j].useCaseId + "'"];
      }
      j := j + 1;
    }
    assert exs[..j] == exs;
  }

  method CollectExampleTestCaseErrors(exs: seq<DatasetExample>, testCaseIds: set<string>) returns (errors: seq<string>)
    ensures errors == ConcatMapWith(exs, testCaseIds, ExampleTestCaseError)
  {
    errors := [];
    var j := 0;
    while j < |exs|
      invariant 0 <= j <= |exs| && errors == ConcatMapWith(exs[..j], testCaseIds, ExampleTestCaseError)
    {
      ConcatMapWithStep(exs, j, testCaseIds, ExampleTestCaseError);
      if exs[j].testCaseId !in testCaseIds {
        errors := errors + ["Example '" + exs[j].id + "' references non-existent test_case_id: '" + exs[j].testCaseId + "'"];
      }
      j := j + 1;
    }
    assert exs[..j] == exs;
  }

  method CollectPolicyErrors(exs: seq<DatasetExample>, policyIds: set<string>) returns (errors: seq<string>)
    ensures errors == ConcatMapWith(exs, policyIds, ExamplePolicyErrors)
  {
    errors := [];
    var j := 0;
    while j < |exs|
      invariant 0 <= j <= |exs| && errors == ConcatMapWith(exs[..j], policyIds, ExamplePolicyErrors)
    {
      ConcatMapWithStep(exs, j, policyIds, ExamplePolicyErrors);
      var ex := exs[j];
      ghost var before := errors;
      var k := 0;
      while k < |ex.policyIds|
        invariant 0 <= k <= |ex.policyIds| && errors == before + ConcatMapWith(ex.policyIds[..k], (ex.id, policyIds), PolicyError)
      {
        ConcatMapWithStep(ex.policyIds, k, (ex.id, policyIds), PolicyError);
        if ex.policyIds[k] !in policyIds {
          errors := errors + ["Example '" + ex.id + "' references non-existent policy_id: '" + ex.policyIds[k] + "'"];
        }
        k := k + 1;
      }
      assert ex.policyIds[..k] == ex.policyIds;
      j := j + 1;
    }
    assert exs[..j] == exs;
  }

  /** Every id a record cites must belong to a record of the right kind; policy ids must name extracted policies. */
  method CheckIntegrity(ucs: seq<UseCaseModel.UseCase>, pols: seq<PolicyModel.Policy>,
                        tcs: seq<TestCase>, exs: seq<DatasetExample>) returns (errors: seq<string>)
    ensures errors == IntegrityErrors(ucs, pols, tcs, exs)
  {
    var useCaseIds := Coverage.UseCaseIds(ucs);
    var policyIds := PolicyIds(pols);
    var testCaseIds := Coverage.TestCaseIds(tcs);
    var check1 := CollectTestCaseErrors(tcs, useCaseIds);
    var check2 := CollectExampleUseCaseErrors(exs, useCaseIds);
    var check3 := CollectExampleTestCaseErrors(exs, testCaseIds);
    var check4 := CollectPolicyErrors(exs, policyIds);
    errors := check1 + check2 + check3 + check4;
  }

  /** No error exactly when every reference, including every policy id, names an existing record. */
  lemma {:induction false} IntegrityCleanIff(ucs: seq<UseCaseModel.UseCase>, pols: seq<PolicyModel.Policy>,
                                             tcs: seq<TestCase>, exs: seq<DatasetExample>)
    ensures IntegrityErrors(ucs, pols, tcs, exs) == [] <==>
      (forall i :: 0 <= i < |tcs| ==> tcs[i].useCaseId in Coverage.UseCaseIds(ucs))
      && (forall i :: 0 <= i < |exs| ==> exs[i].useCaseId in Coverage.UseCaseIds(ucs) && exs[i].testCaseId in Coverage.TestCaseIds(tcs))
      && (forall i, k :: 0 <= i < |exs| && 0 <= k < |exs[i].policyIds| ==> exs[i].policyIds[k] in PolicyIds(pols))
  {
    var ucIds, polIds := Coverage.UseCaseIds(ucs), PolicyIds(pols);
    ConcatMapWithEmpty(tcs, ucIds, TestCaseUseCaseError);
    ConcatMapWithEmpty(exs, ucIds, ExampleUseCaseError);
    ConcatMapWithEmpty(exs, Coverage.TestCaseIds(tcs), ExampleTestCaseError);
    ConcatMapWithEmpty(exs, polIds, ExamplePolicyErrors);
    forall i | 0 <= i < |exs|
      ensures ExamplePolicyErrors(exs[i], polIds) == [] <==> forall k :: 0 <= k < |exs[i].policyIds| ==> exs[i].policyIds[k] in polIds
    {
      ConcatMapWithEmpty(exs[i].policyIds, (exs[i].id, polIds), PolicyError);
    }
  }

  /**
   * Starting from a set with no error, pointing one example at a test case
   * id that does not exist gives exactly one error, the one naming that
   * example and that id.
   */
  lemma {:induction false} OneBrokenTestCaseReference(ucs: seq<UseCaseModel.UseCase>, pols: seq<PolicyModel.Policy>,
                                                      tcs: seq<TestCase>, exs: seq<DatasetExample>, j: nat, t: string)
    requires IntegrityErrors(ucs, pols, tcs, exs) == []
    requires j < |exs| && t !in Coverage.TestCaseIds(tcs)
    ensures var broken := exs[j := exs[j].(testCaseId := t)];
            IntegrityErrors(ucs, pols, tcs, broken)
            == ["Example '" + exs[j].id + "' references non-existent test_case_id: '" + t + "'"]
  {
    var broken := exs[j := exs[j].(testCaseId := t)];
    var ucIds, tcIds, polIds := Coverage.UseCaseIds(ucs), Coverage.TestCaseIds(tcs), PolicyIds(pols);
    IntegrityCleanIff(ucs, pols, tcs, exs);
    ConcatMapWithEmpty(tcs, ucIds, TestCaseUseCaseError);
    ConcatMapWithEmpty(exs, ucIds, ExampleUseCaseError);
    ConcatMapWithEmpty(exs, tcIds, ExampleTestCaseError);
    ConcatMapWithEmpty(exs, polIds, ExamplePolicyErrors);
    forall i | 0 <= i < |broken|
      ensures ExampleUseCaseError(broken[i], ucIds) == [] && ExamplePolicyErrors(broken[i], polIds) == []
      ensures i != j ==> ExampleTestCaseError(broken[i], tcIds) == []
    {
      assert ExampleUseCaseError(exs[i], ucIds) == [] && ExamplePolicyErrors(exs[i], polIds) == [];
      assert ExampleTestCaseError(exs[i], tcIds) == [];
    }
    ConcatMapWithEmpty(broken, ucIds, ExampleUseCaseError);
    ConcatMapWithEmpty(broken, polIds, ExamplePolicyErrors);
    ConcatMapWithOnly(broken, tcIds, ExampleTestCaseError, j);
  }

  /**
   * The existence check is the stronger one: when every policy id names an
   * extracted, validated policy and nothing else is wrong, the prefix-only
   * check of the coverage module finds nothing either.
   */
  lemma ExistenceImpliesPrefixCheck(ucs: seq<UseCaseModel.UseCase>, pols: seq<PolicyModel.Policy>,
                                    tcs: seq<TestCase>, exs: seq<DatasetExample>)
    requires forall i :: 0 <= i < |pols| ==> PolicyModel.Valid(pols[i])
    requires IntegrityErrors(ucs, pols, tcs, exs) == []
    ensures Coverage.ReferentialIssues(ucs, tcs, exs) == []
  {
    IntegrityCleanIff(ucs, pols, tcs, exs);
    Coverage.ReferentialCleanIff(ucs, tcs, exs);
    forall i | 0 <= i < |exs| ensures DatasetExampleModel.AllPolicyIdsPrefixed(exs[i].policyIds) {
      forall k | 0 <= k < |exs[i].policyIds| ensures StartsWith(exs[i].policyIds[k], "pol_") {
        assert exs[i].policyIds[k] in PolicyIds(pols);
      }
    }
  }

  /** The converse fails: a well-formed policy id that names no policy passes the prefix check only. */
  lemma PrefixCheckIsWeaker(uc: UseCaseModel.UseCase, tc: TestCase, ex: DatasetExample)
    requires tc.useCaseId == uc.id && ex.useCaseId == uc.id && ex.testCaseId == tc.id
    requires ex.policyIds == ["pol_missing"]
    ensures Coverage.ReferentialIssues([uc], [tc], [ex]) == []
    ensures IntegrityErrors([uc], [], [tc], [ex]) != []
  {
    Coverage.ReferentialCleanIff([uc], [tc], [ex]);
    IntegrityCleanIff([uc], [], [tc], [ex]);
    assert [uc][0] == uc && [tc][0] == tc && [ex][0] == ex;
    assert uc.id in Coverage.UseCaseIds([uc]);
    assert tc.id in Coverage.TestCaseIds([tc]);
    assert StartsWith("pol_missing", "pol_");
  }
}
