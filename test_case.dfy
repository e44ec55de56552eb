/** A test case: one parameter variation of a use case (models/test_case.py). */
module TestCaseModel {
  import opened Base
  import opened Text
  import opened Values

  /** Only these six fields are stored; any other keyword passed at construction is dropped. */
  datatype TestCase = TestCase(id: string, useCaseId: string, name: string, description: string,
                               parameterVariationAxes: seq<string>, metadata: Metadata)

  predicate Valid(t: TestCase) {
    StartsWith(t.id, "tc_") && StartsWith(t.useCaseId, "uc_") && 2 <= |t.parameterVariationAxes| <= 3
  }

  function MakeTestCase(id: string, useCaseId: string, name: string, description: string,
                        axes: seq<string>, metadata: Metadata): (r: Result<TestCase>)
    ensures r.Ok? <==> StartsWith(id, "tc_") && StartsWith(useCaseId, "uc_") && 2 <= |axes| <= 3
    ensures r.Ok? ==> r.value == TestCase(id, useCaseId, name, description, axes, metadata) && Valid(r.value)
  {
    if !StartsWith(id, "tc_") then Err("TestCase ID must start with 'tc_', got: " + id)
    else if !StartsWith(useCaseId, "uc_") then Err("TestCase use_case_id must start with 'uc_', got: " + useCaseId)
    else if !(2 <= |axes| <= 3) then Err("TestCase must have 2-3 parameter_variation_axes, got: " + IntToString(|axes|))
    else Ok(TestCase(id, useCaseId, name, description, axes, metadata))
  }

  /** `TestCaseList`: a plain list of validated test cases. */
  function MakeTestCaseList(items: seq<TestCase>): (r: Result<seq<TestCase>>)
    ensures r.Ok? <==> forall i :: 0 <= i < |items| ==> Valid(items[i])
    ensures r.Ok? ==> r.value == items
  {
    if forall i :: 0 <= i < |items| ==> Valid(items[i]) then Ok(items)
    else Err("test_cases: invalid TestCase item")
  }
}
