/**
 * The rules the three external-engine adapters (the modules under generation/adapters)
 * share: ids built from the use case and an index, the short name cut from
 * the question, policy ids scraped from context text, metadata merged without
 * overriding, and the minimal records built when construction fails.
 */
module EngineRecords {
  import opened Base
  import opened Text
  import opened Values
  import opened TestCaseModel
  import opened DatasetExampleModel

  /**
   * A testset row (a pandas `Series`): its cells by column name, and the
   * `metadata` cell when it holds a dict.
   */
  datatype Row = Row(cells: Params, metadata: Option<Params>)

  /** `row.get(column, default)` */
  function Cell(row: Row, column: string, default: Value): Value {
    Get(row.cells, column).GetOr(default)
  }

  /** `row.metadata.get(key)` when the row has a dict `metadata`, `None` otherwise. */
  function MetadataEntry(row: Row, key: string): Option<Value> {
    if row.metadata.Some? then Get(row.metadata.value, key) else None
  }

  /** The row's metadata merged into the adapter's own metadata without overriding it. */
  function WithRowMetadata(own: Metadata, row: Row): Metadata {
    if row.metadata.Some? then MergeMissing(own, row.metadata.value) else own
  }

  /** The use-case id with every `uc_` removed. */
  function UseCaseStem(useCaseId: string): string {
    ReplaceAll(useCaseId, "uc_", "")
  }

  /** `f"tc_{use_case_id.replace('uc_', '')}{index:03d}"` */
  function EngineTestCaseId(useCaseId: string, index: nat): (r: string)
    ensures StartsWith(r, "tc_")
  {
    "tc_" + UseCaseStem(useCaseId) + Pad3(index)
  }

  /** `f"ex_{use_case_id.replace('uc_', '')}{index:03d}"` */
  function EngineExampleId(useCaseId: string, index: nat): (r: string)
    ensures StartsWith(r, "ex_")
  {
    "ex_" + UseCaseStem(useCaseId) + Pad3(index)
  }

  /** Within one use case, distinct indices give distinct test-case and example ids. */
  lemma EngineIdsInjective(useCaseId: string, m: nat, n: nat)
    ensures EngineTestCaseId(useCaseId, m) == EngineTestCaseId(useCaseId, n) ==> m == n
    ensures EngineExampleId(useCaseId, m) == EngineExampleId(useCaseId, n) ==> m == n
  {
    var k := 3 + |UseCaseStem(useCaseId)|;
    if EngineTestCaseId(useCaseId, m) == EngineTestCaseId(useCaseId, n) {
      assert Pad3(m) == EngineTestCaseId(useCaseId, m)[k..];
      assert Pad3(n) == EngineTestCaseId(useCaseId, n)[k..];
      Pad3Injective(m, n);
    }
    if EngineExampleId(useCaseId, m) == EngineExampleId(useCaseId, n) {
      assert Pad3(m) == EngineExampleId(useCaseId, m)[k..];
      assert Pad3(n) == EngineExampleId(useCaseId, n)[k..];
      Pad3Injective(m, n);
    }
  }

  function DefaultName(index: nat): string {
    "Test case " + NatToString(index)
  }

  /**
   * The test-case name: `str(q)[:80]` when `q` is truthy, otherwise
   * "Test case {index}"; a text longer than 80 characters is cut back to its
   * last space within the first 80 and gets "...".
   */
  function EngineName(question: Value, index: nat): (r: string)
  {
    var text := Display(question);
    var name := if Truthy(question) then Take(text, 80) else DefaultName(index);
    if |text| > 80 then BeforeLastSpace(name) + "..." else name
  }

  /** A falsy value prints in at most five characters (`False`, `None`, `0`, `[]`, ``). */
  lemma FalsyIsShort(v: Value)
    ensures !Truthy(v) ==> |Display(v)| <= 5
  {
    if v.Int? && v.i == 0 {
      assert Display(v) == IntToString(0) == NatToString(0);
    }
  }

  /** The three shapes a name can take. */
  lemma {:induction false} EngineNameShape(question: Value, index: nat)
    ensures var text, r := Display(question), EngineName(question, index);
            (!Truthy(question) ==> r == DefaultName(index))
            && (Truthy(question) && |text| <= 80 ==> r == text)
            && (|text| > 80 ==>
                  var cut := |r| - 3;
                  |r| >= 3 && r[cut..] == "..." && cut <= 80 && r[..cut] == text[..cut]
                  && (' ' in text[..80] ==> cut < 80 && text[cut] == ' ' && ' ' !in text[cut + 1..80]))
  {
    var text := Display(question);
    if |text| > 80 {
      FalsyIsShort(question);
      var name := Take(text, 80);
      assert name == text[..80];
      var b := BeforeLastSpace(name);
      assert EngineName(question, index) == b + "...";
      assert b == name[..|b|];
    }
  }

  /** `str(q)[:200]` when `q` is truthy, otherwise "Test case for {use_case_id}". */
  function QuestionDescription(question: Value, useCaseId: string): (r: string)
    ensures Truthy(question) ==> |r| <= 200 && StartsWith(Display(question), r)
  {
    if Truthy(question) then Take(Display(question), 200) else "Test case for " + useCaseId
  }

  /**
   * `pd.notna(x)` and `pd.isna(x)` on a list cell answer with one boolean per
   * item, and Python refuses the truth value of such an array once it holds
   * two or more (`ValueError`), so `pd.notna(x) and x` and `pd.isna(x) or not x`
   * raise on it.
   */
  predicate AmbiguousNa(v: Value) { v.StrList? && |v.items| >= 2 }

  const AmbiguousTruthError :=
    "The truth value of an array with more than one element is ambiguous. Use a.any() or a.all()"

  /** The reference answer (`pd.notna(a) and a`) leads, the question follows; a list answer of two or more items raises. */
  function AnswerDescription(answer: Value, question: Value, useCaseId: string): (r: Result<string>)
    ensures r.Err? <==> AmbiguousNa(answer)
    ensures r.Ok? && !IsNa(answer) && Truthy(answer) ==> |r.value| <= 200 && StartsWith(Display(answer), r.value)
    ensures r.Ok? && (IsNa(answer) || !Truthy(answer)) ==> r.value == QuestionDescription(question, useCaseId)
  {
    if AmbiguousNa(answer) then Err(AmbiguousTruthError)
    else if !IsNa(answer) && Truthy(answer) then Ok(Take(Display(answer), 200))
    else Ok(QuestionDescription(question, useCaseId))
  }

  /** "" for a missing, NaN or falsy answer, otherwise `str(answer)`; a list answer of two or more items raises. */
  function AnswerText(answer: Value): (r: Result<string>)
    ensures r.Err? <==> AmbiguousNa(answer)
    ensures r.Ok? && (IsNa(answer) || !Truthy(answer)) ==> r.value == ""
    ensures r.Ok? && !IsNa(answer) && Truthy(answer) ==> r.value == Display(answer)
  {
    if AmbiguousNa(answer) then Err(AmbiguousTruthError)
    else if IsNa(answer) || !Truthy(answer) then Ok("")
    else Ok(Display(answer))
  }

  /** `x or y` on two optional lookups, `None` standing for a missing key. */
  function OrValue(x: Option<Value>, y: Option<Value>): (r: Value)
    ensures Truthy(x.GetOr(Null)) ==> r == x.value
    ensures !Truthy(x.GetOr(Null)) ==> r == y.GetOr(Null)
  {
    var a := x.GetOr(Null);
    if Truthy(a) then a else y.GetOr(Null)
  }

  // ---- policy ids --------------------------------------------------------

  const UnknownPolicy := "pol_unknown"

  /** `list(set(matches))` over the texts, or `["pol_unknown"]` when nothing matched. */
  function ScrapedPolicyIds(texts: seq<string>): (r: seq<string>)
  {
    var ids := Dedup(ConcatMap(texts, FindPolicyRefs));
    if ids == [] then [UnknownPolicy] else ids
  }

  /**
   * The scraped ids are never empty, all carry `pol_`, hold no repeat, and
   * are exactly the references found in the texts (or `pol_unknown` alone
   * when there is none).
   */
  lemma {:induction false} ScrapedPolicyIdsSpec(texts: seq<string>, x: string)
    ensures var r := ScrapedPolicyIds(texts);
            |r| >= 1 && AllPolicyIdsPrefixed(r) && Distinct(r)
            && (x in r <==> ((exists i :: 0 <= i < |texts| && x in FindPolicyRefs(texts[i]))
                             || (r == [UnknownPolicy] && x == UnknownPolicy)))
  {
    var refs := ConcatMap(texts, FindPolicyRefs);
    var ids := Dedup(refs);
    DedupDistinct(refs);
    DedupMember(refs, x);
    ConcatMapMember(texts, FindPolicyRefs, x);
    forall k | 0 <= k < |ids| ensures StartsWith(ids[k], "pol_") {
      DedupMember(refs, ids[k]);
      ConcatMapMember(texts, FindPolicyRefs, ids[k]);
      var i :| 0 <= i < |texts| && ids[k] in FindPolicyRefs(texts[i]);
      var j :| 0 <= j < |FindPolicyRefs(texts[i])| && FindPolicyRefs(texts[i])[j] == ids[k];
      assert IsPolicyRef(ids[k]);
    }
    if ids == [] {
      assert x in refs <==> false;
    }
  }

  /** `policy_ids or ["pol_unknown"]` */
  function OrUnknown(ids: seq<string>): (r: seq<string>)
    ensures |r| >= 1
  {
    if ids == [] then [UnknownPolicy] else ids
  }

  // ---- metadata merge ------------------------------------------------------

  /** Adding the entries of `extra` whose key is not yet present, in order. */
  function MergeMissing(base: Metadata, extra: Params): Metadata
    decreases |extra|
  {
    if |extra| == 0 then base
    else
      var (k, v) := extra[0];
      MergeMissing(if k in base then base else base[k := v], extra[1..])
  }

  /** `for key, value in extra.items(): if key not in metadata: metadata[key] = value` */
  method MergeMissingKeys(base: Metadata, extra: Params) returns (metadata: Metadata)
    ensures metadata == MergeMissing(base, extra)
  {
    metadata := base;
    var i := 0;
    while i < |extra|
      invariant 0 <= i <= |extra|
      invariant MergeMissing(metadata, extra[i..]) == MergeMissing(base, extra)
    {
      assert extra[i..][1..] == extra[i + 1..];
      var (key, value) := extra[i];
      if key !in metadata {
        metadata := metadata[key := value];
      }
      i := i + 1;
    }
    assert extra[i..] == [];
  }

  /**
   * The merge keeps every key already present with its value, adds exactly
   * the missing keys of `extra`, and each added key gets the value `extra`
   * holds for it (the first one, as `dict.get` reads it).
   */
  lemma {:induction false} MergeMissingSpec(base: Metadata, extra: Params)
    ensures var r := MergeMissing(base, extra);
            (forall k :: k in r <==> k in base || k in Keys(extra))
            && (forall k :: k in base ==> r[k] == base[k])
            && (forall k :: k in r && k !in base ==> Get(extra, k) == Some(r[k]))
    decreases |extra|
  {
    if |extra| > 0 {
      var (k0, v0) := extra[0];
      var next := if k0 in base then base else base[k0 := v0];
      MergeMissingSpec(next, extra[1..]);
      assert Keys(extra) == [k0] + Keys(extra[1..]);
    }
  }

  /** Merging row metadata keeps the adapter's keys and adds each missing row key with its value. */
  lemma {:induction false} WithRowMetadataSpec(own: Metadata, row: Row, key: string)
    ensures key in own ==> key in WithRowMetadata(own, row) && WithRowMetadata(own, row)[key] == own[key]
    ensures row.metadata.Some? && key !in own && key in Keys(row.metadata.value) ==>
              key in WithRowMetadata(own, row) && Get(row.metadata.value, key) == Some(WithRowMetadata(own, row)[key])
    ensures row.metadata.None? ==> WithRowMetadata(own, row) == own
  {
    if row.metadata.Some? {
      MergeMissingSpec(own, row.metadata.value);
    }
  }

  // ---- minimal records ---------------------------------------------------

  const MinimalAxes := ["tone", "complexity"]
  const MinimalCriteria := ["relevance", "policy_compliance", "completeness"]

  /** The test case built in the `except` branch. */
  function MinimalTestCase(generator: string, description: string, useCaseId: string, index: nat,
                           error: string): (r: Result<TestCase>)
    ensures r.Ok? <==> StartsWith(useCaseId, "uc_")
    ensures r.Ok? ==> r.value.id == EngineTestCaseId(useCaseId, index) && r.value.useCaseId == useCaseId
                      && r.value.name == DefaultName(index)
                      && r.value.description == description && r.value.parameterVariationAxes == MinimalAxes
                      && r.value.metadata == map["generator" := Str(generator), "adaptation_error" := Str(error)]
  {
    MakeTestCase(EngineTestCaseId(useCaseId, index), useCaseId, DefaultName(index), description, MinimalAxes,
                 map["generator" := Str(generator), "adaptation_error" := Str(error)])
  }

  /** The example built in the `except` branch: an empty user turn and three generic criteria. */
  function MinimalExample(generator: string, useCaseId: string, testCaseId: string, index: nat,
                          caseName: string, format: string, policyIds: seq<string>, error: string)
    : (r: Result<DatasetExample>)
    ensures r.Ok? <==> StartsWith(useCaseId, "uc_") && StartsWith(testCaseId, "tc_")
                       && AllPolicyIdsPrefixed(OrUnknown(policyIds))
    ensures r.Ok? ==> r.value.evaluationCriteria == MinimalCriteria && r.value.policyIds == OrUnknown(policyIds)
                      && r.value.metadata == map["generator" := Str(generator), "adaptation_error" := Str(error)]
                      && r.value.input == InputData([Message(User, "")], None) && r.value.expectedOutput == ""
  {
    MakeExample(EngineExampleId(useCaseId, index), caseName, format, useCaseId, testCaseId,
                InputData([Message(User, "")], None), "", MinimalCriteria, OrUnknown(policyIds),
                map["generator" := Str(generator), "adaptation_error" := Str(error)])
  }

  /**
   * A record built by the main path, or else by the minimal path with the
   * error text of the main path's failure.
   */
  function OrMinimalTestCase(main: Result<TestCase>, generator: string, description: string,
                             useCaseId: string, index: nat): Result<TestCase>
  {
    if main.Ok? then main else MinimalTestCase(generator, description, useCaseId, index, main.error)
  }

  function OrMinimalExample(main: Result<DatasetExample>, generator: string, useCaseId: string, testCaseId: string,
                            index: nat, caseName: string, format: string, policyIds: seq<string>)
    : Result<DatasetExample>
  {
    if main.Ok? then main
    else MinimalExample(generator, useCaseId, testCaseId, index, caseName, format, policyIds, main.error)
  }
}
