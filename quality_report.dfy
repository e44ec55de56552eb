/** Summary metrics over the generated examples (generation/quality_report.py). The HTML file is left out. */
module QualityReport {
  import opened Base
  import opened Text
  import opened Values
  import DatasetExampleModel

  type DatasetExample = DatasetExampleModel.DatasetExample

  /** One row of the analysis table, one per example. */
  datatype Row = Row(id: string, caseName: string, format: string, useCaseId: string, testCaseId: string,
                     inputText: string, expectedOutput: string, criteriaCount: nat, policyCount: nat, generator: Value)

  function RowOf(ex: DatasetExample): Row {
    Row(ex.id, ex.caseName, ex.format, ex.useCaseId, ex.testCaseId,
        if |ex.input.messages| > 0 then ex.input.messages[0].content else "",
        ex.expectedOutput, |ex.evaluationCriteria|, |ex.policyIds|,
        if "generator" in ex.metadata then ex.metadata["generator"] else Str("unknown"))
  }

  // ---- column statistics ------------------------------------------------

  /** `column.duplicated().sum()`: the entries equal to some earlier entry. */
  function DuplicateCount<K(==)>(s: seq<K>): nat
    decreases |s|
  {
    if |s| == 0 then 0
    else DuplicateCount(s[..|s| - 1]) + (if s[|s| - 1] in s[..|s| - 1] then 1 else 0)
  }

  function Distinct<K(==)>(s: seq<K>): set<K> {
    set x | x in s
  }

  /** The duplicate count is the number of entries beyond the distinct values. */
  lemma {:induction false} DuplicatesBeyondDistinct<K>(s: seq<K>)
    ensures DuplicateCount(s) + |Distinct(s)| == |s|
    decreases |s|
  {
    if |s| > 0 {
      var init, x := s[..|s| - 1], s[|s| - 1];
      DuplicatesBeyondDistinct(init);
      assert s == init + [x];
      assert Distinct(s) == Distinct(init) + {x};
      if x !in init {
        assert x !in Distinct(init);
      } else {
        assert x in Distinct(init);
      }
    }
  }

  /** `column.value_counts().to_dict()` */
  function Counts<K(==)>(s: seq<K>): map<K, nat>
    decreases |s|
  {
    if |s| == 0 then map[]
    else
      var m, x := Counts(s[..|s| - 1]), s[|s| - 1];
      m[x := if x in m then m[x] + 1 else 1]
  }

  /** Every value present gets its number of occurrences, and nothing else gets an entry. */
  lemma {:induction false} CountsAreOccurrences<K>(s: seq<K>)
    ensures forall k :: k in Counts(s) <==> k in s
    ensures forall k :: k in Counts(s) ==> Counts(s)[k] == multiset(s)[k]
    decreases |s|
  {
    if |s| > 0 {
      var init, x := s[..|s| - 1], s[|s| - 1];
      CountsAreOccurrences(init);
      assert s == init + [x];
      assert multiset(s) == multiset(init) + multiset{x};
    }
  }

  ghost function MapSum<K>(m: map<K, nat>): nat
    decreases |m.Keys|
  {
    if m == map[] then 0
    else
      var k :| k in m;
      assert (m - {k}).Keys == m.Keys - {k};
      m[k] + MapSum(m - {k})
  }

  /** The sum does not depend on which key is taken first. */
  lemma {:induction false} MapSumRemove<K>(m: map<K, nat>, k: K)
    requires k in m
    ensures MapSum(m) == m[k] + MapSum(m - {k})
    decreases |m.Keys|
  {
    var j :| j in m && MapSum(m) == m[j] + MapSum(m - {j});
    if j != k {
      var mj, mk := m - {j}, m - {k};
      assert mj.Keys == m.Keys - {j} && mk.Keys == m.Keys - {k};
      assert k in mj && j in mk && mj[k] == m[k] && mk[j] == m[j];
      MapSumRemove(mj, k);
      MapSumRemove(mk, j);
      assert mj - {k} == mk - {j};
    }
  }

  /** A distribution's counts add up to the number of rows. */
  lemma {:induction false} CountsSumToLength<K>(s: seq<K>)
    ensures MapSum(Counts(s)) == |s|
    decreases |s|
  {
    if |s| > 0 {
      var init, x := s[..|s| - 1], s[|s| - 1];
      var m := Counts(init);
      CountsSumToLength(init);
      var m2 := Counts(s);
      assert m2 == m[x := if x in m then m[x] + 1 else 1];
      MapSumRemove(m2, x);
      assert m2 - {x} == m - {x};
      if x in m {
        MapSumRemove(m, x);
      } else {
        assert m - {x} == m;
      }
    }
  }

  /** The key a cell gets in `value_counts`: `True` equals and hashes like `1`, `False` like `0`, so they share one entry. */
  function CountKey(v: Value): Value {
    if v.Bool? then Int(if v.b then 1 else 0) else v
  }

  /** The cells `value_counts()` counts (it drops `None` and NaN), each as its key. */
  function CountedKeys(s: seq<Value>): (r: seq<Value>)
    decreases |s|
  {
    if |s| == 0 then []
    else CountedKeys(s[..|s| - 1]) + (if IsNa(s[|s| - 1]) then [] else [CountKey(s[|s| - 1])])
  }

  /** The number of `None` and NaN cells. */
  function NaCount(s: seq<Value>): nat
    decreases |s|
  {
    if |s| == 0 then 0 else NaCount(s[..|s| - 1]) + (if IsNa(s[|s| - 1]) then 1 else 0)
  }

  /**
   * The counted keys are the non-missing cells, one per cell, none of them a
   * boolean: the missing cells and the counted ones make up the column.
   */
  lemma {:induction false} CountedKeysSpec(s: seq<Value>)
    ensures |CountedKeys(s)| + NaCount(s) == |s|
    ensures forall k :: k in CountedKeys(s) ==> !IsNa(k) && !k.Bool?
    ensures forall i :: 0 <= i < |s| && !IsNa(s[i]) ==> CountKey(s[i]) in CountedKeys(s)
    decreases |s|
  {
    if |s| > 0 {
      var init := s[..|s| - 1];
      CountedKeysSpec(init);
      forall i | 0 <= i < |s| && !IsNa(s[i])
        ensures CountKey(s[i]) in CountedKeys(s)
      {
        if i < |s| - 1 {
          assert s[i] == init[i];
        }
      }
    }
  }

  // ---- placeholders -------------------------------------------------------

  /** Empty, shorter than ten characters, or holding a template marker. */
  predicate IsPlaceholder(text: string) {
    |text| < 10
    || Contains(text, "TODO") || Contains(text, "TBD") || Contains(text, "placeholder")
    || Contains(text, "PLACEHOLDER") || Contains(text, "XXX")
  }

  function PlaceholderCount(texts: seq<string>): nat
    ensures PlaceholderCount(texts) <= |texts|
    decreases |texts|
  {
    if |texts| == 0 then 0
    else PlaceholderCount(texts[..|texts| - 1]) + (if IsPlaceholder(texts[|texts| - 1]) then 1 else 0)
  }

  function Sum(s: seq<nat>): nat
    decreases |s|
  {
    if |s| == 0 then 0 else Sum(s[..|s| - 1]) + s[|s| - 1]
  }

  // ---- summary ------------------------------------------------------------

  /** The average criteria warning keeps the exact total and row count; the average is their quotient. */
  datatype QualityWarning =
    | DuplicateInputs(count: nat)
    | PlaceholderContent(count: nat)
    | LowAverageCriteria(criteriaTotal: nat, rows: nat)

  datatype Summary =
    | Summary(total: nat, duplicates: nat, caseDistribution: map<string, nat>, formatDistribution: map<string, nat>,
              generatorDistribution: map<Value, nat>, criteriaTotal: nat, policyTotal: nat,
              placeholderCount: nat, warnings: seq<QualityWarning>)
    | FailedSummary(total: nat, failures: seq<string>, error: string)

  function Column<T>(rows: seq<Row>, f: Row -> T): (r: seq<T>)
    ensures |r| == |rows| && forall i :: 0 <= i < |rows| ==> r[i] == f(rows[i])
  {
    seq(|rows|, i requires 0 <= i < |rows| => f(rows[i]))
  }

  function InputTextOf(r: Row): string { r.inputText }
  function ExpectedOf(r: Row): string { r.expectedOutput }
  function CaseOf(r: Row): string { r.caseName }
  function FormatOf(r: Row): string { r.format }
  function GeneratorOf(r: Row): Value { r.generator }
  function CriteriaOf(r: Row): nat { r.criteriaCount }
  function PoliciesOf(r: Row): nat { r.policyCount }

  function Warnings(duplicates: nat, placeholders: nat, criteriaTotal: nat, rows: nat): seq<QualityWarning> {
    (if duplicates > 0 then [DuplicateInputs(duplicates)] else [])
    + (if placeholders > 0 then [PlaceholderContent(placeholders)] else [])
    + (if criteriaTotal < 3 * rows then [LowAverageCriteria(criteriaTotal, rows)] else [])
  }

  /** A list-valued generator cell, which `value_counts` cannot hash. */
  predicate HasListGenerator(rows: seq<Row>) {
    exists i :: 0 <= i < |rows| && rows[i].generator.StrList?
  }

  const UnhashableList := "unhashable type: 'list'"

  /**
   * The summary of a table. A table built from no examples has no columns, so
   * the first column lookup raises `KeyError('input_text')`; a list-valued
   * generator makes `value_counts` raise `TypeError`. Either way the minimal
   * failure summary comes back instead.
   */
  function Summarize(rows: seq<Row>): Summary {
    if |rows| == 0 then
      FailedSummary(0, ["Report generation failed: 'input_text'"], "'input_text'")
    else if HasListGenerator(rows) then
      FailedSummary(|rows|, ["Report generation failed: " + UnhashableList], UnhashableList)
    else
      var duplicates := DuplicateCount(Column(rows, InputTextOf));
      var placeholders := PlaceholderCount(Column(rows, ExpectedOf));
      var criteriaTotal := Sum(Column(rows, CriteriaOf));
      Summary(|rows|, duplicates, Counts(Column(rows, CaseOf)), Counts(Column(rows, FormatOf)),
              Counts(CountedKeys(Column(rows, GeneratorOf))), criteriaTotal, Sum(Column(rows, PoliciesOf)),
              placeholders, Warnings(duplicates, placeholders, criteriaTotal, |rows|))
  }

  /** Builds one row per example, then summarises the table; never raises. */
  method GenerateQualityReport(examples: seq<DatasetExample>) returns (summary: Summary)
    ensures summary == Summarize(seq(|examples|, i requires 0 <= i < |examples| => RowOf(examples[i])))
  {
    var rows: seq<Row> := [];
    var i := 0;
    while i < |examples|
      invariant 0 <= i <= |examples| && |rows| == i
      invariant forall k :: 0 <= k < i ==> rows[k] == RowOf(examples[k])
    {
      rows := rows + [RowOf(examples[i])];
      i := i + 1;
    }
    assert rows == seq(|examples|, i requires 0 <= i < |examples| => RowOf(examples[i]));
    summary := Summarize(rows);
  }

  /**
   * What the summary of a non-empty table says about its input texts and
   * distributions. It fails exactly on a list-valued generator; otherwise the
   * case and format distributions sum to the row count, and the generator
   * distribution to the rows whose generator is neither `None` nor NaN.
   */
  lemma SummaryFacts(rows: seq<Row>)
    requires |rows| > 0
    ensures var s := Summarize(rows);
      && s.total == |rows|
      && (s.FailedSummary? <==> HasListGenerator(rows))
      && (s.Summary? ==>
            && s.duplicates == |rows| - |Distinct(Column(rows, InputTextOf))|
            && MapSum(s.caseDistribution) == |rows| && MapSum(s.formatDistribution) == |rows|
            && MapSum(s.generatorDistribution) + NaCount(Column(rows, GeneratorOf)) == |rows|
            && (forall k :: k in s.generatorDistribution ==> !IsNa(k) && !k.Bool?)
            && s.placeholderCount <= |rows|)
  {
    DuplicatesBeyondDistinct(Column(rows, InputTextOf));
    CountsSumToLength(Column(rows, CaseOf));
    CountsSumToLength(Column(rows, FormatOf));
    var keys := CountedKeys(Column(rows, GeneratorOf));
    CountedKeysSpec(Column(rows, GeneratorOf));
    CountsSumToLength(keys);
    CountsAreOccurrences(keys);
  }

  /** A `None` generator, which the fallback's metadata can set, gets no entry in the generator distribution. */
  lemma NoneGeneratorNotCounted(rows: seq<Row>)
    requires |rows| > 0 && !HasListGenerator(rows)
    ensures Null !in Summarize(rows).generatorDistribution
  {
    SummaryFacts(rows);
  }

  lemma {:induction false} SumAtLeast(s: seq<nat>, m: nat)
    requires forall i :: 0 <= i < |s| ==> s[i] >= m
    ensures Sum(s) >= m * |s|
    decreases |s|
  {
    if |s| > 0 {
      SumAtLeast(s[..|s| - 1], m);
    }
  }

  /** Validated examples carry at least three criteria each, so the low-average warning never appears for them. */
  lemma ValidExamplesNoCriteriaWarning(examples: seq<DatasetExample>)
    requires |examples| > 0
    requires forall i :: 0 <= i < |examples| ==> DatasetExampleModel.Valid(examples[i])
    ensures var rows := seq(|examples|, i requires 0 <= i < |examples| => RowOf(examples[i]));
      Summarize(rows).Summary? ==> LowAverageCriteria(Summarize(rows).criteriaTotal, |rows|) !in Summarize(rows).warnings
  {
    var rows := seq(|examples|, i requires 0 <= i < |examples| => RowOf(examples[i]));
    SumAtLeast(Column(rows, CriteriaOf), 3);
  }
}
