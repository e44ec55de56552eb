/**
 * Parameter variations for test cases (generation/variation_router.py): the
 * per-case axis tables, the pairwise combinations padded up to a minimum
 * count, and the choice of the 2-3 axes that each combination varies along.
 */
module VariationRouter {
  import opened Base
  import opened Text
  import opened Values

  /** An axis table: axis names with their value domains, in declaration order. */
  type Axes = seq<(string, seq<Value>)>

  function SupportBotAxes(): Axes {
    [("tone", [Str("neutral"), Str("negative"), Str("aggressive")]),
     ("has_order_id", [Bool(true), Bool(false)]),
     ("requires_account_access", [Bool(true), Bool(false)]),
     ("language", [Str("ru"), Str("en")]),
     ("adversarial", [Str("none"), Str("profanity"), Str("injection"), Str("garbage")])]
  }

  function OperatorQualityAxes(): Axes {
    [("phrase_length", [Str("short"), Str("medium"), Str("long")]),
     ("punctuation_errors", [Str("none"), Str("minor"), Str("severe")]),
     ("slang_profanity_emoji", [Str("none"), Str("moderate"), Str("excessive")]),
     ("medical_terms", [Str("none"), Str("present")]),
     ("user_aggression", [Str("neutral"), Str("frustrated"), Str("angry")]),
     ("escalation_needed", [Str("no"), Str("yes")])]
  }

  /** `VARIATION_AXES.get(case)`; doctor_booking reuses the support_bot axes. */
  function VariationAxes(caseName: string): Option<Axes> {
    if caseName == "support_bot" then Some(SupportBotAxes())
    else if caseName == "operator_quality" then Some(OperatorQualityAxes())
    else if caseName == "doctor_booking" then Some(SupportBotAxes())
    else None
  }

  /** The table `generate_variations` works with: an unknown case falls back to support_bot. */
  function AxesFor(caseName: string): Axes {
    VariationAxes(caseName).GetOr(SupportBotAxes())
  }

  lemma UnknownCaseUsesSupportBot(caseName: string)
    requires VariationAxes(caseName).None?
    ensures AxesFor(caseName) == SupportBotAxes()
    ensures caseName !in ["support_bot", "operator_quality", "doctor_booking"]
  {
  }

  function AxisNames(axes: Axes): (r: seq<string>)
    ensures |r| == |axes| && forall i :: 0 <= i < |axes| ==> r[i] == axes[i].0
  {
    seq(|axes|, i requires 0 <= i < |axes| => axes[i].0)
  }

  /** Axis names are distinct and no domain lists a value twice. */
  predicate WellFormedAxes(axes: Axes) {
    Distinct(AxisNames(axes)) && forall i :: 0 <= i < |axes| ==> Distinct(axes[i].1)
  }

  lemma TablesWellFormed(caseName: string)
    ensures WellFormedAxes(AxesFor(caseName))
  {
    var s := SupportBotAxes();
    var o := OperatorQualityAxes();
    assert AxisNames(s) == ["tone", "has_order_id", "requires_account_access", "language", "adversarial"];
    assert AxisNames(o) == ["phrase_length", "punctuation_errors", "slang_profanity_emoji", "medical_terms",
                            "user_aggression", "escalation_needed"];
  }

  // ---------------------------------------------------------------------------
  // The space of combinations

  /** A combination over `axes`: one value from each domain, keyed by the axis names in table order. */
  predicate InDomain(c: Params, axes: Axes) {
    |c| == |axes| && forall i :: 0 <= i < |axes| ==> c[i].0 == axes[i].0 && c[i].1 in axes[i].1
  }

  /** The number of distinct combinations: the product of the domain sizes. */
  function DomainSize(axes: Axes): nat
    decreases |axes|
  {
    if |axes| == 0 then 1 else |axes[0].1| * DomainSize(axes[1..])
  }

  lemma TableSizes()
    ensures DomainSize(SupportBotAxes()) == 96
    ensures DomainSize(OperatorQualityAxes()) == 324
  {
    var s := SupportBotAxes();
    assert DomainSize(s[4..]) == 4;
    assert DomainSize(s[3..]) == 8;
    assert DomainSize(s[2..]) == 16;
    assert DomainSize(s[1..]) == 32;
    var o := OperatorQualityAxes();
    assert DomainSize(o[5..]) == 2;
    assert DomainSize(o[4..]) == 6;
    assert DomainSize(o[3..]) == 12;
    assert DomainSize(o[2..]) == 36;
    assert DomainSize(o[1..]) == 108;
  }

  function Prefixed(name: string, v: Value, tails: seq<Params>): (r: seq<Params>)
    ensures |r| == |tails| && forall i :: 0 <= i < |tails| ==> r[i] == [(name, v)] + tails[i]
  {
    seq(|tails|, i requires 0 <= i < |tails| => [(name, v)] + tails[i])
  }

  /** Every value of one axis in front of every combination of the remaining axes. */
  function Extend(name: string, values: seq<Value>, tails: seq<Params>): seq<Params>
    decreases |values|
  {
    if |values| == 0 then [] else Prefixed(name, values[0], tails) + Extend(name, values[1..], tails)
  }

  /** The Cartesian product of the domains, enumerated. */
  function Product(axes: Axes): seq<Params>
    decreases |axes|
  {
    if |axes| == 0 then [[]] else Extend(axes[0].0, axes[0].1, Product(axes[1..]))
  }

  lemma {:induction false} ExtendLength(name: string, values: seq<Value>, tails: seq<Params>)
    ensures |Extend(name, values, tails)| == |values| * |tails|
    decreases |values|
  {
    if |values| > 0 {
      ExtendLength(name, values[1..], tails);
      assert |values| * |tails| == |tails| + (|values| - 1) * |tails|;
    }
  }

  lemma {:induction false} ProductLength(axes: Axes)
    ensures |Product(axes)| == DomainSize(axes)
    decreases |axes|
  {
    if |axes| > 0 {
      ProductLength(axes[1..]);
      ExtendLength(axes[0].0, axes[0].1, Product(axes[1..]));
    }
  }

  lemma {:induction false} ExtendMember(name: string, values: seq<Value>, tails: seq<Params>, c: Params)
    ensures c in Extend(name, values, tails) <==> |c| >= 1 && c[0] == (name, c[0].1) && c[0].1 in values && c[1..] in tails
    decreases |values|
  {
    if |values| > 0 {
      ExtendMember(name, values[1..], tails, c);
      if c in Prefixed(name, values[0], tails) {
        var i :| 0 <= i < |tails| && c == [(name, values[0])] + tails[i];
        assert c[1..] == tails[i];
      }
      if |c| >= 1 && c[0] == (name, values[0]) && c[1..] in tails {
        var i :| 0 <= i < |tails| && c[1..] == tails[i];
        assert c == [(name, values[0])] + tails[i];
      }
      if |c| >= 1 {
        assert c[0].1 in values <==> c[0].1 == values[0] || c[0].1 in values[1..];
      }
    }
  }

  lemma InDomainCons(c: Params, axes: Axes)
    requires |axes| > 0
    ensures InDomain(c, axes) <==> |c| >= 1 && c[0] == (axes[0].0, c[0].1) && c[0].1 in axes[0].1 && InDomain(c[1..], axes[1..])
  {
    if |c| >= 1 && c[0] == (axes[0].0, c[0].1) && c[0].1 in axes[0].1 && InDomain(c[1..], axes[1..]) {
      forall i | 0 <= i < |axes|
        ensures c[i].0 == axes[i].0 && c[i].1 in axes[i].1
      {
        if i > 0 {
          assert c[i] == c[1..][i - 1] && axes[i] == axes[1..][i - 1];
        }
      }
    }
  }

  /** The enumeration holds exactly the combinations over the domains. */
  lemma {:induction false} ProductMember(axes: Axes, c: Params)
    ensures c in Product(axes) <==> InDomain(c, axes)
    decreases |axes|
  {
    if |axes| > 0 {
      ExtendMember(axes[0].0, axes[0].1, Product(axes[1..]), c);
      if |c| >= 1 {
        ProductMember(axes[1..], c[1..]);
      }
      InDomainCons(c, axes);
    }
  }

  lemma {:induction false} ExtendDistinct(name: string, values: seq<Value>, tails: seq<Params>)
    requires Distinct(values) && Distinct(tails)
    ensures Distinct(Extend(name, values, tails))
    decreases |values|
  {
    if |values| > 0 {
      var head := Prefixed(name, values[0], tails);
      var rest := Extend(name, values[1..], tails);
      ExtendDistinct(name, values[1..], tails);
      forall i, j | 0 <= i < j < |head|
        ensures head[i] != head[j]
      {
        assert head[i][1..] == tails[i] && head[j][1..] == tails[j];
      }
      forall c | c in head
        ensures c !in rest
      {
        ExtendMember(name, values[1..], tails, c);
        assert c[0] == (name, values[0]);
        assert values[0] !in values[1..];
      }
      DistinctConcat(head, rest);
    }
  }

  lemma {:induction false} ProductDistinct(axes: Axes)
    requires forall i :: 0 <= i < |axes| ==> Distinct(axes[i].1)
    ensures Distinct(Product(axes))
    decreases |axes|
  {
    if |axes| > 0 {
      assert forall i :: 0 <= i < |axes| - 1 ==> axes[1..][i] == axes[i + 1];
      ProductDistinct(axes[1..]);
      ExtendDistinct(axes[0].0, axes[0].1, Product(axes[1..]));
    }
  }

  /** Pigeonhole: a list shorter than the domain misses some combination. */
  lemma MissingCombination(combos: seq<Params>, axes: Axes)
    requires WellFormedAxes(axes)
    requires |combos| < DomainSize(axes)
    ensures exists c :: c in Product(axes) && c !in combos
  {
    ProductLength(axes);
    ProductDistinct(axes);
    ElementsAtMostLength(combos);
    ElementsAtMostLength(Product(axes));
    if Elements(Product(axes)) <= Elements(combos) {
      SubsetCardinality(Elements(Product(axes)), Elements(combos));
      assert false;
    }
  }

  /** Pigeonhole the other way: distinct combinations over the domains number at most the domain size. */
  lemma DistinctCombinationsBounded(combos: seq<Params>, axes: Axes)
    requires forall i :: 0 <= i < |combos| ==> InDomain(combos[i], axes)
    requires Distinct(combos)
    ensures |combos| <= DomainSize(axes)
    ensures |combos| == DomainSize(axes) ==> forall c :: InDomain(c, axes) ==> c in combos
  {
    ProductLength(axes);
    ElementsAtMostLength(combos);
    ElementsAtMostLength(Product(axes));
    forall c | c in Elements(combos)
      ensures c in Elements(Product(axes))
    {
      ProductMember(axes, c);
    }
    SubsetCardinality(Elements(combos), Elements(Product(axes)));
    if |combos| == DomainSize(axes) {
      forall c | InDomain(c, axes)
        ensures c in combos
      {
        ProductMember(axes, c);
        assert c in Elements(Product(axes));
      }
    }
  }

  // ---------------------------------------------------------------------------
  // Choosing the variation axes of one combination

  /** The `defaults` table of `_select_variation_axes`. */
  function Defaults(): Params {
    [("tone", Str("neutral")), ("has_order_id", Bool(true)), ("requires_account_access", Bool(false)),
     ("language", Str("ru")), ("adversarial", Str("none")), ("phrase_length", Str("medium")),
     ("punctuation_errors", Str("none")), ("slang_profanity_emoji", Str("none")), ("medical_terms", Str("none")),
     ("user_aggression", Str("neutral")), ("escalation_needed", Str("no"))]
  }

  /** The significance order used when more than three axes are non-default. */
  function Priority(): seq<string> {
    ["adversarial", "escalation_needed", "user_aggression", "tone", "punctuation_errors",
     "slang_profanity_emoji", "requires_account_access"]
  }

  /** The axes tried, in order, when fewer than two are non-default. */
  function PaddingAxes(caseName: string): seq<string> {
    if caseName == "support_bot" then ["tone", "adversarial"] else ["punctuation_errors", "user_aggression"]
  }

  /** The key has a default and the value differs from it (Python `!=`). */
  predicate IsNonDefault(entry: (string, Value)) {
    var d := Get(Defaults(), entry.0);
    d.Some? && !PyEq(entry.1, d.value)
  }

  function NonDefaultKey(entry: (string, Value)): seq<string> {
    if IsNonDefault(entry) then [entry.0] else []
  }

  /** The non-default axes, in the dict's key order. */
  function NonDefaultAxes(p: Params): seq<string> {
    ConcatMap(p, NonDefaultKey)
  }

  predicate IsPaddingCandidate(axis: string, context: (seq<string>, Params)) {
    axis !in context.0 && HasKey(context.1, axis)
  }

  /** The padding axes not already chosen and present in the dict. */
  function PaddingCandidates(chosen: seq<string>, p: Params, caseName: string): seq<string> {
    FilterWith(PaddingAxes(caseName), (chosen, p), IsPaddingCandidate)
  }

  predicate Among(x: string, s: seq<string>) { x in s }
  predicate NotAmong(x: string, s: seq<string>) { x !in s }

  /** The priority axes that are non-default, in priority order. */
  function PriorityHits(chosen: seq<string>): seq<string> {
    FilterWith(Priority(), chosen, Among)
  }

  /** `acc` followed by the items of `s` not yet present, each added once. */
  function AppendMissing(acc: seq<string>, s: seq<string>): seq<string>
    decreases |s|
  {
    if |s| == 0 then acc
    else
      var r := AppendMissing(acc, s[..|s| - 1]);
      if s[|s| - 1] in r then r else r + [s[|s| - 1]]
  }

  /** `_select_variation_axes`. */
  function SelectAxes(p: Params, caseName: string): seq<string> {
    var chosen := NonDefaultAxes(p);
    if 2 <= |chosen| <= 3 then chosen
    else if |chosen| < 2 then chosen + Take(PaddingCandidates(chosen, p, caseName), 2 - |chosen|)
    else Take(AppendMissing(PriorityHits(chosen), chosen), 3)
  }

  lemma NonDefaultMember(p: Params, x: string)
    ensures x in NonDefaultAxes(p) <==> exists i :: 0 <= i < |p| && p[i].0 == x && IsNonDefault(p[i])
  {
    ConcatMapMember(p, NonDefaultKey, x);
    assert forall i :: 0 <= i < |p| ==> (x in NonDefaultKey(p[i]) <==> p[i].0 == x && IsNonDefault(p[i]));
  }

  lemma NonDefaultAreKeys(p: Params)
    ensures forall x :: x in NonDefaultAxes(p) ==> HasKey(p, x)
  {
    forall x | x in NonDefaultAxes(p)
      ensures HasKey(p, x)
    {
      NonDefaultMember(p, x);
      var i :| 0 <= i < |p| && p[i].0 == x && IsNonDefault(p[i]);
      assert Keys(p)[i] == x;
    }
  }

  lemma {:induction false} NonDefaultDistinct(p: Params)
    requires DistinctKeys(p)
    ensures Distinct(NonDefaultAxes(p))
    decreases |p|
  {
    if |p| > 0 {
      var init := p[..|p| - 1];
      NonDefaultDistinct(init);
      NonDefaultMember(init, p[|p| - 1].0);
    }
  }

  lemma {:induction false} AppendMissingMember(acc: seq<string>, s: seq<string>, x: string)
    ensures x in AppendMissing(acc, s) <==> x in acc || x in s
    ensures |AppendMissing(acc, s)| >= |acc| && AppendMissing(acc, s)[..|acc|] == acc
    decreases |s|
  {
    if |s| > 0 {
      AppendMissingMember(acc, s[..|s| - 1], x);
      assert s == s[..|s| - 1] + [s[|s| - 1]];
      var r := AppendMissing(acc, s[..|s| - 1]);
      AppendMissingMember(acc, s[..|s| - 1], s[|s| - 1]);
      assert (r + [s[|s| - 1]])[..|acc|] == r[..|acc|];
    }
  }

  /** For a list without repeats, the second loop appends exactly the items that are not priority axes, in order. */
  lemma {:induction false} AppendMissingIsFilter(acc: seq<string>, s: seq<string>)
    requires Distinct(s)
    ensures AppendMissing(acc, s) == acc + FilterWith(s, acc, NotAmong)
    decreases |s|
  {
    if |s| > 0 {
      var init := s[..|s| - 1];
      var x := s[|s| - 1];
      AppendMissingIsFilter(acc, init);
      FilterWithMember(init, acc, NotAmong, x);
      assert x !in init;
    }
  }

  lemma SelectAxesShape(p: Params, caseName: string)
    ensures |SelectAxes(p, caseName)| <= 3
    ensures forall x :: x in SelectAxes(p, caseName) ==> HasKey(p, x)
  {
    var chosen := NonDefaultAxes(p);
    NonDefaultAreKeys(p);
    var r := SelectAxes(p, caseName);
    forall x | x in r
      ensures HasKey(p, x)
    {
      if |chosen| < 2 {
        var cands := PaddingCandidates(chosen, p, caseName);
        var taken := Take(cands, 2 - |chosen|);
        if x in taken {
          assert x in cands;
          FilterWithMember(PaddingAxes(caseName), (chosen, p), IsPaddingCandidate, x);
        }
      } else if |chosen| > 3 {
        var sorted := AppendMissing(PriorityHits(chosen), chosen);
        assert x in sorted;
        AppendMissingMember(PriorityHits(chosen), chosen, x);
        FilterWithMember(Priority(), chosen, Among, x);
      }
    }
  }

  /** Two or three non-default axes are returned as they are, in key order. */
  lemma SelectKeepsTwoOrThree(p: Params, caseName: string)
    requires 2 <= |NonDefaultAxes(p)| <= 3
    ensures SelectAxes(p, caseName) == NonDefaultAxes(p)
    ensures forall x :: x in SelectAxes(p, caseName) <==> exists i :: 0 <= i < |p| && p[i].0 == x && IsNonDefault(p[i])
  {
    forall x
      ensures x in SelectAxes(p, caseName) <==> exists i :: 0 <= i < |p| && p[i].0 == x && IsNonDefault(p[i])
    {
      NonDefaultMember(p, x);
    }
  }

  /**
   * More than three non-default axes: the first three of the priority axes
   * among them (in priority order) followed by the others (in key order).
   */
  lemma SelectByPriority(p: Params, caseName: string)
    requires DistinctKeys(p)
    requires |NonDefaultAxes(p)| > 3
    ensures var chosen := NonDefaultAxes(p);
            SelectAxes(p, caseName) == Take(PriorityHits(chosen) + FilterWith(chosen, PriorityHits(chosen), NotAmong), 3)
    ensures var chosen := NonDefaultAxes(p);
            forall x :: x in PriorityHits(chosen) <==> x in Priority() && x in chosen
    ensures var chosen := NonDefaultAxes(p);
            forall x :: x in FilterWith(chosen, PriorityHits(chosen), NotAmong) <==> x in chosen && x !in Priority()
  {
    var chosen := NonDefaultAxes(p);
    NonDefaultDistinct(p);
    AppendMissingIsFilter(PriorityHits(chosen), chosen);
    forall x
      ensures x in PriorityHits(chosen) <==> x in Priority() && x in chosen
      ensures x in FilterWith(chosen, PriorityHits(chosen), NotAmong) <==> x in chosen && x !in Priority()
    {
      FilterWithMember(Priority(), chosen, Among, x);
      FilterWithMember(chosen, PriorityHits(chosen), NotAmong, x);
    }
  }

  /**
   * Fewer than two non-default axes: the padding axes that are keys of the dict
   * are added after them until there are two; when both padding axes are keys
   * the result has exactly two axes.
   */
  lemma SelectPadded(p: Params, caseName: string)
    requires |NonDefaultAxes(p)| < 2
    ensures var chosen := NonDefaultAxes(p);
            SelectAxes(p, caseName)[..|chosen|] == chosen
    ensures (forall a :: a in PaddingAxes(caseName) ==> HasKey(p, a)) ==> |SelectAxes(p, caseName)| == 2
  {
    var chosen := NonDefaultAxes(p);
    var pad := PaddingAxes(caseName);
    var cands := PaddingCandidates(chosen, p, caseName);
    assert (chosen + Take(cands, 2 - |chosen|))[..|chosen|] == chosen;
    if forall a :: a in pad ==> HasKey(p, a) {
      assert pad == [pad[0]] + [pad[1]];
      FilterWithAppend([pad[0]], [pad[1]], (chosen, p), IsPaddingCandidate);
      assert FilterWith([pad[0]], (chosen, p), IsPaddingCandidate) == FilterWith([], (chosen, p), IsPaddingCandidate) + (if IsPaddingCandidate(pad[0], (chosen, p)) then [pad[0]] else []);
      assert FilterWith([pad[1]], (chosen, p), IsPaddingCandidate) == FilterWith([], (chosen, p), IsPaddingCandidate) + (if IsPaddingCandidate(pad[1], (chosen, p)) then [pad[1]] else []);
      assert |cands| >= 2 - |chosen|;
    }
  }

  /** The keys of `c` are the axis names of the table, in order. */
  predicate KeyedBy(c: Params, axes: Axes) {
    Keys(c) == AxisNames(axes)
  }

  /**
   * For the support_bot and operator_quality tables, any dict keyed by the
   * table's axes gets 2 or 3 axes.
   */
  /** A dict holding both padding axes always gets 2 or 3 axes. */
  lemma SelectTwoOrThree(c: Params, caseName: string)
    requires DistinctKeys(c)
    requires forall a :: a in PaddingAxes(caseName) ==> HasKey(c, a)
    ensures 2 <= |SelectAxes(c, caseName)| <= 3
  {
    SelectAxesShape(c, caseName);
    var chosen := NonDefaultAxes(c);
    if |chosen| < 2 {
      SelectPadded(c, caseName);
    } else if |chosen| > 3 {
      NonDefaultDistinct(c);
      var hits := PriorityHits(chosen);
      forall x | x in hits
        ensures x in chosen
      {
        FilterWithMember(Priority(), chosen, Among, x);
      }
      AppendMissingLength(hits, chosen);
    }
  }

  /**
   * For the support_bot and operator_quality tables, any dict keyed by the
   * table's axes gets 2 or 3 axes.
   */
  lemma FullTablesSelectTwoOrThree(c: Params, caseName: string)
    requires caseName == "support_bot" || caseName == "operator_quality"
    requires KeyedBy(c, AxesFor(caseName))
    ensures 2 <= |SelectAxes(c, caseName)| <= 3
  {
    var names := AxisNames(AxesFor(caseName));
    TablesWellFormed(caseName);
    assert DistinctKeys(c) by {
      forall i, j | 0 <= i < j < |c|
        ensures c[i].0 != c[j].0
      {
        assert Keys(c)[i] == names[i] && Keys(c)[j] == names[j];
      }
    }
    if caseName == "support_bot" {
      assert names[0] == "tone" && names[4] == "adversarial";
      assert Keys(c)[0] == "tone" && Keys(c)[4] == "adversarial";
    } else {
      assert names[1] == "punctuation_errors" && names[4] == "user_aggression";
      assert Keys(c)[1] == "punctuation_errors" && Keys(c)[4] == "user_aggression";
    }
    SelectTwoOrThree(c, caseName);
  }

  lemma {:induction false} AppendMissingLength(acc: seq<string>, s: seq<string>)
    ensures |AppendMissing(acc, s)| >= |acc|
    ensures Distinct(s) && (forall x :: x in acc ==> x in s) ==> |AppendMissing(acc, s)| >= |s|
    decreases |s|
  {
    if |s| > 0 {
      AppendMissingLength(acc, s[..|s| - 1]);
      if Distinct(s) && (forall x :: x in acc ==> x in s) {
        var init := s[..|s| - 1];
        var r := AppendMissing(acc, init);
        var x := s[|s| - 1];
        forall y | y in r
          ensures y in init || y == x
        {
          AppendMissingMember(acc, init, y);
        }
        if x in r {
          // every item of s is in r, and r holds no item outside s
          forall y | y in s
            ensures y in r
          {
            AppendMissingMember(acc, init, y);
          }
        }
        AppendMissingBounded(acc, s, r);
      }
    }
  }

  /** Helper for the length bound: the result of the first |s|-1 steps covers `acc`, or the last item is new. */
  lemma AppendMissingBounded(acc: seq<string>, s: seq<string>, r: seq<string>)
    requires |s| > 0 && Distinct(s) && (forall x :: x in acc ==> x in s)
    requires r == AppendMissing(acc, s[..|s| - 1])
    ensures |AppendMissing(acc, s)| >= |s|
  {
    var init := s[..|s| - 1];
    var x := s[|s| - 1];
    var full := AppendMissing(acc, s);
    forall y | y in s
      ensures y in full
    {
      AppendMissingMember(acc, s, y);
    }
    ElementsAtMostLength(full);
    ElementsAtMostLength(s);
    assert Elements(s) <= Elements(full);
    SubsetCardinality(Elements(s), Elements(full));
  }

  /** No non-default axis and no padding axis among the keys: nothing is selected. */
  lemma SelectNoneWhenUnpaddable(c: Params, caseName: string)
    requires NonDefaultAxes(c) == []
    requires forall a :: a in PaddingAxes(caseName) ==> !HasKey(c, a)
    ensures SelectAxes(c, caseName) == []
  {
    var cands := PaddingCandidates([], c, caseName);
    if |cands| > 0 {
      FilterWithMember(PaddingAxes(caseName), ([], c), IsPaddingCandidate, cands[0]);
      assert false;
    }
  }

  /** No support_bot axis is named like one of the operator_quality padding axes. */
  lemma SupportBotLacksPaddingAxes(c: Params, caseName: string)
    requires caseName != "support_bot"
    requires KeyedBy(c, SupportBotAxes())
    ensures forall a :: a in PaddingAxes(caseName) ==> !HasKey(c, a)
  {
    var t := SupportBotAxes();
    forall i | 0 <= i < |t|
      ensures |t[i].0| != |"punctuation_errors"| && |t[i].0| != |"user_aggression"|
    {
    }
  }

  /**
   * A doctor_booking dict (or one of an unknown case, which also uses the
   * support_bot table) with default values everywhere gets no axes at all:
   * the padding axes of those cases are operator_quality axes the dict lacks.
   */
  lemma DoctorBookingCanSelectNone(c: Params, caseName: string)
    requires caseName != "support_bot" && caseName != "operator_quality"
    requires KeyedBy(c, SupportBotAxes())
    requires forall i :: 0 <= i < |c| ==> !IsNonDefault(c[i])
    ensures SelectAxes(c, caseName) == []
  {
    assert forall i :: 0 <= i < |c| ==> NonDefaultKey(c[i]) == [];
    ConcatMapEmpty(c, NonDefaultKey);
    SupportBotLacksPaddingAxes(c, caseName);
    SelectNoneWhenUnpaddable(c, caseName);
  }

  // ---------------------------------------------------------------------------
  // generate_variations

  /** A returned dict: the combination plus the `_variation_axes` entry; `None` once the entry has been popped. */
  datatype Variation = Variation(params: Params, variationAxes: Option<seq<string>>)

  /** The dict as Python holds it. */
  function AsDict(v: Variation): Params {
    v.params + (if v.variationAxes.Some? then [("_variation_axes", StrList(v.variationAxes.value))] else [])
  }

  /** `{axis_names[i]: combination[i] for i in range(len(axis_names))}` */
  function Zip(names: seq<string>, combination: seq<Value>): (r: Params)
    requires |combination| >= |names|
  {
    seq(|names|, i requires 0 <= i < |names| => (names[i], combination[i]))
  }

  /** No combination is too short for the comprehension (a shorter one raises IndexError). */
  predicate CombinationsFit(combinations: seq<seq<Value>>, names: seq<string>) {
    forall i :: 0 <= i < |combinations| ==> |combinations[i]| >= |names|
  }

  function ZipAll(names: seq<string>, combinations: seq<seq<Value>>): (r: seq<Params>)
    requires CombinationsFit(combinations, names)
  {
    seq(|combinations|, i requires 0 <= i < |combinations| => Zip(names, combinations[i]))
  }

  /** `combos` is `pairwise` followed by new combinations over the domains, up to `target` entries. */
  predicate PaddedFrom(pairwise: seq<Params>, combos: seq<Params>, axes: Axes, target: int) {
    |combos| == Max(|pairwise|, target) && combos[..|pairwise|] == pairwise
    && forall i :: |pairwise| <= i < |combos| ==> InDomain(combos[i], axes) && combos[i] !in combos[..i]
  }

  function Enriched(c: Params, caseName: string): Variation {
    Variation(c, Some(SelectAxes(c, caseName)))
  }

  /** The first loop: one dict per pairwise combination. */
  method ZipCombinations(names: seq<string>, combinations: seq<seq<Value>>) returns (r: Result<seq<Params>>)
    ensures r.Ok? <==> CombinationsFit(combinations, names)
    ensures r.Ok? ==> r.value == ZipAll(names, combinations)
  {
    var dicts: seq<Params> := [];
    var i := 0;
    while i < |combinations|
      invariant 0 <= i <= |combinations|
      invariant CombinationsFit(combinations[..i], names)
      invariant |dicts| == i && forall k :: 0 <= k < i ==> dicts[k] == Zip(names, combinations[k])
    {
      if |combinations[i]| < |names| {
        return Err("list index out of range");
      }
      dicts := dicts + [Zip(names, combinations[i])];
      i := i + 1;
    }
    assert combinations[..i] == combinations;
    return Ok(dicts);
  }

  /**
   * The padding loop, with every iteration that draws a duplicate left out:
   * each remaining iteration adds one combination not yet present.
   */
  method PadCombinations(axes: Axes, pairwise: seq<Params>, target: int) returns (combos: seq<Params>)
    requires WellFormedAxes(axes)
    requires target <= DomainSize(axes)
    ensures PaddedFrom(pairwise, combos, axes, target)
  {
    combos := pairwise;
    while |combos| < target
      invariant |pairwise| <= |combos| <= Max(|pairwise|, target)
      invariant combos[..|pairwise|] == pairwise
      invariant forall i :: |pairwise| <= i < |combos| ==> InDomain(combos[i], axes) && combos[i] !in combos[..i]
      decreases target - |combos|
    {
      MissingCombination(combos, axes);
      var draw :| draw in Product(axes) && draw !in combos;
      ProductMember(axes, draw);
      assert (combos + [draw])[..|combos|] == combos;
      combos := combos + [draw];
    }
  }

  function EnrichOne(c: Params, caseName: string): seq<Variation> {
    [Enriched(c, caseName)]
  }

  /** The returned list: every combination with its `_variation_axes` entry, in order. */
  function Enrich(combos: seq<Params>, caseName: string): seq<Variation> {
    ConcatMapWith(combos, caseName, EnrichOne)
  }

  lemma {:induction false} EnrichAt(combos: seq<Params>, caseName: string, i: nat)
    requires i < |combos|
    ensures |Enrich(combos, caseName)| == |combos|
    ensures Enrich(combos, caseName)[i] == Enriched(combos[i], caseName)
    decreases |combos|
  {
    assert forall c :: |EnrichOne(c, caseName)| == 1;
    ConcatMapWithSingles(combos, caseName, EnrichOne, i);
  }

  /** The enrichment loop: each combination with its selected axes. */
  method EnrichAll(combos: seq<Params>, caseName: string) returns (r: seq<Variation>)
    ensures r == Enrich(combos, caseName)
  {
    r := [];
    var i := 0;
    while i < |combos|
      invariant 0 <= i <= |combos|
      invariant r == ConcatMapWith(combos[..i], caseName, EnrichOne)
    {
      var axes := SelectVariationAxes(combos[i], caseName);
      ConcatMapWithStep(combos, i, caseName, EnrichOne);
      r := r + [Variation(combos[i], Some(axes))];
      i := i + 1;
    }
    assert combos[..i] == combos;
  }

  /**
   * `generate_variations`, with the padding target capped at the number of
   * distinct combinations. `allPairs` is what `AllPairs` yields (`None` when
   * it raises).
   */
  method GenerateVariations(caseName: string, minTestCases: int, allPairs: Option<seq<seq<Value>>>)
    returns (r: Result<seq<Variation>>, ghost combos: seq<Params>)
    ensures r.Ok? <==> allPairs.Some? && CombinationsFit(allPairs.value, AxisNames(AxesFor(caseName)))
    ensures r.Ok? ==>
      var axes := AxesFor(caseName);
      PaddedFrom(ZipAll(AxisNames(axes), allPairs.value), combos, axes, Min(minTestCases, DomainSize(axes)))
      && r.value == Enrich(combos, caseName)
  {
    combos := [];
    var axes := AxesFor(caseName);
    if allPairs.None? {
      return Err("AllPairs failed"), combos;
    }
    var names := AxisNames(axes);
    var pairwise := ZipCombinations(names, allPairs.value);
    if pairwise.Err? {
      return Err(pairwise.error), combos;
    }
    TablesWellFormed(caseName);
    var padded := PadCombinations(axes, pairwise.value, Min(minTestCases, DomainSize(axes)));
    combos := padded;
    var variations := EnrichAll(padded, caseName);
    return Ok(variations), combos;
  }

  /** Once padded, there are at least `min_test_cases` combinations whenever that many exist. */
  lemma PaddingReachesMinimum(pairwise: seq<Params>, combos: seq<Params>, axes: Axes, minTestCases: int)
    requires PaddedFrom(pairwise, combos, axes, Min(minTestCases, DomainSize(axes)))
    ensures |combos| >= |pairwise|
    ensures minTestCases <= DomainSize(axes) ==> |combos| >= minTestCases
    ensures |pairwise| < minTestCases <= DomainSize(axes) ==> |combos| == minTestCases
  {
  }

  /** Padded combinations differ from every earlier one, the pairwise ones included. */
  lemma PaddedAreNew(pairwise: seq<Params>, combos: seq<Params>, axes: Axes, target: int, i: int, j: int)
    requires PaddedFrom(pairwise, combos, axes, target)
    requires 0 <= j < i < |combos| && |pairwise| <= i
    ensures combos[i] != combos[j]
    ensures j < |pairwise| ==> combos[i] != pairwise[j]
  {
    assert combos[j] in combos[..i];
  }

  /**
   * Each returned dict is its combination plus exactly one more key,
   * `_variation_axes`, which no axis name of the table shadows.
   */
  lemma EnrichedDict(c: Params, axes: seq<string>, caseName: string)
    requires KeyedBy(c, AxesFor(caseName))
    ensures AsDict(Variation(c, Some(axes)))[..|c|] == c
    ensures |AsDict(Variation(c, Some(axes)))| == |c| + 1
    ensures AsDict(Variation(c, Some(axes)))[|c|].0 == "_variation_axes"
    ensures !HasKey(c, "_variation_axes")
  {
    TablesWellFormed(caseName);
    var names := AxisNames(AxesFor(caseName));
    assert Keys(c) == names;
    assert "_variation_axes" !in names by {
      if caseName == "operator_quality" {
        assert names == ["phrase_length", "punctuation_errors", "slang_profanity_emoji", "medical_terms",
                         "user_aggression", "escalation_needed"];
      } else {
        assert names == ["tone", "has_order_id", "requires_account_access", "language", "adversarial"];
      }
    }
  }

  /** Every padded combination, pairwise or drawn, is keyed by the table's axis names. */
  lemma PaddedKeyed(axes: Axes, allPairs: seq<seq<Value>>, combos: seq<Params>, target: int, i: int)
    requires CombinationsFit(allPairs, AxisNames(axes))
    requires PaddedFrom(ZipAll(AxisNames(axes), allPairs), combos, axes, target)
    requires 0 <= i < |combos|
    ensures KeyedBy(combos[i], axes)
  {
    var pairwise := ZipAll(AxisNames(axes), allPairs);
    if i < |pairwise| {
      assert combos[i] == combos[..|pairwise|][i] == pairwise[i];
    } else {
      assert InDomain(combos[i], axes);
    }
  }

  /** For the support_bot and operator_quality tables every variation carries 2 or 3 axes. */
  lemma VariationAxesCount(caseName: string, minTestCases: int, allPairs: seq<seq<Value>>, combos: seq<Params>)
    requires caseName == "support_bot" || caseName == "operator_quality"
    requires CombinationsFit(allPairs, AxisNames(AxesFor(caseName)))
    requires PaddedFrom(ZipAll(AxisNames(AxesFor(caseName)), allPairs), combos, AxesFor(caseName),
                        Min(minTestCases, DomainSize(AxesFor(caseName))))
    ensures var vs := Enrich(combos, caseName);
            |vs| == |combos| && forall i :: 0 <= i < |vs| ==> vs[i].variationAxes.Some? && 2 <= |vs[i].variationAxes.value| <= 3
  {
    var axes := AxesFor(caseName);
    var vs := Enrich(combos, caseName);
    if |combos| > 0 {
      EnrichAt(combos, caseName, 0);
    }
    forall i | 0 <= i < |vs|
      ensures vs[i].variationAxes.Some? && 2 <= |vs[i].variationAxes.value| <= 3
    {
      EnrichAt(combos, caseName, i);
      PaddedKeyed(axes, allPairs, combos, Min(minTestCases, DomainSize(axes)), i);
      FullTablesSelectTwoOrThree(combos[i], caseName);
    }
  }

  // ---------------------------------------------------------------------------
  // The padding loop as written

  /** One iteration of the uncapped loop: the drawn combination is appended unless already present. */
  function AsWrittenPadStep(combos: seq<Params>, draw: Params): seq<Params> {
    if draw in combos then combos else combos + [draw]
  }

  /**
   * The uncapped loop runs while fewer than `min_test_cases` combinations are
   * held. Distinct combinations over the domains never exceed the domain size,
   * and once all are present every draw is a duplicate, so with more than 96
   * (support_bot) or 324 (operator_quality) requested the loop never exits.
   */
  lemma AsWrittenPaddingNeverExits(caseName: string, combos: seq<Params>, minTestCases: int, draw: Params)
    requires forall i :: 0 <= i < |combos| ==> InDomain(combos[i], AxesFor(caseName))
    requires Distinct(combos)
    requires minTestCases > DomainSize(AxesFor(caseName))
    requires InDomain(draw, AxesFor(caseName))
    ensures |combos| < minTestCases
    ensures |combos| == DomainSize(AxesFor(caseName)) ==> AsWrittenPadStep(combos, draw) == combos
  {
    DistinctCombinationsBounded(combos, AxesFor(caseName));
  }

  /** The padded list of the uncapped loop also stays free of repeats (the precondition above holds throughout). */
  lemma AsWrittenPadStepKeepsDistinct(combos: seq<Params>, draw: Params)
    requires Distinct(combos)
    ensures Distinct(AsWrittenPadStep(combos, draw))
    ensures |AsWrittenPadStep(combos, draw)| <= |combos| + 1
  {
  }

  /** A concrete input: support_bot with `min_test_cases` 97. */
  lemma AsWrittenSupportBot97()
    ensures DomainSize(AxesFor("support_bot")) == 96 < 97
  {
    TableSizes();
  }

  // ---------------------------------------------------------------------------
  // _select_variation_axes, with its loops

  method CollectNonDefaultAxes(p: Params) returns (r: seq<string>)
    ensures r == NonDefaultAxes(p)
  {
    r := [];
    var i := 0;
    while i < |p|
      invariant 0 <= i <= |p|
      invariant r == ConcatMap(p[..i], NonDefaultKey)
    {
      var (key, value) := p[i];
      var d := Get(Defaults(), key);
      if d.Some? && !PyEq(value, d.value) {
        r := r + [key];
      }
      ConcatMapStep(p, i, NonDefaultKey);
      i := i + 1;
    }
    assert p[..i] == p;
  }

  /** One pass of the padding loop: the test the loop makes is the candidate test, and the filter grows by it. */
  lemma PadStep(pad: seq<string>, j: nat, chosen: seq<string>, p: Params, r: seq<string>)
    requires Distinct(pad) && j < |pad|
    requires r == chosen + FilterWith(pad[..j], (chosen, p), IsPaddingCandidate)
    ensures (pad[j] !in r && HasKey(p, pad[j])) == IsPaddingCandidate(pad[j], (chosen, p))
    ensures FilterWith(pad[..j + 1], (chosen, p), IsPaddingCandidate)
            == FilterWith(pad[..j], (chosen, p), IsPaddingCandidate) + (if IsPaddingCandidate(pad[j], (chosen, p)) then [pad[j]] else [])
  {
    FilterWithMember(pad[..j], (chosen, p), IsPaddingCandidate, pad[j]);
    FilterWithStep(pad, j, (chosen, p), IsPaddingCandidate);
  }

  /** Leaving the padding loop at `break`: the axes taken so far are the first ones the filter keeps. */
  lemma PadBreak(pad: seq<string>, j: nat, chosen: seq<string>, p: Params, r: seq<string>)
    requires j < |pad| && |chosen| <= 2
    requires r == chosen + FilterWith(pad[..j + 1], (chosen, p), IsPaddingCandidate)
    requires |r| == 2
    ensures r == chosen + Take(FilterWith(pad, (chosen, p), IsPaddingCandidate), 2 - |chosen|)
  {
    var head := FilterWith(pad[..j + 1], (chosen, p), IsPaddingCandidate);
    assert pad == pad[..j + 1] + pad[j + 1..];
    FilterWithAppend(pad[..j + 1], pad[j + 1..], (chosen, p), IsPaddingCandidate);
    var all := FilterWith(pad, (chosen, p), IsPaddingCandidate);
    assert all[..|head|] == head;
  }

  method PadWithDefaultAxes(chosen: seq<string>, p: Params, caseName: string) returns (r: seq<string>)
    requires |chosen| < 2
    ensures r == chosen + Take(PaddingCandidates(chosen, p, caseName), 2 - |chosen|)
  {
    var defaultAxes: seq<string>;
    if caseName == "support_bot" {
      defaultAxes := ["tone", "adversarial"];
    } else {
      defaultAxes := ["punctuation_errors", "user_aggression"];
    }
    assert defaultAxes == PaddingAxes(caseName) && Distinct(defaultAxes);
    r := chosen;
    var j := 0;
    while j < |defaultAxes|
      invariant 0 <= j <= |defaultAxes|
      invariant r == chosen + FilterWith(defaultAxes[..j], (chosen, p), IsPaddingCandidate)
      invariant |r| < 2
    {
      var axis := defaultAxes[j];
      PadStep(defaultAxes, j, chosen, p, r);
      if axis !in r && HasKey(p, axis) {
        r := r + [axis];
        if |r| >= 2 {
          PadBreak(defaultAxes, j, chosen, p, r);
          break;
        }
      }
      j := j + 1;
    }
    if |r| < 2 {
      assert defaultAxes[..j] == defaultAxes;
    }
  }

  method SortByPriority(chosen: seq<string>) returns (r: seq<string>)
    ensures r == Take(AppendMissing(PriorityHits(chosen), chosen), 3)
  {
    var priority := Priority();
    var sorted: seq<string> := [];
    var k := 0;
    while k < |priority|
      invariant 0 <= k <= |priority|
      invariant sorted == FilterWith(priority[..k], chosen, Among)
    {
      FilterWithStep(priority, k, chosen, Among);
      if priority[k] in chosen {
        sorted := sorted + [priority[k]];
      }
      k := k + 1;
    }
    assert priority[..k] == priority;
    ghost var hits := sorted;
    var j := 0;
    while j < |chosen|
      invariant 0 <= j <= |chosen|
      invariant sorted == AppendMissing(hits, chosen[..j])
    {
      assert chosen[..j + 1][..j] == chosen[..j];
      if chosen[j] !in sorted {
        sorted := sorted + [chosen[j]];
      }
      j := j + 1;
    }
    assert chosen[..j] == chosen;
    r := Take(sorted, 3);
  }

  /** `_select_variation_axes`, loop by loop. */
  method SelectVariationAxes(parameters: Params, caseName: string) returns (r: seq<string>)
    ensures r == SelectAxes(parameters, caseName)
  {
    var chosen := CollectNonDefaultAxes(parameters);
    if 2 <= |chosen| <= 3 {
      return chosen;
    }
    var nonDefault := chosen;
    if |nonDefault| < 2 {
      nonDefault := PadWithDefaultAxes(nonDefault, parameters, caseName);
    }
    if |nonDefault| > 3 {
      nonDefault := SortByPriority(nonDefault);
    }
    r := Take(nonDefault, 3);
  }
}
