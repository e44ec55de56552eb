/** Result and Option values shared by every module of the model. */
module Base {
  datatype Option<T> = None | Some(value: T) {
    /** `d.get(key, default)` once the lookup has been done. */
    function GetOr(default: T): T { if Some? then value else default }
  }

  /** `Err` stands for a raised exception; its text is the exception message. */
  datatype Result<T> = Ok(value: T) | Err(error: string)

  function Min(a: int, b: int): int { if a <= b then a else b }
  function Max(a: int, b: int): int { if a >= b then a else b }

  /** The concatenation of `f(x)` over the items of `s`, in order: a loop that appends zero or more entries per item. */
  function ConcatMap<T, U>(s: seq<T>, f: T -> seq<U>): seq<U>
    decreases |s|
  {
    if |s| == 0 then [] else ConcatMap(s[..|s| - 1], f) + f(s[|s| - 1])
  }

  /** `ConcatMap` where each step also sees a fixed context value `p`. */
  function ConcatMapWith<T, P, U>(s: seq<T>, p: P, f: (T, P) -> seq<U>): seq<U>
    decreases |s|
  {
    if |s| == 0 then [] else ConcatMapWith(s[..|s| - 1], p, f) + f(s[|s| - 1], p)
  }

  lemma ConcatMapStep<T, U>(s: seq<T>, i: nat, f: T -> seq<U>)
    requires i < |s|
    ensures ConcatMap(s[..i + 1], f) == ConcatMap(s[..i], f) + f(s[i])
  {
    assert s[..i + 1][..i] == s[..i];
  }

  lemma ConcatMapWithStep<T, P, U>(s: seq<T>, i: nat, p: P, f: (T, P) -> seq<U>)
    requires i < |s|
    ensures ConcatMapWith(s[..i + 1], p, f) == ConcatMapWith(s[..i], p, f) + f(s[i], p)
  {
    assert s[..i + 1][..i] == s[..i];
  }

  /** The items of a prefix contribute a prefix of the whole. */
  lemma {:induction false} ConcatMapPrefix<T, U>(s: seq<T>, n: nat, f: T -> seq<U>)
    requires n <= |s|
    ensures ConcatMap(s[..n], f) <= ConcatMap(s, f)
    decreases |s| - n
  {
    if n < |s| {
      ConcatMapPrefix(s, n + 1, f);
      ConcatMapStep(s, n, f);
    } else {
      assert s[..n] == s;
    }
  }

  lemma {:induction false} ConcatMapMember<T, U>(s: seq<T>, f: T -> seq<U>, x: U)
    ensures x in ConcatMap(s, f) <==> exists i :: 0 <= i < |s| && x in f(s[i])
    decreases |s|
  {
    if |s| > 0 {
      var init := s[..|s| - 1];
      ConcatMapMember(init, f, x);
      assert forall i :: 0 <= i < |init| ==> init[i] == s[i];
    }
  }

  lemma {:induction false} ConcatMapEmpty<T, U>(s: seq<T>, f: T -> seq<U>)
    ensures ConcatMap(s, f) == [] <==> forall i :: 0 <= i < |s| ==> f(s[i]) == []
    decreases |s|
  {
    if |s| > 0 {
      var init := s[..|s| - 1];
      var last := f(s[|s| - 1]);
      ConcatMapEmpty(init, f);
      assert ConcatMap(s, f) == ConcatMap(init, f) + last;
      assert forall i :: 0 <= i < |init| ==> init[i] == s[i];
      assert (forall i :: 0 <= i < |s| ==> f(s[i]) == [])
             <==> (forall i :: 0 <= i < |init| ==> f(init[i]) == []) && last == [];
    }
  }

  lemma {:induction false} ConcatMapWithEmpty<T, P, U>(s: seq<T>, p: P, f: (T, P) -> seq<U>)
    ensures ConcatMapWith(s, p, f) == [] <==> forall i :: 0 <= i < |s| ==> f(s[i], p) == []
    decreases |s|
  {
    if |s| > 0 {
      var init := s[..|s| - 1];
      var last := f(s[|s| - 1], p);
      ConcatMapWithEmpty(init, p, f);
      assert ConcatMapWith(s, p, f) == ConcatMapWith(init, p, f) + last;
      assert forall i :: 0 <= i < |init| ==> init[i] == s[i];
      assert (forall i :: 0 <= i < |s| ==> f(s[i], p) == [])
             <==> (forall i :: 0 <= i < |init| ==> f(init[i], p) == []) && last == [];
    }
  }

  /** When every item but the `j`-th contributes nothing, the whole is that item's contribution. */
  lemma {:induction false} ConcatMapWithOnly<T, P, U>(s: seq<T>, p: P, f: (T, P) -> seq<U>, j: nat)
    requires j < |s|
    requires forall i :: 0 <= i < |s| && i != j ==> f(s[i], p) == []
    ensures ConcatMapWith(s, p, f) == f(s[j], p)
    decreases |s|
  {
    var init := s[..|s| - 1];
    assert forall i :: 0 <= i < |init| ==> init[i] == s[i];
    if j == |s| - 1 {
      ConcatMapWithEmpty(init, p, f);
    } else {
      ConcatMapWithOnly(init, p, f, j);
    }
  }

  /** The items of `s` that `keep` accepts under context `p`, in order: a loop that appends the items it accepts. */
  function FilterWith<T, P>(s: seq<T>, p: P, keep: (T, P) -> bool): (r: seq<T>)
    ensures |r| <= |s|
    decreases |s|
  {
    if |s| == 0 then [] else FilterWith(s[..|s| - 1], p, keep) + (if keep(s[|s| - 1], p) then [s[|s| - 1]] else [])
  }

  lemma FilterWithStep<T, P>(s: seq<T>, i: nat, p: P, keep: (T, P) -> bool)
    requires i < |s|
    ensures FilterWith(s[..i + 1], p, keep) == FilterWith(s[..i], p, keep) + (if keep(s[i], p) then [s[i]] else [])
  {
    assert s[..i + 1][..i] == s[..i];
  }

  lemma {:induction false} FilterWithMember<T, P>(s: seq<T>, p: P, keep: (T, P) -> bool, x: T)
    ensures x in FilterWith(s, p, keep) <==> x in s && keep(x, p)
    decreases |s|
  {
    if |s| > 0 {
      FilterWithMember(s[..|s| - 1], p, keep, x);
      assert s == s[..|s| - 1] + [s[|s| - 1]];
    }
  }

  lemma {:induction false} FilterWithAppend<T, P>(a: seq<T>, b: seq<T>, p: P, keep: (T, P) -> bool)
    ensures FilterWith(a + b, p, keep) == FilterWith(a, p, keep) + FilterWith(b, p, keep)
    decreases |b|
  {
    if |b| > 0 {
      assert (a + b)[..|a + b| - 1] == a + b[..|b| - 1];
      FilterWithAppend(a, b[..|b| - 1], p, keep);
    } else {
      assert a + b == a;
    }
  }

  /** When every step appends exactly one item, item `i` of the result comes from item `i` of `s`. */
  lemma {:induction false} ConcatMapWithSingles<T, P, U>(s: seq<T>, p: P, f: (T, P) -> seq<U>, i: nat)
    requires forall x :: |f(x, p)| == 1
    requires i < |s|
    ensures |ConcatMapWith(s, p, f)| == |s|
    ensures ConcatMapWith(s, p, f)[i] == f(s[i], p)[0]
    decreases |s|
  {
    var init := s[..|s| - 1];
    if |init| > 0 {
      ConcatMapWithSingles(init, p, f, if i < |init| then i else 0);
    }
    if i < |init| {
      assert s[i] == init[i];
    }
  }

  /** No item occurs twice. */
  predicate Distinct<T(==)>(s: seq<T>) {
    forall i, j :: 0 <= i < j < |s| ==> s[i] != s[j]
  }

  lemma {:induction false} FilterWithDistinct<T, P>(s: seq<T>, p: P, keep: (T, P) -> bool)
    requires Distinct(s)
    ensures Distinct(FilterWith(s, p, keep))
    decreases |s|
  {
    if |s| > 0 {
      var init := s[..|s| - 1];
      FilterWithDistinct(init, p, keep);
      FilterWithMember(init, p, keep, s[|s| - 1]);
    }
  }

  lemma DistinctConcat<T>(a: seq<T>, b: seq<T>)
    requires Distinct(a) && Distinct(b)
    requires forall x :: x in a ==> x !in b
    ensures Distinct(a + b)
  {
    forall i, j | 0 <= i < j < |a + b|
      ensures (a + b)[i] != (a + b)[j]
    {
      if i < |a| && j >= |a| {
        assert (a + b)[i] in a && (a + b)[j] in b;
      }
    }
  }

  /** `s` with repeats dropped, each item kept at its first occurrence. */
  function Dedup<T(==)>(s: seq<T>): (r: seq<T>)
    ensures |r| <= |s|
    decreases |s|
  {
    if |s| == 0 then []
    else
      var r := Dedup(s[..|s| - 1]);
      if s[|s| - 1] in r then r else r + [s[|s| - 1]]
  }

  lemma {:induction false} DedupMember<T>(s: seq<T>, x: T)
    ensures x in Dedup(s) <==> x in s
    decreases |s|
  {
    if |s| > 0 {
      DedupMember(s[..|s| - 1], x);
      DedupMember(s[..|s| - 1], s[|s| - 1]);
      assert s == s[..|s| - 1] + [s[|s| - 1]];
    }
  }

  lemma {:induction false} DedupDistinct<T>(s: seq<T>)
    ensures Distinct(Dedup(s))
    decreases |s|
  {
    if |s| > 0 {
      DedupDistinct(s[..|s| - 1]);
    }
  }

  /** The set of the items of `s`. */
  ghost function Elements<T>(s: seq<T>): set<T> {
    set x | x in s
  }

  lemma {:induction false} ElementsAtMostLength<T>(s: seq<T>)
    ensures |Elements(s)| <= |s|
    ensures Distinct(s) ==> |Elements(s)| == |s|
    decreases |s|
  {
    if |s| > 0 {
      var init := s[..|s| - 1];
      ElementsAtMostLength(init);
      assert Elements(s) == Elements(init) + {s[|s| - 1]};
    } else {
      assert Elements(s) == {};
    }
  }

  lemma {:induction false} SubsetCardinality<T>(a: set<T>, b: set<T>)
    requires a <= b
    ensures |a| <= |b|
    ensures |a| == |b| ==> a == b
    decreases |b|
  {
    if b != {} {
      var x :| x in b;
      SubsetCardinality(a - {x}, b - {x});
      if x in a {
        assert |a - {x}| == |a| - 1;
        assert a == (a - {x}) + {x} && b == (b - {x}) + {x};
      } else {
        assert a - {x} == a;
      }
    } else {
      assert a == {};
    }
  }

  /**
   * `f(1, s[0])`, ..., `f(n, s[n - 1])` collected in order, entries numbered
   * from 1: a loop that appends each result and stops at the first failure.
   */
  function CollectUpTo<T, U>(s: seq<T>, f: (nat, T) -> Result<U>, n: nat): Result<seq<U>>
    requires n <= |s|
    decreases n
  {
    if n == 0 then Ok([])
    else
      var init := CollectUpTo(s, f, n - 1);
      if init.Err? then init
      else
        var x := f(n, s[n - 1]);
        if x.Err? then Err(x.error) else Ok(init.value + [x.value])
  }

  /** One more entry: its success is appended and its failure is the result. */
  lemma CollectStep<T, U>(s: seq<T>, f: (nat, T) -> Result<U>, i: nat)
    requires i < |s| && CollectUpTo(s, f, i).Ok?
    ensures CollectUpTo(s, f, i + 1)
            == if f(i + 1, s[i]).Ok? then Ok(CollectUpTo(s, f, i).value + [f(i + 1, s[i]).value])
               else Err(f(i + 1, s[i]).error)
  {
  }

  /** A failure is never undone by later entries. */
  lemma {:induction false} CollectErrorSticks<T, U>(s: seq<T>, f: (nat, T) -> Result<U>, n: nat, m: nat)
    requires n <= m <= |s|
    requires CollectUpTo(s, f, n).Err?
    ensures CollectUpTo(s, f, m) == CollectUpTo(s, f, n)
    decreases m
  {
    if n < m {
      CollectErrorSticks(s, f, n, m - 1);
      assert CollectUpTo(s, f, m) == CollectUpTo(s, f, m - 1);
    }
  }

  /** A collected prefix has one result per entry, each the entry's own. */
  lemma {:induction false} CollectShape<T, U>(s: seq<T>, f: (nat, T) -> Result<U>, n: nat)
    requires n <= |s|
    requires CollectUpTo(s, f, n).Ok?
    ensures |CollectUpTo(s, f, n).value| == n
    ensures forall k :: 0 <= k < n ==> f(k + 1, s[k]) == Ok(CollectUpTo(s, f, n).value[k])
    decreases n
  {
    if n > 0 {
      var init := CollectUpTo(s, f, n - 1);
      CollectShape(s, f, n - 1);
      var all := CollectUpTo(s, f, n).value;
      forall k | 0 <= k < n
        ensures f(k + 1, s[k]) == Ok(all[k])
      {
        if k < n - 1 {
          assert all[k] == init.value[k];
        }
      }
    }
  }

  /** `st` after `step(_, 0)`, ..., `step(_, n - 1)`: a loop over the indices below `n`. */
  function Iterate<S>(step: (S, nat) -> S, st: S, n: nat): S
    decreases n
  {
    if n == 0 then st else step(Iterate(step, st, n - 1), n - 1)
  }

  lemma IterateStep<S>(step: (S, nat) -> S, st: S, i: nat)
    ensures Iterate(step, st, i + 1) == step(Iterate(step, st, i), i)
  {
  }

  /** A size every step keeps is kept by the whole loop. */
  lemma {:induction false} IterateKeeps<S>(step: (S, nat) -> S, size: S -> int, st: S, n: nat)
    requires forall s, i :: size(step(s, i)) == size(s)
    ensures size(Iterate(step, st, n)) == size(st)
    decreases n
  {
    if n > 0 {
      IterateKeeps(step, size, st, n - 1);
    }
  }

  /** A property of the state before step `i` that every step below `n` carries over holds after the first `n` steps. */
  lemma {:induction false} IterateInduction<S>(step: (S, nat) -> S, inv: (S, nat) -> bool, st: S, n: nat)
    requires inv(st, 0)
    requires forall s: S, i: nat :: i < n && inv(s, i) ==> inv(step(s, i), i + 1)
    ensures inv(Iterate(step, st, n), n)
    decreases n
  {
    if n > 0 {
      IterateInduction(step, inv, st, n - 1);
    }
  }
}
