/**
 * Dynamic Python values as they occur in parameter dictionaries, metadata
 * dictionaries and the records handed back by the LLM and the test-generation
 * libraries.
 */
module Values {
  import opened Base
  import opened Text

  /** `Nan` is the float NaN pandas puts in an empty cell; no other float is modelled. */
  datatype Value = Str(s: string) | Bool(b: bool) | Int(i: int) | Null | StrList(items: seq<string>) | Nan

  /** Python truthiness (`if value:`). */
  predicate Truthy(v: Value) {
    match v
    case Str(s) => s != ""
    case Bool(b) => b
    case Int(i) => i != 0
    case Null => false
    case StrList(items) => items != []
    case Nan => true
  }

  /** Python `==` on these values: `True == 1` and `False == 0` hold across the two types, and NaN equals nothing. */
  predicate PyEq(a: Value, b: Value) {
    match (a, b)
    case (Bool(x), Int(n)) => (if x then 1 else 0) == n
    case (Int(n), Bool(x)) => (if x then 1 else 0) == n
    case _ => a == b && a != Nan
  }

  /** An insertion-ordered dict, as a list of key/value pairs. */
  type Params = seq<(string, Value)>

  function Keys(d: Params): (r: seq<string>)
    ensures |r| == |d| && forall i :: 0 <= i < |d| ==> r[i] == d[i].0
  {
    seq(|d|, i requires 0 <= i < |d| => d[i].0)
  }

  predicate DistinctKeys(d: Params) {
    forall i, j :: 0 <= i < j < |d| ==> d[i].0 != d[j].0
  }

  /** `d.get(key)` */
  function Get(d: Params, key: string): (r: Option<Value>)
    decreases |d|
  {
    if |d| == 0 then None
    else if d[0].0 == key then Some(d[0].1)
    else Get(d[1..], key)
  }

  /** `d.get(key)` finds a value exactly when the key is present, and the value is one stored under it. */
  lemma {:induction false} GetSpec(d: Params, key: string)
    ensures Get(d, key).Some? <==> key in Keys(d)
    ensures Get(d, key).Some? ==> exists i :: 0 <= i < |d| && d[i] == (key, Get(d, key).value)
    decreases |d|
  {
    if |d| > 0 && d[0].0 != key {
      GetSpec(d[1..], key);
      assert Keys(d) == [d[0].0] + Keys(d[1..]);
      if Get(d, key).Some? {
        var i :| 0 <= i < |d[1..]| && d[1..][i] == (key, Get(d, key).value);
        assert d[i + 1] == d[1..][i];
      }
    } else if |d| > 0 {
      assert d[0] == (key, Get(d, key).value);
    }
  }

  /** `key in d` */
  predicate HasKey(d: Params, key: string) { key in Keys(d) }

  /** `repr(value)`; quote characters inside strings are not escaped. */
  function Repr(v: Value): string {
    match v
    case Str(s) => "'" + s + "'"
    case Bool(b) => if b then "True" else "False"
    case Int(i) => IntToString(i)
    case Null => "None"
    case StrList(items) => "[" + Join(seq(|items|, k requires 0 <= k < |items| => "'" + items[k] + "'"), ", ") + "]"
    case Nan => "nan"
  }

  /** `str(value)`: a string is shown bare, everything else as its `repr`. */
  function Display(v: Value): string {
    if v.Str? then v.s else Repr(v)
  }

  /** `pd.isna(value)` for a single cell: only NaN and `None` count as missing. */
  predicate IsNa(v: Value) { v == Nan || v == Null }

  /** `str(d)` for a dict: `{'k': v, ...}` in insertion order. */
  function ReprParams(d: Params): string {
    "{" + Join(seq(|d|, k requires 0 <= k < |d| => "'" + d[k].0 + "': " + Repr(d[k].1)), ", ") + "}"
  }

  /** A metadata dictionary, where only the key/value association matters. */
  type Metadata = map<string, Value>
}
