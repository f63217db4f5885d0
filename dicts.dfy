/**
 * Plain JavaScript objects used as dictionaries (`{[key: string]: V}`).
 * An object is its list of entries in insertion order, with unique keys.
 * That is the order `Object.keys`, `Object.values` and `Object.entries`
 * report for keys that are not array indices (JavaScript lists array-index
 * keys first, in numeric order, which this model does not capture).
 */
module Dicts {
  import opened Wrappers

  /** No key occurs twice. */
  predicate DistinctKeys<V>(s: seq<(string, V)>) {
    forall i, j :: 0 <= i < j < |s| ==> s[i].0 != s[j].0
  }

  type Dict<V> = s: seq<(string, V)> | DistinctKeys(s) witness []

  /** `Object.keys(d)` */
  function Keys<V>(d: seq<(string, V)>): (r: seq<string>)
    ensures |r| == |d| && forall i :: 0 <= i < |d| ==> r[i] == d[i].0
  {
    if d == [] then [] else [d[0].0] + Keys(d[1..])
  }

  /** `Object.values(d)` */
  function Values<V>(d: seq<(string, V)>): seq<V> {
    seq(|d|, i requires 0 <= i < |d| => d[i].1)
  }

  /** `d[k]`, with `None` for `undefined` (the key is absent). */
  function Get<V>(d: seq<(string, V)>, k: string): (r: Option<V>)
    ensures r.Some? <==> k in Keys(d)
    ensures r.Some? ==> exists i :: 0 <= i < |d| && d[i] == (k, r.value)
  {
    if d == [] then None
    else if d[0].0 == k then
      assert d[0] == (k, d[0].1);
      Some(d[0].1)
    else
      var r := Get(d[1..], k);
      assert r.Some? ==> exists i :: 0 <= i < |d| && d[i] == (k, r.value) by {
        if r.Some? {
          var i :| 0 <= i < |d[1..]| && d[1..][i] == (k, r.value);
          assert d[i + 1] == (k, r.value);
        }
      }
      r
  }

  /** In an object with unique keys, the entry at position `i` is what a lookup of its key finds. */
  lemma {:induction false} GetAt<V>(d: Dict<V>, i: nat)
    requires i < |d|
    ensures Get(d, d[i].0) == Some(d[i].1)
  {
    if i > 0 {
      assert DistinctKeys(d[1..]);
      GetAt(d[1..], i - 1);
    }
  }

  /** The entry list of `d[k] = v`: an existing key keeps its place, a new key goes last. */
  function Assign<V>(d: seq<(string, V)>, k: string, v: V): seq<(string, V)> {
    if d == [] then [(k, v)]
    else if d[0].0 == k then [(k, v)] + d[1..]
    else [d[0]] + Assign(d[1..], k, v)
  }

  lemma {:induction false} AssignKeys<V>(d: Dict<V>, k: string, v: V)
    ensures Keys(Assign(d, k, v)) == if k in Keys(d) then Keys(d) else Keys(d) + [k]
    ensures DistinctKeys(Assign(d, k, v))
  {
    if d != [] && d[0].0 != k {
      assert DistinctKeys(d[1..]);
      AssignKeys(d[1..], k, v);
      var rest := Assign(d[1..], k, v);
      assert d[0].0 !in Keys(d[1..]);
      assert Keys(Assign(d, k, v)) == [d[0].0] + Keys(rest);
      assert Keys(d) == [d[0].0] + Keys(d[1..]);
    } else if d != [] {
      assert Keys(Assign(d, k, v)) == [k] + Keys(d[1..]);
      assert Keys(d) == [k] + Keys(d[1..]);
    }
  }

  lemma {:induction false} AssignGet<V>(d: seq<(string, V)>, k: string, v: V, j: string)
    ensures Get(Assign(d, k, v), j) == if j == k then Some(v) else Get(d, j)
  {
    if d != [] && d[0].0 != k {
      AssignGet(d[1..], k, v, j);
    }
  }

  /** `d[k] = v` on the object. */
  function Put<V>(d: Dict<V>, k: string, v: V): (r: Dict<V>)
    ensures Get(r, k) == Some(v)
    ensures forall j :: j != k ==> Get(r, j) == Get(d, j)
    ensures Keys(r) == if k in Keys(d) then Keys(d) else Keys(d) + [k]
  {
    AssignKeys(d, k, v);
    forall j ensures Get(Assign(d, k, v), j) == if j == k then Some(v) else Get(d, j) {
      AssignGet(d, k, v, j);
    }
    Assign(d, k, v)
  }
}
