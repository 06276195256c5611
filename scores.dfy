/**
 * The score table `Record<string, number>` of server/index.ts. A JavaScript
 * object enumerates its (non-numeric) own keys in insertion order, and the
 * winner is found by a `reduce` over `Object.entries`, so the model keeps the
 * entries as a sequence of key/value pairs in insertion order.
 */
module Scores {
  import opened Wrappers

  type Entry = (string, int)
  type Record = seq<Entry>

  /** An object has at most one entry per key. */
  predicate DistinctKeys(r: Record) {
    forall i, j :: 0 <= i < j < |r| ==> r[i].0 != r[j].0
  }

  function Keys(r: Record): set<string> {
    set i | 0 <= i < |r| :: r[i].0
  }

  lemma KeysCons(r: Record)
    requires r != []
    ensures Keys(r) == {r[0].0} + Keys(r[1..])
  {
    forall x | x in Keys(r) ensures x in {r[0].0} + Keys(r[1..]) {
      var i :| 0 <= i < |r| && r[i].0 == x;
      if i > 0 { assert r[1..][i - 1].0 == x; }
    }
    forall x | x in Keys(r[1..]) ensures x in Keys(r) {
      var i :| 0 <= i < |r[1..]| && r[1..][i].0 == x;
      assert r[i + 1].0 == x;
    }
  }

  /** `r[k]`, which is `undefined` for a missing key. */
  function Lookup(r: Record, k: string): (v: Option<int>)
    ensures v.Some? <==> k in Keys(r)
    ensures v.Some? ==> (k, v.value) in r
    ensures DistinctKeys(r) ==> forall i :: 0 <= i < |r| && r[i].0 == k ==> v == Some(r[i].1)
  {
    if r == [] then None
    else if r[0].0 == k then Some(r[0].1)
    else
      KeysCons(r);
      Lookup(r[1..], k)
  }

  /** `r[k] || 0`: a missing score counts as 0. */
  function Get(r: Record, k: string): (v: int)
    ensures k !in Keys(r) ==> v == 0
    ensures k in Keys(r) ==> (k, v) in r
  {
    Lookup(r, k).GetOr(0)
  }

  /** `r[k] = v`: overwrites the first entry for `k` in place, or appends a new one. */
  function Set(r: Record, k: string, v: int): (r': Record)
    ensures Keys(r') == Keys(r) + {k}
    ensures k !in Keys(r) ==> r' == r + [(k, v)]
    ensures k in Keys(r) ==> |r'| == |r| && forall i :: 0 <= i < |r| ==> r'[i].0 == r[i].0
  {
    if r == [] then
      KeysCons([(k, v)]);
      assert [(k, v)][1..] == [];
      [(k, v)]
    else
      KeysCons(r);
      if r[0].0 == k then
        var r' := [(k, v)] + r[1..];
        KeysCons(r');
        assert r'[1..] == r[1..];
        r'
      else
        var r' := [r[0]] + Set(r[1..], k, v);
        KeysCons(r');
        assert r'[1..] == Set(r[1..], k, v);
        r'
  }

  /** After `r[k] = v`, reading `k` gives `v` and every other key reads as before. */
  lemma {:induction false} SetLookup(r: Record, k: string, v: int, j: string)
    ensures Lookup(Set(r, k, v), j) == if j == k then Some(v) else Lookup(r, j)
  {
    if r != [] && r[0].0 != k {
      SetLookup(r[1..], k, v, j);
      assert Set(r, k, v)[1..] == Set(r[1..], k, v);
    }
  }

  lemma SetLookupAll(r: Record, k: string, v: int)
    ensures forall j :: Lookup(Set(r, k, v), j) == if j == k then Some(v) else Lookup(r, j)
  {
    forall j ensures Lookup(Set(r, k, v), j) == if j == k then Some(v) else Lookup(r, j) {
      SetLookup(r, k, v, j);
    }
  }

  /**
   * The `(score || 0) + 1` update: that key gains exactly one point, every
   * other key keeps its value, and distinct keys stay distinct.
   */
  function AddPoint(r: Record, k: string): (r': Record)
    ensures Get(r', k) == Get(r, k) + 1
    ensures forall j :: j != k ==> Lookup(r', j) == Lookup(r, j)
    ensures Keys(r') == Keys(r) + {k}
    ensures DistinctKeys(r) ==> DistinctKeys(r')
  {
    SetLookupAll(r, k, Get(r, k) + 1);
    SetDistinct(r, k, Get(r, k) + 1);
    Set(r, k, Get(r, k) + 1)
  }

  /** Writing a score keeps the object's keys distinct. */
  lemma {:induction false} SetDistinct(r: Record, k: string, v: int)
    ensures DistinctKeys(r) ==> DistinctKeys(Set(r, k, v))
  {
    var r' := Set(r, k, v);
    if !DistinctKeys(r) { return; }
    forall i, j | 0 <= i < j < |r'| ensures r'[i].0 != r'[j].0 {
      if k in Keys(r) {
        assert r'[i].0 == r[i].0 && r'[j].0 == r[j].0;
      } else if j == |r| {
        assert r'[i] == r[i];
        assert r[i].0 in Keys(r);
      } else {
        assert r'[i] == r[i] && r'[j] == r[j];
      }
    }
  }

  /**
   * The position of the entry the winner `reduce` of `endGame` returns over
   * the score entries in key order. The accumulator is kept only when strictly greater, so among
   * equal top scores the LAST entry wins. (On an empty object the `reduce`
   * throws; callers handle that case.)
   */
  function WinnerIndex(r: Record): (i: nat)
    requires |r| > 0
    ensures i < |r|
    ensures forall j :: 0 <= j < |r| ==> r[j].1 <= r[i].1
    ensures forall j :: i < j < |r| ==> r[j].1 < r[i].1
  {
    if |r| == 1 then 0
    else
      var w := WinnerIndex(r[..|r| - 1]);
      if r[w].1 > r[|r| - 1].1 then w else |r| - 1
  }
}
