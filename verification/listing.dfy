/** Enumerating the records of an id-keyed map in the order a JavaScript
    `Map` yields them, and folding over that enumeration.

    Every store map in this model only ever receives keys from a counter, in
    increasing order, and `Map.prototype.set` on an existing key keeps that
    key's position; so `Array.from(map.values())` visits the records in
    ascending key order, which is what `KeysBelow` enumerates. */
module Listing {
  import opened Wrappers

  predicate StrictlyIncreasing(ks: seq<int>) {
    forall i, j :: 0 <= i < j < |ks| ==> ks[i] < ks[j]
  }

  /** The keys of m in [0, n), ascending. */
  function KeysBelow<T>(m: map<int, T>, n: int): (ks: seq<int>)
    ensures forall k :: k in ks <==> 0 <= k < n && k in m
    ensures StrictlyIncreasing(ks)
    decreases n
  {
    if n <= 0 then []
    else
      var pre := KeysBelow(m, n - 1);
      if n - 1 in m then
        assert forall i :: 0 <= i < |pre| ==> pre[i] in pre;
        pre + [n - 1]
      else pre
  }

  /** Two maps with the same keys below n enumerate the same keys. */
  lemma {:induction false} KeysBelowFrame<T, V>(m: map<int, T>, m': map<int, V>, n: int)
    requires forall k :: 0 <= k < n ==> (k in m <==> k in m')
    ensures KeysBelow(m, n) == KeysBelow(m', n)
    decreases n
  {
    if n > 0 {
      KeysBelowFrame(m, m', n - 1);
    }
  }

  /** The values `f` yields on the keys ks, in key order; keys on which `f`
      yields nothing are skipped (a filtering, joining `for` loop). */
  function Collect<U>(ks: seq<int>, f: int -> Option<U>): (r: seq<U>)
    ensures |r| <= |ks|
    ensures forall u :: u in r ==> exists k :: k in ks && f(k) == Some(u)
    ensures forall k :: k in ks && f(k).Some? ==> f(k).value in r
    decreases |ks|
  {
    if |ks| == 0 then []
    else
      var last := ks[|ks| - 1];
      var rest := Collect(ks[..|ks| - 1], f);
      assert forall k :: k in ks[..|ks| - 1] ==> k in ks;
      assert last in ks;
      match f(last)
      case Some(u) =>
        assert forall v :: v in rest + [u] ==> v in rest || v == u;
        rest + [u]
      case None => rest
  }

  predicate IncreasingBy<U>(r: seq<U>, key: U -> int) {
    forall i, j :: 0 <= i < j < |r| ==> key(r[i]) < key(r[j])
  }

  /** When each collected value carries the key it came from, collecting
      over ascending keys yields values in ascending key order. */
  lemma {:induction false} CollectIncreasing<U>(ks: seq<int>, f: int -> Option<U>, key: U -> int)
    requires StrictlyIncreasing(ks)
    requires forall k :: k in ks && f(k).Some? ==> key(f(k).value) == k
    ensures IncreasingBy(Collect(ks, f), key)
    decreases |ks|
  {
    if |ks| > 0 {
      var pre := ks[..|ks| - 1];
      var last := ks[|ks| - 1];
      assert forall k :: k in pre ==> k in ks && k < last;
      CollectIncreasing(pre, f, key);
      var rest := Collect(pre, f);
      forall u | u in rest
        ensures key(u) < last
      {
        var k :| k in pre && f(k) == Some(u);
      }
      assert last in ks;
      match f(last)
      case None =>
        assert Collect(ks, f) == rest;
      case Some(u) =>
        var r := rest + [u];
        assert Collect(ks, f) == r;
        assert key(u) == last;
        forall i, j | 0 <= i < j < |r|
          ensures key(r[i]) < key(r[j])
        {
          if j == |rest| {
            assert r[i] in rest;
          } else {
            assert r[i] == rest[i] && r[j] == rest[j];
          }
        }
    }
  }

  /** The number of keys in ks satisfying p (a `filter(...).length`). */
  function Count(ks: seq<int>, p: int -> bool): (c: nat)
    ensures c <= |ks|
    decreases |ks|
  {
    if |ks| == 0 then 0
    else Count(ks[..|ks| - 1], p) + (if p(ks[|ks| - 1]) then 1 else 0)
  }

  /** The keys in ks satisfying p, as a set. */
  function Matching(ks: seq<int>, p: int -> bool): (s: set<int>)
    ensures forall k :: k in s <==> k in ks && p(k)
    decreases |ks|
  {
    if |ks| == 0 then {}
    else
      var pre := ks[..|ks| - 1];
      var last := ks[|ks| - 1];
      assert ks == pre + [last];
      Matching(pre, p) + (if p(last) then {last} else {})
  }

  /** Over duplicate-free keys, the count is the size of the matching set. */
  lemma {:induction false} CountIsCardinality(ks: seq<int>, p: int -> bool)
    requires StrictlyIncreasing(ks)
    ensures Count(ks, p) == |Matching(ks, p)|
    decreases |ks|
  {
    if |ks| > 0 {
      var pre := ks[..|ks| - 1];
      var last := ks[|ks| - 1];
      assert StrictlyIncreasing(pre);
      CountIsCardinality(pre, p);
      assert forall i :: 0 <= i < |pre| ==> pre[i] < last;
      assert last !in Matching(pre, p);
    }
  }

  /** The sum of f over the keys ks. */
  function Sum(ks: seq<int>, f: int -> int): int
    decreases |ks|
  {
    if |ks| == 0 then 0 else Sum(ks[..|ks| - 1], f) + f(ks[|ks| - 1])
  }

  /** Sums of functions that agree on ks are equal. */
  lemma {:induction false} SumCongruent(ks: seq<int>, f: int -> int, g: int -> int)
    requires forall k :: k in ks ==> f(k) == g(k)
    ensures Sum(ks, f) == Sum(ks, g)
    decreases |ks|
  {
    if |ks| > 0 {
      var last := ks[|ks| - 1];
      assert last in ks;
      assert f(last) == g(last);
      SumCongruent(ks[..|ks| - 1], f, g);
    }
  }

  /** A sum of non-negative terms is non-negative. */
  lemma {:induction false} SumNonNegative(ks: seq<int>, f: int -> int)
    requires forall k :: k in ks ==> f(k) >= 0
    ensures Sum(ks, f) >= 0
    decreases |ks|
  {
    if |ks| > 0 {
      var last := ks[|ks| - 1];
      assert last in ks;
      assert f(last) >= 0;
      SumNonNegative(ks[..|ks| - 1], f);
    }
  }

  /** A strictly increasing sequence has as many elements as distinct values. */
  lemma {:induction false} DistinctCardinality(ks: seq<int>)
    requires StrictlyIncreasing(ks)
    ensures |set k | k in ks| == |ks|
    decreases |ks|
  {
    if |ks| > 0 {
      var pre := ks[..|ks| - 1];
      DistinctCardinality(pre);
      assert (set k | k in ks) == (set k | k in pre) + {ks[|ks| - 1]};
      assert ks[|ks| - 1] !in (set k | k in pre);
    }
  }
}
