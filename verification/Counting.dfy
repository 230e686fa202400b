/** Finite sets of numbers and their sizes. */
module Counting {
  import opened Basics

  ghost function Range(n: nat): (r: set<nat>)
    ensures |r| == n && forall b :: b in r <==> 0 <= b < n
  {
    if n == 0 then {} else Range(n - 1) + {n - 1}
  }

  lemma Larger(s: set<nat>, t: set<nat>)
    requires s <= t
    ensures |s| <= |t| && (|s| == |t| ==> s == t)
  {
    assert t == s + (t - s);
    assert |t| == |s| + |t - s|;
  }

  ghost function Values(q: seq<nat>): set<nat> { set x | x in q }

  lemma {:induction false} DistinctSize(q: seq<nat>)
    requires Distinct(q)
    ensures |Values(q)| == |q|
  {
    if q != [] {
      var t := q[1..];
      assert q == [q[0]] + t && q[0] !in t;
      DistinctSize(t);
      assert Values(q) == Values(t) + {q[0]};
    }
  }

  // n different numbers below n are all of them.
  lemma AllTaken(q: seq<nat>, x: nat)
    requires Distinct(q) && (forall i :: 0 <= i < |q| ==> q[i] < |q|) && x < |q|
    ensures x in q
  {
    DistinctSize(q);
    Larger(Values(q), Range(|q|));
    assert x in Range(|q|);
  }
}
