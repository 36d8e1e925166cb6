/** Majorities of a cluster of n nodes numbered 0 .. n-1, and why two of them always meet. */
module Quorum {

  /** The node numbers 0 .. n-1. */
  function Members(n: nat): (s: set<nat>)
    ensures |s| == n
    ensures forall v: nat :: v in s <==> v < n
  {
    if n == 0 then {} else Members(n - 1) + {n - 1}
  }

  /** The test the code writes as `votes >= len(rf.peers)/2+1`. */
  predicate Majority(count: nat, n: nat) {
    count >= n / 2 + 1
  }

  predicate IsQuorum(q: set<nat>, n: nat) {
    q <= Members(n) && Majority(|q|, n)
  }

  /** Two majorities of the same cluster share a node. */
  lemma QuorumsMeet(p: set<nat>, q: set<nat>, n: nat) returns (v: nat)
    requires IsQuorum(p, n) && IsQuorum(q, n)
    ensures v in p && v in q && v < n
  {
    SubsetSize(p + q, Members(n));
    assert |p + q| == |p| + |q| - |p * q|;
    v :| v in p * q;
  }

  lemma SubsetSize<T>(a: set<T>, b: set<T>)
    requires a <= b
    ensures |a| <= |b|
  {
    assert b == a + (b - a);
  }
}
