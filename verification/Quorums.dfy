/** Majorities of the peers 0..n-1 and counting them. */
module Quorums {
  import opened Ranges

  ghost function Peers(n: nat): set<int> {
    Below(n)
  }

  ghost predicate Quorum(n: nat, q: set<int>) {
    && (forall i :: i in q ==> 0 <= i < n)
    && 2 * |q| > n
  }

  lemma SubsetSize<T>(a: set<T>, b: set<T>)
    requires a <= b
    ensures |a| <= |b|
  {
    assert b == a + (b - a);
  }

  /** Any two majorities share a peer. */
  lemma QuorumsMeet(n: nat, a: set<int>, b: set<int>) returns (i: int)
    requires Quorum(n, a) && Quorum(n, b)
    ensures i in a && i in b
  {
    if !exists j :: j in a && j in b {
      assert a * b == {};
      assert |a + b| == |a| + |b|;
      SubsetSize(a + b, Peers(n));
      assert false;
    }
    i :| i in a && i in b;
  }

  lemma BiggerIsQuorum(n: nat, a: set<int>, b: set<int>)
    requires Quorum(n, a) && a <= b && (forall i :: i in b ==> 0 <= i < n)
    ensures Quorum(n, b)
  {
    SubsetSize(a, b);
  }
}
