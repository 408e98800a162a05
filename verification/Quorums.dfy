/** Majorities of a finite cluster. */
module Quorums {
  ghost predicate IsQuorum(ids: set<nat>, q: set<nat>) {
    q <= ids && |q| >= |ids| / 2 + 1
  }

  function Elems(s: seq<nat>): (r: set<nat>) {
    set i | 0 <= i < |s| :: s[i]
  }

  ghost predicate Distinct(s: seq<nat>) {
    forall i, j :: 0 <= i < j < |s| ==> s[i] != s[j]
  }

  lemma {:induction false} SubsetSize(a: set<nat>, b: set<nat>)
    requires a <= b
    ensures |a| <= |b|
  {
    if a != {} {
      var x :| x in a;
      SubsetSize(a - {x}, b - {x});
    }
  }

  /** Any two majorities share a member. */
  lemma QuorumsMeet(ids: set<nat>, p: set<nat>, q: set<nat>) returns (v: nat)
    requires IsQuorum(ids, p) && IsQuorum(ids, q)
    ensures v in p && v in q
  {
    if p * q == {} {
      assert |p + q| == |p| + |q|;
      SubsetSize(p + q, ids);
      assert false;
    }
    v :| v in p * q;
  }

  lemma QuorumGrows(ids: set<nat>, p: set<nat>, q: set<nat>)
    requires IsQuorum(ids, p) && p <= q <= ids
    ensures IsQuorum(ids, q)
  {
    SubsetSize(p, q);
  }

  lemma {:induction false} DistinctSize(s: seq<nat>)
    requires Distinct(s)
    ensures |Elems(s)| == |s|
  {
    if s != [] {
      var n := |s| - 1;
      DistinctSize(s[..n]);
      assert Elems(s) == Elems(s[..n]) + {s[n]};
      assert s[n] !in Elems(s[..n]);
    }
  }

  /** A node with `peers` as its peer list belongs to a cluster of |peers| + 1 nodes. */
  lemma ClusterSize(ids: set<nat>, n: nat, peers: seq<nat>)
    requires n in ids && Distinct(peers) && Elems(peers) == ids - {n}
    ensures |ids| == |peers| + 1
  {
    DistinctSize(peers);
    assert |ids - {n}| == |ids| - 1;
  }
}
