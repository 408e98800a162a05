/** Building runs of a five-node cluster: its wiring, its elections, and what single nodes do with the entries used. */
module FiveNodes {
  import opened Types
  import opened Quorums
  import opened Logs
  import opened Nodes
  import opened Clusters
  import opened Schedules

  const A1 := Entry(1, 1, NoopCommand)
  const A2 := Entry(2, 1, NoopCommand)
  const B3 := Entry(3, 2, NoopCommand)
  const Up := [true, true, true, true]

  const F1 := Fresh(1, [5, 4, 3, 2])
  const F2 := Fresh(2, [1, 3, 4, 5])
  const F3 := Fresh(3, [1, 2, 4, 5])
  const F4 := Fresh(4, [5, 3, 2, 1])
  const F5 := Fresh(5, [1, 2, 3, 4])

  function Five(a: Node, b: Node, c: Node, d: Node, e: Node): map<NodeId, Node> {
    map[1 := a, 2 := b, 3 := c, 4 := d, 5 := e]
  }

  lemma Listed(x: Node, n: NodeId, a: nat, b: nat, c: nat, d: nat)
    requires x.peers == [a, b, c, d] && |{a, b, c, d}| == 4 && {n, a, b, c, d} == {1, 2, 3, 4, 5} && n !in {a, b, c, d}
    ensures Distinct(x.peers) && Elems(x.peers) == {1, 2, 3, 4, 5} - {n}
  {
    var p := x.peers;
    assert p[0] == a && p[1] == b && p[2] == c && p[3] == d;
    assert Elems(p) == {a, b, c, d};
  }

  lemma FiveWired(w: World)
    requires w.nodes == Five(F1, F2, F3, F4, F5)
    ensures Wired(w)
  {
    hide Distinct, Elems;
    assert w.nodes.Keys == {1, 2, 3, 4, 5};
    Listed(F1, 1, 5, 4, 3, 2);
    Listed(F2, 2, 1, 3, 4, 5);
    Listed(F3, 3, 1, 2, 4, 5);
    Listed(F4, 4, 5, 3, 2, 1);
    Listed(F5, 5, 1, 2, 3, 4);
  }

  lemma Begin() returns (r: Run)
    ensures Steady(r) && Last(r).nodes == Five(F1, F2, F3, F4, F5)
  {
    hide Wired;
    var w := World(Five(F1, F2, F3, F4, F5), {}, {}, {}, {});
    r := Run([w], []);
    FiveWired(w);
  }

  // ---- what single nodes do

  /** An accepted message that commits nothing. */
  lemma Accepts(y: Node, req: AppendReq, log: seq<Entry>)
    requires req.term >= y.term && PrevOk(y.log, req) && Merge(y.log, req.prevIndex, req.entries) == log
    requires req.leaderCommit == 0 && y.commit == 0 == y.applied
    ensures HandleAppend(y, req) == (Follow(y, req.term).(log := log), AppendResp(req.term, true))
  {
    hide Merge;
  }

  lemma MergeTwo(e: Entry, f: Entry)
    requires e.index == 1 && f.index == 2
    ensures Merge([], 0, [e, f]) == [e, f]
  {
    var es := [e, f];
    assert ConflictFrom([], 0, es, 0) == ConflictFrom([], 0, es, 1) == ConflictFrom([], 0, es, 2) == [];
    assert AppendUpTo([], es, 1) == [e];
    assert AppendUpTo([], es, 2) == [e] + [f] == es;
  }

  /** An entry at index 1 replaces whatever another term has put there. */
  lemma MergeFirst(log: seq<Entry>, e: Entry)
    requires e.index == 1 && (log == [] || log[0].term != e.term)
    ensures Merge(log, 0, [e]) == [e]
  {
    var es := [e];
    assert log[..0] == [];
    assert ConflictFrom(log, 0, es, 0) == ConflictFrom([], 0, es, 1) == [];
    assert AppendUpTo([], es, 1) == [e];
  }

  lemma MergeSecond(first: Entry, e: Entry)
    requires e.index == 2
    ensures Merge([first], 1, [e]) == [first, e]
  {
    assert ConflictFrom([first], 1, [e], 0) == ConflictFrom([first], 1, [e], 1) == [first];
    assert AppendUpTo([first], [e], 1) == [first] + [e] == [first, e];
  }

  /** A leader's own NOOP at index 2 behind another term's NOOP, confirmed by the peers in `matched`. */
  ghost predicate Second(x: Node, first: Entry, e: Entry, matched: seq<nat>) {
    && x.log == [first, e] && first.term < e.term == x.term && e.index == 2 && |x.peers| == 4
    && |x.next| == 4 == |matched| && x.matched == matched && x.commit == 0 == x.applied
  }

  lemma SendSecond(x: Node, first: Entry, e: Entry, slot: nat)
    requires Second(x, first, e, x.matched) && slot < 4 && x.next[slot] == 2
    ensures AppendRequest(x, slot) == AppendReq(x.term, x.id, 1, first.term, 0, [e])
  {
    assert x.log[1..] == [e];
  }

  lemma OneHolder(x: Node, first: Entry, e: Entry, slot: nat, req: AppendReq)
    requires Second(x, first, e, [0, 0, 0, 0]) && slot < 4 && req.prevIndex + |req.entries| == 2 && req.entries != []
    ensures AppendReplied(x, slot, req, AppendResp(x.term, true), Up)
            == x.(matched := x.matched[slot := 2], next := x.next[slot := 3])
  {
    var z := Acknowledged(x, slot, req);
    assert Count(Up, z.matched, 2, 0) == 0;
    assert Count(Up, z.matched, 2, 4) <= 1 by {
      assert Count(Up, z.matched, 2, 1) == if slot == 0 then 1 else 0;
      assert Count(Up, z.matched, 2, 2) == if slot <= 1 then 1 else 0;
      assert Count(Up, z.matched, 2, 3) == if slot <= 2 then 1 else 0;
    }
    assert Scan(z, Up, 2, 0) == 0;
    assert Scan(z, Up, 1, 0) == 0;
  }

  lemma TwoHolders(x: Node, first: Entry, e: Entry, other: nat, slot: nat, req: AppendReq, resp: AppendResp)
    requires other < 4 && slot < 4 && other != slot && Second(x, first, e, [0, 0, 0, 0][other := 2])
    requires req.prevIndex + |req.entries| == 2 && req.entries != [] && resp.success && resp.term <= x.term
    ensures var z := AppendReplied(x, slot, req, resp, Up);
            z.log == x.log && z.commit == 2 == z.applied && z.role == x.role && z.term == x.term
  {
    var z := Acknowledged(x, slot, req);
    assert Count(Up, z.matched, 2, 4) == 2 by {
      assert Count(Up, z.matched, 2, 1) == if slot == 0 || other == 0 then 1 else 0;
      assert Count(Up, z.matched, 2, 2) == Count(Up, z.matched, 2, 1) + if slot == 1 || other == 1 then 1 else 0;
      assert Count(Up, z.matched, 2, 3) == Count(Up, z.matched, 2, 2) + if slot == 2 || other == 2 then 1 else 0;
    }
    assert HeldByMajority(z, Up, 2);
    assert Scan(z, Up, 3, 2) == 2;
    assert Scan(z, Up, 2, 0) == 2;
    assert Scan(z, Up, 1, 0) == 2;
  }

  // ---- elections

  /** The votes of the first two peers win. */
  lemma WinWithFirstTwo(r: Run, n: NodeId, p: NodeId, q: NodeId) returns (r': Run)
    requires Steady(r) && n in Last(r).nodes && p in Last(r).nodes && q in Last(r).nodes && n != p && n != q && p != q
    requires var x := Last(r).nodes[n];
             && x.id == n && x.role != Leader && x.election == None && |x.peers| == 4 && x.peers[0] == p
             && x.peers[1] == q
             && Last(r).nodes[p].term <= x.term && UpToDate(x.log, Last(r).nodes[p].log)
             && Last(r).nodes[q].term <= x.term && UpToDate(x.log, Last(r).nodes[q].log)
    ensures Steady(r') && Continues(r, r')
    ensures var x := Last(r).nodes[n];
            Last(r').nodes == Last(r).nodes[p := Voter(Last(r).nodes[p], x.term + 1, n)]
                                           [q := Voter(Last(r).nodes[q], x.term + 1, n)][n := Crowned(x)]
  {
    hide AnyRun, Guard, Steady;
    var x := Last(r).nodes[n];
    var r1 := Campaign(r, n);
    var r2 := GetVote(r1, n, p);
    var r3 := GetVote(r2, n, q);
    var r4 := SkipVote(r3, n);
    var r5 := SkipVote(r4, n);
    r' := WinTally(r5, n);
    assert Last(r').nodes[n] == Crowned(x);
  }

  /** The votes of the first and the third peer win. */
  lemma WinWithFirstAndThird(r: Run, n: NodeId, p: NodeId, q: NodeId) returns (r': Run)
    requires Steady(r) && n in Last(r).nodes && p in Last(r).nodes && q in Last(r).nodes && n != p && n != q && p != q
    requires var x := Last(r).nodes[n];
             && x.id == n && x.role != Leader && x.election == None && |x.peers| == 4 && x.peers[0] == p
             && x.peers[2] == q
             && Last(r).nodes[p].term <= x.term && UpToDate(x.log, Last(r).nodes[p].log)
             && Last(r).nodes[q].term <= x.term && UpToDate(x.log, Last(r).nodes[q].log)
    ensures Steady(r') && Continues(r, r')
    ensures var x := Last(r).nodes[n];
            Last(r').nodes == Last(r).nodes[p := Voter(Last(r).nodes[p], x.term + 1, n)]
                                           [q := Voter(Last(r).nodes[q], x.term + 1, n)][n := Crowned(x)]
  {
    hide AnyRun, Guard, Steady;
    var x := Last(r).nodes[n];
    var r1 := Campaign(r, n);
    var r2 := GetVote(r1, n, p);
    var r3 := SkipVote(r2, n);
    var r4 := GetVote(r3, n, q);
    var r5 := SkipVote(r4, n);
    r' := WinTally(r5, n);
    assert Last(r').nodes[n] == Crowned(x);
  }
}
