/**
 Three-node runs showing that the conditions of the safety theorems are needed: without them the program
 really does what the theorems exclude.
 */
module Counterexamples {
  import opened Types
  import opened Quorums
  import opened Logs
  import opened StateMachines
  import opened Nodes
  import opened Clusters
  import opened Schedules
  import Safety

  ghost predicate CanWin(w: World, n: NodeId, v: NodeId) {
    && n in w.nodes && v in w.nodes && n != v && w.nodes[n].id == n
    && |w.nodes[n].peers| == 2 && w.nodes[n].peers[0] == v
    && w.nodes[n].role != Leader && w.nodes[n].election == None
    && w.nodes[v].term <= w.nodes[n].term && UpToDate(w.nodes[n].log, w.nodes[v].log)
  }

  /** One vote besides its own wins an election among three. */
  lemma Elect(r: Run, n: NodeId, v: NodeId) returns (r': Run)
    requires Steady(r) && CanWin(Last(r), n, v)
    ensures Steady(r') && Continues(r, r')
    ensures Last(r').nodes ==
            Last(r).nodes[v := Voter(Last(r).nodes[v], Last(r).nodes[n].term + 1, n)][n := Crowned(Last(r).nodes[n])]
  {
    hide AnyRun, Guard, Steady;
    var x := Last(r).nodes[n];
    var r1 := Campaign(r, n);
    var r2 := GetVote(r1, n, v);
    var r3 := SkipVote(r2, n);
    r' := WinTally(r3, n);
    assert Last(r').nodes[n] == Crowned(x);
  }

  // ---- the story: node 1 leads term 1 and reaches nobody; node 2 leads term 2 and commits through node 3

  const N1 := Entry(1, 1, NoopCommand)
  const N2 := Entry(2, 1, NoopCommand)

  const One := Fresh(1, [2, 3]).(term := 1, voted := Some(1), role := Leader, log := [N1],
                                 next := [1, 1], matched := [0, 0])

  function Cluster3(): World {
    World(map[1 := Fresh(1, [2, 3]), 2 := Fresh(2, [3, 1]), 3 := Fresh(3, [1, 2])], {}, {}, {}, {})
  }

  lemma Begin() returns (r: Run)
    ensures Steady(r) && |r.ws| == 1 && Last(r) == Cluster3()
  {
    r := Run([Cluster3()], []);
    ClusterIsWired();
  }

  lemma ClusterIsWired()
    ensures Init(Cluster3())
  {
    var w := Cluster3();
    assert w.nodes.Keys == {1, 2, 3};
    TwoElems(2, 3);
    TwoElems(3, 1);
    TwoElems(1, 2);
  }

  lemma TwoElems(a: nat, b: nat)
    ensures Elems([a, b]) == {a, b}
  {
    assert [a, b][0] == a && [a, b][1] == b;
  }

  /** Node 1 leads term 1; node 2 voted for it. */
  lemma FirstReign() returns (r: Run)
    ensures Steady(r) && Last(r).nodes.Keys == {1, 2, 3}
    ensures Last(r).nodes[1] == One
    ensures Last(r).nodes[2] == Fresh(2, [3, 1]).(term := 1, voted := Some(1))
    ensures Last(r).nodes[3] == Fresh(3, [1, 2])
  {
    hide AnyRun, Guard, Steady;
    r := Begin();
    r := Elect(r, 1, 2);
    assert [] + [N1] == [N1];
  }

  /** Node 2 leads term 2 with the vote of node 3. */
  lemma SecondReign() returns (r: Run)
    ensures Steady(r) && Last(r).nodes.Keys == {1, 2, 3}
    ensures Last(r).nodes[1] == One
    ensures Last(r).nodes[2] == Fresh(2, [3, 1]).(term := 2, voted := Some(2), role := Leader, log := [N2],
                                                  next := [1, 1], matched := [0, 0])
    ensures Last(r).nodes[3] == Fresh(3, [1, 2]).(term := 2, voted := Some(2))
  {
    hide AnyRun, Guard, Steady;
    r := FirstReign();
    r := Elect(r, 2, 3);
    assert [] + [N2] == [N2];
  }

  lemma SendFirst(x: Node, e: Entry)
    requires x.log == [e] && |x.next| == 2 && x.next[0] == 1
    ensures AppendRequest(x, 0) == AppendReq(x.term, x.id, 0, 0, x.commit, [e])
  {
    assert x.log[0..] == [e];
  }

  lemma TakeFirstEntry(y: Node, req: AppendReq, e: Entry)
    requires y.log == [] && y.term == req.term && req.prevIndex == 0 && req.entries == [e] && e.index == 1
    requires req.leaderCommit == 0 && y.commit == 0 && y.applied == 0
    ensures HandleAppend(y, req) == (y.(log := [e], role := Follower), AppendResp(req.term, true))
  {
    assert ConflictFrom([], 0, [e], 0) == [];
    assert AppendUpTo([], [e], 1) == [e];
    assert Merge(y.log, 0, [e]) == [e];
  }

  /** Both logs have one entry of the leader's term, confirmed by the first peer. */
  lemma CommitFirst(x: Node, req: AppendReq, e: Entry)
    requires x.role == Leader && x.log == [e] && e.term == x.term && |x.peers| == 2 && e.cmd == NoopCommand
    requires x.next == [1, 1] && x.matched == [0, 0] && x.commit == 0 && x.applied == 0
    requires req.prevIndex == 0 && req.entries == [e]
    ensures AppendReplied(x, 0, req, AppendResp(x.term, true), [true, true])
            == x.(next := [2, 1], matched := [1, 0], commit := 1, applied := 1)
  {
    var z := Acknowledged(x, 0, req);
    assert z == x.(next := [2, 1], matched := [1, 0]);
    assert Count([true, true], [1, 0], 1, 1) == 1;
    assert HeldByMajority(z, [true, true], 1);
    assert Scan(z, [true, true], 2, 1) == 1;
    assert Scan(z, [true, true], 1, 0) == 1;
    assert ReadRange(x.log, 1, 1) == [e];
    assert ApplyAll(x.db, [e]) == Apply(ApplyAll(x.db, []), e.cmd);
  }

  /** Node 2 has committed and applied its entry at index 1; node 1 still holds another one there. */
  lemma SecondCommits() returns (r: Run)
    ensures Steady(r) && Last(r).nodes.Keys == {1, 2, 3}
    ensures Last(r).nodes[1] == One
    ensures Last(r).nodes[2] == Fresh(2, [3, 1]).(term := 2, voted := Some(2), role := Leader, log := [N2],
                                                  next := [2, 1], matched := [1, 0], commit := 1, applied := 1)
    ensures Last(r).nodes[3] == Fresh(3, [1, 2]).(term := 2, voted := Some(2), log := [N2])
  {
    hide AnyRun, Guard, Steady, HandleAppend, AppendReplied, AppendRequest;
    r := SecondReign();
    var x, y := Last(r).nodes[2], Last(r).nodes[3];
    SendFirst(x, N2);
    TakeFirstEntry(y, AppendRequest(x, 0), N2);
    CommitFirst(x, AppendRequest(x, 0), N2);
    r := Replicate(r, 2, 0, [true, true]);
  }

  /**
   replay counts the whole log as committed, so one restart breaks State Machine Safety: in a run whose only unusual
   step is the restart of node 1, nodes 1 and 2 have applied different entries at index 1.
   */
  lemma RestartBreaksSafety() returns (ws: seq<World>, es: seq<Event>)
    ensures GuardedRun(ws, es) && |es| > 0 && es[|es| - 1] == RestartAt(1) && SteadyRun(ws[..|es|], es[..|es| - 1])
    ensures var w := ws[|es|];
            && 1 in w.nodes && 2 in w.nodes && w.nodes[1].applied >= 1 && w.nodes[2].applied >= 1
            && |w.nodes[1].log| >= 1 && |w.nodes[2].log| >= 1 && w.nodes[1].log[0] != w.nodes[2].log[0]
  {
    var r := SecondCommits();
    var r' := RestartOne(r);
    ws, es := r'.ws, r'.es;
    RunLength(r);
    assert ws[..|es|] == r.ws && es[..|es| - 1] == r.es;
  }

  lemma RestartOne(r: Run) returns (r': Run)
    requires Steady(r) && 1 in Last(r).nodes
    ensures Guard(r') && Continues(r, r') && r'.es == r.es + [RestartAt(1)] && |r'.ws| == |r.ws| + 1
    ensures Last(r').nodes == Last(r).nodes[1 := Restart(Last(r).nodes[1])]
  {
    hide AnyRun, Guard, Steady;
    r' := Extend(r, RestartAt(1));
  }

  // ---- a send by a node that no longer leads

  lemma HeartbeatCommits(x: Node, y: Node, e: Entry)
    requires x.log == [e] == y.log && x.next == [2, 1] && x.commit == 1 && y.commit == 0 && y.applied == 0
    requires y.term == x.term && y.role == Follower && e.cmd == NoopCommand
    ensures HandleAppend(y, AppendRequest(x, 0)).0 == y.(commit := 1, applied := 1)
  {
    var req := AppendRequest(x, 0);
    assert req == AppendReq(x.term, x.id, 1, e.term, 1, []);
    assert Merge(y.log, 1, []) == y.log;
    assert ReadRange(y.log, 1, 1) == [e];
    assert ApplyAll(y.db, [e]) == Apply(ApplyAll(y.db, []), e.cmd);
  }

  lemma Overwrites(x: Node, y: Node, mine: Entry, theirs: Entry)
    requires x.log == [mine] && x.next == [1, 1] && x.commit == 0 && y.log == [theirs] && y.commit == 1 == y.applied
    requires y.term == x.term && mine.term != theirs.term && mine.index == 1
    ensures HandleAppend(y, AppendRequest(x, 1)).0 == y.(role := Follower, log := [mine])
  {
    var req := AppendRequest(x, 1);
    assert x.log[0..] == [mine];
    assert req == AppendReq(x.term, x.id, 0, 0, 0, [mine]);
    ReplaceFirst(mine, theirs);
    KeepsCommit(y, req, [mine]);
  }

  lemma ReplaceFirst(mine: Entry, theirs: Entry)
    requires mine.term != theirs.term && mine.index == 1
    ensures Merge([theirs], 0, [mine]) == [mine]
  {
    assert ConflictFrom([theirs], 0, [mine], 0) == ConflictFrom([theirs][..0], 0, [mine], 1) == [];
    assert AppendUpTo([], [mine], 1) == [mine];
  }

  lemma KeepsCommit(y: Node, req: AppendReq, log: seq<Entry>)
    requires y.term == req.term && req.prevIndex == 0 && req.leaderCommit == 0 && y.commit == y.applied
    requires Merge(y.log, 0, req.entries) == log
    ensures HandleAppend(y, req).0 == y.(role := Follower, log := log)
  {
    hide Merge;
  }

  /** Node 3 has applied the committed entry; node 1 has learnt of term 2 from a reply and follows. */
  lemma SteppedDown() returns (r: Run)
    ensures Steady(r) && Last(r).nodes.Keys == {1, 2, 3}
    ensures Last(r).nodes[1] == Fresh(1, [2, 3]).(term := 2, log := [N1], next := [1, 1], matched := [0, 0])
    ensures Last(r).nodes[3] == Fresh(3, [1, 2]).(term := 2, voted := Some(2), log := [N2], commit := 1, applied := 1)
  {
    hide AnyRun, Guard, Steady, HandleAppend, AppendReplied, AppendRequest;
    r := SecondCommits();
    HeartbeatCommits(Last(r).nodes[2], Last(r).nodes[3], N2);
    r := Deliver(r, 2, 0);
    Outdated(Last(r).nodes[1], Last(r).nodes[2], 0, [true, true]);
    r := Replicate(r, 1, 0, [true, true]);
  }

  /**
   The send loop does not look at the role again. In a run without restarts in which only the last send comes from a
   node that has stepped down, node 3 loses an entry it has already applied: index 1 changes under lastApplied = 1.
   */
  lemma StaleSendBreaksSafety() returns (ws: seq<World>, es: seq<Event>, k: nat)
    ensures IsRun(ws, es) && |es| >= 2 && k == |es| - 2 && es[k].SendAppend? && es[k + 1].AppendHandled?
    ensures SteadyRun(ws[..k + 1], es[..k])
    ensures 3 in ws[k].nodes && 3 in ws[k + 2].nodes
    ensures var x, y := ws[k].nodes[3], ws[k + 2].nodes[3];
            && x.applied >= 1 && y.applied >= 1 && |x.log| >= 1 && |y.log| >= 1 && x.log[0] != y.log[0]
  {
    var r := SteppedDown();
    var r' := StaleSend(r);
    ws, es, k := r'.ws, r'.es, |r.es|;
    assert ws[..k + 1] == r.ws && es[..k] == r.es;
  }

  lemma StaleSend(r: Run) returns (r': Run)
    requires Steady(r) && Last(r).nodes.Keys == {1, 2, 3}
    requires Last(r).nodes[1] == Fresh(1, [2, 3]).(term := 2, log := [N1], next := [1, 1], matched := [0, 0])
    requires Last(r).nodes[3] == Fresh(3, [1, 2]).(term := 2, voted := Some(2), log := [N2], commit := 1, applied := 1)
    ensures AnyRun(r') && Continues(r, r') && |r'.ws| == |r.ws| + 2 && |r'.es| == |r.es| + 2
    ensures r'.es[|r.es|].SendAppend? && r'.es[|r.es| + 1].AppendHandled?
    ensures Last(r').nodes.Keys == {1, 2, 3} && Last(r').nodes[3].log == [N1] && Last(r').nodes[3].applied == 1
  {
    hide AnyRun, Guard, Steady, HandleAppend, AppendRequest;
    Overwrites(Last(r).nodes[1], Last(r).nodes[3], N1, N2);
    r' := Deliver(r, 1, 1);
  }

  // ---- a submit that returns although its command is gone

  const C1 := Command(PUT, [1], [1])
  const Put1 := Entry(1, 2, C1)
  const D2 := Entry(2, 2, NoopCommand)

  lemma TakeSecond(x: Node, y: Node)
    requires x.log == [N2, D2] && x.next == [2, 1] && x.commit == 1 && x.term == 2
    requires y.log == [N2] && y.commit == 0 && y.applied == 0 && y.term == 2
    ensures AppendRequest(x, 0) == AppendReq(2, x.id, 1, 2, 1, [D2])
    ensures var (z, resp) := HandleAppend(y, AppendRequest(x, 0));
            z.log == [N2, D2] && z.term == 2 && resp == AppendResp(2, true)
  {
    assert x.log[1..] == [D2];
    assert ConflictFrom([N2], 1, [D2], 0) == [N2];
    assert AppendUpTo([N2], [D2], 1) == [N2] + [D2] == [N2, D2];
    assert Merge(y.log, 1, [D2]) == [N2, D2];
  }

  lemma CommitSecond(x: Node, req: AppendReq)
    requires x.log == [N2, D2] && x.next == [2, 1] && x.matched == [1, 0] && x.commit == 1 && x.term == 2
             && |x.peers| == 2
    requires req.prevIndex == 1 && req.entries == [D2]
    ensures var z := AppendReplied(x, 0, req, AppendResp(2, true), [true, true]);
            && z.commit == 2 && z.log == x.log && z.term == 2 && z.next == [3, 1] && z.matched == [2, 0]
            && z.role == x.role && z.id == x.id && z.peers == x.peers
  {
    var z := Acknowledged(x, 0, req);
    assert z == x.(next := [3, 1], matched := [2, 0]);
    assert Count([true, true], [2, 0], 2, 1) == 1;
    assert HeldByMajority(z, [true, true], 2);
    assert Scan(z, [true, true], 3, 2) == 2;
    assert Scan(z, [true, true], 2, 1) == 2;
  }

  lemma ReplaceBoth(x: Node, y: Node)
    requires x.log == [N2, D2] && x.next == [3, 1] && x.commit == 2 && x.term == 2
    requires y.log == [N1, Put1] && y.commit == 0 && y.term == 1
    ensures var z := HandleAppend(y, AppendRequest(x, 1)).0; z.log == [N2, D2] && z.commit == 2
  {
    assert x.log[0..] == [N2, D2];
    var es := [N2, D2];
    assert ConflictFrom(y.log, 0, es, 0) == ConflictFrom(y.log[..0], 0, es, 1) == ConflictFrom([], 0, es, 2) == [];
    assert AppendUpTo([], es, 1) == [N2];
    assert AppendUpTo([], es, 2) == [N2] + [D2] == es;
    assert Merge(y.log, 0, es) == es;
  }

  lemma SecondEntry() returns (r: Run, k: nat)
    ensures Steady(r) && Last(r).nodes.Keys == {1, 2, 3}
    ensures k < |r.es| && k < |r.ws| && r.es[k] == ClientAppend(1, C1) && 1 in r.ws[k].nodes
    ensures |r.ws[k].nodes[1].log| == 1 && r.ws[k].nodes[1].term == 1 && |r.ws[k].nodes[1].peers| == 2
    ensures Last(r).nodes[1].log == [N1, Put1] && Last(r).nodes[1].commit == 0 && Last(r).nodes[1].term == 1
    ensures Last(r).nodes[2] == Fresh(2, [3, 1]).(term := 2, voted := Some(2), role := Leader, log := [N2, D2],
                                                  next := [2, 1], matched := [1, 0], commit := 1, applied := 1)
    ensures Last(r).nodes[3] == Fresh(3, [1, 2]).(term := 2, voted := Some(2), log := [N2])
  {
    hide AnyRun, Guard, Steady;
    var r0 := SecondCommits();
    k := |r0.es|;
    RunLength(r0);
    var r1 := ClientAsks(r0, 1, C1);
    assert [N1] + [Put1] == [N1, Put1] && [N2] + [D2] == [N2, D2];
    r := ClientAsks(r1, 2, NoopCommand);
    assert r.ws[k] == r0.ws[k];
  }

  const Submit1 := Safety.SubmitCall(C1, [true, true])

  /** With both peers connected, a leader of three accepts every call. */
  lemma CallAccepted(ws: seq<World>, es: seq<Event>, k: nat, n: NodeId, c: Safety.Call)
    requires IsRun(ws, es) && k < |es| && es[k] == ClientAppend(n, Safety.Payload(c)) && n in ws[k].nodes
    requires |ws[k].nodes[n].peers| == 2 && (c.SubmitCall? ==> c.connected == [true, true])
    ensures Safety.Called(ws, es, k, n, c, |ws[k].nodes[n].log| + 1)
  {
    assert UpCount([true, true], 2) == 2;
  }

  /**
   submit waits for its index, not for its entry. In a guarded run without restarts, the index node 1 waits for gets
   committed on node 1 with another leader's command in it.
   */
  lemma SubmitNeedsOwnEntry() returns (ws: seq<World>, es: seq<Event>, k: nat)
    ensures SteadyRun(ws, es)
    ensures Safety.Waited(ws, es, k, |es|, 1, Submit1, 2) && !Safety.Returned(ws, es, k, |es|, 1, Submit1, 2)
    ensures |ws[|es|].nodes[1].log| >= 2 && ws[|es|].nodes[1].log[1].cmd != C1
  {
    hide Do, Enabled, Init, Guarded;
    var r, j := SecondEntry();
    var r' := CommitOther(r);
    ws, es, k := r'.ws, r'.es, j;
    assert r.ws[j] == r'.ws[j] && r.es[j] == r'.es[j];
    RunLength(r');
    RunLength(r);
    CallAccepted(ws, es, k, 1, Submit1);
  }

  lemma CommitOther(r: Run) returns (r': Run)
    requires Steady(r) && Last(r).nodes.Keys == {1, 2, 3}
    requires Last(r).nodes[1].log == [N1, Put1] && Last(r).nodes[1].commit == 0 && Last(r).nodes[1].term == 1
    requires Last(r).nodes[2] == Fresh(2, [3, 1]).(term := 2, voted := Some(2), role := Leader, log := [N2, D2],
                                                   next := [2, 1], matched := [1, 0], commit := 1, applied := 1)
    requires Last(r).nodes[3] == Fresh(3, [1, 2]).(term := 2, voted := Some(2), log := [N2])
    ensures Steady(r') && Continues(r, r') && 1 in Last(r').nodes
    ensures Last(r').nodes[1].log == [N2, D2] && Last(r').nodes[1].commit == 2
  {
    hide AnyRun, Guard, Steady, HandleAppend, AppendReplied, AppendRequest;
    TakeSecond(Last(r).nodes[2], Last(r).nodes[3]);
    CommitSecond(Last(r).nodes[2], AppendRequest(Last(r).nodes[2], 0));
    var r1 := Replicate(r, 2, 0, [true, true]);
    ReplaceBoth(Last(r1).nodes[2], Last(r1).nodes[1]);
    r' := Deliver(r1, 2, 1);
  }

  // ---- a get that returns an outdated value although its node leads

  const C3 := Command(PUT, [3], [3])
  const Q2 := Entry(2, 3, C3)
  const G1 := Entry(1, 2, NoopCommand)

  lemma TakeThird(x: Node, y: Node)
    requires x.log == [N2, D2, Q2] && x.next == [3, 1] && x.commit == 2 && x.term == 2
    requires y.log == [N2, D2] && y.term == 2
    ensures AppendRequest(x, 0) == AppendReq(2, x.id, 2, 2, 2, [Q2])
    ensures HandleAppend(y, AppendRequest(x, 0)).1 == AppendResp(2, true)
  {
    assert x.log[2..] == [Q2];
  }

  lemma CommitThird(x: Node, req: AppendReq)
    requires x.log == [N2, D2, Q2] && x.next == [3, 1] && x.matched == [2, 0] && x.commit == 2 && x.term == 2
             && |x.peers| == 2
    requires req.prevIndex == 2 && req.entries == [Q2]
    ensures var z := AppendReplied(x, 0, req, AppendResp(2, true), [true, true]);
            z.commit == 3 && z.log == x.log && z.term == 2 && z.role == x.role && z.id == x.id
  {
    var z := Acknowledged(x, 0, req);
    assert z == x.(next := [4, 1], matched := [3, 0]);
    assert Count([true, true], [3, 0], 3, 1) == 1;
    assert HeldByMajority(z, [true, true], 3);
    assert Scan(z, [true, true], 4, 3) == 3;
    assert Scan(z, [true, true], 3, 2) == 3;
  }

  lemma ReplaceAll(y: Node, req: AppendReq)
    requires req == AppendReq(2, 2, 0, 0, 2, [N2, D2, Q2])
    requires y.log == [N1, G1] && y.commit == 0 && y.applied == 0 && y.db == map[] && y.term == 1
    ensures HandleAppend(y, req).0 ==
            y.(term := 2, voted := None, role := Follower, log := [N2, D2, Q2], commit := 2, applied := 2)
  {
    var es := req.entries;
    assert ConflictFrom(y.log, 0, es, 0) == ConflictFrom(y.log[..0], 0, es, 1) == ConflictFrom([], 0, es, 2)
        == ConflictFrom([], 0, es, 3) == [];
    assert AppendUpTo([], es, 1) == [N2];
    assert AppendUpTo([], es, 2) == [N2] + [D2] == [N2, D2];
    assert AppendUpTo([], es, 3) == [N2, D2] + [Q2] == es;
    assert Merge(y.log, 0, es) == es;
    NoopsApplied(es);
  }

  lemma NoopsApplied(es: seq<Entry>)
    requires es == [N2, D2, Q2]
    ensures ApplyAll(map[], ReadRange(es, 1, 2)) == map[]
  {
    assert ReadRange(es, 1, 2) == [N2, D2];
    assert [N2, D2][..1] == [N2] && [N2][..0] == [];
    assert ApplyAll(map[], [N2]) == Apply(ApplyAll(map[], []), NoopCommand);
  }

  /** Node 2 leads term 2 and has committed two entries through node 3; node 1 still believes it leads term 1. */
  lemma TwoCommitted() returns (r: Run)
    ensures Steady(r) && Last(r).nodes.Keys == {1, 2, 3} && Last(r).nodes[1] == One
    ensures var x, y := Last(r).nodes[2], Last(r).nodes[3];
            && x.role == Leader && x.id == 2 && x.term == 2 && x.peers == [3, 1] && x.log == [N2, D2]
            && x.next == [3, 1]
            && x.matched == [2, 0] && x.commit == 2 && y.log == [N2, D2] && y.term == 2
  {
    hide AnyRun, Guard, Steady, HandleAppend, AppendReplied, AppendRequest;
    var r0 := SecondCommits();
    var r1 := ClientAsks(r0, 2, NoopCommand);
    assert [N2] + [D2] == [N2, D2];
    TakeSecond(Last(r1).nodes[2], Last(r1).nodes[3]);
    CommitSecond(Last(r1).nodes[2], AppendRequest(Last(r1).nodes[2], 0));
    r := Replicate(r1, 2, 0, [true, true]);
  }

  /** The message node 2 sends to node 1 between appending its third entry and committing it. */
  const Late := AppendCall(2, 1, 1, AppendReq(2, 2, 0, 0, 2, [N2, D2, Q2]))

  /** A third entry is submitted at event a and committed by moment |r.es|; Late is under way. */
  lemma ThreeCommitted() returns (r: Run, a: nat)
    ensures Steady(r) && Last(r).nodes.Keys == {1, 2, 3} && Last(r).nodes[1] == One && Late in Last(r).appendCalls
    ensures var x := Last(r).nodes[2];
            x.role == Leader && x.id == 2 && x.term == 2 && x.log == [N2, D2, Q2] && x.commit == 3
    ensures a < |r.es| && a < |r.ws| && r.es[a] == ClientAppend(2, C3) && 2 in r.ws[a].nodes
    ensures r.ws[a].nodes[2].term == 2 && |r.ws[a].nodes[2].log| == 2 && |r.ws[a].nodes[2].peers| == 2
  {
    hide AnyRun, Guard, Steady, HandleAppend, AppendReplied, AppendRequest;
    var r0 := TwoCommitted();
    RunLength(r0);
    a := |r0.es|;
    var r1 := ClientAsks(r0, 2, C3);
    assert [N2, D2] + [Q2] == [N2, D2, Q2];
    var r2 := SendLate(r1);
    TakeThird(Last(r2).nodes[2], Last(r2).nodes[3]);
    CommitThird(Last(r2).nodes[2], AppendRequest(Last(r2).nodes[2], 0));
    r := Replicate(r2, 2, 0, [true, true]);
    CallsStay(r2, r);
    assert r.ws[a] == r0.ws[a];
  }

  lemma SendLate(r: Run) returns (r': Run)
    requires Steady(r) && 2 in Last(r).nodes && Last(r).nodes[2].role == Leader && Last(r).nodes[2].id == 2
    requires var x := Last(r).nodes[2];
             x.term == 2 && x.peers == [3, 1] && x.log == [N2, D2, Q2] && x.next == [3, 1] && x.commit == 2
    ensures Steady(r') && Continues(r, r') && Last(r').nodes == Last(r).nodes && Late in Last(r').appendCalls
  {
    hide AnyRun, Guard, Steady;
    var x := Last(r).nodes[2];
    assert x.log[0..] == [N2, D2, Q2];
    r' := Extend(r, SendAppend(2, 1));
  }

  /** Late arrives and node 1 wins term 3: it leads again, with two entries applied. */
  lemma LeadsAgain(r: Run) returns (r': Run)
    requires Steady(r) && Last(r).nodes.Keys == {1, 2, 3} && Late in Last(r).appendCalls
    requires Last(r).nodes[1] == One.(log := [N1, G1])
    requires var x := Last(r).nodes[2]; x.role == Leader && x.id == 2 && x.term == 2 && x.log == [N2, D2, Q2]
    ensures Steady(r') && Continues(r, r') && 1 in Last(r').nodes
    ensures var x := Last(r').nodes[1];
            x.role == Leader && x.commit == 2 == x.applied && x.db == map[] && [N2, D2] <= x.log
  {
    hide AnyRun, Guard, Steady, HandleAppend;
    ReplaceAll(Last(r).nodes[1], Late.req);
    var r1 := Extend(r, AppendHandled(Late));
    r' := Elect(r1, 1, 2);
  }

  const Submit3 := Safety.SubmitCall(C3, [true, true])

  /**
   After waiting, get only asks whether its node leads, not whether its own entry is still in place. In a guarded run
   without restarts, a submit on node 2 returns at moment b; a get called afterwards on node 1 finds its index committed
   and its node leading, in a later term, and returns the empty string for the key just written.
   */
  lemma GetNeedsOwnEntry() returns (ws: seq<World>, es: seq<Event>, a: nat, b: nat, k: nat)
    ensures SteadyRun(ws, es) && b <= k && C3.op == PUT && C3.value != []
    ensures Safety.Returned(ws, es, a, b, 2, Submit3, 3)
    ensures Safety.Waited(ws, es, k, |es|, 1, Safety.GetCall, 2)
    ensures !Safety.Returned(ws, es, k, |es|, 1, Safety.GetCall, 2)
    ensures FinishGet(ws[|es|].nodes[1], C3.key) == Some([])
  {
    hide Do, Enabled, Init, Guarded;
    var r0, a' := ThreeCommitted();
    RunLength(r0);
    var r1 := ClientAsks(r0, 1, NoopCommand);
    assert [N1] + [G1] == [N1, G1];
    CallsStay(r0, r1);
    var r := LeadsAgain(r1);
    RunLength(r);
    ws, es, a, b, k := r.ws, r.es, a', |r0.es|, |r0.es|;
    assert r.ws[a] == r0.ws[a] && r.es[a] == r0.es[a] && r.ws[b] == r0.ws[b] && r.es[k] == r1.es[k];
    assert r.ws[k] == r0.ws[k];
    CallAccepted(ws, es, a, 2, Submit3);
    CallAccepted(ws, es, k, 1, Safety.GetCall);
  }
}
