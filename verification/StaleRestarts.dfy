/**
 A five-node run showing that for a restart to be safe it is not enough that everything in the node's log has been
 committed somewhere: if the leader that committed it led a later term than the node has seen, a message of a term in
 between can still truncate what the restart has applied.
 */
module StaleRestarts {
  import opened Types
  import opened Nodes
  import opened Clusters
  import opened Schedules
  import opened FiveNodes
  import Safety

  /** A node with an empty log refuses the second entry, and the leader steps back. */
  lemma Refused(x: Node, y: Node, slot: nat)
    requires Second(x, A1, B3, x.matched) && slot < 4 && x.next[slot] == 2 && y.term == x.term && y.log == []
             && y.role == Follower
    ensures HandleAppend(y, AppendRequest(x, slot)) == (y, AppendResp(x.term, false))
    ensures AppendReplied(x, slot, AppendRequest(x, slot), AppendResp(x.term, false), Up)
            == x.(next := x.next[slot := 1])
  {
    SendSecond(x, A1, B3, slot);
  }

  lemma SendBoth(x: Node, slot: nat)
    requires Second(x, A1, B3, x.matched) && slot < 4 && x.next[slot] == 1
    ensures AppendRequest(x, slot) == AppendReq(x.term, x.id, 0, 0, 0, [A1, B3])
  {
    assert x.log[0..] == [A1, B3];
  }

  // ---- the story

  const K1 := F1.(term := 1, voted := Some(1), role := Leader, log := [A1],
                  next := [1, 1, 1, 1], matched := [0, 0, 0, 0])
  const K2 := F2.(term := 1, log := [A1])
  const K4 := F4.(term := 2, voted := Some(4), role := Leader, log := [A2],
                  next := [1, 1, 1, 1], matched := [0, 0, 0, 0])

  /** Node 1 leads term 1 and its NOOP reaches node 2 alone. */
  lemma TermOne() returns (r: Run)
    ensures Steady(r)
    ensures Last(r).nodes == Five(K1, K2, F3, F4.(term := 1, voted := Some(1)), F5.(term := 1, voted := Some(1)))
  {
    hide AnyRun, Guard, Steady, HandleAppend;
    var r0 := Begin();
    var r1 := WinWithFirstTwo(r0, 1, 5, 4);
    assert [] + [A1] == [A1];
    assert Last(r1).nodes[1] == K1;
    assert K1.log[0..] == [A1];
    MergeFirst([], A1);
    Accepts(F2, AppendRequest(K1, 3), [A1]);
    r := Deliver(r1, 1, 3);
  }

  /** Node 4's message to node 2 in term 2, long under way. */
  const Late := AppendCall(4, 2, 2, AppendReq(2, 4, 0, 0, 0, [A2]))

  const V3 := F3.(term := 2, voted := Some(4))
  const V5 := F5.(term := 2, voted := Some(4))

  lemma TermTwo() returns (r: Run)
    ensures Steady(r) && Late in Last(r).appendCalls && Last(r).nodes == Five(K1, K2, V3, K4, V5)
  {
    hide AnyRun, Guard, Steady;
    var r0 := TermOne();
    var r1 := WinWithFirstTwo(r0, 4, 5, 3);
    assert [] + [A2] == [A2];
    assert Last(r1).nodes[4] == K4;
    r := SendLate(r1);
  }

  lemma SendLate(r: Run) returns (r': Run)
    requires Steady(r) && 4 in Last(r).nodes && Last(r).nodes[4] == K4
    ensures Steady(r') && Late in Last(r').appendCalls && Last(r').nodes == Last(r).nodes
  {
    hide AnyRun, Guard, Steady;
    assert K4.log[0..] == [A2];
    r' := Extend(r, SendAppend(4, 2));
  }

  const R1 := K1.(term := 3, log := [A1, B3], next := [2, 2, 2, 2])

  /** Node 1 learns of term 2 from node 5 and wins term 3 without node 2 hearing of it. */
  lemma TermThree() returns (r: Run)
    ensures Steady(r) && Late in Last(r).appendCalls
    ensures Last(r).nodes == Five(R1, K2, Voter(V3, 3, 1), K4, Voter(V5, 3, 1))
  {
    hide AnyRun, Guard, Steady, HandleAppend, AppendReplied, AppendRequest;
    var r0 := TermTwo();
    Outdated(K1, V5, 0, Up);
    var r1 := Replicate(r0, 1, 0, Up);
    var r2 := WinWithFirstAndThird(r1, 1, 5, 3);
    assert [A1] + [B3] == [A1, B3];
    assert Last(r2).nodes[1] == R1;
    CallsStay(r0, r2);
    r := r2;
  }

  /** The leader steps back once and then transfers both entries to the peer in a slot. */
  lemma Transfer(r: Run, slot: nat, v: NodeId) returns (r': Run, x: Node)
    requires Steady(r) && Last(r).nodes.Keys == {1, 2, 3, 4, 5} && Late in Last(r).appendCalls && slot < 4
             && v in Last(r).nodes
    requires var x := Last(r).nodes[1];
             && Second(x, A1, B3, x.matched) && x.id == 1 && x.role == Leader && x.peers == F1.peers
             && x.peers[slot] == v
             && x.next[slot] == 2 && x.term == 3
    requires var y := Last(r).nodes[v]; y.term == 3 && y.role == Follower && y.log == [] && y.commit == 0 == y.applied
    ensures Steady(r') && Late in Last(r').appendCalls
            && x == Last(r).nodes[1].(next := Last(r).nodes[1].next[slot := 1])
    ensures var req := AppendReq(3, 1, 0, 0, 0, [A1, B3]);
            Last(r').nodes == Last(r).nodes[v := Last(r).nodes[v].(log := [A1, B3])]
                                           [1 := AppendReplied(x, slot, req, AppendResp(3, true), Up)]
  {
    hide AnyRun, Guard, Steady, HandleAppend, AppendReplied, AppendRequest;
    x := Last(r).nodes[1].(next := Last(r).nodes[1].next[slot := 1]);
    Refused(Last(r).nodes[1], Last(r).nodes[v], slot);
    var r1 := Replicate(r, 1, slot, Up);
    assert Last(r1).nodes[1] == x && Last(r1).nodes[v] == Last(r).nodes[v];
    SendBoth(x, slot);
    MergeTwo(A1, B3);
    Accepts(Last(r1).nodes[v], AppendRequest(x, slot), [A1, B3]);
    r' := Replicate(r1, 1, slot, Up);
    CallsStay(r, r');
  }

  /** Node 1 commits both entries through nodes 5 and 3. */
  lemma TermThreeCommits() returns (r: Run)
    ensures Steady(r) && Late in Last(r).appendCalls && Last(r).nodes.Keys == {1, 2, 3, 4, 5} && Last(r).nodes[2] == K2
    ensures Last(r).nodes[1].log == [A1, B3] && Last(r).nodes[1].commit == 2
  {
    hide AnyRun, Guard, Steady, AppendReplied;
    var req := AppendReq(3, 1, 0, 0, 0, [A1, B3]);
    var r0 := TermThree();
    var r1, x := Transfer(r0, 0, 5);
    OneHolder(x, A1, B3, 0, req);
    assert [0, 0, 0, 0][0 := 2] == x.matched[0 := 2];
    var r2, y := Transfer(r1, 2, 3);
    TwoHolders(y, A1, B3, 0, 2, req, AppendResp(3, true));
    r := r2;
  }

  /**
   In a guarded run, steady up to event k, node 2 restarts with a log that node 1 had committed in term 3 while node 2
   is still in term 1. The next event, a message of term 2, replaces the entry node 2 has just applied.
   */
  lemma CoverNeedsTerm() returns (ws: seq<World>, es: seq<Event>, k: nat)
    ensures GuardedRun(ws, es) && SteadyUpTo(ws, es, k) && |es| == k + 2 && es[k] == RestartAt(2)
            && es[k + 1].AppendHandled?
    ensures 1 in ws[k].nodes && 2 in ws[k].nodes && 2 in ws[k + 1].nodes && 2 in ws[k + 2].nodes
    ensures ws[k].nodes[2].log <= ws[k].nodes[1].log && |ws[k].nodes[2].log| <= ws[k].nodes[1].commit
    ensures !RestartsCovered(ws, es, k)
    ensures var x, y := ws[k + 1].nodes[2], ws[k + 2].nodes[2];
            x.applied >= 1 && y.applied >= 1 && |x.log| >= 1 && |y.log| >= 1 && x.log[0] != y.log[0]
  {
    hide Do, Enabled, Init, Guarded, HoldsOnlyChosen;
    var r := TermThreeCommits();
    RunLength(r);
    var r' := RestartAndHandle(r);
    ws, es, k := r'.ws, r'.es, |r.es|;
    forall i: nat | i < k ensures RestartsCovered(ws, es, i) {
      assert RestartsCovered(r.ws, r.es, i);
      if IsRestart(r.es[i]) {
        StillCovered(r.ws, ws, r.es, es, i);
      }
    }
    if RestartsCovered(ws, es, k) {
      Safety.StateMachineSafety(ws, es, k + 1, k + 2, 2, 2, 1);
      assert false;
    }
  }

  lemma RestartAndHandle(r: Run) returns (r': Run)
    requires Steady(r) && Late in Last(r).appendCalls && 2 in Last(r).nodes && Last(r).nodes[2] == K2
    ensures Guard(r') && Continues(r, r') && r'.es == r.es + [RestartAt(2), AppendHandled(Late)]
            && |r'.ws| == |r.ws| + 2
    ensures r'.ws[|r.ws|].nodes == Last(r).nodes[2 := Restart(K2)]
    ensures 2 in Last(r').nodes && Last(r').nodes[2].log == [A2] && Last(r').nodes[2].applied == 1
  {
    hide AnyRun, Guard, Steady, HandleAppend, Restart;
    var r1 := Extend(r, RestartAt(2));
    Replaced();
    r' := Extend(r1, AppendHandled(Late));
  }

  lemma Replaced()
    ensures Restart(K2).applied == 1 && Restart(K2).log == [A1]
    ensures HandleAppend(Restart(K2), Late.req).0.log == [A2] && HandleAppend(Restart(K2), Late.req).0.applied == 1
  {
    MergeFirst([A1], A2);
  }
}
