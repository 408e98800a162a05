/**
 A five-node run showing that a positive reply must not be used once its term is over: a reply that node 1 received in
 term 1 and processes while leading term 3 makes it commit an entry that only two of five nodes hold.
 */
module StaleReplies {
  import opened Types
  import opened Nodes
  import opened Clusters
  import opened Schedules
  import opened FiveNodes

  const B1 := Entry(1, 2, Command(PUT, [1], [1]))
  const B4 := Entry(4, 2, NoopCommand)

  /** Node 1's message to node 2 in term 1, and node 2's answer. */
  const Old := AppendCall(1, 2, 3, AppendReq(1, 1, 0, 0, 0, [A1, B1]))
  const OldReply := AppendReply(Old, AppendResp(1, true))

  const L1 := F1.(term := 1, voted := Some(1), role := Leader, log := [A1, B1],
                  next := [1, 1, 1, 1], matched := [0, 0, 0, 0])

  lemma TermOne() returns (r: Run)
    ensures Steady(r) && OldReply in Last(r).appendReplies
    ensures Last(r).nodes == Five(L1, F2.(term := 1, log := [A1, B1]), F3,
                                  F4.(term := 1, voted := Some(1)), F5.(term := 1, voted := Some(1)))
  {
    hide AnyRun, Guard, Steady, HandleAppend;
    var r0 := Begin();
    var r1 := WinWithFirstTwo(r0, 1, 5, 4);
    assert [] + [A1] == [A1] && [A1] + [B1] == [A1, B1];
    var r2 := ClientAsks(r1, 1, B1.cmd);
    assert Last(r2).nodes[1] == L1;
    assert CallOf(Last(r2), 1, 3) == Old by { assert L1.log[0..] == L1.log; }
    MergeTwo(A1, B1);
    Accepts(F2, Old.req, [A1, B1]);
    r := Deliver(r2, 1, 3);
  }

  const L4 := F4.(term := 2, voted := Some(4), role := Leader, log := [A2],
                  next := [1, 1, 1, 1], matched := [0, 0, 0, 0])

  lemma TermTwo() returns (r: Run)
    ensures Steady(r) && OldReply in Last(r).appendReplies
    ensures Last(r).nodes == Five(L1, F2.(term := 1, log := [A1, B1]), F3.(term := 2, voted := Some(4)),
                                  L4, F5.(term := 2, voted := Some(4)))
  {
    hide AnyRun, Guard, Steady;
    var r0 := TermOne();
    r := WinWithFirstTwo(r0, 4, 5, 3);
    assert [] + [A2] == [A2];
    assert Last(r).nodes[4] == L4;
    CallsStay(r0, r);
  }

  /** Node 4 sends A2 to the peer in a slot, whose log is empty or the one of term 1. */
  lemma SpreadOne(r: Run, slot: nat, n: NodeId) returns (r': Run)
    requires Steady(r) && 4 in Last(r).nodes && Last(r).nodes[4] == L4 && slot < 4 && L4.peers[slot] == n
             && n in Last(r).nodes
    requires var y := Last(r).nodes[n]; y.term <= 2 && (y.log == [] || y.log == [A1, B1]) && y.commit == 0 == y.applied
    ensures Steady(r') && Continues(r, r')
    ensures Last(r').nodes == Last(r).nodes[n := Follow(Last(r).nodes[n], 2).(log := [A2])]
  {
    hide AnyRun, Guard, Steady, HandleAppend;
    assert L4.log[0..] == [A2];
    MergeFirst(Last(r).nodes[n].log, A2);
    Accepts(Last(r).nodes[n], AppendRequest(L4, slot), [A2]);
    r' := Deliver(r, 4, slot);
  }

  const P1 := L1.(term := 2, voted := None, role := Follower, log := [A2])
  const P2 := F2.(term := 2, log := [A2])
  const P3 := F3.(term := 2, voted := Some(4), log := [A2])
  const P5 := F5.(term := 2, voted := Some(4), log := [A2])

  lemma Followed()
    ensures Follow(L1, 2).(log := [A2]) == P1 && Follow(F2.(term := 1, log := [A1, B1]), 2).(log := [A2]) == P2
    ensures Follow(F3.(term := 2, voted := Some(4)), 2).(log := [A2]) == P3
    ensures Follow(F5.(term := 2, voted := Some(4)), 2).(log := [A2]) == P5
  {
  }

  lemma SpreadToVoters() returns (r: Run)
    ensures Steady(r) && OldReply in Last(r).appendReplies
    ensures Last(r).nodes == Five(L1, F2.(term := 1, log := [A1, B1]), P3, L4, P5)
  {
    hide AnyRun, Guard, Steady, Follow;
    Followed();
    var r0 := TermTwo();
    var r1 := SpreadOne(r0, 0, 5);
    r := SpreadOne(r1, 1, 3);
    CallsStay(r0, r);
  }

  lemma TermTwoSpread() returns (r: Run)
    ensures Steady(r) && OldReply in Last(r).appendReplies && Last(r).nodes == Five(P1, P2, P3, L4, P5)
  {
    hide AnyRun, Guard, Steady, Follow;
    Followed();
    var r0 := SpreadToVoters();
    var r1 := SpreadOne(r0, 2, 2);
    r := SpreadOne(r1, 3, 1);
    CallsStay(r0, r);
  }

  const R1 := P1.(term := 3, voted := Some(1), role := Leader, log := [A2, B3], next := [2, 2, 2, 2])

  /** Node 1 leads term 3 and its NOOP reaches node 3. */
  lemma TermThree() returns (r: Run)
    ensures Steady(r) && OldReply in Last(r).appendReplies
    ensures Last(r).nodes == Five(R1.(next := [2, 2, 3, 2], matched := [0, 0, 2, 0]), P2,
                                  P3.(term := 3, voted := None, log := [A2, B3]), Voter(L4, 3, 1), Voter(P5, 3, 1))
  {
    hide AnyRun, Guard, Steady, HandleAppend, AppendReplied, AppendRequest;
    var r0 := TermTwoSpread();
    var r1 := WinWithFirstTwo(r0, 1, 5, 4);
    assert [A2] + [B3] == [A2, B3];
    assert Last(r1).nodes[1] == R1;
    SendSecond(R1, A2, B3, 2);
    MergeSecond(A2, B3);
    Accepts(P3, AppendRequest(R1, 2), [A2, B3]);
    OneHolder(R1, A2, B3, 2, AppendRequest(R1, 2));
    assert [2, 2, 2, 2][2 := 3] == [2, 2, 3, 2] && [0, 0, 0, 0][2 := 2] == [0, 0, 2, 0];
    r := Replicate(r1, 1, 2, Up);
    CallsStay(r0, r);
  }

  const R4 := L4.(term := 4, voted := Some(4), role := Leader, log := [A2, B4], next := [2, 2, 2, 2])

  /** Node 4 leads term 4 and commits another entry at index 2 through nodes 2 and 5. */
  lemma TermFour() returns (r: Run)
    ensures Steady(r) && OldReply in Last(r).appendReplies && 1 in Last(r).nodes && 4 in Last(r).nodes
    ensures Last(r).nodes[1] == R1.(next := [2, 2, 3, 2], matched := [0, 0, 2, 0])
    ensures Last(r).nodes[4].log == [A2, B4] && Last(r).nodes[4].applied == 2
  {
    hide AnyRun, Guard, Steady, HandleAppend, AppendReplied, AppendRequest;
    var r0 := TermThree();
    var r1 := WinWithFirstAndThird(r0, 4, 5, 2);
    assert [A2] + [B4] == [A2, B4];
    assert Last(r1).nodes[4] == R4;
    SendSecond(R4, A2, B4, 2);
    MergeSecond(A2, B4);
    Accepts(Last(r1).nodes[2], AppendRequest(R4, 2), [A2, B4]);
    OneHolder(R4, A2, B4, 2, AppendRequest(R4, 2));
    var r2 := Replicate(r1, 4, 2, Up);
    var x := Last(r2).nodes[4];
    SendSecond(x, A2, B4, 0);
    Accepts(Last(r2).nodes[5], AppendRequest(x, 0), [A2, B4]);
    TwoHolders(x, A2, B4, 2, 0, AppendRequest(x, 0), AppendResp(4, true));
    r := Replicate(r2, 4, 0, Up);
    CallsStay(r0, r);
  }

  /**
   Replies are not checked against the current term. In a run in which only the last step, the processing of a
   positive reply to a call of term 1, breaks the guard, nodes 1 and 4 have applied different entries at index 2.
   */
  lemma StaleReplyBreaksSafety() returns (ws: seq<World>, es: seq<Event>)
    ensures IsRun(ws, es) && |es| > 0 && es[|es| - 1].AppendAnswered? && SteadyRun(ws[..|es|], es[..|es| - 1])
    ensures var w := ws[|es|];
            && 1 in w.nodes && 4 in w.nodes && w.nodes[1].applied >= 2 && w.nodes[4].applied >= 2
            && |w.nodes[1].log| >= 2 && |w.nodes[4].log| >= 2 && w.nodes[1].log[1] != w.nodes[4].log[1]
  {
    hide Do, Enabled, Init, Guarded;
    var r := TermFour();
    var r' := UseOldReply(r);
    ws, es := r'.ws, r'.es;
    RunLength(r);
    assert ws[..|es|] == r.ws && es[..|es| - 1] == r.es;
  }

  lemma UseOldReply(r: Run) returns (r': Run)
    requires Steady(r) && OldReply in Last(r).appendReplies && 1 in Last(r).nodes && 4 in Last(r).nodes
    requires Last(r).nodes[1] == R1.(next := [2, 2, 3, 2], matched := [0, 0, 2, 0])
    ensures AnyRun(r') && Continues(r, r') && r'.es == r.es + [AppendAnswered(OldReply, Up)] && |r'.ws| == |r.ws| + 1
    ensures 1 in Last(r').nodes && 4 in Last(r').nodes && Last(r').nodes[4] == Last(r).nodes[4]
    ensures Last(r').nodes[1].log == [A2, B3] && Last(r').nodes[1].applied == 2
  {
    hide AnyRun, Guard, Steady, AppendReplied;
    TwoHolders(Last(r).nodes[1], A2, B3, 2, 3, Old.req, OldReply.resp);
    r' := Extend(r, AppendAnswered(OldReply, Up));
  }
}
