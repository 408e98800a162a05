/**
 A two-node run showing that the condition on restarts is sufficient for safety and not necessary: a node restarts with
 an entry nobody else has, and yet nothing that can happen afterwards ever puts another entry in its place, because the
 other node cannot win an election without it.
 */
module TwoNodes {
  import opened Types
  import opened Quorums
  import opened Logs
  import opened Nodes
  import opened Clusters
  import opened Schedules

  const A1 := Entry(1, 1, NoopCommand)

  predicate First(log: seq<Entry>) { log == [] || log[0] == A1 }

  // ---- A1 stays first

  lemma {:induction false} CutKeepsFirst(log: seq<Entry>, prev: nat, entries: seq<Entry>, i: nat)
    requires First(log) && prev <= |log| && (prev == 0 ==> First(entries)) && i <= |entries|
    ensures var r := ConflictFrom(log, prev, entries, i); First(r) && prev <= |r| && (log != [] ==> r != [])
    decreases |entries| - i
  {
    if i < |entries| {
      if prev + i < |log| && log[prev + i].term != entries[i].term {
        CutKeepsFirst(log[..prev + i], prev, entries, i + 1);
      } else {
        CutKeepsFirst(log, prev, entries, i + 1);
      }
    }
  }

  lemma {:induction false} AppendKeepsFirst(log: seq<Entry>, entries: seq<Entry>, k: nat)
    requires First(log) && (log == [] ==> First(entries)) && k <= |entries|
    ensures First(AppendUpTo(log, entries, k)) && (log != [] || k > 0 ==> AppendUpTo(log, entries, k) != [])
  {
    if k > 0 {
      AppendKeepsFirst(log, entries, k - 1);
    }
  }

  lemma MergeKeepsFirst(log: seq<Entry>, prev: nat, entries: seq<Entry>, k: nat)
    requires First(log) && prev <= |log| && (prev == 0 ==> First(entries)) && k <= |entries|
    ensures First(MergeUpTo(log, prev, entries, k)) && (log != [] ==> MergeUpTo(log, prev, entries, k) != [])
  {
    CutKeepsFirst(log, prev, entries, 0);
    AppendKeepsFirst(ConflictFrom(log, prev, entries, 0), entries, k);
  }

  // ---- what every continuation keeps

  /** A request of node 2 that names a last entry is one of a node with a log. */
  predicate Honest(req: VoteReq, log: seq<Entry>) {
    (req.lastTerm > 0 ==> req.lastIndex >= 1) && (req.lastIndex >= 1 ==> log != [])
  }

  predicate NodesKeep(a: Node, b: Node) {
    && a.id == 1 && a.peers == [2] && b.id == 2 && b.peers == [1]
    && a.log != [] && First(a.log) && First(b.log) && (b.role == Leader ==> b.log != [])
    && (b.election.Some? ==>
          && Honest(b.election.value.req, b.log)
          && (b.election.value.votes >= 2 ==> b.election.value.req.lastIndex >= 1))
  }

  predicate VoteCallsKeep(calls: set<VoteCall>, b: Node) {
    forall c | c in calls :: c.from == 2 ==> Honest(c.req, b.log)
  }

  predicate VoteRepliesKeep(replies: set<VoteReply>) {
    forall r | r in replies :: r.call.from == 2 && r.call.to == 1 && r.resp.granted ==> r.call.req.lastIndex >= 1
  }

  predicate AppendCallsKeep(calls: set<AppendCall>) {
    forall c | c in calls :: c.req.prevIndex == 0 ==> First(c.req.entries)
  }

  predicate Keeps(w: World) {
    && w.nodes.Keys == {1, 2} && NodesKeep(w.nodes[1], w.nodes[2])
    && VoteCallsKeep(w.voteCalls, w.nodes[2]) && VoteRepliesKeep(w.voteReplies) && AppendCallsKeep(w.appendCalls)
  }

  lemma CampaignKeeps(w: World, ev: Event)
    requires Keeps(w) && Enabled(w, ev) && (ev.StartElectionAt? || ev.AskVote? || ev.VoteUnanswered?)
    ensures Keeps(Do(w, ev))
  {
  }

  lemma AnswerKeeps(w: World, ev: Event)
    requires Keeps(w) && Enabled(w, ev) && ev.VoteAnswered?
    ensures Keeps(Do(w, ev))
  {
  }

  lemma VotingKeeps(w: World, ev: Event)
    requires Keeps(w) && Enabled(w, ev) && ev.VoteHandled?
    ensures Keeps(Do(w, ev))
  {
  }

  lemma TallyKeeps(w: World, ev: Event)
    requires Keeps(w) && Enabled(w, ev) && ev.TallyAt?
    ensures Keeps(Do(w, ev))
  {
  }

  lemma SendingKeeps(w: World, ev: Event)
    requires Keeps(w) && Enabled(w, ev) && (ev.ClientAppend? || ev.SendAppend?)
    ensures Keeps(Do(w, ev))
  {
    if ev.SendAppend? {
      assert w.nodes[ev.n].log[0..] == w.nodes[ev.n].log;
    }
  }

  lemma AnsweringKeeps(w: World, ev: Event)
    requires Keeps(w) && Enabled(w, ev) && (ev.AppendUnanswered? || ev.AppendAnswered?)
    ensures Keeps(Do(w, ev))
  {
    hide Scan, First, Honest;
  }

  lemma HandlingKeeps(w: World, ev: Event)
    requires Keeps(w) && Enabled(w, ev) && (ev.AppendHandled? || ev.CrashMerging?)
    ensures Keeps(Do(w, ev))
  {
    hide MergeUpTo;
    var c := ev.acall;
    var x := w.nodes[c.to];
    if c.req.term >= x.term && PrevOk(x.log, c.req) {
      MergeKeepsFirst(x.log, c.req.prevIndex, c.req.entries, if ev.CrashMerging? then ev.kept else |c.req.entries|);
    }
  }

  lemma RestartingKeeps(w: World, ev: Event)
    requires Keeps(w) && Enabled(w, ev) && IsRestart(ev) && !ev.CrashMerging?
    ensures Keeps(Do(w, ev))
  {
  }

  lemma StepKeeps(w: World, ev: Event)
    requires Keeps(w) && Enabled(w, ev)
    ensures Keeps(Do(w, ev))
  {
    hide Keeps, Enabled, Do;
    match ev
    case StartElectionAt(_) => CampaignKeeps(w, ev);
    case AskVote(_) => CampaignKeeps(w, ev);
    case VoteHandled(_) => VotingKeeps(w, ev);
    case VoteAnswered(_) => AnswerKeeps(w, ev);
    case VoteUnanswered(_) => CampaignKeeps(w, ev);
    case TallyAt(_) => TallyKeeps(w, ev);
    case ClientAppend(_, _) => SendingKeeps(w, ev);
    case SendAppend(_, _) => SendingKeeps(w, ev);
    case AppendAnswered(_, _) => AnsweringKeeps(w, ev);
    case AppendUnanswered(_) => AnsweringKeeps(w, ev);
    case AppendHandled(_) => HandlingKeeps(w, ev);
    case CrashMerging(_, _) => HandlingKeeps(w, ev);
    case RestartAt(_) => RestartingKeeps(w, ev);
    case CrashAtTerm(_, _) => RestartingKeeps(w, ev);
    case CrashAdopting(_, _) => RestartingKeeps(w, ev);
  }

  lemma {:induction false} RunKeeps(ws: seq<World>, es: seq<Event>, k: nat, l: nat)
    requires IsRun(ws, es) && k <= l <= |es| && Keeps(ws[k])
    ensures Keeps(ws[l])
    decreases l - k
  {
    hide Do, Enabled, Keeps, Init;
    if k < l {
      RunKeeps(ws, es, k, l - 1);
      StepKeeps(ws[l - 1], es[l - 1]);
    }
  }

  // ---- the run: node 1 wins term 1 with the vote of node 2 and restarts before its entry has gone anywhere

  const Ask := VoteCall(1, 2, VoteReq(1, 1, 0, 0))
  const Grant := VoteReply(Ask, VoteResp(1, true))
  const L1 := Fresh(1, [2]).(term := 1, voted := Some(1), role := Leader, log := [A1], next := [1], matched := [0])
  const V2 := Fresh(2, [1]).(term := 1, voted := Some(1))
  const Elected := World(map[1 := L1, 2 := V2], {Ask}, {Grant}, {}, {})

  lemma Begin() returns (r: Run)
    ensures Steady(r) && r.es == [] && |r.ws| == 1
    ensures Last(r) == World(map[1 := Fresh(1, [2]), 2 := Fresh(2, [1])], {}, {}, {}, {})
  {
    r := Run([World(map[1 := Fresh(1, [2]), 2 := Fresh(2, [1])], {}, {}, {}, {})], []);
    assert Last(r).nodes.Keys == {1, 2};
    assert Elems([2]) == {2} && Elems([1]) == {1} by {
      assert [2][0] == 2 && [1][0] == 1;
    }
  }

  lemma ElectFirst() returns (r: Run)
    ensures Steady(r) && |r.es| == 5 && Last(r) == Elected
  {
    hide AnyRun, Guard, Steady;
    var r0 := Begin();
    var c1 := Fresh(1, [2]).(term := 1, voted := Some(1), role := Candidate, election := Some(Election(Ask.req, 0, 1)));
    var r1 := Extend(r0, StartElectionAt(1));
    assert Last(r1) == World(map[1 := c1, 2 := Fresh(2, [1])], {}, {}, {}, {});
    var r2 := Extend(r1, AskVote(1));
    assert Last(r2) == World(map[1 := c1, 2 := Fresh(2, [1])], {Ask}, {}, {}, {});
    var r3 := Extend(r2, VoteHandled(Ask));
    assert Last(r3) == World(map[1 := c1, 2 := V2], {Ask}, {Grant}, {}, {});
    var r4 := Extend(r3, VoteAnswered(Grant));
    var c2 := c1.(election := Some(Election(Ask.req, 1, 2)));
    assert Last(r4) == World(map[1 := c2, 2 := V2], {Ask}, {Grant}, {}, {});
    r := Crown(r4, c2);
  }

  lemma Crown(r: Run, x: Node) returns (r': Run)
    requires Steady(r) && Last(r) == World(map[1 := x, 2 := V2], {Ask}, {Grant}, {}, {}) && |r.es| == 4
    requires x == Fresh(1, [2]).(term := 1, voted := Some(1), role := Candidate,
                                 election := Some(Election(Ask.req, 1, 2)))
    ensures Steady(r') && |r'.es| == 5 && Last(r') == Elected
  {
    hide AnyRun, Guard, Steady;
    r' := Extend(r, TallyAt(1));
    assert Tally(x) == L1 by {
      assert [] + [A1] == [A1];
    }
  }

  /** Nobody but the leader has confirmed anything. */
  lemma NotCovered(ws: seq<World>, x: Node)
    requires |ws| >= 6 && ws[5].nodes.Keys == {1, 2} && ws[5].appendReplies == {} && x.log != []
    ensures !HoldsOnlyChosen(ws, 5, x)
  {
    forall j: nat, m: NodeId, i: nat | Covered(ws, 5, x, j, m, i) ensures false {
      var q := Confirmers(ws[5], m, ws[j].nodes[m].term, i);
      assert q <= {m};
      SubsetSize(q, {m});
      assert false;
    }
  }

  /**
   A steady run ends with an uncovered restart after which node 1 has applied A1. Whatever happens next, no log of
   either node ever holds anything but A1 at index 1.
   */
  lemma UncoveredYetHarmless() returns (ws: seq<World>, es: seq<Event>)
    ensures GuardedRun(ws, es) && SteadyUpTo(ws, es, 5) && |es| == 6
    ensures es[5] == RestartAt(1) && !RestartsCovered(ws, es, 5)
    ensures 1 in ws[6].nodes && ws[6].nodes[1].applied == 1 && ws[6].nodes[1].log == [A1]
    ensures forall vs: seq<World>, fs: seq<Event>, l: nat, n: NodeId ::
              IsRun(vs, fs) && ws <= vs && es <= fs && 6 <= l <= |fs| && n in vs[l].nodes ==> First(vs[l].nodes[n].log)
  {
    hide Do, Enabled, Init, Guarded, Keeps;
    var r := ElectFirst();
    RunLength(r);
    var r' := RestartFirst(r);
    ws, es := r'.ws, r'.es;
    assert r'.ws[5] == Last(r);
    NotCovered(ws, ws[6].nodes[1]);
    forall k: nat | k < 5 ensures RestartsCovered(ws, es, k) {
      assert RestartsCovered(r.ws, r.es, k);
      if IsRestart(r.es[k]) {
        StillCovered(r.ws, ws, r.es, es, k);
      }
    }
    forall vs: seq<World>, fs: seq<Event>, l: nat, n: NodeId
      | IsRun(vs, fs) && ws <= vs && es <= fs && 6 <= l <= |fs| && n in vs[l].nodes
      ensures First(vs[l].nodes[n].log)
    {
      assert vs[6] == ws[6];
      RunKeeps(vs, fs, 6, l);
      KeepsFirst(vs[l], n);
    }
  }

  lemma KeepsFirst(w: World, n: NodeId)
    requires Keeps(w) && n in w.nodes
    ensures First(w.nodes[n].log)
  {
    assert n in w.nodes.Keys;
  }

  lemma RestartFirst(r: Run) returns (r': Run)
    requires Steady(r) && |r.es| == 5 && Last(r) == Elected
    ensures Guard(r') && Continues(r, r') && r'.es == r.es + [RestartAt(1)] && |r'.ws| == |r.ws| + 1
    ensures Keeps(Last(r')) && 1 in Last(r').nodes && Last(r').nodes[1].applied == 1 && Last(r').nodes[1].log == [A1]
  {
    hide AnyRun, Guard, Steady;
    r' := Extend(r, RestartAt(1));
  }
}
