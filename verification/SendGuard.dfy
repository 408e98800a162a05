/**
 The guard on sends is exactly what the invariant behind Leader Completeness needs: up to then a leader loses its office
 only with its term or its process, so whoever sends without leading sends in a term it never led.
 */
module SendGuard {
  import opened Types
  import opened Quorums
  import opened Nodes
  import opened Clusters
  import opened Histories
  import opened Runs
  import E = ElectionProof
  import L = LogProof
  import C = CompletenessProof

  /** A node that still has its leader's vectors and is the recorded leader of its present term leads. */
  ghost predicate NodeInOffice(h: History, n: NodeId, x: Node) {
    |x.next| == |x.peers| && x.peers != [] && x.term in h.reigns && h.reigns[x.term].leader == n ==> x.role == Leader
  }

  ghost predicate InOffice(w: World, h: History) {
    forall n | n in w.nodes :: NodeInOffice(h, n, w.nodes[n])
  }

  ghost predicate NoSelfCalls(w: World) {
    forall c | c in w.appendCalls :: c.from != c.to
  }

  /** A leader has been in the term it led. */
  ghost predicate ReignsPast(w: World, h: History) {
    forall t | t in h.reigns :: h.reigns[t].leader in w.nodes && t <= w.nodes[h.reigns[t].leader].term
  }

  lemma ReignsArePast(w: World, h: History)
    requires E.Inv(w, h)
    ensures ReignsPast(w, h)
  {
    forall t | t in h.reigns ensures h.reigns[t].leader in w.nodes && t <= w.nodes[h.reigns[t].leader].term {
      assert E.ReignOk(w.nodes.Keys, h, t, h.reigns[t]);
      assert E.BallotOk(w, h, Slot(h.reigns[t].leader, t));
    }
  }

  /** How a node changes in any step but a won election. */
  ghost predicate Kept(h: History, n: NodeId, x: Node, y: Node) {
    && y.peers == x.peers && x.term <= y.term
    && (y.term == x.term ==>
          || y.role == Leader || y.next == [] || (y.role == x.role && |y.next| == |x.next|)
          || (x.term in h.reigns ==> h.reigns[x.term].leader != n))
  }

  lemma KeptInOffice(w: World, h: History, n: NodeId, y: Node)
    requires InOffice(w, h) && ReignsPast(w, h) && n in w.nodes && Kept(h, n, w.nodes[n], y)
    ensures NodeInOffice(h, n, y)
  {
    assert NodeInOffice(h, n, w.nodes[n]);
  }

  ghost predicate OneKept(w: World, h: History, w': World, n: NodeId) {
    n in w.nodes && n in w'.nodes && w'.nodes == w.nodes[n := w'.nodes[n]] && Kept(h, n, w.nodes[n], w'.nodes[n])
  }

  lemma VoteStepKept(w: World, h: History, ev: Event) returns (n: NodeId)
    requires Enabled(w, ev) && (ev.StartElectionAt? || ev.AskVote? || ev.VoteHandled? || ev.VoteAnswered?
                                || ev.VoteUnanswered? || (ev.TallyAt? && !Wins(w.nodes[ev.n])))
    ensures OneKept(w, h, Do(w, ev), n) && Track(w, h, ev).reigns == h.reigns
  {
    hide CandidateLogOk;
    match ev
    case StartElectionAt(m) => n := m;
    case AskVote(m) =>
      n := m;
      assert w.nodes[m := w.nodes[m]] == w.nodes;
    case VoteHandled(c) => n := c.to;
    case VoteAnswered(r) => n := r.call.from;
    case VoteUnanswered(m) => n := m;
    case TallyAt(m) => n := m;
  }

  lemma LeaderStepKept(w: World, h: History, ev: Event) returns (n: NodeId)
    requires Enabled(w, ev) && (ev.ClientAppend? || ev.SendAppend? || ev.AppendAnswered? || ev.AppendUnanswered?)
    ensures OneKept(w, h, Do(w, ev), n) && Track(w, h, ev).reigns == h.reigns
  {
    hide Scan;
    match ev
    case ClientAppend(m, _) => n := m;
    case SendAppend(m, _) =>
      n := m;
      assert w.nodes[m := w.nodes[m]] == w.nodes;
    case AppendAnswered(r, _) => n := r.call.from;
    case AppendUnanswered(c) => n := c.from;
  }

  lemma FollowerStepKept(w: World, h: History, ev: Event) returns (n: NodeId)
    requires Enabled(w, ev) && (ev.AppendHandled? || IsRestart(ev)) && C.CallsOk(w, h) && NoSelfCalls(w)
    ensures OneKept(w, h, Do(w, ev), n) && Track(w, h, ev).reigns == h.reigns
  {
    if ev.AppendHandled? {
      assert C.SentByLeader(h, ev.acall);
      n := ev.acall.to;
    } else {
      n := Restarted(ev);
    }
  }

  lemma WonInOffice(w: World, h: History, n: NodeId)
    requires InOffice(w, h) && Enabled(w, TallyAt(n)) && Wins(w.nodes[n])
    ensures InOffice(Do(w, TallyAt(n)), Track(w, h, TallyAt(n)))
  {
    var w', h' := Do(w, TallyAt(n)), Track(w, h, TallyAt(n));
    forall m | m in w'.nodes ensures NodeInOffice(h', m, w'.nodes[m]) {
      assert NodeInOffice(h, m, w.nodes[m]);
    }
  }

  lemma StepInOffice(w: World, h: History, ev: Event)
    requires E.Inv(w, h) && C.CallsOk(w, h) && NoSelfCalls(w) && InOffice(w, h) && Enabled(w, ev)
    ensures InOffice(Do(w, ev), Track(w, h, ev))
  {
    hide Do, Track, E.Inv, C.CallsOk, NoSelfCalls, Kept, Wins;
    ReignsArePast(w, h);
    if ev.TallyAt? && Wins(w.nodes[ev.n]) {
      WonInOffice(w, h, ev.n);
    } else {
      var n;
      if ev.ClientAppend? || ev.SendAppend? || ev.AppendAnswered? || ev.AppendUnanswered? {
        n := LeaderStepKept(w, h, ev);
      } else if ev.AppendHandled? || IsRestart(ev) {
        n := FollowerStepKept(w, h, ev);
      } else {
        n := VoteStepKept(w, h, ev);
      }
      KeptInOffice(w, h, n, Do(w, ev).nodes[n]);
      OthersInOffice(w, h, Do(w, ev), Track(w, h, ev), n);
    }
  }

  lemma OthersInOffice(w: World, h: History, w': World, h': History, n: NodeId)
    requires InOffice(w, h) && OneKept(w, h, w', n) && NodeInOffice(h, n, w'.nodes[n]) && h'.reigns == h.reigns
    ensures InOffice(w', h')
  {
    forall m | m in w'.nodes ensures NodeInOffice(h', m, w'.nodes[m]) {
      if m != n {
        assert NodeInOffice(h, m, w.nodes[m]);
      }
    }
  }

  lemma StepNoSelfCalls(w: World, ev: Event)
    requires Wired(w) && NoSelfCalls(w) && Enabled(w, ev)
    ensures NoSelfCalls(Do(w, ev))
  {
    hide StartElection, HandleVote, VoteReplied, VoteLost, Tally, AppendOwn, AppendRequest, HandleAppend, AppendReplied,
         AppendLost, Restart, CrashInMerge, AdoptTerm;
    if ev.SendAppend? {
      assert w.nodes[ev.n].peers[ev.slot] in Elems(w.nodes[ev.n].peers);
    }
  }

  lemma {:induction false} RunInOffice(ws: seq<World>, es: seq<Event>, k: nat)
    requires GuardedUpTo(ws, es, k)
    ensures InOffice(ws[k], HistoryAt(ws, es, k)) && NoSelfCalls(ws[k])
  {
    if k > 0 {
      hide Do, Track, Enabled, Guarded, InOffice, NoSelfCalls, Wired, C.Has, C.LeadersOk, C.AcksOk, C.RepliesOk, Init;
      RunInOffice(ws, es, k - 1);
      RunInv(ws, es, k - 1);
      GuardedInv(ws, es, k - 1);
      StepInOffice(ws[k - 1], HistoryAt(ws, es, k - 1), es[k - 1]);
      StepNoSelfCalls(ws[k - 1], es[k - 1]);
    }
  }

  /** After a guarded beginning, a send keeps the invariant behind Leader Completeness if and only if its node leads. */
  lemma SendGuardExactly(ws: seq<World>, es: seq<Event>, k: nat)
    requires GuardedUpTo(ws, es, k) && k < |es| && es[k].SendAppend?
    ensures C.Inv(ws[k + 1], HistoryAt(ws, es, k + 1)) <==> ws[k].nodes[es[k].n].role == Leader
  {
    hide InOffice, NoSelfCalls, C.Inv, E.Inv, L.Inv, Init, HistoryAt;
    var h := HistoryAt(ws, es, k);
    RunInv(ws, es, k);
    GuardedInv(ws, es, k);
    RunInOffice(ws, es, k);
    NextHistory(ws, es, k);
    if ws[k].nodes[es[k].n].role == Leader {
      C.StepKeeps(ws[k], h, es[k]);
    } else {
      UnguardedSendBreaks(ws[k], h, es[k].n, es[k].slot);
    }
  }

  lemma NextHistory(ws: seq<World>, es: seq<Event>, k: nat)
    requires IsRun(ws, es) && k < |es|
    ensures HistoryAt(ws, es, k + 1) == Track(ws[k], HistoryAt(ws, es, k), es[k])
  {
  }

  lemma UnguardedSendBreaks(w: World, h: History, n: NodeId, slot: nat)
    requires InOffice(w, h) && Enabled(w, SendAppend(n, slot)) && w.nodes[n].role != Leader
    ensures !C.Inv(Do(w, SendAppend(n, slot)), Track(w, h, SendAppend(n, slot)))
  {
    hide C.Has, C.LeadersOk, C.AcksOk, C.RepliesOk;
    var x := w.nodes[n];
    var c := AppendCall(n, x.peers[slot], slot, AppendRequest(x, slot));
    assert NodeInOffice(h, n, x);
    assert c in Do(w, SendAppend(n, slot)).appendCalls;
    assert !C.SentByLeader(Track(w, h, SendAppend(n, slot)), c);
  }
}
