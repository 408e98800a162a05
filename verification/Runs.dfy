/** The invariants along whole runs, and how the histories of two moments relate. */
module Runs {
  import opened Types
  import opened Quorums
  import opened Nodes
  import opened Clusters
  import opened Histories
  import E = ElectionProof
  import L = LogProof
  import C = CompletenessProof
  import D = CommitProof

  lemma {:induction false} RunInv(ws: seq<World>, es: seq<Event>, k: nat)
    requires IsRun(ws, es) && k <= |es|
    ensures E.Inv(ws[k], HistoryAt(ws, es, k)) && L.Inv(ws[k], HistoryAt(ws, es, k))
  {
    hide E.Inv, L.Inv, C.Inv, D.Inv, Do, Track, Enabled, Guarded, Init;
    if k == 0 {
      E.InitInv(ws[0]);
      L.InitInv(ws[0]);
    } else {
      RunInv(ws, es, k - 1);
      E.StepKeeps(ws[k - 1], HistoryAt(ws, es, k - 1), es[k - 1]);
      L.StepKeeps(ws[k - 1], HistoryAt(ws, es, k - 1), es[k - 1]);
    }
  }

  lemma {:induction false} GuardedInv(ws: seq<World>, es: seq<Event>, k: nat)
    requires GuardedUpTo(ws, es, k)
    ensures C.Inv(ws[k], HistoryAt(ws, es, k))
  {
    hide E.Inv, L.Inv, C.Inv, D.Inv, Do, Track, Enabled, Guarded, Init;
    if k == 0 {
      C.InitInv(ws[0]);
    } else {
      RunInv(ws, es, k - 1);
      GuardedInv(ws, es, k - 1);
      C.StepKeeps(ws[k - 1], HistoryAt(ws, es, k - 1), es[k - 1]);
    }
  }

  // ---- the history only grows

  ghost predicate Later(h: History, h': History) {
    && L.Grow(h.logs, h'.logs)
    && (forall t :: t in h.reigns ==> t in h'.reigns && h'.reigns[t] == h.reigns[t])
    && D.AcksGrow(h, h')
  }

  lemma SameReigns(w: World, h: History, ev: Event)
    requires Enabled(w, ev) && !ev.TallyAt?
    ensures Track(w, h, ev).reigns == h.reigns
  {
  }

  lemma StepLater(w: World, h: History, ev: Event)
    requires E.Inv(w, h) && L.Inv(w, h) && Enabled(w, ev)
    ensures Later(h, Track(w, h, ev))
  {
    hide E.Inv, L.Inv, Track, Enabled, L.NoRival, L.TermsUpTo, Wins;
    D.HistoryGains(w, h, ev);
    if ev.TallyAt? {
      L.WinnerFacts(w, h, ev.n);
      TallyReigns(w, h, ev.n);
    } else {
      SameReigns(w, h, ev);
    }
  }

  lemma TallyReigns(w: World, h: History, n: NodeId)
    requires Enabled(w, TallyAt(n)) && (Wins(w.nodes[n]) ==> w.nodes[n].term !in h.reigns)
    ensures forall t :: t in h.reigns ==>
              t in Track(w, h, TallyAt(n)).reigns && Track(w, h, TallyAt(n)).reigns[t] == h.reigns[t]
  {
  }

  lemma LaterTrans(a: History, b: History, c: History)
    requires Later(a, b) && Later(b, c)
    ensures Later(a, c)
  {
    forall t | t in a.logs ensures t in c.logs && a.logs[t] <= c.logs[t] {
      assert a.logs[t] <= b.logs[t] && b.logs[t] <= c.logs[t];
      assert c.logs[t][..|a.logs[t]|] == b.logs[t][..|a.logs[t]|];
    }
  }

  lemma {:induction false} RunLater(ws: seq<World>, es: seq<Event>, k: nat, l: nat)
    requires IsRun(ws, es) && k <= l <= |es|
    ensures Later(HistoryAt(ws, es, k), HistoryAt(ws, es, l))
    decreases l - k
  {
    if k < l {
      RunLater(ws, es, k, l - 1);
      RunInv(ws, es, l - 1);
      StepLater(ws[l - 1], HistoryAt(ws, es, l - 1), es[l - 1]);
      LaterTrans(HistoryAt(ws, es, k), HistoryAt(ws, es, l - 1), HistoryAt(ws, es, l));
    }
  }

  lemma StepSameNodes(w: World, ev: Event)
    requires Enabled(w, ev)
    ensures Do(w, ev).nodes.Keys == w.nodes.Keys
  {
    hide StartElection, HandleVote, VoteReplied, VoteLost, Tally, AppendOwn, AppendRequest, HandleAppend, AppendReplied,
         AppendLost, Restart, CrashInMerge, AdoptTerm;
  }

  lemma {:induction false} SameNodes(ws: seq<World>, es: seq<Event>, k: nat)
    requires IsRun(ws, es) && k <= |es|
    ensures ws[k].nodes.Keys == ws[0].nodes.Keys
  {
    if k > 0 {
      hide Do, Enabled, Init;
      SameNodes(ws, es, k - 1);
      StepSameNodes(ws[k - 1], es[k - 1]);
    }
  }

  // ---- where the recorded logs come from

  /** At moment k, node n led term t with exactly this log. */
  ghost predicate LedWith(ws: seq<World>, k: nat, n: NodeId, t: nat, log: seq<Entry>) {
    && k < |ws| && n in ws[k].nodes
    && ws[k].nodes[n].role == Leader && ws[k].nodes[n].term == t && ws[k].nodes[n].log == log
  }

  lemma TermLogStep(w: World, h: History, ev: Event, t: nat) returns (n: NodeId)
    requires Enabled(w, ev) && t in Track(w, h, ev).logs
    ensures (t in h.logs && Track(w, h, ev).logs[t] == h.logs[t])
            || (n in Do(w, ev).nodes && Do(w, ev).nodes[n].role == Leader && Do(w, ev).nodes[n].term == t
                && Do(w, ev).nodes[n].log == Track(w, h, ev).logs[t])
  {
    n := 0;
    if ev.TallyAt? || ev.ClientAppend? {
      n := ev.n;
    } else {
      D.SameTermLogs(w, h, ev);
    }
  }

  lemma {:induction false} TermLogWasHeld(ws: seq<World>, es: seq<Event>, l: nat, t: nat) returns (k: nat, n: NodeId)
    requires IsRun(ws, es) && l <= |es| && t in HistoryAt(ws, es, l).logs
    ensures k <= l && LedWith(ws, k, n, t, HistoryAt(ws, es, l).logs[t])
    decreases l
  {
    hide Do, Track, Enabled, Init;
    var m := TermLogStep(ws[l - 1], HistoryAt(ws, es, l - 1), es[l - 1], t);
    var before := HistoryAt(ws, es, l - 1).logs;
    if t in before && before[t] == HistoryAt(ws, es, l).logs[t] {
      k, n := TermLogWasHeld(ws, es, l - 1, t);
    } else {
      k, n := l, m;
    }
  }

  lemma SentStep(w: World, h: History, ev: Event, c: AppendCall)
    requires Enabled(w, ev) && c in Track(w, h, ev).sent
    ensures (c in h.sent && Track(w, h, ev).sent[c] == h.sent[c])
            || (ev.SendAppend? && ev.n == c.from && ev.n in w.nodes && w.nodes[ev.n].log == Track(w, h, ev).sent[c]
                && w.nodes[ev.n].term == c.req.term && w.nodes[ev.n].commit == c.req.leaderCommit)
  {
  }

  /** The log behind a message is the log its sender had when it sent it, in the message's term. */
  lemma {:induction false} SentFrom(ws: seq<World>, es: seq<Event>, l: nat, c: AppendCall) returns (k: nat)
    requires IsRun(ws, es) && l <= |es| && c in HistoryAt(ws, es, l).sent
    ensures k < l && es[k].SendAppend? && es[k].n == c.from && c.from in ws[k].nodes
    ensures ws[k].nodes[c.from].log == HistoryAt(ws, es, l).sent[c] && ws[k].nodes[c.from].term == c.req.term
    ensures ws[k].nodes[c.from].commit == c.req.leaderCommit
    decreases l
  {
    hide Do, Track, Enabled, Init;
    SentStep(ws[l - 1], HistoryAt(ws, es, l - 1), es[l - 1], c);
    var before := HistoryAt(ws, es, l - 1).sent;
    if c in before && before[c] == HistoryAt(ws, es, l).sent[c] {
      k := SentFrom(ws, es, l - 1, c);
    } else {
      k := l - 1;
    }
  }

  /** In a guarded run the sender was leading that term. */
  lemma SentWasHeld(ws: seq<World>, es: seq<Event>, l: nat, c: AppendCall) returns (k: nat)
    requires GuardedRun(ws, es) && l <= |es| && c in HistoryAt(ws, es, l).sent
    ensures k < l && LedWith(ws, k, c.from, c.req.term, HistoryAt(ws, es, l).sent[c])
    ensures ws[k].nodes[c.from].commit == c.req.leaderCommit
  {
    k := SentFrom(ws, es, l, c);
    assert Guarded(ws[k], es[k]);
  }

  // ---- where the recorded confirmations come from

  lemma AckStep(w: World, h: History, ev: Event, v: NodeId, t: nat)
    requires Wired(w) && Enabled(w, ev) && AckOf(Track(w, h, ev), v, t) > AckOf(h, v, t)
    ensures (v in Do(w, ev).nodes && Do(w, ev).nodes[v].role == Leader && Do(w, ev).nodes[v].term == t)
            || (ev.AppendHandled? && Confirmed(Do(w, ev), v, t, AckOf(Track(w, h, ev), v, t)))
  {
    if ev.AppendHandled? {
      var c := ev.acall;
      var r := AppendReply(c, HandleAppend(w.nodes[c.to], c.req).1);
      C.AckChange(h, c.to, c.req.term, c.req.prevIndex + |c.req.entries|);
      assert r in Do(w, ev).appendReplies && r.resp.success && v == c.to && t == c.req.term;
      assert AckOf(Track(w, h, ev), v, t) == c.req.prevIndex + |c.req.entries|;
      assert Confirmed(Do(w, ev), v, t, AckOf(Track(w, h, ev), v, t));
    }
  }

  lemma RepliesStay(w: World, ev: Event, v: NodeId, t: nat, i: nat)
    requires Enabled(w, ev) && Confirmed(w, v, t, i)
    ensures Confirmed(Do(w, ev), v, t, i)
  {
    hide StartElection, HandleVote, VoteReplied, VoteLost, Tally, AppendOwn, AppendRequest, HandleAppend, AppendReplied,
         AppendLost, Restart, CrashInMerge, AdoptTerm;
    var r :| r in w.appendReplies && r.resp.success && r.call.to == v && r.call.req.term == t
             && i <= r.call.req.prevIndex + |r.call.req.entries|;
    assert r in Do(w, ev).appendReplies;
  }

  lemma ConfirmedDown(w: World, v: NodeId, t: nat, i: nat, i': nat)
    requires Confirmed(w, v, t, i) && i' <= i
    ensures Confirmed(w, v, t, i')
  {
  }

  /** Whoever is recorded to have confirmed an index either replied so or leads the term. */
  lemma {:induction false} AckWasGiven(ws: seq<World>, es: seq<Event>, k: nat, v: NodeId, t: nat, i: nat)
    requires IsRun(ws, es) && k <= |es| && 1 <= i <= AckOf(HistoryAt(ws, es, k), v, t)
    ensures Confirmed(ws[k], v, t, i)
            || (t in HistoryAt(ws, es, k).reigns && HistoryAt(ws, es, k).reigns[t].leader == v)
    decreases k
  {
    hide Do, Track, Enabled, Init, Confirmed;
    var before := HistoryAt(ws, es, k - 1);
    var h := HistoryAt(ws, es, k);
    RunLater(ws, es, k - 1, k);
    if i <= AckOf(before, v, t) {
      AckWasGiven(ws, es, k - 1, v, t, i);
      if Confirmed(ws[k - 1], v, t, i) {
        RepliesStay(ws[k - 1], es[k - 1], v, t, i);
      }
    } else {
      RunInv(ws, es, k - 1);
      AckStep(ws[k - 1], before, es[k - 1], v, t);
      if Confirmed(ws[k], v, t, AckOf(h, v, t)) {
        ConfirmedDown(ws[k], v, t, AckOf(h, v, t), i);
      } else {
        RunInv(ws, es, k);
        assert E.RoleOk(h, v, ws[k].nodes[v]);
      }
    }
  }

  // ---- chosen indices, in worlds and in histories

  lemma ConfirmedIsAcked(w: World, h: History, v: NodeId, t: nat, i: nat)
    requires C.RepliesOk(w, h) && Confirmed(w, v, t, i)
    ensures AckOf(h, v, t) >= i
  {
  }

  lemma LeaderAcked(ws: seq<World>, es: seq<Event>, j: nat, k: nat, m: NodeId)
    requires GuardedRun(ws, es) && j <= k <= |es| && m in ws[j].nodes && ws[j].nodes[m].role == Leader
    ensures var x := ws[j].nodes[m];
            var h := HistoryAt(ws, es, k);
            AckOf(h, m, x.term) >= |x.log| && x.term in h.logs && x.log <= h.logs[x.term]
  {
    hide Do, Enabled, Init, Guarded, HistoryAt;
    RunInv(ws, es, j);
    GuardedInv(ws, es, j);
    RunLater(ws, es, j, k);
    assert C.LeaderOk(HistoryAt(ws, es, j), m, ws[j].nodes[m]);
    assert L.NodeOk(HistoryAt(ws, es, j).logs, ws[j].nodes[m]);
  }

  lemma ChosenAtIsChosen(ws: seq<World>, es: seq<Event>, k: nat, j: nat, m: NodeId, i: nat)
    requires GuardedRun(ws, es) && k <= |es| && ChosenAt(ws, k, j, m, i)
    ensures var x := ws[j].nodes[m];
            var h := HistoryAt(ws, es, k);
            C.Chosen(ws[k].nodes.Keys, h, x.term, i) && x.log <= h.logs[x.term]
  {
    hide Do, Enabled, Init, Guarded, HistoryAt, Confirmed;
    var x := ws[j].nodes[m];
    var h := HistoryAt(ws, es, k);
    LeaderAcked(ws, es, j, k, m);
    GuardedInv(ws, es, k);
    forall v | v in Confirmers(ws[k], m, x.term, i) ensures v in C.AckedBy(ws[k].nodes.Keys, h, x.term, i) {
      if v != m {
        ConfirmedIsAcked(ws[k], h, v, x.term, i);
      }
    }
    QuorumGrows(ws[k].nodes.Keys, Confirmers(ws[k], m, x.term, i), C.AckedBy(ws[k].nodes.Keys, h, x.term, i));
  }

  lemma ChosenWasHeld(ws: seq<World>, es: seq<Event>, k: nat, t: nat, i: nat) returns (j: nat, m: NodeId)
    requires IsRun(ws, es) && k <= |es| && C.Chosen(ws[k].nodes.Keys, HistoryAt(ws, es, k), t, i)
    ensures ChosenAt(ws, k, j, m, i) && LedWith(ws, j, m, t, HistoryAt(ws, es, k).logs[t])
  {
    hide Do, Enabled, Init, HistoryAt, Confirmed;
    var h := HistoryAt(ws, es, k);
    var ids := ws[k].nodes.Keys;
    j, m := TermLogWasHeld(ws, es, k, t);
    RunInv(ws, es, j);
    RunLater(ws, es, j, k);
    assert E.RoleOk(HistoryAt(ws, es, j), m, ws[j].nodes[m]);
    forall v | v in C.AckedBy(ids, h, t, i) ensures v in Confirmers(ws[k], m, t, i) {
      AckWasGiven(ws, es, k, v, t, i);
    }
    QuorumGrows(ids, C.AckedBy(ids, h, t, i), Confirmers(ws[k], m, t, i));
  }

  // ---- restarts

  lemma CoveredIsBacked(ws: seq<World>, es: seq<Event>, k: nat, x: Node)
    requires GuardedRun(ws, es) && k <= |es| && HoldsOnlyChosen(ws, k, x)
    ensures D.Backed(ws[k].nodes.Keys, HistoryAt(ws, es, k), x.term, x.log, |x.log|)
  {
    hide Do, Enabled, Init, HistoryAt, Guarded, IsQuorum;
    if x.log != [] {
      var j: nat, m: NodeId, i: nat :| Covered(ws, k, x, j, m, i);
      ChosenAtIsChosen(ws, es, k, j, m, i);
      var h, y := HistoryAt(ws, es, k), ws[j].nodes[m];
      assert h.logs[y.term][..|x.log|] == y.log[..|x.log|] == x.log;
      assert D.BackedBy(ws[k].nodes.Keys, h, x.log, |x.log|, y.term, i);
    }
  }

  lemma BackedIsCovered(ws: seq<World>, es: seq<Event>, k: nat, x: Node)
    requires IsRun(ws, es) && k <= |es|
    requires D.Backed(ws[k].nodes.Keys, HistoryAt(ws, es, k), x.term, x.log, |x.log|)
    ensures HoldsOnlyChosen(ws, k, x)
  {
    hide Do, Enabled, Init, HistoryAt, ChosenAt;
    if x.log != [] {
      var ids, h := ws[k].nodes.Keys, HistoryAt(ws, es, k);
      var t: nat, i: nat :| t <= x.term && D.BackedBy(ids, h, x.log, |x.log|, t, i);
      var j, m := ChosenWasHeld(ws, es, k, t, i);
      assert x.log == h.logs[t][..|x.log|];
      assert Covered(ws, k, x, j, m, i);
    }
  }

  lemma {:induction false} SteadyInv(ws: seq<World>, es: seq<Event>, k: nat)
    requires SteadyUpTo(ws, es, k)
    ensures D.Inv(ws[k], HistoryAt(ws, es, k))
  {
    hide E.Inv, L.Inv, C.Inv, D.NodesOk, Do, Track, Enabled, Guarded, Init, D.Backed, HoldsOnlyChosen;
    if k == 0 {
      D.InitInv(ws[0]);
    } else {
      RunInv(ws, es, k - 1);
      GuardedInv(ws, es, k - 1);
      SteadyInv(ws, es, k - 1);
      if IsRestart(es[k - 1]) {
        assert RestartsCovered(ws, es, k - 1);
        CoveredIsBacked(ws, es, k - 1, ws[k].nodes[Restarted(es[k - 1])]);
      }
      D.StepKeeps(ws[k - 1], HistoryAt(ws, es, k - 1), es[k - 1]);
    }
  }
}
