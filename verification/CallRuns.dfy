/** Client calls can succeed: from every guarded run, an accepted call can go on to return with its own entry. */
module CallRuns {
  import opened Types
  import opened Quorums
  import opened Nodes
  import opened Clusters
  import opened Schedules
  import opened Effects
  import opened CatchUpRuns
  import opened Safety
  import CatchUp
  import ElectionRuns

  /** Distinct connected peers of n, in no later term, to which something is still to be sent. */
  ghost predicate Reachable(w: World, n: NodeId, slots: seq<nat>, connected: seq<bool>) {
    && n in w.nodes && w.nodes[n].role == Leader && |w.nodes[n].peers| == |connected| == |w.nodes[n].next|
    && Distinct(slots)
    && forall s :: s in slots ==>
         && s < |connected| && connected[s] && w.nodes[n].peers[s] in w.nodes
         && w.nodes[w.nodes[n].peers[s]].term <= w.nodes[n].term && w.nodes[n].next[s] <= |w.nodes[n].log|
  }

  /** The peers in `done` are known to hold the whole log. */
  predicate AllHold(x: Node, done: set<nat>) {
    forall s :: s in done ==> s < |x.matched| && x.matched[s] >= |x.log|
  }

  lemma StillReachable(w: World, w': World, n: NodeId, slots: seq<nat>, connected: seq<bool>)
    requires Wired(w) && slots != [] && Reachable(w, n, slots, connected) && OnlyPeer(w, w', n, slots[0])
    ensures Reachable(w', n, slots[1..], connected)
  {
    var x := w.nodes[n];
    forall s | s in slots[1..] ensures s in slots && s != slots[0] {
      var i :| 0 <= i < |slots| - 1 && slots[1..][i] == s;
      assert slots[i + 1] == s;
    }
    forall s | s in slots[1..] ensures x.peers[s] != x.peers[slots[0]] && x.peers[s] != n {
      assert x.peers[s] in Elems(x.peers);
    }
  }

  /** One peer after the other is caught up, until more than half hold the log and the scan has committed it. */
  lemma {:induction false} ReachAll(r: Run, n: NodeId, slots: seq<nat>, connected: seq<bool>, done: set<nat>)
    returns (r': Run)
    requires Guard(r) && slots != [] && Reachable(Last(r), n, slots, connected)
    requires AllHold(Last(r).nodes[n], done) && forall s :: s in done ==> s < |connected| && connected[s] && s !in slots
    ensures Guard(r') && (Steady(r) ==> Steady(r')) && Continues(r, r') && n in Last(r').nodes
    ensures var x, y := Last(r).nodes[n], Last(r').nodes[n];
            && y.role == Leader && y.term == x.term && y.log == x.log && y.peers == x.peers && Settled(y, connected)
            && AllHold(y, done + Elems(slots))
    decreases |slots|
  {
    hide AnyRun, Guard, Steady, Settled;
    ElectionRuns.RunIsWired(r);
    var slot := slots[0];
    assert slot in slots;
    var r1 := RunsCatchUp(r, n, slot, connected);
    HoldsMore(Last(r).nodes[n], PairAt(Last(r1), n, slot), slot, done);
    ElemsFirst(slots);
    if |slots| == 1 {
      r' := r1;
    } else {
      StillReachable(Last(r), Last(r1), n, slots, connected);
      NotAgain(slots);
      r' := ReachAll(r1, n, slots[1..], connected, done + {slot});
      assert done + {slot} + Elems(slots[1..]) == done + Elems(slots);
    }
  }

  lemma HoldsMore(x: Node, p: CatchUp.Pair, slot: nat, done: set<nat>)
    requires AllHold(x, done) && slot !in done && OtherSlotsKept(x, p.leader, slot) && CatchUp.CaughtUp(p, slot)
    ensures AllHold(p.leader, done + {slot})
  {
  }

  lemma ElemsFirst(slots: seq<nat>)
    requires slots != []
    ensures Elems(slots) == {slots[0]} + Elems(slots[1..]) && (|slots| == 1 ==> Elems(slots) == {slots[0]})
  {
    forall s | s in Elems(slots[1..]) ensures s in Elems(slots) {
      var i :| 0 <= i < |slots| - 1 && slots[1..][i] == s;
      assert slots[i + 1] == s;
    }
    forall s | s in Elems(slots) && s != slots[0] ensures s in Elems(slots[1..]) {
      var i :| 0 <= i < |slots| && slots[i] == s;
      assert slots[1..][i - 1] == s;
    }
  }

  lemma NotAgain(slots: seq<nat>)
    requires Distinct(slots) && slots != []
    ensures slots[0] !in slots[1..]
  {
  }

  /** A settled leader that more than half hold the log of, and whose last entry is its own, has committed it all. */
  lemma SettledCommits(x: Node, connected: seq<bool>, slots: seq<nat>)
    requires Settled(x, connected) && AllHold(x, Elems(slots)) && Distinct(slots) && MoreThanHalf(x, |slots|)
    requires x.log != [] && x.log[|x.log| - 1].term == x.term
    requires forall s :: s in slots ==> s < |connected| && connected[s]
    ensures x.commit >= |x.log|
  {
    var i := |x.log|;
    EligibleExactly(x, connected, i);
    DistinctSize(slots);
    SubsetSize(Elems(slots), Holders(connected, x.matched, i, |x.matched|));
    assert !Eligible(x, connected, i);
  }

  /**
   From every guarded run with a leader that accepts a call, and with more than half of the cluster, itself included,
   connected and in no later term, the run can go on, guarded and steady as before, to a moment at which the call
   returns: the index it was given is committed with its own entry in place.
   */
  lemma CallsCanReturn(r: Run, n: NodeId, c: Call, slots: seq<nat>, connected: seq<bool>) returns (r': Run, idx: nat)
    requires Guard(r) && n in Last(r).nodes && Answer(Last(r).nodes[n], c).1.Waiting?
    requires |connected| == |Last(r).nodes[n].peers| && Distinct(slots) && slots != []
    requires MoreThanHalf(Last(r).nodes[n], |slots|)
    requires forall s :: s in slots ==>
               && s < |connected| && connected[s] && Last(r).nodes[n].peers[s] in Last(r).nodes
               && Last(r).nodes[Last(r).nodes[n].peers[s]].term <= Last(r).nodes[n].term
    ensures Guard(r') && (Steady(r) ==> Steady(r')) && Continues(r, r') && |r'.es| == |r'.ws| - 1
    ensures idx == |Last(r).nodes[n].log| + 1 && Returned(r'.ws, r'.es, |r.es|, |r'.es|, n, c, idx)
  {
    hide Do, Enabled, Init, AllHold, Reachable, Settled, Answer, MoreThanHalf, OwnPrefix;
    var x := Last(r).nodes[n];
    CallsAreEvents(Last(r), n, c);
    LeaderAccepts(x, c);
    var r1 := Extend(r, ClientAppend(n, Payload(c)));
    idx := Answer(x, c).1.idx;
    NowReachable(r, r1, n, c, slots, connected);
    NobodyYet(Last(r1).nodes[n]);
    r' := ReachAll(r1, n, slots, connected, {});
    assert {} + Elems(slots) == Elems(slots);
    SamePeers(x, Last(r').nodes[n], |slots|);
    SettledCommits(Last(r').nodes[n], connected, slots);
    assert r'.ws[|r.es|] == Last(r) && r'.ws[|r.es| + 1] == Last(r1) && r'.es[|r.es|] == r1.es[|r.es|];
    LeadingIsEnough(r'.ws, r'.es, |r.es|, |r'.es|, n, c, idx);
  }

  lemma NobodyYet(x: Node)
    ensures AllHold(x, {})
  {
  }

  lemma SamePeers(x: Node, y: Node, k: nat)
    requires y.peers == x.peers && MoreThanHalf(x, k)
    ensures MoreThanHalf(y, k)
  {
  }

  lemma LeaderAccepts(x: Node, c: Call)
    requires Answer(x, c).1.Waiting?
    ensures var y := Answer(x, c).0;
            && x.role == Leader && y.role == Leader && y.term == x.term && y.peers == x.peers && y.next == x.next
            && y.log == OwnPrefix(x, c) && OwnPrefix(x, c)[|x.log|].term == x.term && |OwnPrefix(x, c)| == |x.log| + 1
  {
  }

  lemma NowReachable(r: Run, r1: Run, n: NodeId, c: Call, slots: seq<nat>, connected: seq<bool>)
    requires Guard(r) && n in Last(r).nodes && Last(r).nodes[n].role == Leader && Answer(Last(r).nodes[n], c).1.Waiting?
    requires |r1.ws| > 0 && Last(r1).nodes == Last(r).nodes[n := Answer(Last(r).nodes[n], c).0]
    requires |connected| == |Last(r).nodes[n].peers| && Distinct(slots) && slots != []
    requires forall s :: s in slots ==>
               && s < |connected| && connected[s] && Last(r).nodes[n].peers[s] in Last(r).nodes
               && Last(r).nodes[Last(r).nodes[n].peers[s]].term <= Last(r).nodes[n].term
    ensures Reachable(Last(r1), n, slots, connected)
  {
    hide Init, Do, Enabled, Guarded, Answer, OwnPrefix;
    LeaderAccepts(Last(r).nodes[n], c);
    assert slots[0] in slots;
    MatchIndexSound(r.ws, r.es, |r.es|, n, slots[0]);
    forall s | s in slots ensures Last(r).nodes[n].next[s] <= |Last(r).nodes[n].log| + 1 {
      MatchIndexSound(r.ws, r.es, |r.es|, n, s);
    }
  }

  // ---- and where they cannot

  /** In a cluster of one node there is no reply to run the scan on: without a restart nothing is ever committed. */
  lemma {:induction false} AloneNeverCommits(ws: seq<World>, es: seq<Event>, k: nat, n: NodeId)
    requires IsRun(ws, es) && k <= |es| && ws[0].nodes.Keys == {n} && forall i :: 0 <= i < k ==> !IsRestart(es[i])
    ensures n in ws[k].nodes && ws[k].nodes[n].commit == 0
    ensures ws[k].nodes.Keys == {n} && ws[k].nodes[n].peers == [] && ws[k].appendCalls == {}
  {
    if k == 0 {
      NoPeers(ws[0], n);
    } else {
      AloneNeverCommits(ws, es, k - 1, n);
      AloneStep(ws[k - 1], es[k - 1], n);
    }
  }

  lemma NoPeers(w: World, n: NodeId)
    requires Wired(w) && w.nodes.Keys == {n}
    ensures w.nodes[n].peers == []
  {
    ClusterSize({n}, n, w.nodes[n].peers);
  }

  lemma AloneStep(w: World, ev: Event, n: NodeId)
    requires Enabled(w, ev) && !IsRestart(ev) && w.nodes.Keys == {n} && w.nodes[n].peers == [] && w.appendCalls == {}
    requires w.nodes[n].commit == 0
    ensures Do(w, ev).nodes.Keys == {n} && Do(w, ev).nodes[n].commit == 0
    ensures Do(w, ev).nodes[n].peers == [] && Do(w, ev).appendCalls == {}
  {
  }
}
