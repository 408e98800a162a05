/** How a leader brings one follower up to date when every call between the two is delivered and answered. */
module CatchUp {
  import opened Types
  import opened Logs
  import opened Nodes
  import opened Clusters
  import opened Histories
  import Runs
  import Safety
  import L = LogProof

  datatype Pair = Pair(leader: Node, follower: Node)

  /** One AppendEntries call: build, handle, process the reply. */
  function Exchange(p: Pair, slot: nat, connected: seq<bool>): Pair
    requires slot < |p.leader.next| && slot < |p.leader.matched| && |connected| == |p.leader.matched|
  {
    var req := AppendRequest(p.leader, slot);
    var (f, resp) := HandleAppend(p.follower, req);
    Pair(AppendReplied(p.leader, slot, req, resp, connected), f)
  }

  /** A leader and a follower whose term is not higher, with logs and indices as every guarded run keeps them. */
  ghost predicate Ready(p: Pair, slot: nat, connected: seq<bool>) {
    var l := p.leader;
    && slot < |l.next| && slot < |l.matched| && |connected| == |l.matched|
    && p.follower.term <= l.term && WellIndexed(l.log) && Matching(p.follower.log, l.log)
    && 1 <= l.next[slot] <= |l.log| + 1 && l.matched[slot] <= |l.log|
  }

  /** The leader's log is a prefix of the follower's, and the leader knows it. */
  ghost predicate CaughtUp(p: Pair, slot: nat) {
    slot < |p.leader.matched| && p.leader.log <= p.follower.log && p.leader.matched[slot] == |p.leader.log|
  }

  /** The parts of the leader an exchange about `slot` leaves alone. */
  ghost predicate SameLeader(l: Node, l': Node) {
    l'.log == l.log && l'.term == l.term && |l'.next| == |l.next| && |l'.matched| == |l.matched|
  }

  lemma AdvanceKeeps(n: Node, connected: seq<bool>)
    requires |connected| == |n.matched|
    ensures var m := AdvanceCommit(n, connected);
            m.log == n.log && m.term == n.term && m.next == n.next && m.matched == n.matched
  {
  }

  /** The previous-entry check fails: the follower keeps its log and the leader steps back by one. */
  lemma Rejected(p: Pair, slot: nat, connected: seq<bool>)
    requires Ready(p, slot, connected) && p.leader.next[slot] <= |p.leader.log|
    requires !PrevOk(p.follower.log, AppendRequest(p.leader, slot))
    ensures var q := Exchange(p, slot, connected);
            && Ready(q, slot, connected) && SameLeader(p.leader, q.leader)
            && q.leader.next[slot] == p.leader.next[slot] - 1 >= 1
  {
    hide Merge, ApplyCommitted, AdvanceCommit;
  }

  /** The check passes: one exchange transfers the whole rest of the log. */
  lemma Accepted(p: Pair, slot: nat, connected: seq<bool>)
    requires Ready(p, slot, connected) && p.leader.next[slot] <= |p.leader.log|
    requires PrevOk(p.follower.log, AppendRequest(p.leader, slot))
    ensures var q := Exchange(p, slot, connected);
            && Ready(q, slot, connected) && SameLeader(p.leader, q.leader) && CaughtUp(q, slot)
            && q.leader.next[slot] == |p.leader.log| + 1
  {
    hide Merge, AdvanceCommit, ApplyCommitted, Matching, WellIndexed;
    var l, f := p.leader, p.follower;
    var req := AppendRequest(l, slot);
    TakesWholeLog(l, f, slot);
    AdvanceKeeps(Acknowledged(l, slot, req), connected);
    AcceptKeepsLog(Follow(f, req.term), req);
  }

  /** An accepted request carries the leader's log over. */
  lemma TakesWholeLog(l: Node, f: Node, slot: nat)
    requires slot < |l.next| && 1 <= l.next[slot] <= |l.log| && WellIndexed(l.log) && Matching(f.log, l.log)
    requires PrevOk(f.log, AppendRequest(l, slot))
    ensures var req := AppendRequest(l, slot);
            var log := Merge(f.log, req.prevIndex, req.entries);
            l.log <= log && Matching(log, l.log) && req.entries != [] && req.prevIndex + |req.entries| == |l.log|
  {
    hide Merge;
    var prev := l.next[slot] - 1;
    var req := AppendRequest(l, slot);
    assert Agree(f.log, l.log, prev) by {
      if prev > 0 {
        assert f.log[prev - 1].term == l.log[prev - 1].term;
      }
    }
    var _ := MergeOutcome(f.log, l.log, prev, req.entries, |req.entries|);
    WholeMerge(f.log, prev, req.entries);
    PrefixMatches(l.log, Merge(f.log, prev, req.entries));
  }

  lemma WholeMerge(log: seq<Entry>, prev: nat, entries: seq<Entry>)
    ensures Merge(log, prev, entries) == MergeUpTo(log, prev, entries, |entries|)
  {
  }

  lemma AcceptKeepsLog(n: Node, req: AppendReq)
    ensures Accept(n, req).log == Merge(n.log, req.prevIndex, req.entries) && Accept(n, req).term == n.term
  {
    hide Merge;
  }

  lemma PrefixMatches(a: seq<Entry>, b: seq<Entry>)
    requires Agree(b, a, |a|)
    ensures a <= b && Matching(b, a)
  {
    forall i | 0 <= i < |b| && i < |a| && b[i].term == a[i].term ensures Agree(b, a, i + 1) {
      AgreeDown(b, a, |a|, i + 1);
    }
  }

  /** A heartbeat carries no entries: it changes neither the follower's log nor the leader's indices. */
  lemma Heartbeat(p: Pair, slot: nat, connected: seq<bool>)
    requires Ready(p, slot, connected) && p.leader.next[slot] == |p.leader.log| + 1
    ensures var q := Exchange(p, slot, connected);
            && Ready(q, slot, connected) && q.leader == p.leader && q.follower.log == p.follower.log
  {
  }

  function Rounds(p: Pair, slot: nat, connected: seq<bool>, k: nat): Pair
    requires Ready(p, slot, connected)
    decreases k
  {
    if k == 0 then p
    else
      ExchangeReady(p, slot, connected);
      Rounds(Exchange(p, slot, connected), slot, connected, k - 1)
  }

  lemma ExchangeReady(p: Pair, slot: nat, connected: seq<bool>)
    requires Ready(p, slot, connected)
    ensures Ready(Exchange(p, slot, connected), slot, connected)
    ensures Exchange(p, slot, connected).leader.log == p.leader.log
  {
    hide Exchange;
    if p.leader.next[slot] == |p.leader.log| + 1 {
      Heartbeat(p, slot, connected);
    } else if PrevOk(p.follower.log, AppendRequest(p.leader, slot)) {
      Accepted(p, slot, connected);
    } else {
      Rejected(p, slot, connected);
    }
  }

  lemma {:induction false} OnlyHeartbeats(p: Pair, slot: nat, connected: seq<bool>, k: nat)
    requires Ready(p, slot, connected) && p.leader.next[slot] == |p.leader.log| + 1
    ensures CaughtUp(Rounds(p, slot, connected, k), slot) <==> CaughtUp(p, slot)
    ensures Rounds(p, slot, connected, k).leader.log == p.leader.log
    decreases k
  {
    hide Exchange;
    if k > 0 {
      Heartbeat(p, slot, connected);
      OnlyHeartbeats(Exchange(p, slot, connected), slot, connected, k - 1);
    }
  }

  /** Never more exchanges than nextIndex: each failure lowers it, and at 1 the check cannot fail. */
  lemma {:induction false} CatchesUp(p: Pair, slot: nat, connected: seq<bool>, k: nat)
    requires Ready(p, slot, connected) && p.leader.next[slot] <= |p.leader.log| && k >= p.leader.next[slot]
    ensures CaughtUp(Rounds(p, slot, connected, k), slot)
    ensures Rounds(p, slot, connected, k).leader.log == p.leader.log
    decreases k
  {
    hide Exchange;
    var q := Exchange(p, slot, connected);
    if PrevOk(p.follower.log, AppendRequest(p.leader, slot)) {
      Accepted(p, slot, connected);
      OnlyHeartbeats(q, slot, connected, k - 1);
    } else {
      Rejected(p, slot, connected);
      CatchesUp(q, slot, connected, k - 1);
    }
  }

  /**
   With a fixed leader log and k >= nextIndex delivered exchanges, the follower is caught up exactly when the leader
   had something to send to begin with or the follower was caught up already: a heartbeat that fails the
   previous-entry check does not make the leader step back.
   */
  lemma CatchUpExactly(p: Pair, slot: nat, connected: seq<bool>, k: nat)
    requires Ready(p, slot, connected) && k >= p.leader.next[slot]
    ensures CaughtUp(Rounds(p, slot, connected, k), slot) <==>
              p.leader.next[slot] <= |p.leader.log| || CaughtUp(p, slot)
  {
    hide Rounds;
    if p.leader.next[slot] <= |p.leader.log| {
      CatchesUp(p, slot, connected, k);
    } else {
      OnlyHeartbeats(p, slot, connected, k);
    }
  }

  /** Every leader of every guarded run is ready for every peer whose term is not higher. */
  lemma LeadersAreReady(ws: seq<World>, es: seq<Event>, k: nat, n: NodeId, slot: nat, connected: seq<bool>)
    requires GuardedRun(ws, es) && k <= |es| && n in ws[k].nodes && ws[k].nodes[n].role == Leader
    requires slot < |ws[k].nodes[n].peers| == |connected|
    ensures var x := ws[k].nodes[n];
            && x.peers[slot] in ws[k].nodes
            && (ws[k].nodes[x.peers[slot]].term <= x.term ==>
                  Ready(Pair(x, ws[k].nodes[x.peers[slot]]), slot, connected))
  {
    hide Init, Do, Enabled, Guarded, HistoryAt, Matching, WellIndexed;
    Safety.MatchIndexSound(ws, es, k, n, slot);
    Runs.RunInv(ws, es, k);
    LogsFit(ws[k], HistoryAt(ws, es, k), n, ws[k].nodes[n].peers[slot]);
  }

  lemma LogsFit(w: World, h: History, n: NodeId, m: NodeId)
    requires L.Inv(w, h) && n in w.nodes && m in w.nodes
    ensures WellIndexed(w.nodes[n].log) && Matching(w.nodes[m].log, w.nodes[n].log)
  {
    assert L.NodeOk(h.logs, w.nodes[n]) && L.NodeOk(h.logs, w.nodes[m]);
    L.LogsMatch(h.logs, w.nodes[m].log, w.nodes[n].log);
    forall i | 0 <= i < |w.nodes[n].log| ensures w.nodes[n].log[i].index == i + 1 {
      assert L.EntryOk(h.logs, w.nodes[n].log, i);
    }
  }

  /** So from every state of every guarded run, a leader with something to send catches such a peer up. */
  lemma LeadersCatchUp(ws: seq<World>, es: seq<Event>, k: nat, n: NodeId, slot: nat, connected: seq<bool>, rounds: nat)
    requires GuardedRun(ws, es) && k <= |es| && n in ws[k].nodes && ws[k].nodes[n].role == Leader
    requires slot < |ws[k].nodes[n].peers| == |connected| && ws[k].nodes[n].peers[slot] in ws[k].nodes
    requires ws[k].nodes[ws[k].nodes[n].peers[slot]].term <= ws[k].nodes[n].term
    requires slot < |ws[k].nodes[n].next| && ws[k].nodes[n].next[slot] <= Min(|ws[k].nodes[n].log|, rounds)
    ensures var p := Pair(ws[k].nodes[n], ws[k].nodes[ws[k].nodes[n].peers[slot]]);
            && Ready(p, slot, connected) && CaughtUp(Rounds(p, slot, connected, rounds), slot)
            && Rounds(p, slot, connected, rounds).leader.log == ws[k].nodes[n].log
  {
    hide Rounds, Ready;
    LeadersAreReady(ws, es, k, n, slot, connected);
    CatchesUp(Pair(ws[k].nodes[n], ws[k].nodes[ws[k].nodes[n].peers[slot]]), slot, connected, rounds);
  }
}
