/** Catching up as part of a run: the exchanges are events of the cluster, and any guarded run can go on with them. */
module CatchUpRuns {
  import opened Types
  import opened Nodes
  import opened Clusters
  import opened Schedules
  import opened CatchUp
  import Effects

  /** Leader and peer as the run leaves them. */
  function PairAt(w: World, n: NodeId, slot: nat): Pair
    requires n in w.nodes && slot < |w.nodes[n].peers| && w.nodes[n].peers[slot] in w.nodes
  {
    Pair(w.nodes[n], w.nodes[w.nodes[n].peers[slot]])
  }

  ghost predicate CanExchange(w: World, n: NodeId, slot: nat, connected: seq<bool>) {
    && n in w.nodes && w.nodes[n].id == n && w.nodes[n].role == Leader
    && slot < |w.nodes[n].peers| == |connected| == |w.nodes[n].next|
    && w.nodes[n].peers[slot] in w.nodes && w.nodes[n].peers[slot] != n
    && Ready(PairAt(w, n, slot), slot, connected)
  }

  /** Everything a leader knows about its other peers stays. */
  ghost predicate OtherSlotsKept(x: Node, y: Node, slot: nat) {
    && |y.next| == |x.next| && |y.matched| == |x.matched| && y.term == x.term && y.log == x.log
    && (forall j :: 0 <= j < |x.next| && j != slot ==> y.next[j] == x.next[j])
    && (forall j :: 0 <= j < |x.matched| && j != slot ==> y.matched[j] == x.matched[j])
  }

  /** Only the leader and one peer have changed, and the leader in nothing that concerns the others. */
  ghost predicate OnlyPeer(w: World, w': World, n: NodeId, slot: nat) {
    && n in w.nodes && n in w'.nodes && slot < |w.nodes[n].peers| && w'.nodes.Keys == w.nodes.Keys
    && w'.nodes[n].peers == w.nodes[n].peers && w'.nodes[n].role == w.nodes[n].role
    && OtherSlotsKept(w.nodes[n], w'.nodes[n], slot)
    && forall m :: m in w.nodes && m != n && m != w.nodes[n].peers[slot] ==> w'.nodes[m] == w.nodes[m]
  }

  /** An exchange leaves a leader in office and both nodes who they are. */
  lemma StaysLeader(p: Pair, slot: nat, connected: seq<bool>)
    requires slot < |p.leader.next| && slot < |p.leader.matched| && |connected| == |p.leader.matched|
    requires p.follower.term <= p.leader.term
    ensures var q := Exchange(p, slot, connected);
            && q.leader.id == p.leader.id && q.leader.peers == p.leader.peers && q.leader.role == p.leader.role
            && OtherSlotsKept(p.leader, q.leader, slot)
  {
    hide Scan;
  }

  /** One exchange: a send, its handling and the processing of the reply. */
  lemma ExchangeRun(r: Run, n: NodeId, slot: nat, connected: seq<bool>) returns (r': Run)
    requires Guard(r) && CanExchange(Last(r), n, slot, connected)
    ensures Guard(r') && (Steady(r) ==> Steady(r')) && Continues(r, r') && CanExchange(Last(r'), n, slot, connected)
    ensures OnlyPeer(Last(r), Last(r'), n, slot)
    ensures PairAt(Last(r'), n, slot) == Exchange(PairAt(Last(r), n, slot), slot, connected)
  {
    hide AnyRun, Guard, Steady, HandleAppend, AppendReplied, AppendRequest;
    var p := PairAt(Last(r), n, slot);
    StaysLeader(p, slot, connected);
    ExchangeReady(p, slot, connected);
    r' := Replicate(r, n, slot, connected);
  }

  lemma {:induction false} RoundsRun(r: Run, n: NodeId, slot: nat, connected: seq<bool>, k: nat) returns (r': Run)
    requires Guard(r) && CanExchange(Last(r), n, slot, connected)
    ensures Guard(r') && (Steady(r) ==> Steady(r')) && Continues(r, r') && CanExchange(Last(r'), n, slot, connected)
    ensures OnlyPeer(Last(r), Last(r'), n, slot)
    ensures PairAt(Last(r'), n, slot) == Rounds(PairAt(Last(r), n, slot), slot, connected, k)
    decreases k
  {
    hide AnyRun, Guard, Steady, Exchange, Ready;
    if k == 0 {
      r' := r;
    } else {
      var r1 := ExchangeRun(r, n, slot, connected);
      r' := RoundsRun(r1, n, slot, connected, k - 1);
    }
  }

  /** Nothing is left to commit under these connections. */
  ghost predicate Settled(x: Node, connected: seq<bool>) {
    |connected| == |x.matched| && forall i: nat :: !Eligible(x, connected, i)
  }

  lemma AcceptedSettles(p: Pair, slot: nat, connected: seq<bool>)
    requires Ready(p, slot, connected) && p.leader.next[slot] <= |p.leader.log|
    requires PrevOk(p.follower.log, AppendRequest(p.leader, slot))
    ensures Settled(Exchange(p, slot, connected).leader, connected)
  {
    hide AdvanceCommit, ApplyCommitted, Eligible, PrevOk;
    AdvanceKeeps(Acknowledged(p.leader, slot, AppendRequest(p.leader, slot)), connected);
    Effects.AdvancesFully(Acknowledged(p.leader, slot, AppendRequest(p.leader, slot)), connected);
  }

  lemma {:induction false} HeartbeatsKeepLeader(p: Pair, slot: nat, connected: seq<bool>, k: nat)
    requires Ready(p, slot, connected) && p.leader.next[slot] == |p.leader.log| + 1
    ensures Rounds(p, slot, connected, k).leader == p.leader
    decreases k
  {
    hide Exchange;
    if k > 0 {
      Heartbeat(p, slot, connected);
      HeartbeatsKeepLeader(Exchange(p, slot, connected), slot, connected, k - 1);
    }
  }

  lemma {:induction false} CatchUpSettles(p: Pair, slot: nat, connected: seq<bool>, k: nat)
    requires Ready(p, slot, connected) && p.leader.next[slot] <= |p.leader.log| && k >= p.leader.next[slot]
    ensures Settled(Rounds(p, slot, connected, k).leader, connected)
    decreases k
  {
    hide Exchange, Settled;
    var q := Exchange(p, slot, connected);
    if PrevOk(p.follower.log, AppendRequest(p.leader, slot)) {
      Accepted(p, slot, connected);
      AcceptedSettles(p, slot, connected);
      HeartbeatsKeepLeader(q, slot, connected, k - 1);
    } else {
      Rejected(p, slot, connected);
      CatchUpSettles(q, slot, connected, k - 1);
    }
  }

  lemma LeaderCanExchange(r: Run, n: NodeId, slot: nat, connected: seq<bool>)
    requires Guard(r) && n in Last(r).nodes && Last(r).nodes[n].role == Leader
    requires slot < |Last(r).nodes[n].peers| == |connected| && Last(r).nodes[n].peers[slot] in Last(r).nodes
    requires Last(r).nodes[Last(r).nodes[n].peers[slot]].term <= Last(r).nodes[n].term
    ensures CanExchange(Last(r), n, slot, connected)
  {
    hide Init, Do, Enabled, Guarded, Ready;
    var k := |r.es|;
    LeadersAreReady(r.ws, r.es, k, n, slot, connected);
    Safety.MatchIndexSound(r.ws, r.es, k, n, slot);
    Runs.RunInv(r.ws, r.es, k);
    NotItself(Last(r), n, slot);
  }

  lemma NotItself(w: World, n: NodeId, slot: nat)
    requires Wired(w) && n in w.nodes && slot < |w.nodes[n].peers|
    ensures w.nodes[n].id == n && w.nodes[n].peers[slot] != n
  {
    assert w.nodes[n].peers[slot] in Quorums.Elems(w.nodes[n].peers);
  }

  /**
   Every guarded run that ends with a leader that has something to send can go on, guarded, by sends, their handling
   and the processing of the replies, until the peer holds the leader's whole log and the leader knows it.
   */
  lemma RunsCatchUp(r: Run, n: NodeId, slot: nat, connected: seq<bool>) returns (r': Run)
    requires Guard(r) && n in Last(r).nodes && Last(r).nodes[n].role == Leader
    requires slot < |Last(r).nodes[n].peers| == |connected| && Last(r).nodes[n].peers[slot] in Last(r).nodes
    requires Last(r).nodes[Last(r).nodes[n].peers[slot]].term <= Last(r).nodes[n].term
    requires slot < |Last(r).nodes[n].next| && Last(r).nodes[n].next[slot] <= |Last(r).nodes[n].log|
    ensures Guard(r') && (Steady(r) ==> Steady(r')) && Continues(r, r') && CanExchange(Last(r'), n, slot, connected)
    ensures CaughtUp(PairAt(Last(r'), n, slot), slot) && Last(r').nodes[n].log == Last(r).nodes[n].log
    ensures OnlyPeer(Last(r), Last(r'), n, slot) && Settled(Last(r').nodes[n], connected)
  {
    hide AnyRun, Guard, Steady, Ready, Rounds;
    LeaderCanExchange(r, n, slot, connected);
    var k := Last(r).nodes[n].next[slot];
    CatchesUp(PairAt(Last(r), n, slot), slot, connected, k);
    CatchUpSettles(PairAt(Last(r), n, slot), slot, connected, k);
    r' := RoundsRun(r, n, slot, connected, k);
  }
}
