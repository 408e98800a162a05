/**
 The cluster: every node, every RPC call ever made and every reply ever given, and the steps between them.

 Calls and replies are only added, never removed. A call may therefore be handled late, more than once or never,
 and a reply may be processed late or never: every schedule of the program is a schedule here.
 A reply is stored with its call, because a reply carries no index and the caller pairs it with its own request.
 */
module Clusters {
  import opened Types
  import opened Quorums
  import opened Nodes

  datatype VoteCall = VoteCall(from: NodeId, to: NodeId, req: VoteReq)
  datatype VoteReply = VoteReply(call: VoteCall, resp: VoteResp)
  datatype AppendCall = AppendCall(from: NodeId, to: NodeId, slot: nat, req: AppendReq)
  datatype AppendReply = AppendReply(call: AppendCall, resp: AppendResp)

  datatype World = World(
    nodes: map<NodeId, Node>,
    voteCalls: set<VoteCall>,
    voteReplies: set<VoteReply>,
    appendCalls: set<AppendCall>,
    appendReplies: set<AppendReply>)

  datatype Event =
    | StartElectionAt(n: NodeId)
    | AskVote(n: NodeId)
    | VoteHandled(vcall: VoteCall)
    | VoteAnswered(vreply: VoteReply)
    | VoteUnanswered(n: NodeId)
    | TallyAt(n: NodeId)
    | ClientAppend(n: NodeId, cmd: Command)
    | SendAppend(n: NodeId, slot: nat)
    | AppendHandled(acall: AppendCall)
    | AppendAnswered(areply: AppendReply, connected: seq<bool>)
    | AppendUnanswered(acall: AppendCall)
    | RestartAt(n: NodeId)
    | CrashAtTerm(n: NodeId, newTerm: nat)
    | CrashAdopting(n: NodeId, newTerm: nat)
    | CrashMerging(acall: AppendCall, kept: nat)

  /** Distinct ids; every node lists exactly the other nodes as its peers. */
  ghost predicate Wired(w: World) {
    forall n :: n in w.nodes ==>
      && w.nodes[n].id == n && Distinct(w.nodes[n].peers)
      && Elems(w.nodes[n].peers) == w.nodes.Keys - {n}
  }

  ghost predicate Init(w: World) {
    && Wired(w)
    && (forall n :: n in w.nodes ==> w.nodes[n] == Fresh(n, w.nodes[n].peers))
    && w.voteCalls == {} && w.voteReplies == {} && w.appendCalls == {} && w.appendReplies == {}
  }

  predicate ReplyFits(n: Node, call: AppendCall) {
    call.from == n.id && call.slot < |n.peers| && call.to == n.peers[call.slot]
    && |n.next| == |n.peers| && |n.matched| == |n.peers|
  }

  predicate Enabled(w: World, ev: Event) {
    match ev
    case StartElectionAt(n) =>
      // the background thread starts an election only when no earlier one is still running
      n in w.nodes && w.nodes[n].role != Leader && w.nodes[n].election == None
    case AskVote(n) =>
      n in w.nodes && w.nodes[n].election.Some? && w.nodes[n].election.value.pos < |w.nodes[n].peers|
    case VoteHandled(c) => c in w.voteCalls && c.to in w.nodes
    case VoteAnswered(r) =>
      && r in w.voteReplies && r.call.from in w.nodes
      && var n := w.nodes[r.call.from];
      n.election.Some? && n.election.value.pos < |n.peers|
      && r.call.to == n.peers[n.election.value.pos] && r.call.req == n.election.value.req
    case VoteUnanswered(n) =>
      n in w.nodes && w.nodes[n].election.Some? && w.nodes[n].election.value.pos < |w.nodes[n].peers|
    case TallyAt(n) =>
      n in w.nodes && w.nodes[n].election.Some? && w.nodes[n].election.value.pos == |w.nodes[n].peers|
    case ClientAppend(n, _) => n in w.nodes && w.nodes[n].role == Leader
    case SendAppend(n, slot) =>
      // the send loops do not look at the role again; having been leader once is enough to be in one
      n in w.nodes && slot < |w.nodes[n].peers| && |w.nodes[n].next| == |w.nodes[n].peers|
    case AppendHandled(c) => c in w.appendCalls && c.to in w.nodes
    case AppendAnswered(r, connected) =>
      r in w.appendReplies && r.call.from in w.nodes && ReplyFits(w.nodes[r.call.from], r.call)
      && |connected| == |w.nodes[r.call.from].peers|
    case AppendUnanswered(c) => c in w.appendCalls && c.from in w.nodes && ReplyFits(w.nodes[c.from], c)
    case RestartAt(n) => n in w.nodes
    case CrashAtTerm(n, t) => n in w.nodes && t > w.nodes[n].term
    case CrashAdopting(n, t) => n in w.nodes && t > w.nodes[n].term
    case CrashMerging(c, k) =>
      c in w.appendCalls && c.to in w.nodes && k <= |c.req.entries|
      && c.req.term >= w.nodes[c.to].term && PrevOk(w.nodes[c.to].log, c.req)
  }

  function Put(w: World, n: NodeId, x: Node): World {
    w.(nodes := w.nodes[n := x])
  }

  function Do(w: World, ev: Event): World
    requires Enabled(w, ev)
  {
    match ev
    case StartElectionAt(n) => Put(w, n, StartElection(w.nodes[n]))
    case AskVote(n) =>
      var x := w.nodes[n];
      w.(voteCalls := w.voteCalls + {VoteCall(n, x.peers[x.election.value.pos], x.election.value.req)})
    case VoteHandled(c) =>
      var (x, resp) := HandleVote(w.nodes[c.to], c.req);
      Put(w, c.to, x).(voteReplies := w.voteReplies + {VoteReply(c, resp)})
    case VoteAnswered(r) => Put(w, r.call.from, VoteReplied(w.nodes[r.call.from], r.resp))
    case VoteUnanswered(n) => Put(w, n, VoteLost(w.nodes[n]))
    case TallyAt(n) => Put(w, n, Tally(w.nodes[n]))
    case ClientAppend(n, cmd) => Put(w, n, AppendOwn(w.nodes[n], cmd))
    case SendAppend(n, slot) =>
      w.(appendCalls := w.appendCalls + {AppendCall(n, w.nodes[n].peers[slot], slot, AppendRequest(w.nodes[n], slot))})
    case AppendHandled(c) =>
      var (x, resp) := HandleAppend(w.nodes[c.to], c.req);
      Put(w, c.to, x).(appendReplies := w.appendReplies + {AppendReply(c, resp)})
    case AppendAnswered(r, connected) =>
      Put(w, r.call.from, AppendReplied(w.nodes[r.call.from], r.call.slot, r.call.req, r.resp, connected))
    case AppendUnanswered(c) => Put(w, c.from, AppendLost(w.nodes[c.from], c.slot, c.req))
    case RestartAt(n) => Put(w, n, Restart(w.nodes[n]))
    case CrashAtTerm(n, t) =>
      // between the two metadata writes of a term change: new term, old vote
      Put(w, n, Restart(w.nodes[n].(term := t)))
    case CrashAdopting(n, t) =>
      // after both, before the handler goes on: new term, no vote
      Put(w, n, Restart(AdoptTerm(w.nodes[n], t)))
    case CrashMerging(c, k) => Put(w, c.to, CrashInMerge(w.nodes[c.to], c.req, k))
  }

  // ---- runs

  ghost predicate IsRun(ws: seq<World>, es: seq<Event>) {
    && |ws| == |es| + 1 && Init(ws[0])
    && forall k | 0 <= k < |es| :: Enabled(ws[k], es[k]) && ws[k + 1] == Do(ws[k], es[k])
  }

  predicate IsRestart(ev: Event) {
    ev.RestartAt? || ev.CrashAtTerm? || ev.CrashAdopting? || ev.CrashMerging?
  }

  /**
   Sends happen only while leading, and a positive reply is used only while still leading the term it answers.
   The program leaves both to timing.
   */
  predicate Guarded(w: World, ev: Event)
    requires Enabled(w, ev)
  {
    match ev
    case SendAppend(n, _) => w.nodes[n].role == Leader
    case AppendAnswered(r, _) =>
      var n := w.nodes[r.call.from];
      r.resp.term <= n.term && r.resp.success && r.call.req.entries != []
      ==> n.role == Leader && n.term == r.call.req.term
    case _ => true
  }

  ghost predicate GuardedUpTo(ws: seq<World>, es: seq<Event>, l: nat) {
    IsRun(ws, es) && l <= |es| && forall k | 0 <= k < l :: Guarded(ws[k], es[k])
  }

  ghost predicate GuardedRun(ws: seq<World>, es: seq<Event>) {
    GuardedUpTo(ws, es, |es|)
  }

  /** The node that restarts. */
  function Restarted(ev: Event): NodeId
    requires IsRestart(ev)
  {
    if ev.CrashMerging? then ev.acall.to else ev.n
  }

  /** Node v has confirmed index i to the leader of term t. */
  ghost predicate Confirmed(w: World, v: NodeId, t: nat, i: nat) {
    exists r :: r in w.appendReplies && r.resp.success && r.call.to == v && r.call.req.term == t
                && i <= r.call.req.prevIndex + |r.call.req.entries|
  }

  ghost function Confirmers(w: World, leader: NodeId, t: nat, i: nat): set<NodeId> {
    set v | v in w.nodes && (v == leader || Confirmed(w, v, t, i))
  }

  /**
   By moment k a majority had confirmed index i to node m, which, at moment j, led and held an entry of its own term
   there. Such an index is chosen, whether or not the leader has noticed.
   */
  ghost predicate ChosenAt(ws: seq<World>, k: nat, j: nat, m: NodeId, i: nat) {
    && j <= k < |ws| && m in ws[j].nodes
    && var x := ws[j].nodes[m];
    && x.role == Leader && 1 <= i <= |x.log| && x.log[i - 1].term == x.term
    && IsQuorum(ws[k].nodes.Keys, Confirmers(ws[k], m, x.term, i))
  }

  /** Everything x holds lies below an index that was chosen by moment k in a term no later than x's. */
  ghost predicate Covered(ws: seq<World>, k: nat, x: Node, j: nat, m: NodeId, i: nat) {
    ChosenAt(ws, k, j, m, i) && ws[j].nodes[m].term <= x.term && |x.log| <= i && x.log <= ws[j].nodes[m].log
  }

  ghost predicate HoldsOnlyChosen(ws: seq<World>, k: nat, x: Node) {
    x.log == [] || exists j: nat, m: NodeId, i: nat :: Covered(ws, k, x, j, m, i)
  }

  /** If event k is a restart, it is one of a node that then holds only chosen entries. */
  ghost predicate RestartsCovered(ws: seq<World>, es: seq<Event>, k: nat)
    requires k < |es| && k + 1 < |ws|
  {
    IsRestart(es[k]) ==>
      Restarted(es[k]) in ws[k + 1].nodes && HoldsOnlyChosen(ws, k, ws[k + 1].nodes[Restarted(es[k])])
  }

  ghost predicate SteadyUpTo(ws: seq<World>, es: seq<Event>, l: nat) {
    GuardedRun(ws, es) && l <= |es| && forall k: nat | k < l :: RestartsCovered(ws, es, k)
  }

  /** replay counts the whole log as committed; in a steady run all of it is chosen. */
  ghost predicate SteadyRun(ws: seq<World>, es: seq<Event>) {
    SteadyUpTo(ws, es, |es|)
  }
}
