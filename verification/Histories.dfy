/**
 What a proof remembers about a run and no node knows: who voted for whom with which log, who led which term,
 the log each leader built, the log behind each message, how far each node has confirmed each leader's log.
 */
module Histories {
  import opened Types
  import opened Nodes
  import opened Clusters

  datatype Slot = Slot(node: NodeId, term: nat)

  /** A granted vote and the voter's log when it was first granted; a candidate's own ballot holds its log. */
  datatype Ballot = Ballot(candidate: NodeId, log: seq<Entry>)

  /** The leader of a term, those who elected it, and its log at the election. */
  datatype Reign = Reign(leader: NodeId, voters: set<NodeId>, log: seq<Entry>)

  datatype History = History(
    votes: map<Slot, Ballot>,
    reigns: map<nat, Reign>,
    logs: map<nat, seq<Entry>>,              // per term, everything its leader ever held
    sent: map<AppendCall, seq<Entry>>,       // the sender's log when the call was made
    acks: map<Slot, nat>)                    // how far a node confirmed a leader's log while in its term

  const Blank := History(map[], map[], map[], map[], map[])

  function AckOf(h: History, v: NodeId, term: nat): nat {
    if Slot(v, term) in h.acks then h.acks[Slot(v, term)] else 0
  }

  function Acked(h: History, v: NodeId, term: nat, upTo: nat): History {
    h.(acks := h.acks[Slot(v, term) := Max(AckOf(h, v, term), upTo)])
  }

  function Supporters(w: World, h: History, n: NodeId, term: nat): set<NodeId> {
    set v | v in w.nodes && Slot(v, term) in h.votes && h.votes[Slot(v, term)].candidate == n
  }

  function Extended(h: History, x: Node): History {
    Acked(h.(logs := h.logs[x.term := x.log]), x.id, x.term, |x.log|)
  }

  function Track(w: World, h: History, ev: Event): History
    requires Enabled(w, ev)
  {
    match ev
    case StartElectionAt(n) =>
      var x := w.nodes[n];
      h.(votes := h.votes[Slot(n, x.term + 1) := Ballot(n, x.log)])
    case VoteHandled(c) =>
      var (x, resp) := HandleVote(w.nodes[c.to], c.req);
      var s := Slot(c.to, c.req.term);
      if resp.granted && s !in h.votes then h.(votes := h.votes[s := Ballot(c.req.candidate, x.log)]) else h
    case TallyAt(n) =>
      var x := w.nodes[n];
      if Wins(x)
      then Extended(h.(reigns := h.reigns[x.term := Reign(n, Supporters(w, h, n, x.term), x.log)]), Tally(x))
      else h
    case ClientAppend(n, cmd) => Extended(h, AppendOwn(w.nodes[n], cmd))
    case SendAppend(n, slot) =>
      var x := w.nodes[n];
      h.(sent := h.sent[AppendCall(n, x.peers[slot], slot, AppendRequest(x, slot)) := x.log])
    case AppendHandled(c) =>
      var (x, resp) := HandleAppend(w.nodes[c.to], c.req);
      if resp.success then Acked(h, c.to, c.req.term, c.req.prevIndex + |c.req.entries|) else h
    case _ => h
  }

  function HistoryAt(ws: seq<World>, es: seq<Event>, k: nat): History
    requires IsRun(ws, es) && k <= |es|
  {
    if k == 0 then Blank else Track(ws[k - 1], HistoryAt(ws, es, k - 1), es[k - 1])
  }
}
