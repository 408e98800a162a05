/**
 Whole RPC calls between two node objects, through the bytes on the wire. A delivered call has exactly the effect the
 cluster model gives it: printing, parsing and the step-by-step updates add and lose nothing.
 */
module Delivery {
  import opened Types
  import opened Codec
  import opened CodecLoops
  import opened Rpc
  import opened Logs
  import opened Storages
  import opened RaftNodes
  import N = Nodes
  import U = CatchUp

  /** A request of the protocol as constructor-made records on the wire. */
  function WireOf(req: AppendReq): WireAppend {
    WireAppend(req.term, req.leader, req.prevIndex, req.prevTerm, req.leaderCommit,
               seq(|req.entries|, i requires 0 <= i < |req.entries| =>
                 MakeEntry(req.entries[i].term, req.entries[i].index, req.entries[i].cmd)))
  }

  predicate EntryFits(e: Entry) {
    e.term < U64 && e.index < U64 && |e.cmd.key| < U16 && |e.cmd.value| < U16
  }

  predicate RequestFits(req: AppendReq) {
    && req.term < U64 && req.leader < U64 && req.prevIndex < U64 && req.prevTerm < U64 && req.leaderCommit < U64
    && |req.entries| < U32 && forall i | 0 <= i < |req.entries| :: EntryFits(req.entries[i])
  }

  lemma MadeEntry(e: Entry)
    requires EntryFits(e)
    ensures var r := MakeEntry(e.term, e.index, e.cmd); Fits(r) && Verify(r) && Decodable(r) && EntryOf(r) == e
  {
    hide DecodeCommand, Verify;
    CommandRoundTrip(e.cmd);
    RaftNode.CommandLength(e.cmd);
  }

  /** Every request comes back from the wire with all its commands, whatever follows in the buffer. */
  lemma RequestRoundTrip(req: AppendReq, junk: Bytes)
    requires RequestFits(req)
    ensures DecodeAppend(EncodeAppend(WireOf(req)) + junk) == Some(WireOf(req))
    ensures RequestOf(WireOf(req)) == req && AllDecodable(WireOf(req).entries)
  {
    hide DecodeAppend, EncodeAppend, MakeEntry, EntryFits, Fits, Verify, Decodable, EntryOf;
    var m := WireOf(req);
    forall i | 0 <= i < |m.entries| ensures Fits(m.entries[i]) && Verify(m.entries[i]) && Decodable(m.entries[i])
    {
      MadeEntry(req.entries[i]);
    }
    forall i | 0 <= i < |m.entries| ensures EntriesOf(m.entries)[i] == req.entries[i] {
      MadeEntry(req.entries[i]);
    }
    AppendRoundTrip(m, junk);
    assert EntriesOf(m.entries) == req.entries;
  }

  /** A request numbered on from its prevLogIndex, as all of a run are, is a message the handler object accepts. */
  lemma RequestIsGood(req: AppendReq)
    requires RequestFits(req) && EntriesIndexed(req.prevIndex, req.entries)
    ensures GoodMessage(WireOf(req)) && RequestOf(WireOf(req)) == req
  {
    hide MakeEntry, EntryFits, Fits, Verify, Decodable, EntryOf, RequestOf, DecodeAppend, EncodeAppend;
    var m := WireOf(req);
    RequestRoundTrip(req, []);
    forall i | 0 <= i < |m.entries|
      ensures Fits(m.entries[i]) && Verify(m.entries[i]) && m.entries[i].index == m.prevIndex + 1 + i
    {
      MadeEntry(req.entries[i]);
    }
  }

  lemma ReplyTerm(n: N.Node, req: AppendReq)
    ensures N.HandleAppend(n, req).1.term == if req.term < n.term then n.term else req.term
  {
  }

  /** One AppendEntries call from end to end. */
  method CallAppend(leader: RaftNode, follower: RaftNode, slot: nat, connected: seq<bool>)
    requires leader.Valid() && follower.Valid() && leader != follower && leader.store != follower.store
    requires slot < |leader.next| && slot < |leader.matched| && |connected| == |leader.matched|
    requires 1 <= leader.next[slot] < U64 && leader.store.commitIndex < U64 && |leader.store.log| < U32
    modifies leader, leader.store, follower, follower.store
    ensures leader.Valid() && follower.Valid()
    ensures U.Pair(leader.Abs(), follower.Abs())
            == U.Exchange(U.Pair(old(leader.Abs()), old(follower.Abs())), slot, connected)
  {
    hide WellFormed, EncodeMeta, VoteOf, VoteText, AllDecodable, EntriesOf, EncodeAppend, DecodeAppend, MessageLayout,
         EncodeAppendResp, DecodeAppendResp, N.AppendRequest, N.HandleAppend, N.AppendReplied;
    var m := leader.BuildAppend(slot);
    var payload := SerializeAppend(m);
    MessageArrives(m);
    var rpc := DeserializeAppend(payload);
    var resp := follower.HandleAppendEntries(rpc.value);
    ReplyTerm(old(follower.Abs()), RequestOf(m));
    ResponsesRoundTrip(resp, VoteResp(0, false));
    var answer := DecodeAppendResp(EncodeAppendResp(resp));
    leader.OnAppendReply(slot, m, answer.value, connected);
  }

  lemma MessageArrives(m: WireAppend)
    requires FitsAppend(m) && AllGood(m.entries)
    ensures DecodeAppend(EncodeAppend(m)) == Some(m)
  {
    AppendRoundTrip(m, []);
    assert EncodeAppend(m) + [] == EncodeAppend(m);
  }

  /** One RequestVote call from end to end. */
  method CallVote(candidate: RaftNode, voter: RaftNode)
    requires candidate.Valid() && voter.Valid() && candidate != voter && candidate.store != voter.store
    requires candidate.election.Some?
    requires var q := candidate.election.value.req;
             q.term < U64 && q.candidate < U64 && q.lastIndex < U64 && q.lastTerm < U64
    modifies candidate, candidate.store, voter, voter.store
    ensures candidate.Valid() && voter.Valid()
    ensures var (y, resp) := N.HandleVote(old(voter.Abs()), old(candidate.election.value.req));
            voter.Abs() == y && candidate.Abs() == N.VoteReplied(old(candidate.Abs()), resp)
  {
    hide WellFormed, EncodeMeta, VoteOf, VoteText, AllDecodable, EntriesOf, EncodeVote, DecodeVote, EncodeVoteResp,
         DecodeVoteResp, N.HandleVote, N.VoteReplied;
    var req := candidate.election.value.req;
    VoteRoundTrip(req);
    var rpc := DecodeVote(EncodeVote(req));
    var resp := voter.HandleRequestVote(rpc.value);
    VoteReplyTerm(old(voter.Abs()), req);
    ResponsesRoundTrip(AppendResp(0, false), resp);
    var answer := DecodeVoteResp(EncodeVoteResp(resp));
    candidate.CountVote(answer.value);
  }

  lemma VoteReplyTerm(n: N.Node, req: VoteReq)
    ensures N.HandleVote(n, req).1.term == if req.term < n.term then n.term else req.term
  {
  }
}
