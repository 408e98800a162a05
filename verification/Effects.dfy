/**
 What every action must do, besides what it must not: when a vote is granted, what a reply of a later term brings about,
 how far the commit index moves, which fields an event may touch. Stated without the functions that compute it.
 */
module Effects {
  import opened Types
  import opened Logs
  import opened StateMachines
  import opened Nodes

  // ---- majorities

  /** More than half of a cluster: the node itself and so many of its peers. */
  predicate MoreThanHalf(n: Node, peers: nat) {
    2 * (1 + peers) > |n.peers| + 1
  }

  /** The peers that are connected and hold index i, as far as the leader knows. */
  ghost function Holders(connected: seq<bool>, matched: seq<nat>, i: nat, k: nat): set<nat>
    requires k <= |connected| && k <= |matched|
  {
    set j: nat | j < k && connected[j] && matched[j] >= i
  }

  ghost function UpPeers(connected: seq<bool>, k: nat): set<nat>
    requires k <= |connected|
  {
    set j: nat | j < k && connected[j]
  }

  lemma {:induction false} CountIsSize(connected: seq<bool>, matched: seq<nat>, i: nat, k: nat)
    requires k <= |connected| && k <= |matched|
    ensures Count(connected, matched, i, k) == |Holders(connected, matched, i, k)|
  {
    if k > 0 {
      CountIsSize(connected, matched, i, k - 1);
      var before := Holders(connected, matched, i, k - 1);
      if connected[k - 1] && matched[k - 1] >= i {
        assert Holders(connected, matched, i, k) == before + {k - 1};
      } else {
        assert Holders(connected, matched, i, k) == before;
      }
    }
  }

  lemma {:induction false} UpCountIsSize(connected: seq<bool>, k: nat)
    requires k <= |connected|
    ensures UpCount(connected, k) == |UpPeers(connected, k)|
  {
    if k > 0 {
      UpCountIsSize(connected, k - 1);
      var before := UpPeers(connected, k - 1);
      if connected[k - 1] {
        assert UpPeers(connected, k) == before + {k - 1};
      } else {
        assert UpPeers(connected, k) == before;
      }
    }
  }

  // ---- client calls

  /**
   submit errs exactly when its node does not lead, else exactly when it cannot reach more than half of the cluster;
   an error changes nothing. Otherwise the log gets one entry longer, ends with the command, and its length is the index
   to wait for.
   */
  lemma SubmitExactly(n: Node, cmd: Command, connected: seq<bool>)
    requires |connected| == |n.peers|
    ensures var (m, s) := Submit(n, cmd, connected);
            && (s == NotLeader <==> n.role != Leader)
            && (s == NotEnoughPeers <==> n.role == Leader && !MoreThanHalf(n, |UpPeers(connected, |connected|)|))
            && (!s.Waiting? ==> m == n)
            && (s.Waiting? ==> && m == n.(log := m.log) && s.idx == |m.log| == |n.log| + 1 && n.log <= m.log
                               && m.log[s.idx - 1] == Entry(n.term, s.idx, cmd))
  {
    UpCountIsSize(connected, |connected|);
  }

  lemma GetExactly(n: Node, key: Bytes)
    ensures var (m, s) := StartGet(n);
            && (s.Waiting? <==> n.role == Leader) && !s.NotEnoughPeers? && (!s.Waiting? ==> m == n)
            && (s.Waiting? ==> && m == n.(log := m.log) && s.idx == |m.log| == |n.log| + 1 && n.log <= m.log
                               && m.log[s.idx - 1].cmd.op == NOOP && m.log[s.idx - 1].term == n.term)
    ensures FinishGet(n, key).Some? <==> n.role == Leader
    ensures n.role == Leader ==>
              FinishGet(n, key) == Some(if key in n.db then n.db[key] else [])
  {
  }

  // ---- elections

  /** The request names the term after the node's own and describes its log: every voter can compare with it. */
  lemma RequestDescribesLog(n: Node, log: seq<Entry>)
    ensures var m := StartElection(n);
            && m == n.(term := m.term, voted := m.voted, role := m.role, election := m.election)
            && m.term == n.term + 1 && m.role == Candidate && m.voted == Some(n.id)
            && m.election.Some? && m.election.value.req.term == m.term && m.election.value.req.candidate == n.id
            && m.election.value.pos == 0 && m.election.value.votes == 1
            && (CandidateLogOk(m.election.value.req, log) <==> UpToDate(n.log, log))
  {
  }

  /**
   A vote for a candidate with a given log is refused exactly when the request's term is over, the vote of that term
   belongs to another candidate, or the voter's log is more up to date. The answer carries the voter's new term.
   */
  lemma VoteRefusedExactly(n: Node, req: VoteReq, log: seq<Entry>)
    requires req.lastIndex == |log| && req.lastTerm == LastTerm(log)
    ensures var (m, resp) := HandleVote(n, req);
            && (!resp.granted <==> || req.term < n.term
                                   || (req.term == n.term && n.voted != None && n.voted != Some(req.candidate))
                                   || !UpToDate(log, n.log))
            && resp.term == m.term == Max(n.term, req.term)
            && m == n.(term := m.term, voted := m.voted, role := m.role)
            && m.role == (if req.term > n.term then Follower else n.role)
            && m.voted == (if resp.granted then Some(req.candidate) else if req.term > n.term then None else n.voted)
  {
  }

  /** One of two logs is always at least as up to date as the other: some candidate can be voted for. */
  lemma LogsCompare(a: seq<Entry>, b: seq<Entry>)
    ensures UpToDate(a, b) || UpToDate(b, a)
    ensures UpToDate(a, b) && UpToDate(b, a) <==> |a| == |b| && LastTerm(a) == LastTerm(b)
  {
  }

  /** A reply of a later term ends the election and makes the node a follower of that term without a vote. */
  lemma VoteReplyExactly(n: Node, resp: VoteResp)
    requires n.election.Some?
    ensures var m := VoteReplied(n, resp);
            && m.term == Max(n.term, resp.term)
            && m == n.(term := m.term, voted := m.voted, role := m.role, election := m.election)
            && (resp.term > n.term ==> m.role == Follower && m.voted == None && m.election == None)
            && (resp.term <= n.term ==>
                  && m.role == n.role && m.voted == n.voted && m.election.Some?
                  && m.election.value.req == n.election.value.req
                  && m.election.value.pos == n.election.value.pos + 1
                  && m.election.value.votes - n.election.value.votes == if resp.granted then 1 else 0)
  {
  }

  /** The vote loop over what the remaining peers answer, None standing for no answer. */
  function AfterReplies(n: Node, replies: seq<Option<VoteResp>>): Node
    decreases |replies|
  {
    if n.election == None || replies == [] then n
    else AfterReplies(if replies[0].None? then VoteLost(n) else VoteReplied(n, replies[0].value), replies[1..])
  }

  predicate Outvoted(n: Node, reply: Option<VoteResp>) { reply.Some? && reply.value.term > n.term }

  predicate Granted(reply: Option<VoteResp>) { reply.Some? && reply.value.granted }

  function Grants(replies: seq<Option<VoteResp>>): nat {
    if replies == [] then 0 else (if Granted(replies[0]) then 1 else 0) + Grants(replies[1..])
  }

  /** Without a reply of a later term, the loop ends with one vote more for every grant and everyone asked. */
  lemma {:induction false} VotesAreCounted(n: Node, replies: seq<Option<VoteResp>>)
    requires n.election.Some? && forall i :: 0 <= i < |replies| ==> !Outvoted(n, replies[i])
    ensures var m := AfterReplies(n, replies);
            && m == n.(election := m.election) && m.election.Some?
            && m.election.value.pos == n.election.value.pos + |replies|
            && m.election.value.votes == n.election.value.votes + Grants(replies)
    decreases |replies|
  {
    if replies != [] {
      var next := if replies[0].None? then VoteLost(n) else VoteReplied(n, replies[0].value);
      assert !Outvoted(n, replies[0]);
      forall i | 0 <= i < |replies| - 1 ensures !Outvoted(next, replies[1..][i]) {
        assert !Outvoted(n, replies[i + 1]);
      }
      VotesAreCounted(next, replies[1..]);
    }
  }

  /** The first reply of a later term decides, whatever was counted before. */
  lemma {:induction false} OutvotedAt(n: Node, replies: seq<Option<VoteResp>>, k: nat)
    requires n.election.Some? && k < |replies| && Outvoted(n, replies[k])
    requires forall i :: 0 <= i < k ==> !Outvoted(n, replies[i])
    ensures AfterReplies(n, replies)
            == n.(term := replies[k].value.term, voted := None, role := Follower, election := None)
    decreases |replies|
  {
    if k > 0 {
      assert !Outvoted(n, replies[0]);
      var next := if replies[0].None? then VoteLost(n) else VoteReplied(n, replies[0].value);
      forall i | 0 <= i < k - 1 ensures !Outvoted(next, replies[1..][i]) {
        assert !Outvoted(n, replies[i + 1]);
      }
      OutvotedAt(next, replies[1..], k - 1);
    }
  }

  /** A tally makes a leader exactly of a node that is still a candidate and has the votes of more than half. */
  lemma TallyExactly(n: Node)
    requires n.election.Some?
    ensures var m := Tally(n);
            var votes := n.election.value.votes;
            var won := n.role == Candidate && votes >= 1 && MoreThanHalf(n, votes - 1);
            && m.election == None && m.term == n.term && m.voted == n.voted && m.commit == n.commit
            && (!won ==> m == n.(election := None))
            && (won ==> && m.role == Leader && m.log == n.log + [Entry(n.term, |n.log| + 1, NoopCommand)]
                        && |m.next| == |m.matched| == |n.peers|
                        && forall j :: 0 <= j < |n.peers| ==> m.next[j] == |m.log| && m.matched[j] == 0)
  {
  }

  // ---- replication, leader side

  /** A message is the rest of the log behind prevLogIndex, with the term of the entry there and the commit index. */
  lemma MessageExactly(n: Node, slot: nat)
    requires slot < |n.next| && 1 <= n.next[slot] <= |n.log| + 1
    ensures var req := AppendRequest(n, slot);
            && req.term == n.term && req.leader == n.id && req.leaderCommit == n.commit
            && req.prevIndex + 1 == n.next[slot] && n.log[..req.prevIndex] + req.entries == n.log
            && (req.prevIndex == 0 ==> req.prevTerm == 0)
            && (req.prevIndex > 0 ==> req.prevTerm == n.log[req.prevIndex - 1].term)
  {
  }

  /** What nextIndex becomes when a call brought no progress. */
  ghost predicate SteppedBack(n: Node, m: Node, slot: nat, sent: bool)
    requires slot < |n.next|
  {
    && |m.next| == |n.next| && (forall j :: 0 <= j < |n.next| && j != slot ==> m.next[j] == n.next[j])
    && (sent && n.next[slot] > 1 ==> m.next[slot] == n.next[slot] - 1)
    && (!sent || n.next[slot] <= 1 ==> m.next[slot] == n.next[slot])
  }

  /** A lost call: the peer counts for nothing until it answers again. */
  lemma LostExactly(n: Node, slot: nat, req: AppendReq)
    requires slot < |n.next| && slot < |n.matched|
    ensures var m := AppendLost(n, slot, req);
            && m == n.(next := m.next, matched := m.matched)
            && |m.matched| == |n.matched| && m.matched[slot] == 0
            && (forall j :: 0 <= j < |n.matched| && j != slot ==> m.matched[j] == n.matched[j])
            && SteppedBack(n, m, slot, req.entries != [])
  {
  }

  /** So no index counts that peer, however well it is connected. */
  lemma LostIsNotCounted(n: Node, slot: nat, req: AppendReq, connected: seq<bool>, i: nat)
    requires slot < |n.next| && slot < |n.matched| == |connected| && i > 0
    ensures Holders(connected, AppendLost(n, slot, req).matched, i, |n.matched|)
            == Holders(connected, n.matched, i, |n.matched|) - {slot}
  {
    LostExactly(n, slot, req);
  }

  /** A reply of a later term makes the leader a follower of that term without a vote, and nothing else. */
  lemma LaterReplyExactly(n: Node, slot: nat, req: AppendReq, resp: AppendResp, connected: seq<bool>)
    requires slot < |n.next| && slot < |n.matched| && |connected| == |n.matched| && resp.term > n.term
    ensures AppendReplied(n, slot, req, resp, connected) == n.(term := resp.term, voted := None, role := Follower)
  {
  }

  /** A reply that confirms nothing: no index is counted or committed on it. */
  lemma RefusalExactly(n: Node, slot: nat, req: AppendReq, resp: AppendResp, connected: seq<bool>)
    requires slot < |n.next| && slot < |n.matched| && |connected| == |n.matched| && resp.term <= n.term
    requires !resp.success || req.entries == []
    ensures var m := AppendReplied(n, slot, req, resp, connected);
            m == n.(next := m.next) && SteppedBack(n, m, slot, req.entries != [])
  {
  }

  /**
   What a scan leaves: the commit index never falls, rises only to an index of the current term that more than half
   hold, and no such index remains above it.
   */
  ghost predicate FullyCommitted(n: Node, m: Node, connected: seq<bool>)
    requires |connected| == |n.matched|
  {
    && n.commit <= m.commit
    && (m.commit > n.commit ==> && m.commit <= |n.log| && n.log[m.commit - 1].term == n.term
                                && MoreThanHalf(n, |Holders(connected, n.matched, m.commit, |n.matched|)|))
    && forall i: nat | m.commit < i <= |n.log| && n.log[i - 1].term == n.term ::
         !MoreThanHalf(n, |Holders(connected, n.matched, i, |n.matched|)|)
  }

  lemma AdvancesFully(n: Node, connected: seq<bool>)
    requires |connected| == |n.matched|
    ensures var m := AdvanceCommit(n, connected);
            && m == n.(commit := m.commit, applied := m.applied, db := m.db) && FullyCommitted(n, m, connected)
            && (m.commit == n.commit ==> m == n) && (m.commit > n.commit ==> AppliedFrom(n, m))
    ensures forall i: nat :: !Eligible(AdvanceCommit(n, connected), connected, i)
  {
    hide Eligible, Scan;
    ScanIsGreatest(n, connected);
    var m := AdvanceCommit(n, connected);
    EligibleExactly(n, connected, m.commit);
    forall i: nat ensures !Eligible(m, connected, i) {
      EligibleExactly(m, connected, i);
      EligibleExactly(n, connected, i);
    }
    forall i: nat | m.commit < i <= |n.log| && n.log[i - 1].term == n.term
      ensures !MoreThanHalf(n, |Holders(connected, n.matched, i, |n.matched|)|)
    {
      EligibleExactly(n, connected, i);
    }
  }

  lemma EligibleExactly(n: Node, connected: seq<bool>, i: nat)
    requires |connected| == |n.matched|
    ensures Eligible(n, connected, i) <==>
              && n.commit < i <= |n.log| && n.log[i - 1].term == n.term
              && MoreThanHalf(n, |Holders(connected, n.matched, i, |n.matched|)|)
  {
    CountIsSize(connected, n.matched, i, |n.matched|);
  }

  /** A reply that confirms entries: the peer counts up to the last of them, and the commit index moves all the way. */
  lemma ConfirmationExactly(n: Node, slot: nat, req: AppendReq, resp: AppendResp, connected: seq<bool>)
    requires slot < |n.next| && slot < |n.matched| && |connected| == |n.matched| && resp.term <= n.term
    requires resp.success && req.entries != []
    ensures var m := AppendReplied(n, slot, req, resp, connected);
            && m == n.(next := m.next, matched := m.matched, commit := m.commit, applied := m.applied, db := m.db)
            && |m.matched| == |n.matched| && |m.next| == |n.next|
            && m.matched[slot] == Max(n.matched[slot], req.prevIndex + |req.entries|)
            && m.next[slot] == m.matched[slot] + 1
            && (forall j :: 0 <= j < |n.matched| && j != slot ==> m.matched[j] == n.matched[j])
            && (forall j :: 0 <= j < |n.next| && j != slot ==> m.next[j] == n.next[j])
            && FullyCommitted(n.(matched := m.matched), m, connected)
  {
    hide AdvanceCommit, FullyCommitted;
    AdvancesFully(Acknowledged(n, slot, req), connected);
    SameScan(Acknowledged(n, slot, req), n.(matched := Acknowledged(n, slot, req).matched),
             AppendReplied(n, slot, req, resp, connected), connected);
  }

  lemma SameScan(a: Node, b: Node, m: Node, connected: seq<bool>)
    requires |connected| == |a.matched| && FullyCommitted(a, m, connected)
    requires b.matched == a.matched && b.log == a.log && b.commit == a.commit && b.term == a.term && b.peers == a.peers
    ensures FullyCommitted(b, m, connected)
  {
  }

  // ---- replication, follower side

  /** A message of a term not over makes the node follow in that term, accepted or not; an older one does nothing. */
  lemma HandledExactly(n: Node, req: AppendReq)
    ensures var (m, resp) := HandleAppend(n, req);
            && resp.term == m.term == Max(n.term, req.term)
            && m.next == n.next && m.matched == n.matched && m.election == n.election
            && m.id == n.id && m.peers == n.peers
            && (req.term < n.term ==> m == n && !resp.success)
            && (req.term >= n.term ==> m.role == Follower && m.voted == (if req.term > n.term then None else n.voted))
            && (!resp.success ==> m.log == n.log && m.commit == n.commit && m.applied == n.applied && m.db == n.db)
            && (resp.success ==>
                  && m.commit == (if req.leaderCommit > n.commit then Min(req.leaderCommit, |m.log|) else n.commit)
                  && AppliedFrom(n.(log := m.log), m))
  {
    hide Merge;
  }

  /** What is committed and not applied yet is applied, oldest first; nothing is if the log does not reach so far. */
  ghost predicate AppliedFrom(n: Node, m: Node) {
    && m.applied == Max(n.applied, m.commit)
    && (n.applied < m.commit <= |n.log| ==> m.db == ApplyAll(n.db, n.log[n.applied..m.commit]))
    && (m.commit <= n.applied || m.commit > |n.log| ==> m.db == n.db)
  }

  lemma AppliesExactly(n: Node)
    ensures var m := ApplyCommitted(n); m == n.(applied := m.applied, db := m.db) && AppliedFrom(n, m)
  {
    assert ApplyAll(n.db, []) == n.db;
  }

  /** What an accepted message makes of the log: kept where the terms agree, replaced from the first conflict on. */
  lemma AcceptedLog(n: Node, req: AppendReq)
    requires HandleAppend(n, req).1.success && EntriesIndexed(req.prevIndex, req.entries)
    ensures req.prevIndex <= |n.log| && MergeRule(n.log, req.prevIndex, req.entries, HandleAppend(n, req).0.log)
  {
    hide Merge, MergeRule, ApplyCommitted;
    LogAfterAccept(n, req);
    MergeMeetsRule(n.log, req.prevIndex, req.entries);
  }

  lemma LogAfterAccept(n: Node, req: AppendReq)
    requires HandleAppend(n, req).1.success
    ensures req.prevIndex <= |n.log| && HandleAppend(n, req).0.log == Merge(n.log, req.prevIndex, req.entries)
  {
    hide Merge;
  }

  // ---- crashes

  /** Only identity, term, vote and log survive a crash, and they determine the node that comes back. */
  lemma DiskDeterminesRestart(a: Node, b: Node)
    ensures var r := Restart(a);
            r.id == a.id && r.peers == a.peers && r.term == a.term && r.voted == a.voted && r.log == a.log
    ensures Restart(a) == Restart(b) <==>
              a.id == b.id && a.peers == b.peers && a.term == b.term && a.voted == b.voted && a.log == b.log
    ensures Restart(a).role == Follower && Restart(a).election == None
  {
  }
}
