/**
 One Raft node as a value, and every atomic action of RaftNode as a function on it.
 The class in RaftNode.dfy performs the same actions in place and is proved to compute these functions.
 */
module Nodes {
  import opened Types
  import opened Logs
  import opened StateMachines

  datatype Role = Follower | Candidate | Leader

  /** A running startElection: the request it sends, the next peer to ask, the votes counted so far. */
  datatype Election = Election(req: VoteReq, pos: nat, votes: nat)

  datatype Node = Node(
    id: NodeId,
    peers: seq<NodeId>,
    term: nat,
    voted: Option<NodeId>,
    log: seq<Entry>,
    role: Role,
    commit: nat,
    applied: nat,
    db: Database,
    next: seq<nat>,
    matched: seq<nat>,
    election: Option<Election>)

  function Fresh(id: NodeId, peers: seq<NodeId>): Node {
    Node(id, peers, 0, None, [], Follower, 0, 0, map[], [], [], None)
  }

  function Majority(n: Node): nat {
    (|n.peers| + 1) / 2 + 1
  }

  // ---- elections

  /** include/RaftNode.h, 57-73: a new term, a vote for oneself, one vote counted. */
  function StartElection(n: Node): Node {
    n.(role := Candidate, term := n.term + 1, voted := Some(n.id),
       election := Some(Election(VoteReq(n.term + 1, n.id, |n.log|, LastTerm(n.log)), 0, 1)))
  }

  function AdoptTerm(n: Node, term: nat): Node {
    n.(term := term, voted := None, role := Follower)
  }

  /** logOk of the vote handler, on whole logs. */
  predicate UpToDate(a: seq<Entry>, b: seq<Entry>) {
    LastTerm(a) > LastTerm(b) || (LastTerm(a) == LastTerm(b) && |a| >= |b|)
  }

  predicate CandidateLogOk(req: VoteReq, log: seq<Entry>) {
    req.lastTerm > LastTerm(log) || (req.lastTerm == LastTerm(log) && req.lastIndex >= |log|)
  }

  function HandleVote(n: Node, req: VoteReq): (Node, VoteResp) {
    if req.term < n.term then (n, VoteResp(n.term, false))
    else
      var m := if req.term > n.term then AdoptTerm(n, req.term) else n;
      if (m.voted == None || m.voted == Some(req.candidate)) && CandidateLogOk(req, m.log)
      then (m.(voted := Some(req.candidate)), VoteResp(m.term, true))
      else (m, VoteResp(m.term, false))
  }

  /** include/RaftNode.h, 87-106: one reply inside the vote loop. */
  function VoteReplied(n: Node, resp: VoteResp): Node
    requires n.election.Some?
  {
    var e := n.election.value;
    if resp.term > n.term then AdoptTerm(n, resp.term).(election := None)
    else if resp.granted then n.(election := Some(e.(pos := e.pos + 1, votes := e.votes + 1)))
    else n.(election := Some(e.(pos := e.pos + 1)))
  }

  function VoteLost(n: Node): Node
    requires n.election.Some?
  {
    var e := n.election.value;
    n.(election := Some(e.(pos := e.pos + 1)))
  }

  /** include/RaftNode.h, 111: enough votes, and nothing but the role is looked at again. */
  predicate Wins(n: Node)
    requires n.election.Some?
  {
    n.election.value.votes >= Majority(n) && n.role == Candidate
  }

  function AppendOwn(n: Node, cmd: Command): Node {
    n.(log := n.log + [Entry(n.term, |n.log| + 1, cmd)])
  }

  function BecomeLeader(n: Node): Node {
    AppendOwn(n, NoopCommand).(role := Leader,
                               next := seq(|n.peers|, i => |n.log| + 1),
                               matched := seq(|n.peers|, i => 0))
  }

  function Tally(n: Node): Node
    requires n.election.Some?
  {
    (if Wins(n) then BecomeLeader(n) else n).(election := None)
  }

  // ---- replication, leader side

  function AppendRequest(n: Node, slot: nat): AppendReq
    requires slot < |n.next|
  {
    var prev := if n.next[slot] > 0 then n.next[slot] - 1 else 0;
    AppendReq(n.term, n.id, prev, TermAt(n.log, prev), n.commit,
              if prev < |n.log| then n.log[prev..] else [])
  }

  function AppendLost(n: Node, slot: nat, req: AppendReq): Node
    requires slot < |n.next| && slot < |n.matched|
  {
    BackOff(n.(matched := n.matched[slot := 0]), slot, req)
  }

  function BackOff(n: Node, slot: nat, req: AppendReq): Node
    requires slot < |n.next|
  {
    if req.entries != [] && n.next[slot] > 1 then n.(next := n.next[slot := n.next[slot] - 1]) else n
  }

  function AppendReplied(n: Node, slot: nat, req: AppendReq, resp: AppendResp, connected: seq<bool>): Node
    requires slot < |n.next| && slot < |n.matched| && |connected| == |n.matched|
  {
    if resp.term > n.term then AdoptTerm(n, resp.term)
    else if resp.success && req.entries != [] then AdvanceCommit(Acknowledged(n, slot, req), connected)
    else BackOff(n, slot, req)
  }

  function Acknowledged(n: Node, slot: nat, req: AppendReq): Node
    requires slot < |n.next| && slot < |n.matched|
  {
    var m := Max(n.matched[slot], req.prevIndex + |req.entries|);
    n.(matched := n.matched[slot := m], next := n.next[slot := m + 1])
  }

  // ---- commit and apply

  /** Peers among the first k that are connected and hold index idx. */
  function Count(connected: seq<bool>, matched: seq<nat>, idx: nat, k: nat): nat
    requires k <= |connected| && k <= |matched|
  {
    if k == 0 then 0
    else Count(connected, matched, idx, k - 1) + if connected[k - 1] && matched[k - 1] >= idx then 1 else 0
  }

  predicate HeldByMajority(n: Node, connected: seq<bool>, idx: nat)
    requires |connected| == |n.matched|
  {
    1 + Count(connected, n.matched, idx, |n.matched|) >= Majority(n)
  }

  /** The scan of advanceCommitIndex from idx on, `best` being the commit found so far. */
  function Scan(n: Node, connected: seq<bool>, idx: nat, best: nat): nat
    requires |connected| == |n.matched| && idx >= 1
    decreases |n.log| + 1 - idx
  {
    if idx > |n.log| then best
    else if n.log[idx - 1].term != n.term then Scan(n, connected, idx + 1, best)
    else if HeldByMajority(n, connected, idx) then Scan(n, connected, idx + 1, idx)
    else best
  }

  function AdvanceCommit(n: Node, connected: seq<bool>): Node
    requires |connected| == |n.matched|
  {
    var c := Scan(n, connected, n.commit + 1, n.commit);
    if c > n.commit then ApplyCommitted(n.(commit := c)) else n
  }

  function ApplyCommitted(n: Node): Node {
    if n.commit > n.applied
    then n.(db := ApplyAll(n.db, ReadRange(n.log, n.applied + 1, n.commit)), applied := n.commit)
    else n
  }

  // ---- replication, follower side

  predicate PrevOk(log: seq<Entry>, req: AppendReq) {
    req.prevIndex > 0 ==> req.prevIndex <= |log| && TermAt(log, req.prevIndex) == req.prevTerm
  }

  /** include/RaftNode.h, 364-371: the sender's term is adopted and the node follows. */
  function Follow(n: Node, term: nat): Node {
    n.(term := term, voted := if term > n.term then None else n.voted, role := Follower)
  }

  function HandleAppend(n: Node, req: AppendReq): (Node, AppendResp) {
    if req.term < n.term then (n, AppendResp(n.term, false))
    else
      var m := Follow(n, req.term);
      if !PrevOk(m.log, req) then (m, AppendResp(req.term, false))
      else (Accept(m, req), AppendResp(req.term, true))
  }

  function Accept(n: Node, req: AppendReq): Node {
    var log := Merge(n.log, req.prevIndex, req.entries);
    ApplyCommitted(n.(log := log,
                      commit := if req.leaderCommit > n.commit then Min(req.leaderCommit, |log|) else n.commit))
  }

  // ---- crash and restart

  /** A new process on the same directory: the whole log is replayed and counted as committed. */
  function Restart(n: Node): Node {
    n.(role := Follower, commit := |n.log|, applied := |n.log|, db := ApplyAll(map[], n.log),
       next := [], matched := [], election := None)
  }

  /** The handler dies after k steps of its append pass. */
  function CrashInMerge(n: Node, req: AppendReq, k: nat): Node
    requires k <= |req.entries|
  {
    var m := Follow(n, req.term);
    Restart(m.(log := MergeUpTo(m.log, req.prevIndex, req.entries, k)))
  }

  // ---- what the commit scan computes

  /** An index the scan may commit: new, of the current term, held by a connected majority. */
  predicate Eligible(n: Node, connected: seq<bool>, i: nat)
    requires |connected| == |n.matched|
  {
    n.commit < i <= |n.log| && n.log[i - 1].term == n.term && HeldByMajority(n, connected, i)
  }

  lemma {:induction false} CountAntitone(connected: seq<bool>, matched: seq<nat>, i: nat, j: nat, k: nat)
    requires k <= |connected| && k <= |matched| && i <= j
    ensures Count(connected, matched, j, k) <= Count(connected, matched, i, k)
  {
    if k > 0 {
      CountAntitone(connected, matched, i, j, k - 1);
    }
  }

  lemma {:induction false} ScanFrom(n: Node, connected: seq<bool>, idx: nat, best: nat)
    requires |connected| == |n.matched| && n.commit <= best < idx
    ensures var r := Scan(n, connected, idx, best);
            && (r == best || (r >= idx && Eligible(n, connected, r)))
            && forall i: nat | i >= idx :: Eligible(n, connected, i) ==> i <= r
    decreases |n.log| + 1 - idx
  {
    if idx <= |n.log| {
      if n.log[idx - 1].term != n.term {
        ScanFrom(n, connected, idx + 1, best);
      } else if HeldByMajority(n, connected, idx) {
        ScanFrom(n, connected, idx + 1, idx);
      } else {
        forall i: nat | i >= idx ensures !Eligible(n, connected, i) {
          CountAntitone(connected, n.matched, idx, i, |n.matched|);
        }
      }
    }
  }

  /** Despite `continue` and the early `break`, the scan finds the greatest eligible index. */
  lemma ScanIsGreatest(n: Node, connected: seq<bool>)
    requires |connected| == |n.matched|
    ensures var r := Scan(n, connected, n.commit + 1, n.commit);
            && (r == n.commit || Eligible(n, connected, r))
            && forall i: nat :: Eligible(n, connected, i) ==> i <= r
  {
    ScanFrom(n, connected, n.commit + 1, n.commit);
  }

  // ---- client calls

  datatype Submission = NotLeader | NotEnoughPeers | Waiting(idx: nat)

  /** Connected peers among the first k. */
  function UpCount(connected: seq<bool>, k: nat): nat
    requires k <= |connected|
  {
    if k == 0 then 0 else UpCount(connected, k - 1) + if connected[k - 1] then 1 else 0
  }

  predicate Requestable(n: Node, connected: seq<bool>) {
    UpCount(connected, |connected|) >= (|n.peers| + 1) / 2
  }

  function Submit(n: Node, cmd: Command, connected: seq<bool>): (Node, Submission) {
    if n.role != Leader then (n, NotLeader)
    else if !Requestable(n, connected) then (n, NotEnoughPeers)
    else (AppendOwn(n, cmd), Waiting(|n.log| + 1))
  }

  /** get up to the point where it waits; unlike submit it does not look at the connections. */
  function StartGet(n: Node): (Node, Submission) {
    if n.role != Leader then (n, NotLeader) else (AppendOwn(n, NoopCommand), Waiting(|n.log| + 1))
  }

  /** What get answers once the wait is over: an error if its node no longer leads, else the value of the key. */
  function FinishGet(n: Node, key: Bytes): Option<Bytes> {
    if n.role != Leader then None else Some(Get(n.db, key))
  }

  lemma {:induction false} CountIsUp(connected: seq<bool>, matched: seq<nat>, idx: nat, k: nat)
    requires k <= |connected| && k <= |matched|
    ensures Count(connected, matched, idx, k) <= UpCount(connected, k)
    ensures (forall j :: 0 <= j < k ==> matched[j] >= idx) ==>
              Count(connected, matched, idx, k) == UpCount(connected, k)
  {
    if k > 0 {
      CountIsUp(connected, matched, idx, k - 1);
    }
  }

  /** A command is refused exactly when, with these connections, no matchIndex at all would let the scan commit it. */
  lemma RequestableExactly(n: Node, connected: seq<bool>, idx: nat)
    requires |connected| == |n.peers|
    ensures Requestable(n, connected) <==>
              exists m: seq<nat> | |m| == |connected| :: HeldByMajority(n.(matched := m), connected, idx)
  {
    var full: seq<nat> := seq(|connected|, i => idx);
    CountIsUp(connected, full, idx, |connected|);
    assert Requestable(n, connected) ==> HeldByMajority(n.(matched := full), connected, idx);
    forall m: seq<nat> | |m| == |connected| && HeldByMajority(n.(matched := m), connected, idx)
      ensures Requestable(n, connected)
    {
      CountIsUp(connected, m, idx, |connected|);
    }
  }
}
