/** Invariant behind Election Safety, kept by every step of every run, crashes included. */
module ElectionProof {
  import opened Types
  import opened Quorums
  import opened Logs
  import opened Nodes
  import opened Clusters
  import opened Histories

  ghost predicate VotedFor(h: History, v: NodeId, term: nat, candidate: NodeId) {
    Slot(v, term) in h.votes && h.votes[Slot(v, term)].candidate == candidate
  }

  /** A vote is given once per term, is still in force while the voter is in that term, and backs an up-to-date log. */
  ghost predicate BallotOk(w: World, h: History, s: Slot)
    requires s in h.votes
  {
    var b := h.votes[s];
    && s.node in w.nodes && 1 <= s.term <= w.nodes[s.node].term
    && (s.term == w.nodes[s.node].term ==> w.nodes[s.node].voted == Some(b.candidate))
    && VotedFor(h, b.candidate, s.term, b.candidate)
    && UpToDate(h.votes[Slot(b.candidate, s.term)].log, b.log)
  }

  ghost predicate BallotsOk(w: World, h: History) {
    forall s :: s in h.votes ==> BallotOk(w, h, s)
  }

  ghost predicate ReignOk(ids: set<NodeId>, h: History, term: nat, r: Reign) {
    && r.leader in ids && IsQuorum(ids, r.voters)
    && (forall v :: v in r.voters ==> VotedFor(h, v, term, r.leader))
    && VotedFor(h, r.leader, term, r.leader) && r.log == h.votes[Slot(r.leader, term)].log
  }

  ghost predicate ReignsOk(w: World, h: History) {
    forall t :: t in h.reigns ==> ReignOk(w.nodes.Keys, h, t, h.reigns[t])
  }

  ghost predicate RoleOk(h: History, n: NodeId, x: Node) {
    && (x.role == Leader ==> x.term in h.reigns && h.reigns[x.term].leader == n)
    && (x.role == Candidate ==>
          && VotedFor(h, n, x.term, n) && h.votes[Slot(n, x.term)].log == x.log
          && (x.term in h.reigns ==> h.reigns[x.term].leader != n))
  }

  function Granters(h: History, peers: seq<NodeId>, term: nat, n: NodeId): set<NodeId> {
    set p | p in Elems(peers) && Slot(p, term) in h.votes && h.votes[Slot(p, term)].candidate == n
  }

  ghost predicate RequestOk(h: History, n: NodeId, req: VoteReq) {
    && req.candidate == n && VotedFor(h, n, req.term, n)
    && req.lastIndex == |h.votes[Slot(n, req.term)].log|
    && req.lastTerm == LastTerm(h.votes[Slot(n, req.term)].log)
  }

  /** The running count never exceeds the votes granted, and a candidate is still in the term it asked for. */
  ghost predicate ElectionOk(h: History, n: NodeId, x: Node) {
    x.election.Some? ==>
      var e := x.election.value;
      && RequestOk(h, n, e.req) && e.pos <= |x.peers| && e.req.term <= x.term
      && e.votes <= 1 + |Granters(h, x.peers[..e.pos], e.req.term, n)|
      && (x.role == Candidate ==> e.req.term == x.term)
  }

  ghost predicate ActorsOk(w: World, h: History) {
    forall n :: n in w.nodes ==> RoleOk(h, n, w.nodes[n]) && ElectionOk(h, n, w.nodes[n])
  }

  ghost predicate VoteMessagesOk(w: World, h: History) {
    && (forall c :: c in w.voteCalls ==> c.to in w.nodes && RequestOk(h, c.from, c.req))
    && (forall r :: r in w.voteReplies && r.resp.granted ==> VotedFor(h, r.call.to, r.call.req.term, r.call.from))
  }

  ghost predicate Inv(w: World, h: History) {
    Wired(w) && BallotsOk(w, h) && ReignsOk(w, h) && ActorsOk(w, h) && VoteMessagesOk(w, h)
  }

  lemma InitInv(w: World)
    requires Init(w)
    ensures Inv(w, Blank)
  {
  }

  // ---- consequences

  /** Two leaders of one term are one: their electorates share a voter. */
  lemma OneLeader(w: World, h: History, n: NodeId, term: nat)
    requires Inv(w, h) && n in w.nodes && term in h.reigns && IsQuorum(w.nodes.Keys, Supporters(w, h, n, term))
    ensures h.reigns[term].leader == n
  {
    var v := QuorumsMeet(w.nodes.Keys, h.reigns[term].voters, Supporters(w, h, n, term));
    assert VotedFor(h, v, term, h.reigns[term].leader);
  }

  /** A candidate that passes the role test at the tally was voted for by a majority in its present term. */
  lemma WinnerHasQuorum(w: World, h: History, n: NodeId)
    requires Inv(w, h) && n in w.nodes && w.nodes[n].election.Some?
    requires w.nodes[n].election.value.pos == |w.nodes[n].peers| && Wins(w.nodes[n])
    ensures IsQuorum(w.nodes.Keys, Supporters(w, h, n, w.nodes[n].term))
  {
    var x := w.nodes[n];
    assert RoleOk(h, n, x) && ElectionOk(h, n, x);
    assert x.peers[..|x.peers|] == x.peers;
    var g := Granters(h, x.peers, x.term, n);
    ClusterSize(w.nodes.Keys, n, x.peers);
    assert n !in g;
    SubsetSize(g + {n}, Supporters(w, h, n, x.term));
  }

  // ---- steps that touch no vote and no reign

  /** The change any such step makes to a node, as far as elections can see. */
  ghost predicate Quiet(x: Node, y: Node) {
    && y.id == x.id && y.peers == x.peers && x.term <= y.term
    && (y.term == x.term ==> y.voted == x.voted)
    && (y.role == Follower || (y.role == x.role && y.term == x.term && (y.role == Candidate ==> y.log == x.log)))
    && (y.election == x.election || y.election == None)
  }

  ghost predicate SameVotes(h: History, g: History) {
    g.votes == h.votes && g.reigns == h.reigns
  }

  lemma WiredPut(w: World, n: NodeId, y: Node)
    requires Wired(w) && n in w.nodes && y.id == n && y.peers == w.nodes[n].peers
    ensures Wired(Put(w, n, y)) && Put(w, n, y).nodes.Keys == w.nodes.Keys
  {
    assert Put(w, n, y).nodes.Keys == w.nodes.Keys;
  }

  /** Ballots stay good while terms only rise and a vote only changes with the term. */
  lemma BallotsFrame(w: World, h: History, w': World, h': History)
    requires BallotsOk(w, h) && h'.votes == h.votes && w'.nodes.Keys == w.nodes.Keys
    requires forall v :: v in w.nodes ==>
      w.nodes[v].term <= w'.nodes[v].term
      && (w.nodes[v].term == w'.nodes[v].term ==> w'.nodes[v].voted == w.nodes[v].voted)
    ensures BallotsOk(w', h')
  {
    forall s | s in h'.votes ensures BallotOk(w', h', s) {
      assert BallotOk(w, h, s);
    }
  }

  lemma WorldFrame(w: World, w': World, h: History)
    requires w'.nodes.Keys == w.nodes.Keys && w'.voteCalls == w.voteCalls && w'.voteReplies == w.voteReplies
    requires ReignsOk(w, h) && VoteMessagesOk(w, h)
    ensures ReignsOk(w', h) && VoteMessagesOk(w', h)
  {
  }

  lemma QuietNode(h: History, n: NodeId, x: Node, y: Node)
    requires Quiet(x, y) && RoleOk(h, n, x) && ElectionOk(h, n, x)
    ensures RoleOk(h, n, y) && ElectionOk(h, n, y)
  {
  }

  lemma QuietStep(w: World, h: History, n: NodeId, y: Node)
    requires Inv(w, h) && n in w.nodes && Quiet(w.nodes[n], y)
    ensures Inv(Put(w, n, y), h)
  {
    var w' := Put(w, n, y);
    WiredPut(w, n, y);
    QuietNode(h, n, w.nodes[n], y);
    BallotsFrame(w, h, w', h);
  }

  /** Inv reads only the votes and reigns of the history, and nothing of the append traffic. */
  lemma Reframe(w: World, h: History, w': World, h': History)
    requires Inv(w, h) && SameVotes(h, h')
    requires w'.nodes == w.nodes && w'.voteCalls == w.voteCalls && w'.voteReplies == w.voteReplies
    ensures Inv(w', h')
  {
    forall s | s in h'.votes ensures BallotOk(w', h', s) {
      assert BallotOk(w, h, s);
    }
    forall n | n in w'.nodes ensures RoleOk(h', n, w'.nodes[n]) && ElectionOk(h', n, w'.nodes[n]) {
      assert RoleOk(h, n, w.nodes[n]) && ElectionOk(h, n, w.nodes[n]);
      assert forall peers, t :: Granters(h', peers, t, n) == Granters(h, peers, t, n);
    }
    forall t | t in h'.reigns ensures ReignOk(w'.nodes.Keys, h', t, h'.reigns[t]) {
      assert ReignOk(w.nodes.Keys, h, t, h.reigns[t]);
    }
    VotesAloneMatter(w, h, w', h');
  }

  // ---- one more vote

  /** The history after a new ballot in an empty slot. */
  ghost predicate OneMoreVote(h: History, h': History, s: Slot, b: Ballot) {
    s !in h.votes && h' == h.(votes := h.votes[s := b])
  }

  lemma VoteKeepsActor(h: History, h': History, s: Slot, b: Ballot, n: NodeId, x: Node)
    requires OneMoreVote(h, h', s, b) && RoleOk(h, n, x) && ElectionOk(h, n, x)
    ensures RoleOk(h', n, x) && ElectionOk(h', n, x)
  {
    if x.election.Some? {
      var e := x.election.value;
      SubsetSize(Granters(h, x.peers[..e.pos], e.req.term, n), Granters(h', x.peers[..e.pos], e.req.term, n));
    }
  }

  lemma VoteKeepsReigns(w: World, h: History, h': History, s: Slot, b: Ballot)
    requires OneMoreVote(h, h', s, b) && ReignsOk(w, h)
    ensures ReignsOk(w, h')
  {
    forall t | t in h'.reigns ensures ReignOk(w.nodes.Keys, h', t, h'.reigns[t]) {
      assert ReignOk(w.nodes.Keys, h, t, h.reigns[t]);
      forall v | v in h.reigns[t].voters ensures VotedFor(h', v, t, h.reigns[t].leader) {
        assert VotedFor(h, v, t, h.reigns[t].leader);
      }
    }
  }

  lemma VoteKeepsMessages(w: World, h: History, h': History, s: Slot, b: Ballot)
    requires OneMoreVote(h, h', s, b) && VoteMessagesOk(w, h)
    ensures VoteMessagesOk(w, h')
  {
    forall c | c in w.voteCalls ensures RequestOk(h', c.from, c.req) {
      assert RequestOk(h, c.from, c.req);
    }
  }

  lemma VoteKeepsBallots(w: World, h: History, w': World, h': History, s: Slot, b: Ballot)
    requires OneMoreVote(h, h', s, b) && BallotsOk(w, h) && BallotOk(w', h', s)
    requires w'.nodes.Keys == w.nodes.Keys
    requires forall v :: v in w.nodes ==> w.nodes[v].term <= w'.nodes[v].term
    requires forall v :: v in w.nodes && w.nodes[v].term == w'.nodes[v].term && w.nodes[v].voted.Some? ==>
               w'.nodes[v].voted == w.nodes[v].voted
    ensures BallotsOk(w', h')
  {
    forall r | r in h'.votes ensures BallotOk(w', h', r) {
      if r != s {
        assert BallotOk(w, h, r);
      }
    }
  }

  // ---- the steps of an election

  lemma StartElectionKeeps(w: World, h: History, n: NodeId)
    requires Inv(w, h) && Enabled(w, StartElectionAt(n))
    ensures Inv(Do(w, StartElectionAt(n)), Track(w, h, StartElectionAt(n)))
  {
    hide VoteMessagesOk, ReignsOk, ActorsOk;
    var x := w.nodes[n];
    var w' := Do(w, StartElectionAt(n));
    var h' := Track(w, h, StartElectionAt(n));
    var s := Slot(n, x.term + 1);
    var b := Ballot(n, x.log);
    assert s !in h.votes by {
      assert s in h.votes ==> BallotOk(w, h, s);
    }
    assert OneMoreVote(h, h', s, b);
    WiredPut(w, n, StartElection(x));
    VoteKeepsReigns(w, h, h', s, b);
    VoteKeepsMessages(w, h, h', s, b);
    WorldFrame(w, w', h');
    VoteKeepsBallots(w, h, w', h', s, b);
    StartElectionActors(w, h, n, h');
  }

  lemma StartElectionActors(w: World, h: History, n: NodeId, h': History)
    requires Inv(w, h) && n in w.nodes && Slot(n, w.nodes[n].term + 1) !in h.votes
    requires h' == h.(votes := h.votes[Slot(n, w.nodes[n].term + 1) := Ballot(n, w.nodes[n].log)])
    ensures ActorsOk(Put(w, n, StartElection(w.nodes[n])), h')
  {
    hide StartElection, RoleOk, ElectionOk, BallotsOk, ReignsOk, VoteMessagesOk, OneMoreVote;
    var x := w.nodes[n];
    var s, b := Slot(n, x.term + 1), Ballot(n, x.log);
    NewVote(h, h', s, b);
    StarterOk(w, h, n, h');
    forall m | m in w.nodes && m != n ensures RoleOk(h', m, w.nodes[m]) && ElectionOk(h', m, w.nodes[m]) {
      VoteKeepsActor(h, h', s, b, m, w.nodes[m]);
    }
  }

  lemma NewVote(h: History, h': History, s: Slot, b: Ballot)
    requires s !in h.votes && h' == h.(votes := h.votes[s := b])
    ensures OneMoreVote(h, h', s, b)
  {
  }

  /** The node that starts the election, with no vote for its new term yet but its own. */
  lemma StarterOk(w: World, h: History, n: NodeId, h': History)
    requires Wired(w) && ReignsOk(w, h) && n in w.nodes && Slot(n, w.nodes[n].term + 1) !in h.votes
    requires h' == h.(votes := h.votes[Slot(n, w.nodes[n].term + 1) := Ballot(n, w.nodes[n].log)])
    ensures var y := StartElection(w.nodes[n]); RoleOk(h', n, y) && ElectionOk(h', n, y)
  {
    var t := w.nodes[n].term + 1;
    assert t in h.reigns ==> ReignOk(w.nodes.Keys, h, t, h.reigns[t]);
  }

  lemma AskVoteKeeps(w: World, h: History, n: NodeId)
    requires Inv(w, h) && Enabled(w, AskVote(n))
    ensures Inv(Do(w, AskVote(n)), Track(w, h, AskVote(n)))
  {
    var x := w.nodes[n];
    var w' := Do(w, AskVote(n));
    var to := x.peers[x.election.value.pos];
    assert to in Elems(x.peers);
    assert ElectionOk(h, n, x);
    forall s | s in h.votes ensures BallotOk(w', h, s) {
      assert BallotOk(w, h, s);
    }
  }

  lemma HandleVoteQuiet(x: Node, req: VoteReq)
    ensures var (y, resp) := HandleVote(x, req);
            && Quiet(x, y.(voted := if y.term == x.term then x.voted else None))
            && (resp.granted ==> y.term == req.term && y.log == x.log && y.voted == Some(req.candidate)
                                 && CandidateLogOk(req, x.log))
            && (!resp.granted ==> y.voted == if y.term == x.term then x.voted else None)
            && (resp.granted && req.term == x.term ==> x.voted == None || x.voted == Some(req.candidate))
  {
  }

  lemma GrantAgain(w: World, h: History, c: VoteCall)
    requires Inv(w, h) && Enabled(w, VoteHandled(c))
    requires HandleVote(w.nodes[c.to], c.req).1.granted && Slot(c.to, c.req.term) in h.votes
    ensures Inv(Put(w, c.to, HandleVote(w.nodes[c.to], c.req).0), h) && VotedFor(h, c.to, c.req.term, c.from)
  {
    var x := w.nodes[c.to];
    HandleVoteQuiet(x, c.req);
    assert RequestOk(h, c.from, c.req);
    assert BallotOk(w, h, Slot(c.to, c.req.term));
    QuietStep(w, h, c.to, HandleVote(x, c.req).0);
  }

  lemma GrantFirst(w: World, h: History, c: VoteCall)
    requires Inv(w, h) && Enabled(w, VoteHandled(c))
    requires HandleVote(w.nodes[c.to], c.req).1.granted && Slot(c.to, c.req.term) !in h.votes
    ensures Inv(Put(w, c.to, HandleVote(w.nodes[c.to], c.req).0), Track(w, h, VoteHandled(c)))
    ensures VotedFor(Track(w, h, VoteHandled(c)), c.to, c.req.term, c.from)
  {
    var y := HandleVote(w.nodes[c.to], c.req).0;
    var w' := Put(w, c.to, y);
    var h' := Track(w, h, VoteHandled(c));
    var s := Slot(c.to, c.req.term);
    var b := Ballot(c.req.candidate, y.log);
    assert OneMoreVote(h, h', s, b);
    NewBallotOk(w, h, h', c);
    WiredPut(w, c.to, y);
    VoteKeepsReigns(w, h, h', s, b);
    VoteKeepsMessages(w, h, h', s, b);
    VoteKeepsBallots(w, h, w', h', s, b);
    GrantKeepsActors(w, h, h', c, s, b);
  }

  lemma NewBallotOk(w: World, h: History, h': History, c: VoteCall)
    requires Inv(w, h) && Enabled(w, VoteHandled(c))
    requires HandleVote(w.nodes[c.to], c.req).1.granted && Slot(c.to, c.req.term) !in h.votes
    requires h' == Track(w, h, VoteHandled(c))
    ensures RequestOk(h, c.from, c.req)
    ensures var w' := Put(w, c.to, HandleVote(w.nodes[c.to], c.req).0);
            && BallotOk(w', h', Slot(c.to, c.req.term))
            && (forall v :: v in w.nodes ==> w.nodes[v].term <= w'.nodes[v].term)
            && forall v :: v in w.nodes && w.nodes[v].term == w'.nodes[v].term && w.nodes[v].voted.Some? ==>
                 w'.nodes[v].voted == w.nodes[v].voted
  {
    HandleVoteQuiet(w.nodes[c.to], c.req);
    assert RequestOk(h, c.from, c.req);
    assert BallotOk(w, h, Slot(c.from, c.req.term));
  }

  lemma GrantKeepsActors(w: World, h: History, h': History, c: VoteCall, s: Slot, b: Ballot)
    requires Inv(w, h) && Enabled(w, VoteHandled(c)) && OneMoreVote(h, h', s, b)
    ensures ActorsOk(Put(w, c.to, HandleVote(w.nodes[c.to], c.req).0), h')
  {
    hide Inv, RoleOk, ElectionOk;
    forall m | m in w.nodes
      ensures var y := if m == c.to then HandleVote(w.nodes[m], c.req).0 else w.nodes[m];
              RoleOk(h', m, y) && ElectionOk(h', m, y)
    {
      GrantKeepsActor(w, h, h', c, s, b, m);
    }
  }

  lemma GrantKeepsActor(w: World, h: History, h': History, c: VoteCall, s: Slot, b: Ballot, m: NodeId)
    requires Inv(w, h) && Enabled(w, VoteHandled(c)) && m in w.nodes && OneMoreVote(h, h', s, b)
    ensures var y := if m == c.to then HandleVote(w.nodes[m], c.req).0 else w.nodes[m];
            RoleOk(h', m, y) && ElectionOk(h', m, y)
  {
    var x := w.nodes[m];
    VoteKeepsActor(h, h', s, b, m, x);
    if m == c.to {
      HandleVoteQuiet(x, c.req);
      var y := HandleVote(x, c.req).0;
      QuietNode(h', m, x, y.(voted := if y.term == x.term then x.voted else None));
    }
  }

  lemma VoteHandledKeeps(w: World, h: History, c: VoteCall)
    requires Inv(w, h) && Enabled(w, VoteHandled(c))
    ensures Inv(Do(w, VoteHandled(c)), Track(w, h, VoteHandled(c)))
  {
    var (y, resp) := HandleVote(w.nodes[c.to], c.req);
    var w1 := Put(w, c.to, y);
    var w' := Do(w, VoteHandled(c));
    var h' := Track(w, h, VoteHandled(c));
    HandleVoteQuiet(w.nodes[c.to], c.req);
    if resp.granted && Slot(c.to, c.req.term) in h.votes {
      GrantAgain(w, h, c);
    } else if resp.granted {
      GrantFirst(w, h, c);
    } else {
      QuietStep(w, h, c.to, y);
    }
    assert Inv(w1, h');
    NewReply(w1, h', VoteReply(c, resp));
  }

  lemma NewReply(w: World, h: History, r: VoteReply)
    requires Inv(w, h) && (r.resp.granted ==> VotedFor(h, r.call.to, r.call.req.term, r.call.from))
    ensures Inv(w.(voteReplies := w.voteReplies + {r}), h)
  {
    var w' := w.(voteReplies := w.voteReplies + {r});
    forall s | s in h.votes ensures BallotOk(w', h, s) {
      assert BallotOk(w, h, s);
    }
  }

  /** Counting the reply of the next peer keeps the count covered by granted votes. */
  lemma CountReply(h: History, n: NodeId, x: Node, granted: bool)
    requires ElectionOk(h, n, x) && x.election.Some? && x.election.value.pos < |x.peers| && Distinct(x.peers)
    requires granted ==> VotedFor(h, x.peers[x.election.value.pos], x.election.value.req.term, n)
    ensures var e := x.election.value;
            ElectionOk(h, n, x.(election := Some(e.(pos := e.pos + 1, votes := e.votes + if granted then 1 else 0))))
  {
    var e := x.election.value;
    var before := Granters(h, x.peers[..e.pos], e.req.term, n);
    var after := Granters(h, x.peers[..e.pos + 1], e.req.term, n);
    var p := x.peers[e.pos];
    assert x.peers[..e.pos + 1][e.pos] == p;
    assert forall i | 0 <= i < e.pos :: x.peers[..e.pos + 1][i] == x.peers[..e.pos][i];
    assert Elems(x.peers[..e.pos]) <= Elems(x.peers[..e.pos + 1]);
    assert p !in before;
    if granted {
      SubsetSize(before + {p}, after);
    } else {
      SubsetSize(before, after);
    }
  }

  lemma ElectionStep(w: World, h: History, n: NodeId, y: Node)
    requires Inv(w, h) && n in w.nodes && y == w.nodes[n].(election := y.election) && ElectionOk(h, n, y)
    ensures Inv(Put(w, n, y), h)
  {
    var w' := Put(w, n, y);
    assert w'.nodes.Keys == w.nodes.Keys;
    forall s | s in h.votes ensures BallotOk(w', h, s) {
      assert BallotOk(w, h, s);
    }
  }

  lemma VoteAnsweredKeeps(w: World, h: History, r: VoteReply)
    requires Inv(w, h) && Enabled(w, VoteAnswered(r))
    ensures Inv(Do(w, VoteAnswered(r)), Track(w, h, VoteAnswered(r)))
  {
    var n := r.call.from;
    var x := w.nodes[n];
    var y := VoteReplied(x, r.resp);
    assert ElectionOk(h, n, x);
    if r.resp.term > x.term {
      QuietStep(w, h, n, y);
    } else {
      CountReply(h, n, x, r.resp.granted);
      ElectionStep(w, h, n, y);
    }
  }

  lemma VoteUnansweredKeeps(w: World, h: History, n: NodeId)
    requires Inv(w, h) && Enabled(w, VoteUnanswered(n))
    ensures Inv(Do(w, VoteUnanswered(n)), Track(w, h, VoteUnanswered(n)))
  {
    hide ElectionOk, RoleOk, BallotsOk, ReignsOk, VoteMessagesOk, Elems;
    assert ElectionOk(h, n, w.nodes[n]);
    CountReply(h, n, w.nodes[n], false);
    ElectionStep(w, h, n, VoteLost(w.nodes[n]));
  }

  lemma NewReign(w: World, h: History, h': History, n: NodeId)
    requires Inv(w, h) && n in w.nodes && w.nodes[n].role == Candidate
    requires IsQuorum(w.nodes.Keys, Supporters(w, h, n, w.nodes[n].term))
    requires h'.votes == h.votes
    requires h'.reigns == h.reigns[w.nodes[n].term := Reign(n, Supporters(w, h, n, w.nodes[n].term), w.nodes[n].log)]
    ensures w.nodes[n].term !in h.reigns
    ensures ReignsOk(w, h')
    ensures forall m :: m in w.nodes && m != n ==> RoleOk(h', m, w.nodes[m]) && ElectionOk(h', m, w.nodes[m])
  {
    hide BallotsOk, VoteMessagesOk, Elems;
    var x := w.nodes[n];
    assert RoleOk(h, n, x);
    assert x.term !in h.reigns by {
      if x.term in h.reigns {
        OneLeader(w, h, n, x.term);
      }
    }
    forall t | t in h'.reigns ensures ReignOk(w.nodes.Keys, h', t, h'.reigns[t]) {
      if t != x.term {
        assert ReignOk(w.nodes.Keys, h, t, h.reigns[t]);
      }
    }
    forall m | m in w.nodes && m != n ensures RoleOk(h', m, w.nodes[m]) && ElectionOk(h', m, w.nodes[m]) {
      assert RoleOk(h, m, w.nodes[m]) && ElectionOk(h, m, w.nodes[m]);
      assert forall peers, t :: Granters(h', peers, t, m) == Granters(h, peers, t, m);
    }
  }

  lemma TallyKeeps(w: World, h: History, n: NodeId)
    requires Inv(w, h) && Enabled(w, TallyAt(n))
    ensures Inv(Do(w, TallyAt(n)), Track(w, h, TallyAt(n)))
  {
    if Wins(w.nodes[n]) {
      WinnerHasQuorum(w, h, n);
      Enthrone(w, h, Track(w, h, TallyAt(n)), n, Tally(w.nodes[n]));
    } else {
      QuietStep(w, h, n, Tally(w.nodes[n]));
    }
  }

  lemma Enthrone(w: World, h: History, h': History, n: NodeId, y: Node)
    requires Inv(w, h) && n in w.nodes && w.nodes[n].role == Candidate
    requires IsQuorum(w.nodes.Keys, Supporters(w, h, n, w.nodes[n].term))
    requires h'.votes == h.votes
    requires h'.reigns == h.reigns[w.nodes[n].term := Reign(n, Supporters(w, h, n, w.nodes[n].term), w.nodes[n].log)]
    requires y == w.nodes[n].(role := Leader, log := y.log, next := y.next, matched := y.matched, election := None)
    ensures Inv(Put(w, n, y), h')
  {
    hide BallotsOk, VoteMessagesOk, ReignsOk;
    var w' := Put(w, n, y);
    WiredPut(w, n, y);
    NewReign(w, h, h', n);
    BallotsFrame(w, h, w', h');
    VotesAloneMatter(w, h, w, h');
    WorldFrame(w, w', h');
    assert ActorsOk(w', h') by {
      forall m | m in w'.nodes ensures RoleOk(h', m, w'.nodes[m]) && ElectionOk(h', m, w'.nodes[m]) {
        assert m != n ==> w'.nodes[m] == w.nodes[m];
      }
    }
  }

  lemma VotesAloneMatter(w: World, h: History, w': World, h': History)
    requires VoteMessagesOk(w, h) && h'.votes == h.votes
    requires w'.nodes.Keys == w.nodes.Keys && w'.voteCalls == w.voteCalls && w'.voteReplies == w.voteReplies
    ensures VoteMessagesOk(w', h')
  {
    forall c | c in w'.voteCalls ensures RequestOk(h', c.from, c.req) {
      assert RequestOk(h, c.from, c.req);
    }
    forall r | r in w'.voteReplies && r.resp.granted ensures VotedFor(h', r.call.to, r.call.req.term, r.call.from) {
      assert VotedFor(h, r.call.to, r.call.req.term, r.call.from);
    }
  }

  // ---- every step

  lemma AppendStepQuiet(x: Node, req: AppendReq)
    ensures Quiet(x, HandleAppend(x, req).0)
  {
  }

  lemma ReplyStepQuiet(x: Node, slot: nat, req: AppendReq, resp: AppendResp, connected: seq<bool>)
    requires slot < |x.next| && slot < |x.matched| && |connected| == |x.matched|
    ensures Quiet(x, AppendReplied(x, slot, req, resp, connected))
  {
  }

  /** A step of this kind as elections see it: one node changes quietly, no vote traffic, no new vote or reign. */
  ghost predicate QuietChange(w: World, w': World, n: NodeId) {
    && n in w.nodes && n in w'.nodes && w'.nodes == w.nodes[n := w'.nodes[n]] && Quiet(w.nodes[n], w'.nodes[n])
    && w'.voteCalls == w.voteCalls && w'.voteReplies == w.voteReplies
  }

  lemma QuietChangeKeeps(w: World, h: History, w': World, h': History, n: NodeId)
    requires Inv(w, h) && QuietChange(w, w', n) && SameVotes(h, h')
    ensures Inv(w', h')
  {
    QuietStep(w, h, n, w'.nodes[n]);
    Reframe(Put(w, n, w'.nodes[n]), h, w', h');
  }

  ghost predicate IsReplication(ev: Event) {
    ev.ClientAppend? || ev.SendAppend? || ev.AppendHandled? || ev.AppendAnswered? || ev.AppendUnanswered?
      || IsRestart(ev)
  }

  lemma ReplicationHistory(w: World, h: History, ev: Event)
    requires Enabled(w, ev) && IsReplication(ev)
    ensures SameVotes(h, Track(w, h, ev))
  {
  }

  lemma ReplicationIsQuiet(w: World, ev: Event) returns (n: NodeId)
    requires Enabled(w, ev) && IsReplication(ev)
    ensures QuietChange(w, Do(w, ev), n)
  {
    hide Merge, MergeUpTo, Scan, ApplyCommitted;
    match ev
    case ClientAppend(m, cmd) => n := m;
    case SendAppend(m, slot) =>
      n := m;
      assert w.nodes[m := w.nodes[m]] == w.nodes;
    case AppendHandled(c) =>
      n := c.to;
      AppendStepQuiet(w.nodes[c.to], c.req);
    case AppendAnswered(r, connected) =>
      n := r.call.from;
      ReplyStepQuiet(w.nodes[r.call.from], r.call.slot, r.call.req, r.resp, connected);
    case AppendUnanswered(c) => n := c.from;
    case RestartAt(m) => n := m;
    case CrashAtTerm(m, t) => n := m;
    case CrashAdopting(m, t) => n := m;
    case CrashMerging(c, k) => n := c.to;
  }

  lemma StepKeeps(w: World, h: History, ev: Event)
    requires Inv(w, h) && Enabled(w, ev)
    ensures Inv(Do(w, ev), Track(w, h, ev))
  {
    hide Inv, Do, Track, QuietChange, SameVotes;
    match ev
    case StartElectionAt(n) => StartElectionKeeps(w, h, n);
    case AskVote(n) => AskVoteKeeps(w, h, n);
    case VoteHandled(c) => VoteHandledKeeps(w, h, c);
    case VoteAnswered(r) => VoteAnsweredKeeps(w, h, r);
    case VoteUnanswered(n) => VoteUnansweredKeeps(w, h, n);
    case TallyAt(n) => TallyKeeps(w, h, n);
    case _ =>
      var n := ReplicationIsQuiet(w, ev);
      ReplicationHistory(w, h, ev);
      QuietChangeKeeps(w, h, Do(w, ev), Track(w, h, ev), n);
  }
}
