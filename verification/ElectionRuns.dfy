/** Elections succeed: from every run, a candidate whose peers are free to vote for it can go on to lead. */
module ElectionRuns {
  import opened Types
  import opened Quorums
  import opened Logs
  import opened Nodes
  import opened Clusters
  import opened Schedules
  import opened Effects
  import Runs

  /** y is not ahead of x, has no other candidate's vote in the term of the request, and no newer log. */
  predicate Willing(x: Node, y: Node) {
    && y.term <= x.term && UpToDate(x.log, y.log)
    && (y.term < x.term || y.voted == None || y.voted == Some(x.id))
  }

  /** Node n is collecting votes for its present term and log. */
  ghost predicate Collecting(w: World, n: NodeId) {
    && n in w.nodes && w.nodes[n].id == n && w.nodes[n].role == Candidate && w.nodes[n].election.Some?
    && w.nodes[n].election.value.req == VoteReq(w.nodes[n].term, n, |w.nodes[n].log|, LastTerm(w.nodes[n].log))
    && w.nodes[n].election.value.pos <= |w.nodes[n].peers|
  }

  /** The peers marked in `yes` that are still to be asked are willing. */
  ghost predicate WillingFrom(w: World, n: NodeId, yes: seq<bool>, pos: nat)
    requires n in w.nodes
  {
    var x := w.nodes[n];
    && |yes| == |x.peers| && Distinct(x.peers) && n !in x.peers
    && forall j | pos <= j < |yes| :: yes[j] ==> x.peers[j] in w.nodes && Willing(x, w.nodes[x.peers[j]])
  }

  function Marked(yes: seq<bool>, pos: nat): nat
    requires pos <= |yes|
    decreases |yes| - pos
  {
    if pos == |yes| then 0 else (if yes[pos] then 1 else 0) + Marked(yes, pos + 1)
  }

  /** Two runs of the same kind. */
  ghost predicate AsGood(r: Run, r': Run) {
    AnyRun(r') && (Guard(r) ==> Guard(r')) && (Steady(r) ==> Steady(r')) && Continues(r, r')
  }

  /** A willing peer grants the vote. */
  lemma WillingGrants(x: Node, y: Node)
    requires Willing(x, y)
    ensures var req := VoteReq(x.term, x.id, |x.log|, LastTerm(x.log));
            HandleVote(y, req).1 == VoteResp(x.term, true)
  {
    var req := VoteReq(x.term, x.id, |x.log|, LastTerm(x.log));
    VoteRefusedExactly(y, req, x.log);
  }

  /** The next peer is asked, votes, and is counted. */
  lemma AskWilling(r: Run, n: NodeId, v: NodeId) returns (r': Run)
    requires AnyRun(r) && Collecting(Last(r), n) && v in Last(r).nodes && v != n
    requires Last(r).nodes[n].election.value.pos < |Last(r).nodes[n].peers|
    requires Last(r).nodes[n].peers[Last(r).nodes[n].election.value.pos] == v
    requires Willing(Last(r).nodes[n], Last(r).nodes[v])
    ensures AsGood(r, r')
    ensures var x := Last(r).nodes[n];
            var e := x.election.value;
            Last(r').nodes == Last(r).nodes[v := HandleVote(Last(r).nodes[v], e.req).0]
                                           [n := x.(election := Some(e.(pos := e.pos + 1, votes := e.votes + 1)))]
  {
    hide AnyRun, Guard, Steady, HandleVote, Willing;
    var x := Last(r).nodes[n];
    var c := VoteCall(n, v, x.election.value.req);
    WillingGrants(x, Last(r).nodes[v]);
    var r1 := Extend(r, AskVote(n));
    var r2 := Extend(r1, VoteHandled(c));
    r' := Extend(r2, VoteAnswered(VoteReply(c, VoteResp(x.term, true))));
  }

  lemma AskNobody(r: Run, n: NodeId) returns (r': Run)
    requires AnyRun(r) && Collecting(Last(r), n)
    requires Last(r).nodes[n].election.value.pos < |Last(r).nodes[n].peers|
    ensures AsGood(r, r')
    ensures var x := Last(r).nodes[n];
            var e := x.election.value;
            Last(r').nodes == Last(r).nodes[n := x.(election := Some(e.(pos := e.pos + 1)))]
  {
    hide AnyRun, Guard, Steady;
    r' := Extend(r, VoteUnanswered(n));
  }

  /** Everyone still to be asked is asked or skipped; the votes of the willing are counted. */
  lemma {:induction false} AskAll(r: Run, n: NodeId, yes: seq<bool>) returns (r': Run)
    requires AnyRun(r) && Collecting(Last(r), n)
    requires WillingFrom(Last(r), n, yes, Last(r).nodes[n].election.value.pos)
    ensures AsGood(r, r') && n in Last(r').nodes
    ensures var x := Last(r).nodes[n];
            var e := x.election.value;
            Last(r').nodes[n] == x.(election := Some(e.(pos := |x.peers|, votes := e.votes + Marked(yes, e.pos))))
    decreases |Last(r).nodes[n].peers| - Last(r).nodes[n].election.value.pos
  {
    hide AnyRun, Guard, Steady, Willing;
    var x := Last(r).nodes[n];
    var pos := x.election.value.pos;
    if pos == |x.peers| {
      r' := r;
    } else {
      var r1;
      if yes[pos] {
        r1 := AskWilling(r, n, x.peers[pos]);
      } else {
        r1 := AskNobody(r, n);
      }
      StillWilling(Last(r), Last(r1), n, yes, pos);
      r' := AskAll(r1, n, yes);
    }
  }

  lemma StillWilling(w: World, w': World, n: NodeId, yes: seq<bool>, pos: nat)
    requires n in w.nodes && n in w'.nodes && WillingFrom(w, n, yes, pos) && pos < |yes|
    requires w'.nodes[n] == w.nodes[n].(election := w'.nodes[n].election)
    requires forall v :: v in w.nodes && v != n && v != w.nodes[n].peers[pos] ==>
               v in w'.nodes && w'.nodes[v] == w.nodes[v]
    ensures WillingFrom(w', n, yes, pos + 1)
  {
    var x := w.nodes[n];
    forall j | pos + 1 <= j < |yes| && yes[j]
      ensures x.peers[j] in w'.nodes && Willing(w'.nodes[n], w'.nodes[x.peers[j]])
    {
      assert x.peers[j] in x.peers;
    }
  }

  /**
   Every run in which a candidate has, with the willing peers still to be asked, the votes of more than half of the
   cluster can go on, guarded and steady as before, to one in which it leads its term.
   */
  lemma CandidatesCanWin(r: Run, n: NodeId, yes: seq<bool>) returns (r': Run)
    requires AnyRun(r) && Collecting(Last(r), n)
    requires WillingFrom(Last(r), n, yes, Last(r).nodes[n].election.value.pos)
    requires var e := Last(r).nodes[n].election.value;
             e.votes >= 1 && MoreThanHalf(Last(r).nodes[n], e.votes - 1 + Marked(yes, e.pos))
    ensures AsGood(r, r') && n in Last(r').nodes
    ensures Last(r').nodes[n].role == Leader && Last(r').nodes[n].term == Last(r).nodes[n].term
    ensures Last(r).nodes[n].log < Last(r').nodes[n].log
  {
    hide AnyRun, Guard, Steady, Willing;
    var r1 := AskAll(r, n, yes);
    TallyExactly(Last(r1).nodes[n]);
    r' := Extend(r1, TallyAt(n));
  }

  /**
   Every run with a node that does not lead and more than half of whose cluster, itself included, is in no later term
   than it and has no newer log, can go on to one in which it leads the next term.
   */
  lemma NodesCanWin(r: Run, n: NodeId, yes: seq<bool>) returns (r': Run)
    requires AnyRun(r) && n in Last(r).nodes && Last(r).nodes[n].role != Leader && Last(r).nodes[n].election == None
    requires |yes| == |Last(r).nodes[n].peers| && MoreThanHalf(Last(r).nodes[n], Marked(yes, 0))
    requires forall j :: 0 <= j < |yes| && yes[j] ==>
               var v := Last(r).nodes[n].peers[j];
               && v in Last(r).nodes && Last(r).nodes[v].term <= Last(r).nodes[n].term
               && UpToDate(Last(r).nodes[n].log, Last(r).nodes[v].log)
    ensures AsGood(r, r') && n in Last(r').nodes
    ensures Last(r').nodes[n].role == Leader && Last(r').nodes[n].term == Last(r).nodes[n].term + 1
  {
    hide AnyRun, Guard, Steady;
    RunIsWired(r);
    NotAmongPeers(Last(r), n);
    var r1 := Extend(r, StartElectionAt(n));
    r' := CandidatesCanWin(r1, n, yes);
  }

  lemma RunIsWired(r: Run)
    requires AnyRun(r)
    ensures Wired(Last(r))
  {
    hide Init, Do, Enabled;
    Runs.RunInv(r.ws, r.es, |r.es|);
  }

  lemma NotAmongPeers(w: World, n: NodeId)
    requires Wired(w) && n in w.nodes
    ensures w.nodes[n].id == n && Distinct(w.nodes[n].peers) && n !in w.nodes[n].peers
  {
    forall v | v in w.nodes[n].peers ensures v != n {
      assert v in Elems(w.nodes[n].peers);
    }
  }
}
