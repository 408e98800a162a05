/** Building concrete runs: each lemma extends a run by a few steps and says which nodes changed. */
module Schedules {
  import opened Types
  import opened Nodes
  import opened Logs
  import opened Clusters

  datatype Run = Run(ws: seq<World>, es: seq<Event>)

  ghost predicate AnyRun(r: Run)
    ensures AnyRun(r) ==> |r.ws| > 0
  {
    IsRun(r.ws, r.es)
  }

  ghost predicate Guard(r: Run)
    ensures Guard(r) ==> AnyRun(r)
  {
    GuardedRun(r.ws, r.es)
  }

  ghost predicate Steady(r: Run)
    ensures Steady(r) ==> Guard(r) && AnyRun(r)
  {
    SteadyRun(r.ws, r.es)
  }

  function Last(r: Run): World
    requires |r.ws| > 0
  {
    r.ws[|r.ws| - 1]
  }

  /** r' continues r. */
  ghost predicate Continues(r: Run, r': Run) { r.ws <= r'.ws && r.es <= r'.es }

  lemma StillCovered(ws: seq<World>, ws': seq<World>, es: seq<Event>, es': seq<Event>, k: nat)
    requires ws <= ws' && es <= es' && k < |es| && k + 1 < |ws| && RestartsCovered(ws, es, k) && IsRestart(es[k])
    ensures RestartsCovered(ws', es', k)
  {
    hide Confirmers;
    var x := ws[k + 1].nodes[Restarted(es[k])];
    if x.log != [] {
      var j: nat, m: NodeId, i: nat :| Covered(ws, k, x, j, m, i);
      assert Covered(ws', k, x, j, m, i);
    }
  }

  lemma Extend(r: Run, ev: Event) returns (r': Run)
    requires AnyRun(r) && Enabled(Last(r), ev)
    ensures AnyRun(r') && Continues(r, r') && Last(r') == Do(Last(r), ev) && r'.es == r.es + [ev]
            && |r'.ws| == |r.ws| + 1
    ensures Steady(r) && Guarded(Last(r), ev) && !IsRestart(ev) ==> Steady(r')
    ensures Guard(r) && Guarded(Last(r), ev) ==> Guard(r')
  {
    hide Do, Enabled, Guarded, Init, HoldsOnlyChosen;
    r' := Run(r.ws + [Do(Last(r), ev)], r.es + [ev]);
    if Steady(r) && !IsRestart(ev) {
      forall k: nat | k < |r.es| && IsRestart(r.es[k]) ensures RestartsCovered(r'.ws, r'.es, k) {
        StillCovered(r.ws, r'.ws, r.es, r'.es, k);
      }
    }
  }

  /** The leader a node becomes when it wins the term after its own. */
  function Crowned(x: Node): Node {
    BecomeLeader(StartElection(x)).(election := None)
  }

  function Voter(y: Node, term: nat, candidate: NodeId): Node {
    y.(term := term, voted := Some(candidate), role := Follower)
  }

  lemma Campaign(r: Run, n: NodeId) returns (r': Run)
    requires Steady(r) && n in Last(r).nodes && Last(r).nodes[n].role != Leader && Last(r).nodes[n].election == None
    ensures Steady(r') && Continues(r, r') && Last(r').nodes == Last(r).nodes[n := StartElection(Last(r).nodes[n])]
  {
    hide AnyRun, Guard, Steady;
    r' := Extend(r, StartElectionAt(n));
  }

  /** v can give node n the vote n asks for. */
  ghost predicate CanVote(w: World, n: NodeId, v: NodeId) {
    && n in w.nodes && v in w.nodes && n != v && w.nodes[n].election.Some?
    && var x, y := w.nodes[n], w.nodes[v];
    && x.election.value.pos < |x.peers| && x.peers[x.election.value.pos] == v
    && x.election.value.req == VoteReq(x.term, n, |x.log|, LastTerm(x.log))
    && y.term < x.term && UpToDate(x.log, y.log)
  }

  /** The next peer is asked and grants its vote. */
  lemma GetVote(r: Run, n: NodeId, v: NodeId) returns (r': Run)
    requires Steady(r) && CanVote(Last(r), n, v)
    ensures Steady(r') && Continues(r, r')
    ensures var x := Last(r).nodes[n];
            var e := x.election.value;
            Last(r').nodes == Last(r).nodes[v := Voter(Last(r).nodes[v], x.term, n)]
                                           [n := x.(election := Some(e.(pos := e.pos + 1, votes := e.votes + 1)))]
  {
    hide AnyRun, Guard, Steady;
    var x := Last(r).nodes[n];
    var c := VoteCall(n, v, x.election.value.req);
    var r1 := Extend(r, AskVote(n));
    var r2 := Extend(r1, VoteHandled(c));
    r' := Extend(r2, VoteAnswered(VoteReply(c, VoteResp(x.term, true))));
  }

  lemma SkipVote(r: Run, n: NodeId) returns (r': Run)
    requires Steady(r) && n in Last(r).nodes && Last(r).nodes[n].election.Some?
    requires Last(r).nodes[n].election.value.pos < |Last(r).nodes[n].peers|
    ensures Steady(r') && Continues(r, r') && Last(r').nodes == Last(r).nodes[n := VoteLost(Last(r).nodes[n])]
  {
    hide AnyRun, Guard, Steady;
    r' := Extend(r, VoteUnanswered(n));
  }

  lemma WinTally(r: Run, n: NodeId) returns (r': Run)
    requires Steady(r) && n in Last(r).nodes && Last(r).nodes[n].election.Some?
    requires Wins(Last(r).nodes[n]) && Last(r).nodes[n].election.value.pos == |Last(r).nodes[n].peers|
    ensures Steady(r') && Continues(r, r')
    ensures Last(r').nodes == Last(r).nodes[n := BecomeLeader(Last(r).nodes[n]).(election := None)]
  {
    hide AnyRun, Guard, Steady;
    r' := Extend(r, TallyAt(n));
  }

  /** The call a node sends to the peer in the given slot. */
  function CallOf(w: World, n: NodeId, slot: nat): AppendCall
    requires n in w.nodes && slot < |w.nodes[n].peers| && |w.nodes[n].next| == |w.nodes[n].peers|
  {
    AppendCall(n, w.nodes[n].peers[slot], slot, AppendRequest(w.nodes[n], slot))
  }

  /** A send that is handled and never answered. */
  lemma Deliver(r: Run, n: NodeId, slot: nat) returns (r': Run)
    requires AnyRun(r) && n in Last(r).nodes && slot < |Last(r).nodes[n].peers|
    requires |Last(r).nodes[n].next| == |Last(r).nodes[n].peers| && Last(r).nodes[n].peers[slot] in Last(r).nodes
    ensures AnyRun(r') && Continues(r, r') && |r'.ws| == |r.ws| + 2
    ensures r'.es == r.es + [SendAppend(n, slot), AppendHandled(CallOf(Last(r), n, slot))]
    ensures Guard(r) && Last(r).nodes[n].role == Leader ==> Guard(r')
    ensures Steady(r) && Last(r).nodes[n].role == Leader ==> Steady(r')
    ensures var c := CallOf(Last(r), n, slot);
            && Last(r').nodes == Last(r).nodes[c.to := HandleAppend(Last(r).nodes[c.to], c.req).0]
            && AppendReply(c, HandleAppend(Last(r).nodes[c.to], c.req).1) in Last(r').appendReplies
  {
    hide AnyRun, Guard, Steady, HandleAppend, AppendRequest;
    var c := CallOf(Last(r), n, slot);
    var r1 := Extend(r, SendAppend(n, slot));
    r' := Extend(r1, AppendHandled(c));
  }

  /** A send that is handled and answered. */
  lemma Replicate(r: Run, n: NodeId, slot: nat, up: seq<bool>) returns (r': Run)
    requires Guard(r) && n in Last(r).nodes && slot < |Last(r).nodes[n].peers| == |up|
    requires Last(r).nodes[n].role == Leader && |Last(r).nodes[n].next| == |up| == |Last(r).nodes[n].matched|
    requires Last(r).nodes[n].peers[slot] in Last(r).nodes && Last(r).nodes[n].peers[slot] != n
             && Last(r).nodes[n].id == n
    ensures Guard(r') && (Steady(r) ==> Steady(r')) && Continues(r, r')
    ensures var c := CallOf(Last(r), n, slot);
            var (y, resp) := HandleAppend(Last(r).nodes[c.to], c.req);
            Last(r').nodes == Last(r).nodes[c.to := y][n := AppendReplied(Last(r).nodes[n], slot, c.req, resp, up)]
  {
    hide AnyRun, Guard, Steady, HandleAppend, AppendReplied, AppendRequest;
    var c := CallOf(Last(r), n, slot);
    var resp := HandleAppend(Last(r).nodes[c.to], c.req).1;
    RequestTerm(Last(r).nodes[n], slot);
    var r1 := Deliver(r, n, slot);
    assert Last(r1).nodes[n] == Last(r).nodes[n];
    r' := Extend(r1, AppendAnswered(AppendReply(c, resp), up));
  }

  /** A message to a node in a later term is refused and makes its sender step down. */
  lemma Outdated(x: Node, y: Node, slot: nat, up: seq<bool>)
    requires y.term > x.term && slot < |x.next| && slot < |x.matched| == |up|
    ensures HandleAppend(y, AppendRequest(x, slot)) == (y, AppendResp(y.term, false))
    ensures AppendReplied(x, slot, AppendRequest(x, slot), AppendResp(y.term, false), up) == AdoptTerm(x, y.term)
  {
  }

  lemma RequestTerm(x: Node, slot: nat)
    requires slot < |x.next|
    ensures AppendRequest(x, slot).term == x.term
  {
  }

  lemma ClientAsks(r: Run, n: NodeId, cmd: Command) returns (r': Run)
    requires Steady(r) && n in Last(r).nodes && Last(r).nodes[n].role == Leader
    ensures Steady(r') && Continues(r, r') && r'.es == r.es + [ClientAppend(n, cmd)]
    ensures Last(r').nodes == Last(r).nodes[n := AppendOwn(Last(r).nodes[n], cmd)]
  {
    hide AnyRun, Guard, Steady;
    r' := Extend(r, ClientAppend(n, cmd));
  }

  lemma RunLength(r: Run)
    requires Steady(r)
    ensures |r.ws| == |r.es| + 1
  {
  }

  lemma StepCalls(w: World, ev: Event)
    requires Enabled(w, ev)
    ensures w.appendCalls <= Do(w, ev).appendCalls && w.appendReplies <= Do(w, ev).appendReplies
  {
  }

  lemma {:induction false} CallsStayAt(r: Run, k: nat, l: nat)
    requires AnyRun(r) && k <= l < |r.ws|
    ensures r.ws[k].appendCalls <= r.ws[l].appendCalls && r.ws[k].appendReplies <= r.ws[l].appendReplies
    decreases l - k
  {
    hide Do, Enabled, Init;
    if k < l {
      CallsStayAt(r, k, l - 1);
      StepCalls(r.ws[l - 1], r.es[l - 1]);
    }
  }

  lemma CallsStay(r: Run, r': Run)
    requires AnyRun(r) && AnyRun(r') && Continues(r, r')
    ensures Last(r).appendCalls <= Last(r').appendCalls && Last(r).appendReplies <= Last(r').appendReplies
  {
    hide AnyRun;
    CallsStayAt(r', |r.ws| - 1, |r'.ws| - 1);
  }
}
