/**
 Invariant behind State Machine Safety, kept by every guarded step, restarts of a node that holds only chosen entries
 included: what a node counts as committed lies below an index that a majority confirmed in the term of its entry, and
 the database is the fold of exactly that prefix.
 */
module CommitProof {
  import opened Types
  import opened Quorums
  import opened Logs
  import opened StateMachines
  import opened Nodes
  import opened Clusters
  import opened Histories
  import E = ElectionProof
  import L = LogProof
  import C = CompletenessProof

  /** The first k entries lie below the chosen index i of term t. */
  ghost predicate BackedBy(ids: set<NodeId>, h: History, log: seq<Entry>, k: nat, t: nat, i: nat) {
    k <= i && C.Chosen(ids, h, t, i) && Agree(log, h.logs[t], k)
  }

  /** The first k entries lie below a chosen index of some term up to `term`. */
  ghost predicate Backed(ids: set<NodeId>, h: History, term: nat, log: seq<Entry>, k: nat) {
    k == 0 || exists t: nat, i: nat :: t <= term && BackedBy(ids, h, log, k, t, i)
  }

  /** lastApplied = commitIndex <= log length, and the database holds exactly the committed prefix, applied in order. */
  ghost predicate Applied(x: Node) {
    x.applied == x.commit <= |x.log| && x.db == ApplyAll(map[], x.log[..x.commit])
  }

  ghost predicate NodesOk(w: World, h: History) {
    forall n :: n in w.nodes ==>
      Applied(w.nodes[n]) && Backed(w.nodes.Keys, h, w.nodes[n].term, w.nodes[n].log, w.nodes[n].commit)
  }

  ghost predicate CallsOk(w: World, h: History) {
    forall c :: c in w.appendCalls ==> c in h.sent && Backed(w.nodes.Keys, h, c.req.term, h.sent[c], c.req.leaderCommit)
  }

  ghost predicate Inv(w: World, h: History) {
    NodesOk(w, h) && CallsOk(w, h)
  }

  lemma InitInv(w: World)
    requires Init(w)
    ensures Inv(w, Blank)
  {
  }

  // ---- chosen prefixes agree

  /** What was chosen in term t, every leader of a later term has. */
  lemma LaterHas(w: World, h: History, t: nat, i: nat, u: nat)
    requires L.TermLogsOk(h) && C.Inv(w, h) && C.Chosen(w.nodes.Keys, h, t, i) && t <= u && u in h.logs
    ensures Agree(h.logs[u], h.logs[t], i)
  {
    C.ChosenIsChoosable(w, h, t, i);
    if t < u {
      C.LaterTermLogHas(w, h, t, i, u);
    }
  }

  lemma CommitsAgreeOrdered(w: World, h: History, a: seq<Entry>, j: nat, t: nat, i: nat,
                            b: seq<Entry>, k: nat, u: nat, i': nat)
    requires L.TermLogsOk(h) && C.Inv(w, h) && t <= u
    requires BackedBy(w.nodes.Keys, h, a, j, t, i) && BackedBy(w.nodes.Keys, h, b, k, u, i')
    ensures Agree(a, b, Min(j, k))
  {
    LaterHas(w, h, t, i, u);
    AgreeDown(h.logs[u], h.logs[t], i, Min(j, k));
    AgreeDown(a, h.logs[t], j, Min(j, k));
    AgreeDown(b, h.logs[u], k, Min(j, k));
  }

  lemma BackedReaches(ids: set<NodeId>, h: History, log: seq<Entry>, k: nat, t: nat, i: nat)
    requires BackedBy(ids, h, log, k, t, i)
    ensures k <= |log|
  {
  }

  /** Two backed prefixes never contradict each other. */
  lemma CommitsAgree(w: World, h: History, a: seq<Entry>, j: nat, t: nat, b: seq<Entry>, k: nat, u: nat)
    requires L.TermLogsOk(h) && C.Inv(w, h)
    requires Backed(w.nodes.Keys, h, t, a, j) && Backed(w.nodes.Keys, h, u, b, k)
    ensures Agree(a, b, Min(j, k))
  {
    hide BackedBy, C.Inv, L.TermLogsOk;
    var ids := w.nodes.Keys;
    if j > 0 && k > 0 {
      var p: nat, i: nat :| p <= t && BackedBy(ids, h, a, j, p, i);
      var q: nat, i': nat :| q <= u && BackedBy(ids, h, b, k, q, i');
      BackedReaches(ids, h, a, j, p, i);
      BackedReaches(ids, h, b, k, q, i');
      if p <= q {
        CommitsAgreeOrdered(w, h, a, j, p, i, b, k, q, i');
      } else {
        CommitsAgreeOrdered(w, h, b, k, q, i', a, j, p, i);
      }
    }
  }

  // ---- applying

  lemma ApplyMore(x: Node)
    requires x.applied <= x.commit <= |x.log| && x.db == ApplyAll(map[], x.log[..x.applied])
    ensures Applied(ApplyCommitted(x)) && ApplyCommitted(x) == x.(db := ApplyCommitted(x).db, applied := x.commit)
  {
    if x.commit > x.applied {
      ApplyAllConcat(map[], x.log[..x.applied], x.log[x.applied..x.commit]);
      assert x.log[..x.applied] + x.log[x.applied..x.commit] == x.log[..x.commit];
    }
  }

  // ---- frames

  /** The history only gained log entries and confirmations. */
  ghost predicate Gains(h: History, h': History) {
    L.Grow(h.logs, h'.logs) && AcksGrow(h, h')
  }

  ghost predicate AcksGrow(h: History, h': History) {
    forall v, t: nat :: AckOf(h, v, t) <= AckOf(h', v, t)
  }

  lemma ChosenStays(ids: set<NodeId>, h: History, h': History, t: nat, i: nat)
    requires C.Chosen(ids, h, t, i) && Gains(h, h')
    ensures C.Chosen(ids, h', t, i)
  {
    assert h'.logs[t][i - 1] == h.logs[t][i - 1];
    QuorumGrows(ids, C.AckedBy(ids, h, t, i), C.AckedBy(ids, h', t, i));
  }

  lemma BackedStays(ids: set<NodeId>, h: History, h': History,
                    term: nat, term': nat, log: seq<Entry>, log': seq<Entry>, k: nat)
    requires Backed(ids, h, term, log, k) && Gains(h, h') && term <= term' && Agree(log', log, k)
    ensures Backed(ids, h', term', log', k)
  {
    if k > 0 {
      var t: nat, i: nat :| t <= term && BackedBy(ids, h, log, k, t, i);
      ChosenStays(ids, h, h', t, i);
      AgreePrefix(log, h.logs[t], h'.logs[t], k);
      assert BackedBy(ids, h', log', k, t, i);
    }
  }

  lemma BackedDown(ids: set<NodeId>, h: History, term: nat, log: seq<Entry>, k: nat, j: nat)
    requires Backed(ids, h, term, log, k) && j <= k
    ensures Backed(ids, h, term, log, j)
  {
    if j > 0 {
      var t: nat, i: nat :| t <= term && BackedBy(ids, h, log, k, t, i);
      AgreeDown(log, h.logs[t], k, j);
      assert BackedBy(ids, h, log, j, t, i);
    }
  }

  ghost predicate NodeStep(ids: set<NodeId>, h: History, h': History, y: Node) {
    Gains(h, h') && Applied(y) && Backed(ids, h', y.term, y.log, y.commit)
  }

  lemma StepKeepsCalls(w: World, h: History, h': History)
    requires CallsOk(w, h) && Gains(h, h') && h'.sent == h.sent
    ensures CallsOk(w, h')
  {
    forall c | c in w.appendCalls
      ensures c in h'.sent && Backed(w.nodes.Keys, h', c.req.term, h'.sent[c], c.req.leaderCommit)
    {
      BackedStays(w.nodes.Keys, h, h', c.req.term, c.req.term, h.sent[c], h.sent[c], c.req.leaderCommit);
    }
  }

  lemma NodeStepKeeps(w: World, h: History, w': World, h': History, n: NodeId)
    requires Inv(w, h) && n in w.nodes && n in w'.nodes && w'.nodes == w.nodes[n := w'.nodes[n]]
    requires w'.appendCalls == w.appendCalls && h'.sent == h.sent && NodeStep(w.nodes.Keys, h, h', w'.nodes[n])
    ensures Inv(w', h')
  {
    assert w'.nodes.Keys == w.nodes.Keys;
    StepKeepsCalls(w, h, h');
    forall m | m in w'.nodes
      ensures Applied(w'.nodes[m]) && Backed(w.nodes.Keys, h', w'.nodes[m].term, w'.nodes[m].log, w'.nodes[m].commit)
    {
      if m != n {
        var x := w.nodes[m];
        BackedStays(w.nodes.Keys, h, h', x.term, x.term, x.log, x.log, x.commit);
      }
    }
  }

  // ---- steps that do not commit

  /** Term may rise and the log may get longer at the end; commit, applied and database stay. */
  ghost predicate Steady(x: Node, y: Node) {
    x.term <= y.term && x.log <= y.log && y.commit == x.commit && y.applied == x.applied && y.db == x.db
  }

  lemma SteadyStep(ids: set<NodeId>, h: History, h': History, x: Node, y: Node)
    requires Applied(x) && Backed(ids, h, x.term, x.log, x.commit) && Steady(x, y) && Gains(h, h')
    ensures NodeStep(ids, h, h', y)
  {
    assert y.log[..x.commit] == x.log[..x.commit];
    BackedStays(ids, h, h', x.term, y.term, x.log, y.log, x.commit);
  }

  ghost predicate SteadyChange(w: World, h: History, w': World, h': History, n: NodeId) {
    && n in w.nodes && n in w'.nodes && w'.nodes == w.nodes[n := w'.nodes[n]] && w'.appendCalls == w.appendCalls
    && Steady(w.nodes[n], w'.nodes[n]) && h'.sent == h.sent
  }

  lemma SteadyKeeps(w: World, h: History, w': World, h': History, n: NodeId)
    requires Inv(w, h) && SteadyChange(w, h, w', h', n) && Gains(h, h')
    ensures Inv(w', h')
  {
    SteadyStep(w.nodes.Keys, h, h', w.nodes[n], w'.nodes[n]);
    NodeStepKeeps(w, h, w', h', n);
  }

  lemma ElectionIsSteady(w: World, h: History, ev: Event) returns (n: NodeId)
    requires Enabled(w, ev) && (ev.StartElectionAt? || ev.AskVote? || ev.VoteHandled? || ev.VoteAnswered?)
    ensures SteadyChange(w, h, Do(w, ev), Track(w, h, ev), n)
  {
    hide CandidateLogOk, LastTerm;
    match ev
    case StartElectionAt(m) => n := m;
    case AskVote(m) =>
      n := m;
      assert w.nodes[m := w.nodes[m]] == w.nodes;
    case VoteHandled(c) => n := c.to;
    case VoteAnswered(r) => n := r.call.from;
  }

  lemma OtherIsSteady(w: World, h: History, ev: Event) returns (n: NodeId)
    requires Enabled(w, ev) && (ev.VoteUnanswered? || ev.TallyAt? || ev.ClientAppend? || ev.AppendUnanswered?)
    ensures SteadyChange(w, h, Do(w, ev), Track(w, h, ev), n)
  {
    match ev
    case VoteUnanswered(m) => n := m;
    case TallyAt(m) => n := m;
    case ClientAppend(m, _) => n := m;
    case AppendUnanswered(c) => n := c.from;
  }

  /** What the restarted node holds, and so counts as committed, lies below a chosen index. */
  ghost predicate RestartBacked(w: World, h: History, ev: Event)
    requires Enabled(w, ev) && IsRestart(ev)
  {
    var y := Do(w, ev).nodes[Restarted(ev)];
    Backed(w.nodes.Keys, h, y.term, y.log, |y.log|)
  }

  lemma RestartShape(w: World, h: History, ev: Event)
    requires Enabled(w, ev) && IsRestart(ev)
    ensures var w' := Do(w, ev);
            var n := Restarted(ev);
            && n in w.nodes && n in w'.nodes && w'.nodes == w.nodes[n := w'.nodes[n]] && w'.appendCalls == w.appendCalls
            && Track(w, h, ev) == h && Applied(w'.nodes[n]) && w'.nodes[n].commit == |w'.nodes[n].log|
  {
    var y := Do(w, ev).nodes[Restarted(ev)];
    assert y.log[..|y.log|] == y.log;
  }

  /**
   A restart, whatever it interrupts, keeps the invariant exactly when everything in the log it leaves behind lies
   below an own index of some term, no later than the node's, that a majority confirmed in that term.
   */
  lemma RestartKeepsExactly(w: World, h: History, ev: Event)
    requires Inv(w, h) && Enabled(w, ev) && IsRestart(ev)
    ensures Inv(Do(w, ev), Track(w, h, ev)) <==> RestartBacked(w, h, ev)
  {
    hide Do, Track, Enabled, Backed, Applied;
    RestartShape(w, h, ev);
    var y := Do(w, ev).nodes[Restarted(ev)];
    assert Do(w, ev).nodes.Keys == w.nodes.Keys;
    if Backed(w.nodes.Keys, h, y.term, y.log, |y.log|) {
      NodeStepKeeps(w, h, Do(w, ev), h, Restarted(ev));
    }
  }

  lemma SteadyEventKeeps(w: World, h: History, ev: Event)
    requires Inv(w, h) && Enabled(w, ev) && Gains(h, Track(w, h, ev))
    requires !IsRestart(ev) && !ev.SendAppend? && !ev.AppendHandled? && !ev.AppendAnswered?
    ensures Inv(Do(w, ev), Track(w, h, ev))
  {
    var n;
    if ev.StartElectionAt? || ev.AskVote? || ev.VoteHandled? || ev.VoteAnswered? {
      n := ElectionIsSteady(w, h, ev);
    } else {
      n := OtherIsSteady(w, h, ev);
    }
    SteadyKeeps(w, h, Do(w, ev), Track(w, h, ev), n);
  }

  /** Term logs only grow, in every step. */
  lemma LogsGrow(w: World, h: History, ev: Event)
    requires E.Inv(w, h) && L.Inv(w, h) && Enabled(w, ev)
    ensures L.Grow(h.logs, Track(w, h, ev).logs)
  {
    if ev.ClientAppend? {
      C.LeaderFacts(w, h, ev.n);
      AppendGrows(w, h, ev.n, ev.cmd);
    } else if ev.TallyAt? {
      L.WinnerFacts(w, h, ev.n);
      TallyGrows(w, h, ev.n);
    } else {
      SameTermLogs(w, h, ev);
    }
  }

  lemma AppendGrows(w: World, h: History, n: NodeId, cmd: Command)
    requires Enabled(w, ClientAppend(n, cmd))
    requires w.nodes[n].term in h.logs && h.logs[w.nodes[n].term] == w.nodes[n].log
    ensures L.Grow(h.logs, Track(w, h, ClientAppend(n, cmd)).logs)
  {
  }

  lemma TallyGrows(w: World, h: History, n: NodeId)
    requires Enabled(w, TallyAt(n)) && (Wins(w.nodes[n]) ==> w.nodes[n].term !in h.logs)
    ensures L.Grow(h.logs, Track(w, h, TallyAt(n)).logs)
  {
  }

  lemma SameTermLogs(w: World, h: History, ev: Event)
    requires Enabled(w, ev) && !ev.ClientAppend? && !ev.TallyAt?
    ensures Track(w, h, ev).logs == h.logs
  {
  }

  lemma StepAcksGrow(w: World, h: History, ev: Event)
    requires Enabled(w, ev)
    ensures AcksGrow(h, Track(w, h, ev))
  {
    hide StartElection, HandleVote, AppendOwn, AppendRequest, HandleAppend, Tally, Wins;
  }

  /** Term logs and confirmations only grow, in every step. */
  lemma HistoryGains(w: World, h: History, ev: Event)
    requires E.Inv(w, h) && L.Inv(w, h) && Enabled(w, ev)
    ensures Gains(h, Track(w, h, ev))
  {
    hide Track, Enabled, E.Inv, L.Inv, AcksGrow;
    LogsGrow(w, h, ev);
    StepAcksGrow(w, h, ev);
  }

  // ---- sending

  lemma SendKeeps(w: World, h: History, n: NodeId, slot: nat)
    requires Inv(w, h) && Enabled(w, SendAppend(n, slot))
    ensures Inv(Do(w, SendAppend(n, slot)), Track(w, h, SendAppend(n, slot)))
  {
    var x := w.nodes[n];
    var w' := Do(w, SendAppend(n, slot));
    var h' := Track(w, h, SendAppend(n, slot));
    assert Backed(w.nodes.Keys, h, x.term, x.log, x.commit);
    forall c | c in w'.appendCalls
      ensures c in h'.sent && Backed(w.nodes.Keys, h', c.req.term, h'.sent[c], c.req.leaderCommit)
    {
      if c in w.appendCalls && h'.sent[c] == h.sent[c] {
        BackedStays(w.nodes.Keys, h, h', c.req.term, c.req.term, h.sent[c], h.sent[c], c.req.leaderCommit);
      } else {
        BackedStays(w.nodes.Keys, h, h', x.term, x.term, x.log, x.log, x.commit);
      }
    }
    forall m | m in w.nodes ensures Backed(w.nodes.Keys, h', w.nodes[m].term, w.nodes[m].log, w.nodes[m].commit) {
      var y := w.nodes[m];
      BackedStays(w.nodes.Keys, h, h', y.term, y.term, y.log, y.log, y.commit);
    }
  }

  // ---- the leader commits

  lemma CommittingNode(w: World, h: History, r: AppendReply, connected: seq<bool>)
    requires Wired(w) && L.NodesOk(w, h) && C.Inv(w, h) && NodesOk(w, h)
    requires Enabled(w, AppendAnswered(r, connected)) && Guarded(w, AppendAnswered(r, connected))
    requires var x := w.nodes[r.call.from];
             AppendReplied(x, r.call.slot, r.call.req, r.resp, connected).commit > x.commit
    ensures NodeStep(w.nodes.Keys, h, h,
                     AppendReplied(w.nodes[r.call.from], r.call.slot, r.call.req, r.resp, connected))
  {
    hide C.Inv, C.Chosen, AppendReplied;
    var x := w.nodes[r.call.from];
    var y := AppendReplied(x, r.call.slot, r.call.req, r.resp, connected);
    C.AnsweredLeaderOk(w, h, r, connected, y);
    C.ScanCommitsQuorum(w, h, r, connected);
    assert L.NodeOk(h.logs, x);
    assert Applied(x);
    ScanApplies(x, r.call.slot, r.call.req, r.resp, connected);
    assert BackedBy(w.nodes.Keys, h, y.log, y.commit, x.term, y.commit);
  }

  lemma AnsweredNode(w: World, h: History, r: AppendReply, connected: seq<bool>)
    requires Wired(w) && L.NodesOk(w, h) && C.Inv(w, h) && NodesOk(w, h)
    requires Enabled(w, AppendAnswered(r, connected)) && Guarded(w, AppendAnswered(r, connected))
    ensures NodeStep(w.nodes.Keys, h, h,
                     AppendReplied(w.nodes[r.call.from], r.call.slot, r.call.req, r.resp, connected))
  {
    var x := w.nodes[r.call.from];
    var y := AppendReplied(x, r.call.slot, r.call.req, r.resp, connected);
    if y.commit > x.commit {
      CommittingNode(w, h, r, connected);
    } else {
      NotCommitting(x, r.call.slot, r.call.req, r.resp, connected);
      SteadyStep(w.nodes.Keys, h, h, x, y);
    }
  }

  lemma ScanApplies(x: Node, slot: nat, req: AppendReq, resp: AppendResp, connected: seq<bool>)
    requires slot < |x.next| && slot < |x.matched| && |connected| == |x.matched| && Applied(x)
    requires AppendReplied(x, slot, req, resp, connected).commit > x.commit
    ensures var y := AppendReplied(x, slot, req, resp, connected); y.term == x.term && y.log == x.log && Applied(y)
  {
    var z := Acknowledged(x, slot, req);
    ScanIsGreatest(z, connected);
    ApplyMore(z.(commit := Scan(z, connected, z.commit + 1, z.commit)));
  }

  lemma NotCommitting(x: Node, slot: nat, req: AppendReq, resp: AppendResp, connected: seq<bool>)
    requires slot < |x.next| && slot < |x.matched| && |connected| == |x.matched|
    requires AppendReplied(x, slot, req, resp, connected).commit <= x.commit
    ensures Steady(x, AppendReplied(x, slot, req, resp, connected))
  {
    ScanIsGreatest(Acknowledged(x, slot, req), connected);
  }

  lemma AnsweredKeeps(w: World, h: History, r: AppendReply, connected: seq<bool>)
    requires Wired(w) && L.NodesOk(w, h) && C.Inv(w, h) && Inv(w, h)
    requires Enabled(w, AppendAnswered(r, connected)) && Guarded(w, AppendAnswered(r, connected))
    ensures Inv(Do(w, AppendAnswered(r, connected)), Track(w, h, AppendAnswered(r, connected)))
  {
    AnsweredNode(w, h, r, connected);
    NodeStepKeeps(w, h, Do(w, AppendAnswered(r, connected)), Track(w, h, AppendAnswered(r, connected)), r.call.from);
  }

  // ---- a follower merges and commits

  /** Merging never touches a committed entry. */
  lemma MergeKeepsCommitted(w: World, h: History, c: AppendCall, k: nat, y: Node)
    requires L.Inv(w, h) && C.Inv(w, h) && NodesOk(w, h) && c in w.appendCalls && c.to in w.nodes
    requires C.Merged(h, c, k, w.nodes[c.to], y)
    ensures Agree(y.log, w.nodes[c.to].log, w.nodes[c.to].commit)
  {
    var x := w.nodes[c.to];
    BackedByLater(w, h, x.term, x.log, x.commit, c.req.term);
    C.MergedKeeps(h, c, k, x, y, x.commit);
  }

  /** A restart never lowers the commit index, whatever it interrupts. */
  lemma RestartRaisesCommit(w: World, h: History, ev: Event)
    requires L.Inv(w, h) && C.Inv(w, h) && Inv(w, h) && Enabled(w, ev) && IsRestart(ev)
    ensures w.nodes[Restarted(ev)].commit <= Do(w, ev).nodes[Restarted(ev)].commit
  {
    hide L.Inv, C.Has, C.LeadersOk, C.CallsOk, MergeUpTo;
    var x := w.nodes[Restarted(ev)];
    assert Applied(x);
    if ev.CrashMerging? {
      var c := ev.acall;
      var z := Follow(x, c.req.term).(log := MergeUpTo(x.log, c.req.prevIndex, c.req.entries, ev.kept));
      C.AcceptedIsMerged(w, h, c, ev.kept, z);
      MergeKeepsCommitted(w, h, c, ev.kept, z);
    }
  }

  /** A backed prefix is a prefix of the log of every leader from then on. */
  lemma BackedByLater(w: World, h: History, term: nat, log: seq<Entry>, k: nat, u: nat)
    requires L.TermLogsOk(h) && C.Inv(w, h) && Backed(w.nodes.Keys, h, term, log, k) && term <= u && u in h.logs
    ensures Agree(log, h.logs[u], k)
  {
    if k > 0 {
      var t: nat, i: nat :| t <= term && BackedBy(w.nodes.Keys, h, log, k, t, i);
      LaterHas(w, h, t, i, u);
      AgreeDown(h.logs[u], h.logs[t], i, k);
    }
  }

  /** The message names a commit index its own entries reach, so the follower's cap never bites. */
  lemma LeaderCommitCovered(w: World, h: History, c: AppendCall, y: Node)
    requires L.Inv(w, h) && CallsOk(w, h) && c in w.appendCalls && c.to in w.nodes
    requires PrevOk(w.nodes[c.to].log, c.req) && y.log == Merge(w.nodes[c.to].log, c.req.prevIndex, c.req.entries)
    ensures c.req.leaderCommit <= c.req.prevIndex + |c.req.entries| <= |y.log|
    ensures Backed(w.nodes.Keys, h, c.req.term, y.log, c.req.leaderCommit)
  {
    var x := w.nodes[c.to];
    var full := h.sent[c];
    C.MessageFits(w, h, c);
    var _ := MergeOutcome(x.log, full, c.req.prevIndex, c.req.entries, |c.req.entries|);
    assert Backed(w.nodes.Keys, h, c.req.term, full, c.req.leaderCommit);
    assert c.req.leaderCommit <= |full|;
    AgreeDown(y.log, full, |full|, c.req.leaderCommit);
    BackedStays(w.nodes.Keys, h, h, c.req.term, c.req.term, full, y.log, c.req.leaderCommit);
  }

  lemma AcceptedNode(w: World, h: History, c: AppendCall)
    requires L.Inv(w, h) && C.Inv(w, h) && Inv(w, h) && c in w.appendCalls && c.to in w.nodes
    requires c.req.term >= w.nodes[c.to].term && PrevOk(w.nodes[c.to].log, c.req)
    ensures var x := w.nodes[c.to];
            var y := HandleAppend(x, c.req).0;
            && NodeStep(w.nodes.Keys, h, h, y) && Agree(y.log, x.log, x.commit) && x.commit <= y.commit
            && y.commit == Max(x.commit, c.req.leaderCommit)
  {
    var x := w.nodes[c.to];
    var m := Follow(x, c.req.term);
    var log := Merge(m.log, c.req.prevIndex, c.req.entries);
    var commit := Max(x.commit, c.req.leaderCommit);
    var z := m.(log := log, commit := commit);
    C.AcceptedIsMerged(w, h, c, |c.req.entries|, z);
    MergeKeepsCommitted(w, h, c, |c.req.entries|, z);
    LeaderCommitCovered(w, h, c, z);
    assert Accept(m, c.req) == ApplyCommitted(z);
    assert log[..x.commit] == x.log[..x.commit];
    ApplyMore(z);
    BackedStays(w.nodes.Keys, h, h, x.term, c.req.term, x.log, log, x.commit);
  }

  lemma RefusedIsSteady(x: Node, req: AppendReq)
    requires req.term < x.term || !PrevOk(x.log, req)
    ensures Steady(x, HandleAppend(x, req).0)
  {
  }

  lemma HandledKeeps(w: World, h: History, c: AppendCall)
    requires L.Inv(w, h) && C.Inv(w, h) && Inv(w, h) && Enabled(w, AppendHandled(c))
    ensures Inv(Do(w, AppendHandled(c)), Track(w, h, AppendHandled(c)))
  {
    hide L.Inv, C.Inv, Backed, ApplyAll, HandleAppend, PrevOk;
    var x := w.nodes[c.to];
    var y := HandleAppend(x, c.req).0;
    var h' := Track(w, h, AppendHandled(c));
    if c.req.term >= x.term && PrevOk(x.log, c.req) {
      AcceptedNode(w, h, c);
    } else {
      RefusedIsSteady(x, c.req);
      SteadyStep(w.nodes.Keys, h, h, x, y);
    }
    StepAcksGrow(w, h, AppendHandled(c));
    SameTermLogs(w, h, AppendHandled(c));
    BackedStays(w.nodes.Keys, h, h', y.term, y.term, y.log, y.log, y.commit);
    NodeStepKeeps(w, h, Do(w, AppendHandled(c)), h', c.to);
  }

  lemma StepKeeps(w: World, h: History, ev: Event)
    requires E.Inv(w, h) && L.Inv(w, h) && C.Inv(w, h) && Inv(w, h)
    requires Enabled(w, ev) && Guarded(w, ev) && (IsRestart(ev) ==> RestartBacked(w, h, ev))
    ensures Inv(Do(w, ev), Track(w, h, ev))
  {
    hide C.Inv, Inv, Do, Track, RestartBacked, Wired, L.NodesOk, L.BallotsOk, L.TermLogsOk, L.CallsOk, E.BallotsOk,
         E.ReignsOk, E.ActorsOk, E.VoteMessagesOk;
    if ev.SendAppend? {
      SendKeeps(w, h, ev.n, ev.slot);
    } else if ev.AppendHandled? {
      HandledKeeps(w, h, ev.acall);
    } else if ev.AppendAnswered? {
      AnsweredKeeps(w, h, ev.areply, ev.connected);
    } else if IsRestart(ev) {
      RestartKeepsExactly(w, h, ev);
    } else {
      HistoryGains(w, h, ev);
      SteadyEventKeeps(w, h, ev);
    }
  }
}
