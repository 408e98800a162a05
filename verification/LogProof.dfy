/**
 Invariant behind Log Matching, kept by every step of every run: restarts, interrupted merges and sends by a node
 that has lost its leadership included. Every entry anywhere was created by the leader of its term, and the log in
 front of it is that leader's log.
 */
module LogProof {
  import opened Types
  import opened Logs
  import opened Nodes
  import opened Clusters
  import opened Histories
  import E = ElectionProof

  type TermLogs = map<nat, seq<Entry>>

  ghost predicate EntryOk(logs: TermLogs, log: seq<Entry>, i: nat)
    requires i < |log|
  {
    log[i].index == i + 1 && log[i].term in logs && Agree(log, logs[log[i].term], i + 1)
  }

  ghost predicate LogOk(logs: TermLogs, log: seq<Entry>) {
    forall i :: 0 <= i < |log| ==> EntryOk(logs, log, i)
  }

  ghost predicate TermsUpTo(log: seq<Entry>, term: nat) {
    forall i :: 0 <= i < |log| ==> 1 <= log[i].term <= term
  }

  ghost predicate NodeOk(logs: TermLogs, x: Node) {
    && LogOk(logs, x.log) && TermsUpTo(x.log, x.term)
    && (x.role == Leader ==> x.term in logs && x.log == logs[x.term])
  }

  ghost predicate NodesOk(w: World, h: History) {
    forall n :: n in w.nodes ==> NodeOk(h.logs, w.nodes[n])
  }

  ghost predicate BallotLogOk(logs: TermLogs, s: Slot, b: Ballot) {
    && LogOk(logs, b.log) && 1 <= s.term
    && (b.candidate == s.node ==> TermsUpTo(b.log, s.term - 1))
  }

  ghost predicate BallotsOk(h: History) {
    forall s :: s in h.votes ==> BallotLogOk(h.logs, s, h.votes[s])
  }

  /** A leader starts from its log at the election and only adds entries of its own term. */
  ghost predicate TermLogOk(logs: TermLogs, t: nat, r: Reign)
    requires t in logs
  {
    && 1 <= t && r.log < logs[t] && LogOk(logs, logs[t]) && TermsUpTo(r.log, t - 1)
    && forall i :: |r.log| <= i < |logs[t]| ==> logs[t][i].term == t
  }

  ghost predicate TermLogsOk(h: History) {
    && h.reigns.Keys == h.logs.Keys
    && forall t :: t in h.logs ==> TermLogOk(h.logs, t, h.reigns[t])
  }

  /** The request is the tail of the sender's log; a nextIndex beyond that log yields an empty, unacceptable request. */
  ghost predicate RequestFrom(req: AppendReq, full: seq<Entry>) {
    if req.prevIndex <= |full|
    then req.entries == full[req.prevIndex..] && req.prevTerm == TermAt(full, req.prevIndex)
    else req.entries == [] && req.prevTerm == 0
  }

  ghost predicate SentOk(logs: TermLogs, req: AppendReq, full: seq<Entry>) {
    LogOk(logs, full) && TermsUpTo(full, req.term) && RequestFrom(req, full)
  }

  ghost predicate CallsOk(w: World, h: History) {
    forall c :: c in w.appendCalls ==> c in h.sent && SentOk(h.logs, c.req, h.sent[c])
  }

  ghost predicate Inv(w: World, h: History) {
    NodesOk(w, h) && BallotsOk(h) && TermLogsOk(h) && CallsOk(w, h)
  }

  lemma InitInv(w: World)
    requires Init(w)
    ensures Inv(w, Blank)
  {
  }

  // ---- consequences

  /** Equal terms at one index of two explained logs: the logs are equal up to there. */
  lemma LogsMatch(logs: TermLogs, a: seq<Entry>, b: seq<Entry>)
    requires LogOk(logs, a) && LogOk(logs, b)
    ensures Matching(a, b)
  {
    forall i | 0 <= i < |a| && i < |b| && a[i].term == b[i].term ensures Agree(a, b, i + 1) {
      assert EntryOk(logs, a, i) && EntryOk(logs, b, i);
    }
  }

  lemma LogOkPrefix(logs: TermLogs, log: seq<Entry>, k: nat)
    requires LogOk(logs, log) && k <= |log|
    ensures LogOk(logs, log[..k])
  {
    forall i | 0 <= i < k ensures EntryOk(logs, log[..k], i) {
      assert EntryOk(logs, log, i);
      assert log[..k][..i + 1] == log[..i + 1];
    }
  }

  ghost predicate Grow(logs: TermLogs, logs': TermLogs) {
    forall t :: t in logs ==> t in logs' && logs[t] <= logs'[t]
  }

  lemma LogOkGrow(logs: TermLogs, logs': TermLogs, log: seq<Entry>)
    requires LogOk(logs, log) && Grow(logs, logs')
    ensures LogOk(logs', log)
  {
    forall i | 0 <= i < |log| ensures EntryOk(logs', log, i) {
      assert EntryOk(logs, log, i);
      AgreePrefix(log, logs[log[i].term], logs'[log[i].term], i + 1);
    }
  }

  lemma WellIndexedLog(logs: TermLogs, log: seq<Entry>)
    requires LogOk(logs, log)
    ensures WellIndexed(log)
  {
    forall i | 0 <= i < |log| ensures log[i].index == i + 1 {
      assert EntryOk(logs, log, i);
    }
  }

  /** A request that passes the previous-entry check continues a log the follower already shares. */
  lemma AcceptedFits(logs: TermLogs, log: seq<Entry>, req: AppendReq, full: seq<Entry>)
    requires LogOk(logs, log) && SentOk(logs, req, full) && PrevOk(log, req)
    requires forall i :: 0 <= i < |log| ==> 1 <= log[i].term
    ensures SuffixOf(full, req.prevIndex, req.entries) && Matching(log, full) && Agree(log, full, req.prevIndex)
    ensures |full| == req.prevIndex + |req.entries|
  {
    LogsMatch(logs, log, full);
    WellIndexedLog(logs, full);
    if req.prevIndex > 0 {
      assert log[req.prevIndex - 1].term == req.prevTerm;
      assert req.prevIndex <= |full|;
    }
  }

  lemma MergedLogOk(logs: TermLogs, log: seq<Entry>, term: nat, req: AppendReq, full: seq<Entry>, k: nat)
    requires LogOk(logs, log) && TermsUpTo(log, term) && term <= req.term
    requires SentOk(logs, req, full) && PrevOk(log, req) && k <= |req.entries|
    ensures var m := MergeUpTo(log, req.prevIndex, req.entries, k); LogOk(logs, m) && TermsUpTo(m, req.term)
  {
    AcceptedFits(logs, log, req, full);
    var x := MergeOutcome(log, full, req.prevIndex, req.entries, k);
    LogOkPrefix(logs, full, x);
  }

  // ---- frames

  lemma OneNode(w: World, h: History, n: NodeId, y: Node)
    requires Inv(w, h) && n in w.nodes && NodeOk(h.logs, y)
    ensures Inv(Put(w, n, y), h)
  {
  }

  /** The invariant reads votes, reigns, logs and sent logs only. */
  lemma Reframe(w: World, h: History, w': World, h': History)
    requires Inv(w, h) && w'.nodes == w.nodes && w'.appendCalls == w.appendCalls && SameLogs(h, h')
    ensures Inv(w', h')
  {
  }

  /** A step that leaves log and role alone, or makes a follower of the node. */
  lemma SameLog(logs: TermLogs, x: Node, y: Node)
    requires NodeOk(logs, x) && y.log == x.log && x.term <= y.term
    requires y.role == Leader ==> x.role == Leader && y.term == x.term
    ensures NodeOk(logs, y)
  {
  }

  // ---- a leader's log grows

  lemma GrowKeeps(w: World, h: History, logs': TermLogs)
    requires BallotsOk(h) && CallsOk(w, h) && Grow(h.logs, logs')
    ensures BallotsOk(h.(logs := logs')) && CallsOk(w, h.(logs := logs'))
  {
    forall s | s in h.votes ensures BallotLogOk(logs', s, h.votes[s]) {
      LogOkGrow(h.logs, logs', h.votes[s].log);
    }
    forall c | c in w.appendCalls ensures c in h.sent && SentOk(logs', c.req, h.sent[c]) {
      LogOkGrow(h.logs, logs', h.sent[c]);
    }
  }

  lemma GrowKeepsNode(logs: TermLogs, logs': TermLogs, t: nat, x: Node)
    requires NodeOk(logs, x) && Grow(logs, logs') && (forall u :: u in logs && u != t ==> logs'[u] == logs[u])
    requires x.role == Leader ==> x.term != t
    ensures NodeOk(logs', x)
  {
    LogOkGrow(logs, logs', x.log);
  }

  lemma GrowKeepsTermLog(logs: TermLogs, logs': TermLogs, u: nat, r: Reign)
    requires u in logs && TermLogOk(logs, u, r) && Grow(logs, logs') && logs'[u] == logs[u]
    ensures TermLogOk(logs', u, r)
  {
    LogOkGrow(logs, logs', logs[u]);
  }

  /** The log of term t becomes `log` plus one entry of term t, whether t is a new reign or a running one. */
  lemma NewEntry(h: History, t: nat, r: Reign, log: seq<Entry>, e: Entry)
    requires TermLogsOk(h) && 1 <= t && LogOk(h.logs, log) && e.term == t && e.index == |log| + 1
    requires t in h.logs ==> h.logs[t] == log && h.reigns[t] == r
    requires t !in h.logs ==> r.log == log && TermsUpTo(log, t - 1)
    ensures var logs' := h.logs[t := log + [e]];
            && Grow(h.logs, logs') && LogOk(logs', log + [e])
            && TermLogsOk(h.(logs := logs', reigns := h.reigns[t := r]))
  {
    var logs' := h.logs[t := log + [e]];
    LogOkGrow(h.logs, logs', log);
    var long := log + [e];
    forall i | 0 <= i < |long| ensures EntryOk(logs', long, i) {
      if i < |log| {
        assert EntryOk(logs', log, i);
        assert long[..i + 1] == log[..i + 1];
      }
    }
    forall u | u in logs' ensures TermLogOk(logs', u, h.reigns[t := r][u]) {
      if u != t {
        GrowKeepsTermLog(h.logs, logs', u, h.reigns[u]);
      } else if t in h.logs {
        assert TermLogOk(h.logs, t, r);
      }
    }
  }

  /** What a leader's append needs: the reign r of its term, new or running, with the node's log behind it. */
  ghost predicate ReignReady(h: History, x: Node, r: Reign) {
    && 1 <= x.term && LogOk(h.logs, x.log)
    && (x.term in h.logs ==> h.logs[x.term] == x.log && x.term in h.reigns && h.reigns[x.term] == r)
    && (x.term !in h.logs ==> r.log == x.log && TermsUpTo(x.log, x.term - 1))
  }

  ghost predicate NoRival(w: World, n: NodeId)
    requires n in w.nodes
  {
    forall m :: m in w.nodes && m != n && w.nodes[m].role == Leader ==> w.nodes[m].term != w.nodes[n].term
  }

  lemma ReignMeansNoRival(w: World, h: History, n: NodeId)
    requires E.Inv(w, h) && n in w.nodes
    requires w.nodes[n].term in h.reigns ==> h.reigns[w.nodes[n].term].leader == n
    ensures NoRival(w, n)
  {
    forall m | m in w.nodes && m != n && w.nodes[m].role == Leader ensures w.nodes[m].term != w.nodes[n].term {
      assert E.RoleOk(h, m, w.nodes[m]);
    }
  }

  lemma OthersKeep(w: World, h: History, n: NodeId, logs': TermLogs)
    requires NodesOk(w, h) && n in w.nodes && NoRival(w, n)
    requires Grow(h.logs, logs') && (forall u :: u in h.logs && u != w.nodes[n].term ==> logs'[u] == h.logs[u])
    ensures forall m :: m in w.nodes && m != n ==> NodeOk(logs', w.nodes[m])
  {
    forall m | m in w.nodes && m != n ensures NodeOk(logs', w.nodes[m]) {
      GrowKeepsNode(h.logs, logs', w.nodes[n].term, w.nodes[m]);
    }
  }

  lemma NewEntryNode(h: History, x: Node, r: Reign, cmd: Command, y: Node)
    requires TermLogsOk(h) && NodeOk(h.logs, x) && ReignReady(h, x, r)
    requires y.term == x.term && y.log == AppendOwn(x, cmd).log
    ensures var logs' := h.logs[x.term := y.log];
            && Grow(h.logs, logs') && NodeOk(logs', y)
            && TermLogsOk(h.(logs := logs', reigns := h.reigns[x.term := r]))
  {
    NewEntry(h, x.term, r, x.log, Entry(x.term, |x.log| + 1, cmd));
    assert TermsUpTo(y.log, y.term);
  }

  lemma LeaderAppends(w: World, h: History, n: NodeId, r: Reign, cmd: Command, y: Node, h': History)
    requires Inv(w, h) && n in w.nodes && ReignReady(h, w.nodes[n], r) && NoRival(w, n)
    requires y.role == Leader && y.term == w.nodes[n].term && y.log == AppendOwn(w.nodes[n], cmd).log
    requires h' == h.(logs := h.logs[y.term := y.log], reigns := h.reigns[y.term := r], acks := h'.acks)
    ensures Inv(Put(w, n, y), h')
  {
    NewEntryNode(h, w.nodes[n], r, cmd, y);
    GrowKeeps(w, h, h'.logs);
    OthersKeep(w, h, n, h'.logs);
    LeaderAppended(w, h, n, y, h');
  }

  lemma LeaderAppended(w: World, h: History, n: NodeId, y: Node, h': History)
    requires n in w.nodes && NodeOk(h'.logs, y) && TermLogsOk(h.(logs := h'.logs, reigns := h'.reigns))
    requires BallotsOk(h.(logs := h'.logs)) && CallsOk(w, h.(logs := h'.logs))
    requires forall m :: m in w.nodes && m != n ==> NodeOk(h'.logs, w.nodes[m])
    requires h'.votes == h.votes && h'.sent == h.sent
    ensures Inv(Put(w, n, y), h')
  {
  }

  lemma ClientAppendKeeps(w: World, h: History, n: NodeId, cmd: Command)
    requires Inv(w, h) && Enabled(w, ClientAppend(n, cmd)) && NoRival(w, n)
    ensures Inv(Do(w, ClientAppend(n, cmd)), Track(w, h, ClientAppend(n, cmd)))
  {
    var x := w.nodes[n];
    assert NodeOk(h.logs, x);
    assert TermLogOk(h.logs, x.term, h.reigns[x.term]);
    var h' := Track(w, h, ClientAppend(n, cmd));
    assert h'.reigns == h.reigns[x.term := h.reigns[x.term]];
    assert x.term == AppendOwn(x, cmd).term;
    LeaderAppends(w, h, n, h.reigns[x.term], cmd, AppendOwn(x, cmd), h');
  }

  lemma TallyKeeps(w: World, h: History, n: NodeId)
    requires Inv(w, h) && Enabled(w, TallyAt(n))
    requires Wins(w.nodes[n]) ==>
      && NoRival(w, n) && w.nodes[n].term !in h.reigns && 1 <= w.nodes[n].term
      && TermsUpTo(w.nodes[n].log, w.nodes[n].term - 1)
    ensures Inv(Do(w, TallyAt(n)), Track(w, h, TallyAt(n)))
  {
    var x := w.nodes[n];
    assert NodeOk(h.logs, x);
    if Wins(x) {
      var h' := Track(w, h, TallyAt(n));
      LeaderAppends(w, h, n, h'.reigns[x.term], NoopCommand, Tally(x), h');
    } else {
      OneNode(w, h, n, Tally(x));
    }
  }

  lemma WinnerFacts(w: World, h: History, n: NodeId)
    requires E.Inv(w, h) && Inv(w, h) && Enabled(w, TallyAt(n))
    ensures Wins(w.nodes[n]) ==>
      && NoRival(w, n) && w.nodes[n].term !in h.reigns && 1 <= w.nodes[n].term
      && TermsUpTo(w.nodes[n].log, w.nodes[n].term - 1)
  {
    var x := w.nodes[n];
    if Wins(x) {
      assert E.RoleOk(h, n, x);
      assert BallotLogOk(h.logs, Slot(n, x.term), h.votes[Slot(n, x.term)]);
      E.WinnerHasQuorum(w, h, n);
      E.NewReign(w, h, h.(reigns := h.reigns[x.term := Reign(n, Supporters(w, h, n, x.term), x.log)]), n);
      ReignMeansNoRival(w, h, n);
    }
  }

  lemma LeaderHasNoRival(w: World, h: History, n: NodeId)
    requires E.Inv(w, h) && n in w.nodes && w.nodes[n].role == Leader
    ensures NoRival(w, n)
  {
    assert E.RoleOk(h, n, w.nodes[n]);
    ReignMeansNoRival(w, h, n);
  }

  lemma CallFacts(w: World, h: History, c: VoteCall)
    requires E.Inv(w, h) && c in w.voteCalls
    ensures 1 <= c.req.term && (c.req.candidate == c.to ==> Slot(c.to, c.req.term) in h.votes)
  {
    assert E.RequestOk(h, c.from, c.req);
    assert E.BallotOk(w, h, Slot(c.from, c.req.term));
  }

  // ---- votes and messages

  lemma BallotAdded(w: World, h: History, s: Slot, b: Ballot)
    requires Inv(w, h) && BallotLogOk(h.logs, s, b)
    ensures Inv(w, h.(votes := h.votes[s := b]))
  {
    var h' := h.(votes := h.votes[s := b]);
    forall r | r in h'.votes ensures BallotLogOk(h'.logs, r, h'.votes[r]) {
      if r != s {
        assert BallotLogOk(h.logs, r, h.votes[r]);
      }
    }
  }

  lemma StartElectionKeeps(w: World, h: History, n: NodeId)
    requires Inv(w, h) && Enabled(w, StartElectionAt(n))
    ensures Inv(Do(w, StartElectionAt(n)), Track(w, h, StartElectionAt(n)))
  {
    var x := w.nodes[n];
    assert NodeOk(h.logs, x);
    SameLog(h.logs, x, StartElection(x));
    OneNode(w, h, n, StartElection(x));
    BallotAdded(Put(w, n, StartElection(x)), h, Slot(n, x.term + 1), Ballot(n, x.log));
  }

  lemma VoteHandledKeeps(w: World, h: History, c: VoteCall)
    requires Inv(w, h) && Enabled(w, VoteHandled(c))
    requires 1 <= c.req.term && (c.req.candidate == c.to ==> Slot(c.to, c.req.term) in h.votes)
    ensures Inv(Do(w, VoteHandled(c)), Track(w, h, VoteHandled(c)))
  {
    var x := w.nodes[c.to];
    var (y, resp) := HandleVote(x, c.req);
    var s := Slot(c.to, c.req.term);
    var w1 := Put(w, c.to, y);
    assert NodeOk(h.logs, x);
    SameLog(h.logs, x, y);
    OneNode(w, h, c.to, y);
    if resp.granted && s !in h.votes {
      BallotAdded(w1, h, s, Ballot(c.req.candidate, y.log));
    }
    Reframe(w1, Track(w, h, VoteHandled(c)), Do(w, VoteHandled(c)), Track(w, h, VoteHandled(c)));
  }

  lemma SendKeeps(w: World, h: History, n: NodeId, slot: nat)
    requires Inv(w, h) && Enabled(w, SendAppend(n, slot))
    ensures Inv(Do(w, SendAppend(n, slot)), Track(w, h, SendAppend(n, slot)))
  {
    hide LogOk, TermsUpTo;
    var x := w.nodes[n];
    assert NodeOk(h.logs, x);
    assert RequestFrom(AppendRequest(x, slot), x.log);
    var h' := Track(w, h, SendAppend(n, slot));
    var w' := Do(w, SendAppend(n, slot));
    forall c | c in w'.appendCalls ensures c in h'.sent && SentOk(h'.logs, c.req, h'.sent[c]) {
      if c in w.appendCalls {
        assert SentOk(h.logs, c.req, h.sent[c]);
      }
    }
  }

  lemma HandledNodeOk(h: History, x: Node, req: AppendReq, full: seq<Entry>)
    requires NodeOk(h.logs, x) && SentOk(h.logs, req, full)
    ensures NodeOk(h.logs, HandleAppend(x, req).0)
  {
    if req.term >= x.term && PrevOk(x.log, req) {
      MergedLogOk(h.logs, x.log, x.term, req, full, |req.entries|);
      assert HandleAppend(x, req).0.log == Merge(x.log, req.prevIndex, req.entries);
    } else {
      SameLog(h.logs, x, HandleAppend(x, req).0);
    }
  }

  lemma AppendHandledKeeps(w: World, h: History, c: AppendCall)
    requires Inv(w, h) && Enabled(w, AppendHandled(c))
    ensures Inv(Do(w, AppendHandled(c)), Track(w, h, AppendHandled(c)))
  {
    assert SentOk(h.logs, c.req, h.sent[c]);
    HandledNodeOk(h, w.nodes[c.to], c.req, h.sent[c]);
    var w1 := Put(w, c.to, HandleAppend(w.nodes[c.to], c.req).0);
    OneNode(w, h, c.to, w1.nodes[c.to]);
    Reframe(w1, h, Do(w, AppendHandled(c)), Track(w, h, AppendHandled(c)));
  }

  lemma CrashMergingKeeps(w: World, h: History, c: AppendCall, k: nat)
    requires Inv(w, h) && Enabled(w, CrashMerging(c, k))
    ensures Inv(Do(w, CrashMerging(c, k)), Track(w, h, CrashMerging(c, k)))
  {
    var x := w.nodes[c.to];
    assert SentOk(h.logs, c.req, h.sent[c]);
    MergedLogOk(h.logs, x.log, x.term, c.req, h.sent[c], k);
    OneNode(w, h, c.to, CrashInMerge(x, c.req, k));
  }

  // ---- every step

  /** A step that changes one node but not its log, and sends nothing. */
  ghost predicate NeutralChange(w: World, w': World, n: NodeId) {
    && n in w.nodes && n in w'.nodes && w'.nodes == w.nodes[n := w'.nodes[n]] && w'.appendCalls == w.appendCalls
    && w'.nodes[n].log == w.nodes[n].log && w.nodes[n].term <= w'.nodes[n].term
    && (w'.nodes[n].role == Leader ==> w.nodes[n].role == Leader && w'.nodes[n].term == w.nodes[n].term)
  }

  ghost predicate SameLogs(h: History, h': History) {
    h'.votes == h.votes && h'.reigns == h.reigns && h'.logs == h.logs && h'.sent == h.sent
  }

  lemma NeutralKeeps(w: World, h: History, w': World, h': History, n: NodeId)
    requires Inv(w, h) && NeutralChange(w, w', n) && SameLogs(h, h')
    ensures Inv(w', h')
  {
    SameLog(h.logs, w.nodes[n], w'.nodes[n]);
    OneNode(w, h, n, w'.nodes[n]);
    Reframe(Put(w, n, w'.nodes[n]), h, w', h');
  }

  ghost predicate IsNeutral(ev: Event) {
    ev.AskVote? || ev.VoteAnswered? || ev.VoteUnanswered? || ev.AppendAnswered? || ev.AppendUnanswered?
    || ev.RestartAt? || ev.CrashAtTerm? || ev.CrashAdopting?
  }

  lemma NeutralHistory(w: World, h: History, ev: Event)
    requires Enabled(w, ev) && IsNeutral(ev)
    ensures SameLogs(h, Track(w, h, ev))
  {
  }

  lemma StepIsNeutral(w: World, ev: Event) returns (n: NodeId)
    requires Enabled(w, ev) && IsNeutral(ev)
    ensures NeutralChange(w, Do(w, ev), n)
  {
    hide Scan, ReadRange;
    match ev
    case AskVote(m) =>
      n := m;
      assert w.nodes[m := w.nodes[m]] == w.nodes;
    case VoteAnswered(r) => n := r.call.from;
    case VoteUnanswered(m) => n := m;
    case AppendAnswered(r, connected) => n := r.call.from;
    case AppendUnanswered(c) => n := c.from;
    case RestartAt(m) => n := m;
    case CrashAtTerm(m, t) => n := m;
    case CrashAdopting(m, t) => n := m;
  }

  lemma StepKeeps(w: World, h: History, ev: Event)
    requires E.Inv(w, h) && Inv(w, h) && Enabled(w, ev)
    ensures Inv(Do(w, ev), Track(w, h, ev))
  {
    hide Inv, Do, Track, NeutralChange, SameLogs, E.Inv, NoRival, TermsUpTo;
    match ev
    case StartElectionAt(n) => StartElectionKeeps(w, h, n);
    case VoteHandled(c) =>
      CallFacts(w, h, c);
      VoteHandledKeeps(w, h, c);
    case TallyAt(n) =>
      WinnerFacts(w, h, n);
      TallyKeeps(w, h, n);
    case ClientAppend(n, cmd) =>
      LeaderHasNoRival(w, h, n);
      ClientAppendKeeps(w, h, n, cmd);
    case SendAppend(n, slot) => SendKeeps(w, h, n, slot);
    case AppendHandled(c) => AppendHandledKeeps(w, h, c);
    case CrashMerging(c, k) => CrashMergingKeeps(w, h, c, k);
    case _ =>
      var n := StepIsNeutral(w, ev);
      NeutralHistory(w, h, ev);
      NeutralKeeps(w, h, Do(w, ev), Track(w, h, ev), n);
  }
}
