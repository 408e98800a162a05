/** The guarantees of the cluster, stated over whole runs and in terms of the nodes and messages alone. */
module Safety {
  import opened Types
  import opened Quorums
  import opened Logs
  import opened StateMachines
  import opened Nodes
  import opened Clusters
  import opened Histories
  import opened Runs
  import E = ElectionProof
  import L = LogProof
  import C = CompletenessProof
  import D = CommitProof

  ghost predicate Leads(w: World, n: NodeId, t: nat) {
    n in w.nodes && w.nodes[n].role == Leader && w.nodes[n].term == t
  }

  // ---- Election Safety: all runs

  lemma LeaderIsRecorded(ws: seq<World>, es: seq<Event>, k: nat, l: nat, n: NodeId, t: nat)
    requires IsRun(ws, es) && k <= l <= |es| && Leads(ws[k], n, t)
    ensures t in HistoryAt(ws, es, l).reigns && HistoryAt(ws, es, l).reigns[t].leader == n
  {
    RunInv(ws, es, k);
    RunLater(ws, es, k, l);
    assert E.RoleOk(HistoryAt(ws, es, k), n, ws[k].nodes[n]);
  }

  /** At most one node ever leads a given term, at any two moments of any run, crashes included. */
  lemma ElectionSafety(ws: seq<World>, es: seq<Event>, k: nat, l: nat, n: NodeId, m: NodeId, t: nat)
    requires IsRun(ws, es) && k <= |es| && l <= |es| && Leads(ws[k], n, t) && Leads(ws[l], m, t)
    ensures n == m
  {
    LeaderIsRecorded(ws, es, k, |es|, n, t);
    LeaderIsRecorded(ws, es, l, |es|, m, t);
  }

  /**
   Testing only the role at the tally is sound: whatever happened while the votes were collected, a node that is
   still a candidate is in the term it asked votes for, and if it wins, a majority has voted for it in that term.
   */
  lemma TallyByRoleIsSound(ws: seq<World>, es: seq<Event>, k: nat, n: NodeId)
    requires IsRun(ws, es) && k <= |es| && n in ws[k].nodes
    requires ws[k].nodes[n].election.Some? && ws[k].nodes[n].role == Candidate
    ensures ws[k].nodes[n].election.value.req.term == ws[k].nodes[n].term
    ensures Enabled(ws[k], TallyAt(n)) && Wins(ws[k].nodes[n]) ==>
              IsQuorum(ws[k].nodes.Keys, Supporters(ws[k], HistoryAt(ws, es, k), n, ws[k].nodes[n].term))
  {
    hide E.Inv, L.Inv, Do, Track, Guarded, Supporters, HistoryAt;
    RunInv(ws, es, k);
    TallySoundAt(ws[k], HistoryAt(ws, es, k), n);
  }

  lemma TallySoundAt(w: World, h: History, n: NodeId)
    requires E.Inv(w, h) && n in w.nodes && w.nodes[n].election.Some? && w.nodes[n].role == Candidate
    ensures w.nodes[n].election.value.req.term == w.nodes[n].term
    ensures Enabled(w, TallyAt(n)) && Wins(w.nodes[n]) ==> IsQuorum(w.nodes.Keys, Supporters(w, h, n, w.nodes[n].term))
  {
    assert E.ElectionOk(h, n, w.nodes[n]);
    if Enabled(w, TallyAt(n)) && Wins(w.nodes[n]) {
      E.WinnerHasQuorum(w, h, n);
    }
  }

  // ---- Log Matching: all runs

  /** Something that holds log entries: a node's log or an AppendEntries message. */
  datatype Source = NodeLog(n: NodeId) | Message(c: AppendCall)

  predicate Exists(w: World, s: Source) {
    match s
    case NodeLog(n) => n in w.nodes
    case Message(c) => c in w.appendCalls
  }

  /** The entry a source holds at 1-based index i, if it reaches there. */
  function EntryAt(w: World, s: Source, i: nat): Option<Entry>
    requires Exists(w, s)
  {
    match s
    case NodeLog(n) => if 1 <= i <= |w.nodes[n].log| then Some(w.nodes[n].log[i - 1]) else None
    case Message(c) =>
      if c.req.prevIndex < i <= c.req.prevIndex + |c.req.entries|
      then Some(c.req.entries[i - c.req.prevIndex - 1]) else None
  }

  /** The term a source names at index i: that of the entry it holds there, or prevLogTerm at prevLogIndex. */
  function NamedTerm(w: World, s: Source, i: nat): Option<nat>
    requires Exists(w, s)
  {
    if EntryAt(w, s, i).Some? then Some(EntryAt(w, s, i).value.term)
    else if s.Message? && i == s.c.req.prevIndex && s.c.req.prevTerm > 0 then Some(s.c.req.prevTerm)
    else None
  }

  /** Everything the source holds or names is found in `log`. */
  ghost predicate WindowOf(w: World, s: Source, log: seq<Entry>)
    requires Exists(w, s)
  {
    && (forall i: nat :: EntryAt(w, s, i).Some? ==> 1 <= i <= |log| && EntryAt(w, s, i).value == log[i - 1])
    && (forall i: nat :: NamedTerm(w, s, i).Some? ==> 1 <= i <= |log| && NamedTerm(w, s, i).value == log[i - 1].term)
  }

  /** Every source is a window into an explained log, which some node held when the source came to be. */
  lemma SourceLog(ws: seq<World>, es: seq<Event>, k: nat, l: nat, s: Source) returns (j: nat, n: NodeId)
    requires IsRun(ws, es) && k <= l <= |es| && Exists(ws[k], s)
    ensures j <= k && n in ws[j].nodes && WindowOf(ws[k], s, ws[j].nodes[n].log)
    ensures L.LogOk(HistoryAt(ws, es, l).logs, ws[j].nodes[n].log)
  {
    hide Do, Enabled, Init, HistoryAt, L.LogOk;
    var h := HistoryAt(ws, es, k);
    RunInv(ws, es, k);
    RunLater(ws, es, k, l);
    match s
    case NodeLog(m) =>
      j, n := k, m;
      assert L.NodeOk(h.logs, ws[k].nodes[m]);
      L.LogOkGrow(h.logs, HistoryAt(ws, es, l).logs, ws[k].nodes[m].log);
    case Message(c) =>
      assert L.SentOk(h.logs, c.req, h.sent[c]);
      j := SentFrom(ws, es, k, c);
      n := c.from;
      L.LogOkGrow(h.logs, HistoryAt(ws, es, l).logs, h.sent[c]);
  }

  /**
   Two logs or messages, at any two moments of any run, that name the same term at the same index are windows into
   two logs that nodes once held and that are identical up to that index.
   */
  lemma LogsBehindMatch(ws: seq<World>, es: seq<Event>, k: nat, l: nat, a: Source, b: Source, i: nat)
    returns (ka: nat, na: NodeId, kb: nat, nb: NodeId)
    requires IsRun(ws, es) && k <= |es| && l <= |es| && Exists(ws[k], a) && Exists(ws[l], b)
    requires NamedTerm(ws[k], a, i).Some? && NamedTerm(ws[k], a, i) == NamedTerm(ws[l], b, i)
    ensures ka <= k && na in ws[ka].nodes && WindowOf(ws[k], a, ws[ka].nodes[na].log)
    ensures kb <= l && nb in ws[kb].nodes && WindowOf(ws[l], b, ws[kb].nodes[nb].log)
    ensures Agree(ws[ka].nodes[na].log, ws[kb].nodes[nb].log, i)
  {
    hide Do, Enabled, Init, HistoryAt, L.LogOk;
    ka, na := SourceLog(ws, es, k, |es|, a);
    kb, nb := SourceLog(ws, es, l, |es|, b);
    L.LogsMatch(HistoryAt(ws, es, |es|).logs, ws[ka].nodes[na].log, ws[kb].nodes[nb].log);
  }

  /**
   Two logs or messages, at any two moments of any run, that name the same term at the same index hold the same
   entries, and name the same terms, at every index up to it that both reach.
   */
  lemma LogMatching(ws: seq<World>, es: seq<Event>, k: nat, l: nat, a: Source, b: Source, i: nat, j: nat)
    requires IsRun(ws, es) && k <= |es| && l <= |es| && Exists(ws[k], a) && Exists(ws[l], b) && j <= i
    requires NamedTerm(ws[k], a, i).Some? && NamedTerm(ws[k], a, i) == NamedTerm(ws[l], b, i)
    ensures EntryAt(ws[k], a, j).Some? && EntryAt(ws[l], b, j).Some? ==>
              EntryAt(ws[k], a, j) == EntryAt(ws[l], b, j)
    ensures NamedTerm(ws[k], a, j).Some? && NamedTerm(ws[l], b, j).Some? ==>
              NamedTerm(ws[k], a, j) == NamedTerm(ws[l], b, j)
  {
    hide Do, Enabled, Init, EntryAt, NamedTerm;
    var ka, na, kb, nb := LogsBehindMatch(ws, es, k, l, a, b, i);
    if j > 0 {
      AgreeAt(ws[ka].nodes[na].log, ws[kb].nodes[nb].log, i, j - 1);
    }
  }

  /** Every entry, in a log or in a message, was put into the log of the leader of its term, behind the same entries. */
  lemma EntriesComeFromLeaders(ws: seq<World>, es: seq<Event>, l: nat, s: Source, i: nat) returns (k: nat, m: NodeId)
    requires IsRun(ws, es) && l <= |es| && Exists(ws[l], s) && EntryAt(ws[l], s, i).Some?
    ensures k <= l && Leads(ws[k], m, EntryAt(ws[l], s, i).value.term) && i <= |ws[k].nodes[m].log|
    ensures forall j: nat | 1 <= j <= i && EntryAt(ws[l], s, j).Some? ::
              EntryAt(ws[l], s, j).value == ws[k].nodes[m].log[j - 1]
  {
    hide Do, Enabled, Init, HistoryAt, EntryAt, NamedTerm;
    var o, n := SourceLog(ws, es, l, l, s);
    var log := ws[o].nodes[n].log;
    assert L.EntryOk(HistoryAt(ws, es, l).logs, log, i - 1);
    k, m := TermLogWasHeld(ws, es, l, log[i - 1].term);
    forall j: nat | 1 <= j <= i && EntryAt(ws[l], s, j).Some?
      ensures EntryAt(ws[l], s, j).value == ws[k].nodes[m].log[j - 1]
    {
      AgreeAt(log, ws[k].nodes[m].log, i, j - 1);
    }
  }

  /** The entries of every message of every run are numbered on from its prevLogIndex. */
  lemma MessagesAreNumbered(ws: seq<World>, es: seq<Event>, k: nat, c: AppendCall)
    requires IsRun(ws, es) && k <= |es| && c in ws[k].appendCalls
    ensures EntriesIndexed(c.req.prevIndex, c.req.entries)
  {
    hide Do, Enabled, Init, HistoryAt;
    var h := HistoryAt(ws, es, k);
    RunInv(ws, es, k);
    assert L.SentOk(h.logs, c.req, h.sent[c]);
    forall i | 0 <= i < |c.req.entries| ensures c.req.entries[i].index == c.req.prevIndex + 1 + i {
      assert L.EntryOk(h.logs, h.sent[c], c.req.prevIndex + i);
    }
  }

  // ---- Leader Completeness: guarded runs

  /** Event k is a reply on which the leader n of term t advances its commit index to c. */
  ghost predicate CommitsAt(ws: seq<World>, es: seq<Event>, k: nat, n: NodeId, t: nat, c: nat)
    requires IsRun(ws, es) && k < |es|
  {
    && es[k].AppendAnswered? && es[k].areply.call.from == n && n in ws[k].nodes && n in ws[k + 1].nodes
    && ws[k].nodes[n].term == t && ws[k + 1].nodes[n].commit == c > ws[k].nodes[n].commit
  }

  /** What the scan commits is chosen: a majority has confirmed it to the leader, and the leader still holds it. */
  lemma CommitIsChosen(ws: seq<World>, es: seq<Event>, k: nat, n: NodeId, t: nat, c: nat)
    requires GuardedRun(ws, es) && k < |es| && CommitsAt(ws, es, k, n, t, c)
    ensures var h := HistoryAt(ws, es, k + 1);
            && C.Chosen(ws[k + 1].nodes.Keys, h, t, c) && ws[k + 1].nodes[n].log == h.logs[t]
    ensures ChosenAt(ws, k + 1, k, n, c) && ws[k].nodes[n].log == ws[k + 1].nodes[n].log
  {
    hide C.Inv, AppendReplied, HistoryAt, C.Chosen, ChosenAt, L.TermLogsOk, L.CallsOk, L.BallotsOk, E.ActorsOk,
         E.BallotsOk, E.ReignsOk, E.VoteMessagesOk;
    var h := HistoryAt(ws, es, k);
    var r := es[k].areply;
    var x := ws[k].nodes[n];
    RunInv(ws, es, k);
    GuardedInv(ws, es, k);
    var y := AppendReplied(x, r.call.slot, r.call.req, r.resp, es[k].connected);
    assert Guarded(ws[k], es[k]);
    C.AnsweredLeaderOk(ws[k], h, r, es[k].connected, y);
    C.ScanCommitsQuorum(ws[k], h, r, es[k].connected);
    C.LeaderFacts(ws[k], h, n);
    AnsweredHistory(ws, es, k);
    ChosenByLeader(ws, es, k + 1, k, n, t, c);
  }

  lemma AnsweredHistory(ws: seq<World>, es: seq<Event>, k: nat)
    requires IsRun(ws, es) && k < |es| && es[k].AppendAnswered?
    ensures HistoryAt(ws, es, k + 1) == HistoryAt(ws, es, k) && ws[k + 1].nodes.Keys == ws[k].nodes.Keys
  {
  }

  /** A chosen index of the term a node leads was chosen through that node. */
  lemma ChosenByLeader(ws: seq<World>, es: seq<Event>, k: nat, j: nat, n: NodeId, t: nat, i: nat)
    requires GuardedRun(ws, es) && j <= k <= |es| && C.Chosen(ws[k].nodes.Keys, HistoryAt(ws, es, k), t, i)
    requires Leads(ws[j], n, t) && ws[j].nodes[n].log == HistoryAt(ws, es, k).logs[t]
    ensures ChosenAt(ws, k, j, n, i)
  {
    hide Do, Track, Enabled, Init, Guarded, HistoryAt, Confirmed, IsQuorum;
    var o, m := ChosenWasHeld(ws, es, k, t, i);
    ElectionSafety(ws, es, o, j, m, n, t);
  }

  /**
   An index that a majority has confirmed to the leader of its term is in the log of every leader of every later term,
   at whatever moment it leads, whether or not any scan ever commits it. Restarts are allowed.
   */
  lemma ChosenSurvives(ws: seq<World>, es: seq<Event>, k: nat, j: nat, n: NodeId, i: nat, l: nat, m: NodeId, u: nat)
    requires GuardedRun(ws, es) && k <= |es| && ChosenAt(ws, k, j, n, i)
    requires l <= |es| && Leads(ws[l], m, u) && ws[j].nodes[n].term < u
    ensures Agree(ws[l].nodes[m].log, ws[j].nodes[n].log, i)
  {
    hide Do, Track, Enabled, Init, Guarded, HistoryAt, ChosenAt, E.Inv, C.Chosen;
    ChosenWithin(ws, k, j, n, i);
    var t := ws[j].nodes[n].term;
    ChosenAtIsChosen(ws, es, k, j, n, i);
    RunLater(ws, es, k, |es|);
    SameNodes(ws, es, k);
    SameNodes(ws, es, |es|);
    var h, g := HistoryAt(ws, es, k), HistoryAt(ws, es, |es|);
    D.ChosenStays(ws[k].nodes.Keys, h, g, t, i);
    LeaderAcked(ws, es, j, k, n);
    RunInv(ws, es, |es|);
    GuardedInv(ws, es, |es|);
    ReignStarts(ws, es, l, m, u);
    ReignHas(ws[|es|], g, t, i, u, ws[j].nodes[n].log, ws[l].nodes[m].log, h);
  }

  lemma ChosenWithin(ws: seq<World>, k: nat, j: nat, n: NodeId, i: nat)
    requires ChosenAt(ws, k, j, n, i)
    ensures j <= k && n in ws[j].nodes && i <= |ws[j].nodes[n].log| && ws[j].nodes[n].role == Leader
  {
  }

  lemma ReignHas(w: World, g: History, t: nat, i: nat, u: nat, log: seq<Entry>, later: seq<Entry>, h: History)
    requires C.Inv(w, g) && C.Chosen(w.nodes.Keys, g, t, i) && t < u && u in g.reigns && g.reigns[u].log <= later
    requires L.Grow(h.logs, g.logs) && t in h.logs && log <= h.logs[t] && i <= |log|
    ensures Agree(later, log, i)
  {
    hide IsQuorum, C.AcksOk, C.RepliesOk, C.LeadersOk, C.CallsOk;
    C.ChosenIsChoosable(w, g, t, i);
    assert Agree(g.reigns[u].log, g.logs[t], i);
    assert later[..i] == g.reigns[u].log[..i] == g.logs[t][..i];
    assert log[..i] == h.logs[t][..i] == g.logs[t][..i];
  }

  /**
   An entry committed by the majority scan of the leader of term t is in the log of every leader of every later term,
   at whatever moment it leads. Restarts are allowed.
   */
  lemma LeaderCompleteness(ws: seq<World>, es: seq<Event>, k: nat, n: NodeId, t: nat, c: nat, l: nat, m: NodeId, u: nat)
    requires GuardedRun(ws, es) && k < |es| && CommitsAt(ws, es, k, n, t, c)
    requires l <= |es| && Leads(ws[l], m, u) && t < u
    ensures Agree(ws[l].nodes[m].log, ws[k + 1].nodes[n].log, c)
  {
    hide Do, Track, Enabled, Init, Guarded, HistoryAt, ChosenAt, C.Chosen;
    CommitIsChosen(ws, es, k, n, t, c);
    ChosenSurvives(ws, es, k + 1, k, n, c, l, m, u);
  }

  lemma ReignStarts(ws: seq<World>, es: seq<Event>, l: nat, m: NodeId, u: nat)
    requires IsRun(ws, es) && l <= |es| && Leads(ws[l], m, u)
    ensures u in HistoryAt(ws, es, |es|).reigns && HistoryAt(ws, es, |es|).reigns[u].log <= ws[l].nodes[m].log
  {
    var h := HistoryAt(ws, es, l);
    RunInv(ws, es, l);
    RunLater(ws, es, l, |es|);
    LeaderIsRecorded(ws, es, l, |es|, m, u);
    LeaderIsRecorded(ws, es, l, l, m, u);
    assert L.NodeOk(h.logs, ws[l].nodes[m]);
    assert L.TermLogOk(h.logs, u, h.reigns[u]);
  }

  /** While leader and peer are in the same term, the peer holds the leader's log up to matchIndex. */
  lemma MatchIndexSound(ws: seq<World>, es: seq<Event>, k: nat, n: NodeId, j: nat)
    requires GuardedRun(ws, es) && k <= |es| && n in ws[k].nodes && ws[k].nodes[n].role == Leader
    requires j < |ws[k].nodes[n].peers|
    ensures var x := ws[k].nodes[n];
            && |x.next| == |x.matched| == |x.peers| && 1 <= x.next[j] <= |x.log| + 1 && x.matched[j] <= |x.log|
            && x.peers[j] in ws[k].nodes
            && (ws[k].nodes[x.peers[j]].term == x.term ==> Agree(ws[k].nodes[x.peers[j]].log, x.log, x.matched[j]))
  {
    RunInv(ws, es, k);
    GuardedInv(ws, es, k);
    MatchSoundAt(ws[k], HistoryAt(ws, es, k), n, j);
  }

  lemma MatchSoundAt(w: World, h: History, n: NodeId, j: nat)
    requires Wired(w) && L.NodesOk(w, h) && C.AcksOk(w, h) && C.LeadersOk(w, h)
    requires n in w.nodes && w.nodes[n].role == Leader && j < |w.nodes[n].peers|
    ensures var x := w.nodes[n];
            && |x.next| == |x.matched| == |x.peers| && 1 <= x.next[j] <= |x.log| + 1 && x.matched[j] <= |x.log|
            && x.peers[j] in w.nodes
            && (w.nodes[x.peers[j]].term == x.term ==> Agree(w.nodes[x.peers[j]].log, x.log, x.matched[j]))
  {
    var x := w.nodes[n];
    var p := x.peers[j];
    assert C.LeaderOk(h, n, x) && L.NodeOk(h.logs, x);
    assert p in Elems(x.peers);
    if x.matched[j] > 0 {
      assert C.AckOk(w, h, Slot(p, x.term));
      if w.nodes[p].term == x.term {
        AgreeDown(w.nodes[p].log, x.log, AckOf(h, p, x.term), x.matched[j]);
      }
    }
  }

  // ---- State Machine Safety: guarded runs in which a restarting node holds only chosen entries

  /**
   Between steps lastApplied == commitIndex <= log length, and the database is the fold of exactly the applied
   entries, in order.
   */
  lemma AppliedIsFold(ws: seq<World>, es: seq<Event>, k: nat, n: NodeId)
    requires SteadyRun(ws, es) && k <= |es| && n in ws[k].nodes
    ensures var x := ws[k].nodes[n];
            x.applied == x.commit <= |x.log| && x.db == ApplyAll(map[], x.log[..x.applied])
  {
    SteadyInv(ws, es, k);
    assert D.Applied(ws[k].nodes[n]);
  }

  lemma BackedLater(ws: seq<World>, es: seq<Event>, k: nat, l: nat, n: NodeId)
    requires SteadyRun(ws, es) && k <= l <= |es| && n in ws[k].nodes
    ensures var x := ws[k].nodes[n];
            D.Applied(x) && D.Backed(ws[l].nodes.Keys, HistoryAt(ws, es, l), x.term, x.log, x.commit)
  {
    var x := ws[k].nodes[n];
    SteadyInv(ws, es, k);
    RunLater(ws, es, k, l);
    SameNodes(ws, es, k);
    SameNodes(ws, es, l);
    D.BackedStays(ws[k].nodes.Keys, HistoryAt(ws, es, k), HistoryAt(ws, es, l), x.term, x.term, x.log, x.log, x.commit);
  }

  /** Committed prefixes of any two nodes at any two moments are prefixes of one another. */
  lemma CommittedPrefixesAgree(ws: seq<World>, es: seq<Event>, k: nat, l: nat, n: NodeId, m: NodeId)
    requires SteadyRun(ws, es) && k <= |es| && l <= |es| && n in ws[k].nodes && m in ws[l].nodes
    ensures Agree(ws[k].nodes[n].log, ws[l].nodes[m].log, Min(ws[k].nodes[n].commit, ws[l].nodes[m].commit))
  {
    var x, y := ws[k].nodes[n], ws[l].nodes[m];
    var z := |es|;
    BackedLater(ws, es, k, z, n);
    BackedLater(ws, es, l, z, m);
    RunInv(ws, es, z);
    GuardedInv(ws, es, z);
    D.CommitsAgree(ws[z], HistoryAt(ws, es, z), x.log, x.commit, x.term, y.log, y.commit, y.term);
  }

  /** If two nodes have, at whatever moments, applied an entry at index i, it is the same entry. */
  lemma StateMachineSafety(ws: seq<World>, es: seq<Event>, k: nat, l: nat, n: NodeId, m: NodeId, i: nat)
    requires SteadyRun(ws, es) && k <= |es| && l <= |es| && n in ws[k].nodes && m in ws[l].nodes
    requires 1 <= i <= ws[k].nodes[n].applied && i <= ws[l].nodes[m].applied
    ensures i <= |ws[k].nodes[n].log| && i <= |ws[l].nodes[m].log|
    ensures ws[k].nodes[n].log[i - 1] == ws[l].nodes[m].log[i - 1]
  {
    var x, y := ws[k].nodes[n], ws[l].nodes[m];
    CommittedPrefixesAgree(ws, es, k, l, n, m);
    AppliedIsFold(ws, es, k, n);
    AppliedIsFold(ws, es, l, m);
    AgreeAt(x.log, y.log, Min(x.commit, y.commit), i - 1);
  }

  /** Nodes that have applied equally many entries, at whatever moments, have the same database. */
  lemma DatabasesAgree(ws: seq<World>, es: seq<Event>, k: nat, l: nat, n: NodeId, m: NodeId)
    requires SteadyRun(ws, es) && k <= |es| && l <= |es| && n in ws[k].nodes && m in ws[l].nodes
    requires ws[k].nodes[n].applied == ws[l].nodes[m].applied
    ensures ws[k].nodes[n].db == ws[l].nodes[m].db
  {
    CommittedPrefixesAgree(ws, es, k, l, n, m);
    BackedLater(ws, es, k, k, n);
    BackedLater(ws, es, l, l, m);
  }

  lemma CommitStepsUp(ws: seq<World>, es: seq<Event>, k: nat, n: NodeId)
    requires SteadyRun(ws, es) && k < |es| && n in ws[k].nodes
    ensures n in ws[k + 1].nodes && ws[k].nodes[n].commit <= ws[k + 1].nodes[n].commit
  {
    hide E.Inv, L.Inv, C.Inv, D.Inv, Init, Guarded, Merge, ApplyCommitted;
    var w, ev := ws[k], es[k];
    RunInv(ws, es, k);
    GuardedInv(ws, es, k);
    SteadyInv(ws, es, k);
    if ev.AppendHandled? {
      var c := ev.acall;
      if c.to == n && c.req.term >= w.nodes[n].term && PrevOk(w.nodes[n].log, c.req) {
        D.AcceptedNode(w, HistoryAt(ws, es, k), c);
      }
    } else if IsRestart(ev) {
      D.RestartShape(w, HistoryAt(ws, es, k), ev);
      D.RestartRaisesCommit(w, HistoryAt(ws, es, k), ev);
    } else {
      OtherCommits(w, ev, n);
    }
  }

  lemma OtherCommits(w: World, ev: Event, n: NodeId)
    requires Enabled(w, ev) && !IsRestart(ev) && !ev.AppendHandled? && n in w.nodes
    ensures n in Do(w, ev).nodes && w.nodes[n].commit <= Do(w, ev).nodes[n].commit
  {
  }

  /** Commit indices never fall and no committed entry is ever truncated or replaced. */
  lemma {:induction false} CommittedStays(ws: seq<World>, es: seq<Event>, k: nat, l: nat, n: NodeId)
    requires SteadyRun(ws, es) && k <= l <= |es| && n in ws[k].nodes
    ensures n in ws[l].nodes && ws[k].nodes[n].commit <= ws[l].nodes[n].commit
    ensures Agree(ws[l].nodes[n].log, ws[k].nodes[n].log, ws[k].nodes[n].commit)
    decreases l - k
  {
    hide Do, Enabled, Guarded, Init;
    if k < l {
      CommittedStays(ws, es, k, l - 1, n);
      CommitStepsUp(ws, es, l - 1, n);
    }
    CommittedPrefixesAgree(ws, es, l, k, n, n);
  }

  /**
   Capping the commit index at the follower's own last index is sound: an accepted message always reaches its
   leaderCommit, the cap never takes effect, and what becomes committed is what its leader held when it sent the
   message.
   */
  lemma FollowerCommitSound(ws: seq<World>, es: seq<Event>, k: nat, c: AppendCall) returns (j: nat)
    requires SteadyRun(ws, es) && k < |es| && es[k] == AppendHandled(c)
    requires c.req.term >= ws[k].nodes[c.to].term && PrevOk(ws[k].nodes[c.to].log, c.req)
    ensures c.to in ws[k + 1].nodes
    ensures var x, y := ws[k].nodes[c.to], ws[k + 1].nodes[c.to];
            && c.req.leaderCommit <= c.req.prevIndex + |c.req.entries| <= |y.log|
            && y.commit == Max(x.commit, c.req.leaderCommit)
            && j < k && Leads(ws[j], c.from, c.req.term) && Agree(y.log, ws[j].nodes[c.from].log, c.req.leaderCommit)
            && c.req.leaderCommit == ws[j].nodes[c.from].commit
  {
    var h := HistoryAt(ws, es, k);
    var w := ws[k];
    RunInv(ws, es, k);
    GuardedInv(ws, es, k);
    SteadyInv(ws, es, k);
    D.AcceptedNode(w, h, c);
    j := SentWasHeld(ws, es, k, c);
    AcceptedHoldsSent(w, h, c);
  }

  lemma AcceptedHoldsSent(w: World, h: History, c: AppendCall)
    requires L.Inv(w, h) && D.CallsOk(w, h) && c in w.appendCalls && c.to in w.nodes
    requires c.req.term >= w.nodes[c.to].term && PrevOk(w.nodes[c.to].log, c.req)
    ensures var y := HandleAppend(w.nodes[c.to], c.req).0;
            && c in h.sent && c.req.leaderCommit <= c.req.prevIndex + |c.req.entries| <= |y.log|
            && Agree(y.log, h.sent[c], c.req.leaderCommit)
  {
    var x := w.nodes[c.to];
    var y := HandleAppend(x, c.req).0;
    assert y.log == Merge(x.log, c.req.prevIndex, c.req.entries);
    D.LeaderCommitCovered(w, h, c, y);
    C.MessageFits(w, h, c);
    var _ := MergeOutcome(x.log, h.sent[c], c.req.prevIndex, c.req.entries, |c.req.entries|);
    AgreeDown(y.log, h.sent[c], |h.sent[c]|, c.req.leaderCommit);
  }

  // ---- which restarts keep the invariant

  /**
   After a steady beginning, a restart keeps the invariant behind State Machine Safety if and only if everything in
   the log it leaves lies below an index that was chosen by then, in a term no later than the node's.
   */
  lemma RestartKeptExactly(ws: seq<World>, es: seq<Event>, k: nat)
    requires SteadyUpTo(ws, es, k) && k < |es| && IsRestart(es[k])
    ensures D.Inv(ws[k + 1], HistoryAt(ws, es, k + 1)) <==> RestartsCovered(ws, es, k)
  {
    hide Do, Track, Enabled, Init, Guarded, D.Inv, D.Backed, HoldsOnlyChosen;
    var h := HistoryAt(ws, es, k);
    SteadyInv(ws, es, k);
    D.RestartKeepsExactly(ws[k], h, es[k]);
    D.RestartShape(ws[k], h, es[k]);
    var x := ws[k + 1].nodes[Restarted(es[k])];
    if D.Backed(ws[k].nodes.Keys, h, x.term, x.log, |x.log|) {
      BackedIsCovered(ws, es, k, x);
    }
    if HoldsOnlyChosen(ws, k, x) {
      CoveredIsBacked(ws, es, k, x);
    }
  }

  /** A log that some node, in no later term, had in its committed prefix is covered. */
  lemma CommittedIsCovered(ws: seq<World>, es: seq<Event>, k: nat, x: Node, j: nat, m: NodeId)
    requires SteadyUpTo(ws, es, k) && j <= k && m in ws[j].nodes
    requires ws[j].nodes[m].term <= x.term && |x.log| <= ws[j].nodes[m].commit && x.log <= ws[j].nodes[m].log
    ensures HoldsOnlyChosen(ws, k, x)
  {
    hide Do, Track, Enabled, Init, Guarded, D.Backed, HoldsOnlyChosen, HistoryAt;
    var y, ids := ws[j].nodes[m], ws[k].nodes.Keys;
    SteadyInv(ws, es, j);
    RunLater(ws, es, j, k);
    SameNodes(ws, es, j);
    SameNodes(ws, es, k);
    D.BackedDown(ids, HistoryAt(ws, es, j), y.term, y.log, y.commit, |x.log|);
    D.BackedStays(ids, HistoryAt(ws, es, j), HistoryAt(ws, es, k), y.term, x.term, y.log, x.log, |x.log|);
    BackedIsCovered(ws, es, k, x);
  }

  /** The special case a node can check for itself: its commit index has reached the end of its log. */
  lemma CommittedLogIsCovered(ws: seq<World>, es: seq<Event>, k: nat)
    requires SteadyUpTo(ws, es, k) && k < |es| && IsRestart(es[k]) && !es[k].CrashMerging?
    requires ws[k].nodes[Restarted(es[k])].commit == |ws[k].nodes[Restarted(es[k])].log|
    ensures RestartsCovered(ws, es, k)
  {
    hide HoldsOnlyChosen, Init, Guarded;
    var n := es[k].n;
    CommittedIsCovered(ws, es, k, ws[k + 1].nodes[n], k, n);
  }

  // ---- what a client may rely on

  datatype Call = SubmitCall(cmd: Command, connected: seq<bool>) | GetCall

  /** The command a call has the leader append. */
  function Payload(c: Call): Command {
    if c.GetCall? then NoopCommand else c.cmd
  }

  function Answer(x: Node, c: Call): (Node, Submission) {
    if c.GetCall? then StartGet(x) else Submit(x, c.cmd, c.connected)
  }

  /** The log of x with the entry made for the call at its end. */
  function OwnPrefix(x: Node, c: Call): seq<Entry> {
    x.log + [Entry(x.term, |x.log| + 1, Payload(c))]
  }

  /** A call is refused and changes nothing, or is the event that appends its entry and waits for that entry's index. */
  lemma CallsAreEvents(w: World, n: NodeId, c: Call)
    requires n in w.nodes
    ensures var (y, s) := Answer(w.nodes[n], c);
            if s.Waiting?
            then && Enabled(w, ClientAppend(n, Payload(c)))
                 && Do(w, ClientAppend(n, Payload(c))).nodes == w.nodes[n := y]
                 && y.log == OwnPrefix(w.nodes[n], c) && s.idx == |y.log|
            else y == w.nodes[n]
  {
  }

  /** At event k a call is accepted on node n and told to wait for index idx. */
  ghost predicate Called(ws: seq<World>, es: seq<Event>, k: nat, n: NodeId, c: Call, idx: nat) {
    && k < |es| && k + 1 < |ws| && es[k] == ClientAppend(n, Payload(c)) && n in ws[k].nodes && n in ws[k + 1].nodes
    && Answer(ws[k].nodes[n], c) == (ws[k + 1].nodes[n], Waiting(idx))
  }

  /** The call finds its index committed at moment l. */
  ghost predicate Waited(ws: seq<World>, es: seq<Event>, k: nat, l: nat, n: NodeId, c: Call, idx: nat) {
    Called(ws, es, k, n, c, idx) && k < l < |ws| && n in ws[l].nodes && ws[l].nodes[n].commit >= idx
  }

  /** The entry at that index is still of the term it was appended in: one more test the wait loop could make. */
  ghost predicate Returned(ws: seq<World>, es: seq<Event>, k: nat, l: nat, n: NodeId, c: Call, idx: nat) {
    Waited(ws, es, k, l, n, c, idx) && TermAt(ws[l].nodes[n].log, idx) == ws[k].nodes[n].term
  }

  /**
   At any moment of any run, on any node that reaches the index given to a call, the term at that index tells exactly
   whether the call's own entry is there, with everything in front of it that its leader had.
   */
  lemma OwnEntryExactly(ws: seq<World>, es: seq<Event>, k: nat, n: NodeId, c: Call, idx: nat, l: nat, m: NodeId)
    requires IsRun(ws, es) && l <= |es| && Called(ws, es, k, n, c, idx) && m in ws[l].nodes
    requires |ws[l].nodes[m].log| >= idx
    ensures TermAt(ws[l].nodes[m].log, idx) == ws[k].nodes[n].term <==>
              OwnPrefix(ws[k].nodes[n], c) <= ws[l].nodes[m].log
  {
    CallsAreEvents(ws[k], n, c);
    var own, log := ws[k + 1].nodes[n].log, ws[l].nodes[m].log;
    assert own == OwnPrefix(ws[k].nodes[n], c);
    var h := HistoryAt(ws, es, |es|);
    NodeLogOk(ws, es, k + 1, n);
    NodeLogOk(ws, es, l, m);
    L.LogsMatch(h.logs, log, own);
    if log[idx - 1].term == own[idx - 1].term {
      assert Agree(log, own, idx);
    }
  }

  lemma NodeLogOk(ws: seq<World>, es: seq<Event>, k: nat, n: NodeId)
    requires IsRun(ws, es) && k <= |es| && n in ws[k].nodes
    ensures L.LogOk(HistoryAt(ws, es, |es|).logs, ws[k].nodes[n].log)
  {
    RunInv(ws, es, k);
    RunLater(ws, es, k, |es|);
    assert L.NodeOk(HistoryAt(ws, es, k).logs, ws[k].nodes[n]);
    L.LogOkGrow(HistoryAt(ws, es, k).logs, HistoryAt(ws, es, |es|).logs, ws[k].nodes[n].log);
  }

  lemma OwnEntryStays(ws: seq<World>, es: seq<Event>, k: nat, l: nat, n: NodeId)
    requires IsRun(ws, es) && k <= l <= |es| && n in ws[k].nodes && ws[k].nodes[n].role == Leader
    requires Leads(ws[l], n, ws[k].nodes[n].term)
    ensures ws[k].nodes[n].log <= ws[l].nodes[n].log
  {
    RunInv(ws, es, k);
    RunInv(ws, es, l);
    RunLater(ws, es, k, l);
    assert L.NodeOk(HistoryAt(ws, es, k).logs, ws[k].nodes[n]);
    assert L.NodeOk(HistoryAt(ws, es, l).logs, ws[l].nodes[n]);
  }

  /** A node that still leads the term of the call passes the test. */
  lemma LeadingIsEnough(ws: seq<World>, es: seq<Event>, k: nat, l: nat, n: NodeId, c: Call, idx: nat)
    requires IsRun(ws, es) && Waited(ws, es, k, l, n, c, idx) && Leads(ws[l], n, ws[k].nodes[n].term)
    ensures Returned(ws, es, k, l, n, c, idx)
  {
    CallsAreEvents(ws[k], n, c);
    OwnEntryStays(ws, es, k + 1, l, n);
    assert ws[k + 1].nodes[n].log[idx - 1].term == ws[k].nodes[n].term;
  }

  /**
   When the wait of a submit is over, whoever leads by then, its index is committed and applied; and its own command
   is the one at that index if and only if the term there is the one it was appended in.
   */
  lemma SubmitGuarantee(ws: seq<World>, es: seq<Event>, k: nat, l: nat, n: NodeId, c: Call, idx: nat)
    requires SteadyRun(ws, es) && Waited(ws, es, k, l, n, c, idx)
    ensures var x := ws[l].nodes[n];
            && 1 <= idx <= x.applied == x.commit <= |x.log| && x.db == ApplyAll(map[], x.log[..x.applied])
            && (Returned(ws, es, k, l, n, c, idx) <==> OwnPrefix(ws[k].nodes[n], c) <= x.log[..x.applied])
            && (Returned(ws, es, k, l, n, c, idx) ==> x.log[idx - 1] == Entry(ws[k].nodes[n].term, idx, Payload(c)))
  {
    hide Do, Guarded, Init, HistoryAt;
    var x := ws[l].nodes[n];
    AppliedIsFold(ws, es, l, n);
    CallsAreEvents(ws[k], n, c);
    OwnEntryExactly(ws, es, k, n, c, idx, l, n);
    PrefixWithin(OwnPrefix(ws[k].nodes[n], c), x.log, x.applied);
  }

  lemma PrefixWithin(own: seq<Entry>, log: seq<Entry>, i: nat)
    requires |own| <= i <= |log|
    ensures own <= log[..i] <==> own <= log
  {
    assert log[..i][..|own|] == log[..|own|];
  }

  /**
   What get answers: an error exactly when its node does not lead by then; otherwise the value of the key as of the
   node's applied prefix, which contains the NOOP appended for the get, behind everything its node held then, if and
   only if the term at its index is unchanged.
   */
  lemma GetGuarantee(ws: seq<World>, es: seq<Event>, k: nat, l: nat, n: NodeId, idx: nat, key: Bytes)
    requires SteadyRun(ws, es) && Waited(ws, es, k, l, n, GetCall, idx)
    ensures var x := ws[l].nodes[n];
            && idx <= x.applied <= |x.log|
            && (FinishGet(x, key) == None <==> !Leads(ws[l], n, x.term))
            && (FinishGet(x, key).Some? ==> ReadsBack(x.log[..x.applied], key, FinishGet(x, key).value))
            && (Returned(ws, es, k, l, n, GetCall, idx) <==>
                  OwnPrefix(ws[k].nodes[n], GetCall) <= x.log[..x.applied])
  {
    SubmitGuarantee(ws, es, k, l, n, GetCall, idx);
    GetReadsBack(ws[l].nodes[n].log[..ws[l].nodes[n].applied], key);
  }

  /**
   When a submit or get returns with its entry in place, everything any node had committed before the call lies in
   front of that entry: no node can hold an entry at that index before this leader made it.
   */
  lemma NothingBeyondOwnEntry(ws: seq<World>, es: seq<Event>, j: nat, m: NodeId,
                              k: nat, l: nat, n: NodeId, c: Call, idx: nat)
    requires SteadyRun(ws, es) && Returned(ws, es, k, l, n, c, idx) && j <= k && m in ws[j].nodes
    ensures var y := ws[j].nodes[m];
            y.commit < idx && Agree(ws[l].nodes[n].log, y.log, y.commit)
  {
    hide Do, Guarded, Init, HistoryAt;
    CallsAreEvents(ws[k], n, c);
    CommittedPrefixesAgree(ws, es, l, j, n, m);
    if ws[j].nodes[m].commit >= idx {
      AgreeAt(ws[l].nodes[n].log, ws[j].nodes[m].log, Min(ws[l].nodes[n].commit, ws[j].nodes[m].commit), idx - 1);
      AppearsAfterItsLeader(ws, es, j, m, k, n, idx);
      assert false;
    }
  }

  /** An entry of the term n leads cannot be anywhere before n's own log has reached its index. */
  lemma AppearsAfterItsLeader(ws: seq<World>, es: seq<Event>, j: nat, m: NodeId, k: nat, n: NodeId, idx: nat)
    requires IsRun(ws, es) && j <= k <= |es| && m in ws[j].nodes && 1 <= idx <= |ws[j].nodes[m].log|
    requires Leads(ws[k], n, ws[j].nodes[m].log[idx - 1].term)
    ensures idx <= |ws[k].nodes[n].log|
  {
    hide Do, Enabled, Init, HistoryAt;
    var i, leader := EntriesComeFromLeaders(ws, es, j, NodeLog(m), idx);
    ElectionSafety(ws, es, i, k, leader, n, ws[j].nodes[m].log[idx - 1].term);
    OwnEntryStays(ws, es, i, k, n);
  }

  /**
   Calls take effect in the order in which they do not overlap: of two calls that returned with their entries in
   place, the one called after the other had returned got the larger index, and its node has applied both.
   */
  lemma CallsInOrder(ws: seq<World>, es: seq<Event>, a: nat, b: nat, m: NodeId, first: Call, i: nat,
                     k: nat, l: nat, n: NodeId, second: Call, idx: nat)
    requires SteadyRun(ws, es) && b <= k
    requires Returned(ws, es, a, b, m, first, i) && Returned(ws, es, k, l, n, second, idx)
    ensures i < idx <= ws[l].nodes[n].applied <= |ws[l].nodes[n].log|
    ensures OwnPrefix(ws[a].nodes[m], first) <= OwnPrefix(ws[k].nodes[n], second)
    ensures OwnPrefix(ws[k].nodes[n], second) <= ws[l].nodes[n].log[..ws[l].nodes[n].applied]
  {
    hide Do, Enabled, Guarded, Init, OwnPrefix;
    var own, log := OwnPrefix(ws[a].nodes[m], first), ws[l].nodes[n].log;
    SubmitGuarantee(ws, es, a, b, m, first, i);
    SubmitGuarantee(ws, es, k, l, n, second, idx);
    NothingBeyondOwnEntry(ws, es, b, m, k, l, n, second, idx);
    CallsAreEvents(ws[a], m, first);
    CallsAreEvents(ws[k], n, second);
    PrefixWithin(own, ws[b].nodes[m].log, ws[b].nodes[m].applied);
    PrefixWithin(OwnPrefix(ws[k].nodes[n], second), log, ws[l].nodes[n].applied);
    Nested(own, ws[b].nodes[m].log, log, ws[b].nodes[m].commit, OwnPrefix(ws[k].nodes[n], second));
  }

  /** Two prefixes of one log, the first known through another log that agrees with it. */
  lemma Nested(own: seq<Entry>, other: seq<Entry>, log: seq<Entry>, i: nat, longer: seq<Entry>)
    requires own <= other && |own| <= i <= |longer| && Agree(log, other, i) && longer <= log
    ensures own <= longer
  {
    assert own == other[..i][..|own|] == log[..i][..|own|] == log[..|own|];
    assert longer[..|own|] == log[..|own|];
  }

  /** A get called after a submit has returned, on whatever nodes, reads a prefix with the submitted command. */
  lemma GetSeesEarlierSubmit(ws: seq<World>, es: seq<Event>, a: nat, b: nat, m: NodeId, c: Call, i: nat,
                             k: nat, l: nat, n: NodeId, idx: nat, key: Bytes)
    requires SteadyRun(ws, es) && b <= k
    requires Returned(ws, es, a, b, m, c, i) && Returned(ws, es, k, l, n, GetCall, idx)
    ensures ws[l].nodes[n].applied <= |ws[l].nodes[n].log|
    ensures var seen := ws[l].nodes[n].log[..ws[l].nodes[n].applied];
            && 1 <= i <= |seen| && seen[i - 1].cmd == Payload(c) && OwnPrefix(ws[a].nodes[m], c) <= seen
            && (FinishGet(ws[l].nodes[n], key).Some? ==> ReadsBack(seen, key, FinishGet(ws[l].nodes[n], key).value))
  {
    hide Do, Enabled, Guarded, Init, ReadsBack;
    CallsInOrder(ws, es, a, b, m, c, i, k, l, n, GetCall, idx);
    CallsAreEvents(ws[a], m, c);
    GetGuarantee(ws, es, k, l, n, idx, key);
  }

  /**
   A get never falls behind what any node, and so any get answered before it was called, had applied: it reads a
   longer prefix that agrees with it.
   */
  lemma GetSeesEarlierGet(ws: seq<World>, es: seq<Event>, b: nat, m: NodeId, k: nat, l: nat, n: NodeId, idx: nat,
                          key: Bytes)
    requires SteadyRun(ws, es) && Returned(ws, es, k, l, n, GetCall, idx) && b <= k && m in ws[b].nodes
    ensures var x, y := ws[l].nodes[n], ws[b].nodes[m];
            && y.applied < x.applied <= |x.log| && Agree(x.log, y.log, y.applied)
            && ReadsBack(y.log[..y.applied], key, Get(y.db, key)) && ReadsBack(x.log[..x.applied], key, Get(x.db, key))
  {
    hide Do, Enabled, Guarded, Init, ReadsBack;
    NothingBeyondOwnEntry(ws, es, b, m, k, l, n, GetCall, idx);
    SubmitGuarantee(ws, es, k, l, n, GetCall, idx);
    AppliedIsFold(ws, es, b, m);
    GetReadsBack(ws[b].nodes[m].log[..ws[b].nodes[m].applied], key);
    GetReadsBack(ws[l].nodes[n].log[..ws[l].nodes[n].applied], key);
  }
}
