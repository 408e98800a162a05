/**
 Invariant behind Leader Completeness, kept by every step in which a node sends only while leading and uses a positive
 reply only in the term it belongs to; restarts are allowed.

 An index of term t is choosable while some majority has confirmed it or could still do so. Every later leader starts
 with every choosable index, because its voters had them and voted for a log at least as up to date as their own.
 */
module CompletenessProof {
  import opened Types
  import opened Quorums
  import opened Logs
  import opened Nodes
  import opened Clusters
  import opened Histories
  import E = ElectionProof
  import L = LogProof

  function AckedBy(ids: set<NodeId>, h: History, t: nat, i: nat): set<NodeId> {
    set v | v in ids && AckOf(h, v, t) >= i
  }

  /** Nodes that have confirmed index i of term t, or have not left the term yet and still may. */
  function MayAck(w: World, h: History, t: nat, i: nat): set<NodeId> {
    set v | v in w.nodes && (AckOf(h, v, t) >= i || w.nodes[v].term <= t)
  }

  /** i is an index of the log of term t that holds an entry of term t. */
  ghost predicate OwnIndex(h: History, t: nat, i: nat) {
    t in h.logs && 1 <= i <= |h.logs[t]| && h.logs[t][i - 1].term == t
  }

  ghost predicate Choosable(w: World, h: History, t: nat, i: nat) {
    OwnIndex(h, t, i) && IsQuorum(w.nodes.Keys, MayAck(w, h, t, i))
  }

  /** A majority has confirmed an own index of term t: no later leader can be without it. */
  ghost predicate Chosen(ids: set<NodeId>, h: History, t: nat, i: nat) {
    OwnIndex(h, t, i) && IsQuorum(ids, AckedBy(ids, h, t, i))
  }

  ghost predicate SentByLeader(h: History, c: AppendCall) {
    && c in h.sent && c.req.term in h.reigns && h.reigns[c.req.term].leader == c.from
    && c.req.term in h.logs && h.sent[c] <= h.logs[c.req.term]
  }

  ghost predicate CallsOk(w: World, h: History) {
    forall c :: c in w.appendCalls ==> SentByLeader(h, c)
  }

  ghost predicate AckOk(w: World, h: History, s: Slot)
    requires s in h.acks
  {
    && s.node in w.nodes && s.term in h.logs && s.term <= w.nodes[s.node].term && h.acks[s] <= |h.logs[s.term]|
    && (s.term == w.nodes[s.node].term ==> Agree(w.nodes[s.node].log, h.logs[s.term], h.acks[s]))
  }

  ghost predicate AcksOk(w: World, h: History) {
    forall s :: s in h.acks ==> AckOk(w, h, s)
  }

  ghost predicate RepliesOk(w: World, h: History) {
    forall r :: r in w.appendReplies && r.resp.success ==>
      AckOf(h, r.call.to, r.call.req.term) >= r.call.req.prevIndex + |r.call.req.entries|
  }

  /** matchIndex is what peers have confirmed; nextIndex points into the log or just past it. */
  ghost predicate LeaderOk(h: History, n: NodeId, x: Node) {
    && |x.next| == |x.peers| && |x.matched| == |x.peers|
    && (forall j :: 0 <= j < |x.peers| ==> x.matched[j] <= AckOf(h, x.peers[j], x.term))
    && (forall j :: 0 <= j < |x.peers| ==> 1 <= x.next[j] <= |x.log| + 1)
    && AckOf(h, n, x.term) == |x.log|
  }

  ghost predicate LeadersOk(w: World, h: History) {
    forall n :: n in w.nodes && w.nodes[n].role == Leader ==> LeaderOk(h, n, w.nodes[n])
  }

  ghost predicate LaterLeadersHave(w: World, h: History) {
    forall t: nat, i: nat, u :: Choosable(w, h, t, i) && t < u && u in h.reigns ==> Agree(h.reigns[u].log, h.logs[t], i)
  }

  ghost predicate AckersHave(w: World, h: History) {
    forall t: nat, i: nat, v :: Choosable(w, h, t, i) && v in w.nodes && AckOf(h, v, t) >= i ==>
      Agree(w.nodes[v].log, h.logs[t], i)
  }

  ghost predicate BallotsHave(w: World, h: History) {
    forall t: nat, i: nat, s :: Choosable(w, h, t, i) && s in h.votes && t < s.term && AckOf(h, s.node, t) >= i ==>
      Agree(h.votes[s].log, h.logs[t], i)
  }

  ghost predicate Has(w: World, h: History) {
    LaterLeadersHave(w, h) && AckersHave(w, h) && BallotsHave(w, h)
  }

  ghost predicate Core(w: World, h: History) {
    CallsOk(w, h) && AcksOk(w, h) && RepliesOk(w, h) && Has(w, h)
  }

  ghost predicate Inv(w: World, h: History) {
    Core(w, h) && LeadersOk(w, h)
  }

  lemma InitInv(w: World)
    requires Init(w)
    ensures Inv(w, Blank)
  {
  }

  // ---- choosable indices only become fewer

  /** Terms rise; a new confirmation of term t comes from a node that had not left t. */
  ghost predicate Progress(w: World, h: History, w': World, h': History) {
    && w'.nodes.Keys == w.nodes.Keys && L.Grow(h.logs, h'.logs)
    && (forall v :: v in w.nodes ==> w.nodes[v].term <= w'.nodes[v].term)
    && (forall v, t: nat :: v in w.nodes && AckOf(h', v, t) > AckOf(h, v, t) ==> w.nodes[v].term <= t)
  }

  lemma ChoosableShrinks(w: World, h: History, w': World, h': History, t: nat, i: nat)
    requires Progress(w, h, w', h') && Choosable(w', h', t, i) && t in h.logs && i <= |h.logs[t]|
    ensures Choosable(w, h, t, i)
  {
    assert h'.logs[t][..|h.logs[t]|] == h.logs[t];
    assert h.logs[t][i - 1] == h'.logs[t][i - 1];
    QuorumGrows(w.nodes.Keys, MayAck(w', h', t, i), MayAck(w, h, t, i));
  }

  /** A chosen index is choosable for ever. */
  lemma ChosenIsChoosable(w: World, h: History, t: nat, i: nat)
    requires Chosen(w.nodes.Keys, h, t, i)
    ensures Choosable(w, h, t, i)
  {
    QuorumGrows(w.nodes.Keys, AckedBy(w.nodes.Keys, h, t, i), MayAck(w, h, t, i));
  }

  // ---- the election argument

  /** A log ending in an entry of term t is the log of term t up to there. */
  lemma LastTermOwns(h: History, log: seq<Entry>)
    requires L.LogOk(h.logs, log) && log != []
    ensures LastTerm(log) in h.logs && Agree(log, h.logs[LastTerm(log)], |log|)
  {
    assert L.EntryOk(h.logs, log, |log| - 1);
  }

  /** Terms never decrease along a log. */
  lemma TermsRise(h: History, log: seq<Entry>, i: nat)
    requires L.TermLogsOk(h) && L.LogOk(h.logs, log) && i < |log|
    ensures log[i].term <= LastTerm(log)
  {
    LastTermOwns(h, log);
    var t := LastTerm(log);
    assert L.TermLogOk(h.logs, t, h.reigns[t]);
    AgreeAt(log, h.logs[t], |log|, i);
    assert h.reigns[t].log == h.logs[t][..|h.reigns[t].log|];
  }

  /** A log at least as up to date as one that holds a choosable index holds it too. */
  lemma UpToDateHas(w: World, h: History, t: nat, i: nat, mine: seq<Entry>, theirs: seq<Entry>)
    requires L.TermLogsOk(h) && L.LogOk(h.logs, mine) && L.LogOk(h.logs, theirs) && UpToDate(mine, theirs)
    requires Choosable(w, h, t, i) && Agree(theirs, h.logs[t], i) && LaterLeadersHave(w, h)
    ensures Agree(mine, h.logs[t], i)
  {
    AgreeAt(theirs, h.logs[t], i, i - 1);
    TermsRise(h, theirs, i - 1);
    assert L.EntryOk(h.logs, theirs, i - 1);
    assert L.TermLogOk(h.logs, t, h.reigns[t]);
    LastTermOwns(h, mine);
    var u := LastTerm(mine);
    if u == t {
      AgreeDown(mine, h.logs[t], |mine|, i);
    } else {
      LaterLogHas(w, h, t, i, u, mine);
    }
  }

  lemma LaterLogHas(w: World, h: History, t: nat, i: nat, u: nat, mine: seq<Entry>)
    requires L.TermLogsOk(h) && Choosable(w, h, t, i) && LaterLeadersHave(w, h)
    requires t < u && u in h.logs && mine != [] && mine[|mine| - 1].term == u && Agree(mine, h.logs[u], |mine|)
    ensures Agree(mine, h.logs[t], i)
  {
    assert L.TermLogOk(h.logs, u, h.reigns[u]);
    AgreeAt(mine, h.logs[u], |mine|, |mine| - 1);
    assert Agree(h.reigns[u].log, h.logs[t], i);
    assert i <= |h.reigns[u].log|;
    assert h.reigns[u].log == h.logs[u][..|h.reigns[u].log|];
    assert |h.reigns[u].log| < |mine|;
    LaterTermLogHas(w, h, t, i, u);
    AgreeTrans(mine, h.logs[u], h.logs[t], |mine|, i);
  }

  /** Later leaders keep what they started with. */
  lemma LaterTermLogHas(w: World, h: History, t: nat, i: nat, u: nat)
    requires L.TermLogsOk(h) && Choosable(w, h, t, i) && LaterLeadersHave(w, h) && t < u && u in h.logs
    ensures Agree(h.logs[u], h.logs[t], i)
  {
    assert L.TermLogOk(h.logs, u, h.reigns[u]);
    assert Agree(h.reigns[u].log, h.logs[t], i);
    assert h.logs[u][..i] == h.reigns[u].log[..i];
  }

  // ---- what the election invariant contributes

  ghost predicate VotesInPast(w: World, h: History) {
    forall s :: s in h.votes ==> s.node in w.nodes && s.term <= w.nodes[s.node].term
  }

  ghost predicate VotersMovedOn(w: World, h: History) {
    forall u :: u in h.reigns ==>
      IsQuorum(w.nodes.Keys, h.reigns[u].voters) && forall v :: v in h.reigns[u].voters ==> w.nodes[v].term >= u
  }

  lemma VoteFacts(w: World, h: History)
    requires E.Inv(w, h)
    ensures VotesInPast(w, h) && VotersMovedOn(w, h)
  {
    forall s | s in h.votes ensures s.node in w.nodes && s.term <= w.nodes[s.node].term {
      assert E.BallotOk(w, h, s);
    }
    forall u, v | u in h.reigns && v in h.reigns[u].voters ensures w.nodes[v].term >= u {
      assert E.ReignOk(w.nodes.Keys, h, u, h.reigns[u]);
      assert E.VotedFor(h, v, u, h.reigns[u].leader);
      assert E.BallotOk(w, h, Slot(v, u));
    }
    forall u | u in h.reigns ensures IsQuorum(w.nodes.Keys, h.reigns[u].voters) {
      assert E.ReignOk(w.nodes.Keys, h, u, h.reigns[u]);
    }
  }

  // ---- a node changes, but not its log

  ghost predicate LightChange(w: World, w': World, n: NodeId) {
    && n in w.nodes && n in w'.nodes && w'.nodes == w.nodes[n := w'.nodes[n]]
    && w'.nodes[n].log == w.nodes[n].log && w.nodes[n].term <= w'.nodes[n].term
    && w'.appendCalls == w.appendCalls && w'.appendReplies == w.appendReplies
  }

  lemma LightKeepsHas(w: World, h: History, w': World, n: NodeId)
    requires Has(w, h) && LightChange(w, w', n)
    ensures Has(w', h)
  {
    assert w'.nodes.Keys == w.nodes.Keys;
    forall t: nat, i: nat | Choosable(w', h, t, i) ensures Choosable(w, h, t, i) {
      ChoosableShrinks(w, h, w', h, t, i);
    }
  }

  lemma LightKeepsCore(w: World, h: History, w': World, n: NodeId)
    requires Core(w, h) && LightChange(w, w', n)
    ensures Core(w', h)
  {
    LightKeepsHas(w, h, w', n);
    assert w'.nodes.Keys == w.nodes.Keys;
    forall s | s in h.acks ensures AckOk(w', h, s) {
      assert AckOk(w, h, s);
    }
  }

  lemma LightKeeps(w: World, h: History, w': World, n: NodeId)
    requires Inv(w, h) && LightChange(w, w', n) && (w'.nodes[n].role == Leader ==> LeaderOk(h, n, w'.nodes[n]))
    ensures Inv(w', h)
  {
    LightKeepsCore(w, h, w', n);
  }

  // ---- one more vote, reply, message, commit

  /** A ballot is cast with the voter's log, and the voter's log holds what the voter confirmed. */
  lemma BallotAdded(w: World, h: History, s: Slot, b: Ballot)
    requires Inv(w, h) && s.node in w.nodes && b.log == w.nodes[s.node].log
    ensures Inv(w, h.(votes := h.votes[s := b]))
  {
    var h' := h.(votes := h.votes[s := b]);
    forall t: nat, i: nat | Choosable(w, h', t, i) ensures Choosable(w, h, t, i) {
      assert MayAck(w, h', t, i) == MayAck(w, h, t, i);
    }
    forall s | s in h'.acks ensures AckOk(w, h', s) {
      assert AckOk(w, h, s);
    }
    SameAcks(w, h, h');
  }

  /** The parts that read only acks, logs, reigns and sent logs. */
  lemma SameAcks(w: World, h: History, h': History)
    requires Inv(w, h) && h' == h.(votes := h'.votes)
    ensures CallsOk(w, h') && AcksOk(w, h') && RepliesOk(w, h') && LeadersOk(w, h')
  {
    forall s | s in h'.acks ensures AckOk(w, h', s) {
      assert AckOk(w, h, s);
    }
    forall n | n in w.nodes && w.nodes[n].role == Leader ensures LeaderOk(h', n, w.nodes[n]) {
      assert LeaderOk(h, n, w.nodes[n]);
    }
    forall c | c in w.appendCalls ensures SentByLeader(h', c) {
      assert SentByLeader(h, c);
    }
  }

  lemma ReplyAdded(w: World, h: History, r: AppendReply)
    requires Inv(w, h)
    requires r.resp.success ==> AckOf(h, r.call.to, r.call.req.term) >= r.call.req.prevIndex + |r.call.req.entries|
    ensures Inv(w.(appendReplies := w.appendReplies + {r}), h)
  {
    var w' := w.(appendReplies := w.appendReplies + {r});
    forall s | s in h.acks ensures AckOk(w', h, s) {
      assert AckOk(w, h, s);
    }
    forall t: nat, i: nat | Choosable(w', h, t, i) ensures Choosable(w, h, t, i) {
      assert MayAck(w', h, t, i) == MayAck(w, h, t, i);
    }
  }

  lemma CallAdded(w: World, h: History, c: AppendCall, full: seq<Entry>)
    requires Inv(w, h) && c.req.term in h.reigns && h.reigns[c.req.term].leader == c.from
    requires c.req.term in h.logs && full <= h.logs[c.req.term]
    ensures Inv(w.(appendCalls := w.appendCalls + {c}), h.(sent := h.sent[c := full]))
  {
    hide IsQuorum;
    var w' := w.(appendCalls := w.appendCalls + {c});
    var h' := h.(sent := h.sent[c := full]);
    forall s | s in h'.acks ensures AckOk(w', h', s) {
      assert AckOk(w, h, s);
    }
    forall t: nat, i: nat | Choosable(w', h', t, i) ensures Choosable(w, h, t, i) {
      assert MayAck(w', h', t, i) == MayAck(w, h, t, i);
    }
    forall n | n in w.nodes && w.nodes[n].role == Leader ensures LeaderOk(h', n, w.nodes[n]) {
      assert LeaderOk(h, n, w.nodes[n]);
    }
    forall d | d in w'.appendCalls ensures SentByLeader(h', d) {
      if d != c {
        assert SentByLeader(h, d);
      }
    }
  }

  // ---- a node confirms more of its present leader's log

  lemma AckChange(h: History, v: NodeId, t: nat, upTo: nat)
    ensures var h' := Acked(h, v, t, upTo);
            && AckOf(h', v, t) == Max(AckOf(h, v, t), upTo)
            && forall u, s :: (u != v || s != t) ==> AckOf(h', u, s) == AckOf(h, u, s)
  {
  }

  lemma AckKeepsAcks(w: World, h: History, v: NodeId, t: nat, upTo: nat)
    requires AcksOk(w, h) && v in w.nodes && w.nodes[v].term == t && t in h.logs
             && Agree(w.nodes[v].log, h.logs[t], upTo)
    ensures AcksOk(w, Acked(h, v, t, upTo))
    ensures Agree(w.nodes[v].log, h.logs[t], AckOf(Acked(h, v, t, upTo), v, t))
  {
    var h' := Acked(h, v, t, upTo);
    assert Slot(v, t) in h.acks ==> AckOk(w, h, Slot(v, t));
    forall s | s in h'.acks ensures AckOk(w, h', s) {
      if s != Slot(v, t) {
        assert AckOk(w, h, s);
      }
    }
  }

  lemma AckKeepsHas(w: World, h: History, v: NodeId, t: nat, upTo: nat)
    requires Has(w, h) && VotesInPast(w, h) && AcksOk(w, h)
    requires v in w.nodes && w.nodes[v].term == t && t in h.logs && Agree(w.nodes[v].log, h.logs[t], upTo)
    ensures Has(w, Acked(h, v, t, upTo))
  {
    var h' := Acked(h, v, t, upTo);
    AckChange(h, v, t, upTo);
    AckKeepsAcks(w, h, v, t, upTo);
    forall r: nat, i: nat | Choosable(w, h', r, i) ensures Choosable(w, h, r, i) {
      ChoosableShrinks(w, h, w, h', r, i);
    }
    forall r: nat, i: nat, u | Choosable(w, h', r, i) && u in w.nodes && AckOf(h', u, r) >= i
      ensures Agree(w.nodes[u].log, h'.logs[r], i)
    {
      if u == v && r == t {
        AgreeDown(w.nodes[v].log, h.logs[t], AckOf(h', v, t), i);
      }
    }
  }

  lemma AckKeepsCore(w: World, h: History, v: NodeId, t: nat, upTo: nat)
    requires Core(w, h) && VotesInPast(w, h)
    requires v in w.nodes && w.nodes[v].term == t && t in h.logs && Agree(w.nodes[v].log, h.logs[t], upTo)
    ensures Core(w, Acked(h, v, t, upTo))
  {
    var h' := Acked(h, v, t, upTo);
    AckChange(h, v, t, upTo);
    AckKeepsAcks(w, h, v, t, upTo);
    AckKeepsHas(w, h, v, t, upTo);
    forall c | c in w.appendCalls ensures SentByLeader(h', c) {
      assert SentByLeader(h, c);
    }
  }

  lemma AckKeepsLeader(h: History, v: NodeId, t: nat, upTo: nat, n: NodeId, x: Node)
    requires LeaderOk(h, n, x) && (n == v && x.term == t ==> upTo <= |x.log|)
    ensures LeaderOk(Acked(h, v, t, upTo), n, x)
  {
    AckChange(h, v, t, upTo);
  }

  // ---- a node merges a message

  /** What the logs invariant says about an accepted message. */
  lemma MessageFits(w: World, h: History, c: AppendCall)
    requires L.Inv(w, h) && c in w.appendCalls && c.to in w.nodes && PrevOk(w.nodes[c.to].log, c.req)
    ensures c in h.sent && SuffixOf(h.sent[c], c.req.prevIndex, c.req.entries)
    ensures Matching(w.nodes[c.to].log, h.sent[c]) && Agree(w.nodes[c.to].log, h.sent[c], c.req.prevIndex)
    ensures |h.sent[c]| == c.req.prevIndex + |c.req.entries|
  {
    assert L.NodeOk(h.logs, w.nodes[c.to]);
    assert L.SentOk(h.logs, c.req, h.sent[c]);
    L.AcceptedFits(h.logs, w.nodes[c.to].log, c.req, h.sent[c]);
  }

  ghost predicate Merged(h: History, c: AppendCall, k: nat, x: Node, y: Node) {
    && c in h.sent && SuffixOf(h.sent[c], c.req.prevIndex, c.req.entries) && c.req.prevIndex <= |x.log|
    && c.req.term in h.logs && h.sent[c] <= h.logs[c.req.term] && k <= |c.req.entries|
    && y.log == MergeUpTo(x.log, c.req.prevIndex, c.req.entries, k) && y.term == c.req.term >= x.term
    && y.role != Leader
  }

  /** Whatever the node shared with the sender's term log it still shares. */
  lemma MergedKeeps(h: History, c: AppendCall, k: nat, x: Node, y: Node, i: nat)
    requires Merged(h, c, k, x, y) && Agree(x.log, h.logs[c.req.term], i)
    ensures Agree(y.log, h.logs[c.req.term], i)
  {
    MergeKeepsAll(x.log, h.sent[c], h.logs[c.req.term], c.req.prevIndex, c.req.entries, k, i);
  }

  lemma MergeKeepsAcks(w: World, h: History, c: AppendCall, k: nat, y: Node)
    requires AcksOk(w, h) && c.to in w.nodes && Merged(h, c, k, w.nodes[c.to], y)
    ensures AcksOk(Put(w, c.to, y), h)
  {
    var w' := Put(w, c.to, y);
    forall s | s in h.acks ensures AckOk(w', h, s) {
      assert AckOk(w, h, s);
      if s.node == c.to && s.term == y.term {
        MergedKeeps(h, c, k, w.nodes[c.to], y, h.acks[s]);
      }
    }
  }

  /** A confirmed choosable index survives a message of any later leader, who has it as well. */
  lemma MergeKeepsChoosable(w: World, h: History, c: AppendCall, k: nat, y: Node, t: nat, i: nat)
    requires LaterLeadersHave(w, h) && AckersHave(w, h) && AcksOk(w, h) && L.TermLogsOk(h)
    requires c.to in w.nodes && Merged(h, c, k, w.nodes[c.to], y)
    requires Choosable(w, h, t, i) && AckOf(h, c.to, t) >= i
    ensures Agree(y.log, h.logs[t], i)
  {
    var x := w.nodes[c.to];
    var u := c.req.term;
    assert AckOk(w, h, Slot(c.to, t));
    assert Agree(x.log, h.logs[t], i);
    if u == t {
      MergedKeeps(h, c, k, x, y, i);
    } else {
      LaterTermLogHas(w, h, t, i, u);
      assert Agree(x.log, h.logs[u], i);
      MergedKeeps(h, c, k, x, y, i);
    }
  }

  lemma MergeKeepsHas(w: World, h: History, c: AppendCall, k: nat, y: Node)
    requires Has(w, h) && AcksOk(w, h) && L.TermLogsOk(h) && c.to in w.nodes && Merged(h, c, k, w.nodes[c.to], y)
    ensures Has(Put(w, c.to, y), h)
  {
    var w' := Put(w, c.to, y);
    assert w'.nodes.Keys == w.nodes.Keys;
    forall t: nat, i: nat | Choosable(w', h, t, i) ensures Choosable(w, h, t, i) {
      ChoosableShrinks(w, h, w', h, t, i);
    }
    forall t: nat, i: nat, v | Choosable(w', h, t, i) && v in w'.nodes && AckOf(h, v, t) >= i
      ensures Agree(w'.nodes[v].log, h.logs[t], i)
    {
      if v == c.to {
        MergeKeepsChoosable(w, h, c, k, y, t, i);
      }
    }
  }

  lemma MergeKeepsInv(w: World, h: History, c: AppendCall, k: nat, y: Node)
    requires Inv(w, h) && L.TermLogsOk(h) && c.to in w.nodes && Merged(h, c, k, w.nodes[c.to], y)
    ensures Inv(Put(w, c.to, y), h)
  {
    var w' := Put(w, c.to, y);
    assert w'.nodes.Keys == w.nodes.Keys;
    MergeKeepsAcks(w, h, c, k, y);
    MergeKeepsHas(w, h, c, k, y);
  }

  /** The whole merge makes the node agree with everything the message stands for. */
  lemma MergeConfirms(w: World, h: History, c: AppendCall, y: Node)
    requires L.Inv(w, h) && c in w.appendCalls && c.to in w.nodes && PrevOk(w.nodes[c.to].log, c.req)
    requires Merged(h, c, |c.req.entries|, w.nodes[c.to], y)
    ensures Agree(y.log, h.logs[c.req.term], c.req.prevIndex + |c.req.entries|)
  {
    MessageFits(w, h, c);
    var _ := MergeOutcome(w.nodes[c.to].log, h.sent[c], c.req.prevIndex, c.req.entries, |c.req.entries|);
    AgreePrefix(y.log, h.sent[c], h.logs[c.req.term], |h.sent[c]|);
  }

  // ---- the log of a term gets a new entry

  /** The change of history before the leader's own confirmation is recorded. */
  ghost predicate TermLogGrows(w: World, h: History, n: NodeId, y: Node, h': History) {
    && n in w.nodes && y.term == w.nodes[n].term && w.nodes[n].log <= y.log
    && h' == h.(logs := h.logs[y.term := y.log], reigns := h'.reigns)
    && L.Grow(h.logs, h'.logs) && h'.logs[y.term] == y.log
    && (forall u :: u in h.reigns ==> u in h'.reigns && h'.reigns[u] == h.reigns[u])
    && (forall u :: u in h'.reigns && u !in h.reigns ==> u == y.term && h'.reigns[u].log == w.nodes[n].log)
    && (y.term in h.logs ==> y.term in h.reigns)
  }

  /** An entry just created cannot be choosable next to an elected later leader. */
  lemma NewIndexNotChoosable(w: World, h: History, n: NodeId, y: Node, h': History, i: nat, u: nat)
    requires AcksOk(w, h) && VotersMovedOn(w, h) && TermLogGrows(w, h, n, y, h')
    requires u in h.reigns && y.term < u
    requires y.term in h.logs ==> i > |h.logs[y.term]|
    ensures !Choosable(Put(w, n, y), h', y.term, i)
  {
    var w' := Put(w, n, y);
    if Choosable(w', h', y.term, i) {
      assert w'.nodes.Keys == w.nodes.Keys;
      var v := QuorumsMeet(w.nodes.Keys, MayAck(w', h', y.term, i), h.reigns[u].voters);
      assert false;
    }
  }

  lemma GrowKeepsLaterLeader(w: World, h: History, n: NodeId, y: Node, h': History, t: nat, i: nat, u: nat)
    requires LaterLeadersHave(w, h) && AcksOk(w, h) && VotersMovedOn(w, h) && TermLogGrows(w, h, n, y, h')
    requires Choosable(Put(w, n, y), h', t, i) && t < u && u in h'.reigns
    requires u !in h.reigns && Choosable(w, h, t, i) ==> Agree(w.nodes[n].log, h.logs[t], i)
    ensures Agree(h'.reigns[u].log, h'.logs[t], i)
  {
    hide MayAck, AcksOk, VotersMovedOn, IsQuorum;
    assert Put(w, n, y).nodes.Keys == w.nodes.Keys;
    if t in h.logs && i <= |h.logs[t]| {
      ChoosableShrinks(w, h, Put(w, n, y), h', t, i);
      AgreePrefix(h'.reigns[u].log, h.logs[t], h'.logs[t], i);
    } else if u in h.reigns {
      NewIndexNotChoosable(w, h, n, y, h', i, u);
    }
  }

  lemma GrowKeepsLaterLeaders(w: World, h: History, n: NodeId, y: Node, h': History)
    requires LaterLeadersHave(w, h) && AcksOk(w, h) && VotersMovedOn(w, h) && TermLogGrows(w, h, n, y, h')
    requires y.term !in h.reigns ==>
      forall t: nat, i: nat :: Choosable(w, h, t, i) && t < y.term ==> Agree(w.nodes[n].log, h.logs[t], i)
    ensures LaterLeadersHave(Put(w, n, y), h')
  {
    forall t: nat, i: nat, u | Choosable(Put(w, n, y), h', t, i) && t < u && u in h'.reigns
      ensures Agree(h'.reigns[u].log, h'.logs[t], i)
    {
      GrowKeepsLaterLeader(w, h, n, y, h', t, i, u);
    }
  }

  /** An index somebody has confirmed was there before, and was choosable before. */
  lemma AckedIsOld(w: World, h: History, n: NodeId, y: Node, h': History, t: nat, i: nat, v: NodeId)
    requires AcksOk(w, h) && TermLogGrows(w, h, n, y, h')
    requires Choosable(Put(w, n, y), h', t, i) && AckOf(h, v, t) >= i
    ensures Choosable(w, h, t, i)
  {
    hide IsQuorum;
    assert AckOk(w, h, Slot(v, t));
    assert Put(w, n, y).nodes.Keys == w.nodes.Keys;
    ChoosableShrinks(w, h, Put(w, n, y), h', t, i);
  }

  lemma GrowKeepsAckers(w: World, h: History, n: NodeId, y: Node, h': History)
    requires AckersHave(w, h) && AcksOk(w, h) && TermLogGrows(w, h, n, y, h')
    ensures AckersHave(Put(w, n, y), h')
  {
    var w' := Put(w, n, y);
    forall t: nat, i: nat, v | Choosable(w', h', t, i) && v in w'.nodes && AckOf(h', v, t) >= i
      ensures Agree(w'.nodes[v].log, h'.logs[t], i)
    {
      AckedIsOld(w, h, n, y, h', t, i, v);
      AgreePrefix(w.nodes[v].log, h.logs[t], h'.logs[t], i);
      assert v == n ==> y.log[..i] == w.nodes[n].log[..i];
    }
  }

  lemma GrowKeepsBallots(w: World, h: History, n: NodeId, y: Node, h': History)
    requires BallotsHave(w, h) && AcksOk(w, h) && TermLogGrows(w, h, n, y, h')
    ensures BallotsHave(Put(w, n, y), h')
  {
    var w' := Put(w, n, y);
    forall t: nat, i: nat, s | Choosable(w', h', t, i) && s in h'.votes && t < s.term && AckOf(h', s.node, t) >= i
      ensures Agree(h'.votes[s].log, h'.logs[t], i)
    {
      AckedIsOld(w, h, n, y, h', t, i, s.node);
      AgreePrefix(h.votes[s].log, h.logs[t], h'.logs[t], i);
    }
  }

  lemma GrowKeepsAcks(w: World, h: History, n: NodeId, y: Node, h': History)
    requires AcksOk(w, h) && TermLogGrows(w, h, n, y, h')
    ensures AcksOk(Put(w, n, y), h')
  {
    var w' := Put(w, n, y);
    forall s | s in h'.acks ensures AckOk(w', h', s) {
      assert AckOk(w, h, s);
      if s.term == w'.nodes[s.node].term {
        AgreePrefix(w.nodes[s.node].log, h.logs[s.term], h'.logs[s.term], h.acks[s]);
      }
    }
  }

  lemma GrowKeepsCore(w: World, h: History, n: NodeId, y: Node, h': History)
    requires Core(w, h) && VotersMovedOn(w, h) && TermLogGrows(w, h, n, y, h')
    requires y.term !in h.reigns ==>
      forall t: nat, i: nat :: Choosable(w, h, t, i) && t < y.term ==> Agree(w.nodes[n].log, h.logs[t], i)
    ensures Core(Put(w, n, y), h')
  {
    hide LaterLeadersHave, AckersHave, BallotsHave, AcksOk, VotersMovedOn, Choosable;
    var w' := Put(w, n, y);
    assert w'.nodes.Keys == w.nodes.Keys;
    GrowKeepsAcks(w, h, n, y, h');
    GrowKeepsLaterLeaders(w, h, n, y, h');
    GrowKeepsAckers(w, h, n, y, h');
    GrowKeepsBallots(w, h, n, y, h');
    forall c | c in w'.appendCalls ensures SentByLeader(h', c) {
      assert SentByLeader(h, c);
    }
  }

  /** A leader's append: its term log grows, then it confirms its own log. */
  lemma AppendKeeps(w: World, h: History, n: NodeId, y: Node, g: History)
    requires Inv(w, h) && VotersMovedOn(w, h) && VotesInPast(w, h) && TermLogGrows(w, h, n, y, g)
    requires y.term !in h.reigns ==>
      forall t: nat, i: nat :: Choosable(w, h, t, i) && t < y.term ==> Agree(w.nodes[n].log, h.logs[t], i)
    requires y.role == Leader && AckOf(h, n, y.term) <= |y.log|
    requires LeaderOk(Acked(g, n, y.term, |y.log|), n, y)
    ensures Inv(Put(w, n, y), Acked(g, n, y.term, |y.log|))
  {
    hide Core, VotersMovedOn, LeaderOk;
    var w' := Put(w, n, y);
    GrowKeepsCore(w, h, n, y, g);
    AckKeepsCore(w', g, n, y.term, |y.log|);
    OtherLeadersKeep(w, h, n, y, g);
  }

  lemma OtherLeadersKeep(w: World, h: History, n: NodeId, y: Node, g: History)
    requires LeadersOk(w, h) && g.acks == h.acks && n in w.nodes
    ensures forall m :: m in w.nodes && m != n && w.nodes[m].role == Leader ==>
              LeaderOk(Acked(g, n, y.term, |y.log|), m, w.nodes[m])
  {
    forall m | m in w.nodes && m != n && w.nodes[m].role == Leader
      ensures LeaderOk(Acked(g, n, y.term, |y.log|), m, w.nodes[m])
    {
      assert LeaderOk(h, m, w.nodes[m]);
      assert LeaderOk(g, m, w.nodes[m]);
      AckKeepsLeader(g, n, y.term, |y.log|, m, w.nodes[m]);
    }
  }

  lemma ClientAppendKeeps(w: World, h: History, n: NodeId, cmd: Command)
    requires Inv(w, h) && VotersMovedOn(w, h) && VotesInPast(w, h)
    requires n in w.nodes && w.nodes[n].role == Leader && w.nodes[n].id == n
    requires w.nodes[n].term in h.logs && h.logs[w.nodes[n].term] == w.nodes[n].log && w.nodes[n].term in h.reigns
    ensures Inv(Put(w, n, AppendOwn(w.nodes[n], cmd)), Extended(h, AppendOwn(w.nodes[n], cmd)))
  {
    var x := w.nodes[n];
    var y := AppendOwn(x, cmd);
    var g := h.(logs := h.logs[y.term := y.log]);
    assert LeaderOk(h, n, x);
    AckChange(g, n, y.term, |y.log|);
    AppendKeeps(w, h, n, y, g);
  }

  /** The winner of an election holds every choosable index of every earlier term. */
  lemma WinnerHas(w: World, h: History, n: NodeId, t: nat, i: nat)
    requires E.Inv(w, h) && L.Inv(w, h) && Has(w, h) && n in w.nodes && w.nodes[n].role == Candidate
    requires IsQuorum(w.nodes.Keys, Supporters(w, h, n, w.nodes[n].term))
    requires Choosable(w, h, t, i) && t < w.nodes[n].term
    ensures Agree(w.nodes[n].log, h.logs[t], i)
  {
    var x := w.nodes[n];
    var v := QuorumsMeet(w.nodes.Keys, MayAck(w, h, t, i), Supporters(w, h, n, x.term));
    var s := Slot(v, x.term);
    assert E.BallotOk(w, h, s);
    assert E.RoleOk(h, n, x);
    assert Agree(h.votes[s].log, h.logs[t], i);
    assert L.BallotLogOk(h.logs, s, h.votes[s]);
    assert L.NodeOk(h.logs, x);
    UpToDateHas(w, h, t, i, x.log, h.votes[s].log);
  }

  lemma WinnerHasAll(w: World, h: History, n: NodeId)
    requires E.Inv(w, h) && L.Inv(w, h) && Has(w, h) && n in w.nodes && w.nodes[n].role == Candidate
    requires IsQuorum(w.nodes.Keys, Supporters(w, h, n, w.nodes[n].term))
    ensures forall t: nat, i: nat ::
              Choosable(w, h, t, i) && t < w.nodes[n].term ==> Agree(w.nodes[n].log, h.logs[t], i)
  {
    forall t: nat, i: nat | Choosable(w, h, t, i) && t < w.nodes[n].term ensures Agree(w.nodes[n].log, h.logs[t], i) {
      WinnerHas(w, h, n, t, i);
    }
  }

  lemma WinKeeps(w: World, h: History, n: NodeId, voters: set<NodeId>)
    requires Inv(w, h) && VotersMovedOn(w, h) && VotesInPast(w, h) && L.TermLogsOk(h)
    requires n in w.nodes && w.nodes[n].election.Some? && Wins(w.nodes[n]) && w.nodes[n].id == n
    requires w.nodes[n].term !in h.reigns
    requires forall t: nat, i: nat ::
               Choosable(w, h, t, i) && t < w.nodes[n].term ==> Agree(w.nodes[n].log, h.logs[t], i)
    ensures var x := w.nodes[n];
            Inv(Put(w, n, Tally(x)), Extended(h.(reigns := h.reigns[x.term := Reign(n, voters, x.log)]), Tally(x)))
  {
    hide Has, VotersMovedOn, VotesInPast, RepliesOk, CallsOk;
    var x := w.nodes[n];
    var y := Tally(x);
    var g := h.(logs := h.logs[y.term := y.log], reigns := h.reigns[x.term := Reign(n, voters, x.log)]);
    forall s | s in h.acks ensures s.term in h.logs {
      assert AckOk(w, h, s);
    }
    AckChange(g, n, y.term, |y.log|);
    AppendKeeps(w, h, n, y, g);
  }

  // ---- the leader hears from a peer

  /** The peers counted by the scan have confirmed the index. */
  lemma {:induction false} CountedPeersAcked(h: History, x: Node, connected: seq<bool>, idx: nat, k: nat)
    requires |x.matched| == |x.peers| == |connected| && k <= |x.peers| && Distinct(x.peers)
    requires forall j :: 0 <= j < |x.peers| ==> x.matched[j] <= AckOf(h, x.peers[j], x.term)
    ensures Count(connected, x.matched, idx, k) <= |AckedBy(Elems(x.peers[..k]), h, x.term, idx)|
  {
    if k > 0 {
      CountedPeersAcked(h, x, connected, idx, k - 1);
      var before := AckedBy(Elems(x.peers[..k - 1]), h, x.term, idx);
      var after := AckedBy(Elems(x.peers[..k]), h, x.term, idx);
      var p := x.peers[k - 1];
      assert x.peers[..k][k - 1] == p;
      assert forall i | 0 <= i < k - 1 :: x.peers[..k][i] == x.peers[..k - 1][i];
      assert before <= after;
      SubsetSize(before, after);
      assert p !in before;
      if connected[k - 1] && x.matched[k - 1] >= idx {
        SubsetSize(before + {p}, after);
      }
    }
  }

  lemma MajorityAcked(ids: set<NodeId>, h: History, n: NodeId, x: Node, connected: seq<bool>, idx: nat)
    requires n in ids && Distinct(x.peers) && Elems(x.peers) == ids - {n} && LeaderOk(h, n, x)
    requires |connected| == |x.matched| && idx <= |x.log| && HeldByMajority(x, connected, idx)
    ensures IsQuorum(ids, AckedBy(ids, h, x.term, idx))
  {
    CountedPeersAcked(h, x, connected, idx, |x.peers|);
    assert x.peers[..|x.peers|] == x.peers;
    ClusterSize(ids, n, x.peers);
    var peers := AckedBy(Elems(x.peers), h, x.term, idx);
    assert n !in peers;
    SubsetSize(peers + {n}, AckedBy(ids, h, x.term, idx));
  }

  lemma AcknowledgedOk(h: History, n: NodeId, x: Node, slot: nat, req: AppendReq)
    requires LeaderOk(h, n, x) && slot < |x.peers|
    requires req.prevIndex + |req.entries| <= AckOf(h, x.peers[slot], x.term) <= |x.log|
    ensures LeaderOk(h, n, Acknowledged(x, slot, req))
  {
  }

  lemma BackOffOk(h: History, n: NodeId, x: Node, slot: nat, req: AppendReq)
    requires LeaderOk(h, n, x) && slot < |x.peers|
    ensures LeaderOk(h, n, BackOff(x, slot, req)) && LeaderOk(h, n, AppendLost(x, slot, req))
  {
  }

  /** A positive reply used in its own term: the node that gave it still backs the number it stands for. */
  lemma ReplyIsSound(w: World, h: History, r: AppendReply)
    requires Inv(w, h) && L.NodesOk(w, h) && r in w.appendReplies && r.resp.success && r.call.from in w.nodes
    requires w.nodes[r.call.from].role == Leader && w.nodes[r.call.from].term == r.call.req.term
    ensures r.call.req.prevIndex + |r.call.req.entries| <= AckOf(h, r.call.to, r.call.req.term)
    ensures AckOf(h, r.call.to, r.call.req.term) <= |w.nodes[r.call.from].log|
  {
    assert L.NodeOk(h.logs, w.nodes[r.call.from]);
    assert Slot(r.call.to, r.call.req.term) in h.acks ==> AckOk(w, h, Slot(r.call.to, r.call.req.term));
  }

  ghost predicate UsesReply(x: Node, r: AppendReply) {
    r.resp.term <= x.term && r.resp.success && r.call.req.entries != []
  }

  lemma AnsweredLeaderOk(w: World, h: History, r: AppendReply, connected: seq<bool>, y: Node)
    requires Inv(w, h) && L.NodesOk(w, h) && Enabled(w, AppendAnswered(r, connected))
    requires Guarded(w, AppendAnswered(r, connected))
    requires y == AppendReplied(w.nodes[r.call.from], r.call.slot, r.call.req, r.resp, connected)
    requires w.nodes[r.call.from].id == r.call.from
    ensures y.log == w.nodes[r.call.from].log && w.nodes[r.call.from].term <= y.term
    ensures y.role == Leader ==> LeaderOk(h, r.call.from, y)
    ensures y.commit != w.nodes[r.call.from].commit ==> UsesReply(w.nodes[r.call.from], r)
  {
    var x := w.nodes[r.call.from];
    if x.role == Leader {
      assert LeaderOk(h, r.call.from, x);
      if UsesReply(x, r) {
        ReplyIsSound(w, h, r);
        AcknowledgedOk(h, r.call.from, x, r.call.slot, r.call.req);
      } else {
        BackOffOk(h, r.call.from, x, r.call.slot, r.call.req);
      }
    }
  }

  /** What a scan commits has been confirmed by a majority in the leader's own term. */
  lemma ScanCommitsQuorum(w: World, h: History, r: AppendReply, connected: seq<bool>)
    requires Wired(w) && Inv(w, h) && L.NodesOk(w, h) && Enabled(w, AppendAnswered(r, connected))
    requires Guarded(w, AppendAnswered(r, connected)) && UsesReply(w.nodes[r.call.from], r)
    ensures var x := w.nodes[r.call.from];
            var y := AppendReplied(x, r.call.slot, r.call.req, r.resp, connected);
            y.commit > x.commit ==> Chosen(w.nodes.Keys, h, x.term, y.commit)
  {
    hide Core, LeaderOk, Scan, IsQuorum;
    var x := w.nodes[r.call.from];
    var z := Acknowledged(x, r.call.slot, r.call.req);
    ReplyIsSound(w, h, r);
    assert LeaderOk(h, r.call.from, x) && L.NodeOk(h.logs, x);
    AcknowledgedOk(h, r.call.from, x, r.call.slot, r.call.req);
    ScanIsGreatest(z, connected);
    var c := Scan(z, connected, z.commit + 1, z.commit);
    if c > x.commit {
      MajorityAcked(w.nodes.Keys, h, r.call.from, z, connected, c);
    }
  }

  lemma AnsweredKeeps(w: World, h: History, r: AppendReply, connected: seq<bool>)
    requires Wired(w) && Inv(w, h) && L.NodesOk(w, h) && Enabled(w, AppendAnswered(r, connected))
    requires Guarded(w, AppendAnswered(r, connected))
    ensures Inv(Do(w, AppendAnswered(r, connected)), Track(w, h, AppendAnswered(r, connected)))
  {
    var y := AppendReplied(w.nodes[r.call.from], r.call.slot, r.call.req, r.resp, connected);
    AnsweredLeaderOk(w, h, r, connected, y);
    LightKeeps(w, h, Put(w, r.call.from, y), r.call.from);
  }

  // ---- every step

  lemma HandledKeeps(w: World, h: History, c: AppendCall)
    requires L.Inv(w, h) && Inv(w, h) && VotesInPast(w, h) && Enabled(w, AppendHandled(c))
    ensures Inv(Do(w, AppendHandled(c)), Track(w, h, AppendHandled(c)))
  {
    hide Core, L.Inv, VotesInPast, Merge, LightChange, LeaderOk;
    var x := w.nodes[c.to];
    var (y, resp) := HandleAppend(x, c.req);
    var w1 := Put(w, c.to, y);
    if resp.success {
      AcceptKeeps(w, h, c, y);
    } else {
      HandledIsLight(w, h, c);
      LightKeeps(w, h, w1, c.to);
    }
    ReplyAdded(w1, Track(w, h, AppendHandled(c)), AppendReply(c, resp));
  }

  lemma HandledIsLight(w: World, h: History, c: AppendCall)
    requires Enabled(w, AppendHandled(c)) && LeadersOk(w, h) && !HandleAppend(w.nodes[c.to], c.req).1.success
    ensures var y := HandleAppend(w.nodes[c.to], c.req).0;
            LightChange(w, Put(w, c.to, y), c.to) && (y.role == Leader ==> LeaderOk(h, c.to, y))
  {
  }

  lemma AcceptedIsMerged(w: World, h: History, c: AppendCall, k: nat, y: Node)
    requires L.Inv(w, h) && CallsOk(w, h) && c in w.appendCalls && c.to in w.nodes && k <= |c.req.entries|
    requires c.req.term >= w.nodes[c.to].term && PrevOk(w.nodes[c.to].log, c.req)
    requires y.log == MergeUpTo(w.nodes[c.to].log, c.req.prevIndex, c.req.entries, k)
    requires y.term == c.req.term && y.role != Leader
    ensures Merged(h, c, k, w.nodes[c.to], y)
  {
    MessageFits(w, h, c);
    assert SentByLeader(h, c);
  }

  lemma AcceptKeeps(w: World, h: History, c: AppendCall, y: Node)
    requires L.Inv(w, h) && Inv(w, h) && VotesInPast(w, h) && c in w.appendCalls && c.to in w.nodes
    requires c.req.term >= w.nodes[c.to].term && PrevOk(w.nodes[c.to].log, c.req)
    requires y.log == Merge(w.nodes[c.to].log, c.req.prevIndex, c.req.entries)
    requires y.term == c.req.term && y.role == Follower
    ensures var h' := Acked(h, c.to, c.req.term, c.req.prevIndex + |c.req.entries|);
            Inv(Put(w, c.to, y), h') && AckOf(h', c.to, c.req.term) >= c.req.prevIndex + |c.req.entries|
  {
    hide AcksOk, RepliesOk, Has, MergeUpTo;
    var upTo := c.req.prevIndex + |c.req.entries|;
    var w1 := Put(w, c.to, y);
    AcceptedIsMerged(w, h, c, |c.req.entries|, y);
    MergeKeepsInv(w, h, c, |c.req.entries|, y);
    MergeConfirms(w, h, c, y);
    AckChange(h, c.to, c.req.term, upTo);
    AckKeepsCore(w1, h, c.to, c.req.term, upTo);
    forall n | n in w1.nodes && w1.nodes[n].role == Leader
      ensures LeaderOk(Acked(h, c.to, c.req.term, upTo), n, w1.nodes[n])
    {
      AckKeepsLeader(h, c.to, c.req.term, upTo, n, w1.nodes[n]);
    }
  }

  lemma CrashMergingKeeps(w: World, h: History, c: AppendCall, k: nat)
    requires L.Inv(w, h) && Inv(w, h) && Enabled(w, CrashMerging(c, k))
    ensures Inv(Do(w, CrashMerging(c, k)), h)
  {
    var y := CrashInMerge(w.nodes[c.to], c.req, k);
    AcceptedIsMerged(w, h, c, k, y);
    MergeKeepsInv(w, h, c, k, y);
  }

  lemma SendKeeps(w: World, h: History, n: NodeId, slot: nat)
    requires L.NodesOk(w, h) && Inv(w, h) && Enabled(w, SendAppend(n, slot)) && w.nodes[n].role == Leader
    requires w.nodes[n].term in h.reigns && h.reigns[w.nodes[n].term].leader == n
    ensures Inv(Do(w, SendAppend(n, slot)), Track(w, h, SendAppend(n, slot)))
  {
    var x := w.nodes[n];
    assert L.NodeOk(h.logs, x);
    CallAdded(w, h, AppendCall(n, x.peers[slot], slot, AppendRequest(x, slot)), x.log);
  }

  /** A step that leaves every log and every message alone, and casts at most one ballot with the node's own log. */
  ghost predicate VoteChange(w: World, h: History, w': World, h': History, n: NodeId, s: Slot, b: Ballot) {
    && LightChange(w, w', n) && (w'.nodes[n].role == Leader ==> LeaderOk(h, n, w'.nodes[n]))
    && (h' == h || (h' == h.(votes := h.votes[s := b]) && s.node == n && b.log == w.nodes[n].log))
  }

  lemma VoteChangeKeeps(w: World, h: History, w': World, h': History, n: NodeId, s: Slot, b: Ballot)
    requires Inv(w, h) && VoteChange(w, h, w', h', n, s, b)
    ensures Inv(w', h')
  {
    if h' != h {
      BallotAdded(w, h, s, b);
    }
    assert w'.nodes[n].role == Leader ==> LeaderOk(h', n, w'.nodes[n]);
    LightKeeps(w, h', w', n);
  }

  lemma VoteStepShape(w: World, h: History, ev: Event) returns (n: NodeId, s: Slot, b: Ballot)
    requires Enabled(w, ev) && LeadersOk(w, h) && (ev.StartElectionAt? || ev.VoteHandled?)
    ensures VoteChange(w, h, Do(w, ev), Track(w, h, ev), n, s, b)
  {
    hide CandidateLogOk;
    match ev
    case StartElectionAt(m) =>
      n, s, b := m, Slot(m, w.nodes[m].term + 1), Ballot(m, w.nodes[m].log);
    case VoteHandled(c) =>
      n, s, b := c.to, Slot(c.to, c.req.term), Ballot(c.req.candidate, w.nodes[c.to].log);
      if w.nodes[n].role == Leader {
        assert LeaderOk(h, n, w.nodes[n]);
      }
  }

  ghost predicate IsLight(w: World, ev: Event)
    requires Enabled(w, ev)
  {
    ev.AskVote? || ev.VoteAnswered? || ev.VoteUnanswered? || ev.AppendUnanswered?
    || ev.RestartAt? || ev.CrashAtTerm? || ev.CrashAdopting? || (ev.TallyAt? && !Wins(w.nodes[ev.n]))
  }

  lemma LightHistory(w: World, h: History, ev: Event)
    requires Enabled(w, ev) && IsLight(w, ev)
    ensures Track(w, h, ev) == h
  {
  }

  lemma RestartIsLight(w: World, h: History, ev: Event)
    requires Enabled(w, ev) && (ev.RestartAt? || ev.CrashAtTerm? || ev.CrashAdopting?)
    ensures LightChange(w, Do(w, ev), ev.n) && Do(w, ev).nodes[ev.n].role != Leader
  {
  }

  /** Steps that leave every log and every message alone. */
  lemma StepIsLight(w: World, h: History, ev: Event) returns (n: NodeId)
    requires Enabled(w, ev) && LeadersOk(w, h)
    requires IsLight(w, ev)
    ensures LightChange(w, Do(w, ev), n)
    ensures Do(w, ev).nodes[n].role == Leader ==> LeaderOk(h, n, Do(w, ev).nodes[n])
  {
    hide Scan, ApplyCommitted, Restart;
    if IsRestart(ev) {
      n := ev.n;
      RestartIsLight(w, h, ev);
    } else {
      n := QuietIsLight(w, h, ev);
    }
  }

  lemma QuietIsLight(w: World, h: History, ev: Event) returns (n: NodeId)
    requires Enabled(w, ev) && LeadersOk(w, h)
    requires IsLight(w, ev) && !IsRestart(ev)
    ensures LightChange(w, Do(w, ev), n)
    ensures Do(w, ev).nodes[n].role == Leader ==> LeaderOk(h, n, Do(w, ev).nodes[n])
  {
    hide Scan, ApplyCommitted;
    match ev
    case AskVote(m) =>
      n := m;
      assert w.nodes[m := w.nodes[m]] == w.nodes;
    case VoteAnswered(r) => n := r.call.from;
    case VoteUnanswered(m) => n := m;
    case TallyAt(m) => n := m;
    case AppendUnanswered(c) =>
      n := c.from;
      if w.nodes[n].role == Leader {
        BackOffOk(h, n, w.nodes[n], c.slot, c.req);
      }
  }

  lemma LeaderFacts(w: World, h: History, n: NodeId)
    requires E.Inv(w, h) && L.Inv(w, h) && n in w.nodes && w.nodes[n].role == Leader
    ensures w.nodes[n].id == n && w.nodes[n].term in h.reigns && h.reigns[w.nodes[n].term].leader == n
    ensures w.nodes[n].term in h.logs && h.logs[w.nodes[n].term] == w.nodes[n].log
  {
    assert E.RoleOk(h, n, w.nodes[n]);
    assert L.NodeOk(h.logs, w.nodes[n]);
  }

  lemma TallyKeeps(w: World, h: History, n: NodeId)
    requires E.Inv(w, h) && L.Inv(w, h) && Inv(w, h) && Enabled(w, TallyAt(n)) && Wins(w.nodes[n])
    ensures Inv(Do(w, TallyAt(n)), Track(w, h, TallyAt(n)))
  {
    VoteFacts(w, h);
    L.WinnerFacts(w, h, n);
    E.WinnerHasQuorum(w, h, n);
    WinnerHasAll(w, h, n);
    WinKeeps(w, h, n, Supporters(w, h, n, w.nodes[n].term));
  }

  lemma LeaderStepKeeps(w: World, h: History, ev: Event)
    requires E.Inv(w, h) && L.Inv(w, h) && Inv(w, h) && Enabled(w, ev) && Guarded(w, ev)
    requires ev.ClientAppend? || ev.SendAppend?
    ensures Inv(Do(w, ev), Track(w, h, ev))
  {
    LeaderFacts(w, h, ev.n);
    VoteFacts(w, h);
    if ev.ClientAppend? {
      ClientAppendKeeps(w, h, ev.n, ev.cmd);
    } else {
      SendKeeps(w, h, ev.n, ev.slot);
    }
  }

  lemma FollowerStepKeeps(w: World, h: History, ev: Event)
    requires E.Inv(w, h) && L.Inv(w, h) && Inv(w, h) && Enabled(w, ev) && (ev.AppendHandled? || ev.CrashMerging?)
    ensures Inv(Do(w, ev), Track(w, h, ev))
  {
    VoteFacts(w, h);
    if ev.AppendHandled? {
      HandledKeeps(w, h, ev.acall);
    } else {
      CrashMergingKeeps(w, h, ev.acall, ev.kept);
    }
  }

  lemma LightStepKeeps(w: World, h: History, ev: Event)
    requires Inv(w, h) && Enabled(w, ev) && IsLight(w, ev)
    ensures Inv(Do(w, ev), Track(w, h, ev))
  {
    hide Core, LightChange;
    var n := StepIsLight(w, h, ev);
    LightHistory(w, h, ev);
    LightKeeps(w, h, Do(w, ev), n);
  }

  lemma StepKeeps(w: World, h: History, ev: Event)
    requires E.Inv(w, h) && L.Inv(w, h) && Inv(w, h) && Enabled(w, ev) && Guarded(w, ev)
    ensures Inv(Do(w, ev), Track(w, h, ev))
  {
    if ev.StartElectionAt? || ev.VoteHandled? {
      var n, s, b := VoteStepShape(w, h, ev);
      VoteChangeKeeps(w, h, Do(w, ev), Track(w, h, ev), n, s, b);
    } else if ev.ClientAppend? || ev.SendAppend? {
      LeaderStepKeeps(w, h, ev);
    } else if ev.AppendHandled? || ev.CrashMerging? {
      FollowerStepKeeps(w, h, ev);
    } else if ev.AppendAnswered? {
      AnsweredKeeps(w, h, ev.areply, ev.connected);
    } else if ev.TallyAt? && Wins(w.nodes[ev.n]) {
      TallyKeeps(w, h, ev.n);
    } else {
      LightStepKeeps(w, h, ev);
    }
  }
}
