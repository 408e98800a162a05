/** What every event of every run does to the node it concerns, and that it touches nothing else. */
module Reactions {
  import opened Types
  import opened Logs
  import opened Nodes
  import opened Clusters
  import opened Histories
  import opened Runs
  import opened Effects
  import L = LogProof
  import C = CompletenessProof

  /** The node an event concerns. */
  function Actor(ev: Event): NodeId {
    match ev
    case StartElectionAt(n) => n
    case AskVote(n) => n
    case VoteHandled(c) => c.to
    case VoteAnswered(r) => r.call.from
    case VoteUnanswered(n) => n
    case TallyAt(n) => n
    case ClientAppend(n, _) => n
    case SendAppend(n, _) => n
    case AppendHandled(c) => c.to
    case AppendAnswered(r, _) => r.call.from
    case AppendUnanswered(c) => c.from
    case RestartAt(n) => n
    case CrashAtTerm(n, _) => n
    case CrashAdopting(n, _) => n
    case CrashMerging(c, _) => c.to
  }

  /** The term an event brings to the node's attention. */
  function NewsOfTerm(ev: Event, x: Node): nat {
    match ev
    case StartElectionAt(_) => x.term + 1
    case VoteHandled(c) => c.req.term
    case VoteAnswered(r) => r.resp.term
    case AppendHandled(c) => c.req.term
    case AppendAnswered(r, _) => r.resp.term
    case CrashAtTerm(_, t) => t
    case CrashAdopting(_, t) => t
    case CrashMerging(c, _) => c.req.term
    case _ => 0
  }

  /** Fields an event may change besides term, vote and role. */
  ghost predicate FramesKept(ev: Event, x: Node, y: Node) {
    && y.id == x.id && y.peers == x.peers
    && (ev.TallyAt? || ev.ClientAppend? || ev.AppendHandled? || ev.CrashMerging? || y.log == x.log)
    && (ev.AppendHandled? || ev.AppendAnswered? || IsRestart(ev)
        || (y.commit == x.commit && y.applied == x.applied && y.db == x.db))
    && (ev.TallyAt? || ev.AppendAnswered? || ev.AppendUnanswered? || IsRestart(ev)
        || (y.next == x.next && y.matched == x.matched))
    && (ev.StartElectionAt? || ev.VoteAnswered? || ev.VoteUnanswered? || ev.TallyAt? || IsRestart(ev)
        || y.election == x.election)
  }

  /** How term, vote and role may change. */
  ghost predicate OfficeKept(ev: Event, x: Node, y: Node) {
    && y.term == Max(x.term, NewsOfTerm(ev, x))
    && (y.term > x.term ==>
          if ev.StartElectionAt? then y.role == Candidate && y.voted == Some(x.id)
          else && y.role == Follower
               && (y.voted == None || (ev.VoteHandled? && y.voted == Some(ev.vcall.req.candidate))
                   || (ev.CrashAtTerm? && y.voted == x.voted)))
    && (y.term == x.term ==>
          && (y.voted == x.voted
              || (ev.VoteHandled? && x.voted == None && y.voted == Some(ev.vcall.req.candidate)))
          && (y.role == x.role || (ev.TallyAt? && x.role == Candidate && y.role == Leader)
              || (y.role == Follower && (IsRestart(ev) || (ev.AppendHandled? && ev.acall.req.term == x.term)))))
  }

  ghost predicate Reacts(w: World, ev: Event)
    requires Enabled(w, ev)
  {
    var n := Actor(ev);
    && n in w.nodes && Do(w, ev).nodes == w.nodes[n := Do(w, ev).nodes[n]]
    && FramesKept(ev, w.nodes[n], Do(w, ev).nodes[n]) && OfficeKept(ev, w.nodes[n], Do(w, ev).nodes[n])
  }

  lemma ElectionReacts(w: World, ev: Event)
    requires Wired(w) && Enabled(w, ev)
    requires ev.StartElectionAt? || ev.AskVote? || ev.VoteHandled? || ev.VoteAnswered? || ev.VoteUnanswered?
             || ev.TallyAt?
    ensures Reacts(w, ev)
  {
    hide CandidateLogOk;
    if ev.AskVote? {
      assert w.nodes[ev.n := w.nodes[ev.n]] == w.nodes;
    }
  }

  lemma LeaderReacts(w: World, ev: Event)
    requires Enabled(w, ev) && (ev.ClientAppend? || ev.SendAppend? || ev.AppendAnswered? || ev.AppendUnanswered?)
    ensures Reacts(w, ev)
  {
    hide Scan;
    if ev.SendAppend? {
      assert w.nodes[ev.n := w.nodes[ev.n]] == w.nodes;
    }
  }

  lemma FollowerReacts(w: World, ev: Event)
    requires Enabled(w, ev) && (ev.AppendHandled? || IsRestart(ev))
    ensures Reacts(w, ev)
  {
    hide Merge, MergeUpTo;
  }

  /** In every run, an event concerns one node and changes only the fields that are its business. */
  lemma EveryEventReacts(ws: seq<World>, es: seq<Event>, k: nat)
    requires IsRun(ws, es) && k < |es|
    ensures Reacts(ws[k], es[k])
  {
    hide Do, Enabled, Init, Reacts;
    RunInv(ws, es, k);
    var ev := es[k];
    if ev.AppendHandled? || IsRestart(ev) {
      FollowerReacts(ws[k], ev);
    } else if ev.ClientAppend? || ev.SendAppend? || ev.AppendAnswered? || ev.AppendUnanswered? {
      LeaderReacts(ws[k], ev);
    } else {
      ElectionReacts(ws[k], ev);
    }
  }

  /**
   In every run, a node that has processed a reply is in no earlier term than the reply; if the reply's term was later,
   the node follows in exactly that term without a vote, and has no election going after a vote reply.
   */
  lemma RepliesAreHeeded(ws: seq<World>, es: seq<Event>, k: nat)
    requires IsRun(ws, es) && k < |es| && (es[k].VoteAnswered? || es[k].AppendAnswered?)
    ensures var n := Actor(es[k]);
            var t := NewsOfTerm(es[k], ws[k].nodes[n]);
            && n in ws[k].nodes && n in ws[k + 1].nodes
            && var x, y := ws[k].nodes[n], ws[k + 1].nodes[n];
            && t <= y.term
            && (t > x.term ==> y.term == t && y.role == Follower && y.voted == None
                               && (es[k].VoteAnswered? ==> y.election == None))
            && (t <= x.term ==> y.term == x.term && y.voted == x.voted && y.role == x.role)
  {
    hide Init, AdvanceCommit;
    if es[k].VoteAnswered? {
      VoteReplyExactly(ws[k].nodes[es[k].vreply.call.from], es[k].vreply.resp);
    } else {
      EveryEventReacts(ws, es, k);
      var r := es[k].areply;
      var x := ws[k].nodes[r.call.from];
      if r.resp.term > x.term {
        LaterReplyExactly(x, r.call.slot, r.call.req, r.resp, es[k].connected);
      }
    }
  }

  /**
   In every run, after a reply that confirms entries, the peer counts up to the last of them and every index of the
   leader's term that more than half of the cluster, as connected, is known to hold is committed and applied.
   */
  lemma MajorityReplyCommits(ws: seq<World>, es: seq<Event>, k: nat, r: AppendReply, connected: seq<bool>)
    requires IsRun(ws, es) && k < |es| && es[k] == AppendAnswered(r, connected)
    requires r.resp.success && r.call.req.entries != [] && r.resp.term <= ws[k].nodes[r.call.from].term
    ensures r.call.from in ws[k + 1].nodes
    ensures var x, y := ws[k].nodes[r.call.from], ws[k + 1].nodes[r.call.from];
            && |y.matched| == |connected| && y.matched[r.call.slot] >= r.call.req.prevIndex + |r.call.req.entries|
            && forall i: nat | 1 <= i <= |x.log| && x.log[i - 1].term == x.term
                               && MoreThanHalf(x, |Holders(connected, y.matched, i, |connected|)|) ::
                 y.commit >= i && (y.applied >= i || x.commit >= i)
  {
    hide Init, AppendReplied;
    var x := ws[k].nodes[r.call.from];
    ConfirmationExactly(x, r.call.slot, r.call.req, r.resp, connected);
    ConfirmationApplies(x, r.call.slot, r.call.req, r.resp, connected);
  }

  lemma ConfirmationApplies(n: Node, slot: nat, req: AppendReq, resp: AppendResp, connected: seq<bool>)
    requires slot < |n.next| && slot < |n.matched| && |connected| == |n.matched| && resp.term <= n.term
    requires resp.success && req.entries != []
    ensures var m := AppendReplied(n, slot, req, resp, connected); m.commit > n.commit ==> m.applied >= m.commit
  {
    hide AdvanceCommit;
    AdvancesFully(Acknowledged(n, slot, req), connected);
  }

  /** Every handled call is answered, and the answer carries the term its node is in by then. */
  lemma AnswersAreTruthful(w: World, ev: Event)
    requires Enabled(w, ev)
    ensures ev.VoteHandled? ==>
              exists resp :: VoteReply(ev.vcall, resp) in Do(w, ev).voteReplies
                             && resp.term == Do(w, ev).nodes[ev.vcall.to].term
                             && (resp.granted ==> Do(w, ev).nodes[ev.vcall.to].voted == Some(ev.vcall.req.candidate)
                                                  && resp.term == ev.vcall.req.term)
    ensures ev.AppendHandled? ==>
              exists resp :: AppendReply(ev.acall, resp) in Do(w, ev).appendReplies
                             && resp.term == Do(w, ev).nodes[ev.acall.to].term
  {
    hide Merge, CandidateLogOk, ApplyCommitted;
    if ev.VoteHandled? {
      var resp := HandleVote(w.nodes[ev.vcall.to], ev.vcall.req).1;
      assert VoteReply(ev.vcall, resp) in Do(w, ev).voteReplies;
    }
    if ev.AppendHandled? {
      HandledExactly(w.nodes[ev.acall.to], ev.acall.req);
      var resp := HandleAppend(w.nodes[ev.acall.to], ev.acall.req).1;
      assert AppendReply(ev.acall, resp) in Do(w, ev).appendReplies;
    }
  }

  /**
   In every run, a message is accepted exactly when its term is not over and the node's log agrees with the log the
   message was cut from up to prevLogIndex.
   */
  lemma AcceptedExactly(ws: seq<World>, es: seq<Event>, k: nat, c: AppendCall) returns (j: nat)
    requires IsRun(ws, es) && k < |es| && es[k] == AppendHandled(c)
    ensures j < k && es[j].SendAppend? && es[j].n == c.from && c.from in ws[j].nodes && c.to in ws[k].nodes
    ensures c.req.leaderCommit == ws[j].nodes[c.from].commit && c.req.term == ws[j].nodes[c.from].term
    ensures HandleAppend(ws[k].nodes[c.to], c.req).1.success <==>
              && c.req.term >= ws[k].nodes[c.to].term
              && Agree(ws[k].nodes[c.to].log, ws[j].nodes[c.from].log, c.req.prevIndex)
  {
    var h := HistoryAt(ws, es, k);
    RunInv(ws, es, k);
    assert L.SentOk(h.logs, c.req, h.sent[c]);
    j := SentFrom(ws, es, k, c);
    PrevOkExactly(ws[k], h, c);
  }

  lemma PrevOkExactly(w: World, h: History, c: AppendCall)
    requires L.Inv(w, h) && c in w.appendCalls && c.to in w.nodes && c in h.sent
    ensures PrevOk(w.nodes[c.to].log, c.req) <==> Agree(w.nodes[c.to].log, h.sent[c], c.req.prevIndex)
  {
    var log, full, prev := w.nodes[c.to].log, h.sent[c], c.req.prevIndex;
    assert L.SentOk(h.logs, c.req, full) && L.NodeOk(h.logs, w.nodes[c.to]);
    if PrevOk(log, c.req) {
      L.AcceptedFits(h.logs, log, c.req, full);
    } else if Agree(log, full, prev) {
      AgreeAt(log, full, prev, prev - 1);
      assert false;
    }
  }
}
