/**
 RaftNode as the program has it: an object that updates its fields and its store step by step, with the conflict,
 append, commit-scan and apply loops. Every action is proved to compute the function of the same name in Nodes.
 */
module RaftNodes {
  import opened Types
  import opened Integers
  import opened Codec
  import opened Rpc
  import opened Logs
  import opened StateMachines
  import opened Storages
  import N = Nodes

  // ---- from records to log entries

  predicate Decodable(e: RawEntry) { DecodeCommand(e.command).Some? }

  function CommandOf(e: RawEntry): Command {
    if Decodable(e) then DecodeCommand(e.command).value else NoopCommand
  }

  function EntryOf(e: RawEntry): Entry { Entry(e.term, e.index, CommandOf(e)) }

  function EntriesOf(es: seq<RawEntry>): (r: seq<Entry>)
    ensures |r| == |es| && forall i :: 0 <= i < |es| ==> r[i] == EntryOf(es[i])
  {
    seq(|es|, i requires 0 <= i < |es| => EntryOf(es[i]))
  }

  ghost predicate AllDecodable(es: seq<RawEntry>) {
    forall i :: 0 <= i < |es| ==> Decodable(es[i])
  }

  lemma EntriesOfSlice(es: seq<RawEntry>, a: nat, b: nat)
    requires a <= b <= |es|
    ensures EntriesOf(es[a..b]) == EntriesOf(es)[a..b]
  {
  }

  lemma EntriesOfSnoc(es: seq<RawEntry>, e: RawEntry)
    ensures EntriesOf(es + [e]) == EntriesOf(es) + [EntryOf(e)]
  {
  }

  function RequestOf(m: WireAppend): AppendReq {
    AppendReq(m.term, m.leaderId, m.prevIndex, m.prevTerm, m.leaderCommit, EntriesOf(m.entries))
  }

  /** A message as other nodes build it: intact, decodable records numbered on from prevLogIndex. */
  ghost predicate GoodMessage(m: WireAppend) {
    && m.term < U64 && AllGood(m.entries) && AllDecodable(m.entries)
    && forall i :: 0 <= i < |m.entries| ==> m.entries[i].index == m.prevIndex + 1 + i
  }

  // ---- votedFor is kept as text

  function Decimal(n: nat): (b: Bytes)
    ensures b != []
  {
    if n < 10 then [ByteOf(48 + n)] else Decimal(n / 10) + [ByteOf(48 + n % 10)]
  }

  function ParseDecimal(b: Bytes): nat {
    if b == [] then 0
    else
      var d := ValueOf(b[|b| - 1]);
      10 * ParseDecimal(b[..|b| - 1]) + if d >= 48 then d - 48 else 0
  }

  lemma {:induction false} DecimalRoundTrip(n: nat)
    ensures ParseDecimal(Decimal(n)) == n
  {
    hide ByteOf, ValueOf, ParseDecimal;
    var d := n % 10;
    ByteRoundTrip(48 + d);
    assert (48 + d) % 256 == 48 + d;
    if n >= 10 {
      DecimalRoundTrip(n / 10);
      ParseSnoc(Decimal(n / 10), ByteOf(48 + d));
    } else {
      ParseSnoc([], ByteOf(48 + d));
      assert [] + [ByteOf(48 + d)] == [ByteOf(48 + d)];
      ParseNothing();
    }
  }

  lemma ParseNothing()
    ensures ParseDecimal([]) == 0
  {
  }

  lemma ParseSnoc(b: Bytes, x: bv8)
    ensures ParseDecimal(b + [x]) == 10 * ParseDecimal(b) + if ValueOf(x) >= 48 then ValueOf(x) - 48 else 0
  {
    hide ValueOf;
    assert (b + [x])[..|b|] == b;
  }

  lemma {:induction false} DecimalLength(n: nat, k: nat)
    requires 1 <= k && n < Pow10(k)
    ensures |Decimal(n)| <= k
    decreases k
  {
    if n >= 10 {
      DecimalLength(n / 10, k - 1);
    }
  }

  function Pow10(k: nat): nat {
    if k == 0 then 1 else 10 * Pow10(k - 1)
  }

  lemma DecimalFits(n: nat)
    requires n < U64
    ensures |Decimal(n)| < U32
  {
    assert Pow10(5) == 100000;
    assert Pow10(10) == 10000000000;
    assert Pow10(15) == 1000000000000000;
    assert Pow10(20) == 100000000000000000000;
    DecimalLength(n, 20);
  }

  function VoteOf(text: Bytes): Option<NodeId> {
    if text == [] then None else Some(ParseDecimal(text))
  }

  /** The text of a vote is empty or the decimal form of an id, so comparing texts is comparing ids. */
  ghost predicate VoteText(text: Bytes) {
    text == [] || text == Decimal(ParseDecimal(text))
  }

  lemma NoVote()
    ensures VoteText([]) && VoteOf([]) == None
  {
  }

  lemma SameVote(text: Bytes, id: nat)
    requires VoteText(text)
    ensures text == Decimal(id) <==> VoteOf(text) == Some(id)
    ensures VoteText(Decimal(id)) && VoteOf(Decimal(id)) == Some(id)
  {
    DecimalRoundTrip(id);
  }

  // ---- the object

  class RaftNode {
    const id: NodeId
    const peers: seq<NodeId>
    const store: Storage
    var role: N.Role
    var next: seq<nat>
    var matched: seq<nat>
    var db: Database
    var election: Option<N.Election>   // the local variables of a running startElection

    ghost predicate Valid()
      reads this, store
    {
      store.Valid() && AllDecodable(store.log) && VoteText(store.voted) && id < U64
    }

    /** The node as a value. */
    ghost function Abs(): N.Node
      reads this, store
    {
      N.Node(id, peers, store.term, VoteOf(store.voted), EntriesOf(store.log), role, store.commitIndex,
             store.lastApplied, db, next, matched, election)
    }

    /** A new process on an existing store: replay applies every record and counts it as committed. */
    constructor (id: NodeId, peers: seq<NodeId>, store: Storage)
      requires store.Valid() && AllDecodable(store.log) && VoteText(store.voted) && id < U64
      requires store.commitIndex == 0 && store.lastApplied == 0
      modifies store
      ensures Valid() && this.id == id && this.peers == peers && this.store == store
      ensures Abs() == N.Restart(Abs())
      ensures store.log == old(store.log) && store.term == old(store.term) && store.voted == old(store.voted)
    {
      hide WellFormed, EncodeMeta, EntriesOf, AllDecodable, VoteOf, VoteText, ApplyAll;
      this.id, this.peers, this.store := id, peers, store;
      role, next, matched, db, election := N.Follower, [], [], map[], None;
      new;
      var entries := store.ReadAll();
      LastTermAgrees(entries);
      db := ApplyEntries(map[], entries);
      if entries != [] {
        LastIndex(store.file, entries);
        store.lastApplied := entries[|entries| - 1].index;
        store.commitIndex := entries[|entries| - 1].index;
      }
    }

    static lemma LastIndex(file: Bytes, es: seq<RawEntry>)
      requires WellFormed(file, es) && es != []
      ensures es[|es| - 1].index == |es|
    {
    }

    /** The apply loop of replay and applyCommitted. */
    static method ApplyEntries(db: Database, entries: seq<RawEntry>) returns (r: Database)
      ensures r == ApplyAll(db, EntriesOf(entries))
    {
      r := db;
      for i := 0 to |entries|
        invariant r == ApplyAll(db, EntriesOf(entries)[..i])
      {
        ApplyNext(db, EntriesOf(entries), i);
        r := Apply(r, CommandOf(entries[i]));
      }
      assert EntriesOf(entries)[..|entries|] == EntriesOf(entries);
    }

    static lemma ApplyNext(db: Database, es: seq<Entry>, i: nat)
      requires i < |es|
      ensures ApplyAll(db, es[..i + 1]) == Apply(ApplyAll(db, es[..i]), es[i].cmd)
    {
      assert es[..i + 1][..i] == es[..i];
    }

    // ---- elections

    method BeginElection()
      requires Valid() && store.term + 1 < U64
      modifies this, store
      ensures Valid() && Abs() == N.StartElection(old(Abs()))
    {
      hide WellFormed, EncodeMeta, Decimal, VoteOf, VoteText, EntriesOf, AllDecodable, LastTermOf, LastTerm;
      LastTermAgrees(store.log);
      NoVote();
      SameVote([], id);
      DecimalFits(id);
      role := N.Candidate;
      store.SetTerm(store.term + 1);
      store.SetVoted(Decimal(id));
      election := Some(N.Election(VoteReq(store.term, id, store.logLength, store.lastLogTerm), 0, 1));
    }

    method HandleRequestVote(req: VoteReq) returns (resp: VoteResp)
      requires Valid() && req.term < U64 && req.candidate < U64
      modifies this, store
      ensures Valid() && (Abs(), resp) == N.HandleVote(old(Abs()), req)
    {
      hide WellFormed, EncodeMeta, Decimal, ParseDecimal, EntriesOf, AllDecodable;
      resp := VoteResp(store.term, false);
      if req.term < store.term {
        return;
      }
      if req.term > store.term {
        AdoptTerm(req.term);
        resp := VoteResp(req.term, false);
      }
      SameVote(store.voted, req.candidate);
      LastTermAgrees(store.log);
      var logOk := req.lastTerm > store.lastLogTerm
                   || (req.lastTerm == store.lastLogTerm && req.lastIndex >= store.logLength);
      if (store.voted == [] || store.voted == Decimal(req.candidate)) && logOk {
        DecimalFits(req.candidate);
        store.SetVoted(Decimal(req.candidate));
        resp := VoteResp(resp.term, true);
      }
    }

    static lemma LastTermAgrees(es: seq<RawEntry>)
      ensures LastTermOf(es) == LastTerm(EntriesOf(es)) && |EntriesOf(es)| == |es|
    {
    }

    method AdoptTerm(term: nat)
      requires Valid() && term < U64
      modifies this, store
      ensures Valid() && Abs() == N.AdoptTerm(old(Abs()), term)
    {
      hide WellFormed, EncodeMeta, EntriesOf, AllDecodable, VoteOf, VoteText;
      NoVote();
      store.SetTerm(term);
      role := N.Follower;
      store.SetVoted([]);
    }

    method CountVote(resp: VoteResp)
      requires Valid() && election.Some? && resp.term < U64
      modifies this, store
      ensures Valid() && Abs() == N.VoteReplied(old(Abs()), resp)
    {
      hide WellFormed, EncodeMeta, Decimal, ParseDecimal, EntriesOf, AllDecodable, VoteOf;
      var e := election.value;
      if resp.term > store.term {
        AdoptTerm(resp.term);
        election := None;
      } else if resp.granted {
        election := Some(e.(pos := e.pos + 1, votes := e.votes + 1));
      } else {
        election := Some(e.(pos := e.pos + 1));
      }
    }

    method FinishElection()
      requires Valid() && election.Some? && store.logLength + 1 < U64
      modifies this, store
      ensures Valid() && Abs() == N.Tally(old(Abs()))
    {
      hide WellFormed, EncodeMeta, EntriesOf, AllDecodable, VoteOf;
      var majority := (|peers| + 1) / 2 + 1;
      if election.value.votes >= majority && role == N.Candidate {
        BecomeLeader();
      }
      election := None;
    }

    method BecomeLeader()
      requires Valid() && store.logLength + 1 < U64
      modifies this, store
      ensures Valid() && Abs() == N.BecomeLeader(old(Abs()))
    {
      hide WellFormed, EncodeMeta, EntriesOf, AllDecodable, VoteOf, VoteText;
      LastTermAgrees(store.log);
      role := N.Leader;
      var last := store.logLength;
      next := seq(|peers|, i => last + 1);
      matched := seq(|peers|, i => 0);
      NoopIsStored();
      AppendCommand(NoopCommand);
    }

    /** The append of becomeLeader, submit and get. A key or value over 65535 bytes is stored as Codec.Stored says. */
    method AppendCommand(cmd: Command)
      requires Valid() && store.logLength + 1 < U64 && 5 + |cmd.key| + |cmd.value| < U32
      modifies store
      ensures Valid() && Abs() == N.AppendOwn(old(Abs()), Stored(cmd))
    {
      hide WellFormed, EncodeMeta, FileStep, EncodeCommand, DecodeCommand, Stored, Verify, MakeEntry, EntriesOf, VoteOf,
           VoteText;
      var e := MakeEntry(store.term, store.logLength + 1, cmd);
      CommandRoundTrip(cmd);
      CommandLength(cmd);
      EntriesOfSnoc(store.log, e);
      store.Append(e);
    }

    static lemma NoopIsStored()
      ensures Stored(NoopCommand) == NoopCommand
    {
    }

    static lemma CommandLength(cmd: Command)
      requires 5 + |cmd.key| + |cmd.value| < U32
      ensures |EncodeCommand(cmd)| < U32
    {
    }

    method CountConnected(connected: seq<bool>) returns (count: nat)
      ensures count == N.UpCount(connected, |connected|)
    {
      count := 0;
      for j := 0 to |connected|
        invariant count == N.UpCount(connected, j)
      {
        if connected[j] {
          count := count + 1;
        }
      }
    }

    /** submit up to the point where it waits: the two errors it throws, or the index it waits for. */
    method Submit(cmd: Command, connected: seq<bool>) returns (r: N.Submission)
      requires Valid() && store.logLength + 1 < U64 && 5 + |cmd.key| + |cmd.value| < U32
      modifies store
      ensures Valid() && (Abs(), r) == N.Submit(old(Abs()), Stored(cmd), connected)
    {
      hide WellFormed, EncodeMeta, EntriesOf, AllDecodable, VoteOf, VoteText, N.AppendOwn, N.UpCount;
      LastTermAgrees(store.log);
      if role != N.Leader {
        return N.NotLeader;
      }
      var up := CountConnected(connected);
      if up < (|peers| + 1) / 2 {
        return N.NotEnoughPeers;
      }
      var idx := store.logLength + 1;
      AppendCommand(cmd);
      return N.Waiting(idx);
    }

    /** The end of submit, once its index is committed. */
    method FinishSubmit()
      requires Valid()
      modifies this`db, store
      ensures Valid() && Abs() == N.ApplyCommitted(old(Abs()))
    {
      ApplyCommitted();
    }

    method StartGet() returns (r: N.Submission)
      requires Valid() && store.logLength + 1 < U64
      modifies store
      ensures Valid() && (Abs(), r) == N.StartGet(old(Abs()))
    {
      hide WellFormed, EncodeMeta, EntriesOf, AllDecodable, VoteOf, VoteText, N.AppendOwn;
      LastTermAgrees(store.log);
      if role != N.Leader {
        return N.NotLeader;
      }
      var idx := store.logLength + 1;
      NoopIsStored();
      AppendCommand(NoopCommand);
      return N.Waiting(idx);
    }

    /** The end of get, once its index is committed: None stands for the error it throws. */
    method FinishGet(key: Bytes) returns (r: Option<Bytes>)
      requires Valid()
      ensures r == N.FinishGet(Abs(), key)
    {
      if role != N.Leader {
        return None;
      }
      r := Some(if key in db then db[key] else []);
    }

    // ---- replication, leader side

    method BuildAppend(slot: nat) returns (m: WireAppend)
      requires Valid() && slot < |next| && next[slot] >= 1
      ensures RequestOf(m) == N.AppendRequest(Abs(), slot)
      ensures GoodMessage(m)
      ensures next[slot] < U64 && store.commitIndex < U64 && |store.log| < U32 ==> FitsAppend(m)
    {
      hide WellFormed, EncodeMeta, VoteOf, VoteText, AllDecodable, AllGood, EntriesOf, GoodMessage, FitsAppend,
           LastTermOf, N.AppendRequest, RequestOf;
      var prev := next[slot] - 1;
      var prevTerm := store.GetTermAt(prev);
      var entries: seq<RawEntry> := [];
      if next[slot] <= store.logLength {
        entries := store.ReadFrom(next[slot]);
      }
      m := WireAppend(store.term, id, prev, prevTerm, store.commitIndex, entries);
      BuiltRequest(Abs(), slot, store.log, m);
      SuffixIsGood(store.file, store.log, m);
      SuffixFits(store.file, store.log, m);
    }

    /** A message over the records of `log`: entries from prevIndex on, and the term in front of them. */
    ghost static predicate TailOf(log: seq<RawEntry>, m: WireAppend) {
      && m.prevTerm == (if 1 <= m.prevIndex <= |log| then log[m.prevIndex - 1].term else 0)
      && m.entries == if m.prevIndex < |log| then log[m.prevIndex..] else []
    }

    static lemma BuiltRequest(x: N.Node, slot: nat, log: seq<RawEntry>, m: WireAppend)
      requires slot < |x.next| && x.next[slot] == m.prevIndex + 1 && x.log == EntriesOf(log) && TailOf(log, m)
      requires m.term == x.term && m.leaderId == x.id && m.leaderCommit == x.commit
      ensures RequestOf(m) == N.AppendRequest(x, slot)
    {
      hide EntriesOf, TermAt;
      TailEntries(log, m);
      TailTerm(log, m);
      LastTermAgrees(log);
    }

    static lemma TailEntries(log: seq<RawEntry>, m: WireAppend)
      requires TailOf(log, m)
      ensures |EntriesOf(log)| == |log|
      ensures EntriesOf(m.entries) == if m.prevIndex < |log| then EntriesOf(log)[m.prevIndex..] else []
    {
      hide EntryOf;
    }

    static lemma TailTerm(log: seq<RawEntry>, m: WireAppend)
      requires TailOf(log, m)
      ensures m.prevTerm == TermAt(EntriesOf(log), m.prevIndex)
    {
    }

    static lemma SuffixFits(file: Bytes, log: seq<RawEntry>, m: WireAppend)
      requires WellFormed(file, log) && TailOf(log, m) && m.term < U64 && m.leaderId < U64
      ensures m.prevIndex < U64 && m.leaderCommit < U64 && |log| < U32 ==> FitsAppend(m)
    {
      hide EncodeLog, Verify;
    }

    /** The tail of a stored log makes a good message. */
    static lemma SuffixIsGood(file: Bytes, log: seq<RawEntry>, m: WireAppend)
      requires WellFormed(file, log) && AllDecodable(log) && m.term < U64
      requires TailOf(log, m)
      ensures GoodMessage(m)
    {
      hide EncodeLog, Fits, Verify, Decodable;
    }

    method OnAppendLost(slot: nat, m: WireAppend)
      requires Valid() && slot < |next| && slot < |matched|
      modifies this
      ensures Valid() && Abs() == N.AppendLost(old(Abs()), slot, RequestOf(m))
    {
      hide WellFormed, EncodeMeta, VoteOf, VoteText, AllDecodable;
      matched := matched[slot := 0];
      if m.entries != [] && next[slot] > 1 {
        next := next[slot := next[slot] - 1];
      }
    }

    method OnAppendReply(slot: nat, m: WireAppend, resp: AppendResp, connected: seq<bool>)
      requires Valid() && slot < |next| && slot < |matched| && |connected| == |matched| && resp.term < U64
      modifies this, store
      ensures Valid() && Abs() == N.AppendReplied(old(Abs()), slot, RequestOf(m), resp, connected)
    {
      hide WellFormed, EncodeMeta, VoteOf, VoteText, AllDecodable;
      if resp.term > store.term {
        AdoptTerm(resp.term);
      } else if resp.success && m.entries != [] {
        var lastSent := m.prevIndex + |m.entries|;
        var best := if matched[slot] >= lastSent then matched[slot] else lastSent;
        matched := matched[slot := best];
        next := next[slot := best + 1];
        assert Abs() == N.Acknowledged(old(Abs()), slot, RequestOf(m));
        AdvanceCommitIndex(connected);
      } else if m.entries != [] && next[slot] > 1 {
        next := next[slot := next[slot] - 1];
      }
    }

    // ---- commit and apply

    method CountHolders(connected: seq<bool>, idx: nat) returns (count: nat)
      requires |connected| == |matched|
      ensures count == 1 + N.Count(connected, matched, idx, |matched|)
    {
      count := 1;
      for j := 0 to |matched|
        invariant count == 1 + N.Count(connected, matched, idx, j)
      {
        if connected[j] && matched[j] >= idx {
          count := count + 1;
        }
      }
    }

    /** The scan loop of advanceCommitIndex. */
    method ScanCommit(connected: seq<bool>) returns (newCommit: nat)
      requires Valid() && |connected| == |matched|
      ensures newCommit == N.Scan(Abs(), connected, store.commitIndex + 1, store.commitIndex)
    {
      hide WellFormed, EncodeMeta, VoteOf, VoteText, AllDecodable, N.Count;
      newCommit := store.commitIndex;
      var idx := newCommit + 1;
      while idx <= store.logLength
        invariant idx > store.commitIndex
        invariant N.Scan(Abs(), connected, idx, newCommit) ==
                  N.Scan(Abs(), connected, store.commitIndex + 1, store.commitIndex)
        decreases store.logLength + 1 - idx
      {
        var t := store.GetTermAt(idx);
        if t != store.term {
          idx := idx + 1;
          continue;
        }
        var count := CountHolders(connected, idx);
        if count >= (|peers| + 1) / 2 + 1 {
          newCommit := idx;
        } else {
          break;
        }
        idx := idx + 1;
      }
    }

    method AdvanceCommitIndex(connected: seq<bool>)
      requires Valid() && |connected| == |matched|
      modifies this`db, store
      ensures Valid() && Abs() == N.AdvanceCommit(old(Abs()), connected)
    {
      hide WellFormed, EncodeMeta, VoteOf, VoteText, AllDecodable, N.Scan;
      var newCommit := ScanCommit(connected);
      if newCommit > store.commitIndex {
        store.commitIndex := newCommit;
        assert Abs() == old(Abs()).(commit := newCommit);
        ApplyCommitted();
      }
    }

    method ApplyCommitted()
      requires Valid()
      modifies this`db, store
      ensures Valid() && Abs() == N.ApplyCommitted(old(Abs()))
      ensures store.log == old(store.log)
    {
      hide WellFormed, EncodeMeta, VoteOf, VoteText, AllDecodable, ApplyAll;
      var applied, commit := store.lastApplied, store.commitIndex;
      if commit > applied {
        var entries := store.ReadRange(applied + 1, commit);
        if commit <= |store.log| {
          EntriesOfSlice(store.log, applied, commit);
        }
        db := ApplyEntries(db, entries);
        store.lastApplied := commit;
      }
    }

    // ---- replication, follower side

    method HandleAppendEntries(m: WireAppend) returns (resp: AppendResp)
      requires Valid() && GoodMessage(m)
      modifies this, store
      ensures Valid() && (Abs(), resp) == N.HandleAppend(old(Abs()), RequestOf(m))
    {
      hide WellFormed, EncodeMeta, EntriesOf, AllDecodable, VoteOf, GoodMessage, Merge, N.ApplyCommitted;
      resp := AppendResp(store.term, false);
      if m.term < store.term {
        return;
      }
      FollowLeader(m);
      resp := AppendResp(m.term, false);
      LastTermAgrees(store.log);
      if m.prevIndex > 0 {
        if m.prevIndex > store.logLength {
          return;
        }
        var t := store.GetTermAt(m.prevIndex);
        if t != m.prevTerm {
          return;
        }
      }
      MergeEntries(m);
      LastTermAgrees(store.log);
      if m.leaderCommit > store.commitIndex {
        store.commitIndex := if m.leaderCommit <= store.logLength then m.leaderCommit else store.logLength;
      }
      ApplyCommitted();
      resp := AppendResp(m.term, true);
    }

    static lemma MessageTerm(m: WireAppend)
      requires GoodMessage(m)
      ensures m.term < U64
    {
    }

    method FollowLeader(m: WireAppend)
      requires Valid() && GoodMessage(m) && m.term >= store.term
      modifies this, store
      ensures Valid() && Abs() == N.Follow(old(Abs()), m.term)
    {
      hide WellFormed, EncodeMeta, EntriesOf, AllDecodable, GoodMessage, VoteOf, VoteText;
      NoVote();
      MessageTerm(m);
      if m.term > store.term {
        store.SetTerm(m.term);
        store.SetVoted([]);
      }
      if m.term == store.term {
        role := N.Follower;
      }
    }

    /** Conflict pass, then append pass. */
    method MergeEntries(m: WireAppend)
      requires Valid() && GoodMessage(m) && m.prevIndex <= |store.log|
      modifies store
      ensures Valid()
      ensures Abs() == old(Abs()).(log := Merge(old(Abs()).log, m.prevIndex, EntriesOf(m.entries)))
    {
      hide WellFormed, EncodeMeta, EntriesOf, AllDecodable, VoteOf, VoteText, GoodMessage;
      CutConflicts(m);
      AppendMissing(m);
    }

    method CutConflicts(m: WireAppend)
      requires Valid()
      modifies store
      ensures Valid() && (old(|store.log|) >= m.prevIndex ==> |store.log| >= m.prevIndex)
      ensures Abs() == old(Abs()).(log := ConflictFrom(old(Abs()).log, m.prevIndex, EntriesOf(m.entries), 0))
    {
      hide WellFormed, EncodeMeta, FileStep, EntriesOf, VoteOf, VoteText, Decodable;
      ghost var es := EntriesOf(m.entries);
      LastTermAgrees(m.entries);
      for i := 0 to |m.entries|
        invariant Valid() && (old(|store.log|) >= m.prevIndex ==> |store.log| >= m.prevIndex)
        invariant ConflictFrom(EntriesOf(store.log), m.prevIndex, es, i)
                  == ConflictFrom(old(Abs()).log, m.prevIndex, es, 0)
        invariant Abs() == old(Abs()).(log := EntriesOf(store.log))
      {
        var idx := m.prevIndex + 1 + i;
        LastTermAgrees(store.log);
        if idx <= store.logLength {
          var t := store.GetTermAt(idx);
          SameTerms(store.log, m.entries, idx - 1, i);
          if t != m.entries[i].term {
            EntriesOfSlice(store.log, 0, idx - 1);
            assert EntriesOf(store.log)[..idx - 1] == EntriesOf(store.log)[0..idx - 1];
            assert store.log[..idx - 1] == store.log[0..idx - 1];
            store.Truncate(idx - 1);
          }
        }
      }
    }

    static lemma SameTerms(a: seq<RawEntry>, b: seq<RawEntry>, i: nat, j: nat)
      requires i < |a| && j < |b|
      ensures EntriesOf(a)[i].term == a[i].term && EntriesOf(b)[j].term == b[j].term
    {
    }

    method AppendMissing(m: WireAppend)
      requires Valid() && GoodMessage(m) && m.prevIndex <= |store.log|
      modifies store
      ensures Valid()
      ensures Abs() == old(Abs()).(log := AppendUpTo(old(Abs()).log, EntriesOf(m.entries), |m.entries|))
    {
      hide WellFormed, EncodeMeta, FileStep, EntriesOf, VoteOf, VoteText, Decodable, Fits, Verify;
      ghost var es := EntriesOf(m.entries);
      LastTermAgrees(m.entries);
      for i := 0 to |m.entries|
        invariant Valid() && |store.log| >= m.prevIndex + i
        invariant EntriesOf(store.log) == AppendUpTo(old(Abs()).log, es, i)
        invariant Abs() == old(Abs()).(log := EntriesOf(store.log))
      {
        var e := m.entries[i];
        LastTermAgrees(store.log);
        EntryAtIndex(m.entries, i);
        if e.index > store.logLength {
          EntriesOfSnoc(store.log, e);
          store.Append(e);
        }
      }
    }

    static lemma EntryAtIndex(es: seq<RawEntry>, i: nat)
      requires i < |es|
      ensures EntriesOf(es)[i] == EntryOf(es[i])
    {
    }
  }

  // ---- starting, crashing

  /** A process started in an empty directory. */
  method FirstStart(id: NodeId, peers: seq<NodeId>) returns (r: RaftNode)
    requires id < U64
    ensures fresh(r) && fresh(r.store) && r.Valid() && r.Abs() == N.Fresh(id, peers)
  {
    hide EncodeMeta, DecodeMeta, VoteOf, VoteText;
    NoVote();
    assert EncodeLog([]) == [];
    FileRoundTrip([]);
    var store := new Storage([], None);
    r := new RaftNode(id, peers, store);
  }

  /** The process dies and a new one starts on the same directory: only the bytes of the two files survive. */
  method Reopen(node: RaftNode) returns (r: RaftNode)
    requires node.Valid()
    ensures fresh(r) && fresh(r.store) && r.Valid() && r.Abs() == N.Restart(node.Abs())
  {
    hide EncodeMeta, DecodeMeta, EntriesOf, AllDecodable, VoteOf, VoteText, EncodeLog, ParseLog, AllGood, ApplyAll;
    FileRoundTrip(node.store.log);
    MetaRoundTrip(node.store.term, node.store.voted);
    var store := new Storage(node.store.file, node.store.meta);
    r := new RaftNode(node.id, node.peers, store);
  }

  /** It dies between the two metadata writes of a term change: the new term is on disk with the old vote. */
  method ReopenAfterTerm(node: RaftNode, term: nat) returns (r: RaftNode)
    requires node.Valid() && term < U64
    modifies node.store
    ensures fresh(r) && r.Valid() && r.Abs() == N.Restart(old(node.Abs()).(term := term))
  {
    hide WellFormed, EncodeMeta, EntriesOf, AllDecodable, VoteOf, VoteText;
    node.store.SetTerm(term);
    r := Reopen(node);
  }

  /** It dies after both: the new term is on disk without a vote. */
  method ReopenAfterAdopting(node: RaftNode, term: nat) returns (r: RaftNode)
    requires node.Valid() && term < U64
    modifies node, node.store
    ensures fresh(r) && r.Valid() && r.Abs() == N.Restart(N.AdoptTerm(old(node.Abs()), term))
  {
    hide WellFormed, EncodeMeta, EntriesOf, AllDecodable, VoteOf, VoteText;
    node.AdoptTerm(term);
    r := Reopen(node);
  }
}
