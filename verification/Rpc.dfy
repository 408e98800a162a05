/** The four RPC payloads: printers, parsers, and the loops that implement them. */
module Rpc {
  import opened Types
  import opened Integers
  import opened Codec

  datatype WireAppend = WireAppend(term: nat, leaderId: nat, prevIndex: nat, prevTerm: nat, leaderCommit: nat,
                                   entries: seq<RawEntry>)

  const TAG_A: bv8 := 65
  const TAG_R: bv8 := 82
  const TAG_V: bv8 := 86
  const TAG_W: bv8 := 87

  function TakeInt(rest: Bytes, k: nat): Option<(nat, Bytes)> {
    var (b, r) :- Take(rest, k);
    Some((FromLE(b), r))
  }

  lemma TakeIntRoundTrip(n: nat, k: nat, after: Bytes)
    requires n < Pow256(k)
    ensures TakeInt(LE(n, k) + after, k) == Some((n, after))
  {
    hide LE, FromLE, Take;
    TakeFirst(LE(n, k), after);
    FromLEInverts(n, k);
  }

  // ---- AppendEntries

  /** Each record is preceded by its length. */
  function EncodeFrames(es: seq<RawEntry>): Bytes {
    if es == [] then []
    else LE(|EncodeEntry(es[0])| % U32, 4) + (EncodeEntry(es[0]) + EncodeFrames(es[1..]))
  }

  /** n framed records; the length in front of each is read and not used. */
  function ParseFrames(rest: Bytes, n: nat): Option<(seq<RawEntry>, Bytes)>
    decreases n
  {
    if n == 0 then Some(([], rest))
    else
      var (_, r1) :- TakeInt(rest, 4);
      var (e, r2) :- ParseEntry(r1);
      var (es, r3) :- ParseFrames(r2, n - 1);
      Some(([e] + es, r3))
  }

  function EncodeAppend(m: WireAppend): Bytes {
    [TAG_A] + (LE(m.term, 8) + (LE(m.leaderId, 8) + (LE(m.prevIndex, 8) + (LE(m.prevTerm, 8) + (LE(m.leaderCommit, 8)
    + (LE(|m.entries| % U32, 4) + EncodeFrames(m.entries)))))))
  }

  /** Where the fields of a message stand behind its letter. */
  ghost predicate MessageLayout(m: WireAppend, b: Bytes) {
    && |b| == 45 + |EncodeFrames(m.entries)|
    && b[1..9] == LE(m.term, 8) && b[9..17] == LE(m.leaderId, 8) && b[17..25] == LE(m.prevIndex, 8)
    && b[25..33] == LE(m.prevTerm, 8) && b[33..41] == LE(m.leaderCommit, 8)
    && b[41..45] == LE(|m.entries| % U32, 4) && b[45..] == EncodeFrames(m.entries)
  }

  lemma AppendBytes(m: WireAppend)
    ensures MessageLayout(m, EncodeAppend(m))
  {
    hide LE, EncodeFrames;
  }

  /** None where the program throws or would read past the buffer. */
  function DecodeAppend(data: Bytes): Option<WireAppend> {
    var (_, r0) :- Take(data, 1);
    var (term, r1) :- TakeInt(r0, 8);
    var (leaderId, r2) :- TakeInt(r1, 8);
    var (prevIndex, r3) :- TakeInt(r2, 8);
    var (prevTerm, r4) :- TakeInt(r3, 8);
    var (leaderCommit, r5) :- TakeInt(r4, 8);
    var (count, r6) :- TakeInt(r5, 4);
    var (es, r7) :- ParseFrames(r6, count);
    Some(WireAppend(term, leaderId, prevIndex, prevTerm, leaderCommit, es))
  }

  predicate FitsAppend(m: WireAppend) {
    && m.term < U64 && m.leaderId < U64 && m.prevIndex < U64 && m.prevTerm < U64 && m.leaderCommit < U64
    && |m.entries| < U32
  }

  lemma {:induction false} FramesRoundTrip(es: seq<RawEntry>, after: Bytes)
    requires AllGood(es)
    ensures ParseFrames(EncodeFrames(es) + after, |es|) == Some((es, after))
  {
    hide EncodeEntry, ParseEntry, TakeInt, Fits, Verify, LE;
    if es == [] {
      assert EncodeFrames(es) + after == after;
    } else {
      var rec, tail := EncodeEntry(es[0]), EncodeFrames(es[1..]) + after;
      var frame := LE(|rec| % U32, 4);
      assert EncodeFrames(es) + after == frame + (rec + tail);
      Widths();
      TakeIntRoundTrip(|rec| % U32, 4, rec + tail);
      EntryRoundTrip(es[0], tail);
      FramesRoundTrip(es[1..], after);
      assert es == [es[0]] + es[1..];
    }
  }

  /** Deserializing undoes serializing, whatever follows in the buffer. */
  lemma AppendRoundTrip(m: WireAppend, junk: Bytes)
    requires FitsAppend(m) && AllGood(m.entries)
    ensures DecodeAppend(EncodeAppend(m) + junk) == Some(m)
  {
    hide LE, Take, TakeInt, EncodeFrames, ParseFrames, AllGood;
    var r6 := EncodeFrames(m.entries) + junk;
    var r5 := LE(|m.entries| % U32, 4) + r6;
    var r4 := LE(m.leaderCommit, 8) + r5;
    var r3 := LE(m.prevTerm, 8) + r4;
    var r2 := LE(m.prevIndex, 8) + r3;
    var r1 := LE(m.leaderId, 8) + r2;
    var r0 := LE(m.term, 8) + r1;
    AppendLayout(m, junk, r0, r1, r2, r3, r4, r5, r6);
    Widths();
    TakeFirst([TAG_A], r0);
    TakeIntRoundTrip(m.term, 8, r1);
    TakeIntRoundTrip(m.leaderId, 8, r2);
    TakeIntRoundTrip(m.prevIndex, 8, r3);
    TakeIntRoundTrip(m.prevTerm, 8, r4);
    TakeIntRoundTrip(m.leaderCommit, 8, r5);
    TakeIntRoundTrip(|m.entries| % U32, 4, r6);
    FramesRoundTrip(m.entries, junk);
  }

  lemma AppendLayout(m: WireAppend, junk: Bytes,
                     r0: Bytes, r1: Bytes, r2: Bytes, r3: Bytes, r4: Bytes, r5: Bytes, r6: Bytes)
    requires r6 == EncodeFrames(m.entries) + junk && r5 == LE(|m.entries| % U32, 4) + r6
    requires r4 == LE(m.leaderCommit, 8) + r5 && r3 == LE(m.prevTerm, 8) + r4 && r2 == LE(m.prevIndex, 8) + r3
    requires r1 == LE(m.leaderId, 8) + r2 && r0 == LE(m.term, 8) + r1
    ensures EncodeAppend(m) + junk == [TAG_A] + r0
  {
    hide LE, EncodeFrames;
  }

  // ---- the small payloads

  function EncodeFlag(tag: bv8, term: nat, flag: bool): Bytes {
    [tag] + (LE(term, 8) + [if flag then 1 else 0])
  }

  function DecodeFlag(data: Bytes): Option<(nat, bool)> {
    var (_, r0) :- Take(data, 1);
    var (term, r1) :- TakeInt(r0, 8);
    var (flag, _) :- Take(r1, 1);
    Some((term, flag[0] != 0))
  }

  lemma FlagRoundTrip(tag: bv8, term: nat, flag: bool)
    requires term < U64
    ensures DecodeFlag(EncodeFlag(tag, term, flag)) == Some((term, flag))
  {
    hide LE, TakeInt;
    var f: Bytes := [if flag then 1 else 0];
    Widths();
    TakeFirst([tag], LE(term, 8) + f);
    TakeIntRoundTrip(term, 8, f);
  }

  function EncodeAppendResp(r: AppendResp): Bytes { EncodeFlag(TAG_R, r.term, r.success) }

  function DecodeAppendResp(data: Bytes): Option<AppendResp> {
    var (term, flag) :- DecodeFlag(data);
    Some(AppendResp(term, flag))
  }

  function EncodeVoteResp(r: VoteResp): Bytes { EncodeFlag(TAG_W, r.term, r.granted) }

  function DecodeVoteResp(data: Bytes): Option<VoteResp> {
    var (term, flag) :- DecodeFlag(data);
    Some(VoteResp(term, flag))
  }

  function EncodeVote(m: VoteReq): Bytes {
    [TAG_V] + (LE(m.term, 8) + (LE(m.candidate, 8) + (LE(m.lastIndex, 8) + LE(m.lastTerm, 8))))
  }

  function DecodeVote(data: Bytes): Option<VoteReq> {
    var (_, r0) :- Take(data, 1);
    var (term, r1) :- TakeInt(r0, 8);
    var (candidate, r2) :- TakeInt(r1, 8);
    var (lastIndex, r3) :- TakeInt(r2, 8);
    var (lastTerm, _) :- TakeInt(r3, 8);
    Some(VoteReq(term, candidate, lastIndex, lastTerm))
  }

  lemma VoteRoundTrip(m: VoteReq)
    requires m.term < U64 && m.candidate < U64 && m.lastIndex < U64 && m.lastTerm < U64
    ensures DecodeVote(EncodeVote(m)) == Some(m)
  {
    hide LE, Take, TakeInt;
    var r3 := LE(m.lastTerm, 8);
    var r2 := LE(m.lastIndex, 8) + r3;
    var r1 := LE(m.candidate, 8) + r2;
    Widths();
    TakeFirst([TAG_V], LE(m.term, 8) + r1);
    TakeIntRoundTrip(m.term, 8, r1);
    TakeIntRoundTrip(m.candidate, 8, r2);
    TakeIntRoundTrip(m.lastIndex, 8, r3);
    TakeIntRoundTrip(m.lastTerm, 8, []);
    assert r3 + [] == r3;
  }

  lemma ResponsesRoundTrip(a: AppendResp, v: VoteResp)
    requires a.term < U64 && v.term < U64
    ensures DecodeAppendResp(EncodeAppendResp(a)) == Some(a) && DecodeVoteResp(EncodeVoteResp(v)) == Some(v)
  {
    hide EncodeFlag, DecodeFlag;
    FlagRoundTrip(TAG_R, a.term, a.success);
    FlagRoundTrip(TAG_W, v.term, v.granted);
  }
}
