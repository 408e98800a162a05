/** The byte formats of commands and log records. A parser takes the bytes still unread and returns what is left. */
module Codec {
  import opened Types
  import opened Integers
  import opened Crc32

  const U16 := 65536
  const U32 := 0x1_0000_0000
  const U64 := 0x1_0000_0000_0000_0000

  lemma Widths()
    ensures Pow256(2) == U16 && Pow256(4) == U32 && Pow256(8) == U64
  {
    assert Pow256(2) == 256 * Pow256(1) && Pow256(1) == 256 * Pow256(0);
    assert Pow256(4) == 256 * Pow256(3) && Pow256(3) == 256 * Pow256(2);
    assert Pow256(6) == 256 * Pow256(5) && Pow256(5) == 256 * Pow256(4);
    assert Pow256(8) == 256 * Pow256(7) && Pow256(7) == 256 * Pow256(6);
  }

  // ---- commands

  /** A size cast to uint16_t. */
  function Cut16(n: nat): (r: nat)
    ensures r < U16 && r <= n && (r == n <==> n < U16)
  {
    n % U16
  }

  /** A size cast to uint16_t, through htons, high byte first. */
  function Len16(n: nat): (b: Bytes)
    ensures |b| == 2
  {
    Reverse(LE(Swap(Cut16(n), 2), 2))
  }

  function FromLen16(b: Bytes): nat {
    Swap(FromLE(Reverse(b)), 2)
  }

  lemma Len16RoundTrip(n: nat)
    ensures FromLen16(Len16(n)) == Cut16(n)
  {
    var m := Cut16(n);
    Widths();
    SwapInverts(m, 2);
    ReverseInverts(LE(Swap(m, 2), 2));
    FromLEInverts(Swap(m, 2), 2);
  }

  function EncodeCommand(c: Command): Bytes {
    [c.op] + Len16(|c.key|) + Len16(|c.value|) + c.key + c.value
  }

  /** None where the program throws (too short) or would read past the buffer. */
  function DecodeCommand(data: Bytes): Option<Command> {
    if |data| < 5 then None
    else
      var k := FromLen16(data[1..3]);
      var v := FromLen16(data[3..5]);
      if |data| < 5 + k + v then None
      else Some(Command(data[0], data[5..5 + k], data[5 + k..5 + k + v]))
  }

  lemma Slice(a: Bytes, b: Bytes, c: Bytes)
    ensures (a + b + c)[|a|..|a| + |b|] == b && (a + b + c)[|a| + |b|..] == c
  {
  }

  /** The three regions of an encoded command. */
  lemma CommandRegions(op: bv8, k: Bytes, v: Bytes, body: Bytes)
    requires |k| == 2 && |v| == 2
    ensures var data := [op] + k + v + body; data[0] == op && data[1..3] == k && data[3..5] == v && data[5..] == body
  {
    Slice([op], k, v + body);
    assert [op] + k + v + body == [op] + k + (v + body);
    Slice([op] + k, v, body);
  }

  /** What comes back when the two lengths are cut to 16 bits. */
  function Stored(c: Command): Command {
    var k, v := Cut16(|c.key|), Cut16(|c.value|);
    var body := c.key + c.value;
    Command(c.op, body[..k], body[k..k + v])
  }

  lemma DecodedCommand(c: Command)
    ensures DecodeCommand(EncodeCommand(c)) == Some(Stored(c))
  {
    hide Len16, FromLen16;
    var body := c.key + c.value;
    var data := EncodeCommand(c);
    Len16RoundTrip(|c.key|);
    Len16RoundTrip(|c.value|);
    assert data == [c.op] + Len16(|c.key|) + Len16(|c.value|) + body;
    CommandRegions(c.op, Len16(|c.key|), Len16(|c.value|), body);
    DecodeRegions(data, body, Cut16(|c.key|), Cut16(|c.value|));
  }

  lemma SubSlice(data: Bytes, o: nat, a: nat, b: nat)
    requires o <= |data| && a <= b && o + b <= |data|
    ensures data[o + a..o + b] == data[o..][a..b]
  {
  }

  lemma DecodeRegions(data: Bytes, body: Bytes, k: nat, v: nat)
    requires |data| >= 5 && data[5..] == body && k + v <= |body|
    requires FromLen16(data[1..3]) == k && FromLen16(data[3..5]) == v
    ensures DecodeCommand(data) == Some(Command(data[0], body[..k], body[k..k + v]))
  {
    hide FromLen16;
    SubSlice(data, 5, 0, k);
    SubSlice(data, 5, k, k + v);
  }

  /** A command survives encoding exactly when its key and value are at most 65535 bytes long. */
  lemma CommandRoundTrip(c: Command)
    ensures DecodeCommand(EncodeCommand(c)) == Some(c) <==> |c.key| < U16 && |c.value| < U16
    ensures DecodeCommand(EncodeCommand(c)) == Some(Stored(c))
  {
    hide DecodeCommand, EncodeCommand;
    DecodedCommand(c);
    if |c.key| < U16 && |c.value| < U16 {
      assert (c.key + c.value)[..|c.key|] == c.key;
      assert (c.key + c.value)[|c.key|..|c.key| + |c.value|] == c.value;
    }
  }

  // ---- log records

  datatype RawEntry = RawEntry(term: nat, index: nat, command: Bytes, crc: Word)

  function Payload(term: nat, index: nat, command: Bytes): Bytes {
    LE(term, 8) + LE(index, 8) + command
  }

  predicate Verify(e: RawEntry) {
    e.crc == Crc(Payload(e.term, e.index, e.command))
  }

  /** The LogEntry constructor. */
  function MakeEntry(term: nat, index: nat, cmd: Command): (e: RawEntry)
    ensures Verify(e) && e.term == term && e.index == index && e.command == EncodeCommand(cmd)
  {
    var command := EncodeCommand(cmd);
    RawEntry(term, index, command, Crc(Payload(term, index, command)))
  }

  /** The values the C++ field types can hold. */
  predicate Fits(e: RawEntry) {
    e.term < U64 && e.index < U64 && |e.command| < U32
  }

  function WordBytes(w: Word): (b: Bytes)
    ensures |b| == 4
  {
    [(w.bits & 0xFF) as bv8, ((w.bits >> 8) & 0xFF) as bv8,
     ((w.bits >> 16) & 0xFF) as bv8, ((w.bits >> 24) & 0xFF) as bv8]
  }

  function WordFrom(b: Bytes): Word
    requires |b| == 4
  {
    Word((b[0] as bv32) | ((b[1] as bv32) << 8) | ((b[2] as bv32) << 16) | ((b[3] as bv32) << 24))
  }

  lemma WordRoundTrip(w: Word)
    ensures WordFrom(WordBytes(w)) == w
  {
    WordParts(w.bits);
  }

  lemma WordParts(w: bv32)
    ensures (((w & 0xFF) as bv8) as bv32) | (((((w >> 8) & 0xFF) as bv8) as bv32) << 8)
            | (((((w >> 16) & 0xFF) as bv8) as bv32) << 16) | (((((w >> 24) & 0xFF) as bv8) as bv32) << 24) == w
  {
  }

  function Len32(n: nat): (b: Bytes)
    ensures |b| == 4
  {
    LE(Swap(n % U32, 4), 4)
  }

  function FromLen32(b: Bytes): nat {
    Swap(FromLE(b), 4)
  }

  lemma Len32RoundTrip(n: nat)
    ensures FromLen32(Len32(n)) == n % U32
  {
    Widths();
    SwapInverts(n % U32, 4);
    FromLEInverts(Swap(n % U32, 4), 4);
  }

  /** 32-bit lengths go through htonl: on the bytes, highest first. */
  lemma Len32IsBigEndian(n: nat)
    ensures Reverse(Len32(n)) == LE(n % U32, 4)
  {
    hide LE, Reverse;
    SwapReverses(n % U32, 4);
    ReverseInverts(LE(n % U32, 4));
  }

  /** 16-bit lengths go through htons and are then pushed high byte first: lowest first on the bytes. */
  lemma Len16IsLittleEndian(n: nat)
    ensures Len16(n) == LE(Cut16(n), 2)
  {
    hide LE, Reverse;
    SwapReverses(Cut16(n), 2);
    ReverseInverts(LE(Cut16(n), 2));
  }

  /** A command: operation, two little-endian lengths, key, value. */
  lemma CommandBytes(c: Command)
    ensures var b := EncodeCommand(c);
            && |b| == 5 + |c.key| + |c.value| && b[0] == c.op
            && b[1..3] == LE(Cut16(|c.key|), 2) && b[3..5] == LE(Cut16(|c.value|), 2)
            && b[5..5 + |c.key|] == c.key && b[5 + |c.key|..] == c.value
  {
    hide LE, Len16, Cut16;
    Len16IsLittleEndian(|c.key|);
    Len16IsLittleEndian(|c.value|);
    var b := EncodeCommand(c);
    assert b == [c.op] + Len16(|c.key|) + Len16(|c.value|) + (c.key + c.value);
    CommandRegions(c.op, Len16(|c.key|), Len16(|c.value|), c.key + c.value);
    SubSlice(b, 5, 0, |c.key|);
    assert b[5 + |c.key|..] == b[5..][|c.key|..];
  }

  function EncodeEntry(e: RawEntry): Bytes {
    LE(e.term, 8) + LE(e.index, 8) + Len32(|e.command|) + e.command + WordBytes(e.crc)
  }

  /** Term, index, length of the command, command, checksum; all lowest byte first but the length. */
  ghost predicate RecordLayout(e: RawEntry, b: Bytes) {
    var n := |e.command|;
    && |b| == 24 + n && b[..8] == LE(e.term, 8) && b[8..16] == LE(e.index, 8)
    && Reverse(b[16..20]) == LE(n % U32, 4) && b[20..20 + n] == e.command && b[20 + n..] == WordBytes(e.crc)
  }

  lemma RecordBytes(e: RawEntry)
    ensures RecordLayout(e, EncodeEntry(e))
  {
    hide LE, Len32, WordBytes, Reverse;
    Len32IsBigEndian(|e.command|);
    var b := EncodeEntry(e);
    var t, i, l, c, w := LE(e.term, 8), LE(e.index, 8), Len32(|e.command|), e.command, WordBytes(e.crc);
    Slice(t, i, l + c + w);
    assert b == t + i + (l + c + w) && b == (t + i) + l + (c + w) && b == (t + i + l) + c + w;
    Slice(t + i, l, c + w);
    Slice(t + i + l, c, w);
  }

  /** The first k bytes and the rest. */
  function Take(rest: Bytes, k: nat): Option<(Bytes, Bytes)> {
    if |rest| < k then None else Some((rest[..k], rest[k..]))
  }

  lemma TakeFirst(a: Bytes, b: Bytes)
    ensures Take(a + b, |a|) == Some((a, b))
  {
  }

  /** None where the program throws (checksum mismatch) or would read past the buffer. */
  function ParseEntry(rest: Bytes): Option<(RawEntry, Bytes)> {
    var (t, r1) :- Take(rest, 8);
    var (i, r2) :- Take(r1, 8);
    var (n, r3) :- Take(r2, 4);
    var (cmd, r4) :- Take(r3, FromLen32(n));
    var (crc, r5) :- Take(r4, 4);
    var e := RawEntry(FromLE(t), FromLE(i), cmd, WordFrom(crc));
    if Verify(e) then Some((e, r5)) else None
  }

  lemma ParseFields(t: Bytes, i: Bytes, n: Bytes, cmd: Bytes, crc: Bytes, after: Bytes)
    requires |t| == 8 && |i| == 8 && |n| == 4 && FromLen32(n) == |cmd| && |crc| == 4
    ensures var e := RawEntry(FromLE(t), FromLE(i), cmd, WordFrom(crc));
            ParseEntry(t + (i + (n + (cmd + (crc + after))))) == if Verify(e) then Some((e, after)) else None
  {
    hide Take, FromLen32, WordFrom, FromLE, Verify;
    TakeFirst(t, i + (n + (cmd + (crc + after))));
    TakeFirst(i, n + (cmd + (crc + after)));
    TakeFirst(n, cmd + (crc + after));
    TakeFirst(cmd, crc + after);
    TakeFirst(crc, after);
  }

  lemma Regroup(t: Bytes, i: Bytes, n: Bytes, cmd: Bytes, crc: Bytes, after: Bytes)
    ensures t + i + n + cmd + crc + after == t + (i + (n + (cmd + (crc + after))))
  {
  }

  /** Parsing an arbitrary record: it is accepted exactly when its bytes match its checksum. */
  lemma ParseRecord(t: Bytes, i: Bytes, cmd: Bytes, crc: Bytes, after: Bytes)
    requires |t| == 8 && |i| == 8 && |crc| == 4 && |cmd| < U32
    ensures ParseEntry(t + i + Len32(|cmd|) + cmd + crc + after) ==
            if WordFrom(crc) == Crc(t + i + cmd)
            then Some((RawEntry(FromLE(t), FromLE(i), cmd, WordFrom(crc)), after)) else None
  {
    hide ParseEntry, Len32, FromLen32, WordFrom, FromLE, LE, Crc;
    Len32RoundTrip(|cmd|);
    Regroup(t, i, Len32(|cmd|), cmd, crc, after);
    ParseFields(t, i, Len32(|cmd|), cmd, crc, after);
    LEInverts(t);
    LEInverts(i);
  }

  /** A record parses back, and exactly its own bytes are consumed. */
  lemma EntryRoundTrip(e: RawEntry, after: Bytes)
    requires Fits(e) && Verify(e)
    ensures ParseEntry(EncodeEntry(e) + after) == Some((e, after))
  {
    Widths();
    FromLEInverts(e.term, 8);
    FromLEInverts(e.index, 8);
    WordRoundTrip(e.crc);
    ParseRecord(LE(e.term, 8), LE(e.index, 8), e.command, WordBytes(e.crc), after);
  }

  // ---- sequences of records

  function EncodeLog(es: seq<RawEntry>): Bytes {
    if es == [] then [] else EncodeEntry(es[0]) + EncodeLog(es[1..])
  }

  lemma {:induction false} EncodeLogSnoc(es: seq<RawEntry>, e: RawEntry)
    ensures EncodeLog(es + [e]) == EncodeLog(es) + EncodeEntry(e)
  {
    hide EncodeEntry;
    if es == [] {
      assert es + [e] == [e];
      assert EncodeLog([e]) == EncodeEntry(e) + EncodeLog([]);
    } else {
      EncodeLogSnoc(es[1..], e);
      assert (es + [e])[1..] == es[1..] + [e];
    }
  }

  lemma {:induction false} ParseShrinks(rest: Bytes)
    requires ParseEntry(rest).Some?
    ensures |ParseEntry(rest).value.1| < |rest|
    ensures ParseEntry(rest).value.1 == rest[|rest| - |ParseEntry(rest).value.1|..]
  {
  }

  /** Storage::readAll on the bytes of the file: records up to the first that does not parse. */
  function ParseLog(rest: Bytes): seq<RawEntry>
    decreases |rest|
  {
    if rest == [] then []
    else
      var r := ParseEntry(rest);
      if r.None? then []
      else
        ParseShrinks(rest);
        [r.value.0] + ParseLog(r.value.1)
  }

  ghost predicate AllGood(es: seq<RawEntry>) {
    forall i :: 0 <= i < |es| ==> Fits(es[i]) && Verify(es[i])
  }

  lemma ParseLogNext(rest: Bytes, e: RawEntry, tail: Bytes)
    requires rest != [] && ParseEntry(rest) == Some((e, tail))
    ensures ParseLog(rest) == [e] + ParseLog(tail)
  {
    hide ParseEntry;
  }

  lemma RecordLength(e: RawEntry)
    ensures |EncodeEntry(e)| == 24 + |e.command|
  {
  }

  lemma {:induction false} LogRoundTrip(es: seq<RawEntry>, after: Bytes)
    requires AllGood(es)
    ensures ParseLog(EncodeLog(es) + after) == es + ParseLog(after)
  {
    hide EncodeEntry, ParseEntry, ParseLog, Fits, Verify;
    if es == [] {
      assert EncodeLog(es) + after == after;
    } else {
      var tail := EncodeLog(es[1..]) + after;
      assert EncodeLog(es) + after == EncodeEntry(es[0]) + tail;
      EntryRoundTrip(es[0], tail);
      RecordLength(es[0]);
      ParseLogNext(EncodeEntry(es[0]) + tail, es[0], tail);
      LogRoundTrip(es[1..], after);
      assert es == [es[0]] + es[1..];
    }
  }

  /** A well-formed log file reads back as the records written to it. */
  lemma FileRoundTrip(es: seq<RawEntry>)
    requires AllGood(es)
    ensures ParseLog(EncodeLog(es)) == es
  {
    LogRoundTrip(es, []);
    assert EncodeLog(es) + [] == EncodeLog(es);
  }
}
