/**
 The bytes themselves: which field stands where and in which byte order, on disk and on the wire. Round trips alone
 would hold of any order that printers and parsers share.
 */
module Layout {
  import opened Types
  import opened Integers
  import opened Crc32
  import opened Codec
  import opened Rpc
  import opened Storages
  import opened RaftNodes

  // ---- byte orders

  /** Bytes of a word: a byte stands first, and a shift by eight bits moves every byte one place on. */
  lemma WordIsLittleEndian(w: Word, b: bv8)
    ensures WordBytes(FromByte(b)) == [b, 0, 0, 0]
    ensures WordBytes(Up8(w)) == [0] + WordBytes(w)[..3]
  {
    hide WordBytes, FromByte, Up8;
    ByteStandsFirst(b);
    ShiftMovesBytes(w);
  }

  lemma ByteStandsFirst(b: bv8)
    ensures WordBytes(FromByte(b)) == [b, 0, 0, 0]
  {
    SingleByte(b);
  }

  lemma ShiftMovesBytes(w: Word)
    ensures WordBytes(Up8(w)) == [0] + WordBytes(w)[..3]
  {
    ShiftedBytes(w.bits);
    var b := WordBytes(w);
    FirstThree(b);
    assert WordBytes(Up8(w)) == [0, b[0], b[1], b[2]];
  }

  lemma FirstThree(b: Bytes)
    requires |b| == 4
    ensures [0] + b[..3] == [0, b[0], b[1], b[2]]
  {
  }

  lemma SingleByte(b: bv8)
    ensures var v := b as bv32;
            && (v & 0xFF) as bv8 == b && ((v >> 8) & 0xFF) as bv8 == 0
            && ((v >> 16) & 0xFF) as bv8 == 0 && ((v >> 24) & 0xFF) as bv8 == 0
  {
  }

  lemma ShiftedBytes(w: bv32)
    ensures var v := w << 8;
            && (v & 0xFF) as bv8 == 0 && ((v >> 8) & 0xFF) as bv8 == (w & 0xFF) as bv8
            && ((v >> 16) & 0xFF) as bv8 == ((w >> 8) & 0xFF) as bv8
            && ((v >> 24) & 0xFF) as bv8 == ((w >> 16) & 0xFF) as bv8
  {
  }

  // ---- commands and records

  lemma OpBytes()
    ensures ValueOf(PUT) == 1 && ValueOf(DELETE) == 2 && ValueOf(NOOP) == 3
  {
    NextByte(0);
    NextByte(1);
    NextByte(2);
  }

  /** The bytes a record's checksum is taken over. */
  lemma ChecksumBytes(e: RawEntry)
    ensures Verify(e) <==> e.crc == Crc(LE(e.term, 8) + LE(e.index, 8) + e.command)
  {
  }

  lemma MetaBytes(term: nat, voted: Bytes)
    ensures var b := EncodeMeta(term, voted);
            && |b| == 12 + |voted| && b[..8] == LE(term, 8) && Reverse(b[8..12]) == LE(|voted| % U32, 4)
            && b[12..] == voted
  {
    hide LE, Len32, Reverse;
    Len32IsBigEndian(|voted|);
    var b := EncodeMeta(term, voted);
    assert b == LE(term, 8) + Len32(|voted|) + voted;
    Slice(LE(term, 8), Len32(|voted|), voted);
  }

  /** An empty meta file reads as bytes of ones: the greatest term, and as many zero bytes of vote as can be. */
  lemma EmptyMeta()
    ensures DecodeMeta([]).0 == U64 - 1 && |DecodeMeta([]).1| == U32 - 1
    ensures forall i :: 0 <= i < U32 - 1 ==> DecodeMeta([]).1[i] == 0
  {
    hide FromLE, ValueOf, LE, Reverse;
    var ones := seq(12, _ => EOF_BYTE);
    assert Padded([]) == ones;
    Widths();
    FullByte();
    Full(ones[..8]);
    Full(ones[8..12]);
    FullSwaps(ones[8..12]);
  }

  lemma FullByte()
    ensures ValueOf(EOF_BYTE) == 255
  {
  }

  lemma {:induction false} Full(b: Bytes)
    requires forall i :: 0 <= i < |b| ==> b[i] == EOF_BYTE
    ensures FromLE(b) == Pow256(|b|) - 1
  {
    hide ValueOf;
    FullByte();
    if b != [] {
      Full(b[1..]);
    }
  }

  lemma FullSwaps(b: Bytes)
    requires |b| == 4 && forall i :: 0 <= i < 4 ==> b[i] == EOF_BYTE
    ensures FromLen32(b) == Pow256(4) - 1
  {
    hide ValueOf, LE, FromLE;
    LEInverts(b);
    forall i | 0 <= i < 4 ensures Reverse(b)[i] == EOF_BYTE {
      ReverseAt(b, i);
    }
    Full(Reverse(b));
  }

  /** Decimal text without leading zeros. */
  predicate IsText(b: Bytes) {
    && b != [] && (forall i | 0 <= i < |b| :: '0' as nat <= ValueOf(b[i]) <= '9' as nat)
    && (|b| > 1 ==> ValueOf(b[0]) != '0' as nat)
  }

  lemma TextSnoc(b: Bytes, x: bv8)
    requires '0' as nat <= ValueOf(x) <= '9' as nat
    requires b == [] || (IsText(b) && ValueOf(b[0]) != '0' as nat)
    ensures IsText(b + [x])
  {
    hide ValueOf;
  }

  lemma DigitByte(d: nat)
    requires d < 10
    ensures ValueOf(ByteOf(48 + d)) == 48 + d
  {
    hide ByteOf, ValueOf;
    ByteRoundTrip(48 + d);
  }

  /** A vote on disk is decimal text: digits only, no leading zero, worth its id. */
  lemma {:induction false} DecimalIsText(n: nat)
    ensures IsText(Decimal(n)) && Worth(Decimal(n)) == n
    ensures ValueOf(Decimal(n)[0]) == '0' as nat ==> n == 0
  {
    hide ByteOf, ValueOf, IsText, Worth;
    DigitByte(n % 10);
    var x := ByteOf(48 + n % 10);
    if n >= 10 {
      var b := Decimal(n / 10);
      DecimalIsText(n / 10);
      WorthSnoc(b, x);
      TextSnoc(b, x);
      assert Decimal(n) == b + [x] && (b + [x])[0] == b[0];
    } else {
      WorthSnoc([], x);
      TextSnoc([], x);
      assert [] + [x] == [x] && Decimal(n) == [x];
      WorthNothing();
    }
  }

  /** The number that text stands for, read from its first digit on: every digit weighs ten times the next. */
  function Worth(b: Bytes): int {
    if b == [] then 0 else (ValueOf(b[0]) - '0' as int) * Pow10(|b| - 1) + Worth(b[1..])
  }

  lemma WorthNothing()
    ensures Worth([]) == 0
  {
  }

  lemma {:induction false} WorthSnoc(b: Bytes, x: bv8)
    ensures Worth(b + [x]) == 10 * Worth(b) + (ValueOf(x) - '0' as int)
  {
    hide ValueOf;
    if b == [] {
      assert b + [x] == [x] && [x][1..] == [];
      assert Pow10(0) == 1;
    } else {
      WorthSnoc(b[1..], x);
      assert (b + [x])[1..] == b[1..] + [x] && (b + [x])[0] == b[0];
      var d := ValueOf(b[0]) - '0' as int;
      assert Pow10(|b|) == 10 * Pow10(|b| - 1);
      TenTimes(d, Pow10(|b| - 1));
    }
  }

  lemma TenTimes(d: int, p: nat)
    ensures d * (10 * p) == 10 * (d * p)
  {
  }

  // ---- messages

  /** The first byte of every payload is the letter the receiver dispatches on. */
  lemma Tags(m: WireAppend, a: AppendResp, q: VoteReq, v: VoteResp)
    ensures ValueOf(EncodeAppend(m)[0]) == 'A' as nat && ValueOf(EncodeAppendResp(a)[0]) == 'R' as nat
    ensures ValueOf(EncodeVote(q)[0]) == 'V' as nat && ValueOf(EncodeVoteResp(v)[0]) == 'W' as nat
  {
    hide LE, EncodeFrames, ValueOf;
    Letters();
  }

  lemma Letters()
    ensures ValueOf(65) == 'A' as nat && ValueOf(82) == 'R' as nat
    ensures ValueOf(86) == 'V' as nat && ValueOf(87) == 'W' as nat
  {
  }

  /** Every record in a message stands behind its own length, lowest byte first. */
  lemma FrameBytes(es: seq<RawEntry>)
    requires es != []
    ensures var b := EncodeFrames(es);
            var r := EncodeEntry(es[0]);
            && |b| == 4 + |r| + |EncodeFrames(es[1..])| && b[..4] == LE(|r| % U32, 4) && b[4..4 + |r|] == r
            && b[4 + |r|..] == EncodeFrames(es[1..])
  {
    hide LE, EncodeEntry;
    var r, rest := EncodeEntry(es[0]), EncodeFrames(es[1..]);
    var l := LE(|r| % U32, 4);
    FrameParts(l, r, rest);
    assert EncodeFrames(es) == l + (r + rest);
  }

  lemma FrameParts(l: Bytes, r: Bytes, rest: Bytes)
    requires |l| == 4
    ensures var b := l + (r + rest); b[..4] == l && b[4..4 + |r|] == r && b[4 + |r|..] == rest
  {
    Slice(l, r, rest);
    assert l + (r + rest) == l + r + rest;
  }

  lemma VoteBytes(q: VoteReq)
    ensures var b := EncodeVote(q);
            && |b| == 33 && b[1..9] == LE(q.term, 8) && b[9..17] == LE(q.candidate, 8)
            && b[17..25] == LE(q.lastIndex, 8) && b[25..33] == LE(q.lastTerm, 8)
  {
    hide LE;
  }

  /** A response is a letter, a term and a byte that is 1 or 0. */
  lemma ResponseBytes(a: AppendResp, v: VoteResp)
    ensures var b, c := EncodeAppendResp(a), EncodeVoteResp(v);
            && |b| == 10 == |c| && b[1..9] == LE(a.term, 8) && c[1..9] == LE(v.term, 8)
            && b[9] == (if a.success then 1 else 0) && c[9] == (if v.granted then 1 else 0)
  {
    hide LE;
  }

  // ---- what parsers do not look at

  /** The letter of a payload and the length in front of a record are skipped, and any byte but zero means yes. */
  lemma LetterIgnored(x: bv8, y: bv8, rest: Bytes)
    ensures DecodeAppend([x] + rest) == DecodeAppend([y] + rest) && DecodeVote([x] + rest) == DecodeVote([y] + rest)
    ensures DecodeFlag([x] + rest) == DecodeFlag([y] + rest)
  {
    hide TakeInt, ParseFrames;
    TakeFirst([x], rest);
    TakeFirst([y], rest);
  }

  lemma FrameLengthIgnored(l: Bytes, l': Bytes, rest: Bytes, n: nat)
    requires |l| == 4 == |l'| && n >= 1
    ensures ParseFrames(l + rest, n) == ParseFrames(l' + rest, n)
  {
    hide ParseEntry;
    TakeFirst(l, rest);
    TakeFirst(l', rest);
  }

  lemma AnyByteIsYes(tag: bv8, term: nat, b: bv8)
    requires term < U64
    ensures DecodeFlag([tag] + (LE(term, 8) + [b])) == Some((term, b != 0))
  {
    hide LE, TakeInt;
    Widths();
    TakeFirst([tag], LE(term, 8) + [b]);
    TakeIntRoundTrip(term, 8, [b]);
  }
}
