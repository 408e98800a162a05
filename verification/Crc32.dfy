/**
 CRC-32 as the log uses it: the reflected CRC of section 8 of RFC 1952, computed by table, against division one bit at
 a time; and why a change inside four consecutive bytes always changes it.
 */
module Crc32 {
  import opened Types
  import opened Integers

  /** A uint32_t. Boxing the bits keeps proofs about words apart from proofs about bits. */
  datatype Word = Word(bits: bv32)

  const POLY := Word(0xEDB88320)
  const ONES := Word(0xFFFFFFFF)
  const ZERO := Word(0)

  function Xor(a: Word, b: Word): Word { Word(a.bits ^ b.bits) }

  predicate Odd(w: Word) { w.bits & 1 == 1 }

  function Half(w: Word): Word { Word(w.bits >> 1) }

  function FromByte(b: bv8): Word { Word(b as bv32) }

  /** One bit of division: shift right, subtract the polynomial if a one fell out. */
  function Shift(w: Word): Word {
    if Odd(w) then Xor(Half(w), POLY) else Half(w)
  }

  function ShiftN(w: Word, n: nat): Word
    decreases n
  {
    if n == 0 then w else ShiftN(Shift(w), n - 1)
  }

  // ---- reference: the message as a stream of bits, lowest bit of each byte first

  function LowBit(b: bv8): Word { Word((b & 1) as bv32) }

  function HalveByte(b: bv8): bv8 { b >> 1 }

  /** Feed the n lowest bits of a byte into the register, one at a time. */
  function FeedBits(w: Word, b: bv8, n: nat): Word
    decreases n
  {
    if n == 0 then w else FeedBits(Shift(Xor(w, LowBit(b))), HalveByte(b), n - 1)
  }

  function Feed(w: Word, data: Bytes): Word {
    if data == [] then w else FeedBits(Feed(w, data[..|data| - 1]), data[|data| - 1], 8)
  }

  function Crc(data: Bytes): Word {
    Xor(Feed(ONES, data), ONES)
  }

  // ---- facts about single words

  lemma XorAssoc(a: Word, b: Word, c: Word)
    ensures Xor(Xor(a, b), c) == Xor(a, Xor(b, c))
  {
  }

  lemma XorCommutes(a: Word, b: Word)
    ensures Xor(a, b) == Xor(b, a)
  {
  }

  lemma XorZero(w: Word)
    ensures Xor(w, ZERO) == w && Xor(w, w) == ZERO
  {
  }

  lemma HalfLinear(a: Word, b: Word)
    ensures Half(Xor(a, b)) == Xor(Half(a), Half(b))
  {
  }

  lemma OddLinear(a: Word, b: Word)
    ensures Odd(Xor(a, b)) <==> Odd(a) != Odd(b)
  {
  }

  lemma SplitByte(b: bv8)
    ensures FromByte(b) == Xor(LowBit(b), FromByte(b & 0xFE))
  {
  }

  lemma EvenByte(b: bv8)
    ensures !Odd(FromByte(b & 0xFE)) && Half(FromByte(b & 0xFE)) == FromByte(HalveByte(b))
  {
  }

  // ---- the division is linear

  /** Regroup a sum of two sums. */
  lemma XorSwap(a: Word, b: Word, c: Word, d: Word)
    ensures Xor(Xor(a, b), Xor(c, d)) == Xor(Xor(a, c), Xor(b, d))
  {
    XorAssoc(a, b, Xor(c, d));
    XorAssoc(b, c, d);
    XorCommutes(b, c);
    XorAssoc(c, b, d);
    XorAssoc(a, c, Xor(b, d));
  }

  lemma ShiftLinear(a: Word, b: Word)
    ensures Shift(Xor(a, b)) == Xor(Shift(a), Shift(b))
  {
    HalfLinear(a, b);
    OddLinear(a, b);
    if Odd(a) && Odd(b) {
      XorSwap(Half(a), POLY, Half(b), POLY);
      XorZero(POLY);
      XorZero(Xor(Half(a), Half(b)));
    } else if Odd(a) {
      XorAssoc(Half(a), POLY, Half(b));
      XorCommutes(POLY, Half(b));
      XorAssoc(Half(a), Half(b), POLY);
    } else {
      XorAssoc(Half(a), Half(b), POLY);
    }
  }

  lemma {:induction false} ShiftNLinear(a: Word, b: Word, n: nat)
    ensures ShiftN(Xor(a, b), n) == Xor(ShiftN(a, n), ShiftN(b, n))
    decreases n
  {
    if n > 0 {
      ShiftLinear(a, b);
      ShiftNLinear(Shift(a), Shift(b), n - 1);
    }
  }

  function HalveN(b: bv8, n: nat): bv8
    decreases n
  {
    if n == 0 then b else HalveN(HalveByte(b), n - 1)
  }

  /** Adding a whole byte and dividing n times is the same as feeding n bits and adding what is left of the byte. */
  lemma {:induction false} FeedIsShift(w: Word, b: bv8, n: nat)
    ensures ShiftN(Xor(w, FromByte(b)), n) == Xor(FeedBits(w, b, n), FromByte(HalveN(b, n)))
    decreases n
  {
    if n > 0 {
      var v := Xor(w, LowBit(b));
      SplitByte(b);
      XorAssoc(w, LowBit(b), FromByte(b & 0xFE));
      ShiftLinear(v, FromByte(b & 0xFE));
      EvenByte(b);
      FeedIsShift(Shift(v), HalveByte(b), n - 1);
    }
  }

  lemma HalvedAway(b: bv8)
    ensures HalveN(b, 8) == 0
  {
    var b4 := HalveByte(HalveByte(HalveByte(HalveByte(b))));
    assert b4 == b >> 4;
    assert HalveN(b, 8) == HalveN(HalveByte(b), 7) == HalveN(HalveByte(HalveByte(b)), 6);
    assert HalveN(HalveByte(HalveByte(b)), 6) == HalveN(HalveByte(HalveByte(HalveByte(b))), 5) == HalveN(b4, 4);
    assert HalveN(b4, 4) == HalveN(HalveByte(b4), 3) == HalveN(HalveByte(HalveByte(b4)), 2);
    assert HalveN(HalveByte(HalveByte(b4)), 2) == HalveByte(HalveByte(HalveByte(HalveByte(b4))));
    assert HalveByte(HalveByte(HalveByte(HalveByte(b4)))) == 0;
  }

  lemma FeedByte(w: Word, b: bv8)
    ensures FeedBits(w, b, 8) == ShiftN(Xor(w, FromByte(b)), 8)
  {
    FeedIsShift(w, b, 8);
    HalvedAway(b);
    XorZero(FeedBits(w, b, 8));
  }

  // ---- words that only move

  function Twice(w: Word): Word { Word(w.bits << 1) }

  function Up8(w: Word): Word { Word(w.bits << 8) }

  function Down8(w: Word): Word { Word(w.bits >> 8) }

  function LowByte(w: Word): bv8 { (w.bits & 0xFF) as bv8 }

  lemma ShiftTwice(w: Word)
    requires w.bits < 0x80000000
    ensures Shift(Twice(w)) == w
  {
    assert !Odd(Twice(w)) && Half(Twice(w)) == w;
  }

  lemma SmallTwice(w: Word)
    requires w.bits < 0x1000000
    ensures Twice(w).bits < 0x2000000 && Twice(Twice(w)).bits < 0x4000000 && Twice(Twice(Twice(w))).bits < 0x8000000
  {
  }

  lemma LargerTwice(w: Word)
    requires w.bits < 0x8000000
    ensures Twice(w).bits < 0x10000000 && Twice(Twice(w)).bits < 0x20000000
    ensures Twice(Twice(Twice(w))).bits < 0x40000000 && Twice(Twice(Twice(Twice(w)))).bits < 0x80000000
  {
  }

  lemma TwiceEight(w: Word)
    ensures Twice(Twice(Twice(Twice(Twice(Twice(Twice(Twice(w)))))))) == Up8(w)
  {
  }

  lemma ShiftStep(w: Word, n: nat)
    requires w.bits < 0x80000000
    ensures ShiftN(Twice(w), n + 1) == ShiftN(w, n)
  {
    ShiftTwice(w);
  }

  /** Eight divisions undo moving a short word up by a byte. */
  lemma ShiftUp8(w: Word)
    requires w.bits < 0x1000000
    ensures ShiftN(Up8(w), 8) == w
  {
    var a := Twice(w);
    var b := Twice(a);
    var c := Twice(b);
    SmallTwice(w);
    var d := Twice(c);
    var e := Twice(d);
    var f := Twice(e);
    var g := Twice(f);
    LargerTwice(c);
    TwiceEight(w);
    ShiftStep(g, 7);
    ShiftStep(f, 6);
    ShiftStep(e, 5);
    ShiftStep(d, 4);
    ShiftStep(c, 3);
    ShiftStep(b, 2);
    ShiftStep(a, 1);
    ShiftStep(w, 0);
  }

  lemma SplitWord(w: Word, b: bv8)
    ensures w == Xor(Up8(Down8(w)), FromByte(LowByte(w))) && Down8(w).bits < 0x1000000
    ensures Down8(Xor(w, FromByte(b))) == Down8(w)
  {
  }

  // ---- the table

  function TableEntry(i: bv8): Word { ShiftN(FromByte(i), 8) }

  /** One step of the table loop. */
  function TableStep(w: Word, b: bv8): Word {
    Xor(Down8(w), TableEntry(LowByte(Xor(w, FromByte(b)))))
  }

  /** Looking up the lowest byte and moving the rest down divides by the whole byte. */
  lemma TableStepFeeds(w: Word, b: bv8)
    ensures TableStep(w, b) == FeedBits(w, b, 8)
  {
    var x := Xor(w, FromByte(b));
    SplitWord(x, b);
    SplitWord(w, b);
    ShiftNLinear(Up8(Down8(x)), FromByte(LowByte(x)), 8);
    ShiftUp8(Down8(x));
    FeedByte(w, b);
  }

  lemma FeedNext(w: Word, data: Bytes, i: nat)
    requires i < |data|
    ensures Feed(w, data[..i + 1]) == FeedBits(Feed(w, data[..i]), data[i], 8)
  {
    assert data[..i + 1][..i] == data[..i] && data[..i + 1][i] == data[i];
  }

  method MakeTable() returns (table: array<Word>)
    ensures fresh(table) && table.Length == 256
    ensures forall i :: 0 <= i < 256 ==> table[i] == TableEntry(ByteOf(i))
  {
    table := new Word[256];
    for i := 0 to 256
      invariant forall k :: 0 <= k < i ==> table[k] == TableEntry(ByteOf(k))
    {
      var crc := FromByte(ByteOf(i));
      for j := 0 to 8
        invariant ShiftN(crc, 8 - j) == TableEntry(ByteOf(i))
      {
        if Odd(crc) {
          crc := Xor(Half(crc), POLY);
        } else {
          crc := Half(crc);
        }
      }
      table[i] := crc;
    }
  }

  /** crc32_compute: build the table, run the bytes through it. The result is the bit-at-a-time remainder. */
  method Compute(data: Bytes) returns (r: Word)
    ensures r == Crc(data)
  {
    var table := MakeTable();
    var crc := ONES;
    for i := 0 to |data|
      invariant forall k :: 0 <= k < 256 ==> table[k] == TableEntry(ByteOf(k))
      invariant crc == Feed(ONES, data[..i])
    {
      FeedNext(ONES, data, i);
      TableStepFeeds(crc, data[i]);
      var x := LowByte(Xor(crc, FromByte(data[i])));
      var k := ValueOf(x);
      ValueRoundTrip(x);
      crc := Xor(Down8(crc), table[k]);
    }
    assert data[..|data|] == data;
    r := Xor(crc, ONES);
  }

  // ---- the check value

  const DIGITS: Bytes := [49, 50, 51, 52, 53, 54, 55, 56, 57]

  function Shift4(w: Word): Word { Shift(Shift(Shift(Shift(w)))) }

  /** A byte fed by two lots of four divisions, given what lies between them. */
  lemma FedVia(w: Word, b: bv8, half: Word, r: Word)
    requires Shift4(Xor(w, FromByte(b))) == half && Shift4(half) == r
    ensures FeedBits(w, b, 8) == r
  {
    FeedByte(w, b);
    assert ShiftN(Xor(w, FromByte(b)), 8) == ShiftN(half, 4) == r;
  }

  lemma DigitsFed()
    ensures FeedBits(Word(0xFFFFFFFF), 49, 8) == Word(0x7C231048)
    ensures FeedBits(Word(0x7C231048), 50, 8) == Word(0xB0ACBB32)
    ensures FeedBits(Word(0xB0ACBB32), 51, 8) == Word(0x77B79C2D)
    ensures FeedBits(Word(0x77B79C2D), 52, 8) == Word(0x641C1F5C)
    ensures FeedBits(Word(0x641C1F5C), 53, 8) == Word(0x340AC5E3)
    ensures FeedBits(Word(0x340AC5E3), 54, 8) == Word(0xF68D2C9E)
    ensures FeedBits(Word(0xF68D2C9E), 55, 8) == Word(0xAFFC9660)
    ensures FeedBits(Word(0xAFFC9660), 56, 8) == Word(0x651F2550)
    ensures FeedBits(Word(0x651F2550), 57, 8) == Word(0x340BC6D9)
  {
    FedVia(Word(0xFFFFFFFF), 49, Word(0xAFF51D84), Word(0x7C231048));
    FedVia(Word(0x7C231048), 50, Word(0xD11492EF), Word(0xB0ACBB32));
    FedVia(Word(0xB0ACBB32), 51, Word(0x16BDDBD4), Word(0x77B79C2D));
    FedVia(Word(0x77B79C2D), 52, Word(0xF774EA85), Word(0x641C1F5C));
    FedVia(Word(0x641C1F5C), 53, Word(0xF64E52B2), Word(0x340AC5E3));
    FedVia(Word(0x340AC5E3), 54, Word(0x682BFDA9), Word(0xF68D2C9E));
    FedVia(Word(0xF68D2C9E), 55, Word(0xFF67418E), Word(0xAFFC9660));
    FedVia(Word(0xAFFC9660), 56, Word(0xE7474A45), Word(0x651F2550));
    FedVia(Word(0x651F2550), 57, Word(0xF65E6112), Word(0x340BC6D9));
  }

  /** The CRC of the digits 1 to 9 is the one every implementation of this CRC gives. */
  lemma CheckValue()
    ensures Crc(DIGITS) == Word(0xCBF43926)
  {
    hide FeedBits;
    DigitsFed();
    assert DIGITS[..0] == [] && DIGITS[..9] == DIGITS;
    FeedNext(ONES, DIGITS, 0);
    FeedNext(ONES, DIGITS, 1);
    FeedNext(ONES, DIGITS, 2);
    FeedNext(ONES, DIGITS, 3);
    FeedNext(ONES, DIGITS, 4);
    FeedNext(ONES, DIGITS, 5);
    FeedNext(ONES, DIGITS, 6);
    FeedNext(ONES, DIGITS, 7);
    FeedNext(ONES, DIGITS, 8);
  }

  // ---- a short change never goes unnoticed

  lemma ShiftZero(w: Word)
    requires Shift(w) == ZERO
    ensures w == ZERO
  {
    assert Half(w).bits < 0x80000000;
    assert Half(w) == ZERO && !Odd(w) ==> w == ZERO;
    assert Odd(w) ==> Half(w) == POLY by {
      XorZero(POLY);
      XorAssoc(Half(w), POLY, POLY);
      XorZero(Half(w));
      XorCommutes(ZERO, POLY);
    }
  }

  lemma {:induction false} ShiftNZero(w: Word, n: nat)
    requires ShiftN(w, n) == ZERO
    ensures w == ZERO
    decreases n
  {
    if n > 0 {
      ShiftNZero(Shift(w), n - 1);
      ShiftZero(w);
    }
  }

  lemma XorSame(a: Word, b: Word)
    ensures Xor(a, b) == ZERO <==> a == b
  {
    XorZero(a);
    XorZero(b);
    XorAssoc(a, b, b);
  }

  lemma ShiftNInjective(a: Word, b: Word, n: nat)
    requires ShiftN(a, n) == ShiftN(b, n)
    ensures a == b
  {
    ShiftNLinear(a, b, n);
    XorSame(ShiftN(a, n), ShiftN(b, n));
    ShiftNZero(Xor(a, b), n);
    XorSame(a, b);
  }

  /** Equal bytes keep different registers different. */
  lemma {:induction false} FeedInjective(a: Word, b: Word, data: Bytes)
    requires Feed(a, data) == Feed(b, data)
    ensures a == b
  {
    if data != [] {
      var n := |data| - 1;
      var p, q, e := Feed(a, data[..n]), Feed(b, data[..n]), FromByte(data[n]);
      FeedByte(p, data[n]);
      FeedByte(q, data[n]);
      ShiftNInjective(Xor(p, e), Xor(q, e), 8);
      XorSwap(p, e, q, e);
      XorSame(Xor(p, e), Xor(q, e));
      XorZero(e);
      XorZero(Xor(p, q));
      XorSame(p, q);
      FeedInjective(a, b, data[..n]);
    }
  }

  lemma {:induction false} FeedConcat(w: Word, a: Bytes, b: Bytes)
    ensures Feed(w, a + b) == Feed(Feed(w, a), b)
  {
    if b == [] {
      assert a + b == a;
    } else {
      var n := |b| - 1;
      assert (a + b)[..|a + b| - 1] == a + b[..n];
      FeedConcat(w, a, b[..n]);
    }
  }

  /** After k bytes, a difference of registers so small that nothing can have changed. */
  predicate Small(d: Word, k: nat) {
    k == 0 || d.bits < (if k == 1 then 0x1000000 else if k == 2 then 0x10000 else if k == 3 then 0x100 else 1)
  }

  /** The difference of two registers before the last of k bytes, from the difference after it. */
  lemma StepBack(d: Word, e: Word, after: Word, k: nat)
    requires 1 <= k <= 4 && Small(after, k) && e.bits < 0x100 && ShiftN(Xor(d, e), 8) == after
    ensures Small(d, k - 1)
    ensures d == ZERO ==> e == ZERO
  {
    ShiftUp8(after);
    ShiftNInjective(Xor(d, e), Up8(after), 8);
    XorAssoc(d, e, e);
    XorZero(e);
    XorZero(d);
    assert d == Xor(Up8(after), e);
    BoundBack(after, e, k);
    if d == ZERO {
      XorSame(Up8(after), e);
      LowByteOnly(after, e);
    }
  }

  lemma BoundBack(after: Word, e: Word, k: nat)
    requires 1 <= k <= 4 && Small(after, k) && e.bits < 0x100
    ensures Small(Xor(Up8(after), e), k - 1)
  {
  }

  lemma LowByteOnly(after: Word, e: Word)
    requires e.bits < 0x100 && e == Up8(after)
    ensures e == ZERO
  {
  }

  lemma ByteDifference(x: bv8, y: bv8)
    ensures Xor(FromByte(x), FromByte(y)).bits < 0x100
    ensures Xor(FromByte(x), FromByte(y)) == ZERO ==> x == y
  {
  }

  /** What one byte each makes of the difference of two registers. */
  lemma FeedDifference(p: Word, q: Word, a: bv8, b: bv8)
    ensures Xor(FeedBits(p, a, 8), FeedBits(q, b, 8)) == ShiftN(Xor(Xor(p, q), Xor(FromByte(a), FromByte(b))), 8)
  {
    FeedByte(p, a);
    FeedByte(q, b);
    ShiftNLinear(Xor(p, FromByte(a)), Xor(q, FromByte(b)), 8);
    XorSwap(p, FromByte(a), q, FromByte(b));
  }

  /** One byte back: the registers before the last byte differ even less, and if not at all, neither does the byte. */
  lemma WindowStep(p: Word, q: Word, a: bv8, b: bv8, k: nat)
    requires 1 <= k <= 4 && Small(Xor(FeedBits(p, a, 8), FeedBits(q, b, 8)), k)
    ensures Small(Xor(p, q), k - 1) && (p == q ==> a == b)
  {
    hide FeedBits, ShiftN, Small, FromByte;
    FeedDifference(p, q, a, b);
    ByteDifference(a, b);
    StepBack(Xor(p, q), Xor(FromByte(a), FromByte(b)), Xor(FeedBits(p, a, 8), FeedBits(q, b, 8)), k);
    XorSame(p, q);
  }

  lemma {:induction false} WindowChange(w: Word, x: Bytes, y: Bytes)
    requires |x| == |y| <= 4 && Small(Xor(Feed(w, x), Feed(w, y)), |x|)
    ensures x == y
  {
    hide FeedBits, Xor, Small;
    if |x| > 0 {
      var n := |x| - 1;
      WindowStep(Feed(w, x[..n]), Feed(w, y[..n]), x[n], y[n], |x|);
      WindowChange(w, x[..n], y[..n]);
      assert x == x[..n] + [x[n]] && y == y[..n] + [y[n]];
    }
  }

  /** Changing data only inside a window of at most four consecutive bytes changes its CRC. */
  lemma ShortChangeDetected(front: Bytes, x: Bytes, y: Bytes, back: Bytes)
    requires |x| == |y| <= 4 && x != y
    ensures Crc(front + x + back) != Crc(front + y + back)
  {
    var w := Feed(ONES, front);
    if Crc(front + x + back) == Crc(front + y + back) {
      FeedConcat(ONES, front + x, back);
      FeedConcat(ONES, front, x);
      FeedConcat(ONES, front + y, back);
      FeedConcat(ONES, front, y);
      CrcIsFeed(front + x + back, front + y + back);
      FeedInjective(Feed(w, x), Feed(w, y), back);
      XorZero(Feed(w, x));
      assert Small(ZERO, |x|);
      WindowChange(w, x, y);
      assert false;
    }
  }

  lemma CrcIsFeed(a: Bytes, b: Bytes)
    ensures Crc(a) == Crc(b) <==> Feed(ONES, a) == Feed(ONES, b)
  {
    var p, q := Feed(ONES, a), Feed(ONES, b);
    XorSwap(p, ONES, q, ONES);
    XorZero(ONES);
    XorZero(Xor(p, q));
    XorSame(p, q);
    XorSame(Xor(p, ONES), Xor(q, ONES));
  }
}
