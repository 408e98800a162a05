/** Fixed-width integers as bytes, in the two orders the formats use. */
module Integers {
  import opened Types

  function Pow256(k: nat): (p: nat)
    ensures p >= 1
  {
    if k == 0 then 1 else 256 * Pow256(k - 1)
  }

  // ---- bytes as numbers, bit by bit

  /** A number from its lowest binary digit and its half. */
  function Join(d: bool, half: nat): nat { 2 * half + if d then 1 else 0 }

  predicate OddNat(n: nat) { n % 2 == 1 }

  function HalfNat(n: nat): nat { n / 2 }

  lemma JoinSplits(d: bool, half: nat)
    ensures OddNat(Join(d, half)) == d && HalfNat(Join(d, half)) == half
  {
  }

  lemma SplitJoins(n: nat)
    ensures Join(OddNat(n), HalfNat(n)) == n
  {
  }

  function Bit(d: bool): bv8 { if d then 1 else 0 }

  /** The byte with the given bits, lowest first. */
  function Pack(a: bool, b: bool, c: bool, d: bool, e: bool, f: bool, g: bool, h: bool): bv8 {
    Bit(a) | (Bit(b) << 1) | (Bit(c) << 2) | (Bit(d) << 3)
    | (Bit(e) << 4) | (Bit(f) << 5) | (Bit(g) << 6) | (Bit(h) << 7)
  }

  function ByteOf(n: nat): bv8 {
    var n0 := n % 256;
    var n1 := HalfNat(n0);
    var n2 := HalfNat(n1);
    var n3 := HalfNat(n2);
    var n4 := HalfNat(n3);
    var n5 := HalfNat(n4);
    var n6 := HalfNat(n5);
    var n7 := HalfNat(n6);
    Pack(OddNat(n0), OddNat(n1), OddNat(n2), OddNat(n3), OddNat(n4), OddNat(n5), OddNat(n6), OddNat(n7))
  }

  /** The number with the given binary digits, lowest first. */
  function Weigh(a: bool, b: bool, c: bool, d: bool, e: bool, f: bool, g: bool, h: bool): (n: nat)
    ensures n < 256
  {
    Join(a, Join(b, Join(c, Join(d, Join(e, Join(f, Join(g, Join(h, 0))))))))
  }

  function ValueOf(b: bv8): (n: nat)
    ensures n < 256
  {
    Weigh(b & 1 != 0, b & 2 != 0, b & 4 != 0, b & 8 != 0, b & 16 != 0, b & 32 != 0, b & 64 != 0, b & 128 != 0)
  }

  lemma PackedBits(a: bool, b: bool, c: bool, d: bool, e: bool, f: bool, g: bool, h: bool)
    ensures var x := Pack(a, b, c, d, e, f, g, h);
            && (x & 1 != 0) == a && (x & 2 != 0) == b && (x & 4 != 0) == c && (x & 8 != 0) == d
            && (x & 16 != 0) == e && (x & 32 != 0) == f && (x & 64 != 0) == g && (x & 128 != 0) == h
  {
  }

  lemma Unpacked(x: bv8)
    ensures Pack(x & 1 != 0, x & 2 != 0, x & 4 != 0, x & 8 != 0,
                 x & 16 != 0, x & 32 != 0, x & 64 != 0, x & 128 != 0) == x
  {
  }

  lemma Halves(n: nat)
    requires n < 256
    ensures HalfNat(HalfNat(HalfNat(HalfNat(HalfNat(HalfNat(HalfNat(HalfNat(n)))))))) == 0
  {
    var n4 := HalfNat(HalfNat(HalfNat(HalfNat(n))));
    assert n4 < 16;
  }

  lemma ByteRoundTrip(n: nat)
    ensures ValueOf(ByteOf(n)) == n % 256
  {
    var n0 := n % 256;
    Halves(n0);
    hide Pack, Join, OddNat, HalfNat;
    var n1 := HalfNat(n0);
    var n2 := HalfNat(n1);
    var n3 := HalfNat(n2);
    var n4 := HalfNat(n3);
    var n5 := HalfNat(n4);
    var n6 := HalfNat(n5);
    var n7 := HalfNat(n6);
    PackedBits(OddNat(n0), OddNat(n1), OddNat(n2), OddNat(n3), OddNat(n4), OddNat(n5), OddNat(n6), OddNat(n7));
    SplitJoins(n0);
    SplitJoins(n1);
    SplitJoins(n2);
    SplitJoins(n3);
    SplitJoins(n4);
    SplitJoins(n5);
    SplitJoins(n6);
    SplitJoins(n7);
    assert ValueOf(ByteOf(n)) == Weigh(OddNat(n0), OddNat(n1), OddNat(n2), OddNat(n3),
                                       OddNat(n4), OddNat(n5), OddNat(n6), OddNat(n7));
  }

  lemma ValueRoundTrip(x: bv8)
    ensures ByteOf(ValueOf(x)) == x
  {
    hide Pack, Join, OddNat, HalfNat;
    var n7 := Join(x & 128 != 0, 0);
    var n6 := Join(x & 64 != 0, n7);
    var n5 := Join(x & 32 != 0, n6);
    var n4 := Join(x & 16 != 0, n5);
    var n3 := Join(x & 8 != 0, n4);
    var n2 := Join(x & 4 != 0, n3);
    var n1 := Join(x & 2 != 0, n2);
    JoinSplits(x & 128 != 0, 0);
    JoinSplits(x & 64 != 0, n7);
    JoinSplits(x & 32 != 0, n6);
    JoinSplits(x & 16 != 0, n5);
    JoinSplits(x & 8 != 0, n4);
    JoinSplits(x & 4 != 0, n3);
    JoinSplits(x & 2 != 0, n2);
    JoinSplits(x & 1 != 0, n1);
    assert ValueOf(x) == Join(x & 1 != 0, n1) == ValueOf(x) % 256;
    Unpacked(x);
  }

  // ---- numbers as bytes

  /** The k lowest bytes of n, lowest first: what a loop of (n >> 8 * j) & 0xFF pushes. */
  function LE(n: nat, k: nat): (b: Bytes)
    ensures |b| == k
    decreases k
  {
    if k == 0 then [] else [ByteOf(n)] + LE(n / 256, k - 1)
  }

  /** What a loop of |= b << 8 * j accumulates. */
  function FromLE(b: Bytes): nat {
    if b == [] then 0 else ValueOf(b[0]) + 256 * FromLE(b[1..])
  }

  lemma {:induction false} FromLEInverts(n: nat, k: nat)
    requires n < Pow256(k)
    ensures FromLE(LE(n, k)) == n
    decreases k
  {
    if k > 0 {
      FromLEInverts(n / 256, k - 1);
      ByteRoundTrip(n);
      assert LE(n, k)[1..] == LE(n / 256, k - 1);
    }
  }

  lemma {:induction false} LEInverts(b: Bytes)
    ensures FromLE(b) < Pow256(|b|) && LE(FromLE(b), |b|) == b
  {
    hide ValueOf, LE;
    if b != [] {
      LEInverts(b[1..]);
      LECons(b[0], FromLE(b[1..]), |b| - 1);
      assert b == [b[0]] + b[1..];
      DigitFits(ValueOf(b[0]), FromLE(b[1..]), Pow256(|b| - 1));
    } else {
      EmptyLE(FromLE(b));
    }
  }

  lemma EmptyLE(n: nat)
    ensures LE(n, 0) == []
  {
  }

  lemma DigitFits(d: nat, n: nat, p: nat)
    requires d < 256 && n < p
    ensures d + 256 * n < 256 * p
  {
  }

  lemma LECons(b: bv8, n: nat, k: nat)
    ensures LE(ValueOf(b) + 256 * n, k + 1) == [b] + LE(n, k)
  {
    var m := ValueOf(b) + 256 * n;
    hide ByteOf, ValueOf;
    TopDigit(ValueOf(b), n);
    ValueRoundTrip(b);
    SameByte(m, ValueOf(b));
  }

  lemma SameByte(m: nat, n: nat)
    requires m % 256 == n % 256
    ensures ByteOf(m) == ByteOf(n)
  {
  }

  lemma TopDigit(d: nat, n: nat)
    requires d < 256
    ensures (d + 256 * n) / 256 == n && (d + 256 * n) % 256 == d == d % 256
  {
  }

  function Reverse(b: Bytes): (r: Bytes)
    ensures |r| == |b|
  {
    if b == [] then [] else Reverse(b[1..]) + [b[0]]
  }

  lemma {:induction false} ReverseAt(b: Bytes, i: nat)
    requires i < |b|
    ensures Reverse(b)[i] == b[|b| - 1 - i]
  {
    if i < |b| - 1 {
      ReverseAt(b[1..], i);
    }
  }

  lemma ReverseInverts(b: Bytes)
    ensures Reverse(Reverse(b)) == b
  {
    forall i | 0 <= i < |b| ensures Reverse(Reverse(b))[i] == b[i] {
      ReverseAt(Reverse(b), i);
      ReverseAt(b, |b| - 1 - i);
    }
  }

  /** htons, htonl and their inverses on a little-endian host: the value whose k bytes are those of n, reversed. */
  function Swap(n: nat, k: nat): nat {
    FromLE(Reverse(LE(n, k)))
  }

  lemma SwapInverts(n: nat, k: nat)
    requires n < Pow256(k)
    ensures Swap(n, k) < Pow256(k) && Swap(Swap(n, k), k) == n
  {
    LEInverts(Reverse(LE(n, k)));
    ReverseInverts(LE(n, k));
    FromLEInverts(n, k);
  }

  /** Swapping reverses the bytes. */
  lemma SwapReverses(n: nat, k: nat)
    ensures LE(Swap(n, k), k) == Reverse(LE(n, k))
  {
    LEInverts(Reverse(LE(n, k)));
  }

  /** Byte i of the little-endian form is what is left of n, divided by 256 i times. */
  lemma {:induction false} LEAt(n: nat, k: nat, i: nat)
    requires i < k
    ensures ValueOf(LE(n, k)[i]) == Nth256(n, i) % 256
    decreases i
  {
    hide ByteOf, ValueOf;
    if i == 0 {
      ByteRoundTrip(n);
    } else {
      LEAt(n / 256, k - 1, i - 1);
    }
  }

  /** Adding one clears the ones below the lowest zero, sets that zero and leaves the rest. */
  lemma Carried(x: bv8)
    requires x != 255
    ensures var y := x + 1;
            && (x & 1 == 0 ==>
                  y & 1 != 0 && y & 2 == x & 2 && y & 4 == x & 4 && y & 8 == x & 8 && y & 16 == x & 16
                  && y & 32 == x & 32 && y & 64 == x & 64 && y & 128 == x & 128)
            && (x & 1 != 0 && x & 2 == 0 ==>
                  y & 1 == 0 && y & 2 != 0 && y & 4 == x & 4 && y & 8 == x & 8 && y & 16 == x & 16
                  && y & 32 == x & 32 && y & 64 == x & 64 && y & 128 == x & 128)
            && (x & 1 != 0 && x & 2 != 0 && x & 4 == 0 ==>
                  y & 1 == 0 && y & 2 == 0 && y & 4 != 0 && y & 8 == x & 8 && y & 16 == x & 16
                  && y & 32 == x & 32 && y & 64 == x & 64 && y & 128 == x & 128)
            && (x & 1 != 0 && x & 2 != 0 && x & 4 != 0 && x & 8 == 0 ==>
                  y & 1 == 0 && y & 2 == 0 && y & 4 == 0 && y & 8 != 0 && y & 16 == x & 16 && y & 32 == x & 32
                  && y & 64 == x & 64 && y & 128 == x & 128)
            && (x & 1 != 0 && x & 2 != 0 && x & 4 != 0 && x & 8 != 0 && x & 16 == 0 ==>
                  y & 1 == 0 && y & 2 == 0 && y & 4 == 0 && y & 8 == 0 && y & 16 != 0 && y & 32 == x & 32
                  && y & 64 == x & 64 && y & 128 == x & 128)
            && (x & 1 != 0 && x & 2 != 0 && x & 4 != 0 && x & 8 != 0 && x & 16 != 0 && x & 32 == 0 ==>
                  y & 1 == 0 && y & 2 == 0 && y & 4 == 0 && y & 8 == 0 && y & 16 == 0 && y & 32 != 0
                  && y & 64 == x & 64 && y & 128 == x & 128)
            && (x & 1 != 0 && x & 2 != 0 && x & 4 != 0 && x & 8 != 0 && x & 16 != 0 && x & 32 != 0 && x & 64 == 0 ==>
                  y & 1 == 0 && y & 2 == 0 && y & 4 == 0 && y & 8 == 0 && y & 16 == 0 && y & 32 == 0
                  && y & 64 != 0 && y & 128 == x & 128)
            && (x & 1 != 0 && x & 2 != 0 && x & 4 != 0 && x & 8 != 0 && x & 16 != 0 && x & 32 != 0
                  && x & 64 != 0 && x & 128 == 0 ==>
                  y & 1 == 0 && y & 2 == 0 && y & 4 == 0 && y & 8 == 0 && y & 16 == 0 && y & 32 == 0
                  && y & 64 == 0 && y & 128 != 0)
  {
  }

  lemma JoinNext(half: nat)
    ensures Join(true, half) == Join(false, half) + 1 && Join(false, half + 1) == Join(true, half) + 1
  {
  }

  /** Counting up in binary digits. */
  lemma WeighNext(a: bool, b: bool, c: bool, d: bool, e: bool, f: bool, g: bool, h: bool)
    ensures var n := Weigh(a, b, c, d, e, f, g, h);
            && (!a ==> Weigh(true, b, c, d, e, f, g, h) == n + 1)
            && (a && !b ==> Weigh(false, true, c, d, e, f, g, h) == n + 1)
            && (a && b && !c ==> Weigh(false, false, true, d, e, f, g, h) == n + 1)
            && (a && b && c && !d ==> Weigh(false, false, false, true, e, f, g, h) == n + 1)
            && (a && b && c && d && !e ==> Weigh(false, false, false, false, true, f, g, h) == n + 1)
            && (a && b && c && d && e && !f ==> Weigh(false, false, false, false, false, true, g, h) == n + 1)
            && (a && b && c && d && e && f && !g ==> Weigh(false, false, false, false, false, false, true, h) == n + 1)
            && (a && b && c && d && e && f && g && !h ==>
                  Weigh(false, false, false, false, false, false, false, true) == n + 1)
  {
    hide Join;
    var n7 := Join(h, 0);
    var n6 := Join(g, n7);
    var n5 := Join(f, n6);
    var n4 := Join(e, n5);
    var n3 := Join(d, n4);
    var n2 := Join(c, n3);
    var n1 := Join(b, n2);
    JoinNext(n1);
    JoinNext(n2);
    JoinNext(n3);
    JoinNext(n4);
    JoinNext(n5);
    JoinNext(n6);
    JoinNext(n7);
    JoinNext(0);
  }

  /** Bytes count from zero upwards. */
  lemma NextByte(x: bv8)
    ensures ValueOf(0) == 0
    ensures x != 255 ==> ValueOf(x + 1) == ValueOf(x) + 1
  {
    ZeroByte();
    if x != 255 {
      ByteAfter(x, x + 1);
    }
  }

  lemma ZeroByte()
    ensures ValueOf(0) == 0
  {
  }

  lemma ByteAfter(x: bv8, y: bv8)
    requires x != 255 && y == x + 1
    ensures ValueOf(y) == ValueOf(x) + 1
  {
    hide Weigh;
    Carried(x);
    WeighNext(x & 1 != 0, x & 2 != 0, x & 4 != 0, x & 8 != 0, x & 16 != 0, x & 32 != 0, x & 64 != 0, x & 128 != 0);
  }

  // ---- the loops

  function Nth256(n: nat, j: nat): nat
    decreases j
  {
    if j == 0 then n else Nth256(n / 256, j - 1)
  }

  lemma {:induction false} LEStep(n: nat, j: nat)
    ensures LE(n, j) + [ByteOf(Nth256(n, j))] == LE(n, j + 1)
    decreases j
  {
    hide ByteOf;
    if j > 0 {
      LEStep(n / 256, j - 1);
      assert LE(n, j) + [ByteOf(Nth256(n, j))] == [ByteOf(n)] + (LE(n / 256, j - 1) + [ByteOf(Nth256(n, j))]);
    } else {
      assert LE(n / 256, 0) == [];
    }
  }

  lemma {:induction false} NthStep(n: nat, j: nat)
    ensures Nth256(n, j) / 256 == Nth256(n, j + 1)
    decreases j
  {
    if j > 0 {
      NthStep(n / 256, j - 1);
    }
  }

  /** push_uint64 and its 32-bit siblings. */
  method PushLE(v: Bytes, val: nat, k: nat) returns (r: Bytes)
    ensures r == v + LE(val, k)
  {
    r := v;
    var shifted := val;
    for j := 0 to k
      invariant shifted == Nth256(val, j)
      invariant r == v + LE(val, j)
    {
      LEStep(val, j);
      NthStep(val, j);
      r := r + [ByteOf(shifted)];
      shifted := shifted / 256;
    }
  }

  lemma {:induction false} FromLESnoc(a: Bytes, b: bv8)
    ensures FromLE(a + [b]) == FromLE(a) + Pow256(|a|) * ValueOf(b)
  {
    hide ValueOf;
    if a == [] {
      assert a + [b] == [b];
    } else {
      FromLESnoc(a[1..], b);
      assert (a + [b])[1..] == a[1..] + [b];
      Distribute(FromLE(a[1..]), Pow256(|a| - 1), ValueOf(b));
    }
  }

  lemma Distribute(x: nat, p: nat, y: nat)
    ensures 256 * (x + p * y) == 256 * x + (256 * p) * y
  {
  }

  /** read_uint64 and its 32-bit siblings: k bytes from `offset`, lowest first, and the advanced offset. */
  method ReadLE(data: Bytes, offset: nat, k: nat) returns (val: nat, next: nat)
    requires offset + k <= |data|
    ensures val == FromLE(data[offset..offset + k]) && next == offset + k
  {
    val := 0;
    next := offset;
    var weight := 1;
    for j := 0 to k
      invariant next == offset + j && weight == Pow256(j)
      invariant val == FromLE(data[offset..next])
    {
      assert data[offset..next + 1] == data[offset..next] + [data[next]];
      FromLESnoc(data[offset..next], data[next]);
      val := val + weight * ValueOf(data[next]);
      weight := 256 * weight;
      next := next + 1;
    }
  }
}
