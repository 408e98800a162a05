/** What reading a log file returns when one record in it was damaged. */
module Corruption {
  import opened Types
  import opened Integers
  import opened Crc32
  import opened Codec
  import opened Storages

  /** `damaged` differs from `record`, but only inside a window of at most four consecutive bytes. */
  ghost predicate ShortChange(record: Bytes, damaged: Bytes, lo: nat, hi: nat) {
    && |damaged| == |record| && lo <= hi <= |record| && hi - lo <= 4 && damaged != record
    && damaged[..lo] == record[..lo] && damaged[hi..] == record[hi..]
  }

  /** The window lies within term and index, within the command, or within the checksum; not in the length. */
  predicate InsideField(commandLength: nat, lo: nat, hi: nat) {
    hi <= 16 || (20 <= lo && hi <= 20 + commandLength) || 20 + commandLength <= lo
  }

  /** The bytes of a record that its checksum covers. */
  function Covered(record: Bytes, n: nat): Bytes
    requires |record| == 24 + n
  {
    record[..16] + record[20..20 + n]
  }

  lemma RecordParts(e: RawEntry)
    ensures var r := EncodeEntry(e);
            var n := |e.command|;
            && |r| == 24 + n && r[16..20] == Len32(n) && r[20 + n..] == WordBytes(e.crc)
            && Covered(r, n) == Payload(e.term, e.index, e.command)
  {
    hide LE, Len32, WordBytes;
    var n := |e.command|;
    var a, b, c := LE(e.term, 8) + LE(e.index, 8), Len32(n), e.command;
    var r := EncodeEntry(e);
    Slice(a, b, c + WordBytes(e.crc));
    assert r == a + b + (c + WordBytes(e.crc));
    Slice(a + b, c, WordBytes(e.crc));
    assert r[..16] == a;
  }

  /** A record with an intact length field is accepted exactly when its checksum covers its bytes. */
  lemma DamagedParse(record: Bytes, n: nat, after: Bytes)
    requires |record| == 24 + n && n < U32 && record[16..20] == Len32(n)
    ensures WordFrom(record[20 + n..]) != Crc(Covered(record, n)) ==> ParseEntry(record + after) == None
  {
    hide ParseEntry, Len32, WordFrom, Crc, FromLE;
    var t, i, cmd, crc := record[..8], record[8..16], record[20..20 + n], record[20 + n..];
    ParseRecord(t, i, cmd, crc, after);
    assert t + i == record[..16];
    assert record == t + i + Len32(n) + cmd + crc;
  }

  lemma WordBytesInvert(b: Bytes)
    requires |b| == 4
    ensures WordBytes(WordFrom(b)) == b
  {
    WordParts4(b[0], b[1], b[2], b[3]);
  }

  lemma WordParts4(a: bv8, b: bv8, c: bv8, d: bv8)
    ensures var w := (a as bv32) | ((b as bv32) << 8) | ((c as bv32) << 16) | ((d as bv32) << 24);
            && (w & 0xFF) as bv8 == a && ((w >> 8) & 0xFF) as bv8 == b
            && ((w >> 16) & 0xFF) as bv8 == c && ((w >> 24) & 0xFF) as bv8 == d
  {
  }

  /** Outside the checksum field, the change shows up as one window of the covered bytes. */
  lemma CoveredWindow(record: Bytes, damaged: Bytes, n: nat, lo: nat, hi: nat)
    returns (front: Bytes, x: Bytes, y: Bytes, back: Bytes)
    requires |record| == 24 + n && ShortChange(record, damaged, lo, hi)
    requires hi <= 16 || (20 <= lo && hi <= 20 + n)
    ensures |x| == |y| <= 4 && x != y
    ensures Covered(record, n) == front + x + back && Covered(damaged, n) == front + y + back
    ensures damaged[16..20] == record[16..20] && damaged[20 + n..] == record[20 + n..]
  {
    hide Covered;
    x, y := record[lo..hi], damaged[lo..hi];
    WindowDiffers(record, damaged, lo, hi);
    TailsAgree(record, damaged, hi, 20 + n);
    if hi <= 16 {
      front, back := record[..lo], record[hi..16] + record[20..20 + n];
      SlicesAgree(record, damaged, hi, 16);
      SlicesAgree(record, damaged, 16, 20);
      SlicesAgree(record, damaged, 20, 20 + n);
      HeadWindow(record, n, lo, hi);
      HeadWindow(damaged, n, lo, hi);
    } else {
      HeadsAgree(record, damaged, lo, 16);
      front, back := record[..16] + record[20..lo], record[hi..20 + n];
      SlicesAgree(record, damaged, 16, 20);
      SlicesAgree(record, damaged, 20, lo);
      SlicesAgree(record, damaged, hi, 20 + n);
      BodyWindow(record, n, lo, hi);
      BodyWindow(damaged, n, lo, hi);
    }
  }

  lemma WindowDiffers(a: Bytes, b: Bytes, lo: nat, hi: nat)
    requires |a| == |b| && lo <= hi <= |a| && a[..lo] == b[..lo] && a[hi..] == b[hi..] && a != b
    ensures a[lo..hi] != b[lo..hi]
  {
    assert a == a[..lo] + a[lo..hi] + a[hi..] && b == b[..lo] + b[lo..hi] + b[hi..];
  }

  lemma SlicesAgree(a: Bytes, b: Bytes, i: nat, j: nat)
    requires |a| == |b| && i <= j <= |a| && forall k :: i <= k < j ==> a[k] == b[k]
    ensures a[i..j] == b[i..j]
  {
  }

  lemma TailsAgree(a: Bytes, b: Bytes, hi: nat, k: nat)
    requires |a| == |b| && hi <= k <= |a| && a[hi..] == b[hi..]
    ensures a[k..] == b[k..] && forall i :: hi <= i < |a| ==> a[i] == b[i]
  {
    forall i | hi <= i < |a| ensures a[i] == b[i] {
      assert a[i] == a[hi..][i - hi] && b[i] == b[hi..][i - hi];
    }
  }

  lemma HeadsAgree(a: Bytes, b: Bytes, lo: nat, k: nat)
    requires |a| == |b| && k <= lo <= |a| && a[..lo] == b[..lo]
    ensures a[..k] == b[..k] && forall i :: 0 <= i < lo ==> a[i] == b[i]
  {
    forall i | 0 <= i < lo ensures a[i] == b[i] {
      assert a[i] == a[..lo][i] && b[i] == b[..lo][i];
    }
  }

  lemma HeadWindow(r: Bytes, n: nat, lo: nat, hi: nat)
    requires |r| == 24 + n && lo <= hi <= 16
    ensures Covered(r, n) == r[..lo] + r[lo..hi] + (r[hi..16] + r[20..20 + n])
  {
  }

  lemma BodyWindow(r: Bytes, n: nat, lo: nat, hi: nat)
    requires |r| == 24 + n && 20 <= lo <= hi <= 20 + n
    ensures Covered(r, n) == (r[..16] + r[20..lo]) + r[lo..hi] + r[hi..20 + n]
  {
  }

  lemma DamageIsNoticed(e: RawEntry, damaged: Bytes, lo: nat, hi: nat, after: Bytes)
    requires Fits(e) && Verify(e) && ShortChange(EncodeEntry(e), damaged, lo, hi) && InsideField(|e.command|, lo, hi)
    ensures ParseEntry(damaged + after) == None
  {
    hide EncodeEntry, Len32, WordFrom, WordBytes, Crc, ParseEntry, Payload;
    var record := EncodeEntry(e);
    var n := |e.command|;
    RecordParts(e);
    WordRoundTrip(e.crc);
    if 20 + n <= lo {
      HeadsAgree(record, damaged, lo, 20);
      assert Covered(damaged, n) == Covered(record, n);
      assert damaged[16..20] == record[16..20];
      WordBytesInvert(damaged[20 + n..]);
      assert damaged == damaged[..20 + n] + damaged[20 + n..] && record == record[..20 + n] + record[20 + n..];
      HeadsAgree(record, damaged, lo, 20 + n);
    } else {
      var front, x, y, back := CoveredWindow(record, damaged, n, lo, hi);
      ShortChangeDetected(front, x, y, back);
    }
    DamagedParse(damaged, n, after);
  }

  /**
   If one record of a well-formed file is changed inside a window of four consecutive bytes that does not touch its
   length field, reading the file returns exactly the records before it.
   */
  lemma CorruptionCutOff(before: seq<RawEntry>, e: RawEntry, damaged: Bytes, lo: nat, hi: nat, after: Bytes)
    requires AllGood(before) && Fits(e) && Verify(e)
    requires ShortChange(EncodeEntry(e), damaged, lo, hi) && InsideField(|e.command|, lo, hi)
    ensures ParseLog(EncodeLog(before) + (damaged + after)) == before
  {
    hide EncodeEntry, ParseEntry, EncodeLog, Verify, Fits;
    DamageIsNoticed(e, damaged, lo, hi, after);
    LogRoundTrip(before, damaged + after);
    assert ParseLog(damaged + after) == [];
  }

  /**
   Opening the store does not cut a damaged tail off the file, so everything appended behind it is lost: however many
   records follow, reading returns only those before the damage.
   */
  lemma {:induction false} AppendsBehindDamageAreLost(
    before: seq<RawEntry>, e: RawEntry, damaged: Bytes, lo: nat, hi: nat, after: Bytes, ops: seq<LogOp>)
    requires AllGood(before) && Fits(e) && Verify(e)
    requires ShortChange(EncodeEntry(e), damaged, lo, hi) && InsideField(|e.command|, lo, hi)
    requires forall i :: 0 <= i < |ops| ==> ops[i].AppendOp?
    ensures ParseLog(FileAfter(EncodeLog(before) + (damaged + after), ops)) == before
    decreases |ops|
  {
    hide EncodeEntry, ParseEntry, EncodeLog, ParseLog, Verify, Fits;
    if ops == [] {
      CorruptionCutOff(before, e, damaged, lo, hi, after);
    } else {
      var record := EncodeEntry(ops[0].e);
      assert EncodeLog(before) + (damaged + after) + record == EncodeLog(before) + (damaged + (after + record));
      AppendsBehindDamageAreLost(before, e, damaged, lo, hi, after + record, ops[1..]);
    }
  }
}
