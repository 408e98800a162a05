/**
 The persistent store: the log file and the meta file as bytes, the cached length and last term, and the volatile
 commit and apply indices. Every operation is specified on the sequence of records the log file stands for.
 */
module Storages {
  import opened Types
  import opened Integers
  import opened Codec
  import opened CodecLoops

  // ---- raft.meta

  function EncodeMeta(term: nat, voted: Bytes): Bytes {
    LE(term, 8) + (Len32(|voted|) + voted)
  }

  const EOF_BYTE: bv8 := 255

  /** A file read past its end: get returns EOF, which becomes a byte of ones. */
  function Padded(data: Bytes): (b: Bytes)
    ensures |b| >= 12 && (|data| >= 12 ==> b == data)
  {
    if |data| >= 12 then data else data + seq(12 - |data|, _ => EOF_BYTE)
  }

  /** The len bytes of a zeroed buffer into which whatever is left of the file was read. */
  function Filled(rest: Bytes, len: nat): (b: Bytes)
    ensures |b| == len && (|rest| >= len ==> b == rest[..len])
  {
    if |rest| >= len then rest[..len] else rest + seq(len - |rest|, _ => 0 as bv8)
  }

  /** load_meta on any bytes, too few of them included. */
  function DecodeMeta(data: Bytes): (nat, Bytes) {
    var b := Padded(data);
    (FromLE(b[..8]), Filled(b[12..], FromLen32(b[8..12])))
  }

  lemma MetaRoundTrip(term: nat, voted: Bytes)
    requires term < U64 && |voted| < U32
    ensures DecodeMeta(EncodeMeta(term, voted)) == (term, voted)
  {
    hide LE, FromLE, Len32, FromLen32;
    Widths();
    FromLEInverts(term, 8);
    Len32RoundTrip(|voted|);
    var data := EncodeMeta(term, voted);
    Slice(LE(term, 8), Len32(|voted|), voted);
    assert data == LE(term, 8) + Len32(|voted|) + voted;
    assert data[..8] == LE(term, 8) && data[8..12] == Len32(|voted|) && data[12..] == voted;
    assert Padded(data) == data && Filled(voted, |voted|) == voted;
  }

  lemma DecodedBounds(data: Bytes)
    ensures DecodeMeta(data).0 < U64 && |DecodeMeta(data).1| < U32
  {
    hide LE, FromLE, Swap;
    Widths();
    var b := Padded(data);
    LEInverts(b[..8]);
    LEInverts(b[8..12]);
    SwapInverts(FromLE(b[8..12]), 4);
  }

  /** Records numbered 1, 2, 3, ... */
  ghost predicate Numbered(es: seq<RawEntry>) {
    forall i :: 0 <= i < |es| ==> es[i].index == i + 1
  }

  /** A log file that no crash or disk error has damaged. */
  ghost predicate WellFormed(file: Bytes, es: seq<RawEntry>) {
    file == EncodeLog(es) && AllGood(es) && Numbered(es)
  }

  function LastTermOf(es: seq<RawEntry>): nat {
    if es == [] then 0 else es[|es| - 1].term
  }

  lemma WellFormedSnoc(file: Bytes, es: seq<RawEntry>, e: RawEntry)
    requires WellFormed(file, es) && Fits(e) && Verify(e) && e.index == |es| + 1
    ensures WellFormed(file + EncodeEntry(e), es + [e])
  {
    hide EncodeEntry, Fits, Verify, EncodeLog;
    EncodeLogSnoc(es, e);
  }

  // ---- histories of a log file

  datatype LogOp = AppendOp(e: RawEntry) | TruncateOp(keep: nat)

  /** What an operation does to the sequence of records. */
  function LogStep(log: seq<RawEntry>, op: LogOp): seq<RawEntry> {
    match op
    case AppendOp(e) => log + [e]
    case TruncateOp(keep) => if keep < |log| then log[..keep] else log
  }

  /** What it does to the bytes of the file, with nothing but the bytes to go by. */
  function FileStep(file: Bytes, op: LogOp): Bytes {
    match op
    case AppendOp(e) => file + EncodeEntry(e)
    case TruncateOp(keep) => var es := ParseLog(file); if keep < |es| then EncodeLog(es[..keep]) else file
  }

  ghost predicate Allowed(log: seq<RawEntry>, op: LogOp) {
    op.AppendOp? ==> Fits(op.e) && Verify(op.e) && op.e.index == |log| + 1
  }

  function LogAfter(log: seq<RawEntry>, ops: seq<LogOp>): seq<RawEntry>
    decreases |ops|
  {
    if ops == [] then log else LogAfter(LogStep(log, ops[0]), ops[1..])
  }

  function FileAfter(file: Bytes, ops: seq<LogOp>): Bytes
    decreases |ops|
  {
    if ops == [] then file else FileAfter(FileStep(file, ops[0]), ops[1..])
  }

  ghost predicate AllAllowed(log: seq<RawEntry>, ops: seq<LogOp>)
    decreases |ops|
  {
    ops == [] || (Allowed(log, ops[0]) && AllAllowed(LogStep(log, ops[0]), ops[1..]))
  }

  lemma FileStepTracks(file: Bytes, log: seq<RawEntry>, op: LogOp)
    requires WellFormed(file, log) && Allowed(log, op)
    ensures WellFormed(FileStep(file, op), LogStep(log, op))
  {
    hide EncodeEntry, EncodeLog, ParseLog, Fits, Verify;
    FileRoundTrip(log);
    if op.AppendOp? {
      WellFormedSnoc(file, log, op.e);
    }
  }

  /**
   Over every sequence of index-consecutive appends and truncates, in any order, the bytes on file read back as
   exactly the records the operations describe, correctly numbered.
   */
  lemma {:induction false} FileTracksLog(file: Bytes, log: seq<RawEntry>, ops: seq<LogOp>)
    requires WellFormed(file, log) && AllAllowed(log, ops)
    ensures WellFormed(FileAfter(file, ops), LogAfter(log, ops))
    ensures ParseLog(FileAfter(file, ops)) == LogAfter(log, ops)
    decreases |ops|
  {
    hide FileStep, LogStep, EncodeEntry, EncodeLog, ParseLog, Fits, Verify;
    if ops == [] {
      FileRoundTrip(log);
    } else {
      FileStepTracks(file, log, ops[0]);
      FileTracksLog(FileStep(file, ops[0]), LogStep(log, ops[0]), ops[1..]);
    }
  }

  class Storage {
    var term: nat
    var voted: Bytes
    var logLength: nat
    var lastLogTerm: nat
    var commitIndex: nat
    var lastApplied: nat
    var file: Bytes           // contents of raft.log
    var meta: Option<Bytes>   // contents of raft.meta, if it exists
    ghost var log: seq<RawEntry>

    /** File and caches stand for `log`; the meta file holds term and vote. */
    ghost predicate Valid()
      reads this
    {
      && WellFormed(file, log) && logLength == |log| && lastLogTerm == LastTermOf(log)
      && term < U64 && |voted| < U32
      && (meta == Some(EncodeMeta(term, voted)) || (meta == None && term == 0 && voted == []))
    }

    /**
     Opening the store after a crash or for the first time: only what is on disk comes back. The two files may hold
     any bytes. The log is the records up to the first unreadable one; the store is valid if they are the whole file,
     numbered on from 1, and the meta file was whole, absent, or has just been rewritten because there is a log.
     */
    constructor (file: Bytes, meta: Option<Bytes>)
      ensures this.file == file && log == ParseLog(file)
      ensures (term, voted) == if meta.Some? then DecodeMeta(meta.value) else (0, [])
      ensures logLength == (if log == [] then 0 else log[|log| - 1].index) && lastLogTerm == LastTermOf(log)
      ensures commitIndex == 0 && lastApplied == 0
      ensures Valid() <==>
                WellFormed(file, log) && (log != [] || meta == None || meta == Some(EncodeMeta(term, voted)))
    {
      hide EncodeLog, EncodeMeta, DecodeMeta, ParseLog, AllGood;
      this.file, this.meta, this.log := file, meta, ParseLog(file);
      this.term, this.voted := 0, [];
      logLength, lastLogTerm, commitIndex, lastApplied := 0, 0, 0, 0;
      new;
      if meta.Some? {
        DecodedBounds(meta.value);
        LoadMeta();
      }
      var entries := ReadRecords(this.file);
      if entries != [] {
        logLength := entries[|entries| - 1].index;
        lastLogTerm := entries[|entries| - 1].term;
        SaveMeta();
      }
    }

    method SaveMeta()
      requires term < U64 && |voted| < U32
      modifies this`meta
      ensures meta == Some(EncodeMeta(term, voted))
    {
      hide LE, Swap, EncodeMeta;
      var v := PushLE([], term, 8);
      v := PushLE(v, Swap(|voted| % U32, 4), 4);
      MetaLayout(term, voted, v + voted);
      meta := Some(v + voted);
    }

    static lemma MetaLayout(term: nat, voted: Bytes, v: Bytes)
      requires v == [] + LE(term, 8) + LE(Swap(|voted| % U32, 4), 4) + voted
      ensures v == EncodeMeta(term, voted)
    {
      hide LE, Swap;
      assert [] + LE(term, 8) == LE(term, 8);
    }

    method LoadMeta()
      requires meta.Some?
      modifies this`term, this`voted
      ensures (term, voted) == DecodeMeta(meta.value)
    {
      hide FromLE, Swap;
      var data := Padded(meta.value);
      assert data[0..8] == data[..8];
      var t, o := ReadLE(data, 0, 8);
      var n, o2 := ReadLE(data, o, 4);
      term := t;
      voted := Filled(data[o2..], Swap(n, 4));
    }

    /** A crash after this and before the SetVoted that follows it leaves the new term with the old vote on disk. */
    method SetTerm(t: nat)
      requires Valid() && t < U64
      modifies this`term, this`meta
      ensures Valid() && term == t
    {
      hide EncodeMeta;
      term := t;
      SaveMeta();
    }

    method SetVoted(v: Bytes)
      requires Valid() && |v| < U32
      modifies this`voted, this`meta
      ensures Valid() && voted == v
    {
      hide EncodeMeta;
      voted := v;
      SaveMeta();
    }

    method Append(e: RawEntry)
      requires Valid() && Fits(e) && Verify(e) && e.index == |log| + 1
      modifies this`file, this`log, this`logLength, this`lastLogTerm, this`meta
      ensures Valid() && log == LogStep(old(log), AppendOp(e)) && file == FileStep(old(file), AppendOp(e))
    {
      hide EncodeEntry, EncodeMeta, EncodeLog, RecordLayout, Fits, Verify;
      var data := SerializeEntry(e);
      WellFormedSnoc(file, log, e);
      file := file + data;
      log := log + [e];
      logLength := e.index;
      lastLogTerm := e.term;
      SaveMeta();
    }

    method ReadAll() returns (entries: seq<RawEntry>)
      requires Valid()
      ensures entries == log
    {
      hide EncodeLog, ParseLog;
      FileRoundTrip(log);
      entries := ReadRecords(file);
    }

    method GetTermAt(index: nat) returns (t: nat)
      requires Valid()
      ensures t == if 1 <= index <= |log| then log[index - 1].term else 0
    {
      t := 0;
      if index == 0 || index > logLength {
        return;
      }
      var entries := ReadAll();
      if index <= |entries| {
        t := entries[index - 1].term;
      }
    }

    /** Everything after keep is cut off and the file rewritten; a larger keep changes nothing. */
    method Truncate(keep: nat)
      requires Valid()
      modifies this`file, this`log, this`logLength, this`lastLogTerm, this`meta
      ensures Valid() && log == LogStep(old(log), TruncateOp(keep)) && file == FileStep(old(file), TruncateOp(keep))
    {
      hide EncodeEntry, EncodeMeta, EncodeLog, ParseLog, RecordLayout, Fits, Verify;
      FileRoundTrip(log);
      if keep >= logLength {
        return;
      }
      var entries := ReadAll();
      if keep >= |entries| {
        return;
      }
      entries := entries[..keep];
      var data: Bytes := [];
      EmptyLog();
      for i := 0 to |entries|
        invariant data == EncodeLog(entries[..i])
      {
        var record := SerializeEntry(entries[i]);
        EncodeLogSnoc(entries[..i], entries[i]);
        assert entries[..i] + [entries[i]] == entries[..i + 1];
        data := data + record;
      }
      assert entries[..|entries|] == entries;
      file := data;
      log := entries;
      logLength := keep;
      lastLogTerm := if keep == 0 then 0 else entries[|entries| - 1].term;
      SaveMeta();
    }

    static lemma EmptyLog()
      ensures EncodeLog([]) == []
    {
    }

    method ReadFrom(start: nat) returns (entries: seq<RawEntry>)
      requires Valid()
      ensures entries == if 1 <= start <= |log| then log[start - 1..] else []
    {
      if start < 1 || start > logLength {
        return [];
      }
      var all := ReadAll();
      if start > |all| {
        return [];
      }
      return all[start - 1..];
    }

    method ReadRange(start: nat, end: nat) returns (entries: seq<RawEntry>)
      requires Valid()
      ensures entries == if 1 <= start <= end <= |log| then log[start - 1..end] else []
    {
      if start < 1 || end < start || end > logLength {
        return [];
      }
      var all := ReadAll();
      if end > |all| {
        return [];
      }
      return all[start - 1..end];
    }
  }
}
