/** The serializers and deserializers as the program runs them: a growing buffer, a moving offset. */
module CodecLoops {
  import opened Types
  import opened Integers
  import opened Crc32
  import opened Codec
  import opened Rpc

  lemma TakeAt(data: Bytes, o: nat, k: nat)
    requires o <= |data|
    ensures Take(data[o..], k) == if o + k <= |data| then Some((data[o..o + k], data[o + k..])) else None
  {
    if o + k <= |data| {
      assert data[o..][..k] == data[o..o + k] && data[o..][k..] == data[o + k..];
    }
  }

  method SerializeEntry(e: RawEntry) returns (v: Bytes)
    ensures v == EncodeEntry(e) && RecordLayout(e, v)
  {
    hide LE, Swap, WordBytes, EncodeEntry, RecordLayout;
    RecordBytes(e);
    v := PushLE([], e.term, 8);
    v := PushLE(v, e.index, 8);
    v := PushLE(v, Swap(|e.command| % U32, 4), 4);
    v := v + e.command + WordBytes(e.crc);
    EntryLayout(e, v);
  }

  lemma EntryLayout(e: RawEntry, v: Bytes)
    requires v == [] + LE(e.term, 8) + LE(e.index, 8) + LE(Swap(|e.command| % U32, 4), 4) + e.command + WordBytes(e.crc)
    ensures v == EncodeEntry(e)
  {
    hide LE, Swap, WordBytes;
    assert [] + LE(e.term, 8) == LE(e.term, 8);
  }

  method VerifyEntry(e: RawEntry) returns (ok: bool)
    ensures ok == Verify(e)
  {
    hide LE, Crc;
    var data := PushLE([], e.term, 8);
    data := PushLE(data, e.index, 8);
    data := data + e.command;
    assert [] + LE(e.term, 8) == LE(e.term, 8);
    var crc := Compute(data);
    ok := e.crc == crc;
  }

  lemma ParseAt(data: Bytes, o: nat)
    requires o <= |data|
    ensures ParseEntry(data[o..]) ==
            if o + 20 > |data| || o + 24 + FromLen32(data[o + 16..o + 20]) > |data| then None
            else
              var n := FromLen32(data[o + 16..o + 20]);
              var e := RawEntry(FromLE(data[o..o + 8]), FromLE(data[o + 8..o + 16]), data[o + 20..o + 20 + n],
                                WordFrom(data[o + 20 + n..o + 24 + n]));
              if Verify(e) then Some((e, data[o + 24 + n..])) else None
  {
    hide Take, FromLen32, FromLE, WordFrom, Verify;
    TakeAt(data, o, 8);
    if o + 8 <= |data| {
      TakeAt(data, o + 8, 8);
    }
    if o + 16 <= |data| {
      TakeAt(data, o + 16, 4);
    }
    if o + 20 <= |data| {
      var n := FromLen32(data[o + 16..o + 20]);
      TakeAt(data, o + 20, n);
      if o + 20 + n <= |data| {
        TakeAt(data, o + 20 + n, 4);
      }
    }
  }

  /** LogEntry::deserialize; a read past the end, undefined in the program, is reported like a bad checksum. */
  method DeserializeEntry(data: Bytes, offset: nat) returns (r: Option<RawEntry>, next: nat)
    requires offset <= |data|
    ensures next <= |data|
    ensures r == None <==> ParseEntry(data[offset..]) == None
    ensures r.Some? ==> ParseEntry(data[offset..]) == Some((r.value, data[next..])) && offset < next
  {
    hide ParseEntry, FromLE, Swap, Verify, WordFrom;
    ParseAt(data, offset);
    if offset + 20 > |data| {
      return None, offset;
    }
    var term, o1 := ReadLE(data, offset, 8);
    var index, o2 := ReadLE(data, o1, 8);
    var len, o3 := ReadLE(data, o2, 4);
    len := Swap(len, 4);
    if o3 + len + 4 > |data| {
      return None, offset;
    }
    var e := RawEntry(term, index, data[o3..o3 + len], WordFrom(data[o3 + len..o3 + len + 4]));
    var ok := VerifyEntry(e);
    if ok {
      return Some(e), o3 + len + 4;
    }
    return None, offset;
  }

  /** The loop of Storage::readAll. */
  method ReadRecords(data: Bytes) returns (es: seq<RawEntry>)
    ensures es == ParseLog(data)
  {
    es := [];
    var offset := 0;
    assert data[0..] == data;
    while offset < |data|
      invariant offset <= |data|
      invariant es + ParseLog(data[offset..]) == ParseLog(data)
      decreases |data| - offset
    {
      var r, next := DeserializeEntry(data, offset);
      if r.None? {
        assert ParseLog(data[offset..]) == [];
        break;
      }
      ParseLogNext(data[offset..], r.value, data[next..]);
      es := es + [r.value];
      offset := next;
    }
    assert offset == |data| ==> ParseLog(data[offset..]) == [];
  }

  /** AppendEntries::serialize. */
  method SerializeAppend(m: WireAppend) returns (v: Bytes)
    ensures v == EncodeAppend(m) && MessageLayout(m, v)
  {
    hide LE, EncodeEntry, EncodeFrames, EncodeAppend, MessageLayout, RecordLayout;
    AppendBytes(m);
    v := PushLE([TAG_A], m.term, 8);
    v := PushLE(v, m.leaderId, 8);
    v := PushLE(v, m.prevIndex, 8);
    v := PushLE(v, m.prevTerm, 8);
    v := PushLE(v, m.leaderCommit, 8);
    v := PushLE(v, |m.entries| % U32, 4);
    ghost var head := v;
    HeadLayout(m, head);
    var i := 0;
    assert m.entries[0..] == m.entries;
    while i < |m.entries|
      invariant i <= |m.entries|
      invariant v + EncodeFrames(m.entries[i..]) == head + EncodeFrames(m.entries)
    {
      var rec := SerializeEntry(m.entries[i]);
      FrameStep(m.entries, i, v);
      v := PushLE(v, |rec| % U32, 4);
      v := v + rec;
      i := i + 1;
    }
    NoFrames(m.entries[i..]);
    assert v + [] == v;
  }

  lemma NoFrames(es: seq<RawEntry>)
    requires es == []
    ensures EncodeFrames(es) == []
  {
  }

  lemma HeadLayout(m: WireAppend, head: Bytes)
    requires head == [TAG_A] + LE(m.term, 8) + LE(m.leaderId, 8) + LE(m.prevIndex, 8) + LE(m.prevTerm, 8)
                     + LE(m.leaderCommit, 8) + LE(|m.entries| % U32, 4)
    ensures head + EncodeFrames(m.entries) == EncodeAppend(m)
  {
    hide LE, EncodeFrames;
  }

  lemma FrameStep(es: seq<RawEntry>, i: nat, v: Bytes)
    requires i < |es|
    ensures var rec := EncodeEntry(es[i]);
            v + EncodeFrames(es[i..]) == v + LE(|rec| % U32, 4) + rec + EncodeFrames(es[i + 1..])
  {
    hide EncodeEntry, LE;
    assert es[i..][1..] == es[i + 1..] && es[i..][0] == es[i];
  }

  lemma TakeIntAt(data: Bytes, o: nat, k: nat)
    requires o <= |data|
    ensures TakeInt(data[o..], k) == if o + k <= |data| then Some((FromLE(data[o..o + k]), data[o + k..])) else None
  {
    hide Take;
    TakeAt(data, o, k);
  }

  lemma FramesNext(data: Bytes, o: nat, n: nat, e: RawEntry, next: nat)
    requires n >= 1 && o + 4 <= |data| && next <= |data| && ParseEntry(data[o + 4..]) == Some((e, data[next..]))
    ensures ParseFrames(data[o..], n) == Prepend([e], ParseFrames(data[next..], n - 1))
  {
    hide ParseEntry, TakeInt;
    TakeIntAt(data, o, 4);
  }

  lemma FramesStuck(data: Bytes, o: nat, n: nat)
    requires n >= 1 && o <= |data| && (o + 4 > |data| || ParseEntry(data[o + 4..]) == None)
    ensures ParseFrames(data[o..], n) == None
  {
    hide ParseEntry, TakeInt;
    TakeIntAt(data, o, 4);
  }

  /** The loop over the framed records of AppendEntries::deserialize. */
  method DeserializeFrames(data: Bytes, offset: nat, count: nat) returns (r: Option<seq<RawEntry>>, next: nat)
    requires offset <= |data|
    ensures next <= |data|
    ensures r == None <==> ParseFrames(data[offset..], count) == None
    ensures r.Some? ==> ParseFrames(data[offset..], count) == Some((r.value, data[next..]))
  {
    hide ParseEntry, ParseFrames, FromLE;
    var es: seq<RawEntry> := [];
    next := offset;
    PrependNothing(ParseFrames(data[offset..], count));
    for i := 0 to count
      invariant next <= |data|
      invariant ParseFrames(data[offset..], count) == Prepend(es, ParseFrames(data[next..], count - i))
    {
      if next + 4 > |data| {
        FramesStuck(data, next, count - i);
        return None, offset;
      }
      var len, o := ReadLE(data, next, 4);
      var e, o2 := DeserializeEntry(data, o);
      if e.None? {
        FramesStuck(data, next, count - i);
        return None, offset;
      }
      FramesNext(data, next, count - i, e.value, o2);
      PrependStep(es, e.value, ParseFrames(data[o2..], count - i - 1));
      es := es + [e.value];
      next := o2;
    }
    NoMoreFrames(data[next..]);
    r := Some(es);
    assert es + [] == es;
  }

  lemma NoMoreFrames(rest: Bytes)
    ensures ParseFrames(rest, 0) == Some(([], rest))
  {
  }

  lemma PrependNothing(r: Option<(seq<RawEntry>, Bytes)>)
    ensures Prepend([], r) == r
  {
    if r.Some? {
      assert [] + r.value.0 == r.value.0;
    }
  }

  function Prepend(es: seq<RawEntry>, r: Option<(seq<RawEntry>, Bytes)>): Option<(seq<RawEntry>, Bytes)> {
    if r.None? then None else Some((es + r.value.0, r.value.1))
  }

  lemma PrependStep(es: seq<RawEntry>, e: RawEntry, r: Option<(seq<RawEntry>, Bytes)>)
    ensures Prepend(es, Prepend([e], r)) == Prepend(es + [e], r)
  {
    if r.Some? {
      assert es + ([e] + r.value.0) == es + [e] + r.value.0;
    }
  }

  /** AppendEntries::deserialize. */
  method DeserializeAppend(data: Bytes) returns (r: Option<WireAppend>)
    ensures r == DecodeAppend(data)
  {
    FixedPart(data);
    if |data| < 45 {
      return None;
    }
    var term, o1 := ReadLE(data, 1, 8);
    var leaderId, o2 := ReadLE(data, o1, 8);
    var prevIndex, o3 := ReadLE(data, o2, 8);
    var prevTerm, o4 := ReadLE(data, o3, 8);
    var leaderCommit, o5 := ReadLE(data, o4, 8);
    var count, o6 := ReadLE(data, o5, 4);
    var es, _ := DeserializeFrames(data, o6, count);
    if es.None? {
      return None;
    }
    return Some(WireAppend(term, leaderId, prevIndex, prevTerm, leaderCommit, es.value));
  }

  lemma FixedPart(data: Bytes)
    ensures |data| < 45 ==> DecodeAppend(data) == None
    ensures |data| >= 45 ==>
      DecodeAppend(data) ==
        var es := ParseFrames(data[45..], FromLE(data[41..45]));
        if es.None? then None
        else Some(WireAppend(FromLE(data[1..9]), FromLE(data[9..17]), FromLE(data[17..25]), FromLE(data[25..33]),
                             FromLE(data[33..41]), es.value.0))
  {
    hide Take, TakeInt, ParseFrames, FromLE;
    assert data[0..] == data;
    TakeAt(data, 0, 1);
    if |data| >= 1 { TakeIntAt(data, 1, 8); }
    if |data| >= 9 { TakeIntAt(data, 9, 8); }
    if |data| >= 17 { TakeIntAt(data, 17, 8); }
    if |data| >= 25 { TakeIntAt(data, 25, 8); }
    if |data| >= 33 { TakeIntAt(data, 33, 8); }
    if |data| >= 41 { TakeIntAt(data, 41, 4); }
  }
}
