/** The key-value state machine and what reading a key means in terms of the applied log. */
module StateMachines {
  import opened Types

  type Database = map<Bytes, Bytes>

  function Apply(db: Database, cmd: Command): Database {
    if cmd.op == PUT then db[cmd.key := cmd.value]
    else if cmd.op == DELETE then db - {cmd.key}
    else db
  }

  /** Fold of Apply over a stretch of log, oldest entry first. */
  function ApplyAll(db: Database, entries: seq<Entry>): Database {
    if entries == [] then db
    else Apply(ApplyAll(db, entries[..|entries| - 1]), entries[|entries| - 1].cmd)
  }

  function Get(db: Database, key: Bytes): Bytes {
    if key in db then db[key] else []
  }

  lemma {:induction false} ApplyAllConcat(db: Database, a: seq<Entry>, b: seq<Entry>)
    ensures ApplyAll(db, a + b) == ApplyAll(ApplyAll(db, a), b)
  {
    if b == [] {
      assert a + b == a;
    } else {
      var n := |b| - 1;
      assert (a + b)[..|a + b| - 1] == a + b[..n];
      ApplyAllConcat(db, a, b[..n]);
    }
  }

  predicate Writes(e: Entry, key: Bytes) {
    e.cmd.key == key && (e.cmd.op == PUT || e.cmd.op == DELETE)
  }

  predicate LastWriteAt(entries: seq<Entry>, key: Bytes, i: nat) {
    && i < |entries| && Writes(entries[i], key)
    && forall j | i < j < |entries| :: !Writes(entries[j], key)
  }

  /** `v` is the value of the last PUT of `key` not followed by a DELETE, or empty if there is none. */
  ghost predicate ReadsBack(entries: seq<Entry>, key: Bytes, v: Bytes) {
    || (exists i: nat :: LastWriteAt(entries, key, i) && entries[i].cmd.op == PUT && v == entries[i].cmd.value)
    || (exists i: nat :: LastWriteAt(entries, key, i) && entries[i].cmd.op == DELETE && v == [])
    || ((forall i | 0 <= i < |entries| :: !Writes(entries[i], key)) && v == [])
  }

  /** An entry that does not write the key changes nothing for its readers. */
  lemma ReadsBackFrame(entries: seq<Entry>, e: Entry, key: Bytes, v: Bytes)
    requires ReadsBack(entries, key, v) && !Writes(e, key)
    ensures ReadsBack(entries + [e], key, v)
  {
    var after := entries + [e];
    if i: nat :| LastWriteAt(entries, key, i) && entries[i].cmd.op == PUT && v == entries[i].cmd.value {
      assert LastWriteAt(after, key, i);
    } else if i: nat :| LastWriteAt(entries, key, i) && entries[i].cmd.op == DELETE && v == [] {
      assert LastWriteAt(after, key, i);
    }
  }

  lemma {:induction false} GetReadsBack(entries: seq<Entry>, key: Bytes)
    ensures ReadsBack(entries, key, Get(ApplyAll(map[], entries), key))
  {
    if entries != [] {
      var n := |entries| - 1;
      var before := ApplyAll(map[], entries[..n]);
      if Writes(entries[n], key) {
        assert LastWriteAt(entries, key, n);
      } else {
        GetReadsBack(entries[..n], key);
        assert Get(Apply(before, entries[n].cmd), key) == Get(before, key);
        ReadsBackFrame(entries[..n], entries[n], key, Get(before, key));
        assert entries[..n] + [entries[n]] == entries;
      }
    }
  }

  lemma LastWriteUnique(entries: seq<Entry>, key: Bytes)
    ensures forall i: nat, j: nat :: LastWriteAt(entries, key, i) && LastWriteAt(entries, key, j) ==> i == j
  {
  }

  /** The cases of ReadsBack exclude each other, so the log alone determines what is read. */
  lemma ReadIsDetermined(entries: seq<Entry>, key: Bytes, v: Bytes, u: Bytes)
    requires ReadsBack(entries, key, v) && ReadsBack(entries, key, u)
    ensures v == u
  {
    LastWriteUnique(entries, key);
  }
}
