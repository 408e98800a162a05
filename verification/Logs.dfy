/**
 Logs as sequences: the two-pass merge of handleAppendEntries, and the facts about it
 that the protocol proof relies on.
 */
module Logs {
  import opened Types

  /** The first k entries of the two logs exist and are the same. */
  ghost predicate Agree(a: seq<Entry>, b: seq<Entry>, k: nat) {
    k <= |a| && k <= |b| && a[..k] == b[..k]
  }

  lemma AgreeDown(a: seq<Entry>, b: seq<Entry>, k: nat, j: nat)
    requires Agree(a, b, k) && j <= k
    ensures Agree(a, b, j)
  {
    assert a[..j] == a[..k][..j];
    assert b[..j] == b[..k][..j];
  }

  lemma AgreeTrans(a: seq<Entry>, b: seq<Entry>, c: seq<Entry>, k: nat, j: nat)
    requires Agree(a, b, k) && Agree(b, c, j)
    ensures Agree(a, c, Min(k, j))
  {
    AgreeDown(a, b, k, Min(k, j));
    AgreeDown(b, c, j, Min(k, j));
  }

  lemma AgreePrefix(a: seq<Entry>, b: seq<Entry>, c: seq<Entry>, k: nat)
    requires Agree(a, b, k) && b <= c
    ensures Agree(a, c, k)
  {
    assert c[..k] == c[..|b|][..k];
  }

  lemma AgreeAt(a: seq<Entry>, b: seq<Entry>, k: nat, j: nat)
    requires Agree(a, b, k)
    ensures j < k ==> a[j] == b[j]
  {
    if j < k {
      assert a[j] == a[..k][j];
      assert b[j] == b[..k][j];
    }
  }

  function LastTerm(log: seq<Entry>): nat {
    if log == [] then 0 else log[|log| - 1].term
  }

  /** Storage::getTermAt on the entry sequence. */
  function TermAt(log: seq<Entry>, index: nat): nat {
    if index == 0 || index > |log| then 0 else log[index - 1].term
  }

  /** Storage::readRange on the entry sequence, both ends inclusive. */
  function ReadRange(log: seq<Entry>, start: nat, end: nat): seq<Entry> {
    if start < 1 || end < start || end > |log| then [] else log[start - 1..end]
  }

  ghost predicate WellIndexed(log: seq<Entry>) {
    forall i :: 0 <= i < |log| ==> log[i].index == i + 1
  }

  // ---- the merge, in the order the handler performs it

  /** Conflict pass from entry i on: cut the log in front of an entry whose term differs. */
  function ConflictFrom(log: seq<Entry>, prev: nat, entries: seq<Entry>, i: nat): seq<Entry>
    requires i <= |entries|
    decreases |entries| - i
  {
    if i == |entries| then log
    else if prev + i < |log| && log[prev + i].term != entries[i].term
    then ConflictFrom(log[..prev + i], prev, entries, i + 1)
    else ConflictFrom(log, prev, entries, i + 1)
  }

  /** Append pass over the first k entries: an entry is written when its index is new. */
  function AppendUpTo(log: seq<Entry>, entries: seq<Entry>, k: nat): seq<Entry>
    requires k <= |entries|
  {
    if k == 0 then log
    else
      var l := AppendUpTo(log, entries, k - 1);
      if entries[k - 1].index > |l| then l + [entries[k - 1]] else l
  }

  /** The log on disk once the append pass has dealt with k entries. */
  function MergeUpTo(log: seq<Entry>, prev: nat, entries: seq<Entry>, k: nat): seq<Entry>
    requires k <= |entries|
  {
    AppendUpTo(ConflictFrom(log, prev, entries, 0), entries, k)
  }

  function Merge(log: seq<Entry>, prev: nat, entries: seq<Entry>): seq<Entry> {
    MergeUpTo(log, prev, entries, |entries|)
  }

  // ---- the declarative rule

  /** Entry i of the message sits on top of a log entry of another term. */
  predicate Conflict(log: seq<Entry>, prev: nat, entries: seq<Entry>, i: nat) {
    i < |entries| && prev + i < |log| && log[prev + i].term != entries[i].term
  }

  predicate NoConflictIn(log: seq<Entry>, prev: nat, entries: seq<Entry>, lo: nat, hi: nat) {
    forall i | lo <= i < hi :: !Conflict(log, prev, entries, i)
  }

  ghost predicate EntriesIndexed(prev: nat, entries: seq<Entry>) {
    forall i :: 0 <= i < |entries| ==> entries[i].index == prev + 1 + i
  }

  /** Keep the log if all overlapping terms agree, else replace it from the first conflict on. */
  ghost predicate MergeRule(log: seq<Entry>, prev: nat, entries: seq<Entry>, r: seq<Entry>)
    requires prev <= |log|
  {
    if NoConflictIn(log, prev, entries, 0, |entries|)
    then r == if |log| >= prev + |entries| then log else log + entries[|log| - prev..]
    else exists c: nat :: Conflict(log, prev, entries, c) && NoConflictIn(log, prev, entries, 0, c)
                     && r == log[..prev + c] + entries[c..]
  }

  lemma {:induction false} ConflictPassKeeps(log: seq<Entry>, prev: nat, entries: seq<Entry>, i: nat)
    requires i <= |entries| && NoConflictIn(log, prev, entries, i, |entries|)
    ensures ConflictFrom(log, prev, entries, i) == log
    decreases |entries| - i
  {
    if i < |entries| {
      assert !Conflict(log, prev, entries, i);
      ConflictPassKeeps(log, prev, entries, i + 1);
    }
  }

  lemma {:induction false} ConflictPassCuts(log: seq<Entry>, prev: nat, entries: seq<Entry>, i: nat, c: nat)
    requires i <= c && Conflict(log, prev, entries, c) && NoConflictIn(log, prev, entries, i, c)
    ensures ConflictFrom(log, prev, entries, i) == log[..prev + c]
    decreases c - i
  {
    if i == c {
      ConflictPassKeeps(log[..prev + c], prev, entries, c + 1);
    } else {
      assert !Conflict(log, prev, entries, i);
      ConflictPassCuts(log, prev, entries, i + 1, c);
    }
  }

  lemma {:induction false} AppendPass(log: seq<Entry>, prev: nat, entries: seq<Entry>, k: nat)
    requires k <= |entries| && prev <= |log| && EntriesIndexed(prev, entries)
    ensures AppendUpTo(log, entries, k) == if |log| >= prev + k then log else log + entries[|log| - prev..k]
  {
    if k > 0 {
      AppendPass(log, prev, entries, k - 1);
      assert entries[k - 1].index == prev + k;
    }
  }

  /** The first conflict, or the number of entries when there is none. */
  function FirstConflict(log: seq<Entry>, prev: nat, entries: seq<Entry>, i: nat): (c: nat)
    requires i <= |entries|
    ensures i <= c <= |entries|
    ensures NoConflictIn(log, prev, entries, i, c)
    ensures c < |entries| ==> Conflict(log, prev, entries, c)
    decreases |entries| - i
  {
    if i == |entries| || Conflict(log, prev, entries, i) then i
    else FirstConflict(log, prev, entries, i + 1)
  }

  lemma ConflictPassIs(log: seq<Entry>, prev: nat, entries: seq<Entry>)
    ensures var c := FirstConflict(log, prev, entries, 0);
            ConflictFrom(log, prev, entries, 0) == if c < |entries| then log[..prev + c] else log
  {
    var c := FirstConflict(log, prev, entries, 0);
    if c < |entries| {
      ConflictPassCuts(log, prev, entries, 0, c);
    } else {
      ConflictPassKeeps(log, prev, entries, 0);
    }
  }

  /** The two passes compute the declarative rule. */
  lemma MergeMeetsRule(log: seq<Entry>, prev: nat, entries: seq<Entry>)
    requires prev <= |log| && EntriesIndexed(prev, entries)
    ensures MergeRule(log, prev, entries, Merge(log, prev, entries))
  {
    hide NoConflictIn, Conflict, FirstConflict, ConflictFrom, AppendUpTo;
    var c := FirstConflict(log, prev, entries, 0);
    ConflictPassIs(log, prev, entries);
    if c < |entries| {
      assert entries[c..|entries|] == entries[c..];
      ConflictExists(log, prev, entries, c);
    }
    AppendPass(ConflictFrom(log, prev, entries, 0), prev, entries, |entries|);
  }

  lemma ConflictExists(log: seq<Entry>, prev: nat, entries: seq<Entry>, c: nat)
    requires Conflict(log, prev, entries, c)
    ensures c < |entries| && prev + c < |log| && !NoConflictIn(log, prev, entries, 0, |entries|)
  {
  }

  /** Every message entry ends up in the log, and handling the same message again changes nothing. */
  lemma MergeIsIdempotent(log: seq<Entry>, prev: nat, entries: seq<Entry>)
    requires prev <= |log| && EntriesIndexed(prev, entries)
    ensures var r := Merge(log, prev, entries);
            && prev + |entries| <= |r|
            && (forall i :: 0 <= i < |entries| ==> r[prev + i].term == entries[i].term)
            && Merge(r, prev, entries) == r
  {
    var r := Merge(log, prev, entries);
    MergedLength(log, prev, entries);
    forall i | 0 <= i < |entries| ensures r[prev + i].term == entries[i].term {
      MergedTerm(log, prev, entries, i);
    }
    ConflictPassKeeps(r, prev, entries, 0);
    AppendPass(r, prev, entries, |entries|);
  }

  lemma MergedLength(log: seq<Entry>, prev: nat, entries: seq<Entry>)
    requires prev <= |log| && EntriesIndexed(prev, entries)
    ensures prev + |entries| <= |Merge(log, prev, entries)|
  {
    ConflictPassIs(log, prev, entries);
    AppendPass(ConflictFrom(log, prev, entries, 0), prev, entries, |entries|);
  }

  lemma MergedTerm(log: seq<Entry>, prev: nat, entries: seq<Entry>, i: nat)
    requires prev <= |log| && EntriesIndexed(prev, entries) && i < |entries|
    ensures prev + |entries| <= |Merge(log, prev, entries)|
    ensures Merge(log, prev, entries)[prev + i].term == entries[i].term
  {
    hide NoConflictIn, Conflict, FirstConflict, ConflictFrom, AppendUpTo;
    var c := FirstConflict(log, prev, entries, 0);
    ConflictPassIs(log, prev, entries);
    ConflictInside(log, prev, entries, c);
    AppendPass(ConflictFrom(log, prev, entries, 0), prev, entries, |entries|);
    if i < c && prev + i < |log| {
      NoConflictAt(log, prev, entries, c, i);
    }
  }

  lemma NoConflictAt(log: seq<Entry>, prev: nat, entries: seq<Entry>, c: nat, i: nat)
    requires NoConflictIn(log, prev, entries, 0, c) && i < c <= |entries| && prev + i < |log|
    ensures log[prev + i].term == entries[i].term
  {
    assert !Conflict(log, prev, entries, i);
  }

  lemma ConflictInside(log: seq<Entry>, prev: nat, entries: seq<Entry>, c: nat)
    requires c < |entries| ==> Conflict(log, prev, entries, c)
    ensures c < |entries| ==> prev + c < |log|
  {
  }

  // ---- the merge between logs that satisfy Log Matching

  /** Equal terms at equal indices mean equal logs up to there. */
  ghost predicate Matching(a: seq<Entry>, b: seq<Entry>) {
    forall i :: 0 <= i < |a| && i < |b| && a[i].term == b[i].term ==> Agree(a, b, i + 1)
  }

  /** `entries` is everything `full` holds after `prev`. */
  ghost predicate SuffixOf(full: seq<Entry>, prev: nat, entries: seq<Entry>) {
    prev <= |full| && WellIndexed(full) && entries == full[prev..]
  }

  /** Where the logs agree up to i, no conflict is found below i. */
  lemma AgreeNoConflict(log: seq<Entry>, full: seq<Entry>, prev: nat, entries: seq<Entry>, i: nat)
    requires SuffixOf(full, prev, entries) && Agree(log, full, i)
    ensures var c := FirstConflict(log, prev, entries, 0); c < |entries| ==> i <= prev + c
  {
    var c := FirstConflict(log, prev, entries, 0);
    if c < |entries| {
      assert entries[c] == full[prev + c];
      AgreeAt(log, full, i, prev + c);
    }
  }

  /** The merge ends in the old log or in a prefix of the sender's log. */
  lemma MergeOutcome(log: seq<Entry>, full: seq<Entry>, prev: nat, entries: seq<Entry>, k: nat) returns (x: nat)
    requires SuffixOf(full, prev, entries) && Matching(log, full) && Agree(log, full, prev) && k <= |entries|
    ensures x <= |full|
    ensures MergeUpTo(log, prev, entries, k) == log || MergeUpTo(log, prev, entries, k) == full[..x]
    ensures k == |entries| ==> Agree(MergeUpTo(log, prev, entries, k), full, |full|)
  {
    x := CutOutcome(log, full, prev, entries);
    x := AppendOutcome(log, ConflictFrom(log, prev, entries, 0), full, prev, entries, k, x);
  }

  /** After the conflict pass the log is untouched or a prefix of the sender's log. */
  lemma CutOutcome(log: seq<Entry>, full: seq<Entry>, prev: nat, entries: seq<Entry>) returns (x: nat)
    requires SuffixOf(full, prev, entries) && Matching(log, full) && Agree(log, full, prev)
    ensures var cut := ConflictFrom(log, prev, entries, 0);
            && x <= |full| && prev <= |cut| && (cut == log || cut == full[..x])
            && Agree(cut, full, Min(|cut|, |full|))
  {
    var c := FirstConflict(log, prev, entries, 0);
    ConflictPassIs(log, prev, entries);
    UpToConflict(log, full, prev, entries);
    x := if c < |entries| then prev + c else 0;
  }

  lemma SuffixIndexed(full: seq<Entry>, prev: nat, entries: seq<Entry>)
    requires SuffixOf(full, prev, entries)
    ensures EntriesIndexed(prev, entries)
  {
  }

  lemma AppendOutcome(log: seq<Entry>, cut: seq<Entry>, full: seq<Entry>, prev: nat, entries: seq<Entry>,
                      k: nat, x: nat) returns (y: nat)
    requires SuffixOf(full, prev, entries) && prev <= |cut| && k <= |entries| && x <= |full|
    requires cut == log || cut == full[..x]
    requires Agree(cut, full, Min(|cut|, |full|))
    ensures y <= |full|
    ensures AppendUpTo(cut, entries, k) == log || AppendUpTo(cut, entries, k) == full[..y]
    ensures k == |entries| ==> Agree(AppendUpTo(cut, entries, k), full, |full|)
  {
    hide AppendUpTo, WellIndexed;
    SuffixIndexed(full, prev, entries);
    AppendPass(cut, prev, entries, k);
    y := x;
    if |cut| < prev + k {
      FillUp(cut, full, prev, entries, k);
      y := prev + k;
      assert full[..y][..y] == full[..y];
    }
  }

  /** A prefix of the sender's log and the entries that follow it make a longer prefix. */
  lemma FillUp(cut: seq<Entry>, full: seq<Entry>, prev: nat, entries: seq<Entry>, k: nat)
    requires prev <= |cut| < prev + k <= |full| && entries == full[prev..] && cut == full[..|cut|]
    ensures cut + entries[|cut| - prev..k] == full[..prev + k]
  {
    assert entries[|cut| - prev..k] == full[|cut|..prev + k];
  }

  /** Below the first conflict the two logs are identical as far as both reach. */
  lemma UpToConflict(log: seq<Entry>, full: seq<Entry>, prev: nat, entries: seq<Entry>)
    requires SuffixOf(full, prev, entries) && Matching(log, full) && Agree(log, full, prev)
    ensures var c := FirstConflict(log, prev, entries, 0); Agree(log, full, Min(prev + c, |log|))
  {
    hide NoConflictIn, Conflict, FirstConflict, WellIndexed;
    var c := FirstConflict(log, prev, entries, 0);
    var m := Min(prev + c, |log|);
    if m > prev {
      NoConflictAt(log, prev, entries, c, m - 1 - prev);
      assert entries[m - 1 - prev] == full[m - 1];
    }
  }

  /** Whatever agreed with the sender's log survives the merge, whole or interrupted. */
  lemma MergeKeeps(log: seq<Entry>, full: seq<Entry>, prev: nat, entries: seq<Entry>, k: nat, i: nat)
    requires SuffixOf(full, prev, entries) && prev <= |log| && k <= |entries| && Agree(log, full, i)
    ensures Agree(MergeUpTo(log, prev, entries, k), full, i)
  {
    var cut := ConflictFrom(log, prev, entries, 0);
    ConflictPassIs(log, prev, entries);
    AgreeNoConflict(log, full, prev, entries, i);
    AppendPass(cut, prev, entries, k);
    assert Agree(cut, full, i);
  }

  /** The same for a longer log that the sender's log is a prefix of: a short, late message removes nothing. */
  lemma MergeKeepsAll(log: seq<Entry>, full: seq<Entry>, big: seq<Entry>, prev: nat, entries: seq<Entry>,
                      k: nat, i: nat)
    requires SuffixOf(full, prev, entries) && prev <= |log| && k <= |entries| && full <= big && Agree(log, big, i)
    ensures Agree(MergeUpTo(log, prev, entries, k), big, i)
  {
    var j := Min(i, |full|);
    assert Agree(log, full, j) by {
      AgreeDown(log, big, i, j);
    }
    if i <= |full| {
      MergeKeeps(log, full, prev, entries, k, i);
      AgreePrefix(MergeUpTo(log, prev, entries, k), full, big, i);
    } else {
      AgreeNoConflict(log, full, prev, entries, |full|);
      ConflictPassIs(log, prev, entries);
      AppendPass(log, prev, entries, k);
    }
  }
}
