/** The compacted table answers like the complete log, and every table operation commutes with compaction. */
module Compaction {
  import opened RaftTypes
  import opened Logs
  import opened LogTables

  lemma TermAtAgrees(t: LogTable, log: seq<Entry>, i: nat)
    requires Represents(t, log)
    ensures t.TermAt(i) ==
            if i > |log| || 0 < i < t.snapIndex then None else Some(TermOf(log, i))
  {
  }

  lemma EntryAtAgrees(t: LogTable, log: seq<Entry>, i: nat)
    requires Represents(t, log)
    ensures t.EntryAt(i) == if t.snapIndex < i <= |log| then Some(log[i - 1]) else None
  {
  }

  lemma LastAgrees(t: LogTable, log: seq<Entry>)
    requires Represents(t, log)
    ensures t.LastIndex() == |log| && t.LastTerm() == TermOf(log, |log|)
  {
  }

  lemma EntriesFromAgrees(t: LogTable, log: seq<Entry>, start: nat, limit: nat)
    requires Represents(t, log) && t.snapIndex < start <= |log| + 1
    ensures t.EntriesFrom(start, limit) == log[start - 1..Min(|log|, start - 1 + limit)]
  {
    var lo := start - 1 - t.snapIndex;
    assert t.rows == log[t.snapIndex..];
    if lo < |t.rows| {
      assert t.rows[lo..Min(|t.rows|, lo + limit)] == log[start - 1..Min(|log|, start - 1 + limit)];
    }
  }

  /** All reads at once: wherever the compacted table is defined, it says what the complete log says. */
  lemma CompactionIsTransparent(t: LogTable, log: seq<Entry>)
    requires Represents(t, log)
    ensures t.LastIndex() == |log| && t.LastTerm() == TermOf(log, |log|)
    ensures forall i :: t.snapIndex <= i <= |log| ==> t.TermAt(i) == Some(TermOf(log, i))
    ensures forall i :: t.snapIndex < i <= |log| ==> t.EntryAt(i) == Some(log[i - 1])
    ensures forall i: nat :: i <= t.snapIndex || i > |log| ==> t.EntryAt(i) == None
    ensures forall start: nat, limit: nat :: t.snapIndex < start <= |log| + 1 ==>
              t.EntriesFrom(start, limit) == log[start - 1..Min(|log|, start - 1 + limit)]
  {
    forall start: nat, limit: nat | t.snapIndex < start <= |log| + 1
      ensures t.EntriesFrom(start, limit) == log[start - 1..Min(|log|, start - 1 + limit)]
    {
      EntriesFromAgrees(t, log, start, limit);
    }
  }

  lemma RepresentsValid(t: LogTable, log: seq<Entry>)
    requires Represents(t, log) && Numbered(log)
    ensures t.Valid()
  {
  }

  /** A batch that would start at or below the snapshot starts right behind it. */
  lemma EntriesStartBehindSnapshot(t: LogTable, start: nat, limit: nat)
    requires start <= t.snapIndex
    ensures t.EntriesFrom(start, limit) == t.EntriesFrom(t.snapIndex + 1, limit)
    ensures t.EntriesFrom(start, limit) == t.rows[..Min(|t.rows|, limit)]
  {
  }

  /** Truncation removes exactly the rows from an index on, wherever the index is. */
  lemma TruncateKeepsBelow(t: LogTable, index: nat, i: nat)
    ensures t.TruncateFrom(index).EntryAt(i) == if i < index then t.EntryAt(i) else None
    ensures t.TruncateFrom(index).snapIndex == t.snapIndex && t.TruncateFrom(index).snapTerm == t.snapTerm
  {
  }

  /** Taking a snapshot changes nothing about the complete log. */
  lemma RebaseRepresents(t: LogTable, log: seq<Entry>, k: nat)
    requires Represents(t, log) && t.snapIndex <= k <= |log|
    ensures Represents(t.Rebase(k, TermOf(log, k)), log)
  {
  }

  /** Truncating the table truncates the complete log. */
  lemma TruncateRepresents(t: LogTable, log: seq<Entry>, index: nat)
    requires Represents(t, log) && t.snapIndex < index
    ensures Represents(t.TruncateFrom(index), if index <= |log| then log[..index - 1] else log)
  {
  }

  /** Appending behind the last row appends to the complete log. */
  lemma AppendRepresents(t: LogTable, log: seq<Entry>, entries: seq<Entry>)
    requires Represents(t, log) && entries != [] && entries[0].index == |log| + 1
    ensures Represents(t.Upsert(entries), log + entries)
  {
    var at := |log| - t.snapIndex;
    assert t.rows[..at] == t.rows && t.rows[Min(|t.rows|, at + |entries|)..] == [];
    assert (log + entries)[t.snapIndex..] == log[t.snapIndex..] + entries;
  }

  /** Inserting a run of entries overwrites that run of the complete log and leaves what is behind it. */
  lemma UpsertRepresents(t: LogTable, log: seq<Entry>, entries: seq<Entry>)
    requires Represents(t, log) && entries != [] && t.snapIndex < entries[0].index <= |log| + 1
    ensures Represents(t.Upsert(entries), Overwrite(log, entries))
  {
    var s := t.snapIndex;
    var at := entries[0].index - 1;
    var end := Min(|log|, at + |entries|);
    assert log[..at][s..] == t.rows[..at - s];
    assert log[end..] == t.rows[end - s..];
    assert Overwrite(log, entries)[s..] == log[..at][s..] + entries + log[end..];
  }

  function Overwrite(log: seq<Entry>, entries: seq<Entry>): seq<Entry>
    requires entries != [] && 0 < entries[0].index <= |log| + 1
  {
    var at := entries[0].index - 1;
    log[..at] + entries + log[Min(|log|, at + |entries|)..]
  }

  // ----- any mix of operations -----

  datatype TableOp = Append(entries: seq<Entry>) | Truncate(index: nat) | Compact(k: nat)

  /** What the callers of the table observe: no gap, nothing cut below the snapshot, no snapshot beyond the end. */
  predicate Legal(t: LogTable, op: TableOp) {
    match op
    case Append(es) => es != [] && t.snapIndex < es[0].index <= t.LastIndex() + 1 && Contiguous(es[0].index - 1, es)
    case Truncate(index) => t.snapIndex < index
    case Compact(k) => t.snapIndex <= k <= t.LastIndex()
  }

  function OnTable(t: LogTable, op: TableOp): LogTable
    requires Legal(t, op)
  {
    match op
    case Append(es) => t.Upsert(es)
    case Truncate(index) => t.TruncateFrom(index)
    case Compact(k) => t.Rebase(k, t.TermAt(k).value)
  }

  function OnLog(log: seq<Entry>, op: TableOp): seq<Entry>
    requires op.Append? ==> op.entries != [] && 0 < op.entries[0].index <= |log| + 1
  {
    match op
    case Append(es) => Overwrite(log, es)
    case Truncate(index) => if 0 < index <= |log| then log[..index - 1] else log
    case Compact(_) => log
  }

  lemma OneOperation(t: LogTable, log: seq<Entry>, op: TableOp)
    requires Represents(t, log) && Numbered(log) && Legal(t, op)
    ensures Represents(OnTable(t, op), OnLog(log, op)) && Numbered(OnLog(log, op))
  {
    match op
    case Append(es) => UpsertRepresents(t, log, es);
    case Truncate(index) => TruncateRepresents(t, log, index);
    case Compact(k) => TermAtAgrees(t, log, k); RebaseRepresents(t, log, k);
  }

  /** The tables that a history of operations goes through, each legal where it happens. */
  predicate TableRun(tables: seq<LogTable>, ops: seq<TableOp>) {
    && |tables| == |ops| + 1
    && tables[0] == LogTable(0, 0, [])
    && forall i :: 0 <= i < |ops| ==> Legal(tables[i], ops[i]) && tables[i + 1] == OnTable(tables[i], ops[i])
  }

  /** The complete log after the first n operations: compaction does not touch it. */
  function LogAfter(tables: seq<LogTable>, ops: seq<TableOp>, n: nat): (log: seq<Entry>)
    requires TableRun(tables, ops) && n <= |ops|
    ensures Represents(tables[n], log) && Numbered(log)
  {
    if n == 0 then []
    else
      var log := LogAfter(tables, ops, n - 1);
      OneOperation(tables[n - 1], log, ops[n - 1]);
      OnLog(log, ops[n - 1])
  }

  /**
   * After any mix of appends, truncations and snapshots the table holds exactly the entries above the snapshot, and
   * its reads agree with the log on which no snapshot was ever taken.
   */
  lemma AnyMixIsTransparent(tables: seq<LogTable>, ops: seq<TableOp>)
    requires TableRun(tables, ops)
    ensures var t := tables[|ops|]; var log := LogAfter(tables, ops, |ops|);
            && t.LastIndex() == |log| && t.LastTerm() == TermOf(log, |log|)
            && (forall i: nat :: t.snapIndex <= i <= |log| ==> t.TermAt(i) == Some(TermOf(log, i)))
            && (forall i: nat :: t.EntryAt(i) == if t.snapIndex < i <= |log| then Some(log[i - 1]) else None)
            && (forall start: nat, limit: nat :: t.snapIndex < start <= |log| + 1 ==>
                  t.EntriesFrom(start, limit) == log[start - 1..Min(|log|, start - 1 + limit)])
  {
    CompactionIsTransparent(tables[|ops|], LogAfter(tables, ops, |ops|));
  }

  /** What a complete log becomes when a request is merged into the table. */
  function MergeFull(t: LogTable, log: seq<Entry>, entries: seq<Entry>): seq<Entry>
    requires Represents(t, log) && Mergeable(t, entries)
  {
    MergeShape(t, entries);
    var i := t.FirstDifference(entries);
    if i == |entries| then log else log[..entries[i].index - 1] + entries[i..]
  }

  function CutFull(t: LogTable, log: seq<Entry>, entries: seq<Entry>): seq<Entry>
    requires Represents(t, log) && Mergeable(t, entries)
  {
    MergeShape(t, entries);
    var i := t.FirstDifference(entries);
    if i == |entries| then log else log[..entries[i].index - 1]
  }

  lemma MergeRepresents(t: LogTable, log: seq<Entry>, entries: seq<Entry>)
    requires Represents(t, log) && Mergeable(t, entries)
    ensures Represents(t.CutFor(entries), CutFull(t, log, entries))
    ensures Represents(t.Merge(entries), MergeFull(t, log, entries))
  {
    MergeShape(t, entries);
    var i := t.FirstDifference(entries);
    if i < |entries| {
      var at := entries[i].index - t.snapIndex - 1;
      assert log[..entries[i].index - 1][t.snapIndex..] == t.rows[..at];
      assert (log[..entries[i].index - 1] + entries[i..])[t.snapIndex..] == t.rows[..at] + entries[i..];
    }
  }

  /** The log of the request's sender, from which the entries were cut. */
  predicate CutFrom(source: seq<Entry>, prev: nat, entries: seq<Entry>) {
    && prev + |entries| <= |source|
    && forall i :: 0 <= i < |entries| ==> entries[i] == source[prev + i]
  }

  /** Equal terms at an index mean equal logs up to it. */
  ghost predicate Matching(a: seq<Entry>, b: seq<Entry>) {
    forall k: nat :: k <= |a| && k <= |b| && TermOf(a, k) == TermOf(b, k) ==> Agree(a, b, k)
  }

  /** An accepted request finds nothing to change up to the first difference, which is where the two logs part. */
  lemma FirstDifferenceParts(t: LogTable, log: seq<Entry>, source: seq<Entry>, prev: nat, entries: seq<Entry>)
    requires Represents(t, log) && Numbered(log) && Numbered(source) && Matching(log, source)
    requires CutFrom(source, prev, entries) && t.snapIndex <= prev && Agree(log, source, prev)
    ensures Mergeable(t, entries)
    ensures var i := t.FirstDifference(entries);
            Agree(log, source, prev + i) && (i < |entries| ==> !Agree(log, source, prev + i + 1))
  {
    var i := t.FirstDifference(entries);
    if i > 0 {
      assert t.TermAt(entries[i - 1].index) == Some(entries[i - 1].term);
      TermAtAgrees(t, log, prev + i);
      assert TermOf(log, prev + i) == TermOf(source, prev + i);
    }
    if i < |entries| {
      assert t.TermAt(entries[i].index) != Some(entries[i].term);
      TermAtAgrees(t, log, prev + i + 1);
    }
  }

  /**
   * The scan, delete and append loop refines a pure merge: the log is unchanged when all carried entries match,
   * and otherwise becomes the sender's log up to the last carried entry; nothing the two logs agree on is lost.
   */
  lemma MergeRefines(t: LogTable, log: seq<Entry>, source: seq<Entry>, prev: nat, entries: seq<Entry>)
    requires Represents(t, log) && Numbered(log) && Numbered(source) && Matching(log, source)
    requires CutFrom(source, prev, entries) && t.snapIndex <= prev && Agree(log, source, prev)
    ensures Mergeable(t, entries)
    ensures var end := prev + |entries|;
            MergeFull(t, log, entries) == if Agree(log, source, end) then log else source[..end]
    ensures Agree(MergeFull(t, log, entries), source, prev + |entries|)
    ensures forall k: nat :: Agree(log, source, k) ==>
              Agree(CutFull(t, log, entries), source, k) && Agree(MergeFull(t, log, entries), source, k)
    ensures CutFull(t, log, entries) <= log
  {
    FirstDifferenceParts(t, log, source, prev, entries);
    MergeParts(t, log, source, prev, entries, t.FirstDifference(entries));
  }

  lemma MergeParts(t: LogTable, log: seq<Entry>, source: seq<Entry>, prev: nat, entries: seq<Entry>, i: nat)
    requires Represents(t, log) && Mergeable(t, entries) && CutFrom(source, prev, entries)
    requires i == t.FirstDifference(entries) && Agree(log, source, prev + i)
    requires i < |entries| ==> entries[i].index == prev + i + 1 && !Agree(log, source, prev + i + 1)
    ensures var end := prev + |entries|;
            MergeFull(t, log, entries) == if Agree(log, source, end) then log else source[..end]
    ensures Agree(MergeFull(t, log, entries), source, prev + |entries|)
    ensures forall k: nat :: Agree(log, source, k) ==>
              Agree(CutFull(t, log, entries), source, k) && Agree(MergeFull(t, log, entries), source, k)
    ensures CutFull(t, log, entries) <= log
  {
    if i < |entries| {
      Splice(log, source, prev, entries, i);
      PartAt(log, source, prev + i, prev + |entries|);
      assert CutFull(t, log, entries) == log[..prev + i];
      assert MergeFull(t, log, entries) == source[..prev + |entries|];
    } else {
      assert CutFull(t, log, entries) == log && MergeFull(t, log, entries) == log;
    }
  }

  /** Where two logs part, cutting there and continuing with the other log loses nothing they agree on. */
  lemma PartAt(log: seq<Entry>, source: seq<Entry>, a: nat, end: nat)
    requires Agree(log, source, a) && !Agree(log, source, a + 1) && a < end <= |source|
    ensures !Agree(log, source, end)
    ensures forall k: nat :: Agree(log, source, k) ==> Agree(log[..a], source, k) && Agree(source[..end], source, k)
  {
    forall k: nat | Agree(log, source, k)
      ensures k <= a
    {
      if k > a { AgreeLess(log, source, k, a + 1); }
    }
  }

  lemma AgreeLess(a: seq<Entry>, b: seq<Entry>, k: nat, l: nat)
    requires Agree(a, b, k) && l <= k
    ensures Agree(a, b, l)
  {
  }

  lemma Splice(log: seq<Entry>, source: seq<Entry>, prev: nat, entries: seq<Entry>, i: nat)
    requires CutFrom(source, prev, entries) && i <= |entries| && Agree(log, source, prev + i)
    ensures log[..prev + i] + entries[i..] == source[..prev + |entries|]
  {
  }
}
