/** The compacted log: the rows of the log_entries table together with the snapshot metadata. */
module LogTables {
  import opened RaftTypes
  import opened Logs

  /** `rows` are the entries above the snapshot, in index order. */
  datatype LogTable = LogTable(snapIndex: nat, snapTerm: nat, rows: seq<Entry>) {

    predicate Valid() {
      Contiguous(snapIndex, rows)
    }

    function LastIndex(): nat { snapIndex + |rows| }

    function LastTerm(): nat { if rows == [] then snapTerm else rows[|rows| - 1].term }

    function TermAt(i: nat): Option<nat> {
      if i == 0 then Some(0)
      else if i == snapIndex then Some(snapTerm)
      else if i < snapIndex then None
      else if i <= LastIndex() then Some(rows[i - snapIndex - 1].term)
      else None
    }

    function EntryAt(i: nat): Option<Entry> {
      if snapIndex < i <= LastIndex() then Some(rows[i - snapIndex - 1]) else None
    }

    function EntriesFrom(start: nat, limit: nat): seq<Entry> {
      var lo := Max(start, snapIndex + 1) - snapIndex - 1;
      if lo >= |rows| then [] else rows[lo..Min(|rows|, lo + limit)]
    }

    /** Insert or overwrite a run of entries; rows behind the run stay. */
    function Upsert(entries: seq<Entry>): LogTable
      requires entries != []
      requires snapIndex < entries[0].index <= LastIndex() + 1
    {
      var at := entries[0].index - snapIndex - 1;
      var rest := Min(|rows|, at + |entries|);
      this.(rows := rows[..at] + entries + rows[rest..])
    }

    /** Delete every row with this index or a larger one. */
    function TruncateFrom(index: nat): LogTable {
      if index > LastIndex() then this
      else if index <= snapIndex then this.(rows := [])
      else this.(rows := rows[..index - snapIndex - 1])
    }

    /** Record a snapshot at k and delete every row up to k. */
    function Rebase(k: nat, t: nat): LogTable
      requires snapIndex <= k
    {
      LogTable(k, t, if k >= LastIndex() then [] else rows[k - snapIndex..])
    }

    /** The position of the first carried entry that is missing here or has another term. */
    function FirstDifference(entries: seq<Entry>): (i: nat)
      ensures i <= |entries|
    {
      FirstDifferenceFrom(entries, 0)
    }

    function FirstDifferenceFrom(entries: seq<Entry>, from: nat): (i: nat)
      requires from <= |entries|
      ensures from <= i <= |entries|
      ensures forall j :: from <= j < i ==> TermAt(entries[j].index) == Some(entries[j].term)
      ensures i < |entries| ==> TermAt(entries[i].index) != Some(entries[i].term)
      decreases |entries| - from
    {
      if from == |entries| then from
      else if TermAt(entries[from].index) != Some(entries[from].term) then from
      else FirstDifferenceFrom(entries, from + 1)
    }

    /** The table after deleting the conflicting suffix, before the new entries are inserted. */
    function CutFor(entries: seq<Entry>): LogTable {
      var i := FirstDifference(entries);
      if i == |entries| then this else TruncateFrom(entries[i].index)
    }

    /** Scan, delete the conflicting suffix, append what is missing. */
    function Merge(entries: seq<Entry>): LogTable
      requires Mergeable(this, entries)
    {
      var i := FirstDifference(entries);
      if i == |entries| then this
      else
        assert i > 0 ==> TermAt(entries[i - 1].index).Some?;
        var cut := TruncateFrom(entries[i].index);
        cut.Upsert(entries[i..])
    }
  }

  /** The table holds this complete log, compacted up to its snapshot index. */
  predicate Represents(t: LogTable, log: seq<Entry>) {
    && t.snapIndex <= |log|
    && t.snapTerm == TermOf(log, t.snapIndex)
    && t.rows == log[t.snapIndex..]
  }

  /** Entries that a request may carry to this table: they follow an index at which the table is defined. */
  predicate Mergeable(t: LogTable, entries: seq<Entry>) {
    entries != [] ==>
      t.snapIndex < entries[0].index <= t.LastIndex() + 1 && Contiguous(entries[0].index - 1, entries)
  }

  /** Merging leaves the table alone, or keeps the rows before the first difference and ends with the carried rest. */
  lemma MergeShape(t: LogTable, entries: seq<Entry>)
    requires Mergeable(t, entries)
    ensures var i := t.FirstDifference(entries);
            if i == |entries| then t.Merge(entries) == t && t.CutFor(entries) == t
            else
              var at := entries[i].index - t.snapIndex - 1;
              && 0 <= at <= |t.rows|
              && t.CutFor(entries) == t.(rows := t.rows[..at])
              && t.Merge(entries) == t.(rows := t.rows[..at] + entries[i..])
  {
    var i := t.FirstDifference(entries);
    if i < |entries| {
      assert i > 0 ==> t.TermAt(entries[i - 1].index).Some?;
      var at := entries[i].index - t.snapIndex - 1;
      assert at <= |t.rows|;
      var cut := t.TruncateFrom(entries[i].index);
      assert cut.rows == t.rows[..at];
      assert cut.Upsert(entries[i..]).rows == cut.rows[..at] + entries[i..] + cut.rows[at..];
    }
  }

  lemma MergeValid(t: LogTable, entries: seq<Entry>)
    requires t.Valid() && Mergeable(t, entries)
    ensures t.CutFor(entries).Valid() && t.Merge(entries).Valid()
  {
    MergeShape(t, entries);
  }

  /** A merged table answers TermAt for every carried entry with the carried term. */
  lemma MergeContains(t: LogTable, entries: seq<Entry>, j: nat)
    requires t.Valid() && Mergeable(t, entries) && j < |entries|
    ensures t.Merge(entries).TermAt(entries[j].index) == Some(entries[j].term)
  {
    MergeShape(t, entries);
    var i := t.FirstDifference(entries);
    if i < |entries| {
      var at := entries[i].index - t.snapIndex - 1;
      var m := t.Merge(entries);
      if j >= i {
        assert m.rows[at + j - i] == entries[i..][j - i];
      } else {
        assert t.TermAt(entries[j].index) == Some(entries[j].term);
        assert m.rows[entries[j].index - t.snapIndex - 1] == t.rows[entries[j].index - t.snapIndex - 1];
      }
    }
  }

  /** Delivering the same entries again changes nothing. */
  lemma MergeIdempotent(t: LogTable, entries: seq<Entry>)
    requires t.Valid() && Mergeable(t, entries)
    ensures Mergeable(t.Merge(entries), entries)
    ensures t.Merge(entries).Merge(entries) == t.Merge(entries)
  {
    var m := t.Merge(entries);
    MergeShape(t, entries);
    forall j | 0 <= j < |entries|
      ensures m.TermAt(entries[j].index) == Some(entries[j].term)
    {
      MergeContains(t, entries, j);
    }
    assert m.FirstDifference(entries) == |entries|;
  }
}
