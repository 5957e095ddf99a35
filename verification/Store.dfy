/** The store: the tables of one node, each method one transaction. */
module Stores {
  import opened RaftTypes
  import opened LogTables
  import opened Disks

  /** A row of log_entries; its index is the key. */
  datatype Row = Row(term: nat, command: Command)

  function RowEntry(index: nat, row: Row): Entry {
    Entry(index, row.term, row.command)
  }

  /** The rows as a table, keyed by their indices behind the snapshot. */
  function TableOf(snapIndex: nat, rows: seq<Entry>): (table: map<nat, Row>)
    ensures forall i :: i in table <==> snapIndex < i <= snapIndex + |rows|
    ensures forall i :: 0 <= i < |rows| ==> table[snapIndex + 1 + i] == Row(rows[i].term, rows[i].command)
  {
    if rows == [] then map[]
    else
      var last := rows[|rows| - 1];
      TableOf(snapIndex, rows[..|rows| - 1])[snapIndex + |rows| := Row(last.term, last.command)]
  }

  class Store {
    var currentTerm: nat
    var votedFor: Option<NodeId>
    var lastApplied: nat
    var snapIndex: nat
    var snapTerm: nat
    var logEntries: map<nat, Row>
    var kv: map<string, KvRow>
    var snapshot: Option<Snapshot>

    /** The rows in index order. */
    ghost var rows: seq<Entry>
    /** What was on disk after each transaction so far. */
    ghost var history: seq<Disk>

    /** The log table holds exactly the indices above the snapshot up to the last one, without a gap. */
    ghost predicate Valid()
      reads `snapIndex, `logEntries, `rows
    {
      && (forall i :: i in logEntries <==> snapIndex < i <= snapIndex + |rows|)
      && (forall i :: 0 <= i < |rows| ==>
            rows[i] == RowEntry(snapIndex + 1 + i, logEntries[snapIndex + 1 + i]))
    }

    ghost function Contents(): Disk
      reads `currentTerm, `votedFor, `lastApplied, `snapIndex, `snapTerm, `rows, `kv, `snapshot
    {
      Disk(currentTerm, votedFor, lastApplied, LogTable(snapIndex, snapTerm, rows), kv, snapshot)
    }

    /** Open a database file: what is missing gets its default, and what a file holds already stays. */
    constructor Open(file: Option<Disk>)
      requires file.Some? ==> file.value.log.Valid()
      ensures Valid() && history == []
      ensures Contents() == if file.Some? then file.value else NewDisk()
    {
      var d := if file.Some? then file.value else NewDisk();
      currentTerm, votedFor, lastApplied := d.term, d.vote, d.lastApplied;
      snapIndex, snapTerm := d.log.snapIndex, d.log.snapTerm;
      logEntries := TableOf(d.log.snapIndex, d.log.rows);
      kv, snapshot := d.kv, d.snapshot;
      rows, history := d.log.rows, [];
    }

    // ----- reads -----

    method CurrentTermVote() returns (term: nat, vote: Option<NodeId>)
      ensures term == Contents().term && vote == Contents().vote
    {
      return currentTerm, votedFor;
    }

    method LastApplied() returns (index: nat)
      ensures index == Contents().lastApplied
    {
      return lastApplied;
    }

    method SnapshotIndexTerm() returns (index: nat, term: nat)
      ensures index == Contents().log.snapIndex && term == Contents().log.snapTerm
    {
      return snapIndex, snapTerm;
    }

    method LoadSnapshot() returns (snap: Snapshot)
      ensures snap == Disks.LoadSnapshot(Contents())
    {
      snap := if snapshot == None then Snapshot(0, 0, NoData) else snapshot.value;
    }

    /** The row with the largest index, or the snapshot when there is no row. */
    method LastIndexAndTerm() returns (index: nat, term: nat)
      requires Valid()
      ensures index == Contents().log.LastIndex() && term == Contents().log.LastTerm()
    {
      if logEntries == map[] {
        assert rows != [] ==> snapIndex + 1 in logEntries;
        return snapIndex, snapTerm;
      }
      ghost var some :| some in logEntries;
      assert snapIndex + |rows| in logEntries;
      index :| index in logEntries && forall j :: j in logEntries ==> j <= index;
      assert index == snapIndex + |rows|;
      term := logEntries[index].term;
    }

    method Term(index: nat) returns (term: Option<nat>)
      requires Valid()
      ensures term == Contents().log.TermAt(index)
    {
      if index == 0 { return Some(0); }
      if index == snapIndex { return Some(snapTerm); }
      if index < snapIndex { return None; }
      term := if index in logEntries then Some(logEntries[index].term) else None;
    }

    method Entry(index: nat) returns (entry: Option<Entry>)
      requires Valid()
      ensures entry == Contents().log.EntryAt(index)
    {
      entry := if index in logEntries
               then Some(RowEntry(index, logEntries[index])) else None;
    }

    /** The stored entries from an index on, in index order, at most `limit` of them. */
    method EntriesFrom(from: nat, limit: nat) returns (entries: seq<Entry>)
      requires Valid()
      ensures entries == Contents().log.EntriesFrom(from, limit)
    {
      hide LogTable.LastIndex, LogTable.TermAt, LogTable.EntryAt;
      var start := if from <= snapIndex then snapIndex + 1 else from;
      ghost var lo: nat := start - snapIndex - 1;
      entries := [];
      var next := start;
      while next in logEntries && |entries| < limit
        invariant next == start + |entries| && |entries| <= limit
        invariant if lo <= |rows| then lo + |entries| <= |rows|
          && entries == rows[lo..lo + |entries|] else entries == []
        decreases limit - |entries|
      {
        assert rows[lo + |entries|] == RowEntry(next, logEntries[next]);
        ExtendSlice(rows, lo, lo + |entries|);
        entries := entries + [RowEntry(next, logEntries[next])];
        next := next + 1;
      }
      assert next in logEntries <==> lo + |entries| < |rows|;
    }

    method Get(key: string) returns (value: Option<string>)
      ensures value == if key in Values(Contents().kv) then Some(Values(Contents().kv)[key]) else None
    {
      value := if key in kv then Some(kv[key].value) else None;
    }

    /** Every key with its value. */
    method All() returns (values: map<string, string>)
      ensures values == Values(Contents().kv)
    {
      values := map[];
      var todo := kv.Keys;
      while todo != {}
        invariant todo <= kv.Keys
        invariant values.Keys == kv.Keys - todo
        invariant forall k :: k in values ==> values[k] == kv[k].value
        decreases todo
      {
        var k :| k in todo;
        values := values[k := kv[k].value];
        todo := todo - {k};
      }
    }

    // ----- transactions -----

    method SaveTermVote(term: nat, vote: Option<NodeId>)
      requires Valid()
      modifies this
      ensures Valid() && Contents() == Disks.SaveTermVote(old(Contents()), term, vote)
      ensures history == old(history) + [Contents()]
    {
      currentTerm := term;
      votedFor := vote;
      history := history + [Contents()];
    }

    /** Insert or overwrite a run of rows. Without entries there is no transaction. */
    method AppendEntries(entries: seq<Entry>)
      requires Valid() && Mergeable(Contents().log, entries)
      modifies this
      ensures Valid()
      ensures entries == [] ==> Contents() == old(Contents()) && history == old(history)
      ensures entries != [] ==>
                var d := old(Contents());
                Contents() == d.(log := d.log.Upsert(entries)) && history == old(history) + [Contents()]
    {
      hide LogTable.Upsert;
      if |entries| == 0 { return; }
      ghost var table := Contents().log;
      var i := 0;
      while i < |entries|
        invariant 0 <= i <= |entries|
        invariant Valid() && history == old(history)
        invariant Contents() == old(Contents()).(log := Inserted(table, entries, i))
        modifies `logEntries, `rows
      {
        InsertOne(table, entries, i);
        InsertRow(entries[i]);
        i := i + 1;
      }
      assert entries[..i] == entries;
      history := history + [Contents()];
    }

    /** Insert one row, or overwrite it. */
    method InsertRow(e: Entry)
      requires Valid() && snapIndex < e.index <= snapIndex + |rows| + 1
      modifies `logEntries, `rows
      ensures Valid() && rows == PutRow(old(rows), e.index - snapIndex - 1, e)
    {
      logEntries := logEntries[e.index := Row(e.term, e.command)];
      rows := PutRow(rows, e.index - snapIndex - 1, e);
    }

    method DeleteFrom(index: nat)
      requires Valid()
      modifies this
      ensures Valid()
      ensures var d := old(Contents()); Contents() == d.(log := d.log.TruncateFrom(index))
      ensures history == old(history) + [Contents()]
    {
      logEntries := map i | i in logEntries && i < index :: logEntries[i];
      rows := Contents().log.TruncateFrom(index).rows;
      history := history + [Contents()];
    }

    method ApplySet(index: nat, key: string, value: string)
      requires Valid()
      modifies this
      ensures Valid() && Contents() == Disks.ApplySet(old(Contents()), index, key, value)
      ensures history == old(history) + [Contents()]
    {
      kv := kv[key := KvRow(value, index)];
      lastApplied := index;
      history := history + [Contents()];
    }

    /** Record the key-value table as a snapshot and drop the rows it covers. */
    method CreateSnapshot(index: nat, term: nat) returns (snap: Snapshot)
      requires Valid() && Contents().log.snapIndex <= index
      modifies this
      ensures Valid() && Contents() == Disks.CreateSnapshot(old(Contents()), index, term)
      ensures snap == Disks.LoadSnapshot(Contents())
      ensures history == old(history) + [Contents()]
    {
      hide LogTable.Rebase, Values, Valid;
      var values := All();
      snap := Snapshot(index, term, Image(values));
      snapshot := Some(snap);
      Rebase(index, term);
      lastApplied := index;
      history := history + [Contents()];
    }

    /** Delete the rows up to an index and set the snapshot metadata: a part of two transactions. */
    method Rebase(index: nat, term: nat)
      requires Valid() && Contents().log.snapIndex <= index
      modifies `logEntries, `rows, `snapIndex, `snapTerm
      ensures Valid()
      ensures var d := old(Contents()); Contents() == d.(log := d.log.Rebase(index, term))
    {
      ghost var gone := index - snapIndex;
      ghost var kept := if gone >= |rows| then [] else rows[gone..];
      assert forall i :: 0 <= i < |kept| ==> kept[i] == RowEntry(index + 1 + i, logEntries[index + 1 + i]);
      logEntries := map i | i in logEntries && i > index :: logEntries[i];
      rows := kept;
      snapIndex := index;
      snapTerm := term;
    }

    /** Replace the key-value table by the snapshot's. Data that does not decode fails before anything is written. */
    method InstallSnapshot(snap: Snapshot) returns (ok: bool)
      requires Valid() && Contents().log.snapIndex <= snap.lastIndex
      modifies this
      ensures Valid()
      ensures ok == Disks.InstallSnapshot(old(Contents()), snap).Some?
      ensures ok ==> Contents() == Disks.InstallSnapshot(old(Contents()), snap).value
      ensures ok ==> history == old(history) + [Contents()]
      ensures !ok ==> Contents() == old(Contents()) && history == old(history)
    {
      hide LogTable.Rebase, Valid;
      var decoded := Decode(snap.data);
      if decoded == None { return false; }
      ReplaceKv(decoded.value, snap.lastIndex);
      Rebase(snap.lastIndex, snap.lastTerm);
      snapshot := Some(snap);
      lastApplied := snap.lastIndex;
      history := history + [Contents()];
      return true;
    }

    /** Empty the key-value table and fill it again: a part of a transaction. */
    method ReplaceKv(values: map<string, string>, index: nat)
      modifies `kv
      ensures kv == map k | k in values :: KvRow(values[k], index)
    {
      kv := map[];
      var todo := values.Keys;
      while todo != {}
        invariant todo <= values.Keys
        invariant kv.Keys == values.Keys - todo
        invariant forall k :: k in kv ==> kv[k] == KvRow(values[k], index)
        decreases todo
      {
        var k :| k in todo;
        kv := kv[k := KvRow(values[k], index)];
        todo := todo - {k};
      }
    }
  }

  lemma ExtendSlice(rows: seq<Entry>, lo: nat, hi: nat)
    requires lo <= hi < |rows|
    ensures rows[lo..hi] + [rows[hi]] == rows[lo..hi + 1]
  {
  }

  /** The rows with one of them inserted at the end or overwritten. */
  function PutRow(rows: seq<Entry>, at: nat, e: Entry): seq<Entry>
    requires at <= |rows|
  {
    if at == |rows| then rows + [e] else rows[at := e]
  }

  /** The table after the first i entries of a run. */
  function Inserted(t: LogTable, entries: seq<Entry>, i: nat): LogTable
    requires Mergeable(t, entries) && i <= |entries|
  {
    if i == 0 then t else t.Upsert(entries[..i])
  }

  /** Inserting a run one row after the other. */
  lemma InsertOne(t: LogTable, entries: seq<Entry>, i: nat)
    requires Mergeable(t, entries) && i < |entries|
    ensures var at := entries[i].index - t.snapIndex - 1; var rows := Inserted(t, entries, i).rows;
            && at <= |rows|
            && Inserted(t, entries, i + 1) == t.(rows := PutRow(rows, at, entries[i]))
    ensures Inserted(t, entries, i).snapIndex == t.snapIndex && Inserted(t, entries, i).snapTerm == t.snapTerm
  {
    var at := entries[0].index - t.snapIndex - 1;
    assert entries[..i + 1] == entries[..i] + [entries[i]];
  }
}
