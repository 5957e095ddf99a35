/** A snapshot taken at one node and installed at another, followed by the entries behind it. */
module Snapshots {
  import opened RaftTypes
  import opened Logs
  import opened LogTables
  import opened Compaction
  import opened Disks

  /** Apply entries one transaction after the other. */
  function ApplyAll(d: Disk, entries: seq<Entry>): Disk
    requires Decodable(entries)
  {
    if entries == [] then d
    else
      var e := entries[|entries| - 1];
      ApplySet(ApplyAll(d, entries[..|entries| - 1]), e.index, e.command.key, e.command.value)
  }

  lemma {:induction false} ApplyAllReplays(d: Disk, entries: seq<Entry>)
    requires Decodable(entries)
    ensures Values(ApplyAll(d, entries).kv) == ReplayOnto(Values(d.kv), entries)
    ensures ApplyAll(d, entries).log == d.log
    ensures ApplyAll(d, entries).lastApplied == if entries == [] then d.lastApplied else entries[|entries| - 1].index
  {
    if entries != [] {
      var e := entries[|entries| - 1];
      var before := ApplyAll(d, entries[..|entries| - 1]);
      ApplyAllReplays(d, entries[..|entries| - 1]);
      assert Values(before.kv[e.command.key := KvRow(e.command.value, e.index)])
          == Values(before.kv)[e.command.key := e.command.value];
    }
  }

  /** What CreateSnapshot records at k, another store can install: the same map, and a log that continues at k. */
  lemma CreatedInstalls(source: Disk, log: seq<Entry>, k: nat, target: Disk)
    requires Represents(source.log, log) && source.log.snapIndex <= k <= |log| && target.log.snapIndex <= k
    ensures var created := CreateSnapshot(source, k, TermOf(log, k));
            && Represents(created.log, log) && created.snapshot.Some? && created.snapshot.value.lastIndex == k
            && var installed := InstallSnapshot(target, created.snapshot.value);
            && installed.Some? && Values(installed.value.kv) == Values(source.kv) && installed.value.lastApplied == k
            && (target.log.LastIndex() <= k ==> Represents(installed.value.log, log[..k]))
  {
    RebaseRepresents(source.log, log, k);
    var installed := InstallSnapshot(target, CreateSnapshot(source, k, TermOf(log, k)).snapshot.value).value;
    assert Values(installed.kv) == Values(source.kv);
  }

  /**
   * Installing what CreateSnapshot recorded at k, whatever was stored before, and applying entries k + 1 to m gives
   * the key-value map of applying 1 to m on an empty store, and a log that answers reads like the source's.
   */
  lemma SnapshotThenReplay(source: Disk, log: seq<Entry>, k: nat, m: nat, target: Disk)
    requires Represents(source.log, log) && Numbered(log) && Decodable(log)
    requires source.log.snapIndex <= k <= m <= |log| && Values(source.kv) == Replay(log[..k])
    requires target.log.snapIndex <= k
    ensures var created := CreateSnapshot(source, k, TermOf(log, k));
            && Represents(created.log, log) && created.snapshot.Some?
            && var installed := InstallSnapshot(target, created.snapshot.value);
            && installed.Some?
            && (target.log.LastIndex() <= k ==> Represents(installed.value.log, log[..k]))
            && var applied := ApplyAll(installed.value, log[k..m]);
            && Values(applied.kv) == Values(ApplyAll(NewDisk(), log[..m]).kv) == Replay(log[..m])
            && applied.lastApplied == m
  {
    hide CreateSnapshot, InstallSnapshot, ApplyAll, ReplayOnto, Represents, Values;
    CreatedInstalls(source, log, k, target);
    ApplyAllReplays(InstallSnapshot(target, CreateSnapshot(source, k, TermOf(log, k)).snapshot.value).value, log[k..m]);
    ApplyAllReplays(NewDisk(), log[..m]);
    ReplayConcat(map[], log[..k], log[k..m]);
    assert log[..k] + log[k..m] == log[..m];
    NothingStored();
  }

  /** A store without a snapshot offers index 0 and no data, and no data install as the empty map. */
  lemma NoDataIsEmpty(d: Disk, k: nat, t: nat)
    requires d.log.snapIndex <= k
    ensures d.snapshot == None ==> LoadSnapshot(d) == Snapshot(0, 0, NoData)
    ensures var installed := InstallSnapshot(d, Snapshot(k, t, NoData));
            installed.Some? && installed.value.kv == map[] && installed.value.lastApplied == k
  {
  }

  lemma NothingStored()
    ensures Values(NewDisk().kv) == map[]
  {
  }
}
