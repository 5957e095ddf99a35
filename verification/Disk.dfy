/** The durable state of a node, and each store transaction as a function on it. */
module Disks {
  import opened RaftTypes
  import opened LogTables

  datatype KvRow = KvRow(value: string, logIndex: nat)

  datatype Disk = Disk(
    term: nat, vote: Option<NodeId>, lastApplied: nat, log: LogTable,
    kv: map<string, KvRow>, snapshot: Option<Snapshot>)

  /** What a client can read: the key-value table without the bookkeeping column. */
  function Values(kv: map<string, KvRow>): map<string, string> {
    map k | k in kv :: kv[k].value
  }

  function NewDisk(): Disk {
    Disk(0, None, 0, LogTable(0, 0, []), map[], None)
  }

  function SaveTermVote(d: Disk, term: nat, vote: Option<NodeId>): Disk {
    d.(term := term, vote := vote)
  }

  function ApplySet(d: Disk, index: nat, key: string, value: string): Disk {
    d.(kv := d.kv[key := KvRow(value, index)], lastApplied := index)
  }

  function CreateSnapshot(d: Disk, k: nat, t: nat): Disk
    requires d.log.snapIndex <= k
  {
    d.(snapshot := Some(Snapshot(k, t, Image(Values(d.kv)))), log := d.log.Rebase(k, t), lastApplied := k)
  }

  /** The image that snapshot bytes decode to; no bytes at all stand for the empty map. */
  function Decode(data: SnapshotData): Option<map<string, string>> {
    match data
    case NoData => Some(map[])
    case Image(values) => Some(values)
    case Corrupt => None
  }

  /** Undecodable data fails before anything is written. */
  function InstallSnapshot(d: Disk, snap: Snapshot): Option<Disk>
    requires d.log.snapIndex <= snap.lastIndex
  {
    match Decode(snap.data)
    case None => None
    case Some(values) =>
      Some(d.(kv := map k | k in values :: KvRow(values[k], snap.lastIndex),
              snapshot := Some(snap),
              log := d.log.Rebase(snap.lastIndex, snap.lastTerm),
              lastApplied := snap.lastIndex))
  }

  function LoadSnapshot(d: Disk): Snapshot {
    if d.snapshot.Some? then d.snapshot.value else Snapshot(0, 0, NoData)
  }
}
