/**
 * One node inside the protocol: its memory, its disk, and the replica that they stand for.
 *
 * Each lemma takes one piece of a locked region and shows that it is a move of the protocol, that memory and disk
 * still stand for the replica, and that a crash after any transaction on the way restarts into a good state.
 */
module NodeRuns {
  import opened RaftTypes
  import opened Logs
  import opened LogTables
  import opened Compaction
  import opened Disks
  import opened NodeSpec
  import opened Protocol
  import opened ProtocolActions
  import opened Clusters

  predicate SnapshotOk(d: Disk, full: seq<Entry>)
    requires d.log.snapIndex <= |full|
  {
    d.log.snapIndex > 0 ==>
      d.snapshot == Some(Snapshot(d.log.snapIndex, d.log.snapTerm, Image(Replay(full[..d.log.snapIndex]))))
  }

  /** The entries write this key. */
  predicate WritesKey(es: seq<Entry>, key: string) {
    exists i :: 0 <= i < |es| && es[i].command.SetCommand? && es[i].command.key == key
  }

  /**
   * Each row of the key-value table carries an index at which the key had the row's value, and behind which no applied
   * entry has written the key.
   */
  predicate RowsTrue(kv: map<string, KvRow>, applied: seq<Entry>) {
    forall key :: key in kv ==>
      var i := kv[key].logIndex;
      && 0 < i <= |applied| && !WritesKey(applied[i..], key)
      && key in Replay(applied[..i]) && Replay(applied[..i])[key] == kv[key].value
  }

  /** The disk stands for this log: the rows are its compacted form, and the key-value table is a replay. */
  predicate DiskOk(d: Disk, full: seq<Entry>) {
    && Represents(d.log, full)
    && d.log.snapIndex <= d.lastApplied <= |full|
    && Values(d.kv) == Replay(full[..d.lastApplied])
    && RowsTrue(d.kv, full[..d.lastApplied])
    && SnapshotOk(d, full)
  }

  /** Memory and disk agree, and the disk stands for this log. */
  predicate NodeOk(ns: NodeState, full: seq<Entry>) {
    && ns.term == ns.disk.term && ns.votedFor == ns.disk.vote && ns.lastApplied == ns.disk.lastApplied
    && DiskOk(ns.disk, full)
  }

  ghost predicate Runs(ids: set<NodeId>, p: Proto, n: NodeId, ns: NodeState) {
    && Inv(ids, p) && n in p.replicas
    && p.replicas[n] == AbsNode(ns, p.replicas[n].log)
    && NodeOk(ns, p.replicas[n].log)
  }

  /** A crash that leaves this disk, log and history restarts into a good state. */
  ghost predicate Safe(ids: set<NodeId>, p: Proto, n: NodeId, d: Disk, full: seq<Entry>, h: History)
    requires n in p.replicas
  {
    Inv(ids, With(p, n, AbsNode(Restart(d), full), h)) && DiskOk(d, full)
  }

  /** A crash after any number of these transactions is safe. */
  ghost predicate AllSafe(ids: set<NodeId>, p: Proto, n: NodeId, d: Disk, full: seq<Entry>, writes: seq<Disk>,
                          h: History)
    requires n in p.replicas
  {
    forall i: nat :: i <= |writes| ==>
      Safe(ids, p, n, DiskAfter(d, writes, i), FullAfter(p.h.reigns, full, writes[..i]), h)
  }

  lemma RunsSafe(ids: set<NodeId>, p: Proto, q: Proto, n: NodeId, m: NodeState)
    requires n in p.replicas && Runs(ids, q, n, m) && q == With(p, n, q.replicas[n], q.h)
    ensures Safe(ids, p, n, m.disk, q.replicas[n].log, q.h)
  {
    hide Inv;
    RebootKeeps(ids, q, n);
    assert Reboot(q, n) == With(p, n, AbsNode(Restart(m.disk), q.replicas[n].log), q.h);
  }

  lemma UncompactSame(reigns: map<nat, Reign>, full: seq<Entry>, d: Disk)
    requires Represents(d.log, full)
    ensures Uncompact(reigns, full, d) == full
  {
    assert full[..d.log.snapIndex] + full[d.log.snapIndex..] == full;
  }

  lemma {:induction false} FullAfterSame(reigns: map<nat, Reign>, full: seq<Entry>, writes: seq<Disk>)
    requires forall i :: 0 <= i < |writes| ==> Represents(writes[i].log, full)
    ensures FullAfter(reigns, full, writes) == full
  {
    if writes != [] {
      FullAfterSame(reigns, full, writes[..|writes| - 1]);
      UncompactSame(reigns, full, writes[|writes| - 1]);
    }
  }

  lemma {:induction false} FullAfterConcat(reigns: map<nat, Reign>, full: seq<Entry>, a: seq<Disk>, b: seq<Disk>)
    ensures FullAfter(reigns, full, a + b) == FullAfter(reigns, FullAfter(reigns, full, a), b)
  {
    if b == [] {
      assert a + b == a;
    } else {
      assert (a + b)[..|a + b| - 1] == a + b[..|b| - 1];
      FullAfterConcat(reigns, full, a, b[..|b| - 1]);
    }
  }

  lemma SafeAt(ids: set<NodeId>, p: Proto, n: NodeId, d: Disk, full: seq<Entry>, writes: seq<Disk>, h: History, i: nat)
    requires n in p.replicas && AllSafe(ids, p, n, d, full, writes, h) && i <= |writes|
    ensures Safe(ids, p, n, DiskAfter(d, writes, i), FullAfter(p.h.reigns, full, writes[..i]), h)
  {
    hide Safe, FullAfter;
  }

  lemma SafeConcatAt(ids: set<NodeId>, p: Proto, n: NodeId, d: Disk, full: seq<Entry>, a: seq<Disk>, b: seq<Disk>,
                     h: History, i: nat)
    requires n in p.replicas && AllSafe(ids, p, n, d, full, a, h)
    requires AllSafe(ids, p, n, DiskAfter(d, a, |a|), FullAfter(p.h.reigns, full, a), b, h)
    requires i <= |a + b|
    ensures Safe(ids, p, n, DiskAfter(d, a + b, i), FullAfter(p.h.reigns, full, (a + b)[..i]), h)
  {
    hide Safe, AllSafe, FullAfter;
    if i <= |a| {
      assert (a + b)[..i] == a[..i];
      SafeAt(ids, p, n, d, full, a, h, i);
    } else {
      var j: nat := i - |a|;
      assert (a + b)[..i] == a + b[..j];
      FullAfterConcat(p.h.reigns, full, a, b[..j]);
      SafeAt(ids, p, n, DiskAfter(d, a, |a|), FullAfter(p.h.reigns, full, a), b, h, j);
    }
  }

  /** Transactions one after the other are safe if both parts are. */
  lemma SafeConcat(ids: set<NodeId>, p: Proto, n: NodeId, d: Disk, full: seq<Entry>, a: seq<Disk>, b: seq<Disk>,
                   h: History)
    requires n in p.replicas && AllSafe(ids, p, n, d, full, a, h)
    requires AllSafe(ids, p, n, DiskAfter(d, a, |a|), FullAfter(p.h.reigns, full, a), b, h)
    ensures AllSafe(ids, p, n, d, full, a + b, h)
  {
    forall i: nat | i <= |a + b|
      ensures Safe(ids, p, n, DiskAfter(d, a + b, i), FullAfter(p.h.reigns, full, (a + b)[..i]), h)
    {
      hide Safe, AllSafe, FullAfter;
      SafeConcatAt(ids, p, n, d, full, a, b, h, i);
    }
  }

  /** No transaction at all. */
  lemma NoWritesSafe(ids: set<NodeId>, p: Proto, n: NodeId, ns: NodeState)
    requires Runs(ids, p, n, ns)
    ensures FullAfter(p.h.reigns, p.replicas[n].log, []) == p.replicas[n].log
    ensures AllSafe(ids, p, n, ns.disk, p.replicas[n].log, [], p.h)
  {
    hide Inv;
    RunsSafe(ids, p, p, n, ns);
  }

  /** A single transaction that leads to q. */
  lemma OneWriteSafe(ids: set<NodeId>, p: Proto, q: Proto, n: NodeId, ns: NodeState, m: NodeState)
    requires Runs(ids, p, n, ns) && Runs(ids, q, n, m)
    requires q == With(p, n, q.replicas[n], p.h)
    requires q.replicas[n].log == Uncompact(p.h.reigns, p.replicas[n].log, m.disk)
    ensures FullAfter(p.h.reigns, p.replicas[n].log, [m.disk]) == q.replicas[n].log
    ensures AllSafe(ids, p, n, ns.disk, p.replicas[n].log, [m.disk], p.h)
  {
    hide Inv;
    var full := p.replicas[n].log;
    var w := [m.disk];
    RunsSafe(ids, p, p, n, ns);
    RunsSafe(ids, p, q, n, m);
    assert w[..0] == [];
    assert w[..1] == w && w[..|w| - 1] == [];
    forall i: nat | i <= |w|
      ensures Safe(ids, p, n, DiskAfter(ns.disk, w, i), FullAfter(p.h.reigns, full, w[..i]), p.h)
    {
      if i == 0 { assert w[..i] == []; } else { assert w[..i] == w; }
    }
  }

  /** Safety of the transactions of a later part, seen from the start of the region. */
  lemma SafeFromStart(ids: set<NodeId>, p: Proto, q: Proto, n: NodeId, d: Disk, full: seq<Entry>, writes: seq<Disk>,
                      h: History)
    requires n in p.replicas && n in q.replicas && q == With(p, n, q.replicas[n], q.h) && q.h.reigns == p.h.reigns
    requires AllSafe(ids, q, n, d, full, writes, h)
    ensures AllSafe(ids, p, n, d, full, writes, h)
  {
    hide Inv;
    forall i: nat | i <= |writes|
      ensures Safe(ids, p, n, DiskAfter(d, writes, i), FullAfter(p.h.reigns, full, writes[..i]), h)
    {
      var disk := DiskAfter(d, writes, i);
      var log := FullAfter(p.h.reigns, full, writes[..i]);
      assert Safe(ids, q, n, disk, log, h);
      assert With(q, n, AbsNode(Restart(disk), log), h) == With(p, n, AbsNode(Restart(disk), log), h);
    }
  }

  // ----- stepping down -----

  lemma StepDownRuns(ids: set<NodeId>, p: Proto, n: NodeId, ns: NodeState, t: nat)
    requires Runs(ids, p, n, ns)
    ensures var out := StepDown(ns, t);
            && Runs(ids, Adopt(p, n, t), n, out.state)
            && FullAfter(p.h.reigns, p.replicas[n].log, out.writes) == p.replicas[n].log
            && AllSafe(ids, p, n, ns.disk, p.replicas[n].log, out.writes, p.h)
  {
    hide Inv;
    var out := StepDown(ns, t);
    var q := Adopt(p, n, t);
    AdoptKeeps(ids, p, n, t);
    if t > ns.term {
      UncompactSame(p.h.reigns, p.replicas[n].log, out.state.disk);
      OneWriteSafe(ids, p, q, n, ns, out.state);
    } else {
      NoWritesSafe(ids, p, n, ns);
    }
  }

  // ----- applying -----

  lemma ApplyOneRuns(ids: set<NodeId>, p: Proto, n: NodeId, ns: NodeState)
    requires Runs(ids, p, n, ns) && ns.lastApplied < ns.commitIndex
    ensures ns.commitIndex <= |p.replicas[n].log|
    ensures var e := p.replicas[n].log[ns.lastApplied];
            && ns.disk.log.EntryAt(ns.lastApplied + 1) == Some(e)
            && e.index == ns.lastApplied + 1 && e.command.SetCommand?
            && var d := ApplySet(ns.disk, e.index, e.command.key, e.command.value);
            Runs(ids, Commit(p, n, ns.commitIndex, e.index), n, ns.(lastApplied := e.index, disk := d))
  {
    hide Inv, RowsTrue, Represents, Replay, Values;
    var r := p.replicas[n];
    CommitInRange(ids, p, n);
    LogFacts(ids, p, n);
    var e := r.log[ns.lastApplied];
    EntryAtAgrees(ns.disk.log, r.log, ns.lastApplied + 1);
    CommitKeeps(ids, p, n, ns.commitIndex, e.index);
    ReplayOne(r.log, ns.lastApplied);
    RowsSet(ns.disk.kv, r.log, ns.lastApplied);
    ValuesSet(ns.disk.kv, e.command.key, KvRow(e.command.value, e.index));
  }

  lemma CommitInRange(ids: set<NodeId>, p: Proto, n: NodeId)
    requires Inv(ids, p) && n in p.replicas
    ensures var r := p.replicas[n];
            r.applied <= r.commit <= |r.log| && Committed(ids, p.h, r.log, r.commit, r.term)
  {
  }

  /** Every replica's log is numbered from one and holds only commands that decode. */
  lemma LogFacts(ids: set<NodeId>, p: Proto, n: NodeId)
    requires Inv(ids, p) && n in p.replicas
    ensures var r := p.replicas[n]; Numbered(r.log) && Decodable(r.log) && Rooted(p.h.reigns, r.log)
  {
    assert ReplicaOk(ids, p, n);
    RootedNumbered(p.h.reigns, p.replicas[n].log);
  }

  lemma RootedNumbered(reigns: map<nat, Reign>, log: seq<Entry>)
    requires ReignLogsOk(reigns) && Rooted(reigns, log)
    ensures Numbered(log) && Decodable(log)
  {
    forall i | 0 <= i < |log|
      ensures log[i].index == i + 1 && log[i].command.SetCommand?
    {
      var t := log[i].term;
      assert ReignLogOk(reigns, t);
      assert log[i] == reigns[t].log[i];
    }
  }

  lemma ReplayOne(log: seq<Entry>, k: nat)
    requires k < |log|
    ensures Replay(log[..k + 1]) == ApplyCommand(Replay(log[..k]), log[k].command)
  {
    assert log[..k + 1][..k] == log[..k];
  }

  lemma ValuesSet(kv: map<string, KvRow>, k: string, row: KvRow)
    ensures Values(kv[k := row]) == Values(kv)[k := row.value]
  {
  }

  /** Applying one more entry sets the row of its key, and leaves the others true. */
  lemma RowsSet(kv: map<string, KvRow>, log: seq<Entry>, k: nat)
    requires k < |log| && RowsTrue(kv, log[..k]) && log[k].command.SetCommand?
    ensures RowsTrue(kv[log[k].command.key := KvRow(log[k].command.value, k + 1)], log[..k + 1])
  {
    var e := log[k];
    var rows := kv[e.command.key := KvRow(e.command.value, k + 1)];
    ReplayOne(log, k);
    forall key | key in rows
      ensures var i := rows[key].logIndex; var applied := log[..k + 1];
              && 0 < i <= |applied| && !WritesKey(applied[i..], key)
              && key in Replay(applied[..i]) && Replay(applied[..i])[key] == rows[key].value
    {
      var i := rows[key].logIndex;
      if key == e.command.key {
        assert log[..k + 1][..i] == log[..k + 1];
      } else {
        assert log[..k + 1][..i] == log[..k][..i];
        assert log[..k + 1][i..] == log[..k][i..] + [e];
        OneMoreWrite(log[..k][i..], e, key);
      }
    }
  }

  lemma OneMoreWrite(es: seq<Entry>, e: Entry, key: string)
    requires !WritesKey(es, key) && e.command.SetCommand? && e.command.key != key
    ensures !WritesKey(es + [e], key)
  {
    forall i | 0 <= i < |es + [e]|
      ensures !((es + [e])[i].command.SetCommand? && (es + [e])[i].command.key == key)
    {
      if i < |es| { assert (es + [e])[i] == es[i]; }
    }
  }

  /** The rows of an image taken at the apply position. */
  lemma RowsOfImage(applied: seq<Entry>)
    requires applied != [] || Replay(applied) == map[]
    ensures RowsTrue(map key | key in Replay(applied) :: KvRow(Replay(applied)[key], |applied|), applied)
  {
    assert applied[..|applied|] == applied && applied[|applied|..] == [];
  }

  lemma CommitTwice(p: Proto, n: NodeId, c: nat, a: nat, b: nat)
    requires n in p.replicas
    ensures Commit(Commit(p, n, c, a), n, c, b) == Commit(p, n, c, b)
  {
  }

  /** The apply loop runs to the commit index: it meets no missing entry and no undecodable command. */
  lemma {:induction false} ApplyLoopRuns(ids: set<NodeId>, p: Proto, n: NodeId, ns: NodeState)
    requires Runs(ids, p, n, ns) && ns.lastApplied <= ns.commitIndex && GoodTable(ns)
    ensures var a := ApplyLoop(ns);
            && a.finished && a.state.lastApplied == ns.commitIndex && a.state.commitIndex == ns.commitIndex
            && Runs(ids, Commit(p, n, ns.commitIndex, ns.commitIndex), n, a.state)
            && a.state.disk.log == ns.disk.log
            && a.state == ns.(lastApplied := ns.commitIndex, disk := a.state.disk)
            && a.state.disk == DiskAfter(ns.disk, a.writes, |a.writes|)
            && (forall i :: 0 <= i < |a.writes| ==> a.writes[i].log == ns.disk.log)
            && FullAfter(p.h.reigns, p.replicas[n].log, a.writes) == p.replicas[n].log
            && AllSafe(ids, p, n, ns.disk, p.replicas[n].log, a.writes, p.h)
    decreases ns.commitIndex - ns.lastApplied
  {
    hide Inv, Safe, AllSafe, FullAfter, Uncompact;
    var full := p.replicas[n].log;
    if ns.lastApplied == ns.commitIndex {
      NoWritesSafe(ids, p, n, ns);
      assert Commit(p, n, ns.commitIndex, ns.commitIndex) == p;
    } else {
      ApplyOneRuns(ids, p, n, ns);
      var e := full[ns.lastApplied];
      var d := ApplySet(ns.disk, e.index, e.command.key, e.command.value);
      var q := Commit(p, n, ns.commitIndex, e.index);
      var m := ns.(lastApplied := e.index, disk := d);
      ApplyLoopRuns(ids, q, n, m);
      CommitTwice(p, n, ns.commitIndex, e.index, ns.commitIndex);
      var rest := ApplyLoop(m);
      UncompactSame(p.h.reigns, full, d);
      OneWriteSafe(ids, p, q, n, ns, m);
      SafeFromStart(ids, p, q, n, d, full, rest.writes, p.h);
      SafeConcat(ids, p, n, ns.disk, full, [d], rest.writes, p.h);
      FullAfterConcat(p.h.reigns, full, [d], rest.writes);
    }
  }

  lemma CompactRuns(ids: set<NodeId>, cfg: Config, p: Proto, n: NodeId, ns: NodeState)
    requires Runs(ids, p, n, ns)
    ensures var c := CompactIfNeeded(cfg, ns);
            && Runs(ids, p, n, c.state)
            && c.state == ns.(disk := c.state.disk)
            && c.state.disk == DiskAfter(ns.disk, c.writes, |c.writes|)
            && (forall i :: 0 <= i < |c.writes| ==> Represents(c.writes[i].log, p.replicas[n].log))
            && FullAfter(p.h.reigns, p.replicas[n].log, c.writes) == p.replicas[n].log
            && AllSafe(ids, p, n, ns.disk, p.replicas[n].log, c.writes, p.h)
  {
    hide Inv, Safe, AllSafe, FullAfter, Uncompact;
    var c := CompactIfNeeded(cfg, ns);
    var full := p.replicas[n].log;
    TermAtAgrees(ns.disk.log, full, ns.lastApplied);
    if c.writes == [] {
      NoWritesSafe(ids, p, n, ns);
    } else {
      RebaseRepresents(ns.disk.log, full, ns.lastApplied);
      UncompactSame(p.h.reigns, full, c.state.disk);
      assert With(p, n, p.replicas[n], p.h) == p;
      OneWriteSafe(ids, p, p, n, ns, c.state);
    }
  }

  lemma ApplyCommittedRuns(ids: set<NodeId>, cfg: Config, p: Proto, n: NodeId, ns: NodeState)
    requires Runs(ids, p, n, ns) && ns.lastApplied <= ns.commitIndex && GoodTable(ns)
    ensures var a := ApplyCommitted(cfg, ns);
            && Runs(ids, Commit(p, n, ns.commitIndex, ns.commitIndex), n, a.state)
            && a.state == ns.(lastApplied := ns.commitIndex, disk := a.state.disk)
            && a.state.disk == DiskAfter(ns.disk, a.writes, |a.writes|)
            && (forall i :: 0 <= i < |a.writes| ==> Represents(a.writes[i].log, p.replicas[n].log))
            && FullAfter(p.h.reigns, p.replicas[n].log, a.writes) == p.replicas[n].log
            && AllSafe(ids, p, n, ns.disk, p.replicas[n].log, a.writes, p.h)
  {
    hide Inv, Safe, AllSafe, FullAfter, Uncompact;
    var full := p.replicas[n].log;
    ApplyLoopRuns(ids, p, n, ns);
    var a := ApplyLoop(ns);
    var q := Commit(p, n, ns.commitIndex, ns.commitIndex);
    CompactRuns(ids, cfg, q, n, a.state);
    var c := CompactIfNeeded(cfg, a.state);
    SafeFromStart(ids, p, q, n, a.state.disk, full, c.writes, p.h);
    SafeConcat(ids, p, n, ns.disk, full, a.writes, c.writes, p.h);
    FullAfterConcat(p.h.reigns, full, a.writes, c.writes);
  }
}
