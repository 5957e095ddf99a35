/**
 * What clients and operators may rely on, over whole runs: one sequence that every state machine follows,
 * acknowledged writes that are never lost, ordered indices, and matches that leaders may believe.
 */
module RaftDurability {
  import opened RaftTypes
  import opened Logs
  import opened LogTables
  import opened Compaction
  import opened Disks
  import opened NodeSpec
  import opened Protocol
  import opened ProtocolActions
  import opened Clusters
  import opened NodeRuns
  import opened HandlerRuns
  import opened FollowerRuns
  import opened LeaderRuns
  import opened ClusterSafety
  import opened RaftSafety

  // ----- one sequence for all state machines -----

  /** A node has applied a prefix of this sequence, and its key-value table is the replay of that prefix. */
  predicate HasApplied(s: Cluster, n: NodeId, a: seq<Entry>) {
    && n in s.nodes && n in s.full
    && var k := s.nodes[n].lastApplied;
    && Agree(s.full[n], a, k)
    && Values(s.nodes[n].disk.kv) == Replay(a[..k])
  }

  /** The key-value table of a node is the replay of what it has applied, at every moment of a run. */
  lemma KvIsReplay(c: Setup, states: seq<Cluster>, events: seq<Event>, i: nat, n: NodeId)
    requires ValidSetup(c) && IsRun(c, states, events) && i < |states| && n in c.configs
    ensures n in states[i].nodes && n in states[i].full
    ensures var ns := states[i].nodes[n]; var full := states[i].full[n];
            && ns.lastApplied <= |full| && Values(ns.disk.kv) == Replay(full[..ns.lastApplied])
            && Represents(ns.disk.log, full)
  {
    hide Inv, Abs, IsRun, Runs, Represents;
    NodeAt(c, states, events, i, n);
  }

  /** The index column says where a value comes from: the key had it there, and nothing applied since has written it. */
  lemma RowsCarryIndices(c: Setup, states: seq<Cluster>, events: seq<Event>, i: nat, n: NodeId, key: string)
    requires ValidSetup(c) && IsRun(c, states, events) && i < |states| && n in c.configs
    ensures n in states[i].nodes && n in states[i].full && states[i].nodes[n].lastApplied <= |states[i].full[n]|
    ensures var kv := states[i].nodes[n].disk.kv; var applied := states[i].full[n][..states[i].nodes[n].lastApplied];
            key in kv ==>
              var k := kv[key].logIndex;
              && 0 < k <= |applied| && key in Replay(applied[..k]) && Replay(applied[..k])[key] == kv[key].value
              && forall j :: k <= j < |applied| && applied[j].command.SetCommand? ==> applied[j].command.key != key
  {
    hide Inv, Abs, IsRun, Represents, Replay;
    NodeAt(c, states, events, i, n);
    if key in states[i].nodes[n].disk.kv { RowTrueAt(states[i].nodes[n].disk, states[i].full[n], key); }
  }

  lemma RowTrueAt(d: Disk, full: seq<Entry>, key: string)
    requires DiskOk(d, full) && key in d.kv
    ensures d.lastApplied <= |full|
    ensures var applied := full[..d.lastApplied]; var k := d.kv[key].logIndex;
            && 0 < k <= |applied| && key in Replay(applied[..k]) && Replay(applied[..k])[key] == d.kv[key].value
            && forall j :: k <= j < |applied| && applied[j].command.SetCommand? ==> applied[j].command.key != key
  {
    hide Replay;
    var applied := full[..d.lastApplied];
    var k := d.kv[key].logIndex;
    assert forall j :: k <= j < |applied| ==> applied[j] == applied[k..][j - k];
  }

  /** Of some nodes at one moment, one that has applied most. */
  lemma {:induction false} FurthestAt(s: Cluster, ids: set<NodeId>) returns (n: NodeId)
    requires ids != {} && ids <= s.nodes.Keys
    ensures n in ids
    ensures forall m :: m in ids ==> s.nodes[m].lastApplied <= s.nodes[n].lastApplied
  {
    var one :| one in ids;
    var rest := ids - {one};
    n := one;
    if rest != {} {
      var m := FurthestAt(s, rest);
      if s.nodes[m].lastApplied > s.nodes[one].lastApplied { n := m; }
    }
    forall m | m in ids
      ensures s.nodes[m].lastApplied <= s.nodes[n].lastApplied
    {
      assert m == one || m in rest;
    }
  }

  /** Of all nodes at the first moments of a run, one that has applied most. */
  lemma {:induction false} FurthestIn(c: Setup, states: seq<Cluster>, k: nat) returns (i: nat, n: NodeId)
    requires c.configs.Keys != {} && k < |states|
    requires forall j :: 0 <= j < |states| ==> states[j].nodes.Keys == c.configs.Keys
    ensures i <= k && n in c.configs && n in states[i].nodes
    ensures forall j, m :: 0 <= j <= k && m in c.configs ==>
              states[j].nodes[m].lastApplied <= states[i].nodes[n].lastApplied
  {
    var best := FurthestAt(states[k], c.configs.Keys);
    i, n := k, best;
    if k > 0 {
      var j, m := FurthestIn(c, states, k - 1);
      if states[j].nodes[m].lastApplied > states[k].nodes[best].lastApplied { i, n := j, m; }
    }
  }

  /**
   * State machine safety: in every run there is one sequence of entries that every node has applied in order, at
   * every moment, as far as it got; its key-value table is the replay of that prefix.
   */
  lemma StateMachineSafety(c: Setup, states: seq<Cluster>, events: seq<Event>) returns (a: seq<Entry>)
    requires ValidSetup(c) && IsRun(c, states, events)
    ensures forall i, n :: 0 <= i < |states| && n in c.configs ==> HasApplied(states[i], n, a)
  {
    hide IsRun, ValidSetup, HasApplied, ClusterInv;
    RunLength(c, states, events);
    if c.configs.Keys == {} { return []; }
    forall j | 0 <= j < |states|
      ensures states[j].nodes.Keys == c.configs.Keys
    {
      RunKeys(c, states, events, j);
    }
    var top, best := FurthestIn(c, states, |states| - 1);
    KvIsReplay(c, states, events, top, best);
    a := states[top].full[best][..states[top].nodes[best].lastApplied];
    forall i, n | 0 <= i < |states| && n in c.configs
      ensures HasApplied(states[i], n, a)
    {
      AppliedAgree(c, states, events, i, top, n, best);
      AppliedPrefix(c, states, events, i, n, states[top].full[best], a);
    }
  }

  lemma RunLength(c: Setup, states: seq<Cluster>, events: seq<Event>)
    requires IsRun(c, states, events)
    ensures |states| == |events| + 1
  {
  }

  lemma RunKeys(c: Setup, states: seq<Cluster>, events: seq<Event>, j: nat)
    requires ValidSetup(c) && IsRun(c, states, events) && j < |states|
    ensures states[j].nodes.Keys == c.configs.Keys && states[j].full.Keys == c.configs.Keys
  {
    hide IsRun, Inv;
    RunInv(c, states, events, j);
  }

  lemma AppliedPrefix(c: Setup, states: seq<Cluster>, events: seq<Event>, i: nat, n: NodeId, log: seq<Entry>,
                      a: seq<Entry>)
    requires ValidSetup(c) && IsRun(c, states, events) && i < |states| && n in c.configs && n in states[i].nodes
             && n in states[i].full
    requires a <= log && states[i].nodes[n].lastApplied <= |a|
    requires Agree(states[i].full[n], log, states[i].nodes[n].lastApplied)
    ensures HasApplied(states[i], n, a)
  {
    hide IsRun, ValidSetup;
    KvIsReplay(c, states, events, i, n);
    var k := states[i].nodes[n].lastApplied;
    assert states[i].full[n][..k] == a[..k];
  }

  /** Seen from outside: two nodes that have applied equally far hold the same table, whenever one looks. */
  lemma SameTable(c: Setup, states: seq<Cluster>, events: seq<Event>, i: nat, j: nat, a: NodeId, b: NodeId)
    requires ValidSetup(c) && IsRun(c, states, events) && i < |states| && j < |states| && a in c.configs
             && b in c.configs
    ensures a in states[i].nodes && b in states[j].nodes
    ensures states[i].nodes[a].lastApplied == states[j].nodes[b].lastApplied ==>
              Values(states[i].nodes[a].disk.kv) == Values(states[j].nodes[b].disk.kv)
  {
    hide IsRun, ValidSetup;
    KvIsReplay(c, states, events, i, a);
    KvIsReplay(c, states, events, j, b);
    AppliedAgree(c, states, events, i, j, a, b);
    var k := states[i].nodes[a].lastApplied;
    if k == states[j].nodes[b].lastApplied {
      AgreeSlice(states[i].full[a], states[j].full[b], k);
    }
  }

  /** The same for stored rows: an index that two nodes have applied and still store holds the same entry. */
  lemma SameRow(c: Setup, states: seq<Cluster>, events: seq<Event>, i: nat, j: nat, a: NodeId, b: NodeId, k: nat)
    requires ValidSetup(c) && IsRun(c, states, events) && i < |states| && j < |states| && a in c.configs
             && b in c.configs
    ensures a in states[i].nodes && b in states[j].nodes
    ensures var x := states[i].nodes[a]; var y := states[j].nodes[b];
            k <= x.lastApplied && k <= y.lastApplied
            && x.disk.log.EntryAt(k).Some? && y.disk.log.EntryAt(k).Some? ==>
              x.disk.log.EntryAt(k) == y.disk.log.EntryAt(k)
  {
    hide IsRun, ValidSetup;
    KvIsReplay(c, states, events, i, a);
    KvIsReplay(c, states, events, j, b);
    AppliedAgree(c, states, events, i, j, a, b);
    EntryAtAgrees(states[i].nodes[a].disk.log, states[i].full[a], k);
    EntryAtAgrees(states[j].nodes[b].disk.log, states[j].full[b], k);
  }

  /** Log matching on what is stored: rows with equal index and term have the same rows below them on both nodes. */
  lemma RowMatching(c: Setup, states: seq<Cluster>, events: seq<Event>, i: nat, a: NodeId, b: NodeId, k: nat, j: nat)
    requires ValidSetup(c) && IsRun(c, states, events) && i < |states| && a in c.configs && b in c.configs && j <= k
    ensures a in states[i].nodes && b in states[i].nodes
    ensures var x := states[i].nodes[a].disk.log; var y := states[i].nodes[b].disk.log;
            && x.EntryAt(k).Some? && y.EntryAt(k).Some? && x.EntryAt(k).value.term == y.EntryAt(k).value.term
            && x.EntryAt(j).Some? && y.EntryAt(j).Some? ==>
              x.EntryAt(j) == y.EntryAt(j)
  {
    hide IsRun, ValidSetup;
    KvIsReplay(c, states, events, i, a);
    KvIsReplay(c, states, events, i, b);
    LogMatching(c, states, events, i, a, b, k);
    var x := states[i].full[a];
    var y := states[i].full[b];
    EntryAtAgrees(states[i].nodes[a].disk.log, x, k);
    EntryAtAgrees(states[i].nodes[b].disk.log, y, k);
    EntryAtAgrees(states[i].nodes[a].disk.log, x, j);
    EntryAtAgrees(states[i].nodes[b].disk.log, y, j);
    if 0 < j && k <= |x| && k <= |y| && x[..k] == y[..k] {
      assert x[..k][j - 1] == y[..k][j - 1];
    }
  }

  // ----- acknowledged writes -----

  /** Where an accepted client write leaves its entry: at the end of the leader's log. */
  lemma WriteLands(c: Setup, states: seq<Cluster>, events: seq<Event>, i: nat, op: Op, e: Entry)
    requires ValidSetup(c) && IsRun(c, states, events) && i < |events|
    requires op.ClientWrite? && events[i] == Run(op) && op.n in c.configs && op.n in states[i].nodes
    requires GoodTable(states[i].nodes[op.n])
    requires WriteAppend(c.configs[op.n], states[i].nodes[op.n], op.key, op.value).reply == Some(e)
    ensures op.n in states[i + 1].nodes && op.n in states[i + 1].full
    ensures var ns := states[i + 1].nodes[op.n]; var full := states[i + 1].full[op.n];
            && ns.role == Leader && ns.term == e.term == states[i].nodes[op.n].term
            && 0 < e.index == |full| && full[e.index - 1] == e
  {
    hide Inv, Abs, ValidSetup, IsRun, WriteAppend, Perform, Enabled, HistoryDone, Runs, NodeOk;
    RunStep(c, states, events, i);
    var s := states[i];
    var n := op.n;
    WriteByLeader(c, s, op, e);
    LeaderAt(c, states, events, i, n);
    NodeAt(c, states, events, i, n);
    NodeParts(s.nodes[n], s.full[n]);
    LastAgrees(s.nodes[n].disk.log, s.full[n]);
    WritePerformed(c, s, op, e);
    LeaderAt(c, states, events, i + 1, n);
  }

  lemma RunStep(c: Setup, states: seq<Cluster>, events: seq<Event>, i: nat)
    requires IsRun(c, states, events) && i < |events|
    ensures |states| == |events| + 1 && CanHappen(c, states[i], events[i])
            && states[i + 1] == Next(c, states[i], events[i])
  {
  }

  lemma WriteByLeader(c: Setup, s: Cluster, op: Op, e: Entry)
    requires op.ClientWrite? && op.n in c.configs && op.n in s.nodes && GoodTable(s.nodes[op.n])
    requires WriteAppend(c.configs[op.n], s.nodes[op.n], op.key, op.value).reply == Some(e)
    ensures op.key != "" && s.nodes[op.n].role == Leader && e == Written(s, op)
  {
    hide AdvanceCommit;
  }

  lemma WritePerformed(c: Setup, s: Cluster, op: Op, e: Entry)
    requires Enabled(c, s, op) && op.ClientWrite? && s.nodes[op.n].term in s.h.reigns
    requires WriteAppend(c.configs[op.n], s.nodes[op.n], op.key, op.value).reply == Some(e)
    ensures var t := s.nodes[op.n].term; var h := HistoryDone(c, s, op); var r := Perform(c, s, op);
            && t in h.reigns && h.reigns[t].log == s.full[op.n] + [e]
            && r.state.role == Leader && r.state.term == t
  {
    hide AdvanceCommit, Perform, HistoryDone, HistoryAfter, WriteAppend;
    WriteByLeader(c, s, op, e);
    WriteShape(c, s, op);
    WriteReign(c, s, op, e);
    var m := AfterAppend(c.configs[op.n], s.nodes[op.n], e);
    AdvanceRole(c.configs[op.n], m);
  }

  lemma WriteReign(c: Setup, s: Cluster, op: Op, e: Entry)
    requires Enabled(c, s, op) && op.ClientWrite? && s.nodes[op.n].term in s.h.reigns
    requires WriteAppend(c.configs[op.n], s.nodes[op.n], op.key, op.value).reply == Some(e)
    ensures s.nodes[op.n].term in HistoryAfter(c, s, op, 1).reigns
    ensures HistoryAfter(c, s, op, 1).reigns[s.nodes[op.n].term].log == s.full[op.n] + [e]
  {
    hide AdvanceCommit;
  }

  lemma AdvanceRole(cfg: Config, s: NodeState)
    requires GoodTable(s)
    ensures AdvanceCommit(cfg, s).state.role == s.role && AdvanceCommit(cfg, s).state.term == s.term
  {
    ApplyKeeps(cfg, s.(commitIndex := HighestCommittable(cfg, s, s.commitIndex, s.disk.log.LastIndex())));
  }

  /**
   * Acknowledged writes are never lost: once the client of a write has been told that it succeeded, the entry is
   * in the log of every leader of the same or a later term, at every moment after the write was accepted.
   */
  lemma AckedWrites(c: Setup, states: seq<Cluster>, events: seq<Event>, i: nat, j: nat, k: nat, op: Op, e: Entry,
                    m: NodeId)
    requires ValidSetup(c) && IsRun(c, states, events) && i < |events| && i < j < |states| && i < k < |states|
    requires op.ClientWrite? && events[i] == Run(op) && op.n in c.configs && op.n in states[i].nodes
    requires GoodTable(states[i].nodes[op.n])
    requires WriteAppend(c.configs[op.n], states[i].nodes[op.n], op.key, op.value).reply == Some(e)
    requires op.n in states[j].nodes && WriteSucceeds(states[j].nodes[op.n], e)
    requires m in states[k].nodes && states[k].nodes[m].role == Leader && states[k].nodes[m].term >= e.term
    ensures m in states[k].full && 0 < e.index <= |states[k].full[m]| && states[k].full[m][e.index - 1] == e
  {
    hide IsRun, ValidSetup, WriteAppend, GoodTable;
    var n := op.n;
    WriteLands(c, states, events, i, op, e);
    LeaderAppendOnly(c, states, events, i + 1, j, n);
    assert states[j].full[n][e.index - 1] == e;
    if states[k].nodes[m].term == e.term {
      ElectionSafety(c, states, events, i + 1, k, n, m);
      LeaderAppendOnly(c, states, events, i + 1, k, n);
    } else {
      LeaderCompleteness(c, states, events, j, k, n, m);
      var upTo := states[j].nodes[n].commitIndex;
      assert states[j].full[n][..upTo][e.index - 1] == states[k].full[m][..upTo][e.index - 1];
    }
  }

  /**
   * Committed entries stay on a majority: what a node has committed at one moment is, at every later moment, in the
   * logs of all members of some quorum, whatever crashes and elections came between.
   */
  lemma CommittedOnMajority(c: Setup, states: seq<Cluster>, events: seq<Event>, i: nat, j: nat, n: NodeId)
    returns (q: set<NodeId>)
    requires ValidSetup(c) && IsRun(c, states, events) && i <= j < |states| && n in c.configs
    ensures n in states[i].nodes && n in states[i].full && IsQuorum(c.configs.Keys, q)
    ensures forall v :: v in q ==>
              v in states[j].full && Agree(states[i].full[n], states[j].full[v], states[i].nodes[n].commitIndex)
  {
    hide IsRun, ValidSetup, Inv, Abs, Committed, LeadersComplete, CommittedAt, NodeOk, Backed;
    CommittedLater(c, states, events, i, j, n);
    RunInv(c, states, events, j);
    var k := states[i].nodes[n].commitIndex;
    var h := states[j].h;
    if k == 0 {
      q := c.configs.Keys;
    } else {
      var t, x, held := WitnessOf(c.configs.Keys, h, states[i].full[n], k, states[i].nodes[n].term);
      q := held;
      forall v | v in q
        ensures Agree(states[i].full[n], states[j].full[v], k)
      {
        NodeRunning(c, states[j], v);
        StillHeld(c.configs.Keys, Abs(states[j]), Ballot(t, v), x);
        AgreeVia(states[i].full[n], h.reigns[t].log, states[j].full[v], k, x);
      }
    }
  }

  lemma WitnessOf(ids: set<NodeId>, h: History, log: seq<Entry>, k: nat, upTo: nat)
    returns (t: nat, i: nat, q: set<NodeId>)
    requires Committed(ids, h, log, k, upTo) && k > 0
    ensures k <= i && CommittedAt(ids, h, t, i) && AckQuorum(ids, h, t, i, q)
    ensures t in h.reigns && Agree(log, h.reigns[t].log, k)
  {
    t, i :| t <= upTo && CommitWitness(ids, h, log, k, t, i);
    q :| AckQuorum(ids, h, t, i, q);
  }

  /** What a replica has confirmed and a quorum has committed, it still holds. */
  lemma StillHeld(ids: set<NodeId>, p: Proto, a: Ballot, k: nat)
    requires Inv(ids, p) && CommittedAt(ids, p.h, a.term, k) && a in p.h.acks && k <= p.h.acks[a]
    ensures a.voter in p.replicas && Agree(p.replicas[a.voter].log, p.h.reigns[a.term].log, k)
  {
    hide Inv;
    AckAt(ids, p, a, k);
    Complete(ids, p);
  }

  // ----- indices -----

  /** Indices are ordered, and everything committed is applied, at every moment of a run. */
  lemma IndicesOrdered(c: Setup, states: seq<Cluster>, events: seq<Event>, i: nat, n: NodeId)
    requires ValidSetup(c) && IsRun(c, states, events) && i < |states| && n in c.configs
    ensures n in states[i].nodes
    ensures var ns := states[i].nodes[n];
            ns.disk.log.snapIndex <= ns.disk.lastApplied == ns.lastApplied == ns.commitIndex <= ns.disk.log.LastIndex()
  {
    hide Inv, Abs, IsRun, ValidSetup;
    NodeAt(c, states, events, i, n);
    NodeParts(states[i].nodes[n], states[i].full[n]);
    LastAgrees(states[i].nodes[n].disk.log, states[i].full[n]);
  }

  /** No transaction takes the persisted apply position back. */
  predicate Rising(from: nat, writes: seq<Disk>) {
    forall i :: 0 <= i < |writes| ==> from <= writes[i].lastApplied
  }

  lemma {:induction false} ApplyRises(s: NodeState)
    requires GoodTable(s)
    ensures var a := ApplyLoop(s); Rising(s.lastApplied, a.writes) && s.lastApplied <= a.state.lastApplied
    decreases s.commitIndex - s.lastApplied
  {
    if s.lastApplied < s.commitIndex {
      match s.disk.log.EntryAt(s.lastApplied + 1)
      case None =>
        if s.lastApplied + 1 <= s.disk.log.snapIndex { ApplyRises(s.(lastApplied := s.disk.log.snapIndex)); }
      case Some(e) =>
        if e.command.SetCommand? {
          ApplyRises(s.(lastApplied := e.index, disk := ApplySet(s.disk, e.index, e.command.key, e.command.value)));
        }
    }
  }

  lemma ApplyCommittedRises(cfg: Config, s: NodeState)
    requires GoodTable(s)
    ensures Rising(s.lastApplied, ApplyCommitted(cfg, s).writes)
  {
    ApplyRises(s);
  }

  lemma FollowRises(cfg: Config, s: NodeState, req: AppendRequest)
    requires GoodTable(s) && Contiguous(req.prevIndex, req.entries) && s.lastApplied == s.disk.lastApplied
    ensures Rising(s.lastApplied, FollowEntries(cfg, s, req).writes)
  {
    hide ApplyCommitted;
    if Accepts(s.(term := 0), req) {
      MergeValid(s.disk.log, req.entries);
      var s1 := s.(disk := s.disk.(log := s.disk.log.Merge(req.entries)));
      ApplyCommittedRises(cfg, s1.(commitIndex := FollowerCommit(s1, req.leaderCommit)));
    }
  }

  lemma WriteRises(cfg: Config, s: NodeState, key: string, value: string)
    requires GoodTable(s) && s.lastApplied == s.disk.lastApplied
    ensures Rising(s.lastApplied, WriteAppend(cfg, s, key, value).writes)
  {
    hide ApplyCommitted;
    if key != "" && s.role == Leader && cfg.Majority() == 1 {
      var e := Entry(s.disk.log.LastIndex() + 1, s.term, SetCommand(key, value));
      var s1 := s.(disk := s.disk.(log := s.disk.log.Upsert([e])), matchIndex := s.matchIndex[cfg.id := e.index]);
      ApplyCommittedRises(cfg,
                          s1.(commitIndex := HighestCommittable(cfg, s1, s1.commitIndex, s1.disk.log.LastIndex())));
    }
  }

  lemma ReceiveRises(cfg: Config, s: NodeState, m: Message)
    requires GoodTable(s) && s.lastApplied == s.disk.lastApplied
    requires m.AppendCall? ==> Contiguous(m.append.prevIndex, m.append.entries)
    requires m.InstallCall? ==> InstallGuard(s, m.install)
    ensures Rising(s.lastApplied, Receive(cfg, s, m).writes)
  {
    hide ApplyCommitted, FollowEntries, AdvanceCommit;
    match m
    case AppendCall(_, _, req) =>
      if req.term >= s.term {
        FollowRises(cfg, if req.term > s.term || s.role != Follower then StepDown(s, req.term).state else s, req);
      }
    case AppendAnswer(src, _, _, lastSent, resp) =>
      var k := Max(Get(s.matchIndex, src), Max(resp.matchIndex, lastSent));
      var matched := if k > Get(s.matchIndex, src) then s.matchIndex[src := k] else s.matchIndex;
      AdvanceRises(cfg, s.(matchIndex := matched, nextIndex := s.nextIndex[src := k + 1]));
    case InstallAnswer(src, _, _, k, _) =>
      AdvanceRises(cfg, s.(matchIndex := s.matchIndex[src := k], nextIndex := s.nextIndex[src := k + 1]));
    case _ =>
  }

  lemma AdvanceRises(cfg: Config, s: NodeState)
    requires GoodTable(s)
    ensures Rising(s.lastApplied, AdvanceCommit(cfg, s).writes)
  {
    ApplyCommittedRises(cfg, s.(commitIndex := HighestCommittable(cfg, s, s.commitIndex, s.disk.log.LastIndex())));
  }

  lemma PerformRises(c: Setup, s: Cluster, op: Op)
    requires Enabled(c, s, op) && s.nodes[NodeOf(op)].lastApplied == s.nodes[NodeOf(op)].disk.lastApplied
    ensures Rising(s.nodes[NodeOf(op)].lastApplied, Perform(c, s, op).writes)
  {
    hide Receive, WriteAppend;
    var n := NodeOf(op);
    match op
    case ClientWrite(_, key, value) => WriteRises(c.configs[n], s.nodes[n], key, value);
    case Deliver(m) => ReceiveRises(c.configs[n], s.nodes[n], m);
    case _ =>
  }

  /**
   * A node's committed prefix is never cut or rewritten and its commit index never falls, whatever happens to it:
   * a crash after any transaction and the restart included.
   */
  lemma CommittedStays(c: Setup, states: seq<Cluster>, events: seq<Event>, i: nat, n: NodeId)
    requires ValidSetup(c) && IsRun(c, states, events) && i < |events| && n in c.configs
    ensures n in states[i].nodes && n in states[i].full && n in states[i + 1].nodes && n in states[i + 1].full
    ensures states[i].nodes[n].commitIndex <= states[i + 1].nodes[n].commitIndex
    ensures Agree(states[i].full[n], states[i + 1].full[n], states[i].nodes[n].commitIndex)
  {
    hide Inv, Abs, ValidSetup, IsRun, Perform, ClusterInv, Enabled, HistoryDone, HistoryAfter, FullAfter;
    RunStep(c, states, events, i);
    RunInv(c, states, events, i);
    NextKeeps(c, states[i], events[i]);
    IndicesOrdered(c, states, events, i, n);
    IndicesOrdered(c, states, events, i + 1, n);
    AppliedAgree(c, states, events, i, i + 1, n, n);
    EnabledNode(c, states[i], events[i].op);
    if events[i].CrashIn? && NodeOf(events[i].op) == n {
      PerformRises(c, states[i], events[i].op);
    }
  }

  // ----- what a follower deletes -----

  /** A request in flight is cut from the log of a leader, so its entries have no gaps. */
  lemma InFlight(c: Setup, states: seq<Cluster>, events: seq<Event>, i: nat, m: Message)
    requires ValidSetup(c) && IsRun(c, states, events) && i < |states| && m in states[i].msgs && m.AppendCall?
    ensures m.dst in c.configs && m.dst in states[i].nodes && m.dst in states[i].full
    ensures Contiguous(m.append.prevIndex, m.append.entries)
    ensures Accepts(states[i].nodes[m.dst], m.append) ==> Mergeable(states[i].nodes[m.dst].disk.log, m.append.entries)
  {
    hide Inv, Abs, NodeOk, IsRun, ValidSetup;
    RunInv(c, states, events, i);
    MessageTrue(c, states[i], m);
    var p := Abs(states[i]);
    NodeAt(c, states, events, i, m.dst);
    ReignAt(c.configs.Keys, p, m.append.term);
    var ns := states[i].nodes[m.dst];
    NodeParts(ns, states[i].full[m.dst]);
    TermAtAgrees(ns.disk.log, states[i].full[m.dst], m.append.prevIndex);
    LastAgrees(ns.disk.log, states[i].full[m.dst]);
  }

  /** The committed prefix is never truncated: a request deletes rows only above the follower's commit index. */
  lemma DeletedAboveCommit(c: Setup, states: seq<Cluster>, events: seq<Event>, i: nat, m: Message)
    requires ValidSetup(c) && IsRun(c, states, events) && i < |states| && m in states[i].msgs && m.AppendCall?
    requires m.dst in states[i].nodes && Accepts(states[i].nodes[m.dst], m.append)
    ensures var ns := states[i].nodes[m.dst]; var es := m.append.entries; var j := ns.disk.log.FirstDifference(es);
            j < |es| ==> es[j].index > ns.commitIndex
  {
    hide Inv, Abs, NodeOk, IsRun, ValidSetup, AppendOk;
    InFlight(c, states, events, i, m);
    NodeAt(c, states, events, i, m.dst);
    MessageTrue(c, states[i], m);
    var ids := c.configs.Keys;
    var p := Abs(states[i]);
    var ns := states[i].nodes[m.dst];
    StepDownRuns(ids, p, m.dst, ns, m.append.term);
    AppendOkSame(ids, p, Adopt(p, m.dst, m.append.term), m.append);
    CutAboveCommit(ids, Adopt(p, m.dst, m.append.term), m.dst, StepDown(ns, m.append.term).state, m.append);
  }

  lemma CutAboveCommit(ids: set<NodeId>, p: Proto, n: NodeId, ns: NodeState, req: AppendRequest)
    requires Runs(ids, p, n, ns) && AppendOk(ids, p, req) && ns.role == Follower && ns.term == req.term
    requires ns.disk.log.snapIndex <= req.prevIndex && ns.disk.log.TermAt(req.prevIndex) == Some(req.prevTerm)
    ensures var es := req.entries; var j := ns.disk.log.FirstDifference(es); j < |es| ==> es[j].index > ns.commitIndex
  {
    hide Inv, NodeOk, Accepting, Committed, KeepsAgreement, Rooted, LogTable.TermAt;
    var full := p.replicas[n].log;
    MergeSetting(ids, p, n, ns, req);
    CutFollows(p.h.reigns, ns.disk.log, full, p.h.reigns[req.term].log, req);
    NodeParts(ns, full);
    CommitStays(ids, p, n, CutFull(ns.disk.log, full, req.entries));
    MergeShape(ns.disk.log, req.entries);
    LastAgrees(ns.disk.log, full);
  }

  /**
   * A request that carries what it commits may always be delivered; every request that is not cut short does. In a
   * cluster of two, and to a follower whose log the sender has, all requests may be delivered.
   */
  lemma CarryingIsEnabled(c: Setup, states: seq<Cluster>, events: seq<Event>, i: nat, m: Message)
    requires ValidSetup(c) && IsRun(c, states, events) && i < |states| && m in states[i].msgs && m.AppendCall?
    requires || m.append.leaderCommit <= m.append.prevIndex + |m.append.entries|
             || |c.configs.Keys| <= 2
             || (m.dst in states[i].nodes && SenderHasLog(states[i].nodes[m.dst], m.append))
    ensures CanHappen(c, states[i], Run(Deliver(m)))
  {
    hide Inv, Abs, NodeOk, IsRun, ValidSetup, ValidConfig, SenderHasLog, Backed;
    InFlight(c, states, events, i, m);
    RunInv(c, states, events, i);
    NodeRunning(c, states[i], m.dst);
    PeerCount(c.configs.Keys, m.dst, c.configs[m.dst]);
  }

  // ----- what a leader may believe -----

  /** Every match index that a leader holds for a peer was confirmed by that peer in the leader's term. */
  predicate Confirmed(s: Cluster) {
    forall n, q :: n in s.nodes && q in s.nodes && n != q && s.nodes[n].role == Leader ==> ConfirmedBy(s, n, q)
  }

  predicate ConfirmedBy(s: Cluster, n: NodeId, q: NodeId)
    requires n in s.nodes
  {
    var k := Get(s.nodes[n].matchIndex, q);
    k > 0 ==> Ballot(s.nodes[n].term, q) in s.h.acks && k <= s.h.acks[Ballot(s.nodes[n].term, q)]
  }

  /** The answer to a snapshot arrives at the leader of the call's term: what the source checks for other answers. */
  predicate InItsTerm(s: Cluster, e: Event) {
    match e
    case Run(Deliver(InstallAnswer(_, dst, reqTerm, _, resp))) =>
      dst in s.nodes
      && (resp.term <= s.nodes[dst].term ==> s.nodes[dst].role == Leader && s.nodes[dst].term == reqTerm)
    case _ => true
  }

  /** Where a match index that a leader holds after an operation comes from. */
  lemma MatchComesFrom(c: Setup, s: Cluster, op: Op, q: NodeId)
    requires Enabled(c, s, op) && InItsTerm(s, Run(op)) && q in c.configs[NodeOf(op)].peers && q != NodeOf(op)
    requires c.configs[NodeOf(op)].id == NodeOf(op) && Perform(c, s, op).state.role == Leader
    ensures var ns := s.nodes[NodeOf(op)]; var m := Perform(c, s, op).state; var k := Get(m.matchIndex, q);
            || k == 0
            || (ns.role == Leader && m.term == ns.term && k == Get(ns.matchIndex, q))
            || (op.Deliver? && op.m.AppendAnswer? && op.m.src == q && op.m.appended.success
                && m.term == op.m.reqTerm && k == Max(op.m.appended.matchIndex, op.m.lastSent))
            || (op.Deliver? && op.m.InstallAnswer? && op.m.src == q && op.m.installed.term <= op.m.reqTerm
                && m.term == op.m.reqTerm && k == op.m.lastIncluded)
  {
    hide ApplyCommitted, HighestCommittable, FollowEntries, FollowSnapshot, Replicate, RequestVote,
         WriteAppend, AppendReply, InstallReply, VoteReply;
    var n := NodeOf(op);
    var cfg := c.configs[n];
    var ns := s.nodes[n];
    match op
    case Timeout(_) =>
    case Alone(_, _) =>
    case ReplicateTo(_, peer) => ReplicateMatch(cfg, ns, peer);
    case ClientWrite(_, key, value) => WriteMatch(cfg, ns, key, value);
    case Deliver(m) =>
      match m
      case VoteCall(_, _, req) => VoteMatch(ns, req);
      case VoteAnswer(src, _, t, resp) => VoteReplyMatch(cfg, ns, src, t, resp, q);
      case AppendCall(_, _, req) => AppendEntriesMatch(cfg, ns, req);
      case AppendAnswer(src, _, t, lastSent, resp) => AppendReplyMatch(cfg, ns, src, t, lastSent, resp);
      case InstallCall(_, _, req) => InstallMatch(ns, req);
      case InstallAnswer(src, _, t, k, resp) => InstallReplyMatch(cfg, ns, src, k, resp);
  }

  lemma ReplicateMatch(cfg: Config, s: NodeState, peer: NodeId)
    requires GoodTable(s)
    ensures var m := Replicate(cfg, s, peer).state; m.matchIndex == s.matchIndex && m.role == s.role && m.term == s.term
  {
  }

  lemma AdvanceMatch(cfg: Config, s: NodeState)
    requires GoodTable(s)
    ensures var m := AdvanceCommit(cfg, s).state; m.matchIndex == s.matchIndex && m.role == s.role && m.term == s.term
  {
    ApplyKeeps(cfg, s.(commitIndex := HighestCommittable(cfg, s, s.commitIndex, s.disk.log.LastIndex())));
  }

  lemma WriteMatch(cfg: Config, s: NodeState, key: string, value: string)
    requires GoodTable(s)
    ensures var m := WriteAppend(cfg, s, key, value).state;
            && m.role == s.role && m.term == s.term
            && forall q :: q != cfg.id ==> Get(m.matchIndex, q) == Get(s.matchIndex, q)
  {
    hide AdvanceCommit;
    if key != "" && s.role == Leader && cfg.Majority() == 1 {
      var e := Entry(s.disk.log.LastIndex() + 1, s.term, SetCommand(key, value));
      AdvanceMatch(cfg, s.(disk := s.disk.(log := s.disk.log.Upsert([e])),
                           matchIndex := s.matchIndex[cfg.id := e.index]));
    }
  }

  lemma VoteMatch(s: NodeState, req: VoteRequest)
    ensures var m := RequestVote(s, req).state;
            m.role == Leader ==> m.matchIndex == s.matchIndex && s.role == Leader && m.term == s.term
  {
  }

  lemma VoteReplyMatch(cfg: Config, s: NodeState, src: NodeId, t: nat, resp: VoteResponse, q: NodeId)
    requires q in cfg.peers && q != cfg.id
    ensures var m := VoteReply(cfg, s, src, t, resp).state;
            m.role == Leader ==>
              Get(m.matchIndex, q) == 0 || (m.matchIndex == s.matchIndex && s.role == Leader && m.term == s.term)
  {
  }

  lemma AppendEntriesMatch(cfg: Config, s: NodeState, req: AppendRequest)
    requires GoodTable(s) && Contiguous(req.prevIndex, req.entries)
    ensures var m := AppendEntries(cfg, s, req).state; m.role == Leader ==> m == s && s.role == Leader
  {
    hide ApplyCommitted, MergeWrites, LogTable.Merge;
    if req.term >= s.term {
      var s1 := (if req.term > s.term || s.role != Follower then StepDown(s, req.term) else Out(s, (), [])).state;
      if Accepts(s1, req) {
        MergeValid(s1.disk.log, req.entries);
        var s2 := s1.(disk := s1.disk.(log := s1.disk.log.Merge(req.entries)));
        ApplyKeeps(cfg, s2.(commitIndex := FollowerCommit(s2, req.leaderCommit)));
      }
    }
  }

  lemma AppendReplyMatch(cfg: Config, s: NodeState, src: NodeId, t: nat, lastSent: nat, resp: AppendResponse)
    requires GoodTable(s)
    ensures var m := AppendReply(cfg, s, src, t, lastSent, resp).state;
            m.role == Leader ==>
              && s.role == Leader && m.term == s.term
              && forall q :: Get(m.matchIndex, q) == Get(s.matchIndex, q)
                   || (q == src && resp.success && t == s.term
                       && Get(m.matchIndex, q) == Max(resp.matchIndex, lastSent))
  {
    hide AdvanceCommit;
    if resp.term <= s.term && s.role == Leader && s.term == t && resp.success {
      var k := Max(Get(s.matchIndex, src), Max(resp.matchIndex, lastSent));
      var matched := if k > Get(s.matchIndex, src) then s.matchIndex[src := k] else s.matchIndex;
      AdvanceMatch(cfg, s.(matchIndex := matched, nextIndex := s.nextIndex[src := k + 1]));
    }
  }

  lemma InstallMatch(s: NodeState, req: InstallRequest)
    ensures var m := InstallSnapshotCall(s, req).state; m.role == Leader ==> m == s && s.role == Leader
  {
  }

  lemma InstallReplyMatch(cfg: Config, s: NodeState, src: NodeId, k: nat, resp: InstallResponse)
    requires GoodTable(s)
    ensures var m := InstallReply(cfg, s, src, k, resp).state;
            m.role == Leader ==>
              && s.role == Leader && m.term == s.term && resp.term <= s.term
              && m.matchIndex == s.matchIndex[src := k]
  {
    hide AdvanceCommit;
    if resp.term <= s.term { AdvanceMatch(cfg, Recorded(s, src, k)); }
  }

  lemma ConfirmedNext(c: Setup, s: Cluster, e: Event)
    requires ClusterInv(c, s) && CanHappen(c, s, e) && InItsTerm(s, e) && Confirmed(s)
    ensures Confirmed(Next(c, s, e))
  {
    hide Inv, Abs, NodeOk, Perform, FullAfter, HistoryAfter, HistoryDone, ClusterInv, Enabled, InItsTerm,
         ConfirmedBy, Grows;
    var t := Next(c, s, e);
    var n := NodeOf(e.op);
    NextKeeps(c, s, e);
    EnabledNode(c, s, e.op);
    NodeRunning(c, s, n);
    forall o, q | o in t.nodes && q in t.nodes && o != q && t.nodes[o].role == Leader
      ensures ConfirmedBy(t, o, q)
    {
      if o == n {
        NodeKeys(c, s);
        PeersAre(c.configs.Keys, n, c.configs[n]);
        ConfirmedActor(c, s, e.op, q);
      } else {
        assert ConfirmedBy(s, o, q);
        ConfirmedGrow(s, t, o, q);
      }
    }
  }

  lemma NodeKeys(c: Setup, s: Cluster)
    requires ClusterInv(c, s)
    ensures s.nodes.Keys == c.configs.Keys
  {
    hide Inv;
  }

  lemma ConfirmedGrow(s: Cluster, t: Cluster, n: NodeId, q: NodeId)
    requires n in s.nodes && n in t.nodes && Grows(s.h, t.h) && ConfirmedBy(s, n, q)
    requires t.nodes[n].term == s.nodes[n].term && Get(t.nodes[n].matchIndex, q) == Get(s.nodes[n].matchIndex, q)
    ensures ConfirmedBy(t, n, q)
  {
  }

  /** The node that acts: what it newly believes comes from an answer that says so. */
  lemma ConfirmedActor(c: Setup, s: Cluster, op: Op, q: NodeId)
    requires ClusterInv(c, s) && CanHappen(c, s, Run(op)) && InItsTerm(s, Run(op)) && Confirmed(s)
    requires NodeOf(op) in c.configs && q in c.configs[NodeOf(op)].peers && q != NodeOf(op) && q in s.nodes
    requires Next(c, s, Run(op)).nodes[NodeOf(op)].role == Leader
    ensures ConfirmedBy(Next(c, s, Run(op)), NodeOf(op), q)
  {
    hide Inv, Abs, NodeOk, Perform, FullAfter, HistoryAfter, HistoryDone, ClusterInv, InItsTerm, ConfirmedBy;
    var n := NodeOf(op);
    var t := Next(c, s, Run(op));
    NextKeeps(c, s, Run(op));
    NodeRunning(c, s, n);
    MatchComesFrom(c, s, op, q);
    if Get(t.nodes[n].matchIndex, q) == 0 {
      assert ConfirmedBy(t, n, q) by { NothingToConfirm(t, n, q); }
    } else if s.nodes[n].role == Leader && t.nodes[n].term == s.nodes[n].term
           && Get(t.nodes[n].matchIndex, q) == Get(s.nodes[n].matchIndex, q) {
      assert ConfirmedBy(s, n, q);
      ConfirmedGrow(s, t, n, q);
    } else {
      MessageTrue(c, s, op.m);
      AnswerConfirms(c.configs.Keys, Abs(s), op.m);
      AckGrows(s, t, n, q, Get(t.nodes[n].matchIndex, q));
    }
  }

  lemma NothingToConfirm(t: Cluster, n: NodeId, q: NodeId)
    requires n in t.nodes && Get(t.nodes[n].matchIndex, q) == 0
    ensures ConfirmedBy(t, n, q)
  {
  }

  lemma AnswerConfirms(ids: set<NodeId>, p: Proto, m: Message)
    requires MessageOk(ids, p, m)
    ensures m.AppendAnswer? && m.appended.success ==>
              Ballot(m.reqTerm, m.src) in p.h.acks
              && Max(m.appended.matchIndex, m.lastSent) <= p.h.acks[Ballot(m.reqTerm, m.src)]
    ensures m.InstallAnswer? && m.installed.term <= m.reqTerm ==>
              Ballot(m.reqTerm, m.src) in p.h.acks && m.lastIncluded <= p.h.acks[Ballot(m.reqTerm, m.src)]
  {
  }

  lemma AckGrows(s: Cluster, t: Cluster, n: NodeId, q: NodeId, k: nat)
    requires n in t.nodes && Grows(s.h, t.h) && Get(t.nodes[n].matchIndex, q) == k
    requires Ballot(t.nodes[n].term, q) in s.h.acks && k <= s.h.acks[Ballot(t.nodes[n].term, q)]
    ensures ConfirmedBy(t, n, q)
  {
  }

  /** In a run whose snapshot answers arrive in their terms, every match index is confirmed. */
  lemma {:induction false} RunConfirmed(c: Setup, states: seq<Cluster>, events: seq<Event>, i: nat)
    requires ValidSetup(c) && IsRun(c, states, events) && i < |states| && |states| == |events| + 1
    requires forall j :: 0 <= j < i ==> InItsTerm(states[j], events[j])
    ensures Confirmed(states[i])
  {
    hide IsRun, ValidSetup, InItsTerm, Next, CanHappen, ClusterInv, Confirmed;
    if i == 0 {
      RunStarts(c, states, events);
    } else {
      RunConfirmed(c, states, events, i - 1);
      RunInv(c, states, events, i - 1);
      RunStep(c, states, events, i - 1);
      ConfirmedNext(c, states[i - 1], events[i - 1]);
    }
  }

  lemma RunStarts(c: Setup, states: seq<Cluster>, events: seq<Event>)
    requires IsRun(c, states, events)
    ensures Confirmed(states[0])
  {
  }

  /**
   * Match truth: a peer still in the leader's term has the leader's log up to the match index the leader holds, in a
   * run whose snapshot answers arrive in their terms; in any run this is so for a match index that can still count,
   * which is one above the commit index.
   */
  lemma MatchTruth(c: Setup, states: seq<Cluster>, events: seq<Event>, i: nat, n: NodeId, q: NodeId)
    requires ValidSetup(c) && IsRun(c, states, events) && i < |states| && |states| == |events| + 1
    requires n in states[i].nodes && q in states[i].nodes
    requires states[i].nodes[n].role == Leader && states[i].nodes[q].term == states[i].nodes[n].term
    requires || Get(states[i].nodes[n].matchIndex, q) > states[i].nodes[n].commitIndex
             || forall j :: 0 <= j < i ==> InItsTerm(states[j], events[j])
    ensures n in states[i].full && q in states[i].full
    ensures Agree(states[i].full[n], states[i].full[q], Get(states[i].nodes[n].matchIndex, q))
  {
    hide Inv, Abs, NodeOk, IsRun, ValidSetup, ClusterInv, InItsTerm;
    var s := states[i];
    RunKeys(c, states, events, i);
    NodeAt(c, states, events, i, n);
    NodeAt(c, states, events, i, q);
    var p := Abs(s);
    LeaderFacts(c.configs.Keys, p, n);
    CommitInRange(c.configs.Keys, p, n);
    var t := s.nodes[n].term;
    var k := Get(s.nodes[n].matchIndex, q);
    if k > s.nodes[n].commitIndex {
      AckAt(c.configs.Keys, p, Ballot(t, q), k);
    } else if k > 0 && n != q {
      RunConfirmed(c, states, events, i);
      assert ConfirmedBy(s, n, q);
      AckAt(c.configs.Keys, p, Ballot(t, q), k);
    }
  }

  lemma AckAt(ids: set<NodeId>, p: Proto, a: Ballot, k: nat)
    requires Inv(ids, p) && a in p.h.acks && k <= p.h.acks[a]
    ensures a.term in p.h.reigns && a.voter in p.replicas
    ensures Kept(p.h.reigns, p.replicas[a.voter].log, a.term, k, p.replicas[a.voter].term)
    ensures p.replicas[a.voter].term >= a.term
  {
    assert AckOk(p, a);
  }
}
