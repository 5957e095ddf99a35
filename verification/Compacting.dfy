/**
 * The log stays compact: as long as nodes do not crash, no node ever stores as many applied entries as its threshold
 * says; and a write is reported once it is applied, whether or not its row has been compacted by then.
 */
module Compacting {
  import opened RaftTypes
  import opened Logs
  import opened LogTables
  import opened Compaction
  import opened Disks
  import opened NodeSpec
  import opened Applying
  import opened Protocol
  import opened Clusters
  import opened NodeRuns
  import opened FollowerRuns
  import opened LeaderRuns
  import opened ClusterSafety
  import opened RaftSafety
  import opened RaftDurability

  /** A node at rest: everything committed is applied and stored, and the snapshot is not ahead. */
  predicate Rests(s: NodeState) {
    s.disk.log.snapIndex <= s.lastApplied == s.disk.lastApplied == s.commitIndex <= s.disk.log.LastIndex()
  }

  /** A step that commits something leaves the log compact, and so does one that finds it compact. */
  predicate KeepsCompact(cfg: Config, ns: NodeState, m: NodeState) {
    Within(cfg, ns) || m.commitIndex > ns.commitIndex ==> Within(cfg, m)
  }

  /** Applying up to the commit index compacts. */
  lemma AppliedIsCompact(cfg: Config, mid: NodeState)
    requires GoodTable(mid) && mid.disk.log.snapIndex <= mid.lastApplied == mid.disk.lastApplied
    requires Rests(ApplyCommitted(cfg, mid).state)
    ensures Within(cfg, ApplyCommitted(cfg, mid).state)
  {
    hide ApplyLoop, ApplyCommitted;
    ApplyKeeps(cfg, mid);
    assert mid.commitIndex <= mid.disk.log.LastIndex();
    if mid.lastApplied <= mid.commitIndex {
      AllDecoded(cfg, mid);
      ApplyCompacts(cfg, mid);
    } else {
      NothingApplied(cfg, mid);
    }
  }

  lemma AllDecoded(cfg: Config, s: NodeState)
    requires InRange(s) && ApplyCommitted(cfg, s).state.lastApplied == s.commitIndex
    ensures Decodable(Pending(s))
  {
    hide ApplyLoop, CompactIfNeeded, Decodable;
    ApplyLoopReplays(s);
    if !ApplyLoop(s).finished { ApplyLoopStops(s); }
  }

  lemma NothingApplied(cfg: Config, s: NodeState)
    requires GoodTable(s) && s.lastApplied > s.commitIndex
    ensures ApplyCommitted(cfg, s).state.lastApplied > s.commitIndex
  {
  }

  lemma AdvanceIsCompact(cfg: Config, s: NodeState)
    requires GoodTable(s) && s.disk.log.snapIndex <= s.lastApplied == s.disk.lastApplied
    requires Rests(AdvanceCommit(cfg, s).state)
    ensures Within(cfg, AdvanceCommit(cfg, s).state)
  {
    hide ApplyCommitted;
    AppliedIsCompact(cfg, s.(commitIndex := HighestCommittable(cfg, s, s.commitIndex, s.disk.log.LastIndex())));
  }

  // ----- handler by handler -----

  lemma WriteKeepsCompact(cfg: Config, ns: NodeState, key: string, value: string)
    requires GoodTable(ns) && Rests(ns) && Rests(WriteAppend(cfg, ns, key, value).state)
    ensures KeepsCompact(cfg, ns, WriteAppend(cfg, ns, key, value).state)
  {
    hide AdvanceCommit;
    if key != "" && ns.role == Leader && cfg.Majority() == 1 {
      var e := Entry(ns.disk.log.LastIndex() + 1, ns.term, SetCommand(key, value));
      AdvanceIsCompact(cfg, ns.(disk := ns.disk.(log := ns.disk.log.Upsert([e])),
                                matchIndex := ns.matchIndex[cfg.id := e.index]));
    }
  }

  lemma AppendReplyKeepsCompact(cfg: Config, ns: NodeState, src: NodeId, t: nat, lastSent: nat, resp: AppendResponse)
    requires GoodTable(ns) && Rests(ns) && Rests(AppendReply(cfg, ns, src, t, lastSent, resp).state)
    ensures KeepsCompact(cfg, ns, AppendReply(cfg, ns, src, t, lastSent, resp).state)
  {
    hide AdvanceCommit;
    if resp.term <= ns.term && ns.role == Leader && ns.term == t && resp.success {
      var k := Max(Get(ns.matchIndex, src), Max(resp.matchIndex, lastSent));
      var matched := if k > Get(ns.matchIndex, src) then ns.matchIndex[src := k] else ns.matchIndex;
      AdvanceIsCompact(cfg, ns.(matchIndex := matched, nextIndex := ns.nextIndex[src := k + 1]));
    }
  }

  lemma InstallReplyKeepsCompact(cfg: Config, ns: NodeState, src: NodeId, k: nat, resp: InstallResponse)
    requires GoodTable(ns) && Rests(ns) && Rests(InstallReply(cfg, ns, src, k, resp).state)
    ensures KeepsCompact(cfg, ns, InstallReply(cfg, ns, src, k, resp).state)
  {
    hide AdvanceCommit;
    if resp.term <= ns.term { AdvanceIsCompact(cfg, Recorded(ns, src, k)); }
  }

  lemma AppendKeepsCompact(cfg: Config, ns: NodeState, req: AppendRequest)
    requires GoodTable(ns) && Contiguous(req.prevIndex, req.entries) && Rests(ns)
    requires Rests(AppendEntries(cfg, ns, req).state)
    ensures KeepsCompact(cfg, ns, AppendEntries(cfg, ns, req).state)
  {
    hide ApplyCommitted, MergeWrites, LogTable.Merge;
    if req.term >= ns.term {
      var s1 := (if req.term > ns.term || ns.role != Follower then StepDown(ns, req.term) else Out(ns, (), [])).state;
      if Accepts(s1, req) {
        MergeValid(s1.disk.log, req.entries);
        MergeShape(s1.disk.log, req.entries);
        var s2 := s1.(disk := s1.disk.(log := s1.disk.log.Merge(req.entries)));
        if req.leaderCommit > s2.commitIndex {
          AppliedIsCompact(cfg, s2.(commitIndex := FollowerCommit(s2, req.leaderCommit)));
        }
      }
    }
  }

  lemma InstallKeepsCompact(cfg: Config, ns: NodeState, req: InstallRequest)
    requires Rests(ns) && Rests(InstallSnapshotCall(ns, req).state)
    ensures KeepsCompact(cfg, ns, InstallSnapshotCall(ns, req).state)
  {
  }

  /** Every step, in any state that a run can be in. */
  lemma StepKeepsCompact(c: Setup, s: Cluster, op: Op)
    requires Enabled(c, s, op) && Rests(s.nodes[NodeOf(op)]) && Rests(Perform(c, s, op).state)
    ensures KeepsCompact(c.configs[NodeOf(op)], s.nodes[NodeOf(op)], Perform(c, s, op).state)
  {
    hide WriteAppend, AppendReply, InstallReply, AppendEntries, InstallSnapshotCall, KeepsCompact, Rests;
    var ns := s.nodes[NodeOf(op)];
    var cfg := c.configs[NodeOf(op)];
    match op
    case Timeout(_) => ElsewhereCompact(c, s, op);
    case Alone(_, _) => ElsewhereCompact(c, s, op);
    case ReplicateTo(_, _) => ElsewhereCompact(c, s, op);
    case ClientWrite(_, key, value) => WriteKeepsCompact(cfg, ns, key, value);
    case Deliver(m) =>
      match m
      case AppendCall(_, _, req) => AppendKeepsCompact(cfg, ns, req);
      case AppendAnswer(src, _, t, last, resp) => AppendReplyKeepsCompact(cfg, ns, src, t, last, resp);
      case InstallCall(_, _, req) => InstallKeepsCompact(cfg, ns, req);
      case InstallAnswer(src, _, _, k, resp) => InstallReplyKeepsCompact(cfg, ns, src, k, resp);
      case _ => ElsewhereCompact(c, s, op);
  }

  /** The other steps touch neither the log table nor what is applied. */
  lemma ElsewhereCompact(c: Setup, s: Cluster, op: Op)
    requires Enabled(c, s, op)
    requires op.Timeout? || op.Alone? || op.ReplicateTo? || (op.Deliver? && (op.m.VoteCall? || op.m.VoteAnswer?))
    ensures KeepsCompact(c.configs[NodeOf(op)], s.nodes[NodeOf(op)], Perform(c, s, op).state)
  {
  }

  // ----- over runs -----

  lemma AtRest(c: Setup, s: Cluster, n: NodeId)
    requires ClusterInv(c, s) && n in s.nodes
    ensures Rests(s.nodes[n])
  {
    hide Inv, Abs, NodeOk;
    NodeRunning(c, s, n);
    NodeParts(s.nodes[n], s.full[n]);
    LastAgrees(s.nodes[n].disk.log, s.full[n]);
  }

  /** In every run, crashes or not: a step that commits something leaves its node compact, and none undoes that. */
  lemma EventKeepsCompact(c: Setup, states: seq<Cluster>, events: seq<Event>, i: nat, n: NodeId)
    requires ValidSetup(c) && IsRun(c, states, events) && i < |events| && events[i].Run? && n in c.configs
    ensures |states| == |events| + 1 && n in states[i].nodes && n in states[i + 1].nodes
    ensures KeepsCompact(c.configs[n], states[i].nodes[n], states[i + 1].nodes[n])
  {
    hide IsRun, ValidSetup, ClusterInv, Perform, Next, KeepsCompact, Rests, Enabled;
    RunStep(c, states, events, i);
    RunKeys(c, states, events, i);
    RunInv(c, states, events, i);
    RunInv(c, states, events, i + 1);
    var op := events[i].op;
    Performed(c, states[i], op);
    if n == NodeOf(op) {
      AtRest(c, states[i], n);
      AtRest(c, states[i + 1], n);
      StepKeepsCompact(c, states[i], op);
    } else {
      assert KeepsCompact(c.configs[n], states[i].nodes[n], states[i].nodes[n]) by { NothingKeepsCompact(); }
    }
  }

  lemma NothingKeepsCompact()
    ensures forall cfg, s :: KeepsCompact(cfg, s, s)
  {
  }

  lemma Performed(c: Setup, s: Cluster, op: Op)
    requires CanHappen(c, s, Run(op))
    ensures Enabled(c, s, op) && NodeOf(op) in s.nodes
    ensures Next(c, s, Run(op)).nodes == s.nodes[NodeOf(op) := Perform(c, s, op).state]
  {
    hide Perform, HistoryDone, FullAfter;
  }

  /** As long as no node crashes, every node stores fewer applied entries than its threshold. */
  lemma {:induction false} StaysCompact(c: Setup, states: seq<Cluster>, events: seq<Event>, i: nat, n: NodeId)
    requires ValidSetup(c) && IsRun(c, states, events) && i < |states| && n in c.configs
    requires |states| == |events| + 1 && forall j :: 0 <= j < i ==> events[j].Run?
    ensures n in states[i].nodes && Within(c.configs[n], states[i].nodes[n])
  {
    hide IsRun, ValidSetup, Next, CanHappen, Within;
    if i == 0 {
      StartsCompact(c, states, events, n);
    } else {
      StaysCompact(c, states, events, i - 1, n);
      EventKeepsCompact(c, states, events, i - 1, n);
    }
  }

  lemma StartsCompact(c: Setup, states: seq<Cluster>, events: seq<Event>, n: NodeId)
    requires IsRun(c, states, events) && n in c.configs
    ensures n in states[0].nodes && Within(c.configs[n], states[0].nodes[n])
  {
  }

  // ----- what the client of a write is told -----

  /**
   * In every run, with any thresholds: a node that has accepted a write reports it as successful exactly while it still
   * leads the entry's term and has applied the entry, whether the entry is still a row or in a snapshot. It is then at
   * its index of the node's log, and in the table.
   */
  lemma WriteIsReported(c: Setup, states: seq<Cluster>, events: seq<Event>, i: nat, j: nat, op: Op, e: Entry)
    requires ValidSetup(c) && IsRun(c, states, events) && i < |events| && i < j < |states|
    requires op.ClientWrite? && events[i] == Run(op) && op.n in c.configs && op.n in states[i].nodes
    requires GoodTable(states[i].nodes[op.n])
    requires WriteAppend(c.configs[op.n], states[i].nodes[op.n], op.key, op.value).reply == Some(e)
    ensures op.n in states[j].nodes && op.n in states[j].full
    ensures var ns := states[j].nodes[op.n]; var full := states[j].full[op.n];
            && (WriteSucceeds(ns, e) <==> ns.role == Leader && ns.term == e.term && e.index <= ns.lastApplied)
            && (WriteSucceeds(ns, e) ==>
                  && 0 < e.index <= ns.lastApplied <= |full| && full[e.index - 1] == e
                  && Values(ns.disk.kv) == Replay(full[..ns.lastApplied]))
  {
    hide IsRun, ValidSetup, WriteAppend, GoodTable;
    IndicesOrdered(c, states, events, j, op.n);
    KvIsReplay(c, states, events, j, op.n);
    if WriteSucceeds(states[j].nodes[op.n], e) {
      AckedWrites(c, states, events, i, j, j, op, e, op.n);
    }
  }
}
