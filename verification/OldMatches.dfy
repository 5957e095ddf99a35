/**
 * Matches that a node keeps from an earlier reign. Whatever happens, the rows that such a node has in its current term
 * came from another leader, and it has confirmed them.
 */
module OldMatches {
  import opened RaftTypes
  import opened Logs
  import opened LogTables
  import opened Compaction
  import opened Disks
  import opened NodeSpec
  import opened Protocol
  import opened ProtocolActions
  import opened Clusters
  import opened NodeRuns
  import opened HandlerRuns
  import opened FollowerRuns
  import opened LeaderRuns
  import opened ClusterSafety

  predicate AllBacked(s: Cluster) {
    forall n :: n in s.nodes && n in s.full ==> Backed(n, s.nodes[n], s.full[n], s.h)
  }

  /** Only a node that wins an election starts a reign. */
  lemma NewReigns(c: Setup, s: Cluster, op: Op)
    requires Enabled(c, s, op)
    ensures forall t :: t in HistoryDone(c, s, op).reigns && t !in s.h.reigns ==>
              HistoryDone(c, s, op).reigns[t].leader == NodeOf(op)
    ensures Perform(c, s, op).state.role != Leader && !op.ClientWrite? ==>
              HistoryDone(c, s, op).reigns == s.h.reigns
    ensures forall i: nat, t :: t in HistoryAfter(c, s, op, i).reigns ==> t in s.h.reigns
  {
  }

  lemma OtherBacked(n: NodeId, ns: NodeState, full: seq<Entry>, g: History, h: History, actor: NodeId)
    requires Backed(n, ns, full, g) && Grows(g, h) && n != actor
    requires forall t :: t in h.reigns && t !in g.reigns ==> h.reigns[t].leader == actor
    ensures Backed(n, ns, full, h)
  {
  }

  /** The node stays in its term, with its log, and remembers nothing new. */
  lemma StaysBacked(n: NodeId, ns: NodeState, m: NodeState, full: seq<Entry>, g: History, h: History)
    requires Backed(n, ns, full, g) && Grows(g, h) && h.reigns.Keys == g.reigns.Keys
    requires m.term == ns.term && (Remembers(m) ==> Remembers(ns))
    ensures Backed(n, m, full, h)
  {
  }

  /** The node enters a later term with the log it has. */
  lemma EntersBacked(ids: set<NodeId>, p: Proto, n: NodeId, m: NodeState, h: History)
    requires Inv(ids, p) && n in p.replicas && p.replicas[n].term < m.term && h.reigns == p.h.reigns
    ensures Backed(n, m, p.replicas[n].log, h)
  {
    TermsBounded(ids, p, n);
    if m.term in p.h.reigns { assert ElectionOk(ids, p, m.term); }
  }

  /** The node hears from the leader of a term, and confirms its log up to k. */
  lemma FollowsBacked(n: NodeId, ns: NodeState, m: NodeState, full: seq<Entry>, after: seq<Entry>, g: History,
                      h: History, k: nat)
    requires Backed(n, ns, full, g) && Grows(g, h) && m.role == Follower && m.matchIndex == ns.matchIndex
    requires m.term in h.reigns && h.reigns[m.term].leader != n && ns.commitIndex <= m.commitIndex
    requires m.term >= ns.term && forall i :: 0 <= i < |full| ==> full[i].term <= ns.term
    requires ns.role == Leader ==> m.term > ns.term
    requires after == full || (|after| <= k && Ballot(m.term, n) in h.acks && k <= h.acks[Ballot(m.term, n)])
    ensures Backed(n, m, after, h)
  {
  }

  lemma SameLogFull(c: Setup, s: Cluster, n: NodeId, writes: seq<Disk>)
    requires ClusterInv(c, s) && n in s.nodes && n in s.full
    requires forall i :: 0 <= i < |writes| ==> writes[i].log == s.nodes[n].disk.log
    ensures FullAfter(s.h.reigns, s.full[n], writes) == s.full[n]
  {
    hide Inv, Abs, NodeOk;
    NodeRunning(c, s, n);
    NodeParts(s.nodes[n], s.full[n]);
    FullAfterSame(s.h.reigns, s.full[n], writes);
  }

  // ----- one operation -----

  /** What a node that does not lead afterwards may have done, other than hear from a leader. */
  predicate Quiet(ns: NodeState, m: NodeState, writes: seq<Disk>) {
    m.role != Leader ==>
      && (m.term > ns.term || (m.term == ns.term && (Remembers(m) ==> Remembers(ns))))
      && forall i :: 0 <= i < |writes| ==> writes[i].log == ns.disk.log
  }

  lemma TimeoutQuiet(cfg: Config, ns: NodeState)
    ensures var out := StartElection(cfg, ns); Quiet(ns, out.state, out.writes)
  {
  }

  lemma AloneQuiet(cfg: Config, ns: NodeState, t: nat)
    ensures var out := ElectAlone(cfg, ns, t); Quiet(ns, out.state, out.writes)
  {
  }

  lemma ReplicateQuiet(cfg: Config, ns: NodeState, peer: NodeId)
    requires GoodTable(ns)
    ensures var out := Replicate(cfg, ns, peer); Quiet(ns, out.state, out.writes)
  {
  }

  lemma VoteQuiet(ns: NodeState, req: VoteRequest)
    ensures var out := RequestVote(ns, req); Quiet(ns, out.state, out.writes)
  {
  }

  lemma VoteReplyQuiet(cfg: Config, ns: NodeState, src: NodeId, t: nat, resp: VoteResponse)
    ensures var out := VoteReply(cfg, ns, src, t, resp); Quiet(ns, out.state, out.writes)
  {
  }

  lemma AppendReplyQuiet(cfg: Config, ns: NodeState, src: NodeId, t: nat, lastSent: nat, resp: AppendResponse)
    requires GoodTable(ns)
    ensures var out := AppendReply(cfg, ns, src, t, lastSent, resp); Quiet(ns, out.state, out.writes)
  {
    hide ApplyCommitted, HighestCommittable;
    var k := Max(Get(ns.matchIndex, src), Max(resp.matchIndex, lastSent));
    var matched := if k > Get(ns.matchIndex, src) then ns.matchIndex[src := k] else ns.matchIndex;
    var m := ns.(matchIndex := matched, nextIndex := ns.nextIndex[src := k + 1]);
    ApplyKeeps(cfg, m.(commitIndex := HighestCommittable(cfg, m, m.commitIndex, m.disk.log.LastIndex())));
  }

  lemma WriteStays(cfg: Config, ns: NodeState, key: string, value: string)
    requires GoodTable(ns)
    ensures var out := WriteAppend(cfg, ns, key, value);
            out.state.role == Leader || (out.state == ns && out.writes == [] && (key == "" || ns.role != Leader))
  {
    hide ApplyCommitted, HighestCommittable;
    if key != "" && ns.role == Leader && cfg.Majority() == 1 {
      var e := Entry(ns.disk.log.LastIndex() + 1, ns.term, SetCommand(key, value));
      var m := ns.(disk := ns.disk.(log := ns.disk.log.Upsert([e])), matchIndex := ns.matchIndex[cfg.id := e.index]);
      ApplyKeeps(cfg, m.(commitIndex := HighestCommittable(cfg, m, m.commitIndex, m.disk.log.LastIndex())));
    }
  }

  /** The answer to a snapshot: what it records is not above the commit index. */
  lemma InstallReplyStays(cfg: Config, ns: NodeState, src: NodeId, k: nat, resp: InstallResponse)
    requires GoodTable(ns) && k <= ns.commitIndex
    ensures var m := InstallReply(cfg, ns, src, k, resp).state;
            m.role != Leader ==> m.term > ns.term || (m.term == ns.term && (Remembers(m) ==> Remembers(ns)))
  {
    hide ApplyCommitted, HighestCommittable;
    if resp.term <= ns.term {
      var m := Recorded(ns, src, k);
      var c := HighestCommittable(cfg, m, m.commitIndex, m.disk.log.LastIndex());
      ApplyKeeps(cfg, m.(commitIndex := c));
      assert c >= ns.commitIndex;
    }
  }

  lemma AppendEntriesStays(cfg: Config, ns: NodeState, req: AppendRequest)
    requires GoodTable(ns) && Contiguous(req.prevIndex, req.entries)
    ensures var m := AppendEntries(cfg, ns, req).state;
            if req.term < ns.term then m == ns
            else m.role == Follower && m.term == req.term && m.matchIndex == ns.matchIndex
  {
    hide ApplyCommitted, MergeWrites, LogTable.Merge;
    if req.term >= ns.term {
      var s1 := StepDownIf(ns, req.term, ns.role != Follower).state;
      if Accepts(s1, req) {
        MergeValid(s1.disk.log, req.entries);
        var s2 := s1.(disk := s1.disk.(log := s1.disk.log.Merge(req.entries)));
        ApplyKeeps(cfg, s2.(commitIndex := FollowerCommit(s2, req.leaderCommit)));
      }
    }
  }

  lemma InstallStays(ns: NodeState, req: InstallRequest)
    ensures var m := InstallSnapshotCall(ns, req).state;
            if req.term < ns.term then m == ns
            else m.role == Follower && m.term == req.term && m.matchIndex == ns.matchIndex
  {
  }

  // ----- every event -----

  lemma QuietBacked(c: Setup, s: Cluster, op: Op)
    requires ClusterInv(c, s) && Enabled(c, s, op) && Grows(s.h, HistoryDone(c, s, op)) && !op.ClientWrite?
    requires Quiet(s.nodes[NodeOf(op)], Perform(c, s, op).state, Perform(c, s, op).writes)
    ensures BackedAfter(c, s, op)
  {
    hide Inv, Abs, NodeOk, ClusterInv, Perform, HistoryDone, Backed, Grows, FullAfter, Enabled, Remembers;
    EnabledNode(c, s, op);
    var n := NodeOf(op);
    var m := Perform(c, s, op).state;
    var h := HistoryDone(c, s, op);
    NodeRunning(c, s, n);
    if m.role == Leader {
      LeaderBacked(n, m, FullAfter(s.h.reigns, s.full[n], Perform(c, s, op).writes), h);
    } else {
      NewReigns(c, s, op);
      SameLogFull(c, s, n, Perform(c, s, op).writes);
      if m.term > s.nodes[n].term {
        EntersBacked(c.configs.Keys, Abs(s), n, m, h);
      } else {
        StaysBacked(n, s.nodes[n], m, s.full[n], s.h, h);
      }
    }
  }

  lemma LeaderBacked(n: NodeId, m: NodeState, full: seq<Entry>, h: History)
    requires m.role == Leader
    ensures Backed(n, m, full, h)
  {
  }

  ghost predicate BackedAfter(c: Setup, s: Cluster, op: Op)
    requires Enabled(c, s, op)
  {
    var r := Perform(c, s, op);
    Backed(NodeOf(op), r.state, FullAfter(s.h.reigns, s.full[NodeOf(op)], r.writes), HistoryDone(c, s, op))
  }

  lemma WriteBacked(c: Setup, s: Cluster, op: Op)
    requires ClusterInv(c, s) && Enabled(c, s, op) && op.ClientWrite?
    ensures BackedAfter(c, s, op)
  {
    hide Inv, Abs, NodeOk, ClusterInv, Backed, WriteAppend, HistoryDone;
    NodeRunning(c, s, op.n);
    WriteStays(c.configs[op.n], s.nodes[op.n], op.key, op.value);
    var m := Perform(c, s, op).state;
    if m.role == Leader {
      LeaderBacked(op.n, m, FullAfter(s.h.reigns, s.full[op.n], Perform(c, s, op).writes), HistoryDone(c, s, op));
    } else {
      WriteRefused(c, s, op);
    }
  }

  lemma AppendCallBacked(c: Setup, s: Cluster, op: Op)
    requires ClusterInv(c, s) && Enabled(c, s, op) && op.Deliver? && op.m.AppendCall?
    requires Grows(s.h, HistoryDone(c, s, op))
    ensures BackedAfter(c, s, op)
  {
    hide Inv, Safe, AllSafe, FullAfter, NodeOk, Abs, AppendEntries, Runs, AppendOk, Perform, HistoryAfter,
         HistoryDone, Accepts, LastSent, ClusterInv, Enabled, ValidConfig, Grows, Backed;
    var n := op.m.dst;
    var req := op.m.append;
    AppendCallShape(c, s, op);
    NodeRunning(c, s, n);
    MessageTrue(c, s, op.m);
    AppendTerm(c.configs.Keys, Abs(s), req);
    var ns := s.nodes[n];
    var out := AppendEntries(c.configs[n], ns, req);
    var q := AppendEntriesHandled(c.configs.Keys, c.configs[n], Abs(s), n, ns, req);
    AppendEntriesStays(c.configs[n], ns, req);
    AcceptsTerm(ns, req);
    if req.term >= ns.term {
      HearsBacked(c, s, n, out.state, q.replicas[n].log, req.term, req.prevIndex + |req.entries|, Accepts(ns, req));
    } else {
      GrowsRefl(s.h);
      StaysBacked(n, ns, out.state, s.full[n], s.h, s.h);
    }
  }

  lemma AcceptsTerm(ns: NodeState, req: AppendRequest)
    ensures Accepts(ns, req) ==> req.term >= ns.term
  {
  }

  /** A node that heard from the leader of term t: its log afterwards, and what it may have confirmed. */
  lemma HearsBacked(c: Setup, s: Cluster, n: NodeId, m: NodeState, after: seq<Entry>, t: nat, k: nat, confirms: bool)
    requires ClusterInv(c, s) && n in s.nodes && n in s.full && t in s.h.reigns && s.h.reigns[t].leader != n
    requires m.role == Follower && m.term == t >= s.nodes[n].term && m.matchIndex == s.nodes[n].matchIndex
    requires s.nodes[n].commitIndex <= m.commitIndex
    requires after == s.full[n] || (confirms && |after| <= k)
    ensures Backed(n, m, after, if confirms then Confirm(s.h, t, n, k) else s.h)
  {
    hide Inv, Abs, NodeOk, ClusterInv, Backed;
    NodeRunning(c, s, n);
    TermsBounded(c.configs.Keys, Abs(s), n);
    if s.nodes[n].role == Leader { LeaderFacts(c.configs.Keys, Abs(s), n); }
    var h := if confirms then Confirm(s.h, t, n, k) else s.h;
    FollowsBacked(n, s.nodes[n], m, s.full[n], after, s.h, h, k);
  }

  lemma InstallCallBacked(c: Setup, s: Cluster, op: Op)
    requires ClusterInv(c, s) && Enabled(c, s, op) && op.Deliver? && op.m.InstallCall?
    ensures BackedAfter(c, s, op)
  {
    hide Inv, Safe, AllSafe, FullAfter, NodeOk, Abs, InstallSnapshotCall, Runs, Perform, HistoryAfter,
         HistoryDone, InstallGuard, ClusterInv, Enabled, ValidConfig, Grows, Backed;
    var n := op.m.dst;
    var req := op.m.install;
    InstallCallShape(c, s, op);
    NodeRunning(c, s, n);
    MessageTrue(c, s, op.m);
    var ns := s.nodes[n];
    var out := InstallSnapshotCall(ns, req);
    var q := InstallSnapshotHandled(c.configs.Keys, Abs(s), n, ns, req);
    InstallStays(ns, req);
    if req.term >= ns.term {
      HearsBacked(c, s, n, out.state, q.replicas[n].log, req.term, req.lastIndex, true);
    } else {
      GrowsRefl(s.h);
      StaysBacked(n, ns, out.state, s.full[n], s.h, s.h);
    }
  }

  lemma InstallAnswerBacked(c: Setup, s: Cluster, op: Op)
    requires ClusterInv(c, s) && Enabled(c, s, op) && op.Deliver? && op.m.InstallAnswer?
    ensures BackedAfter(c, s, op)
  {
    hide Inv, Safe, AllSafe, FullAfter, NodeOk, Abs, InstallReply, Runs, ValidConfig, Grows, Backed, Remembers;
    var n := op.m.dst;
    NodeRunning(c, s, n);
    NodeParts(s.nodes[n], s.full[n]);
    MessageTrue(c, s, op.m);
    var ns := s.nodes[n];
    var m := InstallReply(c.configs[n], ns, op.m.src, op.m.lastIncluded, op.m.installed).state;
    var q := InstallReplyHandled(c.configs.Keys, c.configs[n], Abs(s), n, ns, op.m.src, op.m.lastIncluded,
                                 op.m.installed);
    InstallReplyStays(c.configs[n], ns, op.m.src, op.m.lastIncluded, op.m.installed);
    GrowsRefl(s.h);
    if m.role == Leader {
      LeaderBacked(n, m, s.full[n], s.h);
    } else if m.term > ns.term {
      EntersBacked(c.configs.Keys, Abs(s), n, m, s.h);
    } else {
      StaysBacked(n, ns, m, s.full[n], s.h, s.h);
    }
  }

  lemma ActorBacked(c: Setup, s: Cluster, op: Op)
    requires ClusterInv(c, s) && Enabled(c, s, op) && Grows(s.h, HistoryDone(c, s, op))
    ensures BackedAfter(c, s, op)
  {
    hide ClusterInv, BackedAfter, Grows, HistoryDone, StartElection, ElectAlone, Replicate, RequestVote, VoteReply,
         AppendReply, Quiet, GoodTable;
    match op
    case Timeout(n) => TimeoutQuiet(c.configs[n], s.nodes[n]); QuietBacked(c, s, op);
    case Alone(n, t) => AloneQuiet(c.configs[n], s.nodes[n], t); QuietBacked(c, s, op);
    case ReplicateTo(n, peer) => ReplicateQuiet(c.configs[n], s.nodes[n], peer); QuietBacked(c, s, op);
    case ClientWrite(_, _, _) => WriteBacked(c, s, op);
    case Deliver(m) =>
      match m
      case VoteCall(_, n, req) => VoteQuiet(s.nodes[n], req); QuietBacked(c, s, op);
      case VoteAnswer(src, n, t, resp) =>
        VoteReplyQuiet(c.configs[n], s.nodes[n], src, t, resp);
        QuietBacked(c, s, op);
      case AppendCall(_, _, _) => AppendCallBacked(c, s, op);
      case AppendAnswer(src, n, t, last, resp) =>
        AppendReplyQuiet(c.configs[n], s.nodes[n], src, t, last, resp);
        QuietBacked(c, s, op);
      case InstallCall(_, _, _) => InstallCallBacked(c, s, op);
      case InstallAnswer(_, _, _, _, _) => InstallAnswerBacked(c, s, op);
  }

  /** A restarted node remembers no match at all. */
  lemma RestartBacked(n: NodeId, d: Disk, full: seq<Entry>, h: History)
    ensures Backed(n, Restart(d), full, h)
  {
  }

  lemma BackedNext(c: Setup, s: Cluster, e: Event)
    requires ClusterInv(c, s) && CanHappen(c, s, e) && Grows(s.h, Next(c, s, e).h)
    ensures AllBacked(Next(c, s, e))
  {
    hide Inv, Abs, NodeOk, ClusterInv, Perform, HistoryDone, HistoryAfter, Backed, Grows, FullAfter, Enabled;
    var n := NodeOf(e.op);
    var t := Next(c, s, e);
    EnabledNode(c, s, e.op);
    NewReigns(c, s, e.op);
    forall m | m in t.nodes && m in t.full
      ensures Backed(m, t.nodes[m], t.full[m], t.h)
    {
      if m != n {
        NodeRunning(c, s, m);
        OtherBacked(m, s.nodes[m], s.full[m], s.h, t.h, n);
      } else if e.Run? {
        ActorBacked(c, s, e.op);
      } else {
        RestartBacked(n, t.nodes[n].disk, t.full[n], t.h);
      }
    }
  }
}
