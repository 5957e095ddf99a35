/** Every event, with or without a crash, keeps the cluster in a state that the protocol allows. */
module ClusterSafety {
  import opened RaftTypes
  import opened Logs
  import opened LogTables
  import opened Compaction
  import opened Disks
  import opened NodeSpec
  import opened Protocol
  import opened ProtocolActions
  import opened ProtocolElections
  import opened Clusters
  import opened NodeRuns
  import opened HandlerRuns
  import opened FollowerRuns
  import opened LeaderRuns

  ghost predicate ClusterInv(c: Setup, s: Cluster) {
    && ValidSetup(c)
    && s.nodes.Keys == c.configs.Keys && s.full.Keys == c.configs.Keys
    && Inv(c.configs.Keys, Abs(s))
    && forall n :: n in s.nodes ==>
         NodeOk(s.nodes[n], s.full[n]) && Settled(s.nodes[n]) && Backed(n, s.nodes[n], s.full[n], s.h)
  }

  lemma AbsAt(s: Cluster, n: NodeId)
    requires s.nodes.Keys == s.full.Keys && n in s.nodes
    ensures Abs(s).replicas.Keys == s.nodes.Keys && Abs(s).replicas[n] == AbsNode(s.nodes[n], s.full[n])
    ensures Abs(s).h == s.h && Abs(s).msgs == s.msgs
  {
  }

  lemma NodeRunning(c: Setup, s: Cluster, n: NodeId)
    requires ClusterInv(c, s) && n in s.nodes
    ensures Runs(c.configs.Keys, Abs(s), n, s.nodes[n])
    ensures Abs(s).replicas[n] == AbsNode(s.nodes[n], s.full[n])
    ensures Abs(s).h == s.h && Abs(s).msgs == s.msgs && Abs(s).replicas.Keys == c.configs.Keys
    ensures GoodTable(s.nodes[n])
    ensures n in c.configs && ValidConfig(c.configs.Keys, n, c.configs[n]) && c.configs[n].id == n
    ensures Settled(s.nodes[n]) && n in s.full && Backed(n, s.nodes[n], s.full[n], s.h)
  {
    hide Inv, Abs, NodeOk, Backed;
    AbsAt(s, n);
    NodeParts(s.nodes[n], s.full[n]);
    LogFacts(c.configs.Keys, Abs(s), n);
    RepresentsValid(s.nodes[n].disk.log, s.full[n]);
  }

  lemma WithSelf(p: Proto, n: NodeId)
    requires n in p.replicas
    ensures With(p, n, p.replicas[n], p.h) == p
  {
  }

  /** An operation leaves a good state, says only true things, and may crash after any of its transactions. */
  ghost predicate Outcome(c: Setup, s: Cluster, op: Op)
    requires Enabled(c, s, op)
  {
    var ids := c.configs.Keys;
    var p := Abs(s);
    var n := NodeOf(op);
    var full := s.full[n];
    var r := Perform(c, s, op);
    var after := FullAfter(s.h.reigns, full, r.writes);
    && n in p.replicas
    && Lands(ids, p, n, r.state, after, HistoryDone(c, s, op))
    && s.nodes[n].commitIndex <= r.state.commitIndex && Settled(r.state)
    && Grows(s.h, HistoryDone(c, s, op))
    && (forall m :: m in r.sends ==>
          MessageOk(ids, With(p, n, AbsNode(r.state, after), HistoryDone(c, s, op)), m))
    && (forall i: nat :: i <= |r.writes| ==> CrashOk(c, s, op, i))
  }

  ghost predicate CrashOk(c: Setup, s: Cluster, op: Op, i: nat)
    requires Enabled(c, s, op) && NodeOf(op) in Abs(s).replicas && i <= |Perform(c, s, op).writes|
  {
    var n := NodeOf(op);
    var writes := Perform(c, s, op).writes;
    && Safe(c.configs.Keys, Abs(s), n, DiskAfter(s.nodes[n].disk, writes, i),
            FullAfter(s.h.reigns, s.full[n], writes[..i]), HistoryAfter(c, s, op, i))
    && Grows(s.h, HistoryAfter(c, s, op, i))
  }

  /** Operations that write no history before they are done. */
  lemma PlainCrash(c: Setup, s: Cluster, op: Op)
    requires Enabled(c, s, op) && NodeOf(op) in Abs(s).replicas
    requires var n := NodeOf(op); var r := Perform(c, s, op);
             Abs(s).replicas[n].log == s.full[n]
             && AllSafe(c.configs.Keys, Abs(s), n, s.nodes[n].disk, s.full[n], r.writes, s.h)
    requires forall i: nat :: i <= |Perform(c, s, op).writes| ==> HistoryAfter(c, s, op, i) == s.h
    ensures forall i: nat :: i <= |Perform(c, s, op).writes| ==> CrashOk(c, s, op, i)
  {
    hide Inv, Safe, Perform, FullAfter;
    GrowsRefl(s.h);
    var n := NodeOf(op);
    var writes := Perform(c, s, op).writes;
    forall i: nat | i <= |writes|
      ensures CrashOk(c, s, op, i)
    {
      assert Safe(c.configs.Keys, Abs(s), n, DiskAfter(s.nodes[n].disk, writes, i),
                  FullAfter(s.h.reigns, s.full[n], writes[..i]), s.h);
    }
  }

  lemma PlainOutcome(c: Setup, s: Cluster, op: Op, q: Proto)
    requires Enabled(c, s, op) && NodeOf(op) in Abs(s).replicas
    requires var n := NodeOf(op); var r := Perform(c, s, op);
             Abs(s).replicas[n].log == s.full[n]
             && Handled(c.configs.Keys, Abs(s), q, n, s.nodes[n], r.state, r.writes) && Settled(r.state)
             && (forall m :: m in r.sends ==> MessageOk(c.configs.Keys, q, m))
    requires forall i: nat :: i <= |Perform(c, s, op).writes| ==> HistoryAfter(c, s, op, i) == s.h
    requires HistoryDone(c, s, op) == s.h
    ensures Outcome(c, s, op)
  {
    hide Inv, Safe, Perform, FullAfter, HistoryAfter, HistoryDone, AllSafe, MessageOk;
    PlainCrash(c, s, op);
    GrowsRefl(s.h);
    RunsLands(c.configs.Keys, Abs(s), q, NodeOf(op), Perform(c, s, op).state);
  }

  /** Operations that write history: what is left to show once the final protocol state is known. */
  lemma FinalOutcome(c: Setup, s: Cluster, op: Op, q: Proto)
    requires Enabled(c, s, op) && NodeOf(op) in Abs(s).replicas
    requires var n := NodeOf(op); var r := Perform(c, s, op);
             && Runs(c.configs.Keys, q, n, r.state)
             && q == With(Abs(s), n, q.replicas[n], q.h)
             && q.replicas[n].log == FullAfter(s.h.reigns, s.full[n], r.writes)
             && (forall m :: m in r.sends ==> MessageOk(c.configs.Keys, q, m))
    requires q.h == HistoryDone(c, s, op) && Grows(s.h, q.h)
    requires s.nodes[NodeOf(op)].commitIndex <= Perform(c, s, op).state.commitIndex && Settled(Perform(c, s, op).state)
    requires forall i: nat :: i <= |Perform(c, s, op).writes| ==> CrashOk(c, s, op, i)
    ensures Outcome(c, s, op)
  {
    hide Inv, Safe, Perform, FullAfter, HistoryAfter, HistoryDone, CrashOk, MessageOk, Grows;
    RunsLands(c.configs.Keys, Abs(s), q, NodeOf(op), Perform(c, s, op).state);
  }

  lemma CrashBefore(c: Setup, s: Cluster, op: Op)
    requires ClusterInv(c, s) && Enabled(c, s, op) && HistoryAfter(c, s, op, 0) == s.h
    ensures NodeOf(op) in Abs(s).replicas && CrashOk(c, s, op, 0)
  {
    hide Inv, Safe, Perform, HistoryAfter, NodeOk, Grows, AbsNode, ValidSetup, GoodTable, Abs;
    var n := NodeOf(op);
    NodeRunning(c, s, n);
    CrashAtRest(c, s, n);
    GrowsRefl(s.h);
    assert Perform(c, s, op).writes[..0] == [];
  }

  lemma CrashAtRest(c: Setup, s: Cluster, n: NodeId)
    requires ClusterInv(c, s) && n in s.nodes
    ensures n in Abs(s).replicas && Safe(c.configs.Keys, Abs(s), n, s.nodes[n].disk, s.full[n], s.h)
  {
    hide Inv, Safe, NodeOk, Abs;
    var p := Abs(s);
    NodeRunning(c, s, n);
    WithSelf(p, n);
    RunsSafe(c.configs.Keys, p, p, n, s.nodes[n]);
  }

  lemma CrashAfterAll(c: Setup, s: Cluster, op: Op, q: Proto, m: NodeState)
    requires Enabled(c, s, op) && NodeOf(op) in Abs(s).replicas
    requires var n := NodeOf(op); var r := Perform(c, s, op);
             && Runs(c.configs.Keys, q, n, m)
             && q == With(Abs(s), n, q.replicas[n], q.h)
             && q.replicas[n].log == FullAfter(s.h.reigns, s.full[n], r.writes)
             && m.disk == DiskAfter(s.nodes[n].disk, r.writes, |r.writes|)
             && q.h == HistoryAfter(c, s, op, |r.writes|) && Grows(s.h, q.h)
    ensures CrashOk(c, s, op, |Perform(c, s, op).writes|)
  {
    hide Inv, Safe, Perform, HistoryAfter, FullAfter, Grows;
    RunsSafe(c.configs.Keys, Abs(s), q, NodeOf(op), m);
    var writes := Perform(c, s, op).writes;
    assert writes[..|writes|] == writes;
  }

  // ----- operation by operation -----

  lemma TimeoutOutcome(c: Setup, s: Cluster, op: Op)
    requires ClusterInv(c, s) && Enabled(c, s, op) && op.Timeout?
    ensures Outcome(c, s, op)
  {
    hide Inv, Safe, AllSafe, FullAfter;
    var n := op.n;
    NodeRunning(c, s, n);
    if s.nodes[n].role == Leader {
      NothingHandled(c.configs.Keys, Abs(s), n, s.nodes[n]);
      PlainOutcome(c, s, op, Abs(s));
    } else {
      CampaignOutcome(c, s, op);
    }
  }

  /** A campaign is one transaction, and the vote for itself is history as soon as it is on disk. */
  lemma CampaignOutcome(c: Setup, s: Cluster, op: Op)
    requires ClusterInv(c, s) && Enabled(c, s, op) && op.Timeout? && s.nodes[op.n].role != Leader
    ensures Outcome(c, s, op)
  {
    hide Inv, Safe, AllSafe, FullAfter, NodeOk, Grows, ClaimOk, ValidSetup, GoodTable, CrashOk, Outcome, Abs;
    var n := op.n;
    CampaignDone(c, s, op);
    var q := Campaign(Abs(s), n);
    CampaignFull(c, s, n);
    CrashBefore(c, s, op);
    CrashAfterAll(c, s, op, q, StartElection(c.configs[n], s.nodes[n]).state);
    FinalOutcome(c, s, op, q);
  }

  lemma CampaignDone(c: Setup, s: Cluster, op: Op)
    requires ClusterInv(c, s) && Enabled(c, s, op) && op.Timeout? && s.nodes[op.n].role != Leader
    ensures var n := op.n; var p := Abs(s); var out := StartElection(c.configs[n], s.nodes[n]);
            && n in p.replicas
            && var q := Campaign(p, n);
            && Runs(c.configs.Keys, q, n, out.state) && Grows(s.h, q.h)
            && q == With(p, n, q.replicas[n], q.h) && q.replicas[n].log == s.full[n]
            && q.h == HistoryAfter(c, s, op, 1)
            && out.reply.Some?
            && (forall peer :: peer in c.configs[n].peers ==>
                  MessageOk(c.configs.Keys, q, VoteCall(n, peer, out.reply.value)))
  {
    hide Inv, NodeOk, Grows, ClaimOk, Abs;
    var n := op.n;
    NodeRunning(c, s, n);
    PeersAre(c.configs.Keys, n, c.configs[n]);
    StartElectionRuns(c.configs.Keys, c.configs[n], Abs(s), n, s.nodes[n]);
    CampaignHistory(c, s, op, Abs(s));
  }

  lemma CampaignHistory(c: Setup, s: Cluster, op: Op, p: Proto)
    requires Enabled(c, s, op) && op.Timeout? && op.n in p.replicas
    requires p.replicas[op.n] == AbsNode(s.nodes[op.n], s.full[op.n]) && p.h == s.h
    ensures Campaign(p, op.n).h == HistoryAfter(c, s, op, 1)
  {
  }

  lemma CampaignFull(c: Setup, s: Cluster, n: NodeId)
    requires ClusterInv(c, s) && n in s.nodes
    ensures var out := StartElection(c.configs[n], s.nodes[n]);
            FullAfter(s.h.reigns, s.full[n], out.writes) == s.full[n]
  {
    hide Inv, NodeOk, Represents, ClusterInv, FullAfter;
    NodeRunning(c, s, n);
    NodeParts(s.nodes[n], s.full[n]);
    FullAfterSame(s.h.reigns, s.full[n], StartElection(c.configs[n], s.nodes[n]).writes);
  }

  lemma EnabledNode(c: Setup, s: Cluster, op: Op)
    requires Enabled(c, s, op)
    ensures NodeOf(op) in s.nodes && NodeOf(op) in c.configs && NodeOf(op) in s.full
  {
  }

  lemma MessageTrue(c: Setup, s: Cluster, m: Message)
    requires ClusterInv(c, s) && m in s.msgs
    ensures MessageOk(c.configs.Keys, Abs(s), m)
  {
  }

  // ----- plain operations -----

  lemma ReplicateShape(c: Setup, s: Cluster, op: Op)
    requires Enabled(c, s, op) && op.ReplicateTo?
    ensures var out := Replicate(c.configs[op.n], s.nodes[op.n], op.peer); var r := Perform(c, s, op);
            && r.state == out.state && r.writes == out.writes
            && (forall m :: m in r.sends ==>
                  || (out.reply.SendAppend? && m == AppendCall(op.n, op.peer, out.reply.append))
                  || (out.reply.SendInstall? && m == InstallCall(op.n, op.peer, out.reply.install)))
            && (forall i: nat :: i <= |out.writes| ==> HistoryAfter(c, s, op, i) == s.h)
            && HistoryDone(c, s, op) == s.h
            && op.peer in c.configs[op.n].peers
  {
    hide Replicate;
  }

  lemma ReplicateOutcome(c: Setup, s: Cluster, op: Op)
    requires ClusterInv(c, s) && Enabled(c, s, op) && op.ReplicateTo?
    ensures Outcome(c, s, op)
  {
    hide Inv, Safe, AllSafe, FullAfter, NodeOk, Abs, Outcome, Replicate, AppendOk, InstallOk, Handled, Runs,
         Perform, HistoryAfter, HistoryDone, ClusterInv, Enabled, ValidConfig, Settled, MessageOk, GoodTable;
    EnabledNode(c, s, op);
    var n := op.n;
    var p := Abs(s);
    NodeRunning(c, s, n);
    ReplicateShape(c, s, op);
    ReplicateRuns(c.configs.Keys, c.configs[n], p, n, s.nodes[n], op.peer);
    PeerInside(c, n, op.peer);
    forall m | m in Perform(c, s, op).sends
      ensures MessageOk(c.configs.Keys, p, m)
    {
      SentOk(c.configs.Keys, p, m);
    }
    PlainOutcome(c, s, op, p);
  }

  lemma PeerInside(c: Setup, n: NodeId, peer: NodeId)
    requires n in c.configs && ValidConfig(c.configs.Keys, n, c.configs[n]) && peer in c.configs[n].peers
    ensures peer in c.configs && peer != n
  {
    PeersAre(c.configs.Keys, n, c.configs[n]);
  }

  /** A request or a snapshot that is true of its leader's log is a true message. */
  lemma SentOk(ids: set<NodeId>, p: Proto, m: Message)
    requires m.src in ids && m.dst in ids && m.src != m.dst && (m.AppendCall? || m.InstallCall?)
    requires m.AppendCall? ==> m.append.leader == m.src && AppendOk(ids, p, m.append)
    requires m.InstallCall? ==>
               && m.install.leader == m.src && InstallOk(ids, p, m.install)
               && m.src in p.replicas && m.install.lastIndex <= p.replicas[m.src].applied
    ensures MessageOk(ids, p, m)
  {
  }

  lemma AppendAnswerOutcome(c: Setup, s: Cluster, op: Op)
    requires ClusterInv(c, s) && Enabled(c, s, op) && op.Deliver? && op.m.AppendAnswer?
    ensures Outcome(c, s, op)
  {
    hide Inv, Safe, AllSafe, FullAfter, NodeOk, Abs, Outcome, AppendReply, Handled, Runs;
    var n := op.m.dst;
    NodeRunning(c, s, n);
    MessageTrue(c, s, op.m);
    var q := AppendReplyHandled(c.configs.Keys, c.configs[n], Abs(s), n, s.nodes[n],
                                op.m.src, op.m.reqTerm, op.m.lastSent, op.m.appended);
    PlainOutcome(c, s, op, q);
  }

  lemma InstallAnswerOutcome(c: Setup, s: Cluster, op: Op)
    requires ClusterInv(c, s) && Enabled(c, s, op) && op.Deliver? && op.m.InstallAnswer?
    ensures Outcome(c, s, op)
  {
    hide Inv, Safe, AllSafe, FullAfter, NodeOk, Abs, Outcome, InstallReply, Handled, Runs, Backed;
    var n := op.m.dst;
    NodeRunning(c, s, n);
    MessageTrue(c, s, op.m);
    var q := InstallReplyHandled(c.configs.Keys, c.configs[n], Abs(s), n, s.nodes[n],
                                 op.m.src, op.m.lastIncluded, op.m.installed);
    PlainOutcome(c, s, op, q);
  }

  // ----- operations that end with a confirmation -----

  /** A handled message of the leader, confirmed up to k when it is done. */
  lemma ConfirmedOutcome(c: Setup, s: Cluster, op: Op, q: Proto, t: nat, k: nat)
    requires ClusterInv(c, s) && Enabled(c, s, op) && NodeOf(op) in Abs(s).replicas
    requires var n := NodeOf(op); var r := Perform(c, s, op);
             && Abs(s).replicas[n].log == s.full[n]
             && Handled(c.configs.Keys, Abs(s), q, n, s.nodes[n], r.state, r.writes) && Settled(r.state)
             && q.replicas[n].term == t && t in s.h.reigns && Agree(q.replicas[n].log, s.h.reigns[t].log, k)
             && Abs(s).h == s.h
             && HistoryDone(c, s, op) == Confirm(s.h, t, n, k)
             && (forall m :: m in r.sends ==> MessageOk(c.configs.Keys, Acknowledge(q, n, k), m))
    requires forall i: nat :: i <= |Perform(c, s, op).writes| ==> HistoryAfter(c, s, op, i) == s.h
    ensures Outcome(c, s, op)
  {
    hide Inv, Safe, AllSafe, FullAfter, NodeOk, Abs, Outcome, Perform, HistoryDone, HistoryAfter, Grows,
         MessageOk, CrashOk, Handled, Runs, Acknowledge, Confirm, ClusterInv, Enabled;
    EnabledNode(c, s, op);
    var n := NodeOf(op);
    var r := Perform(c, s, op);
    HandledLives(c.configs.Keys, Abs(s), q, n, s.nodes[n], r.state, r.writes);
    AcknowledgeRuns(c.configs.Keys, Abs(s), q, n, s.nodes[n], r.state, r.writes, t, k);
    PlainCrash(c, s, op);
    FinalOutcome(c, s, op, Acknowledge(q, n, k));
  }

  lemma AcknowledgeRuns(ids: set<NodeId>, p: Proto, q: Proto, n: NodeId, ns: NodeState, m: NodeState,
                        writes: seq<Disk>, t: nat, k: nat)
    requires n in p.replicas && Handled(ids, p, q, n, ns, m, writes)
    requires n in q.replicas && q.replicas[n].term == t && t in p.h.reigns
             && Agree(q.replicas[n].log, p.h.reigns[t].log, k)
    ensures var a := Acknowledge(q, n, k);
            && Runs(ids, a, n, m) && a == With(p, n, a.replicas[n], a.h) && a.h == Confirm(p.h, t, n, k)
            && Grows(p.h, a.h)
            && a.replicas[n].log == FullAfter(p.h.reigns, p.replicas[n].log, writes)
            && ns.commitIndex <= m.commitIndex && AllSafe(ids, p, n, ns.disk, p.replicas[n].log, writes, p.h)
  {
    hide Inv, Safe, AllSafe, FullAfter, NodeOk, Grows;
    AcknowledgeKeeps(ids, q, n, k);
  }

  lemma AppendCallShape(c: Setup, s: Cluster, op: Op)
    requires Enabled(c, s, op) && op.Deliver? && op.m.AppendCall?
    ensures var n := op.m.dst; var req := op.m.append; var out := AppendEntries(c.configs[n], s.nodes[n], req);
            && NodeOf(op) == n
            && Perform(c, s, op) ==
                 Result(out.state, {AppendAnswer(n, op.m.src, req.term, LastSent(req), out.reply)}, out.writes)
            && (forall i: nat :: i <= |out.writes| ==> HistoryAfter(c, s, op, i) == s.h)
            && HistoryDone(c, s, op) ==
                 (if Accepts(s.nodes[n], req) then Confirm(s.h, req.term, n, req.prevIndex + |req.entries|) else s.h)
            && AppendGuard(c.configs[n], s.nodes[n], req)
            && n in s.nodes && op.m in s.msgs
            && LastSent(req) == req.prevIndex + |req.entries|
  {
    hide AppendEntries;
  }

  lemma AnswerOk(ids: set<NodeId>, q: Proto, m: Message, resp: AppendResponse)
    requires m.AppendCall? && m.src in ids && m.dst in ids && m.src != m.dst
    requires LastSent(m.append) == m.append.prevIndex + |m.append.entries|
    requires resp.success ==>
               && m.dst in q.replicas && q.replicas[m.dst].term == m.append.term
               && resp.matchIndex == LastSent(m.append)
               && Ballot(m.append.term, m.dst) in q.h.acks && resp.matchIndex <= q.h.acks[Ballot(m.append.term, m.dst)]
    ensures MessageOk(ids, q, AppendAnswer(m.dst, m.src, m.append.term, LastSent(m.append), resp))
  {
  }

  lemma AppendCallOutcome(c: Setup, s: Cluster, op: Op)
    requires ClusterInv(c, s) && Enabled(c, s, op) && op.Deliver? && op.m.AppendCall?
    ensures Outcome(c, s, op)
  {
    hide Inv, Safe, AllSafe, FullAfter, NodeOk, Abs, Outcome, AppendEntries, Handled, Runs, AppendOk, Perform,
         HistoryAfter, HistoryDone, Accepts, LastSent, ClusterInv, Enabled, ValidConfig;
    var n := op.m.dst;
    var req := op.m.append;
    var ids := c.configs.Keys;
    AppendCallShape(c, s, op);
    NodeRunning(c, s, n);
    MessageTrue(c, s, op.m);
    AppendTerm(ids, Abs(s), req);
    var q := AppendEntriesHandled(ids, c.configs[n], Abs(s), n, s.nodes[n], req);
    var resp := AppendEntries(c.configs[n], s.nodes[n], req).reply;
    HandledLives(ids, Abs(s), q, n, s.nodes[n], Perform(c, s, op).state, Perform(c, s, op).writes);
    if Accepts(s.nodes[n], req) {
      var end := req.prevIndex + |req.entries|;
      AnswerOk(ids, Acknowledge(q, n, end), op.m, resp);
      ConfirmedOutcome(c, s, op, q, req.term, end);
    } else {
      AnswerOk(ids, q, op.m, resp);
      PlainOutcome(c, s, op, q);
    }
  }

  lemma HandledLives(ids: set<NodeId>, p: Proto, q: Proto, n: NodeId, ns: NodeState, m: NodeState, writes: seq<Disk>)
    requires n in p.replicas && Handled(ids, p, q, n, ns, m, writes)
    ensures n in q.replicas && q.h == p.h
    ensures forall o :: o in p.replicas && o != n ==> o in q.replicas && q.replicas[o] == p.replicas[o]
  {
    hide Inv;
  }

  lemma AppendTerm(ids: set<NodeId>, p: Proto, req: AppendRequest)
    requires AppendOk(ids, p, req)
    ensures req.term in p.h.reigns && p.h.reigns[req.term].leader == req.leader
  {
  }

  lemma InstallCallShape(c: Setup, s: Cluster, op: Op)
    requires Enabled(c, s, op) && op.Deliver? && op.m.InstallCall?
    ensures var n := op.m.dst; var req := op.m.install; var out := InstallSnapshotCall(s.nodes[n], req);
            && NodeOf(op) == n
            && Perform(c, s, op).state == out.state && Perform(c, s, op).writes == out.writes
            && (out.reply.Some? ==>
                  Perform(c, s, op).sends == {InstallAnswer(n, op.m.src, req.term, req.lastIndex, out.reply.value)})
            && (forall i: nat :: i <= |out.writes| ==> HistoryAfter(c, s, op, i) == s.h)
            && (out.reply.Some? && req.term >= s.nodes[n].term ==>
                  HistoryDone(c, s, op) == Confirm(s.h, req.term, n, req.lastIndex))
            && (req.term < s.nodes[n].term ==> HistoryDone(c, s, op) == s.h)
            && InstallGuard(s.nodes[n], req)
            && n in s.nodes && op.m in s.msgs
  {
    hide InstallSnapshotCall;
  }

  lemma InstallAnswerOk(ids: set<NodeId>, q: Proto, m: Message, resp: InstallResponse)
    requires m.InstallCall? && m.src in ids && m.dst in ids && m.src != m.dst
    requires m.src in q.replicas && m.install.lastIndex <= q.replicas[m.src].applied
    requires resp.term <= m.install.term ==>
               && Ballot(m.install.term, m.dst) in q.h.acks
               && m.install.lastIndex <= q.h.acks[Ballot(m.install.term, m.dst)]
    ensures MessageOk(ids, q, InstallAnswer(m.dst, m.src, m.install.term, m.install.lastIndex, resp))
  {
  }

  lemma InstallCallOutcome(c: Setup, s: Cluster, op: Op)
    requires ClusterInv(c, s) && Enabled(c, s, op) && op.Deliver? && op.m.InstallCall?
    ensures Outcome(c, s, op)
  {
    hide Inv, Safe, AllSafe, FullAfter, NodeOk, Abs, Outcome, InstallSnapshotCall, Handled, Runs, InstallOk,
         Perform, HistoryAfter, HistoryDone, InstallGuard, ClusterInv, Enabled, ValidConfig;
    var n := op.m.dst;
    var req := op.m.install;
    var ids := c.configs.Keys;
    InstallCallShape(c, s, op);
    NodeRunning(c, s, n);
    MessageTrue(c, s, op.m);
    InstallOkSame(ids, Abs(s), Abs(s), req);
    assert op.m.src in Abs(s).replicas && op.m.src != n && req.lastIndex <= Abs(s).replicas[op.m.src].applied;
    var q := InstallSnapshotHandled(ids, Abs(s), n, s.nodes[n], req);
    HandledLives(ids, Abs(s), q, n, s.nodes[n], Perform(c, s, op).state, Perform(c, s, op).writes);
    var resp := InstallSnapshotCall(s.nodes[n], req).reply.value;
    if req.term >= s.nodes[n].term {
      InstallAnswerOk(ids, Acknowledge(q, n, req.lastIndex), op.m, resp);
      ConfirmedOutcome(c, s, op, q, req.term, req.lastIndex);
    } else {
      InstallAnswerOk(ids, q, op.m, resp);
      PlainOutcome(c, s, op, q);
    }
  }

  // ----- voting and winning -----

  lemma VoteCallShape(c: Setup, s: Cluster, op: Op)
    requires Enabled(c, s, op) && op.Deliver? && op.m.VoteCall?
    ensures var n := op.m.dst; var req := op.m.vote; var out := RequestVote(s.nodes[n], req);
            && NodeOf(op) == n && n in s.nodes && op.m in s.msgs
            && Perform(c, s, op) == Result(out.state, {VoteAnswer(n, op.m.src, req.term, out.reply)}, out.writes)
            && (forall i: nat :: i < |out.writes| ==> HistoryAfter(c, s, op, i) == s.h)
            && HistoryDone(c, s, op) == HistoryAfter(c, s, op, |out.writes|)
  {
    hide RequestVote;
  }

  /** The history of a vote call is that of the protocol's vote. */
  lemma VoteHistory(c: Setup, s: Cluster, op: Op, p: Proto)
    requires Enabled(c, s, op) && op.Deliver? && op.m.VoteCall? && op.m.dst in p.replicas
    requires p.replicas[op.m.dst] == AbsNode(s.nodes[op.m.dst], s.full[op.m.dst]) && p.h == s.h
    ensures var n := op.m.dst;
            Voted(p, n, s.nodes[n], op.m.vote).h == HistoryAfter(c, s, op, |RequestVote(s.nodes[n], op.m.vote).writes|)
  {
  }

  lemma VoteCallOutcome(c: Setup, s: Cluster, op: Op)
    requires ClusterInv(c, s) && Enabled(c, s, op) && op.Deliver? && op.m.VoteCall?
    ensures Outcome(c, s, op)
  {
    hide Inv, Safe, NodeOk, Abs, Outcome, RequestVote, Handled, ClaimOk, FullAfter, Perform, HistoryAfter,
         HistoryDone, ClusterInv, Enabled, ValidConfig, Voted, Grows;
    var n := op.m.dst;
    var req := op.m.vote;
    var ids := c.configs.Keys;
    var p := Abs(s);
    VoteCallShape(c, s, op);
    NodeRunning(c, s, n);
    MessageTrue(c, s, op.m);
    VoteHistory(c, s, op, p);
    var q := Voted(p, n, s.nodes[n], req);
    var out := RequestVote(s.nodes[n], req);
    RequestVoteRuns(ids, p, n, s.nodes[n], req);
    RequestVoteSafe(ids, p, n, s.nodes[n], req);
    GrowsRefl(s.h);
    assert out.writes[..|out.writes|] == out.writes;
    FinalOutcome(c, s, op, q);
  }

  lemma VoteAnswerShape(c: Setup, s: Cluster, op: Op)
    requires Enabled(c, s, op) && op.Deliver? && op.m.VoteAnswer?
    ensures var n := op.m.dst; var cfg := c.configs[n];
            var out := VoteReply(cfg, s.nodes[n], op.m.src, op.m.reqTerm, op.m.voted);
            && NodeOf(op) == n && n in s.nodes && op.m in s.msgs
            && Perform(c, s, op) == Result(out.state, {}, out.writes)
            && (forall i: nat :: i <= |out.writes| ==> HistoryAfter(c, s, op, i) == s.h)
            && HistoryDone(c, s, op) == Crown(s.h, n, s.nodes[n], out.state, s.full[n])
  {
    hide VoteReply, Crown;
  }

  lemma VoteAnswerOutcome(c: Setup, s: Cluster, op: Op)
    requires ClusterInv(c, s) && Enabled(c, s, op) && op.Deliver? && op.m.VoteAnswer?
    ensures Outcome(c, s, op)
  {
    hide Inv, Safe, NodeOk, Abs, Outcome, Handled, FullAfter, AllSafe, BecomeLeader, Perform, HistoryAfter,
         HistoryDone, ClusterInv, Enabled, ValidConfig, Grows;
    var n := op.m.dst;
    var ids := c.configs.Keys;
    var p := Abs(s);
    VoteAnswerShape(c, s, op);
    NodeRunning(c, s, n);
    var ns := s.nodes[n];
    var cfg := c.configs[n];
    MessageTrue(c, s, op.m);
    if op.m.voted.term > ns.term {
      StepDownHandled(ids, p, n, ns, op.m.voted.term, false);
      PlainOutcome(c, s, op, Followed(p, n, op.m.voted.term, false));
    } else if ns.role != Candidate || ns.term != op.m.reqTerm || !op.m.voted.granted {
      NothingHandled(ids, p, n, ns);
      PlainOutcome(c, s, op, p);
    } else {
      CountRuns(ids, p, n, ns, op.m.src);
      var p1 := Count(p, n, op.m.src);
      var s1 := ns.(tally := ns.tally + {op.m.src});
      if |s1.tally| >= cfg.Majority() {
        CrownOutcome(c, s, op, p1, s1);
      } else {
        QuietHandled(ids, p, p1, n, ns, s1);
        PlainOutcome(c, s, op, p1);
      }
    }
  }

  /** The history of a win is the new leader's reign. */
  lemma CrownHistory(cfg: Config, p: Proto, n: NodeId, ns: NodeState, m: NodeState, full: seq<Entry>)
    requires n in p.replicas && p.replicas[n] == AbsNode(m, full)
    requires ns.role == Candidate && ns.term == m.term
    ensures var l := BecomeLeader(cfg, m);
            && Crown(p.h, n, ns, l, full) == Win(p, n, l.matchIndex).h
            && l.commitIndex == m.commitIndex && l.lastApplied == m.lastApplied
  {
  }

  /** A node, possibly after counting one more vote, becomes leader without writing to disk. */
  lemma CrownOutcome(c: Setup, s: Cluster, op: Op, p: Proto, m: NodeState)
    requires ClusterInv(c, s) && Enabled(c, s, op)
    requires var n := NodeOf(op); var ns := s.nodes[n]; var l := BecomeLeader(c.configs[n], m);
             && n in Abs(s).replicas
             && Runs(c.configs.Keys, p, n, m) && p == With(Abs(s), n, p.replicas[n], s.h)
             && p.replicas[n].log == s.full[n]
             && ns.role == Candidate && m.role == Candidate && ns.term == m.term
             && m.commitIndex == ns.commitIndex && m.lastApplied == ns.lastApplied
             && |m.tally| >= c.configs[n].Majority()
             && Perform(c, s, op) == Result(l, {}, [])
             && HistoryAfter(c, s, op, 0) == s.h
             && HistoryDone(c, s, op) == Crown(s.h, n, ns, l, s.full[n])
    ensures Outcome(c, s, op)
  {
    hide Inv, Safe, NodeOk, Abs, Outcome, FullAfter, BecomeLeader, Crown, Perform, HistoryAfter, HistoryDone,
         ClusterInv, ValidConfig, Grows, CrashOk;
    var n := NodeOf(op);
    var ids := c.configs.Keys;
    NodeRunning(c, s, n);
    BecomeLeaderRuns(ids, c.configs[n], p, n, m);
    CrownHistory(c.configs[n], p, n, s.nodes[n], m, s.full[n]);
    NoWritesSafe(ids, p, n, m);
    CrashBefore(c, s, op);
    FinalOutcome(c, s, op, Win(p, n, BecomeLeader(c.configs[n], m).matchIndex));
  }

  lemma AloneShape(c: Setup, s: Cluster, op: Op)
    requires Enabled(c, s, op) && op.Alone?
    ensures var n := op.n; var out := ElectAlone(c.configs[n], s.nodes[n], op.reqTerm);
            && NodeOf(op) == n && n in s.nodes
            && Perform(c, s, op) == Result(out.state, {}, out.writes)
            && (forall i: nat :: i <= |out.writes| ==> HistoryAfter(c, s, op, i) == s.h)
            && HistoryDone(c, s, op) == Crown(s.h, n, s.nodes[n], out.state, s.full[n])
  {
    hide ElectAlone, Crown;
  }

  lemma AloneOutcome(c: Setup, s: Cluster, op: Op)
    requires ClusterInv(c, s) && Enabled(c, s, op) && op.Alone?
    ensures Outcome(c, s, op)
  {
    hide Inv, Safe, NodeOk, Abs, Outcome, Handled, FullAfter, AllSafe, BecomeLeader, Perform, HistoryAfter,
         HistoryDone, ClusterInv, Enabled, ValidConfig, Grows;
    var n := op.n;
    var ids := c.configs.Keys;
    var p := Abs(s);
    AloneShape(c, s, op);
    NodeRunning(c, s, n);
    var ns := s.nodes[n];
    if c.configs[n].Majority() == 1 && ns.role == Candidate && ns.term == op.reqTerm {
      CandidateFacts(ids, p, n);
      WithSelf(p, n);
      assert n in ns.tally && |ns.tally| >= 1;
      CrownOutcome(c, s, op, p, ns);
    } else {
      NothingHandled(ids, p, n, ns);
      PlainOutcome(c, s, op, p);
    }
  }

  // ----- client writes -----

  /** The entry that a client write appends. */
  function Written(s: Cluster, op: Op): Entry
    requires op.ClientWrite? && op.n in s.nodes
  {
    Entry(s.nodes[op.n].disk.log.LastIndex() + 1, s.nodes[op.n].term, SetCommand(op.key, op.value))
  }

  /** The node right after the entry is on disk. */
  function AfterAppend(cfg: Config, ns: NodeState, e: Entry): NodeState
    requires ns.disk.log.snapIndex < e.index <= ns.disk.log.LastIndex() + 1
  {
    ns.(disk := ns.disk.(log := ns.disk.log.Upsert([e])), matchIndex := ns.matchIndex[cfg.id := e.index])
  }

  lemma WriteRefused(c: Setup, s: Cluster, op: Op)
    requires Enabled(c, s, op) && op.ClientWrite? && (op.key == "" || s.nodes[op.n].role != Leader)
    ensures Perform(c, s, op) == Result(s.nodes[op.n], {}, []) && HistoryDone(c, s, op) == s.h
    ensures HistoryAfter(c, s, op, 0) == s.h
  {
  }

  lemma WriteShape(c: Setup, s: Cluster, op: Op)
    requires Enabled(c, s, op) && op.ClientWrite? && op.key != "" && s.nodes[op.n].role == Leader
    requires s.nodes[op.n].term in s.h.reigns
    ensures var n := op.n; var e := Written(s, op); var m := AfterAppend(c.configs[n], s.nodes[n], e);
            && GoodTable(m)
            && var rest := if c.configs[n].Majority() == 1 then AdvanceCommit(c.configs[n], m) else Out(m, (), []);
            && Perform(c, s, op) == Result(rest.state, {}, [m.disk] + rest.writes)
            && HistoryDone(c, s, op) == HistoryAfter(c, s, op, 1)
            && HistoryAfter(c, s, op, 0) == s.h
            && (forall i: nat :: 0 < i <= 1 + |rest.writes| ==> HistoryAfter(c, s, op, i) == HistoryAfter(c, s, op, 1))
  {
    hide AdvanceCommit;
  }

  lemma WriteHistory(c: Setup, s: Cluster, op: Op, p: Proto)
    requires Enabled(c, s, op) && op.ClientWrite? && op.key != "" && s.nodes[op.n].role == Leader
    requires s.nodes[op.n].term in s.h.reigns && op.n in p.replicas
    requires p.replicas[op.n] == AbsNode(s.nodes[op.n], s.full[op.n]) && p.h == s.h
    ensures Extend(p, op.n, Written(s, op)).h == HistoryAfter(c, s, op, 1)
  {
  }

  /** After the append, whatever is applied on top, the complete log is the old one with the new entry. */
  lemma WriteFull(reigns: map<nat, Reign>, d: Disk, d': Disk, full: seq<Entry>, e: Entry, rest: seq<Disk>)
    requires Represents(d.log, full) && Represents(d'.log, full + [e]) && d'.log.snapIndex == d.log.snapIndex
    requires forall i :: 0 <= i < |rest| ==> Represents(rest[i].log, full + [e])
    ensures forall j: nat :: j <= |rest| ==> FullAfter(reigns, full, [d'] + rest[..j]) == full + [e]
  {
    hide FullAfter, Uncompact, Represents;
    var log := full + [e];
    WriteFullOne(reigns, d, d', full, e);
    forall j: nat | j <= |rest|
      ensures FullAfter(reigns, full, [d'] + rest[..j]) == log
    {
      FullAfterConcat(reigns, full, [d'], rest[..j]);
      FullAfterSame(reigns, log, rest[..j]);
    }
  }

  lemma WriteFullOne(reigns: map<nat, Reign>, d: Disk, d': Disk, full: seq<Entry>, e: Entry)
    requires Represents(d.log, full) && Represents(d'.log, full + [e]) && d'.log.snapIndex == d.log.snapIndex
    ensures FullAfter(reigns, full, [d']) == full + [e]
  {
    var log := full + [e];
    assert [d'][..0] == [];
    assert FullAfter(reigns, full, []) == full;
    assert TermOf(log, d.log.snapIndex) == TermOf(full, d.log.snapIndex);
    assert full[..d.log.snapIndex] + log[d.log.snapIndex..] == log;
  }

  /** The transactions after the append, seen from the start of the write. */
  lemma WriteCrashes(ids: set<NodeId>, p: Proto, q: Proto, n: NodeId, m: NodeState, rest: seq<Disk>,
                     full: seq<Entry>, i: nat)
    requires n in p.replicas && n in q.replicas && q == With(p, n, q.replicas[n], q.h) && q.replicas[n].log == full
    requires AllSafe(ids, q, n, m.disk, full, rest, q.h)
    requires forall j :: 0 <= j < |rest| ==> Represents(rest[j].log, full)
    requires 0 < i <= 1 + |rest|
    ensures Safe(ids, p, n, DiskAfter(m.disk, rest, i - 1), full, q.h)
  {
    hide Inv, Represents;
    var d := DiskAfter(m.disk, rest, i - 1);
    FullAfterSame(q.h.reigns, full, rest[..i - 1]);
    assert Safe(ids, q, n, d, FullAfter(q.h.reigns, full, rest[..i - 1]), q.h);
    assert With(q, n, AbsNode(Restart(d), full), q.h) == With(p, n, AbsNode(Restart(d), full), q.h);
  }

  /** A write in the protocol: q1 right after the append, q after whatever could be committed at once. */
  ghost predicate WriteRan(ids: set<NodeId>, p: Proto, q1: Proto, q: Proto, n: NodeId, ns: NodeState,
                           full: seq<Entry>, e: Entry, m: NodeState, rest: Out<()>) {
    && n in p.replicas && n in q1.replicas && n in q.replicas
    && Runs(ids, q1, n, m) && Grows(p.h, q1.h)
    && q1 == With(p, n, q1.replicas[n], q1.h) && q1.replicas[n].log == full + [e]
    && Handled(ids, q1, q, n, m, rest.state, rest.writes)
    && q.replicas[n].log == full + [e]
    && Represents(ns.disk.log, full) && Represents(m.disk.log, full + [e])
    && m.disk.log.snapIndex == ns.disk.log.snapIndex
    && (forall i :: 0 <= i < |rest.writes| ==> Represents(rest.writes[i].log, full + [e]))
    && ns.commitIndex == m.commitIndex && (Settled(ns) ==> Settled(rest.state))
  }

  /** The crashes and the end of a write, from what it does to the protocol and to the history. */
  lemma WriteEnds(c: Setup, s: Cluster, op: Op, e: Entry, m: NodeState, rest: Out<()>, q1: Proto, q: Proto)
    requires ClusterInv(c, s) && Enabled(c, s, op) && op.ClientWrite? && Abs(s).h == s.h && Settled(s.nodes[op.n])
    requires WriteRan(c.configs.Keys, Abs(s), q1, q, op.n, s.nodes[op.n], s.full[op.n], e, m, rest)
    requires Perform(c, s, op) == Result(rest.state, {}, [m.disk] + rest.writes)
    requires HistoryAfter(c, s, op, 0) == s.h && HistoryDone(c, s, op) == q1.h
    requires forall i: nat :: 0 < i <= 1 + |rest.writes| ==> HistoryAfter(c, s, op, i) == q1.h
    ensures Outcome(c, s, op)
  {
    hide Inv, Abs, Safe, AllSafe, FullAfter, NodeOk, Perform, HistoryAfter, HistoryDone, Outcome, Grows,
         ClusterInv, Represents, ValidConfig, GoodTable;
    var n := op.n;
    var full := s.full[n] + [e];
    WriteFull(s.h.reigns, s.nodes[n].disk, m.disk, s.full[n], e, rest.writes);
    CrashBefore(c, s, op);
    var writes := [m.disk] + rest.writes;
    forall i: nat | i <= |writes|
      ensures CrashOk(c, s, op, i)
    {
      if i > 0 {
        assert writes[..i] == [m.disk] + rest.writes[..i - 1];
        WriteCrashes(c.configs.Keys, Abs(s), q1, n, m, rest.writes, full, i);
        assert DiskAfter(s.nodes[n].disk, writes, i) == DiskAfter(m.disk, rest.writes, i - 1);
      }
    }
    assert rest.writes[..|rest.writes|] == rest.writes;
    FinalOutcome(c, s, op, q);
  }

  lemma GoodAfter(ids: set<NodeId>, p: Proto, n: NodeId, ns: NodeState)
    requires Runs(ids, p, n, ns)
    ensures GoodTable(ns)
  {
    hide Inv;
    LogFacts(ids, p, n);
    RepresentsValid(ns.disk.log, p.replicas[n].log);
  }

  lemma WriteRuns1(ids: set<NodeId>, cfg: Config, p: Proto, n: NodeId, ns: NodeState, e: Entry)
    returns (m: NodeState, rest: Out<()>, q1: Proto, q: Proto)
    requires Runs(ids, p, n, ns) && ns.role == Leader && ValidConfig(ids, n, cfg)
    requires e.index == ns.disk.log.LastIndex() + 1 && e.term == ns.term && e.command.SetCommand?
    ensures ns.term in p.h.reigns && n in p.replicas && q1 == Extend(p, n, e)
    ensures m == AfterAppend(cfg, ns, e) && GoodTable(m)
    ensures rest == if cfg.Majority() == 1 then AdvanceCommit(cfg, m) else Out(m, (), [])
    ensures WriteRan(ids, p, q1, q, n, ns, p.replicas[n].log, e, m, rest)
  {
    hide Inv, Safe, AllSafe, FullAfter, AdvanceCommit, Grows, NodeOk;
    NodeParts(ns, p.replicas[n].log);
    m := AfterAppend(cfg, ns, e);
    WriteRuns(ids, p, n, ns, e);
    q1 := Extend(p, n, e);
    GoodAfter(ids, q1, n, m);
    if cfg.Majority() == 1 {
      q := AdvanceHandled(ids, cfg, q1, n, m);
      rest := AdvanceCommit(cfg, m);
    } else {
      NothingHandled(ids, q1, n, m);
      q := q1;
      rest := Out(m, (), []);
    }
  }

  lemma WriteOutcome(c: Setup, s: Cluster, op: Op)
    requires ClusterInv(c, s) && Enabled(c, s, op) && op.ClientWrite?
    ensures Outcome(c, s, op)
  {
    hide Inv, Abs, Safe, AllSafe, FullAfter, NodeOk, AdvanceCommit, Perform, HistoryAfter, HistoryDone,
         Outcome, Handled, Grows, ClusterInv, Represents, ValidConfig, WriteRan;
    var n := op.n;
    NodeRunning(c, s, n);
    if op.key == "" || s.nodes[n].role != Leader {
      WriteRefused(c, s, op);
      NothingHandled(c.configs.Keys, Abs(s), n, s.nodes[n]);
      PlainOutcome(c, s, op, Abs(s));
    } else {
      var e := Written(s, op);
      var m, rest, q1, q := WriteRuns1(c.configs.Keys, c.configs[n], Abs(s), n, s.nodes[n], e);
      WriteShape(c, s, op);
      WriteHistory(c, s, op, Abs(s));
      WriteEnds(c, s, op, e, m, rest, q1, q);
    }
  }
}
