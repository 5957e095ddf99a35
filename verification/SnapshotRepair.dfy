/**
 * Repair through a snapshot: where the leader has compacted away what a peer lacks, one exchange of a snapshot brings
 * the peer to the snapshot index, the leader goes on right behind it, and batches of entries do the rest.
 */
module SnapshotRepair {
  import opened RaftTypes
  import opened Logs
  import opened LogTables
  import opened Compaction
  import opened Disks
  import opened NodeSpec
  import opened Applying
  import opened Protocol
  import opened ProtocolActions
  import opened Clusters
  import opened NodeRuns
  import opened HandlerRuns
  import opened FollowerRuns
  import opened LeaderRuns
  import opened ClusterSafety
  import opened OldMatches
  import opened RaftSafety
  import opened RaftDurability
  import opened Compacting
  import opened Promptness
  import opened LogRepair

  // ----- what a leader does after the answer to a snapshot -----

  /**
   * After the answer to a snapshot at k, a leader that has not compacted beyond k sends the entries from k + 1 on, and
   * no snapshot again.
   */
  lemma ContinuesBehindSnapshot(cfg: Config, s: NodeState, peer: NodeId, k: nat, resp: InstallResponse)
    requires GoodTable(s) && s.role == Leader && resp.term <= s.term
    requires InstallReply(cfg, s, peer, k, resp).state.disk.log.snapIndex <= k <= s.disk.log.LastIndex()
    ensures var m := InstallReply(cfg, s, peer, k, resp).state;
            && GoodTable(m) && m.role == Leader && m.term == s.term && Get(m.matchIndex, peer) == k
            && var out := Replicate(cfg, m, peer);
            && out.state == m && out.reply.SendAppend? && out.reply.append.prevIndex == k
            && Some(out.reply.append.prevTerm) == m.disk.log.TermAt(k)
            && |out.reply.append.entries| == Min(BATCH_SIZE, m.disk.log.LastIndex() - k)
            && forall i :: 0 <= i < |out.reply.append.entries| ==>
                 Some(out.reply.append.entries[i]) == m.disk.log.EntryAt(k + 1 + i)
  {
    hide ApplyCommitted, HighestCommittable;
    var x := Recorded(s, peer, k);
    var mid := x.(commitIndex := HighestCommittable(cfg, x, x.commitIndex, x.disk.log.LastIndex()));
    ApplyKeeps(cfg, mid);
    TableStaysGood(cfg, mid);
  }

  lemma TableStaysGood(cfg: Config, s: NodeState)
    requires GoodTable(s)
    ensures GoodTable(ApplyCommitted(cfg, s).state)
  {
    hide ApplyLoop;
    ApplyLoopKeeps(s);
  }

  // ----- one exchange -----

  function SnapshotOf(s: Cluster, n: NodeId): InstallRequest
    requires n in s.nodes && n in s.full && s.nodes[n].disk.log.snapIndex <= |s.full[n]|
  {
    var k := s.nodes[n].disk.log.snapIndex;
    InstallRequest(s.nodes[n].term, n, k, TermOf(s.full[n], k), Image(Replay(s.full[n][..k])))
  }

  /** The next index for the peer is compacted away, and the peer's log does not go beyond the snapshot. */
  predicate NeedsSnapshot(s: Cluster, n: NodeId, peer: NodeId) {
    && n in s.nodes && n in s.full && peer in s.full
    && Probe(s, n, peer) < s.nodes[n].disk.log.snapIndex <= |s.full[n]|
    && |s.full[peer]| <= s.nodes[n].disk.log.snapIndex
  }

  function CallOf(s: Cluster, n: NodeId, peer: NodeId): Event
    requires NeedsSnapshot(s, n, peer)
  {
    Run(Deliver(InstallCall(n, peer, SnapshotOf(s, n))))
  }

  function AnswerOf(s: Cluster, n: NodeId, peer: NodeId): Event
    requires NeedsSnapshot(s, n, peer)
  {
    Run(Deliver(InstallAnswer(peer, n, s.nodes[n].term, s.nodes[n].disk.log.snapIndex,
                              InstallResponse(s.nodes[n].term))))
  }

  /** The leader sends its snapshot. */
  lemma OffersSnapshot(c: Setup, s: Cluster, n: NodeId, peer: NodeId)
    requires Repairing(c, s, n, peer) && NeedsSnapshot(s, n, peer)
    ensures CanHappen(c, s, SendEvent(n, peer))
    ensures var t := Next(c, s, SendEvent(n, peer));
            && t.nodes == s.nodes && t.full == s.full && ClusterInv(c, t) && s.msgs <= t.msgs
            && InstallCall(n, peer, SnapshotOf(s, n)) in t.msgs
  {
    hide Inv, Abs, NodeOk, HistoryAfter, HistoryDone, Replicate, ClusterInv, Common, NothingCounted, Sent;
    SendEnabled(c, s, n, peer);
    NodeRunning(c, s, n);
    NextKeeps(c, s, SendEvent(n, peer));
    LogFacts(c.configs.Keys, Abs(s), n);
    SendsOne(c.configs[n], s.nodes[n], peer, s.full[n]);
    SentIs(s, n, peer, Replicate(c.configs[n], s.nodes[n], peer).reply);
    InstallIs(c, s, n, peer);
  }

  lemma SentIs(s: Cluster, n: NodeId, peer: NodeId, reply: Sending)
    requires NeedsSnapshot(s, n, peer) && Probe(s, n, peer) >= 0
    requires Sent(s.nodes[n], s.full[n], n, Get(s.nodes[n].nextIndex, peer), reply)
    ensures reply == SendInstall(SnapshotOf(s, n))
  {
  }

  lemma InstallIs(c: Setup, s: Cluster, n: NodeId, peer: NodeId)
    requires CanHappen(c, s, SendEvent(n, peer)) && n in s.nodes && n in c.configs && GoodTable(s.nodes[n])
    requires Replicate(c.configs[n], s.nodes[n], peer).reply.SendInstall?
    requires Replicate(c.configs[n], s.nodes[n], peer).state == s.nodes[n]
    requires Replicate(c.configs[n], s.nodes[n], peer).writes == []
    ensures var t := Next(c, s, SendEvent(n, peer));
            && t.nodes == s.nodes && t.full == s.full && s.msgs <= t.msgs
            && InstallCall(n, peer, Replicate(c.configs[n], s.nodes[n], peer).reply.install) in t.msgs
  {
    hide Replicate, HistoryDone;
  }

  /** The peer's guard lets the snapshot through, because the peer's log does not go beyond it. */
  lemma TakesSnapshotEnabled(c: Setup, s: Cluster, n: NodeId, peer: NodeId)
    requires Repairing(c, s, n, peer) && NeedsSnapshot(s, n, peer)
    requires InstallCall(n, peer, SnapshotOf(s, n)) in s.msgs
    ensures CanHappen(c, s, CallOf(s, n, peer))
  {
    hide Inv, Abs, NodeOk, Common, NothingCounted, Perform;
    NodeRunning(c, s, peer);
    AtRest(c, s, peer);
    PeerEnds(c, s, peer);
  }

  /** The peer then has exactly the leader's log up to the snapshot. */
  lemma TakesSnapshot(c: Setup, s: Cluster, n: NodeId, peer: NodeId)
    requires Repairing(c, s, n, peer) && NeedsSnapshot(s, n, peer) && CanHappen(c, s, CallOf(s, n, peer))
    ensures var t := Next(c, s, CallOf(s, n, peer)); var k := s.nodes[n].disk.log.snapIndex;
            && ClusterInv(c, t) && t.nodes.Keys == s.nodes.Keys && t.full.Keys == s.full.Keys
            && t.nodes[n] == s.nodes[n] && t.full[n] == s.full[n] && Elsewhere(s, t, n, peer)
            && t.nodes[peer].term == s.nodes[n].term && Shared(t, n, peer) == |t.full[peer]| == k
            && AnswerOf(s, n, peer).op.m in t.msgs
  {
    hide Inv, Abs, NodeOk, Common, NothingCounted, Perform, HistoryDone, HistoryAfter, FullAfter, ClusterInv, Safe,
         AllSafe, InstallSnapshotCall, Enabled, InstallGuard, Elsewhere;
    var op := CallOf(s, n, peer).op;
    var t := Next(c, s, Run(op));
    var req := SnapshotOf(s, n);
    SnapshotArrives(c, s, n, peer);
    NextKeeps(c, s, Run(op));
    ElsewhereSame(c, s, t, n, peer);
    LeaderLog(c, s, n);
    var k := s.nodes[n].disk.log.snapIndex;
    CommonIsHighest(s.full[n], s.full[peer], k);
    SharedIs(s.full[n], t.full[peer], k);
  }

  lemma SnapshotArrives(c: Setup, s: Cluster, n: NodeId, peer: NodeId)
    requires Repairing(c, s, n, peer) && NeedsSnapshot(s, n, peer) && CanHappen(c, s, CallOf(s, n, peer))
    ensures var t := Next(c, s, CallOf(s, n, peer)); var req := SnapshotOf(s, n);
            && t.nodes.Keys == s.nodes.Keys && t.full.Keys == s.full.Keys
            && (forall q :: q in s.nodes && q != peer ==> t.nodes[q] == s.nodes[q])
            && (forall q :: q in s.full && q != peer ==> t.full[q] == s.full[q])
            && t.nodes[peer].term == req.term && req.term in s.h.reigns
            && Agree(t.full[peer], s.h.reigns[req.term].log, req.lastIndex)
            && (t.full[peer] == s.full[peer] || |t.full[peer]| == req.lastIndex)
            && AnswerOf(s, n, peer).op.m in t.msgs
  {
    hide Inv, Abs, NodeOk, Common, NothingCounted, Perform, HistoryDone, HistoryAfter, FullAfter, ClusterInv, Safe,
         AllSafe, InstallSnapshotCall, InstallOk, Runs;
    var op := CallOf(s, n, peer).op;
    var req := SnapshotOf(s, n);
    InstallCallShape(c, s, op);
    NodeRunning(c, s, peer);
    MessageTrue(c, s, op.m);
    InstallOkSame(c.configs.Keys, Abs(s), Abs(s), req);
    var q := InstallSnapshotHandled(c.configs.Keys, Abs(s), peer, s.nodes[peer], req);
    TermAfter(c.configs.Keys, Abs(s), q, peer, s.nodes[peer], req);
  }

  lemma TermAfter(ids: set<NodeId>, p: Proto, q: Proto, n: NodeId, ns: NodeState, req: InstallRequest)
    requires n in p.replicas && req.term >= ns.term && InstallSnapshotCall(ns, req).reply.Some?
    requires var out := InstallSnapshotCall(ns, req); Handled(ids, p, q, n, ns, out.state, out.writes)
    ensures InstallSnapshotCall(ns, req).state.term == req.term
    ensures q.replicas[n].log == FullAfter(p.h.reigns, p.replicas[n].log, InstallSnapshotCall(ns, req).writes)
  {
    hide Inv, Safe, AllSafe, FullAfter, NodeOk;
  }

  /** The answer moves the leader right behind the snapshot. */
  lemma LearnsSnapshot(c: Setup, s: Cluster, n: NodeId, peer: NodeId, k: nat)
    requires ClusterInv(c, s) && n in s.nodes && n in s.full && n in c.configs && n != peer
    requires s.nodes[n].role == Leader && NothingCounted(c.configs[n], s.nodes[n])
    requires InstallAnswer(peer, n, s.nodes[n].term, k, InstallResponse(s.nodes[n].term)) in s.msgs
    ensures var e := Run(Deliver(InstallAnswer(peer, n, s.nodes[n].term, k, InstallResponse(s.nodes[n].term))));
            && CanHappen(c, s, e)
            && var t := Next(c, s, e);
            && ClusterInv(c, t) && t.nodes.Keys == s.nodes.Keys && t.full == s.full && n in t.nodes
            && (forall q :: q in s.nodes && q != n ==> t.nodes[q] == s.nodes[q])
            && t.nodes[n].role == Leader && t.nodes[n].term == s.nodes[n].term
            && Get(t.nodes[n].matchIndex, peer) == k && Probe(t, n, peer) == k
            && (forall q :: q != peer ==>
                  Get(t.nodes[n].nextIndex, q) == Get(s.nodes[n].nextIndex, q)
                  && Get(t.nodes[n].matchIndex, q) == Get(s.nodes[n].matchIndex, q))
            && Advanced(c.configs[n], s.nodes[n], t.nodes[n], peer)
            && s.nodes[n].commitIndex <= t.nodes[n].commitIndex
  {
    hide Inv, Abs, NodeOk, NothingCounted, HistoryAfter, FullAfter, ClusterInv, Safe, AllSafe, InstallReply, Advanced,
         Rests, Runs, Backed;
    var m := InstallAnswer(peer, n, s.nodes[n].term, k, InstallResponse(s.nodes[n].term));
    NodeRunning(c, s, n);
    MessageTrue(c, s, m);
    AnswerArrives(c, s, n, peer, k);
    NextKeeps(c, s, Run(Deliver(m)));
    AtRest(c, s, n);
    AtRest(c, Next(c, s, Run(Deliver(m))), n);
    Recording(c.configs[n], s.nodes[n], peer, k);
  }

  lemma Recording(cfg: Config, ns: NodeState, peer: NodeId, k: nat)
    requires GoodTable(ns) && Rests(ns) && NothingCounted(cfg, ns) && ns.role == Leader
    requires Rests(InstallReply(cfg, ns, peer, k, InstallResponse(ns.term)).state)
    ensures var m := InstallReply(cfg, ns, peer, k, InstallResponse(ns.term)).state;
            && m.role == Leader && m.term == ns.term
            && m.matchIndex == ns.matchIndex[peer := k] && m.nextIndex == ns.nextIndex[peer := k + 1]
            && Advanced(cfg, ns, m, peer)
  {
    hide ApplyCommitted, HighestCommittable, NothingCounted, Advanced;
    var x := Recorded(ns, peer, k);
    ApplyKeeps(cfg, x.(commitIndex := HighestCommittable(cfg, x, x.commitIndex, x.disk.log.LastIndex())));
    AdvancedAfter(cfg, ns, x, peer);
  }

  lemma AnswerArrives(c: Setup, s: Cluster, n: NodeId, peer: NodeId, k: nat)
    requires ClusterInv(c, s) && n in s.nodes && n in s.full && n in c.configs && n != peer
    requires s.nodes[n].role == Leader && GoodTable(s.nodes[n])
    requires InstallAnswer(peer, n, s.nodes[n].term, k, InstallResponse(s.nodes[n].term)) in s.msgs
    ensures var resp := InstallResponse(s.nodes[n].term);
            var e := Run(Deliver(InstallAnswer(peer, n, s.nodes[n].term, k, resp)));
            && CanHappen(c, s, e)
            && Next(c, s, e).nodes == s.nodes[n := InstallReply(c.configs[n], s.nodes[n], peer, k, resp).state]
            && Next(c, s, e).full == s.full
  {
    hide Inv, Abs, NodeOk, NothingCounted, HistoryAfter, FullAfter, ClusterInv, Safe, AllSafe, InstallReply;
    var resp := InstallResponse(s.nodes[n].term);
    var m := InstallAnswer(peer, n, s.nodes[n].term, k, resp);
    NodeRunning(c, s, n);
    NodeParts(s.nodes[n], s.full[n]);
    MessageTrue(c, s, m);
    var q := InstallReplyHandled(c.configs.Keys, c.configs[n], Abs(s), n, s.nodes[n], peer, k, resp);
    LogAfter(c.configs.Keys, Abs(s), q, n, s.nodes[n], InstallReply(c.configs[n], s.nodes[n], peer, k, resp));
    assert s.full[n := s.full[n]] == s.full;
  }

  lemma LogAfter(ids: set<NodeId>, p: Proto, q: Proto, n: NodeId, ns: NodeState, out: Out<()>)
    requires n in p.replicas && Handled(ids, p, q, n, ns, out.state, out.writes)
    ensures q.replicas[n].log == FullAfter(p.h.reigns, p.replicas[n].log, out.writes)
  {
    hide Inv, Safe, AllSafe, FullAfter, NodeOk;
  }

  /** No snapshot is due at the leader, or a new one would be the one it has. */
  predicate KeepsSnapshot(c: Setup, s: Cluster, n: NodeId) {
    && n in s.nodes && n in c.configs
    && (Within(c.configs[n], s.nodes[n]) || s.nodes[n].commitIndex == s.nodes[n].disk.log.snapIndex)
  }

  /**
   * One exchange: the leader's snapshot goes out, is installed, and is answered. The two logs then share exactly the
   * snapshot's prefix, the leader probes there, and it still stores everything behind it.
   */
  lemma Exchange(c: Setup, s: Cluster, n: NodeId, peer: NodeId)
    returns (e: Event, s1: Cluster, e1: Event, s2: Cluster, e2: Event, t: Cluster)
    requires Repairing(c, s, n, peer) && NeedsSnapshot(s, n, peer) && KeepsSnapshot(c, s, n)
    ensures CanHappen(c, s, e) && s1 == Next(c, s, e)
    ensures CanHappen(c, s1, e1) && s2 == Next(c, s1, e1)
    ensures CanHappen(c, s2, e2) && t == Next(c, s2, e2)
    ensures e == SendEvent(n, peer) && e1 == CallOf(s, n, peer) && e2 == AnswerOf(s, n, peer)
    ensures Repairing(c, t, n, peer) && Serves(c, t, n, peer) && t.full[n] == s.full[n]
    ensures Probe(t, n, peer) == Shared(t, n, peer) == s.nodes[n].disk.log.snapIndex == t.nodes[n].disk.log.snapIndex
    ensures Elsewhere(s, t, n, peer)
  {
    hide Inv, Abs, NodeOk, ClusterInv, Common, CanHappen, Next, Perform, NothingCounted, Elsewhere, Rests;
    var k := s.nodes[n].disk.log.snapIndex;
    e := SendEvent(n, peer);
    OffersSnapshot(c, s, n, peer);
    s1 := Next(c, s, e);
    assert Repairing(c, s1, n, peer) && NeedsSnapshot(s1, n, peer) && SnapshotOf(s1, n) == SnapshotOf(s, n);
    e1 := CallOf(s, n, peer);
    TakesSnapshotEnabled(c, s1, n, peer);
    s2 := Next(c, s1, e1);
    TakesSnapshot(c, s1, n, peer);
    e2 := AnswerOf(s, n, peer);
    LearnsSnapshot(c, s2, n, peer, k);
    t := Next(c, s2, e2);
    ElsewhereSame(c, s, s1, n, peer);
    ElsewhereTrans(s, s1, s2, n, peer);
    ElsewhereOnly(c, s2, t, n, peer);
    ElsewhereTrans(s, s2, t, n, peer);
    AfterExchange(c, s2, t, n, peer, k);
  }

  lemma ElsewhereOnly(c: Setup, s: Cluster, t: Cluster, n: NodeId, peer: NodeId)
    requires ClusterInv(c, s) && n in s.nodes && n in t.nodes && t.nodes.Keys == s.nodes.Keys && t.full == s.full
    requires forall q :: q in s.nodes && q != n ==> t.nodes[q] == s.nodes[q]
    requires t.nodes[n].term == s.nodes[n].term
    requires forall q :: q != peer ==>
               Get(t.nodes[n].nextIndex, q) == Get(s.nodes[n].nextIndex, q)
               && Get(t.nodes[n].matchIndex, q) == Get(s.nodes[n].matchIndex, q)
    ensures Elsewhere(s, t, n, peer)
  {
    hide ClusterInv;
    KeysAgree(c, s);
  }

  lemma AfterExchange(c: Setup, s: Cluster, t: Cluster, n: NodeId, peer: NodeId, k: nat)
    requires ClusterInv(c, t) && n in t.nodes && n in t.full && peer in t.nodes && peer in t.full && n in c.configs
    requires n in s.nodes && n != peer && s.nodes[n].disk.log.snapIndex == k && KeepsSnapshot(c, s, n)
    requires ClusterInv(c, s) && Advanced(c.configs[n], s.nodes[n], t.nodes[n], peer)
    requires t.nodes[n].role == Leader && t.nodes[peer].term <= t.nodes[n].term
    requires Get(t.nodes[n].matchIndex, peer) == k == Probe(t, n, peer) == Shared(t, n, peer) == |t.full[peer]|
    requires s.nodes[n].commitIndex <= t.nodes[n].commitIndex
    ensures Repairing(c, t, n, peer) && Serves(c, t, n, peer) && t.nodes[n].disk.log.snapIndex == k
  {
    hide Inv, Abs, NodeOk, ClusterInv, Common, NothingCounted;
    AtRest(c, s, n);
    AtRest(c, t, n);
    AtRest(c, t, peer);
    PeerEnds(c, t, peer);
    CommonIsHighest(t.full[n], t.full[peer], k);
  }

  // ----- the whole repair -----

  /** The failing rounds down to the snapshot, one round each index. */
  lemma {:induction false} FailsToSnapshot(c: Setup, states: seq<Cluster>, events: seq<Event>, n: NodeId, peer: NodeId)
    returns (after: seq<Cluster>, so: seq<Event>)
    requires IsRun(c, states, events) && |states| == |events| + 1 && Repairing(c, states[|events|], n, peer)
    requires var s := states[|events|];
             && n in s.nodes && n in s.full && peer in s.full && KeepsSnapshot(c, s, n)
             && Shared(s, n, peer) < s.nodes[n].disk.log.snapIndex <= |s.full[n]|
             && |s.full[peer]| <= s.nodes[n].disk.log.snapIndex
    ensures IsRun(c, after, so) && |after| == |so| + 1 && states <= after && events <= so
    ensures var s := states[|events|]; var t := after[|so|];
            && Repairing(c, t, n, peer) && NeedsSnapshot(t, n, peer) && KeepsSnapshot(c, t, n)
            && t.full[n] == s.full[n] && t.nodes[n].disk.log == s.nodes[n].disk.log && Elsewhere(s, t, n, peer)
            && |so| == |events| + 3 * DownTo(s, n, peer)
    decreases DownTo(states[|events|], n, peer)
  {
    hide Repairing, IsRound, Common, IsRun, Next, CanHappen, NothingCounted, Elsewhere, CommitsOwn, Serves;
    var s := states[|events|];
    RepairingParts(c, s, n, peer);
    if Probe(s, n, peer) < s.nodes[n].disk.log.snapIndex {
      StaysElsewhere(c, s, n, peer);
      after, so := states, events;
    } else {
      var e, s1, e1, s2, e2, t := RoundCanHappen(c, s, n, peer);
      RoundStep(c, s, e, s1, e1, s2, e2, t, n, peer);
      RepairingParts(c, t, n, peer);
      var x, y := RunGoesOn(c, states, events, e);
      x, y := RunGoesOn(c, x, y, e1);
      x, y := RunGoesOn(c, x, y, e2);
      after, so := FailsToSnapshot(c, x, y, n, peer);
      ElsewhereTrans(s, t, after[|so|], n, peer);
    }
  }

  /** How many probes the leader makes at or above its snapshot. */
  function DownTo(s: Cluster, n: NodeId, peer: NodeId): nat {
    if n in s.nodes && Probe(s, n, peer) >= s.nodes[n].disk.log.snapIndex
    then Probe(s, n, peer) - s.nodes[n].disk.log.snapIndex + 1 else 0
  }

  /**
   * Repair through a snapshot is never blocked: where the leader has compacted away what the peer lacks, and the peer's
   * log ends at the snapshot or before it, a run can go on with one failing round for each index that the next index is
   * above the snapshot, one exchange of the snapshot, and one round for each batch of entries behind it. The peer's log
   * then agrees with the leader's whole log.
   */
  lemma SnapshotRepairCanHappen(c: Setup, states: seq<Cluster>, events: seq<Event>, n: NodeId, peer: NodeId)
    returns (after: seq<Cluster>, so: seq<Event>)
    requires ValidSetup(c) && IsRun(c, states, events) && |states| == |events| + 1
    requires ReadyToRepair(states[|events|], n, peer) && KeepsSnapshot(c, states[|events|], n)
    requires var s := states[|events|];
             |s.full[peer]| <= s.nodes[n].disk.log.snapIndex && Shared(s, n, peer) < s.nodes[n].disk.log.snapIndex
    ensures IsRun(c, after, so) && |after| == |so| + 1 && states <= after && events <= so
    ensures var s := states[|events|]; var t := after[|so|]; var k := s.nodes[n].disk.log.snapIndex;
            && n in t.full && peer in t.full && k <= |s.full[n]|
            && t.full[n] == s.full[n] && Agree(t.full[n], t.full[peer], |t.full[n]|)
            && |so| == |events| + 3 * DownTo(s, n, peer) + 3 + 3 * ((|s.full[n]| - k + BATCH_SIZE - 1) / BATCH_SIZE)
  {
    hide ClusterInv, Common, Repairing, IsRun, ValidSetup, Serves, Next, CanHappen, NothingCounted, Elsewhere,
         CommitsOwn, CountedUp;
    var s := states[|events|];
    RunInv(c, states, events, |events|);
    CountsNothing(c, states, events, |events|, n);
    StartsRepairing(c, s, n, peer);
    SnapshotInside(c, s, n);
    var x, y := FailsToSnapshot(c, states, events, n, peer);
    var e, s1, e1, s2, e2, t := Exchange(c, x[|y|], n, peer);
    x, y := RunGoesOn(c, x, y, e);
    x, y := RunGoesOn(c, x, y, e1);
    x, y := RunGoesOn(c, x, y, e2);
    RepairingParts(c, t, n, peer);
    after, so := GoOn(c, x, y, n, peer, RoundsNeeded(Probe(t, n, peer), Shared(t, n, peer), |t.full[n]|));
  }

  lemma SnapshotInside(c: Setup, s: Cluster, n: NodeId)
    requires ClusterInv(c, s) && n in s.nodes && n in s.full
    ensures s.nodes[n].disk.log.snapIndex <= |s.full[n]|
  {
    hide Inv, Abs, NodeOk;
    NodeRunning(c, s, n);
    NodeParts(s.nodes[n], s.full[n]);
  }
}
