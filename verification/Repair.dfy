/**
 * Log repair: how a leader and one peer come to agree. A round is one attempt of the replication loop with a single
 * call in flight: the request is sent, the peer handles it, and the leader handles the answer.
 */
module LogRepair {
  import opened RaftTypes
  import opened Logs
  import opened LogTables
  import opened Compaction
  import opened Disks
  import opened NodeSpec
  import opened Applying
  import opened Protocol
  import opened ProtocolActions
  import opened Clusters
  import opened NodeRuns
  import opened FollowerRuns
  import opened LeaderRuns
  import opened ClusterSafety
  import opened OldMatches
  import opened Compacting
  import opened Promptness
  import opened RaftSafety
  import opened RaftDurability

  // ----- how far two logs agree -----

  function CommonFrom(a: seq<Entry>, b: seq<Entry>, i: nat): (k: nat)
    requires Agree(a, b, i)
    ensures Agree(a, b, k) && !Agree(a, b, k + 1)
    decreases |a| - i
  {
    if i < |a| && i < |b| && a[i] == b[i] then CommonFrom(a, b, i + 1) else i
  }

  /** The highest index up to which two logs agree. */
  function Common(a: seq<Entry>, b: seq<Entry>): (k: nat)
    ensures Agree(a, b, k) && !Agree(a, b, k + 1)
  {
    CommonFrom(a, b, 0)
  }

  lemma CommonIsHighest(a: seq<Entry>, b: seq<Entry>, k: nat)
    ensures Agree(a, b, k) <==> k <= Common(a, b)
  {
  }

  // ----- what the handlers do to the fields that a round looks at -----

  lemma RejectedOut(cfg: Config, s: NodeState, req: AppendRequest)
    requires GoodTable(s) && Contiguous(req.prevIndex, req.entries) && req.term >= s.term && !Accepts(s, req)
    ensures var out := AppendEntries(cfg, s, req);
            && !out.reply.success && out.reply.term == req.term && out.state.term == req.term
            && out.state.commitIndex == s.commitIndex
            && forall i :: 0 <= i < |out.writes| ==> out.writes[i].log == s.disk.log
  {
  }

  lemma AcceptedOut(cfg: Config, s: NodeState, req: AppendRequest)
    requires GoodTable(s) && Accepts(s, req) && AppendGuard(cfg, s, req)
    ensures var out := AppendEntries(cfg, s, req); var end := req.prevIndex + |req.entries|;
            && out.reply == AppendResponse(req.term, true, end) && out.state.term == req.term
            && out.state.commitIndex
               <= Max(s.commitIndex, Min(req.leaderCommit, s.disk.log.Merge(req.entries).LastIndex()))
            && out.state.disk.log.LastIndex() == s.disk.log.Merge(req.entries).LastIndex()
  {
    hide ApplyCommitted, MergeWrites, LogTable.Merge;
    var s1 := (if req.term > s.term || s.role != Follower then StepDown(s, req.term) else Out(s, (), [])).state;
    MergeValid(s.disk.log, req.entries);
    var s2 := s1.(disk := s1.disk.(log := s1.disk.log.Merge(req.entries)));
    ApplyKeeps(cfg, s2.(commitIndex := FollowerCommit(s2, req.leaderCommit)));
  }

  lemma ReplyOut(cfg: Config, s: NodeState, peer: NodeId, lastSent: nat, resp: AppendResponse)
    requires GoodTable(s) && s.role == Leader && resp.term == s.term && Get(s.nextIndex, peer) > 0
    requires !resp.success ==> Get(s.nextIndex, peer) > 1
    requires Rests(s) && NothingCounted(cfg, s) && Rests(AppendReply(cfg, s, peer, s.term, lastSent, resp).state)
    ensures var m := AppendReply(cfg, s, peer, s.term, lastSent, resp).state;
            && m.role == Leader && m.term == s.term
            && Get(m.matchIndex, peer) ==
                 (if resp.success then Max(Get(s.matchIndex, peer), Max(resp.matchIndex, lastSent))
                  else Get(s.matchIndex, peer))
            && Get(m.nextIndex, peer)
               == (if resp.success then Get(m.matchIndex, peer) + 1 else Get(s.nextIndex, peer) - 1)
            && (forall q :: q != peer ==> Get(m.nextIndex, q) == Get(s.nextIndex, q)
                                          && Get(m.matchIndex, q) == Get(s.matchIndex, q))
            && (if resp.success then Advanced(cfg, s, m, peer) else m == s.(nextIndex := m.nextIndex))
  {
    hide ApplyCommitted, HighestCommittable, NothingCounted;
    if resp.success {
      var k := Max(Get(s.matchIndex, peer), Max(resp.matchIndex, lastSent));
      var matched := if k > Get(s.matchIndex, peer) then s.matchIndex[peer := k] else s.matchIndex;
      var m := s.(matchIndex := matched, nextIndex := s.nextIndex[peer := k + 1]);
      ApplyKeeps(cfg, m.(commitIndex := HighestCommittable(cfg, m, m.commitIndex, m.disk.log.LastIndex())));
      AdvancedAfter(cfg, s, m, peer);
    }
  }

  // ----- one round -----

  /** The leader's next index for the peer, less one: the index that the next request is checked at. */
  function Probe(s: Cluster, n: NodeId, peer: NodeId): int
    requires n in s.nodes
  {
    Get(s.nodes[n].nextIndex, peer) - 1
  }

  function Shared(s: Cluster, n: NodeId, peer: NodeId): nat
    requires n in s.full && peer in s.full
  {
    Common(s.full[n], s.full[peer])
  }

  /** A leader that is looking for the point where the peer's log parts from its own, or has found it. */
  ghost predicate Repairing(c: Setup, s: Cluster, n: NodeId, peer: NodeId) {
    && ClusterInv(c, s) && n in s.nodes && n in s.full && peer in s.nodes && peer in s.full && n != peer
    && s.nodes[n].role == Leader && s.nodes[peer].term <= s.nodes[n].term
    && Shared(s, n, peer) <= Probe(s, n, peer) <= |s.full[n]|
    && Get(s.nodes[n].matchIndex, peer) <= Shared(s, n, peer) && s.nodes[peer].commitIndex <= Shared(s, n, peer)
    && n in c.configs && NothingCounted(c.configs[n], s.nodes[n])
  }

  /** The leader has not compacted away what it would send next. */
  predicate Offers(s: Cluster, n: NodeId, peer: NodeId) {
    n in s.nodes && s.nodes[n].disk.log.snapIndex <= Probe(s, n, peer)
  }

  /** The leader has not compacted away what the peer still lacks. */
  predicate StillStored(s: Cluster, n: NodeId, peer: NodeId) {
    && n in s.nodes && n in s.full && peer in s.full
    && s.nodes[n].disk.log.snapIndex <= Shared(s, n, peer)
  }

  /** It will not do so either: a snapshot is not due, or would not go beyond what the peer has. */
  predicate Serves(c: Setup, s: Cluster, n: NodeId, peer: NodeId) {
    && StillStored(s, n, peer) && n in c.configs
    && (s.nodes[n].commitIndex <= Shared(s, n, peer) || Within(c.configs[n], s.nodes[n]))
  }

  /** The request that a leader sends when it probes at prev. */
  function RequestAt(s: Cluster, n: NodeId, prev: nat): AppendRequest
    requires n in s.nodes && n in s.full && prev <= |s.full[n]|
  {
    var log := s.full[n];
    AppendRequest(s.nodes[n].term, n, prev, TermOf(log, prev), log[prev..Min(|log|, prev + BATCH_SIZE)],
                  s.nodes[n].commitIndex)
  }

  /** Between two states, nothing has changed for other peers. */
  predicate Elsewhere(s: Cluster, t: Cluster, n: NodeId, peer: NodeId)
    requires n in s.nodes && n in t.nodes
  {
    && t.nodes.Keys == s.nodes.Keys && t.nodes[n].term == s.nodes[n].term
    && forall q :: q in s.nodes && q != n && q != peer ==>
         && t.nodes[q] == s.nodes[q] && q in s.full && q in t.full && t.full[q] == s.full[q]
         && Get(t.nodes[n].nextIndex, q) == Get(s.nodes[n].nextIndex, q)
         && Get(t.nodes[n].matchIndex, q) == Get(s.nodes[n].matchIndex, q)
  }

  /** Since then the leader has committed nothing but entries of its own term. */
  predicate CommitsOwn(s: Cluster, t: Cluster, n: NodeId) {
    && n in s.nodes && n in t.nodes && n in t.full
    && var k := t.nodes[n].commitIndex;
    k == s.nodes[n].commitIndex || (0 < k <= |t.full[n]| && t.full[n][k - 1].term == s.nodes[n].term)
  }

  /** Everything that the leader counts, it has committed; and the peer is counted for all that it was sent. */
  predicate CountedUp(c: Setup, t: Cluster, n: NodeId, peer: NodeId) {
    && n in t.nodes && n in c.configs
    && Get(t.nodes[n].matchIndex, peer) == Probe(t, n, peer)
    && NothingCounted(c.configs[n], t.nodes[n])
  }

  function SendEvent(n: NodeId, peer: NodeId): Event { Run(ReplicateTo(n, peer)) }

  function CallEvent(s: Cluster, n: NodeId, peer: NodeId): Event
    requires n in s.nodes && n in s.full && 0 <= Probe(s, n, peer) <= |s.full[n]|
  {
    Run(Deliver(AppendCall(n, peer, RequestAt(s, n, Probe(s, n, peer)))))
  }

  function AnswerEvent(n: NodeId, peer: NodeId, req: AppendRequest, resp: AppendResponse): Event {
    Run(Deliver(AppendAnswer(peer, n, req.term, req.prevIndex + |req.entries|, resp)))
  }

  lemma SendStep(c: Setup, s: Cluster, n: NodeId, peer: NodeId)
    requires Repairing(c, s, n, peer) && Offers(s, n, peer) && CanHappen(c, s, SendEvent(n, peer))
    ensures var t := Next(c, s, SendEvent(n, peer)); var req := RequestAt(s, n, Probe(s, n, peer));
            && t.nodes == s.nodes && t.full == s.full && ClusterInv(c, t)
            && Replicate(c.configs[n], s.nodes[n], peer).reply == SendAppend(req, req.prevIndex + |req.entries|)
            && Perform(c, s, ReplicateTo(n, peer)).sends == {AppendCall(n, peer, req)}
            && t.msgs == s.msgs + {AppendCall(n, peer, req)}
  {
    hide Inv, Abs, NodeOk, HistoryAfter, HistoryDone, Replicate, ClusterInv, Common;
    NodeRunning(c, s, n);
    NextKeeps(c, s, SendEvent(n, peer));
    LogFacts(c.configs.Keys, Abs(s), n);
    NodeParts(s.nodes[n], s.full[n]);
    SendIs(c.configs[n], s.nodes[n], peer, s.full[n]);
    ReplicateIs(c, s, n, peer);
  }

  lemma ReplicateIs(c: Setup, s: Cluster, n: NodeId, peer: NodeId)
    requires CanHappen(c, s, SendEvent(n, peer))
    requires Replicate(c.configs[n], s.nodes[n], peer).reply.SendAppend?
    requires Replicate(c.configs[n], s.nodes[n], peer).state == s.nodes[n]
    requires Replicate(c.configs[n], s.nodes[n], peer).writes == []
    ensures var t := Next(c, s, SendEvent(n, peer));
            && t.nodes == s.nodes && t.full == s.full
            && Perform(c, s, ReplicateTo(n, peer)).sends
               == {AppendCall(n, peer, Replicate(c.configs[n], s.nodes[n], peer).reply.append)}
            && t.msgs == s.msgs + {AppendCall(n, peer, Replicate(c.configs[n], s.nodes[n], peer).reply.append)}
  {
    hide Replicate, HistoryDone;
  }

  /** A leader's log is the log of its reign. */
  lemma LeaderLog(c: Setup, s: Cluster, n: NodeId)
    requires ClusterInv(c, s) && n in s.nodes && n in s.full && s.nodes[n].role == Leader
    ensures s.nodes[n].term in s.h.reigns && s.h.reigns[s.nodes[n].term].log == s.full[n]
    ensures Numbered(s.full[n]) && Rooted(s.h.reigns, s.full[n])
  {
    hide Inv, NodeOk, Abs;
    NodeRunning(c, s, n);
    LeaderFacts(c.configs.Keys, Abs(s), n);
    LogFacts(c.configs.Keys, Abs(s), n);
  }

  /** The peer accepts a probe exactly up to where the two logs agree. */
  lemma AcceptsUpToShared(c: Setup, s: Cluster, n: NodeId, peer: NodeId)
    requires Repairing(c, s, n, peer)
    ensures Accepts(s.nodes[peer], RequestAt(s, n, Probe(s, n, peer))) <==> Probe(s, n, peer) <= Shared(s, n, peer)
  {
    hide Inv, NodeOk, Abs, ClusterInv, Common, Rooted;
    LeaderLog(c, s, n);
    NodeRunning(c, s, peer);
    LogFacts(c.configs.Keys, Abs(s), peer);
    var mine := s.full[n];
    var log := s.full[peer];
    var prev: nat := Probe(s, n, peer);
    NodeParts(s.nodes[peer], log);
    TermAtAgrees(s.nodes[peer].disk.log, log, prev);
    CommonIsHighest(mine, log, prev);
    if prev <= |log| && TermOf(log, prev) == TermOf(mine, prev) {
      RootedMatch(s.h.reigns, mine, log, prev);
    }
  }

  lemma CallEnabled(c: Setup, s: Cluster, n: NodeId, peer: NodeId, req: AppendRequest)
    requires ClusterInv(c, s) && CanHappen(c, s, Run(Deliver(AppendCall(n, peer, req))))
    ensures n in c.configs && peer in c.configs && n != peer && peer in s.nodes && peer in s.full
    ensures GoodTable(s.nodes[peer]) && AppendGuard(c.configs[peer], s.nodes[peer], req)
    ensures AppendCall(n, peer, req) in s.msgs
  {
    hide Inv, NodeOk, Abs, Perform;
    MessageTrue(c, s, AppendCall(n, peer, req));
    NodeRunning(c, s, peer);
  }

  /** Delivering the request: only the peer changes. */
  lemma CallIs(c: Setup, s: Cluster, n: NodeId, peer: NodeId, req: AppendRequest)
    requires ClusterInv(c, s) && CanHappen(c, s, Run(Deliver(AppendCall(n, peer, req))))
    requires peer in s.nodes && peer in s.full && GoodTable(s.nodes[peer])
    requires AppendGuard(c.configs[peer], s.nodes[peer], req)
    ensures var t := Next(c, s, Run(Deliver(AppendCall(n, peer, req))));
            var out := AppendEntries(c.configs[peer], s.nodes[peer], req);
            && t.nodes == s.nodes[peer := out.state]
            && t.full == s.full[peer := FullAfter(s.h.reigns, s.full[peer], out.writes)]
            && Perform(c, s, Deliver(AppendCall(n, peer, req))).sends ==
                 {AppendAnswer(peer, n, req.term, req.prevIndex + |req.entries|, out.reply)}
            && t.msgs == s.msgs + {AppendAnswer(peer, n, req.term, req.prevIndex + |req.entries|, out.reply)}
  {
    hide AppendEntries, FullAfter, ClusterInv, HistoryAfter, HistoryDone, Perform, AppendGuard;
    AppendCallShape(c, s, Deliver(AppendCall(n, peer, req)));
  }

  /** An accepted request makes the peer's log agree with the leader's up to its end. */
  lemma CallAgrees(c: Setup, s: Cluster, n: NodeId, peer: NodeId, req: AppendRequest)
    requires ClusterInv(c, s) && CanHappen(c, s, Run(Deliver(AppendCall(n, peer, req))))
    requires peer in s.nodes && peer in s.full && GoodTable(s.nodes[peer])
    requires AppendGuard(c.configs[peer], s.nodes[peer], req)
    requires Accepts(s.nodes[peer], req)
    ensures var out := AppendEntries(c.configs[peer], s.nodes[peer], req);
            && req.term in s.h.reigns
            && Agree(FullAfter(s.h.reigns, s.full[peer], out.writes), s.h.reigns[req.term].log,
                     req.prevIndex + |req.entries|)
  {
    hide Inv, Safe, AllSafe, FullAfter, NodeOk, Abs, AppendEntries, AppendOk, Accepts, ClusterInv, Enabled,
         AppendGuard;
    CallEnabled(c, s, n, peer, req);
    NodeRunning(c, s, peer);
    MessageTrue(c, s, AppendCall(n, peer, req));
    AppendTerm(c.configs.Keys, Abs(s), req);
    var q := AppendEntriesHandled(c.configs.Keys, c.configs[peer], Abs(s), peer, s.nodes[peer], req);
    AcceptedOut(c.configs[peer], s.nodes[peer], req);
  }

  /** The peer's side of a round. */
  lemma CallStep(c: Setup, s: Cluster, n: NodeId, peer: NodeId)
    requires Repairing(c, s, n, peer) && CanHappen(c, s, CallEvent(s, n, peer))
    ensures var req := RequestAt(s, n, Probe(s, n, peer)); var end := req.prevIndex + |req.entries|;
            var t := Next(c, s, CallEvent(s, n, peer));
            && n in c.configs && peer in c.configs && GoodTable(s.nodes[peer]) && Contiguous(req.prevIndex, req.entries)
            && var resp := AppendEntries(c.configs[peer], s.nodes[peer], req).reply;
            && ClusterInv(c, t) && t.nodes.Keys == s.nodes.Keys && t.full.Keys == s.full.Keys
            && t.nodes[n] == s.nodes[n] && t.full[n] == s.full[n] && Elsewhere(s, t, n, peer)
            && t.nodes[peer].term == s.nodes[n].term && resp.term == s.nodes[n].term
            && Perform(c, s, CallEvent(s, n, peer).op).sends == {AppendAnswer(peer, n, req.term, end, resp)}
            && AppendAnswer(peer, n, req.term, end, resp) in t.msgs
            && (resp.success <==> Probe(s, n, peer) == Shared(s, n, peer))
            && (resp.success ==>
                  resp.matchIndex == end == Shared(t, n, peer) && t.nodes[peer].commitIndex <= end)
            && (!resp.success ==>
                  t.full[peer] == s.full[peer] && t.nodes[peer].commitIndex == s.nodes[peer].commitIndex)
  {
    hide Inv, Abs, NodeOk, AppendEntries, FullAfter, ClusterInv, HistoryDone, HistoryAfter, Common,
         AppendGuard, Accepts, Perform, Enabled, Rooted, NothingCounted, Elsewhere;
    var req := RequestAt(s, n, Probe(s, n, peer));
    CallEnabled(c, s, n, peer, req);
    assert Contiguous(req.prevIndex, req.entries) by { GuardParts(c.configs[peer], s.nodes[peer], req); }
    CallIs(c, s, n, peer, req);
    NextKeeps(c, s, CallEvent(s, n, peer));
    AcceptsUpToShared(c, s, n, peer);
    LeaderLog(c, s, n);
    ElsewhereSame(c, s, Next(c, s, CallEvent(s, n, peer)), n, peer);
    if Accepts(s.nodes[peer], req) {
      CallAgrees(c, s, n, peer, req);
      AcceptedOut(c.configs[peer], s.nodes[peer], req);
      LeavesNothing(c, s, n, peer);
      PeerEnds(c, Next(c, s, CallEvent(s, n, peer)), peer);
      SharedIs(s.full[n], Next(c, s, CallEvent(s, n, peer)).full[peer], req.prevIndex + |req.entries|);
    } else {
      RejectedOut(c.configs[peer], s.nodes[peer], req);
      SameLogFull(c, s, peer, AppendEntries(c.configs[peer], s.nodes[peer], req).writes);
    }
  }

  lemma PeerEnds(c: Setup, s: Cluster, peer: NodeId)
    requires ClusterInv(c, s) && peer in s.nodes && peer in s.full
    ensures s.nodes[peer].disk.log.LastIndex() == |s.full[peer]|
  {
    hide Inv, Abs, NodeOk;
    NodeRunning(c, s, peer);
    NodeParts(s.nodes[peer], s.full[peer]);
    LastAgrees(s.nodes[peer].disk.log, s.full[peer]);
  }

  lemma SharedIs(a: seq<Entry>, b: seq<Entry>, k: nat)
    requires Agree(a, b, k) && (k == |a| || k == |b|)
    ensures Common(a, b) == k
  {
    CommonIsHighest(a, b, k);
  }

  /** Entries that part from the log at once replace everything behind them. */
  lemma MergeEnds(t: LogTable, log: seq<Entry>, source: seq<Entry>, prev: nat, entries: seq<Entry>)
    requires Represents(t, log) && Numbered(log) && Numbered(source) && Matching(log, source)
    requires CutFrom(source, prev, entries) && t.snapIndex <= prev && Agree(log, source, prev)
    requires entries != [] && !Agree(log, source, prev + 1)
    ensures Mergeable(t, entries) && t.Merge(entries).LastIndex() == prev + |entries|
  {
    hide LogTable.Merge, LogTable.FirstDifference, MergeFull;
    MergeRefines(t, log, source, prev, entries);
    MergeRepresents(t, log, entries);
  }

  /** At the shared prefix nothing behind the carried entries survives, so the request vouches for what it commits. */
  lemma LeavesNothing(c: Setup, s: Cluster, n: NodeId, peer: NodeId)
    requires Repairing(c, s, n, peer) && Probe(s, n, peer) == Shared(s, n, peer)
    ensures var req := RequestAt(s, n, Probe(s, n, peer)); var end := req.prevIndex + |req.entries|;
            && Contiguous(req.prevIndex, req.entries)
            && Mergeable(s.nodes[peer].disk.log, req.entries) && CommitGuard(s.nodes[peer], req)
            && (end == |s.full[n]| || s.nodes[peer].disk.log.Merge(req.entries).LastIndex() == end)
            && end <= |s.full[n]| && req.leaderCommit <= |s.full[n]|
  {
    hide Inv, NodeOk, Abs, ClusterInv, Common, Rooted, LogTable.Merge, NothingCounted, SenderHasLog;
    LeaderLog(c, s, n);
    NodeRunning(c, s, n);
    NodeRunning(c, s, peer);
    LogFacts(c.configs.Keys, Abs(s), peer);
    CommitInRange(c.configs.Keys, Abs(s), n);
    var mine := s.full[n];
    var log := s.full[peer];
    var prev := Shared(s, n, peer);
    NodeParts(s.nodes[peer], log);
    CommitInRange(c.configs.Keys, Abs(s), peer);
    var req := RequestAt(s, n, prev);
    forall k: nat | k <= |log| && k <= |mine| && TermOf(log, k) == TermOf(mine, k)
      ensures Agree(log, mine, k)
    {
      RootedMatch(s.h.reigns, log, mine, k);
    }
    if req.entries != [] {
      assert !Agree(log, mine, prev + 1);
      MergeEnds(s.nodes[peer].disk.log, log, mine, prev, req.entries);
    }
  }

  lemma GuardParts(cfg: Config, s: NodeState, req: AppendRequest)
    requires AppendGuard(cfg, s, req)
    ensures Contiguous(req.prevIndex, req.entries)
  {
  }

  /** The leader's side of a round: its log stays, and its next index moves by the answer. */
  lemma AnswerStep(c: Setup, s: Cluster, n: NodeId, peer: NodeId, req: AppendRequest, resp: AppendResponse)
    requires ClusterInv(c, s) && CanHappen(c, s, AnswerEvent(n, peer, req, resp))
    requires n in s.nodes && n in s.full && s.nodes[n].role == Leader && n != peer && peer in s.nodes && peer in s.full
    requires req.term == s.nodes[n].term == resp.term && Get(s.nodes[n].nextIndex, peer) > 0
    requires !resp.success ==> Get(s.nodes[n].nextIndex, peer) > 1
    requires n in c.configs && NothingCounted(c.configs[n], s.nodes[n])
    ensures var t := Next(c, s, AnswerEvent(n, peer, req, resp)); var end := req.prevIndex + |req.entries|;
            && ClusterInv(c, t) && t.nodes.Keys == s.nodes.Keys && t.full.Keys == s.full.Keys
            && t.nodes[peer] == s.nodes[peer] && t.full[peer] == s.full[peer] && t.full[n] == s.full[n]
            && t.nodes[n].role == Leader && t.nodes[n].term == s.nodes[n].term && Elsewhere(s, t, n, peer)
            && (resp.success ==> CountedUp(c, t, n, peer)) && NothingCounted(c.configs[n], t.nodes[n])
            && CommitsOwn(s, t, n)
            && (if resp.success then Advanced(c.configs[n], s.nodes[n], t.nodes[n], peer)
                else t.nodes[n] == s.nodes[n].(nextIndex := t.nodes[n].nextIndex))
            && var m := Get(s.nodes[n].matchIndex, peer);
            && Get(t.nodes[n].matchIndex, peer) == (if resp.success then Max(m, Max(resp.matchIndex, end)) else m)
            && Probe(t, n, peer) == (if resp.success then Get(t.nodes[n].matchIndex, peer) else Probe(s, n, peer) - 1)
  {
    hide Inv, Abs, NodeOk, AppendReply, FullAfter, ClusterInv, HistoryAfter, Enabled, Rooted, NothingCounted, Rests,
         Within;
    var e := AnswerEvent(n, peer, req, resp);
    NextKeeps(c, s, e);
    AnswerIs(c, s, n, peer, req, resp);
    AtRest(c, s, n);
    AtRest(c, Next(c, s, e), n);
    ReplyOut(c.configs[n], s.nodes[n], peer, req.prevIndex + |req.entries|, resp);
    LeaderLog(c, s, n);
    LeaderLog(c, Next(c, s, e), n);
    KeysAgree(c, s);
    KeysAgree(c, Next(c, s, e));
    if resp.success {
      AdvancedCommitsOwn(c, s, Next(c, s, e), n, peer);
    } else {
      SameCounts(c.configs[n], s.nodes[n], Next(c, s, e).nodes[n]);
    }
  }

  lemma AdvancedCommitsOwn(c: Setup, s: Cluster, t: Cluster, n: NodeId, peer: NodeId)
    requires ClusterInv(c, s) && ClusterInv(c, t) && n in s.nodes && n in t.nodes && n in s.full && n in t.full
    requires t.full[n] == s.full[n] && s.nodes[n].commitIndex <= t.nodes[n].commitIndex && n in c.configs
    requires Advanced(c.configs[n], s.nodes[n], t.nodes[n], peer)
    ensures CommitsOwn(s, t, n)
  {
    hide Inv, Abs, NodeOk, ClusterInv, Within, NothingCounted;
    NodeRunning(c, s, n);
    NodeParts(s.nodes[n], s.full[n]);
    AtRest(c, t, n);
    PeerEnds(c, t, n);
    TermAtAgrees(s.nodes[n].disk.log, s.full[n], t.nodes[n].commitIndex);
  }

  lemma KeysAgree(c: Setup, s: Cluster)
    requires ClusterInv(c, s)
    ensures s.nodes.Keys == s.full.Keys == c.configs.Keys
  {
    hide Inv, Abs, NodeOk;
  }

  lemma CommitsOwnRefl(s: Cluster, n: NodeId)
    requires n in s.nodes && n in s.full
    ensures CommitsOwn(s, s, n)
  {
  }

  lemma StaysElsewhere(c: Setup, s: Cluster, n: NodeId, peer: NodeId)
    requires Repairing(c, s, n, peer)
    ensures n in s.nodes && Elsewhere(s, s, n, peer)
  {
    hide ClusterInv, Common, NothingCounted;
    KeysAgree(c, s);
  }

  lemma ElsewhereTrans(s: Cluster, t: Cluster, u: Cluster, n: NodeId, peer: NodeId)
    requires n in s.nodes && n in t.nodes && n in u.nodes && Elsewhere(s, t, n, peer) && Elsewhere(t, u, n, peer)
    ensures Elsewhere(s, u, n, peer)
  {
  }

  /** Only the peer, or only what the leader knows of it, has changed. */
  lemma ElsewhereSame(c: Setup, s: Cluster, t: Cluster, n: NodeId, peer: NodeId)
    requires ClusterInv(c, s) && n in s.nodes && n in t.nodes && n in s.full && peer in s.nodes && peer in s.full
    requires t.nodes.Keys == s.nodes.Keys && t.full.Keys == s.full.Keys && t.nodes[n] == s.nodes[n]
    requires forall q :: q in s.nodes && q != peer ==> t.nodes[q] == s.nodes[q]
    requires forall q :: q in s.full && q != peer ==> t.full[q] == s.full[q]
    ensures Elsewhere(s, t, n, peer)
  {
    hide ClusterInv;
    KeysAgree(c, s);
  }

  lemma CommitsOwnTrans(s: Cluster, t: Cluster, u: Cluster, n: NodeId, peer: NodeId)
    requires CommitsOwn(s, t, n) && CommitsOwn(t, u, n) && t.full[n] == u.full[n]
    requires Elsewhere(s, t, n, peer)
    ensures CommitsOwn(s, u, n)
  {
  }

  lemma AnswerIs(c: Setup, s: Cluster, n: NodeId, peer: NodeId, req: AppendRequest, resp: AppendResponse)
    requires CanHappen(c, s, AnswerEvent(n, peer, req, resp)) && n in s.nodes && n in s.full
    ensures n in c.configs && GoodTable(s.nodes[n])
    ensures var t := Next(c, s, AnswerEvent(n, peer, req, resp));
            && t.nodes == s.nodes[n := AppendReply(c.configs[n], s.nodes[n], peer, req.term,
                                                   req.prevIndex + |req.entries|, resp).state]
            && t.full.Keys == s.full.Keys && (forall m :: m in s.full && m != n ==> t.full[m] == s.full[m])
            && t.h == s.h
  {
    hide AppendReply, FullAfter;
  }

  // ----- convergence -----

  /** The second event delivers a message that the first one has just sent. */
  predicate Delivers(c: Setup, s: Cluster, e: Event, f: Event) {
    && CanHappen(c, s, e) && f.Run? && f.op.Deliver?
    && f.op.m in Perform(c, s, e.op).sends
  }

  /** The first three events from state s on are one round: send, deliver what was sent, deliver the answer to it. */
  predicate IsRound(c: Setup, s: Cluster, e: Event, s1: Cluster, e1: Event, e2: Event, n: NodeId, peer: NodeId) {
    e == SendEvent(n, peer) && Delivers(c, s, e, e1) && Delivers(c, s1, e1, e2)
  }

  /**
   * One round. Beyond the shared prefix it fails and the next index falls by one, never below the index behind that
   * prefix; at the prefix it succeeds, and the two logs share exactly what was carried.
   */
  lemma RoundStep(c: Setup, s: Cluster, e: Event, s1: Cluster, e1: Event, s2: Cluster, e2: Event, t: Cluster,
                  n: NodeId, peer: NodeId)
    requires Repairing(c, s, n, peer) && Offers(s, n, peer) && IsRound(c, s, e, s1, e1, e2, n, peer)
    requires CanHappen(c, s, e) && s1 == Next(c, s, e)
    requires CanHappen(c, s1, e1) && s2 == Next(c, s1, e1)
    requires CanHappen(c, s2, e2) && t == Next(c, s2, e2)
    ensures Repairing(c, t, n, peer) && t.full[n] == s.full[n]
    ensures Probe(s, n, peer) > Shared(s, n, peer) ==>
              && Probe(t, n, peer) == Probe(s, n, peer) - 1 && Shared(t, n, peer) == Shared(s, n, peer)
              && t.full[peer] == s.full[peer]
    ensures Probe(s, n, peer) == Shared(s, n, peer) ==>
              Probe(t, n, peer) == Shared(t, n, peer) == Min(|s.full[n]|, Shared(s, n, peer) + BATCH_SIZE)
    ensures Serves(c, s, n, peer) ==> Serves(c, t, n, peer)
    ensures Probe(s, n, peer) > Shared(s, n, peer) ==>
              t.nodes[n] == s.nodes[n].(nextIndex := t.nodes[n].nextIndex)
    ensures Elsewhere(s, t, n, peer) && CommitsOwn(s, t, n)
    ensures Probe(s, n, peer) == Shared(s, n, peer) ==> CountedUp(c, t, n, peer)
  {
    hide Inv, Abs, NodeOk, AppendEntries, ClusterInv, Common, CanHappen, Next, Perform, CountedUp, NothingCounted,
         Rests, CommitsOwn, Elsewhere;
    SendStep(c, s, n, peer);
    var req := RequestAt(s, n, Probe(s, n, peer));
    assert Repairing(c, s1, n, peer);
    assert e1 == CallEvent(s1, n, peer);
    CallStep(c, s1, n, peer);
    var resp := AppendEntries(c.configs[peer], s1.nodes[peer], req).reply;
    assert e2 == AnswerEvent(n, peer, req, resp);
    AnswerStep(c, s2, n, peer, req, resp);
    SameCommits(s, s2, t, n);
    ElsewhereSame(c, s, s1, n, peer);
    ElsewhereTrans(s, s1, s2, n, peer);
    ElsewhereTrans(s, s2, t, n, peer);
    AtRest(c, t, n);
    SnapshotBehind(t.nodes[n]);
  }

  lemma SameCommits(s: Cluster, t: Cluster, u: Cluster, n: NodeId)
    requires n in s.nodes && n in t.nodes && t.nodes[n] == s.nodes[n] && CommitsOwn(t, u, n)
    ensures CommitsOwn(s, u, n)
  {
  }

  lemma SnapshotBehind(ns: NodeState)
    requires Rests(ns)
    ensures ns.disk.log.snapIndex <= ns.commitIndex
  {
  }

  /** A round is never blocked: each of its events can happen, and delivers what the one before has sent. */
  lemma RoundCanHappen(c: Setup, s: Cluster, n: NodeId, peer: NodeId)
    returns (e: Event, s1: Cluster, e1: Event, s2: Cluster, e2: Event, t: Cluster)
    requires Repairing(c, s, n, peer) && Offers(s, n, peer)
    ensures CanHappen(c, s, e) && s1 == Next(c, s, e)
    ensures CanHappen(c, s1, e1) && s2 == Next(c, s1, e1)
    ensures CanHappen(c, s2, e2) && t == Next(c, s2, e2)
    ensures IsRound(c, s, e, s1, e1, e2, n, peer)
  {
    hide Inv, Abs, NodeOk, AppendEntries, ClusterInv, Common, CanHappen, Next, Perform, NothingCounted, Elsewhere;
    e := SendEvent(n, peer);
    SendEnabled(c, s, n, peer);
    s1 := Next(c, s, e);
    SendStep(c, s, n, peer);
    assert Repairing(c, s1, n, peer);
    e1 := CallEvent(s1, n, peer);
    CallCanHappen(c, s1, n, peer);
    s2 := Next(c, s1, e1);
    CallStep(c, s1, n, peer);
    var req := RequestAt(s, n, Probe(s, n, peer));
    var resp := AppendEntries(c.configs[peer], s1.nodes[peer], req).reply;
    e2 := AnswerEvent(n, peer, req, resp);
    AnswerCanHappen(c, s2, n, peer, req, resp);
    t := Next(c, s2, e2);
  }

  lemma SendEnabled(c: Setup, s: Cluster, n: NodeId, peer: NodeId)
    requires Repairing(c, s, n, peer)
    ensures CanHappen(c, s, SendEvent(n, peer))
  {
    hide Inv, Abs, NodeOk;
    NodeRunning(c, s, n);
    PeersAre(c.configs.Keys, n, c.configs[n]);
  }

  lemma CallCanHappen(c: Setup, s: Cluster, n: NodeId, peer: NodeId)
    requires Repairing(c, s, n, peer)
    requires AppendCall(n, peer, RequestAt(s, n, Probe(s, n, peer))) in s.msgs
    ensures CanHappen(c, s, CallEvent(s, n, peer))
  {
    hide Inv, Abs, NodeOk, Common, Accepts, CommitGuard, Rooted, Perform;
    NodeRunning(c, s, peer);
    AcceptsUpToShared(c, s, n, peer);
    LeaderLog(c, s, n);
    if Probe(s, n, peer) == Shared(s, n, peer) { LeavesNothing(c, s, n, peer); }
  }

  lemma AnswerCanHappen(c: Setup, s: Cluster, n: NodeId, peer: NodeId, req: AppendRequest, resp: AppendResponse)
    requires ClusterInv(c, s) && n in s.nodes
    requires AppendAnswer(peer, n, req.term, req.prevIndex + |req.entries|, resp) in s.msgs
    ensures CanHappen(c, s, AnswerEvent(n, peer, req, resp))
  {
    hide Inv, Abs, NodeOk, Perform;
    NodeRunning(c, s, n);
  }

  /** From state i on, the run consists of this many rounds between the leader and the peer. */
  predicate IsRepair(c: Setup, states: seq<Cluster>, events: seq<Event>, i: nat, rounds: nat, n: NodeId, peer: NodeId)
    requires |states| == |events| + 1
    decreases rounds
  {
    rounds > 0 ==>
      && i + 3 <= |events|
      && IsRound(c, states[i], events[i], states[i + 1], events[i + 1], events[i + 2], n, peer)
      && IsRepair(c, states, events, i + 3, rounds - 1, n, peer)
  }

  /** A round succeeds when it probes at the shared prefix. */
  predicate Succeeds(s: Cluster, n: NodeId, peer: NodeId) {
    n in s.nodes && n in s.full && peer in s.full && Probe(s, n, peer) <= Shared(s, n, peer)
  }

  /** Which of these rounds succeed. */
  function Outcomes(states: seq<Cluster>, i: nat, rounds: nat, n: NodeId, peer: NodeId): (r: seq<bool>)
    ensures |r| == rounds
    decreases rounds
  {
    if rounds == 0 then []
    else [i < |states| && Succeeds(states[i], n, peer)] + Outcomes(states, i + 3, rounds - 1, n, peer)
  }

  /** How many rounds it takes: one for each index the probe is too high, then one for each batch that is missing. */
  function RoundsNeeded(probe: nat, shared: nat, length: nat): nat
    requires shared <= probe <= length
  {
    probe - shared + (length - shared + BATCH_SIZE - 1) / BATCH_SIZE
  }

  lemma OneRoundLess(probe: nat, shared: nat, probe': nat, shared': nat, length: nat)
    requires shared <= probe <= length && shared' <= probe' <= length
    requires probe > shared ==> probe' == probe - 1 && shared' == shared
    requires probe == shared ==> probe' == shared' == Min(length, shared + BATCH_SIZE)
    requires RoundsNeeded(probe, shared, length) > 0
    ensures RoundsNeeded(probe', shared', length) == RoundsNeeded(probe, shared, length) - 1
  {
    if probe == shared && shared + BATCH_SIZE <= length {
      assert (length - shared + BATCH_SIZE - 1) / BATCH_SIZE == (length - shared - 1) / BATCH_SIZE + 1;
    }
  }

  lemma LastRound(probe: nat, shared: nat, length: nat)
    requires shared <= probe <= length && RoundsNeeded(probe, shared, length) == 1
    ensures probe == shared && length <= shared + BATCH_SIZE
  {
    if length > shared { assert (length - shared + BATCH_SIZE - 1) / BATCH_SIZE >= 1; }
  }

  lemma RepairingParts(c: Setup, s: Cluster, n: NodeId, peer: NodeId)
    requires Repairing(c, s, n, peer)
    ensures n in s.nodes && n in s.full && peer in s.full && Shared(s, n, peer) <= Probe(s, n, peer) <= |s.full[n]|
  {
  }

  lemma RoundOfRun(c: Setup, states: seq<Cluster>, events: seq<Event>, i: nat, n: NodeId, peer: NodeId)
    requires IsRun(c, states, events) && i + 3 <= |events|
    requires Serves(c, states[i], n, peer)
    requires IsRound(c, states[i], events[i], states[i + 1], events[i + 1], events[i + 2], n, peer)
    requires Repairing(c, states[i], n, peer)
    ensures var s := states[i]; var t := states[i + 3];
            && n in s.nodes && n in s.full && peer in s.full && n in t.nodes && n in t.full && peer in t.full
            && Repairing(c, t, n, peer) && Serves(c, t, n, peer) && t.full[n] == s.full[n]
            && Shared(s, n, peer) <= Probe(s, n, peer) <= |s.full[n]|
            && Shared(t, n, peer) <= Probe(t, n, peer) <= |s.full[n]|
            && (Probe(s, n, peer) > Shared(s, n, peer) ==>
                  Probe(t, n, peer) == Probe(s, n, peer) - 1 && Shared(t, n, peer) == Shared(s, n, peer))
            && (Probe(s, n, peer) == Shared(s, n, peer) ==>
                  Probe(t, n, peer) == Shared(t, n, peer) == Min(|s.full[n]|, Shared(s, n, peer) + BATCH_SIZE))
  {
    hide Repairing, IsRound, Common, IsRun, Next, CanHappen, Within;
    RunStep(c, states, events, i);
    RepairingParts(c, states[i], n, peer);
    RunStep(c, states, events, i + 1);
    RunStep(c, states, events, i + 2);
    RoundStep(c, states[i], events[i], states[i + 1], events[i + 1], states[i + 2], events[i + 2], states[i + 3], n,
              peer);
    RepairingParts(c, states[i + 3], n, peer);
  }

  /** The rounds from state i on. */
  lemma {:induction false} RepairFrom(c: Setup, states: seq<Cluster>, events: seq<Event>, i: nat, rounds: nat,
                                      n: NodeId, peer: NodeId)
    requires IsRun(c, states, events) && |states| == |events| + 1 && IsRepair(c, states, events, i, rounds, n, peer)
    requires i < |states| && Repairing(c, states[i], n, peer) && Serves(c, states[i], n, peer)
    requires rounds == RoundsNeeded(Probe(states[i], n, peer), Shared(states[i], n, peer), |states[i].full[n]|)
    ensures i + 3 * rounds < |states|
    ensures var last := states[i + 3 * rounds];
            && n in last.full && peer in last.full
            && last.full[n] == states[i].full[n] && Agree(last.full[n], last.full[peer], |last.full[n]|)
    ensures forall j :: 0 <= j < rounds ==>
              (Outcomes(states, i, rounds, n, peer)[j] <==> j >= Probe(states[i], n, peer) - Shared(states[i], n, peer))
    decreases rounds
  {
    hide Repairing, IsRound, Serves, Common, IsRun;
    var s := states[i];
    RepairingParts(c, s, n, peer);
    var length := |s.full[n]|;
    if rounds == 0 {
      CommonIsHighest(s.full[n], s.full[peer], length);
    } else {
      RoundOfRun(c, states, events, i, n, peer);
      var t := states[i + 3];
      OneRoundLess(Probe(s, n, peer), Shared(s, n, peer), Probe(t, n, peer), Shared(t, n, peer), length);
      RepairFrom(c, states, events, i + 3, rounds - 1, n, peer);
      var later := Outcomes(states, i + 3, rounds - 1, n, peer);
      forall j | 0 <= j < rounds
        ensures Outcomes(states, i, rounds, n, peer)[j] <==> j >= Probe(s, n, peer) - Shared(s, n, peer)
      {
        if j > 0 { assert Outcomes(states, i, rounds, n, peer)[j] == later[j - 1]; }
      }
    }
  }

  /** One call of the replication routine makes attempts until one succeeds, but no more than this. */
  const ATTEMPTS: nat := 64

  /** How many calls make these attempts, when the current call has already made some. */
  function CallsOf(outcomes: seq<bool>, made: nat): nat
    requires made < ATTEMPTS
  {
    if outcomes == [] then if made == 0 then 0 else 1
    else if outcomes[0] || made + 1 == ATTEMPTS then 1 + CallsOf(outcomes[1..], 0)
    else CallsOf(outcomes[1..], made + 1)
  }

  lemma {:induction false} FailuresThenSuccesses(outcomes: seq<bool>, failing: nat, made: nat)
    requires made < ATTEMPTS && failing < |outcomes|
    requires forall j :: 0 <= j < |outcomes| ==> (outcomes[j] <==> j >= failing)
    ensures CallsOf(outcomes, made) == (made + failing) / ATTEMPTS + |outcomes| - failing
    decreases |outcomes|
  {
    if failing > 0 {
      FailuresThenSuccesses(outcomes[1..], failing - 1, if made + 1 == ATTEMPTS then 0 else made + 1);
    } else if |outcomes| > 1 {
      FailuresThenSuccesses(outcomes[1..], 0, 0);
    } else {
      assert outcomes[1..] == [];
    }
  }

  /**
   * A leader whose next index for the peer starts behind the shared prefix and whose match index for it lies within,
   * as right after the election.
   */
  predicate ReadyToRepair(s: Cluster, n: NodeId, peer: NodeId) {
    && n != peer && n in s.nodes && n in s.full && peer in s.nodes && peer in s.full
    && s.nodes[n].role == Leader && s.nodes[peer].term <= s.nodes[n].term
    && Get(s.nodes[n].matchIndex, peer) <= Shared(s, n, peer) <= Probe(s, n, peer) <= |s.full[n]|
  }

  /** The rounds that such a leader needs: failing ones, and then one for each batch that the peer lacks. */
  function Failing(s: Cluster, n: NodeId, peer: NodeId): nat {
    if ReadyToRepair(s, n, peer) then Probe(s, n, peer) - Shared(s, n, peer) else 0
  }

  function Batches(s: Cluster, n: NodeId, peer: NodeId): nat {
    if ReadyToRepair(s, n, peer) then (|s.full[n]| - Shared(s, n, peer) + BATCH_SIZE - 1) / BATCH_SIZE else 0
  }

  /**
   * Log repair converges: with one call in flight at a time, as many rounds as the next index is too high plus one
   * for each batch that is missing make the peer's log agree with the leader's through the leader's last index. The
   * rounds before the shared prefix is found fail, and all others succeed, which fixes the number of calls. The leader
   * may compact on the way: what it compacts then, the peer has.
   */
  lemma RepairConverges(c: Setup, states: seq<Cluster>, events: seq<Event>, i: nat, rounds: nat, n: NodeId,
                        peer: NodeId)
    requires ValidSetup(c) && IsRun(c, states, events) && |states| == |events| + 1 && i < |states|
    requires ReadyToRepair(states[i], n, peer) && Serves(c, states[i], n, peer)
    requires IsRepair(c, states, events, i, rounds, n, peer)
    requires rounds == Failing(states[i], n, peer) + Batches(states[i], n, peer)
    ensures i + 3 * rounds < |states|
    ensures var last := states[i + 3 * rounds];
            && n in last.full && peer in last.full && n in states[i].full
            && last.full[n] == states[i].full[n] && Agree(last.full[n], last.full[peer], |last.full[n]|)
    ensures Batches(states[i], n, peer) > 0 ==>
              CallsOf(Outcomes(states, i, rounds, n, peer), 0)
              == Failing(states[i], n, peer) / ATTEMPTS + Batches(states[i], n, peer)
  {
    hide ClusterInv, IsRepair, Common, Succeeds, CallsOf, Repairing, IsRun, ValidSetup, Outcomes, Serves;
    RunInv(c, states, events, i);
    CountsNothing(c, states, events, i, n);
    StartsRepairing(c, states[i], n, peer);
    RepairFrom(c, states, events, i, rounds, n, peer);
    if Batches(states[i], n, peer) > 0 {
      FailuresThenSuccesses(Outcomes(states, i, rounds, n, peer), Failing(states[i], n, peer), 0);
    }
  }

  lemma CountsNothing(c: Setup, states: seq<Cluster>, events: seq<Event>, i: nat, n: NodeId)
    requires ValidSetup(c) && IsRun(c, states, events) && i < |states| && n in states[i].nodes
    requires states[i].nodes[n].role == Leader
    ensures n in c.configs && NothingCounted(c.configs[n], states[i].nodes[n])
  {
    hide IsRun, ValidSetup, NothingCounted;
    RunKeys(c, states, events, i);
    AlwaysPrompt(c, states, events, i, n);
  }

  /**
   * Log repair is never blocked: from any state that is ready for it, a run can go on with the rounds that are needed,
   * and these bring the logs to agree, as long as the leader still has the rows that the peer lacks and no snapshot is
   * due that would drop them.
   */
  lemma RepairCanHappen(c: Setup, states: seq<Cluster>, events: seq<Event>, n: NodeId, peer: NodeId)
    returns (after: seq<Cluster>, so: seq<Event>)
    requires ValidSetup(c) && IsRun(c, states, events) && |states| == |events| + 1
    requires ReadyToRepair(states[|events|], n, peer) && Serves(c, states[|events|], n, peer)
    ensures IsRun(c, after, so) && |after| == |so| + 1 && states <= after && events <= so
    ensures var s := states[|events|]; var t := after[|so|];
            && n in s.full && n in t.full && peer in t.full
            && t.full[n] == s.full[n] && Agree(t.full[n], t.full[peer], |t.full[n]|)
            && |so| == |events| + 3 * (Failing(s, n, peer) + Batches(s, n, peer))
  {
    hide ClusterInv, Common, Repairing, IsRun, ValidSetup, Serves;
    var s := states[|events|];
    RunInv(c, states, events, |events|);
    CountsNothing(c, states, events, |events|, n);
    StartsRepairing(c, s, n, peer);
    after, so := GoOn(c, states, events, n, peer, RoundsNeeded(Probe(s, n, peer), Shared(s, n, peer), |s.full[n]|));
  }

  lemma {:induction false} GoOn(c: Setup, states: seq<Cluster>, events: seq<Event>, n: NodeId, peer: NodeId,
                                rounds: nat)
    returns (after: seq<Cluster>, so: seq<Event>)
    requires IsRun(c, states, events) && |states| == |events| + 1
    requires Repairing(c, states[|events|], n, peer) && Serves(c, states[|events|], n, peer)
    requires var s := states[|events|];
             rounds == RoundsNeeded(Probe(s, n, peer), Shared(s, n, peer), |s.full[n]|)
    ensures IsRun(c, after, so) && |after| == |so| + 1 && states <= after && events <= so
    ensures var s := states[|events|]; var t := after[|so|];
            && n in t.full && peer in t.full
            && t.full[n] == s.full[n] && Agree(t.full[n], t.full[peer], |t.full[n]|)
            && |so| == |events| + 3 * rounds
            && Repairing(c, t, n, peer) && n in s.nodes && n in t.nodes && Elsewhere(s, t, n, peer)
            && CommitsOwn(s, t, n)
            && (rounds > 0 ==> CountedUp(c, t, n, peer) && Get(t.nodes[n].matchIndex, peer) == |t.full[n]|)
    decreases rounds
  {
    hide NothingCounted, Repairing, IsRound, Common, IsRun, Next, CanHappen, Within, CommitsOwn, Elsewhere;
    var s := states[|events|];
    RepairingParts(c, s, n, peer);
    if rounds == 0 {
      CommonIsHighest(s.full[n], s.full[peer], |s.full[n]|);
      CommitsOwnRefl(s, n);
      StaysElsewhere(c, s, n, peer);
      after, so := states, events;
    } else {
      var e, s1, e1, s2, e2, t := RoundCanHappen(c, s, n, peer);
      RoundStep(c, s, e, s1, e1, s2, e2, t, n, peer);
      RepairingParts(c, t, n, peer);
      OneRoundLess(Probe(s, n, peer), Shared(s, n, peer), Probe(t, n, peer), Shared(t, n, peer), |s.full[n]|);
      if rounds == 1 { LastRound(Probe(s, n, peer), Shared(s, n, peer), |s.full[n]|); }
      var x, y := RunGoesOn(c, states, events, e);
      x, y := RunGoesOn(c, x, y, e1);
      x, y := RunGoesOn(c, x, y, e2);
      after, so := GoOn(c, x, y, n, peer, rounds - 1);
      CommitsOwnTrans(s, t, after[|so|], n, peer);
      ElsewhereTrans(s, t, after[|so|], n, peer);
    }
  }

  /** What the peer has committed is within the shared prefix. */
  lemma StartsRepairing(c: Setup, s: Cluster, n: NodeId, peer: NodeId)
    requires ClusterInv(c, s) && ReadyToRepair(s, n, peer)
    requires n in c.configs && NothingCounted(c.configs[n], s.nodes[n])
    ensures Repairing(c, s, n, peer)
  {
    hide Inv, Abs, NodeOk, ClusterInv, Common, Committed, LeadersComplete, Rooted;
    var p := Abs(s);
    var ids := c.configs.Keys;
    NodeRunning(c, s, n);
    NodeRunning(c, s, peer);
    LeaderLog(c, s, n);
    CommitInRange(ids, p, peer);
    Complete(ids, p);
    var k := s.nodes[peer].commitIndex;
    CommittedUpTo(ids, p.h, s.full[peer], k, s.nodes[peer].term, s.nodes[n].term);
    CommittedInReign(ids, p.h, s.full[peer], k, s.nodes[n].term);
    CommonIsHighest(s.full[n], s.full[peer], k);
  }

  /** In a run whose snapshot answers arrive in their terms, a leader's match index is within the shared prefix. */
  lemma MatchIsShared(c: Setup, states: seq<Cluster>, events: seq<Event>, i: nat, n: NodeId, peer: NodeId)
    requires ValidSetup(c) && IsRun(c, states, events) && i < |states| && |states| == |events| + 1
    requires forall j :: 0 <= j < i ==> InItsTerm(states[j], events[j])
    requires n != peer && n in states[i].nodes && peer in states[i].nodes
    requires states[i].nodes[n].role == Leader && states[i].nodes[peer].term <= states[i].nodes[n].term
    ensures n in states[i].full && peer in states[i].full
    ensures Get(states[i].nodes[n].matchIndex, peer) <= Shared(states[i], n, peer)
  {
    hide Inv, Abs, NodeOk, IsRun, ValidSetup, ClusterInv, InItsTerm, Common;
    var s := states[i];
    RunKeys(c, states, events, i);
    RunConfirmed(c, states, events, i);
    NodeAt(c, states, events, i, peer);
    assert ConfirmedBy(s, n, peer);
    var k := Get(s.nodes[n].matchIndex, peer);
    if k > 0 {
      AckAt(c.configs.Keys, Abs(s), Ballot(s.nodes[n].term, peer), k);
      MatchTruth(c, states, events, i, n, peer);
      CommonIsHighest(s.full[n], s.full[peer], k);
    }
  }
}
