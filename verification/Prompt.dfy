/**
 * Nothing is put off: a leader has always committed whatever it may commit, a candidate leads as soon as a quorum has
 * voted for it, and what a leader sends next to a peer is always an entry it has, or its snapshot.
 */
module Promptness {
  import opened RaftTypes
  import opened Logs
  import opened LogTables
  import opened Compaction
  import opened Disks
  import opened NodeSpec
  import opened Applying
  import opened Protocol
  import opened ProtocolElections
  import opened Clusters
  import opened NodeRuns
  import opened HandlerRuns
  import opened FollowerRuns
  import opened LeaderRuns
  import opened ClusterSafety
  import opened RaftSafety
  import opened RaftDurability
  import opened OldMatches
  import opened Compacting

  /** What holds of a node between any two of its steps. */
  predicate Prompt(cfg: Config, s: NodeState) {
    && (s.role == Leader ==>
          && NothingCounted(cfg, s)
          && forall p :: p in cfg.peers ==> 1 <= Get(s.nextIndex, p) <= s.disk.log.LastIndex() + 1)
    && (s.role == Candidate ==> cfg.peers == [] || |s.tally| < cfg.Majority())
  }

  /** A leader remembers no match behind the end of its log. */
  predicate MatchesStored(s: NodeState) {
    s.role == Leader ==> forall v :: v in s.matchIndex ==> s.matchIndex[v] <= s.disk.log.LastIndex()
  }

  // ----- committing -----

  /** Behind the apply position, applying and compacting leave every term where it is. */
  lemma TermsStay(cfg: Config, s: NodeState, i: nat)
    requires GoodTable(s) && s.disk.log.snapIndex <= s.lastApplied
    ensures var m := ApplyCommitted(cfg, s).state;
            i > m.lastApplied ==> m.disk.log.TermAt(i) == s.disk.log.TermAt(i)
  {
    hide ApplyLoop;
    ApplyLoopKeeps(s);
    ApplyLoopAhead(s);
  }

  lemma {:induction false} ApplyLoopAhead(s: NodeState)
    requires GoodTable(s) && s.disk.log.snapIndex <= s.lastApplied
    ensures s.lastApplied <= ApplyLoop(s).state.lastApplied
    decreases s.commitIndex - s.lastApplied
  {
    if s.lastApplied < s.commitIndex {
      match s.disk.log.EntryAt(s.lastApplied + 1)
      case None =>
      case Some(e) =>
        if e.command.SetCommand? {
          ApplyLoopAhead(s.(lastApplied := e.index, disk := ApplySet(s.disk, e.index, e.command.key, e.command.value)));
        }
    }
  }

  /** After it has looked what it may commit, a node counts nothing that it has not committed. */
  lemma AdvanceCountsAll(cfg: Config, s: NodeState)
    requires GoodTable(s) && s.disk.log.snapIndex <= s.lastApplied && Rests(AdvanceCommit(cfg, s).state)
    ensures NothingCounted(cfg, AdvanceCommit(cfg, s).state)
  {
    hide ApplyCommitted;
    var mid := s.(commitIndex := HighestCommittable(cfg, s, s.commitIndex, s.disk.log.LastIndex()));
    ApplyKeeps(cfg, mid);
    var m := AdvanceCommit(cfg, s).state;
    forall i | m.commitIndex < i <= m.disk.log.LastIndex()
      ensures !Committable(cfg, m, i)
    {
      TermsStay(cfg, mid, i);
      assert !Committable(cfg, s, i);
    }
  }

  lemma {:induction false} FewerMatch(peers: seq<NodeId>, a: map<NodeId, nat>, b: map<NodeId, nat>, i: nat)
    requires forall j :: 0 <= j < |peers| && Get(b, peers[j]) >= i ==> Get(a, peers[j]) >= i
    ensures CountMatches(peers, b, i) <= CountMatches(peers, a, i)
  {
    if peers != [] { FewerMatch(peers[..|peers| - 1], a, b, i); }
  }

  /** What a node may newly commit, and where its snapshot may go, after it has recorded a match for one peer. */
  predicate Advanced(cfg: Config, s: NodeState, m: NodeState, peer: NodeId) {
    && Within(cfg, m) && NothingCounted(cfg, m)
    && (|| m.commitIndex == s.commitIndex
        || (m.commitIndex <= Get(m.matchIndex, peer) && s.disk.log.TermAt(m.commitIndex) == Some(s.term)))
    && (|| m.disk.log.snapIndex == s.disk.log.snapIndex
        || (m.disk.log.snapIndex == m.commitIndex && (m.commitIndex > s.commitIndex || !Within(cfg, s))))
  }

  lemma AdvancedAfter(cfg: Config, s: NodeState, x: NodeState, peer: NodeId)
    requires GoodTable(s) && Rests(s) && NothingCounted(cfg, s)
    requires x == s.(matchIndex := x.matchIndex, nextIndex := x.nextIndex) && Rests(AdvanceCommit(cfg, x).state)
    requires forall q :: q != peer ==> Get(x.matchIndex, q) == Get(s.matchIndex, q)
    ensures Advanced(cfg, s, AdvanceCommit(cfg, x).state, peer)
  {
    hide ApplyCommitted, NothingCounted;
    var c := HighestCommittable(cfg, x, x.commitIndex, x.disk.log.LastIndex());
    var mid := x.(commitIndex := c);
    ApplyKeeps(cfg, mid);
    AdvanceCountsAll(cfg, x);
    AllDecoded(cfg, mid);
    ApplyCompacts(cfg, mid);
    if c > s.commitIndex { NewlyCounted(cfg, s, x, peer, c); }
  }

  lemma NewlyCounted(cfg: Config, s: NodeState, x: NodeState, peer: NodeId, c: nat)
    requires NothingCounted(cfg, s) && Committable(cfg, x, c) && s.commitIndex < c <= s.disk.log.LastIndex()
    requires x == s.(matchIndex := x.matchIndex, nextIndex := x.nextIndex)
    requires forall q :: q != peer ==> Get(x.matchIndex, q) == Get(s.matchIndex, q)
    ensures c <= Get(x.matchIndex, peer)
  {
    if Get(x.matchIndex, peer) < c {
      FewerMatch(cfg.peers, s.matchIndex, x.matchIndex, c);
      assert Committable(cfg, s, c);
    }
  }

  lemma AdvanceIsPrompt(cfg: Config, s: NodeState)
    requires GoodTable(s) && s.disk.log.snapIndex <= s.lastApplied && Rests(AdvanceCommit(cfg, s).state)
    requires s.role == Leader ==> forall p :: p in cfg.peers ==> 1 <= Get(s.nextIndex, p) <= s.disk.log.LastIndex() + 1
    requires s.role == Candidate ==> cfg.peers == [] || |s.tally| < cfg.Majority()
    ensures Prompt(cfg, AdvanceCommit(cfg, s).state)
  {
    hide ApplyCommitted, NothingCounted;
    ApplyKeeps(cfg, s.(commitIndex := HighestCommittable(cfg, s, s.commitIndex, s.disk.log.LastIndex())));
    AdvanceCountsAll(cfg, s);
  }

  // ----- handler by handler -----

  lemma {:induction false} NoneMatches(peers: seq<NodeId>, matched: map<NodeId, nat>, i: nat)
    requires forall j :: 0 <= j < |peers| ==> Get(matched, peers[j]) < i
    ensures CountMatches(peers, matched, i) == 0
  {
    if peers != [] { NoneMatches(peers[..|peers| - 1], matched, i); }
  }

  /** No match reaches an index, and a majority is more than the node itself: it is not counted. */
  lemma NotCounted(cfg: Config, s: NodeState, i: nat)
    requires forall p :: p in cfg.peers ==> Get(s.matchIndex, p) < i
    requires cfg.Majority() > 1 || s.disk.log.TermAt(i) != Some(s.term)
    ensures !Committable(cfg, s, i)
  {
    NoneMatches(cfg.peers, s.matchIndex, i);
  }

  /** The log has no entry of the node's term that is not committed. */
  predicate NothingOwn(s: NodeState) {
    forall i :: s.commitIndex < i <= s.disk.log.LastIndex() ==> s.disk.log.TermAt(i) != Some(s.term)
  }

  /** A new leader knows of no match, and of no entry of its term. */
  lemma CrownIsPrompt(cfg: Config, s: NodeState)
    requires cfg.id !in cfg.peers
    requires NothingOwn(s)
    ensures Prompt(cfg, BecomeLeader(cfg, s))
  {
    var l := BecomeLeader(cfg, s);
    forall i | l.commitIndex < i <= l.disk.log.LastIndex()
      ensures !Committable(cfg, l, i)
    {
      assert l.disk.log.TermAt(i) != Some(l.term);
    }
  }

  lemma TimeoutIsPrompt(cfg: Config, ns: NodeState)
    requires Prompt(cfg, ns)
    ensures Prompt(cfg, StartElection(cfg, ns).state)
  {
    hide NothingCounted;
    assert |{cfg.id}| == 1;
  }

  /** The candidate wins with its last vote, or still lacks one. */
  lemma VoteReplyIsPrompt(cfg: Config, ns: NodeState, src: NodeId, t: nat, resp: VoteResponse)
    requires Prompt(cfg, ns) && cfg.id !in cfg.peers
    requires ns.role == Candidate && VoteReply(cfg, ns, src, t, resp).state.role == Leader ==> NothingOwn(ns)
    ensures Prompt(cfg, VoteReply(cfg, ns, src, t, resp).state)
  {
    hide NothingCounted, SetAll;
    if ns.role == Candidate && VoteReply(cfg, ns, src, t, resp).state.role == Leader {
      CrownIsPrompt(cfg, ns.(tally := ns.tally + {src}));
    }
  }

  lemma AloneIsPrompt(cfg: Config, ns: NodeState, t: nat)
    requires Prompt(cfg, ns) && cfg.id !in cfg.peers
    requires ns.role == Candidate && ElectAlone(cfg, ns, t).state.role == Leader ==> NothingOwn(ns)
    ensures Prompt(cfg, ElectAlone(cfg, ns, t).state)
  {
    hide NothingCounted, BecomeLeader;
    if ns.role == Candidate && ElectAlone(cfg, ns, t).state.role == Leader { CrownIsPrompt(cfg, ns); }
  }

  lemma VoteIsPrompt(cfg: Config, ns: NodeState, req: VoteRequest)
    requires Prompt(cfg, ns)
    ensures Prompt(cfg, RequestVote(ns, req).state)
  {
    assert forall i :: Committable(cfg, RequestVote(ns, req).state, i) && RequestVote(ns, req).state.role == Leader ==>
             Committable(cfg, ns, i);
  }

  lemma ReplicateIsPrompt(cfg: Config, ns: NodeState, peer: NodeId)
    requires Prompt(cfg, ns) && GoodTable(ns)
    ensures Prompt(cfg, Replicate(cfg, ns, peer).state)
  {
    var m := Replicate(cfg, ns, peer).state;
    assert m == ns.(nextIndex := m.nextIndex);
    assert forall i :: Committable(cfg, m, i) ==> Committable(cfg, ns, i);
  }

  lemma FollowersArePrompt(cfg: Config, ns: NodeState, m: NodeState)
    requires Prompt(cfg, ns) && (m == ns || m.role == Follower)
    ensures Prompt(cfg, m)
  {
  }

  /** What a leader learns from an answer. */
  lemma AppendReplyIsPrompt(cfg: Config, ns: NodeState, src: NodeId, t: nat, lastSent: nat, resp: AppendResponse)
    requires Prompt(cfg, ns) && GoodTable(ns) && Rests(ns)
    requires var m := AppendReply(cfg, ns, src, t, lastSent, resp).state; Rests(m) && MatchesStored(m)
    ensures Prompt(cfg, AppendReply(cfg, ns, src, t, lastSent, resp).state)
  {
    hide AdvanceCommit, NothingCounted;
    if resp.term <= ns.term && ns.role == Leader && ns.term == t {
      if resp.success {
        var k := Max(Get(ns.matchIndex, src), Max(resp.matchIndex, lastSent));
        var matched := if k > Get(ns.matchIndex, src) then ns.matchIndex[src := k] else ns.matchIndex;
        var x := ns.(matchIndex := matched, nextIndex := ns.nextIndex[src := k + 1]);
        AdvanceMatch(cfg, x);
        AdvanceLast(cfg, x);
        assert Get(x.matchIndex, src) == k;
        AdvanceIsPrompt(cfg, x);
      } else {
        SameCounts(cfg, ns, AppendReply(cfg, ns, src, t, lastSent, resp).state);
      }
    }
  }

  lemma AdvanceLast(cfg: Config, s: NodeState)
    requires GoodTable(s)
    ensures AdvanceCommit(cfg, s).state.disk.log.LastIndex() == s.disk.log.LastIndex()
  {
    hide ApplyCommitted;
    ApplyKeeps(cfg, s.(commitIndex := HighestCommittable(cfg, s, s.commitIndex, s.disk.log.LastIndex())));
  }

  lemma SameCounts(cfg: Config, s: NodeState, m: NodeState)
    requires m == s.(nextIndex := m.nextIndex) && NothingCounted(cfg, s)
    ensures NothingCounted(cfg, m)
  {
    assert forall i :: Committable(cfg, m, i) ==> Committable(cfg, s, i);
  }

  lemma InstallReplyIsPrompt(cfg: Config, ns: NodeState, src: NodeId, k: nat, resp: InstallResponse)
    requires Prompt(cfg, ns) && GoodTable(ns) && Rests(ns)
    requires var m := InstallReply(cfg, ns, src, k, resp).state; Rests(m) && MatchesStored(m)
    ensures Prompt(cfg, InstallReply(cfg, ns, src, k, resp).state)
  {
    hide AdvanceCommit, NothingCounted;
    if resp.term <= ns.term {
      var x := Recorded(ns, src, k);
      AdvanceMatch(cfg, x);
      AdvanceLast(cfg, x);
      assert x.role == Leader ==> x.matchIndex[src] == k <= x.disk.log.LastIndex();
      AdvanceIsPrompt(cfg, x);
    }
  }

  /** A new entry is behind every match, unless there are no peers and it is committed at once. */
  lemma WriteIsPrompt(cfg: Config, ns: NodeState, key: string, value: string)
    requires Prompt(cfg, ns) && GoodTable(ns) && Rests(ns) && MatchesStored(ns) && cfg.id !in cfg.peers
    requires Rests(WriteAppend(cfg, ns, key, value).state)
    ensures Prompt(cfg, WriteAppend(cfg, ns, key, value).state)
  {
    hide AdvanceCommit, NothingCounted;
    if key != "" && ns.role == Leader {
      var e := Entry(ns.disk.log.LastIndex() + 1, ns.term, SetCommand(key, value));
      var x := ns.(disk := ns.disk.(log := ns.disk.log.Upsert([e])), matchIndex := ns.matchIndex[cfg.id := e.index]);
      assert x.disk.log.rows == ns.disk.log.rows + [e];
      if cfg.Majority() == 1 {
        AdvanceIsPrompt(cfg, x);
      } else {
        NewIsNotCounted(cfg, ns, x, e.index);
      }
    }
  }

  lemma NewIsNotCounted(cfg: Config, s: NodeState, x: NodeState, last: nat)
    requires NothingCounted(cfg, s) && s.role == Leader && MatchesStored(s) && cfg.id !in cfg.peers
    requires cfg.Majority() > 1 && last == s.disk.log.LastIndex() + 1 == x.disk.log.LastIndex()
    requires x.disk.log.snapIndex == s.disk.log.snapIndex && x.disk.log.snapTerm == s.disk.log.snapTerm
    requires |x.disk.log.rows| == |s.disk.log.rows| + 1 && x.disk.log.rows[..|s.disk.log.rows|] == s.disk.log.rows
    requires x.term == s.term && x.commitIndex == s.commitIndex && x.matchIndex == s.matchIndex[cfg.id := last]
    ensures NothingCounted(cfg, x)
  {
    forall i | x.commitIndex < i <= last
      ensures !Committable(cfg, x, i)
    {
      if i == last {
        NotCounted(cfg, x, i);
      } else {
        assert !Committable(cfg, s, i);
        SamePeers(cfg.peers, s.matchIndex, x.matchIndex, i);
        assert x.disk.log.TermAt(i) == s.disk.log.TermAt(i);
      }
    }
  }

  lemma {:induction false} SamePeers(peers: seq<NodeId>, a: map<NodeId, nat>, b: map<NodeId, nat>, i: nat)
    requires forall j :: 0 <= j < |peers| ==> Get(a, peers[j]) == Get(b, peers[j])
    ensures CountMatches(peers, a, i) == CountMatches(peers, b, i)
  {
    if peers != [] { SamePeers(peers[..|peers| - 1], a, b, i); }
  }

  // ----- over runs -----

  lemma LeaderStores(c: Setup, s: Cluster, n: NodeId)
    requires ClusterInv(c, s) && n in s.nodes
    ensures MatchesStored(s.nodes[n])
  {
    hide Inv, Abs, NodeOk;
    NodeRunning(c, s, n);
    NodeParts(s.nodes[n], s.full[n]);
    LastAgrees(s.nodes[n].disk.log, s.full[n]);
    CommitInRange(c.configs.Keys, Abs(s), n);
    if s.nodes[n].role == Leader {
      LeaderFacts(c.configs.Keys, Abs(s), n);
      forall v | v in s.nodes[n].matchIndex && s.nodes[n].matchIndex[v] > s.nodes[n].commitIndex
        ensures s.nodes[n].matchIndex[v] <= |s.full[n]|
      {
        AckInLog(c.configs.Keys, Abs(s), Ballot(s.nodes[n].term, v));
      }
    }
  }

  lemma AckInLog(ids: set<NodeId>, p: Proto, a: Ballot)
    requires Inv(ids, p) && a in p.h.acks
    ensures a.term in p.h.reigns && p.h.acks[a] <= |p.h.reigns[a.term].log|
  {
    assert AckOk(p, a);
  }

  /** A winner has no entry of its term: its reign starts with entries of earlier ones. */
  lemma WinnerHasNothing(c: Setup, s: Cluster, op: Op)
    requires ClusterInv(c, s) && CanHappen(c, s, Run(op)) && ClusterInv(c, Next(c, s, Run(op)))
    requires op.Alone? || (op.Deliver? && op.m.VoteAnswer?)
    requires s.nodes[NodeOf(op)].role != Leader && Perform(c, s, op).state.role == Leader
    requires Perform(c, s, op).state.term == s.nodes[NodeOf(op)].term
    ensures NothingOwn(s.nodes[NodeOf(op)])
  {
    hide Inv, Abs, NodeOk, Perform, ClusterInv;
    var n := NodeOf(op);
    var t := Next(c, s, Run(op));
    EnabledNode(c, s, op);
    NodeRunning(c, s, n);
    NodeParts(s.nodes[n], s.full[n]);
    NodeRunning(c, t, n);
    Performed(c, s, op);
    CrownIs(c, s, op);
    ReignAt(c.configs.Keys, Abs(t), s.nodes[n].term);
    forall i | s.nodes[n].commitIndex < i <= s.nodes[n].disk.log.LastIndex()
      ensures s.nodes[n].disk.log.TermAt(i) != Some(s.nodes[n].term)
    {
      TermAtAgrees(s.nodes[n].disk.log, s.full[n], i);
      LastAgrees(s.nodes[n].disk.log, s.full[n]);
      assert s.full[n][i - 1].term < s.nodes[n].term;
    }
  }

  lemma CrownIs(c: Setup, s: Cluster, op: Op)
    requires CanHappen(c, s, Run(op)) && (op.Alone? || (op.Deliver? && op.m.VoteAnswer?))
    requires s.nodes[NodeOf(op)].role != Leader && Perform(c, s, op).state.role == Leader
    ensures var h := Next(c, s, Run(op)).h; var t := Perform(c, s, op).state.term; var full := s.full[NodeOf(op)];
            t in h.reigns && h.reigns[t].log == full && h.reigns[t].init == |full|
  {
    hide Perform, FullAfter;
  }

  lemma StepIsPrompt(c: Setup, s: Cluster, op: Op)
    requires ClusterInv(c, s) && CanHappen(c, s, Run(op)) && ClusterInv(c, Next(c, s, Run(op)))
    requires Prompt(c.configs[NodeOf(op)], s.nodes[NodeOf(op)])
    ensures Prompt(c.configs[NodeOf(op)], Perform(c, s, op).state)
  {
    hide ClusterInv, Next, Prompt, Rests, MatchesStored, WriteAppend, AppendReply, InstallReply, AppendEntries,
         InstallSnapshotCall, RequestVote, VoteReply, Replicate, ElectAlone, StartElection, ValidConfig;
    var n := NodeOf(op);
    var cfg := c.configs[n];
    var ns := s.nodes[n];
    NodeRunning(c, s, n);
    PeersAre(c.configs.Keys, n, cfg);
    Performed(c, s, op);
    AtRest(c, s, n);
    AtRest(c, Next(c, s, Run(op)), n);
    LeaderStores(c, s, n);
    LeaderStores(c, Next(c, s, Run(op)), n);
    match op
    case Timeout(_) => TimeoutIsPrompt(cfg, ns);
    case Alone(_, t) => WinIsPrompt(c, s, op);
    case ReplicateTo(_, peer) => ReplicateIsPrompt(cfg, ns, peer);
    case ClientWrite(_, key, value) => WriteIsPrompt(cfg, ns, key, value);
    case Deliver(m) =>
      match m
      case VoteCall(_, _, req) => VoteIsPrompt(cfg, ns, req);
      case VoteAnswer(_, _, _, _) => WinIsPrompt(c, s, op);
      case AppendCall(_, _, req) => AppendEntriesMatch(cfg, ns, req); FollowsIsPrompt(c, s, op);
      case AppendAnswer(src, _, t, last, resp) => AppendReplyIsPrompt(cfg, ns, src, t, last, resp);
      case InstallCall(_, _, req) => FollowsIsPrompt(c, s, op);
      case InstallAnswer(src, _, _, k, resp) => InstallReplyIsPrompt(cfg, ns, src, k, resp);
  }

  lemma WinIsPrompt(c: Setup, s: Cluster, op: Op)
    requires ClusterInv(c, s) && CanHappen(c, s, Run(op)) && ClusterInv(c, Next(c, s, Run(op)))
    requires op.Alone? || (op.Deliver? && op.m.VoteAnswer?)
    requires Prompt(c.configs[NodeOf(op)], s.nodes[NodeOf(op)])
    requires c.configs[NodeOf(op)].id !in c.configs[NodeOf(op)].peers
    ensures Prompt(c.configs[NodeOf(op)], Perform(c, s, op).state)
  {
    hide ClusterInv, Next, Prompt, NothingOwn, SetAll;
    var n := NodeOf(op);
    var ns := s.nodes[n];
    if ns.role == Candidate && Perform(c, s, op).state.role == Leader { WinnerHasNothing(c, s, op); }
    if op.Alone? {
      AloneIsPrompt(c.configs[n], ns, op.reqTerm);
    } else {
      VoteReplyIsPrompt(c.configs[n], ns, op.m.src, op.m.reqTerm, op.m.voted);
    }
  }

  lemma FollowsIsPrompt(c: Setup, s: Cluster, op: Op)
    requires CanHappen(c, s, Run(op)) && op.Deliver? && (op.m.AppendCall? || op.m.InstallCall?)
    requires Prompt(c.configs[NodeOf(op)], s.nodes[NodeOf(op)])
    ensures Prompt(c.configs[NodeOf(op)], Perform(c, s, op).state)
  {
    hide Prompt, AppendEntries, InstallSnapshotCall;
    var ns := s.nodes[NodeOf(op)];
    if op.m.AppendCall? {
      AppendEntriesStays(c.configs[NodeOf(op)], ns, op.m.append);
    } else {
      InstallStays(ns, op.m.install);
    }
    FollowersArePrompt(c.configs[NodeOf(op)], ns, Perform(c, s, op).state);
  }

  /** In every reachable state, every node has put nothing off. */
  lemma {:induction false} AlwaysPrompt(c: Setup, states: seq<Cluster>, events: seq<Event>, i: nat, n: NodeId)
    requires ValidSetup(c) && IsRun(c, states, events) && i < |states| && n in c.configs
    ensures n in states[i].nodes && Prompt(c.configs[n], states[i].nodes[n])
  {
    hide IsRun, ValidSetup, ClusterInv, Next, CanHappen, Prompt, Perform;
    RunLength(c, states, events);
    if i == 0 {
      StartsPrompt(c, states, events, n);
    } else {
      AlwaysPrompt(c, states, events, i - 1, n);
      RunInv(c, states, events, i - 1);
      RunInv(c, states, events, i);
      RunStep(c, states, events, i - 1);
      EventIsPrompt(c, states[i - 1], events[i - 1], n);
    }
  }

  lemma EventIsPrompt(c: Setup, s: Cluster, e: Event, n: NodeId)
    requires ClusterInv(c, s) && CanHappen(c, s, e) && ClusterInv(c, Next(c, s, e))
    requires n in c.configs && n in s.nodes && Prompt(c.configs[n], s.nodes[n])
    ensures n in Next(c, s, e).nodes && Prompt(c.configs[n], Next(c, s, e).nodes[n])
  {
    hide ClusterInv, Perform, Prompt, HistoryDone, HistoryAfter, FullAfter, Enabled;
    EnabledNode(c, s, e.op);
    if n == NodeOf(e.op) {
      if e.Run? {
        StepIsPrompt(c, s, e.op);
      } else {
        RestartIsPrompt(c.configs[n], Next(c, s, e).nodes[n].disk);
      }
    }
  }

  lemma RestartIsPrompt(cfg: Config, d: Disk)
    ensures Prompt(cfg, Restart(d))
  {
  }

  lemma StartsPrompt(c: Setup, states: seq<Cluster>, events: seq<Event>, n: NodeId)
    requires IsRun(c, states, events) && n in c.configs
    ensures n in states[0].nodes && Prompt(c.configs[n], states[0].nodes[n])
  {
  }

  // ----- what this means -----

  /**
   * A leader has committed all that it may: no entry of its term behind its commit index is known to be on a quorum of
   * the cluster.
   */
  lemma LeaderCommitsAll(c: Setup, states: seq<Cluster>, events: seq<Event>, i: nat, n: NodeId, k: nat)
    requires ValidSetup(c) && IsRun(c, states, events) && i < |states| && n in states[i].nodes
    requires states[i].nodes[n].role == Leader
    ensures n in states[i].full
    ensures var ns := states[i].nodes[n]; var full := states[i].full[n];
            ns.commitIndex < k <= |full| && full[k - 1].term == ns.term ==>
              !IsQuorum(c.configs.Keys, {n} + set p | p in c.configs && p != n && Get(ns.matchIndex, p) >= k)
  {
    hide IsRun, ValidSetup, Inv, Abs, NodeOk, ValidConfig;
    RunInv(c, states, events, i);
    NodeRunning(c, states[i], n);
    AlwaysPrompt(c, states, events, i, n);
    var ns := states[i].nodes[n];
    var full := states[i].full[n];
    NodeParts(ns, full);
    LastAgrees(ns.disk.log, full);
    TermAtAgrees(ns.disk.log, full, k);
    if ns.commitIndex < k <= |full| && full[k - 1].term == ns.term {
      CountedQuorum(c.configs.Keys, n, c.configs[n], ns.matchIndex, k);
      PeersAre(c.configs.Keys, n, c.configs[n]);
      assert (set p | p in c.configs && p != n && Get(ns.matchIndex, p) >= k)
          == MatchingPeers(c.configs[n].peers, ns.matchIndex, k);
      assert !Committable(c.configs[n], ns, k);
    }
  }

  /** A candidate that has peers has not counted the votes of a quorum: with those it leads. */
  lemma CandidateLacksVotes(c: Setup, states: seq<Cluster>, events: seq<Event>, i: nat, n: NodeId)
    requires ValidSetup(c) && IsRun(c, states, events) && i < |states| && n in states[i].nodes
    requires states[i].nodes[n].role == Candidate
    ensures IsQuorum(c.configs.Keys, states[i].nodes[n].tally) ==> c.configs.Keys == {n}
  {
    hide IsRun, ValidSetup, Inv, Abs, NodeOk, ValidConfig;
    RunInv(c, states, events, i);
    NodeRunning(c, states[i], n);
    AlwaysPrompt(c, states, events, i, n);
    MajorityOfAll(c.configs.Keys, n, c.configs[n]);
    PeersAre(c.configs.Keys, n, c.configs[n]);
    if c.configs[n].peers == [] {
      forall p | p in c.configs ensures p == n { assert p in c.configs[n].peers <==> p != n; }
    }
  }

  /**
   * A replication attempt always sends: the leader's snapshot if the next index is covered by it, and otherwise a batch
   * of entries from there on, behind an entry that the leader knows the term of.
   */
  lemma AttemptSends(c: Setup, states: seq<Cluster>, events: seq<Event>, i: nat, n: NodeId, p: NodeId)
    requires ValidSetup(c) && IsRun(c, states, events) && i < |states| && n in states[i].nodes && p in c.configs
    requires states[i].nodes[n].role == Leader && p != n
    ensures n in c.configs && n in states[i].full && GoodTable(states[i].nodes[n])
    ensures states[i].nodes[n].disk.log.snapIndex <= |states[i].full[n]|
    ensures 1 <= Get(states[i].nodes[n].nextIndex, p) <= |states[i].full[n]| + 1
    ensures var ns := states[i].nodes[n]; var out := Replicate(c.configs[n], ns, p);
            out.state == ns && out.writes == [] && Sent(ns, states[i].full[n], n, Get(ns.nextIndex, p), out.reply)
  {
    hide IsRun, ValidSetup, Inv, Abs, ValidConfig, NothingCounted, NodeOk, Sent, Replicate;
    RunInv(c, states, events, i);
    NodeRunning(c, states[i], n);
    AlwaysPrompt(c, states, events, i, n);
    PeersAre(c.configs.Keys, n, c.configs[n]);
    var ns := states[i].nodes[n];
    var full := states[i].full[n];
    NodeParts(ns, full);
    LastAgrees(ns.disk.log, full);
    LogFacts(c.configs.Keys, Abs(states[i]), n);
    SendsOne(c.configs[n], ns, p, full);
  }

  /** What goes out to a peer with this next index. */
  predicate Sent(ns: NodeState, full: seq<Entry>, n: NodeId, next: nat, reply: Sending)
    requires ns.disk.log.snapIndex <= |full| && 1 <= next <= |full| + 1
  {
    var snap := ns.disk.log.snapIndex;
    var end := Min(|full|, next - 1 + BATCH_SIZE);
    if next <= snap then
      reply == SendInstall(InstallRequest(ns.term, n, snap, TermOf(full, snap), Image(Replay(full[..snap]))))
    else
      reply == SendAppend(AppendRequest(ns.term, n, next - 1, TermOf(full, next - 1), full[next - 1..end],
                                        ns.commitIndex), end)
  }

  lemma SendsOne(cfg: Config, ns: NodeState, p: NodeId, full: seq<Entry>)
    requires GoodTable(ns) && NodeOk(ns, full) && Numbered(full) && ns.role == Leader
    requires ns.disk.log.snapIndex <= |full| && 1 <= Get(ns.nextIndex, p) <= |full| + 1
    ensures var out := Replicate(cfg, ns, p);
            out.state == ns && out.writes == [] && Sent(ns, full, cfg.id, Get(ns.nextIndex, p), out.reply)
  {
    hide Represents, Replay;
    NodeParts(ns, full);
    if Get(ns.nextIndex, p) > ns.disk.log.snapIndex {
      hide Replicate;
      SendIs(cfg, ns, p, full);
    } else {
      SnapTerm(ns.disk.log, full);
    }
  }

  /**
   * Whatever the next index, the attempts of one call come to send something: as long as the index is more than one
   * behind the end of the log, an attempt only lowers it by one, and then it goes out.
   */
  lemma {:induction false} AttemptsReachTheLog(cfg: Config, s: NodeState, p: NodeId)
    requires GoodTable(s) && s.role == Leader && Get(s.nextIndex, p) > s.disk.log.LastIndex() + 1
    ensures var out := Replicate(cfg, s, p);
            && out.reply == Retry && out.writes == []
            && out.state == s.(nextIndex := s.nextIndex[p := Get(s.nextIndex, p) - 1])
    ensures var end := s.(nextIndex := s.nextIndex[p := s.disk.log.LastIndex() + 1]);
            Retried(cfg, s, p, Get(s.nextIndex, p) - s.disk.log.LastIndex() - 1) == end
            && var reply := Replicate(cfg, end, p).reply;
            reply.SendAppend? && reply.append.prevIndex == s.disk.log.LastIndex() && reply.append.entries == []
    decreases Get(s.nextIndex, p)
  {
    var m := Replicate(cfg, s, p).state;
    var end := s.(nextIndex := s.nextIndex[p := s.disk.log.LastIndex() + 1]);
    assert m.(nextIndex := m.nextIndex[p := s.disk.log.LastIndex() + 1]) == end;
    if Get(m.nextIndex, p) > s.disk.log.LastIndex() + 1 {
      AttemptsReachTheLog(cfg, m, p);
    } else {
      assert m == end;
      assert Retried(cfg, m, p, 0) == m;
    }
  }

  /** The node after so many attempts that only lowered the next index. */
  function Retried(cfg: Config, s: NodeState, p: NodeId, attempts: nat): NodeState
    requires GoodTable(s)
    decreases attempts
  {
    if attempts == 0 || Replicate(cfg, s, p).reply != Retry then s
    else
      assert Replicate(cfg, s, p).state.disk == s.disk;
      Retried(cfg, Replicate(cfg, s, p).state, p, attempts - 1)
  }

  /** A leader accepts every write with a key; nobody else accepts any. */
  lemma AcceptsAsLeader(cfg: Config, s: NodeState, key: string, value: string)
    requires GoodTable(s)
    ensures var out := WriteAppend(cfg, s, key, value);
            if key != "" && s.role == Leader then
              out.reply == Some(Entry(s.disk.log.LastIndex() + 1, s.term, SetCommand(key, value)))
            else out == Out(s, None, [])
  {
    hide AdvanceCommit;
  }

  lemma SnapTerm(t: LogTable, full: seq<Entry>)
    requires Represents(t, full)
    ensures t.snapIndex <= |full| && t.snapTerm == TermOf(full, t.snapIndex)
  {
  }
}
