/**
 * The theorems about runs. A run starts from empty nodes and takes any events: elections, replication, client
 * writes, messages lost, repeated or late, compaction, snapshots, and crashes after any transaction.
 */
module RaftSafety {
  import opened RaftTypes
  import opened Logs
  import opened LogTables
  import opened Compaction
  import opened Disks
  import opened NodeSpec
  import opened Protocol
  import opened ProtocolActions
  import opened Clusters
  import opened NodeRuns
  import opened HandlerRuns
  import opened FollowerRuns
  import opened LeaderRuns
  import opened ClusterSafety
  import opened OldMatches

  // ----- every step keeps the invariant -----

  lemma EveryOutcome(c: Setup, s: Cluster, op: Op)
    requires ClusterInv(c, s) && Enabled(c, s, op)
    ensures Outcome(c, s, op)
  {
    hide Inv, Outcome, ClusterInv, Enabled;
    match op
    case Timeout(_) => TimeoutOutcome(c, s, op);
    case Alone(_, _) => AloneOutcome(c, s, op);
    case ReplicateTo(_, _) => ReplicateOutcome(c, s, op);
    case ClientWrite(_, _, _) => WriteOutcome(c, s, op);
    case Deliver(m) =>
      match m
      case VoteCall(_, _, _) => VoteCallOutcome(c, s, op);
      case VoteAnswer(_, _, _, _) => VoteAnswerOutcome(c, s, op);
      case AppendCall(_, _, _) => AppendCallOutcome(c, s, op);
      case AppendAnswer(_, _, _, _, _) => AppendAnswerOutcome(c, s, op);
      case InstallCall(_, _, _) => InstallCallOutcome(c, s, op);
      case InstallAnswer(_, _, _, _, _) => InstallAnswerOutcome(c, s, op);
  }

  /** Replacing one node in the cluster replaces one replica in the protocol. */
  lemma AbsReplace(s: Cluster, n: NodeId, ns: NodeState, full: seq<Entry>, msgs: set<Message>, h: History)
    requires s.nodes.Keys == s.full.Keys && n in s.nodes
    ensures Abs(Cluster(s.nodes[n := ns], s.full[n := full], msgs, h))
            == With(Abs(s), n, AbsNode(ns, full), h).(msgs := msgs)
  {
    var t := Cluster(s.nodes[n := ns], s.full[n := full], msgs, h);
    assert Abs(t).replicas == With(Abs(s), n, AbsNode(ns, full), h).replicas;
  }

  lemma ReplaceKeeps(c: Setup, s: Cluster, n: NodeId, ns: NodeState, full: seq<Entry>, sends: set<Message>, h: History)
    requires ClusterInv(c, s) && n in s.nodes
    requires var p := With(Abs(s), n, AbsNode(ns, full), h);
             Inv(c.configs.Keys, p) && (forall m :: m in sends ==> MessageOk(c.configs.Keys, p, m))
    requires NodeOk(ns, full) && Settled(ns)
    requires AllBacked(Cluster(s.nodes[n := ns], s.full[n := full], s.msgs + sends, h))
    ensures ClusterInv(c, Cluster(s.nodes[n := ns], s.full[n := full], s.msgs + sends, h))
  {
    hide Inv, NodeOk, AbsNode, MessageOk, Abs, ValidSetup, Backed;
    var p := With(Abs(s), n, AbsNode(ns, full), h);
    AbsAt(s, n);
    AbsReplace(s, n, ns, full, s.msgs + sends, h);
    SendKeeps(c.configs.Keys, p, sends);
  }

  lemma NextKeeps(c: Setup, s: Cluster, e: Event)
    requires ClusterInv(c, s) && CanHappen(c, s, e)
    ensures ClusterInv(c, Next(c, s, e)) && Grows(s.h, Next(c, s, e).h)
    ensures e.Run? ==> s.nodes[NodeOf(e.op)].commitIndex <= Next(c, s, e).nodes[NodeOf(e.op)].commitIndex
  {
    hide Inv, NodeOk, Perform, HistoryDone, HistoryAfter, FullAfter, ClusterInv, MessageOk, Enabled, Grows,
         Abs, DiskOk, AllBacked;
    var n := NodeOf(e.op);
    var r := Perform(c, s, e.op);
    EveryOutcome(c, s, e.op);
    EnabledNode(c, s, e.op);
    match e
    case Run(op) =>
      BackedNext(c, s, e);
      ReplaceKeeps(c, s, n, r.state, FullAfter(s.h.reigns, s.full[n], r.writes), r.sends, HistoryDone(c, s, op));
    case CrashIn(op, done) =>
      assert CrashOk(c, s, op, done);
      assert s.msgs + {} == s.msgs;
      BackedNext(c, s, e);
      var d := DiskAfter(s.nodes[n].disk, r.writes, done);
      var full := FullAfter(s.h.reigns, s.full[n], r.writes[..done]);
      RestartOk(d, full);
      ReplaceKeeps(c, s, n, Restart(d), full, {}, HistoryAfter(c, s, op, done));
  }

  /** What is on disk is all a restarted node has. */
  lemma RestartOk(d: Disk, full: seq<Entry>)
    requires DiskOk(d, full)
    ensures NodeOk(Restart(d), full) && Settled(Restart(d))
  {
  }

  /** Nothing has happened yet. */
  lemma EmptyInv(ids: set<NodeId>, p: Proto)
    requires p.h == History(map[], map[], map[]) && p.msgs == {} && p.replicas.Keys == ids
    requires forall n :: n in p.replicas ==> p.replicas[n] == AbsNode(Restart(NewDisk()), [])
    ensures Inv(ids, p)
  {
    forall n | n in p.replicas
      ensures ReplicaOk(ids, p, n) && Committed(ids, p.h, [], 0, 0)
    {
    }
  }

  lemma NewDiskOk()
    ensures NodeOk(Restart(NewDisk()), []) && Settled(Restart(NewDisk()))
  {
  }

  lemma InitialOk(c: Setup)
    requires ValidSetup(c)
    ensures ClusterInv(c, Initial(c))
  {
    hide Inv, NodeOk, Settled, AbsNode;
    EmptyInv(c.configs.Keys, Abs(Initial(c)));
    NewDiskOk();
  }

  /** The invariant holds in every state of every run. */
  lemma {:induction false} RunInv(c: Setup, states: seq<Cluster>, events: seq<Event>, i: nat)
    requires ValidSetup(c) && IsRun(c, states, events) && i < |states|
    ensures ClusterInv(c, states[i])
  {
    hide ClusterInv, Next, CanHappen;
    if i == 0 {
      InitialOk(c);
    } else {
      RunInv(c, states, events, i - 1);
      NextKeeps(c, states[i - 1], events[i - 1]);
    }
  }

  /**
   * A crash at any transaction boundary is safe: stopping a step of a reachable state after any number of its
   * transactions and reloading the disk leaves a state that satisfies the invariant and has forgotten no history.
   */
  lemma CrashIsSafe(c: Setup, states: seq<Cluster>, events: seq<Event>, i: nat, op: Op, done: nat)
    requires ValidSetup(c) && IsRun(c, states, events) && i < |states| && CanHappen(c, states[i], CrashIn(op, done))
    ensures var t := Next(c, states[i], CrashIn(op, done)); var n := NodeOf(op);
            && ClusterInv(c, t) && Grows(states[i].h, t.h)
            && n in t.nodes && t.nodes[n] == Restart(t.nodes[n].disk)
  {
    hide IsRun, ValidSetup, ClusterInv, Perform, HistoryAfter, FullAfter, Grows, Enabled;
    RunInv(c, states, events, i);
    NextKeeps(c, states[i], CrashIn(op, done));
    EnabledNode(c, states[i], op);
  }

  lemma {:induction false} RunGrows(c: Setup, states: seq<Cluster>, events: seq<Event>, i: nat, j: nat)
    requires ValidSetup(c) && IsRun(c, states, events) && i <= j < |states|
    ensures Grows(states[i].h, states[j].h)
    decreases j
  {
    hide ClusterInv, Next, CanHappen, Grows;
    if i == j {
      GrowsRefl(states[i].h);
    } else {
      RunGrows(c, states, events, i, j - 1);
      RunInv(c, states, events, j - 1);
      NextKeeps(c, states[j - 1], events[j - 1]);
      GrowsTrans(states[i].h, states[j - 1].h, states[j].h);
    }
  }

  /** One node at one moment of a run. */
  lemma NodeAt(c: Setup, states: seq<Cluster>, events: seq<Event>, i: nat, n: NodeId)
    requires ValidSetup(c) && IsRun(c, states, events) && i < |states| && n in c.configs
    ensures ClusterInv(c, states[i]) && n in states[i].nodes && n in states[i].full
    ensures var s := states[i];
            && Runs(c.configs.Keys, Abs(s), n, s.nodes[n])
            && Abs(s).replicas[n] == AbsNode(s.nodes[n], s.full[n]) && Abs(s).h == s.h
            && NodeOk(s.nodes[n], s.full[n]) && Settled(s.nodes[n])
  {
    hide Inv, NodeOk, Abs;
    RunInv(c, states, events, i);
    NodeRunning(c, states[i], n);
  }

  // ----- election safety -----

  /** A leader leads the reign of its term, and its log is the log of the reign. */
  lemma LeaderAt(c: Setup, states: seq<Cluster>, events: seq<Event>, i: nat, n: NodeId)
    requires ValidSetup(c) && IsRun(c, states, events) && i < |states| && n in states[i].nodes
    requires states[i].nodes[n].role == Leader
    ensures n in c.configs && n in states[i].full
    ensures var t := states[i].nodes[n].term; var h := states[i].h;
            && t in h.reigns && h.reigns[t].leader == n && h.reigns[t].log == states[i].full[n]
            && ReignLogOk(h.reigns, t)
  {
    hide Inv, NodeOk, Abs, IsRun;
    RunInv(c, states, events, i);
    NodeRunning(c, states[i], n);
    LeaderFacts(c.configs.Keys, Abs(states[i]), n);
    ReignAt(c.configs.Keys, Abs(states[i]), states[i].nodes[n].term);
  }

  /** Election safety: in a whole run, with crashes and restarts, a term has at most one leader. */
  lemma ElectionSafety(c: Setup, states: seq<Cluster>, events: seq<Event>, i: nat, j: nat, a: NodeId, b: NodeId)
    requires ValidSetup(c) && IsRun(c, states, events) && i < |states| && j < |states|
    requires a in states[i].nodes && states[i].nodes[a].role == Leader
    requires b in states[j].nodes && states[j].nodes[b].role == Leader
    requires states[i].nodes[a].term == states[j].nodes[b].term
    ensures a == b
  {
    hide IsRun, ValidSetup;
    LeaderAt(c, states, events, i, a);
    LeaderAt(c, states, events, j, b);
    if i <= j {
      RunGrows(c, states, events, i, j);
    } else {
      RunGrows(c, states, events, j, i);
    }
  }

  /**
   * At this moment there is evidence that node n voted for x in term t: the vote is on its disk, as its own vote is
   * when it stands itself, or an answer that grants it is on the network.
   */
  ghost predicate VotedFor(s: Cluster, n: NodeId, t: nat, x: NodeId) {
    || (n in s.nodes && s.nodes[n].disk.term == t && s.nodes[n].disk.vote == Some(x))
    || exists resp :: VoteAnswer(n, x, t, resp) in s.msgs && resp.granted
  }

  /** One vote a term: whatever evidence there is at two moments of a run, across any restarts, names one candidate. */
  lemma VotesOnce(c: Setup, states: seq<Cluster>, events: seq<Event>, i: nat, j: nat, n: NodeId, t: nat, x: NodeId,
                  y: NodeId)
    requires ValidSetup(c) && IsRun(c, states, events) && i < |states| && j < |states|
    requires VotedFor(states[i], n, t, x) && VotedFor(states[j], n, t, y)
    ensures x == y
  {
    hide IsRun, ValidSetup, VotedFor, Grows;
    EvidenceIsHistory(c, states, events, i, n, t, x);
    EvidenceIsHistory(c, states, events, j, n, t, y);
    if i <= j { RunGrows(c, states, events, i, j); } else { RunGrows(c, states, events, j, i); }
    VotesStay(states[i].h, states[j].h, Ballot(t, n));
    VotesStay(states[j].h, states[i].h, Ballot(t, n));
  }

  lemma VotesStay(g: History, h: History, b: Ballot)
    ensures Grows(g, h) && b in g.votes ==> b in h.votes && h.votes[b] == g.votes[b]
  {
  }

  lemma EvidenceIsHistory(c: Setup, states: seq<Cluster>, events: seq<Event>, i: nat, n: NodeId, t: nat, x: NodeId)
    requires ValidSetup(c) && IsRun(c, states, events) && i < |states| && VotedFor(states[i], n, t, x)
    ensures Ballot(t, n) in states[i].h.votes && states[i].h.votes[Ballot(t, n)].candidate == x
  {
    hide IsRun, ValidSetup, Inv, NodeOk, Abs;
    RunInv(c, states, events, i);
    var s := states[i];
    if n in s.nodes && s.nodes[n].disk.term == t && s.nodes[n].disk.vote == Some(x) {
      NodeRunning(c, s, n);
      NodeParts(s.nodes[n], s.full[n]);
      VoteRecorded(c.configs.Keys, Abs(s), n);
    } else {
      var resp :| VoteAnswer(n, x, t, resp) in s.msgs && resp.granted;
      MessageTrue(c, s, VoteAnswer(n, x, t, resp));
      AbsHistory(s);
    }
  }

  lemma AbsHistory(s: Cluster)
    ensures Abs(s).h == s.h && Abs(s).msgs == s.msgs
  {
  }

  lemma VoteRecorded(ids: set<NodeId>, p: Proto, n: NodeId)
    requires Inv(ids, p) && n in p.replicas && p.replicas[n].vote.Some?
    ensures var b := Ballot(p.replicas[n].term, n);
            b in p.h.votes && p.h.votes[b].candidate == p.replicas[n].vote.value
  {
    assert ReplicaOk(ids, p, n);
  }

  /** A run goes on with any event that can happen. */
  lemma RunGoesOn(c: Setup, states: seq<Cluster>, events: seq<Event>, e: Event)
    returns (after: seq<Cluster>, so: seq<Event>)
    requires |states| == |events| + 1 && IsRun(c, states, events) && CanHappen(c, states[|events|], e)
    ensures IsRun(c, after, so) && |after| == |so| + 1 && after[|so|] == Next(c, states[|events|], e)
    ensures states <= after && events <= so && |so| == |events| + 1 && so[|events|] == e
  {
    hide Next, CanHappen;
    after := states + [Next(c, states[|events|], e)];
    so := events + [e];
  }

  // ----- the leader's log -----

  /** Leader append-only: while it leads a term, a leader's log only grows, by entries of that term. */
  lemma LeaderAppendOnly(c: Setup, states: seq<Cluster>, events: seq<Event>, i: nat, j: nat, n: NodeId)
    requires ValidSetup(c) && IsRun(c, states, events) && i <= j < |states|
    requires n in states[i].nodes && states[i].nodes[n].role == Leader
    requires n in states[j].nodes && states[j].nodes[n].role == Leader
    requires states[i].nodes[n].term == states[j].nodes[n].term
    ensures n in states[i].full && n in states[j].full
    ensures states[i].full[n] <= states[j].full[n]
    ensures forall k :: |states[i].full[n]| <= k < |states[j].full[n]| ==>
              states[j].full[n][k].term == states[i].nodes[n].term
  {
    hide IsRun, ValidSetup;
    LeaderAt(c, states, events, i, n);
    LeaderAt(c, states, events, j, n);
    RunGrows(c, states, events, i, j);
  }

  /** The log of a leader, up to where its vote requests for the term claimed, is the log it was elected with. */
  lemma FrozenAtElection(c: Setup, states: seq<Cluster>, events: seq<Event>, i: nat, n: NodeId, m: Message)
    requires ValidSetup(c) && IsRun(c, states, events) && i < |states|
    requires n in states[i].nodes && states[i].nodes[n].role == Leader
    requires m in states[i].msgs && m.VoteCall? && m.src == n && m.vote.term == states[i].nodes[n].term
    ensures n in states[i].full
    ensures var log := states[i].full[n]; var t := m.vote.term;
            && m.vote.lastIndex <= |log| && m.vote.lastTerm == TermOf(log, m.vote.lastIndex)
            && (forall k :: 0 <= k < m.vote.lastIndex ==> log[k].term < t)
            && (forall k :: m.vote.lastIndex <= k < |log| ==> log[k].term == t)
  {
    hide IsRun, ValidSetup, Inv, NodeOk, Abs;
    LeaderAt(c, states, events, i, n);
    RunInv(c, states, events, i);
    NodeRunning(c, states[i], n);
    MessageTrue(c, states[i], m);
  }

  // ----- log matching -----

  /** Log matching: entries with equal index and term make two nodes' logs equal up to there. */
  lemma LogMatching(c: Setup, states: seq<Cluster>, events: seq<Event>, i: nat, a: NodeId, b: NodeId, k: nat)
    requires ValidSetup(c) && IsRun(c, states, events) && i < |states| && a in c.configs && b in c.configs
    ensures a in states[i].full && b in states[i].full
    ensures var x := states[i].full[a]; var y := states[i].full[b];
            0 < k <= |x| && k <= |y| && x[k - 1].term == y[k - 1].term ==> x[..k] == y[..k]
  {
    hide IsRun, ValidSetup, Inv, NodeOk, Abs;
    NodeAt(c, states, events, i, a);
    NodeAt(c, states, events, i, b);
    var p := Abs(states[i]);
    LogFacts(c.configs.Keys, p, a);
    LogFacts(c.configs.Keys, p, b);
    var x := states[i].full[a];
    var y := states[i].full[b];
    if 0 < k <= |x| && k <= |y| && x[k - 1].term == y[k - 1].term {
      RootedMatch(p.h.reigns, x, y, k);
    }
  }

  /** The same between a log and the entries of a request in flight, including the entry before them. */
  lemma RequestMatching(c: Setup, states: seq<Cluster>, events: seq<Event>, i: nat, m: Message, b: NodeId, k: nat)
    requires ValidSetup(c) && IsRun(c, states, events) && i < |states| && b in c.configs
    requires m in states[i].msgs && m.AppendCall? && k < |m.append.entries|
    ensures b in states[i].full
    ensures var y := states[i].full[b]; var req := m.append;
            req.prevIndex + k < |y| && y[req.prevIndex + k].term == req.entries[k].term ==>
              && y[req.prevIndex..req.prevIndex + k + 1] == req.entries[..k + 1]
              && req.prevTerm == TermOf(y, req.prevIndex)
  {
    hide IsRun, ValidSetup, Inv, NodeOk, Abs, Rooted, Committed, ClusterInv;
    NodeAt(c, states, events, i, b);
    MessageTrue(c, states[i], m);
    var p := Abs(states[i]);
    var req := m.append;
    LogFacts(c.configs.Keys, p, b);
    ReignAt(c.configs.Keys, p, req.term);
    var source := p.h.reigns[req.term].log;
    var y := states[i].full[b];
    if req.prevIndex + k < |y| && y[req.prevIndex + k].term == req.entries[k].term {
      RootedMatch(p.h.reigns, y, source, req.prevIndex + k + 1);
      CutMatches(y, source, req, k);
    }
  }

  lemma CutMatches(y: seq<Entry>, source: seq<Entry>, req: AppendRequest, k: nat)
    requires CutFrom(source, req.prevIndex, req.entries) && req.prevTerm == TermOf(source, req.prevIndex)
    requires k < |req.entries| && Agree(y, source, req.prevIndex + k + 1)
    ensures y[req.prevIndex..req.prevIndex + k + 1] == req.entries[..k + 1] && req.prevTerm == TermOf(y, req.prevIndex)
  {
  }

  // ----- commitment -----

  /** Two committed prefixes agree as far as both reach. */
  lemma CommittedAgree(ids: set<NodeId>, h: History, a: seq<Entry>, k: nat, t: nat, b: seq<Entry>, l: nat, u: nat)
    requires LeadersComplete(ids, h) && Committed(ids, h, a, k, t) && Committed(ids, h, b, l, u) && k <= l
    requires k <= |a| && l <= |b|
    ensures Agree(a, b, k)
  {
    if k > 0 {
      var w: nat, i: nat :| w <= t && CommitWitness(ids, h, a, k, w, i);
      var x: nat, j: nat :| x <= u && CommitWitness(ids, h, b, l, x, j);
      var lw := h.reigns[w].log;
      var lx := h.reigns[x].log;
      assert Agree(b, lx, k);
      assert w < x ==> Agree(lx, lw, i);
      assert x < w ==> Agree(lw, lx, j);
    }
  }

  /** What a node has committed at one moment of a run stays committed at every later moment. */
  lemma CommittedLater(c: Setup, states: seq<Cluster>, events: seq<Event>, i: nat, j: nat, n: NodeId)
    requires ValidSetup(c) && IsRun(c, states, events) && i <= j < |states| && n in c.configs
    ensures n in states[i].nodes && n in states[i].full
    ensures var ns := states[i].nodes[n]; var full := states[i].full[n];
            && ns.lastApplied <= ns.commitIndex <= |full|
            && Committed(c.configs.Keys, states[j].h, full, ns.commitIndex, ns.term)
    ensures LeadersComplete(c.configs.Keys, states[j].h)
  {
    hide IsRun, ValidSetup, Inv, NodeOk, Abs, LeadersComplete, Committed, Grows;
    NodeAt(c, states, events, i, n);
    NodeAt(c, states, events, j, n);
    var p := Abs(states[i]);
    CommitInRange(c.configs.Keys, p, n);
    RunGrows(c, states, events, i, j);
    var ns := states[i].nodes[n];
    var full := states[i].full[n];
    CommittedGrow(c.configs.Keys, states[i].h, states[j].h, full, full, ns.commitIndex, ns.term, ns.term);
    Complete(c.configs.Keys, Abs(states[j]));
    NodeParts(ns, full);
  }

  /**
   * Leader completeness: what a leader has committed is, entry by entry, in the log of every leader of a later
   * term, at any moment of the run.
   */
  lemma LeaderCompleteness(c: Setup, states: seq<Cluster>, events: seq<Event>, i: nat, j: nat, n: NodeId, m: NodeId)
    requires ValidSetup(c) && IsRun(c, states, events) && i < |states| && j < |states|
    requires n in states[i].nodes && states[i].nodes[n].role == Leader
    requires m in states[j].nodes && states[j].nodes[m].role == Leader
    requires states[i].nodes[n].term < states[j].nodes[m].term
    ensures n in states[i].full && m in states[j].full
    ensures var k := states[i].nodes[n].commitIndex;
            && k <= |states[i].full[n]| && k <= |states[j].full[m]|
            && states[i].full[n][..k] == states[j].full[m][..k]
  {
    hide IsRun, ValidSetup, Grows;
    LeaderAt(c, states, events, i, n);
    LeaderAt(c, states, events, j, m);
    var k := states[i].nodes[n].commitIndex;
    var t := states[i].nodes[n].term;
    var u := states[j].nodes[m].term;
    var last := if i <= j then j else i;
    CommittedLater(c, states, events, i, last, n);
    RunGrows(c, states, events, j, last);
    CommittedInInit(c.configs.Keys, states[j].h, states[last].h, states[i].full[n], k, t, u);
  }

  /** A later leader has the committed prefix from the start, and so at every moment of its reign. */
  lemma CommittedInInit(ids: set<NodeId>, g: History, h: History, log: seq<Entry>, k: nat, t: nat, u: nat)
    requires Grows(g, h) && LeadersComplete(ids, h) && Committed(ids, h, log, k, t) && t < u
    requires u in g.reigns && ReignLogOk(g.reigns, u) && k <= |log|
    ensures Agree(log, g.reigns[u].log, k)
  {
    if k > 0 {
      var w: nat, i: nat :| w <= t && CommitWitness(ids, h, log, k, w, i);
      assert i <= h.reigns[u].init && Agree(h.reigns[u].log, h.reigns[w].log, i);
    }
  }

  /**
   * State machine safety, between any two moments of a run and any two nodes: as far as both have applied,
   * they applied the same entries.
   */
  lemma AppliedAgree(c: Setup, states: seq<Cluster>, events: seq<Event>, i: nat, j: nat, a: NodeId, b: NodeId)
    requires ValidSetup(c) && IsRun(c, states, events) && i < |states| && j < |states| && a in c.configs
             && b in c.configs
    ensures a in states[i].nodes && a in states[i].full && b in states[j].nodes && b in states[j].full
    ensures states[i].nodes[a].lastApplied <= |states[i].full[a]|
            && states[j].nodes[b].lastApplied <= |states[j].full[b]|
    ensures var k := Min(states[i].nodes[a].lastApplied, states[j].nodes[b].lastApplied);
            Agree(states[i].full[a], states[j].full[b], k)
  {
    hide IsRun, ValidSetup, Committed, LeadersComplete;
    var last := if i <= j then j else i;
    CommittedLater(c, states, events, i, last, a);
    CommittedLater(c, states, events, j, last, b);
    var ids := c.configs.Keys;
    var h := states[last].h;
    var x := states[i].nodes[a];
    var y := states[j].nodes[b];
    if x.commitIndex <= y.commitIndex {
      CommittedAgree(ids, h, states[i].full[a], x.commitIndex, x.term, states[j].full[b], y.commitIndex, y.term);
    } else {
      CommittedAgree(ids, h, states[j].full[b], y.commitIndex, y.term, states[i].full[a], x.commitIndex, x.term);
    }
  }
}
