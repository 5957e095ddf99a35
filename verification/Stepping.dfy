/** Steps of a run, one for each kind of event, as they are used to lead a cluster to a given state. */
module Stepping {
  import opened RaftTypes
  import opened Logs
  import opened LogTables
  import opened Disks
  import opened NodeSpec
  import opened Protocol
  import opened ProtocolActions
  import opened Clusters
  import opened NodeRuns
  import opened LeaderRuns
  import opened ClusterSafety
  import opened RaftSafety

  predicate Steps(c: Setup, states: seq<Cluster>, events: seq<Event>) {
    && |states| == |events| + 1
    && forall i :: 0 <= i < |events| ==>
         CanHappen(c, states[i], events[i]) && states[i + 1] == Next(c, states[i], events[i])
  }

  /** These events lead from state s to state t. */
  predicate LeadsTo(c: Setup, states: seq<Cluster>, events: seq<Event>, s: Cluster, t: Cluster) {
    Steps(c, states, events) && states[0] == s && states[|events|] == t
  }

  /** Whatever came before state s, events may lead on to state t. */
  ghost predicate GoesOnTo(c: Setup, s: Cluster, t: Cluster) {
    exists states: seq<Cluster>, events: seq<Event> :: LeadsTo(c, states, events, s, t)
  }

  /** A run leads to this state. */
  ghost predicate Reachable(c: Setup, s: Cluster) {
    GoesOnTo(c, Initial(c), s)
  }

  /** A disk that holds plain rows, of which nothing is applied. */
  function Plain(term: nat, vote: Option<NodeId>, rows: seq<Entry>): Disk {
    Disk(term, vote, 0, LogTable(0, 0, rows), map[], None)
  }

  /** A node that has just started on this disk. */
  function FollowerOn(d: Disk): NodeState { Restart(d) }

  function Fresh(): NodeState { FollowerOn(NewDisk()) }

  /** A later state: messages stay on the network, and history only grows. */
  ghost predicate After(c: Setup, s: Cluster, t: Cluster) {
    GoesOnTo(c, s, t) && s.msgs <= t.msgs && Grows(s.h, t.h)
  }

  lemma StaysAt(c: Setup, s: Cluster)
    ensures After(c, s, s)
  {
    assert LeadsTo(c, [s], [], s, s);
    GrowsRefl(s.h);
  }

  lemma StepsOn(c: Setup, s: Cluster, e: Event)
    requires CanHappen(c, s, e)
    ensures GoesOnTo(c, s, Next(c, s, e))
  {
    hide Next, CanHappen;
    assert LeadsTo(c, [s, Next(c, s, e)], [e], s, Next(c, s, e));
  }

  lemma StepsJoin(c: Setup, a: seq<Cluster>, x: seq<Event>, b: seq<Cluster>, y: seq<Event>)
    requires Steps(c, a, x) && Steps(c, b, y) && a[|x|] == b[0]
    ensures Steps(c, a + b[1..], x + y) && (a + b[1..])[0] == a[0] && (a + b[1..])[|x + y|] == b[|y|]
  {
    hide Next, CanHappen;
    var states, events := a + b[1..], x + y;
    forall i | 0 <= i < |events|
      ensures CanHappen(c, states[i], events[i]) && states[i + 1] == Next(c, states[i], events[i])
    {
      if i < |x| {
        assert states[i] == a[i] && states[i + 1] == a[i + 1];
      } else {
        assert states[i] == b[i - |x|] && states[i + 1] == b[i - |x| + 1];
      }
    }
  }

  lemma GoesTrans(c: Setup, s: Cluster, t: Cluster, u: Cluster)
    requires GoesOnTo(c, s, t) && GoesOnTo(c, t, u)
    ensures GoesOnTo(c, s, u)
  {
    hide LeadsTo;
    var a, x :| LeadsTo(c, a, x, s, t);
    var b, y :| LeadsTo(c, b, y, t, u);
    GoesJoin(c, a, x, b, y, s, t, u);
  }

  /** A run leads from each of its states to its end. */
  lemma GoesToEnd(c: Setup, states: seq<Cluster>, events: seq<Event>, i: nat)
    requires |states| == |events| + 1 && IsRun(c, states, events) && i <= |events|
    ensures GoesOnTo(c, states[i], states[|events|])
  {
    hide Next, CanHappen;
    assert LeadsTo(c, states[i..], events[i..], states[i], states[|events|]);
  }

  lemma GoesJoin(c: Setup, a: seq<Cluster>, x: seq<Event>, b: seq<Cluster>, y: seq<Event>, s: Cluster, t: Cluster,
                 u: Cluster)
    requires LeadsTo(c, a, x, s, t) && LeadsTo(c, b, y, t, u)
    ensures |b| > 0 && LeadsTo(c, a + b[1..], x + y, s, u)
  {
    hide Next, CanHappen;
    StepsJoin(c, a, x, b, y);
  }

  lemma AfterTrans(c: Setup, s: Cluster, t: Cluster, u: Cluster)
    requires After(c, s, t) && After(c, t, u)
    ensures After(c, s, u)
  {
    hide GoesOnTo, Grows;
    GoesTrans(c, s, t, u);
    GrowsTrans(s.h, t.h, u.h);
  }

  /** The run that leads to a reachable state. */
  lemma RunTo(c: Setup, s: Cluster) returns (states: seq<Cluster>, events: seq<Event>)
    requires Reachable(c, s)
    ensures |states| == |events| + 1 && IsRun(c, states, events) && states[|events|] == s
  {
    hide Next, CanHappen;
    states, events :| LeadsTo(c, states, events, Initial(c), s);
  }

  lemma Goes(c: Setup, s: Cluster, e: Event)
    requires Reachable(c, s) && CanHappen(c, s, e)
    ensures Reachable(c, Next(c, s, e)) && GoesOnTo(c, s, Next(c, s, e))
    ensures ValidSetup(c) ==> Grows(s.h, Next(c, s, e).h)
  {
    hide Next, CanHappen, ValidSetup, ClusterInv, Grows, GoesOnTo;
    StepsOn(c, s, e);
    GoesTrans(c, Initial(c), s, Next(c, s, e));
    if ValidSetup(c) {
      ReachableOk(c, s);
      NextKeeps(c, s, e);
    }
  }

  lemma ReachableOk(c: Setup, s: Cluster)
    requires ValidSetup(c) && Reachable(c, s)
    ensures ClusterInv(c, s)
  {
    hide IsRun, ValidSetup, ClusterInv, Reachable;
    var states, events := RunTo(c, s);
    RunInv(c, states, events, |events|);
  }

  lemma Ready(c: Setup, s: Cluster, n: NodeId)
    requires ValidSetup(c) && Reachable(c, s) && n in c.configs
    ensures n in s.nodes && n in s.full && GoodTable(s.nodes[n]) && c.configs[n].id == n
    ensures s.nodes.Keys == c.configs.Keys
  {
    hide ValidSetup, Inv, Abs, NodeOk, Reachable;
    ReachableOk(c, s);
    NodeRunning(c, s, n);
  }

  lemma Acts(c: Setup, s: Cluster, op: Op) returns (t: Cluster)
    requires ValidSetup(c) && Reachable(c, s) && Enabled(c, s, op)
    ensures Reachable(c, t) && t.nodes == s.nodes[NodeOf(op) := Perform(c, s, op).state]
    ensures t.msgs == s.msgs + Perform(c, s, op).sends && After(c, s, t)
    ensures CanHappen(c, s, Run(op)) && t == Next(c, s, Run(op))
  {
    hide Perform, Enabled, Reachable, GoesOnTo, ValidSetup, Grows;
    t := Next(c, s, Run(op));
    Goes(c, s, Run(op));
    EnabledNode(c, s, op);
  }

  lemma Stands(c: Setup, s: Cluster, n: NodeId) returns (t: Cluster)
    requires ValidSetup(c) && Reachable(c, s) && n in c.configs && n in s.nodes && s.nodes[n].role != Leader
    ensures Reachable(c, t) && After(c, s, t)
    ensures var out := StartElection(c.configs[n], s.nodes[n]);
            && t.nodes == s.nodes[n := out.state] && out.reply.Some?
            && forall p :: p in c.configs[n].peers ==> VoteCall(n, p, out.reply.value) in t.msgs
  {
    hide Reachable, GoesOnTo, ValidSetup, Grows;
    Ready(c, s, n);
    t := Acts(c, s, Timeout(n));
  }

  lemma Votes(c: Setup, s: Cluster, n: NodeId, p: NodeId, req: VoteRequest) returns (t: Cluster)
    requires ValidSetup(c) && Reachable(c, s) && p in c.configs && p in s.nodes && VoteCall(n, p, req) in s.msgs
    ensures Reachable(c, t) && After(c, s, t)
    ensures var out := RequestVote(s.nodes[p], req);
            t.nodes == s.nodes[p := out.state] && VoteAnswer(p, n, req.term, out.reply) in t.msgs
  {
    hide Reachable, GoesOnTo, ValidSetup, Grows, RequestVote;
    Ready(c, s, p);
    t := Acts(c, s, Deliver(VoteCall(n, p, req)));
  }

  lemma Counts(c: Setup, s: Cluster, n: NodeId, p: NodeId, term: nat, resp: VoteResponse) returns (t: Cluster)
    requires ValidSetup(c) && Reachable(c, s) && n in c.configs && n in s.nodes
             && VoteAnswer(p, n, term, resp) in s.msgs
    ensures Reachable(c, t) && After(c, s, t)
    ensures t.nodes == s.nodes[n := VoteReply(c.configs[n], s.nodes[n], p, term, resp).state]
  {
    hide Reachable, GoesOnTo, ValidSetup, Grows, VoteReply;
    Ready(c, s, n);
    t := Acts(c, s, Deliver(VoteAnswer(p, n, term, resp)));
  }

  lemma WritesTo(c: Setup, s: Cluster, n: NodeId, key: string, value: string) returns (t: Cluster)
    requires ValidSetup(c) && Reachable(c, s) && n in c.configs && n in s.nodes && GoodTable(s.nodes[n])
    ensures Reachable(c, t) && After(c, s, t)
    ensures t.nodes == s.nodes[n := WriteAppend(c.configs[n], s.nodes[n], key, value).state]
    ensures CanHappen(c, s, Run(ClientWrite(n, key, value))) && t == Next(c, s, Run(ClientWrite(n, key, value)))
  {
    hide Reachable, GoesOnTo, ValidSetup, Grows, WriteAppend, Next;
    Ready(c, s, n);
    t := Acts(c, s, ClientWrite(n, key, value));
  }

  lemma Sends(c: Setup, s: Cluster, n: NodeId, p: NodeId) returns (t: Cluster)
    requires ValidSetup(c) && Reachable(c, s) && n in c.configs && n in s.nodes && p in c.configs[n].peers
    requires GoodTable(s.nodes[n])
    ensures Reachable(c, t) && After(c, s, t)
    ensures var out := Replicate(c.configs[n], s.nodes[n], p);
            && t.nodes == s.nodes[n := out.state]
            && (out.reply.SendAppend? ==> AppendCall(n, p, out.reply.append) in t.msgs)
            && (out.reply.SendInstall? ==> InstallCall(n, p, out.reply.install) in t.msgs)
  {
    hide Reachable, GoesOnTo, ValidSetup, Grows, Replicate;
    Ready(c, s, n);
    t := Acts(c, s, ReplicateTo(n, p));
  }

  lemma Takes(c: Setup, s: Cluster, n: NodeId, p: NodeId, req: AppendRequest) returns (t: Cluster)
    requires ValidSetup(c) && Reachable(c, s) && p in c.configs && p in s.nodes && AppendCall(n, p, req) in s.msgs
    requires AppendGuard(c.configs[p], s.nodes[p], req) && GoodTable(s.nodes[p])
    ensures Reachable(c, t) && After(c, s, t)
    ensures var out := AppendEntries(c.configs[p], s.nodes[p], req);
            && t.nodes == s.nodes[p := out.state]
            && AppendAnswer(p, n, req.term, LastSent(req), out.reply) in t.msgs
  {
    hide Reachable, GoesOnTo, ValidSetup, Grows, AppendEntries, AppendGuard;
    Ready(c, s, p);
    TakeShape(c, s, n, p, req);
    t := Acts(c, s, Deliver(AppendCall(n, p, req)));
  }

  lemma TakeShape(c: Setup, s: Cluster, n: NodeId, p: NodeId, req: AppendRequest)
    requires p in c.configs && p in s.nodes && p in s.full && AppendCall(n, p, req) in s.msgs
    requires AppendGuard(c.configs[p], s.nodes[p], req) && GoodTable(s.nodes[p])
    ensures Contiguous(req.prevIndex, req.entries) && Enabled(c, s, Deliver(AppendCall(n, p, req)))
  {
  }

  lemma Learns(c: Setup, s: Cluster, n: NodeId, p: NodeId, term: nat, last: nat, resp: AppendResponse)
    returns (t: Cluster)
    requires ValidSetup(c) && Reachable(c, s) && n in c.configs && n in s.nodes && GoodTable(s.nodes[n])
    requires AppendAnswer(p, n, term, last, resp) in s.msgs
    ensures Reachable(c, t) && After(c, s, t)
    ensures t.nodes == s.nodes[n := AppendReply(c.configs[n], s.nodes[n], p, term, last, resp).state]
  {
    hide Reachable, GoesOnTo, ValidSetup, Grows, AppendReply;
    Ready(c, s, n);
    t := Acts(c, s, Deliver(AppendAnswer(p, n, term, last, resp)));
  }

  lemma Installs(c: Setup, s: Cluster, n: NodeId, p: NodeId, req: InstallRequest) returns (t: Cluster)
    requires ValidSetup(c) && Reachable(c, s) && p in c.configs && p in s.nodes && InstallCall(n, p, req) in s.msgs
    requires InstallGuard(s.nodes[p], req)
    ensures Reachable(c, t) && After(c, s, t)
    ensures var out := InstallSnapshotCall(s.nodes[p], req);
            && t.nodes == s.nodes[p := out.state]
            && (out.reply.Some? ==> InstallAnswer(p, n, req.term, req.lastIndex, out.reply.value) in t.msgs)
  {
    hide Reachable, GoesOnTo, ValidSetup, Grows, InstallSnapshotCall;
    Ready(c, s, p);
    t := Acts(c, s, Deliver(InstallCall(n, p, req)));
  }

  lemma Crashes(c: Setup, s: Cluster, n: NodeId) returns (t: Cluster)
    requires ValidSetup(c) && Reachable(c, s) && n in c.configs && n in s.nodes
    ensures Reachable(c, t) && After(c, s, t) && t.nodes == s.nodes[n := Restart(s.nodes[n].disk)]
  {
    hide Reachable, GoesOnTo, ValidSetup, Grows;
    Ready(c, s, n);
    t := Next(c, s, CrashIn(Timeout(n), 0));
    Goes(c, s, CrashIn(Timeout(n), 0));
  }

  /** A voter after it granted a vote in a new term. */
  function Granted(ns: NodeState, n: NodeId, term: nat): NodeState {
    ns.(role := Follower, term := term, votedFor := Some(n), disk := ns.disk.(term := term, vote := Some(n)))
  }

  /** A candidate after it counted one more vote. */
  function Counted(cfg: Config, ns: NodeState, p: NodeId): NodeState {
    var s := ns.(tally := ns.tally + {p});
    if |s.tally| >= cfg.Majority() then BecomeLeader(cfg, s) else s
  }

  function Standing(cfg: Config, ns: NodeState): NodeState {
    ns.(role := Candidate, term := ns.term + 1, votedFor := Some(cfg.id), tally := {cfg.id},
        disk := SaveTermVote(ns.disk, ns.term + 1, Some(cfg.id)))
  }

  function AskedBy(cfg: Config, ns: NodeState): VoteRequest {
    VoteRequest(ns.term + 1, cfg.id, ns.disk.log.LastIndex(), ns.disk.log.LastTerm())
  }

  lemma GetsVote(c: Setup, s: Cluster, n: NodeId, p: NodeId, req: VoteRequest) returns (t: Cluster)
    requires ValidSetup(c) && Reachable(c, s) && n in c.configs && p in c.configs && n in s.nodes && p in s.nodes
             && n != p
    requires VoteCall(n, p, req) in s.msgs && req.candidate == n
    requires s.nodes[n].role == Candidate && s.nodes[n].term == req.term > s.nodes[p].term
    requires LogUpToDate(req, s.nodes[p].disk.log)
    ensures Reachable(c, t) && After(c, s, t)
    ensures t.nodes == s.nodes[p := Granted(s.nodes[p], n, req.term)][n := Counted(c.configs[n], s.nodes[n], p)]
  {
    hide Reachable, GoesOnTo, ValidSetup, Grows, BecomeLeader;
    var s1 := Votes(c, s, n, p, req);
    GrantShape(s.nodes[p], req);
    t := Counts(c, s1, n, p, req.term, VoteResponse(req.term, true));
    AfterTrans(c, s, s1, t);
  }

  lemma GrantShape(ns: NodeState, req: VoteRequest)
    requires req.term > ns.term && LogUpToDate(req, ns.disk.log)
    ensures var out := RequestVote(ns, req);
            out.state == Granted(ns, req.candidate, req.term) && out.reply == VoteResponse(req.term, true)
  {
  }

  /** An election that one other vote decides. */
  lemma WinsWith(c: Setup, s: Cluster, n: NodeId, a: NodeId) returns (t: Cluster)
    requires ValidSetup(c) && Reachable(c, s) && n in c.configs && a in c.configs[n].peers && a in c.configs && n != a
    requires n in s.nodes && a in s.nodes && s.nodes[n].role != Leader && s.nodes[a].term <= s.nodes[n].term
    requires c.configs[n].id == n && c.configs[n].Majority() == 2
    requires LogUpToDate(AskedBy(c.configs[n], s.nodes[n]), s.nodes[a].disk.log)
    ensures Reachable(c, t) && After(c, s, t)
    ensures forall p :: p in c.configs[n].peers ==> VoteCall(n, p, AskedBy(c.configs[n], s.nodes[n])) in t.msgs
    ensures t.nodes == s.nodes[a := Granted(s.nodes[a], n, s.nodes[n].term + 1)]
                              [n := BecomeLeader(c.configs[n], Standing(c.configs[n], s.nodes[n]).(tally := {n, a}))]
  {
    hide Reachable, GoesOnTo, ValidSetup, Grows, BecomeLeader, LogUpToDate;
    var s1 := Stands(c, s, n);
    t := GetsVote(c, s1, n, a, AskedBy(c.configs[n], s.nodes[n]));
    AfterTrans(c, s, s1, t);
    assert {n} + {a} == {n, a};
    assert |{n, a}| == 2;
  }

  /** An election that two other votes decide. */
  lemma WinsWithTwo(c: Setup, s: Cluster, n: NodeId, a: NodeId, b: NodeId) returns (t: Cluster)
    requires ValidSetup(c) && Reachable(c, s) && n in c.configs && a in c.configs[n].peers && b in c.configs[n].peers
    requires a in c.configs && b in c.configs && n != a && n != b && a != b
    requires n in s.nodes && a in s.nodes && b in s.nodes && s.nodes[n].role != Leader
    requires s.nodes[a].term <= s.nodes[n].term && s.nodes[b].term <= s.nodes[n].term
    requires c.configs[n].id == n && c.configs[n].Majority() == 3
    requires LogUpToDate(AskedBy(c.configs[n], s.nodes[n]), s.nodes[a].disk.log)
    requires LogUpToDate(AskedBy(c.configs[n], s.nodes[n]), s.nodes[b].disk.log)
    ensures Reachable(c, t) && After(c, s, t)
    ensures forall p :: p in c.configs[n].peers ==> VoteCall(n, p, AskedBy(c.configs[n], s.nodes[n])) in t.msgs
    ensures var term := s.nodes[n].term + 1;
            t.nodes == s.nodes[a := Granted(s.nodes[a], n, term)][b := Granted(s.nodes[b], n, term)]
                              [n := BecomeLeader(c.configs[n], Standing(c.configs[n], s.nodes[n]).(tally := {n, a, b}))]
  {
    hide Reachable, GoesOnTo, ValidSetup, Grows, BecomeLeader, LogUpToDate;
    var req := AskedBy(c.configs[n], s.nodes[n]);
    var s1 := Stands(c, s, n);
    assert |{n} + {a}| == 2;
    var s2 := GetsVote(c, s1, n, a, req);
    t := GetsVote(c, s2, n, b, req);
    AfterTrans(c, s, s1, s2);
    AfterTrans(c, s, s2, t);
    assert {n} + {a} + {b} == {n, a, b};
    assert |{n, a, b}| == 3;
  }

  // ----- what a follower makes of a request -----

  /** A node that has accepted the sender as the leader of this term. */
  function Joined(ns: NodeState, term: nat): NodeState {
    if term > ns.term || ns.role != Follower then StepDown(ns, term).state else ns
  }

  /** An accepted request, given what the merge leaves. */
  lemma AcceptsInto(cfg: Config, s: NodeState, req: AppendRequest, log: LogTable)
    requires GoodTable(s) && Contiguous(req.prevIndex, req.entries) && Accepts(s, req)
    requires Mergeable(s.disk.log, req.entries) && log == s.disk.log.Merge(req.entries)
    ensures log.Valid()
    ensures var out := AppendEntries(cfg, s, req);
            var j := Joined(s, req.term).(disk := Joined(s, req.term).disk.(log := log));
            && out.reply == AppendResponse(req.term, true, req.prevIndex + |req.entries|)
            && out.state == if req.leaderCommit > s.commitIndex
                            then ApplyCommitted(cfg, j.(commitIndex := Min(req.leaderCommit, log.LastIndex()))).state
                            else j
  {
    hide LogTable.Merge, ApplyCommitted, MergeWrites;
    MergeValid(s.disk.log, req.entries);
  }

  lemma Rejects(cfg: Config, s: NodeState, req: AppendRequest)
    requires GoodTable(s) && Contiguous(req.prevIndex, req.entries) && req.term >= s.term && !Accepts(s, req)
    ensures var out := AppendEntries(cfg, s, req);
            && out.state == Joined(s, req.term)
            && out.reply == AppendResponse(req.term, false, if req.prevIndex < s.disk.log.snapIndex
                                                            then s.disk.log.snapIndex else s.disk.log.LastIndex())
  {
  }

  /** Entries that are all new, behind the last one. */
  lemma MergesNew(t: LogTable, entries: seq<Entry>)
    requires t.Valid() && entries != [] && entries[0].index == t.LastIndex() + 1
    requires Contiguous(t.LastIndex(), entries)
    ensures Mergeable(t, entries) && t.Merge(entries) == t.(rows := t.rows + entries)
  {
    assert t.TermAt(entries[0].index) == None;
    assert t.FirstDifference(entries) == 0;
    MergeShape(t, entries);
    assert t.rows[..|t.rows|] == t.rows && entries[0..] == entries;
  }

  /** No entries. */
  lemma MergesNone(t: LogTable)
    ensures Mergeable(t, []) && t.Merge([]) == t
  {
    MergeShape(t, []);
  }

  /** Entries of which the first conflicts. */
  lemma MergesOver(t: LogTable, entries: seq<Entry>)
    requires t.Valid() && entries != [] && t.snapIndex < entries[0].index <= t.LastIndex()
    requires Contiguous(entries[0].index - 1, entries)
             && t.rows[entries[0].index - t.snapIndex - 1].term != entries[0].term
    ensures Mergeable(t, entries)
    ensures t.Merge(entries) == t.(rows := t.rows[..entries[0].index - t.snapIndex - 1] + entries)
  {
    assert t.TermAt(entries[0].index) != Some(entries[0].term);
    assert t.FirstDifference(entries) == 0;
    MergeShape(t, entries);
    assert entries[0..] == entries;
  }

  // ----- what a leader makes of an answer -----

  /** No snapshot is due. */
  predicate Compact(cfg: Config, s: NodeState) {
    cfg.threshold == 0 || s.lastApplied <= s.disk.log.snapIndex || s.lastApplied - s.disk.log.snapIndex < cfg.threshold
  }

  /** A match that commits nothing is only recorded. */
  lemma LearnsQuietly(cfg: Config, s: NodeState, p: NodeId, last: nat, resp: AppendResponse, m: NodeState)
    requires GoodTable(s) && s.role == Leader && resp.term <= s.term && resp.success
    requires resp.matchIndex == last >= Get(s.matchIndex, p)
    requires m == s.(matchIndex := if last > Get(s.matchIndex, p) then s.matchIndex[p := last] else s.matchIndex,
                     nextIndex := s.nextIndex[p := last + 1])
    requires NothingCounted(cfg, m) && s.lastApplied == s.commitIndex && Compact(cfg, s)
    ensures AppendReply(cfg, s, p, s.term, last, resp).state == m
  {
    hide Committable;
    assert HighestCommittable(cfg, m, m.commitIndex, m.disk.log.LastIndex()) == m.commitIndex;
  }

  /** A match that lets the leader commit its whole log. */
  lemma LearnsAll(cfg: Config, s: NodeState, p: NodeId, last: nat, resp: AppendResponse, m: NodeState)
    requires GoodTable(s) && s.role == Leader && resp.term <= s.term && resp.success
    requires resp.matchIndex == last > Get(s.matchIndex, p)
    requires m == s.(matchIndex := s.matchIndex[p := last], nextIndex := s.nextIndex[p := last + 1])
    requires s.commitIndex < s.disk.log.LastIndex() && Committable(cfg, m, m.disk.log.LastIndex())
    ensures AppendReply(cfg, s, p, s.term, last, resp).state
            == ApplyCommitted(cfg, m.(commitIndex := m.disk.log.LastIndex())).state
  {
    hide Committable, ApplyCommitted;
    assert HighestCommittable(cfg, m, m.commitIndex, m.disk.log.LastIndex()) == m.disk.log.LastIndex();
  }

  lemma LearnsNo(cfg: Config, s: NodeState, p: NodeId, last: nat, resp: AppendResponse)
    requires GoodTable(s) && s.role == Leader && resp.term <= s.term && !resp.success && Get(s.nextIndex, p) > 1
    ensures AppendReply(cfg, s, p, s.term, last, resp).state
            == s.(nextIndex := s.nextIndex[p := Get(s.nextIndex, p) - 1])
  {
  }

  /** What a leader sends from a table that holds what is needed. */
  lemma SendsFrom(cfg: Config, s: NodeState, p: NodeId, entries: seq<Entry>, prevTerm: nat)
    requires GoodTable(s) && s.role == Leader
             && s.disk.log.snapIndex < Get(s.nextIndex, p) <= s.disk.log.LastIndex() + 1
    requires s.disk.log.TermAt(Get(s.nextIndex, p) - 1) == Some(prevTerm)
    requires entries == s.disk.log.rows[Get(s.nextIndex, p) - 1 - s.disk.log.snapIndex..] && |entries| <= BATCH_SIZE
    ensures Replicate(cfg, s, p).state == s
    ensures Replicate(cfg, s, p).reply.SendAppend?
    ensures Replicate(cfg, s, p).reply.append ==
            AppendRequest(s.term, cfg.id, Get(s.nextIndex, p) - 1, prevTerm, entries, s.commitIndex)
  {
    hide LogTable.TermAt;
    assert s.disk.log.EntriesFrom(Get(s.nextIndex, p), BATCH_SIZE) == entries;
  }

  lemma WritesRow(cfg: Config, s: NodeState, key: string, value: string)
    requires GoodTable(s) && key != "" && s.role == Leader && cfg.Majority() > 1
    ensures var e := Entry(s.disk.log.LastIndex() + 1, s.term, SetCommand(key, value));
            WriteAppend(cfg, s, key, value).state ==
            s.(disk := s.disk.(log := s.disk.log.(rows := s.disk.log.rows + [e])),
               matchIndex := s.matchIndex[cfg.id := e.index])
  {
    var t := s.disk.log;
    assert t.rows[..|t.rows|] == t.rows && t.rows[|t.rows|..] == [];
  }

  // ----- whole rounds -----

  /** The leader sends this request, the peer makes this of it, and gives this answer. */
  predicate Exchange(c: Setup, n: NodeId, l: NodeState, p: NodeId, f: NodeState, req: AppendRequest, g: NodeState,
                     resp: AppendResponse)
  {
    && n in c.configs && p in c.configs[n].peers && p in c.configs && GoodTable(l) && GoodTable(f)
    && AppendGuard(c.configs[p], f, req)
    && Replicate(c.configs[n], l, p).state == l
    && Replicate(c.configs[n], l, p).reply.SendAppend? && Replicate(c.configs[n], l, p).reply.append == req
    && AppendEntries(c.configs[p], f, req).state == g && AppendEntries(c.configs[p], f, req).reply == resp
  }

  lemma Exchanges(c: Setup, s: Cluster, n: NodeId, l: NodeState, p: NodeId, f: NodeState, req: AppendRequest,
                  g: NodeState,
                  resp: AppendResponse) returns (t: Cluster)
    requires ValidSetup(c) && Reachable(c, s) && n != p && n in s.nodes && p in s.nodes
    requires s.nodes[n] == l && s.nodes[p] == f && Exchange(c, n, l, p, f, req, g, resp)
    ensures Reachable(c, t) && After(c, s, t) && t.nodes == s.nodes[p := g]
    ensures AppendAnswer(p, n, req.term, LastSent(req), resp) in t.msgs
  {
    hide Reachable, GoesOnTo, ValidSetup, Grows, Replicate, AppendEntries, AppendGuard, LastSent;
    var s1 := Sends(c, s, n, p);
    assert s1.nodes == s.nodes;
    t := Takes(c, s1, n, p, req);
    AfterTrans(c, s, s1, t);
  }

  /** The same with the answer delivered. */
  lemma Rounds(c: Setup, s: Cluster, n: NodeId, l: NodeState, p: NodeId, f: NodeState, req: AppendRequest, g: NodeState,
               resp: AppendResponse, m: NodeState) returns (t: Cluster)
    requires ValidSetup(c) && Reachable(c, s) && n != p && n in s.nodes && p in s.nodes
    requires s.nodes[n] == l && s.nodes[p] == f && Exchange(c, n, l, p, f, req, g, resp)
    requires m == AppendReply(c.configs[n], l, p, req.term, LastSent(req), resp).state
    ensures Reachable(c, t) && After(c, s, t) && t.nodes == s.nodes[p := g][n := m]
    ensures AppendAnswer(p, n, req.term, LastSent(req), resp) in t.msgs
  {
    hide Reachable, GoesOnTo, ValidSetup, Grows, Replicate, AppendEntries, AppendGuard, LastSent, AppendReply;
    var s1 := Exchanges(c, s, n, l, p, f, req, g, resp);
    t := Learns(c, s1, n, p, req.term, LastSent(req), resp);
    AfterTrans(c, s, s1, t);
  }
}
