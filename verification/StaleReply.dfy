/**
 * A run of five nodes in which the answer to a snapshot reaches a follower that led two earlier terms. Handled as the
 * source handles it, the answer would make the follower commit an entry that only it and its leader hold, and that a
 * later leader does not have.
 */
module StaleReply {
  import opened RaftTypes
  import opened Logs
  import opened LogTables
  import opened Disks
  import opened NodeSpec
  import opened Protocol
  import opened ProtocolActions
  import opened Applying
  import opened Compaction
  import opened Clusters
  import opened NodeRuns
  import opened FollowerRuns
  import opened LeaderRuns
  import opened ClusterSafety
  import opened LogRepair
  import opened Stepping

  /** Five nodes; node 0 takes a snapshot after every entry, the others never do. */
  function Five(): Setup { Setup(map n | n in IDS :: ConfigOf(n)) }

  const IDS: set<NodeId> := {0, 1, 2, 3, 4}

  function ConfigOf(n: NodeId): Config {
    if n == 0 then Config(0, [1, 2, 3, 4], 1)
    else if n == 1 then Config(1, [0, 2, 3, 4], 0)
    else if n == 2 then Config(2, [0, 1, 3, 4], 0)
    else if n == 3 then Config(3, [0, 1, 2, 4], 0)
    else Config(n, [0, 1, 2, 3], 0)
  }

  const E1: Entry := Entry(1, 1, SetCommand("k", "1"))
  const E2: Entry := Entry(2, 1, SetCommand("k", "2"))
  const E3: Entry := Entry(3, 1, SetCommand("k", "3"))
  const F2: Entry := Entry(2, 2, SetCommand("k", "4"))
  const F3: Entry := Entry(3, 4, SetCommand("k", "5"))

  const SNAP: Snapshot := Snapshot(1, 1, Image(map["k" := "1"]))
  const APPLIED: map<string, KvRow> := map["k" := KvRow("1", 1)]

  predicate Nodes(s: Cluster, n0: NodeState, n1: NodeState, n2: NodeState, n3: NodeState, n4: NodeState) {
    && 0 in s.nodes && 1 in s.nodes && 2 in s.nodes && 3 in s.nodes && 4 in s.nodes
    && s.nodes[0] == n0 && s.nodes[1] == n1 && s.nodes[2] == n2 && s.nodes[3] == n3 && s.nodes[4] == n4
  }

  /** A disk with a snapshot of the first entry, and rows behind it. */
  function Compacted(term: nat, vote: Option<NodeId>, rows: seq<Entry>): Disk {
    Disk(term, vote, 1, LogTable(1, 1, rows), APPLIED, Some(SNAP))
  }

  /** A disk with the first entry stored and applied. */
  function Stored(term: nat, vote: Option<NodeId>, rows: seq<Entry>): Disk {
    Disk(term, vote, 1, LogTable(0, 0, rows), APPLIED, None)
  }

  function Ahead(i: nat): map<NodeId, nat> { map[1 := i, 2 := i, 3 := i, 4 := i] }

  function Lead(term: nat, next: map<NodeId, nat>, matched: map<NodeId, nat>, d: Disk): NodeState {
    NodeState(Leader, term, Some(0), d.lastApplied, d.lastApplied, next, matched, {0, 1, 2}, d)
  }

  function Matches(own: nat, a: nat, b: nat): map<NodeId, nat> { map[0 := own, 1 := a, 2 := b, 3 := 0, 4 := 0] }

  // ----- term 1: node 0 leads, commits the first entry and compacts it -----

  function Lead1(): NodeState { Lead(1, Ahead(1), Matches(0, 0, 0), Plain(1, Some(0), [])) }

  lemma Elected1()
    ensures BecomeLeader(ConfigOf(0), Standing(ConfigOf(0), Fresh()).(tally := {0, 1, 2})) == Lead1()
  {
    hide SetAll;
    SetFour(map[], 1);
    SetFour(map[], 0);
    assert map[1 := 0, 2 := 0, 3 := 0, 4 := 0][0 := 0] == Matches(0, 0, 0);
  }

  lemma SetFour(m: map<NodeId, nat>, v: nat)
    ensures SetAll(m, [1, 2, 3, 4], v) == m + map[1 := v, 2 := v, 3 := v, 4 := v]
    ensures map[] + map[1 := v, 2 := v, 3 := v, 4 := v] == map[1 := v, 2 := v, 3 := v, 4 := v]
  {
  }

  lemma FiveOk()
    ensures ValidSetup(Five()) && Five().configs.Keys == IDS
  {
    hide ValidConfig, ConfigOf;
    forall n | n in IDS
      ensures ValidConfig(IDS, n, ConfigOf(n))
    {
      PeersOf(n);
    }
    assert Five().configs.Keys == IDS;
  }

  lemma PeersOf(n: NodeId)
    requires n in IDS
    ensures ValidConfig(IDS, n, ConfigOf(n))
  {
    hide ValidConfig;
    if n == 0 { FourPeers(0, 1, 2, 3, 4, 1); }
    else if n == 1 { FourPeers(1, 0, 2, 3, 4, 0); }
    else if n == 2 { FourPeers(2, 0, 1, 3, 4, 0); }
    else if n == 3 { FourPeers(3, 0, 1, 2, 4, 0); }
    else { FourPeers(4, 0, 1, 2, 3, 0); }
  }

  lemma FourPeers(n: NodeId, a: NodeId, b: NodeId, c: NodeId, d: NodeId, threshold: nat)
    requires {n, a, b, c, d} == IDS
    requires n !in {a, b, c, d} && a !in {b, c, d} && b !in {c, d} && c != d
    ensures ValidConfig(IDS, n, Config(n, [a, b, c, d], threshold))
  {
    hide IDS;
    assert IDS - {n} == {a, b, c, d};
    FourDistinct(a, b, c, d);
  }

  lemma FourDistinct(a: NodeId, b: NodeId, c: NodeId, d: NodeId)
    requires a !in {b, c, d} && b !in {c, d} && c != d
    ensures multiset([a, b, c, d]) == multiset({a, b, c, d})
  {
    assert multiset([a, b, c, d]) == multiset{a, b, c, d};
    assert multiset({a, b, c, d}) == multiset{a, b, c, d};
  }

  lemma FreshIsReachable()
    ensures Reachable(Five(), Initial(Five()))
    ensures Nodes(Initial(Five()), Fresh(), Fresh(), Fresh(), Fresh(), Fresh())
  {
    StaysAt(Five(), Initial(Five()));
  }

  lemma Term1() returns (t: Cluster)
    ensures Reachable(Five(), t) && Nodes(t, Lead1(), Voter([]), Voter([]), Fresh(), Fresh())
  {
    hide Reachable, Initial, BecomeLeader, ValidSetup, After;
    FiveOk();
    FreshIsReachable();
    Elected1();
    t := WinsWithTwo(Five(), Initial(Five()), 0, 1, 2);
  }

  function Lead1b(): NodeState { Lead(1, Ahead(1), Matches(1, 0, 0), Plain(1, Some(0), [E1])) }

  function Lead1c(): NodeState { Lead(1, Ahead(1)[1 := 2], Matches(1, 1, 0), Plain(1, Some(0), [E1])) }

  function Lead1d(): NodeState { Lead(1, Ahead(1)[1 := 2][2 := 2], Matches(1, 1, 1), Compacted(1, Some(0), [])) }

  function First(): AppendRequest { AppendRequest(1, 0, 0, 0, [E1], 0) }

  function Voter(rows: seq<Entry>): NodeState { FollowerOn(Plain(1, Some(0), rows)) }

  lemma WriteFirst()
    ensures GoodTable(Lead1()) && WriteAppend(ConfigOf(0), Lead1(), "k", "1").state == Lead1b()
  {
    hide WriteAppend;
    WritesRow(ConfigOf(0), Lead1(), "k", "1");
    assert [] + [E1] == [E1];
  }

  lemma SendFirst(ns: NodeState, p: NodeId)
    requires ns.role == Leader && ns.term == 1 && ns.commitIndex == 0 && Get(ns.nextIndex, p) == 1
    requires ns.disk.log == LogTable(0, 0, [E1])
    ensures GoodTable(ns) && Replicate(ConfigOf(0), ns, p).state == ns
    ensures Replicate(ConfigOf(0), ns, p).reply.SendAppend? && Replicate(ConfigOf(0), ns, p).reply.append == First()
  {
    hide Replicate;
    SendsFrom(ConfigOf(0), ns, p, [E1], 0);
  }

  lemma TakeFirst(cfg: Config)
    ensures GoodTable(Voter([])) && AppendGuard(cfg, Voter([]), First()) && First().term == LastSent(First()) == 1
    ensures AppendEntries(cfg, Voter([]), First()).state == Voter([E1])
    ensures AppendEntries(cfg, Voter([]), First()).reply == AppendResponse(1, true, 1)
  {
    hide LogTable.Merge, AppendEntries;
    MergesNew(Voter([]).disk.log, [E1]);
    assert [] + [E1] == [E1];
    AcceptsInto(cfg, Voter([]), First(), LogTable(0, 0, [E1]));
  }

  lemma LearnFirst()
    ensures GoodTable(Lead1b())
    ensures AppendReply(ConfigOf(0), Lead1b(), 1, 1, 1, AppendResponse(1, true, 1)).state == Lead1c()
  {
    hide AppendReply;
    assert Lead1b().matchIndex[1 := 1] == Matches(1, 1, 0);
    CountFour(Lead1c().matchIndex, 1);
    LearnsQuietly(ConfigOf(0), Lead1b(), 1, 1, AppendResponse(1, true, 1), Lead1c());
  }

  /** What the four peers of node 0 add to a count. */
  lemma CountFour(matched: map<NodeId, nat>, i: nat)
    ensures CountMatches([1, 2, 3, 4], matched, i) ==
            (if Get(matched, 1) >= i then 1 else 0) + (if Get(matched, 2) >= i then 1 else 0)
            + (if Get(matched, 3) >= i then 1 else 0) + (if Get(matched, 4) >= i then 1 else 0)
  {
    var p: seq<NodeId> := [1, 2, 3, 4];
    assert p[..3] == [1, 2, 3] && p[..3][..2] == [1, 2] && p[..3][..2][..1] == [1] && p[..3][..2][..1][..0] == [];
    assert CountMatches(p[..3][..2][..1], matched, i) == if Get(matched, 1) >= i then 1 else 0;
    assert CountMatches(p[..3][..2], matched, i) ==
           CountMatches(p[..3][..2][..1], matched, i) + (if Get(matched, 2) >= i then 1 else 0);
    assert CountMatches(p[..3], matched, i)
       == CountMatches(p[..3][..2], matched, i) + (if Get(matched, 3) >= i then 1 else 0);
  }

  lemma CommitFirst()
    ensures GoodTable(Lead1c())
    ensures AppendReply(ConfigOf(0), Lead1c(), 2, 1, 1, AppendResponse(1, true, 1)).state == Lead1d()
  {
    hide ApplyCommitted, AppendReply;
    var m := Lead1c().(matchIndex := Matches(1, 1, 1), nextIndex := Ahead(1)[1 := 2][2 := 2]);
    assert Lead1c().matchIndex[2 := 1] == m.matchIndex;
    CountFour(m.matchIndex, 1);
    assert Committable(ConfigOf(0), m, 1);
    LearnsAll(ConfigOf(0), Lead1c(), 2, 1, AppendResponse(1, true, 1), m);
    CompactFirst(m.(commitIndex := 1));
  }

  lemma CompactFirst(ready: NodeState)
    requires ready.disk == Plain(1, Some(0), [E1]) && ready.commitIndex == 1 && ready.lastApplied == 0
    ensures ApplyCommitted(ConfigOf(0), ready).state == ready.(lastApplied := 1, disk := Compacted(1, Some(0), []))
  {
    ApplyFirst(ready);
    assert Values(APPLIED) == map["k" := "1"];
    assert LogTable(0, 0, [E1]).Rebase(1, 1) == LogTable(1, 1, []);
  }

  /** Applying the first entry. */
  lemma ApplyFirst(s: NodeState)
    requires GoodTable(s) && s.disk.log.snapIndex == 0 && |s.disk.log.rows| > 0 && s.disk.log.rows[0] == E1
    requires s.disk.kv == map[] && s.lastApplied == 0 && s.commitIndex == 1
    ensures var a := ApplyLoop(s);
            a.finished && a.state == s.(lastApplied := 1, disk := s.disk.(kv := APPLIED, lastApplied := 1))
  {
    var next := s.(lastApplied := 1, disk := s.disk.(kv := APPLIED, lastApplied := 1));
    assert map[]["k" := KvRow("1", 1)] == APPLIED;
    assert ApplyLoop(next) == Applied(next, [], true);
  }

  lemma FirstToOne()
    ensures Exchange(Five(), 0, Lead1b(), 1, Voter([]), First(), Voter([E1]), AppendResponse(1, true, 1))
    ensures Lead1c() == AppendReply(Five().configs[0], Lead1b(), 1, First().term, LastSent(First()),
                                    AppendResponse(1, true, 1)).state
  {
    hide Replicate, AppendEntries, AppendReply, AppendGuard;
    FiveOk();
    SendFirst(Lead1b(), 1);
    TakeFirst(ConfigOf(1));
    LearnFirst();
  }

  lemma FirstToTwo()
    ensures Exchange(Five(), 0, Lead1c(), 2, Voter([]), First(), Voter([E1]), AppendResponse(1, true, 1))
    ensures Lead1d() == AppendReply(Five().configs[0], Lead1c(), 2, First().term, LastSent(First()),
                                    AppendResponse(1, true, 1)).state
  {
    hide Replicate, AppendEntries, AppendReply, AppendGuard;
    FiveOk();
    SendFirst(Lead1c(), 2);
    TakeFirst(ConfigOf(2));
    CommitFirst();
  }

  lemma Committed1() returns (t: Cluster)
    ensures Reachable(Five(), t) && Nodes(t, Lead1d(), Voter([E1]), Voter([E1]), Fresh(), Fresh())
  {
    hide Reachable, ValidSetup, WriteAppend, AppendReply, Lead1, Lead1b, Lead1c, Lead1d, Voter, First, Fresh,
         GoodTable, After, Exchange, Five, LastSent;
    FiveOk();
    WriteFirst();
    FirstToOne();
    FirstToTwo();
    t := Term1();
    ConfigIs(0);
    t := WritesTo(Five(), t, 0, "k", "1");
    t := Rounds(Five(), t, 0, Lead1b(), 1, Voter([]), First(), Voter([E1]), AppendResponse(1, true, 1), Lead1c());
    t := Rounds(Five(), t, 0, Lead1c(), 2, Voter([]), First(), Voter([E1]), AppendResponse(1, true, 1), Lead1d());
  }

  lemma ConfigIs(n: NodeId)
    requires n in IDS
    ensures n in Five().configs && Five().configs[n] == ConfigOf(n)
  {
  }

  // ----- still term 1: node 3 is sent the snapshot, node 2 two more entries -----

  function Given(): InstallRequest { InstallRequest(1, 0, 1, 1, Image(map["k" := "1"])) }

  function Given3(): NodeState { FollowerOn(Compacted(1, None, [])) }

  /** The answer that stays on the network. */
  function Late(): Message { InstallAnswer(3, 0, 1, 1, InstallResponse(1)) }

  lemma SendSnapshot()
    ensures GoodTable(Lead1d()) && Replicate(ConfigOf(0), Lead1d(), 3) == Out(Lead1d(), SendInstall(Given()), [])
  {
  }

  lemma TakeSnapshot()
    ensures InstallGuard(Fresh(), Given())
    ensures InstallSnapshotCall(Fresh(), Given()).state == Given3()
    ensures InstallSnapshotCall(Fresh(), Given()).reply == Some(InstallResponse(1))
  {
    var values := map["k" := "1"];
    assert (map k | k in values :: KvRow(values[k], 1)) == APPLIED;
    assert LogTable(0, 0, []).Rebase(1, 1) == LogTable(1, 1, []);
  }

  function Lead1e(): NodeState {
    Lead(1, Ahead(1)[1 := 2][2 := 2], Matches(2, 1, 1), Compacted(1, Some(0), [E2]))
  }

  function Lead1f(): NodeState {
    Lead(1, Ahead(1)[1 := 2][2 := 2], Matches(3, 1, 1), Compacted(1, Some(0), [E2, E3]))
  }

  lemma WriteSecond()
    ensures GoodTable(Lead1d()) && WriteAppend(ConfigOf(0), Lead1d(), "k", "2").state == Lead1e()
  {
    hide WriteAppend;
    WritesRow(ConfigOf(0), Lead1d(), "k", "2");
    assert [] + [E2] == [E2];
    assert Matches(1, 1, 1)[0 := 2] == Matches(2, 1, 1);
  }

  lemma WriteThird()
    ensures GoodTable(Lead1e()) && WriteAppend(ConfigOf(0), Lead1e(), "k", "3").state == Lead1f()
  {
    hide WriteAppend;
    WritesRow(ConfigOf(0), Lead1e(), "k", "3");
    assert [E2] + [E3] == [E2, E3];
    assert Matches(2, 1, 1)[0 := 3] == Matches(3, 1, 1);
  }

  /** The second and third entry, behind the first. */
  function Rest(term: nat): AppendRequest { AppendRequest(term, 0, 1, 1, [E2, E3], 1) }

  function Full(term: nat, vote: NodeId): NodeState { FollowerOn(Stored(term, Some(vote), [E1, E2, E3])) }

  /** A follower that stores the first entry takes the other two, and applies the first one. */
  lemma TakeRest(cfg: Config, term: nat)
    requires cfg.threshold == 0
    ensures var f := FollowerOn(Plain(term, Some(0), [E1]));
            && GoodTable(f) && AppendGuard(cfg, f, Rest(term)) && LastSent(Rest(term)) == 3
            && AppendEntries(cfg, f, Rest(term)).state == Full(term, 0)
            && AppendEntries(cfg, f, Rest(term)).reply == AppendResponse(term, true, 3)
  {
    hide LogTable.Merge, AppendEntries, ApplyLoop;
    var f := FollowerOn(Plain(term, Some(0), [E1]));
    var log := LogTable(0, 0, [E1, E2, E3]);
    MergesNew(f.disk.log, [E2, E3]);
    assert [E1] + [E2, E3] == [E1, E2, E3];
    AcceptsInto(cfg, f, Rest(term), log);
    ApplyFirst(f.(commitIndex := 1, disk := f.disk.(log := log)));
  }

  /** A leader with the snapshot of the first entry sends the other two. */
  lemma SendRest(l: NodeState, p: NodeId)
    requires l.role == Leader && l.disk.log == LogTable(1, 1, [E2, E3]) && l.commitIndex == 1
             && Get(l.nextIndex, p) == 2
    ensures GoodTable(l) && Replicate(ConfigOf(0), l, p).state == l
    ensures Replicate(ConfigOf(0), l, p).reply.SendAppend? && Replicate(ConfigOf(0), l, p).reply.append == Rest(l.term)
  {
    hide Replicate;
    assert l.disk.log.TermAt(1) == Some(1);
    assert [E2, E3][0..] == [E2, E3];
    SendsFrom(ConfigOf(0), l, p, [E2, E3], 1);
  }

  lemma RestToTwo()
    ensures Exchange(Five(), 0, Lead1f(), 2, Voter([E1]), Rest(1), Full(1, 0), AppendResponse(1, true, 3))
  {
    hide Replicate, AppendEntries, AppendGuard, Rest, Full, GoodTable, Five;
    ConfigIs(0);
    ConfigIs(2);
    SendRest(Lead1f(), 2);
    TakeRest(ConfigOf(2), 1);
  }

  lemma Written1() returns (t: Cluster)
    ensures Reachable(Five(), t) && Nodes(t, Lead1f(), Voter([E1]), Full(1, 0), Given3(), Fresh()) && Late() in t.msgs
  {
    hide Reachable, ValidSetup, WriteAppend, Replicate, InstallSnapshotCall, InstallGuard, Lead1d, Lead1e,
         Lead1f, Voter, Full, Fresh, Given3, Exchange, Five, GoodTable, Rest, Grows;
    FiveOk();
    ConfigIs(0);
    ConfigIs(3);
    SendSnapshot();
    TakeSnapshot();
    WriteSecond();
    WriteThird();
    RestToTwo();
    t := Committed1();
    t := Sends(Five(), t, 0, 3);
    t := Installs(Five(), t, 0, 3, Given());
    assert Late() in t.msgs;
    t := WritesTo(Five(), t, 0, "k", "2");
    t := WritesTo(Five(), t, 0, "k", "3");
    t := Exchanges(Five(), t, 0, Lead1f(), 2, Voter([E1]), Rest(1), Full(1, 0), AppendResponse(1, true, 3));
  }

  // ----- term 2: node 3 leads, and writes one entry that it keeps for itself -----

  function Lead3(term: nat, next: nat, own: nat, tally: set<NodeId>, rows: seq<Entry>): NodeState {
    NodeState(Leader, term, Some(3), 1, 1, map[0 := next, 1 := next, 2 := next, 4 := next],
              map[0 := 0, 1 := 0, 2 := 0, 3 := own, 4 := 0], tally, Compacted(term, Some(3), rows))
  }

  lemma SetOthers(m: map<NodeId, nat>, v: nat)
    requires m.Keys <= IDS
    ensures var r := SetAll(m, [0, 1, 2, 4], v);
            && r[3 := v] == map[0 := v, 1 := v, 2 := v, 3 := v, 4 := v]
            && (3 !in m ==> r == map[0 := v, 1 := v, 2 := v, 4 := v])
  {
  }

  lemma Elected2()
    ensures BecomeLeader(ConfigOf(3), Standing(ConfigOf(3), Given3()).(tally := {3, 1, 4}))
            == Lead3(2, 2, 1, {3, 1, 4}, [])
    ensures LogUpToDate(AskedBy(ConfigOf(3), Given3()), Voter([E1]).disk.log)
    ensures LogUpToDate(AskedBy(ConfigOf(3), Given3()), Fresh().disk.log)
    ensures Granted(Voter([E1]), 3, 2) == FollowerOn(Plain(2, Some(3), [E1]))
    ensures Granted(Fresh(), 3, 2) == FollowerOn(Plain(2, Some(3), []))
  {
    hide SetAll;
    SetOthers(map[], 2);
    SetOthers(map[], 0);
    assert map[0 := 0, 1 := 0, 2 := 0, 3 := 0, 4 := 0][3 := 1] == SetAll(map[], [0, 1, 2, 4], 0)[3 := 0][3 := 1];
  }

  function Lead3b(): NodeState { Lead3(2, 2, 2, {3, 1, 4}, [F2]) }

  lemma WriteOwn()
    ensures var l := Lead3(2, 2, 1, {3, 1, 4}, []);
            GoodTable(l) && WriteAppend(ConfigOf(3), l, "k", "4").state == Lead3b()
  {
    hide WriteAppend;
    WritesRow(ConfigOf(3), Lead3(2, 2, 1, {3, 1, 4}, []), "k", "4");
    assert [] + [F2] == [F2];
  }

  /** Node 0 hears of term 2 and steps down; its log is ahead, so it grants nothing. */
  lemma StepsDown0()
    ensures var out := RequestVote(Lead1f(), VoteRequest(2, 3, 1, 1));
            out.state == Lead1f().(role := Follower, term := 2, votedFor := None,
                                   disk := Lead1f().disk.(term := 2, vote := None))
  {
  }

  function Down0(): NodeState {
    Lead1f().(role := Follower, term := 2, votedFor := None, disk := Lead1f().disk.(term := 2, vote := None))
  }

  lemma Term2() returns (t: Cluster)
    ensures Reachable(Five(), t) && Late() in t.msgs
    ensures Nodes(t, Down0(), FollowerOn(Plain(2, Some(3), [E1])), Full(1, 0), Lead3b(),
                  FollowerOn(Plain(2, Some(3), [])))
  {
    hide Reachable, ValidSetup, WriteAppend, RequestVote, BecomeLeader, LogUpToDate, Standing, Granted, Lead1f,
         Lead3b, Lead3, Voter, Full, Fresh, GoodTable, Grows, Five, FollowerOn;
    FiveOk();
    ConfigIs(3);
    Elected2();
    WriteOwn();
    StepsDown0();
    StateFacts2();
    t := Written1();
    t := WinsWithTwo(Five(), t, 3, 1, 4);
    t := WritesTo(Five(), t, 3, "k", "4");
    t := Votes(Five(), t, 3, 0, VoteRequest(2, 3, 1, 1));
  }

  lemma StateFacts2()
    ensures Given3().role != Leader && Given3().term == 1 && Voter([E1]).term <= 1 && Fresh().term <= 1
    ensures AskedBy(ConfigOf(3), Given3()) == VoteRequest(2, 3, 1, 1)
  {
  }

  // ----- term 3: node 0 leads again, and finds that nodes 1 and 2 match it up to index 3 -----

  function Back(next: map<NodeId, nat>, matched: map<NodeId, nat>): NodeState {
    Lead(3, next, matched, Compacted(3, Some(0), [E2, E3]))
  }

  lemma Elected3()
    ensures BecomeLeader(ConfigOf(0), Standing(ConfigOf(0), Down0()).(tally := {0, 1, 2}))
            == Back(Ahead(4), Matches(3, 0, 0))
    ensures Down0().role != Leader && Down0().term == 2
  {
    hide SetAll;
    SetFour(Down0().nextIndex, 4);
    SetFour(Down0().matchIndex, 0);
    Overwritten();
  }

  lemma Overwritten()
    ensures Ahead(1)[1 := 2][2 := 2] + Ahead(4) == Ahead(4) && (Matches(3, 1, 1) + Ahead(0))[0 := 3] == Matches(3, 0, 0)
  {
  }

  lemma Voters3()
    ensures AskedBy(ConfigOf(0), Down0()) == VoteRequest(3, 0, 3, 1)
    ensures LogUpToDate(VoteRequest(3, 0, 3, 1), LogTable(0, 0, [E1]))
    ensures LogUpToDate(VoteRequest(3, 0, 3, 1), LogTable(0, 0, [E1, E2, E3]))
    ensures var f := FollowerOn(Plain(2, Some(3), [E1]));
            f.term == 2 && f.disk.log == LogTable(0, 0, [E1]) && Granted(f, 0, 3) == FollowerOn(Plain(3, Some(0), [E1]))
    ensures var f := Full(1, 0);
            f.term == 1 && f.disk.log == LogTable(0, 0, [E1, E2, E3]) && Granted(f, 0, 3) == Full(3, 0)
  {
  }

  lemma Returned3() returns (t: Cluster)
    ensures Reachable(Five(), t) && Late() in t.msgs && VoteCall(0, 3, VoteRequest(3, 0, 3, 1)) in t.msgs
    ensures Nodes(t, Back(Ahead(4), Matches(3, 0, 0)), FollowerOn(Plain(3, Some(0), [E1])), Full(3, 0), Lead3b(),
                  FollowerOn(Plain(2, Some(3), [])))
  {
    hide Reachable, ValidSetup, BecomeLeader, LogUpToDate, Standing, Granted, Lead3b, Full, Grows, Five,
         FollowerOn, Down0, Back;
    FiveOk();
    ConfigIs(0);
    Elected3();
    Voters3();
    t := Term2();
    t := WinsWithTwo(Five(), t, 0, 1, 2);
  }

  /** A probe at index 3, with nothing behind it. */
  function Behind3(): AppendRequest { AppendRequest(3, 0, 3, 1, [], 1) }

  lemma SendProbe(l: NodeState, p: NodeId)
    requires l.role == Leader && l.disk.log == LogTable(1, 1, [E2, E3]) && l.term == 3 && l.commitIndex == 1
    requires Get(l.nextIndex, p) == 4
    ensures GoodTable(l) && Replicate(ConfigOf(0), l, p).state == l
    ensures Replicate(ConfigOf(0), l, p).reply.SendAppend? && Replicate(ConfigOf(0), l, p).reply.append == Behind3()
  {
    hide Replicate;
    assert l.disk.log.TermAt(3) == Some(1);
    assert [E2, E3][2..] == [];
    SendsFrom(ConfigOf(0), l, p, [], 1);
  }

  /** Nothing of term 3 is in the log, so no match lets the leader commit. */
  lemma NothingOfThree(l: NodeState)
    requires l.term == 3 && l.disk.log == LogTable(1, 1, [E2, E3])
    ensures NothingCounted(ConfigOf(0), l)
  {
  }

  lemma ProbeTwo()
    ensures var l := Back(Ahead(4), Matches(3, 0, 0)); var resp := AppendResponse(3, true, 3);
            && Exchange(Five(), 0, l, 2, Full(3, 0), Behind3(), Full(3, 0), resp)
            && AppendReply(Five().configs[0], l, 2, Behind3().term, LastSent(Behind3()), resp).state
               == Back(Ahead(4), Matches(3, 0, 3))
  {
    hide Replicate, AppendEntries, AppendReply, Five, LogTable.Merge, NothingCounted;
    ConfigIs(0);
    ConfigIs(2);
    var l := Back(Ahead(4), Matches(3, 0, 0));
    SendProbe(l, 2);
    assert GoodTable(Full(3, 0));
    MergesNone(Full(3, 0).disk.log);
    AcceptsInto(ConfigOf(2), Full(3, 0), Behind3(), Full(3, 0).disk.log);
    var m := Back(Ahead(4), Matches(3, 0, 3));
    assert Matches(3, 0, 0)[2 := 3] == Matches(3, 0, 3) && Ahead(4)[2 := 4] == Ahead(4);
    NothingOfThree(m);
    LearnsQuietly(ConfigOf(0), l, 2, 3, AppendResponse(3, true, 3), m);
  }

  lemma ProbeOne()
    ensures var l := Back(Ahead(4), Matches(3, 0, 3)); var f := FollowerOn(Plain(3, Some(0), [E1]));
            var resp := AppendResponse(3, false, 1);
            && GoodTable(l) && GoodTable(f) && Exchange(Five(), 0, l, 1, f, Behind3(), f, resp)
            && AppendReply(ConfigOf(0), l, 1, Behind3().term, LastSent(Behind3()), resp).state
               == Back(Ahead(4)[1 := 3], Matches(3, 0, 3))
            && var l2 := Back(Ahead(4)[1 := 3], Matches(3, 0, 3));
            && GoodTable(l2)
            && AppendReply(ConfigOf(0), l2, 1, Behind3().term, LastSent(Behind3()), resp).state
               == Back(Ahead(4)[1 := 2], Matches(3, 0, 3))
  {
    hide Replicate, AppendEntries, AppendReply, Five;
    ConfigIs(0);
    ConfigIs(1);
    var l := Back(Ahead(4), Matches(3, 0, 3));
    var l2 := Back(Ahead(4)[1 := 3], Matches(3, 0, 3));
    var f := FollowerOn(Plain(3, Some(0), [E1]));
    SendProbe(l, 1);
    assert f.disk.log.TermAt(3) == None;
    Rejects(ConfigOf(1), f, Behind3());
    var resp := AppendResponse(3, false, 1);
    LearnsNo(ConfigOf(0), l, 1, 3, resp);
    LearnsNo(ConfigOf(0), l2, 1, 3, resp);
    assert Ahead(4)[1 := 3][1 := 2] == Ahead(4)[1 := 2];
  }

  lemma RestToOne()
    ensures var l := Back(Ahead(4)[1 := 2], Matches(3, 0, 3)); var resp := AppendResponse(3, true, 3);
            && Exchange(Five(), 0, l, 1, FollowerOn(Plain(3, Some(0), [E1])), Rest(3), Full(3, 0), resp)
            && AppendReply(Five().configs[0], l, 1, Rest(3).term, LastSent(Rest(3)), resp).state
               == Back(Ahead(4), Matches(3, 3, 3))
  {
    hide Replicate, AppendEntries, AppendReply, Five, AppendGuard, Full, NothingCounted;
    ConfigIs(0);
    ConfigIs(1);
    var l := Back(Ahead(4)[1 := 2], Matches(3, 0, 3));
    SendRest(l, 1);
    TakeRest(ConfigOf(1), 3);
    var m := Back(Ahead(4), Matches(3, 3, 3));
    assert Matches(3, 0, 3)[1 := 3] == Matches(3, 3, 3) && Ahead(4)[1 := 2][1 := 4] == Ahead(4);
    NothingOfThree(m);
    LearnsQuietly(ConfigOf(0), l, 1, 3, AppendResponse(3, true, 3), m);
  }

  lemma Matched3() returns (t: Cluster)
    ensures Reachable(Five(), t) && Late() in t.msgs && VoteCall(0, 3, VoteRequest(3, 0, 3, 1)) in t.msgs
    ensures Nodes(t, Back(Ahead(4), Matches(3, 3, 3)), Full(3, 0), Full(3, 0), Lead3b(),
                  FollowerOn(Plain(2, Some(3), [])))
  {
    hide Reachable, ValidSetup, Lead3b, Full, Grows, Five, FollowerOn, Back, Exchange, AppendReply,
         AppendEntries, LastSent, Ahead, Matches, GoodTable, Behind3;
    FiveOk();
    ConfigIs(0);
    ProbeTwo();
    ProbeOne();
    RestToOne();
    var f := FollowerOn(Plain(3, Some(0), [E1]));
    var no := AppendResponse(3, false, 1);
    t := Returned3();
    t := Rounds(Five(), t, 0, Back(Ahead(4), Matches(3, 0, 0)), 2, Full(3, 0), Behind3(), Full(3, 0),
                AppendResponse(3, true, 3), Back(Ahead(4), Matches(3, 0, 3)));
    t := Rounds(Five(), t, 0, Back(Ahead(4), Matches(3, 0, 3)), 1, f, Behind3(), f, no,
                Back(Ahead(4)[1 := 3], Matches(3, 0, 3)));
    t := Learns(Five(), t, 0, 1, Behind3().term, LastSent(Behind3()), no);
    t := Rounds(Five(), t, 0, Back(Ahead(4)[1 := 2], Matches(3, 0, 3)), 1, f, Rest(3), Full(3, 0),
                AppendResponse(3, true, 3), Back(Ahead(4), Matches(3, 3, 3)));
  }

  // ----- term 4: node 3 leads, and replaces the rows of node 0 by its own -----

  function Down3(): NodeState {
    Lead3b().(role := Follower, term := 3, votedFor := None, disk := Lead3b().disk.(term := 3, vote := None))
  }

  lemma StepsDown3()
    ensures RequestVote(Lead3b(), VoteRequest(3, 0, 3, 1)).state == Down3()
    ensures Down3().role != Leader && Down3().term == 3
  {
  }

  lemma Elected4()
    ensures BecomeLeader(ConfigOf(3), Standing(ConfigOf(3), Down3()).(tally := {3, 0, 4}))
            == Lead3(4, 3, 2, {3, 0, 4}, [F2])
  {
    hide SetAll;
    SetOthers(Down3().nextIndex, 3);
    SetOthers(Down3().matchIndex, 0);
    assert SetAll(Down3().matchIndex, [0, 1, 2, 4], 0)[3 := 0][3 := 2] == Lead3(4, 3, 2, {3, 0, 4}, [F2]).matchIndex;
  }

  function Turned(rows: seq<Entry>): NodeState {
    NodeState(Follower, 4, Some(3), 1, 1, Ahead(4), Matches(3, 3, 3), {0, 1, 2}, Compacted(4, Some(3), rows))
  }

  function Idle(term: nat): NodeState { FollowerOn(Plain(term, Some(3), [])) }

  lemma Voters4()
    ensures AskedBy(ConfigOf(3), Down3()) == VoteRequest(4, 3, 2, 2)
    ensures LogUpToDate(VoteRequest(4, 3, 2, 2), LogTable(1, 1, [E2, E3]))
    ensures LogUpToDate(VoteRequest(4, 3, 2, 2), LogTable(0, 0, []))
    ensures var l := Back(Ahead(4), Matches(3, 3, 3));
            l.term == 3 && l.disk.log == LogTable(1, 1, [E2, E3]) && Granted(l, 3, 4) == Turned([E2, E3])
    ensures Idle(2).term == 2 && Idle(2).disk.log == LogTable(0, 0, []) && Granted(Idle(2), 3, 4) == Idle(4)
  {
  }

  function Lead3c(next0: nat): NodeState {
    Lead3(4, 3, 3, {3, 0, 4}, [F2, F3]).(nextIndex := map[0 := next0, 1 := 3, 2 := 3, 4 := 3])
  }

  lemma WriteLast()
    ensures var l := Lead3(4, 3, 2, {3, 0, 4}, [F2]);
            GoodTable(l) && WriteAppend(ConfigOf(3), l, "k", "5").state == Lead3c(3)
  {
    hide WriteAppend;
    WritesRow(ConfigOf(3), Lead3(4, 3, 2, {3, 0, 4}, [F2]), "k", "5");
    assert [F2] + [F3] == [F2, F3];
  }

  lemma Elected4Run() returns (t: Cluster)
    ensures Reachable(Five(), t) && Late() in t.msgs
    ensures Nodes(t, Turned([E2, E3]), Full(3, 0), Full(3, 0), Lead3c(3), Idle(4))
  {
    hide Reachable, ValidSetup, WriteAppend, RequestVote, BecomeLeader, LogUpToDate, Standing, Granted, Lead3b,
         Lead3, Lead3c, Full, GoodTable, Grows, Five, Back, Turned, Down3;
    FiveOk();
    ConfigIs(3);
    StepsDown3();
    Elected4();
    Voters4();
    WriteLast();
    t := Matched3();
    t := Votes(Five(), t, 0, 3, VoteRequest(3, 0, 3, 1));
    t := WinsWithTwo(Five(), t, 3, 0, 4);
    t := WritesTo(Five(), t, 3, "k", "5");
  }

  function Fourth(prev: nat, prevTerm: nat, entries: seq<Entry>): AppendRequest {
    AppendRequest(4, 3, prev, prevTerm, entries, 1)
  }

  lemma RefusedByZero()
    ensures var resp := AppendResponse(4, false, 3);
            && Exchange(Five(), 3, Lead3c(3), 0, Turned([E2, E3]), Fourth(2, 2, [F3]), Turned([E2, E3]), resp)
            && AppendReply(Five().configs[3], Lead3c(3), 0, 4, LastSent(Fourth(2, 2, [F3])), resp).state == Lead3c(2)
  {
    hide Replicate, AppendEntries, AppendReply, Five;
    ConfigIs(0);
    ConfigIs(3);
    assert Lead3c(3).disk.log.TermAt(2) == Some(2);
    assert [F2, F3][1..] == [F3];
    SendsFrom(ConfigOf(3), Lead3c(3), 0, [F3], 2);
    assert Turned([E2, E3]).disk.log.TermAt(2) == Some(1);
    Rejects(ConfigOf(0), Turned([E2, E3]), Fourth(2, 2, [F3]));
    LearnsNo(ConfigOf(3), Lead3c(3), 0, 3, AppendResponse(4, false, 3));
  }

  lemma TakenByZero()
    ensures Exchange(Five(), 3, Lead3c(2), 0, Turned([E2, E3]), Fourth(1, 1, [F2, F3]), Turned([F2, F3]),
                     AppendResponse(4, true, 3))
  {
    hide Replicate, AppendEntries, Five, LogTable.Merge;
    ConfigIs(0);
    ConfigIs(3);
    assert Lead3c(2).disk.log.TermAt(1) == Some(1);
    assert [F2, F3][0..] == [F2, F3];
    SendsFrom(ConfigOf(3), Lead3c(2), 0, [F2, F3], 1);
    var f := Turned([E2, E3]);
    MergesOver(f.disk.log, [F2, F3]);
    assert [E2, E3][..0] + [F2, F3] == [F2, F3];
    AcceptsInto(ConfigOf(0), f, Fourth(1, 1, [F2, F3]), LogTable(1, 1, [F2, F3]));
  }

  /** The state in which the late answer finds node 0. */
  lemma Replaced4() returns (t: Cluster)
    ensures Reachable(Five(), t) && Late() in t.msgs
    ensures Nodes(t, Turned([F2, F3]), Full(3, 0), Full(3, 0), Lead3c(2), Idle(4))
  {
    hide Reachable, ValidSetup, Lead3c, Full, Grows, Five, Turned, Exchange, AppendReply, AppendEntries,
         LastSent;
    FiveOk();
    ConfigIs(3);
    RefusedByZero();
    TakenByZero();
    t := Elected4Run();
    var no := AppendResponse(4, false, 3);
    t := Rounds(Five(), t, 3, Lead3c(3), 0, Turned([E2, E3]), Fourth(2, 2, [F3]), Turned([E2, E3]), no, Lead3c(2));
    t := Exchanges(Five(), t, 3, Lead3c(2), 0, Turned([E2, E3]), Fourth(1, 1, [F2, F3]), Turned([F2, F3]),
                   AppendResponse(4, true, 3));
  }

  // ----- the late answer, and what comes after -----

  /** The answer makes the follower commit the row of its new leader, which it counts on two old matches. */
  lemma LateCommits()
    ensures var f := Turned([F2, F3]);
            && GoodTable(f) && !InstallReplyGuard(ConfigOf(0), f, 3, 1, InstallResponse(1))
            && var out := InstallReply(ConfigOf(0), f, 3, 1, InstallResponse(1)).state;
            && out.role == Follower && out.term == 4 && out.commitIndex == 3
            && f.disk.log.EntryAt(3) == Some(F3) && f.disk.log.LastIndex() == 3
  {
    hide ApplyCommitted;
    var m := Recorded(Turned([F2, F3]), 3, 1);
    CountFour(m.matchIndex, 3);
    assert Committable(ConfigOf(0), m, 3);
    assert HighestCommittable(ConfigOf(0), m, 1, 3) == 3;
    ApplyKeeps(ConfigOf(0), m.(commitIndex := 3));
  }

  function Twice(): NodeState { Standing(ConfigOf(1), Full(3, 0)) }

  lemma Voters5()
    ensures StartElection(ConfigOf(1), Full(3, 0)).state == Twice()
    ensures Full(3, 0).role != Leader && Twice().role != Leader && Twice().term == 4
    ensures Full(3, 0).term <= 4 && Idle(4).term <= 4
    ensures LogUpToDate(AskedBy(ConfigOf(1), Twice()), Full(3, 0).disk.log)
    ensures LogUpToDate(AskedBy(ConfigOf(1), Twice()), Idle(4).disk.log)
    ensures var l := BecomeLeader(ConfigOf(1), Standing(ConfigOf(1), Twice()).(tally := {1, 2, 4}));
            l.role == Leader && l.term == 5 && l.disk.log == LogTable(0, 0, [E1, E2, E3])
  {
  }

  lemma Elected5(s: Cluster) returns (t: Cluster)
    requires Reachable(Five(), s) && Nodes(s, Turned([F2, F3]), Full(3, 0), Full(3, 0), Lead3c(2), Idle(4))
    ensures Reachable(Five(), t) && After(Five(), s, t) && 1 in t.nodes
    ensures var l := t.nodes[1]; l.role == Leader && l.term == 5 && l.disk.log == LogTable(0, 0, [E1, E2, E3])
  {
    hide Reachable, ValidSetup, BecomeLeader, LogUpToDate, Standing, Granted, Full, Grows, Five, Turned,
         Lead3c, Twice, Idle, StartElection;
    FiveOk();
    ConfigIs(1);
    Voters5();
    var s1 := Stands(Five(), s, 1);
    t := WinsWithTwo(Five(), s1, 1, 2, 4);
    AfterTrans(Five(), s, s1, t);
  }

  /** What a later leader lacks was never committed. */
  lemma LackedIsNotCommitted(c: Setup, s: Cluster, t: Cluster, n: NodeId, m: NodeId, k: nat, u: nat)
    requires ClusterInv(c, s) && ClusterInv(c, t) && Grows(s.h, t.h)
    requires n in s.nodes && n in s.full && m in t.nodes && m in t.full && t.nodes[m].role == Leader
             && u < t.nodes[m].term
    requires s.nodes[n].disk.log.EntryAt(k).Some? && t.nodes[m].disk.log.EntryAt(k).Some?
    requires s.nodes[n].disk.log.EntryAt(k) != t.nodes[m].disk.log.EntryAt(k)
    ensures !Committed(c.configs.Keys, s.h, s.full[n], k, u)
  {
    hide Inv, Abs, NodeOk, ClusterInv, Committed, LeadersComplete, Rooted, Grows;
    var ids := c.configs.Keys;
    NodeRunning(c, s, n);
    NodeRunning(c, t, m);
    NodeParts(s.nodes[n], s.full[n]);
    NodeParts(t.nodes[m], t.full[m]);
    EntryAtAgrees(s.nodes[n].disk.log, s.full[n], k);
    EntryAtAgrees(t.nodes[m].disk.log, t.full[m], k);
    LeaderLog(c, t, m);
    Complete(ids, Abs(t));
    if Committed(ids, s.h, s.full[n], k, u) {
      CommittedGrow(ids, s.h, t.h, s.full[n], s.full[n], k, u, t.nodes[m].term);
      CommittedInReign(ids, t.h, s.full[n], k, t.nodes[m].term);
    }
  }

  /**
   * A state that a run reaches, with the answer to a snapshot in flight to a follower. Handling it moves the follower's
   * commit index to an entry that is not committed: without that answer the run can go on to a leader of the next term
   * that has another entry there.
   */
  lemma LateAnswerCommitsUncommitted() returns (s: Cluster, t: Cluster)
    ensures ValidSetup(Five()) && Reachable(Five(), s) && ClusterInv(Five(), s) && GoesOnTo(Five(), s, t)
    ensures Late() in s.msgs && Late().InstallAnswer? && 0 in s.nodes && 0 in s.full && GoodTable(s.nodes[0])
    ensures Late().dst == 0 && Late().src == 3 && s.nodes[0].disk.log.snapIndex == Late().lastIncluded
    ensures var out := InstallReply(Five().configs[0], s.nodes[0], Late().src, Late().lastIncluded,
                                    Late().installed).state;
            && out.role == Follower && out.commitIndex == 3 > s.nodes[0].commitIndex
            && !Committed(IDS, s.h, s.full[0], out.commitIndex, out.term)
            && 1 in t.nodes && t.nodes[1].role == Leader && t.nodes[1].term == out.term + 1
            && s.nodes[0].disk.log.EntryAt(3) == Some(F3) && t.nodes[1].disk.log.EntryAt(3) == Some(E3)
  {
    hide Reachable, ValidSetup, Full, Grows, Turned, Lead3c, Idle, ClusterInv, Committed, InstallReply,
         GoodTable, InstallReplyGuard;
    FiveOk();
    ConfigIs(0);
    LateCommits();
    s := Replaced4();
    TurnedIs();
    t := Elected5(s);
    ReachableOk(Five(), s);
    ReachableOk(Five(), t);
    Ready(Five(), s, 0);
    Ready(Five(), t, 1);
    LackedIsNotCommitted(Five(), s, t, 0, 1, 3, 4);
  }

  lemma TurnedIs()
    ensures Turned([F2, F3]).disk.log.snapIndex == 1 && Turned([F2, F3]).commitIndex == 1
  {
  }
}
