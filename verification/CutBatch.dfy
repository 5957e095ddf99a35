/**
 * A run of three nodes in which a leader sends a request that the batch limit has cut below the commit index that it
 * carries. A follower that finds all carried entries present would commit, and apply, an entry of its own.
 */
module CutBatch {
  import opened RaftTypes
  import opened Logs
  import opened LogTables
  import opened Disks
  import opened NodeSpec
  import opened Protocol
  import opened ProtocolActions
  import opened Applying
  import opened Clusters
  import opened ClusterSafety
  import opened Stepping
  import opened Scenarios

  const NEW: Entry := Entry(129, 2, SetCommand("k", "new"))
  const NEWER: Entry := Entry(130, 3, SetCommand("k", "newer"))

  /** Entries of the first leader. */
  function Old(n: nat): (log: seq<Entry>)
    ensures |log| == n && forall i :: 0 <= i < n ==> log[i] == Entry(i + 1, 1, SetCommand("k", "old"))
  {
    seq(n, i requires 0 <= i => Entry(i + 1, 1, SetCommand("k", "old")))
  }

  predicate At(s: Cluster, n0: NodeState, n1: NodeState, n2: NodeState) {
    0 in s.nodes && 1 in s.nodes && 2 in s.nodes && s.nodes[0] == n0 && s.nodes[1] == n1 && s.nodes[2] == n2
  }

  function ConfigOf(n: NodeId): Config
    requires n in Three().configs
  {
    Three().configs[n]
  }

  // ----- term 1: node 1 leads, and gives 128 of its 129 entries to the others -----

  function Lead1(n: nat): NodeState {
    NodeState(Leader, 1, Some(1), 0, 0, map[0 := 1, 2 := 1], map[0 := 0, 1 := n, 2 := 0], {1, 2},
              Plain(1, Some(1), Old(n)))
  }

  lemma Elected1()
    ensures BecomeLeader(ConfigOf(1), Standing(ConfigOf(1), Fresh()).(tally := {1, 2})) == Lead1(0)
    ensures Granted(Fresh(), 1, 1) == FollowerOn(Plain(1, Some(1), []))
    ensures Fresh().role != Leader && Fresh().term == 0 && LogUpToDate(AskedBy(ConfigOf(1), Fresh()), Fresh().disk.log)
  {
    assert SetAll(map[], [0, 2], 1) == map[0 := 1, 2 := 1];
    assert SetAll(map[], [0, 2], 0)[1 := 0] == map[0 := 0, 1 := 0, 2 := 0];
  }

  lemma InitialRun()
    ensures ValidSetup(Three()) && Three().configs.Keys == {0, 1, 2} && Reachable(Three(), Initial(Three()))
    ensures At(Initial(Three()), Fresh(), Fresh(), Fresh())
  {
    hide ValidSetup, IsRun, Initial;
    ThreeOk();
    NothingYet(Three());
    StaysAt(Three(), Initial(Three()));
    AllFresh();
  }

  lemma AllFresh()
    ensures At(Initial(Three()), Fresh(), Fresh(), Fresh())
  {
  }

  lemma Led1() returns (t: Cluster)
    ensures Reachable(Three(), t) && At(t, Fresh(), Lead1(0), FollowerOn(Plain(1, Some(1), [])))
  {
    hide Reachable, Initial, BecomeLeader, ValidSetup, Grows, Fresh, Lead1, Standing, Granted, FollowerOn,
         LogUpToDate;
    InitialRun();
    Elected1();
    t := WinsWith(Three(), Initial(Three()), 1, 2);
  }

  lemma WriteOne(n: nat)
    ensures GoodTable(Lead1(n)) && WriteAppend(ConfigOf(1), Lead1(n), "k", "old").state == Lead1(n + 1)
  {
    hide WriteAppend;
    WritesRow(ConfigOf(1), Lead1(n), "k", "old");
    assert Old(n) + [Entry(n + 1, 1, SetCommand("k", "old"))] == Old(n + 1);
    assert Lead1(n).matchIndex[1 := n + 1] == Lead1(n + 1).matchIndex;
  }

  lemma {:induction false} Wrote(n: nat) returns (t: Cluster)
    ensures Reachable(Three(), t) && At(t, Fresh(), Lead1(n), FollowerOn(Plain(1, Some(1), [])))
  {
    hide Reachable, ValidSetup, Grows, Fresh, Lead1, FollowerOn, WriteAppend, GoodTable;
    if n == 0 {
      t := Led1();
    } else {
      t := Wrote(n - 1);
      InitialRun();
      WriteOne(n - 1);
      t := WritesTo(Three(), t, 1, "k", "old");
    }
  }

  function Batch1(): AppendRequest { AppendRequest(1, 1, 0, 0, Old(128), 0) }

  lemma SendBatch1(p: NodeId)
    requires p == 0 || p == 2
    ensures GoodTable(Lead1(128)) && Replicate(ConfigOf(1), Lead1(128), p).state == Lead1(128)
    ensures Replicate(ConfigOf(1), Lead1(128), p).reply.SendAppend?
    ensures Replicate(ConfigOf(1), Lead1(128), p).reply.append == Batch1()
  {
    hide Replicate;
    assert Old(128)[0..] == Old(128);
    SendsFrom(ConfigOf(1), Lead1(128), p, Old(128), 0);
  }

  /** A node without entries takes the batch. */
  lemma TakeBatch1(cfg: Config, f: NodeState)
    requires f.role == Follower && f.term <= 1 && f.disk.log == LogTable(0, 0, []) && f.commitIndex == 0
    ensures GoodTable(f) && AppendGuard(cfg, f, Batch1())
    ensures var out := AppendEntries(cfg, f, Batch1());
            && out.state == Joined(f, 1).(disk := Joined(f, 1).disk.(log := LogTable(0, 0, Old(128))))
            && out.reply == AppendResponse(1, true, 128)
  {
    hide AppendEntries, LogTable.Merge;
    MergesNew(f.disk.log, Old(128));
    assert [] + Old(128) == Old(128);
    AcceptsInto(cfg, f, Batch1(), LogTable(0, 0, Old(128)));
  }

  lemma Batch1ToZero()
    ensures Exchange(Three(), 1, Lead1(128), 0, Fresh(), Batch1(), FollowerOn(Plain(1, None, Old(128))),
                     AppendResponse(1, true, 128))
  {
    hide Replicate, AppendEntries, AppendGuard, Batch1, Lead1, GoodTable;
    SendBatch1(0);
    TakeBatch1(ConfigOf(0), Fresh());
  }

  lemma Batch1ToTwo()
    ensures Exchange(Three(), 1, Lead1(128), 2, FollowerOn(Plain(1, Some(1), [])), Batch1(),
                     FollowerOn(Plain(1, Some(1), Old(128))), AppendResponse(1, true, 128))
  {
    hide Replicate, AppendEntries, AppendGuard, Batch1, Lead1, GoodTable;
    SendBatch1(2);
    TakeBatch1(ConfigOf(2), FollowerOn(Plain(1, Some(1), [])));
  }

  lemma Spread1() returns (t: Cluster)
    ensures Reachable(Three(), t)
    ensures At(t, FollowerOn(Plain(1, None, Old(128))), Lead1(129), FollowerOn(Plain(1, Some(1), Old(128))))
  {
    hide Reachable, ValidSetup, Grows, Fresh, Lead1, FollowerOn, WriteAppend, GoodTable, Exchange, Batch1;
    InitialRun();
    Batch1ToZero();
    Batch1ToTwo();
    WriteOne(128);
    t := Wrote(128);
    t := Exchanges(Three(), t, 1, Lead1(128), 0, Fresh(), Batch1(), FollowerOn(Plain(1, None, Old(128))),
                   AppendResponse(1, true, 128));
    t := Exchanges(Three(), t, 1, Lead1(128), 2, FollowerOn(Plain(1, Some(1), [])), Batch1(),
                   FollowerOn(Plain(1, Some(1), Old(128))), AppendResponse(1, true, 128));
    t := WritesTo(Three(), t, 1, "k", "old");
  }

  // ----- terms 2 and 3: node 0 leads, writes entry 129, restarts, leads again, and commits with node 2 -----

  function Lead0(term: nat, next: map<NodeId, nat>, matched: map<NodeId, nat>, rows: seq<Entry>): NodeState {
    NodeState(Leader, term, Some(0), 0, 0, next, matched, {0, 2}, Plain(term, Some(0), rows))
  }

  function Equal(next: nat): map<NodeId, nat> { map[1 := next, 2 := next] }

  function Matches(own: nat, two: nat): map<NodeId, nat> { map[0 := own, 1 := 0, 2 := two] }

  /** Node 0 wins from a follower that holds these rows. */
  lemma Elected0(term: nat, vote: Option<NodeId>, rows: seq<Entry>)
    ensures var f := FollowerOn(Plain(term, vote, rows));
            && f.role != Leader && f.term == term
            && BecomeLeader(ConfigOf(0), Standing(ConfigOf(0), f).(tally := {0, 2}))
               == Lead0(term + 1, Equal(|rows| + 1), Matches(|rows|, 0), rows)
  {
    var last := |rows|;
    assert SetAll(map[], [1, 2], last + 1) == Equal(last + 1);
    assert SetAll(map[], [1, 2], 0)[0 := last] == Matches(last, 0);
  }

  /** Node 2 has the 128 entries of the first leader, and does not hold the candidate back. */
  lemma Voter2(term: nat, vote: NodeId, rows: seq<Entry>)
    requires |rows| >= 128 && rows[|rows| - 1].term >= 1 && (|rows| == 128 || rows[|rows| - 1].term > 1)
    ensures forall t, v :: var req := AskedBy(ConfigOf(0), FollowerOn(Plain(t, v, rows)));
                           LogUpToDate(req, FollowerOn(Plain(term, Some(vote), Old(128))).disk.log)
    ensures FollowerOn(Plain(term, Some(vote), Old(128))).term == term
    ensures forall t ::
              Granted(FollowerOn(Plain(term, Some(vote), Old(128))), 0, t) == FollowerOn(Plain(t, Some(0), Old(128)))
  {
  }

  lemma WriteRow(term: nat, rows: seq<Entry>, value: string)
    ensures var l := Lead0(term, Equal(|rows| + 1), Matches(|rows|, 0), rows);
            var e := Entry(|rows| + 1, term, SetCommand("k", value));
            GoodTable(l) ==>
              WriteAppend(ConfigOf(0), l, "k", value).state
              == Lead0(term, Equal(|rows| + 1), Matches(|rows| + 1, 0), rows + [e])
  {
    hide WriteAppend;
    var l := Lead0(term, Equal(|rows| + 1), Matches(|rows|, 0), rows);
    if GoodTable(l) {
      WritesRow(ConfigOf(0), l, "k", value);
      assert l.matchIndex[0 := |rows| + 1] == Matches(|rows| + 1, 0);
    }
  }

  function Rows2(): seq<Entry> { Old(128) + [NEW] }
  function Rows3(): seq<Entry> { Old(128) + [NEW, NEWER] }

  lemma RowsOk()
    ensures |Rows2()| == 129 && Rows2()[128] == NEW && |Rows3()| == 130 && Rows3()[128] == NEW && Rows3()[129] == NEWER
    ensures Rows2() + [NEWER] == Rows3() && Rows3()[..128] == Old(128)
    ensures Contiguous(0, Old(128)) && Contiguous(0, Rows2()) && Contiguous(0, Rows3())
  {
  }

  lemma Led2() returns (t: Cluster)
    ensures Reachable(Three(), t)
    ensures At(t, Lead0(2, Equal(129), Matches(129, 0), Rows2()), Lead1(129), FollowerOn(Plain(2, Some(0), Old(128))))
  {
    hide Reachable, ValidSetup, Grows, Lead1, FollowerOn, WriteAppend, GoodTable, BecomeLeader, Standing,
         Granted, Lead0, LogUpToDate, Matches, Equal;
    InitialRun();
    Elected0(1, None, Old(128));
    Voter2(1, 1, Old(128));
    WriteRow(2, Old(128), "new");
    RowsOk();
    Lead0Good(2, Equal(129), Matches(128, 0), Old(128));
    t := Spread1();
    t := WinsWith(Three(), t, 0, 2);
    t := WritesTo(Three(), t, 0, "k", "new");
  }

  lemma Lead0Good(term: nat, next: map<NodeId, nat>, matched: map<NodeId, nat>, rows: seq<Entry>)
    requires Contiguous(0, rows)
    ensures GoodTable(Lead0(term, next, matched, rows))
  {
  }

  lemma Restarted(term: nat, next: map<NodeId, nat>, matched: map<NodeId, nat>, rows: seq<Entry>)
    ensures Restart(Lead0(term, next, matched, rows).disk) == FollowerOn(Plain(term, Some(0), rows))
  {
  }

  lemma Led3() returns (t: Cluster)
    ensures Reachable(Three(), t)
    ensures At(t, Lead0(3, Equal(130), Matches(130, 0), Rows3()), Lead1(129), FollowerOn(Plain(3, Some(0), Old(128))))
  {
    hide Reachable, ValidSetup, Grows, Lead1, FollowerOn, WriteAppend, GoodTable, BecomeLeader, Standing,
         Granted, Lead0, LogUpToDate, Matches, Equal, Restart;
    InitialRun();
    RowsOk();
    Restarted(2, Equal(129), Matches(129, 0), Rows2());
    Elected0(2, Some(0), Rows2());
    Voter2(2, 0, Rows2());
    WriteRow(3, Rows2(), "newer");
    Lead0Good(3, Equal(130), Matches(129, 0), Rows2());
    t := Led2();
    t := Crashes(Three(), t, 0);
    t := WinsWith(Three(), t, 0, 2);
    t := WritesTo(Three(), t, 0, "k", "newer");
  }

  function Request(prev: nat, prevTerm: nat, entries: seq<Entry>, commit: nat): AppendRequest {
    AppendRequest(3, 0, prev, prevTerm, entries, commit)
  }

  /** Node 2 lacks entry 129, so it refuses the first probe. */
  lemma Refused2()
    ensures var l := Lead0(3, Equal(130), Matches(130, 0), Rows3()); var f := FollowerOn(Plain(3, Some(0), Old(128)));
            var req := Request(129, 2, [NEWER], 0); var resp := AppendResponse(3, false, 128);
            && Exchange(Three(), 0, l, 2, f, req, f, resp)
            && AppendReply(Three().configs[0], l, 2, req.term, LastSent(req), resp).state
               == Lead0(3, map[1 := 130, 2 := 129], Matches(130, 0), Rows3())
  {
    hide Replicate, AppendEntries, AppendReply;
    RowsOk();
    var l := Lead0(3, Equal(130), Matches(130, 0), Rows3());
    var f := FollowerOn(Plain(3, Some(0), Old(128)));
    assert l.disk.log.TermAt(129) == Some(2);
    assert Rows3()[129..] == [NEWER];
    SendsFrom(ConfigOf(0), l, 2, [NEWER], 2);
    assert f.disk.log.TermAt(129) == None;
    Rejects(ConfigOf(2), f, Request(129, 2, [NEWER], 0));
    LearnsNo(ConfigOf(0), l, 2, 130, AppendResponse(3, false, 128));
    assert Equal(130)[2 := 129] == map[1 := 130, 2 := 129];
  }

  lemma Taken2()
    ensures var l := Lead0(3, map[1 := 130, 2 := 129], Matches(130, 0), Rows3());
            var f := FollowerOn(Plain(3, Some(0), Old(128)));
            Exchange(Three(), 0, l, 2, f, Request(128, 1, [NEW, NEWER], 0), FollowerOn(Plain(3, Some(0), Rows3())),
                     AppendResponse(3, true, 130))
  {
    hide Replicate, AppendEntries, LogTable.Merge;
    RowsOk();
    var l := Lead0(3, map[1 := 130, 2 := 129], Matches(130, 0), Rows3());
    var f := FollowerOn(Plain(3, Some(0), Old(128)));
    assert l.disk.log.TermAt(128) == Some(1);
    assert Rows3()[128..] == [NEW, NEWER];
    SendsFrom(ConfigOf(0), l, 2, [NEW, NEWER], 1);
    assert f.disk.log.TermAt(128) == Some(1);
    MergesNew(f.disk.log, [NEW, NEWER]);
    AcceptsInto(ConfigOf(2), f, Request(128, 1, [NEW, NEWER], 0), LogTable(0, 0, Rows3()));
  }

  /** The leader of term 3 with everything committed, and this next index for node 1. */
  predicate Leads3(l: NodeState, next: nat) {
    && l.role == Leader && l.term == 3 && l.commitIndex == 130
    && l.disk.log == LogTable(0, 0, Rows3()) && Get(l.nextIndex, 1) == next
  }

  lemma Commits3()
    ensures var l := Lead0(3, map[1 := 130, 2 := 129], Matches(130, 0), Rows3());
            GoodTable(l) && Leads3(AppendReply(ConfigOf(0), l, 2, 3, 130, AppendResponse(3, true, 130)).state, 130)
  {
    hide AppendReply, ApplyCommitted;
    RowsOk();
    var l := Lead0(3, map[1 := 130, 2 := 129], Matches(130, 0), Rows3());
    var m := l.(matchIndex := l.matchIndex[2 := 130], nextIndex := l.nextIndex[2 := 131]);
    var peers: seq<NodeId> := [1, 2];
    assert peers[..1] == [1];
    assert CountMatches([1], m.matchIndex, 130) == 0;
    assert CountMatches(peers, m.matchIndex, 130) == 1;
    assert m.disk.log.TermAt(130) == Some(3);
    LearnsAll(ConfigOf(0), l, 2, 130, AppendResponse(3, true, 130), m);
    ApplyKeeps(ConfigOf(0), m.(commitIndex := 130));
  }

  lemma Committed3() returns (t: Cluster)
    ensures Reachable(Three(), t) && 0 in t.nodes && 1 in t.nodes && Leads3(t.nodes[0], 130) && t.nodes[1] == Lead1(129)
  {
    hide Reachable, ValidSetup, Grows, Lead1, FollowerOn, GoodTable, Lead0, Matches, Equal, Exchange,
         AppendReply, Leads3;
    InitialRun();
    Refused2();
    Taken2();
    Commits3();
    t := Led3();
    var f := FollowerOn(Plain(3, Some(0), Old(128)));
    var l := Lead0(3, map[1 := 130, 2 := 129], Matches(130, 0), Rows3());
    t := Rounds(Three(), t, 0, Lead0(3, Equal(130), Matches(130, 0), Rows3()), 2, f, Request(129, 2, [NEWER], 0), f,
                AppendResponse(3, false, 128), l);
    t := Rounds(Three(), t, 0, l, 2, f, Request(128, 1, [NEW, NEWER], 0), FollowerOn(Plain(3, Some(0), Rows3())),
                AppendResponse(3, true, 130),
                  AppendReply(ConfigOf(0), l, 2, 3, 130, AppendResponse(3, true, 130)).state);
  }

  // ----- node 1 refuses one probe, and many calls bring that answer -----

  function Joined1(): NodeState { Joined(Lead1(129), 3) }

  function No1(): Message { AppendAnswer(1, 0, 3, 130, AppendResponse(3, false, 129)) }

  lemma Joined1Is()
    ensures Joined1().role == Follower && Joined1().term == 3 && Joined1().commitIndex == 0
            && Joined1().lastApplied == 0
    ensures Joined1().disk.log == LogTable(0, 0, Old(129)) && Joined1().disk.kv == map[] && GoodTable(Joined1())
  {
  }

  lemma Refused1(l: NodeState)
    requires Leads3(l, 130)
    ensures Exchange(Three(), 0, l, 1, Lead1(129), Request(129, 2, [NEWER], 130), Joined1(),
                     AppendResponse(3, false, 129))
    ensures LastSent(Request(129, 2, [NEWER], 130)) == 130
  {
    hide Replicate, AppendEntries;
    RowsOk();
    assert l.disk.log.TermAt(129) == Some(2);
    assert Rows3()[129..] == [NEWER];
    SendsFrom(ConfigOf(0), l, 1, [NEWER], 2);
    assert Lead1(129).disk.log.TermAt(129) == Some(1);
    Rejects(ConfigOf(1), Lead1(129), Request(129, 2, [NEWER], 130));
  }

  /** Each of the calls that sent the probe brings the answer, and lowers the next index by one. */
  lemma {:induction false} Lowers(s: Cluster, next: nat) returns (t: Cluster)
    requires Reachable(Three(), s) && No1() in s.msgs && 0 in s.nodes && 1 in s.nodes && next > 0
    requires Leads3(s.nodes[0], next) && s.nodes[1] == Joined1()
    ensures Reachable(Three(), t) && 0 in t.nodes && 1 in t.nodes && Leads3(t.nodes[0], 1) && t.nodes[1] == Joined1()
    decreases next
  {
    hide Reachable, ValidSetup, Grows, Joined1, AppendReply;
    if next == 1 {
      t := s;
    } else {
      InitialRun();
      RowsOk();
      LearnsNo(ConfigOf(0), s.nodes[0], 1, 130, AppendResponse(3, false, 129));
      t := Learns(Three(), s, 0, 1, 3, 130, AppendResponse(3, false, 129));
      t := Lowers(t, next - 1);
    }
  }

  /** The first 128 entries, with the commit index 130. */
  function Cut(): AppendRequest { Request(0, 0, Old(128), 130) }

  lemma SendsCut(l: NodeState)
    requires Leads3(l, 1)
    ensures GoodTable(l) && Replicate(ConfigOf(0), l, 1).state == l
    ensures Replicate(ConfigOf(0), l, 1).reply == SendAppend(Cut(), 128)
  {
    RowsOk();
    assert l.disk.log.EntriesFrom(1, BATCH_SIZE) == Old(128);
  }

  lemma CutInFlight() returns (t: Cluster)
    ensures Reachable(Three(), t) && AppendCall(0, 1, Cut()) in t.msgs && 0 in t.nodes && 1 in t.nodes
    ensures Leads3(t.nodes[0], 1) && t.nodes[1] == Joined1()
  {
    hide Reachable, ValidSetup, Grows, Joined1, Lead1, Exchange, Replicate, Leads3, Cut, GoodTable;
    InitialRun();
    var s := Committed3();
    Refused1(s.nodes[0]);
    t := Exchanges(Three(), s, 0, s.nodes[0], 1, Lead1(129), Request(129, 2, [NEWER], 130), Joined1(),
                   AppendResponse(3, false, 129));
    t := Lowers(t, 130);
    SendsCut(t.nodes[0]);
    t := Sends(Three(), t, 0, 1);
  }

  // ----- what the follower makes of it -----

  /** Entries that are all present change nothing. */
  lemma AllPresent(t: LogTable, entries: seq<Entry>)
    requires Mergeable(t, entries)
    requires forall j :: 0 <= j < |entries| ==> t.TermAt(entries[j].index) == Some(entries[j].term)
    ensures t.Merge(entries) == t
  {
    assert t.FirstDifference(entries) == |entries|;
  }

  lemma AppliesOwn(f: NodeState)
    requires f.disk.log == LogTable(0, 0, Old(129)) && f.commitIndex == 129 && f.lastApplied == 0 && f.disk.kv == map[]
    ensures GoodTable(f)
    ensures var m := ApplyCommitted(ConfigOf(1), f).state;
            && m.lastApplied == 129 && m.disk.log == f.disk.log && "k" in Values(m.disk.kv)
            && Values(m.disk.kv)["k"] == "old"
  {
    hide ApplyLoop, Replay, ReplayOnto;
    ApplyLoopReplays(f);
    ApplyKeeps(ConfigOf(1), f);
    assert Pending(f) == Old(129);
    assert Values(f.disk.kv) == map[];
    LastOfOld();
    assert Values(ApplyLoop(f).state.disk.kv) == Replay(Old(129)) by { ReplayIs(Old(129)); }
  }

  lemma ReplayIs(log: seq<Entry>)
    ensures ReplayOnto(map[], log) == Replay(log)
  {
  }

  lemma LastOfOld()
    ensures "k" in Replay(Old(129)) && Replay(Old(129))["k"] == "old"
  {
  }

  /**
   * A run ends with a cut request in flight. The follower finds the first 128 entries all present, commits 129, and
   * applies its own entry 129, which is of an older term; its leader has committed another entry there.
   */
  lemma CutBatchCommitsForeignEntry() returns (s: Cluster)
    ensures ValidSetup(Three()) && Reachable(Three(), s) && AppendCall(0, 1, Cut()) in s.msgs && 0 in s.nodes
            && 1 in s.nodes
    ensures var l := s.nodes[0]; var f := s.nodes[1];
            && Accepts(f, Cut()) && !AppendGuard(Three().configs[1], f, Cut())
            && |Cut().entries| == BATCH_SIZE && GoodTable(f) && Contiguous(Cut().prevIndex, Cut().entries)
            && l.role == Leader && l.term == Cut().term && l.commitIndex == 130 && l.disk.log.EntryAt(129) == Some(NEW)
            && var out := AppendEntries(Three().configs[1], f, Cut());
            && out.reply.success && out.state.commitIndex == out.state.lastApplied == 129
            && out.state.disk.log.EntryAt(129) == Some(Entry(129, 1, SetCommand("k", "old")))
            && "k" in Values(out.state.disk.kv) && Values(out.state.disk.kv)["k"] == "old"
  {
    hide Reachable, ValidSetup, LogTable.Merge, AppendEntries, ApplyCommitted, Joined1, Replay;
    InitialRun();
    RowsOk();
    s := CutInFlight();
    Joined1Is();
    var f := Joined1();
    var j := f.(commitIndex := 129);
    AllPresent(f.disk.log, Cut().entries);
    AcceptsInto(ConfigOf(1), f, Cut(), f.disk.log);
    AppliesOwn(j);
    ApplyKeeps(ConfigOf(1), j);
  }
}
