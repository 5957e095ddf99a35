/**
 * A run in which a write is acknowledged: three nodes elect a leader, and it commits with the help of one peer.
 * It shows that the guards of the cluster leave the protocol free to do its work.
 */
module Scenarios {
  import opened RaftTypes
  import opened LogTables
  import opened Disks
  import opened NodeSpec
  import opened Protocol
  import opened Applying
  import opened Clusters
  import opened RaftSafety
  import opened Stepping

  function Three(): Setup {
    Setup(map[0 := Config(0, [1, 2], 0), 1 := Config(1, [0, 2], 0), 2 := Config(2, [0, 1], 0)])
  }

  const FIRST: Entry := Entry(1, 1, SetCommand("k", "v"))

  predicate Nodes(s: Cluster, a: NodeState, b: NodeState) {
    s.nodes.Keys == s.full.Keys == {0, 1, 2} && s.nodes[0] == a && s.nodes[1] == b
  }

  function Asking(): NodeState {
    NodeState(Candidate, 1, Some(0), 0, 0, map[], map[], {0}, NewDisk().(term := 1, vote := Some(0)))
  }

  function Voter(): NodeState {
    NodeState(Follower, 1, Some(0), 0, 0, map[], map[], {}, NewDisk().(term := 1, vote := Some(0)))
  }

  function Elected(): NodeState {
    NodeState(Leader, 1, Some(0), 0, 0, map[1 := 1, 2 := 1], map[0 := 0, 1 := 0, 2 := 0], {0, 1},
              NewDisk().(term := 1, vote := Some(0)))
  }

  function Writing(): NodeState {
    Elected().(matchIndex := map[0 := 1, 1 := 0, 2 := 0],
               disk := NewDisk().(term := 1, vote := Some(0), log := LogTable(0, 0, [FIRST])))
  }

  function Following(): NodeState {
    Voter().(disk := NewDisk().(term := 1, vote := Some(0), log := LogTable(0, 0, [FIRST])))
  }

  function VoteAsked(): Message { VoteCall(0, 1, VoteRequest(1, 0, 0, 0)) }
  function VoteGiven(): Message { VoteAnswer(1, 0, 1, VoteResponse(1, true)) }
  function EntrySent(): Message { AppendCall(0, 1, AppendRequest(1, 0, 0, 0, [FIRST], 0)) }
  function EntryTaken(): Message { AppendAnswer(1, 0, 1, 1, AppendResponse(1, true, 1)) }

  lemma Ask(s: Cluster)
    requires Nodes(s, Fresh(), Fresh())
    ensures CanHappen(Three(), s, Run(Timeout(0)))
    ensures var t := Next(Three(), s, Run(Timeout(0))); Nodes(t, Asking(), Fresh()) && VoteAsked() in t.msgs
  {
    hide HistoryDone, FullAfter;
    assert 1 in Three().configs[0].peers;
  }

  lemma Vote(s: Cluster)
    requires Nodes(s, Asking(), Fresh()) && VoteAsked() in s.msgs
    ensures CanHappen(Three(), s, Run(Deliver(VoteAsked())))
    ensures var t := Next(Three(), s, Run(Deliver(VoteAsked()))); Nodes(t, Asking(), Voter()) && VoteGiven() in t.msgs
  {
    hide HistoryDone, FullAfter;
  }

  lemma Win(s: Cluster)
    requires Nodes(s, Asking(), Voter()) && VoteGiven() in s.msgs
    ensures CanHappen(Three(), s, Run(Deliver(VoteGiven())))
    ensures Nodes(Next(Three(), s, Run(Deliver(VoteGiven()))), Elected(), Voter())
  {
    hide HistoryDone, FullAfter, VoteReply;
    Majority();
  }

  /** The second vote of three is the majority. */
  lemma Majority()
    ensures VoteReply(Three().configs[0], Asking(), 1, 1, VoteResponse(1, true)) == Out(Elected(), (), [])
  {
    hide SetAll;
    assert |Asking().tally + {1}| == 2;
    SetPeers();
    assert map[0 := 0, 1 := 0, 2 := 0] == map[1 := 0, 2 := 0][0 := 0];
  }

  lemma SetPeers()
    ensures SetAll(map[], [1, 2], 1) == map[1 := 1, 2 := 1] && SetAll(map[], [1, 2], 0) == map[1 := 0, 2 := 0]
  {
  }

  lemma Write(s: Cluster)
    requires Nodes(s, Elected(), Voter())
    ensures CanHappen(Three(), s, Run(ClientWrite(0, "k", "v")))
    ensures WriteAppend(Three().configs[0], Elected(), "k", "v").reply == Some(FIRST)
    ensures Nodes(Next(Three(), s, Run(ClientWrite(0, "k", "v"))), Writing(), Voter())
  {
    hide HistoryDone, FullAfter, WriteAppend, HistoryAfter;
    Appended();
  }

  lemma Appended()
    ensures var out := WriteAppend(Three().configs[0], Elected(), "k", "v");
            out.state == Writing() && out.reply == Some(FIRST)
  {
    hide AdvanceCommit;
    var t := Elected().disk.log.Upsert([FIRST]);
    assert t == LogTable(0, 0, [FIRST]);
    assert Elected().matchIndex[0 := 1] == Writing().matchIndex;
  }

  lemma SendEntry(s: Cluster)
    requires Nodes(s, Writing(), Voter())
    ensures CanHappen(Three(), s, Run(ReplicateTo(0, 1)))
    ensures var t := Next(Three(), s, Run(ReplicateTo(0, 1))); Nodes(t, Writing(), Voter()) && EntrySent() in t.msgs
  {
    hide HistoryDone, FullAfter, Replicate;
    Sent();
  }

  lemma Sent()
    ensures GoodTable(Writing())
    ensures Replicate(Three().configs[0], Writing(), 1) == Out(Writing(), SendAppend(EntrySent().append, 1), [])
  {
    assert Writing().disk.log.EntriesFrom(1, BATCH_SIZE) == [FIRST];
  }

  lemma TakeEntry(s: Cluster)
    requires Nodes(s, Writing(), Voter()) && EntrySent() in s.msgs
    ensures CanHappen(Three(), s, Run(Deliver(EntrySent())))
    ensures var t := Next(Three(), s, Run(Deliver(EntrySent())));
            Nodes(t, Writing(), Following()) && EntryTaken() in t.msgs
  {
    hide HistoryDone, FullAfter, AppendEntries, LogTable.Merge;
    Taken();
  }

  lemma Taken()
    ensures AppendGuard(Three().configs[1], Voter(), EntrySent().append)
    ensures var out := AppendEntries(Three().configs[1], Voter(), EntrySent().append);
            out.state == Following() && out.reply == AppendResponse(1, true, 1)
  {
    hide LogTable.Merge, AppendEntries;
    MergesNew(Voter().disk.log, [FIRST]);
    assert [] + [FIRST] == [FIRST];
    AcceptsInto(Three().configs[1], Voter(), EntrySent().append, LogTable(0, 0, [FIRST]));
  }

  lemma Learn(s: Cluster)
    requires Nodes(s, Writing(), Following()) && EntryTaken() in s.msgs
    ensures CanHappen(Three(), s, Run(Deliver(EntryTaken())))
    ensures 0 in Next(Three(), s, Run(Deliver(EntryTaken()))).nodes
    ensures var a := Next(Three(), s, Run(Deliver(EntryTaken()))).nodes[0];
            WriteSucceeds(a, FIRST) && a.lastApplied == 1 && Values(a.disk.kv) == map["k" := "v"]
  {
    hide HistoryDone, FullAfter, AppendReply;
    Learned();
  }

  lemma Learned()
    ensures GoodTable(Writing())
    ensures var a := AppendReply(Three().configs[0], Writing(), 1, 1, 1, AppendResponse(1, true, 1)).state;
            WriteSucceeds(a, FIRST) && a.lastApplied == 1 && Values(a.disk.kv) == map["k" := "v"]
  {
    hide AdvanceCommit;
    Matched();
    var m := Writing().(matchIndex := map[0 := 1, 1 := 1, 2 := 0], nextIndex := map[1 := 2, 2 := 1]);
    assert Writing().matchIndex[1 := 1] == m.matchIndex && Writing().nextIndex[1 := 2] == m.nextIndex;
  }

  lemma Matched()
    ensures var m := Writing().(matchIndex := map[0 := 1, 1 := 1, 2 := 0], nextIndex := map[1 := 2, 2 := 1]);
            GoodTable(m)
            && var a := AdvanceCommit(Three().configs[0], m).state;
            WriteSucceeds(a, FIRST) && a.lastApplied == 1 && Values(a.disk.kv) == map["k" := "v"]
  {
    var cfg := Three().configs[0];
    var m := Writing().(matchIndex := map[0 := 1, 1 := 1, 2 := 0], nextIndex := map[1 := 2, 2 := 1]);
    assert cfg.peers[..1] == [1];
    assert CountMatches([1], m.matchIndex, 1) == 1;
    assert CountMatches(cfg.peers, m.matchIndex, 1) == 1;
    assert Committable(cfg, m, 1);
    assert HighestCommittable(cfg, m, 0, 1) == 1;
    ApplyKeeps(cfg, m.(commitIndex := 1));
    var ready := m.(commitIndex := 1);
    assert InRange(ready) && Pending(ready) == [FIRST];
    ApplyLoopReplays(ready);
    ReplaySingle(map[], FIRST);
    assert Values(ready.disk.kv) == map[];
  }

  lemma NothingYet(c: Setup)
    ensures IsRun(c, [Initial(c)], [])
  {
  }

  /** There is a run in which a client is told that its write succeeded, and the write is in the leader's table. */
  lemma AWriteSucceeds() returns (states: seq<Cluster>, events: seq<Event>)
    ensures ValidSetup(Three()) && IsRun(Three(), states, events) && |states| == |events| + 1
    ensures var last := states[|states| - 1];
            0 in last.nodes && WriteSucceeds(last.nodes[0], FIRST) && Values(last.nodes[0].disk.kv) == map["k" := "v"]
  {
    hide Next, CanHappen, IsRun, ValidSetup, WriteSucceeds, Values, Three, Nodes, Fresh, Asking, Voter,
         Elected, Writing, Following, VoteAsked, VoteGiven, EntrySent, EntryTaken;
    Start();
    var c := Three();
    states, events := [Initial(c)], [];
    NothingYet(c);
    Ask(states[|events|]);
    states, events := RunGoesOn(c, states, events, Run(Timeout(0)));
    Vote(states[|events|]);
    states, events := RunGoesOn(c, states, events, Run(Deliver(VoteAsked())));
    Win(states[|events|]);
    states, events := RunGoesOn(c, states, events, Run(Deliver(VoteGiven())));
    Write(states[|events|]);
    states, events := RunGoesOn(c, states, events, Run(ClientWrite(0, "k", "v")));
    SendEntry(states[|events|]);
    states, events := RunGoesOn(c, states, events, Run(ReplicateTo(0, 1)));
    TakeEntry(states[|events|]);
    states, events := RunGoesOn(c, states, events, Run(Deliver(EntrySent())));
    Learn(states[|events|]);
    states, events := RunGoesOn(c, states, events, Run(Deliver(EntryTaken())));
  }

  lemma Start()
    ensures ValidSetup(Three())
    ensures Nodes(Initial(Three()), Fresh(), Fresh())
  {
    hide ValidSetup;
    ThreeOk();
  }

  lemma ThreeOk()
    ensures ValidSetup(Three())
  {
    hide ValidConfig;
    var c := Three();
    assert c.configs.Keys == {0, 1, 2};
    TwoPeers(0, 1, 2);
    TwoPeers(1, 0, 2);
    TwoPeers(2, 0, 1);
  }

  lemma TwoPeers(n: NodeId, a: NodeId, b: NodeId)
    requires n != a && n != b && a != b && {n, a, b} == {0, 1, 2}
    ensures ValidConfig({0, 1, 2}, n, Config(n, [a, b], 0))
  {
  }
}
