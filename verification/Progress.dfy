/**
 * The cluster is never stuck: where nobody compacts, every reachable state can go on to a client write that succeeds.
 * A node with the most up-to-date log restarts, stands for a term that nobody has seen, is elected, takes the write,
 * and repairs the log of every peer.
 */
module Progress {
  import opened RaftTypes
  import opened Logs
  import opened LogTables
  import opened Compaction
  import opened Disks
  import opened NodeSpec
  import opened Protocol
  import opened Clusters
  import opened NodeRuns
  import opened HandlerRuns
  import opened LeaderRuns
  import opened ClusterSafety
  import opened RaftSafety
  import opened RaftDurability
  import opened OldMatches
  import opened Compacting
  import opened Promptness
  import opened LogRepair
  import opened Stepping

  // ----- which node stands -----

  predicate AtLeast(a: LogTable, b: LogTable) {
    a.LastTerm() > b.LastTerm() || (a.LastTerm() == b.LastTerm() && a.LastIndex() >= b.LastIndex())
  }

  /** Of some nodes, one whose log is up to date for all of them. */
  lemma {:induction false} BestLog(s: Cluster, ids: set<NodeId>) returns (n: NodeId)
    requires ids != {} && ids <= s.nodes.Keys
    ensures n in ids
    ensures forall m :: m in ids ==> AtLeast(s.nodes[n].disk.log, s.nodes[m].disk.log)
  {
    var one :| one in ids;
    n := one;
    if ids - {one} != {} {
      var m := BestLog(s, ids - {one});
      if !AtLeast(s.nodes[one].disk.log, s.nodes[m].disk.log) { n := m; }
    }
    forall m | m in ids
      ensures AtLeast(s.nodes[n].disk.log, s.nodes[m].disk.log)
    {
      assert m == one || m in ids - {one};
    }
  }

  lemma {:induction false} TermBound(s: Cluster, ids: set<NodeId>) returns (t: nat)
    requires ids <= s.nodes.Keys
    ensures forall m :: m in ids ==> s.nodes[m].term <= t
  {
    t := 0;
    if ids != {} {
      var one :| one in ids;
      var rest := TermBound(s, ids - {one});
      t := Max(rest, s.nodes[one].term);
      forall m | m in ids
        ensures s.nodes[m].term <= t
      {
        assert m == one || m in ids - {one};
      }
    }
  }

  /** Timeouts take a node that does not lead to any term, with the log it has. */
  lemma {:induction false} Raises(c: Setup, s: Cluster, n: NodeId, t: nat) returns (u: Cluster)
    requires ValidSetup(c) && Reachable(c, s) && n in c.configs && n in s.nodes && s.nodes[n].role != Leader
    ensures Reachable(c, u) && After(c, s, u) && n in u.nodes && u.nodes == s.nodes[n := u.nodes[n]]
    ensures u.nodes[n].role != Leader && u.nodes[n].term >= t && u.nodes[n].disk.log == s.nodes[n].disk.log
    decreases t - s.nodes[n].term
  {
    hide ValidSetup, Reachable, GoesOnTo, Grows;
    if s.nodes[n].term >= t {
      StaysAt(c, s);
      u := s;
    } else {
      var s1 := Stands(c, s, n);
      u := Raises(c, s1, n, t);
      AfterTrans(c, s, s1, u);
    }
  }

  // ----- the election -----

  /** A leader that was just elected. */
  predicate JustElected(cfg: Config, l: NodeState) {
    && l.role == Leader
    && forall p :: p in cfg.peers ==> Get(l.nextIndex, p) == l.disk.log.LastIndex() + 1 && Get(l.matchIndex, p) == 0
  }

  function Among(peers: seq<NodeId>): set<NodeId> { set p | p in peers }

  /** The vote requests are out, all peers may grant them, and those after the first k have not yet done so. */
  predicate Asking(c: Setup, s: Cluster, n: NodeId, req: VoteRequest, k: nat) {
    && n in c.configs && s.nodes.Keys == c.configs.Keys && req.candidate == n && s.nodes[n].term == req.term
    && var peers := c.configs[n].peers;
    && k <= |peers| && n !in peers && Distinct(peers) && c.configs[n].id == n
    && (forall p :: p in peers ==>
          p in c.configs && VoteCall(n, p, req) in s.msgs
          && s.nodes[p].term <= req.term && LogUpToDate(req, s.nodes[p].disk.log))
    && (forall j :: k <= j < |peers| ==> s.nodes[peers[j]].term < req.term)
  }

  /** A candidate that has counted the first k peers, or has won with some of them. */
  predicate Counting(cfg: Config, ns: NodeState, k: nat) {
    && k <= |cfg.peers|
    && (|| JustElected(cfg, ns)
        || (&& ns.role == Candidate && ns.tally == {cfg.id} + Among(cfg.peers[..k])
            && (k > 0 ==> |ns.tally| < cfg.Majority())))
  }

  /** All logs are what they were. */
  predicate SameLogs(s: Cluster, t: Cluster) {
    t.nodes.Keys == s.nodes.Keys && forall m :: m in s.nodes ==> t.nodes[m].disk.log == s.nodes[m].disk.log
  }

  /** What a node makes of a granted vote. */
  lemma CountsVote(cfg: Config, ns: NodeState, k: nat, term: nat)
    requires cfg.id !in cfg.peers && ns.term == term && k < |cfg.peers| && Counting(cfg, ns, k)
    ensures var m := VoteReply(cfg, ns, cfg.peers[k], term, VoteResponse(term, true)).state;
            m.term == term && m.disk == ns.disk && Counting(cfg, m, k + 1)
  {
    hide BecomeLeader, JustElected, Among;
    OneMore(cfg.peers, k);
    BecomesElected(cfg, ns.(tally := ns.tally + {cfg.peers[k]}));
    assert JustElected(cfg, ns) ==> ns.role == Leader by { ElectedLeads(cfg, ns); }
  }

  lemma OneMore(peers: seq<NodeId>, k: nat)
    requires k < |peers|
    ensures Among(peers[..k + 1]) == Among(peers[..k]) + {peers[k]}
  {
    assert peers[..k + 1] == peers[..k] + [peers[k]];
  }

  lemma BecomesElected(cfg: Config, ns: NodeState)
    requires cfg.id !in cfg.peers
    ensures var l := BecomeLeader(cfg, ns); JustElected(cfg, l) && l.term == ns.term && l.disk == ns.disk
  {
  }

  lemma ElectedLeads(cfg: Config, l: NodeState)
    ensures JustElected(cfg, l) ==> l.role == Leader
  {
  }

  /** The next peer grants its vote, and the candidate counts it, unless it leads already. */
  lemma Polls(c: Setup, s: Cluster, n: NodeId, req: VoteRequest, k: nat) returns (t: Cluster)
    requires ValidSetup(c) && Reachable(c, s) && Asking(c, s, n, req, k) && Counting(c.configs[n], s.nodes[n], k)
    requires k < |c.configs[n].peers|
    ensures Reachable(c, t) && After(c, s, t) && SameLogs(s, t)
    ensures Asking(c, t, n, req, k + 1) && Counting(c.configs[n], t.nodes[n], k + 1)
  {
    hide ValidSetup, Reachable, GoesOnTo, Grows, VoteReply, RequestVote, LogUpToDate, Counting;
    var p := c.configs[n].peers[k];
    GrantShape(s.nodes[p], req);
    var s1 := Votes(c, s, n, p, req);
    CountsVote(c.configs[n], s1.nodes[n], k, req.term);
    t := Counts(c, s1, n, p, req.term, VoteResponse(req.term, true));
    AfterTrans(c, s, s1, t);
  }

  /** All peers answer. */
  lemma {:induction false} PollsAll(c: Setup, s: Cluster, n: NodeId, req: VoteRequest, k: nat) returns (t: Cluster)
    requires ValidSetup(c) && Reachable(c, s) && Asking(c, s, n, req, k) && Counting(c.configs[n], s.nodes[n], k)
    ensures Reachable(c, t) && After(c, s, t) && SameLogs(s, t)
    ensures var all := |c.configs[n].peers|; Asking(c, t, n, req, all) && Counting(c.configs[n], t.nodes[n], all)
    decreases |c.configs[n].peers| - k
  {
    hide ValidSetup, Reachable, GoesOnTo, Grows, LogUpToDate, Counting;
    if k == |c.configs[n].peers| {
      StaysAt(c, s);
      t := s;
    } else {
      var s1 := Polls(c, s, n, req, k);
      t := PollsAll(c, s1, n, req, k + 1);
      AfterTrans(c, s, s1, t);
    }
  }

  /** All votes are a majority. */
  lemma AllIsMajority(ids: set<NodeId>, n: NodeId, cfg: Config, ns: NodeState)
    requires ValidConfig(ids, n, cfg) && Counting(cfg, ns, |cfg.peers|)
    ensures JustElected(cfg, ns) || (ns.role == Candidate && cfg.peers == [] && cfg.Majority() == 1)
  {
    PeersAre(ids, n, cfg);
    MajorityOfAll(ids, n, cfg);
    assert cfg.peers[..|cfg.peers|] == cfg.peers;
    assert {n} + Among(cfg.peers) == ids;
  }

  /** No other node has passed this node's term, or holds a log that its own is behind. */
  predicate MayWin(s: Cluster, n: NodeId) {
    && n in s.nodes && s.nodes[n].role != Leader
    && forall m :: m in s.nodes && m != n ==>
         s.nodes[m].term <= s.nodes[n].term && AtLeast(s.nodes[n].disk.log, s.nodes[m].disk.log)
  }

  /** Such a node wins the election of the next term. */
  lemma Wins(c: Setup, s: Cluster, n: NodeId) returns (t: Cluster)
    requires ValidSetup(c) && Reachable(c, s) && n in c.configs && n in s.nodes && MayWin(s, n)
    ensures Reachable(c, t) && After(c, s, t) && SameLogs(s, t) && n in t.nodes
    ensures JustElected(c.configs[n], t.nodes[n]) && t.nodes[n].term == s.nodes[n].term + 1
    ensures forall m :: m in t.nodes ==> t.nodes[m].term <= t.nodes[n].term
  {
    hide ValidSetup, Reachable, GoesOnTo, Grows, ValidConfig, Counting, JustElected, LogUpToDate;
    var cfg := c.configs[n];
    Ready(c, s, n);
    ConfigAt(c, n);
    var s1 := StartsPoll(c, s, n);
    t := PollsAll(c, s1, n, AskedBy(cfg, s.nodes[n]), 0);
    AfterTrans(c, s, s1, t);
    AskedAll(c, t, n, AskedBy(cfg, s.nodes[n]), |cfg.peers|);
    AllIsMajority(c.configs.Keys, n, cfg, t.nodes[n]);
    if !JustElected(cfg, t.nodes[n]) {
      var s2 := t;
      t := WinsAlone(c, s2, n);
      AfterTrans(c, s, s2, t);
    }
  }

  lemma ConfigAt(c: Setup, n: NodeId)
    requires ValidSetup(c) && n in c.configs
    ensures ValidConfig(c.configs.Keys, n, c.configs[n])
  {
  }

  lemma AskedAll(c: Setup, s: Cluster, n: NodeId, req: VoteRequest, k: nat)
    requires Asking(c, s, n, req, k) && ValidConfig(c.configs.Keys, n, c.configs[n])
    ensures forall m :: m in s.nodes ==> s.nodes[m].term <= req.term
  {
    hide ValidConfig;
    PeersAre(c.configs.Keys, n, c.configs[n]);
  }

  lemma StartsPoll(c: Setup, s: Cluster, n: NodeId) returns (t: Cluster)
    requires ValidSetup(c) && Reachable(c, s) && n in c.configs && n in s.nodes && MayWin(s, n)
    ensures Reachable(c, t) && After(c, s, t) && SameLogs(s, t)
    ensures Asking(c, t, n, AskedBy(c.configs[n], s.nodes[n]), 0) && Counting(c.configs[n], t.nodes[n], 0)
  {
    hide ValidSetup, Reachable, GoesOnTo, Grows, ValidConfig, Counting;
    Ready(c, s, n);
    ConfigAt(c, n);
    PeersAre(c.configs.Keys, n, c.configs[n]);
    t := Stands(c, s, n);
    StartsCounting(c.configs[n], t.nodes[n]);
  }

  lemma StartsCounting(cfg: Config, ns: NodeState)
    requires ns.role == Candidate && ns.tally == {cfg.id}
    ensures Counting(cfg, ns, 0)
  {
    assert Among(cfg.peers[..0]) == {};
  }

  /** A node without peers is its own majority. */
  lemma WinsAlone(c: Setup, s: Cluster, n: NodeId) returns (t: Cluster)
    requires ValidSetup(c) && Reachable(c, s) && n in c.configs && n in s.nodes && s.nodes[n].role == Candidate
    requires c.configs[n].peers == []
    ensures Reachable(c, t) && After(c, s, t) && SameLogs(s, t)
    ensures JustElected(c.configs[n], t.nodes[n]) && t.nodes == s.nodes[n := t.nodes[n]]
    ensures t.nodes[n].term == s.nodes[n].term
  {
    hide ValidSetup, Reachable, GoesOnTo, Grows, ElectAlone, JustElected;
    Ready(c, s, n);
    AloneElects(c.configs[n], s.nodes[n]);
    t := Acts(c, s, Alone(n, s.nodes[n].term));
  }

  lemma AloneElects(cfg: Config, ns: NodeState)
    requires cfg.peers == [] && ns.role == Candidate
    ensures var l := ElectAlone(cfg, ns, ns.term).state;
            JustElected(cfg, l) && l.term == ns.term && l.disk == ns.disk
  {
  }

  // ----- what a new leader finds -----

  lemma At(c: Setup, s: Cluster, n: NodeId)
    requires ValidSetup(c) && Reachable(c, s) && n in c.configs
    ensures ClusterInv(c, s) && n in s.nodes && n in s.full && GoodTable(s.nodes[n]) && Rests(s.nodes[n])
    ensures Runs(c.configs.Keys, Abs(s), n, s.nodes[n])
    ensures Abs(s).replicas[n] == AbsNode(s.nodes[n], s.full[n]) && Abs(s).h == s.h
    ensures s.nodes[n].disk.log.LastIndex() == |s.full[n]|
    ensures s.nodes[n].disk.log.LastTerm() == TermOf(s.full[n], |s.full[n]|)
    ensures s.nodes[n].role == Leader ==> NothingCounted(c.configs[n], s.nodes[n])
    ensures s.nodes.Keys == s.full.Keys == c.configs.Keys
  {
    hide ValidSetup, Reachable, ClusterInv, Inv, Abs, NodeOk, NothingCounted;
    ReachableOk(c, s);
    KeysAgree(c, s);
    NodeRunning(c, s, n);
    NodeParts(s.nodes[n], s.full[n]);
    LastAgrees(s.nodes[n].disk.log, s.full[n]);
    AtRest(c, s, n);
    if s.nodes[n].role == Leader {
      var states, events := RunTo(c, s);
      CountsNothing(c, states, events, |events|, n);
    }
  }

  /** A leader that has just been elected has no entry of its term. */
  lemma WinnerIsFresh(c: Setup, s: Cluster, t: Cluster, n: NodeId)
    requires ValidSetup(c) && Reachable(c, s) && Reachable(c, t) && n in c.configs && SameLogs(s, t)
    requires n in s.nodes && s.nodes[n].term < t.nodes[n].term
    ensures n in t.full && forall i :: 0 <= i < |t.full[n]| ==> t.full[n][i].term < t.nodes[n].term
  {
    hide ValidSetup, Reachable, ClusterInv, Inv, Abs, NodeOk, NothingCounted, Rests, Rooted;
    At(c, s, n);
    At(c, t, n);
    TermsBounded(c.configs.Keys, Abs(s), n);
    LogFacts(c.configs.Keys, Abs(t), n);
    ReignsOk(c.configs.Keys, Abs(t));
    var log := t.full[n];
    forall i | 0 <= i < |log|
      ensures log[i].term < t.nodes[n].term
    {
      RootedSorted(t.h.reigns, log, i, |log| - 1);
    }
  }

  /** Then no other node up to its term has one either. */
  lemma OthersLack(c: Setup, s: Cluster, n: NodeId, m: NodeId)
    requires ValidSetup(c) && Reachable(c, s) && n in c.configs && m in c.configs && n in s.nodes && m in s.nodes
    requires s.nodes[n].role == Leader && s.nodes[m].term <= s.nodes[n].term && n in s.full
    requires forall i :: 0 <= i < |s.full[n]| ==> s.full[n][i].term < s.nodes[n].term
    ensures m in s.full && forall i :: 0 <= i < |s.full[m]| ==> s.full[m][i].term < s.nodes[n].term
  {
    hide ValidSetup, Reachable, ClusterInv, Inv, Abs, NodeOk, NothingCounted, Rests;
    At(c, s, m);
    At(c, s, n);
    TermsBounded(c.configs.Keys, Abs(s), m);
    LogFacts(c.configs.Keys, Abs(s), m);
    LeaderFacts(c.configs.Keys, Abs(s), n);
    forall i | 0 <= i < |s.full[m]|
      ensures s.full[m][i].term != s.nodes[n].term
    {
      assert Agree(s.full[m], s.h.reigns[s.full[m][i].term].log, i + 1);
    }
  }

  // ----- the write, and its way to a quorum -----

  /** The leader's log ends with its only entry of its term, at index last, which it has not committed yet. */
  predicate Writing(c: Setup, s: Cluster, n: NodeId, last: nat) {
    && n in c.configs && n in s.nodes && n in s.full && s.nodes[n].role == Leader
    && 0 < last == |s.full[n]| && s.full[n][last - 1].term == s.nodes[n].term
    && (forall i :: 0 <= i < last - 1 ==> s.full[n][i].term < s.nodes[n].term)
  }

  /** The peer lacks this entry, has what the leader has committed, and will be sent the entry next. */
  predicate ToSend(s: Cluster, n: NodeId, p: NodeId, last: nat)
    requires n in s.nodes && n in s.full
  {
    && p in s.nodes && p in s.full && p != n && s.nodes[p].term <= s.nodes[n].term
    && (forall i :: 0 <= i < |s.full[p]| ==> s.full[p][i].term < s.nodes[n].term)
    && Get(s.nodes[n].matchIndex, p) == 0 && Get(s.nodes[n].nextIndex, p) == last
    && Agree(s.full[n], s.full[p], s.nodes[n].commitIndex)
  }

  /** Some peers are known to hold the entry, and others are still to be sent it. */
  predicate Spreading(c: Setup, s: Cluster, n: NodeId, last: nat, done: set<NodeId>, rest: set<NodeId>) {
    && Writing(c, s, n, last)
    && (forall v :: v in done ==> v in s.nodes && v != n && Get(s.nodes[n].matchIndex, v) >= last)
    && (forall v :: v in rest ==> ToSend(s, n, v, last))
  }

  lemma ReadyFor(c: Setup, s: Cluster, n: NodeId, p: NodeId, last: nat)
    requires ValidSetup(c) && Reachable(c, s) && Writing(c, s, n, last) && ToSend(s, n, p, last)
    ensures n in s.full && p in s.full
    ensures Repairing(c, s, n, p) && Serves(c, s, n, p) && Shared(s, n, p) < |s.full[n]|
  {
    hide ValidSetup, Reachable, ClusterInv, Common, Repairing, Inv, Abs, NodeOk, NothingCounted;
    At(c, s, n);
    CommonIsHighest(s.full[n], s.full[p], |s.full[n]|);
    CommonIsHighest(s.full[n], s.full[p], s.nodes[n].commitIndex);
    StartsRepairing(c, s, n, p);
  }

  /** The next peer is brought to hold the leader's log. Either this commits the entry, or it goes on. */
  lemma Spreads(c: Setup, s: Cluster, n: NodeId, last: nat, done: set<NodeId>, rest: set<NodeId>, p: NodeId)
    returns (t: Cluster)
    requires ValidSetup(c) && Reachable(c, s) && Spreading(c, s, n, last, done, rest) && p in rest
    ensures Reachable(c, t) && GoesOnTo(c, s, t) && Writing(c, t, n, last) && t.nodes[n].term == s.nodes[n].term
    ensures t.nodes[n].commitIndex == last || Spreading(c, t, n, last, done + {p}, rest - {p})
  {
    hide ValidSetup, Reachable, GoesOnTo, Repairing, Serves, Common, ClusterInv, Elsewhere, CommitsOwn, Inv, Abs,
         ToSend, NothingCounted, Runs, Rests;
    ReadyFor(c, s, n, p, last);
    t := RepairsTo(c, s, n, p);
    OneMoreHolds(s, t, n, p, last, done, rest);
  }

  lemma RepairsTo(c: Setup, s: Cluster, n: NodeId, p: NodeId) returns (t: Cluster)
    requires Reachable(c, s) && Repairing(c, s, n, p) && Serves(c, s, n, p)
    requires n in s.nodes && n in s.full && p in s.full && Shared(s, n, p) < |s.full[n]|
    ensures Reachable(c, t) && GoesOnTo(c, s, t) && n in t.nodes && n in t.full && t.full[n] == s.full[n]
    ensures Elsewhere(s, t, n, p) && CommitsOwn(s, t, n) && t.nodes[n].role == Leader
    ensures Get(t.nodes[n].matchIndex, p) == |s.full[n]|
  {
    hide Reachable, Repairing, Serves, Common, IsRun, NothingCounted, Elsewhere, CommitsOwn;
    RepairingParts(c, s, n, p);
    var states, events := RunTo(c, s);
    var rounds := RoundsNeeded(Probe(s, n, p), Shared(s, n, p), |s.full[n]|);
    assert rounds > 0;
    var after, so := GoOn(c, states, events, n, p, rounds);
    t := after[|so|];
    GoesToEnd(c, after, so, 0);
    GoesToEnd(c, after, so, |events|);
    StartsAtInitial(c, after, so);
    LeadsStill(c, t, n, p);
  }

  lemma StartsAtInitial(c: Setup, states: seq<Cluster>, events: seq<Event>)
    requires IsRun(c, states, events) && GoesOnTo(c, states[0], states[|events|])
    ensures Reachable(c, states[|events|])
  {
  }

  lemma LeadsStill(c: Setup, s: Cluster, n: NodeId, p: NodeId)
    requires Repairing(c, s, n, p)
    ensures n in s.nodes && s.nodes[n].role == Leader
  {
  }

  /** What the leader knew and the others hold is unchanged, unless the entry is committed now. */
  lemma OneMoreHolds(s: Cluster, t: Cluster, n: NodeId, p: NodeId, last: nat, done: set<NodeId>, rest: set<NodeId>)
    requires n in s.nodes && n in s.full && n in t.nodes && n in t.full && t.full[n] == s.full[n] && p in rest
    requires 0 < last == |s.full[n]| && s.full[n][last - 1].term == s.nodes[n].term
    requires forall i :: 0 <= i < last - 1 ==> s.full[n][i].term < s.nodes[n].term
    requires forall v :: v in done ==> v in s.nodes && v != n && Get(s.nodes[n].matchIndex, v) >= last
    requires forall v :: v in rest ==> ToSend(s, n, v, last)
    requires Elsewhere(s, t, n, p) && CommitsOwn(s, t, n) && Get(t.nodes[n].matchIndex, p) == last
    ensures t.nodes[n].term == s.nodes[n].term
    ensures forall v :: v in done + {p} ==> v in t.nodes && v != n && Get(t.nodes[n].matchIndex, v) >= last
    ensures t.nodes[n].commitIndex == last || forall v :: v in rest - {p} ==> ToSend(t, n, v, last)
  {
    if t.nodes[n].commitIndex != last {
      assert t.nodes[n].commitIndex == s.nodes[n].commitIndex;
    }
  }

  lemma {:induction false} SpreadsAll(c: Setup, s: Cluster, n: NodeId, last: nat, done: set<NodeId>, rest: set<NodeId>)
    returns (t: Cluster)
    requires ValidSetup(c) && Reachable(c, s) && Spreading(c, s, n, last, done, rest)
    requires IsQuorum(c.configs.Keys, {n} + done + rest)
    ensures GoesOnTo(c, s, t) && Writing(c, t, n, last) && t.nodes[n].term == s.nodes[n].term
    ensures t.nodes[n].commitIndex >= last
    decreases |rest|
  {
    hide ValidSetup, Reachable, GoesOnTo, ToSend;
    StaysAt(c, s);
    t := s;
    if s.nodes[n].commitIndex < last {
      if rest == {} {
        assert {n} + done + rest == {n} + done;
        AllHold(c, s, n, last, done);
      } else {
        var p :| p in rest;
        t := Spreads(c, s, n, last, done, rest, p);
        if t.nodes[n].commitIndex != last {
          var s1 := t;
          assert {n} + (done + {p}) + (rest - {p}) == {n} + done + rest;
          t := SpreadsAll(c, s1, n, last, done + {p}, rest - {p});
          GoesTrans(c, s, s1, t);
        }
      }
    }
  }

  /** Once a quorum is known to hold the entry, the leader has committed it. */
  lemma AllHold(c: Setup, s: Cluster, n: NodeId, last: nat, done: set<NodeId>)
    requires ValidSetup(c) && Reachable(c, s) && Writing(c, s, n, last)
    requires forall v :: v in done ==> v in s.nodes && v != n && Get(s.nodes[n].matchIndex, v) >= last
    ensures IsQuorum(c.configs.Keys, {n} + done) ==> s.nodes[n].commitIndex >= last
  {
    hide ValidSetup, Reachable, ClusterInv, Inv, Abs, Runs, NothingCounted, Rests, IsRun;
    if IsQuorum(c.configs.Keys, {n} + done) && s.nodes[n].commitIndex < last {
      At(c, s, n);
      var states, events := RunTo(c, s);
      LeaderCommitsAll(c, states, events, |events|, n, last);
      var holders := {n} + set q | q in c.configs && q != n && Get(s.nodes[n].matchIndex, q) >= last;
      SubsetCard({n} + done, holders);
    }
  }

  /** What a leader makes of a write. */
  lemma WriteOut(cfg: Config, l: NodeState, key: string, value: string) returns (e: Entry)
    requires GoodTable(l) && l.role == Leader && key != ""
    ensures var out := WriteAppend(cfg, l, key, value); var m := out.state;
            && out.reply == Some(e) && e.term == l.term && e.index == l.disk.log.LastIndex() + 1
            && (m.commitIndex == l.commitIndex || cfg.Majority() == 1) && m.nextIndex == l.nextIndex
            && (forall p :: p != cfg.id ==> Get(m.matchIndex, p) == Get(l.matchIndex, p))
  {
    hide ApplyCommitted, HighestCommittable;
    e := Entry(l.disk.log.LastIndex() + 1, l.term, SetCommand(key, value));
    if cfg.Majority() == 1 {
      var m := l.(disk := l.disk.(log := l.disk.log.Upsert([e])), matchIndex := l.matchIndex[cfg.id := e.index]);
      ApplyKeeps(cfg, m.(commitIndex := HighestCommittable(cfg, m, m.commitIndex, m.disk.log.LastIndex())));
    }
  }

  /** The fresh leader takes the write, and the entry ends its log; nothing else has changed. */
  lemma WritesFirst(c: Setup, s: Cluster, n: NodeId, key: string, value: string) returns (t: Cluster, e: Entry)
    requires ValidSetup(c) && Reachable(c, s) && n in c.configs && n in s.nodes && n in s.full && key != ""
    requires s.nodes[n].role == Leader && GoodTable(s.nodes[n])
    requires forall i :: 0 <= i < |s.full[n]| ==> s.full[n][i].term < s.nodes[n].term
    ensures Reachable(c, t) && CanHappen(c, s, Run(ClientWrite(n, key, value)))
    ensures t == Next(c, s, Run(ClientWrite(n, key, value)))
    ensures WriteAppend(c.configs[n], s.nodes[n], key, value).reply == Some(e)
    ensures Writing(c, t, n, e.index) && t.nodes[n].term == e.term == s.nodes[n].term && e.index == |s.full[n]| + 1
    ensures t.full[n] == s.full[n] + [e] && t.nodes.Keys == s.nodes.Keys && t.full.Keys == s.full.Keys
    ensures forall q :: q in s.nodes && q != n ==> t.nodes[q] == s.nodes[q] && q in s.full && t.full[q] == s.full[q]
    ensures t.nodes[n].commitIndex == s.nodes[n].commitIndex || c.configs[n].Majority() == 1
    ensures t.nodes[n].nextIndex == s.nodes[n].nextIndex
    ensures forall p :: p != n ==> Get(t.nodes[n].matchIndex, p) == Get(s.nodes[n].matchIndex, p)
  {
    hide ValidSetup, Reachable, GoesOnTo, Next, CanHappen, WriteAppend, ClusterInv, Inv, Abs, Runs, NothingCounted,
         Rests;
    At(c, s, n);
    Ready(c, s, n);
    t := WritesTo(c, s, n, key, value);
    e := WriteOut(c.configs[n], s.nodes[n], key, value);
    At(c, t, n);
    EntryEnds(c, s, t, n, key, value, e);
  }

  lemma EntryEnds(c: Setup, s: Cluster, t: Cluster, n: NodeId, key: string, value: string, e: Entry)
    requires ValidSetup(c) && Reachable(c, s) && n in c.configs && n in s.nodes && GoodTable(s.nodes[n])
    requires CanHappen(c, s, Run(ClientWrite(n, key, value))) && t == Next(c, s, Run(ClientWrite(n, key, value)))
    requires WriteAppend(c.configs[n], s.nodes[n], key, value).reply == Some(e) && n in s.full
    requires s.nodes[n].role == Leader && e.index == |s.full[n]| + 1
    ensures n in t.nodes && n in t.full && n in s.full && t.full[n] == s.full[n] + [e] && t.full.Keys == s.full.Keys
    ensures t.nodes[n].role == Leader && t.nodes[n].term == e.term
    ensures forall q :: q in s.full && q != n ==> t.full[q] == s.full[q]
  {
    hide ValidSetup, Reachable, WriteAppend, ClusterInv, Inv, Abs, Runs, NothingCounted, Rests, Perform, HistoryDone,
         HistoryAfter, FullAfter, IsRun, CanHappen, GoodTable;
    At(c, s, n);
    var states, events := RunTo(c, s);
    var after, so := RunGoesOn(c, states, events, Run(ClientWrite(n, key, value)));
    assert after[|events|] == s;
    WriteLands(c, after, so, |events|, ClientWrite(n, key, value), e);
    LeaderAppendOnly(c, after, so, |events|, |so|, n);
    OnlyActor(c, s, ClientWrite(n, key, value));
    assert t.full[n] == s.full[n] + [t.full[n][|s.full[n]|]];
  }

  lemma OnlyActor(c: Setup, s: Cluster, op: Op)
    requires CanHappen(c, s, Run(op))
    ensures NodeOf(op) in s.full && var t := Next(c, s, Run(op)); t.full.Keys == s.full.Keys
    ensures forall q :: q in s.full && q != NodeOf(op) ==> Next(c, s, Run(op)).full[q] == s.full[q]
  {
    hide Perform, HistoryDone, FullAfter;
  }

  // ----- from anywhere to an acknowledged write -----

  /** A node that may win, in a term that no other node has passed. */
  lemma BringsForward(c: Setup, s: Cluster) returns (n: NodeId, t: Cluster)
    requires ValidSetup(c) && Reachable(c, s) && c.configs.Keys != {}
    ensures n in c.configs && Reachable(c, t) && GoesOnTo(c, s, t)
    ensures n in t.nodes && MayWin(t, n)
  {
    hide ValidSetup, Reachable, GoesOnTo;
    ReachableKeys(c, s);
    n := BestLog(s, c.configs.Keys);
    var bound := TermBound(s, c.configs.Keys);
    var s1 := Crashes(c, s, n);
    t := Raises(c, s1, n, bound);
    AfterTrans(c, s, s1, t);
  }

  lemma ReachableKeys(c: Setup, s: Cluster)
    requires ValidSetup(c) && Reachable(c, s)
    ensures s.nodes.Keys == c.configs.Keys
  {
    hide ValidSetup, Reachable, Inv, Abs, NodeOk;
    ReachableOk(c, s);
  }

  /** Whatever a node has committed in a reachable state, a quorum holds. */
  lemma QuorumHolds(c: Setup, s: Cluster, n: NodeId) returns (q: set<NodeId>)
    requires ValidSetup(c) && Reachable(c, s) && n in c.configs
    ensures n in s.nodes && n in s.full && IsQuorum(c.configs.Keys, q)
    ensures forall v :: v in q ==> v in s.full && Agree(s.full[n], s.full[v], s.nodes[n].commitIndex)
  {
    hide ValidSetup, Reachable, IsRun;
    var states, events := RunTo(c, s);
    q := CommittedOnMajority(c, states, events, |events|, |events|, n);
  }

  /** The entry is on the leader only; the others of the quorum are still to be sent it. */
  lemma StartsSpreading(c: Setup, a: Cluster, b: Cluster, n: NodeId, e: Entry, q: set<NodeId>)
    requires ValidSetup(c) && Reachable(c, a) && n in c.configs && n in a.nodes && n in a.full
    requires JustElected(c.configs[n], a.nodes[n]) && a.nodes[n].disk.log.LastIndex() + 1 == e.index
    requires forall m :: m in a.nodes ==> a.nodes[m].term <= a.nodes[n].term
    requires forall i :: 0 <= i < |a.full[n]| ==> a.full[n][i].term < a.nodes[n].term
    requires Writing(c, b, n, e.index) && b.nodes[n].term == a.nodes[n].term && b.full[n] == a.full[n] + [e]
    requires b.nodes[n].commitIndex == a.nodes[n].commitIndex && b.nodes[n].nextIndex == a.nodes[n].nextIndex
    requires forall v :: v in a.nodes && v != n ==>
               v in b.nodes && b.nodes[v] == a.nodes[v] && v in a.full && v in b.full && b.full[v] == a.full[v]
    requires forall p :: p != n ==> Get(b.nodes[n].matchIndex, p) == Get(a.nodes[n].matchIndex, p)
    requires q <= c.configs.Keys
    requires forall v :: v in q ==> v in a.full && Agree(a.full[n], a.full[v], a.nodes[n].commitIndex)
    ensures Spreading(c, b, n, e.index, {}, q - {n})
  {
    hide ValidSetup, Reachable, ValidConfig, ToSend, JustElected, Distinct;
    ReachableKeys(c, a);
    ConfigAt(c, n);
    PeersAre(c.configs.Keys, n, c.configs[n]);
    forall v | v in q - {n}
      ensures ToSend(b, n, v, e.index)
    {
      OthersLack(c, a, n, v) by { ElectedLeads(c.configs[n], a.nodes[n]); }
      LacksOne(c.configs[n], a, b, n, e, v);
    }
  }

  lemma LacksOne(cfg: Config, a: Cluster, b: Cluster, n: NodeId, e: Entry, v: NodeId)
    requires n in a.nodes && n in a.full && n in b.nodes && n in b.full && v in a.nodes && v in a.full && v != n
    requires v in cfg.peers && JustElected(cfg, a.nodes[n]) && a.nodes[n].disk.log.LastIndex() + 1 == e.index
    requires a.nodes[v].term <= a.nodes[n].term && b.nodes[n].term == a.nodes[n].term
    requires forall i :: 0 <= i < |a.full[v]| ==> a.full[v][i].term < a.nodes[n].term
    requires b.full[n] == a.full[n] + [e] && b.nodes[n].commitIndex == a.nodes[n].commitIndex
    requires b.nodes[n].nextIndex == a.nodes[n].nextIndex
    requires v in b.nodes && b.nodes[v] == a.nodes[v] && v in b.full && b.full[v] == a.full[v]
    requires Get(b.nodes[n].matchIndex, v) == Get(a.nodes[n].matchIndex, v)
    requires Agree(a.full[n], a.full[v], a.nodes[n].commitIndex)
    ensures ToSend(b, n, v, e.index)
  {
  }

  /** Some node can be elected, with a log that has no entry of its term. */
  lemma SomeoneWins(c: Setup, s: Cluster) returns (n: NodeId, a: Cluster)
    requires ValidSetup(c) && Reachable(c, s) && c.configs.Keys != {}
    ensures GoesOnTo(c, s, a) && Reachable(c, a) && n in c.configs && n in a.nodes && n in a.full
    ensures JustElected(c.configs[n], a.nodes[n])
    ensures forall m :: m in a.nodes ==> a.nodes[m].term <= a.nodes[n].term
    ensures forall i :: 0 <= i < |a.full[n]| ==> a.full[n][i].term < a.nodes[n].term
  {
    hide ValidSetup, Reachable, GoesOnTo, MayWin, JustElected;
    var first;
    n, first := BringsForward(c, s);
    a := Wins(c, first, n);
    GoesTrans(c, s, first, a);
    WinnerIsFresh(c, first, a, n);
  }

  /** Such a leader takes a write, and can bring it to a quorum. */
  lemma WinnerSucceeds(c: Setup, a: Cluster, n: NodeId, key: string, value: string) returns (e: Entry, t: Cluster)
    requires ValidSetup(c) && Reachable(c, a) && n in c.configs && n in a.nodes && n in a.full && key != ""
    requires JustElected(c.configs[n], a.nodes[n]) && GoodTable(a.nodes[n])
    requires forall m :: m in a.nodes ==> a.nodes[m].term <= a.nodes[n].term
    requires forall i :: 0 <= i < |a.full[n]| ==> a.full[n][i].term < a.nodes[n].term
    ensures WriteAppend(c.configs[n], a.nodes[n], key, value).reply == Some(e)
    ensures CanHappen(c, a, Run(ClientWrite(n, key, value)))
    ensures GoesOnTo(c, Next(c, a, Run(ClientWrite(n, key, value))), t)
    ensures n in t.nodes && WriteSucceeds(t.nodes[n], e)
  {
    hide ValidSetup, Reachable, GoesOnTo, Next, CanHappen, WriteAppend, GoodTable, ToSend, ClusterInv, Inv, Abs, Runs,
         NothingCounted, Rests, ValidConfig;
    At(c, a, n);
    var b;
    b, e := WritesFirst(c, a, n, key, value);
    if c.configs[n].Majority() == 1 {
      AloneIsQuorum(c, n);
      t := SpreadsAll(c, b, n, e.index, {}, {});
    } else {
      var q := QuorumHolds(c, a, n);
      StartsSpreading(c, a, b, n, e, q);
      QuorumWith(c.configs.Keys, q, n);
      assert {n} + {} + (q - {n}) == q + {n};
      t := SpreadsAll(c, b, n, e.index, {}, q - {n});
    }
  }

  /**
   * From every reachable state, whatever was compacted and will be, events lead to a state in which some leader accepts
   * any given write, and from there to one in which it reports success.
   */
  lemma AWriteCanSucceed(c: Setup, s: Cluster, key: string, value: string)
    returns (a: Cluster, n: NodeId, e: Entry, t: Cluster)
    requires ValidSetup(c) && Reachable(c, s) && c.configs.Keys != {} && key != ""
    ensures GoesOnTo(c, s, a) && n in c.configs && n in a.nodes && GoodTable(a.nodes[n])
    ensures WriteAppend(c.configs[n], a.nodes[n], key, value).reply == Some(e)
    ensures CanHappen(c, a, Run(ClientWrite(n, key, value)))
    ensures GoesOnTo(c, Next(c, a, Run(ClientWrite(n, key, value))), t)
    ensures n in t.nodes && WriteSucceeds(t.nodes[n], e)
  {
    hide ValidSetup, Reachable, GoesOnTo, Next, CanHappen, WriteAppend, GoodTable, WriteSucceeds, JustElected;
    n, a := SomeoneWins(c, s);
    Ready(c, a, n);
    e, t := WinnerSucceeds(c, a, n, key, value);
  }

  lemma QuorumWith(ids: set<NodeId>, q: set<NodeId>, n: NodeId)
    requires IsQuorum(ids, q) && n in ids
    ensures IsQuorum(ids, q + {n})
  {
    SubsetCard(q, q + {n});
  }

  lemma AloneIsQuorum(c: Setup, n: NodeId)
    requires ValidSetup(c) && n in c.configs && c.configs[n].Majority() == 1
    ensures IsQuorum(c.configs.Keys, {n} + {} + {})
  {
    MajorityOfAll(c.configs.Keys, n, c.configs[n]);
    assert {n} + {} + {} == {n};
  }
}
