/** Winning an election, replicating, counting replies, and taking client writes. */
module LeaderRuns {
  import opened RaftTypes
  import opened Logs
  import opened LogTables
  import opened Compaction
  import opened Disks
  import opened NodeSpec
  import opened Protocol
  import opened ProtocolActions
  import opened ProtocolElections
  import opened Clusters
  import opened NodeRuns
  import opened HandlerRuns
  import opened FollowerRuns

  // ----- counting -----

  /** The peers whose recorded match reaches i. */
  function MatchingPeers(peers: seq<NodeId>, matched: map<NodeId, nat>, i: nat): set<NodeId> {
    set p | p in peers && Get(matched, p) >= i
  }

  predicate Distinct(peers: seq<NodeId>) {
    forall i, j :: 0 <= i < j < |peers| ==> peers[i] != peers[j]
  }

  lemma SplitLast(peers: seq<NodeId>)
    requires Distinct(peers) && peers != []
    ensures var last := peers[|peers| - 1]; var rest := peers[..|peers| - 1];
            && Distinct(rest) && last !in rest
            && (forall x :: x in peers <==> x in rest || x == last)
  {
    assert peers == peers[..|peers| - 1] + [peers[|peers| - 1]];
  }

  /** Counting peers one by one counts the set of them, because no peer is listed twice. */
  lemma {:induction false} CountIsCard(peers: seq<NodeId>, matched: map<NodeId, nat>, i: nat)
    requires Distinct(peers)
    ensures CountMatches(peers, matched, i) == |MatchingPeers(peers, matched, i)|
  {
    if peers == [] {
      assert MatchingPeers(peers, matched, i) == {};
    } else {
      var last := peers[|peers| - 1];
      var rest := peers[..|peers| - 1];
      SplitLast(peers);
      CountIsCard(rest, matched, i);
      if Get(matched, last) >= i {
        assert MatchingPeers(peers, matched, i) == MatchingPeers(rest, matched, i) + {last};
      } else {
        assert MatchingPeers(peers, matched, i) == MatchingPeers(rest, matched, i);
      }
    }
  }

  /** The peer list holds exactly the other nodes, and none of them twice. */
  lemma PeersAre(ids: set<NodeId>, n: NodeId, cfg: Config)
    requires ValidConfig(ids, n, cfg)
    ensures forall p :: p in cfg.peers <==> p in ids && p != n
    ensures |cfg.peers| == |ids| - 1 && Distinct(cfg.peers)
  {
    forall p
      ensures p in cfg.peers <==> p in ids && p != n
    {
      assert p in multiset(cfg.peers) <==> p in ids - {n};
    }
    assert |multiset(cfg.peers)| == |ids - {n}|;
    OnceIsDistinct(cfg.peers);
  }

  lemma OnceIsDistinct(peers: seq<NodeId>)
    requires forall p :: multiset(peers)[p] <= 1
    ensures Distinct(peers)
  {
    forall i, j | 0 <= i < j < |peers|
      ensures peers[i] != peers[j]
    {
      assert peers == peers[..j] + peers[j..];
      assert peers[i] in multiset(peers[..j]) && peers[j] in multiset(peers[j..]);
      assert multiset(peers)[peers[i]] == multiset(peers[..j])[peers[i]] + multiset(peers[j..])[peers[i]];
    }
  }

  /** The source's majority of peers plus itself is a majority of the cluster. */
  lemma MajorityOfAll(ids: set<NodeId>, n: NodeId, cfg: Config)
    requires ValidConfig(ids, n, cfg)
    ensures cfg.Majority() == |ids| / 2 + 1
  {
    PeersAre(ids, n, cfg);
  }

  /** A node together with the peers that match form a quorum exactly when the count reaches the majority. */
  lemma CountedQuorum(ids: set<NodeId>, n: NodeId, cfg: Config, matched: map<NodeId, nat>, i: nat)
    requires ValidConfig(ids, n, cfg)
    ensures var q := {n} + MatchingPeers(cfg.peers, matched, i);
            IsQuorum(ids, q) <==> 1 + CountMatches(cfg.peers, matched, i) >= cfg.Majority()
  {
    MajorityOfAll(ids, n, cfg);
    PeersAre(ids, n, cfg);
    CountIsCard(cfg.peers, matched, i);
    var peers := MatchingPeers(cfg.peers, matched, i);
    assert {n} !! peers;
    assert |{n} + peers| == 1 + |peers|;
  }

  // ----- committing -----

  /** The peers that are counted confirmed the leader's log, and so did the leader itself. */
  lemma CountedAcks(ids: set<NodeId>, cfg: Config, p: Proto, n: NodeId, c: nat)
    requires ValidConfig(ids, n, cfg) && n in p.replicas && LeaderOk(p, n)
    requires p.replicas[n].commit < c <= |p.replicas[n].log|
    requires 1 + CountMatches(cfg.peers, p.replicas[n].matched, c) >= cfg.Majority()
    ensures exists q :: AckQuorum(ids, p.h, p.replicas[n].term, c, q)
  {
    CountedQuorum(ids, n, cfg, p.replicas[n].matched, c);
    assert AckQuorum(ids, p.h, p.replicas[n].term, c, {n} + MatchingPeers(cfg.peers, p.replicas[n].matched, c));
  }

  /** What a leader may commit is committed. */
  lemma CommittableIsCommitted(ids: set<NodeId>, cfg: Config, p: Proto, n: NodeId, ns: NodeState, c: nat)
    requires Runs(ids, p, n, ns) && ns.role == Leader && ValidConfig(ids, n, cfg)
    requires c > ns.commitIndex && Committable(cfg, ns, c)
    ensures c <= |p.replicas[n].log| && Committed(ids, p.h, p.replicas[n].log, c, ns.term)
  {
    hide Inv, AckQuorum, NodeOk, ValidConfig;
    var log := p.replicas[n].log;
    NodeParts(ns, log);
    TermAtAgrees(ns.disk.log, log, c);
    LeaderFacts(ids, p, n);
    CountedAcks(ids, cfg, p, n, c);
    assert CommitWitness(ids, p.h, log, c, ns.term, c);
  }

  lemma LeaderFacts(ids: set<NodeId>, p: Proto, n: NodeId)
    requires Inv(ids, p) && n in p.replicas && p.replicas[n].role == Leader
    ensures LeaderOk(p, n) && p.replicas[n].matched.Keys <= ids
  {
    assert ReplicaOk(ids, p, n);
  }

  lemma AdvanceHandled(ids: set<NodeId>, cfg: Config, p: Proto, n: NodeId, ns: NodeState) returns (q: Proto)
    requires Runs(ids, p, n, ns) && ns.role == Leader && ValidConfig(ids, n, cfg) && GoodTable(ns)
    ensures var out := AdvanceCommit(cfg, ns);
            && Handled(ids, p, q, n, ns, out.state, out.writes) && Settled(out.state)
            && q.replicas[n].log == p.replicas[n].log
            && (forall i :: 0 <= i < |out.writes| ==> Represents(out.writes[i].log, p.replicas[n].log))
  {
    hide Inv, Safe, AllSafe, FullAfter, Uncompact, Committable, NodeOk;
    var c := HighestCommittable(cfg, ns, ns.commitIndex, ns.disk.log.LastIndex());
    CommitInRange(ids, p, n);
    NodeParts(ns, p.replicas[n].log);
    if c > ns.commitIndex { CommittableIsCommitted(ids, cfg, p, n, ns, c); }
    CommitKeeps(ids, p, n, c, ns.lastApplied);
    var m := ns.(commitIndex := c);
    var p1 := Commit(p, n, c, ns.lastApplied);
    assert NodeOk(m, p.replicas[n].log) by { SameDiskOk(ns, m, p.replicas[n].log); }
    QuietHandled(ids, p, p1, n, ns, m);
    ApplyHandled(ids, cfg, p1, n, m);
    ApplyCommittedRuns(ids, cfg, p1, n, m);
    q := Commit(p1, n, c, c);
    var a := ApplyCommitted(cfg, m);
    HandledThen(ids, p, p1, q, n, ns, m, a.state, [], a.writes);
    assert [] + a.writes == a.writes;
  }

  lemma NodeParts(ns: NodeState, full: seq<Entry>)
    requires NodeOk(ns, full)
    ensures ns.term == ns.disk.term && ns.votedFor == ns.disk.vote && ns.lastApplied == ns.disk.lastApplied
    ensures Represents(ns.disk.log, full) && ns.disk.log.snapIndex <= ns.lastApplied <= |full|
  {
  }

  lemma SameDiskOk(ns: NodeState, m: NodeState, full: seq<Entry>)
    requires NodeOk(ns, full) && m.disk == ns.disk
    requires m.term == ns.term && m.votedFor == ns.votedFor && m.lastApplied == ns.lastApplied
    ensures NodeOk(m, full)
  {
  }

  /** A leader records a confirmed match and looks what it may commit. */
  lemma MatchHandled(ids: set<NodeId>, cfg: Config, p: Proto, n: NodeId, ns: NodeState,
                     matched: map<NodeId, nat>, next: map<NodeId, nat>) returns (q: Proto)
    requires Runs(ids, p, n, ns) && ns.role == Leader && ValidConfig(ids, n, cfg) && GoodTable(ns)
    requires matched.Keys <= ids
    requires forall v :: v in matched && matched[v] > ns.commitIndex ==>
               Ballot(ns.term, v) in p.h.acks && matched[v] <= p.h.acks[Ballot(ns.term, v)]
    ensures var out := AdvanceCommit(cfg, ns.(matchIndex := matched, nextIndex := next));
            Handled(ids, p, q, n, ns, out.state, out.writes) && Settled(out.state)
            && q.replicas[n].log == p.replicas[n].log
  {
    hide Inv, Safe, AllSafe, FullAfter, Uncompact, NodeOk;
    var m := ns.(matchIndex := matched, nextIndex := next);
    var p1 := Believe(p, n, matched);
    BelieveKeeps(ids, p, n, matched);
    assert NodeOk(m, p.replicas[n].log) by { SameDiskOk(ns, m, p.replicas[n].log); }
    QuietHandled(ids, p, p1, n, ns, m);
    q := AdvanceHandled(ids, cfg, p1, n, m);
    var a := AdvanceCommit(cfg, m);
    HandledThen(ids, p, p1, q, n, ns, m, a.state, [], a.writes);
    assert [] + a.writes == a.writes;
  }

  lemma AppendReplyHandled(ids: set<NodeId>, cfg: Config, p: Proto, n: NodeId, ns: NodeState,
                           src: NodeId, reqTerm: nat, lastSent: nat, resp: AppendResponse) returns (q: Proto)
    requires Runs(ids, p, n, ns) && ValidConfig(ids, n, cfg) && GoodTable(ns) && src in ids
    requires resp.success ==>
               Ballot(reqTerm, src) in p.h.acks && Max(resp.matchIndex, lastSent) <= p.h.acks[Ballot(reqTerm, src)]
    ensures var out := AppendReply(cfg, ns, src, reqTerm, lastSent, resp);
            Handled(ids, p, q, n, ns, out.state, out.writes) && (Settled(ns) ==> Settled(out.state))
  {
    hide Inv, Safe, AllSafe, FullAfter, Uncompact, NodeOk, AdvanceCommit;
    var out := AppendReply(cfg, ns, src, reqTerm, lastSent, resp);
    if resp.term > ns.term {
      StepDownHandled(ids, p, n, ns, resp.term, false);
      q := Followed(p, n, resp.term, false);
    } else if ns.role == Leader && ns.term == reqTerm && resp.success {
      LeaderFacts(ids, p, n);
      var m := Max(Get(ns.matchIndex, src), Max(resp.matchIndex, lastSent));
      var matched := if m > Get(ns.matchIndex, src) then ns.matchIndex[src := m] else ns.matchIndex;
      q := MatchHandled(ids, cfg, p, n, ns, matched, ns.nextIndex[src := m + 1]);
    } else {
      assert NodeOk(out.state, p.replicas[n].log) by { SameDiskOk(ns, out.state, p.replicas[n].log); }
      assert With(p, n, p.replicas[n], p.h) == p;
      QuietHandled(ids, p, p, n, ns, out.state);
      q := p;
    }
  }

  /** A node that does not lead and remembers a match above its commit index: it has led an earlier term. */
  predicate Remembers(ns: NodeState) {
    ns.role != Leader && exists v :: v in ns.matchIndex && ns.matchIndex[v] > ns.commitIndex
  }

  /** Such a node has got the rows of its current term from another leader, and has confirmed them. */
  predicate Backed(n: NodeId, ns: NodeState, full: seq<Entry>, h: History) {
    Remembers(ns) ==>
      && (ns.term in h.reigns ==> h.reigns[ns.term].leader != n)
      && forall i :: 0 <= i < |full| && full[i].term == ns.term ==>
           Ballot(ns.term, n) in h.acks && i < h.acks[Ballot(ns.term, n)]
  }

  /** In a cluster of two or three, that leader and the node are a quorum for what the node counts. */
  lemma RememberedIsCommitted(ids: set<NodeId>, cfg: Config, p: Proto, n: NodeId, ns: NodeState, c: nat)
    requires Runs(ids, p, n, ns) && ns.role != Leader && ValidConfig(ids, n, cfg) && cfg.Majority() == 2
    requires Backed(n, ns, p.replicas[n].log, p.h)
    requires c > ns.commitIndex && Committable(cfg, ns, c)
    ensures c <= |p.replicas[n].log| && Committed(ids, p.h, p.replicas[n].log, c, ns.term)
  {
    hide Inv, AckQuorum, NodeOk, ValidConfig, Rooted;
    var log := p.replicas[n].log;
    NodeParts(ns, log);
    TermAtAgrees(ns.disk.log, log, c);
    CountsOne(ids, cfg, n, ns, c);
    PairIsQuorum(ids, cfg, p, n, c, ns.term);
    assert CommitWitness(ids, p.h, log, c, ns.term, c);
  }

  lemma CountsOne(ids: set<NodeId>, cfg: Config, n: NodeId, ns: NodeState, c: nat)
    requires ValidConfig(ids, n, cfg) && ns.role != Leader && c > ns.commitIndex
    requires CountMatches(cfg.peers, ns.matchIndex, c) > 0
    ensures Remembers(ns)
  {
    PeersAre(ids, n, cfg);
    CountIsCard(cfg.peers, ns.matchIndex, c);
    var v :| v in MatchingPeers(cfg.peers, ns.matchIndex, c);
    assert ns.matchIndex[v] > ns.commitIndex;
  }

  lemma PairIsQuorum(ids: set<NodeId>, cfg: Config, p: Proto, n: NodeId, c: nat, t: nat)
    requires Inv(ids, p) && n in p.replicas && ValidConfig(ids, n, cfg) && cfg.Majority() == 2
    requires 0 < c <= |p.replicas[n].log| && p.replicas[n].log[c - 1].term == t
    requires t in p.h.reigns ==> p.h.reigns[t].leader != n
    requires Ballot(t, n) in p.h.acks && c <= p.h.acks[Ballot(t, n)]
    ensures CommittedAt(ids, p.h, t, c) && Agree(p.replicas[n].log, p.h.reigns[t].log, c)
  {
    hide Inv;
    LogFacts(ids, p, n);
    MajorityOfAll(ids, n, cfg);
    assert Agree(p.replicas[n].log, p.h.reigns[t].log, c);
    LeaderHolds(ids, p, t);
    assert |{n, p.h.reigns[t].leader}| == 2;
    assert AckQuorum(ids, p.h, t, c, {n, p.h.reigns[t].leader});
  }

  /** A node that does not lead may remember any matches, as long as what it then counts is committed. */
  lemma QuietReplyHandled(ids: set<NodeId>, cfg: Config, p: Proto, n: NodeId, ns: NodeState, src: NodeId, k: nat)
    returns (q: Proto)
    requires Runs(ids, p, n, ns) && GoodTable(ns) && src in ids && ns.role != Leader
    requires forall c: nat :: ns.commitIndex < c && Committable(cfg, Recorded(ns, src, k), c) ==>
               c <= |p.replicas[n].log| && Committed(ids, p.h, p.replicas[n].log, c, ns.term)
    ensures var out := AdvanceCommit(cfg, Recorded(ns, src, k));
            && Handled(ids, p, q, n, ns, out.state, out.writes) && Settled(out.state)
            && q.replicas[n].log == p.replicas[n].log
  {
    hide Inv, Safe, AllSafe, FullAfter, Uncompact, NodeOk, Committable, ApplyCommitted, Committed;
    var m := Recorded(ns, src, k);
    var c := HighestCommittable(cfg, m, m.commitIndex, m.disk.log.LastIndex());
    NodeParts(ns, p.replicas[n].log);
    MatchesInside(ids, p, n);
    CommitInRange(ids, p, n);
    BelieveKeeps(ids, p, n, m.matchIndex);
    var p1 := Believe(p, n, m.matchIndex);
    CommitKeeps(ids, p1, n, c, ns.lastApplied);
    var p2 := Commit(p1, n, c, ns.lastApplied);
    var m2 := m.(commitIndex := c);
    assert NodeOk(m2, p.replicas[n].log) by { SameDiskOk(ns, m2, p.replicas[n].log); }
    QuietHandled(ids, p, p2, n, ns, m2);
    ApplyHandled(ids, cfg, p2, n, m2);
    q := Commit(p2, n, c, c);
    var a := ApplyCommitted(cfg, m2);
    HandledThen(ids, p, p2, q, n, ns, m2, a.state, [], a.writes);
    assert [] + a.writes == a.writes;
  }

  lemma HandledCommits<R>(ids: set<NodeId>, p: Proto, q: Proto, n: NodeId, ns: NodeState, out: Out<R>)
    requires n in p.replicas && Handled(ids, p, q, n, ns, out.state, out.writes)
    requires q.replicas[n].log == p.replicas[n].log
    ensures var m := out.state;
            ns.commitIndex <= m.commitIndex <= |p.replicas[n].log|
            && Committed(ids, p.h, p.replicas[n].log, m.commitIndex, m.term)
  {
    hide Inv, Safe, AllSafe, FullAfter, NodeOk;
    CommitInRange(ids, q, n);
  }

  lemma MatchesInside(ids: set<NodeId>, p: Proto, n: NodeId)
    requires Inv(ids, p) && n in p.replicas
    ensures p.replicas[n].matched.Keys <= ids
  {
    assert ReplicaOk(ids, p, n);
  }

  /** What a node that does not lead may count, once the guard lets the answer through. */
  lemma QuietIsCommitted(ids: set<NodeId>, cfg: Config, p: Proto, n: NodeId, ns: NodeState, src: NodeId, k: nat,
                         c: nat)
    requires Runs(ids, p, n, ns) && ValidConfig(ids, n, cfg) && src in ids && src != n && ns.role != Leader
    requires cfg.Majority() <= 2 || NothingCounted(cfg, Recorded(ns, src, k))
    requires Backed(n, ns, p.replicas[n].log, p.h) && k <= ns.commitIndex
    requires ns.commitIndex < c && Committable(cfg, Recorded(ns, src, k), c)
    ensures c <= |p.replicas[n].log| && Committed(ids, p.h, p.replicas[n].log, c, ns.term)
  {
    hide Inv, Committed, NodeOk;
    var m := Recorded(ns, src, k);
    MatchesInside(ids, p, n);
    BelieveKeeps(ids, p, n, m.matchIndex);
    NodeParts(ns, p.replicas[n].log);
    assert NodeOk(m, p.replicas[n].log) by { SameDiskOk(ns, m, p.replicas[n].log); }
    assert cfg.Majority() <= 2;
    TwoAtLeast(ids, cfg, n, src);
    RememberedIsCommitted(ids, cfg, Believe(p, n, m.matchIndex), n, m, c);
  }

  lemma TwoAtLeast(ids: set<NodeId>, cfg: Config, n: NodeId, src: NodeId)
    requires ValidConfig(ids, n, cfg) && src in ids && src != n
    ensures cfg.Majority() >= 2
  {
    MajorityOfAll(ids, n, cfg);
    assert {n, src} <= ids;
    SubsetCard({n, src}, ids);
  }

  /** A snapshot index lies within what the leader that sent it has applied, so it counts for nothing new. */
  lemma InstallReplyHandled(ids: set<NodeId>, cfg: Config, p: Proto, n: NodeId, ns: NodeState,
                            src: NodeId, k: nat, resp: InstallResponse) returns (q: Proto)
    requires Runs(ids, p, n, ns) && ValidConfig(ids, n, cfg) && GoodTable(ns) && src in ids && src != n
    requires InstallReplyGuard(cfg, ns, src, k, resp) && k <= ns.disk.lastApplied
    requires Backed(n, ns, p.replicas[n].log, p.h)
    ensures var out := InstallReply(cfg, ns, src, k, resp);
            Handled(ids, p, q, n, ns, out.state, out.writes) && (Settled(ns) ==> Settled(out.state))
            && q.replicas[n].log == p.replicas[n].log
  {
    hide Inv, Safe, AllSafe, FullAfter, Uncompact, NodeOk, AdvanceCommit, NothingCounted, Backed, Committable,
         Committed;
    if resp.term > ns.term {
      StepDownHandled(ids, p, n, ns, resp.term, false);
      q := Followed(p, n, resp.term, false);
    } else {
      CommitInRange(ids, p, n);
      NodeParts(ns, p.replicas[n].log);
      if ns.role == Leader {
        LeaderFacts(ids, p, n);
        q := MatchHandled(ids, cfg, p, n, ns, ns.matchIndex[src := k], ns.nextIndex[src := k + 1]);
      } else {
        forall c: nat | ns.commitIndex < c && Committable(cfg, Recorded(ns, src, k), c)
          ensures c <= |p.replicas[n].log| && Committed(ids, p.h, p.replicas[n].log, c, ns.term)
        {
          QuietIsCommitted(ids, cfg, p, n, ns, src, k, c);
        }
        q := QuietReplyHandled(ids, cfg, p, n, ns, src, k);
      }
    }
  }

  // ----- winning -----

  /** A candidate whose tally reaches the majority becomes leader, if it is still in its term. */
  lemma BecomeLeaderRuns(ids: set<NodeId>, cfg: Config, p: Proto, n: NodeId, ns: NodeState)
    requires Runs(ids, p, n, ns) && ValidConfig(ids, n, cfg)
    requires ns.role == Candidate && |ns.tally| >= cfg.Majority()
    ensures var m := BecomeLeader(cfg, ns); var q := Win(p, n, m.matchIndex);
            Runs(ids, q, n, m) && Grows(p.h, q.h)
  {
    hide Inv, NodeOk;
    var m := BecomeLeader(cfg, ns);
    var full := p.replicas[n].log;
    NodeParts(ns, full);
    LastAgrees(ns.disk.log, full);
    CandidateFacts(ids, p, n);
    MajorityOfAll(ids, n, cfg);
    PeersAre(ids, n, cfg);
    WinKeeps(ids, p, n, m.matchIndex);
    assert NodeOk(m, full) by { SameDiskOk(ns, m, full); }
  }

  lemma CandidateFacts(ids: set<NodeId>, p: Proto, n: NodeId)
    requires Inv(ids, p) && n in p.replicas && p.replicas[n].role == Candidate
    ensures var r := p.replicas[n];
            r.vote == Some(n) && r.tally <= ids && n in r.tally && r.matched.Keys <= ids
  {
    assert ReplicaOk(ids, p, n);
    CandidateHasVoted(ids, p, n);
  }

  lemma CountRuns(ids: set<NodeId>, p: Proto, n: NodeId, ns: NodeState, v: NodeId)
    requires Runs(ids, p, n, ns) && v in ids && ns.role == Candidate
    requires Ballot(ns.term, v) in p.h.votes && p.h.votes[Ballot(ns.term, v)].candidate == n
    ensures Runs(ids, Count(p, n, v), n, ns.(tally := ns.tally + {v}))
  {
    hide Inv;
    CountKeeps(ids, p, n, v);
  }

  // ----- sending -----

  /** Everything a replication attempt sends is true of the leader's log. */
  lemma ReplicateRuns(ids: set<NodeId>, cfg: Config, p: Proto, n: NodeId, ns: NodeState, peer: NodeId)
    requires Runs(ids, p, n, ns) && GoodTable(ns) && cfg.id == n
    ensures var out := Replicate(cfg, ns, peer);
            && Handled(ids, p, p, n, ns, out.state, out.writes) && (Settled(ns) ==> Settled(out.state))
            && (out.reply.SendAppend? ==>
                  out.reply.append.leader == n && AppendOk(ids, p, out.reply.append)
                  && Contiguous(out.reply.append.prevIndex, out.reply.append.entries))
            && (out.reply.SendInstall? ==>
                  out.reply.install.leader == n && InstallOk(ids, p, out.reply.install)
                  && out.reply.install.lastIndex <= ns.disk.lastApplied)
  {
    hide Inv, Safe, AllSafe, FullAfter, Uncompact;
    var out := Replicate(cfg, ns, peer);
    var full := p.replicas[n].log;
    assert NodeOk(out.state, full) by { SameDiskOk(ns, out.state, full); }
    assert With(p, n, p.replicas[n], p.h) == p;
    QuietHandled(ids, p, p, n, ns, out.state);
    if out.reply.SendAppend? { SendAppendOk(ids, cfg, p, n, ns, peer); }
    if out.reply.SendInstall? { SendInstallOk(ids, cfg, p, n, ns, peer); }
  }

  lemma SendAppendShape(cfg: Config, ns: NodeState, peer: NodeId, full: seq<Entry>)
    requires GoodTable(ns) && Represents(ns.disk.log, full) && Numbered(full)
    requires Replicate(cfg, ns, peer).reply.SendAppend?
    ensures var out := Replicate(cfg, ns, peer); var req := out.reply.append; var end := req.prevIndex + |req.entries|;
            && ns.role == Leader && req.term == ns.term && req.leader == cfg.id && req.leaderCommit == ns.commitIndex
            && req.prevIndex + 1 == (if Get(ns.nextIndex, peer) == 0 then 1 else Get(ns.nextIndex, peer))
            && ns.disk.log.snapIndex <= req.prevIndex <= |full|
            && req.prevTerm == TermOf(full, req.prevIndex)
            && end == Min(|full|, req.prevIndex + BATCH_SIZE)
            && req.entries == full[req.prevIndex..end]
            && Contiguous(req.prevIndex, req.entries)
            && out.reply.lastSent == end
  {
    hide LogTable.EntriesFrom, LogTable.TermAt, LogTable.Valid;
    var req := Replicate(cfg, ns, peer).reply.append;
    TermAtAgrees(ns.disk.log, full, req.prevIndex);
    EntriesFromAgrees(ns.disk.log, full, req.prevIndex + 1, BATCH_SIZE);
    var end := Min(|full|, req.prevIndex + BATCH_SIZE);
    SliceNumbered(full, req.prevIndex, end);
  }

  /** A stored probe position leads to a request, not to a snapshot. */
  lemma SendIs(cfg: Config, ns: NodeState, peer: NodeId, full: seq<Entry>)
    requires GoodTable(ns) && Represents(ns.disk.log, full) && Numbered(full) && ns.role == Leader
    requires ns.disk.log.snapIndex < Get(ns.nextIndex, peer) <= |full| + 1
    ensures var prev := Get(ns.nextIndex, peer) - 1; var end := Min(|full|, prev + BATCH_SIZE);
            && var out := Replicate(cfg, ns, peer);
            && out.state == ns && out.writes == []
            && out.reply == SendAppend(AppendRequest(ns.term, cfg.id, prev, TermOf(full, prev), full[prev..end],
                                                     ns.commitIndex), end)
  {
    TermAtAgrees(ns.disk.log, full, Get(ns.nextIndex, peer) - 1);
    SendAppendShape(cfg, ns, peer, full);
  }

  lemma SliceNumbered(full: seq<Entry>, prev: nat, end: nat)
    requires Numbered(full) && prev <= end <= |full|
    ensures Contiguous(prev, full[prev..end])
    ensures prev < end ==> full[prev..end][end - prev - 1].index == end
  {
  }

  /** A request cut from the leader's log and carrying its commit index is true. */
  lemma RequestOk(ids: set<NodeId>, p: Proto, n: NodeId, ns: NodeState, req: AppendRequest)
    requires Runs(ids, p, n, ns) && ns.role == Leader
    requires req.term == ns.term && req.leader == n && req.leaderCommit == ns.commitIndex
    requires var full := p.replicas[n].log; var end := req.prevIndex + |req.entries|;
             && end <= |full| && req.prevTerm == TermOf(full, req.prevIndex)
             && req.entries == full[req.prevIndex..end]
    ensures AppendOk(ids, p, req)
  {
    hide Inv, NodeOk;
    LeaderFacts(ids, p, n);
    CommitInRange(ids, p, n);
  }

  lemma SendAppendOk(ids: set<NodeId>, cfg: Config, p: Proto, n: NodeId, ns: NodeState, peer: NodeId)
    requires Runs(ids, p, n, ns) && GoodTable(ns) && cfg.id == n
    requires Replicate(cfg, ns, peer).reply.SendAppend?
    ensures var req := Replicate(cfg, ns, peer).reply.append;
            req.leader == n && AppendOk(ids, p, req) && Contiguous(req.prevIndex, req.entries)
  {
    hide Inv, Replicate, AppendOk;
    LogFacts(ids, p, n);
    SendAppendShape(cfg, ns, peer, p.replicas[n].log);
    RequestOk(ids, p, n, ns, Replicate(cfg, ns, peer).reply.append);
  }

  lemma SendInstallOk(ids: set<NodeId>, cfg: Config, p: Proto, n: NodeId, ns: NodeState, peer: NodeId)
    requires Runs(ids, p, n, ns) && GoodTable(ns) && cfg.id == n
    requires Replicate(cfg, ns, peer).reply.SendInstall?
    ensures var req := Replicate(cfg, ns, peer).reply.install;
            req.leader == n && InstallOk(ids, p, req) && req.lastIndex <= ns.disk.lastApplied
  {
    hide Inv;
    var full := p.replicas[n].log;
    LeaderFacts(ids, p, n);
    CommitInRange(ids, p, n);
    CommittedLess(ids, p.h, full, ns.commitIndex, ns.disk.log.snapIndex, ns.term);
  }

  // ----- client writes -----

  lemma WriteRuns(ids: set<NodeId>, p: Proto, n: NodeId, ns: NodeState, e: Entry)
    requires Runs(ids, p, n, ns) && ns.role == Leader
    requires e.index == ns.disk.log.LastIndex() + 1 && e.term == ns.term && e.command.SetCommand?
    ensures ns.term in p.h.reigns
    ensures var d := ns.disk.(log := ns.disk.log.Upsert([e]));
            var q := Extend(p, n, e);
            && Runs(ids, q, n, ns.(disk := d, matchIndex := ns.matchIndex[n := e.index]))
            && Grows(p.h, q.h)
            && Represents(d.log, q.replicas[n].log)
            && d.log.snapIndex == ns.disk.log.snapIndex
  {
    hide Inv;
    var full := p.replicas[n].log;
    LastAgrees(ns.disk.log, full);
    ExtendKeeps(ids, p, n, e);
    AppendRepresents(ns.disk.log, full, [e]);
    assert (full + [e])[..ns.lastApplied] == full[..ns.lastApplied];
    assert (full + [e])[..ns.disk.log.snapIndex] == full[..ns.disk.log.snapIndex];
  }
}
