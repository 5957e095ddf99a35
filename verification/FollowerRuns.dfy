/** The follower's two handlers: appending entries and installing a snapshot. */
module FollowerRuns {
  import opened RaftTypes
  import opened Logs
  import opened LogTables
  import opened Compaction
  import opened Disks
  import opened NodeSpec
  import opened Protocol
  import opened ProtocolActions
  import opened Clusters
  import opened NodeRuns
  import opened HandlerRuns

  /** What a handler that writes no history leaves behind. */
  ghost predicate Handled(ids: set<NodeId>, p: Proto, q: Proto, n: NodeId, ns: NodeState, m: NodeState,
                          writes: seq<Disk>)
    requires n in p.replicas
  {
    && Runs(ids, q, n, m)
    && q == With(p, n, q.replicas[n], p.h)
    && ns.commitIndex <= m.commitIndex
    && m.disk == DiskAfter(ns.disk, writes, |writes|)
    && FullAfter(p.h.reigns, p.replicas[n].log, writes) == q.replicas[n].log
    && AllSafe(ids, p, n, ns.disk, p.replicas[n].log, writes, p.h)
  }

  /** Everything committed is applied. */
  predicate Settled(ns: NodeState) {
    ns.lastApplied == ns.commitIndex
  }

  lemma HandledThen(ids: set<NodeId>, p: Proto, q: Proto, r: Proto, n: NodeId,
                    ns: NodeState, m: NodeState, o: NodeState, a: seq<Disk>, b: seq<Disk>)
    requires n in p.replicas && Handled(ids, p, q, n, ns, m, a) && Handled(ids, q, r, n, m, o, b)
    ensures Handled(ids, p, r, n, ns, o, a + b)
  {
    hide Inv, Safe, AllSafe, FullAfter, Uncompact, NodeOk;
    var full := p.replicas[n].log;
    SafeFromStart(ids, p, q, n, m.disk, q.replicas[n].log, b, p.h);
    SafeConcat(ids, p, n, ns.disk, full, a, b, p.h);
    FullAfterConcat(p.h.reigns, full, a, b);
  }

  lemma NothingHandled(ids: set<NodeId>, p: Proto, n: NodeId, ns: NodeState)
    requires Runs(ids, p, n, ns)
    ensures Handled(ids, p, p, n, ns, ns, [])
  {
    hide Inv, Safe, AllSafe, NodeOk;
    NoWritesSafe(ids, p, n, ns);
    assert With(p, n, p.replicas[n], p.h) == p;
  }

  /** A change of volatile fields only. */
  lemma QuietHandled(ids: set<NodeId>, p: Proto, q: Proto, n: NodeId, ns: NodeState, m: NodeState)
    requires Runs(ids, p, n, ns) && Runs(ids, q, n, m) && q == With(p, n, q.replicas[n], p.h)
    requires m.disk == ns.disk && q.replicas[n].log == p.replicas[n].log && ns.commitIndex <= m.commitIndex
    ensures Handled(ids, p, q, n, ns, m, [])
  {
    hide Inv, Safe, AllSafe, NodeOk;
    NoWritesSafe(ids, p, n, ns);
  }

  lemma StepDownHandled(ids: set<NodeId>, p: Proto, n: NodeId, ns: NodeState, t: nat, always: bool)
    requires Runs(ids, p, n, ns) && t >= ns.term
    ensures var out := StepDownIf(ns, t, always);
            Handled(ids, p, Followed(p, n, t, always), n, ns, out.state, out.writes)
  {
    hide Inv, Safe, AllSafe, FullAfter, Uncompact, NodeOk;
    StepDownIfRuns(ids, p, n, ns, t, always);
  }

  lemma ApplyHandled(ids: set<NodeId>, cfg: Config, p: Proto, n: NodeId, ns: NodeState)
    requires Runs(ids, p, n, ns) && ns.lastApplied <= ns.commitIndex && GoodTable(ns)
    ensures var a := ApplyCommitted(cfg, ns);
            Handled(ids, p, Commit(p, n, ns.commitIndex, ns.commitIndex), n, ns, a.state, a.writes) && Settled(a.state)
  {
    hide Inv, Safe, AllSafe, FullAfter, Uncompact, NodeOk;
    ApplyCommittedRuns(ids, cfg, p, n, ns);
  }

  /** Merging the carried entries into a follower of the request's term. */
  lemma MergeHandled(ids: set<NodeId>, p: Proto, n: NodeId, ns: NodeState, req: AppendRequest)
    requires Runs(ids, p, n, ns) && AppendOk(ids, p, req)
    requires ns.role == Follower && ns.term == req.term
    requires ns.disk.log.snapIndex <= req.prevIndex && ns.disk.log.TermAt(req.prevIndex) == Some(req.prevTerm)
    ensures Mergeable(ns.disk.log, req.entries)
    ensures var log := MergeFull(ns.disk.log, p.replicas[n].log, req.entries);
            && Handled(ids, p, SetLog(p, n, log), n, ns,
                       ns.(disk := ns.disk.(log := ns.disk.log.Merge(req.entries))), MergeWrites(ns.disk, req.entries))
            && Agree(log, p.h.reigns[req.term].log, req.prevIndex + |req.entries|)
            && (log == p.replicas[n].log || |log| == req.prevIndex + |req.entries|)
  {
    hide Inv, Safe, AllSafe, FullAfter, Uncompact, MergeFull, CutFull, NodeOk;
    MergeRuns(ids, p, n, ns, req);
    MergeWritesSafe(ids, p, n, ns, req);
  }

  /** Following the commit index of the request and applying what became committed. */
  lemma CommitHandled(ids: set<NodeId>, cfg: Config, p: Proto, n: NodeId, ns: NodeState, req: AppendRequest, end: nat)
    requires Runs(ids, p, n, ns) && AppendOk(ids, p, req) && ns.term == req.term && GoodTable(ns)
    requires Agree(p.replicas[n].log, p.h.reigns[req.term].log, end)
    requires req.leaderCommit > ns.commitIndex
    requires req.leaderCommit <= end || ns.disk.log.LastIndex() <= Max(ns.commitIndex, end)
    ensures var c := FollowerCommit(ns, req.leaderCommit);
            var a := ApplyCommitted(cfg, ns.(commitIndex := c));
            Handled(ids, p, Commit(p, n, c, c), n, ns, a.state, a.writes) && Settled(a.state)
  {
    hide Inv, Safe, AllSafe, FullAfter, Uncompact;
    RaiseRuns(ids, p, n, ns, req, end);
    CommitInRange(ids, p, n);
    var c := FollowerCommit(ns, req.leaderCommit);
    var q := Commit(p, n, c, ns.lastApplied);
    var m := ns.(commitIndex := c);
    QuietHandled(ids, p, q, n, ns, m);
    ApplyHandled(ids, cfg, q, n, m);
    CommitTwice(p, n, c, ns.lastApplied, c);
    var a := ApplyCommitted(cfg, m);
    HandledThen(ids, p, q, Commit(p, n, c, c), n, ns, m, a.state, [], a.writes);
    assert [] + a.writes == a.writes;
  }

  /** What AppendEntries promises: an accepted request leaves a log that agrees with the leader's up to its end. */
  ghost predicate AppendDone(p: Proto, q: Proto, n: NodeId, ns: NodeState, req: AppendRequest, resp: AppendResponse)
    requires n in q.replicas && req.term in p.h.reigns
  {
    && n in p.replicas
    && resp.success == Accepts(ns, req)
    && (q.replicas[n].log == p.replicas[n].log
        || (resp.success && |q.replicas[n].log| == req.prevIndex + |req.entries|))
    && (resp.success ==>
          && q.replicas[n].term == req.term
          && resp.matchIndex == req.prevIndex + |req.entries|
          && Agree(q.replicas[n].log, p.h.reigns[req.term].log, resp.matchIndex))
  }

  /** What the vote of a replica says about the log of the leader that it elected. */
  lemma VoteFacts(ids: set<NodeId>, p: Proto, n: NodeId)
    requires Inv(ids, p) && n in p.replicas
    requires var r := p.replicas[n]; r.term in p.h.reigns && r.vote == Some(p.h.reigns[r.term].leader)
    ensures var r := p.replicas[n]; var reign := p.h.reigns[r.term];
            || Agree(r.log, reign.log, |r.log|)
            || (reign.init <= |reign.log| && UpToDate(reign.init, TermOf(reign.log, reign.init), r.log))
  {
    assert ReplicaOk(ids, p, n);
    assert ReignLogOk(p.h.reigns, p.replicas[n].term);
    assert VoteOk(p, Ballot(p.replicas[n].term, n));
  }

  /** A leader elected with a node's vote, in the term after that of the node's last entry, has the node's log. */
  lemma VoterIsPrefix(ids: set<NodeId>, p: Proto, n: NodeId)
    requires Inv(ids, p) && n in p.replicas && p.replicas[n].log != []
    requires var r := p.replicas[n];
             && r.term in p.h.reigns && r.vote == Some(p.h.reigns[r.term].leader)
             && TermOf(r.log, |r.log|) + 1 == r.term
    ensures Agree(p.replicas[n].log, p.h.reigns[p.replicas[n].term].log, |p.replicas[n].log|)
  {
    hide Inv;
    VoteFacts(ids, p, n);
    ReignAt(ids, p, p.replicas[n].term);
    LogFacts(ids, p, n);
  }

  /** What the request's sender is said to have, it has. */
  lemma SenderHasAll(ids: set<NodeId>, p: Proto, n: NodeId, ns: NodeState, req: AppendRequest)
    requires Runs(ids, p, n, ns) && AppendOk(ids, p, req) && SenderHasLog(ns, req)
    ensures Agree(p.replicas[n].log, p.h.reigns[req.term].log, |p.replicas[n].log|)
  {
    hide Inv, DiskOk, Committed;
    var full := p.replicas[n].log;
    DiskParts(ns.disk, full);
    LastAgrees(ns.disk.log, full);
    LogFacts(ids, p, n);
    if full != [] {
      if ns.disk.log.LastTerm() == req.term {
        assert full[|full| - 1].term == req.term;
      } else {
        VoterIsPrefix(ids, p, n);
      }
    }
  }

  lemma PeerCount(ids: set<NodeId>, n: NodeId, cfg: Config)
    requires ValidConfig(ids, n, cfg)
    ensures |cfg.peers| == |ids| - 1
  {
    assert |multiset(cfg.peers)| == |ids - {n}|;
  }

  /** Of two nodes, each has voted in every election, so a leader has all that the other node stores. */
  lemma PairAgrees(ids: set<NodeId>, p: Proto, n: NodeId, t: nat)
    requires Inv(ids, p) && |ids| <= 2 && n in p.replicas && t in p.h.reigns && p.replicas[n].term <= t
    ensures Agree(p.replicas[n].log, p.h.reigns[t].log, |p.replicas[n].log|)
  {
    hide Inv;
    var log := p.replicas[n].log;
    LogFacts(ids, p, n);
    TermsBounded(ids, p, n);
    if log != [] {
      var u := log[|log| - 1].term;
      assert Agree(log, p.h.reigns[u].log, |log|);
      if u < t {
        PairHolds(ids, p, u, |log|);
        Survives(ids, p, u, |log|, {p.h.reigns[u].leader}, t);
      }
    }
  }

  /** No election in a cluster of two can do without the leader of an earlier term. */
  lemma PairHolds(ids: set<NodeId>, p: Proto, t: nat, i: nat)
    requires Inv(ids, p) && |ids| <= 2 && t in p.h.reigns
    requires 0 < i <= |p.h.reigns[t].log| && p.h.reigns[t].log[i - 1].term == t
    ensures HeldAt(ids, p.h, t, i, {p.h.reigns[t].leader})
  {
    hide Inv;
    LeaderHolds(ids, p, t);
    PairMeets(ids, p.h.reigns[t].leader);
  }

  lemma PairMeets(ids: set<NodeId>, v: NodeId)
    requires |ids| <= 2 && v in ids
    ensures MeetsQuorums(ids, {v})
  {
    forall r | IsQuorum(ids, r)
      ensures exists w :: w in {v} && w in r
    {
      WholeSet(ids, r);
      assert v in r;
    }
  }

  lemma WholeSet(ids: set<NodeId>, r: set<NodeId>)
    requires r <= ids && |r| >= |ids|
    ensures r == ids
  {
    if r != ids {
      var x :| x in ids && x !in r;
      SubsetCard(r + {x}, ids);
    }
  }

  lemma LeaderHolds(ids: set<NodeId>, p: Proto, t: nat)
    requires Inv(ids, p) && t in p.h.reigns
    ensures var r := p.h.reigns[t]; var b := Ballot(t, r.leader);
            r.leader in ids && b in p.h.acks && |r.log| <= p.h.acks[b]
  {
    assert ElectionOk(ids, p, t);
  }

  lemma Survives(ids: set<NodeId>, p: Proto, t: nat, i: nat, q: set<NodeId>, u: nat)
    requires Inv(ids, p) && HeldAt(ids, p.h, t, i, q) && u in p.h.reigns && t < u
    ensures Agree(p.h.reigns[u].log, p.h.reigns[t].log, i)
  {
    HeldSurvives(ids, p, t, i, q, u);
  }

  /** How far the merged log agrees with the leader's, as far as the commit index may reach. */
  lemma MergedAgrees(ids: set<NodeId>, p: Proto, n: NodeId, ns: NodeState, req: AppendRequest) returns (upTo: nat)
    requires Runs(ids, p, n, ns) && AppendOk(ids, p, req) && ns.role == Follower && ns.term == req.term
    requires ns.disk.log.snapIndex <= req.prevIndex && ns.disk.log.TermAt(req.prevIndex) == Some(req.prevTerm)
    requires Mergeable(ns.disk.log, req.entries) && (|ids| <= 2 || CommitGuard(ns, req))
    ensures Agree(MergeFull(ns.disk.log, p.replicas[n].log, req.entries), p.h.reigns[req.term].log, upTo)
    ensures req.leaderCommit <= Max(ns.commitIndex, upTo)
            || ns.disk.log.Merge(req.entries).LastIndex() <= Max(ns.commitIndex, upTo)
  {
    hide Inv, NodeOk, Rooted, Committed, LogTable.Merge, MergeFull, SenderHasLog;
    var full := p.replicas[n].log;
    var source := p.h.reigns[req.term].log;
    MergeSetting(ids, p, n, ns, req);
    MergeRefines(ns.disk.log, full, source, req.prevIndex, req.entries);
    upTo := req.prevIndex + |req.entries|;
    if |ids| <= 2 || SenderHasLog(ns, req) {
      if |ids| <= 2 { PairAgrees(ids, p, n, req.term); } else { SenderHasAll(ids, p, n, ns, req); }
      MergeRepresents(ns.disk.log, full, req.entries);
      var merged := MergeFull(ns.disk.log, full, req.entries);
      LastAgrees(ns.disk.log.Merge(req.entries), merged);
      upTo := |merged|;
    }
  }

  lemma FollowHandled(ids: set<NodeId>, cfg: Config, p: Proto, n: NodeId, ns: NodeState, req: AppendRequest)
    returns (q: Proto)
    requires Runs(ids, p, n, ns) && AppendOk(ids, p, req) && GoodTable(ns) && ValidConfig(ids, n, cfg)
    requires ns.role == Follower && ns.term == req.term && AppendGuard(cfg, ns, req)
    ensures var out := FollowEntries(cfg, ns, req);
            && Handled(ids, p, q, n, ns, out.state, out.writes) && AppendDone(p, q, n, ns, req, out.reply)
            && (Settled(ns) ==> Settled(out.state))
  {
    hide Inv, Safe, AllSafe, FullAfter, Uncompact, AppendOk, ApplyCommitted, MergeWrites, MergeFull, ValidConfig;
    if !Accepts(ns, req) {
      NothingHandled(ids, p, n, ns);
      q := p;
    } else {
      MergeHandled(ids, p, n, ns, req);
      MergeValid(ns.disk.log, req.entries);
      PeerCount(ids, n, cfg);
      var upTo := MergedAgrees(ids, p, n, ns, req);
      var p2 := SetLog(p, n, MergeFull(ns.disk.log, p.replicas[n].log, req.entries));
      var s2 := ns.(disk := ns.disk.(log := ns.disk.log.Merge(req.entries)));
      q := FollowCommit(ids, cfg, p, p2, n, ns, s2, req, upTo);
    }
  }

  /** After the merge: the commit index of the request is followed, if it is news. */
  lemma FollowCommit(ids: set<NodeId>, cfg: Config, p: Proto, p2: Proto, n: NodeId, ns: NodeState, s2: NodeState,
                     req: AppendRequest, upTo: nat) returns (q: Proto)
    requires Runs(ids, p, n, ns) && AppendOk(ids, p, req) && ns.term == s2.term == req.term && GoodTable(s2)
    requires Mergeable(ns.disk.log, req.entries)
    requires Handled(ids, p, p2, n, ns, s2, MergeWrites(ns.disk, req.entries))
    requires Agree(p2.replicas[n].log, p.h.reigns[req.term].log, upTo)
    requires req.leaderCommit <= Max(s2.commitIndex, upTo) || s2.disk.log.LastIndex() <= Max(s2.commitIndex, upTo)
    ensures var merges := MergeWrites(ns.disk, req.entries);
            if req.leaderCommit > s2.commitIndex then
              var a := ApplyCommitted(cfg, s2.(commitIndex := FollowerCommit(s2, req.leaderCommit)));
              Handled(ids, p, q, n, ns, a.state, merges + a.writes) && Settled(a.state)
              && q.replicas[n].log == p2.replicas[n].log && q.replicas[n].term == p2.replicas[n].term
            else q == p2
  {
    hide Inv, Safe, AllSafe, FullAfter, Uncompact, AppendOk, ApplyCommitted, MergeWrites;
    q := p2;
    if req.leaderCommit > s2.commitIndex {
      AppendOkSame(ids, p, p2, req);
      CommitHandled(ids, cfg, p2, n, s2, req, upTo);
      var c := FollowerCommit(s2, req.leaderCommit);
      var a := ApplyCommitted(cfg, s2.(commitIndex := c));
      q := Commit(p2, n, c, c);
      HandledThen(ids, p, p2, q, n, ns, s2, a.state, MergeWrites(ns.disk, req.entries), a.writes);
    }
  }

  lemma AppendOkSame(ids: set<NodeId>, p: Proto, q: Proto, req: AppendRequest)
    requires AppendOk(ids, p, req) && q.h == p.h
    ensures AppendOk(ids, q, req)
  {
  }

  lemma AppendEntriesHandled(ids: set<NodeId>, cfg: Config, p: Proto, n: NodeId, ns: NodeState, req: AppendRequest)
    returns (q: Proto)
    requires Runs(ids, p, n, ns) && AppendOk(ids, p, req) && GoodTable(ns) && AppendGuard(cfg, ns, req)
    requires ValidConfig(ids, n, cfg)
    ensures var out := AppendEntries(cfg, ns, req);
            && Handled(ids, p, q, n, ns, out.state, out.writes) && AppendDone(p, q, n, ns, req, out.reply)
            && (Settled(ns) ==> Settled(out.state))
  {
    hide Inv, Safe, AllSafe, FullAfter, Uncompact, NodeOk, AppendOk, CommitGuard, FollowEntries;
    if req.term < ns.term {
      NothingHandled(ids, p, n, ns);
      q := p;
    } else {
      var always := ns.role != Follower;
      var down := StepDownIf(ns, req.term, always);
      var p1 := Followed(p, n, req.term, always);
      var s1 := down.state;
      StepDownHandled(ids, p, n, ns, req.term, always);
      AppendOkSame(ids, p, p1, req);
      assert AppendGuard(cfg, s1, req) by { DownKeepsGuard(cfg, ns, req); }
      q := FollowHandled(ids, cfg, p1, n, s1, req);
      var rest := FollowEntries(cfg, s1, req);
      HandledThen(ids, p, p1, q, n, ns, s1, rest.state, down.writes, rest.writes);
    }
  }

  lemma DownKeepsGuard(cfg: Config, ns: NodeState, req: AppendRequest)
    requires AppendGuard(cfg, ns, req) && req.term >= ns.term
    ensures AppendGuard(cfg, StepDownIf(ns, req.term, ns.role != Follower).state, req)
    ensures Accepts(StepDownIf(ns, req.term, ns.role != Follower).state, req) == Accepts(ns, req)
  {
  }

  // ----- installing a snapshot -----

  /** The log that a guarded snapshot leaves: the leader's prefix, unless the local log already has it. */
  function InstallFull(full: seq<Entry>, source: seq<Entry>, k: nat): seq<Entry>
    requires k <= |source|
  {
    if |full| <= k then source[..k] else full
  }

  /** The local log has the snapshot's prefix, or does not reach beyond it. */
  predicate Covers(full: seq<Entry>, source: seq<Entry>, k: nat) {
    |full| <= k || Agree(full, source, k)
  }

  lemma InstallFollows(reigns: map<nat, Reign>, full: seq<Entry>, source: seq<Entry>, k: nat, t: nat)
    requires Rooted(reigns, full) && Rooted(reigns, source) && k <= |source| && Covers(full, source, k)
    requires forall i :: 0 <= i < |full| ==> full[i].term <= t
    requires forall i :: 0 <= i < |source| ==> source[i].term <= t
    ensures var log := InstallFull(full, source, k);
            && Rooted(reigns, log) && (forall i :: 0 <= i < |log| ==> log[i].term <= t)
            && KeepsAgreement(full, log, source) && Agree(log, source, k) && (log == full || |log| == k)
  {
    RootedPrefix(reigns, source, k);
  }

  lemma ValuesOfImage(values: map<string, string>, k: nat)
    ensures Values(map key | key in values :: KvRow(values[key], k)) == values
  {
  }

  /** The disk after a guarded snapshot stands for the log that the snapshot leaves. */
  lemma InstallDisk(d: Disk, full: seq<Entry>, source: seq<Entry>, k: nat)
    requires Represents(d.log, full) && d.log.snapIndex < k <= |source| && Covers(full, source, k)
    ensures var d' := InstallSnapshot(d, Snapshot(k, TermOf(source, k), Image(Replay(source[..k]))));
            d'.Some? && DiskOk(d'.value, InstallFull(full, source, k))
            && d'.value.term == d.term && d'.value.vote == d.vote && d'.value.lastApplied == k
            && d'.value.log.snapIndex == k && d'.value.log.snapTerm == TermOf(source, k)
            && d'.value.log.rows == if |full| <= k then [] else full[k..]
  {
    var log := InstallFull(full, source, k);
    ValuesOfImage(Replay(source[..k]), k);
    RowsOfImage(source[..k]);
    assert log[..k] == source[..k];
  }

  lemma InstallUncompact(reigns: map<nat, Reign>, d: Disk, full: seq<Entry>, source: seq<Entry>, k: nat)
    requires Rooted(reigns, full) && Rooted(reigns, source) && k <= |source| && Covers(full, source, k)
    requires d.term in reigns && reigns[d.term].log == source
    requires d.log.snapIndex == k && d.log.snapTerm == TermOf(source, k)
    requires d.log.rows == if |full| <= k then [] else full[k..]
    ensures Uncompact(reigns, full, d) == InstallFull(full, source, k)
  {
    if k <= |full| && TermOf(full, k) == TermOf(source, k) {
      RootedMatch(reigns, full, source, k);
      assert full[..k] == source[..k];
      assert full[..k] + full[k..] == full;
    }
  }

  /** The guard, read on the complete logs. */
  lemma InstallCovers(ids: set<NodeId>, p: Proto, n: NodeId, ns: NodeState, req: InstallRequest)
    requires Runs(ids, p, n, ns) && InstallOk(ids, p, req) && ns.term == req.term
    requires req.lastIndex > ns.disk.log.snapIndex && InstallGuard(ns, req)
    ensures Covers(p.replicas[n].log, p.h.reigns[req.term].log, req.lastIndex)
    ensures Rooted(p.h.reigns, p.replicas[n].log) && Rooted(p.h.reigns, p.h.reigns[req.term].log)
  {
    hide Inv;
    var full := p.replicas[n].log;
    var source := p.h.reigns[req.term].log;
    ReignFacts(ids, p, req.term);
    LogFacts(ids, p, n);
    LastAgrees(ns.disk.log, full);
    if |full| > req.lastIndex {
      TermAtAgrees(ns.disk.log, full, req.lastIndex);
      RootedMatch(p.h.reigns, full, source, req.lastIndex);
    }
  }

  lemma InstallLog(ids: set<NodeId>, p: Proto, n: NodeId, ns: NodeState, req: InstallRequest)
    requires Runs(ids, p, n, ns) && InstallOk(ids, p, req) && ns.term == req.term && ns.role == Follower
    requires Covers(p.replicas[n].log, p.h.reigns[req.term].log, req.lastIndex) && req.lastIndex >= ns.lastApplied
    ensures var log := InstallFull(p.replicas[n].log, p.h.reigns[req.term].log, req.lastIndex);
            var c := Max(ns.commitIndex, req.lastIndex);
            && Inv(ids, Commit(SetLog(p, n, log), n, c, req.lastIndex))
            && Agree(log, p.h.reigns[req.term].log, req.lastIndex)
  {
    hide Inv;
    var k := req.lastIndex;
    var full := p.replicas[n].log;
    var source := p.h.reigns[req.term].log;
    var log := InstallFull(full, source, k);
    ReignFacts(ids, p, req.term);
    LogFacts(ids, p, n);
    TermsBounded(ids, p, n);
    InstallFollows(p.h.reigns, full, source, k, req.term);
    SetLogKeeps(ids, p, n, log);
    var q := SetLog(p, n, log);
    CommitInRange(ids, q, n);
    GrowsRefl(p.h);
    CommittedGrow(ids, p.h, p.h, source, log, k, req.term, req.term);
    CommitKeeps(ids, q, n, Max(ns.commitIndex, k), k);
  }

  lemma InstallRuns(ids: set<NodeId>, p: Proto, n: NodeId, ns: NodeState, req: InstallRequest) returns (q: Proto)
    requires Runs(ids, p, n, ns) && InstallOk(ids, p, req) && ns.term == req.term && ns.role == Follower
    requires req.lastIndex > ns.disk.log.snapIndex && InstallGuard(ns, req)
    ensures var out := FollowSnapshot(ns, req);
            && Handled(ids, p, q, n, ns, out.state, out.writes)
            && (Settled(ns) ==> Settled(out.state))
            && out.reply == Some(InstallResponse(req.term))
            && q.replicas[n].term == req.term && Agree(q.replicas[n].log, p.h.reigns[req.term].log, req.lastIndex)
            && (q.replicas[n].log == p.replicas[n].log || |q.replicas[n].log| == req.lastIndex)
  {
    hide Inv, Safe, AllSafe, FullAfter, Uncompact, Represents, DiskOk;
    var out := FollowSnapshot(ns, req);
    var k := req.lastIndex;
    var full := p.replicas[n].log;
    var source := p.h.reigns[req.term].log;
    InstallCovers(ids, p, n, ns, req);
    InstallLog(ids, p, n, ns, req);
    assert Represents(ns.disk.log, full) by { DiskParts(ns.disk, full); }
    InstallDisk(ns.disk, full, source, k);
    InstallUncompact(p.h.reigns, out.state.disk, full, source, k);
    q := Commit(SetLog(p, n, InstallFull(full, source, k)), n, Max(ns.commitIndex, k), k);
    OneWriteSafe(ids, p, q, n, ns, out.state);
  }

  lemma DiskParts(d: Disk, full: seq<Entry>)
    requires DiskOk(d, full)
    ensures Represents(d.log, full) && d.log.snapIndex <= d.lastApplied <= |full|
  {
  }

  /** A snapshot that is ignored is covered by what the node has applied, and so by the leader's log. */
  lemma IgnoredAgrees(ids: set<NodeId>, p: Proto, n: NodeId, ns: NodeState, k: nat)
    requires Runs(ids, p, n, ns) && ns.term in p.h.reigns && k <= ns.disk.log.snapIndex
    ensures Agree(p.replicas[n].log, p.h.reigns[ns.term].log, k)
  {
    hide Inv;
    CommitInRange(ids, p, n);
    Complete(ids, p);
    CommittedInReign(ids, p.h, p.replicas[n].log, ns.commitIndex, ns.term);
  }

  lemma Complete(ids: set<NodeId>, p: Proto)
    requires Inv(ids, p)
    ensures LeadersComplete(ids, p.h)
  {
    LeadersAreComplete(ids, p);
  }

  lemma InstallSnapshotHandled(ids: set<NodeId>, p: Proto, n: NodeId, ns: NodeState, req: InstallRequest)
    returns (q: Proto)
    requires Runs(ids, p, n, ns) && InstallOk(ids, p, req) && InstallGuard(ns, req)
    ensures var out := InstallSnapshotCall(ns, req);
            && Handled(ids, p, q, n, ns, out.state, out.writes)
            && (Settled(ns) ==> Settled(out.state))
            && out.reply.Some? && out.reply.value.term == Max(ns.term, req.term)
            && (req.term >= ns.term ==>
                  q.replicas[n].term == req.term && Agree(q.replicas[n].log, p.h.reigns[req.term].log, req.lastIndex))
            && (q.replicas[n].log == p.replicas[n].log
                || (req.term >= ns.term && |q.replicas[n].log| == req.lastIndex))
  {
    hide Inv, Safe, AllSafe, FullAfter, Uncompact, NodeOk, InstallOk, FollowSnapshot;
    if req.term < ns.term {
      NothingHandled(ids, p, n, ns);
      q := p;
    } else {
      var always := ns.role != Follower;
      var down := StepDownIf(ns, req.term, always);
      var p1 := Followed(p, n, req.term, always);
      var s1 := down.state;
      StepDownHandled(ids, p, n, ns, req.term, always);
      InstallOkSame(ids, p, p1, req);
      q := FollowSnapshotHandled(ids, p1, n, s1, req);
      var rest := FollowSnapshot(s1, req);
      HandledThen(ids, p, p1, q, n, ns, s1, rest.state, down.writes, rest.writes);
    }
  }

  lemma FollowSnapshotHandled(ids: set<NodeId>, p: Proto, n: NodeId, ns: NodeState, req: InstallRequest)
    returns (q: Proto)
    requires Runs(ids, p, n, ns) && InstallOk(ids, p, req) && InstallGuard(ns, req)
    requires ns.term == req.term && ns.role == Follower
    ensures var out := FollowSnapshot(ns, req);
            && Handled(ids, p, q, n, ns, out.state, out.writes)
            && (Settled(ns) ==> Settled(out.state))
            && out.reply == Some(InstallResponse(req.term))
            && q.replicas[n].term == req.term && Agree(q.replicas[n].log, p.h.reigns[req.term].log, req.lastIndex)
            && (q.replicas[n].log == p.replicas[n].log || |q.replicas[n].log| == req.lastIndex)
  {
    hide Inv, Safe, AllSafe, FullAfter, Uncompact, NodeOk, InstallOk, InstallSnapshot;
    if req.lastIndex <= ns.disk.log.snapIndex {
      InstallOkSame(ids, p, p, req);
      IgnoredAgrees(ids, p, n, ns, req.lastIndex);
      NothingHandled(ids, p, n, ns);
      q := p;
    } else {
      q := InstallRuns(ids, p, n, ns, req);
    }
  }

  lemma InstallOkSame(ids: set<NodeId>, p: Proto, q: Proto, req: InstallRequest)
    requires InstallOk(ids, p, req) && q.h == p.h
    ensures InstallOk(ids, q, req) && req.term in q.h.reigns
  {
  }
}
