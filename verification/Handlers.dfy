/** Each locked region of a node, as a whole, is a sequence of moves of the protocol that is safe against crashes. */
module HandlerRuns {
  import opened RaftTypes
  import opened Logs
  import opened LogTables
  import opened Compaction
  import opened Disks
  import opened NodeSpec
  import opened Protocol
  import opened ProtocolActions
  import opened ProtocolElections
  import opened Clusters
  import opened NodeRuns

  /** The node lands in a good state: this memory and disk stand for this log under this history. */
  ghost predicate Lands(ids: set<NodeId>, p: Proto, n: NodeId, m: NodeState, full: seq<Entry>, h: History)
    requires n in p.replicas
  {
    Inv(ids, With(p, n, AbsNode(m, full), h)) && NodeOk(m, full)
  }

  lemma RunsLands(ids: set<NodeId>, p: Proto, q: Proto, n: NodeId, m: NodeState)
    requires n in p.replicas && Runs(ids, q, n, m) && q == With(p, n, q.replicas[n], q.h)
    ensures Lands(ids, p, n, m, q.replicas[n].log, q.h)
    ensures With(p, n, AbsNode(m, q.replicas[n].log), q.h) == q
  {
    hide Inv;
  }

  // ----- campaigning -----

  lemma StartElectionRuns(ids: set<NodeId>, cfg: Config, p: Proto, n: NodeId, ns: NodeState)
    requires Runs(ids, p, n, ns) && ns.role != Leader && cfg.id == n
    ensures var out := StartElection(cfg, ns); var q := Campaign(p, n);
            && Runs(ids, q, n, out.state) && Grows(p.h, q.h)
            && out.reply.Some?
            && ClaimOk(q, n, out.reply.value.term, out.reply.value.lastIndex, out.reply.value.lastTerm)
  {
    hide Inv;
    CampaignKeeps(ids, p, n);
    LastAgrees(ns.disk.log, p.replicas[n].log);
  }

  // ----- voting -----

  /** The protocol state after the first part of every handler: follow the term of the request. */
  function Followed(p: Proto, n: NodeId, t: nat, always: bool): Proto
    requires n in p.replicas
  {
    if t > p.replicas[n].term || always then Adopt(p, n, t) else p
  }

  function StepDownIf(ns: NodeState, t: nat, always: bool): Out<()> {
    if t > ns.term || always then StepDown(ns, t) else Out(ns, (), [])
  }

  lemma StepDownIfRuns(ids: set<NodeId>, p: Proto, n: NodeId, ns: NodeState, t: nat, always: bool)
    requires Runs(ids, p, n, ns) && t >= ns.term
    ensures var out := StepDownIf(ns, t, always); var q := Followed(p, n, t, always);
            && Runs(ids, q, n, out.state)
            && q == With(p, n, q.replicas[n], p.h) && q.replicas[n].log == p.replicas[n].log
            && out.state.term == t
            && out.state.disk == DiskAfter(ns.disk, out.writes, |out.writes|)
            && FullAfter(p.h.reigns, p.replicas[n].log, out.writes) == p.replicas[n].log
            && AllSafe(ids, p, n, ns.disk, p.replicas[n].log, out.writes, p.h)
  {
    hide Inv, Safe, AllSafe, FullAfter, Uncompact;
    if t > ns.term || always {
      StepDownRuns(ids, p, n, ns, t);
    } else {
      NoWritesSafe(ids, p, n, ns);
    }
  }

  lemma UpToDateAgrees(req: VoteRequest, t: LogTable, log: seq<Entry>)
    requires Represents(t, log)
    ensures LogUpToDate(req, t) == UpToDate(req.lastIndex, req.lastTerm, log)
  {
    LastAgrees(t, log);
  }

  /** The protocol state after a vote request. */
  function Voted(p: Proto, n: NodeId, ns: NodeState, req: VoteRequest): Proto
    requires n in p.replicas
  {
    if req.term < ns.term then p
    else
      var q := Followed(p, n, req.term, false);
      if RequestVote(ns, req).reply.granted then Grant(q, n, req) else q
  }

  lemma GrantRuns(ids: set<NodeId>, p: Proto, n: NodeId, ns: NodeState, req: VoteRequest)
    requires Runs(ids, p, n, ns) && ns.term == req.term && (ns.votedFor == None || ns.votedFor == Some(req.candidate))
    requires LogUpToDate(req, ns.disk.log) && ClaimOk(p, req.candidate, req.term, req.lastIndex, req.lastTerm)
    ensures var q := Grant(p, n, req);
            && Runs(ids, q, n, ns.(votedFor := Some(req.candidate),
                                   disk := SaveTermVote(ns.disk, ns.term, Some(req.candidate))))
            && q == With(p, n, q.replicas[n], q.h) && q.replicas[n].log == p.replicas[n].log
            && Grows(p.h, q.h)
            && Ballot(req.term, n) in q.h.votes && q.h.votes[Ballot(req.term, n)].candidate == req.candidate
  {
    hide Inv, Grows;
    UpToDateAgrees(req, ns.disk.log, p.replicas[n].log);
    GrantKeeps(ids, p, n, req);
    assert With(p, n, p.replicas[n], p.h) == p;
  }

  lemma RequestVoteRuns(ids: set<NodeId>, p: Proto, n: NodeId, ns: NodeState, req: VoteRequest)
    requires Runs(ids, p, n, ns) && ClaimOk(p, req.candidate, req.term, req.lastIndex, req.lastTerm)
    requires req.candidate != n
    ensures var out := RequestVote(ns, req); var q := Voted(p, n, ns, req);
            && Runs(ids, q, n, out.state)
            && out.state.commitIndex == ns.commitIndex && out.state.lastApplied == ns.lastApplied
            && q == With(p, n, q.replicas[n], q.h) && q.replicas[n].log == p.replicas[n].log
            && Grows(p.h, q.h)
            && (out.reply.granted ==>
                  Ballot(req.term, n) in q.h.votes && q.h.votes[Ballot(req.term, n)].candidate == req.candidate)
  {
    hide Inv, Grows, ClaimOk, LogUpToDate, Adopt, Grant, AllSafe, Safe, NodeOk, AbsNode;
    GrowsRefl(p.h);
    assert With(p, n, p.replicas[n], p.h) == p;
    if req.term >= ns.term {
      StepDownIfRuns(ids, p, n, ns, req.term, false);
      if RequestVote(ns, req).reply.granted {
        ClaimFollowed(p, n, req);
        GrantRuns(ids, Followed(p, n, req.term, false), n, StepDownIf(ns, req.term, false).state, req);
      }
    }
  }

  lemma ClaimFollowed(p: Proto, n: NodeId, req: VoteRequest)
    requires n in p.replicas && ClaimOk(p, req.candidate, req.term, req.lastIndex, req.lastTerm) && req.candidate != n
    ensures ClaimOk(Followed(p, n, req.term, false), req.candidate, req.term, req.lastIndex, req.lastTerm)
  {
  }

  /** The transactions of a vote: only the last one, if any, casts it. */
  lemma RequestVoteSafe(ids: set<NodeId>, p: Proto, n: NodeId, ns: NodeState, req: VoteRequest)
    requires Runs(ids, p, n, ns) && ClaimOk(p, req.candidate, req.term, req.lastIndex, req.lastTerm)
    requires req.candidate != n
    ensures var out := RequestVote(ns, req); var q := Voted(p, n, ns, req); var full := p.replicas[n].log;
            && FullAfter(p.h.reigns, full, out.writes) == full
            && (forall i: nat :: i < |out.writes| ==>
                  Safe(ids, p, n, DiskAfter(ns.disk, out.writes, i), FullAfter(p.h.reigns, full, out.writes[..i]), p.h))
            && Safe(ids, p, n, DiskAfter(ns.disk, out.writes, |out.writes|), full, q.h)
  {
    hide Inv, Safe, Uncompact;
    var out := RequestVote(ns, req);
    var q := Voted(p, n, ns, req);
    var full := p.replicas[n].log;
    RequestVoteRuns(ids, p, n, ns, req);
    RunsSafe(ids, p, q, n, out.state);
    FullAfterSame(p.h.reigns, full, out.writes);
    if req.term >= ns.term {
      StepDownIfRuns(ids, p, n, ns, req.term, false);
      var down := StepDownIf(ns, req.term, false);
      forall i: nat | i < |out.writes|
        ensures Safe(ids, p, n, DiskAfter(ns.disk, out.writes, i), FullAfter(p.h.reigns, full, out.writes[..i]), p.h)
      {
        assert i <= |down.writes| && out.writes[..i] == down.writes[..i];
        assert Safe(ids, p, n, DiskAfter(ns.disk, down.writes, i), FullAfter(p.h.reigns, full, down.writes[..i]), p.h);
      }
    }
  }

  // ----- following the leader -----

  /** What a request says of the leader's log, together with what the node checked before accepting it. */
  lemma AcceptedAgrees(ids: set<NodeId>, p: Proto, n: NodeId, ns: NodeState, req: AppendRequest)
    requires Runs(ids, p, n, ns) && AppendOk(ids, p, req)
    requires ns.disk.log.snapIndex <= req.prevIndex && ns.disk.log.TermAt(req.prevIndex) == Some(req.prevTerm)
    ensures var full := p.replicas[n].log; var source := p.h.reigns[req.term].log;
            && Numbered(full) && Numbered(source) && Matching(full, source)
            && Rooted(p.h.reigns, full) && Rooted(p.h.reigns, source)
            && CutFrom(source, req.prevIndex, req.entries)
            && Agree(full, source, req.prevIndex)
            && (forall i :: 0 <= i < |source| ==> source[i].term <= req.term)
  {
    hide Inv;
    var full := p.replicas[n].log;
    var source := p.h.reigns[req.term].log;
    ReignFacts(ids, p, req.term);
    LogFacts(ids, p, n);
    TermAtAgrees(ns.disk.log, full, req.prevIndex);
    forall k: nat | k <= |full| && k <= |source| && TermOf(full, k) == TermOf(source, k)
      ensures Agree(full, source, k)
    {
      RootedMatch(p.h.reigns, full, source, k);
    }
  }

  lemma ReignsOk(ids: set<NodeId>, p: Proto)
    requires Inv(ids, p)
    ensures ReignLogsOk(p.h.reigns)
  {
  }

  lemma ReignAt(ids: set<NodeId>, p: Proto, t: nat)
    requires Inv(ids, p) && t in p.h.reigns
    ensures ReignLogOk(p.h.reigns, t)
  {
  }

  lemma ReignFacts(ids: set<NodeId>, p: Proto, t: nat)
    requires Inv(ids, p) && t in p.h.reigns
    ensures var source := p.h.reigns[t].log;
            && Numbered(source) && Decodable(source) && Rooted(p.h.reigns, source)
            && (forall i :: 0 <= i < |source| ==> source[i].term <= t)
  {
    assert ReignLogOk(p.h.reigns, t);
  }

  /** A replica that follows its leader moves to a log that keeps what the two agree on. */
  lemma FollowRuns(ids: set<NodeId>, p: Proto, n: NodeId, ns: NodeState, table: LogTable, log: seq<Entry>)
    requires Runs(ids, p, n, ns) && ns.role == Follower && ns.term in p.h.reigns
    requires Represents(table, log) && table.snapIndex == ns.disk.log.snapIndex
             && table.snapTerm == ns.disk.log.snapTerm
    requires Rooted(p.h.reigns, log) && (forall i :: 0 <= i < |log| ==> log[i].term <= ns.term)
    requires log == p.replicas[n].log || Agree(log, p.h.reigns[ns.term].log, |log|)
    requires KeepsAgreement(p.replicas[n].log, log, p.h.reigns[ns.term].log)
    ensures Runs(ids, SetLog(p, n, log), n, ns.(disk := ns.disk.(log := table)))
  {
    hide Inv, SnapshotOk;
    SetLogKeeps(ids, p, n, log);
    CommitStays(ids, p, n, log);
    CommitInRange(ids, p, n);
    var full := p.replicas[n].log;
    assert full[..ns.lastApplied] == log[..ns.lastApplied];
    SnapshotStays(ns.disk, full, table, log);
  }

  lemma SnapshotStays(d: Disk, full: seq<Entry>, table: LogTable, log: seq<Entry>)
    requires d.log.snapIndex <= |full| && SnapshotOk(d, full) && Agree(full, log, d.log.snapIndex)
    requires table.snapIndex == d.log.snapIndex && table.snapTerm == d.log.snapTerm
    ensures SnapshotOk(d.(log := table), log)
  {
    assert full[..table.snapIndex] == log[..table.snapIndex];
  }

  lemma CommitStays(ids: set<NodeId>, p: Proto, n: NodeId, log: seq<Entry>)
    requires Inv(ids, p) && n in p.replicas && Follows(p, n, log)
    requires KeepsAgreement(p.replicas[n].log, log, p.h.reigns[p.replicas[n].term].log)
    ensures Agree(p.replicas[n].log, log, p.replicas[n].commit)
  {
    LeadersAreComplete(ids, p);
    SetLogCommit(ids, p, n, log);
  }

  lemma TermsBounded(ids: set<NodeId>, p: Proto, n: NodeId)
    requires Inv(ids, p) && n in p.replicas
    ensures var r := p.replicas[n]; forall i :: 0 <= i < |r.log| ==> r.log[i].term <= r.term
  {
    assert ReplicaOk(ids, p, n);
  }

  lemma RootedPrefix(reigns: map<nat, Reign>, log: seq<Entry>, k: nat)
    requires Rooted(reigns, log) && k <= |log|
    ensures Rooted(reigns, log[..k])
  {
    forall i | 0 <= i < k
      ensures Agree(log[..k], reigns[log[..k][i].term].log, i + 1)
    {
      assert Agree(log, reigns[log[i].term].log, i + 1);
    }
  }

  /** The setting of an accepted request: the two logs match, and the entries were cut from the leader's. */
  ghost predicate Accepting(reigns: map<nat, Reign>, t: LogTable, full: seq<Entry>, source: seq<Entry>,
                            req: AppendRequest) {
    && Represents(t, full) && Numbered(full) && Numbered(source) && Matching(full, source)
    && Rooted(reigns, full) && Rooted(reigns, source)
    && CutFrom(source, req.prevIndex, req.entries)
    && t.snapIndex <= req.prevIndex && Agree(full, source, req.prevIndex)
    && (forall i :: 0 <= i < |full| ==> full[i].term <= req.term)
    && (forall i :: 0 <= i < |source| ==> source[i].term <= req.term)
  }

  lemma CutFollows(reigns: map<nat, Reign>, t: LogTable, full: seq<Entry>, source: seq<Entry>, req: AppendRequest)
    requires Accepting(reigns, t, full, source, req)
    ensures Mergeable(t, req.entries)
    ensures var log := CutFull(t, full, req.entries);
            && Rooted(reigns, log) && (forall i :: 0 <= i < |log| ==> log[i].term <= req.term)
            && KeepsAgreement(full, log, source) && (log == full || Agree(log, source, |log|))
  {
    MergeRefines(t, full, source, req.prevIndex, req.entries);
    RootedPrefix(reigns, full, |CutFull(t, full, req.entries)|);
  }

  lemma MergedFollows(reigns: map<nat, Reign>, t: LogTable, full: seq<Entry>, source: seq<Entry>, req: AppendRequest)
    requires Accepting(reigns, t, full, source, req)
    ensures Mergeable(t, req.entries)
    ensures var log := MergeFull(t, full, req.entries);
            && Rooted(reigns, log) && (forall i :: 0 <= i < |log| ==> log[i].term <= req.term)
            && KeepsAgreement(full, log, source) && (log == full || Agree(log, source, |log|))
            && (log == full || |log| == req.prevIndex + |req.entries|)
  {
    MergeRefines(t, full, source, req.prevIndex, req.entries);
    RootedPrefix(reigns, source, req.prevIndex + |req.entries|);
  }

  /** The disks of a merge: the conflicting suffix gone, then the carried entries in its place. */
  lemma MergeRuns(ids: set<NodeId>, p: Proto, n: NodeId, ns: NodeState, req: AppendRequest)
    requires Runs(ids, p, n, ns) && AppendOk(ids, p, req)
    requires ns.role == Follower && ns.term == req.term
    requires ns.disk.log.snapIndex <= req.prevIndex && ns.disk.log.TermAt(req.prevIndex) == Some(req.prevTerm)
    ensures Mergeable(ns.disk.log, req.entries)
    ensures var full := p.replicas[n].log;
            var cut := CutFull(ns.disk.log, full, req.entries);
            var log := MergeFull(ns.disk.log, full, req.entries);
            && Runs(ids, SetLog(p, n, cut), n, ns.(disk := ns.disk.(log := ns.disk.log.CutFor(req.entries))))
            && Runs(ids, SetLog(p, n, log), n, ns.(disk := ns.disk.(log := ns.disk.log.Merge(req.entries))))
            && Agree(log, p.h.reigns[req.term].log, req.prevIndex + |req.entries|)
            && (log == full || |log| == req.prevIndex + |req.entries|)
  {
    hide Inv, Rooted, Committed, Accepting, KeepsAgreement;
    var source := p.h.reigns[req.term].log;
    MergeSetting(ids, p, n, ns, req);
    var full := p.replicas[n].log;
    CutFollows(p.h.reigns, ns.disk.log, full, source, req);
    MergedFollows(p.h.reigns, ns.disk.log, full, source, req);
    MergeTables(p.h.reigns, ns.disk.log, full, source, req);
    FollowRuns(ids, p, n, ns, ns.disk.log.CutFor(req.entries), CutFull(ns.disk.log, full, req.entries));
    FollowRuns(ids, p, n, ns, ns.disk.log.Merge(req.entries), MergeFull(ns.disk.log, full, req.entries));
  }

  lemma MergeSetting(ids: set<NodeId>, p: Proto, n: NodeId, ns: NodeState, req: AppendRequest)
    requires Runs(ids, p, n, ns) && AppendOk(ids, p, req) && ns.term == req.term
    requires ns.disk.log.snapIndex <= req.prevIndex && ns.disk.log.TermAt(req.prevIndex) == Some(req.prevTerm)
    ensures Accepting(p.h.reigns, ns.disk.log, p.replicas[n].log, p.h.reigns[req.term].log, req)
  {
    hide Inv;
    AcceptedAgrees(ids, p, n, ns, req);
    TermsBounded(ids, p, n);
  }

  lemma MergeTables(reigns: map<nat, Reign>, t: LogTable, full: seq<Entry>, source: seq<Entry>, req: AppendRequest)
    requires Accepting(reigns, t, full, source, req)
    ensures Mergeable(t, req.entries)
    ensures var es := req.entries;
            && Represents(t.CutFor(es), CutFull(t, full, es)) && Represents(t.Merge(es), MergeFull(t, full, es))
            && t.CutFor(es).snapIndex == t.snapIndex && t.CutFor(es).snapTerm == t.snapTerm
            && t.Merge(es).snapIndex == t.snapIndex && t.Merge(es).snapTerm == t.snapTerm
            && Agree(MergeFull(t, full, es), source, req.prevIndex + |es|)
  {
    MergeRefines(t, full, source, req.prevIndex, req.entries);
    MergeRepresents(t, full, req.entries);
    MergeShape(t, req.entries);
  }

  /** The transactions of a merge. */
  lemma MergeWritesSafe(ids: set<NodeId>, p: Proto, n: NodeId, ns: NodeState, req: AppendRequest)
    requires Runs(ids, p, n, ns) && AppendOk(ids, p, req)
    requires ns.role == Follower && ns.term == req.term
    requires ns.disk.log.snapIndex <= req.prevIndex && ns.disk.log.TermAt(req.prevIndex) == Some(req.prevTerm)
    ensures Mergeable(ns.disk.log, req.entries)
    ensures var full := p.replicas[n].log; var writes := MergeWrites(ns.disk, req.entries);
            && AllSafe(ids, p, n, ns.disk, full, writes, p.h)
            && FullAfter(p.h.reigns, full, writes) == MergeFull(ns.disk.log, full, req.entries)
            && DiskAfter(ns.disk, writes, |writes|) == ns.disk.(log := ns.disk.log.Merge(req.entries))
  {
    hide Inv, Safe, AllSafe, FullAfter, Uncompact, AppendOk;
    MergeRuns(ids, p, n, ns, req);
    var t := ns.disk.log;
    var full := p.replicas[n].log;
    var cut := CutFull(t, full, req.entries);
    var log := MergeFull(t, full, req.entries);
    var q1 := SetLog(p, n, cut);
    var s1 := ns.(disk := ns.disk.(log := t.CutFor(req.entries)));
    var q2 := SetLog(p, n, log);
    var s2 := ns.(disk := ns.disk.(log := t.Merge(req.entries)));
    var i := t.FirstDifference(req.entries);
    NoWritesSafe(ids, p, n, ns);
    if i < |req.entries| {
      UncompactMerged(p.h.reigns, t, full, ns.disk, req.entries);
      if t.TermAt(req.entries[i].index) == None {
        assert MergeWrites(ns.disk, req.entries) == [s2.disk];
        OneWriteSafe(ids, p, q2, n, ns, s2);
      } else {
        OneWriteSafe(ids, p, q1, n, ns, s1);
        SetLogTwice(p, n, cut, log);
        OneWriteSafe(ids, q1, q2, n, s1, s2);
        SafeFromStart(ids, p, q1, n, s1.disk, cut, [s2.disk], p.h);
        SafeConcat(ids, p, n, ns.disk, full, [s1.disk], [s2.disk], p.h);
        FullAfterConcat(p.h.reigns, full, [s1.disk], [s2.disk]);
      }
    }
  }

  lemma SetLogTwice(p: Proto, n: NodeId, a: seq<Entry>, b: seq<Entry>)
    requires n in p.replicas
    ensures SetLog(SetLog(p, n, a), n, b) == SetLog(p, n, b)
  {
  }

  lemma UncompactMerged(reigns: map<nat, Reign>, t: LogTable, full: seq<Entry>, d: Disk, entries: seq<Entry>)
    requires Represents(t, full) && d.log == t && Mergeable(t, entries)
    ensures var cut := d.(log := t.CutFor(entries)); var merged := d.(log := t.Merge(entries));
            && Uncompact(reigns, full, cut) == CutFull(t, full, entries)
            && Uncompact(reigns, full, merged) == MergeFull(t, full, entries)
            && Uncompact(reigns, CutFull(t, full, entries), merged) == MergeFull(t, full, entries)
  {
    hide LogTable.Merge, LogTable.CutFor, LogTable.FirstDifference;
    MergeShape(t, entries);
    var i := t.FirstDifference(entries);
    if i < |entries| {
      Regrow(full, t.snapIndex, entries[i].index - 1, entries[i..]);
    } else {
      UncompactSame(reigns, full, d);
    }
  }

  lemma Regrow(full: seq<Entry>, k: nat, at: nat, rest: seq<Entry>)
    requires k <= at <= |full|
    ensures full[..k] + full[k..][..at - k] == full[..at]
    ensures full[..k] + (full[k..][..at - k] + rest) == full[..at] + rest
    ensures full[..at][..k] == full[..k] && TermOf(full[..at], k) == TermOf(full, k)
  {
    assert full[..k] + full[k..][..at - k] == full[..at];
  }

  /** The follower's new commit index stays within what the request vouches for. */
  lemma RaiseRuns(ids: set<NodeId>, p: Proto, n: NodeId, ns: NodeState, req: AppendRequest, end: nat)
    requires Runs(ids, p, n, ns) && AppendOk(ids, p, req) && ns.term == req.term
    requires Agree(p.replicas[n].log, p.h.reigns[req.term].log, end)
    requires req.leaderCommit > ns.commitIndex
    requires req.leaderCommit <= end || ns.disk.log.LastIndex() <= Max(ns.commitIndex, end)
    ensures var c := FollowerCommit(ns, req.leaderCommit);
            && ns.commitIndex <= c
            && Runs(ids, Commit(p, n, c, ns.lastApplied), n, ns.(commitIndex := c))
  {
    hide Inv;
    var c := FollowerCommit(ns, req.leaderCommit);
    var full := p.replicas[n].log;
    var source := p.h.reigns[req.term].log;
    CommitInRange(ids, p, n);
    LastAgrees(ns.disk.log, full);
    if c > ns.commitIndex {
      CommittedLess(ids, p.h, source, req.leaderCommit, c, req.term);
      GrowsRefl(p.h);
      AgreeLess(full, source, end, c);
      CommittedGrow(ids, p.h, p.h, source, full, c, req.term, req.term);
    }
    CommitKeeps(ids, p, n, c, ns.lastApplied);
  }
}
