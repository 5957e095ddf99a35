/**
 * Where the handlers depart from the protocol: each departure on a concrete input, and exactly when it does no harm.
 */
module Departures {
  import opened RaftTypes
  import opened Logs
  import opened LogTables
  import opened Compaction
  import opened Disks
  import opened NodeSpec
  import opened Protocol
  import opened ProtocolActions
  import opened Clusters
  import opened NodeRuns
  import opened HandlerRuns
  import opened FollowerRuns
  import opened LeaderRuns
  import opened ClusterSafety
  import opened RaftSafety
  import opened RaftDurability

  // ----- the follower's commit index -----

  predicate Sorted(log: seq<Entry>) {
    forall i, j :: 0 <= i <= j < |log| ==> log[i].term <= log[j].term
  }

  predicate Through(log: seq<Entry>, t: nat) {
    forall i :: 0 <= i < |log| ==> log[i].term <= t
  }

  /** The entries of one term were all created by one leader, behind the same log. */
  ghost predicate SameCreators(a: seq<Entry>, b: seq<Entry>) {
    forall i, j :: 0 <= i < |a| && 0 <= j < |b| && a[i].term == b[j].term ==> Agree(a, b, Min(i, j) + 1)
  }

  /** How many entries of a leader's log come before those of its own term: the log it was elected with. */
  function InitOf(log: seq<Entry>, t: nat): (k: nat)
    ensures k <= |log| && (forall i :: k <= i < |log| ==> log[i].term >= t) && (k > 0 ==> log[k - 1].term < t)
  {
    if log == [] || log[|log| - 1].term < t then |log| else InitOf(log[..|log| - 1], t)
  }

  /**
   * A log that the sender of this request may have, as far as the follower can tell from the request and from its own
   * log, term, vote and commit index. The leader of a term has created all entries of that term; a leader that the
   * follower voted for has passed the vote check, unless the follower took over the leader's log since.
   */
  ghost predicate MayBeSource(s: NodeState, log: seq<Entry>, req: AppendRequest, source: seq<Entry>) {
    && Numbered(source) && Sorted(source) && Through(source, req.term) && SameCreators(log, source)
    && (forall j :: 0 <= j < |log| && log[j].term == req.term ==> Agree(log, source, j + 1))
    && (s.term == req.term && s.votedFor == Some(req.leader) ==>
          || Agree(log, source, |log|)
          || UpToDate(InitOf(source, req.term), TermOf(source, InitOf(source, req.term)), log))
    && CutFrom(source, req.prevIndex, req.entries) && req.prevTerm == TermOf(source, req.prevIndex)
    && req.leaderCommit <= |source|
    && Agree(log, source, s.commitIndex)
  }

  /** The follower's setting when a request is accepted. */
  ghost predicate Setting(s: NodeState, log: seq<Entry>, req: AppendRequest) {
    && Represents(s.disk.log, log) && Numbered(log) && Sorted(log) && Through(log, s.term) && s.commitIndex <= |log|
    && Accepts(s, req) && Mergeable(s.disk.log, req.entries)
  }

  function NewCommit(s: NodeState, req: AppendRequest): nat
    requires Mergeable(s.disk.log, req.entries)
  {
    FollowerCommit(s.(disk := s.disk.(log := s.disk.log.Merge(req.entries))), req.leaderCommit)
  }

  lemma SameCreatorsMatch(a: seq<Entry>, b: seq<Entry>)
    requires SameCreators(a, b)
    ensures Matching(a, b)
  {
    forall k: nat | k <= |a| && k <= |b| && TermOf(a, k) == TermOf(b, k)
      ensures Agree(a, b, k)
    {
      if k > 0 { assert a[k - 1].term == b[k - 1].term; }
    }
  }

  lemma MatchAt(a: seq<Entry>, b: seq<Entry>, k: nat)
    requires Matching(a, b)
    ensures k <= |a| && k <= |b| && TermOf(a, k) == TermOf(b, k) ==> Agree(a, b, k)
  {
  }

  lemma SourceMerges(s: NodeState, log: seq<Entry>, req: AppendRequest, source: seq<Entry>)
    requires Setting(s, log, req) && MayBeSource(s, log, req, source)
    ensures var end := req.prevIndex + |req.entries|; var merged := MergeFull(s.disk.log, log, req.entries);
            && merged == (if Agree(log, source, end) then log else source[..end])
            && Agree(merged, source, end) && Agree(merged, source, s.commitIndex)
            && s.disk.log.Merge(req.entries).LastIndex() == |merged|
  {
    hide SameCreators, InitOf, Sorted, Through, UpToDate, LogTable.Merge, MergeFull, Matching;
    SameCreatorsMatch(log, source);
    TermAtAgrees(s.disk.log, log, req.prevIndex);
    MatchAt(log, source, req.prevIndex);
    assert TermOf(log, req.prevIndex) == TermOf(source, req.prevIndex);
    MergeRefines(s.disk.log, log, source, req.prevIndex, req.entries);
    MergeRepresents(s.disk.log, log, req.entries);
  }

  /** The second half of the guard: the sender's log begins with all that the follower stores. */
  lemma SourceHasLog(s: NodeState, log: seq<Entry>, req: AppendRequest, source: seq<Entry>)
    requires Setting(s, log, req) && MayBeSource(s, log, req, source) && SenderHasLog(s, req)
    ensures Agree(log, source, |log|)
  {
    hide SameCreators, Mergeable, CutFrom, Sorted, LogTable.TermAt;
    LastAgrees(s.disk.log, log);
    var init := InitOf(source, req.term);
    if log != [] && log[|log| - 1].term != req.term && UpToDate(init, TermOf(source, init), log) {
      SameLast(log, source, init);
    }
  }

  lemma SameLast(log: seq<Entry>, source: seq<Entry>, init: nat)
    requires SameCreators(log, source) && 0 < |log| <= init <= |source|
    requires log[|log| - 1].term == source[init - 1].term
    ensures Agree(log, source, |log|)
  {
  }

  /** Whatever log the sender has, a guarded commit index stays within what the two logs share. */
  lemma GuardedCommit(s: NodeState, log: seq<Entry>, req: AppendRequest, source: seq<Entry>)
    requires Setting(s, log, req) && MayBeSource(s, log, req, source) && CommitGuard(s, req)
    ensures Agree(MergeFull(s.disk.log, log, req.entries), source, NewCommit(s, req))
  {
    hide SameCreators, SenderHasLog, LogTable.Merge, MergeFull, InitOf;
    SourceMerges(s, log, req, source);
    var merged := MergeFull(s.disk.log, log, req.entries);
    var end := req.prevIndex + |req.entries|;
    var c := NewCommit(s, req);
    if SenderHasLog(s, req) {
      SourceHasLog(s, log, req, source);
    } else if c <= end {
      AgreeLess(merged, source, end, c);
    } else {
      AgreeLess(merged, source, s.commitIndex, c);
    }
  }

  /** The first b entries, continued by a leader of the term after that of the follower's last entry. */
  function Diverging(log: seq<Entry>, b: nat, length: nat): seq<Entry>
    requires b <= |log| && b <= length
  {
    log[..b]
    + seq(length - b, i requires 0 <= i => Entry(b + 1 + i, TermOf(log, |log|) + 1, SetCommand("key", "value")))
  }

  lemma DivergesAt(log: seq<Entry>, b: nat, length: nat)
    requires Numbered(log) && Sorted(log) && b < |log| && b < length
    ensures var source := Diverging(log, b, length); var t := TermOf(log, |log|) + 1;
            && Numbered(source) && Sorted(source) && Through(source, t) && SameCreators(log, source)
            && Agree(log, source, b) && |source| == length && log[b] != source[b]
            && TermOf(source, length) == t
  {
  }

  /** Beyond the guard, the sender may have another entry at an index that the follower commits. */
  lemma UnguardedCommit(s: NodeState, log: seq<Entry>, req: AppendRequest, source: seq<Entry>)
    returns (other: seq<Entry>)
    requires Setting(s, log, req) && MayBeSource(s, log, req, source) && !CommitGuard(s, req)
    ensures MayBeSource(s, log, req, other)
    ensures !Agree(MergeFull(s.disk.log, log, req.entries), other, NewCommit(s, req))
  {
    hide MayBeSource, Setting, MergeFull, Diverging, SameCreators;
    SettingParts(s, log, req);
    UnguardedShape(s, log, req, source);
    var b := Max(s.commitIndex, req.prevIndex + |req.entries|);
    other := Diverging(log, b, req.leaderCommit);
    DivergesAt(log, b, req.leaderCommit);
    OtherSource(s, log, req, source, other, b);
  }

  /** Without the guard the merge changed nothing, and the commit index goes beyond what the request carries. */
  lemma UnguardedShape(s: NodeState, log: seq<Entry>, req: AppendRequest, source: seq<Entry>)
    requires Setting(s, log, req) && MayBeSource(s, log, req, source) && !CommitGuard(s, req)
    ensures var b := Max(s.commitIndex, req.prevIndex + |req.entries|);
            && MergeFull(s.disk.log, log, req.entries) == log && b < |log| && b < req.leaderCommit
            && b < NewCommit(s, req) <= |log|
    ensures Numbered(log) && Sorted(log) && Agree(log, source, req.prevIndex + |req.entries|)
    ensures TermOf(log, |log|) < req.term
    ensures s.term == req.term && s.votedFor == Some(req.leader) ==> TermOf(log, |log|) + 1 < req.term
  {
    hide MergeFull, SameCreators, LogTable.Merge, LogTable.TermAt;
    SourceMerges(s, log, req, source);
    LastAgrees(s.disk.log, log);
  }

  lemma OtherSource(s: NodeState, log: seq<Entry>, req: AppendRequest, source: seq<Entry>, other: seq<Entry>, b: nat)
    requires MayBeSource(s, log, req, source) && Agree(log, source, req.prevIndex + |req.entries|)
    requires b == Max(s.commitIndex, req.prevIndex + |req.entries|) && req.leaderCommit == |other|
    requires Sorted(log) && TermOf(log, |log|) < req.term
    requires s.term == req.term && s.votedFor == Some(req.leader) ==> TermOf(log, |log|) + 1 < req.term
    requires Numbered(other) && Sorted(other) && SameCreators(log, other) && Agree(log, other, b)
    requires var t := TermOf(log, |log|) + 1; Through(other, t) && TermOf(other, |other|) == t
    ensures MayBeSource(s, log, req, other)
  {
    hide SameCreators;
    forall i | 0 <= i < |req.entries|
      ensures req.entries[i] == other[req.prevIndex + i]
    {
      assert log[req.prevIndex + i] == source[req.prevIndex + i];
    }
  }

  /**
   * The follower commits min(leaderCommit, its own last index). What it then counts as committed is in the log of
   * the sender, whatever that log is, if and only if one of four things holds: leaderCommit is at most the last carried
   * index; or the follower has nothing behind that index (unless already committed); or its last row is of the
   * request's term; or it voted for the sender in the term after that of its last row.
   */
  lemma FollowerCommitSafeIff(s: NodeState, log: seq<Entry>, req: AppendRequest, source: seq<Entry>)
    requires Setting(s, log, req) && MayBeSource(s, log, req, source)
    ensures CommitGuard(s, req) <==>
            forall other :: MayBeSource(s, log, req, other) ==>
              Agree(MergeFull(s.disk.log, log, req.entries), other, NewCommit(s, req))
  {
    hide MayBeSource, Setting, CommitGuard, NewCommit, MergeFull, Agree;
    assert Mergeable(s.disk.log, req.entries) by { SettingParts(s, log, req); }
    assert Represents(s.disk.log, log) by { SettingParts(s, log, req); }
    if CommitGuard(s, req) {
      forall other | MayBeSource(s, log, req, other)
        ensures Agree(MergeFull(s.disk.log, log, req.entries), other, NewCommit(s, req))
      {
        GuardedCommit(s, log, req, other);
      }
    } else {
      var other := UnguardedCommit(s, log, req, source);
    }
  }

  lemma SettingParts(s: NodeState, log: seq<Entry>, req: AppendRequest)
    requires Setting(s, log, req)
    ensures Mergeable(s.disk.log, req.entries) && Represents(s.disk.log, log)
  {
  }

  lemma RootedCreators(reigns: map<nat, Reign>, a: seq<Entry>, b: seq<Entry>)
    requires ReignLogsOk(reigns) && Rooted(reigns, a) && Rooted(reigns, b)
    ensures SameCreators(a, b) && Sorted(a)
  {
    forall i, j | 0 <= i < |a| && 0 <= j < |b| && a[i].term == b[j].term
      ensures Agree(a, b, Min(i, j) + 1)
    {
      var l := reigns[a[i].term].log;
      assert Agree(a, l, i + 1) && Agree(b, l, j + 1);
    }
    forall i, j | 0 <= i <= j < |a|
      ensures a[i].term <= a[j].term
    {
      RootedSorted(reigns, a, i, j);
    }
  }

  /** The log that a reign began with. */
  lemma ReignInit(reigns: map<nat, Reign>, t: nat)
    requires t in reigns && ReignLogOk(reigns, t)
    ensures InitOf(reigns[t].log, t) == reigns[t].init
  {
    var log := reigns[t].log;
    var k := InitOf(log, t);
    assert k < |log| ==> log[k].term >= t;
    assert k > 0 ==> log[k - 1].term < t;
  }

  /** In every run, an accepted request finds the follower in this setting, and its sender has such a log. */
  lemma SenderIsSource(c: Setup, states: seq<Cluster>, events: seq<Event>, i: nat, m: Message)
    requires ValidSetup(c) && IsRun(c, states, events) && i < |states| && m in states[i].msgs && m.AppendCall?
    requires m.dst in c.configs && m.dst in states[i].nodes && Accepts(states[i].nodes[m.dst], m.append)
    ensures m.dst in states[i].full && m.append.term in states[i].h.reigns
    ensures var s := states[i]; var ns := s.nodes[m.dst]; var source := s.h.reigns[m.append.term].log;
            Setting(ns, s.full[m.dst], m.append) && MayBeSource(ns, s.full[m.dst], m.append, source)
  {
    hide Inv, Abs, NodeOk, IsRun, ValidSetup, ClusterInv, AppendOk, Setting, MayBeSource, Accepts;
    RunInv(c, states, events, i);
    NodeAt(c, states, events, i, m.dst);
    MessageTrue(c, states[i], m);
    InFlight(c, states, events, i, m);
    var p := Abs(states[i]);
    AppendTerm(c.configs.Keys, p, m.append);
    SettingAt(c.configs.Keys, p, m.dst, states[i].nodes[m.dst], m.append);
    SourceAt(c.configs.Keys, p, m.dst, states[i].nodes[m.dst], m.append);
  }

  lemma SettingAt(ids: set<NodeId>, p: Proto, n: NodeId, ns: NodeState, req: AppendRequest)
    requires Runs(ids, p, n, ns) && Accepts(ns, req) && Mergeable(ns.disk.log, req.entries)
    ensures Setting(ns, p.replicas[n].log, req)
  {
    hide Inv, NodeOk, Committed, Rooted, SameCreators, Accepts;
    NodeParts(ns, p.replicas[n].log);
    LogFacts(ids, p, n);
    TermsBounded(ids, p, n);
    CommitInRange(ids, p, n);
    ReignsOk(ids, p);
    RootedCreators(p.h.reigns, p.replicas[n].log, p.replicas[n].log);
  }

  lemma SourceAt(ids: set<NodeId>, p: Proto, n: NodeId, ns: NodeState, req: AppendRequest)
    requires Runs(ids, p, n, ns) && AppendOk(ids, p, req) && Accepts(ns, req)
    ensures MayBeSource(ns, p.replicas[n].log, req, p.h.reigns[req.term].log)
  {
    hide Inv, NodeOk, Committed, SameCreators, Sorted, UpToDate, InitOf, ReignLogsOk;
    var reign := p.h.reigns[req.term];
    LogFacts(ids, p, n);
    ReignAt(ids, p, req.term);
    ReignFacts(ids, p, req.term);
    ReignInit(p.h.reigns, req.term);
    ReignsOk(ids, p);
    RootedCreators(p.h.reigns, p.replicas[n].log, reign.log);
    RootedCreators(p.h.reigns, reign.log, reign.log);
    CommittedAtSender(ids, p, n, req.term);
    if ns.term == req.term && ns.votedFor == Some(req.leader) { VoteFacts(ids, p, n); }
  }

  lemma CommittedAtSender(ids: set<NodeId>, p: Proto, n: NodeId, t: nat)
    requires Inv(ids, p) && n in p.replicas && t in p.h.reigns && p.replicas[n].term <= t
    ensures Agree(p.replicas[n].log, p.h.reigns[t].log, p.replicas[n].commit)
  {
    hide Inv, Committed, LeadersComplete;
    var r := p.replicas[n];
    CommitInRange(ids, p, n);
    Complete(ids, p);
    CommittedUpTo(ids, p.h, r.log, r.commit, r.term, t);
    CommittedInReign(ids, p.h, r.log, r.commit, t);
  }

  /** A request vouches for its own commit index exactly when the batch limit does not cut below it. */
  lemma SendVouchesIff(cfg: Config, s: NodeState, peer: NodeId, log: seq<Entry>)
    requires GoodTable(s) && Represents(s.disk.log, log) && Numbered(log) && s.commitIndex <= |log|
    requires Replicate(cfg, s, peer).reply.SendAppend?
    ensures var req := Replicate(cfg, s, peer).reply.append;
            && (req.leaderCommit <= req.prevIndex + |req.entries| <==> s.commitIndex <= req.prevIndex + BATCH_SIZE)
            && (s.commitIndex <= req.prevIndex + BATCH_SIZE ==>
                  forall f: NodeState :: Mergeable(f.disk.log, req.entries) ==> CommitGuard(f, req))
  {
    hide Replicate;
    SendAppendShape(cfg, s, peer, log);
  }

  // ----- the rows behind an installed snapshot -----

  /** What the complete log becomes: the sender's prefix, and behind it whatever was there. */
  function Grafted(log: seq<Entry>, source: seq<Entry>, k: nat): seq<Entry>
    requires k <= |source|
  {
    source[..k] + if k <= |log| then log[k..] else []
  }

  lemma InstallGrafts(d: Disk, log: seq<Entry>, source: seq<Entry>, k: nat, data: SnapshotData)
    requires Represents(d.log, log) && d.log.snapIndex < k <= |source| && !data.Corrupt?
    ensures var installed := InstallSnapshot(d, Snapshot(k, TermOf(source, k), data));
            installed.Some? && Represents(installed.value.log, Grafted(log, source, k))
  {
    var kept := Grafted(log, source, k);
    assert kept[k..] == if k <= |log| then log[k..] else [];
    assert TermOf(kept, k) == TermOf(source, k);
  }

  lemma GraftMatches(log: seq<Entry>, source: seq<Entry>, k: nat)
    requires 0 < k <= |source| && Matching(log, source)
    requires |log| <= k || TermOf(log, k) == TermOf(source, k)
    ensures Matching(Grafted(log, source, k), log)
  {
    var kept := Grafted(log, source, k);
    if |log| <= k {
      assert kept == source[..k];
      forall j: nat | j <= |kept| && j <= |log| && TermOf(kept, j) == TermOf(log, j)
        ensures Agree(kept, log, j)
      {
        assert Agree(log, source, j);
      }
    } else {
      assert Agree(log, source, k);
      assert kept == log;
    }
  }

  lemma GraftBreaks(log: seq<Entry>, source: seq<Entry>, k: nat)
    requires 0 < k <= |source| && k < |log| && TermOf(log, k) != TermOf(source, k)
    ensures !Matching(Grafted(log, source, k), log)
  {
    var kept := Grafted(log, source, k);
    assert kept[k] == log[k] && kept[k - 1] == source[k - 1];
    assert TermOf(kept, k + 1) == TermOf(log, k + 1);
    assert kept[k - 1] != log[k - 1];
  }

  /**
   * Installing a snapshot keeps every row above it. The log that results still matches the log from before, so that
   * an index and a term identify a prefix, if and only if the local log does not extend past the snapshot or has
   * the snapshot's term at its index.
   */
  lemma InstallSuffixSafeIff(d: Disk, log: seq<Entry>, source: seq<Entry>, k: nat, data: SnapshotData)
    requires Represents(d.log, log) && d.log.snapIndex < k <= |source| && !data.Corrupt? && Matching(log, source)
    ensures var installed := InstallSnapshot(d, Snapshot(k, TermOf(source, k), data));
            installed.Some? && Represents(installed.value.log, Grafted(log, source, k))
    ensures Matching(Grafted(log, source, k), log) <==>
            (d.log.LastIndex() <= k || d.log.TermAt(k) == Some(TermOf(source, k)))
  {
    hide Matching, Grafted;
    InstallGrafts(d, log, source, k, data);
    LastAgrees(d.log, log);
    TermAtAgrees(d.log, log, k);
    if |log| <= k || TermOf(log, k) == TermOf(source, k) {
      GraftMatches(log, source, k);
    } else {
      GraftBreaks(log, source, k);
    }
  }

  /** A snapshot of term 2 ends up below a row of term 1 that was never behind it. */
  lemma InstallKeepsForeignRow()
    ensures var old1 := Entry(3, 1, SetCommand("k", "old"));
            var log := LogTable(0, 0, [Entry(1, 1, SetCommand("k", "a")), Entry(2, 1, SetCommand("k", "b")), old1]);
            var f := NodeState(Follower, 2, None, 0, 0, map[], map[], {}, NewDisk().(term := 2, log := log));
            var out := InstallSnapshotCall(f, InstallRequest(2, 0, 2, 2, Image(map["k" := "new"])));
            out.reply.Some? && out.state.disk.log == LogTable(2, 2, [old1])
  {
  }

  // ----- the apply position after a snapshot -----

  /** For every key that the entries write, the map holds the value of the last write. */
  predicate HoldsLastWrites(kv: map<string, string>, es: seq<Entry>)
    requires Decodable(es)
  {
    forall i :: 0 <= i < |es| && IsLastWrite(es, i) ==>
      es[i].command.key in kv && kv[es[i].command.key] == es[i].command.value
  }

  predicate IsLastWrite(es: seq<Entry>, i: nat)
    requires Decodable(es) && i < |es|
  {
    forall j :: i < j < |es| ==> es[j].command.key != es[i].command.key
  }

  predicate Writes(es: seq<Entry>, key: string)
    requires Decodable(es)
  {
    exists i :: 0 <= i < |es| && es[i].command.key == key
  }

  /** After a replay, a key has the value of its last write, or what it had before if it was not written. */
  lemma {:induction false} ReplayedKey(kv: map<string, string>, es: seq<Entry>, key: string) returns (i: nat)
    requires Decodable(es)
    ensures var r := ReplayOnto(kv, es);
            if Writes(es, key) then
              i < |es| && IsLastWrite(es, i) && es[i].command.key == key && key in r && r[key] == es[i].command.value
            else (key in r <==> key in kv) && (key in r ==> r[key] == kv[key])
  {
    i := 0;
    if es != [] {
      var rest := es[..|es| - 1];
      if es[|es| - 1].command.key == key {
        i := |es| - 1;
      } else {
        i := ReplayedKey(kv, rest, key);
        if Writes(es, key) {
          var j :| 0 <= j < |es| && es[j].command.key == key;
          assert rest[j].command.key == key;
          assert IsLastWrite(es, i);
        }
      }
    }
  }

  /** Replaying entries changes nothing if and only if their last writes are there already. */
  lemma ReplayStaysIff(kv: map<string, string>, es: seq<Entry>)
    requires Decodable(es)
    ensures ReplayOnto(kv, es) == kv <==> HoldsLastWrites(kv, es)
  {
    var r := ReplayOnto(kv, es);
    if r == kv {
      forall i | 0 <= i < |es| && IsLastWrite(es, i)
        ensures es[i].command.key in kv && kv[es[i].command.key] == es[i].command.value
      {
        assert Writes(es, es[i].command.key);
        var last := ReplayedKey(kv, es, es[i].command.key);
        assert last == i;
      }
    }
    if HoldsLastWrites(kv, es) {
      forall key
        ensures (key in r <==> key in kv) && (key in r ==> r[key] == kv[key])
      {
        var last := ReplayedKey(kv, es, key);
      }
      assert r == kv;
    }
  }

  lemma InstalledTable(s: NodeState, req: InstallRequest)
    requires req.term >= s.term && req.lastIndex > s.disk.log.snapIndex && req.data.Image?
    ensures var out := InstallSnapshotCall(s, req).state;
            && Values(out.disk.kv) == req.data.values && out.lastApplied == Max(s.lastApplied, req.lastIndex)
            && out.disk.lastApplied == req.lastIndex
            && out.disk.log == InstallSnapshot(s.disk, Snapshot(req.lastIndex, req.lastTerm, req.data)).value.log
  {
  }

  /**
   * Installing a snapshot replaces the key-value table, while memory keeps a larger apply position. The table is still
   * the replay of everything counted as applied if and only if the snapshot covers all of it, or the image already
   * holds, for every key that the stored rows behind the snapshot have written so far, the value of the last write.
   */
  lemma InstallTableSafeIff(s: NodeState, log: seq<Entry>, source: seq<Entry>, req: InstallRequest)
    requires Represents(s.disk.log, log) && Decodable(log) && s.lastApplied <= |log|
    requires req.term >= s.term && s.disk.log.snapIndex < req.lastIndex <= |source|
    requires req.lastTerm == TermOf(source, req.lastIndex) && req.data == Image(Replay(source[..req.lastIndex]))
    ensures var k := req.lastIndex; var snap := s.disk.log.snapIndex;
            var out := InstallSnapshotCall(s, req).state; var after := Grafted(log, source, k);
            && Represents(out.disk.log, after) && k <= out.lastApplied <= |after|
            && (out.lastApplied == out.disk.lastApplied <==> k >= s.lastApplied)
            && (Values(out.disk.kv) == Replay(after[..out.lastApplied]) <==>
                  || k >= s.lastApplied
                  || (&& k - snap <= s.lastApplied - snap <= |s.disk.log.rows|
                      && Decodable(s.disk.log.rows[k - snap..s.lastApplied - snap])
                      && HoldsLastWrites(req.data.values, s.disk.log.rows[k - snap..s.lastApplied - snap])))
  {
    hide InstallSnapshotCall, HoldsLastWrites, InstallSnapshot;
    var k := req.lastIndex;
    InstalledTable(s, req);
    InstallGrafts(s.disk, log, source, k, req.data);
    var after := Grafted(log, source, k);
    if k < s.lastApplied {
      var es := s.disk.log.rows[k - s.disk.log.snapIndex..s.lastApplied - s.disk.log.snapIndex];
      assert es == log[k..s.lastApplied];
      assert after[..s.lastApplied] == source[..k] + es;
      ReplayConcat(map[], source[..k], es);
      ReplayStaysIff(req.data.values, es);
    } else {
      assert after[..k] == source[..k];
    }
  }

  /** An older snapshot takes an applied write out of the table, and the apply loop will not apply it again. */
  lemma InstallForgetsAppliedWrite()
    ensures var e1 := Entry(1, 1, SetCommand("a", "1")); var e2 := Entry(2, 1, SetCommand("b", "2"));
            var d := NewDisk().(term := 1, lastApplied := 2, log := LogTable(0, 0, [e1, e2]),
                                kv := map["a" := KvRow("1", 1), "b" := KvRow("2", 2)]);
            var f := NodeState(Follower, 1, None, 2, 2, map[], map[], {}, d);
            var out := InstallSnapshotCall(f, InstallRequest(1, 0, 1, 1, Image(map["a" := "1"]))).state;
            && Values(d.kv) == map["a" := "1", "b" := "2"]
            && out.lastApplied == 2 && Values(out.disk.kv) == map["a" := "1"]
            && GoodTable(out) && ApplyLoop(out).finished && "b" !in ApplyLoop(out).state.disk.kv
  {
  }

  // ----- the reply to a snapshot -----

  /**
   * In every reachable state, the answer to a snapshot leaves only committed entries below the commit index, if it
   * reaches a leader, of whatever term, or a node whose match indices count nothing above its commit index, or any node
   * of a cluster of up to three. At another node of a larger cluster it may commit what is not committed.
   */
  lemma InstallReplySafe(c: Setup, states: seq<Cluster>, events: seq<Event>, i: nat, m: Message)
    requires ValidSetup(c) && IsRun(c, states, events) && i < |states| && m in states[i].msgs && m.InstallAnswer?
    requires m.dst in c.configs && m.dst in states[i].nodes && GoodTable(states[i].nodes[m.dst])
    requires InstallReplyGuard(c.configs[m.dst], states[i].nodes[m.dst], m.src, m.lastIncluded, m.installed)
    ensures m.dst in states[i].full
    ensures var s := states[i]; var n := m.dst;
            var out := InstallReply(c.configs[n], s.nodes[n], m.src, m.lastIncluded, m.installed).state;
            && s.nodes[n].commitIndex <= out.commitIndex <= |s.full[n]|
            && Committed(c.configs.Keys, s.h, s.full[n], out.commitIndex, out.term)
  {
    hide Inv, Abs, NodeOk, IsRun, ValidSetup, ClusterInv, Committed, InstallReply, InstallReplyGuard;
    RunInv(c, states, events, i);
    var s := states[i];
    var n := m.dst;
    NodeRunning(c, s, n);
    MessageTrue(c, s, m);
    NodeAt(c, states, events, i, n);
    var q := InstallReplyHandled(c.configs.Keys, c.configs[n], Abs(s), n, s.nodes[n], m.src, m.lastIncluded,
                                 m.installed);
    HandledCommits(c.configs.Keys, Abs(s), q, n, s.nodes[n],
                   InstallReply(c.configs[n], s.nodes[n], m.src, m.lastIncluded, m.installed));
  }

  /**
   * A peer that refuses a snapshot of an old term answers in its own, and a leader of a still later term takes this for
   * a match: it then believes that the peer holds what it does not.
   */
  lemma RefusalCountsAsMatch()
    ensures var peer := Restart(NewDisk().(term := 2));
            var req := InstallRequest(1, 0, 1, 1, Image(map["k" := "v"]));
            var snap := Snapshot(1, 1, req.data);
            var d := Disk(3, Some(0), 1, LogTable(1, 1, []), map["k" := KvRow("v", 1)], Some(snap));
            var leader := NodeState(Leader, 3, Some(0), 1, 1, map[1 := 2, 2 := 2], map[0 := 1, 1 := 0, 2 := 0],
                                    {0, 2}, d);
            && InstallSnapshotCall(peer, req) == Out(peer, Some(InstallResponse(2)), [])
            && peer.disk.log.LastIndex() == 0 && GoodTable(leader)
            && InstallReply(Config(0, [1, 2], 0), leader, 1, 1, InstallResponse(2)).state.matchIndex[1] == 1
  {
  }
}
