/** A node: the fields that it changes in place, and each region of code that runs under its lock as a method. */
module Nodes {
  import opened RaftTypes
  import opened Logs
  import opened LogTables
  import opened Disks
  import opened Stores
  import opened NodeSpec
  import opened Applying

  lemma SetOneMore(m: map<NodeId, nat>, peers: seq<NodeId>, i: nat, v: nat)
    requires i < |peers|
    ensures SetAll(m, peers[..i + 1], v) == SetAll(m, peers[..i], v)[peers[i] := v]
  {
    assert peers[..i + 1] == peers[..i] + [peers[i]];
  }

  lemma SetNone(m: map<NodeId, nat>, peers: seq<NodeId>, v: nat)
    ensures SetAll(m, peers[..0], v) == m
  {
  }

  /** The transactions of a merge: a deletion if something conflicts, then one insertion. */
  lemma MergeSteps(d: Disk, entries: seq<Entry>)
    requires Mergeable(d.log, entries)
    ensures var i := d.log.FirstDifference(entries);
            if i == |entries| then d.log.Merge(entries) == d.log && MergeWrites(d, entries) == []
            else
              var at := entries[i].index;
              var cut := if d.log.TermAt(at).Some? then d.(log := d.log.TruncateFrom(at)) else d;
              && Mergeable(cut.log, entries[i..])
              && d.log.Merge(entries) == cut.log.Upsert(entries[i..])
              && MergeWrites(d, entries) ==
                   (if d.log.TermAt(at).Some? then [cut] else []) + [cut.(log := cut.log.Upsert(entries[i..]))]
  {
    MergeShape(d.log, entries);
  }

  class Node {
    const cfg: Config
    const store: Store

    var role: Role
    var currentTerm: nat
    var votedFor: Option<NodeId>
    var commitIndex: nat
    var lastApplied: nat
    var nextIndex: map<NodeId, nat>
    var matchIndex: map<NodeId, nat>
    /** Who has voted for this node in its current election; each peer is asked once, so this counts the answers. */
    var tally: set<NodeId>

    ghost predicate Valid()
      reads store
    {
      store.Valid()
    }

    ghost function State(): NodeState
      reads this, store
      ensures Valid() ==> GoodTable(State())
    {
      NodeState(role, currentTerm, votedFor, commitIndex, lastApplied, nextIndex, matchIndex, tally, store.Contents())
    }

    /** A node starts from what its store holds, whether it is new or was stopped anywhere. */
    constructor (cfg: Config, store: Store)
      requires store.Valid()
      ensures this.cfg == cfg && this.store == store && Valid()
      ensures State() == Restart(store.Contents())
    {
      this.cfg := cfg;
      this.store := store;
      role := Follower;
      nextIndex, matchIndex, tally := map[], map[], {};
      new;
      var term, vote := store.CurrentTermVote();
      var applied := store.LastApplied();
      currentTerm, votedFor, commitIndex, lastApplied := term, vote, applied, applied;
    }

    /** This method took the node to the state of a step, and its transactions are those of the step. */
    twostate predicate Did<R>(out: Out<R>)
      reads this, store
    {
      Valid() && State() == out.state && store.history == old(store.history) + out.writes
    }

    // ----- stepping down and elections -----

    method StepDown(term: nat)
      requires Valid()
      modifies this, store
      ensures Did(NodeSpec.StepDown(old(State()), term))
    {
      if term > currentTerm {
        currentTerm := term;
        votedFor := None;
        store.SaveTermVote(currentTerm, votedFor);
      }
      role := Follower;
    }

    method StartElection() returns (request: Option<VoteRequest>)
      requires Valid()
      modifies this, store
      ensures var out := NodeSpec.StartElection(cfg, old(State())); Did(out) && request == out.reply
    {
      hide Store.Valid, Store.Contents, LogTable.Valid, LogTable.TermAt, LogTable.EntryAt,
           LogTable.EntriesFrom, LogTable.LastIndex, LogTable.LastTerm;
      if role == Leader { return None; }
      role := Candidate;
      currentTerm := currentTerm + 1;
      votedFor := Some(cfg.id);
      tally := {cfg.id};
      store.SaveTermVote(currentTerm, votedFor);
      var lastIndex, lastTerm := store.LastIndexAndTerm();
      return Some(VoteRequest(currentTerm, cfg.id, lastIndex, lastTerm));
    }

    method RequestVote(req: VoteRequest) returns (resp: VoteResponse)
      requires Valid()
      modifies this, store
      ensures var out := NodeSpec.RequestVote(old(State()), req); Did(out) && resp == out.reply
    {
      hide Store.Valid, Store.Contents, LogTable.Valid, LogTable.TermAt, LogTable.EntryAt,
           LogTable.EntriesFrom, LogTable.LastIndex, LogTable.LastTerm;
      if req.term < currentTerm { return VoteResponse(currentTerm, false); }
      if req.term > currentTerm { StepDown(req.term); }
      var lastIndex, lastTerm := store.LastIndexAndTerm();
      var upToDate := req.lastTerm > lastTerm || (req.lastTerm == lastTerm && req.lastIndex >= lastIndex);
      var canVote := votedFor == None || votedFor == Some(req.candidate);
      if canVote && upToDate {
        votedFor := Some(req.candidate);
        store.SaveTermVote(currentTerm, votedFor);
        return VoteResponse(currentTerm, true);
      }
      return VoteResponse(currentTerm, false);
    }

    method VoteReply(src: NodeId, reqTerm: nat, resp: VoteResponse)
      requires Valid()
      modifies this, store
      ensures Did(NodeSpec.VoteReply(cfg, old(State()), src, reqTerm, resp))
    {
      if resp.term > currentTerm {
        StepDown(resp.term);
        return;
      }
      if role != Candidate || currentTerm != reqTerm || !resp.granted { return; }
      tally := tally + {src};
      if |tally| >= cfg.Majority() { BecomeLeader(); }
    }

    method ElectAlone(reqTerm: nat)
      requires Valid()
      modifies this
      ensures Did(NodeSpec.ElectAlone(cfg, old(State()), reqTerm))
    {
      if cfg.Majority() == 1 && role == Candidate && currentTerm == reqTerm { BecomeLeader(); }
    }

    method BecomeLeader()
      requires Valid()
      modifies this
      ensures State() == NodeSpec.BecomeLeader(cfg, old(State()))
    {
      hide Store.Valid, Store.Contents, LogTable.LastIndex, LogTable.LastTerm, SetAll;
      var lastIndex, _ := store.LastIndexAndTerm();
      role := Leader;
      votedFor := Some(cfg.id);
      ResetPeers(lastIndex);
      matchIndex := matchIndex[cfg.id := lastIndex];
    }

    method ResetPeers(lastIndex: nat)
      modifies `nextIndex, `matchIndex
      ensures nextIndex == SetAll(old(nextIndex), cfg.peers, lastIndex + 1)
      ensures matchIndex == SetAll(old(matchIndex), cfg.peers, 0)
    {
      hide SetAll;
      SetNone(nextIndex, cfg.peers, lastIndex + 1);
      SetNone(matchIndex, cfg.peers, 0);
      for i := 0 to |cfg.peers|
        invariant nextIndex == SetAll(old(nextIndex), cfg.peers[..i], lastIndex + 1)
        invariant matchIndex == SetAll(old(matchIndex), cfg.peers[..i], 0)
      {
        SetOneMore(old(nextIndex), cfg.peers, i, lastIndex + 1);
        SetOneMore(old(matchIndex), cfg.peers, i, 0);
        nextIndex := nextIndex[cfg.peers[i] := lastIndex + 1];
        matchIndex := matchIndex[cfg.peers[i] := 0];
      }
      assert cfg.peers[..|cfg.peers|] == cfg.peers;
    }

    // ----- applying and compacting -----

    /** Apply what is committed, oldest first; stop at an entry that is missing or does not decode. */
    method ApplyCommitted()
      requires Valid()
      modifies this, store
      ensures Did(NodeSpec.ApplyCommitted(cfg, old(State())))
    {
      hide Store.Valid, Store.Contents, NodeSpec.CompactIfNeeded, ApplyLoop, LogTable.TermAt, LogTable.EntryAt,
           LogTable.EntriesFrom, LogTable.LastTerm, LogTable.LastIndex, LogTable.Valid;
      ghost var whole := ApplyLoop(State());
      ghost var writes: seq<Disk> := [];
      while lastApplied < commitIndex
        invariant Valid() && store.history == old(store.history) + writes
        invariant ApplyLoop(State()) == whole.(writes := ApplyLoop(State()).writes)
        invariant writes + ApplyLoop(State()).writes == whole.writes
        decreases commitIndex - lastApplied
      {
        ApplyOneStep(State());
        var next := lastApplied + 1;
        var entry := store.Entry(next);
        if entry == None {
          var snapIndex, _ := store.SnapshotIndexTerm();
          if next <= snapIndex {
            lastApplied := snapIndex;
            continue;
          }
          return;
        }
        if entry.value.command.Malformed? { return; }
        store.ApplySet(entry.value.index, entry.value.command.key, entry.value.command.value);
        lastApplied := entry.value.index;
        writes := writes + [store.Contents()];
      }
      ApplyOneStep(State());
      CompactIfNeeded();
    }

    method CompactIfNeeded()
      requires Valid()
      modifies store
      ensures Did(NodeSpec.CompactIfNeeded(cfg, old(State())))
    {
      if cfg.threshold == 0 || lastApplied == 0 { return; }
      var snapIndex, _ := store.SnapshotIndexTerm();
      if lastApplied <= snapIndex || lastApplied - snapIndex < cfg.threshold { return; }
      var term := store.Term(lastApplied);
      if term == None { return; }
      var _ := store.CreateSnapshot(lastApplied, term.value);
    }

    /** Scan upward for own-term entries that a majority holds; the last one found becomes the commit index. */
    method AdvanceCommit()
      requires Valid()
      modifies this, store
      ensures Did(NodeSpec.AdvanceCommit(cfg, old(State())))
    {
      hide Store.Valid, Store.Contents, NodeSpec.ApplyCommitted, LogTable.Valid, LogTable.TermAt,
           LogTable.EntryAt, LogTable.EntriesFrom, LogTable.LastIndex, LogTable.LastTerm;
      var lastIndex, _ := store.LastIndexAndTerm();
      var majority := cfg.Majority();
      var idx := commitIndex + 1;
      while idx <= lastIndex
        invariant old(commitIndex) < idx
        invariant idx <= lastIndex + 1 || idx == old(commitIndex) + 1
        invariant commitIndex == HighestCommittable(cfg, old(State()), old(commitIndex), idx - 1)
        modifies `commitIndex
      {
        var term := store.Term(idx);
        if term == Some(currentTerm) {
          var count := CountHolders(idx);
          if count >= majority { commitIndex := idx; }
        }
        idx := idx + 1;
      }
      ApplyCommitted();
    }

    /** This node, and every peer known to hold the index. */
    method CountHolders(idx: nat) returns (count: nat)
      ensures count == 1 + CountMatches(cfg.peers, matchIndex, idx)
    {
      count := 1;
      for i := 0 to |cfg.peers|
        invariant count == 1 + CountMatches(cfg.peers[..i], matchIndex, idx)
      {
        assert cfg.peers[..i + 1][..i] == cfg.peers[..i];
        if Get(matchIndex, cfg.peers[i]) >= idx { count := count + 1; }
      }
      assert cfg.peers[..|cfg.peers|] == cfg.peers;
    }

    // ----- the leader's side of replication -----

    method Replicate(peer: NodeId) returns (send: Sending)
      requires Valid()
      modifies `nextIndex
      ensures var out := NodeSpec.Replicate(cfg, old(State()), peer); Did(out) && send == out.reply
    {
      hide Store.Valid, Store.Contents, LogTable.Valid, LogTable.TermAt, LogTable.EntryAt,
           LogTable.EntriesFrom, LogTable.LastIndex, LogTable.LastTerm;
      if role != Leader { return Nothing; }
      var next := Get(nextIndex, peer);
      if next == 0 {
        next := 1;
        nextIndex := nextIndex[peer := next];
      }
      var snapIndex, snapTerm := store.SnapshotIndexTerm();
      if next <= snapIndex {
        var snap := store.LoadSnapshot();
        return SendInstall(InstallRequest(currentTerm, cfg.id, snap.lastIndex, snap.lastTerm, snap.data));
      }
      var prev := next - 1;
      var prevTerm := store.Term(prev);
      if prevTerm == None && prev <= snapIndex { prevTerm := Some(snapTerm); }
      if prevTerm == None {
        nextIndex := nextIndex[peer := Max(1, next - 1)];
        return Retry;
      }
      var entries := store.EntriesFrom(next, BATCH_SIZE);
      var lastSent := if entries == [] then prev else entries[|entries| - 1].index;
      return SendAppend(AppendRequest(currentTerm, cfg.id, prev, prevTerm.value, entries, commitIndex), lastSent);
    }

    method AppendReply(peer: NodeId, reqTerm: nat, lastSent: nat, resp: AppendResponse)
      requires Valid()
      modifies this, store
      ensures Did(NodeSpec.AppendReply(cfg, old(State()), peer, reqTerm, lastSent, resp))
    {
      hide Store.Valid, Store.Contents, NodeSpec.AdvanceCommit, LogTable.Valid, LogTable.TermAt,
           LogTable.EntryAt, LogTable.EntriesFrom, LogTable.LastIndex, LogTable.LastTerm;
      if resp.term > currentTerm {
        StepDown(resp.term);
        return;
      }
      if role != Leader || currentTerm != reqTerm { return; }
      if resp.success {
        var matched := resp.matchIndex;
        if matched < lastSent { matched := lastSent; }
        if matched > Get(matchIndex, peer) { matchIndex := matchIndex[peer := matched]; }
        nextIndex := nextIndex[peer := Get(matchIndex, peer) + 1];
        AdvanceCommit();
      } else if Get(nextIndex, peer) > 1 {
        nextIndex := nextIndex[peer := Get(nextIndex, peer) - 1];
      }
    }

    method InstallReply(peer: NodeId, lastIncluded: nat, resp: InstallResponse)
      requires Valid()
      modifies this, store
      ensures Did(NodeSpec.InstallReply(cfg, old(State()), peer, lastIncluded, resp))
    {
      if resp.term > currentTerm {
        StepDown(resp.term);
        return;
      }
      matchIndex := matchIndex[peer := lastIncluded];
      nextIndex := nextIndex[peer := lastIncluded + 1];
      AdvanceCommit();
    }

    // ----- client writes -----

    /** Append the entry of a client write. The caller then waits until it is committed in the same term. */
    method WriteAppend(key: string, value: string) returns (entry: Option<Entry>)
      requires Valid()
      modifies this, store
      ensures var out := NodeSpec.WriteAppend(cfg, old(State()), key, value); Did(out) && entry == out.reply
    {
      hide Store.Valid, Store.Contents, NodeSpec.AdvanceCommit, LogTable.Upsert;
      if key == "" { return None; }
      if role != Leader { return None; }
      var lastIndex, _ := store.LastIndexAndTerm();
      var e := Entry(lastIndex + 1, currentTerm, SetCommand(key, value));
      store.AppendEntries([e]);
      matchIndex := matchIndex[cfg.id := e.index];
      if cfg.Majority() == 1 { AdvanceCommit(); }
      return Some(e);
    }

    /** One look of the waiting client: lost leadership, committed, or neither yet. */
    method WriteLook(e: Entry) returns (done: bool, success: bool)
      ensures success == WriteSucceeds(State(), e)
      ensures done == (success || role != Leader || currentTerm != e.term)
    {
      if role != Leader || currentTerm != e.term { return true, false; }
      return commitIndex >= e.index, commitIndex >= e.index;
    }

    // ----- the follower's side of replication -----

    method AppendEntries(req: AppendRequest) returns (resp: AppendResponse)
      requires Valid() && Contiguous(req.prevIndex, req.entries)
      modifies this, store
      ensures var out := NodeSpec.AppendEntries(cfg, old(State()), req); Did(out) && resp == out.reply
    {
      hide Store.Valid, Store.Contents, NodeSpec.FollowEntries, LogTable.Valid, LogTable.TermAt,
           LogTable.EntryAt, LogTable.EntriesFrom, LogTable.LastIndex, LogTable.LastTerm;
      if req.term < currentTerm {
        var lastIndex, _ := store.LastIndexAndTerm();
        return AppendResponse(currentTerm, false, lastIndex);
      }
      if req.term > currentTerm || role != Follower { StepDown(req.term); }
      resp := FollowEntries(req);
    }

    method FollowEntries(req: AppendRequest) returns (resp: AppendResponse)
      requires Valid() && Contiguous(req.prevIndex, req.entries)
      modifies this, store
      ensures var out := NodeSpec.FollowEntries(cfg, old(State()), req); Did(out) && resp == out.reply
    {
      hide Store.Valid, Store.Contents, NodeSpec.ApplyCommitted, MergeWrites, LogTable.Merge, LogTable.EntryAt,
           LogTable.EntriesFrom, LogTable.LastTerm;
      var snapIndex, _ := store.SnapshotIndexTerm();
      if req.prevIndex < snapIndex { return AppendResponse(currentTerm, false, snapIndex); }
      var prevTerm := store.Term(req.prevIndex);
      if prevTerm == None || prevTerm.value != req.prevTerm {
        var lastIndex, _ := store.LastIndexAndTerm();
        return AppendResponse(currentTerm, false, lastIndex);
      }
      var incoming: seq<Entry> := [];
      var matched := req.prevIndex;
      for i := 0 to |req.entries|
        invariant incoming == req.entries[..i] && matched == req.prevIndex + i
      {
        var e := req.entries[i];
        if e.index > snapIndex {
          if e.index > matched { matched := e.index; }
          incoming := incoming + [e];
        }
      }
      assert incoming == req.entries;
      ghost var merges := MergeWrites(store.Contents(), incoming);
      MergeIncoming(incoming);
      var lastIndex, _ := store.LastIndexAndTerm();
      if req.leaderCommit > commitIndex {
        commitIndex := Min(req.leaderCommit, lastIndex);
        ghost var writes := NodeSpec.ApplyCommitted(cfg, State()).writes;
        ApplyKeeps(cfg, State());
        ApplyCommitted();
        assert old(store.history) + merges + writes == old(store.history) + (merges + writes);
      }
      return AppendResponse(currentTerm, true, matched);
    }

    /** Delete the conflicting suffix, if there is one, and append what is missing. */
    method MergeIncoming(incoming: seq<Entry>)
      requires Valid() && Mergeable(store.Contents().log, incoming)
      modifies store
      ensures Valid()
      ensures var d := old(store.Contents()); store.Contents() == d.(log := d.log.Merge(incoming))
      ensures store.history == old(store.history) + MergeWrites(old(store.Contents()), incoming)
    {
      hide Store.Valid, Store.Contents, LogTable.TermAt, LogTable.Merge, LogTable.TruncateFrom,
           LogTable.Upsert, LogTable.FirstDifference, MergeWrites;
      MergeSteps(store.Contents(), incoming);
      var i, conflict := Scan(incoming);
      if conflict { store.DeleteFrom(incoming[i].index); }
      var toAppend := incoming[i..];
      if |toAppend| > 0 { store.AppendEntries(toAppend); }
    }

    /** Find the first carried entry that is missing here or conflicts with a row of another term. */
    method Scan(incoming: seq<Entry>) returns (i: nat, conflict: bool)
      requires Valid()
      ensures i == store.Contents().log.FirstDifference(incoming)
      ensures conflict == (i < |incoming| && store.Contents().log.TermAt(incoming[i].index).Some?)
    {
      hide Store.Valid, Store.Contents, LogTable.TermAt;
      ghost var table := store.Contents().log;
      i := 0;
      while i < |incoming|
        invariant 0 <= i <= |incoming|
        invariant table.FirstDifference(incoming) == table.FirstDifferenceFrom(incoming, i)
      {
        var e := incoming[i];
        var local := store.Term(e.index);
        if local == None { return i, false; }
        if local.value != e.term { return i, true; }
        i := i + 1;
      }
      return i, false;
    }

    method InstallSnapshot(req: InstallRequest) returns (resp: Option<InstallResponse>)
      requires Valid()
      modifies this, store
      ensures var out := InstallSnapshotCall(old(State()), req); Did(out) && resp == out.reply
    {
      hide Store.Valid, Store.Contents, Disks.InstallSnapshot, LogTable.Valid, LogTable.TermAt,
           LogTable.EntryAt, LogTable.EntriesFrom, LogTable.LastIndex, LogTable.LastTerm;
      if req.term < currentTerm { return Some(InstallResponse(currentTerm)); }
      if req.term > currentTerm || role != Follower { StepDown(req.term); }
      var snapIndex, _ := store.SnapshotIndexTerm();
      if req.lastIndex <= snapIndex { return Some(InstallResponse(currentTerm)); }
      var ok := store.InstallSnapshot(Snapshot(req.lastIndex, req.lastTerm, req.data));
      if !ok { return None; }
      commitIndex := Max(commitIndex, req.lastIndex);
      lastApplied := Max(lastApplied, req.lastIndex);
      return Some(InstallResponse(currentTerm));
    }
  }
}
