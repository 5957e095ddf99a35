/** What the apply loop computes. */
module Applying {
  import opened RaftTypes
  import opened Logs
  import opened LogTables
  import opened Disks
  import opened NodeSpec

  /** The committed entries that are not applied yet. */
  function Pending(s: NodeState): seq<Entry>
    requires s.disk.log.snapIndex <= s.lastApplied <= s.commitIndex <= s.disk.log.LastIndex()
  {
    s.disk.log.rows[s.lastApplied - s.disk.log.snapIndex..s.commitIndex - s.disk.log.snapIndex]
  }

  /** One turn of the apply loop. */
  lemma ApplyOneStep(s: NodeState)
    requires GoodTable(s)
    ensures var e := s.disk.log.EntryAt(s.lastApplied + 1); var a := ApplyLoop(s);
            if s.lastApplied >= s.commitIndex then a == Applied(s, [], true)
            else if e == None then
              if s.lastApplied + 1 <= s.disk.log.snapIndex then a == ApplyLoop(s.(lastApplied := s.disk.log.snapIndex))
              else a == Applied(s, [], false)
            else if e.value.command.Malformed? then a == Applied(s, [], false)
            else
              var d := ApplySet(s.disk, e.value.index, e.value.command.key, e.value.command.value);
              var rest := ApplyLoop(s.(lastApplied := e.value.index, disk := d));
              && e.value.index == s.lastApplied + 1
              && a == Applied(rest.state, [d] + rest.writes, rest.finished)
  {
  }

  predicate InRange(s: NodeState) {
    GoodTable(s) && s.disk.log.snapIndex <= s.lastApplied <= s.commitIndex <= s.disk.log.LastIndex()
  }

  /** The next pending entry is stored; applying it leaves the others pending. */
  lemma NextPending(s: NodeState)
    requires InRange(s) && Pending(s) != []
    ensures var e := Pending(s)[0];
            && s.disk.log.EntryAt(s.lastApplied + 1) == Some(e)
            && e.index == s.lastApplied + 1
            && (e.command.SetCommand? ==>
                  var d := ApplySet(s.disk, e.index, e.command.key, e.command.value);
                  var next := s.(lastApplied := e.index, disk := d);
                  && InRange(next) && Pending(s) == [e] + Pending(next) && next.disk.log == s.disk.log
                  && Values(d.kv) == ApplyCommand(Values(s.disk.kv), e.command))
  {
  }

  /**
   * The apply loop finishes if and only if every pending command decodes; then everything committed is applied, in
   * index order, one transaction each, and the key-value table is the replay of the pending entries on the old one.
   */
  lemma {:induction false} ApplyLoopReplays(s: NodeState)
    requires InRange(s)
    ensures var a := ApplyLoop(s);
            && (a.finished <==> Decodable(Pending(s)))
            && a.state.commitIndex == s.commitIndex && a.state.disk.log == s.disk.log
            && (a.finished ==>
                  && a.state.lastApplied == s.commitIndex && |a.writes| == |Pending(s)|
                  && Values(a.state.disk.kv) == ReplayOnto(Values(s.disk.kv), Pending(s)))
    decreases s.commitIndex - s.lastApplied
  {
    hide ApplyLoop, LogTable.EntryAt, Values;
    ApplyOneStep(s);
    var es := Pending(s);
    if es != [] {
      NextPending(s);
      var e := es[0];
      if e.command.SetCommand? {
        var next := s.(lastApplied := e.index, disk := ApplySet(s.disk, e.index, e.command.key, e.command.value));
        ApplyLoopReplays(next);
        ReplayConcat(Values(s.disk.kv), [e], Pending(next));
        ReplaySingle(Values(s.disk.kv), e);
        SplitDecodable(e, Pending(next));
      }
    }
  }

  lemma SplitDecodable(e: Entry, rest: seq<Entry>)
    ensures Decodable([e] + rest) <==> e.command.SetCommand? && Decodable(rest)
  {
    if Decodable([e] + rest) {
      assert ([e] + rest)[0] == e;
      forall i | 0 <= i < |rest|
        ensures rest[i].command.SetCommand?
      {
        assert ([e] + rest)[i + 1] == rest[i];
      }
    }
  }

  lemma ReplaySingle(kv: map<string, string>, e: Entry)
    ensures ReplayOnto(kv, [e]) == ApplyCommand(kv, e.command)
  {
    assert [e][..0] == [];
  }

  // ----- compaction -----

  /**
   * A snapshot is taken exactly when the threshold is set and reached. Afterwards fewer than `threshold` applied
   * entries are stored, and what was dropped is in the snapshot: its image is the key-value table.
   */
  lemma CompactionKeepsUp(cfg: Config, s: NodeState)
    requires s.disk.log.snapIndex <= s.lastApplied == s.disk.lastApplied <= s.disk.log.LastIndex()
    ensures var out := CompactIfNeeded(cfg, s); var d := out.state.disk;
            && (out.writes != [] <==> cfg.threshold > 0 && s.lastApplied - s.disk.log.snapIndex >= cfg.threshold)
            && out.state == s.(disk := d) && (out.writes == [] ==> out.state == s)
            && (out.writes != [] ==>
                  && out.writes == [d] && d.log.snapIndex == s.lastApplied
                  && Some(d.log.snapTerm) == s.disk.log.TermAt(s.lastApplied)
                  && LoadSnapshot(d) == Snapshot(s.lastApplied, d.log.snapTerm, Image(Values(s.disk.kv)))
                  && d.term == s.disk.term && d.vote == s.disk.vote)
            && d.lastApplied == s.lastApplied && d.kv == s.disk.kv && d.log.LastIndex() == s.disk.log.LastIndex()
            && (cfg.threshold > 0 ==> s.lastApplied - d.log.snapIndex < cfg.threshold)
  {
  }

  /** Fewer applied entries are stored than the threshold says, if one is set. */
  predicate Within(cfg: Config, s: NodeState) {
    cfg.threshold > 0 ==> s.lastApplied - s.disk.log.snapIndex < cfg.threshold
  }

  /**
   * Whenever committed entries are applied, whether or not there was a snapshot before: a snapshot is taken exactly if
   * the threshold is reached by then. It is at the new apply position, and its image is the table there.
   */
  lemma ApplyCompacts(cfg: Config, s: NodeState)
    requires InRange(s) && Decodable(Pending(s)) && s.lastApplied == s.disk.lastApplied
    ensures var m := ApplyCommitted(cfg, s).state; var snap := s.disk.log.snapIndex;
            && m.lastApplied == m.disk.lastApplied == m.commitIndex == s.commitIndex && Within(cfg, m)
            && m.disk.log.snapIndex ==
                 (if cfg.threshold > 0 && s.commitIndex - snap >= cfg.threshold then s.commitIndex else snap)
            && (m.disk.log.snapIndex > snap ==>
                  LoadSnapshot(m.disk) == Snapshot(s.commitIndex, m.disk.log.snapTerm, Image(Values(m.disk.kv))))
            && (m.disk.log.snapIndex == snap ==> m.disk.snapshot == s.disk.snapshot && m.disk.log == s.disk.log)
  {
    hide ApplyLoop, CompactIfNeeded, Values;
    ApplyLoopReplays(s);
    ApplyLoopDisk(s);
    CompactionKeepsUp(cfg, ApplyLoop(s).state);
  }

  /** A pending entry that does not decode stops the loop there; then no snapshot is taken. */
  lemma ApplyStops(cfg: Config, s: NodeState)
    requires InRange(s) && !Decodable(Pending(s))
    ensures var m := ApplyCommitted(cfg, s).state;
            m.lastApplied < s.commitIndex && m.disk.log == s.disk.log && m.disk.snapshot == s.disk.snapshot
  {
    hide ApplyLoop, CompactIfNeeded, Decodable;
    ApplyLoopReplays(s);
    ApplyLoopStops(s);
  }

  lemma {:induction false} ApplyLoopStops(s: NodeState)
    requires GoodTable(s) && s.disk.log.snapIndex <= s.lastApplied
    ensures var a := ApplyLoop(s); a.state.disk.snapshot == s.disk.snapshot
    ensures !ApplyLoop(s).finished ==> ApplyLoop(s).state.lastApplied < s.commitIndex
    decreases s.commitIndex - s.lastApplied
  {
    if s.lastApplied < s.commitIndex {
      match s.disk.log.EntryAt(s.lastApplied + 1)
      case None =>
      case Some(e) =>
        if e.command.SetCommand? {
          ApplyLoopStops(s.(lastApplied := e.index, disk := ApplySet(s.disk, e.index, e.command.key, e.command.value)));
        }
    }
  }

  lemma {:induction false} ApplyLoopDisk(s: NodeState)
    requires GoodTable(s) && s.lastApplied == s.disk.lastApplied && s.disk.log.snapIndex <= s.lastApplied
    ensures var m := ApplyLoop(s).state; m.lastApplied == m.disk.lastApplied && m.disk.snapshot == s.disk.snapshot
    decreases s.commitIndex - s.lastApplied
  {
    if s.lastApplied < s.commitIndex {
      match s.disk.log.EntryAt(s.lastApplied + 1)
      case None =>
      case Some(e) =>
        if e.command.SetCommand? {
          ApplyLoopDisk(s.(lastApplied := e.index, disk := ApplySet(s.disk, e.index, e.command.key, e.command.value)));
        }
    }
  }

  /** An apply position behind the snapshot is moved up to it first; nothing below the snapshot is applied again. */
  lemma ApplyStartsAtSnapshot(s: NodeState)
    requires GoodTable(s) && s.lastApplied < s.disk.log.snapIndex && s.lastApplied < s.commitIndex
    ensures ApplyLoop(s) == ApplyLoop(s.(lastApplied := s.disk.log.snapIndex))
  {
  }

  /** Delivering a snapshot again changes nothing. */
  lemma InstallTwice(s: NodeState, req: InstallRequest)
    ensures var once := InstallSnapshotCall(s, req); var twice := InstallSnapshotCall(once.state, req);
            once.reply.Some? ==> twice == Out(once.state, once.reply, [])
  {
  }

  /** A vote is on disk, for the candidate and the term it was asked for, before it is granted. */
  lemma GrantedIsPersisted(s: NodeState, req: VoteRequest)
    requires s.term == s.disk.term && s.votedFor == s.disk.vote
    ensures var out := RequestVote(s, req);
            && (out.reply.granted <==>
                  && req.term >= s.term && LogUpToDate(req, s.disk.log)
                  && (req.term > s.term || s.votedFor == None || s.votedFor == Some(req.candidate)))
            && (out.reply.granted ==>
                  && out.writes != [] && out.writes[|out.writes| - 1] == out.state.disk
                  && out.state.disk.vote == Some(req.candidate) && out.state.disk.term == req.term == out.reply.term)
            && out.state.term == out.state.disk.term == Max(s.term, req.term)
            && out.state.disk.log == s.disk.log
  {
  }
}
