/** What a node does in each region of code that it runs under its lock, as functions on its state. */
module NodeSpec {
  import opened RaftTypes
  import opened Logs
  import opened LogTables
  import opened Disks

  const BATCH_SIZE: nat := 128

  datatype Config = Config(id: NodeId, peers: seq<NodeId>, threshold: nat) {
    function Majority(): nat { (|peers| + 1) / 2 + 1 }
  }

  /** `tally` holds the voters counted so far in the current election, itself included. */
  datatype NodeState = NodeState(
    role: Role, term: nat, votedFor: Option<NodeId>, commitIndex: nat, lastApplied: nat,
    nextIndex: map<NodeId, nat>, matchIndex: map<NodeId, nat>, tally: set<NodeId>, disk: Disk)

  /** The state afterwards, the reply, and the disk after each transaction on the way. */
  datatype Out<R> = Out(state: NodeState, reply: R, writes: seq<Disk>)

  datatype Sending =
    | Nothing
    | Retry
    | SendAppend(append: AppendRequest, lastSent: nat)
    | SendInstall(install: InstallRequest)

  predicate GoodTable(s: NodeState) {
    s.disk.log.Valid()
  }

  // ----- restart, stepping down, elections -----

  function Restart(d: Disk): NodeState {
    NodeState(Follower, d.term, d.vote, d.lastApplied, d.lastApplied, map[], map[], {}, d)
  }

  function StepDown(s: NodeState, t: nat): Out<()> {
    if t > s.term then
      var d := SaveTermVote(s.disk, t, None);
      Out(s.(role := Follower, term := t, votedFor := None, disk := d), (), [d])
    else
      Out(s.(role := Follower), (), [])
  }

  function StartElection(cfg: Config, s: NodeState): Out<Option<VoteRequest>> {
    if s.role == Leader then Out(s, None, [])
    else
      var d := SaveTermVote(s.disk, s.term + 1, Some(cfg.id));
      Out(s.(role := Candidate, term := s.term + 1, votedFor := Some(cfg.id), tally := {cfg.id}, disk := d),
          Some(VoteRequest(s.term + 1, cfg.id, d.log.LastIndex(), d.log.LastTerm())), [d])
  }

  predicate LogUpToDate(req: VoteRequest, log: LogTable) {
    req.lastTerm > log.LastTerm() || (req.lastTerm == log.LastTerm() && req.lastIndex >= log.LastIndex())
  }

  function RequestVote(s: NodeState, req: VoteRequest): Out<VoteResponse> {
    if req.term < s.term then Out(s, VoteResponse(s.term, false), [])
    else
      var down := if req.term > s.term then StepDown(s, req.term) else Out(s, (), []);
      var s1 := down.state;
      var canVote := s1.votedFor == None || s1.votedFor == Some(req.candidate);
      if canVote && LogUpToDate(req, s1.disk.log) then
        var d := SaveTermVote(s1.disk, s1.term, Some(req.candidate));
        Out(s1.(votedFor := Some(req.candidate), disk := d), VoteResponse(s1.term, true), down.writes + [d])
      else
        Out(s1, VoteResponse(s1.term, false), down.writes)
  }

  function BecomeLeader(cfg: Config, s: NodeState): NodeState {
    var last := s.disk.log.LastIndex();
    s.(role := Leader, votedFor := Some(cfg.id),
       nextIndex := SetAll(s.nextIndex, cfg.peers, last + 1),
       matchIndex := SetAll(s.matchIndex, cfg.peers, 0)[cfg.id := last])
  }

  /** The reply to a vote request that this node sent for the term reqTerm. */
  function VoteReply(cfg: Config, s: NodeState, src: NodeId, reqTerm: nat, resp: VoteResponse): Out<()> {
    if resp.term > s.term then StepDown(s, resp.term)
    else if s.role != Candidate || s.term != reqTerm || !resp.granted then Out(s, (), [])
    else
      var s1 := s.(tally := s.tally + {src});
      Out(if |s1.tally| >= cfg.Majority() then BecomeLeader(cfg, s1) else s1, (), [])
  }

  /** Without peers the candidate's own vote is a majority. */
  function ElectAlone(cfg: Config, s: NodeState, reqTerm: nat): Out<()> {
    Out(if cfg.Majority() == 1 && s.role == Candidate && s.term == reqTerm then BecomeLeader(cfg, s) else s, (), [])
  }

  // ----- applying and compacting -----

  datatype Applied = Applied(state: NodeState, writes: seq<Disk>, finished: bool)

  /** Apply committed entries one transaction at a time; stop at an undecodable or missing one. */
  function ApplyLoop(s: NodeState): Applied
    requires GoodTable(s)
    decreases s.commitIndex - s.lastApplied
  {
    if s.lastApplied >= s.commitIndex then Applied(s, [], true)
    else
      match s.disk.log.EntryAt(s.lastApplied + 1)
      case None =>
        if s.lastApplied + 1 <= s.disk.log.snapIndex then ApplyLoop(s.(lastApplied := s.disk.log.snapIndex))
        else Applied(s, [], false)
      case Some(e) =>
        if e.command.Malformed? then Applied(s, [], false)
        else
          var d := ApplySet(s.disk, e.index, e.command.key, e.command.value);
          var rest := ApplyLoop(s.(lastApplied := e.index, disk := d));
          Applied(rest.state, [d] + rest.writes, rest.finished)
  }

  function CompactIfNeeded(cfg: Config, s: NodeState): Out<()> {
    var snap := s.disk.log.snapIndex;
    if cfg.threshold == 0 || s.lastApplied == 0 then Out(s, (), [])
    else if s.lastApplied <= snap || s.lastApplied - snap < cfg.threshold then Out(s, (), [])
    else
      match s.disk.log.TermAt(s.lastApplied)
      case None => Out(s, (), [])
      case Some(t) =>
        var d := CreateSnapshot(s.disk, s.lastApplied, t);
        Out(s.(disk := d), (), [d])
  }

  function ApplyCommitted(cfg: Config, s: NodeState): Out<()>
    requires GoodTable(s)
  {
    var a := ApplyLoop(s);
    if a.finished then
      var c := CompactIfNeeded(cfg, a.state);
      Out(c.state, (), a.writes + c.writes)
    else
      Out(a.state, (), a.writes)
  }

  lemma {:induction false} ApplyLoopKeeps(s: NodeState)
    requires GoodTable(s)
    ensures var a := ApplyLoop(s).state;
            && a.role == s.role && a.term == s.term && a.votedFor == s.votedFor && a.tally == s.tally
            && a.commitIndex == s.commitIndex && a.nextIndex == s.nextIndex && a.matchIndex == s.matchIndex
            && a.disk.log == s.disk.log
    decreases s.commitIndex - s.lastApplied
  {
    if s.lastApplied < s.commitIndex {
      match s.disk.log.EntryAt(s.lastApplied + 1)
      case None =>
        if s.lastApplied + 1 <= s.disk.log.snapIndex { ApplyLoopKeeps(s.(lastApplied := s.disk.log.snapIndex)); }
      case Some(e) =>
        if e.command.SetCommand? {
          ApplyLoopKeeps(s.(lastApplied := e.index, disk := ApplySet(s.disk, e.index, e.command.key, e.command.value)));
        }
    }
  }

  /** Applying and compacting touch the apply position and the disk, nothing else that is looked at here. */
  lemma ApplyKeeps(cfg: Config, s: NodeState)
    requires GoodTable(s)
    ensures var m := ApplyCommitted(cfg, s).state;
            && m.role == s.role && m.term == s.term && m.votedFor == s.votedFor && m.tally == s.tally
            && m.commitIndex == s.commitIndex && m.nextIndex == s.nextIndex && m.matchIndex == s.matchIndex
            && m.disk.log.LastIndex() == s.disk.log.LastIndex()
            && (cfg.threshold == 0 ==> m.disk.log == s.disk.log)
  {
    ApplyLoopKeeps(s);
  }

  // ----- replication: the leader's side -----

  function CountMatches(peers: seq<NodeId>, matched: map<NodeId, nat>, i: nat): nat {
    if peers == [] then 0
    else CountMatches(peers[..|peers| - 1], matched, i)
         + (if Get(matched, peers[|peers| - 1]) >= i then 1 else 0)
  }

  /** An index the leader may commit: an entry of its own term that a majority holds, counting itself. */
  predicate Committable(cfg: Config, s: NodeState, i: nat) {
    s.disk.log.TermAt(i) == Some(s.term) && 1 + CountMatches(cfg.peers, s.matchIndex, i) >= cfg.Majority()
  }

  /** The greatest committable index in (lo, hi], or lo. */
  function HighestCommittable(cfg: Config, s: NodeState, lo: nat, hi: nat): (c: nat)
    ensures c == lo || (lo < c <= hi && Committable(cfg, s, c))
    ensures forall i :: Max(lo, c) < i <= hi ==> !Committable(cfg, s, i)
    decreases hi
  {
    if hi <= lo then lo
    else if Committable(cfg, s, hi) then hi
    else HighestCommittable(cfg, s, lo, hi - 1)
  }

  function AdvanceCommit(cfg: Config, s: NodeState): Out<()>
    requires GoodTable(s)
  {
    ApplyCommitted(cfg, s.(commitIndex := HighestCommittable(cfg, s, s.commitIndex, s.disk.log.LastIndex())))
  }

  /** One attempt of the replication loop, up to the point where the lock is released around the call. */
  function Replicate(cfg: Config, s: NodeState, peer: NodeId): Out<Sending>
    requires GoodTable(s)
  {
    if s.role != Leader then Out(s, Nothing, [])
    else
      var log := s.disk.log;
      var next := if Get(s.nextIndex, peer) == 0 then 1 else Get(s.nextIndex, peer);
      var s1 := if Get(s.nextIndex, peer) == 0 then s.(nextIndex := s.nextIndex[peer := 1]) else s;
      if next <= log.snapIndex then
        var snap := LoadSnapshot(s.disk);
        Out(s1, SendInstall(InstallRequest(s.term, cfg.id, snap.lastIndex, snap.lastTerm, snap.data)), [])
      else
        var prev := next - 1;
        var found := log.TermAt(prev);
        var prevTerm := if found == None && prev <= log.snapIndex then Some(log.snapTerm) else found;
        match prevTerm
        case None => Out(s1.(nextIndex := s1.nextIndex[peer := Max(1, next - 1)]), Retry, [])
        case Some(t) =>
          var entries := log.EntriesFrom(next, BATCH_SIZE);
          var lastSent := if entries == [] then prev else entries[|entries| - 1].index;
          Out(s1, SendAppend(AppendRequest(s.term, cfg.id, prev, t, entries, s.commitIndex), lastSent), [])
  }

  function AppendReply(
      cfg: Config, s: NodeState, peer: NodeId, reqTerm: nat, lastSent: nat, resp: AppendResponse): Out<()>
    requires GoodTable(s)
  {
    if resp.term > s.term then StepDown(s, resp.term)
    else if s.role != Leader || s.term != reqTerm then Out(s, (), [])
    else if resp.success then
      var m := Max(Get(s.matchIndex, peer), Max(resp.matchIndex, lastSent));
      var matched := if m > Get(s.matchIndex, peer) then s.matchIndex[peer := m] else s.matchIndex;
      AdvanceCommit(cfg, s.(matchIndex := matched, nextIndex := s.nextIndex[peer := m + 1]))
    else if Get(s.nextIndex, peer) > 1 then
      Out(s.(nextIndex := s.nextIndex[peer := Get(s.nextIndex, peer) - 1]), (), [])
    else Out(s, (), [])
  }

  function Recorded(s: NodeState, peer: NodeId, k: nat): NodeState {
    s.(matchIndex := s.matchIndex[peer := k], nextIndex := s.nextIndex[peer := k + 1])
  }

  /** The reply to a snapshot; unlike AppendReply it looks neither at the role nor at the term of the call. */
  function InstallReply(cfg: Config, s: NodeState, peer: NodeId, lastIncluded: nat, resp: InstallResponse): Out<()>
    requires GoodTable(s)
  {
    if resp.term > s.term then StepDown(s, resp.term)
    else AdvanceCommit(cfg, Recorded(s, peer, lastIncluded))
  }

  /** The first part of a client write; the reply is the entry that the caller then waits for. */
  function WriteAppend(cfg: Config, s: NodeState, key: string, value: string): Out<Option<Entry>>
    requires GoodTable(s)
  {
    if key == "" || s.role != Leader then Out(s, None, [])
    else
      var e := Entry(s.disk.log.LastIndex() + 1, s.term, SetCommand(key, value));
      var d := s.disk.(log := s.disk.log.Upsert([e]));
      var s1 := s.(disk := d, matchIndex := s.matchIndex[cfg.id := e.index]);
      if cfg.Majority() == 1 then
        var a := AdvanceCommit(cfg, s1);
        Out(a.state, Some(e), [d] + a.writes)
      else Out(s1, Some(e), [d])
  }

  /** When the waiting client is told that its write is committed. */
  predicate WriteSucceeds(s: NodeState, e: Entry) {
    s.role == Leader && s.term == e.term && s.commitIndex >= e.index
  }

  // ----- replication: the follower's side -----

  /** The disks that merging the carried entries goes through. */
  function MergeWrites(d: Disk, entries: seq<Entry>): seq<Disk>
    requires Mergeable(d.log, entries)
  {
    var i := d.log.FirstDifference(entries);
    if i == |entries| then []
    else
      (if d.log.TermAt(entries[i].index) == None then [] else [d.(log := d.log.CutFor(entries))])
      + [d.(log := d.log.Merge(entries))]
  }

  function FollowerCommit(s: NodeState, leaderCommit: nat): nat {
    if leaderCommit > s.commitIndex then Min(leaderCommit, s.disk.log.LastIndex()) else s.commitIndex
  }

  /** A request of the current term, checked against the log, merged into it, and followed in its commit index. */
  function FollowEntries(cfg: Config, s: NodeState, req: AppendRequest): Out<AppendResponse>
    requires GoodTable(s) && Contiguous(req.prevIndex, req.entries)
  {
    var log := s.disk.log;
    if req.prevIndex < log.snapIndex then Out(s, AppendResponse(s.term, false, log.snapIndex), [])
    else if log.TermAt(req.prevIndex) != Some(req.prevTerm) then
      Out(s, AppendResponse(s.term, false, log.LastIndex()), [])
    else
      var merges := MergeWrites(s.disk, req.entries);
      var s1 := s.(disk := s.disk.(log := log.Merge(req.entries)));
      var resp := AppendResponse(s.term, true, req.prevIndex + |req.entries|);
      if req.leaderCommit > s1.commitIndex then
        MergeValid(log, req.entries);
        var a := ApplyCommitted(cfg, s1.(commitIndex := FollowerCommit(s1, req.leaderCommit)));
        Out(a.state, resp, merges + a.writes)
      else
        Out(s1, resp, merges)
  }

  function AppendEntries(cfg: Config, s: NodeState, req: AppendRequest): Out<AppendResponse>
    requires GoodTable(s) && Contiguous(req.prevIndex, req.entries)
  {
    if req.term < s.term then Out(s, AppendResponse(s.term, false, s.disk.log.LastIndex()), [])
    else
      var down := if req.term > s.term || s.role != Follower then StepDown(s, req.term) else Out(s, (), []);
      var rest := FollowEntries(cfg, down.state, req);
      Out(rest.state, rest.reply, down.writes + rest.writes)
  }

  /** A snapshot of the current term: ignored when not newer than the node's own, installed otherwise. */
  function FollowSnapshot(s: NodeState, req: InstallRequest): Out<Option<InstallResponse>> {
    if req.lastIndex <= s.disk.log.snapIndex then Out(s, Some(InstallResponse(s.term)), [])
    else
      match InstallSnapshot(s.disk, Snapshot(req.lastIndex, req.lastTerm, req.data))
      case None => Out(s, None, [])
      case Some(d) =>
        Out(s.(disk := d, commitIndex := Max(s.commitIndex, req.lastIndex),
               lastApplied := Max(s.lastApplied, req.lastIndex)),
            Some(InstallResponse(s.term)), [d])
  }

  /** Undecodable data is an error: the call gets no response. */
  function InstallSnapshotCall(s: NodeState, req: InstallRequest): Out<Option<InstallResponse>> {
    if req.term < s.term then Out(s, Some(InstallResponse(s.term)), [])
    else
      var down := if req.term > s.term || s.role != Follower then StepDown(s, req.term) else Out(s, (), []);
      var rest := FollowSnapshot(down.state, req);
      Out(rest.state, rest.reply, down.writes + rest.writes)
  }
}
