/**
 * The cluster: nodes, a network that may lose, repeat and reorder messages, and crashes.
 *
 * A message once sent may be delivered any number of times, at any later moment, or never. An operation runs one
 * locked region of one node to its end, or the node crashes after any number of the transactions of that region
 * and restarts from its disk. The complete logs and the protocol history are bookkeeping that no node reads.
 */
module Clusters {
  import opened RaftTypes
  import opened Logs
  import opened LogTables
  import opened Disks
  import opened NodeSpec
  import opened Protocol
  import opened ProtocolActions
  import opened ProtocolElections

  datatype Setup = Setup(configs: map<NodeId, Config>)

  /** Every node's peer list is exactly the other nodes, each once. */
  predicate ValidSetup(c: Setup) {
    forall n :: n in c.configs ==> ValidConfig(c.configs.Keys, n, c.configs[n])
  }

  predicate ValidConfig(ids: set<NodeId>, n: NodeId, cfg: Config) {
    n in ids && cfg.id == n && multiset(cfg.peers) == multiset(ids - {n})
  }

  /** `full` is each node's log as if nothing had ever been compacted. */
  datatype Cluster = Cluster(
    nodes: map<NodeId, NodeState>, full: map<NodeId, seq<Entry>>, msgs: set<Message>, h: History)

  datatype Op =
    | Timeout(n: NodeId)
    | Alone(n: NodeId, reqTerm: nat)
    | ReplicateTo(n: NodeId, peer: NodeId)
    | ClientWrite(n: NodeId, key: string, value: string)
    | Deliver(m: Message)

  datatype Event = Run(op: Op) | CrashIn(op: Op, done: nat)

  function NodeOf(op: Op): NodeId {
    match op
    case Timeout(n) => n
    case Alone(n, _) => n
    case ReplicateTo(n, _) => n
    case ClientWrite(n, _, _) => n
    case Deliver(m) => m.dst
  }

  // ----- the guards under which the protocol of the source is safe -----

  /** The request gets past the term, snapshot and previous-entry checks. */
  predicate Accepts(s: NodeState, req: AppendRequest) {
    && req.term >= s.term
    && req.prevIndex >= s.disk.log.snapIndex
    && s.disk.log.TermAt(req.prevIndex) == Some(req.prevTerm)
  }

  /**
   * The sender has everything that the follower stores: the follower's last row is of the request's term, or it is of
   * the term before and the follower voted for the sender.
   */
  predicate SenderHasLog(s: NodeState, req: AppendRequest) {
    || s.disk.log.LastTerm() == req.term
    || (s.term == req.term && s.votedFor == Some(req.leader) && s.disk.log.LastTerm() + 1 == req.term)
  }

  /** The follower's commit index will stay within what this request vouches for, or within what the sender has. */
  predicate CommitGuard(s: NodeState, req: AppendRequest)
    requires Mergeable(s.disk.log, req.entries)
  {
    || req.leaderCommit <= Max(s.commitIndex, req.prevIndex + |req.entries|)
    || s.disk.log.Merge(req.entries).LastIndex() <= Max(s.commitIndex, req.prevIndex + |req.entries|)
    || SenderHasLog(s, req)
  }

  /** A cluster of one or two nodes needs no such guard. */
  predicate AppendGuard(cfg: Config, s: NodeState, req: AppendRequest) {
    && Contiguous(req.prevIndex, req.entries)
    && (Accepts(s, req) ==> Mergeable(s.disk.log, req.entries) && (|cfg.peers| <= 1 || CommitGuard(s, req)))
  }

  /** A snapshot that would be installed covers what is applied, and replaces the log or agrees with it. */
  predicate InstallGuard(s: NodeState, req: InstallRequest) {
    req.term >= s.term && req.lastIndex > s.disk.log.snapIndex ==>
      && req.lastIndex >= s.lastApplied
      && (s.disk.log.LastIndex() <= req.lastIndex || s.disk.log.TermAt(req.lastIndex) == Some(req.lastTerm))
  }

  /** Nothing above the commit index has a counted majority. */
  predicate NothingCounted(cfg: Config, s: NodeState) {
    forall i :: s.commitIndex < i <= s.disk.log.LastIndex() ==> !Committable(cfg, s, i)
  }

  /**
   * The reply to a snapshot reaches a leader, of whatever term, or a node whose match indices count nothing; in a
   * cluster of up to three it may reach any node.
   */
  predicate InstallReplyGuard(cfg: Config, s: NodeState, peer: NodeId, k: nat, resp: InstallResponse) {
    resp.term <= s.term ==> s.role == Leader || cfg.Majority() <= 2 || NothingCounted(cfg, Recorded(s, peer, k))
  }

  predicate Enabled(c: Setup, s: Cluster, op: Op) {
    && NodeOf(op) in c.configs && NodeOf(op) in s.nodes && NodeOf(op) in s.full
    && GoodTable(s.nodes[NodeOf(op)])
    && match op
       case ReplicateTo(n, peer) => peer in c.configs[n].peers
       case Deliver(m) =>
         m in s.msgs
         && (match m
             case AppendCall(_, dst, req) => AppendGuard(c.configs[dst], s.nodes[dst], req)
             case InstallCall(_, dst, req) => InstallGuard(s.nodes[dst], req)
             case InstallAnswer(src, dst, _, k, resp) => InstallReplyGuard(c.configs[dst], s.nodes[dst], src, k, resp)
             case _ => true)
       case _ => true
  }

  // ----- one operation -----

  /** The node afterwards, the messages it sends, and the disk after each of its transactions. */
  datatype Result = Result(state: NodeState, sends: set<Message>, writes: seq<Disk>)

  function Perform(c: Setup, s: Cluster, op: Op): Result
    requires Enabled(c, s, op)
  {
    var n := NodeOf(op);
    var cfg := c.configs[n];
    var ns := s.nodes[n];
    match op
    case Timeout(_) =>
      var out := StartElection(cfg, ns);
      Result(out.state,
             if out.reply.Some? then set p | p in cfg.peers :: VoteCall(n, p, out.reply.value) else {}, out.writes)
    case Alone(_, reqTerm) =>
      var out := ElectAlone(cfg, ns, reqTerm);
      Result(out.state, {}, out.writes)
    case ReplicateTo(_, peer) =>
      var out := Replicate(cfg, ns, peer);
      Result(out.state,
             match out.reply
             case SendAppend(req, _) => {AppendCall(n, peer, req)}
             case SendInstall(req) => {InstallCall(n, peer, req)}
             case _ => {},
             out.writes)
    case ClientWrite(_, key, value) =>
      var out := WriteAppend(cfg, ns, key, value);
      Result(out.state, {}, out.writes)
    case Deliver(m) => Receive(cfg, ns, m)
  }

  function LastSent(req: AppendRequest): nat {
    if req.entries == [] then req.prevIndex else req.entries[|req.entries| - 1].index
  }

  function Receive(cfg: Config, ns: NodeState, m: Message): Result
    requires GoodTable(ns)
    requires m.AppendCall? ==> Contiguous(m.append.prevIndex, m.append.entries)
  {
    match m
    case VoteCall(src, dst, req) =>
      var out := RequestVote(ns, req);
      Result(out.state, {VoteAnswer(dst, src, req.term, out.reply)}, out.writes)
    case VoteAnswer(src, _, reqTerm, resp) =>
      var out := VoteReply(cfg, ns, src, reqTerm, resp);
      Result(out.state, {}, out.writes)
    case AppendCall(src, dst, req) =>
      var out := AppendEntries(cfg, ns, req);
      Result(out.state, {AppendAnswer(dst, src, req.term, LastSent(req), out.reply)}, out.writes)
    case AppendAnswer(src, _, reqTerm, lastSent, resp) =>
      var out := AppendReply(cfg, ns, src, reqTerm, lastSent, resp);
      Result(out.state, {}, out.writes)
    case InstallCall(src, dst, req) =>
      var out := InstallSnapshotCall(ns, req);
      Result(out.state,
             if out.reply.Some? then {InstallAnswer(dst, src, req.term, req.lastIndex, out.reply.value)} else {},
             out.writes)
    case InstallAnswer(src, _, _, lastIncluded, resp) =>
      var out := InstallReply(cfg, ns, src, lastIncluded, resp);
      Result(out.state, {}, out.writes)
  }

  // ----- bookkeeping -----

  function DiskAfter(d: Disk, writes: seq<Disk>, done: nat): Disk
    requires done <= |writes|
  {
    if done == 0 then d else writes[done - 1]
  }

  /**
   * The complete log after one transaction: the rows, on top of what was below the snapshot already. A snapshot
   * that does not belong to this log came from the leader of the disk's term, and stands for its log.
   */
  function Uncompact(reigns: map<nat, Reign>, full: seq<Entry>, d: Disk): seq<Entry> {
    var k := d.log.snapIndex;
    if k <= |full| && TermOf(full, k) == d.log.snapTerm then full[..k] + d.log.rows
    else if d.term in reigns && k <= |reigns[d.term].log| then reigns[d.term].log[..k] + d.log.rows
    else d.log.rows
  }

  function FullAfter(reigns: map<nat, Reign>, full: seq<Entry>, writes: seq<Disk>): seq<Entry> {
    if writes == [] then full
    else Uncompact(reigns, FullAfter(reigns, full, writes[..|writes| - 1]), writes[|writes| - 1])
  }

  function AbsNode(ns: NodeState, full: seq<Entry>): Replica {
    Replica(ns.role, ns.term, ns.votedFor, full, ns.commitIndex, ns.disk.lastApplied, ns.matchIndex, ns.tally)
  }

  function Abs(s: Cluster): Proto {
    Proto(map n | n in s.nodes && n in s.full :: AbsNode(s.nodes[n], s.full[n]), s.msgs, s.h)
  }

  /** The history that a cast vote or an appended entry leaves, once `done` transactions are on disk. */
  function HistoryAfter(c: Setup, s: Cluster, op: Op, done: nat): History
    requires Enabled(c, s, op)
  {
    var n := NodeOf(op);
    var ns := s.nodes[n];
    var full := s.full[n];
    match op
    case Timeout(_) =>
      if done == 0 then s.h
      else Cast(s.h, ns.term + 1, n, VoteRecord(n, full, |full|, TermOf(full, |full|)))
    case ClientWrite(_, key, value) =>
      var e := WriteAppend(c.configs[n], ns, key, value).reply;
      if done == 0 || e == None || ns.term !in s.h.reigns then s.h
      else
        var log := full + [e.value];
        s.h.(reigns := s.h.reigns[ns.term := s.h.reigns[ns.term].(log := log)],
             acks := s.h.acks[Ballot(ns.term, n) := |log|])
    case Deliver(VoteCall(_, _, req)) =>
      var out := RequestVote(ns, req);
      if out.reply.granted && done == |out.writes| && !(ns.term == req.term && ns.votedFor == Some(req.candidate))
      then Cast(s.h, req.term, n, VoteRecord(req.candidate, full, req.lastIndex, req.lastTerm))
      else s.h
    case _ => s.h
  }

  /** What only a finished operation adds: a confirmation, or an elected leader. */
  function HistoryDone(c: Setup, s: Cluster, op: Op): History
    requires Enabled(c, s, op)
  {
    var n := NodeOf(op);
    var r := Perform(c, s, op);
    var h := HistoryAfter(c, s, op, |r.writes|);
    match op
    case Deliver(AppendCall(_, _, req)) =>
      if Accepts(s.nodes[n], req) then Confirm(h, req.term, n, req.prevIndex + |req.entries|) else h
    case Deliver(InstallCall(_, _, req)) =>
      if req.term >= s.nodes[n].term && InstallSnapshotCall(s.nodes[n], req).reply.Some?
      then Confirm(h, req.term, n, req.lastIndex) else h
    case Alone(_, _) => Crown(h, n, s.nodes[n], r.state, s.full[n])
    case Deliver(VoteAnswer(_, _, _, _)) => Crown(h, n, s.nodes[n], r.state, s.full[n])
    case _ => h
  }

  /** A node that was no leader before and is one now starts its reign with the log it has. */
  function Crown(h: History, n: NodeId, before: NodeState, after: NodeState, full: seq<Entry>): History {
    if after.role == Leader && before.role != Leader then
      h.(reigns := h.reigns[after.term := Reign(n, after.tally, |full|, full)],
         acks := h.acks[Ballot(after.term, n) := |full|])
    else h
  }

  // ----- steps and runs -----

  predicate CanHappen(c: Setup, s: Cluster, e: Event) {
    && Enabled(c, s, e.op)
    && (e.CrashIn? ==> e.done <= |Perform(c, s, e.op).writes|)
  }

  function Next(c: Setup, s: Cluster, e: Event): Cluster
    requires CanHappen(c, s, e)
  {
    var n := NodeOf(e.op);
    var r := Perform(c, s, e.op);
    match e
    case Run(op) =>
      Cluster(s.nodes[n := r.state], s.full[n := FullAfter(s.h.reigns, s.full[n], r.writes)],
              s.msgs + r.sends, HistoryDone(c, s, op))
    case CrashIn(op, done) =>
      Cluster(s.nodes[n := Restart(DiskAfter(s.nodes[n].disk, r.writes, done))],
              s.full[n := FullAfter(s.h.reigns, s.full[n], r.writes[..done])],
              s.msgs, HistoryAfter(c, s, op, done))
  }

  function Initial(c: Setup): Cluster {
    Cluster(map n | n in c.configs :: Restart(NewDisk()), map n | n in c.configs :: [], {},
            History(map[], map[], map[]))
  }

  /** A run from the empty cluster: every state follows from the one before by an event that can happen there. */
  predicate IsRun(c: Setup, states: seq<Cluster>, events: seq<Event>) {
    && |states| == |events| + 1
    && states[0] == Initial(c)
    && forall i :: 0 <= i < |events| ==>
         CanHappen(c, states[i], events[i]) && states[i + 1] == Next(c, states[i], events[i])
  }
}
