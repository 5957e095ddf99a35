/**
 * Terms on the network. Whoever hears of a later term follows it, every reply carries the term of the node that gives
 * it, and so a leader that is left behind learns that it is.
 */
module Answers {
  import opened RaftTypes
  import opened Logs
  import opened LogTables
  import opened Disks
  import opened NodeSpec
  import opened Protocol
  import opened ProtocolActions
  import opened Clusters
  import opened NodeRuns
  import opened LeaderRuns
  import opened ClusterSafety
  import opened RaftSafety
  import opened RaftDurability
  import opened Compacting

  /** The term that a request is sent in, or that a response reports. */
  function TermIn(m: Message): nat {
    match m
    case VoteCall(_, _, req) => req.term
    case VoteAnswer(_, _, _, resp) => resp.term
    case AppendCall(_, _, req) => req.term
    case AppendAnswer(_, _, _, _, resp) => resp.term
    case InstallCall(_, _, req) => req.term
    case InstallAnswer(_, _, _, _, resp) => resp.term
  }

  predicate IsRequest(m: Message) {
    m.VoteCall? || m.AppendCall? || m.InstallCall?
  }

  /** The vote of a node that has just heard of a later term: none, or for the candidate that asks if it may have it. */
  function VoteAfter(ns: NodeState, m: Message): Option<NodeId> {
    if m.VoteCall? && LogUpToDate(m.vote, ns.disk.log) then Some(m.vote.candidate) else None
  }

  // ----- what each handler does about terms -----

  /** A node hears of term t: it is in that term afterwards, or in a later one, and drops a role in an earlier one. */
  predicate Heeds(ns: NodeState, m: NodeState, t: nat, vote: Option<NodeId>) {
    && m.term == Max(ns.term, t)
    && (t > ns.term ==> m.role == Follower && m.votedFor == vote)
  }

  lemma VoteCallHeeds(ns: NodeState, req: VoteRequest)
    ensures var out := RequestVote(ns, req);
            && Heeds(ns, out.state, req.term, if LogUpToDate(req, ns.disk.log) then Some(req.candidate) else None)
            && out.reply.term == out.state.term
  {
  }

  lemma VoteAnswerHeeds(cfg: Config, ns: NodeState, src: NodeId, t: nat, resp: VoteResponse)
    ensures Heeds(ns, VoteReply(cfg, ns, src, t, resp).state, resp.term, None)
  {
  }

  lemma AppendAnswerHeeds(cfg: Config, ns: NodeState, src: NodeId, t: nat, lastSent: nat, resp: AppendResponse)
    requires GoodTable(ns)
    ensures Heeds(ns, AppendReply(cfg, ns, src, t, lastSent, resp).state, resp.term, None)
  {
    hide AdvanceCommit;
    var k := Max(Get(ns.matchIndex, src), Max(resp.matchIndex, lastSent));
    var matched := if k > Get(ns.matchIndex, src) then ns.matchIndex[src := k] else ns.matchIndex;
    AdvanceMatch(cfg, ns.(matchIndex := matched, nextIndex := ns.nextIndex[src := k + 1]));
  }

  lemma InstallAnswerHeeds(cfg: Config, ns: NodeState, src: NodeId, k: nat, resp: InstallResponse)
    requires GoodTable(ns)
    ensures Heeds(ns, InstallReply(cfg, ns, src, k, resp).state, resp.term, None)
  {
    hide AdvanceCommit;
    AdvanceMatch(cfg, Recorded(ns, src, k));
  }

  /** A request of the leader of a term: the node follows it unless it is in a later term, and then nothing happens. */
  lemma AppendCallHeeds(cfg: Config, ns: NodeState, req: AppendRequest)
    requires GoodTable(ns) && Contiguous(req.prevIndex, req.entries)
    ensures var out := AppendEntries(cfg, ns, req);
            && Heeds(ns, out.state, req.term, None) && out.reply.term == out.state.term
            && (req.term >= ns.term ==> out.state.role == Follower)
            && (req.term < ns.term ==>
                  out == Out(ns, AppendResponse(ns.term, false, ns.disk.log.LastIndex()), []))
  {
    hide ApplyCommitted, MergeWrites, LogTable.Merge;
    if req.term >= ns.term {
      var s1 := (if req.term > ns.term || ns.role != Follower then StepDown(ns, req.term) else Out(ns, (), [])).state;
      if Accepts(s1, req) {
        MergeValid(s1.disk.log, req.entries);
        var s2 := s1.(disk := s1.disk.(log := s1.disk.log.Merge(req.entries)));
        ApplyKeeps(cfg, s2.(commitIndex := FollowerCommit(s2, req.leaderCommit)));
      }
    }
  }

  /** The same for a snapshot. Data that does not decode gets no reply, and nothing but the term is changed. */
  lemma InstallCallHeeds(ns: NodeState, req: InstallRequest)
    ensures var out := InstallSnapshotCall(ns, req);
            && Heeds(ns, out.state, req.term, None)
            && (out.reply.Some? ==> out.reply.value.term == out.state.term)
            && (req.term >= ns.term ==> out.state.role == Follower)
            && (req.term < ns.term ==> out.state == ns && out.writes == [] && out.reply.Some?)
            && (out.reply == None <==>
                  req.term >= ns.term && req.lastIndex > ns.disk.log.snapIndex && req.data.Corrupt?)
            && (out.reply == None ==>
                  out.state.disk == (if req.term > ns.term then SaveTermVote(ns.disk, req.term, None) else ns.disk))
  {
  }

  /**
   * A follower that accepts a request reports a match through the last carried entry, and knows all that the leader has
   * committed, as far as it stores it: its commit index is the leader's, cut at its own last index, and never lower
   * than before.
   */
  lemma FollowsCommitIndex(cfg: Config, ns: NodeState, req: AppendRequest)
    requires GoodTable(ns) && Contiguous(req.prevIndex, req.entries) && Accepts(ns, req)
    requires Mergeable(ns.disk.log, req.entries) && ns.commitIndex <= ns.disk.log.Merge(req.entries).LastIndex()
    ensures var out := AppendEntries(cfg, ns, req); var last := out.state.disk.log.LastIndex();
            && out.reply == AppendResponse(req.term, true, req.prevIndex + |req.entries|)
            && last == ns.disk.log.Merge(req.entries).LastIndex()
            && out.state.commitIndex == Max(ns.commitIndex, Min(req.leaderCommit, last))
  {
    hide ApplyCommitted, MergeWrites, LogTable.Merge;
    MergeValid(ns.disk.log, req.entries);
    var s1 := (if req.term > ns.term || ns.role != Follower then StepDown(ns, req.term) else Out(ns, (), [])).state;
    var s2 := s1.(disk := s1.disk.(log := s1.disk.log.Merge(req.entries)));
    ApplyKeeps(cfg, s2.(commitIndex := FollowerCommit(s2, req.leaderCommit)));
  }

  // ----- over the network -----

  /**
   * Whatever message arrives, its receiver is in the message's term afterwards, or in a later one that it was in
   * before. A receiver that was behind is a follower then, has no vote but the one that it gives with this message, and
   * has all this on disk. A leader's request leaves no candidate or leader behind in its term.
   */
  lemma LaterTermIsFollowed(c: Setup, states: seq<Cluster>, events: seq<Event>, i: nat, m: Message)
    requires ValidSetup(c) && IsRun(c, states, events) && i < |events| && events[i] == Run(Deliver(m))
    ensures |states| == |events| + 1 && m.dst in states[i].nodes && m.dst in states[i + 1].nodes
    ensures var ns := states[i].nodes[m.dst]; var after := states[i + 1].nodes[m.dst]; var t := TermIn(m);
            && after.term == after.disk.term == Max(ns.term, t)
            && (t > ns.term ==> after.role == Follower && after.votedFor == after.disk.vote == VoteAfter(ns, m))
            && (t >= ns.term && (m.AppendCall? || m.InstallCall?) ==> after.role == Follower)
  {
    hide IsRun, ValidSetup, ClusterInv, Perform, Next, LogUpToDate;
    RunStep(c, states, events, i);
    RunInv(c, states, events, i);
    RunInv(c, states, events, i + 1);
    DeliveredTo(c, states[i], m);
    ReceiverHeeds(c, states[i], m);
    OnDisk(c, states[i + 1], m.dst);
  }

  lemma OnDisk(c: Setup, s: Cluster, n: NodeId)
    requires ClusterInv(c, s) && n in s.nodes
    ensures s.nodes[n].term == s.nodes[n].disk.term && s.nodes[n].votedFor == s.nodes[n].disk.vote
  {
    hide Inv, Abs;
  }

  lemma DeliveredTo(c: Setup, s: Cluster, m: Message)
    requires CanHappen(c, s, Run(Deliver(m)))
    ensures m in s.msgs && m.dst in s.nodes && m.dst in c.configs && GoodTable(s.nodes[m.dst])
    ensures m.AppendCall? ==> Contiguous(m.append.prevIndex, m.append.entries)
    ensures var t := Next(c, s, Run(Deliver(m)));
            && t.nodes == s.nodes[m.dst := Perform(c, s, Deliver(m)).state]
            && t.msgs == s.msgs + Perform(c, s, Deliver(m)).sends
  {
    hide Perform, HistoryDone, FullAfter;
  }

  lemma ReceiverHeeds(c: Setup, s: Cluster, m: Message)
    requires CanHappen(c, s, Run(Deliver(m))) && m.dst in s.nodes && m.dst in c.configs
    ensures var ns := s.nodes[m.dst]; var after := Perform(c, s, Deliver(m)).state;
            && Heeds(ns, after, TermIn(m), VoteAfter(ns, m))
            && (TermIn(m) >= ns.term && (m.AppendCall? || m.InstallCall?) ==> after.role == Follower)
  {
    hide RequestVote, VoteReply, AppendEntries, AppendReply, InstallSnapshotCall, InstallReply, LogUpToDate;
    var ns := s.nodes[m.dst];
    var cfg := c.configs[m.dst];
    match m
    case VoteCall(_, _, req) => VoteCallHeeds(ns, req);
    case VoteAnswer(src, _, t, resp) => VoteAnswerHeeds(cfg, ns, src, t, resp);
    case AppendCall(_, _, req) => AppendCallHeeds(cfg, ns, req);
    case AppendAnswer(src, _, t, last, resp) => AppendAnswerHeeds(cfg, ns, src, t, last, resp);
    case InstallCall(_, _, req) => InstallCallHeeds(ns, req);
    case InstallAnswer(src, _, _, k, resp) => InstallAnswerHeeds(cfg, ns, src, k, resp);
  }

  /** Every reply goes back to the sender of the request, and carries the term that the replier is in by then. */
  lemma RepliesCarryTerm(c: Setup, s: Cluster, m: Message, answer: Message)
    requires CanHappen(c, s, Run(Deliver(m))) && m.dst in s.nodes && answer in Perform(c, s, Deliver(m)).sends
    ensures IsRequest(m) && answer.src == m.dst && answer.dst == m.src && !IsRequest(answer)
    ensures TermIn(answer) == Perform(c, s, Deliver(m)).state.term == Max(s.nodes[m.dst].term, TermIn(m))
  {
    hide RequestVote, AppendEntries, InstallSnapshotCall;
    var ns := s.nodes[m.dst];
    match m
    case VoteCall(_, _, req) => VoteCallHeeds(ns, req);
    case AppendCall(_, _, req) => AppendCallHeeds(c.configs[m.dst], ns, req);
    case InstallCall(_, _, req) => InstallCallHeeds(ns, req);
    case _ =>
  }

  lemma IsAnswered(c: Setup, s: Cluster, m: Message) returns (answer: Message)
    requires CanHappen(c, s, Run(Deliver(m))) && m.dst in s.nodes && IsRequest(m) && TermIn(m) < s.nodes[m.dst].term
    ensures answer in Perform(c, s, Deliver(m)).sends
  {
    hide RequestVote, AppendEntries, InstallSnapshotCall;
    var ns := s.nodes[m.dst];
    match m
    case VoteCall(src, dst, req) => answer := VoteAnswer(dst, src, req.term, RequestVote(ns, req).reply);
    case AppendCall(src, dst, req) =>
      answer := AppendAnswer(dst, src, req.term, LastSent(req), AppendEntries(c.configs[dst], ns, req).reply);
    case InstallCall(src, dst, req) =>
      InstallCallHeeds(ns, req);
      answer := InstallAnswer(dst, src, req.term, req.lastIndex, InstallSnapshotCall(ns, req).reply.value);
  }

  /**
   * A request of an old term is answered, and the answer, whenever it arrives, ends what its sender still was in that
   * term: from then on the sender is in the term of the node that answered, or in a later one, and if it was behind
   * until then it is a follower.
   */
  lemma StaleSenderIsDeposed(c: Setup, states: seq<Cluster>, events: seq<Event>, i: nat, m: Message)
    returns (answer: Message)
    requires ValidSetup(c) && IsRun(c, states, events) && i < |events| && events[i] == Run(Deliver(m))
    requires IsRequest(m) && m.dst in states[i].nodes && TermIn(m) < states[i].nodes[m.dst].term
    ensures |states| == |events| + 1 && answer in states[i + 1].msgs && answer.src == m.dst && answer.dst == m.src
    ensures TermIn(answer) == states[i].nodes[m.dst].term
    ensures forall j :: i < j < |events| && events[j] == Run(Deliver(answer)) ==>
              && m.src in states[j].nodes && m.src in states[j + 1].nodes
              && states[j + 1].nodes[m.src].term >= TermIn(answer) > TermIn(m)
              && (states[j].nodes[m.src].term < TermIn(answer) ==> states[j + 1].nodes[m.src].role == Follower)
  {
    hide IsRun, ValidSetup, Perform, Next;
    RunStep(c, states, events, i);
    DeliveredTo(c, states[i], m);
    answer := IsAnswered(c, states[i], m);
    RepliesCarryTerm(c, states[i], m, answer);
    forall j | i < j < |events| && events[j] == Run(Deliver(answer))
      ensures m.src in states[j].nodes && m.src in states[j + 1].nodes
      ensures states[j + 1].nodes[m.src].term >= TermIn(answer)
      ensures states[j].nodes[m.src].term < TermIn(answer) ==> states[j + 1].nodes[m.src].role == Follower
    {
      LaterTermIsFollowed(c, states, events, j, answer);
    }
  }

  // ----- late answers -----

  /** An answer to a request of another term, or that finds no leader, teaches nothing but a later term. */
  lemma LateAnswerIsIgnored(cfg: Config, ns: NodeState, src: NodeId, t: nat, lastSent: nat, resp: AppendResponse)
    requires GoodTable(ns) && resp.term <= ns.term && (ns.role != Leader || ns.term != t)
    ensures AppendReply(cfg, ns, src, t, lastSent, resp) == Out(ns, (), [])
  {
  }

  /** The same for votes; and a refused vote is not counted. */
  lemma LateVoteIsIgnored(cfg: Config, ns: NodeState, src: NodeId, t: nat, resp: VoteResponse)
    requires resp.term <= ns.term && (ns.role != Candidate || ns.term != t || !resp.granted)
    ensures VoteReply(cfg, ns, src, t, resp) == Out(ns, (), [])
  {
  }

  lemma LateElectionIsIgnored(cfg: Config, ns: NodeState, t: nat)
    requires ns.role != Candidate || ns.term != t || cfg.Majority() > 1
    ensures ElectAlone(cfg, ns, t) == Out(ns, (), [])
  {
  }

  /** At the first index there is nothing to fall back to. */
  lemma LowestProbeStays(cfg: Config, ns: NodeState, src: NodeId, lastSent: nat, resp: AppendResponse)
    requires GoodTable(ns) && ns.role == Leader && resp.term <= ns.term && !resp.success && Get(ns.nextIndex, src) <= 1
    ensures AppendReply(cfg, ns, src, ns.term, lastSent, resp) == Out(ns, (), [])
  {
  }

  // ----- roles -----

  /** What the operation may do to the role of its node. */
  predicate RoleMoves(ns: NodeState, m: NodeState, op: Op) {
    var later := op.Deliver? && TermIn(op.m) > ns.term;
    var led := op.Deliver? && (op.m.AppendCall? || op.m.InstallCall?) && TermIn(op.m) == ns.term;
    if later then m.role == Follower && m.term == TermIn(op.m)
    else if op.Timeout? && ns.role != Leader then m.role == Candidate && m.term == ns.term + 1
    else
      && m.term == ns.term
      && (if led then m.role == Follower
          else || m.role == ns.role
               || (ns.role == Candidate && m.role == Leader
                   && (op.Alone? || (op.Deliver? && op.m.VoteAnswer? && op.m.voted.granted))))
  }

  /**
   * A node changes its role for one of these reasons, and for no other: it hears of a later term; its time is up, and
   * it is no leader; it hears from the leader of its term; or, as a candidate, it wins. In particular a leader leads on
   * until it hears of a later term or crashes.
   */
  lemma RoleChanges(c: Setup, states: seq<Cluster>, events: seq<Event>, i: nat)
    requires ValidSetup(c) && IsRun(c, states, events) && i < |events| && events[i].Run?
    ensures |states| == |events| + 1
    ensures var n := NodeOf(events[i].op);
            && n in states[i].nodes && n in states[i + 1].nodes
            && RoleMoves(states[i].nodes[n], states[i + 1].nodes[n], events[i].op)
            && forall m :: m in states[i].nodes && m != n ==>
                 m in states[i + 1].nodes && states[i + 1].nodes[m] == states[i].nodes[m]
  {
    hide IsRun, ValidSetup, ClusterInv, Perform, Next, RoleMoves, Enabled;
    RunStep(c, states, events, i);
    RunInv(c, states, events, i);
    Performed(c, states[i], events[i].op);
    ActorRole(c, states[i], events[i].op);
  }

  lemma ActorRole(c: Setup, s: Cluster, op: Op)
    requires ClusterInv(c, s) && CanHappen(c, s, Run(op))
    ensures NodeOf(op) in s.nodes && RoleMoves(s.nodes[NodeOf(op)], Perform(c, s, op).state, op)
  {
    hide ClusterInv, RequestVote, VoteReply, AppendEntries, AppendReply, InstallSnapshotCall, InstallReply, WriteAppend,
         Replicate, LogUpToDate;
    var n := NodeOf(op);
    EnabledNode(c, s, op);
    match op
    case Timeout(_) =>
    case Alone(_, _) =>
    case ReplicateTo(_, peer) => ReplicateMatch(c.configs[n], s.nodes[n], peer);
    case ClientWrite(_, key, value) => WriteMatch(c.configs[n], s.nodes[n], key, value);
    case Deliver(m) =>
      DeliveredTo(c, s, m);
      ReceiverHeeds(c, s, m);
      if TermIn(m) <= s.nodes[n].term { SameTermRole(c, s, m); }
  }

  lemma SameTermRole(c: Setup, s: Cluster, m: Message)
    requires CanHappen(c, s, Run(Deliver(m))) && m.dst in s.nodes && m.dst in c.configs
    requires TermIn(m) <= s.nodes[m.dst].term && GoodTable(s.nodes[m.dst])
    ensures var ns := s.nodes[m.dst]; var after := Perform(c, s, Deliver(m)).state;
            || (after.role == Follower && TermIn(m) == ns.term && (m.AppendCall? || m.InstallCall?))
            || after.role == ns.role
            || (ns.role == Candidate && after.role == Leader && m.VoteAnswer? && m.voted.granted)
  {
    hide AdvanceCommit, ApplyCommitted;
    var ns := s.nodes[m.dst];
    var cfg := c.configs[m.dst];
    match m
    case AppendCall(_, _, req) => AppendCallHeeds(cfg, ns, req);
    case AppendAnswer(src, _, t, last, resp) => SuccessRole(cfg, ns, src, t, last, resp);
    case InstallAnswer(src, _, _, k, resp) => AdvanceMatch(cfg, Recorded(ns, src, k));
    case _ =>
  }

  lemma SuccessRole(cfg: Config, ns: NodeState, src: NodeId, t: nat, lastSent: nat, resp: AppendResponse)
    requires GoodTable(ns) && resp.term <= ns.term
    ensures AppendReply(cfg, ns, src, t, lastSent, resp).state.role == ns.role
  {
    hide AdvanceCommit;
    var k := Max(Get(ns.matchIndex, src), Max(resp.matchIndex, lastSent));
    var matched := if k > Get(ns.matchIndex, src) then ns.matchIndex[src := k] else ns.matchIndex;
    AdvanceMatch(cfg, ns.(matchIndex := matched, nextIndex := ns.nextIndex[src := k + 1]));
  }
}
