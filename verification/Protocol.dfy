/**
 * The replication protocol on complete logs, with the history that its safety argument needs.
 *
 * A replica here is what a node means once compaction, the key-value table and the peers' next indices
 * are forgotten. Every region of code that a node runs under its lock is a short sequence of the actions of
 * module ProtocolActions; a crash stops such a sequence anywhere.
 */
module Protocol {
  import opened RaftTypes
  import opened Logs

  datatype Replica = Replica(
    role: Role, term: nat, vote: Option<NodeId>, log: seq<Entry>, commit: nat, applied: nat,
    matched: map<NodeId, nat>, tally: set<NodeId>)

  datatype Ballot = Ballot(term: nat, voter: NodeId)

  /** History of one vote: who got it, the voter's log at that moment, and the candidate's claim about its own log. */
  datatype VoteRecord = VoteRecord(candidate: NodeId, log: seq<Entry>, lastIndex: nat, lastTerm: nat)

  /** History of one elected leader: its voters, the length of its log when it won, and its log up to now. */
  datatype Reign = Reign(leader: NodeId, quorum: set<NodeId>, init: nat, log: seq<Entry>)

  /** `acks` records, per term and replica, up to where the replica confirmed the log of that term's leader. */
  datatype History = History(votes: map<Ballot, VoteRecord>, reigns: map<nat, Reign>, acks: map<Ballot, nat>)

  datatype Proto = Proto(replicas: map<NodeId, Replica>, msgs: set<Message>, h: History)

  predicate IsQuorum(ids: set<NodeId>, q: set<NodeId>) {
    q <= ids && |q| >= |ids| / 2 + 1
  }

  /** Every entry was created by the leader of its term, and the log before it is that leader's. */
  predicate Rooted(reigns: map<nat, Reign>, log: seq<Entry>) {
    forall i :: 0 <= i < |log| ==>
      log[i].term in reigns && Agree(log, reigns[log[i].term].log, i + 1)
  }

  /** The leader of the later term u was elected without the first k entries of the leader of t. */
  predicate Lost(reigns: map<nat, Reign>, t: nat, k: nat, u: nat) {
    && t in reigns && u in reigns && t < u
    && !(k <= reigns[u].init && Agree(reigns[u].log, reigns[t].log, k))
  }

  /** A log still has the first k entries of the leader of t, unless a leader elected since then lacked them. */
  ghost predicate Kept(reigns: map<nat, Reign>, log: seq<Entry>, t: nat, k: nat, upTo: nat)
    requires t in reigns
  {
    Agree(log, reigns[t].log, k) || exists u: nat :: u <= upTo && Lost(reigns, t, k, u)
  }

  predicate AckQuorum(ids: set<NodeId>, h: History, t: nat, i: nat, q: set<NodeId>) {
    IsQuorum(ids, q) && forall v :: v in q ==> Ballot(t, v) in h.acks && h.acks[Ballot(t, v)] >= i
  }

  /** The leader of t holds an entry of its own term at i, and a quorum confirmed its log up to i. */
  ghost predicate CommittedAt(ids: set<NodeId>, h: History, t: nat, i: nat) {
    && t in h.reigns
    && 0 < i <= |h.reigns[t].log| && h.reigns[t].log[i - 1].term == t
    && exists q :: AckQuorum(ids, h, t, i, q)
  }

  ghost predicate CommitWitness(ids: set<NodeId>, h: History, log: seq<Entry>, k: nat, t: nat, i: nat) {
    k <= i && CommittedAt(ids, h, t, i) && Agree(log, h.reigns[t].log, k)
  }

  /** The first k entries of a log are committed, by leaders of terms up to `upTo`. */
  ghost predicate Committed(ids: set<NodeId>, h: History, log: seq<Entry>, k: nat, upTo: nat) {
    k == 0 || exists t: nat, i: nat :: t <= upTo && CommitWitness(ids, h, log, k, t, i)
  }

  // ----- the invariant -----

  predicate ReignLogsOk(reigns: map<nat, Reign>) {
    forall t :: t in reigns ==> ReignLogOk(reigns, t)
  }

  predicate ReignLogOk(reigns: map<nat, Reign>, t: nat)
    requires t in reigns
  {
    var r := reigns[t];
    && r.init <= |r.log|
    && Numbered(r.log) && Decodable(r.log) && Rooted(reigns, r.log)
    && (forall i :: 0 <= i < r.init ==> r.log[i].term < t)
    && (forall i :: r.init <= i < |r.log| ==> r.log[i].term == t)
  }

  /** A leader holds its own log, and has done so from the start. */
  predicate LeadersAcked(h: History) {
    forall t :: t in h.reigns ==>
      var b := Ballot(t, h.reigns[t].leader); b in h.acks && |h.reigns[t].log| <= h.acks[b]
  }

  predicate ElectionsOk(ids: set<NodeId>, p: Proto) {
    forall t :: t in p.h.reigns ==> ElectionOk(ids, p, t)
  }

  predicate ElectionOk(ids: set<NodeId>, p: Proto, t: nat)
    requires t in p.h.reigns
  {
    var r := p.h.reigns[t];
    && IsQuorum(ids, r.quorum)
    && r.leader in p.replicas && p.replicas[r.leader].term >= t
    && (p.replicas[r.leader].term == t ==> p.replicas[r.leader].role != Candidate)
    && r.init <= |r.log|
    && forall v :: v in r.quorum ==>
         && Ballot(t, v) in p.h.votes
         && p.h.votes[Ballot(t, v)].candidate == r.leader
         && UpToDate(r.init, TermOf(r.log, r.init), p.h.votes[Ballot(t, v)].log)
  }

  predicate VotesOk(ids: set<NodeId>, p: Proto) {
    forall b :: b in p.h.votes ==> VoteOk(p, b)
  }

  predicate VoteOk(p: Proto, b: Ballot)
    requires b in p.h.votes
  {
    var rec := p.h.votes[b];
    && b.voter in p.replicas && rec.candidate in p.replicas
    && p.replicas[b.voter].term >= b.term
    && (p.replicas[b.voter].term == b.term ==> p.replicas[b.voter].vote == Some(rec.candidate))
    && Rooted(p.h.reigns, rec.log)
    && UpToDate(rec.lastIndex, rec.lastTerm, rec.log)
    && ClaimOk(p, rec.candidate, b.term, rec.lastIndex, rec.lastTerm)
  }

  /**
   * A candidate that is still in the term it asked for has the log that it claimed; if it was elected in that term,
   * this is the log its reign started with.
   */
  predicate ClaimOk(p: Proto, n: NodeId, t: nat, lastIndex: nat, lastTerm: nat) {
    && n in p.replicas && p.replicas[n].term >= t
    && (p.replicas[n].term == t && p.replicas[n].role == Candidate ==>
          lastIndex == |p.replicas[n].log| && lastTerm == TermOf(p.replicas[n].log, |p.replicas[n].log|))
    && (t in p.h.reigns && p.h.reigns[t].leader == n ==>
          var r := p.h.reigns[t];
          lastIndex == r.init && r.init <= |r.log| && lastTerm == TermOf(r.log, r.init))
  }

  /** What a voter confirmed in an earlier term it still had when it voted, unless a leader in between lacked it. */
  ghost predicate VoteKeeps(h: History, b: Ballot, t: nat, k: nat)
    requires b in h.votes && t in h.reigns
  {
    || Agree(h.votes[b].log, h.reigns[t].log, k)
    || exists u: nat :: u <= b.term && Lost(h.reigns, t, k, u) && (u == b.term ==> b.voter !in h.reigns[u].quorum)
  }

  ghost predicate VotesKeep(h: History) {
    forall b: Ballot, t: nat, k: nat ::
      b in h.votes && t < b.term && t in h.reigns && Ballot(t, b.voter) in h.acks && k <= h.acks[Ballot(t, b.voter)] ==>
        VoteKeeps(h, b, t, k)
  }

  ghost predicate AcksOk(p: Proto) {
    forall a :: a in p.h.acks ==> AckOk(p, a)
  }

  ghost predicate AckOk(p: Proto, a: Ballot)
    requires a in p.h.acks
  {
    && a.term in p.h.reigns && a.voter in p.replicas
    && p.h.acks[a] <= |p.h.reigns[a.term].log|
    && p.replicas[a.voter].term >= a.term
    && forall k: nat :: k <= p.h.acks[a] ==>
          Kept(p.h.reigns, p.replicas[a.voter].log, a.term, k, p.replicas[a.voter].term)
  }

  predicate ReplicasOk(ids: set<NodeId>, p: Proto) {
    && p.replicas.Keys == ids
    && forall n :: n in p.replicas ==> ReplicaOk(ids, p, n)
  }

  predicate ReplicaOk(ids: set<NodeId>, p: Proto, n: NodeId)
    requires n in p.replicas
  {
    var r := p.replicas[n];
    && Rooted(p.h.reigns, r.log)
    && (forall i :: 0 <= i < |r.log| ==> r.log[i].term <= r.term)
    && (r.vote.Some? ==> Ballot(r.term, n) in p.h.votes && p.h.votes[Ballot(r.term, n)].candidate == r.vote.value)
    && (r.vote.Some? ==> LogSinceVote(p, n))
    && r.matched.Keys <= ids
    && (r.role == Leader ==> LeaderOk(p, n))
    && (r.role == Candidate ==> CandidateOk(ids, p, n))
  }

  /** Since it voted in its term, a replica has kept its log, or has taken over a prefix of what the leader has. */
  predicate LogSinceVote(p: Proto, n: NodeId)
    requires n in p.replicas
  {
    var r := p.replicas[n];
    || (Ballot(r.term, n) in p.h.votes && p.h.votes[Ballot(r.term, n)].log == r.log)
    || (r.term in p.h.reigns && Agree(r.log, p.h.reigns[r.term].log, |r.log|))
  }

  predicate LeaderOk(p: Proto, n: NodeId)
    requires n in p.replicas
  {
    var r := p.replicas[n];
    && r.term in p.h.reigns && p.h.reigns[r.term].leader == n && p.h.reigns[r.term].log == r.log
    && Ballot(r.term, n) in p.h.acks && p.h.acks[Ballot(r.term, n)] == |r.log|
    && forall q :: q in r.matched && r.matched[q] > r.commit ==>
         Ballot(r.term, q) in p.h.acks && r.matched[q] <= p.h.acks[Ballot(r.term, q)]
  }

  predicate CandidateOk(ids: set<NodeId>, p: Proto, n: NodeId)
    requires n in p.replicas
  {
    var r := p.replicas[n];
    && r.tally <= ids && n in r.tally
    && forall v :: v in r.tally ==>
         Ballot(r.term, v) in p.h.votes && p.h.votes[Ballot(r.term, v)].candidate == n
  }

  ghost predicate CommitsOk(ids: set<NodeId>, p: Proto) {
    forall n :: n in p.replicas ==>
      var r := p.replicas[n];
      r.applied <= r.commit <= |r.log| && Committed(ids, p.h, r.log, r.commit, r.term)
  }

  ghost predicate MessagesOk(ids: set<NodeId>, p: Proto) {
    forall m :: m in p.msgs ==> MessageOk(ids, p, m)
  }

  /** What each message on the network still says truly about the history. */
  ghost predicate MessageOk(ids: set<NodeId>, p: Proto, m: Message) {
    && m.src in ids && m.dst in ids && m.src != m.dst
    && match m
       case VoteCall(src, dst, req) =>
         req.candidate == src && ClaimOk(p, src, req.term, req.lastIndex, req.lastTerm)
       case VoteAnswer(src, dst, reqTerm, resp) =>
         resp.granted ==> Ballot(reqTerm, src) in p.h.votes && p.h.votes[Ballot(reqTerm, src)].candidate == dst
       case AppendCall(src, dst, req) =>
         req.leader == src && AppendOk(ids, p, req)
       case AppendAnswer(src, dst, reqTerm, lastSent, resp) =>
         resp.success ==>
               Ballot(reqTerm, src) in p.h.acks && Max(resp.matchIndex, lastSent) <= p.h.acks[Ballot(reqTerm, src)]
       case InstallCall(src, dst, req) =>
         && req.leader == src && InstallOk(ids, p, req)
         && src in p.replicas && req.lastIndex <= p.replicas[src].applied
       case InstallAnswer(src, dst, reqTerm, k, resp) =>
         && dst in p.replicas && k <= p.replicas[dst].applied
         && (resp.term <= reqTerm ==> Ballot(reqTerm, src) in p.h.acks && k <= p.h.acks[Ballot(reqTerm, src)])
  }

  ghost predicate AppendOk(ids: set<NodeId>, p: Proto, req: AppendRequest) {
    && req.term in p.h.reigns && p.h.reigns[req.term].leader == req.leader
    && var log := p.h.reigns[req.term].log;
    && req.prevIndex + |req.entries| <= |log|
    && req.prevTerm == TermOf(log, req.prevIndex)
    && (forall i :: 0 <= i < |req.entries| ==> req.entries[i] == log[req.prevIndex + i])
    && req.leaderCommit <= |log| && Committed(ids, p.h, log, req.leaderCommit, req.term)
  }

  ghost predicate InstallOk(ids: set<NodeId>, p: Proto, req: InstallRequest) {
    && req.term in p.h.reigns && p.h.reigns[req.term].leader == req.leader
    && var log := p.h.reigns[req.term].log;
    && 0 < req.lastIndex <= |log|
    && req.lastTerm == TermOf(log, req.lastIndex)
    && Committed(ids, p.h, log, req.lastIndex, req.term)
    && req.data == Image(Replay(log[..req.lastIndex]))
  }

  ghost predicate Inv(ids: set<NodeId>, p: Proto) {
    && ReignLogsOk(p.h.reigns)
    && LeadersAcked(p.h)
    && ElectionsOk(ids, p)
    && VotesOk(ids, p)
    && VotesKeep(p.h)
    && AcksOk(p)
    && ReplicasOk(ids, p)
    && CommitsOk(ids, p)
    && MessagesOk(ids, p)
  }

  /** History only grows: votes and elections are never revised, leader logs and confirmations only get longer. */
  predicate Grows(g: History, h: History) {
    && (forall b :: b in g.votes ==> b in h.votes && h.votes[b] == g.votes[b])
    && ReignsGrow(g.reigns, h.reigns)
    && (forall a :: a in g.acks ==> a in h.acks && g.acks[a] <= h.acks[a])
  }

  predicate ReignsGrow(r: map<nat, Reign>, s: map<nat, Reign>) {
    forall t :: t in r ==>
      && t in s && s[t].leader == r[t].leader && s[t].quorum == r[t].quorum && s[t].init == r[t].init
      && r[t].log <= s[t].log
  }

  // ----- basic facts -----

  lemma QuorumsMeet(ids: set<NodeId>, a: set<NodeId>, b: set<NodeId>) returns (v: NodeId)
    requires IsQuorum(ids, a) && IsQuorum(ids, b)
    ensures v in a && v in b
  {
    if a * b == {} {
      assert |a + b| == |a| + |b|;
      SubsetCard(a + b, ids);
    }
    v :| v in a * b;
  }

  lemma {:induction false} SubsetCard(a: set<NodeId>, b: set<NodeId>)
    requires a <= b
    ensures |a| <= |b|
  {
    if a != {} {
      var x :| x in a;
      SubsetCard(a - {x}, b - {x});
    }
  }

  /** Log matching for rooted logs: equal terms at an index make everything up to it equal. */
  lemma RootedMatch(reigns: map<nat, Reign>, a: seq<Entry>, b: seq<Entry>, k: nat)
    requires Rooted(reigns, a) && Rooted(reigns, b)
    requires k <= |a| && k <= |b| && TermOf(a, k) == TermOf(b, k)
    ensures Agree(a, b, k)
  {
    if k > 0 {
      var l := reigns[a[k - 1].term].log;
      assert Agree(a, l, k) && Agree(b, l, k);
    }
  }

  /** Terms never decrease along a rooted log. */
  lemma RootedSorted(reigns: map<nat, Reign>, a: seq<Entry>, i: nat, j: nat)
    requires ReignLogsOk(reigns) && Rooted(reigns, a)
    requires i <= j < |a|
    ensures a[i].term <= a[j].term
  {
    var t := a[j].term;
    assert Agree(a, reigns[t].log, j + 1);
    assert a[i] == reigns[t].log[i];
    assert a[j] == reigns[t].log[j];
  }

  // ----- leader completeness -----

  /** Every election needs one of these voters. */
  ghost predicate MeetsQuorums(ids: set<NodeId>, q: set<NodeId>) {
    forall r :: IsQuorum(ids, r) ==> exists v :: v in q && v in r
  }

  /** The leader of t holds an entry of its own term at i, and voters that no election can do without have it. */
  ghost predicate HeldAt(ids: set<NodeId>, h: History, t: nat, i: nat, q: set<NodeId>) {
    && t in h.reigns
    && 0 < i <= |h.reigns[t].log| && h.reigns[t].log[i - 1].term == t
    && MeetsQuorums(ids, q) && forall v :: v in q ==> Ballot(t, v) in h.acks && h.acks[Ballot(t, v)] >= i
  }

  /** What such voters hold of a leader's log is in the log of every leader of a later term from the start. */
  lemma {:induction false} HeldSurvives(ids: set<NodeId>, p: Proto, t: nat, i: nat, q: set<NodeId>, u: nat)
    requires ReignLogsOk(p.h.reigns) && ElectionsOk(ids, p) && VotesOk(ids, p) && VotesKeep(p.h)
    requires HeldAt(ids, p.h, t, i, q)
    requires u in p.h.reigns && t < u
    ensures i <= p.h.reigns[u].init && Agree(p.h.reigns[u].log, p.h.reigns[t].log, i)
    decreases u
  {
    hide MeetsQuorums, Rooted;
    var v := SharedVoter(ids, p, t, i, q, u);
    var log := p.h.votes[Ballot(u, v)].log;
    if !Agree(log, p.h.reigns[t].log, i) {
      var w: nat :| w <= u && Lost(p.h.reigns, t, i, w) && (w == u ==> v !in p.h.reigns[u].quorum);
      HeldSurvives(ids, p, t, i, q, w);
      assert false;
    }
    VoterLogSuffices(ids, p, t, i, q, u, log);
  }

  /** A voter that held the prefix and elected the leader of u, and what its log was when it voted. */
  lemma SharedVoter(ids: set<NodeId>, p: Proto, t: nat, i: nat, q: set<NodeId>, u: nat) returns (v: NodeId)
    requires ElectionsOk(ids, p) && VotesOk(ids, p) && VotesKeep(p.h) && HeldAt(ids, p.h, t, i, q)
    requires u in p.h.reigns && t < u
    ensures v in p.h.reigns[u].quorum && Ballot(u, v) in p.h.votes && VoteKeeps(p.h, Ballot(u, v), t, i)
    ensures var log := p.h.votes[Ballot(u, v)].log; var r := p.h.reigns[u];
            Rooted(p.h.reigns, log) && r.init <= |r.log| && UpToDate(r.init, TermOf(r.log, r.init), log)
  {
    hide Rooted;
    assert ElectionOk(ids, p, u);
    v :| v in q && v in p.h.reigns[u].quorum;
    assert VoteOk(p, Ballot(u, v));
  }

  /** The vote check carries a held prefix from the voter to the leader it elected. */
  lemma {:induction false} VoterLogSuffices(ids: set<NodeId>, p: Proto, t: nat, i: nat, q: set<NodeId>, u: nat,
                                            log: seq<Entry>)
    requires ReignLogsOk(p.h.reigns) && ElectionsOk(ids, p) && VotesOk(ids, p) && VotesKeep(p.h)
    requires HeldAt(ids, p.h, t, i, q)
    requires u in p.h.reigns && t < u
    requires Rooted(p.h.reigns, log) && Agree(log, p.h.reigns[t].log, i)
    requires UpToDate(p.h.reigns[u].init, TermOf(p.h.reigns[u].log, p.h.reigns[u].init), log)
    ensures i <= p.h.reigns[u].init && Agree(p.h.reigns[u].log, p.h.reigns[t].log, i)
    decreases u, 0
  {
    var r := p.h.reigns[u];
    RootedSorted(p.h.reigns, log, i - 1, |log| - 1);
    assert log[i - 1].term == t;
    var last := TermOf(r.log, r.init);
    assert last < u;
    var source := p.h.reigns[last].log;
    assert Agree(r.log, source, r.init);
    if last == TermOf(log, |log|) {
      assert Agree(log, source, |log|);
    } else {
      HeldSurvives(ids, p, t, i, q, last);
    }
  }

  /** Once committed by the leader of t, a prefix is in the log of every leader of a later term from the start. */
  lemma CommittedSurvives(ids: set<NodeId>, p: Proto, t: nat, i: nat, u: nat)
    requires ReignLogsOk(p.h.reigns) && ElectionsOk(ids, p) && VotesOk(ids, p) && VotesKeep(p.h)
    requires CommittedAt(ids, p.h, t, i)
    requires u in p.h.reigns && t < u
    ensures i <= p.h.reigns[u].init && Agree(p.h.reigns[u].log, p.h.reigns[t].log, i)
  {
    hide MeetsQuorums, IsQuorum, ReignLogsOk, ElectionsOk, VotesOk, VotesKeep;
    var q :| AckQuorum(ids, p.h, t, i, q);
    QuorumMeetsAll(ids, q);
    HeldSurvives(ids, p, t, i, q, u);
  }

  lemma QuorumMeetsAll(ids: set<NodeId>, q: set<NodeId>)
    requires IsQuorum(ids, q)
    ensures MeetsQuorums(ids, q)
  {
    forall r | IsQuorum(ids, r)
      ensures exists v :: v in q && v in r
    {
      var v := QuorumsMeet(ids, q, r);
    }
  }

  /** Leader completeness, for all committed prefixes and all later leaders at once. */
  ghost predicate LeadersComplete(ids: set<NodeId>, h: History) {
    forall t: nat, i: nat, u: nat :: CommittedAt(ids, h, t, i) && u in h.reigns && t < u ==>
      i <= h.reigns[u].init && Agree(h.reigns[u].log, h.reigns[t].log, i)
  }

  lemma LeadersAreComplete(ids: set<NodeId>, p: Proto)
    requires ReignLogsOk(p.h.reigns) && ElectionsOk(ids, p) && VotesOk(ids, p) && VotesKeep(p.h)
    ensures LeadersComplete(ids, p.h)
  {
    forall t: nat, i: nat, u: nat | CommittedAt(ids, p.h, t, i) && u in p.h.reigns && t < u
      ensures i <= p.h.reigns[u].init && Agree(p.h.reigns[u].log, p.h.reigns[t].log, i)
    {
      CommittedSurvives(ids, p, t, i, u);
    }
  }
}
