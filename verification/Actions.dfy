/** The atomic actions of the protocol, and the proof that each of them keeps the invariant. */
module ProtocolActions {
  import opened RaftTypes
  import opened Logs
  import opened Protocol

  function With(p: Proto, n: NodeId, r: Replica, h: History): Proto {
    p.(replicas := p.replicas[n := r], h := h)
  }

  // ----- growth -----

  lemma RootedGrow(r: map<nat, Reign>, s: map<nat, Reign>, log: seq<Entry>)
    requires ReignsGrow(r, s) && Rooted(r, log)
    ensures Rooted(s, log)
  {
    forall i | 0 <= i < |log|
      ensures log[i].term in s && Agree(log, s[log[i].term].log, i + 1)
    {
      assert Agree(log, r[log[i].term].log, i + 1);
    }
  }

  lemma LostGrow(r: map<nat, Reign>, s: map<nat, Reign>, t: nat, k: nat, u: nat)
    requires ReignsGrow(r, s) && ReignLogsOk(r) && Lost(r, t, k, u) && k <= |r[t].log|
    ensures Lost(s, t, k, u)
  {
    if k <= s[u].init && Agree(s[u].log, s[t].log, k) {
      assert Agree(r[u].log, r[t].log, k);
      assert false;
    }
  }

  lemma KeptGrow(r: map<nat, Reign>, s: map<nat, Reign>, log: seq<Entry>, t: nat, k: nat, upTo: nat, upTo': nat)
    requires ReignsGrow(r, s) && ReignLogsOk(r)
    requires t in r && k <= |r[t].log| && Kept(r, log, t, k, upTo) && upTo <= upTo'
    ensures Kept(s, log, t, k, upTo')
  {
    if !Agree(log, r[t].log, k) {
      var u: nat :| u <= upTo && Lost(r, t, k, u);
      LostGrow(r, s, t, k, u);
    }
  }

  lemma CommittedGrow(ids: set<NodeId>, g: History, h: History, a: seq<Entry>, b: seq<Entry>, k: nat, t: nat, u: nat)
    requires Grows(g, h) && Committed(ids, g, a, k, t) && t <= u && Agree(a, b, k)
    ensures Committed(ids, h, b, k, u)
  {
    if k > 0 {
      var w: nat, i: nat :| w <= t && CommitWitness(ids, g, a, k, w, i);
      var q :| AckQuorum(ids, g, w, i, q);
      assert AckQuorum(ids, h, w, i, q);
      assert CommitWitness(ids, h, b, k, w, i);
    }
  }

  lemma GrowsRefl(h: History)
    ensures Grows(h, h)
  {
  }

  lemma GrowsTrans(g: History, h: History, i: History)
    requires Grows(g, h) && Grows(h, i)
    ensures Grows(g, i)
  {
  }

  // ----- one replica moves -----

  /** The new history differs from the old one only by what replica n did. */
  predicate OnlyBy(g: History, h: History, n: NodeId) {
    && Grows(g, h)
    && (forall t :: t in g.reigns ==> h.reigns[t] == g.reigns[t] || g.reigns[t].leader == n)
    && (forall a :: a in h.acks && a.voter != n ==> a in g.acks && h.acks[a] == g.acks[a])
    && (forall b :: b in h.votes && b.voter != n ==> b in g.votes)
  }

  /**
   * A move of one replica never goes back in term or in what it has applied, and never changes a vote or a
   * candidate's log within a term.
   */
  predicate Forward(r: Replica, s: Replica) {
    && r.term <= s.term && r.applied <= s.applied
    && (r.term == s.term && r.vote.Some? ==> s.vote == r.vote)
    && (r.term == s.term && s.role == Candidate ==> r.role == Candidate && r.log == s.log)
  }

  /** A reign that begins is that of the candidate that moved, and starts with its log. */
  predicate Crowned(p: Proto, q: Proto, n: NodeId)
    requires n in p.replicas
  {
    forall t :: t in q.h.reigns && t !in p.h.reigns ==>
      var r := p.replicas[n];
      && t == r.term && r.role == Candidate
      && q.h.reigns[t].leader == n && q.h.reigns[t].init == |r.log| && q.h.reigns[t].log == r.log
  }

  /** What has to be shown about the replica that moved. */
  ghost predicate Moved(ids: set<NodeId>, p: Proto, q: Proto, n: NodeId) {
    && n in p.replicas && n in q.replicas && q == With(p, n, q.replicas[n], q.h)
    && Forward(p.replicas[n], q.replicas[n])
    && OnlyBy(p.h, q.h, n)
    && Crowned(p, q, n)
    && ReplicaOk(ids, q, n)
    && var r := q.replicas[n];
    && r.applied <= r.commit <= |r.log| && Committed(ids, q.h, r.log, r.commit, r.term)
    && (forall b :: b in q.h.votes && b !in p.h.votes ==> VoteOk(q, b))
    && (forall a :: a in q.h.acks && a.voter == n ==> AckOk(q, a))
  }

  lemma MovedReplicas(ids: set<NodeId>, p: Proto, q: Proto, n: NodeId)
    requires ReplicasOk(ids, p) && Moved(ids, p, q, n)
    ensures ReplicasOk(ids, q)
  {
    assert q.replicas.Keys == ids;
    forall m | m in q.replicas && m != n
      ensures ReplicaOk(ids, q, m)
    {
      assert ReplicaOk(ids, p, m);
      RootedGrow(p.h.reigns, q.h.reigns, p.replicas[m].log);
    }
  }

  lemma MovedVotes(ids: set<NodeId>, p: Proto, q: Proto, n: NodeId)
    requires VotesOk(ids, p) && Moved(ids, p, q, n)
    ensures VotesOk(ids, q)
  {
    forall b | b in q.h.votes
      ensures VoteOk(q, b)
    {
      if b in p.h.votes {
        assert VoteOk(p, b);
        var rec := p.h.votes[b];
        RootedGrow(p.h.reigns, q.h.reigns, rec.log);
        ClaimGrow(p, q, n, rec.candidate, b.term, rec.lastIndex, rec.lastTerm);
      }
    }
  }

  lemma AckGrow(p: Proto, q: Proto, a: Ballot)
    requires ReignLogsOk(p.h.reigns) && Grows(p.h, q.h)
    requires a in p.h.acks && a in q.h.acks && q.h.acks[a] == p.h.acks[a] && AckOk(p, a)
    requires a.voter in q.replicas && q.replicas[a.voter].log == p.replicas[a.voter].log
    requires p.replicas[a.voter].term <= q.replicas[a.voter].term
    ensures AckOk(q, a)
  {
    forall k: nat | k <= q.h.acks[a]
      ensures Kept(q.h.reigns, q.replicas[a.voter].log, a.term, k, q.replicas[a.voter].term)
    {
      KeptGrow(p.h.reigns, q.h.reigns, p.replicas[a.voter].log, a.term, k,
               p.replicas[a.voter].term, q.replicas[a.voter].term);
    }
  }

  lemma MovedAcks(ids: set<NodeId>, p: Proto, q: Proto, n: NodeId)
    requires ReignLogsOk(p.h.reigns) && AcksOk(p) && Moved(ids, p, q, n)
    ensures AcksOk(q)
  {
    forall a | a in q.h.acks
      ensures AckOk(q, a)
    {
      if a.voter != n {
        assert AckOk(p, a);
        AckGrow(p, q, a);
      }
    }
  }

  lemma MovedCommits(ids: set<NodeId>, p: Proto, q: Proto, n: NodeId)
    requires CommitsOk(ids, p) && Moved(ids, p, q, n)
    ensures CommitsOk(ids, q)
  {
    forall m | m in q.replicas && m != n
      ensures Committed(ids, q.h, q.replicas[m].log, q.replicas[m].commit, q.replicas[m].term)
    {
      var r := p.replicas[m];
      CommittedGrow(ids, p.h, q.h, r.log, r.log, r.commit, r.term, r.term);
    }
  }

  lemma ClaimGrow(p: Proto, q: Proto, n: NodeId, m: NodeId, t: nat, lastIndex: nat, lastTerm: nat)
    requires n in p.replicas && n in q.replicas && q.replicas == p.replicas[n := q.replicas[n]]
    requires Forward(p.replicas[n], q.replicas[n]) && ReignsGrow(p.h.reigns, q.h.reigns) && Crowned(p, q, n)
    requires ClaimOk(p, m, t, lastIndex, lastTerm)
    ensures ClaimOk(q, m, t, lastIndex, lastTerm)
  {
    if t in p.h.reigns && p.h.reigns[t].leader == m {
      var r := p.h.reigns[t];
      assert TermOf(q.h.reigns[t].log, r.init) == TermOf(r.log, r.init);
    }
  }

  lemma AppendGrow(ids: set<NodeId>, p: Proto, q: Proto, req: AppendRequest)
    requires Grows(p.h, q.h) && AppendOk(ids, p, req)
    ensures AppendOk(ids, q, req)
  {
    var log := p.h.reigns[req.term].log;
    CommittedGrow(ids, p.h, q.h, log, q.h.reigns[req.term].log, req.leaderCommit, req.term, req.term);
  }

  lemma InstallGrow(ids: set<NodeId>, p: Proto, q: Proto, req: InstallRequest)
    requires Grows(p.h, q.h) && InstallOk(ids, p, req)
    ensures InstallOk(ids, q, req)
  {
    var log := p.h.reigns[req.term].log;
    CommittedGrow(ids, p.h, q.h, log, q.h.reigns[req.term].log, req.lastIndex, req.term, req.term);
    assert log[..req.lastIndex] == q.h.reigns[req.term].log[..req.lastIndex];
  }

  lemma MovedMessage(ids: set<NodeId>, p: Proto, q: Proto, n: NodeId, m: Message)
    requires Moved(ids, p, q, n) && MessageOk(ids, p, m)
    ensures MessageOk(ids, q, m)
  {
    match m
    case VoteCall(src, dst, req) => ClaimGrow(p, q, n, src, req.term, req.lastIndex, req.lastTerm);
    case VoteAnswer(src, dst, reqTerm, resp) =>
    case AppendCall(src, dst, req) => AppendGrow(ids, p, q, req);
    case AppendAnswer(src, dst, reqTerm, lastSent, resp) =>
    case InstallCall(src, dst, req) => InstallGrow(ids, p, q, req);
    case InstallAnswer(src, dst, reqTerm, k, resp) =>
  }

  lemma MovedElection(ids: set<NodeId>, p: Proto, q: Proto, n: NodeId, t: nat)
    requires t in p.h.reigns && ElectionOk(ids, p, t) && Grows(p.h, q.h)
    requires n in p.replicas && n in q.replicas && q.replicas == p.replicas[n := q.replicas[n]]
    requires Forward(p.replicas[n], q.replicas[n])
    requires t in q.h.reigns
    ensures ElectionOk(ids, q, t)
  {
    var r := q.h.reigns[t];
    assert TermOf(r.log, r.init) == TermOf(p.h.reigns[t].log, r.init);
  }

  /** No leader was added, and the elected leaders' replicas did not become candidates again. */
  lemma MovedElections(ids: set<NodeId>, p: Proto, q: Proto, n: NodeId)
    requires ElectionsOk(ids, p) && Grows(p.h, q.h)
    requires n in p.replicas && n in q.replicas && q.replicas == p.replicas[n := q.replicas[n]]
    requires Forward(p.replicas[n], q.replicas[n])
    requires q.h.reigns.Keys == p.h.reigns.Keys
    ensures ElectionsOk(ids, q)
  {
    forall t | t in q.h.reigns
      ensures ElectionOk(ids, q, t)
    {
      MovedElection(ids, p, q, n, t);
    }
  }

  /** A move that adds no leader keeps the invariant. */
  lemma MoveKeeps(ids: set<NodeId>, p: Proto, q: Proto, n: NodeId)
    requires Inv(ids, p) && Moved(ids, p, q, n)
    requires ReignLogsOk(q.h.reigns) && LeadersAcked(q.h) && VotesKeep(q.h) && ElectionsOk(ids, q)
    ensures Inv(ids, q)
  {
    MovedReplicas(ids, p, q, n);
    MovedVotes(ids, p, q, n);
    MovedAcks(ids, p, q, n);
    MovedCommits(ids, p, q, n);
    forall m | m in q.msgs
      ensures MessageOk(ids, q, m)
    {
      MovedMessage(ids, p, q, n, m);
    }
  }

  // ----- moves that leave the history alone -----

  lemma CommittedLess(ids: set<NodeId>, h: History, log: seq<Entry>, k: nat, l: nat, t: nat)
    requires Committed(ids, h, log, k, t) && l <= k
    ensures Committed(ids, h, log, l, t)
  {
    if l > 0 {
      var w: nat, i: nat :| w <= t && CommitWitness(ids, h, log, k, w, i);
      assert CommitWitness(ids, h, log, l, w, i);
    }
  }

  lemma CommittedUpTo(ids: set<NodeId>, h: History, log: seq<Entry>, k: nat, t: nat, u: nat)
    requires Committed(ids, h, log, k, t) && t <= u
    ensures Committed(ids, h, log, k, u)
  {
    if k > 0 {
      var w: nat, i: nat :| w <= t && CommitWitness(ids, h, log, k, w, i);
      assert w <= u;
    }
  }

  /** A committed prefix is in the log of every leader whose term is not before the committing ones. */
  lemma CommittedInReign(ids: set<NodeId>, h: History, log: seq<Entry>, k: nat, t: nat)
    requires LeadersComplete(ids, h)
    requires k <= |log| && Committed(ids, h, log, k, t) && t in h.reigns
    ensures Agree(log, h.reigns[t].log, k)
  {
    if k > 0 {
      var w: nat, i: nat :| w <= t && CommitWitness(ids, h, log, k, w, i);
      if w < t {
        AgreeVia(log, h.reigns[w].log, h.reigns[t].log, k, i);
      }
    }
  }

  lemma AgreeVia(a: seq<Entry>, b: seq<Entry>, c: seq<Entry>, k: nat, i: nat)
    requires Agree(a, b, k) && Agree(c, b, i) && k <= i
    ensures Agree(a, c, k)
  {
  }

  /** The volatile fields of a replica may change as long as its role still has what it rests on. */
  lemma SteadyReplica(ids: set<NodeId>, p: Proto, q: Proto, n: NodeId)
    requires n in p.replicas && ReplicaOk(ids, p, n)
    requires n in q.replicas && q == With(p, n, q.replicas[n], p.h)
    requires var r := q.replicas[n]; var s := p.replicas[n];
             && r.log == s.log && s.term <= r.term
             && (r.vote.Some? ==> r.vote == s.vote && r.term == s.term)
             && r.matched.Keys <= ids
             && (r.role == Leader ==> LeaderOk(q, n))
             && (r.role == Candidate ==> CandidateOk(ids, q, n))
    ensures ReplicaOk(ids, q, n)
  {
  }

  /** A replica changes nothing but volatile fields, or moves to a later term without a vote. */
  lemma SteadyKeeps(ids: set<NodeId>, p: Proto, q: Proto, n: NodeId)
    requires Inv(ids, p) && n in p.replicas && n in q.replicas && q == With(p, n, q.replicas[n], p.h)
    requires Forward(p.replicas[n], q.replicas[n]) && ReplicaOk(ids, q, n)
    requires var r := q.replicas[n]; var s := p.replicas[n];
             r.log == s.log && r.applied <= r.commit <= |r.log| && Committed(ids, p.h, r.log, r.commit, r.term)
    ensures Inv(ids, q)
  {
    forall a | a in q.h.acks && a.voter == n
      ensures AckOk(q, a)
    {
      assert AckOk(p, a);
      AckGrow(p, q, a);
    }
    GrowsRefl(p.h);
    MovedElections(ids, p, q, n);
    MoveKeeps(ids, p, q, n);
  }

  /** Follow a term: a later one is entered without a vote, and any other role is given up. */
  function Adopt(p: Proto, n: NodeId, t: nat): Proto
    requires n in p.replicas
  {
    var r := p.replicas[n];
    With(p, n, if t > r.term then r.(role := Follower, term := t, vote := None) else r.(role := Follower), p.h)
  }

  lemma AdoptKeeps(ids: set<NodeId>, p: Proto, n: NodeId, t: nat)
    requires Inv(ids, p) && n in p.replicas
    ensures Inv(ids, Adopt(p, n, t))
  {
    var q := Adopt(p, n, t);
    var r := p.replicas[n];
    GrowsRefl(p.h);
    CommittedGrow(ids, p.h, p.h, r.log, r.log, r.commit, r.term, q.replicas[n].term);
    assert ReplicaOk(ids, p, n);
    SteadyReplica(ids, p, q, n);
    SteadyKeeps(ids, p, q, n);
  }

  /** Restart from disk: the commit index falls back to what was durably applied. */
  function Reboot(p: Proto, n: NodeId): Proto
    requires n in p.replicas
  {
    var r := p.replicas[n];
    With(p, n, r.(role := Follower, commit := r.applied, matched := map[], tally := {}), p.h)
  }

  lemma RebootKeeps(ids: set<NodeId>, p: Proto, n: NodeId)
    requires Inv(ids, p) && n in p.replicas
    ensures Inv(ids, Reboot(p, n))
  {
    var r := p.replicas[n];
    CommittedLess(ids, p.h, r.log, r.commit, r.applied, r.term);
    assert ReplicaOk(ids, p, n);
    SteadyReplica(ids, p, Reboot(p, n), n);
    SteadyKeeps(ids, p, Reboot(p, n), n);
  }

  lemma ReplicaAt(ids: set<NodeId>, p: Proto, n: NodeId)
    requires Inv(ids, p) && n in p.replicas
    ensures ReplicaOk(ids, p, n)
  {
  }

  /** Raise the commit index and the durable applied index. */
  function Commit(p: Proto, n: NodeId, commit: nat, applied: nat): Proto
    requires n in p.replicas
  {
    With(p, n, p.replicas[n].(commit := commit, applied := applied), p.h)
  }

  lemma CommitReplica(ids: set<NodeId>, p: Proto, n: NodeId, commit: nat, applied: nat)
    requires n in p.replicas && ReplicaOk(ids, p, n) && p.replicas[n].commit <= commit
    ensures ReplicaOk(ids, Commit(p, n, commit, applied), n)
  {
  }

  lemma CommitKeeps(ids: set<NodeId>, p: Proto, n: NodeId, commit: nat, applied: nat)
    requires Inv(ids, p) && n in p.replicas
    requires p.replicas[n].applied <= applied <= commit <= |p.replicas[n].log| && p.replicas[n].commit <= commit
    requires Committed(ids, p.h, p.replicas[n].log, commit, p.replicas[n].term)
    ensures Inv(ids, Commit(p, n, commit, applied))
  {
    hide ReplicaOk, Committed;
    assert ReplicaOk(ids, p, n) by { ReplicaAt(ids, p, n); }
    CommitReplica(ids, p, n, commit, applied);
    SteadyKeeps(ids, p, Commit(p, n, commit, applied), n);
  }

  /** Replace what a leader believes about its peers. */
  function Believe(p: Proto, n: NodeId, matched: map<NodeId, nat>): Proto
    requires n in p.replicas
  {
    With(p, n, p.replicas[n].(matched := matched), p.h)
  }

  lemma BelieveReplica(ids: set<NodeId>, p: Proto, n: NodeId, matched: map<NodeId, nat>)
    requires n in p.replicas && ReplicaOk(ids, p, n) && matched.Keys <= ids
    requires p.replicas[n].role == Leader ==>
               forall q :: q in matched && matched[q] > p.replicas[n].commit ==>
                 Ballot(p.replicas[n].term, q) in p.h.acks && matched[q] <= p.h.acks[Ballot(p.replicas[n].term, q)]
    ensures ReplicaOk(ids, Believe(p, n, matched), n)
  {
  }

  lemma BelieveKeeps(ids: set<NodeId>, p: Proto, n: NodeId, matched: map<NodeId, nat>)
    requires Inv(ids, p) && n in p.replicas && matched.Keys <= ids
    requires p.replicas[n].role == Leader ==>
               forall q :: q in matched && matched[q] > p.replicas[n].commit ==>
                 Ballot(p.replicas[n].term, q) in p.h.acks && matched[q] <= p.h.acks[Ballot(p.replicas[n].term, q)]
    ensures Inv(ids, Believe(p, n, matched))
  {
    assert ReplicaOk(ids, p, n);
    BelieveReplica(ids, p, n, matched);
    SteadyKeeps(ids, p, Believe(p, n, matched), n);
  }

  /** A candidate counts a granted vote. */
  function Count(p: Proto, n: NodeId, v: NodeId): Proto
    requires n in p.replicas
  {
    With(p, n, p.replicas[n].(tally := p.replicas[n].tally + {v}), p.h)
  }

  lemma CountReplica(ids: set<NodeId>, p: Proto, n: NodeId, v: NodeId)
    requires n in p.replicas && ReplicaOk(ids, p, n) && v in ids
    requires p.replicas[n].role == Candidate ==>
               Ballot(p.replicas[n].term, v) in p.h.votes && p.h.votes[Ballot(p.replicas[n].term, v)].candidate == n
    ensures ReplicaOk(ids, Count(p, n, v), n)
  {
  }

  lemma CountKeeps(ids: set<NodeId>, p: Proto, n: NodeId, v: NodeId)
    requires Inv(ids, p) && n in p.replicas && v in ids
    requires p.replicas[n].role == Candidate ==>
               Ballot(p.replicas[n].term, v) in p.h.votes && p.h.votes[Ballot(p.replicas[n].term, v)].candidate == n
    ensures Inv(ids, Count(p, n, v))
  {
    assert ReplicaOk(ids, p, n);
    CountReplica(ids, p, n, v);
    SteadyKeeps(ids, p, Count(p, n, v), n);
  }

  // ----- the follower's log -----

  /** The new log keeps every entry on which the old one agreed with the leader's log. */
  ghost predicate KeepsAgreement(before: seq<Entry>, after: seq<Entry>, leader: seq<Entry>) {
    forall k: nat :: Agree(before, leader, k) ==> Agree(after, leader, k)
  }

  function SetLog(p: Proto, n: NodeId, log: seq<Entry>): Proto
    requires n in p.replicas
  {
    With(p, n, p.replicas[n].(log := log), p.h)
  }

  /** A log that a follower may move to while it follows the leader of its term. */
  predicate Follows(p: Proto, n: NodeId, log: seq<Entry>)
    requires n in p.replicas
  {
    var r := p.replicas[n];
    && r.role == Follower && r.term in p.h.reigns
    && Rooted(p.h.reigns, log)
    && (forall i :: 0 <= i < |log| ==> log[i].term <= r.term)
    && (log == r.log || Agree(log, p.h.reigns[r.term].log, |log|))
  }

  lemma SetLogAck(p: Proto, n: NodeId, log: seq<Entry>, a: Ballot)
    requires n in p.replicas && ReignLogsOk(p.h.reigns)
    requires Follows(p, n, log)
    requires KeepsAgreement(p.replicas[n].log, log, p.h.reigns[p.replicas[n].term].log)
    requires a in p.h.acks && a.voter == n && AckOk(p, a)
    ensures AckOk(SetLog(p, n, log), a)
  {
    var r := p.replicas[n];
    var reigns := p.h.reigns;
    forall k: nat | k <= p.h.acks[a]
      ensures Kept(reigns, log, a.term, k, r.term)
    {
      assert Kept(reigns, r.log, a.term, k, r.term);
      if Agree(r.log, reigns[a.term].log, k) {
        if a.term < r.term && !Lost(reigns, a.term, k, r.term) {
          assert Agree(r.log, reigns[r.term].log, k);
          assert Agree(log, reigns[r.term].log, k);
        }
      }
    }
  }

  /** The committed prefix of a follower is never touched by what its leader tells it. */
  lemma SetLogCommit(ids: set<NodeId>, p: Proto, n: NodeId, log: seq<Entry>)
    requires LeadersComplete(ids, p.h) && CommitsOk(ids, p)
    requires n in p.replicas && Follows(p, n, log)
    requires KeepsAgreement(p.replicas[n].log, log, p.h.reigns[p.replicas[n].term].log)
    ensures Agree(p.replicas[n].log, log, p.replicas[n].commit)
    ensures Committed(ids, p.h, log, p.replicas[n].commit, p.replicas[n].term)
  {
    var r := p.replicas[n];
    CommittedInReign(ids, p.h, r.log, r.commit, r.term);
    assert Agree(log, p.h.reigns[r.term].log, r.commit);
    GrowsRefl(p.h);
    CommittedGrow(ids, p.h, p.h, r.log, log, r.commit, r.term, r.term);
  }

  lemma SetLogReplica(ids: set<NodeId>, p: Proto, n: NodeId, log: seq<Entry>)
    requires n in p.replicas && ReplicaOk(ids, p, n) && Follows(p, n, log)
    ensures ReplicaOk(ids, SetLog(p, n, log), n)
  {
  }

  lemma SetLogAcks(p: Proto, n: NodeId, log: seq<Entry>)
    requires ReignLogsOk(p.h.reigns) && AcksOk(p)
    requires n in p.replicas && Follows(p, n, log)
    requires KeepsAgreement(p.replicas[n].log, log, p.h.reigns[p.replicas[n].term].log)
    ensures forall a :: a in p.h.acks && a.voter == n ==> AckOk(SetLog(p, n, log), a)
  {
    forall a | a in p.h.acks && a.voter == n
      ensures AckOk(SetLog(p, n, log), a)
    {
      assert AckOk(p, a);
      SetLogAck(p, n, log, a);
    }
  }

  lemma SetLogKeeps(ids: set<NodeId>, p: Proto, n: NodeId, log: seq<Entry>)
    requires Inv(ids, p) && n in p.replicas && Follows(p, n, log)
    requires KeepsAgreement(p.replicas[n].log, log, p.h.reigns[p.replicas[n].term].log)
    ensures Inv(ids, SetLog(p, n, log))
  {
    var q := SetLog(p, n, log);
    LeadersAreComplete(ids, p);
    SetLogCommit(ids, p, n, log);
    SetLogAcks(p, n, log);
    assert ReplicaOk(ids, p, n);
    SetLogReplica(ids, p, n, log);
    GrowsRefl(p.h);
    MovedElections(ids, p, q, n);
    MoveKeeps(ids, p, q, n);
  }

  // ----- moves that extend the history -----

  /** Record that voter v confirmed the log of the leader of t up to k. */
  function Confirm(h: History, t: nat, v: NodeId, k: nat): History {
    var b := Ballot(t, v);
    h.(acks := h.acks[b := if b in h.acks then Max(h.acks[b], k) else k])
  }

  function Acknowledge(p: Proto, n: NodeId, k: nat): Proto
    requires n in p.replicas
  {
    With(p, n, p.replicas[n], Confirm(p.h, p.replicas[n].term, n, k))
  }

  lemma AcknowledgeReplica(ids: set<NodeId>, p: Proto, n: NodeId, k: nat)
    requires n in p.replicas && ReplicaOk(ids, p, n) && p.replicas[n].term in p.h.reigns
    requires Agree(p.replicas[n].log, p.h.reigns[p.replicas[n].term].log, k)
    ensures ReplicaOk(ids, Acknowledge(p, n, k), n)
  {
  }

  lemma AcknowledgeAcks(p: Proto, n: NodeId, k: nat)
    requires ReignLogsOk(p.h.reigns) && AcksOk(p)
    requires n in p.replicas && p.replicas[n].term in p.h.reigns
    requires Agree(p.replicas[n].log, p.h.reigns[p.replicas[n].term].log, k)
    ensures var q := Acknowledge(p, n, k); forall a :: a in q.h.acks && a.voter == n ==> AckOk(q, a)
  {
    var q := Acknowledge(p, n, k);
    var r := p.replicas[n];
    forall a | a in q.h.acks && a.voter == n
      ensures AckOk(q, a)
    {
      if a.term != r.term {
        assert AckOk(p, a);
        AckGrow(p, q, a);
      } else {
        forall i: nat | i <= q.h.acks[a]
          ensures Kept(q.h.reigns, r.log, a.term, i, r.term)
        {
          if i > k { assert AckOk(p, a) && Kept(p.h.reigns, r.log, a.term, i, r.term); }
        }
      }
    }
  }

  lemma AcknowledgeOnlyBy(p: Proto, n: NodeId, k: nat)
    requires n in p.replicas
    ensures OnlyBy(p.h, Acknowledge(p, n, k).h, n)
  {
  }

  lemma AcknowledgeKeeps(ids: set<NodeId>, p: Proto, n: NodeId, k: nat)
    requires Inv(ids, p) && n in p.replicas && p.replicas[n].term in p.h.reigns
    requires Agree(p.replicas[n].log, p.h.reigns[p.replicas[n].term].log, k)
    ensures Inv(ids, Acknowledge(p, n, k))
    ensures Grows(p.h, Acknowledge(p, n, k).h)
  {
    var q := Acknowledge(p, n, k);
    var r := p.replicas[n];
    assert ReplicaOk(ids, p, n);
    AcknowledgeOnlyBy(p, n, k);
    AcknowledgeReplica(ids, p, n, k);
    AcknowledgeAcks(p, n, k);
    AcknowledgeVotes(ids, p, n, k);
    MovedElections(ids, p, q, n);
    CommittedGrow(ids, p.h, q.h, r.log, r.log, r.commit, r.term, r.term);
    MoveKeeps(ids, p, q, n);
  }

  lemma AcknowledgeVotes(ids: set<NodeId>, p: Proto, n: NodeId, k: nat)
    requires VotesOk(ids, p) && VotesKeep(p.h) && n in p.replicas
    ensures VotesKeep(Acknowledge(p, n, k).h)
  {
    var h := Acknowledge(p, n, k).h;
    forall b: Ballot, t: nat, i: nat |
      b in h.votes && t < b.term && t in h.reigns && Ballot(t, b.voter) in h.acks && i <= h.acks[Ballot(t, b.voter)]
      ensures VoteKeeps(h, b, t, i)
    {
      assert VoteOk(p, b);
      assert VoteKeeps(p.h, b, t, i);
    }
  }

  /** Put messages on the network. */
  function Send(p: Proto, ms: set<Message>): Proto {
    p.(msgs := p.msgs + ms)
  }

  /** What holds of a replica, a vote, a confirmation, a leader or a message does not depend on the network. */
  lemma SendReplica(ids: set<NodeId>, p: Proto, ms: set<Message>, n: NodeId)
    requires n in p.replicas && ReplicaOk(ids, p, n)
    ensures ReplicaOk(ids, Send(p, ms), n)
  {
  }

  lemma SendMessage(ids: set<NodeId>, p: Proto, ms: set<Message>, m: Message)
    requires MessageOk(ids, p, m)
    ensures MessageOk(ids, Send(p, ms), m)
  {
  }

  lemma SendHistory(ids: set<NodeId>, p: Proto, ms: set<Message>)
    requires ElectionsOk(ids, p) && VotesOk(ids, p) && AcksOk(p)
    ensures var q := Send(p, ms); ElectionsOk(ids, q) && VotesOk(ids, q) && AcksOk(q)
  {
    var q := Send(p, ms);
    forall t | t in q.h.reigns ensures ElectionOk(ids, q, t) { assert ElectionOk(ids, p, t); }
    forall b | b in q.h.votes ensures VoteOk(q, b) { assert VoteOk(p, b); }
    forall a | a in q.h.acks ensures AckOk(q, a) { assert AckOk(p, a); }
  }

  lemma SendKeeps(ids: set<NodeId>, p: Proto, ms: set<Message>)
    requires Inv(ids, p) && forall m :: m in ms ==> MessageOk(ids, p, m)
    ensures Inv(ids, Send(p, ms))
  {
    hide ReignLogsOk, LeadersAcked, VotesKeep, ElectionsOk, VotesOk, AcksOk, ReplicaOk, MessageOk, Committed;
    var q := Send(p, ms);
    SendHistory(ids, p, ms);
    forall n | n in q.replicas ensures ReplicaOk(ids, q, n) { SendReplica(ids, p, ms, n); }
    forall m | m in q.msgs ensures MessageOk(ids, q, m) { SendMessage(ids, p, ms, m); }
  }
}
