/** Campaigning, voting, winning, and the leader's own appends: the actions that write history. */
module ProtocolElections {
  import opened RaftTypes
  import opened Logs
  import opened Protocol
  import opened ProtocolActions

  // ----- casting a vote -----

  /** Voter v, already in the term, records its vote with the log it has at this moment. */
  function Cast(h: History, t: nat, v: NodeId, rec: VoteRecord): History {
    h.(votes := h.votes[Ballot(t, v) := rec])
  }

  lemma CastKeepsVotes(p: Proto, t: nat, v: NodeId, rec: VoteRecord)
    requires VotesKeep(p.h) && AcksOk(p) && v in p.replicas
    requires p.replicas[v].term <= t && rec.log == p.replicas[v].log
    requires Ballot(t, v) !in p.h.votes
    requires forall u :: u in p.h.reigns ==> forall w :: w in p.h.reigns[u].quorum ==> Ballot(u, w) in p.h.votes
    ensures VotesKeep(Cast(p.h, t, v, rec))
  {
    var h := Cast(p.h, t, v, rec);
    forall b: Ballot, s: nat, k: nat |
      b in h.votes && s < b.term && s in h.reigns && Ballot(s, b.voter) in h.acks && k <= h.acks[Ballot(s, b.voter)]
      ensures VoteKeeps(h, b, s, k)
    {
      if b == Ballot(t, v) {
        assert AckOk(p, Ballot(s, v));
        assert Kept(p.h.reigns, rec.log, s, k, p.replicas[v].term);
      } else {
        assert VoteKeeps(p.h, b, s, k);
      }
    }
  }

  lemma QuorumsVoted(ids: set<NodeId>, p: Proto)
    requires ElectionsOk(ids, p)
    ensures forall u :: u in p.h.reigns ==> forall w :: w in p.h.reigns[u].quorum ==> Ballot(u, w) in p.h.votes
  {
    forall u | u in p.h.reigns
      ensures forall w :: w in p.h.reigns[u].quorum ==> Ballot(u, w) in p.h.votes
    {
      assert ElectionOk(ids, p, u);
    }
  }

  lemma CastVotes(ids: set<NodeId>, p: Proto, t: nat, v: NodeId, rec: VoteRecord)
    requires ElectionsOk(ids, p) && VotesKeep(p.h) && AcksOk(p) && v in p.replicas
    requires p.replicas[v].term <= t && rec.log == p.replicas[v].log
    requires Ballot(t, v) !in p.h.votes
    ensures VotesKeep(Cast(p.h, t, v, rec))
  {
    QuorumsVoted(ids, p);
    CastKeepsVotes(p, t, v, rec);
  }

  lemma CastOnlyBy(h: History, t: nat, v: NodeId, rec: VoteRecord)
    requires Ballot(t, v) !in h.votes
    ensures OnlyBy(h, Cast(h, t, v, rec), v)
  {
  }

  /** The replica that votes keeps its log and its commit index. */
  lemma CastKeeps(ids: set<NodeId>, p: Proto, q: Proto, n: NodeId, rec: VoteRecord)
    requires Inv(ids, p) && n in p.replicas && n in q.replicas
    requires var r := p.replicas[n]; var s := q.replicas[n];
             && s.log == r.log && s.commit == r.commit && s.applied == r.applied
             && q == With(p, n, s, Cast(p.h, s.term, n, rec))
             && Ballot(s.term, n) !in p.h.votes
             && rec.log == r.log
    requires Forward(p.replicas[n], q.replicas[n])
    requires ReplicaOk(ids, q, n) && VoteOk(q, Ballot(q.replicas[n].term, n))
    ensures Inv(ids, q) && Grows(p.h, q.h)
  {
    var r := p.replicas[n];
    CastOnlyBy(p.h, q.replicas[n].term, n, rec);
    CastVotes(ids, p, q.replicas[n].term, n, rec);
    CommittedGrow(ids, p.h, q.h, r.log, r.log, r.commit, r.term, q.replicas[n].term);
    CastAcks(p, q, n);
    MovedElections(ids, p, q, n);
    MoveKeeps(ids, p, q, n);
  }

  lemma CastAcks(p: Proto, q: Proto, n: NodeId)
    requires ReignLogsOk(p.h.reigns) && AcksOk(p) && Grows(p.h, q.h) && q.h.acks == p.h.acks
    requires n in p.replicas && n in q.replicas && q.replicas[n].log == p.replicas[n].log
    requires p.replicas[n].term <= q.replicas[n].term
    ensures forall a :: a in q.h.acks && a.voter == n ==> AckOk(q, a)
  {
    forall a | a in q.h.acks && a.voter == n
      ensures AckOk(q, a)
    {
      assert AckOk(p, a);
      AckGrow(p, q, a);
    }
  }

  /** Start an election: enter the next term and vote for oneself. */
  function Campaign(p: Proto, n: NodeId): Proto
    requires n in p.replicas
  {
    var r := p.replicas[n];
    var s := r.(role := Candidate, term := r.term + 1, vote := Some(n), tally := {n});
    With(p, n, s, Cast(p.h, s.term, n, VoteRecord(n, r.log, |r.log|, TermOf(r.log, |r.log|))))
  }

  lemma CampaignReplica(ids: set<NodeId>, p: Proto, n: NodeId)
    requires n in p.replicas && ReplicaOk(ids, p, n) && n in ids
    requires ReignsBehind(p, n)
    ensures var q := Campaign(p, n); var r := p.replicas[n];
            && ReplicaOk(ids, q, n) && VoteOk(q, Ballot(q.replicas[n].term, n))
            && Forward(p.replicas[n], q.replicas[n])
            && ClaimOk(q, n, r.term + 1, |r.log|, TermOf(r.log, |r.log|))
  {
  }

  /** Nobody leads a term that it has not reached. */
  predicate ReignsBehind(p: Proto, n: NodeId)
    requires n in p.replicas
  {
    forall t :: t in p.h.reigns && p.h.reigns[t].leader == n ==> t <= p.replicas[n].term
  }

  lemma ReignsAreBehind(ids: set<NodeId>, p: Proto, n: NodeId)
    requires ElectionsOk(ids, p) && n in p.replicas
    ensures ReignsBehind(p, n)
  {
    forall t | t in p.h.reigns && p.h.reigns[t].leader == n
      ensures t <= p.replicas[n].term
    {
      assert ElectionOk(ids, p, t);
    }
  }

  lemma CampaignKeeps(ids: set<NodeId>, p: Proto, n: NodeId)
    requires Inv(ids, p) && n in p.replicas
    ensures Inv(ids, Campaign(p, n))
    ensures Grows(p.h, Campaign(p, n).h)
    ensures var r := p.replicas[n]; ClaimOk(Campaign(p, n), n, r.term + 1, |r.log|, TermOf(r.log, |r.log|))
  {
    var r := p.replicas[n];
    assert ReplicaOk(ids, p, n);
    ReignsAreBehind(ids, p, n);
    assert Ballot(r.term + 1, n) in p.h.votes ==> VoteOk(p, Ballot(r.term + 1, n));
    CampaignReplica(ids, p, n);
    CastKeeps(ids, p, Campaign(p, n), n, VoteRecord(n, r.log, |r.log|, TermOf(r.log, |r.log|)));
  }

  /** Grant a vote in the current term; a vote that was already given to this candidate is only repeated. */
  function Grant(p: Proto, n: NodeId, req: VoteRequest): Proto
    requires n in p.replicas
  {
    var r := p.replicas[n];
    if r.vote == Some(req.candidate) then p
    else With(p, n, r.(vote := Some(req.candidate)),
              Cast(p.h, r.term, n, VoteRecord(req.candidate, r.log, req.lastIndex, req.lastTerm)))
  }

  lemma GrantReplica(ids: set<NodeId>, p: Proto, n: NodeId, req: VoteRequest)
    requires n in p.replicas && ReplicaOk(ids, p, n) && n in ids
    requires var r := p.replicas[n];
             && r.term == req.term && r.vote.None? && r.role != Candidate
             && UpToDate(req.lastIndex, req.lastTerm, r.log)
             && ClaimOk(p, req.candidate, req.term, req.lastIndex, req.lastTerm)
    ensures var q := Grant(p, n, req);
            ReplicaOk(ids, q, n) && VoteOk(q, Ballot(req.term, n)) && Forward(p.replicas[n], q.replicas[n])
  {
  }

  /** A node without a vote in its term is no candidate: a candidate votes for itself. */
  lemma CandidateHasVoted(ids: set<NodeId>, p: Proto, n: NodeId)
    requires VotesOk(ids, p) && n in p.replicas && ReplicaOk(ids, p, n) && p.replicas[n].role == Candidate
    ensures p.replicas[n].vote == Some(n)
  {
    assert VoteOk(p, Ballot(p.replicas[n].term, n));
  }

  lemma GrantKeeps(ids: set<NodeId>, p: Proto, n: NodeId, req: VoteRequest)
    requires Inv(ids, p) && n in p.replicas
    requires var r := p.replicas[n];
             && r.term == req.term && (r.vote.None? || r.vote == Some(req.candidate))
             && UpToDate(req.lastIndex, req.lastTerm, r.log)
             && ClaimOk(p, req.candidate, req.term, req.lastIndex, req.lastTerm)
    ensures Inv(ids, Grant(p, n, req))
    ensures Grows(p.h, Grant(p, n, req).h)
    ensures var h := Grant(p, n, req).h;
            Ballot(req.term, n) in h.votes && h.votes[Ballot(req.term, n)].candidate == req.candidate
  {
    var r := p.replicas[n];
    assert ReplicaOk(ids, p, n);
    if r.vote.None? {
      if r.role == Candidate { CandidateHasVoted(ids, p, n); }
      assert Ballot(r.term, n) in p.h.votes ==> VoteOk(p, Ballot(r.term, n));
      GrantReplica(ids, p, n, req);
      CastKeeps(ids, p, Grant(p, n, req), n, VoteRecord(req.candidate, r.log, req.lastIndex, req.lastTerm));
    }
  }

  // ----- winning -----

  /** A candidate with a quorum starts its reign with the log it has. */
  function Win(p: Proto, n: NodeId, matched: map<NodeId, nat>): Proto
    requires n in p.replicas
  {
    var r := p.replicas[n];
    With(p, n, r.(role := Leader, matched := matched),
         p.h.(reigns := p.h.reigns[r.term := Reign(n, r.tally, |r.log|, r.log)],
              acks := p.h.acks[Ballot(r.term, n) := |r.log|]))
  }

  /** Two quorums share a voter, and a voter votes once: the term has no leader yet. */
  lemma FirstToWin(ids: set<NodeId>, p: Proto, n: NodeId)
    requires ElectionsOk(ids, p) && VotesOk(ids, p)
    requires n in p.replicas && p.replicas[n].role == Candidate && CandidateOk(ids, p, n)
    requires IsQuorum(ids, p.replicas[n].tally)
    ensures p.replicas[n].term !in p.h.reigns
  {
    var t := p.replicas[n].term;
    if t in p.h.reigns {
      assert ElectionOk(ids, p, t);
      var v := QuorumsMeet(ids, p.h.reigns[t].quorum, p.replicas[n].tally);
      assert false;
    }
  }

  lemma WinElection(ids: set<NodeId>, p: Proto, n: NodeId, matched: map<NodeId, nat>)
    requires VotesOk(ids, p)
    requires n in p.replicas && p.replicas[n].role == Candidate && CandidateOk(ids, p, n)
    requires IsQuorum(ids, p.replicas[n].tally)
    ensures ElectionOk(ids, Win(p, n, matched), p.replicas[n].term)
  {
    var r := p.replicas[n];
    forall v | v in r.tally
      ensures UpToDate(|r.log|, TermOf(r.log, |r.log|), p.h.votes[Ballot(r.term, v)].log)
    {
      assert VoteOk(p, Ballot(r.term, v));
    }
  }

  lemma WinElections(ids: set<NodeId>, p: Proto, n: NodeId, matched: map<NodeId, nat>)
    requires ElectionsOk(ids, p) && VotesOk(ids, p)
    requires n in p.replicas && p.replicas[n].role == Candidate && CandidateOk(ids, p, n)
    requires IsQuorum(ids, p.replicas[n].tally) && p.replicas[n].term !in p.h.reigns
    requires Grows(p.h, Win(p, n, matched).h)
    ensures ElectionsOk(ids, Win(p, n, matched))
  {
    var q := Win(p, n, matched);
    forall t | t in q.h.reigns
      ensures ElectionOk(ids, q, t)
    {
      if t == p.replicas[n].term {
        WinElection(ids, p, n, matched);
      } else {
        assert ElectionOk(ids, p, t);
        MovedElection(ids, p, q, n, t);
      }
    }
  }

  lemma WinLogs(p: Proto, n: NodeId, matched: map<NodeId, nat>)
    requires ReignLogsOk(p.h.reigns) && n in p.replicas && p.replicas[n].term !in p.h.reigns
    requires Rooted(p.h.reigns, p.replicas[n].log)
    requires forall i :: 0 <= i < |p.replicas[n].log| ==> p.replicas[n].log[i].term <= p.replicas[n].term
    ensures ReignLogsOk(Win(p, n, matched).h.reigns)
  {
    var g := p.h.reigns;
    var h := Win(p, n, matched).h.reigns;
    var log := p.replicas[n].log;
    forall i | 0 <= i < |log|
      ensures log[i].index == i + 1 && log[i].command.SetCommand? && log[i].term < p.replicas[n].term
    {
      assert Agree(log, g[log[i].term].log, i + 1);
    }
    RootedGrow(g, h, log);
    forall t | t in g
      ensures Rooted(h, g[t].log)
    {
      RootedGrow(g, h, g[t].log);
    }
  }

  lemma WinVotes(ids: set<NodeId>, p: Proto, n: NodeId, matched: map<NodeId, nat>)
    requires ReignLogsOk(p.h.reigns) && VotesOk(ids, p) && VotesKeep(p.h) && AcksOk(p)
    requires n in p.replicas && p.replicas[n].term !in p.h.reigns
    ensures VotesKeep(Win(p, n, matched).h)
  {
    var h := Win(p, n, matched).h;
    forall b: Ballot, t: nat, k: nat |
      b in h.votes && t < b.term && t in h.reigns && Ballot(t, b.voter) in h.acks && k <= h.acks[Ballot(t, b.voter)]
      ensures VoteKeeps(h, b, t, k)
    {
      assert VoteOk(p, b);
      assert Ballot(t, b.voter) in p.h.acks;
      assert AckOk(p, Ballot(t, b.voter));
      assert VoteKeeps(p.h, b, t, k);
      VoteKeepsGrow(p.h, h, b, t, k);
    }
  }

  lemma VoteKeepsGrow(g: History, h: History, b: Ballot, t: nat, k: nat)
    requires Grows(g, h) && ReignLogsOk(g.reigns)
    requires b in g.votes && t in g.reigns && k <= |g.reigns[t].log| && VoteKeeps(g, b, t, k)
    ensures VoteKeeps(h, b, t, k)
  {
    if !Agree(g.votes[b].log, g.reigns[t].log, k) {
      var u: nat :| u <= b.term && Lost(g.reigns, t, k, u) && (u == b.term ==> b.voter !in g.reigns[u].quorum);
      LostGrow(g.reigns, h.reigns, t, k, u);
    }
  }

  lemma WinReplica(ids: set<NodeId>, p: Proto, n: NodeId, matched: map<NodeId, nat>)
    requires n in p.replicas && ReplicaOk(ids, p, n) && p.replicas[n].term !in p.h.reigns
    requires matched.Keys <= ids
    requires forall m :: m in matched && matched[m] > 0 ==> m == n && matched[m] <= |p.replicas[n].log|
    ensures ReplicaOk(ids, Win(p, n, matched), n)
  {
    RootedGrow(p.h.reigns, Win(p, n, matched).h.reigns, p.replicas[n].log);
  }

  lemma WinAcks(p: Proto, n: NodeId, matched: map<NodeId, nat>)
    requires ReignLogsOk(p.h.reigns) && AcksOk(p) && n in p.replicas && p.replicas[n].term !in p.h.reigns
    ensures var q := Win(p, n, matched); forall a :: a in q.h.acks && a.voter == n ==> AckOk(q, a)
  {
    var q := Win(p, n, matched);
    var r := p.replicas[n];
    forall a | a in q.h.acks && a.voter == n
      ensures AckOk(q, a)
    {
      if a in p.h.acks {
        assert AckOk(p, a);
        AckGrow(p, q, a);
      } else {
        assert forall k: nat :: k <= |r.log| ==> Agree(r.log, q.h.reigns[r.term].log, k);
      }
    }
  }

  lemma WinLeaders(p: Proto, n: NodeId, matched: map<NodeId, nat>)
    requires LeadersAcked(p.h) && n in p.replicas && p.replicas[n].term !in p.h.reigns
    ensures LeadersAcked(Win(p, n, matched).h)
  {
  }

  lemma WinOnlyBy(p: Proto, n: NodeId, matched: map<NodeId, nat>)
    requires AcksOk(p) && n in p.replicas && p.replicas[n].term !in p.h.reigns
    ensures OnlyBy(p.h, Win(p, n, matched).h, n)
  {
    var b := Ballot(p.replicas[n].term, n);
    assert b in p.h.acks ==> AckOk(p, b);
  }

  lemma WinKeeps(ids: set<NodeId>, p: Proto, n: NodeId, matched: map<NodeId, nat>)
    requires Inv(ids, p) && n in p.replicas && p.replicas[n].role == Candidate
    requires IsQuorum(ids, p.replicas[n].tally)
    requires matched.Keys <= ids
    requires forall m :: m in matched && matched[m] > 0 ==> m == n && matched[m] <= |p.replicas[n].log|
    ensures p.replicas[n].term !in p.h.reigns
    ensures Inv(ids, Win(p, n, matched))
    ensures Grows(p.h, Win(p, n, matched).h)
  {
    var q := Win(p, n, matched);
    var r := p.replicas[n];
    assert ReplicaOk(ids, p, n);
    FirstToWin(ids, p, n);
    WinOnlyBy(p, n, matched);
    WinReplica(ids, p, n, matched);
    WinAcks(p, n, matched);
    WinLeaders(p, n, matched);
    WinLogs(p, n, matched);
    WinVotes(ids, p, n, matched);
    WinElections(ids, p, n, matched);
    CommittedGrow(ids, p.h, q.h, r.log, r.log, r.commit, r.term, r.term);
    MoveKeeps(ids, p, q, n);
  }

  // ----- the leader's appends -----

  /** A leader appends an entry of its own term to its log, which is the log of its reign. */
  function Extend(p: Proto, n: NodeId, e: Entry): Proto
    requires n in p.replicas && p.replicas[n].term in p.h.reigns
  {
    var r := p.replicas[n];
    var log := r.log + [e];
    With(p, n, r.(log := log, matched := r.matched[n := e.index]),
         p.h.(reigns := p.h.reigns[r.term := p.h.reigns[r.term].(log := log)],
              acks := p.h.acks[Ballot(r.term, n) := |log|]))
  }

  /** The entry a leader may append next. */
  predicate NextEntry(r: Replica, e: Entry) {
    e.index == |r.log| + 1 && e.term == r.term && e.command.SetCommand?
  }

  lemma ExtendOnlyBy(p: Proto, n: NodeId, e: Entry)
    requires n in p.replicas && LeaderOk(p, n)
    ensures OnlyBy(p.h, Extend(p, n, e).h, n)
  {
  }

  lemma ExtendRooted(p: Proto, n: NodeId, e: Entry)
    requires n in p.replicas && LeaderOk(p, n) && NextEntry(p.replicas[n], e)
    requires Rooted(p.h.reigns, p.replicas[n].log) && Grows(p.h, Extend(p, n, e).h)
    ensures Rooted(Extend(p, n, e).h.reigns, p.replicas[n].log + [e])
  {
    var h := Extend(p, n, e).h.reigns;
    var r := p.replicas[n];
    RootedGrow(p.h.reigns, h, r.log);
    forall i | 0 <= i < |r.log|
      ensures r.log[i].term in h && Agree(r.log + [e], h[r.log[i].term].log, i + 1)
    {
      assert Agree(r.log, h[r.log[i].term].log, i + 1);
    }
  }

  lemma ExtendLogs(p: Proto, n: NodeId, e: Entry)
    requires ReignLogsOk(p.h.reigns) && n in p.replicas && LeaderOk(p, n) && NextEntry(p.replicas[n], e)
    requires Grows(p.h, Extend(p, n, e).h)
    ensures ReignLogsOk(Extend(p, n, e).h.reigns)
  {
    var g := p.h.reigns;
    var h := Extend(p, n, e).h.reigns;
    var r := p.replicas[n];
    assert ReignLogOk(g, r.term);
    ExtendRooted(p, n, e);
    forall t | t in h
      ensures ReignLogOk(h, t)
    {
      if t != r.term {
        assert ReignLogOk(g, t);
        RootedGrow(g, h, g[t].log);
      }
    }
  }

  lemma ExtendReplica(ids: set<NodeId>, p: Proto, n: NodeId, e: Entry)
    requires n in p.replicas && n in ids && ReplicaOk(ids, p, n) && p.replicas[n].role == Leader
    requires NextEntry(p.replicas[n], e)
    requires Rooted(Extend(p, n, e).h.reigns, p.replicas[n].log + [e])
    ensures ReplicaOk(ids, Extend(p, n, e), n)
  {
  }

  lemma ExtendAck(p: Proto, n: NodeId, e: Entry, a: Ballot)
    requires ReignLogsOk(p.h.reigns) && n in p.replicas && LeaderOk(p, n) && NextEntry(p.replicas[n], e)
    requires a in p.h.acks && a.voter == n && AckOk(p, a) && a.term != p.replicas[n].term
    ensures AckOk(Extend(p, n, e), a)
  {
    var q := Extend(p, n, e);
    var r := p.replicas[n];
    ExtendOnlyBy(p, n, e);
    forall k: nat | k <= p.h.acks[a]
      ensures Kept(q.h.reigns, q.replicas[n].log, a.term, k, r.term)
    {
      KeptGrow(p.h.reigns, q.h.reigns, r.log, a.term, k, r.term, r.term);
    }
  }

  lemma ExtendAcks(p: Proto, n: NodeId, e: Entry)
    requires ReignLogsOk(p.h.reigns) && AcksOk(p) && n in p.replicas && LeaderOk(p, n) && NextEntry(p.replicas[n], e)
    ensures var q := Extend(p, n, e); forall a :: a in q.h.acks && a.voter == n ==> AckOk(q, a)
  {
    var q := Extend(p, n, e);
    var r := p.replicas[n];
    forall a | a in q.h.acks && a.voter == n
      ensures AckOk(q, a)
    {
      if a.term != r.term {
        assert AckOk(p, a);
        ExtendAck(p, n, e, a);
      } else {
        assert forall k: nat :: k <= q.h.acks[a] ==> Agree(q.replicas[n].log, q.h.reigns[r.term].log, k);
      }
    }
  }

  lemma ExtendVotes(ids: set<NodeId>, p: Proto, n: NodeId, e: Entry)
    requires ReignLogsOk(p.h.reigns) && VotesOk(ids, p) && VotesKeep(p.h) && AcksOk(p)
    requires n in p.replicas && LeaderOk(p, n)
    ensures VotesKeep(Extend(p, n, e).h)
  {
    var h := Extend(p, n, e).h;
    ExtendOnlyBy(p, n, e);
    forall b: Ballot, t: nat, k: nat |
      b in h.votes && t < b.term && t in h.reigns && Ballot(t, b.voter) in h.acks && k <= h.acks[Ballot(t, b.voter)]
      ensures VoteKeeps(h, b, t, k)
    {
      assert VoteOk(p, b);
      assert Ballot(t, b.voter) in p.h.acks;
      assert AckOk(p, Ballot(t, b.voter));
      assert VoteKeeps(p.h, b, t, k);
      VoteKeepsGrow(p.h, h, b, t, k);
    }
  }

  lemma ExtendCommit(ids: set<NodeId>, p: Proto, n: NodeId, e: Entry)
    requires n in p.replicas && p.replicas[n].term in p.h.reigns && Grows(p.h, Extend(p, n, e).h)
    requires var r := p.replicas[n]; r.commit <= |r.log| && Committed(ids, p.h, r.log, r.commit, r.term)
    ensures var r := Extend(p, n, e).replicas[n]; Committed(ids, Extend(p, n, e).h, r.log, r.commit, r.term)
  {
    var r := p.replicas[n];
    CommittedGrow(ids, p.h, Extend(p, n, e).h, r.log, r.log + [e], r.commit, r.term, r.term);
  }

  lemma ExtendMoved(ids: set<NodeId>, p: Proto, n: NodeId, e: Entry)
    requires ReignLogsOk(p.h.reigns) && AcksOk(p) && n in ids
    requires n in p.replicas && ReplicaOk(ids, p, n)
    requires p.replicas[n].role == Leader && NextEntry(p.replicas[n], e)
    requires var r := p.replicas[n];
             r.applied <= r.commit <= |r.log| && Committed(ids, p.h, r.log, r.commit, r.term)
    ensures Moved(ids, p, Extend(p, n, e), n)
  {
    ExtendOnlyBy(p, n, e);
    ExtendRooted(p, n, e);
    ExtendReplica(ids, p, n, e);
    ExtendAcks(p, n, e);
    ExtendCommit(ids, p, n, e);
  }

  lemma ExtendLeaders(p: Proto, n: NodeId, e: Entry)
    requires LeadersAcked(p.h) && n in p.replicas && LeaderOk(p, n)
    ensures LeadersAcked(Extend(p, n, e).h)
  {
  }

  lemma ExtendHistory(ids: set<NodeId>, p: Proto, n: NodeId, e: Entry)
    requires ReignLogsOk(p.h.reigns) && LeadersAcked(p.h) && ElectionsOk(ids, p) && VotesOk(ids, p)
             && VotesKeep(p.h) && AcksOk(p)
    requires n in p.replicas && LeaderOk(p, n) && p.replicas[n].role == Leader && NextEntry(p.replicas[n], e)
    ensures var q := Extend(p, n, e);
            ReignLogsOk(q.h.reigns) && LeadersAcked(q.h) && VotesKeep(q.h) && ElectionsOk(ids, q)
  {
    ExtendLeaders(p, n, e);
    ExtendOnlyBy(p, n, e);
    ExtendLogs(p, n, e);
    ExtendVotes(ids, p, n, e);
    MovedElections(ids, p, Extend(p, n, e), n);
  }

  lemma ExtendKeeps(ids: set<NodeId>, p: Proto, n: NodeId, e: Entry)
    requires Inv(ids, p) && n in p.replicas && p.replicas[n].role == Leader && NextEntry(p.replicas[n], e)
    ensures p.replicas[n].term in p.h.reigns
    ensures Inv(ids, Extend(p, n, e))
    ensures Grows(p.h, Extend(p, n, e).h)
  {
    assert ReplicaOk(ids, p, n);
    ExtendMoved(ids, p, n, e);
    ExtendHistory(ids, p, n, e);
    MoveKeeps(ids, p, Extend(p, n, e), n);
  }
}
