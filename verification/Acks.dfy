/** Acknowledgements and what they oblige: an entry a quorum acknowledged is in
    every later leader's log. Holds in runs whose acknowledgements are true of the
    log of the term they answer. */
module Acks {
  import opened Types
  import opened RaftLog
  import opened NodeSpec
  import opened Cluster
  import opened Shape
  import opened Votes
  import opened Logs
  import opened LogSteps
  import opened Actions

  /** Term t's leader did create an entry at index k. */
  predicate Real(es: Elections, k: nat, t: nat) { t in es && Has(es[t].log, k, t) }

  predicate IsAck(m: Message, v: NodeId, k: nat, t: nat) {
    m.AppendEntriesResp? && m.success && m.from == v && m.term == t && m.matchIndex >= k
  }

  /** v vouches for term t's entry at k: by a reply sent or about to be, or as the
      leader who made it. */
  ghost predicate Acked(c: Cluster, v: NodeId, k: nat, t: nat) {
    (t in c.elections && c.elections[t].leader == v) || exists m :: Claimed(c, m) && IsAck(m, v, k, t)
  }

  /** Term u is later than t, and its leader never had t's entry at k. */
  predicate Lacks(es: Elections, u: nat, k: nat, t: nat) { u in es && u > t && !Has(es[u].log, k, t) }

  ghost predicate Lacking(es: Elections, k: nat, t: nat) { exists u: nat :: Lacks(es, u, k, t) }

  ghost predicate AckBound(c: Cluster) {
    forall m :: Claimed(c, m) && m.AppendEntriesResp? && m.success ==>
      m.term in c.elections && m.matchIndex <= |c.elections[m.term].log|
  }

  ghost predicate HoldsAck(c: Cluster, v: NodeId, k: nat, t: nat) {
    v in c.hosts && Real(c.elections, k, t) && Acked(c, v, k, t) ==>
      Has(c.hosts[v].n.log, k, t) || Lacking(c.elections, k, t)
  }

  ghost predicate HoldsAcks(c: Cluster) {
    forall v: NodeId, k: nat, t: nat :: HoldsAck(c, v, k, t)
  }

  /** m supports a candidacy that can still win. */
  predicate Supports(c: Cluster, m: Message) {
    var i := VoteOf(m);
    i in c.hosts && c.hosts[i].n.role == Candidate && c.hosts[i].n.term == m.term && m.term !in c.elections
  }

  ghost predicate Informs(c: Cluster, m: Message, k: nat, t: nat) {
    Claimed(c, m) && Supports(c, m) && t < m.term && Real(c.elections, k, t) && Acked(c, m.from, k, t) ==>
      Has(c.hosts[VoteOf(m)].n.log, k, t) || Lacking(c.elections, k, t)
  }

  ghost predicate VotesInform(c: Cluster) {
    forall m: Message, k: nat, t: nat :: Informs(c, m, k, t)
  }

  ghost predicate LackedBefore(es: Elections, u: nat, k: nat, t: nat)
    requires u in es
  {
    exists w: nat :: Lacks(es, w, k, t) && es[w].rank < es[u].rank
  }

  ghost predicate Knows(c: Cluster, u: nat, v: NodeId, k: nat, t: nat) {
    u in c.elections && v in c.elections[u].voters && t < u && Real(c.elections, k, t) && Acked(c, v, k, t) ==>
      Has(c.elections[u].log, k, t) || LackedBefore(c.elections, u, k, t)
  }

  ghost predicate WinnersKnow(c: Cluster) {
    forall u: nat, v: NodeId, k: nat, t: nat :: Knows(c, u, v, k, t)
  }

  ghost predicate AcksInv(c: Cluster) { AckBound(c) && HoldsAcks(c) && VotesInform(c) && WinnersKnow(c) }

  // ---- leader completeness ------------------------------------------------------

  /** If a quorum vouches for an entry, every later leader had it: by induction on
      the order in which elections were won. */
  lemma {:induction false} QuorumReachesLeader(c: Cluster, a: set<NodeId>, u: nat, k: nat, t: nat)
    requires BaseInv(c) && WinnersKnow(c) && Real(c.elections, k, t)
    requires a <= c.hosts.Keys && |a| >= |c.cfg.peers| / 2 + 1
    requires forall v :: v in a ==> Acked(c, v, k, t)
    requires u in c.elections && u > t
    ensures Has(c.elections[u].log, k, t)
    decreases c.elections[u].rank
  {
    hide ShapeInv, LogsInv, VotesInv, WinnersKnow, Acked, Real, Has;
    ElectionAt(c, u);
    var v := ClusterQuorumsMeet(c, c.elections[u].voters, a);
    KnowsAt(c, u, v, k, t);
    if LackedBefore(c.elections, u, k, t) {
      var w: nat :| Lacks(c.elections, w, k, t) && c.elections[w].rank < c.elections[u].rank;
      QuorumReachesLeader(c, a, w, k, t);
    }
  }

  lemma ElectionAt(c: Cluster, u: nat)
    requires VotesInv(c) && u in c.elections
    ensures ElectionOk(c, u)
  {
    hide OneVote, GrantsAnswer, BallotsOk, ReignsOk, RequestsOk, ElectionOk;
  }

  lemma KnowsAt(c: Cluster, u: nat, v: NodeId, k: nat, t: nat)
    requires WinnersKnow(c)
    requires u in c.elections && v in c.elections[u].voters && t < u && Real(c.elections, k, t) && Acked(c, v, k, t)
    ensures Has(c.elections[u].log, k, t) || LackedBefore(c.elections, u, k, t)
  {
    hide Acked, LackedBefore, Has, Real;
    assert Knows(c, u, v, k, t);
  }

  // ---- growth of the history ------------------------------------------------------

  lemma LackingGrows(es: Elections, es': Elections, k: nat, t: nat)
    requires Grows(es, es') && Lacking(es, k, t)
    ensures Lacking(es', k, t)
  {
    var u: nat :| Lacks(es, u, k, t);
    HasGrows(es, es', u, k, t);
    assert Lacks(es', u, k, t);
  }

  lemma LackedBeforeGrows(es: Elections, es': Elections, u: nat, k: nat, t: nat)
    requires Grows(es, es') && u in es && LackedBefore(es, u, k, t)
    ensures u in es' && LackedBefore(es', u, k, t)
  {
    var w: nat :| Lacks(es, w, k, t) && es[w].rank < es[u].rank;
    HasGrows(es, es', w, k, t);
    assert Lacks(es', w, k, t);
  }

  // ---- changes that say nothing and rewrite no log ---------------------------------

  lemma AckedBack(c: Cluster, c': Cluster, v: NodeId, k: nat, t: nat)
    requires NoNewClaims(c, c') && c'.elections == c.elections && Acked(c', v, k, t)
    ensures Acked(c, v, k, t)
  {
    hide Claimed;
    if !(t in c.elections && c.elections[t].leader == v) {
      var m :| Claimed(c', m) && IsAck(m, v, k, t);
      assert Claimed(c, m);
    }
  }

  /** A candidacy of n that can still win is o's, unchanged. */
  predicate SameBid(es: Elections, o: Node, n: Node) {
    n.role == Candidate && n.term !in es ==> o.role == Candidate && n.term == o.term && n.log == o.log
  }

  /** Node i changes; its log stays, and if it is a candidate it was one already. */
  predicate StaysPut(o: Node, n: Node) {
    n.log == o.log && (n.role == Candidate ==> o.role == Candidate && n.term == o.term)
  }

  predicate OnlyNode(c: Cluster, c': Cluster, i: NodeId) {
    && i in c.hosts && c'.hosts.Keys == c.hosts.Keys
    && forall j :: j in c.hosts && j != i ==> c'.hosts[j].n == c.hosts[j].n
  }

  lemma QuietKeepsAckBound(c: Cluster, c': Cluster)
    requires AckBound(c) && NoNewClaims(c, c') && c'.elections == c.elections
    ensures AckBound(c')
  {
    hide Claimed;
  }

  lemma QuietKeepsWinners(c: Cluster, c': Cluster)
    requires WinnersKnow(c) && NoNewClaims(c, c') && c'.elections == c.elections
    ensures WinnersKnow(c')
  {
    hide NoNewClaims, Acked, LackedBefore, Real, Has;
    forall u: nat, v: NodeId, k: nat, t: nat ensures Knows(c', u, v, k, t) {
      assert Knows(c, u, v, k, t);
      if Acked(c', v, k, t) { AckedBack(c, c', v, k, t); }
    }
  }

  lemma QuietKeepsInforms(c: Cluster, c': Cluster, i: NodeId)
    requires VotesInform(c) && NoNewClaims(c, c') && c'.elections == c.elections && OnlyNode(c, c', i)
    requires SameBid(c.elections, c.hosts[i].n, c'.hosts[i].n)
    ensures VotesInform(c')
  {
    hide Acked, Lacking, Real, Has, Claimed;
    forall m: Message, k: nat, t: nat ensures Informs(c', m, k, t) {
      assert Informs(c, m, k, t);
      if Acked(c', m.from, k, t) { AckedBack(c, c', m.from, k, t); }
    }
  }

  lemma QuietKeepsAcks(c: Cluster, c': Cluster, i: NodeId)
    requires AcksInv(c) && NoNewClaims(c, c') && c'.elections == c.elections && OnlyNode(c, c', i)
    requires StaysPut(c.hosts[i].n, c'.hosts[i].n)
    ensures AcksInv(c')
  {
    hide AckBound, VotesInform, WinnersKnow, NoNewClaims, Acked, Lacking, Real, Has;
    QuietKeepsAckBound(c, c');
    QuietKeepsWinners(c, c');
    QuietKeepsInforms(c, c', i);
    forall v: NodeId, k: nat, t: nat ensures HoldsAck(c', v, k, t) {
      assert HoldsAck(c, v, k, t);
      if Acked(c', v, k, t) { AckedBack(c, c', v, k, t); }
    }
  }

  // ---- adopting a leader's entries ---------------------------------------------------

  lemma AckedTerm(c: Cluster, v: NodeId, k: nat, t: nat)
    requires ShapeInv(c) && VotesInv(c) && v in c.hosts && Acked(c, v, k, t)
    ensures c.hosts[v].n.term >= t
  {
    hide ShapeInv, VotesInv, Claimed;
    if t in c.elections && c.elections[t].leader == v {
      ElectionAt(c, t);
      VoterIsBound(c, t, v);
    } else {
      var m :| Claimed(c, m) && IsAck(m, v, k, t);
      ClaimedIsCovered(c, m);
    }
  }

  /** What a rewrite by leader u's entries removes, u never had. */
  lemma OnlyForeignIsLost(es: Elections, u: nat, L: Log, prev: nat, entries: seq<Entry>, keep: nat, L2: Log, k: nat, t: nat)
    requires TermLogsOk(es) && LogOk(es, L) && u in es
    requires Outcome(L, es[u].log, prev, entries, keep, L2) && Has(L, k, t) && !Has(L2, k, t)
    ensures !Has(es[u].log, k, t)
  {
    hide FirstConflict, EntriesFrom, LogOk, TermLogsOk;
    if Has(es[u].log, k, t) {
      assert LogOk(es, es[u].log) by { TermLogIsOk(es, u); }
      LogsMatch(es, L, es[u].log, k - 1);
    }
  }

  lemma TermLogIsOk(es: Elections, u: nat)
    requires TermLogsOk(es) && u in es
    ensures LogOk(es, es[u].log) && WellFormed(es[u].log)
  {
    assert TermLogOk(es, u);
  }

  lemma AdoptKeepsAck(c: Cluster, i: NodeId, n: Node, m: Message, keep: nat, k: nat, t: nat)
    requires BaseInv(c) && i in c.hosts && CanAdopt(c, i, n, m, keep)
    requires HoldsAck(c, i, k, t) && Real(c.elections, k, t) && Acked(c, i, k, t)
    ensures Has(n.log, k, t) || Lacking(c.elections, k, t)
  {
    hide BaseInv, ShapeInv, VotesInv, LogsInv, Acked, Has, Lacking, Outcome, LogOk, TermLogsOk, Accept, Match;
    if Has(c.hosts[i].n.log, k, t) && !Has(n.log, k, t) {
      BaseParts(c);
      AdoptFacts(c, i, n, m, keep);
      AckedTerm(c, i, k, t);
      OnlyForeignIsLost(c.elections, m.term, c.hosts[i].n.log, m.prevIndex, m.entries, keep, n.log, k, t);
      assert Lacks(c.elections, m.term, k, t);
      LacksIsLacking(c.elections, m.term, k, t);
    }
  }

  lemma BaseParts(c: Cluster)
    requires BaseInv(c)
    ensures ShapeInv(c) && VotesInv(c) && LogsInv(c)
  {
    hide ShapeInv, VotesInv, LogsInv;
  }

  lemma LacksIsLacking(es: Elections, u: nat, k: nat, t: nat)
    requires Lacks(es, u, k, t)
    ensures Lacking(es, k, t)
  {
  }

  lemma AdoptKeepsAcks(c: Cluster, i: NodeId, n: Node, m: Message, keep: nat)
    requires BaseInv(c) && AcksInv(c) && i in c.hosts && CanAdopt(c, i, n, m, keep)
    ensures AcksInv(PutNode(c, i, n))
  {
    hide BaseInv, AckBound, VotesInform, WinnersKnow, NoNewClaims, Acked, Lacking, Real, Has, Accept, Match;
    var c' := PutNode(c, i, n);
    AdoptFacts(c, i, n, m, keep);
    SilentIsSilent(c, i, n);
    QuietKeepsAckBound(c, c');
    QuietKeepsWinners(c, c');
    QuietKeepsInforms(c, c', i);
    forall v: NodeId, k: nat, t: nat ensures HoldsAck(c', v, k, t) {
      assert HoldsAck(c, v, k, t);
      if Acked(c', v, k, t) {
        AckedBack(c, c', v, k, t);
        if v == i && Real(c.elections, k, t) { AdoptKeepsAck(c, i, n, m, keep, k, t); }
      }
    }
  }

  // ---- standing for election ------------------------------------------------------------

  lemma RiseKeepsAcks(c: Cluster, i: NodeId, n: Node)
    requires BaseInv(c) && AcksInv(c) && i in c.hosts && Stands(c.hosts[i].n, n)
    ensures AcksInv(PutNode(c, i, n))
  {
    hide BaseInv, AckBound, WinnersKnow, Acked, Lacking, Real, Has;
    var c' := PutNode(c, i, n);
    SilentIsSilent(c, i, n);
    QuietKeepsAckBound(c, c');
    QuietKeepsWinners(c, c');
    hide Claimed;
    forall v: NodeId, k: nat, t: nat ensures HoldsAck(c', v, k, t) {
      assert HoldsAck(c, v, k, t);
      if Acked(c', v, k, t) { AckedBack(c, c', v, k, t); }
    }
    forall m: Message, k: nat, t: nat ensures Informs(c', m, k, t) {
      assert Informs(c, m, k, t);
      if Acked(c', m.from, k, t) { AckedBack(c, c', m.from, k, t); }
      if Claimed(c', m) && Supports(c', m) && VoteOf(m) == i { NoEarlySupport(c, i, n, m); }
    }
  }

  lemma NoEarlySupport(c: Cluster, i: NodeId, n: Node, m: Message)
    requires BaseInv(c) && i in c.hosts && Claimed(c, m) && VoteOf(m) == i
    ensures m.term != c.hosts[i].n.term + 1
  {
    hide ShapeInv, VotesInv, LogsInv, Claimed;
    NoNodeIsNone(c);
    VoteIsBySomeone(m);
    if m.term == c.hosts[i].n.term + 1 { FutureIsEmpty(c, i, m); }
  }

  // ---- saying things --------------------------------------------------------------------

  /** The vote check of section 5.4.1 of the Raft paper: a candidate at least as up to date as a voter has every
      entry the voter has, unless a later leader is known never to have had it. */
  lemma UpToDateCarries(es: Elections, voter: Log, cand: Log, k: nat, t: nat)
    requires TermLogsOk(es) && LogOk(es, voter) && LogOk(es, cand)
    requires UpToDate(LastTerm(cand), |cand|, LastTerm(voter), |voter|) && Has(voter, k, t)
    ensures Has(cand, k, t) || Lacking(es, k, t)
  {
    LogIsWellFormed(es, voter);
    LogIsWellFormed(es, cand);
    hide TermLogsOk, LogOk, Lacking;
    var u := LastTerm(cand);
    assert t <= LastTerm(voter) <= u && u > 0 && |cand| > 0;
    LastTermIsElected(es, cand);
    if u == LastTerm(voter) {
      LastTermIsElected(es, voter);
      assert Has(cand, k, t);
    } else if Has(es[u].log, k, t) {
      TermLogIsOk(es, u);
      assert Has(cand, k, t);
    } else {
      assert Lacks(es, u, k, t);
      LacksIsLacking(es, u, k, t);
    }
  }

  lemma LastTermIsElected(es: Elections, log: Log)
    requires TermLogsOk(es) && LogOk(es, log) && |log| > 0
    ensures LastTerm(log) in es && SamePrefix(log, es[LastTerm(log)].log, |log|) && LogOk(es, es[LastTerm(log)].log)
  {
    assert TermLogOk(es, LastTerm(log));
  }

  /** A grant carries the voter's knowledge to a candidacy that can still win. */
  lemma GrantInforms(c: Cluster, i: NodeId, m: Message, k: nat, t: nat)
    requires BaseInv(c) && i in c.hosts && FairGrant(c, c.hosts[i].n, m) && IsGrant(m) && Supports(c, m)
    requires Has(c.hosts[i].n.log, k, t)
    ensures Has(c.hosts[m.to].n.log, k, t) || Lacking(c.elections, k, t)
  {
    hide BaseInv, ShapeInv, VotesInv, LogsInv, Has, Lacking, LogOk, TermLogsOk, UpToDate;
    var r :| r in c.net && r.RequestVote? && r.term == m.term && r.from == m.to &&
             UpToDate(r.lastTerm, r.lastIndex, LastTerm(c.hosts[i].n.log), |c.hosts[i].n.log|);
    BaseParts(c);
    RequestAt(c, r);
    HostLogOk(c, i);
    HostLogOk(c, m.to);
    UpToDateCarries(c.elections, c.hosts[i].n.log, c.hosts[m.to].n.log, k, t);
  }

  lemma RequestAt(c: Cluster, r: Message)
    requires VotesInv(c) && r in c.net
    ensures RequestOk(c, r)
  {
    hide OneVote, GrantsAnswer, BallotsOk, ReignsOk, ElectionsOk, RequestOk;
    assert Claimed(c, r);
  }

  /** What queueing ms changes about who vouches for what. */
  lemma SayAcked(c: Cluster, i: NodeId, ms: seq<Message>, v: NodeId, k: nat, t: nat)
    requires i in c.hosts && (forall m :: m in ms ==> CanSay(c, i, m, true))
    requires PutNode(c, i, QueueAll(c.hosts[i].n, ms)).elections == c.elections
    requires Acked(PutNode(c, i, QueueAll(c.hosts[i].n, ms)), v, k, t)
    ensures Acked(c, v, k, t) ||
            (v == i && t == c.hosts[i].n.term && (Real(c.elections, k, t) ==> Has(c.hosts[i].n.log, k, t)))
  {
    hide MaySay, FairGrant, AppendOk, Covered, Claimed, QueueAll;
    var c' := PutNode(c, i, QueueAll(c.hosts[i].n, ms));
    if !(t in c.elections && c.elections[t].leader == v) {
      var m :| Claimed(c', m) && IsAck(m, v, k, t);
      QueueClaims(c, i, ms, m);
      if !Claimed(c, m) {
        assert CanSay(c, i, m, true) && TrueAck(c, c.hosts[i].n, m);
      }
    }
  }

  lemma SayKeepsAckBound(c: Cluster, i: NodeId, ms: seq<Message>)
    requires AckBound(c) && i in c.hosts && (forall m :: m in ms ==> CanSay(c, i, m, true))
    requires PutNode(c, i, QueueAll(c.hosts[i].n, ms)).elections == c.elections
    ensures AckBound(PutNode(c, i, QueueAll(c.hosts[i].n, ms)))
  {
    hide MaySay, FairGrant, AppendOk, Covered, Claimed, QueueAll;
    var c' := PutNode(c, i, QueueAll(c.hosts[i].n, ms));
    forall m | Claimed(c', m) && m.AppendEntriesResp? && m.success
      ensures m.term in c.elections && m.matchIndex <= |c.elections[m.term].log|
    {
      QueueClaims(c, i, ms, m);
      if !Claimed(c, m) {
        assert CanSay(c, i, m, true) && TrueAck(c, c.hosts[i].n, m);
      }
    }
  }

  lemma SayInforms(c: Cluster, i: NodeId, ms: seq<Message>, m: Message, k: nat, t: nat)
    requires BaseInv(c) && HoldsAcks(c) && i in c.hosts && (forall x :: x in ms ==> CanSay(c, i, x, true))
    requires m in ms && Supports(c, m) && t < m.term && Real(c.elections, k, t) && Acked(c, i, k, t)
    ensures Has(c.hosts[VoteOf(m)].n.log, k, t) || Lacking(c.elections, k, t)
  {
    hide BaseInv, MaySay, FairGrant, AppendOk, Covered, Has, Lacking, Acked, Real;
    assert CanSay(c, i, m, true);
    assert HoldsAck(c, i, k, t);
    if Has(c.hosts[i].n.log, k, t) && IsGrant(m) {
      GrantInforms(c, i, m, k, t);
    } else {
      BaseNoNode(c);
      VoteIsBySomeone(m);
    }
  }

  lemma BaseNoNode(c: Cluster)
    requires BaseInv(c)
    ensures NO_NODE !in c.hosts
  {
    hide VotesInv, LogsInv, HostOk, NetOk;
  }

  lemma SayKeepsInforms(c: Cluster, i: NodeId, ms: seq<Message>)
    requires BaseInv(c) && AcksInv(c) && i in c.hosts && (forall m :: m in ms ==> CanSay(c, i, m, true))
    requires PutNode(c, i, QueueAll(c.hosts[i].n, ms)).elections == c.elections
    ensures VotesInform(PutNode(c, i, QueueAll(c.hosts[i].n, ms)))
  {
    hide BaseInv, AckBound, WinnersKnow, Claimed, Acked, Lacking, Real, Has, CanSay, HoldsAcks;
    var n' := QueueAll(c.hosts[i].n, ms);
    var c' := PutNode(c, i, n');
    assert n'.role == c.hosts[i].n.role && n'.term == c.hosts[i].n.term && n'.log == c.hosts[i].n.log;
    hide QueueAll;
    forall m: Message, k: nat, t: nat ensures Informs(c', m, k, t) {
      assert Informs(c, m, k, t);
      if Claimed(c', m) && Supports(c', m) && t < m.term && Real(c.elections, k, t) && Acked(c', m.from, k, t) {
        SayAcked(c, i, ms, m.from, k, t);
        QueueClaims(c, i, ms, m);
        assert Supports(c, m);
        if Claimed(c, m) {
          if !Acked(c, m.from, k, t) { ClaimTerm(c, m); }
        } else {
          assert m.term == c.hosts[i].n.term by { assert CanSay(c, i, m, true); SaidTerm(c, i, m); }
          SayInforms(c, i, ms, m, k, t);
        }
      }
    }
  }

  lemma SaidTerm(c: Cluster, i: NodeId, m: Message)
    requires i in c.hosts && CanSay(c, i, m, true)
    ensures m.term == c.hosts[i].n.term
  {
    hide MaySay, FairGrant, AppendOk, Covered;
  }

  lemma ClaimTerm(c: Cluster, m: Message)
    requires BaseInv(c) && Claimed(c, m)
    ensures m.from in c.hosts && m.term <= c.hosts[m.from].n.term
  {
    hide ShapeInv, VotesInv, LogsInv, Claimed;
    ClaimedIsCovered(c, m);
  }

  lemma SayKeepsAcks(c: Cluster, i: NodeId, ms: seq<Message>)
    requires BaseInv(c) && AcksInv(c) && i in c.hosts && (forall m :: m in ms ==> CanSay(c, i, m, true))
    requires PutNode(c, i, QueueAll(c.hosts[i].n, ms)).elections == c.elections
    ensures AcksInv(PutNode(c, i, QueueAll(c.hosts[i].n, ms)))
  {
    hide BaseInv, AckBound, VotesInform, Acked, Lacking, LackedBefore, Real, Has, CanSay;
    var n' := QueueAll(c.hosts[i].n, ms);
    var c' := PutNode(c, i, n');
    assert n'.log == c.hosts[i].n.log;
    hide QueueAll;
    SayKeepsAckBound(c, i, ms);
    SayKeepsInforms(c, i, ms);
    forall v: NodeId, k: nat, t: nat ensures HoldsAck(c', v, k, t) {
      assert HoldsAck(c, v, k, t);
      if Acked(c', v, k, t) { SayAcked(c, i, ms, v, k, t); }
    }
    forall u: nat, v: NodeId, k: nat, t: nat ensures Knows(c', u, v, k, t) {
      assert Knows(c, u, v, k, t);
      if Acked(c', v, k, t) {
        SayAcked(c, i, ms, v, k, t);
        if u in c.elections && v == i && v in c.elections[u].voters { BaseVoterBound(c, u, v); }
      }
    }
  }

  lemma BaseVoterBound(c: Cluster, u: nat, v: NodeId)
    requires BaseInv(c) && u in c.elections && v in c.elections[u].voters
    ensures v in c.hosts && c.hosts[v].n.term >= u
  {
    hide ShapeInv, VotesInv, LogsInv;
    VoterIsBound(c, u, v);
  }

  // ---- winning ----------------------------------------------------------------------------

  predicate Wins(c: Cluster, i: NodeId, n: Node) {
    i in c.hosts && Crowns(c.hosts[i].n, n) && |n.votes| >= Quorum(c.hosts[i].n) && n.term !in c.elections
  }

  lemma WinHistory(c: Cluster, i: NodeId, n: Node)
    requires BaseInv(c) && Wins(c, i, n)
    ensures var es' := PutNode(c, i, n).elections;
            && Grows(c.elections, es')
            && es' == c.elections[n.term := Election(i, n.votes, n.log, |c.elections|)]
            && (forall k: nat, t: nat :: Real(es', k, t) ==> Real(c.elections, k, t))
  {
    hide ShapeInv, VotesInv, LogsInv;
    forall k | 0 <= k < |n.log| ensures n.log[k].term < n.term { WinnerLogIsOlder(c, i, k); }
  }

  lemma WinAcked(c: Cluster, i: NodeId, n: Node, v: NodeId, k: nat, t: nat)
    requires Wins(c, i, n) && Real(c.elections, k, t) && Acked(PutNode(c, i, n), v, k, t)
    ensures Acked(c, v, k, t)
  {
    var c' := PutNode(c, i, n);
    SilentIsSilent(c, i, n);
    hide Claimed;
    if !(t in c.elections && c.elections[t].leader == v) {
      var m :| Claimed(c', m) && IsAck(m, v, k, t);
      assert Claimed(c, m);
    }
  }

  /** The new leader knows what its voters knew. */
  lemma WinnerKnows(c: Cluster, i: NodeId, n: Node, v: NodeId, k: nat, t: nat)
    requires BaseInv(c) && VotesInform(c) && Wins(c, i, n)
    requires v in n.votes && t < n.term && Real(c.elections, k, t) && Acked(c, v, k, t)
    ensures Has(n.log, k, t) || Lacking(c.elections, k, t)
  {
    hide BaseInv, ShapeInv, VotesInv, LogsInv, Acked, Lacking, Real, Has;
    BaseParts(c);
    WinnerIsBacked(c, i, v);
    var m :| m in c.net && m.term == n.term && m.from == v && VoteOf(m) == i;
    assert Claimed(c, m);
    assert Informs(c, m, k, t);
  }

  lemma LackingIsBefore(c: Cluster, i: NodeId, n: Node, k: nat, t: nat)
    requires BaseInv(c) && Wins(c, i, n) && Lacking(c.elections, k, t)
    ensures LackedBefore(PutNode(c, i, n).elections, n.term, k, t)
  {
    hide ShapeInv, VotesInv, LogsInv;
    var w: nat :| Lacks(c.elections, w, k, t);
    ElectionAt(c, w);
    assert Lacks(PutNode(c, i, n).elections, w, k, t);
  }

  lemma WinKeepsWinners(c: Cluster, i: NodeId, n: Node)
    requires BaseInv(c) && VotesInform(c) && WinnersKnow(c) && Wins(c, i, n)
    ensures WinnersKnow(PutNode(c, i, n))
  {
    var c' := PutNode(c, i, n);
    WinHistory(c, i, n);
    hide BaseInv, VotesInform, Acked, Lacking, LackedBefore, Real, Has, Grows, Wins;
    forall u: nat, v: NodeId, k: nat, t: nat ensures Knows(c', u, v, k, t) {
      assert Knows(c, u, v, k, t);
      if u in c'.elections && v in c'.elections[u].voters && t < u && Real(c'.elections, k, t) && Acked(c', v, k, t) {
        WinAcked(c, i, n, v, k, t);
        if u == n.term {
          WinnerKnows(c, i, n, v, k, t);
          if Lacking(c.elections, k, t) { LackingIsBefore(c, i, n, k, t); }
        } else {
          HasGrows(c.elections, c'.elections, u, k, t);
          if LackedBefore(c.elections, u, k, t) { LackedBeforeGrows(c.elections, c'.elections, u, k, t); }
        }
      }
    }
  }

  lemma WinKeepsAcks(c: Cluster, i: NodeId, n: Node)
    requires BaseInv(c) && AcksInv(c) && Wins(c, i, n)
    ensures AcksInv(PutNode(c, i, n))
  {
    hide BaseInv, Acked, Lacking, Has, Grows, WinnersKnow;
    var c' := PutNode(c, i, n);
    WinHistory(c, i, n);
    WinKeepsWinners(c, i, n);
    SilentIsSilent(c, i, n);
    hide Claimed, Real;
    assert AckBound(c');
    hide AckBound;
    forall v: NodeId, k: nat, t: nat ensures HoldsAck(c', v, k, t) {
      assert HoldsAck(c, v, k, t);
      if Real(c'.elections, k, t) && Acked(c', v, k, t) {
        WinAcked(c, i, n, v, k, t);
        if Lacking(c.elections, k, t) { LackingGrows(c.elections, c'.elections, k, t); }
      }
    }
    forall m: Message, k: nat, t: nat ensures Informs(c', m, k, t) {
      assert Informs(c, m, k, t);
      if Real(c'.elections, k, t) && Acked(c', m.from, k, t) {
        WinAcked(c, i, n, m.from, k, t);
        if Lacking(c.elections, k, t) { LackingGrows(c.elections, c'.elections, k, t); }
      }
    }
  }

  // ---- proposing -----------------------------------------------------------------------------

  predicate Proposes(c: Cluster, i: NodeId, n: Node, x: Entry) {
    && i in c.hosts && Extends(c.hosts[i].n, n, x) && x.term == n.term
    && n.term in c.elections && c.elections[n.term].leader == i && c.elections[n.term].log == c.hosts[i].n.log
  }

  lemma GrowHistory(c: Cluster, i: NodeId, n: Node, x: Entry)
    requires Proposes(c, i, n, x)
    ensures var es, es' := c.elections, PutNode(c, i, n).elections;
            && Grows(es, es') && es'.Keys == es.Keys
            && (forall k: nat, t: nat :: Real(es', k, t) ==> Real(es, k, t) || (t == n.term && k == |n.log|))
  {
  }

  lemma GrowAcked(c: Cluster, i: NodeId, n: Node, x: Entry, v: NodeId, k: nat, t: nat)
    requires Proposes(c, i, n, x) && Acked(PutNode(c, i, n), v, k, t)
    ensures Acked(c, v, k, t)
  {
    var c' := PutNode(c, i, n);
    SilentIsSilent(c, i, n);
    hide Claimed;
    if !(t in c.elections && c.elections[t].leader == v) {
      var m :| Claimed(c', m) && IsAck(m, v, k, t);
      assert Claimed(c, m);
    }
  }

  /** Nobody but its maker vouches for an entry before it exists. */
  lemma NewEntryIsUnacked(c: Cluster, i: NodeId, n: Node, x: Entry, v: NodeId)
    requires AckBound(c) && Proposes(c, i, n, x) && Acked(c, v, |n.log|, n.term)
    ensures v == i
  {
    hide Claimed;
  }

  lemma GrowKeepsWinners(c: Cluster, i: NodeId, n: Node, x: Entry)
    requires BaseInv(c) && AckBound(c) && WinnersKnow(c) && Proposes(c, i, n, x)
    ensures WinnersKnow(PutNode(c, i, n))
  {
    var c' := PutNode(c, i, n);
    GrowHistory(c, i, n, x);
    hide BaseInv, AckBound, Acked, LackedBefore, Real, Has, OwnGrowth;
    forall u: nat, v: NodeId, k: nat, t: nat ensures Knows(c', u, v, k, t) {
      assert Knows(c, u, v, k, t);
      if u in c'.elections && v in c'.elections[u].voters && t < u && Real(c'.elections, k, t) && Acked(c', v, k, t) {
        GrowAcked(c, i, n, x, v, k, t);
        if t == n.term && k == |n.log| {
          NewEntryIsUnacked(c, i, n, x, v);
          BaseVoterBound(c, u, v);
        } else {
          HasGrows(c.elections, c'.elections, u, k, t);
          if LackedBefore(c.elections, u, k, t) { LackedBeforeGrows(c.elections, c'.elections, u, k, t); }
        }
      }
    }
  }

  lemma GrowKeepsHeld(c: Cluster, i: NodeId, n: Node, x: Entry)
    requires AckBound(c) && HoldsAcks(c) && Proposes(c, i, n, x)
    ensures HoldsAcks(PutNode(c, i, n))
  {
    hide AckBound, Acked, Lacking;
    var c' := PutNode(c, i, n);
    GrowHistory(c, i, n, x);
    hide Grows, Real;
    forall v: NodeId, k: nat, t: nat ensures HoldsAck(c', v, k, t) {
      assert HoldsAck(c, v, k, t);
      if v in c.hosts && Real(c'.elections, k, t) && Acked(c', v, k, t) {
        GrowAcked(c, i, n, x, v, k, t);
        if t == n.term && k == |n.log| {
          NewEntryIsUnacked(c, i, n, x, v);
          assert Has(n.log, k, t);
        } else if Lacking(c.elections, k, t) {
          LackingGrows(c.elections, c'.elections, k, t);
        }
      }
    }
  }

  lemma GrowKeepsInforms(c: Cluster, i: NodeId, n: Node, x: Entry)
    requires BaseInv(c) && AckBound(c) && VotesInform(c) && Proposes(c, i, n, x)
    ensures VotesInform(PutNode(c, i, n))
  {
    hide BaseInv, AckBound, Acked, Lacking, Has;
    var c' := PutNode(c, i, n);
    GrowHistory(c, i, n, x);
    SilentIsSilent(c, i, n);
    hide Grows, Real, Claimed;
    forall m: Message, k: nat, t: nat ensures Informs(c', m, k, t) {
      assert Informs(c, m, k, t);
      if Claimed(c', m) && Supports(c', m) && t < m.term && Real(c'.elections, k, t) && Acked(c', m.from, k, t) {
        GrowAcked(c, i, n, x, m.from, k, t);
        if t == n.term && k == |n.log| {
          NewEntryIsUnacked(c, i, n, x, m.from);
          ClaimTerm(c, m);
        } else if Lacking(c.elections, k, t) {
          LackingGrows(c.elections, c'.elections, k, t);
        }
      }
    }
  }

  lemma GrowKeepsAcks(c: Cluster, i: NodeId, n: Node, x: Entry)
    requires BaseInv(c) && AcksInv(c) && Proposes(c, i, n, x)
    ensures AcksInv(PutNode(c, i, n))
  {
    hide BaseInv, HoldsAcks, VotesInform, WinnersKnow;
    GrowKeepsWinners(c, i, n, x);
    GrowKeepsHeld(c, i, n, x);
    GrowKeepsInforms(c, i, n, x);
    SilentIsSilent(c, i, n);
    hide Claimed;
  }

  // ---- all actions ------------------------------------------------------------------------------

  lemma HostKeepsAcks(c: Cluster, i: NodeId, h: Host, net: set<Message>)
    requires AcksInv(c) && i in c.hosts
    requires var c' := PutHost(c, i, h).(net := net); NoNewClaims(c, c') && c'.elections == c.elections
    requires StaysPut(c.hosts[i].n, h.n)
    ensures AcksInv(PutHost(c, i, h).(net := net))
  {
    hide AcksInv, NoNewClaims;
    QuietKeepsAcks(c, PutHost(c, i, h).(net := net), i);
  }

  lemma NodeKeepsAcks(c: Cluster, i: NodeId, n: Node)
    requires AcksInv(c) && i in c.hosts && StaysPut(c.hosts[i].n, n) && n.pending == c.hosts[i].n.pending
    requires PutNode(c, i, n).elections == c.elections
    ensures AcksInv(PutNode(c, i, n))
  {
    hide AcksInv, NoNewClaims;
    SilentIsSilent(c, i, n);
    QuietKeepsAcks(c, PutNode(c, i, n), i);
  }

  lemma SettleKeepsAcks(c: Cluster, i: NodeId, n: Node)
    requires BaseInv(c) && AcksInv(c) && i in c.hosts && HostOk(c.cfg, i, c.hosts[i].(n := n)) && CanSettle(c, i, n)
    ensures AcksInv(PutNode(c, i, n))
  {
    hide BaseInv, AcksInv, HostOk, Backed;
    SettleKeepsBase(c, i, n);
    NodeKeepsAcks(c, i, n);
  }

  lemma DriverKeepsAcks(c: Cluster, a: Action)
    requires BaseInv(c) && AcksInv(c) && Can(c, a, true)
    requires a.Hand? || a.Persist? || a.Emit? || a.Die? || a.Serve?
    ensures AcksInv(Act(c, a))
  {
    hide ShapeInv, VotesInv, LogsInv, AcksInv, NoNewClaims, CanServe, Drained;
    var i := a.i;
    match a {
      case Hand(_) =>
        var h := Drained(c.hosts[i]);
        HandKeepsBase(c, i);
        DrainedSaysNoMore(c, i);
        DrainedCore(c.hosts[i]);
        assert PutHost(c, i, h) == PutHost(c, i, h).(net := c.net);
        HostKeepsAcks(c, i, h, c.net);
      case Persist(_) =>
        var h := Saved(c.hosts[i]);
        PersistKeepsBase(c, i);
        SavedSaysNoMore(c, i);
        assert PutHost(c, i, h) == PutHost(c, i, h).(net := c.net);
        HostKeepsAcks(c, i, h, c.net);
      case Emit(_) =>
        EmitKeepsBase(c, i);
        SentSaysNoMore(c, i);
        HostKeepsAcks(c, i, Sent(c.hosts[i]), c.net + {c.hosts[i].out.msgs[0]});
      case Die(_, draw) =>
        var o := c.hosts[i];
        var h := Reboot(c.cfg, i, o.hs, o.n.store, o.app.snap, draw);
        StoreIsLog(c, i);
        RebootSaysNoMore(c, i, o.n.store, draw);
        DieKeepsBase(c, i, draw);
        assert PutHost(c, i, h) == PutHost(c, i, h).(net := c.net);
        HostKeepsAcks(c, i, h, c.net);
      case Serve(_, app) =>
        var h := c.hosts[i].(app := app);
        ServeKeepsBase(c, i, app);
        ServeSaysNoMore(c, i, app);
        assert PutHost(c, i, h) == PutHost(c, i, h).(net := c.net);
        HostKeepsAcks(c, i, h, c.net);
    }
  }

  lemma ServeSaysNoMore(c: Cluster, i: NodeId, app: App)
    requires i in c.hosts
    ensures NoNewClaims(c, PutHost(c, i, c.hosts[i].(app := app)))
  {
  }

  lemma StoreIsLog(c: Cluster, i: NodeId)
    requires BaseInv(c) && i in c.hosts
    ensures c.hosts[i].n.store == c.hosts[i].n.log && c.hosts[i].n.id == i && c.hosts[i].n.peers == c.cfg.peers
    ensures c.hosts[i].n.commit <= |c.hosts[i].n.log|
  {
    hide VotesInv, LogsInv, NetOk, PipeOk, Chain;
    assert HostOk(c.cfg, i, c.hosts[i]);
  }

  lemma ActionKeepsAcks(c: Cluster, a: Action)
    requires BaseInv(c) && AcksInv(c) && Can(c, a, true)
    ensures AcksInv(Act(c, a))
  {
    hide BaseInv, AcksInv, HostOk, CanSettle, CanAdopt, PutHost, QueueAll, CanServe, CanSay, Backed, SameLog;
    match a
    case Settle(i, n) => SettleKeepsAcks(c, i, n);
    case Say(i, ms) => SayActs(c, i, ms);
    case Rise(i, n) => RiseKeepsAcks(c, i, n);
    case Tally(i, n, m) =>
      TallyKeepsBase(c, i, n, m);
      NodeKeepsAcks(c, i, n);
    case Reign(i, n) =>
      ReignKeepsBase(c, i, n);
      WinKeepsAcks(c, i, n);
    case Grow(i, n, x) =>
      GrowIsProposal(c, i, n, x);
      GrowKeepsAcks(c, i, n, x);
    case Adopt(i, n, m, keep) => AdoptKeepsAcks(c, i, n, m, keep);
    case Advance(i, n, m) =>
      AdvanceKeepsBase(c, i, n, m);
      assert StaysPut(c.hosts[i].n, n) by { AdvanceStaysPut(c, i, n, m); }
      NodeKeepsAcks(c, i, n);
    case _ => DriverKeepsAcks(c, a);
  }

  lemma AdvanceStaysPut(c: Cluster, i: NodeId, n: Node, m: Message)
    requires i in c.hosts && CanAdvance(c, i, n, m)
    ensures StaysPut(c.hosts[i].n, n)
  {
  }

  lemma SayActs(c: Cluster, i: NodeId, ms: seq<Message>)
    requires BaseInv(c) && AcksInv(c) && i in c.hosts && (forall m :: m in ms ==> CanSay(c, i, m, true))
    ensures AcksInv(Act(c, Say(i, ms)))
  {
    hide BaseInv, AcksInv, MaySay, FairGrant, AppendOk, Covered;
    assert forall m :: m in ms ==> CanSay(c, i, m, false);
    SayKeepsBase(c, i, ms);
    SayKeepsAcks(c, i, ms);
  }

  lemma GrowIsProposal(c: Cluster, i: NodeId, n: Node, x: Entry)
    requires BaseInv(c) && i in c.hosts && Extends(c.hosts[i].n, n, x) && x.term == n.term
    ensures Proposes(c, i, n, x)
  {
    hide ShapeInv, VotesInv, LogsInv;
    RolesAt(c, i);
  }
}
