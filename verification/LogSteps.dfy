/** Every step keeps Log Matching. */
module LogSteps {
  import opened Types
  import opened RaftLog
  import opened NodeSpec
  import opened Cluster
  import opened Shape
  import opened Votes
  import opened Logs

  /** A candidacy that continues gains no entry from beyond its term. */
  predicate Tame(o: Node, n: Node) {
    n.role == Candidate ==>
      o.role == Candidate && n.term == o.term &&
      (n.log == o.log || forall k :: 0 <= k < |n.log| ==> n.log[k].term <= n.term)
  }

  lemma StuckKeeps(c: Cluster, c': Cluster, i: NodeId, m: Message)
    requires HostLogsOk(c) && i in c.hosts && StuckOk(c, m)
    requires c'.hosts.Keys == c.hosts.Keys && EsLe(c.elections, c'.elections)
    requires forall j :: j in c.hosts && j != i ==> c'.hosts[j].n == c.hosts[j].n
    requires Tame(c.hosts[i].n, c'.hosts[i].n)
    ensures StuckOk(c', m)
  {
    if VoteOf(m) in c.hosts { assert LogOk(c.elections, c.hosts[VoteOf(m)].n.log); }
  }

  /** Changes of one node that put nothing new on its lips: the new log and the new
      history need a proof, everything else follows. */
  lemma QuietKeepsLogs(c: Cluster, c': Cluster, i: NodeId)
    requires LogsInv(c) && i in c.hosts && NoNewClaims(c, c')
    requires c'.hosts.Keys == c.hosts.Keys && EsLe(c.elections, c'.elections)
    requires forall j :: j in c.hosts && j != i ==> c'.hosts[j].n == c.hosts[j].n
    requires TermLogsOk(c'.elections) && LogOk(c'.elections, c'.hosts[i].n.log)
    requires Tame(c.hosts[i].n, c'.hosts[i].n)
    ensures LogsInv(c')
  {
    hide Claimed, TermLogOk, LogOk, EsLe, AppendOk, StuckOk, Tame;
    forall j | j in c'.hosts ensures LogOk(c'.elections, c'.hosts[j].n.log) {
      if j != i { LogOkGrows(c.elections, c'.elections, c.hosts[j].n.log); }
    }
    forall m | Claimed(c', m) ensures AppendOk(c'.elections, m) && StuckOk(c', m) {
      AppendOkGrows(c.elections, c'.elections, m);
      StuckKeeps(c, c', i, m);
    }
  }

  lemma GrowsRefl(es: Elections)
    ensures Grows(es, es)
  {
  }

  lemma EsLeRefl(es: Elections)
    ensures EsLe(es, es)
  {
  }

  lemma StandKeepsStuck(c: Cluster, i: NodeId, n: Node, m: Message)
    requires ShapeInv(c) && VotesInv(c) && NoneStuck(c) && i in c.hosts && Stands(c.hosts[i].n, n)
    requires Claimed(c, m)
    ensures StuckOk(PutNode(c, i, n), m)
  {
    hide ShapeInv, VotesInv, Claimed;
    assert StuckOk(c, m);
    if m.term == n.term {
      FutureIsEmpty(c, i, m);
    }
    NoNodeIsNone(c);
    VoteIsBySomeone(m);
  }

  lemma VoteIsBySomeone(m: Message)
    ensures VoteOf(m) != NO_NODE ==> VoteOf(m) == m.from || (IsGrant(m) && VoteOf(m) == m.to)
  {
  }

  lemma StandKeepsLogs(c: Cluster, i: NodeId, n: Node)
    requires ShapeInv(c) && VotesInv(c) && LogsInv(c) && i in c.hosts && Stands(c.hosts[i].n, n)
    ensures LogsInv(PutNode(c, i, n))
  {
    hide ShapeInv, VotesInv;
    var c' := PutNode(c, i, n);
    SilentIsSilent(c, i, n);
    hide Claimed, TermLogOk, LogOk, AppendOk, StuckOk;
    forall m | Claimed(c', m) ensures StuckOk(c', m) {
      StandKeepsStuck(c, i, n, m);
    }
  }

  lemma QueueKeepsLogs(c: Cluster, i: NodeId, ms: seq<Message>)
    requires ShapeInv(c) && VotesInv(c) && LogsInv(c) && i in c.hosts
    requires forall m :: m in ms ==> m.from == i && AppendOk(c.elections, m)
    requires forall m :: m in ms ==> VoteOf(m) != NO_NODE ==> m.term == c.hosts[i].n.term
    ensures LogsInv(PutNode(c, i, QueueAll(c.hosts[i].n, ms)))
  {
    hide ShapeInv, AppendOk, LogOk, TermLogsOk, VoteOf;
    var n := c.hosts[i].n;
    var n' := QueueAll(n, ms);
    var c' := PutNode(c, i, n');
    assert c'.elections == c.elections by {
      assert ReignOk(c, i);
      RecordIsIdle(c, i, n');
    }
    hide VotesInv;
    assert n'.role == n.role && n'.term == n.term && n'.log == n.log;
    forall m | Claimed(c', m) ensures Claimed(c, m) || (m in ms && m.from == i) { QueueClaims(c, i, ms, m); }
    hide Claimed, QueueAll, PutNode, StuckOk;
    forall m | Claimed(c', m) ensures AppendOk(c'.elections, m) && StuckOk(c', m) {
      if !Claimed(c, m) { QueuedIsFree(c, i, m); }
      StuckIsSame(c, c', m);
    }
  }

  lemma StuckIsSame(c: Cluster, c': Cluster, m: Message)
    requires StuckOk(c, m) && c'.hosts.Keys == c.hosts.Keys && c'.elections == c.elections
    requires forall j :: j in c.hosts ==>
               var o, n := c.hosts[j].n, c'.hosts[j].n; n.role == o.role && n.term == o.term && n.log == o.log
    ensures StuckOk(c', m)
  {
  }

  /** A node's vote in its current term backs no stuck candidate. */
  lemma QueuedIsFree(c: Cluster, i: NodeId, m: Message)
    requires ShapeInv(c) && VotesInv(c) && i in c.hosts && m.from == i
    requires VoteOf(m) != NO_NODE ==> m.term == c.hosts[i].n.term
    ensures StuckOk(c, m)
  {
    hide ShapeInv, VotesInv;
    if VoteOf(m) in c.hosts && VoteOf(m) != NO_NODE {
      var log := c.hosts[VoteOf(m)].n.log;
      forall k | 0 <= k < |log| && log[k].term > m.term && log[k].term in c.elections
        ensures i !in c.elections[log[k].term].voters
      {
        if i in c.elections[log[k].term].voters { VoterIsBound(c, log[k].term, i); }
      }
    }
    assert NO_NODE !in c.hosts by { NoNodeIsNone(c); }
  }

  lemma NoNodeIsNone(c: Cluster)
    requires ShapeInv(c)
    ensures NO_NODE !in c.hosts
  {
    hide HostOk, NetOk;
  }

  // ---- winning ------------------------------------------------------------------

  /** A candidate that wins term t has no entry of term t or later, although a
      restart can leave it holding entries above its recovered term. */
  lemma WinnerLogIsOlder(c: Cluster, i: NodeId, k: nat)
    requires ShapeInv(c) && VotesInv(c) && LogsInv(c) && i in c.hosts
    requires c.hosts[i].n.role == Candidate && |c.hosts[i].n.votes| >= Quorum(c.hosts[i].n)
    requires k < |c.hosts[i].n.log|
    ensures c.hosts[i].n.log[k].term < c.hosts[i].n.term
  {
    hide ShapeInv, VotesInv, LogsInv, ElectionOk, BallotOk, NoneStuck, NetVote;
    var n := c.hosts[i].n;
    var t := n.log[k].term;
    WinnerIsFirst(c, i);
    WinnerParts(c, i, k);
    if t > n.term {
      var v := WinnersShareVoter(c, i, t);
      WinnerIsBacked(c, i, v);
      NetVoteNotStuck(c, i, v, k);
      assert false;
    }
  }

  lemma WinnersShareVoter(c: Cluster, i: NodeId, t: nat) returns (v: NodeId)
    requires ShapeInv(c) && VotesInv(c) && i in c.hosts && t in c.elections
    requires c.hosts[i].n.role == Candidate && |c.hosts[i].n.votes| >= Quorum(c.hosts[i].n)
    ensures v in c.elections[t].voters && v in c.hosts[i].n.votes
  {
    hide ShapeInv, OneVote, GrantsAnswer, ReignsOk, RequestsOk, NetVote;
    assert BallotOk(c, i) && ElectionOk(c, t);
    PeersOf(c, i);
    v := ClusterQuorumsMeet(c, c.elections[t].voters, c.hosts[i].n.votes);
  }

  lemma WinnerParts(c: Cluster, i: NodeId, k: nat)
    requires LogsInv(c) && i in c.hosts && k < |c.hosts[i].n.log|
    ensures c.hosts[i].n.log[k].term in c.elections && NoneStuck(c)
  {
    hide TermLogsOk, AppendsOk, NoneStuck;
    assert LogOk(c.elections, c.hosts[i].n.log);
  }

  lemma NetVoteNotStuck(c: Cluster, i: NodeId, v: NodeId, k: nat)
    requires NoneStuck(c) && i in c.hosts && c.hosts[i].n.role == Candidate && k < |c.hosts[i].n.log|
    requires NetVote(c.net, c.hosts[i].n.term, v, i)
    requires c.hosts[i].n.log[k].term > c.hosts[i].n.term && c.hosts[i].n.log[k].term in c.elections
    ensures v !in c.elections[c.hosts[i].n.log[k].term].voters
  {
    var m :| m in c.net && m.term == c.hosts[i].n.term && m.from == v && VoteOf(m) == i;
    assert Claimed(c, m) && StuckOk(c, m);
  }

  lemma NewTermLogsOk(es: Elections, t: nat, e: Election)
    requires TermLogsOk(es) && t !in es && LogOk(es, e.log)
    requires forall k :: 0 <= k < |e.log| ==> e.log[k].term < t
    ensures Grows(es, es[t := e]) && TermLogsOk(es[t := e]) && LogOk(es[t := e], e.log)
  {
    var es' := es[t := e];
    LogIsWellFormed(es, e.log);
    assert Grows(es, es');
    hide EsLe;
    forall u | u in es' ensures TermLogOk(es', u) {
      if u != t { assert TermLogOk(es, u); }
      LogOkGrows(es, es', es'[u].log);
    }
    LogOkGrows(es, es', e.log);
  }

  lemma WinKeepsLogs(c: Cluster, i: NodeId, n: Node)
    requires ShapeInv(c) && VotesInv(c) && LogsInv(c) && i in c.hosts && Crowns(c.hosts[i].n, n)
    requires |n.votes| >= Quorum(c.hosts[i].n)
    ensures LogsInv(PutNode(c, i, n)) && Grows(c.elections, PutNode(c, i, n).elections)
  {
    hide ShapeInv, VotesInv, EsLe, LogOk, TermLogsOk, NoNewClaims, AppendsOk, NoneStuck;
    WinnerIsFirst(c, i);
    forall k | 0 <= k < |n.log| ensures n.log[k].term < n.term { WinnerLogIsOlder(c, i, k); }
    var c' := PutNode(c, i, n);
    NewTermLogsOk(c.elections, n.term, c'.elections[n.term]);
    SilentIsSilent(c, i, n);
    hide LogsInv;
    QuietKeepsLogs(c, c', i);
  }

  // ---- proposing ------------------------------------------------------------------

  lemma ExtendedTermLogsOk(es: Elections, t: nat, x: Entry)
    requires TermLogsOk(es) && t in es && x.term == t > 0 && x.index == |es[t].log| + 1
    ensures var es' := es[t := es[t].(log := es[t].log + [x])];
            Grows(es, es') && TermLogsOk(es') && LogOk(es', es[t].log + [x])
  {
    var L := es[t].log + [x];
    var es' := es[t := es[t].(log := L)];
    ExtendedGrows(es, t, x);
    hide EsLe, OwnGrowth;
    assert LogOk(es', L) by { ExtendedIsOk(es, t, x); }
    forall u | u in es' ensures TermLogOk(es', u) {
      assert TermLogOk(es, u);
      if u != t { LogOkGrows(es, es', es[u].log); }
    }
  }

  lemma ExtendedGrows(es: Elections, t: nat, x: Entry)
    requires t in es && x.term == t
    ensures Grows(es, es[t := es[t].(log := es[t].log + [x])])
  {
  }

  lemma ExtendedIsOk(es: Elections, t: nat, x: Entry)
    requires TermLogsOk(es) && t in es && x.term == t
    ensures LogOk(es[t := es[t].(log := es[t].log + [x])], es[t].log + [x])
  {
    var L := es[t].log + [x];
    var es' := es[t := es[t].(log := L)];
    assert TermLogOk(es, t);
    ExtendedGrows(es, t, x);
    LogOkGrows(es, es', es[t].log);
    hide EsLe, OwnGrowth, TermLogsOk;
    forall k | 0 <= k < |L| ensures L[k].term in es' && SamePrefix(L, es'[L[k].term].log, k + 1) {
      if k < |es[t].log| { assert SamePrefix(es[t].log, es'[L[k].term].log, k + 1); }
    }
  }

  lemma ProposeKeepsLogs(c: Cluster, i: NodeId, n: Node, x: Entry)
    requires ShapeInv(c) && VotesInv(c) && LogsInv(c) && i in c.hosts && Extends(c.hosts[i].n, n, x)
    requires x.term == n.term && x.index == |c.hosts[i].n.log| + 1
    ensures LogsInv(PutNode(c, i, n)) && Grows(c.elections, PutNode(c, i, n).elections)
  {
    hide ShapeInv, VotesInv, LogsInv, EsLe, LogOk, TermLogsOk, NoNewClaims;
    LeaderFacts(c, i);
    var c' := PutNode(c, i, n);
    ProposeGrows(c, i, n, x);
    SilentIsSilent(c, i, n);
    QuietKeepsLogs(c, c', i);
  }

  lemma LeaderFacts(c: Cluster, i: NodeId)
    requires ShapeInv(c) && VotesInv(c) && i in c.hosts && c.hosts[i].n.role == Leader
    ensures c.hosts[i].n.term > 0 && ReignOk(c, i)
  {
    assert c.hosts[i].n.term > 0 by { hide VotesInv; assert HostOk(c.cfg, i, c.hosts[i]); }
    hide ShapeInv;
  }

  lemma ProposeGrows(c: Cluster, i: NodeId, n: Node, x: Entry)
    requires LogsInv(c) && i in c.hosts && ReignOk(c, i) && Extends(c.hosts[i].n, n, x)
    requires x.term == n.term > 0 && x.index == |c.hosts[i].n.log| + 1
    ensures var es' := PutNode(c, i, n).elections;
            Grows(c.elections, es') && TermLogsOk(es') && LogOk(es', n.log)
  {
    hide HostLogsOk, AppendsOk, NoneStuck;
    ExtendedTermLogsOk(c.elections, n.term, x);
    hide EsLe, LogOk, TermLogsOk;
    assert PutNode(c, i, n).elections ==
           c.elections[n.term := c.elections[n.term].(log := c.elections[n.term].log + [x])];
  }
}
