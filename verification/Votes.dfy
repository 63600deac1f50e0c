/** Elections: every vote that counts is unique per voter and term, every winner
    is backed by a quorum of such votes, and so a term has one leader. */
module Votes {
  import opened Types
  import opened RaftLog
  import opened NodeSpec
  import opened Cluster
  import opened Shape

  predicate NetVote(net: set<Message>, t: nat, voter: NodeId, candidate: NodeId) {
    exists m :: m in net && m.term == t && m.from == voter && VoteOf(m) == candidate
  }

  predicate Requested(net: set<Message>, t: nat, candidate: NodeId) {
    exists m :: m in net && m.RequestVote? && m.term == t && m.from == candidate
  }

  predicate IsGrant(m: Message) { m.RequestVoteResponse? && m.granted }

  predicate SameBallot(a: Message, b: Message) {
    a.from == b.from && a.term == b.term && VoteOf(a) != NO_NODE && VoteOf(b) != NO_NODE
  }

  ghost predicate OneVote(c: Cluster) {
    forall a, b :: Claimed(c, a) && Claimed(c, b) && SameBallot(a, b) ==> VoteOf(a) == VoteOf(b)
  }

  ghost predicate GrantsAnswer(c: Cluster) {
    forall m :: Claimed(c, m) && IsGrant(m) ==> Requested(c.net, m.term, m.to)
  }

  predicate BallotOk(c: Cluster, i: NodeId)
    requires i in c.hosts
  {
    var n := c.hosts[i].n;
    n.role == Candidate ==>
      && i in n.votes
      && n.votes <= c.hosts.Keys
      && (forall v :: v in n.votes && v != i ==> NetVote(c.net, n.term, v, i))
      && (n.term in c.elections ==> c.elections[n.term].leader != i)
  }

  predicate ReignOk(c: Cluster, i: NodeId)
    requires i in c.hosts
  {
    var n := c.hosts[i].n;
    n.role == Leader ==>
      n.term in c.elections && c.elections[n.term].leader == i && c.elections[n.term].log == n.log
  }

  predicate ElectionOk(c: Cluster, t: nat)
    requires t in c.elections
  {
    var e := c.elections[t];
    && e.leader in e.voters
    && e.voters <= c.hosts.Keys
    && |e.voters| >= |c.cfg.peers| / 2 + 1
    && e.rank < |c.elections|
    && (forall v :: v in e.voters ==> NetVote(c.net, t, v, e.leader))
  }

  /** A vote request of a live candidacy describes the candidate's log. */
  predicate RequestOk(c: Cluster, m: Message) {
    m.RequestVote? && m.from in c.hosts && m.term !in c.elections &&
    c.hosts[m.from].n.role == Candidate && c.hosts[m.from].n.term == m.term ==>
      m.lastIndex == |c.hosts[m.from].n.log| && m.lastTerm == LastTerm(c.hosts[m.from].n.log)
  }

  ghost predicate RequestsOk(c: Cluster) {
    forall m :: Claimed(c, m) ==> RequestOk(c, m)
  }

  predicate BallotsOk(c: Cluster) { forall i :: i in c.hosts ==> BallotOk(c, i) }

  predicate ReignsOk(c: Cluster) { forall i :: i in c.hosts ==> ReignOk(c, i) }

  predicate ElectionsOk(c: Cluster) { forall t :: t in c.elections ==> ElectionOk(c, t) }

  ghost predicate VotesInv(c: Cluster) {
    OneVote(c) && GrantsAnswer(c) && BallotsOk(c) && ReignsOk(c) && ElectionsOk(c) && RequestsOk(c)
  }

  // ---- quorums -------------------------------------------------------------

  lemma DistinctSize(s: seq<NodeId>, xs: set<NodeId>)
    requires forall j, k :: 0 <= j < k < |s| ==> s[j] != s[k]
    requires forall x :: x in xs <==> x in s
    ensures |xs| == |s|
  {
    if |s| == 0 {
      assert xs == {};
    } else {
      var t, x := s[..|s| - 1], s[|s| - 1];
      assert s == t + [x];
      DistinctSize(t, xs - {x});
    }
  }

  lemma QuorumsMeet(all: set<NodeId>, a: set<NodeId>, b: set<NodeId>) returns (v: NodeId)
    requires a <= all && b <= all && |a| + |b| > |all|
    ensures v in a && v in b
  {
    if a * b == {} {
      assert |a + b| == |a| + |b|;
      SubsetSize(a + b, all);
      assert false;
    }
    v :| v in a * b;
  }

  lemma ClusterQuorumsMeet(c: Cluster, a: set<NodeId>, b: set<NodeId>) returns (v: NodeId)
    requires ShapeInv(c)
    requires a <= c.hosts.Keys && b <= c.hosts.Keys
    requires |a| >= |c.cfg.peers| / 2 + 1 && |b| >= |c.cfg.peers| / 2 + 1
    ensures v in a && v in b
  {
    hide HostOk, NetOk;
    DistinctSize(c.cfg.peers, c.hosts.Keys);
    v := QuorumsMeet(c.hosts.Keys, a, b);
  }

  lemma PeersOf(c: Cluster, i: NodeId)
    requires ShapeInv(c) && i in c.hosts
    ensures c.hosts[i].n.peers == c.cfg.peers && c.hosts[i].n.id == i && i != NO_NODE
  {
    hide PipeOk, Chain, NodeOk, NetOk;
    assert HostOk(c.cfg, i, c.hosts[i]);
  }

  lemma RolesAt(c: Cluster, i: NodeId)
    requires VotesInv(c) && i in c.hosts
    ensures BallotOk(c, i) && ReignOk(c, i)
  {
    hide OneVote, GrantsAnswer, ElectionsOk, RequestsOk, BallotOk, ReignOk;
  }

  // ---- consequences --------------------------------------------------------

  lemma WireIsCovered(c: Cluster, m: Message)
    requires ShapeInv(c) && m in c.net
    ensures m.from in c.hosts && Covered(m, c.hosts[m.from].hs) && c.hosts[m.from].hs.term <= c.hosts[m.from].n.term
  {
    hide PipeOk, NodeOk;
    assert HostOk(c.cfg, m.from, c.hosts[m.from]);
  }

  /** A durable-vote reading of the invariant: whoever helped elect term t has a
      hard state on disk that records it. */
  lemma VoterIsBound(c: Cluster, t: nat, v: NodeId)
    requires ShapeInv(c) && VotesInv(c) && t in c.elections && v in c.elections[t].voters
    ensures v in c.hosts && c.hosts[v].hs.term >= t
    ensures c.hosts[v].n.term >= t
  {
    hide ShapeInv, BallotsOk, ReignsOk, OneVote, GrantsAnswer, RequestsOk;
    assert ElectionOk(c, t);
    assert NetVote(c.net, t, v, c.elections[t].leader);
    var m :| m in c.net && m.term == t && m.from == v && VoteOf(m) == c.elections[t].leader;
    WireIsCovered(c, m);
  }

  /** No message of a candidacy exists before the candidacy. */
  lemma FutureIsEmpty(c: Cluster, i: NodeId, m: Message)
    requires ShapeInv(c) && VotesInv(c) && i in c.hosts && Claimed(c, m)
    requires m.term > c.hosts[i].n.term
    ensures m.from != i && !(IsGrant(m) && m.to == i)
  {
    hide HostOk, PipeOk, BallotOk, ReignOk, ElectionOk, RequestOk;
    ClaimedIsCovered(c, m);
    if IsGrant(m) && m.to == i {
      var r :| r in c.net && r.RequestVote? && r.term == m.term && r.from == i;
      assert Claimed(c, r);
      ClaimedIsCovered(c, r);
    }
  }

  lemma RecordIsIdle(c: Cluster, i: NodeId, n: Node)
    requires i in c.hosts && ReignOk(c, i)
    requires n.role == Leader ==> c.hosts[i].n.role == Leader && n.term == c.hosts[i].n.term && n.log == c.hosts[i].n.log
    ensures PutNode(c, i, n).elections == c.elections
  {
  }

  // ---- what message-free and message-losing changes keep --------------------

  ghost predicate NoNewClaims(c: Cluster, c': Cluster) {
    c.net <= c'.net && forall m :: Claimed(c', m) ==> Claimed(c, m)
  }

  lemma FewerClaimsKeep(c: Cluster, c': Cluster)
    requires OneVote(c) && GrantsAnswer(c) && NoNewClaims(c, c')
    ensures OneVote(c') && GrantsAnswer(c')
  {
    hide Claimed;
    forall m | Claimed(c', m) && IsGrant(m) ensures Requested(c'.net, m.term, m.to) {
      assert Requested(c.net, m.term, m.to);
    }
  }

  lemma ElectionsKeep(c: Cluster, c': Cluster)
    requires ElectionsOk(c) && c.net <= c'.net && c'.hosts.Keys == c.hosts.Keys
    requires c'.cfg == c.cfg && c'.elections == c.elections
    ensures ElectionsOk(c')
  {
    forall t | t in c'.elections ensures ElectionOk(c', t) {
      assert ElectionOk(c, t);
      forall v | v in c.elections[t].voters ensures NetVote(c'.net, t, v, c.elections[t].leader) {
        assert NetVote(c.net, t, v, c.elections[t].leader);
      }
    }
  }

  lemma NetVoteGrows(net: set<Message>, net': set<Message>, t: nat, v: NodeId, candidate: NodeId)
    requires net <= net' && NetVote(net, t, v, candidate)
    ensures NetVote(net', t, v, candidate)
  {
  }

  /** Only node i's own role facts need a fresh proof when i alone changes. */
  lemma OthersKeepVotes(c: Cluster, c': Cluster, i: NodeId)
    requires BallotsOk(c) && ReignsOk(c) && i in c.hosts
    requires c'.hosts.Keys == c.hosts.Keys && c'.elections == c.elections && c.net <= c'.net
    requires forall j :: j in c.hosts && j != i ==> c'.hosts[j].n == c.hosts[j].n
    requires BallotOk(c', i) && ReignOk(c', i)
    ensures BallotsOk(c') && ReignsOk(c')
  {
    hide NetVote;
    forall j | j in c.hosts ensures BallotOk(c', j) && ReignOk(c', j) {
      if j != i {
        assert BallotOk(c, j) && ReignOk(c, j);
        var n := c.hosts[j].n;
        if n.role == Candidate {
          forall v | v in n.votes && v != j ensures NetVote(c'.net, n.term, v, j) {
            NetVoteGrows(c.net, c'.net, n.term, v, j);
          }
        }
      }
    }
  }

  lemma RequestsKeep(c: Cluster, c': Cluster, i: NodeId)
    requires RequestsOk(c) && NoNewClaims(c, c') && i in c.hosts
    requires c'.hosts.Keys == c.hosts.Keys && c'.elections == c.elections
    requires forall j :: j in c.hosts && j != i ==> c'.hosts[j].n == c.hosts[j].n
    requires var o, n := c.hosts[i].n, c'.hosts[i].n;
             n.role == Candidate && n.term !in c.elections ==> o.role == Candidate && o.term == n.term && o.log == n.log
    ensures RequestsOk(c')
  {
    hide Claimed;
    forall m | Claimed(c', m) ensures RequestOk(c', m) { assert RequestOk(c, m); }
  }

  lemma SilentIsSilent(c: Cluster, i: NodeId, n: Node)
    requires i in c.hosts && n.pending == c.hosts[i].n.pending
    ensures NoNewClaims(c, PutNode(c, i, n))
  {
  }

  /** i, not a leader afterwards, changes without sending; a standing candidacy
      stays as it is, except that its log may move once its term is lost. */
  predicate Meek(c: Cluster, i: NodeId, n: Node)
    requires i in c.hosts
  {
    var o := c.hosts[i].n;
    && n.pending == o.pending
    && n.role != Leader
    && (n.role == Candidate ==>
          o.role == Candidate && n.term == o.term && n.votes == o.votes && (n.log == o.log || n.term in c.elections))
  }

  lemma MeekKeepsVotes(c: Cluster, i: NodeId, n: Node)
    requires VotesInv(c) && i in c.hosts && Meek(c, i, n)
    ensures VotesInv(PutNode(c, i, n)) && PutNode(c, i, n).elections == c.elections
  {
    hide ShapeInv, OneVote, GrantsAnswer, BallotsOk, ReignsOk, ElectionsOk, RequestsOk, NoNewClaims, NetVote;
    var c' := PutNode(c, i, n);
    RolesAt(c, i);
    SilentIsSilent(c, i, n);
    FewerClaimsKeep(c, c');
    ElectionsKeep(c, c');
    OthersKeepVotes(c, c', i);
    RequestsKeep(c, c', i);
  }

  /** A leader changes its books without sending. */
  predicate Keeps(o: Node, n: Node) {
    n.pending == o.pending && o.role == n.role == Leader && n.term == o.term && n.log == o.log
  }

  lemma LeaderKeepsVotes(c: Cluster, i: NodeId, n: Node)
    requires VotesInv(c) && i in c.hosts && Keeps(c.hosts[i].n, n)
    ensures VotesInv(PutNode(c, i, n)) && PutNode(c, i, n).elections == c.elections
  {
    hide ShapeInv, OneVote, GrantsAnswer, BallotsOk, ReignsOk, ElectionsOk, RequestsOk, NoNewClaims, NetVote;
    var c' := PutNode(c, i, n);
    RolesAt(c, i);
    RecordIsIdle(c, i, n);
    SilentIsSilent(c, i, n);
    FewerClaimsKeep(c, c');
    ElectionsKeep(c, c');
    OthersKeepVotes(c, c', i);
    RequestsKeep(c, c', i);
  }

  /** Messages a node may queue in its present state. */
  ghost predicate MaySay(c: Cluster, n: Node, m: Message) {
    && (VoteOf(m) != NO_NODE ==> m.term == n.term && VoteOf(m) == n.votedFor)
    && (IsGrant(m) ==> Requested(c.net, m.term, m.to))
    && (m.RequestVote? ==> m.lastIndex == |n.log| && m.lastTerm == LastTerm(n.log))
  }

  lemma QueueClaims(c: Cluster, i: NodeId, ms: seq<Message>, m: Message)
    requires i in c.hosts
    requires Claimed(PutNode(c, i, QueueAll(c.hosts[i].n, ms)), m)
    ensures Claimed(c, m) || (m in ms && m.from == i)
  {
    QueuedIff(c.hosts[i].n, ms, m);
  }

  lemma QueueKeepsOneVote(c: Cluster, i: NodeId, ms: seq<Message>)
    requires ShapeInv(c) && OneVote(c) && i in c.hosts
    requires forall m :: m in ms ==> m.from == i && MaySay(c, c.hosts[i].n, m)
    ensures OneVote(PutNode(c, i, QueueAll(c.hosts[i].n, ms)))
  {
    var n := c.hosts[i].n;
    var c' := PutNode(c, i, QueueAll(n, ms));
    hide ShapeInv;
    forall a, b | Claimed(c', a) && Claimed(c', b) && SameBallot(a, b) ensures VoteOf(a) == VoteOf(b) {
      QueueClaims(c, i, ms, a);
      QueueClaims(c, i, ms, b);
      if Claimed(c, a) { ClaimedIsCovered(c, a); }
      if Claimed(c, b) { ClaimedIsCovered(c, b); }
    }
  }

  lemma QueueKeepsVotes(c: Cluster, i: NodeId, ms: seq<Message>)
    requires ShapeInv(c) && VotesInv(c) && i in c.hosts
    requires forall m :: m in ms ==> m.from == i && MaySay(c, c.hosts[i].n, m)
    ensures VotesInv(PutNode(c, i, QueueAll(c.hosts[i].n, ms)))
    ensures PutNode(c, i, QueueAll(c.hosts[i].n, ms)).elections == c.elections
  {
    hide ShapeInv, OneVote, BallotsOk, ReignsOk, ElectionsOk, NetVote;
    var n := c.hosts[i].n;
    var c' := PutNode(c, i, QueueAll(n, ms));
    RolesAt(c, i);
    RecordIsIdle(c, i, QueueAll(n, ms));
    QueueKeepsOneVote(c, i, ms);
    ElectionsKeep(c, c');
    OthersKeepVotes(c, c', i);
    forall m | Claimed(c', m) ensures Claimed(c, m) || (m in ms && m.from == i) { QueueClaims(c, i, ms, m); }
    hide Claimed, BallotOk, ReignOk;
    assert GrantsAnswer(c');
    forall m | Claimed(c', m) ensures RequestOk(c', m) {
      if Claimed(c, m) { assert RequestOk(c, m); }
    }
  }

  // ---- standing, counting, winning ------------------------------------------

  /** n' starts a candidacy in the next term. */
  predicate Stands(n: Node, n': Node) {
    && n'.pending == n.pending && n'.log == n.log
    && n'.role == Candidate && n'.term == n.term + 1 && n'.votes == {n.id}
  }

  lemma StandKeepsVotes(c: Cluster, i: NodeId, n: Node)
    requires ShapeInv(c) && VotesInv(c) && i in c.hosts && Stands(c.hosts[i].n, n)
    ensures VotesInv(PutNode(c, i, n)) && PutNode(c, i, n).elections == c.elections
  {
    hide ShapeInv, OneVote, GrantsAnswer, BallotsOk, ReignsOk, ElectionsOk, RequestsOk, NoNewClaims, NetVote;
    var c' := PutNode(c, i, n);
    StandsAfresh(c, i);
    PeersOf(c, i);
    RolesAt(c, i);
    StandKeepsRequests(c, i, n);
    SilentIsSilent(c, i, n);
    FewerClaimsKeep(c, c');
    ElectionsKeep(c, c');
    OthersKeepVotes(c, c', i);
  }

  /** Nobody has won the term after its own before standing in it. */
  lemma StandsAfresh(c: Cluster, i: NodeId)
    requires ShapeInv(c) && VotesInv(c) && i in c.hosts
    ensures var t := c.hosts[i].n.term + 1; t in c.elections ==> c.elections[t].leader != i
  {
    hide ShapeInv, OneVote, GrantsAnswer, BallotsOk, ReignsOk, RequestsOk;
    var t := c.hosts[i].n.term + 1;
    if t in c.elections && c.elections[t].leader == i {
      assert ElectionOk(c, t);
      VoterIsBound(c, t, i);
    }
  }

  lemma StandKeepsRequests(c: Cluster, i: NodeId, n: Node)
    requires ShapeInv(c) && VotesInv(c) && i in c.hosts && Stands(c.hosts[i].n, n)
    ensures RequestsOk(PutNode(c, i, n))
  {
    hide ShapeInv, OneVote, GrantsAnswer, BallotsOk, ReignsOk, ElectionsOk;
    var c' := PutNode(c, i, n);
    SilentIsSilent(c, i, n);
    hide Claimed;
    forall m | Claimed(c', m) ensures RequestOk(c', m) {
      assert RequestOk(c, m);
      if m.term == n.term { FutureIsEmpty(c, i, m); }
    }
  }

  /** n' is candidate n with one more ballot counted. */
  predicate Counts(n: Node, n': Node, v: NodeId) {
    && n'.pending == n.pending && n.role == n'.role == Candidate && n'.term == n.term && n'.log == n.log
    && n'.votes == n.votes + {v}
  }

  lemma GrantIsVote(net: set<Message>, m: Message)
    requires m in net && IsGrant(m)
    ensures NetVote(net, m.term, m.from, m.to)
  {
  }

  lemma WireIsAddressed(c: Cluster, m: Message)
    requires ShapeInv(c) && m in c.net
    ensures m.from in c.hosts && m.to in c.hosts && m.from != m.to
  {
    hide HostOk;
  }

  lemma CountKeepsVotes(c: Cluster, i: NodeId, n: Node, m: Message)
    requires ShapeInv(c) && VotesInv(c) && i in c.hosts && Counts(c.hosts[i].n, n, m.from)
    requires m in c.net && IsGrant(m) && m.to == i && m.term == c.hosts[i].n.term
    ensures VotesInv(PutNode(c, i, n)) && PutNode(c, i, n).elections == c.elections
  {
    hide ShapeInv, OneVote, GrantsAnswer, BallotsOk, ReignsOk, ElectionsOk, RequestsOk, NoNewClaims, NetVote;
    var c' := PutNode(c, i, n);
    WireIsAddressed(c, m);
    assert NetVote(c.net, m.term, m.from, i) by { GrantIsVote(c.net, m); }
    RolesAt(c, i);
    SilentIsSilent(c, i, n);
    FewerClaimsKeep(c, c');
    ElectionsKeep(c, c');
    OthersKeepVotes(c, c', i);
    RequestsKeep(c, c', i);
  }

  lemma TwoPeers(c: Cluster, i: NodeId)
    requires ShapeInv(c) && i in c.hosts
    ensures Quorum(c.hosts[i].n) >= 2
  {
    hide NetOk, HostOk;
    PeersOf(c, i);
  }

  /** A candidate with a quorum has asked for votes, so its own vote is on the
      wire too. */
  lemma WinnerIsBacked(c: Cluster, i: NodeId, v: NodeId)
    requires ShapeInv(c) && VotesInv(c) && i in c.hosts
    requires c.hosts[i].n.role == Candidate && |c.hosts[i].n.votes| >= Quorum(c.hosts[i].n)
    requires v in c.hosts[i].n.votes
    ensures NetVote(c.net, c.hosts[i].n.term, v, i)
  {
    hide ShapeInv, OneVote, ReignsOk, ElectionsOk, RequestsOk, BallotsOk;
    var n := c.hosts[i].n;
    RolesAt(c, i);
    if v == i {
      if forall w :: w in n.votes ==> w == i {
        SubsetSize(n.votes, {i});
        TwoPeers(c, i);
      }
      var w :| w in n.votes && w != i;
      var m :| m in c.net && m.term == n.term && m.from == w && VoteOf(m) == i;
      PeersOf(c, i);
      assert Claimed(c, m) && IsGrant(m);
      var r :| r in c.net && r.RequestVote? && r.term == n.term && r.from == i;
    }
  }

  /** Two votes of one voter in one term agree. */
  lemma VotesAgree(c: Cluster, t: nat, v: NodeId, a: NodeId, b: NodeId)
    requires OneVote(c) && NetVote(c.net, t, v, a) && NetVote(c.net, t, v, b)
    requires a != NO_NODE && b != NO_NODE
    ensures a == b
  {
    var x :| x in c.net && x.term == t && x.from == v && VoteOf(x) == a;
    var y :| y in c.net && y.term == t && y.from == v && VoteOf(y) == b;
    assert Claimed(c, x) && Claimed(c, y);
  }

  /** Election Safety in one state: a candidate that wins wins a fresh term. */
  lemma WinnerIsFirst(c: Cluster, i: NodeId)
    requires ShapeInv(c) && VotesInv(c) && i in c.hosts
    requires c.hosts[i].n.role == Candidate && |c.hosts[i].n.votes| >= Quorum(c.hosts[i].n)
    ensures c.hosts[i].n.term !in c.elections
  {
    hide HostOk, NetOk, OneVote, RequestsOk, GrantsAnswer, ReignsOk, NetVote;
    var n := c.hosts[i].n;
    if n.term in c.elections {
      var e := c.elections[n.term];
      assert BallotOk(c, i) && ElectionOk(c, n.term);
      PeersOf(c, i);
      PeersOf(c, e.leader);
      var v := ClusterQuorumsMeet(c, e.voters, n.votes);
      WinnerIsBacked(c, i, v);
      VotesAgree(c, n.term, v, e.leader, i);
      assert false;
    }
  }

  /** n' is candidate n turned leader. */
  predicate Crowns(n: Node, n': Node) {
    && n'.pending == n.pending && n'.term == n.term && n'.log == n.log && n'.votes == n.votes
    && n.role == Candidate && n'.role == Leader
  }

  lemma WinKeepsElections(c: Cluster, i: NodeId, n: Node)
    requires ShapeInv(c) && VotesInv(c) && i in c.hosts && Crowns(c.hosts[i].n, n)
    requires |n.votes| >= Quorum(c.hosts[i].n)
    ensures n.term !in c.elections
    ensures ElectionsOk(PutNode(c, i, n))
  {
    hide ShapeInv, OneVote, RequestsOk, GrantsAnswer, ReignsOk, BallotsOk, NetVote;
    var c' := PutNode(c, i, n);
    WinnerIsFirst(c, i);
    PeersOf(c, i);
    RolesAt(c, i);
    forall v | v in n.votes ensures NetVote(c.net, n.term, v, i) { WinnerIsBacked(c, i, v); }
    forall t | t in c'.elections ensures ElectionOk(c', t) {
      if t != n.term { assert ElectionOk(c, t); }
    }
  }

  lemma WinKeepsRoles(c: Cluster, i: NodeId, n: Node)
    requires BallotsOk(c) && ReignsOk(c) && i in c.hosts && Crowns(c.hosts[i].n, n) && n.term !in c.elections
    ensures BallotsOk(PutNode(c, i, n)) && ReignsOk(PutNode(c, i, n))
  {
    hide NetVote;
    var c' := PutNode(c, i, n);
    forall j | j in c'.hosts ensures BallotOk(c', j) && ReignOk(c', j) {
      assert BallotOk(c, j) && ReignOk(c, j);
    }
  }

  lemma WinKeepsRequests(c: Cluster, i: NodeId, n: Node)
    requires RequestsOk(c) && i in c.hosts && Crowns(c.hosts[i].n, n) && n.term !in c.elections
    ensures RequestsOk(PutNode(c, i, n))
  {
    var c' := PutNode(c, i, n);
    SilentIsSilent(c, i, n);
    hide Claimed;
    forall m | Claimed(c', m) ensures RequestOk(c', m) { assert RequestOk(c, m); }
  }

  lemma WinKeepsVotes(c: Cluster, i: NodeId, n: Node)
    requires ShapeInv(c) && VotesInv(c) && i in c.hosts && Crowns(c.hosts[i].n, n)
    requires |n.votes| >= Quorum(c.hosts[i].n)
    ensures n.term !in c.elections && VotesInv(PutNode(c, i, n))
  {
    hide ShapeInv, OneVote, RequestsOk, GrantsAnswer, ElectionsOk, BallotsOk, ReignsOk, NoNewClaims;
    var c' := PutNode(c, i, n);
    WinKeepsElections(c, i, n);
    SilentIsSilent(c, i, n);
    FewerClaimsKeep(c, c');
    WinKeepsRoles(c, i, n);
    WinKeepsRequests(c, i, n);
  }

  // ---- proposals -------------------------------------------------------------

  /** n' is leader n with one more entry in its log. */
  predicate Extends(n: Node, n': Node, e: Entry) {
    n'.pending == n.pending && n'.term == n.term && n.role == n'.role == Leader && n'.log == n.log + [e]
  }

  lemma ProposeKeepsRest(c: Cluster, c': Cluster, i: NodeId, n: Node)
    requires ElectionsOk(c) && BallotsOk(c) && ReignsOk(c) && RequestsOk(c) && NoNewClaims(c, c')
    requires i in c.hosts && c' == PutNode(c, i, n) && c.hosts[i].n.role == n.role == Leader && n.term == c.hosts[i].n.term
    ensures ElectionsOk(c') && BallotsOk(c') && ReignsOk(c') && RequestsOk(c')
  {
    hide NetVote, Claimed, RequestsOk, ElectionsOk, BallotsOk, NoNewClaims;
    assert ReignOk(c, i);
    ProposeKeepsReigns(c, i, n);
    hide ReignsOk, ReignOk;
    ProposeKeepsElections(c, i, n);
    ProposeKeepsRequests(c, i, n);
    ProposeKeepsBallots(c, i, n);
  }

  lemma ProposeKeepsReigns(c: Cluster, i: NodeId, n: Node)
    requires ReignsOk(c) && i in c.hosts && c.hosts[i].n.role == n.role == Leader && n.term == c.hosts[i].n.term
    ensures ReignsOk(PutNode(c, i, n))
  {
    assert ReignOk(c, i);
    forall j | j in c.hosts ensures ReignOk(PutNode(c, i, n), j) { assert ReignOk(c, j); }
  }

  lemma ProposeKeepsElections(c: Cluster, i: NodeId, n: Node)
    requires ElectionsOk(c) && i in c.hosts && n.role == Leader && n.term in c.elections
    ensures ElectionsOk(PutNode(c, i, n))
  {
    hide NetVote;
    forall t | t in c.elections ensures ElectionOk(PutNode(c, i, n), t) { assert ElectionOk(c, t); }
  }

  lemma ProposeKeepsBallots(c: Cluster, i: NodeId, n: Node)
    requires BallotsOk(c) && i in c.hosts && n.role == Leader && n.term in c.elections
    ensures BallotsOk(PutNode(c, i, n))
  {
    hide NetVote;
    forall j | j in c.hosts ensures BallotOk(PutNode(c, i, n), j) { assert BallotOk(c, j); }
  }

  lemma ProposeKeepsRequests(c: Cluster, i: NodeId, n: Node)
    requires RequestsOk(c) && i in c.hosts && NoNewClaims(c, PutNode(c, i, n)) && n.role == Leader && n.term in c.elections
    ensures RequestsOk(PutNode(c, i, n))
  {
    hide Claimed;
    var c' := PutNode(c, i, n);
    forall m | Claimed(c', m) ensures RequestOk(c', m) { assert RequestOk(c, m); }
  }

  lemma ProposeKeepsVotes(c: Cluster, i: NodeId, n: Node, e: Entry)
    requires VotesInv(c) && i in c.hosts && Extends(c.hosts[i].n, n, e)
    ensures VotesInv(PutNode(c, i, n))
  {
    hide OneVote, GrantsAnswer, NetVote, NoNewClaims, RequestsOk, ElectionsOk, BallotsOk, ReignsOk;
    var c' := PutNode(c, i, n);
    RolesAt(c, i);
    SilentIsSilent(c, i, n);
    FewerClaimsKeep(c, c');
    ProposeKeepsRest(c, c', i, n);
  }

  // ---- host steps -------------------------------------------------------------

  /** i's host is replaced by one that says no more, with its node unchanged or
      restarted as a follower. */
  lemma HostKeepsVotes(c: Cluster, i: NodeId, h: Host, net: set<Message>)
    requires VotesInv(c) && i in c.hosts
    requires var c' := PutHost(c, i, h).(net := net); NoNewClaims(c, c')
    requires var o, n := c.hosts[i].n, h.n;
             n.role == Follower || (n.role == o.role && n.term == o.term && n.votes == o.votes && n.log == o.log)
    ensures VotesInv(PutHost(c, i, h).(net := net)) && PutHost(c, i, h).elections == c.elections
  {
    hide OneVote, GrantsAnswer, BallotsOk, ReignsOk, ElectionsOk, RequestsOk, NetVote, Claimed;
    var c' := PutHost(c, i, h).(net := net);
    RolesAt(c, i);
    assert c'.elections == c.elections;
    FewerClaimsKeep(c, c');
    ElectionsKeep(c, c');
    RequestsKeep(c, c', i);
    if h.n.role == Candidate {
      forall v | v in h.n.votes && v != i ensures NetVote(c'.net, h.n.term, v, i) {
        NetVoteGrows(c.net, c'.net, h.n.term, v, i);
      }
    }
    OthersKeepVotes(c, c', i);
  }

  lemma DrainedSaysNoMore(c: Cluster, i: NodeId)
    requires i in c.hosts && c.hosts[i].out == Outbox(None, [])
    ensures NoNewClaims(c, PutHost(c, i, Drained(c.hosts[i])))
  {
    var h := c.hosts[i];
    var c' := PutHost(c, i, Drained(h));
    forall m | Claimed(c', m) ensures Claimed(c, m) {
      if m !in c.net && m.from == i && m in Drained(h).out.msgs {
        LiveIsPending(h.n.pending, h.n.epoch, m);
        assert Queued(h.n.pending, m);
      }
    }
  }

  lemma SavedSaysNoMore(c: Cluster, i: NodeId)
    requires i in c.hosts && c.hosts[i].out.hs.Some?
    ensures NoNewClaims(c, PutHost(c, i, Saved(c.hosts[i])))
  {
  }

  lemma SentSaysNoMore(c: Cluster, i: NodeId)
    requires ShapeInv(c) && i in c.hosts && c.hosts[i].out.hs.None? && |c.hosts[i].out.msgs| > 0
    ensures NoNewClaims(c, AfterSend(c, i))
  {
    var h := c.hosts[i];
    SentKeepsHost(c.cfg, i, h);
    hide ShapeInv;
    var c' := AfterSend(c, i);
    assert h.out.msgs[0] in h.out.msgs;
    forall m | Claimed(c', m) ensures Claimed(c, m) {
    }
  }

  lemma RebootSaysNoMore(c: Cluster, i: NodeId, log: Log, draw: nat)
    requires i in c.hosts
    ensures NoNewClaims(c, PutHost(c, i, Reboot(c.cfg, i, c.hosts[i].hs, log, c.hosts[i].app.snap, draw)))
  {
  }
}
