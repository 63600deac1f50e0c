/** Every step of the code is a sequence of protocol actions. */
module Refinement {
  import opened Types
  import opened RaftLog
  import opened NodeSpec
  import opened Cluster
  import opened Shape
  import opened Votes
  import opened Logs
  import opened Actions
  import opened Acks

  ghost predicate Path(c: Cluster, actions: seq<Action>, tight: bool, c': Cluster)
    decreases |actions|
  {
    if |actions| == 0 then c' == c
    else
      var a, before := actions[|actions| - 1], actions[..|actions| - 1];
      exists mid :: Path(c, before, tight, mid) && Can(mid, a, tight) && c' == Act(mid, a)
  }

  /** c' follows from c by protocol actions; with tight, no acknowledgement claims
      more than the acknowledging log shares with the leader. */
  ghost predicate Reach(c: Cluster, c': Cluster, tight: bool) {
    exists actions :: Path(c, actions, tight, c')
  }

  lemma ReachRefl(c: Cluster, tight: bool)
    ensures Reach(c, c, tight)
  {
    assert Path(c, [], tight, c);
  }

  lemma ReachStep(c: Cluster, mid: Cluster, a: Action, tight: bool)
    requires Reach(c, mid, tight) && BaseInv(mid) && Can(mid, a, tight)
    ensures a.i in mid.hosts && Reach(c, Act(mid, a), tight) && BaseInv(Act(mid, a))
  {
    hide BaseInv, Can, Act;
    var actions :| Path(c, actions, tight, mid);
    CanActs(mid, a, tight);
    assert (actions + [a])[..|actions|] == actions;
    assert Path(c, actions + [a], tight, Act(mid, a));
    ActionKeepsBase(mid, a) by { if tight { TightIsLoose(mid, a); } }
  }

  // ---- putting a node twice ---------------------------------------------------------

  lemma PutTwice(c: Cluster, i: NodeId, n1: Node, n2: Node)
    requires i in c.hosts
    requires n1.role == Leader ==> n2.role == Leader && n2.term == n1.term && n2.votes == n1.votes
    ensures PutNode(PutNode(c, i, n1), i, n2) == PutNode(c, i, n2)
  {
    var es := c.elections;
    assert Record(Record(es, i, n1), i, n2) == Record(es, i, n2);
  }

  lemma PutSame(c: Cluster, i: NodeId)
    requires BaseInv(c) && i in c.hosts
    ensures PutNode(c, i, c.hosts[i].n) == c
  {
    hide ShapeInv, VotesInv, LogsInv;
    RolesAt(c, i);
  }

  lemma NodeFacts(c: Cluster, i: NodeId)
    requires BaseInv(c) && i in c.hosts
    ensures HostOk(c.cfg, i, c.hosts[i]) && i != NO_NODE && |c.cfg.peers| >= 2
    ensures forall p :: p in c.cfg.peers ==> p in c.hosts && p != NO_NODE
  {
    hide VotesInv, LogsInv, NetOk, HostOk;
  }

  // ---- the shapes of node changes ------------------------------------------------------

  /** n differs from o only in timers and hint. */
  predicate Cosmetic(o: Node, n: Node) {
    n == o.(timers := n.timers, leaderHint := n.leaderHint)
  }

  lemma CosmeticHost(cfg: Config, i: NodeId, h: Host, n: Node)
    requires HostOk(cfg, i, h) && Cosmetic(h.n, n)
    ensures HostOk(cfg, i, h.(n := n))
  {
  }

  lemma CosmeticReaches(c0: Cluster, c: Cluster, i: NodeId, n: Node, tight: bool)
    requires Reach(c0, c, tight) && BaseInv(c) && i in c.hosts && Cosmetic(c.hosts[i].n, n)
    ensures var c' := PutNode(c, i, n); Reach(c0, c', tight) && BaseInv(c')
  {
    hide BaseInv, Reach, HostOk, NetAck;
    NodeFacts(c, i);
    CosmeticHost(c.cfg, i, c.hosts[i], n);
    assert Meek(c, i, n) || Keeps(c.hosts[i].n, n);
    ReachStep(c0, c, Settle(i, n), tight);
  }

  lemma SayReaches(c0: Cluster, c: Cluster, i: NodeId, ms: seq<Message>, tight: bool)
    requires Reach(c0, c, tight) && BaseInv(c) && i in c.hosts
    requires forall m :: m in ms ==> CanSay(c, i, m, tight)
    ensures var c' := PutNode(c, i, QueueAll(c.hosts[i].n, ms)); Reach(c0, c', tight) && BaseInv(c')
  {
    hide BaseInv, Reach, CanSay, QueueAll;
    ReachStep(c0, c, Say(i, ms), tight);
  }

  lemma SettleReaches(c0: Cluster, c: Cluster, i: NodeId, n: Node, tight: bool)
    requires Reach(c0, c, tight) && BaseInv(c) && i in c.hosts
    requires HostOk(c.cfg, i, c.hosts[i].(n := n)) && CanSettle(c, i, n)
    ensures var c' := PutNode(c, i, n); Reach(c0, c', tight) && BaseInv(c')
  {
    hide BaseInv, Reach, HostOk, CanSettle;
    ReachStep(c0, c, Settle(i, n), tight);
  }

  // ---- stepping down and voting -----------------------------------------------------------

  lemma StepDownHost(cfg: Config, i: NodeId, h: Host, t: nat)
    requires HostOk(cfg, i, h) && t > h.n.term
    ensures HostOk(cfg, i, h.(n := StepDown(h.n, t)))
  {
    hide PipeOk, Chain, HostOk;
    assert NodeOk(h.n) by { HostNodeOk(cfg, i, h); }
    MovesKeepsHost(cfg, i, h, StepDown(h.n, t));
  }

  lemma HostNodeOk(cfg: Config, i: NodeId, h: Host)
    requires HostOk(cfg, i, h)
    ensures NodeOk(h.n) && h.n.id == i && h.n.peers == cfg.peers
  {
  }

  lemma StepDownReaches(c0: Cluster, c: Cluster, i: NodeId, t: nat, tight: bool)
    requires Reach(c0, c, tight) && BaseInv(c) && i in c.hosts
    ensures var c' := PutNode(c, i, StepDown(c.hosts[i].n, t)); Reach(c0, c', tight) && BaseInv(c')
  {
    hide BaseInv, Reach, HostOk;
    NodeFacts(c, i);
    var h := c.hosts[i];
    if t <= h.n.term {
      PutSame(c, i);
    } else {
      StepDownHost(c.cfg, i, h, t);
      SettleReaches(c0, c, i, StepDown(h.n, t), tight);
    }
  }

  lemma VoteReplyCanBeSaid(c: Cluster, i: NodeId, m: Message, grant: bool, tight: bool)
    requires BaseInv(c) && i in c.hosts && m in c.net && m.RequestVote? && m.to == i
    requires grant ==>
               m.term == c.hosts[i].n.term && c.hosts[i].n.votedFor == m.from &&
               UpToDate(m.lastTerm, m.lastIndex, LastTerm(c.hosts[i].n.log), |c.hosts[i].n.log|)
    ensures CanSay(c, i, RequestVoteResponse(c.hosts[i].n.term, i, m.from, grant), tight)
  {
    hide ShapeInv, VotesInv, LogsInv, UpToDate, HostOk;
    WireIsAddressed(c, m);
    NodeFacts(c, i);
    HostsArePeers(c);
    if grant { assert Requested(c.net, m.term, m.from); }
  }

  lemma HostsArePeers(c: Cluster)
    requires BaseInv(c)
    ensures forall p :: p in c.hosts <==> p in c.cfg.peers
  {
    hide VotesInv, LogsInv, HostOk, NetOk;
  }

  lemma GrantHost(cfg: Config, i: NodeId, h: Host, v: NodeId, draw: nat)
    requires HostOk(cfg, i, h) && h.n.role == Follower && (h.n.votedFor == NO_NODE || h.n.votedFor == v)
    ensures HostOk(cfg, i, h.(n := Grant(h.n, v, draw)))
  {
    hide PipeOk, Chain, HostOk;
    HostNodeOk(cfg, i, h);
    MovesKeepsHost(cfg, i, h, Grant(h.n, v, draw));
  }

  lemma GrantReaches(c0: Cluster, c: Cluster, i: NodeId, m: Message, draw: nat, tight: bool)
    requires Reach(c0, c, tight) && BaseInv(c) && i in c.hosts && m in c.net && m.RequestVote? && m.to == i
    requires CanGrant(c.hosts[i].n, m)
    ensures c.hosts[i].n.role == Follower
    ensures var c' := PutNode(c, i, Grant(c.hosts[i].n, m.from, draw)); Reach(c0, c', tight) && BaseInv(c')
  {
    hide BaseInv, Reach, HostOk, UpToDate;
    NodeFacts(c, i);
    HostNodeOk(c.cfg, i, c.hosts[i]);
    BaseAddressed(c, m);
    GrantHost(c.cfg, i, c.hosts[i], m.from, draw);
    SettleReaches(c0, c, i, Grant(c.hosts[i].n, m.from, draw), tight);
  }

  lemma BaseAddressed(c: Cluster, m: Message)
    requires BaseInv(c) && m in c.net
    ensures m.from in c.hosts && m.to in c.hosts && m.from != m.to
  {
    hide ShapeInv, VotesInv, LogsInv;
    WireIsAddressed(c, m);
  }

  lemma RequestVoteReaches(c0: Cluster, c: Cluster, i: NodeId, m: Message, draw: nat, tight: bool)
    requires Reach(c0, c, tight) && BaseInv(c) && i in c.hosts && m in c.net && m.RequestVote? && m.to == i
    requires m.term <= c.hosts[i].n.term
    ensures var c' := PutNode(c, i, HandleRequestVote(c.hosts[i].n, m, draw)); Reach(c0, c', tight) && BaseInv(c')
  {
    hide BaseInv, Reach, HostOk, UpToDate, CanSay, QueueAll;
    NodeFacts(c, i);
    HostNodeOk(c.cfg, i, c.hosts[i]);
    var n := c.hosts[i].n;
    if CanGrant(n, m) {
      var v := Grant(n, m.from, draw);
      GrantReaches(c0, c, i, m, draw, tight);
      var c1 := PutNode(c, i, v);
      VoteReplyCanBeSaid(c1, i, m, true, tight);
      SayReaches(c0, c1, i, [RequestVoteResponse(v.term, i, m.from, true)], tight);
      PutTwice(c, i, v, QueueAll(v, [RequestVoteResponse(v.term, i, m.from, true)]));
    } else {
      VoteReplyCanBeSaid(c, i, m, false, tight);
      SayReaches(c0, c, i, [RequestVoteResponse(n.term, i, m.from, false)], tight);
    }
  }

  // ---- candidacies -----------------------------------------------------------------------------

  lemma {:induction false} VoteFanoutMembers(n: Node, ps: seq<NodeId>, m: Message)
    requires m in VoteFanout(n, ps)
    ensures m.to in ps && m.to != n.id && m == VoteRequest(n, m.to)
  {
    if !(ps[0] != n.id && m == VoteRequest(n, ps[0])) {
      VoteFanoutMembers(n, ps[1..], m);
    }
  }

  lemma {:induction false} AppendFanoutMembers(n: Node, ps: seq<NodeId>, m: Message)
    requires m in AppendFanout(n, ps)
    ensures m.to in ps && m.to != n.id && m == AppendFor(n, m.to)
  {
    if !(ps[0] != n.id && m == AppendFor(n, ps[0])) {
      AppendFanoutMembers(n, ps[1..], m);
    }
  }

  lemma VoteRequestsCanBeSaid(c: Cluster, i: NodeId, tight: bool)
    requires BaseInv(c) && i in c.hosts && c.hosts[i].n.role == Candidate
    ensures forall m :: m in VoteFanout(c.hosts[i].n, c.hosts[i].n.peers) ==> CanSay(c, i, m, tight)
  {
    hide BaseInv, HostOk;
    NodeFacts(c, i);
    HostNodeOk(c.cfg, i, c.hosts[i]);
    var n := c.hosts[i].n;
    forall m | m in VoteFanout(n, n.peers) ensures CanSay(c, i, m, tight) {
      VoteFanoutMembers(n, n.peers, m);
    }
  }

  lemma StandHost(cfg: Config, i: NodeId, h: Host, draw: nat)
    requires HostOk(cfg, i, h)
    ensures HostOk(cfg, i, h.(n := Stand(h.n, draw)))
  {
    hide PipeOk, Chain, HostOk;
    HostNodeOk(cfg, i, h);
    MovesKeepsHost(cfg, i, h, Stand(h.n, draw));
  }

  lemma StandReaches(c0: Cluster, c: Cluster, i: NodeId, draw: nat, tight: bool)
    requires Reach(c0, c, tight) && BaseInv(c) && i in c.hosts
    ensures var c' := PutNode(c, i, Stand(c.hosts[i].n, draw)); Reach(c0, c', tight) && BaseInv(c')
  {
    hide BaseInv, Reach, HostOk;
    NodeFacts(c, i);
    HostNodeOk(c.cfg, i, c.hosts[i]);
    StandHost(c.cfg, i, c.hosts[i], draw);
    ReachStep(c0, c, Rise(i, Stand(c.hosts[i].n, draw)), tight);
  }

  lemma CandidateReaches(c0: Cluster, c: Cluster, i: NodeId, draw: nat, tight: bool)
    requires Reach(c0, c, tight) && BaseInv(c) && i in c.hosts
    ensures var c' := PutNode(c, i, BecomeCandidate(c.hosts[i].n, draw)); Reach(c0, c', tight) && BaseInv(c')
  {
    hide BaseInv, Reach, HostOk, CanSay, VoteFanout, BecomeLeader;
    NodeFacts(c, i);
    HostNodeOk(c.cfg, i, c.hosts[i]);
    var s := Stand(c.hosts[i].n, draw);
    StandReaches(c0, c, i, draw, tight);
    var c1 := PutNode(c, i, s);
    VoteRequestsCanBeSaid(c1, i, tight);
    SayReaches(c0, c1, i, VoteFanout(s, s.peers), tight);
    PutTwice(c, i, s, QueueAll(s, VoteFanout(s, s.peers)));
    assert |s.votes| == 1 < Quorum(s);
  }

  // ---- leaders ------------------------------------------------------------------------------------

  /** What a leader ships is a slice of its log, or a probe that matches nothing. */
  lemma LeaderAppendIsOk(c: Cluster, i: NodeId, p: NodeId)
    requires BaseInv(c) && i in c.hosts && c.hosts[i].n.role == Leader && p in c.hosts
    ensures AppendOk(c.elections, AppendFor(c.hosts[i].n, p))
  {
    hide BaseInv, ShapeInv, VotesInv, LogsInv, HostOk;
    BaseParts(c);
    RolesAt(c, i);
    NodeFacts(c, i);
    HostNodeOk(c.cfg, i, c.hosts[i]);
    HostsArePeers(c);
    var n := c.hosts[i].n;
    var m := AppendFor(n, p);
    var next := n.nextIndex[p];
    if next <= |n.log| {
      assert m.entries == n.log[next - 1..] == n.log[m.prevIndex..m.prevIndex + |m.entries|];
    } else if next == |n.log| + 1 {
      assert m.entries == [] == n.log[m.prevIndex..m.prevIndex + |m.entries|];
    }
  }

  lemma AppendsCanBeSaid(c: Cluster, i: NodeId, tight: bool)
    requires BaseInv(c) && i in c.hosts && c.hosts[i].n.role == Leader
    ensures forall m :: m in AppendFanout(c.hosts[i].n, c.hosts[i].n.peers) ==> CanSay(c, i, m, tight)
  {
    hide BaseInv, HostOk, AppendOk;
    NodeFacts(c, i);
    HostNodeOk(c.cfg, i, c.hosts[i]);
    var n := c.hosts[i].n;
    forall m | m in AppendFanout(n, n.peers) ensures CanSay(c, i, m, tight) {
      AppendFanoutMembers(n, n.peers, m);
      LeaderAppendIsOk(c, i, m.to);
    }
  }

  lemma SendAppendsReaches(c0: Cluster, c: Cluster, i: NodeId, tight: bool)
    requires Reach(c0, c, tight) && BaseInv(c) && i in c.hosts && c.hosts[i].n.role == Leader
    ensures var c' := PutNode(c, i, SendAppends(c.hosts[i].n)); Reach(c0, c', tight) && BaseInv(c')
  {
    hide BaseInv, Reach, HostOk, CanSay, AppendFanout, QueueAll;
    AppendsCanBeSaid(c, i, tight);
    SayReaches(c0, c, i, AppendFanout(c.hosts[i].n, c.hosts[i].n.peers), tight);
  }

  lemma EnthroneHost(cfg: Config, i: NodeId, h: Host)
    requires HostOk(cfg, i, h) && h.n.role == Candidate
    ensures HostOk(cfg, i, h.(n := Enthrone(h.n)))
    ensures forall p :: p in Enthrone(h.n).matchIndex ==> Enthrone(h.n).matchIndex[p] == 0
  {
    var n := Enthrone(h.n);
    assert n.matchIndex.Keys == (set p | p in h.n.peers);
    assert n.nextIndex.Keys == (set p | p in h.n.peers);
  }

  lemma LeaderReaches(c0: Cluster, c: Cluster, i: NodeId, tight: bool)
    requires Reach(c0, c, tight) && BaseInv(c) && i in c.hosts && c.hosts[i].n.role == Candidate
    ensures var c' := PutNode(c, i, LeadIfElected(c.hosts[i].n)); Reach(c0, c', tight) && BaseInv(c')
  {
    hide BaseInv, Reach, HostOk, AppendFanout, Enthrone;
    NodeFacts(c, i);
    var n := c.hosts[i].n;
    if |n.votes| >= Quorum(n) {
      EnthroneHost(c.cfg, i, c.hosts[i]);
      var k := Enthrone(n);
      EnthroneIs(n);
      ReachStep(c0, c, Reign(i, k), tight);
      var c1 := PutNode(c, i, k);
      SendAppendsReaches(c0, c1, i, tight);
      PutTwice(c, i, k, SendAppends(k));
    } else {
      PutSame(c, i);
    }
  }

  lemma EnthroneIs(n: Node)
    requires n.role == Candidate
    ensures Crowns(n, Enthrone(n)) && SameLog(n, Enthrone(n)) && Enthrone(n).commit == n.commit
  {
  }

  lemma VoteResponseReaches(c0: Cluster, c: Cluster, i: NodeId, m: Message, tight: bool)
    requires Reach(c0, c, tight) && BaseInv(c) && i in c.hosts && m in c.net && m.RequestVoteResponse? && m.to == i
    ensures var c' := PutNode(c, i, HandleVoteResponse(c.hosts[i].n, m)); Reach(c0, c', tight) && BaseInv(c')
  {
    hide BaseInv, Reach, HostOk, LeadIfElected;
    NodeFacts(c, i);
    var n := c.hosts[i].n;
    if n.role == Candidate && m.term == n.term && m.granted {
      var v := n.(votes := n.votes + {m.from});
      CountHost(c.cfg, i, c.hosts[i], v);
      ReachStep(c0, c, Tally(i, v, m), tight);
      var c1 := PutNode(c, i, v);
      LeaderReaches(c0, c1, i, tight);
      PutTwice(c, i, v, LeadIfElected(v));
    } else {
      PutSame(c, i);
    }
  }

  lemma CountHost(cfg: Config, i: NodeId, h: Host, v: Node)
    requires HostOk(cfg, i, h) && v == h.n.(votes := v.votes)
    ensures HostOk(cfg, i, h.(n := v))
  {
  }

  lemma CommitHost(cfg: Config, i: NodeId, h: Host, x: nat)
    requires HostOk(cfg, i, h) && h.n.commit <= x <= |h.n.log|
    ensures HostOk(cfg, i, h.(n := QueueHS(h.n.(commit := x))))
  {
    hide PipeOk, Chain, HostOk;
    HostNodeOk(cfg, i, h);
    MovesKeepsHost(cfg, i, h, QueueHS(h.n.(commit := x)));
  }

  lemma AdvanceCommitReaches(c0: Cluster, c: Cluster, i: NodeId, tight: bool)
    requires Reach(c0, c, tight) && BaseInv(c) && i in c.hosts && c.hosts[i].n.role == Leader
    ensures var c' := PutNode(c, i, AdvanceCommit(c.hosts[i].n)); Reach(c0, c', tight) && BaseInv(c')
  {
    hide BaseInv, Reach, HostOk, Reaching;
    NodeFacts(c, i);
    HostNodeOk(c.cfg, i, c.hosts[i]);
    var n := c.hosts[i].n;
    if AdvanceCommit(n) != n {
      var q := QuorumIndex(n);
      CommitHost(c.cfg, i, c.hosts[i], q);
      ReachStep(c0, c, Advance(i, AdvanceCommit(n), AppendEntriesResp(0, 0, 0, false, 0)), tight);
    } else {
      PutSame(c, i);
    }
  }

  lemma TickLeaderReaches(c0: Cluster, c: Cluster, i: NodeId, tight: bool)
    requires Reach(c0, c, tight) && BaseInv(c) && i in c.hosts && c.hosts[i].n.role == Leader
    ensures var c' := PutNode(c, i, TickLeader(c.hosts[i].n)); Reach(c0, c', tight) && BaseInv(c')
  {
    hide BaseInv, Reach, AdvanceCommit, AppendFanout;
    var n := c.hosts[i].n;
    var elapsed := n.timers.heartbeatElapsed + 1;
    if elapsed < n.timers.heartbeatTimeout {
      CosmeticReaches(c0, c, i, n.(timers := n.timers.(heartbeatElapsed := elapsed)), tight);
    } else {
      var t := n.(timers := n.timers.(heartbeatElapsed := 0));
      CosmeticReaches(c0, c, i, t, tight);
      BroadcastReaches(c0, PutNode(c, i, t), i, tight);
      PutTwice(c, i, t, AdvanceCommit(SendAppends(t))) by { AdvanceKeepsLeader(SendAppends(t)); }
    }
  }

  lemma AdvanceKeepsLeader(n: Node)
    ensures var a := AdvanceCommit(n); a.role == n.role && a.term == n.term && a.votes == n.votes
  {
  }

  lemma BroadcastReaches(c0: Cluster, c: Cluster, i: NodeId, tight: bool)
    requires Reach(c0, c, tight) && BaseInv(c) && i in c.hosts && c.hosts[i].n.role == Leader
    ensures var c' := PutNode(c, i, AdvanceCommit(SendAppends(c.hosts[i].n))); Reach(c0, c', tight) && BaseInv(c')
  {
    hide BaseInv, Reach, AdvanceCommit, AppendFanout;
    var n := c.hosts[i].n;
    var s := SendAppends(n);
    SendAppendsReaches(c0, c, i, tight);
    AdvanceCommitReaches(c0, PutNode(c, i, s), i, tight);
    AdvanceKeepsLeader(s);
    PutTwice(c, i, s, AdvanceCommit(s));
  }

  lemma BooksHost(cfg: Config, i: NodeId, h: Host, p: NodeId, mi: map<NodeId, nat>, next: nat)
    requires HostOk(cfg, i, h) && h.n.role == Leader && p in cfg.peers && next > 0
    requires mi.Keys == h.n.matchIndex.Keys
    ensures HostOk(cfg, i, h.(n := h.n.(matchIndex := mi, nextIndex := h.n.nextIndex[p := next])))
  {
    assert h.n.nextIndex[p := next].Keys == h.n.nextIndex.Keys;
  }

  lemma AckIsBacked(c: Cluster, n: Node, m: Message, n': Node)
    requires Backed(c, n) && m in c.net && m.AppendEntriesResp? && m.success && m.term == n.term
    requires n'.role == n.role && n'.term == n.term && n'.id == n.id && n'.matchIndex == n.matchIndex[m.from := m.matchIndex]
    ensures Backed(c, n')
  {
    assert NetAck(c.net, m.term, m.from, m.matchIndex);
  }

  lemma AppendRespReaches(c0: Cluster, c: Cluster, i: NodeId, m: Message, tight: bool)
    requires Reach(c0, c, tight) && BaseInv(c) && i in c.hosts && m in c.net && m.AppendEntriesResp? && m.to == i
    ensures var c' := PutNode(c, i, HandleAppendResp(c.hosts[i].n, m)); Reach(c0, c', tight) && BaseInv(c')
  {
    hide BaseInv, Reach, HostOk, AdvanceCommit, Backed;
    NodeFacts(c, i);
    HostNodeOk(c.cfg, i, c.hosts[i]);
    BaseAddressed(c, m);
    HostsArePeers(c);
    var n := c.hosts[i].n;
    if n.role != Leader || m.term != n.term {
      PutSame(c, i);
    } else if m.success {
      var b := n.(matchIndex := n.matchIndex[m.from := m.matchIndex], nextIndex := n.nextIndex[m.from := m.matchIndex + 1]);
      assert b.matchIndex.Keys == n.matchIndex.Keys;
      BooksHost(c.cfg, i, c.hosts[i], m.from, b.matchIndex, m.matchIndex + 1);
      if Backed(c, n) { AckIsBacked(c, n, m, b); }
      SettleReaches(c0, c, i, b, tight);
      AdvanceCommitReaches(c0, PutNode(c, i, b), i, tight);
      AdvanceKeepsLeader(b);
      PutTwice(c, i, b, AdvanceCommit(b));
    } else if m.from in n.nextIndex && n.nextIndex[m.from] > 1 {
      var b := n.(nextIndex := n.nextIndex[m.from := n.nextIndex[m.from] - 1]);
      BooksHost(c.cfg, i, c.hosts[i], m.from, n.matchIndex, n.nextIndex[m.from] - 1);
      assert Backed(c, n) ==> Backed(c, b) by { SameBooks(c, n, b); }
      SettleReaches(c0, c, i, b, tight);
    } else {
      PutSame(c, i);
    }
  }

  lemma SameBooks(c: Cluster, n: Node, b: Node)
    requires b == n.(nextIndex := b.nextIndex)
    ensures Backed(c, n) ==> Backed(c, b)
  {
  }

  // ---- AppendEntries ---------------------------------------------------------------------------------

  /** A leader receives no AppendEntries of its own term. */
  lemma RivalIsNoLeader(c: Cluster, i: NodeId, m: Message)
    requires BaseInv(c) && i in c.hosts && m in c.net && m.AppendEntries? && m.to == i && m.term == c.hosts[i].n.term
    ensures c.hosts[i].n.role != Leader
  {
    hide ShapeInv, VotesInv, LogsInv;
    RolesAt(c, i);
    WireAppendOk(c, m);
    WireIsAddressed(c, m);
  }

  lemma ReplyCanBeSaid(c: Cluster, i: NodeId, m: Message, success: bool, x: nat, tight: bool)
    requires BaseInv(c) && i in c.hosts && m in c.net && m.AppendEntries? && m.to == i
    requires success && tight ==> m.term == c.hosts[i].n.term && m.term in c.elections && SamePrefix(c.hosts[i].n.log, c.elections[m.term].log, x)
    ensures CanSay(c, i, AppendEntriesResp(c.hosts[i].n.term, i, m.from, success, x), tight)
  {
    hide BaseInv, HostOk, SamePrefix;
    BaseAddressed(c, m);
    HostsArePeers(c);
  }

  lemma RefuseReaches(c0: Cluster, c: Cluster, i: NodeId, m: Message, tight: bool)
    requires Reach(c0, c, tight) && BaseInv(c) && i in c.hosts && m in c.net && m.AppendEntries? && m.to == i
    ensures c.hosts[i].n.id == i
    ensures var c' := PutNode(c, i, Queue(c.hosts[i].n, AppendReply(c.hosts[i].n, m.from, false, 0)));
            Reach(c0, c', tight) && BaseInv(c')
  {
    hide BaseInv, Reach, HostOk, CanSay, QueueAll;
    NodeFacts(c, i);
    HostNodeOk(c.cfg, i, c.hosts[i]);
    ReplyCanBeSaid(c, i, m, false, 0, tight);
    SayReaches(c0, c, i, [AppendReply(c.hosts[i].n, m.from, false, 0)], tight);
  }

  /** The mirror into the store succeeds and keeps the store equal to the log. */
  lemma MirrorFollows(L: Log, M: Log, prev: nat, entries: seq<Entry>)
    requires WellFormed(M) && FirstConflict(L, entries) != 0
    requires Outcome(L, M, prev, entries, |entries|, Accept(L, entries, |entries|))
    ensures var fc := FirstConflict(L, entries);
            && Mirror(L, fc, EntriesFrom(entries, fc)) == (true, Accept(L, entries, |entries|))
            && Truncate(L, fc) + EntriesFrom(entries, fc) == Accept(L, entries, |entries|)
  {
    hide FirstConflict, EntriesFrom;
    var fc := FirstConflict(L, entries);
    var suffix := EntriesFrom(entries, fc);
    assert |Truncate(L, fc)| == fc - 1;
    assert suffix == suffix[..|suffix|];
    assert forall k :: 0 <= k < |suffix| ==> suffix[k].index == fc + k;
  }

  lemma AdoptHost(cfg: Config, i: NodeId, h: Host, log: Log)
    requires HostOk(cfg, i, h) && h.n.role != Leader && h.n.commit <= |log|
    ensures HostOk(cfg, i, h.(n := h.n.(log := log, store := log)))
  {
  }

  /** Without a panic, a rewrite does not reach below the commit index. */
  lemma RewriteKeepsCommit(n: Node, m: Message, M: Log, keep: nat)
    requires m.AppendEntries? && m.term >= n.term && !TruncatePanics(n, m) && n.commit <= |n.log|
    requires Match(n.log, m.prevIndex, m.prevTerm)
    requires Outcome(n.log, M, m.prevIndex, m.entries, keep, Accept(n.log, m.entries, keep))
    ensures n.commit <= |Accept(n.log, m.entries, keep)|
  {
    hide FirstConflict, EntriesFrom, Accept, Match;
  }

  lemma AdoptReaches(c0: Cluster, c: Cluster, i: NodeId, m: Message, keep: nat, tight: bool)
    requires Reach(c0, c, tight) && BaseInv(c) && i in c.hosts && m in c.net && m.AppendEntries? && m.to == i
    requires m.term == c.hosts[i].n.term && Match(c.hosts[i].n.log, m.prevIndex, m.prevTerm) && !TruncatePanics(c.hosts[i].n, m)
    ensures c.hosts[i].n.role != Leader && c.hosts[i].n.store == c.hosts[i].n.log && m.term in c.elections
    ensures TermLogsOk(c.elections) && LogOk(c.elections, c.hosts[i].n.log) && AppendOk(c.elections, m)
    ensures Outcome(c.hosts[i].n.log, c.elections[m.term].log, m.prevIndex, m.entries, keep, Accept(c.hosts[i].n.log, m.entries, keep))
    ensures var L := Accept(c.hosts[i].n.log, m.entries, keep);
            var c' := PutNode(c, i, c.hosts[i].n.(log := L, store := L)); Reach(c0, c', tight) && BaseInv(c')
  {
    hide BaseInv, ShapeInv, VotesInv, LogsInv, Reach, HostOk, LogOk, TermLogsOk, Outcome, Accept, Match, TruncatePanics;
    BaseParts(c);
    NodeFacts(c, i);
    HostNodeOk(c.cfg, i, c.hosts[i]);
    RivalIsNoLeader(c, i, m);
    HostLogOk(c, i);
    WireAppendOk(c, m);
    var n := c.hosts[i].n;
    AcceptSpec(c.elections, n.log, m, keep);
    RewriteKeepsCommit(n, m, c.elections[m.term].log, keep);
    var L := Accept(n.log, m.entries, keep);
    AdoptHost(c.cfg, i, c.hosts[i], L);
    ReachStep(c0, c, Adopt(i, n.(log := L, store := L), m, keep), tight);
  }

  lemma FollowCommitReaches(c0: Cluster, c: Cluster, i: NodeId, m: Message, tight: bool)
    requires Reach(c0, c, tight) && BaseInv(c) && i in c.hosts && m in c.net && m.AppendEntries? && m.term == c.hosts[i].n.term
    requires c.hosts[i].n.role != Leader && m.term in c.elections && AppendOk(c.elections, m)
    requires SamePrefix(c.hosts[i].n.log, c.elections[m.term].log, m.prevIndex + |m.entries|)
    ensures var c' := PutNode(c, i, FollowCommit(c.hosts[i].n, m)); Reach(c0, c', tight) && BaseInv(c')
  {
    hide BaseInv, Reach, HostOk;
    NodeFacts(c, i);
    var n := c.hosts[i].n;
    var v := FollowCommit(n, m);
    if m.leaderCommit > n.commit {
      CommitHost(c.cfg, i, c.hosts[i], m.leaderCommit);
      ReachStep(c0, c, Advance(i, v, m), tight);
    } else {
      PutSame(c, i);
    }
  }

  /** The accepting path, after the consistency check passed. */
  lemma AcceptReaches(c0: Cluster, c: Cluster, i: NodeId, m: Message, tight: bool)
    requires Reach(c0, c, tight) && BaseInv(c) && i in c.hosts && m in c.net && m.AppendEntries? && m.to == i
    requires m.term == c.hosts[i].n.term && Match(c.hosts[i].n.log, m.prevIndex, m.prevTerm) && !TruncatePanics(c.hosts[i].n, m)
    requires tight ==> AckIsTrue(c.elections, c.hosts[i].n, m)
    ensures var n := c.hosts[i].n;
            var L := Accept(n.log, m.entries, |m.entries|);
            var v := FollowCommit(n.(log := L, store := L), m);
            var c' := PutNode(c, i, Queue(v, AppendReply(v, m.from, true, |v.log|)));
            n.role != Leader && Reach(c0, c', tight) && BaseInv(c')
  {
    hide BaseInv, Reach, LogOk, TermLogsOk, Outcome, Accept, Match, TruncatePanics, AppendOk, QueueAll, CanSay;
    AdoptReaches(c0, c, i, m, |m.entries|, tight);
    var n := c.hosts[i].n;
    var L := Accept(n.log, m.entries, |m.entries|);
    var w := n.(log := L, store := L);
    var c1 := PutNode(c, i, w);
    AcceptedEntriesArePresent(c.elections, n.log, m);
    assert c1.elections == c.elections;
    FollowCommitReaches(c0, c1, i, m, tight);
    var v := FollowCommit(w, m);
    PutTwice(c, i, w, v);
    var c2 := PutNode(c, i, v);
    NodeFacts(c2, i);
    assert v.id == i by { HostNodeOk(c2.cfg, i, c2.hosts[i]); }
    ReplyCanBeSaid(c2, i, m, true, |v.log|, tight);
    SayReaches(c0, c2, i, [AppendReply(v, m.from, true, |v.log|)], tight);
    PutTwice(c, i, v, QueueAll(v, [AppendReply(v, m.from, true, |v.log|)]));
  }

  /** What HandleAppend computes when the store follows the log. */
  lemma HandleAppendAccepts(n: Node, m: Message, M: Log)
    requires m.AppendEntries? && m.term == n.term && Match(n.log, m.prevIndex, m.prevTerm) && n.store == n.log
    requires WellFormed(M) && Outcome(n.log, M, m.prevIndex, m.entries, |m.entries|, Accept(n.log, m.entries, |m.entries|))
    ensures var h := HeardLeader(n, m.from);
            var L := Accept(n.log, m.entries, |m.entries|);
            var v := FollowCommit(h.(log := L, store := L), m);
            HandleAppend(n, m) == Queue(v, AppendReply(v, m.from, true, |v.log|))
  {
    hide Outcome, EntriesFrom, FirstConflict, FollowCommit, QueueAll, Match, WellFormed, Mirror, Truncate;
    if FirstConflict(n.log, m.entries) != 0 {
      MirrorFollows(n.log, M, m.prevIndex, m.entries);
    }
  }

  lemma HandleAppendReaches(c0: Cluster, c: Cluster, i: NodeId, m: Message, tight: bool)
    requires Reach(c0, c, tight) && BaseInv(c) && i in c.hosts && m in c.net && m.AppendEntries? && m.to == i
    requires m.term <= c.hosts[i].n.term && !TruncatePanics(c.hosts[i].n, m)
    requires tight ==> AckIsTrue(c.elections, c.hosts[i].n, m)
    ensures var c' := PutNode(c, i, HandleAppend(c.hosts[i].n, m)); Reach(c0, c', tight) && BaseInv(c')
  {
    hide BaseInv, ShapeInv, VotesInv, LogsInv, Reach, LogOk, TermLogsOk, Outcome, Accept, Match, TruncatePanics, AppendOk, Queue, WellFormed, FollowCommit, AckIsTrue;
    var n := c.hosts[i].n;
    if m.term < n.term {
      RefuseReaches(c0, c, i, m, tight);
    } else {
      var h := HeardLeader(n, m.from);
      RivalIsNoLeader(c, i, m);
      CosmeticReaches(c0, c, i, h, tight);
      var c1 := PutNode(c, i, h);
      if !Match(n.log, m.prevIndex, m.prevTerm) {
        RefuseReaches(c0, c1, i, m, tight);
        PutTwice(c, i, h, Queue(h, AppendReply(h, m.from, false, 0)));
      } else {
        assert !TruncatePanics(h, m) && (tight ==> AckIsTrue(c.elections, h, m)) by { HeardIsSame(n, m, c.elections); }
        AcceptReaches(c0, c1, i, m, tight);
        AdoptReaches(c0, c, i, m, |m.entries|, tight);
        BaseParts(c);
        TermLogIsOk(c.elections, m.term);
        HandleAppendAccepts(n, m, c.elections[m.term].log);
        PutTwice(c, i, h, HandleAppend(n, m));
      }
    }
  }

  lemma HeardIsSame(n: Node, m: Message, es: Elections)
    requires m.AppendEntries?
    ensures var h := HeardLeader(n, m.from);
            TruncatePanics(h, m) == TruncatePanics(n, m) && AckIsTrue(es, h, m) == AckIsTrue(es, n, m)
  {
  }

  // ---- proposals -----------------------------------------------------------------------------------

  lemma GrowHost(cfg: Config, i: NodeId, h: Host, e: Entry)
    requires HostOk(cfg, i, h) && h.n.role == Leader && i in cfg.peers
    ensures var n := h.n.(log := h.n.log + [e], store := h.n.store + [e], matchIndex := h.n.matchIndex[i := |h.n.log| + 1]);
            HostOk(cfg, i, h.(n := n))
  {
    assert h.n.matchIndex[i := |h.n.log| + 1].Keys == h.n.matchIndex.Keys;
  }

  lemma SelfBacked(c: Cluster, n: Node, x: nat, n': Node)
    requires n'.matchIndex == n.matchIndex[n.id := x] && n'.role == n.role && n'.term == n.term && n'.id == n.id
    ensures Backed(c, n) ==> Backed(c, n')
  {
  }

  lemma ProposeReaches(c0: Cluster, c: Cluster, i: NodeId, data: Bytes, storeFails: bool, tight: bool)
    requires Reach(c0, c, tight) && BaseInv(c) && i in c.hosts
    ensures var c' := PutNode(c, i, Propose(c.hosts[i].n, data, storeFails)); Reach(c0, c', tight) && BaseInv(c')
  {
    hide BaseInv, Reach, HostOk, Backed, AdvanceCommit, AppendFanout;
    NodeFacts(c, i);
    HostNodeOk(c.cfg, i, c.hosts[i]);
    var n := c.hosts[i].n;
    var e := Entry(n.term, |n.log| + 1, data);
    if n.role == Leader && !storeFails {
      var p := n.(log := n.log + [e], store := n.store + [e], matchIndex := n.matchIndex[i := |n.log| + 1]);
      assert ProposeLocked(n, data, storeFails) == (p, Some(|n.log| + 1));
      HostsArePeers(c);
      GrowHost(c.cfg, i, c.hosts[i], e);
      SelfBacked(c, n, |n.log| + 1, p);
      ReachStep(c0, c, Grow(i, p, e), tight);
      BroadcastReaches(c0, PutNode(c, i, p), i, tight);
      AdvanceKeepsLeader(SendAppends(p));
      PutTwice(c, i, p, AdvanceCommit(SendAppends(p)));
    } else {
      assert Truncate(n.log + [e], |n.log| + 1) == n.log;
      assert Propose(n, data, storeFails) == n;
      PutSame(c, i);
    }
  }

  // ---- ticks, deliveries and the driver -----------------------------------------------------------------

  lemma ElectionTickReaches(c0: Cluster, c: Cluster, i: NodeId, t: Node, draw: nat, tight: bool)
    requires Reach(c0, c, tight) && BaseInv(c) && i in c.hosts && c.hosts[i].n.role != Leader && Cosmetic(c.hosts[i].n, t)
    ensures var n' := if t.timers.electionElapsed >= t.timers.electionTimeout then BecomeCandidate(t, draw) else t;
            var c' := PutNode(c, i, n'); Reach(c0, c', tight) && BaseInv(c')
  {
    hide BaseInv, Reach, BecomeCandidate;
    CosmeticReaches(c0, c, i, t, tight);
    CandidateReaches(c0, PutNode(c, i, t), i, draw, tight);
    PutTwice(c, i, t, BecomeCandidate(t, draw));
  }

  lemma TickReaches(c0: Cluster, c: Cluster, i: NodeId, draw: nat, tight: bool)
    requires Reach(c0, c, tight) && BaseInv(c) && i in c.hosts
    ensures var c' := PutNode(c, i, Tick(c.hosts[i].n, draw)); Reach(c0, c', tight) && BaseInv(c')
  {
    hide BaseInv, Reach, BecomeCandidate, TickLeader;
    var n := c.hosts[i].n;
    match n.role
    case Leader => TickLeaderReaches(c0, c, i, tight);
    case Follower =>
      ElectionTickReaches(c0, c, i, n.(timers := n.timers.(electionElapsed := n.timers.electionElapsed + 1,
                                                           lastHeartbeat := n.timers.lastHeartbeat + 1)), draw, tight);
    case Candidate =>
      ElectionTickReaches(c0, c, i, n.(timers := n.timers.(electionElapsed := n.timers.electionElapsed + 1)), draw, tight);
  }

  lemma HandleReaches(c0: Cluster, c: Cluster, i: NodeId, m: Message, draw: nat, tight: bool)
    requires Reach(c0, c, tight) && BaseInv(c) && i in c.hosts && m in c.net && m.to == i && m.term <= c.hosts[i].n.term
    requires m.AppendEntries? ==> !TruncatePanics(c.hosts[i].n, m) && (tight ==> AckIsTrue(c.elections, c.hosts[i].n, m))
    ensures var c' := PutNode(c, i, Handle(c.hosts[i].n, m, draw)); Reach(c0, c', tight) && BaseInv(c')
  {
    hide BaseInv, Reach, HandleRequestVote, HandleVoteResponse, HandleAppend, HandleAppendResp, TruncatePanics, AckIsTrue;
    match m
    case RequestVote(_, _, _, _, _) => RequestVoteReaches(c0, c, i, m, draw, tight);
    case RequestVoteResponse(_, _, _, _) => VoteResponseReaches(c0, c, i, m, tight);
    case AppendEntries(_, _, _, _, _, _, _) => HandleAppendReaches(c0, c, i, m, tight);
    case AppendEntriesResp(_, _, _, _, _) => AppendRespReaches(c0, c, i, m, tight);
  }

  lemma ReceiveReaches(c0: Cluster, c: Cluster, i: NodeId, m: Message, draw: nat, tight: bool)
    requires Reach(c0, c, tight) && BaseInv(c) && Deliverable(c, i, m) && !Panics(c.hosts[i].n, m)
    requires tight ==> TrueAckAt(c, Deliver(i, m, draw))
    ensures var c' := PutNode(c, i, Receive(c.hosts[i].n, m, draw)); Reach(c0, c', tight) && BaseInv(c')
  {
    hide BaseInv, Reach, Handle, TruncatePanics, AckIsTrue;
    var n := c.hosts[i].n;
    var s := StepDown(n, m.term);
    StepDownReaches(c0, c, i, m.term, tight);
    var c1 := PutNode(c, i, s);
    if m.term <= n.term { PutSame(c, i); }
    HandleReaches(c0, c1, i, m, draw, tight);
    if m.term > n.term { PutTwice(c, i, s, Handle(s, m, draw)); }
  }

  lemma PutThenReboot(c: Cluster, i: NodeId, n: Node, h: Host)
    requires i in c.hosts && n.role != Leader && h.n.role != Leader
    ensures PutHost(PutNode(c, i, n), i, h) == PutHost(c, i, h)
  {
  }

  lemma DieReaches(c0: Cluster, c: Cluster, i: NodeId, draw: nat, tight: bool)
    requires Reach(c0, c, tight) && BaseInv(c) && i in c.hosts
    ensures var h := c.hosts[i];
            var c' := PutHost(c, i, Reboot(c.cfg, i, h.hs, h.n.store, h.app.snap, draw)); Reach(c0, c', tight) && BaseInv(c')
  {
    hide BaseInv, Reach;
    ReachStep(c0, c, Die(i, draw), tight);
  }

  lemma TornReaches(c0: Cluster, c: Cluster, i: NodeId, m: Message, keep: nat, draw: nat, tight: bool)
    requires Reach(c0, c, tight) && BaseInv(c) && Deliverable(c, i, m) && m.AppendEntries?
    ensures var h := c.hosts[i];
            var c' := PutHost(c, i, Reboot(c.cfg, i, h.hs, TornStore(h.n, m, keep), h.app.snap, draw));
            Reach(c0, c', tight) && BaseInv(c')
  {
    hide BaseInv, Reach, Reboot, TruncatePanics, Accept, Match, Outcome, LogOk, TermLogsOk, AppendOk;
    var h := c.hosts[i];
    var s := StepDown(h.n, m.term);
    if m.term >= s.term && Match(s.log, m.prevIndex, m.prevTerm) && !TruncatePanics(s, m) {
      StepDownReaches(c0, c, i, m.term, tight);
      var c1 := PutNode(c, i, s);
      AdoptReaches(c0, c1, i, m, keep, tight);
      var L := Accept(s.log, m.entries, keep);
      var w := s.(log := L, store := L);
      var c2 := PutNode(c1, i, w);
      DieReaches(c0, c2, i, draw, tight);
      var r := Reboot(c.cfg, i, h.hs, L, h.app.snap, draw);
      RebootFollows(c.cfg, i, h.hs, L, h.app.snap, draw);
      PutThenReboot(c1, i, w, r);
      PutThenReboot(c, i, s, r);
    } else {
      DieReaches(c0, c, i, draw, tight);
    }
  }

  lemma RebootFollows(cfg: Config, i: NodeId, hs: HardState, store: Log, snap: Snapshot, draw: nat)
    ensures Reboot(cfg, i, hs, store, snap, draw).n.role == Follower
  {
  }

  lemma DriverReaches(c0: Cluster, c: Cluster, s: Step, tight: bool)
    requires Reach(c0, c, tight) && BaseInv(c) && s.i in c.hosts
    requires s.ReadyStep? || s.Save? || s.Send? || s.Drain? || s.ApplyNext? || s.FinalCheckpoint?
    ensures Reach(c0, Next(c, s), tight) && BaseInv(Next(c, s))
  {
    hide BaseInv, Reach, PutHost, Live, ApplyOne, Checkpoint;
    var h := c.hosts[s.i];
    match s {
      case ReadyStep(i) =>
        if h.out == Outbox(None, []) { ReachStep(c0, c, Hand(i), tight); }
      case Save(i) =>
        if h.out.hs.Some? { ReachStep(c0, c, Persist(i), tight); }
      case Send(i) =>
        if h.out.hs.None? && |h.out.msgs| > 0 { ReachStep(c0, c, Emit(i), tight); }
      case _ => ServeReaches(c0, c, s, tight);
    }
  }

  lemma ServeReaches(c0: Cluster, c: Cluster, s: Step, tight: bool)
    requires Reach(c0, c, tight) && BaseInv(c) && s.i in c.hosts && (s.Drain? || s.ApplyNext? || s.FinalCheckpoint?)
    ensures Reach(c0, Next(c, s), tight) && BaseInv(Next(c, s))
  {
    hide BaseInv, Reach, PutHost, Live, ApplyOne, Checkpoint;
    var h := c.hosts[s.i];
    match s {
      case Drain(i) =>
        if CanDrain(h) { ReachStep(c0, c, Serve(i, Enqueue(h)), tight); }
      case ApplyNext(i) =>
        if |h.app.queue| > 0 { ReachStep(c0, c, Serve(i, ApplyOne(c.cfg, h.app)), tight); }
      case FinalCheckpoint(i) => ReachStep(c0, c, Serve(i, Checkpoint(h.app)), tight);
    }
  }

  /** Every step of the schedule is a sequence of protocol actions. */
  lemma StepRefines(c: Cluster, s: Step, tight: bool)
    requires BaseInv(c) && (tight ==> TrueAckAt(c, s))
    ensures Reach(c, Next(c, s), tight) && BaseInv(Next(c, s))
  {
    hide BaseInv, Reach, Tick, Receive, Propose, PutHost, PutNode, TrueAckAt, Panics, TornStore;
    ReachRefl(c, tight);
    if s.i in c.hosts {
      match s
      case TickStep(i, draw) => TickReaches(c, c, i, draw, tight);
      case Deliver(i, m, draw) =>
        if Deliverable(c, i, m) && !Panics(c.hosts[i].n, m) { ReceiveReaches(c, c, i, m, draw, tight); }
      case ProposeStep(i, data, storeFails) => ProposeReaches(c, c, i, data, storeFails, tight);
      case Crash(i, draw) => DieReaches(c, c, i, draw, tight);
      case CrashInAppend(i, m, keep, draw) =>
        if Deliverable(c, i, m) && m.AppendEntries? { TornReaches(c, c, i, m, keep, draw, tight); }
      case _ => DriverReaches(c, c, s, tight);
    }
  }
}
