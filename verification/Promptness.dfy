/** Leaders commit as soon as they may: the commit test is tried whenever anything it
    looks at has changed. */
module Promptness {
  import opened Types
  import opened RaftLog
  import opened NodeSpec
  import opened Cluster
  import opened Shape
  import opened Votes
  import opened Logs
  import opened Actions
  import opened Refinement
  import opened Theorems
  import opened CommitRule
  import opened Replication
  import opened Trace
  import opened Handlers

  /** The commit test has nothing to do for a leader. */
  ghost predicate Prompt(n: Node) { n.role == Leader ==> AdvanceCommit(n).commit == n.commit }

  /** d looks like n to the commit test. */
  predicate SameToRule(n: Node, d: Node) {
    d.id == n.id && d.peers == n.peers && d.log == n.log && d.matchIndex == n.matchIndex && d.term == n.term
  }

  lemma SamePick(n: Node, d: Node)
    requires SameToRule(n, d) && Quorum(n) <= |n.matchIndex|
    ensures QuorumIndex(d) == QuorumIndex(n)
  {
    var q := QuorumIndex(d);
    assert Reaching(n, q) == Reaching(d, q) && Reaching(n, q + 1) == Reaching(d, q + 1);
    assert IsQuorumIndex(n, q);
    QuorumIndexIsUnique(n, q, QuorumIndex(n));
  }

  lemma LooksAlike(n: Node, d: Node)
    requires SameToRule(n, d) && d.commit == n.commit
    ensures AdvanceCommit(d).commit == AdvanceCommit(n).commit
  {
    hide IsQuorumIndex, TermAt;
    if Quorum(n) <= |n.matchIndex| { SamePick(n, d); }
  }

  /** Trying the test again changes nothing. */
  lemma TwiceIsOnce(n: Node)
    ensures Prompt(AdvanceCommit(n))
  {
    hide IsQuorumIndex, TermAt;
    if Quorum(n) <= |n.matchIndex| { SamePick(n, AdvanceCommit(n)); }
  }

  lemma SendLooksAlike(n: Node)
    ensures SameToRule(n, SendAppends(n)) && SendAppends(n).commit == n.commit && SendAppends(n).role == n.role
  {
    hide AppendFanout, Tagged;
  }

  lemma NewLeaderIsPrompt(n: Node)
    requires |n.peers| >= 2 && n.matchIndex.Keys <= set p | p in n.peers
    ensures Prompt(BecomeLeader(n))
  {
    hide AdvanceCommit, SendAppends;
    var e := Enthrone(n);
    SendLooksAlike(e);
    NothingToCommit(e);
    LooksAlike(e, SendAppends(e));
  }

  lemma TickIsPrompt(n: Node, draw: nat)
    requires Prompt(n) && |n.peers| >= 2
    ensures Prompt(Tick(n, draw))
  {
    hide AdvanceCommit, SendAppends, VoteFanout, QueueAll;
    if n.role == Leader {
      var t := n.(timers := n.timers.(heartbeatElapsed := n.timers.heartbeatElapsed + 1));
      LooksAlike(n, t);
      TwiceIsOnce(SendAppends(n.(timers := n.timers.(heartbeatElapsed := 0))));
    } else {
      StandsAlone(n, draw);
    }
  }

  lemma StandsAlone(n: Node, draw: nat)
    requires |n.peers| >= 2 && n.role != Leader
    ensures Tick(n, draw).role != Leader
  {
    hide VoteFanout, Tagged;
  }

  lemma ProposeIsPrompt(n: Node, data: Types.Bytes, storeFails: bool)
    requires Prompt(n)
    ensures Prompt(Propose(n, data, storeFails))
  {
    hide AdvanceCommit, SendAppends;
    var (p, index) := ProposeLocked(n, data, storeFails);
    TwiceIsOnce(SendAppends(p));
    if index.None? && n.role == Leader {
      assert p.log == n.log;
      LooksAlike(n, p);
    }
  }

  lemma ReceiveIsPrompt(n: Node, m: Message, draw: nat)
    requires Prompt(n) && |n.peers| >= 2 && n.matchIndex.Keys <= set p | p in n.peers
    requires m.AppendEntries? && m.term == n.term ==> n.role != Leader
    ensures Prompt(Receive(n, m, draw))
  {
    hide AdvanceCommit, BecomeLeader, CanGrant, HandleAppend;
    var d, r := StepDown(n, m.term), Receive(n, m, draw);
    match m
    case RequestVote(_, _, _, _, _) => VoteIsGiven(d, m, draw);
    case RequestVoteResponse(_, _, _, _) => NewLeaderIsPrompt(d.(votes := d.votes + {m.from}));
    case AppendEntries(_, _, _, _, _, _, _) =>
      if n.role == Leader && m.term < n.term {
        StaleRequestIsRefused(n, m, draw);
        LooksAlike(n, r);
      } else {
        HandledIsHeard(d, m);
      }
    case AppendEntriesResp(_, _, _, _, _) =>
      TwiceIsOnce(d.(matchIndex := d.matchIndex[m.from := m.matchIndex], nextIndex := d.nextIndex[m.from := m.matchIndex + 1]));
      if m.from in d.nextIndex && d.nextIndex[m.from] > 1 { LooksAlike(d, d.(nextIndex := d.nextIndex[m.from := d.nextIndex[m.from] - 1])); }
  }

  lemma VoteIsGiven(n: Node, m: Message, draw: nat)
    requires m.RequestVote? && Prompt(n)
    ensures Prompt(HandleRequestVote(n, m, draw))
  {
    hide AdvanceCommit, CanGrant, Tagged;
    LooksAlike(n, HandleRequestVote(n, m, draw));
  }

  /** The test is tried on every beat, on every acknowledgement and after every accepted
      proposal, whatever was left before. */
  lemma RuleIsTried(n: Node, m: Message, data: Types.Bytes, draw: nat)
    requires n.role == Leader
    ensures n.timers.heartbeatElapsed + 1 >= n.timers.heartbeatTimeout ==> Prompt(Tick(n, draw))
    ensures m.AppendEntriesResp? && m.success && m.term == n.term ==> Prompt(Receive(n, m, draw))
    ensures ProposeLocked(n, data, false).1.Some? ==> Prompt(Propose(n, data, false))
  {
    hide AdvanceCommit, SendAppends, ProposeLocked;
    TwiceIsOnce(SendAppends(n.(timers := n.timers.(heartbeatElapsed := 0))));
    TwiceIsOnce(SendAppends(ProposeLocked(n, data, false).0));
    if m.AppendEntriesResp? {
      TwiceIsOnce(n.(matchIndex := n.matchIndex[m.from := m.matchIndex], nextIndex := n.nextIndex[m.from := m.matchIndex + 1]));
    }
  }

  lemma ShapeOf(c: Cluster, i: NodeId)
    requires BaseInv(c) && i in c.hosts
    ensures var n := c.hosts[i].n; |n.peers| >= 2 && n.matchIndex.Keys <= set p | p in n.peers
  {
    hide VotesInv, LogsInv, NetOk, PipeOk, Chain;
    assert HostOk(c.cfg, i, c.hosts[i]);
  }

  lemma StepKeepsPrompt(c: Cluster, s: Step, i: NodeId)
    requires BaseInv(c) && i in c.hosts && Prompt(c.hosts[i].n)
    ensures i in Next(c, s).hosts && Prompt(Next(c, s).hosts[i].n)
  {
    hide BaseInv, Tick, Receive, Propose, Record, Live, ApplyOne, Checkpoint, TornStore, Panics, AdvanceCommit;
    var n := c.hosts[i].n;
    ShapeOf(c, i);
    if s.i == i {
      match s
      case TickStep(_, draw) => TickIsPrompt(n, draw);
      case ProposeStep(_, data, storeFails) => ProposeIsPrompt(n, data, storeFails);
      case Deliver(_, m, draw) =>
        if Deliverable(c, i, m) {
          if m.AppendEntries? && m.term == n.term { RivalIsNoLeader(c, i, m); }
          ReceiveIsPrompt(n, m, draw);
        }
      case ReadyStep(_) => LooksAlike(n, n.(pending := [], pendingHS := None));
      case _ =>
    }
  }

  /** In every run, with no hypothesis: what a leader's commit test would commit is
      committed already. */
  lemma {:induction false} LeadersArePrompt(cfg: Config, draws: NodeId -> nat, steps: seq<Step>, k: nat, i: NodeId)
    requires ValidConfig(cfg) && k <= |steps| && i in cfg.peers
    ensures var c := At(cfg, draws, steps, k); i in c.hosts && Prompt(c.hosts[i].n)
  {
    hide BaseInv, At, Next, Prompt;
    if k == 0 {
      NobodyLeads(cfg, draws, steps, i);
    } else {
      LeadersArePrompt(cfg, draws, steps, k - 1, i);
      RunKeepsBase(cfg, draws, steps, k - 1);
      AtStep(cfg, draws, steps, k - 1);
      StepKeepsPrompt(At(cfg, draws, steps, k - 1), steps[k - 1], i);
    }
  }

  lemma NobodyLeads(cfg: Config, draws: NodeId -> nat, steps: seq<Step>, i: NodeId)
    requires ValidConfig(cfg) && i in cfg.peers
    ensures var c := At(cfg, draws, steps, 0); i in c.hosts && Prompt(c.hosts[i].n)
  {
    assert steps[..0] == [];
  }

  /** In runs that satisfy the hypothesis no leader ever sits on an index that Figure 2 of
      the Raft paper lets it commit. */
  lemma NothingIsHeldBack(cfg: Config, draws: NodeId -> nat, steps: seq<Step>, i: NodeId, N: nat)
    requires ValidConfig(cfg) && TrueAcks(Init(cfg, draws), steps) && i in cfg.peers
    ensures var c := Run(Init(cfg, draws), steps);
            i in c.hosts && (c.hosts[i].n.role == Leader ==> !MayCommit(c.hosts[i].n, N))
  {
    hide Run, TrueAcks, AdvanceCommit, Reaching, TermAt;
    assert steps[..|steps|] == steps;
    LeadersArePrompt(cfg, draws, steps, |steps|, i);
    CommitRuleInRuns(cfg, draws, steps, i);
  }

  // ---- a cluster of one ------------------------------------------------------------------------------

  /** A lone member leads as soon as it stands ... */
  lemma LoneNodeLeads(n: Node, draw: nat)
    requires n.peers == [n.id] && n.role != Leader && Patience(n) == 1
    ensures Tick(n, draw).role == Leader && Tick(n, draw).term == n.term + 1
  {
    hide AppendFanout, VoteFanout, Tagged;
  }

  /** ... and commits what it proposes at once. */
  lemma LoneLeaderCommits(n: Node, data: Types.Bytes)
    requires n.peers == [n.id] && n.role == Leader && n.store == n.log && n.commit <= |n.log|
    requires n.matchIndex.Keys == {n.id} && n.term > 0
    ensures Propose(n, data, false).commit == |n.log| + 1
  {
    hide AppendFanout, Tagged, IsQuorumIndex;
    var p := SendAppends(ProposeLocked(n, data, false).0);
    assert p.matchIndex.Keys == {n.id} && |p.matchIndex| == |p.matchIndex.Keys| == 1;
    assert Reaching(p, |p.log|) == {n.id} && Reaching(p, |p.log| + 1) == {};
    assert IsQuorumIndex(p, |p.log|) by { LoneQuorum(p); }
    QuorumIndexIsUnique(p, |p.log|, QuorumIndex(p));
  }

  lemma LoneQuorum(n: Node)
    requires |n.peers| == 1 && |Reaching(n, |n.log|)| == 1 && |Reaching(n, |n.log| + 1)| == 0
    ensures IsQuorumIndex(n, |n.log|)
  {
  }
}
