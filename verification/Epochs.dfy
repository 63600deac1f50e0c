/** The step-down epoch: Ready never releases a message queued before the latest
    step-down. */
module Epochs {
  import opened Types
  import opened RaftLog
  import opened NodeSpec
  import opened Cluster
  import opened Shape
  import opened Theorems
  import opened Guards

  /** n' comes from n by queueing messages of its own term under its own epoch,
      neither of which went back. */
  predicate Queues(n: Node, n': Node) {
    && n'.epoch >= n.epoch && n'.term >= n.term && |n'.pending| >= |n.pending|
    && (forall k :: 0 <= k < |n.pending| ==> n'.pending[k] == n.pending[k])
    && (forall k :: |n.pending| <= k < |n'.pending| ==> n'.pending[k].epoch == n'.epoch && n'.pending[k].msg.term == n'.term)
  }

  lemma {:induction false} AppendFanoutTerm(n: Node, ps: seq<NodeId>)
    ensures forall m :: m in AppendFanout(n, ps) ==> m.term == n.term
  {
    if |ps| > 0 { AppendFanoutTerm(n, ps[1..]); }
  }

  lemma {:induction false} VoteFanoutTerm(n: Node, ps: seq<NodeId>)
    ensures forall m :: m in VoteFanout(n, ps) ==> m.term == n.term
  {
    if |ps| > 0 { VoteFanoutTerm(n, ps[1..]); }
  }

  lemma QueueAllQueues(n0: Node, n: Node, ms: seq<Message>)
    requires Queues(n0, n) && forall m :: m in ms ==> m.term == n.term
    requires forall k :: |n0.pending| <= k < |n.pending| ==> n.pending[k].epoch == n.epoch
    ensures Queues(n0, QueueAll(n, ms))
  {
  }

  lemma SendAppendsQueues(n0: Node, n: Node)
    requires Queues(n0, n)
    ensures Queues(n0, SendAppends(n))
  {
    AppendFanoutTerm(n, n.peers);
    QueueAllQueues(n0, n, AppendFanout(n, n.peers));
  }

  lemma LeadQueues(n0: Node, n: Node)
    requires Queues(n0, n)
    ensures Queues(n0, LeadIfElected(n))
  {
    hide SendAppends;
    if |n.votes| >= Quorum(n) { SendAppendsQueues(n0, Enthrone(n)); }
  }

  lemma CandidateQueues(n: Node, draw: nat)
    ensures Queues(n, BecomeCandidate(n, draw))
  {
    hide LeadIfElected;
    var c := Stand(n, draw);
    VoteFanoutTerm(c, c.peers);
    QueueAllQueues(n, c, VoteFanout(c, c.peers));
    LeadQueues(n, QueueAll(c, VoteFanout(c, c.peers)));
  }

  lemma AdvanceQueues(n0: Node, n: Node)
    requires Queues(n0, n)
    ensures Queues(n0, AdvanceCommit(n))
  {
    hide IsQuorumIndex;
  }

  lemma TickQueues(n: Node, draw: nat)
    ensures Queues(n, Tick(n, draw))
  {
    hide BecomeCandidate, SendAppends, AdvanceCommit;
    match n.role
    case Follower =>
      CandidateQueues(n.(timers := n.timers.(electionElapsed := n.timers.electionElapsed + 1,
                                             lastHeartbeat := n.timers.lastHeartbeat + 1)), draw);
    case Candidate =>
      CandidateQueues(n.(timers := n.timers.(electionElapsed := n.timers.electionElapsed + 1)), draw);
    case Leader =>
      var t := n.(timers := n.timers.(heartbeatElapsed := 0));
      SendAppendsQueues(n, t);
      AdvanceQueues(n, SendAppends(t));
  }

  lemma ProposeQueues(n: Node, data: Types.Bytes, storeFails: bool)
    ensures Queues(n, Propose(n, data, storeFails))
  {
    hide SendAppends, AdvanceCommit, StoreAppend, Truncate;
    var p := ProposeLocked(n, data, storeFails).0;
    SendAppendsQueues(n, p);
    AdvanceQueues(n, SendAppends(p));
  }

  lemma ReplyQueues(n0: Node, n: Node, to: NodeId, success: bool, index: nat)
    requires Queues(n0, n)
    ensures Queues(n0, Queue(n, AppendReply(n, to, success, index)))
  {
    QueueAllQueues(n0, n, [AppendReply(n, to, success, index)]);
  }

  lemma HandleAppendQueues(n0: Node, n: Node, m: Message)
    requires Queues(n0, n) && m.AppendEntries?
    ensures Queues(n0, HandleAppend(n, m))
  {
    hide Match, FirstConflict, EntriesFrom, Mirror, Truncate, QueueAll, AppendReply;
    var h := if m.term < n.term then n else HeardLeader(n, m.from);
    ReplyQueues(n0, h, m.from, false, 0);
    var fc := FirstConflict(h.log, m.entries);
    var suffix := EntriesFrom(m.entries, fc);
    var (ok, store) := if fc == 0 then (true, h.store) else Mirror(h.store, fc, suffix);
    var w := h.(log := if fc == 0 then h.log else Truncate(h.log, fc) + suffix, store := store);
    ReplyQueues(n0, w, m.from, false, 0);
    var v := FollowCommit(w, m);
    ReplyQueues(n0, v, m.from, true, |v.log|);
  }

  lemma ReceiveQueues(n: Node, m: Message, draw: nat)
    ensures Queues(n, Receive(n, m, draw))
  {
    hide HandleAppend, LeadIfElected, AdvanceCommit, CanGrant;
    var s := StepDown(n, m.term);
    match m
    case RequestVote(_, _, _, _, _) =>
    case RequestVoteResponse(_, _, _, _) => LeadQueues(n, s.(votes := s.votes + {m.from}));
    case AppendEntries(_, _, _, _, _, _, _) => HandleAppendQueues(n, s, m);
    case AppendEntriesResp(_, _, _, _, _) =>
      if m.success {
        AdvanceQueues(n, s.(matchIndex := s.matchIndex[m.from := m.matchIndex],
                            nextIndex := s.nextIndex[m.from := m.matchIndex + 1]));
      }
  }

  // ---- whole runs -----------------------------------------------------------------------

  /** Everything queued under an epoch of at least e has a term of at least floor. */
  predicate Filtered(n: Node, e: nat, floor: nat) {
    && n.epoch >= e && n.term >= floor
    && forall p :: p in n.pending ==> p.epoch <= n.epoch && (p.epoch >= e ==> p.msg.term >= floor)
  }

  lemma QueuesKeepsFilter(n: Node, n': Node, e: nat, floor: nat)
    requires Filtered(n, e, floor) && Queues(n, n')
    ensures Filtered(n', e, floor)
  {
  }

  lemma StepKeepsFilter(c: Cluster, s: Step, i: NodeId, e: nat, floor: nat)
    requires i in c.hosts && !CrashOf(s, i) && Filtered(c.hosts[i].n, e, floor)
    ensures i in Next(c, s).hosts && Filtered(Next(c, s).hosts[i].n, e, floor)
  {
    hide Tick, Receive, Propose, Record, Live, ApplyOne, Checkpoint, Reboot, TornStore, Queues;
    var n := c.hosts[i].n;
    if s.i == i {
      match s
      case TickStep(_, draw) =>
        TickQueues(n, draw);
        QueuesKeepsFilter(n, Tick(n, draw), e, floor);
      case ProposeStep(_, data, storeFails) =>
        ProposeQueues(n, data, storeFails);
        QueuesKeepsFilter(n, Propose(n, data, storeFails), e, floor);
      case Deliver(_, m, draw) =>
        ReceiveQueues(n, m, draw);
        QueuesKeepsFilter(n, Receive(n, m, draw), e, floor);
      case _ =>
    }
  }

  lemma {:induction false} EpochsAreOrdered(cfg: Config, draws: NodeId -> nat, steps: seq<Step>, k: nat, i: NodeId)
    requires ValidConfig(cfg) && k <= |steps| && i in cfg.peers
    ensures i in At(cfg, draws, steps, k).hosts && Filtered(At(cfg, draws, steps, k).hosts[i].n, 0, 0)
  {
    hide Next, Filtered;
    InitHosts(cfg, draws, steps, k);
    if k == 0 {
      assert steps[..0] == [];
      FreshIsFiltered(cfg, i, draws(i));
    } else {
      EpochsAreOrdered(cfg, draws, steps, k - 1, i);
      AtStep(cfg, draws, steps, k - 1);
      var c := At(cfg, draws, steps, k - 1);
      if CrashOf(steps[k - 1], i) { CrashIsFiltered(c, steps[k - 1], i); }
      else { StepKeepsFilter(c, steps[k - 1], i, 0, 0); }
    }
  }

  lemma FreshIsFiltered(cfg: Config, i: NodeId, draw: nat)
    ensures Filtered(FreshHost(cfg, i, draw).n, 0, 0)
  {
  }

  lemma CrashIsFiltered(c: Cluster, s: Step, i: NodeId)
    requires i in c.hosts && CrashOf(s, i) && Filtered(c.hosts[i].n, 0, 0)
    ensures i in Next(c, s).hosts && Filtered(Next(c, s).hosts[i].n, 0, 0)
  {
    hide Record, TornStore;
  }

  lemma {:induction false} FilterLasts(cfg: Config, draws: NodeId -> nat, steps: seq<Step>, a: nat, b: nat, i: NodeId, e: nat, floor: nat)
    requires ValidConfig(cfg) && a <= b <= |steps| && i in cfg.peers && forall k :: a <= k < b ==> !CrashOf(steps[k], i)
    requires i in At(cfg, draws, steps, a).hosts && Filtered(At(cfg, draws, steps, a).hosts[i].n, e, floor)
    ensures i in At(cfg, draws, steps, b).hosts && Filtered(At(cfg, draws, steps, b).hosts[i].n, e, floor)
    decreases b
  {
    hide Next, At, Filtered;
    if a < b {
      FilterLasts(cfg, draws, steps, a, b - 1, i, e, floor);
      AtStep(cfg, draws, steps, b - 1);
      StepKeepsFilter(At(cfg, draws, steps, b - 1), steps[b - 1], i, e, floor);
    }
  }

  lemma StepDownFilters(c: Cluster, s: Step, i: NodeId)
    requires i in c.hosts && !CrashOf(s, i) && Filtered(c.hosts[i].n, 0, 0)
    ensures i in Next(c, s).hosts
    ensures var n, n' := c.hosts[i].n, Next(c, s).hosts[i].n; n'.epoch > n.epoch ==> Filtered(n', n'.epoch, n'.term)
  {
    hide Tick, Receive, Propose, Record, Live, ApplyOne, Checkpoint, Reboot, TornStore;
    var n := c.hosts[i].n;
    if s.i == i {
      match s
      case TickStep(_, draw) => TickQueues(n, draw);
      case ProposeStep(_, data, storeFails) => ProposeQueues(n, data, storeFails);
      case Deliver(_, m, draw) => ReceiveQueues(n, m, draw);
      case _ =>
    }
  }

  /** The epoch filter, over whole runs. Let step a make node i step down, and let b
      be a later moment of the same lifetime. Then nothing that was in the outbox
      before that step can leave Ready at b, and whatever leaves Ready at b has at
      least the term that the step-down installed. */
  lemma ReadyFiltersStale(cfg: Config, draws: NodeId -> nat, steps: seq<Step>, a: nat, b: nat, i: NodeId, m: Message, p: Pending)
    requires ValidConfig(cfg) && a < b <= |steps| && i in cfg.peers && forall k :: a <= k < b ==> !CrashOf(steps[k], i)
    requires i in At(cfg, draws, steps, a).hosts && i in At(cfg, draws, steps, a + 1).hosts && i in At(cfg, draws, steps, b).hosts
    requires At(cfg, draws, steps, a + 1).hosts[i].n.epoch > At(cfg, draws, steps, a).hosts[i].n.epoch
    ensures var before, after, n := At(cfg, draws, steps, a).hosts[i].n, At(cfg, draws, steps, a + 1).hosts[i].n, At(cfg, draws, steps, b).hosts[i].n;
            && (m in Live(n.pending, n.epoch) ==> m.term >= after.term)
            && (p in before.pending ==> p.epoch != n.epoch)
  {
    hide Next, At, Live;
    EpochsAreOrdered(cfg, draws, steps, a, i);
    AtStep(cfg, draws, steps, a);
    StepDownFilters(At(cfg, draws, steps, a), steps[a], i);
    var after, n := At(cfg, draws, steps, a + 1).hosts[i].n, At(cfg, draws, steps, b).hosts[i].n;
    FilterLasts(cfg, draws, steps, a + 1, b, i, after.epoch, after.term);
    if m in Live(n.pending, n.epoch) { LiveIsPending(n.pending, n.epoch, m); }
  }
}
