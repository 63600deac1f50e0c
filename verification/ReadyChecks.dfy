/** The second debug check at Ready, which no Success reply in the outbox may fail: it
    claims no more than the log holds. The code can fail it; this is exactly when. */
module ReadyChecks {
  import opened Types
  import opened RaftLog
  import opened NodeSpec
  import opened Cluster
  import opened Shape
  import opened Votes
  import opened Logs
  import opened Actions
  import opened Acks
  import opened Refinement
  import opened Theorems
  import opened Guards

  predicate IsSuccess(m: Message) { m.AppendEntriesResp? && m.success }

  /** assertAppendPrecedesAEResponseLocked passes. */
  predicate AcksCovered(n: Node) {
    forall p :: p in n.pending && IsSuccess(p.msg) ==> p.msg.matchIndex <= |n.log|
  }

  /** Handling m cuts n's log below what a reply that still waits has claimed: m is
      accepted, the log must be rewritten, and the reply claims more than m covers. */
  predicate Uncovers(n: Node, m: Message) {
    && m.AppendEntries? && m.term >= n.term && Match(n.log, m.prevIndex, m.prevTerm) && FirstConflict(n.log, m.entries) != 0
    && exists p :: p in n.pending && IsSuccess(p.msg) && p.msg.matchIndex > m.prevIndex + |m.entries|
  }

  predicate UncoversAt(c: Cluster, s: Step, i: NodeId) {
    s.Deliver? && s.i == i && Deliverable(c, i, s.m) && !Panics(c.hosts[i].n, s.m) && Uncovers(c.hosts[i].n, s.m)
  }

  // ---- steps that queue no Success reply ------------------------------------------------------

  /** d's log is no shorter than n's, and n's own unless n leads; every Success reply
      in d's outbox is in n's. */
  predicate ClaimsNoMore(n: Node, d: Node) {
    && n.term <= d.term && |n.log| <= |d.log| && (n.role != Leader ==> d.log == n.log)
    && forall p :: p in d.pending && IsSuccess(p.msg) ==> p in n.pending
  }

  lemma {:induction false} FanoutsClaimNothing(n: Node, ps: seq<NodeId>, m: Message)
    ensures m in AppendFanout(n, ps) || m in VoteFanout(n, ps) ==> !IsSuccess(m)
  {
    if |ps| > 0 { FanoutsClaimNothing(n, ps[1..], m); }
  }

  lemma QueuedClaims(n: Node, ms: seq<Message>)
    requires forall m :: m in ms ==> !IsSuccess(m)
    ensures ClaimsNoMore(n, QueueAll(n, ms)) && QueueAll(n, ms).log == n.log
  {
    forall p | p in Tagged(n.epoch, ms) ensures p.msg in ms {}
  }

  lemma SendAppendsClaims(n: Node)
    ensures ClaimsNoMore(n, SendAppends(n)) && SendAppends(n).log == n.log
  {
    hide QueueAll, AppendFanout, ClaimsNoMore;
    forall m | m in AppendFanout(n, n.peers) ensures !IsSuccess(m) { FanoutsClaimNothing(n, n.peers, m); }
    QueuedClaims(n, AppendFanout(n, n.peers));
  }

  lemma BecomeCandidateClaims(n: Node, draw: nat)
    ensures ClaimsNoMore(n, BecomeCandidate(n, draw))
  {
    hide QueueAll, VoteFanout, SendAppends;
    var c := Stand(n, draw);
    forall m | m in VoteFanout(c, c.peers) ensures !IsSuccess(m) { FanoutsClaimNothing(c, c.peers, m); }
    QueuedClaims(c, VoteFanout(c, c.peers));
    SendAppendsClaims(Enthrone(QueueAll(c, VoteFanout(c, c.peers))));
  }

  lemma TickClaims(n: Node, draw: nat)
    ensures ClaimsNoMore(n, Tick(n, draw))
  {
    hide BecomeCandidate, SendAppends, IsQuorumIndex, TermAt;
    match n.role
    case Follower =>
      var t := n.timers;
      BecomeCandidateClaims(n.(timers := t.(electionElapsed := t.electionElapsed + 1, lastHeartbeat := t.lastHeartbeat + 1)), draw);
    case Candidate =>
      BecomeCandidateClaims(n.(timers := n.timers.(electionElapsed := n.timers.electionElapsed + 1)), draw);
    case Leader =>
      SendAppendsClaims(n.(timers := n.timers.(heartbeatElapsed := 0)));
  }

  lemma ProposeClaims(n: Node, data: Types.Bytes, storeFails: bool)
    ensures ClaimsNoMore(n, Propose(n, data, storeFails))
  {
    hide SendAppends, IsQuorumIndex, TermAt;
    SendAppendsClaims(ProposeLocked(n, data, storeFails).0);
  }

  lemma OtherClaims(n: Node, m: Message, draw: nat)
    requires !m.AppendEntries?
    ensures ClaimsNoMore(n, Receive(n, m, draw))
  {
    hide SendAppends, IsQuorumIndex, TermAt, CanGrant;
    var d := StepDown(n, m.term);
    match m
    case RequestVote(_, _, _, _, _) =>
    case RequestVoteResponse(_, _, _, _) => SendAppendsClaims(Enthrone(d.(votes := d.votes + {m.from})));
    case AppendEntriesResp(_, _, _, _, _) =>
  }

  // ---- the receiver -----------------------------------------------------------------------------

  lemma RefusalClaims(n: Node, m: Message)
    requires m.AppendEntries? && (m.term < n.term || !Match(n.log, m.prevIndex, m.prevTerm))
    ensures var d := HandleAppend(n, m); ClaimsNoMore(n, d) && d.log == n.log
  {
    hide Match, FirstConflict, EntriesFrom, Mirror, Truncate, FollowCommit;
  }

  /** What accepting m leaves: the replies that waited, one that claims the whole log,
      and a log that ends with m if it had to be rewritten. */
  lemma AcceptedClaims(c: Cluster, i: NodeId, m: Message, draw: nat)
    requires BaseInv(c) && Deliverable(c, i, m) && m.AppendEntries? && m.term >= c.hosts[i].n.term
    requires Match(c.hosts[i].n.log, m.prevIndex, m.prevTerm)
    ensures var n := c.hosts[i].n;
            var d := Receive(n, m, draw);
            && |d.log| == (if FirstConflict(n.log, m.entries) == 0 then |n.log| else m.prevIndex + |m.entries|)
            && |d.pending| > 0 && d.pending[..|d.pending| - 1] == n.pending
            && IsSuccess(d.pending[|d.pending| - 1].msg) && d.pending[|d.pending| - 1].msg.matchIndex == |d.log|
  {
    hide BaseInv, Match, Accept, HandleAppend, FirstConflict, FollowCommit, EntriesFrom, Adopts, SamePrefix, WellFormed;
    var n := StepDown(c.hosts[i].n, m.term);
    StoreIsLog(c, i);
    AcceptOutcome(c, i, m);
    HandleAppendAccepts(n, m, c.elections[m.term].log);
    var v := FollowCommit(HeardLeader(n, m.from).(log := Accept(n.log, m.entries, |m.entries|), store := Accept(n.log, m.entries, |m.entries|)), m);
    FollowKeeps(HeardLeader(n, m.from).(log := Accept(n.log, m.entries, |m.entries|), store := Accept(n.log, m.entries, |m.entries|)), m);
  }

  lemma FollowKeeps(n: Node, m: Message)
    requires m.AppendEntries?
    ensures var v := FollowCommit(n, m); v.log == n.log && v.pending == n.pending && v.epoch == n.epoch
  {
  }

  /** One delivery keeps the check exactly when it does not cut the log below a
      waiting reply. */
  lemma DeliveryKeepsCheckIff(c: Cluster, i: NodeId, m: Message, draw: nat)
    requires BaseInv(c) && Deliverable(c, i, m) && AcksCovered(c.hosts[i].n)
    ensures AcksCovered(Receive(c.hosts[i].n, m, draw)) <==> !Uncovers(c.hosts[i].n, m)
  {
    hide BaseInv, Receive, Match, FirstConflict;
    var n, d := c.hosts[i].n, Receive(c.hosts[i].n, m, draw);
    if !m.AppendEntries? {
      OtherClaims(n, m, draw);
    } else if m.term >= n.term && Match(n.log, m.prevIndex, m.prevTerm) {
      AcceptedClaims(c, i, m, draw);
      var last := |d.pending| - 1;
      assert forall p :: p in d.pending <==> p in n.pending || p == d.pending[last];
    } else {
      RefusedDelivery(n, m, draw);
    }
  }

  lemma RefusedDelivery(n: Node, m: Message, draw: nat)
    requires m.AppendEntries? && (m.term < n.term || !Match(n.log, m.prevIndex, m.prevTerm))
    ensures ClaimsNoMore(n, Receive(n, m, draw))
  {
    hide HandleAppend, Match;
    RefusalClaims(StepDown(n, m.term), m);
  }

  // ---- over runs ----------------------------------------------------------------------------------

  lemma StepKeepsCheckIff(c: Cluster, s: Step, i: NodeId)
    requires BaseInv(c) && i in c.hosts && AcksCovered(c.hosts[i].n)
    ensures i in Next(c, s).hosts && (AcksCovered(Next(c, s).hosts[i].n) <==> !UncoversAt(c, s, i))
  {
    hide BaseInv, Tick, Receive, Propose, Record, Live, ApplyOne, Checkpoint, TornStore, Uncovers, Panics;
    var n := c.hosts[i].n;
    if s.i == i {
      match s
      case TickStep(_, draw) => TickClaims(n, draw);
      case ProposeStep(_, data, storeFails) => ProposeClaims(n, data, storeFails);
      case Deliver(_, m, draw) => if Deliverable(c, i, m) { DeliveryKeepsCheckIff(c, i, m, draw); }
      case _ =>
    }
  }

  predicate CheckPasses(c: Cluster, i: NodeId) { i in c.hosts && AcksCovered(c.hosts[i].n) }

  /** In every run, with no hypothesis: the check passes at node i at every moment
      exactly when no delivery to it cuts its log below a waiting reply. */
  lemma {:induction false} AckCheckIff(cfg: Config, draws: NodeId -> nat, steps: seq<Step>, b: nat, i: NodeId)
    requires ValidConfig(cfg) && b <= |steps| && i in cfg.peers
    ensures (forall k :: 0 <= k <= b ==> CheckPasses(At(cfg, draws, steps, k), i)) <==>
            (forall k :: 0 <= k < b ==> !UncoversAt(At(cfg, draws, steps, k), steps[k], i))
  {
    hide BaseInv, At, Next, After, UncoversAt, AcksCovered;
    InitHosts(cfg, draws, steps, 0);
    if b == 0 {
      AtStart(cfg, draws, steps, i);
    } else {
      AckCheckIff(cfg, draws, steps, b - 1, i);
      RunKeepsBase(cfg, draws, steps, b - 1);
      AtStep(cfg, draws, steps, b - 1);
      var c := At(cfg, draws, steps, b - 1);
      if CheckPasses(c, i) { StepKeepsCheckIff(c, steps[b - 1], i); }
    }
  }

  lemma AtStart(cfg: Config, draws: NodeId -> nat, steps: seq<Step>, i: NodeId)
    requires ValidConfig(cfg) && i in cfg.peers
    ensures CheckPasses(At(cfg, draws, steps, 0), i)
  {
    assert steps[..0] == [];
  }

  // ---- replies of the current term -------------------------------------------------------------------

  /** Node i has a Success reply of its current term waiting. */
  predicate Vouches(c: Cluster, i: NodeId, p: Pending) {
    i in c.hosts && p in c.hosts[i].n.pending && IsSuccess(p.msg) && p.msg.term == c.hosts[i].n.term
  }

  /** A node with such a reply does not lead that term, holds a prefix of its log and
      all the reply claims. */
  ghost predicate TermAcksTrue(c: Cluster, i: NodeId) {
    forall p :: Vouches(c, i, p) ==>
      var n := c.hosts[i].n;
      && n.term in c.elections && c.elections[n.term].leader != i
      && SamePrefix(n.log, c.elections[n.term].log, |n.log|) && p.msg.matchIndex <= |n.log|
  }

  lemma PendingTerm(c: Cluster, i: NodeId, p: Pending)
    requires BaseInv(c) && i in c.hosts && p in c.hosts[i].n.pending
    ensures p.msg.term <= c.hosts[i].n.term
  {
    hide BaseInv;
    PipeAt(c, i);
  }

  /** Node i moves to state d without a new Success reply. */
  lemma QuietMoveKeeps(c: Cluster, c': Cluster, i: NodeId)
    requires BaseInv(c) && i in c.hosts && i in c'.hosts && TermAcksTrue(c, i) && EsLe(c.elections, c'.elections)
    requires ClaimsNoMore(c.hosts[i].n, c'.hosts[i].n) || c'.hosts[i].n.pending == []
    ensures TermAcksTrue(c', i)
  {
    hide BaseInv;
    var n, d := c.hosts[i].n, c'.hosts[i].n;
    forall p | Vouches(c', i, p) ensures Vouches(c, i, p) && d.log == n.log && d.term == n.term {
      PendingTerm(c, i, p);
      assert Vouches(c, i, p);
      if n.role == Leader { LeaderIsRecorded(c, i); }
    }
  }

  /** A log that is a prefix of M's is not cut by a slice of M. */
  lemma PrefixIsNotCut(L: Log, M: Log, prev: nat, es: seq<Entry>)
    requires SamePrefix(L, M, |L|) && Outcome(L, M, prev, es, |es|, Accept(L, es, |es|)) && FirstConflict(L, es) != 0
    ensures |L| <= prev + |es|
  {
    hide Accept;
  }

  /** ... or by accepting a request truthfully. */
  lemma TrueAcceptKeeps(c: Cluster, c': Cluster, i: NodeId, m: Message, draw: nat)
    requires BaseInv(c) && Deliverable(c, i, m) && m.AppendEntries? && m.term >= c.hosts[i].n.term
    requires Match(c.hosts[i].n.log, m.prevIndex, m.prevTerm) && AckIsTrue(c.elections, StepDown(c.hosts[i].n, m.term), m)
    requires TermAcksTrue(c, i) && EsLe(c.elections, c'.elections) && i in c'.hosts && c'.hosts[i].n == Receive(c.hosts[i].n, m, draw)
    ensures TermAcksTrue(c', i)
  {
    hide BaseInv, Match, Accept, FirstConflict, Receive, Outcome;
    var n, d, M := c.hosts[i].n, c'.hosts[i].n, c.elections[m.term].log;
    AcceptedClaims(c, i, m, draw);
    AcceptedState(c, i, m, draw);
    AcceptOutcome(c, i, m);
    forall p | Vouches(c', i, p) ensures p.msg.matchIndex <= |d.log| {
      if p in n.pending {
        PendingTerm(c, i, p);
        assert Vouches(c, i, p);
        if FirstConflict(n.log, m.entries) != 0 { PrefixIsNotCut(n.log, M, m.prevIndex, m.entries); }
      }
    }
  }

  lemma AcceptedState(c: Cluster, i: NodeId, m: Message, draw: nat)
    requires BaseInv(c) && Deliverable(c, i, m) && m.AppendEntries? && m.term >= c.hosts[i].n.term
    requires Match(c.hosts[i].n.log, m.prevIndex, m.prevTerm)
    ensures var d := Receive(c.hosts[i].n, m, draw);
            d.term == m.term && d.log == Accept(c.hosts[i].n.log, m.entries, |m.entries|)
    ensures m.term in c.elections && c.elections[m.term].leader != i
  {
    hide BaseInv, Match, Accept, HandleAppend, FirstConflict, EntriesFrom, Outcome, SamePrefix, WellFormed;
    StoreIsLog(c, i);
    AcceptOutcome(c, i, m);
    HandleAppendAccepts(StepDown(c.hosts[i].n, m.term), m, c.elections[m.term].log);
    SentByLeader(c, i, m);
  }

  lemma SentByLeader(c: Cluster, i: NodeId, m: Message)
    requires BaseInv(c) && Deliverable(c, i, m) && m.AppendEntries?
    ensures m.term in c.elections && c.elections[m.term].leader != i
  {
    hide ShapeInv, VotesInv, LogsInv;
    WireAppendOk(c, m);
    SentIsCovered(c, m);
  }

  lemma StepKeepsTermAcks(c: Cluster, s: Step, i: NodeId)
    requires BaseInv(c) && i in c.hosts && TermAcksTrue(c, i) && TrueAckAt(c, s)
    ensures i in Next(c, s).hosts && TermAcksTrue(Next(c, s), i)
  {
    hide BaseInv, Tick, Receive, Propose, Record, Live, ApplyOne, Checkpoint, TornStore, Panics, TermAcksTrue,
      ClaimsNoMore, EsLe, OwnGrowth, AckIsTrue, Match, StepDown;
    var n, c' := c.hosts[i].n, Next(c, s);
    StepKeeps(c, s, false);
    if s.i == i && s.Deliver? && Deliverable(c, i, s.m) && s.m.AppendEntries? && s.m.term >= n.term
       && Match(n.log, s.m.prevIndex, s.m.prevTerm) && !Panics(n, s.m) {
      TrueAcceptKeeps(c, c', i, s.m, s.draw);
    } else {
      SameClaims(n);
      if s.i == i {
        match s
        case TickStep(_, draw) => TickClaims(n, draw);
        case ProposeStep(_, data, storeFails) => ProposeClaims(n, data, storeFails);
        case Deliver(_, m, draw) =>
          if !m.AppendEntries? {
            OtherClaims(n, m, draw);
          } else if m.term < n.term || !Match(n.log, m.prevIndex, m.prevTerm) {
            RefusedDelivery(n, m, draw);
          }
        case _ =>
      }
      QuietMoveKeeps(c, c', i);
    }
  }

  lemma SameClaims(n: Node)
    ensures ClaimsNoMore(n, n)
  {
  }

  /** In runs that satisfy the hypothesis, replies of the node's current term always
      pass the check: only one of an earlier term can fail it. */
  lemma {:induction false} CurrentAcksAreCovered(cfg: Config, draws: NodeId -> nat, steps: seq<Step>, b: nat, i: NodeId)
    requires ValidConfig(cfg) && b <= |steps| && i in cfg.peers && TrueAcks(Init(cfg, draws), steps)
    ensures var c := At(cfg, draws, steps, b);
            && i in c.hosts && TermAcksTrue(c, i)
            && forall p :: p in c.hosts[i].n.pending && IsSuccess(p.msg) && p.msg.matchIndex > |c.hosts[i].n.log| ==> p.msg.term < c.hosts[i].n.term
  {
    hide BaseInv, At, Next, After, TrueAckAt;
    InitHosts(cfg, draws, steps, b);
    RunKeepsBase(cfg, draws, steps, b);
    var c := At(cfg, draws, steps, b);
    if b == 0 {
      NothingWaits(cfg, draws, steps, i);
    } else {
      CurrentAcksAreCovered(cfg, draws, steps, b - 1, i);
      RunKeepsBase(cfg, draws, steps, b - 1);
      AtStep(cfg, draws, steps, b - 1);
      StepKeepsTermAcks(At(cfg, draws, steps, b - 1), steps[b - 1], i) by { TrueAt(cfg, draws, steps, b - 1); }
    }
    forall p | p in c.hosts[i].n.pending && IsSuccess(p.msg) && p.msg.matchIndex > |c.hosts[i].n.log| ensures p.msg.term < c.hosts[i].n.term {
      PendingTerm(c, i, p);
      assert Vouches(c, i, p) <==> p.msg.term == c.hosts[i].n.term;
    }
  }

  lemma NothingWaits(cfg: Config, draws: NodeId -> nat, steps: seq<Step>, i: NodeId)
    requires ValidConfig(cfg) && i in cfg.peers
    ensures TermAcksTrue(At(cfg, draws, steps, 0), i)
  {
    assert steps[..0] == [];
  }

  lemma TrueAt(cfg: Config, draws: NodeId -> nat, steps: seq<Step>, k: nat)
    requires k < |steps| && TrueAcks(Init(cfg, draws), steps)
    ensures TrueAckAt(At(cfg, draws, steps, k), steps[k])
  {
    hide TrueAckAt, Init;
  }
}
