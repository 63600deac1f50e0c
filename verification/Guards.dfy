/** The run-time checks of the code, as theorems about runs: which of its panics cannot
    fire, and that no message outruns the hard state it rests on. The one check that
    can fail is in ReadyChecks. */
module Guards {
  import opened Types
  import opened RaftLog
  import opened NodeSpec
  import opened Cluster
  import opened Shape
  import opened Votes
  import opened Logs
  import opened LogSteps
  import opened Actions
  import opened Acks
  import opened Commits
  import opened Refinement
  import opened Theorems
  import opened Safety
  import opened EntryLog

  // ---- truncation never reaches the committed prefix -------------------------------

  lemma SafelySteppedDown(c: Cluster, i: NodeId, t: nat)
    requires BaseInv(c) && SafeInv(c) && i in c.hosts
    ensures var d := PutNode(c, i, StepDown(c.hosts[i].n, t)); BaseInv(d) && SafeInv(d)
  {
    hide BaseInv, SafeInv, Path, After, StepDown, PutNode;
    ReachRefl(c, true);
    StepDownReaches(c, c, i, t, true);
    var d := PutNode(c, i, StepDown(c.hosts[i].n, t));
    var actions :| Path(c, actions, true, d);
    PathKeeps(c, actions, true, d);
  }

  lemma TruncationIsSafe(c: Cluster, i: NodeId, m: Message)
    requires BaseInv(c) && SafeInv(c) && Deliverable(c, i, m) && m.AppendEntries? && m.term == c.hosts[i].n.term
    ensures !TruncatePanics(c.hosts[i].n, m)
  {
    hide BaseInv, AcksInv, CommitsInv, Applied.AppsInv, Accept, FirstConflict, Match;
    var s := c.hosts[i].n;
    if Match(s.log, m.prevIndex, m.prevTerm) {
      RivalIsNoLeader(c, i, m);
      var L := Accept(s.log, m.entries, |m.entries|);
      CommittedIsNotRewritten(c, i, s.(log := L, store := L), m, |m.entries|);
    }
  }

  /** In a run that satisfies the hypothesis, assertTruncateAboveCommit never
      panics, whatever is delivered next. */
  lemma NoTruncatePanic(cfg: Config, draws: NodeId -> nat, steps: seq<Step>, i: NodeId, m: Message)
    requires ValidConfig(cfg) && TrueAcks(Init(cfg, draws), steps)
    ensures var c := Run(Init(cfg, draws), steps); Deliverable(c, i, m) ==> !Panics(c.hosts[i].n, m)
  {
    hide BaseInv, SafeInv, After, TrueAcks, TruncatePanics, Run;
    var c := Run(Init(cfg, draws), steps);
    assert steps[..|steps|] == steps;
    RunIsSafe(cfg, draws, steps, |steps|, |steps|);
    if Deliverable(c, i, m) && m.AppendEntries? {
      SafelySteppedDown(c, i, m.term);
      var d := PutNode(c, i, StepDown(c.hosts[i].n, m.term));
      if m.term == d.hosts[i].n.term { TruncationIsSafe(d, i, m); } else { StaleDoesNotPanic(d.hosts[i].n, m); }
    }
  }

  lemma StaleDoesNotPanic(n: Node, m: Message)
    requires m.AppendEntries? && m.term < n.term
    ensures !TruncatePanics(n, m)
  {
  }

  // ---- the debug append assertions ----------------------------------------------------

  lemma SuffixFits(L: Log, M: Log, fc: nat, end: nat)
    requires WellFormed(M) && 1 <= fc <= end <= |M| && SamePrefix(L, M, fc - 1)
    ensures AppendAssertions(fc - 1, LastTerm(L[..fc - 1]), M[fc - 1..end])
  {
  }

  /** What handleAppendEntriesLocked appends passes every check of
      assertAppendInvariants, and the stored log accepts it. */
  lemma AcceptedBatchFits(c: Cluster, i: NodeId, m: Message)
    requires BaseInv(c) && Deliverable(c, i, m) && m.AppendEntries?
    requires Match(c.hosts[i].n.log, m.prevIndex, m.prevTerm) && FirstConflict(c.hosts[i].n.log, m.entries) != 0
    ensures var log, fc := c.hosts[i].n.log, FirstConflict(c.hosts[i].n.log, m.entries);
            && |Truncate(log, fc)| == fc - 1
            && AppendAssertions(fc - 1, LastTerm(Truncate(log, fc)), EntriesFrom(m.entries, fc))
            && Mirror(log, fc, EntriesFrom(m.entries, fc)) == (true, Truncate(log, fc) + EntriesFrom(m.entries, fc))
  {
    hide ShapeInv, VotesInv, LogsInv, LogOk, Match, FirstConflict, EntriesFrom, AppendOk, WellFormed, AppendAssertions;
    HostLogOk(c, i);
    WireAppendOk(c, m);
    var L, M, fc, end := c.hosts[i].n.log, c.elections[m.term].log, FirstConflict(c.hosts[i].n.log, m.entries), m.prevIndex + |m.entries|;
    AcceptSpec(c.elections, L, m, |m.entries|);
    assert TermLogOk(c.elections, m.term);
    hide TermLogsOk;
    SuffixFits(L, M, fc, end);
    assert Truncate(L, fc) == L[..fc - 1];
    FittingBatchIsStored(L[..fc - 1], EntriesFrom(m.entries, fc));
  }

  lemma FittingBatchIsStored(store: Log, entries: seq<Entry>)
    requires AppendAssertions(|store|, LastTerm(store), entries)
    ensures StoreAppend(store, entries) == Some(store + entries)
  {
    if entries == [] { assert store + entries == store; }
  }

  lemma LeaderEntryFits(c: Cluster, i: NodeId, data: Types.Bytes)
    requires BaseInv(c) && i in c.hosts && c.hosts[i].n.role == Leader
    ensures var n := c.hosts[i].n; AppendAssertions(|n.log|, LastTerm(n.log), [Entry(n.term, |n.log| + 1, data)])
  {
    hide ShapeInv, VotesInv;
    LeaderIsRecorded(c, i);
    assert TermLogOk(c.elections, c.hosts[i].n.term);
    LeaderFacts(c, i);
  }

  lemma StoreFits(c: Cluster, i: NodeId)
    requires BaseInv(c) && i in c.hosts
    ensures c.hosts[i].n.store == c.hosts[i].n.log && AppendAssertions(0, 0, c.hosts[i].n.store)
  {
    hide ShapeInv, VotesInv, LogsInv, LogOk, TermLogsOk;
    StoreIsLog(c, i);
    HostLogOk(c, i);
    LogIsWellFormed(c.elections, c.hosts[i].n.log);
  }

  /** In every run, with no hypothesis: every append the code can attempt next, as a
      follower, as a leader or in a restart, passes assertAppendInvariants. */
  lemma AppendAssertionsHold(cfg: Config, draws: NodeId -> nat, steps: seq<Step>, i: NodeId, m: Message, data: Types.Bytes)
    requires ValidConfig(cfg) && i in cfg.peers
    ensures var c := Run(Init(cfg, draws), steps);
            && i in c.hosts
            && var n := c.hosts[i].n; var fc := if m.AppendEntries? then FirstConflict(n.log, m.entries) else 0;
            && (Deliverable(c, i, m) && m.AppendEntries? && Match(n.log, m.prevIndex, m.prevTerm) && fc != 0 ==>
                  && |Truncate(n.log, fc)| == fc - 1
                  && AppendAssertions(fc - 1, LastTerm(Truncate(n.log, fc)), EntriesFrom(m.entries, fc)))
            && (n.role == Leader ==> AppendAssertions(|n.log|, LastTerm(n.log), [Entry(n.term, |n.log| + 1, data)]))
            && AppendAssertions(0, 0, n.store)
  {
    hide BaseInv, AppendAssertions, Run, Match, FirstConflict, EntriesFrom, Truncate;
    var c := Run(Init(cfg, draws), steps);
    assert steps[..|steps|] == steps;
    RunKeepsBase(cfg, draws, steps, |steps|);
    InitHosts(cfg, draws, steps, |steps|);
    var n := c.hosts[i].n;
    if Deliverable(c, i, m) && m.AppendEntries? && Match(n.log, m.prevIndex, m.prevTerm) && FirstConflict(n.log, m.entries) != 0 {
      AcceptedBatchFits(c, i, m);
    }
    if n.role == Leader { LeaderEntryFits(c, i, data); }
    StoreFits(c, i);
  }

  // ---- durability ----------------------------------------------------------------------

  predicate IsGrantFor(m: Message, t: nat, candidate: NodeId) {
    m.RequestVoteResponse? && m.granted && m.term == t && m.to == candidate
  }

  /** Vote durability: whoever was ever sent a grant, and whoever ever asked for a
      vote, is on the granting node's disk, or that disk is in a later term; and no
      node ever grants one term to two candidates. */
  lemma VotesAreDurable(cfg: Config, draws: NodeId -> nat, steps: seq<Step>, v: NodeId, t: nat, candidate: NodeId, m: Message)
    requires ValidConfig(cfg)
    ensures var c := Run(Init(cfg, draws), steps);
            m in c.net && m.from == v && (IsGrantFor(m, t, candidate) || (m.RequestVote? && m.term == t && candidate == v)) ==>
              && v in c.hosts
              && (c.hosts[v].hs.term > t || (c.hosts[v].hs.term == t && c.hosts[v].hs.votedFor == candidate))
              && forall m', other :: m' in c.net && m'.from == v && IsGrantFor(m', t, other) ==> other == candidate
  {
    hide BaseInv, Run;
    var c := Run(Init(cfg, draws), steps);
    assert steps[..|steps|] == steps;
    RunKeepsBase(cfg, draws, steps, |steps|);
    if m in c.net && m.from == v && (IsGrantFor(m, t, candidate) || (m.RequestVote? && m.term == t && candidate == v)) {
      SentIsCovered(c, m);
      forall m', other | m' in c.net && m'.from == v && IsGrantFor(m', t, other) ensures other == candidate {
        SentIsCovered(c, m');
        BallotsAgree(c, m, m');
      }
    }
  }

  lemma SentIsCovered(c: Cluster, m: Message)
    requires BaseInv(c) && m in c.net
    ensures m.from in c.hosts && Addressed(c.cfg.peers, m.from, m) && Covered(m, c.hosts[m.from].hs)
    ensures m.to != NO_NODE && m.from != NO_NODE
  {
    hide VotesInv, LogsInv, HostOk;
  }

  lemma BallotsAgree(c: Cluster, m: Message, m': Message)
    requires BaseInv(c) && m in c.net && m' in c.net && m.from == m'.from && m.term == m'.term
    requires VoteOf(m) != NO_NODE && VoteOf(m') != NO_NODE
    ensures VoteOf(m) == VoteOf(m')
  {
    hide ShapeInv, LogsInv, GrantsAnswer, BallotsOk, ReignsOk, ElectionsOk, RequestsOk;
    assert Claimed(c, m) && Claimed(c, m');
  }

  /** assertReadyInvariantsLocked's vote check: a grant waiting in the outbox in the
      term of the queued hard state is for the candidate that hard state names. */
  lemma ReadyVoteCheckHolds(cfg: Config, draws: NodeId -> nat, steps: seq<Step>, i: NodeId, p: Pending)
    requires ValidConfig(cfg) && i in cfg.peers
    ensures var c := Run(Init(cfg, draws), steps);
            && i in c.hosts
            && var n := c.hosts[i].n;
               n.pendingHS.Some? && p in n.pending && IsGrantFor(p.msg, n.pendingHS.value.term, p.msg.to)
               ==> n.pendingHS.value.votedFor == p.msg.to
  {
    hide BaseInv, Run;
    assert steps[..|steps|] == steps;
    RunKeepsBase(cfg, draws, steps, |steps|);
    InitHosts(cfg, draws, steps, |steps|);
    PipeAt(Run(Init(cfg, draws), steps), i);
  }

  lemma PipeAt(c: Cluster, i: NodeId)
    requires BaseInv(c) && i in c.hosts
    ensures NO_NODE !in c.hosts[i].n.peers && PipeOk(c.hosts[i]) && Chain(c.hosts[i])
  {
    hide VotesInv, LogsInv;
    assert HostOk(c.cfg, i, c.hosts[i]);
  }

  // ---- the commit index -------------------------------------------------------------------

  predicate CrashOf(s: Step, i: NodeId) { s.i == i && (s.Crash? || s.CrashInAppend?) }

  lemma TickKeepsCommit(n: Node, draw: nat)
    ensures Tick(n, draw).commit >= n.commit
  {
    hide AppendFanout, VoteFanout, Tagged, IsQuorumIndex;
  }

  lemma ProposeKeepsCommit(n: Node, data: Types.Bytes, storeFails: bool)
    ensures Propose(n, data, storeFails).commit >= n.commit
  {
    hide AppendFanout, Tagged, Truncate, IsQuorumIndex;
  }

  /** The plain assignment of min(LeaderCommit, lastNew) cannot lower the index,
      since a request covers its own LeaderCommit. */
  lemma ReceiveKeepsCommit(n: Node, m: Message, draw: nat)
    requires m.AppendEntries? ==> m.leaderCommit <= m.prevIndex + |m.entries|
    ensures Receive(n, m, draw).commit >= n.commit
  {
    hide AppendFanout, Tagged, HandleAppend, AdvanceCommit, CanGrant;
    var d := StepDown(n, m.term);
    match m
    case AppendEntries(_, _, _, _, _, _, _) => HandleAppendKeepsCommit(d, m);
    case AppendEntriesResp(_, _, _, _, _) =>
      AdvanceKeepsCommit(d.(matchIndex := d.matchIndex[m.from := m.matchIndex], nextIndex := d.nextIndex[m.from := m.matchIndex + 1]));
    case RequestVote(_, _, _, _, _) =>
    case RequestVoteResponse(_, _, _, _) =>
  }

  lemma AdvanceKeepsCommit(n: Node)
    ensures AdvanceCommit(n).commit >= n.commit
  {
    hide IsQuorumIndex;
  }

  lemma HandleAppendKeepsCommit(n: Node, m: Message)
    requires m.AppendEntries? && m.leaderCommit <= m.prevIndex + |m.entries|
    ensures HandleAppend(n, m).commit >= n.commit
  {
    hide Match, FirstConflict, EntriesFrom, Mirror, Truncate, Tagged;
  }

  lemma StepKeepsCommit(c: Cluster, s: Step, i: NodeId)
    requires BaseInv(c) && i in c.hosts && !CrashOf(s, i)
    ensures i in Next(c, s).hosts && Next(c, s).hosts[i].n.commit >= c.hosts[i].n.commit
  {
    hide BaseInv, ShapeInv, VotesInv, LogsInv, Tick, Receive, Propose, Record, Live, ApplyOne, Checkpoint, Reboot, TornStore, AppendOk;
    var n := c.hosts[i].n;
    if s.i == i {
      match s
      case TickStep(_, draw) => TickKeepsCommit(n, draw);
      case ProposeStep(_, data, storeFails) => ProposeKeepsCommit(n, data, storeFails);
      case Deliver(_, m, draw) =>
        if Deliverable(c, i, m) { ReceiveKeepsCommit(n, m, draw) by { RequestsCoverCommit(c, m); } }
      case _ =>
    }
  }

  /** Every AppendEntries ever sent ends at or beyond its own LeaderCommit. */
  lemma RequestsCoverCommit(c: Cluster, m: Message)
    requires BaseInv(c) && m in c.net
    ensures m.AppendEntries? ==> m.leaderCommit <= m.prevIndex + |m.entries|
  {
    hide ShapeInv, VotesInv, LogsInv;
    if m.AppendEntries? { WireAppendOk(c, m); }
  }

  lemma CommitIsBounded(c: Cluster, i: NodeId)
    requires BaseInv(c) && i in c.hosts
    ensures var h := c.hosts[i]; h.hs.commit <= h.n.commit <= |h.n.log| && h.n.store == h.n.log
  {
    hide BaseInv, PipeOk, VotesInv, LogsInv;
    PipeAt(c, i);
    StoreIsLog(c, i);
  }

  /** In every run: within a lifetime the commit index never falls; it stays within
      the log, and the durable one within the durable log, which is the log itself. */
  lemma {:induction false} CommitIsMonotone(cfg: Config, draws: NodeId -> nat, steps: seq<Step>, a: nat, b: nat, i: NodeId)
    requires ValidConfig(cfg) && a <= b <= |steps| && i in cfg.peers
    requires forall k :: a <= k < b ==> !CrashOf(steps[k], i)
    ensures var c, d := At(cfg, draws, steps, a), At(cfg, draws, steps, b);
            && i in c.hosts && i in d.hosts
            && c.hosts[i].n.commit <= d.hosts[i].n.commit
            && var h := d.hosts[i]; h.hs.commit <= h.n.commit <= |h.n.log| && h.n.store == h.n.log
    decreases b
  {
    hide BaseInv, At, Next, After;
    Moments(cfg, draws, steps, a, b);
    CommitIsBounded(At(cfg, draws, steps, b), i);
    if a < b {
      CommitIsMonotone(cfg, draws, steps, a, b - 1, i);
      AtStep(cfg, draws, steps, b - 1);
      RunKeepsBase(cfg, draws, steps, b - 1);
      StepKeepsCommit(At(cfg, draws, steps, b - 1), steps[b - 1], i);
    }
  }

  // ---- the objects of the code in a run ----------------------------------------------------------

  /** What RaftNode's methods demand of their callers, a mirrored log with its indexes
      in order and no truncation of a committed entry, holds whenever a run that
      satisfies the hypothesis calls them, and the mirroring survives the call. */
  lemma HandlersAreCallable(cfg: Config, draws: NodeId -> nat, steps: seq<Step>, i: NodeId, m: Message, draw: nat)
    requires ValidConfig(cfg) && TrueAcks(Init(cfg, draws), steps) && i in cfg.peers
    ensures var c := Run(Init(cfg, draws), steps);
            && i in c.hosts
            && var n := c.hosts[i].n;
            && Indexed(n.log) && n.store == n.log
            && (Deliverable(c, i, m) ==> !Panics(n, m) && Receive(n, m, draw).store == Receive(n, m, draw).log)
  {
    hide BaseInv, AppendAssertions, Run, TrueAcks, Panics, Receive, TrueAckAt;
    var c := Run(Init(cfg, draws), steps);
    assert steps[..|steps|] == steps;
    RunKeepsBase(cfg, draws, steps, |steps|);
    InitHosts(cfg, draws, steps, |steps|);
    NoTruncatePanic(cfg, draws, steps, i, m);
    StoreFits(c, i);
    StoreIsIndexed(c.hosts[i].n.log);
    if Deliverable(c, i, m) { MirrorSurvives(c, i, m, draw); }
  }

  lemma MirrorSurvives(c: Cluster, i: NodeId, m: Message, draw: nat)
    requires BaseInv(c) && Deliverable(c, i, m) && !Panics(c.hosts[i].n, m)
    ensures var n := Receive(c.hosts[i].n, m, draw); n.store == n.log
  {
    hide BaseInv, Receive, Panics, PutNode;
    StepRefines(c, Deliver(i, m, draw), false);
    var d := Next(c, Deliver(i, m, draw));
    assert d.hosts[i].n == Receive(c.hosts[i].n, m, draw) by { PutIsThere(c, i, Receive(c.hosts[i].n, m, draw)); }
    StoreIsLog(d, i);
  }

  lemma PutIsThere(c: Cluster, i: NodeId, n: Node)
    requires i in c.hosts
    ensures i in PutNode(c, i, n).hosts && PutNode(c, i, n).hosts[i].n == n
  {
  }

  lemma StoreIsIndexed(log: Log)
    requires AppendAssertions(0, 0, log)
    ensures Indexed(log)
  {
    if |log| > 0 { IndexesRun(0, log, |log| - 1); }
  }

  /** With storage that does not fail: when a follower queues a Success reply, every
      entry of the request is in its stored log, where the leader has it, and the
      reply claims no more than the stored log's length. */
  lemma AcceptedIsDurable(cfg: Config, draws: NodeId -> nat, steps: seq<Step>, i: NodeId, m: Message)
    requires ValidConfig(cfg)
    ensures var c := Run(Init(cfg, draws), steps);
            Deliverable(c, i, m) && m.AppendEntries? && m.term >= c.hosts[i].n.term && Match(c.hosts[i].n.log, m.prevIndex, m.prevTerm) ==>
              var n := HandleAppend(StepDown(c.hosts[i].n, m.term), m);
              && n.store == n.log && m.prevIndex + |m.entries| <= |n.store|
              && n.store[m.prevIndex..m.prevIndex + |m.entries|] == m.entries
              && |n.pending| > 0
              && n.pending[|n.pending| - 1].msg == AppendEntriesResp(m.term, n.id, m.from, true, |n.store|)
  {
    hide BaseInv, ShapeInv, VotesInv, LogsInv, Run, Match, Accept, HandleAppend, AppendOk, LogOk, TermLogsOk;
    var c := Run(Init(cfg, draws), steps);
    assert steps[..|steps|] == steps;
    RunKeepsBase(cfg, draws, steps, |steps|);
    if Deliverable(c, i, m) && m.AppendEntries? && m.term >= c.hosts[i].n.term && Match(c.hosts[i].n.log, m.prevIndex, m.prevTerm) {
      BaseParts(c);
      StoreIsLog(c, i);
      HostLogOk(c, i);
      WireAppendOk(c, m);
      AcceptedEntriesArePresent(c.elections, c.hosts[i].n.log, m);
      AcceptOutcome(c, i, m);
      HandleAppendAccepts(StepDown(c.hosts[i].n, m.term), m, c.elections[m.term].log);
    }
  }

  lemma AcceptOutcome(c: Cluster, i: NodeId, m: Message)
    requires BaseInv(c) && Deliverable(c, i, m) && m.AppendEntries? && Match(c.hosts[i].n.log, m.prevIndex, m.prevTerm)
    ensures m.term in c.elections && WellFormed(c.elections[m.term].log)
    ensures Outcome(c.hosts[i].n.log, c.elections[m.term].log, m.prevIndex, m.entries, |m.entries|,
                    Accept(c.hosts[i].n.log, m.entries, |m.entries|))
  {
    hide ShapeInv, VotesInv, LogsInv, LogOk, Match, Accept, AppendOk, Outcome, WellFormed;
    HostLogOk(c, i);
    WireAppendOk(c, m);
    AcceptSpec(c.elections, c.hosts[i].n.log, m, |m.entries|);
    assert TermLogOk(c.elections, m.term);
  }
}
