/** What single steps of a node achieve, in the states that runs reach: commit indexes
    follow the leader, terms and leader hints are right, timeouts fire on time, leaders
    beat on every tick, and Ready keeps the order of what it hands out. */
module Handlers {
  import opened Types
  import opened RaftLog
  import opened NodeSpec
  import opened Cluster
  import opened Shape
  import opened Votes
  import opened Logs
  import opened Actions
  import opened Acks
  import opened Refinement
  import opened Theorems
  import opened EntryLog
  import opened Guards
  import opened Ballots
  import opened Pipeline
  import opened Trace

  // ---- terms ------------------------------------------------------------------------------------

  /** A message leaves a node in the later of the two terms; one of a higher term makes it
      a follower and discards what it had queued. */
  lemma TermIsTheLater(n: Node, m: Message, draw: nat)
    ensures var r := Receive(n, m, draw);
            && r.term == Max(n.term, m.term)
            && (m.term > n.term ==> r.role == Follower && r.epoch == n.epoch + 1 && r.pendingHS.Some? && r.pendingHS.value.term == m.term)
            && (m.term <= n.term ==> r.epoch == n.epoch)
  {
    hide SendAppends, AdvanceCommit, CanGrant, HandleAppend;
    var d := StepDown(n, m.term);
    if m.AppendEntries? { HandledIsHeard(d, m); }
    if m.AppendEntriesResp? { AdvanceKeepsTerm(d.(matchIndex := d.matchIndex[m.from := m.matchIndex], nextIndex := d.nextIndex[m.from := m.matchIndex + 1])); }
    if m.RequestVoteResponse? { SendOnlyQueues(Enthrone(d.(votes := d.votes + {m.from}))); }
  }

  lemma AdvanceKeepsTerm(n: Node)
    ensures var r := AdvanceCommit(n);
            && r.term == n.term && r.role == n.role && r.epoch == n.epoch && r.leaderHint == n.leaderHint && r.timers == n.timers
            && r.id == n.id && (r.pendingHS == n.pendingHS || r.pendingHS == Some(Current(r)))
  {
    hide IsQuorumIndex;
  }

  /** A request of an earlier term is refused in the current one, and nothing else
      happens to the receiver ... */
  lemma StaleRequestIsRefused(n: Node, m: Message, draw: nat)
    requires m.AppendEntries? && m.term < n.term
    ensures var r := Receive(n, m, draw);
            && r == n.(pending := r.pending)
            && r.pending == n.pending + [Pending(n.epoch, AppendEntriesResp(n.term, n.id, m.from, false, 0))]
  {
  }

  /** ... while the refusal makes the leader that sent it step down. */
  lemma StaleLeaderStepsDown(l: Node, reply: Message, draw: nat)
    requires l.role == Leader && reply.AppendEntriesResp? && reply.term > l.term
    ensures var r := Receive(l, reply, draw);
            && r.role == Follower && r.term == reply.term && r.votedFor == NO_NODE && r.leaderHint == NO_NODE && r.votes == {}
            && r.log == l.log && r.commit == l.commit
  {
    hide AdvanceCommit;
  }

  /** A leader books an acknowledgement of its term, and probes one entry earlier after a
      refusal, but never before the first. */
  lemma ReplyIsBooked(l: Node, m: Message, draw: nat)
    requires l.role == Leader && m.AppendEntriesResp? && m.term == l.term
    ensures var r := Receive(l, m, draw);
            && r.log == l.log && r.role == Leader && r.commit >= l.commit
            && (m.success ==> r.matchIndex == l.matchIndex[m.from := m.matchIndex] && r.nextIndex == l.nextIndex[m.from := m.matchIndex + 1])
            && (!m.success ==> r == l.(nextIndex := r.nextIndex) && r.nextIndex.Keys == l.nextIndex.Keys
                               && forall p :: p in l.nextIndex ==>
                                    r.nextIndex[p] == if p == m.from && l.nextIndex[p] >= 2 then l.nextIndex[p] - 1 else l.nextIndex[p])
  {
    hide IsQuorumIndex, TermAt;
  }

  /** A batch with a gap, which the store refuses, is answered with a failure and moves no
      commit index. */
  lemma GapIsRefused(n: Node, m: Message)
    requires m.AppendEntries? && m.term == n.term && n.store == n.log && Match(n.log, m.prevIndex, m.prevTerm)
    requires var fc := FirstConflict(n.log, m.entries); fc != 0 && !Continues(Truncate(n.log, fc), EntriesFrom(m.entries, fc))
    ensures var r := HandleAppend(n, m);
            && r.commit == n.commit && r.pendingHS == n.pendingHS
            && r.pending == n.pending + [Pending(n.epoch, AppendEntriesResp(n.term, n.id, m.from, false, 0))]
  {
    hide Match, FirstConflict, EntriesFrom, Truncate, StoreAppend;
    var fc := FirstConflict(n.log, m.entries);
    StoreAppendIff(Truncate(n.log, fc), EntriesFrom(m.entries, fc));
  }

  /** A new leader takes every peer to be at the end of its own log, acknowledged nowhere,
      and announces itself to each with an empty request from there. */
  lemma NewLeaderAnnounces(n: Node, p: NodeId)
    requires p in n.peers && p != n.id
    ensures var l := BecomeLeader(n);
            && l.role == Leader && l.leaderHint == n.id && l.log == n.log && l.commit == n.commit
            && p in l.nextIndex && l.nextIndex[p] == |n.log| + 1 && p in l.matchIndex && l.matchIndex[p] == 0
            && Pending(l.epoch, AppendEntries(n.term, n.id, p, |n.log|, LastTerm(n.log), [], n.commit)) in l.pending
  {
    hide AppendFanout, Tagged;
    var e := Enthrone(n);
    var ms := AppendFanout(e, e.peers);
    SendOnlyQueues(e);
    SendsAppend(e, e.peers, p);
    var x :| 0 <= x < |ms| && ms[x] == AppendFor(e, p);
    assert SendAppends(e).pending[|e.pending| + x] == Pending(e.epoch, ms[x]);
  }

  // ---- the follower's commit index ------------------------------------------------------------------

  /** In every run: accepting a request moves the commit index to the leader's, if that is
      the greater, and then queues it for the disk; nothing lowers it. */
  lemma CommitFollowsLeader(cfg: Config, draws: NodeId -> nat, steps: seq<Step>, i: NodeId, m: Message, draw: nat)
    requires ValidConfig(cfg)
    ensures var c := At(cfg, draws, steps, |steps|);
            Deliverable(c, i, m) && m.AppendEntries? && m.term >= c.hosts[i].n.term
            && Match(c.hosts[i].n.log, m.prevIndex, m.prevTerm) ==>
              var n, r := c.hosts[i].n, Receive(c.hosts[i].n, m, draw);
              && r.commit == Max(n.commit, m.leaderCommit)
              && (r.commit > n.commit ==> r.pendingHS == Some(HardState(r.term, r.votedFor, r.commit)))
  {
    hide At, BaseInv, Match, Receive;
    var c := At(cfg, draws, steps, |steps|);
    RunKeepsBase(cfg, draws, steps, |steps|);
    if Deliverable(c, i, m) && m.AppendEntries? && m.term >= c.hosts[i].n.term && Match(c.hosts[i].n.log, m.prevIndex, m.prevTerm) {
      RequestsCoverCommit(c, m);
      AcceptedCommit(c, i, m, draw);
    }
  }

  lemma AcceptedCommit(c: Cluster, i: NodeId, m: Message, draw: nat)
    requires BaseInv(c) && Deliverable(c, i, m) && m.AppendEntries? && m.term >= c.hosts[i].n.term
    requires Match(c.hosts[i].n.log, m.prevIndex, m.prevTerm) && m.leaderCommit <= m.prevIndex + |m.entries|
    ensures var n, r := c.hosts[i].n, Receive(c.hosts[i].n, m, draw);
            && r.commit == Max(n.commit, m.leaderCommit)
            && (r.commit > n.commit ==> r.pendingHS == Some(HardState(r.term, r.votedFor, r.commit)))
  {
    hide BaseInv, Match, Accept, HandleAppend, FirstConflict, EntriesFrom, Outcome, SamePrefix, WellFormed;
    StoreIsLog(c, i);
    AcceptOutcome(c, i, m);
    HandleAppendAccepts(StepDown(c.hosts[i].n, m.term), m, c.elections[m.term].log);
  }

  /** In every run: a request that would be accepted panics exactly when accepting it would
      change what the receiver has committed. */
  lemma PanicGuardsCommit(cfg: Config, draws: NodeId -> nat, steps: seq<Step>, i: NodeId, m: Message)
    requires ValidConfig(cfg)
    ensures var c := At(cfg, draws, steps, |steps|);
            Deliverable(c, i, m) && m.AppendEntries? && m.term >= c.hosts[i].n.term
            && Match(c.hosts[i].n.log, m.prevIndex, m.prevTerm) ==>
              var n := c.hosts[i].n;
              Panics(n, m) <==> !SamePrefix(n.log, Accept(n.log, m.entries, |m.entries|), n.commit)
  {
    hide At, BaseInv, Match, Accept, SamePrefix, Panics;
    var c := At(cfg, draws, steps, |steps|);
    RunKeepsBase(cfg, draws, steps, |steps|);
    if Deliverable(c, i, m) && m.AppendEntries? && m.term >= c.hosts[i].n.term && Match(c.hosts[i].n.log, m.prevIndex, m.prevTerm) {
      AcceptOutcome(c, i, m);
      CommitIsBounded(c, i);
      RewriteIsSeen(c.hosts[i].n, m, c.elections[m.term].log);
    }
  }

  lemma RewriteIsSeen(n: Node, m: Message, M: Log)
    requires m.AppendEntries? && m.term >= n.term && Match(n.log, m.prevIndex, m.prevTerm) && n.commit <= |n.log|
    requires Outcome(n.log, M, m.prevIndex, m.entries, |m.entries|, Accept(n.log, m.entries, |m.entries|))
    ensures Panics(n, m) <==> !SamePrefix(n.log, Accept(n.log, m.entries, |m.entries|), n.commit)
  {
    hide Accept, FirstConflict, EntriesFrom, Match;
    var L, fc := Accept(n.log, m.entries, |m.entries|), FirstConflict(n.log, m.entries);
    if 0 < fc <= |n.log| { assert L[fc - 1] == M[fc - 1] != n.log[fc - 1]; }
  }

  // ---- leader hints and heartbeats ---------------------------------------------------------------------

  /** The hint, if there is one, names the leader of the node's term; a leader names itself
      and beats on every tick. */
  predicate HintOk(es: Elections, n: Node) {
    && (n.leaderHint != NO_NODE ==> n.term in es && es[n.term].leader == n.leaderHint)
    && (n.role == Leader ==> n.leaderHint == n.id && n.timers.heartbeatElapsed == 0 && n.timers.heartbeatTimeout == 1)
  }

  /** n moves to d without hearing from a leader. */
  predicate HintMoves(n: Node, d: Node) {
    && d.id == n.id
    && (d.role == Leader ==>
          && d.leaderHint == d.id
          && (if n.role == Leader then d.timers.heartbeatElapsed == n.timers.heartbeatElapsed && d.timers.heartbeatTimeout == n.timers.heartbeatTimeout
              else d.timers.heartbeatElapsed == 0 && d.timers.heartbeatTimeout == 1))
    && (d.role != Leader ==> d.leaderHint == NO_NODE || (d.leaderHint == n.leaderHint && d.term == n.term))
  }

  lemma TickMovesHint(n: Node, draw: nat)
    requires n.role == Leader ==> n.leaderHint == n.id && n.timers.heartbeatElapsed == 0 && n.timers.heartbeatTimeout == 1
    ensures HintMoves(n, Tick(n, draw))
  {
    hide AppendFanout, VoteFanout, Tagged, AdvanceCommit;
    AdvanceKeepsTerm(SendAppends(n.(timers := n.timers.(heartbeatElapsed := 0))));
  }

  lemma ProposeMovesHint(n: Node, data: Types.Bytes, storeFails: bool)
    requires n.role == Leader ==> n.leaderHint == n.id
    ensures HintMoves(n, Propose(n, data, storeFails))
  {
    hide AppendFanout, Tagged, AdvanceCommit;
    AdvanceKeepsTerm(SendAppends(ProposeLocked(n, data, storeFails).0));
  }

  lemma OthersMoveHint(n: Node, m: Message, draw: nat)
    requires !m.AppendEntries? || m.term < n.term
    requires n.role == Leader ==> n.leaderHint == n.id
    ensures HintMoves(n, Receive(n, m, draw))
  {
    hide AppendFanout, Tagged, AdvanceCommit, CanGrant, HandleAppend;
    var d := StepDown(n, m.term);
    if m.AppendEntries? { HandledIsHeard(d, m); }
    if m.AppendEntriesResp? { AdvanceKeepsTerm(d.(matchIndex := d.matchIndex[m.from := m.matchIndex], nextIndex := d.nextIndex[m.from := m.matchIndex + 1])); }
  }

  /** Any request of the current or a later term is heard, accepted or not: the hint
      names its sender, and the election timer restarts. */
  lemma LeaderIsHeard(n: Node, m: Message, draw: nat)
    requires m.AppendEntries? && m.term >= n.term
    ensures var r := Receive(n, m, draw);
            && r.leaderHint == m.from && r.term == m.term && r.id == n.id
            && r.timers.electionElapsed == 0 && r.timers.lastHeartbeat == 0
            && r.timers.electionTimeout == n.timers.electionTimeout
            && r.role == (if m.term > n.term then Follower else n.role)
  {
    hide HandleAppend;
    HandledIsHeard(StepDown(n, m.term), m);
  }

  lemma HandledIsHeard(n: Node, m: Message)
    requires m.AppendEntries?
    ensures var r := HandleAppend(n, m);
            && r.term == n.term && r.id == n.id && r.role == n.role && r.epoch == n.epoch
            && r.timers.electionTimeout == n.timers.electionTimeout
            && (m.term >= n.term ==> r.leaderHint == m.from && r.timers.electionElapsed == 0 && r.timers.lastHeartbeat == 0)
            && (m.term < n.term ==> r.leaderHint == n.leaderHint && r.timers == n.timers)
            && (r.pendingHS == n.pendingHS || r.pendingHS == Some(Current(r)))
  {
    hide Match, FirstConflict, EntriesFrom, Mirror, Truncate, Tagged;
  }

  lemma HintStaysOk(c: Cluster, c': Cluster, i: NodeId)
    requires BaseInv(c') && i in c.hosts && i in c'.hosts && HintOk(c.elections, c.hosts[i].n)
    requires EsLe(c.elections, c'.elections) && HintMoves(c.hosts[i].n, c'.hosts[i].n)
    ensures HintOk(c'.elections, c'.hosts[i].n)
  {
    hide BaseInv;
    if c'.hosts[i].n.role == Leader {
      LeaderIsRecorded(c', i);
      IdIs(c', i);
    }
  }

  lemma IdIs(c: Cluster, i: NodeId)
    requires BaseInv(c) && i in c.hosts
    ensures c.hosts[i].n.id == i
  {
    hide VotesInv, LogsInv, NodeOk, Chain, PipeOk;
    assert HostOk(c.cfg, i, c.hosts[i]);
  }

  lemma HeardIsOk(c: Cluster, c': Cluster, i: NodeId, m: Message, draw: nat)
    requires BaseInv(c) && Deliverable(c, i, m) && m.AppendEntries? && m.term >= c.hosts[i].n.term
    requires EsLe(c.elections, c'.elections) && i in c'.hosts && c'.hosts[i].n == Receive(c.hosts[i].n, m, draw)
    ensures HintOk(c'.elections, c'.hosts[i].n)
  {
    hide ShapeInv, VotesInv, LogsInv, Receive;
    LeaderIsHeard(c.hosts[i].n, m, draw);
    WireAppendOk(c, m);
    if m.term == c.hosts[i].n.term { RivalIsNoLeader(c, i, m); }
  }

  lemma SameHint(n: Node)
    requires n.role == Leader ==> n.leaderHint == n.id
    ensures HintMoves(n, n)
  {
  }

  lemma StepKeepsHint(c: Cluster, s: Step, i: NodeId)
    requires BaseInv(c) && i in c.hosts && HintOk(c.elections, c.hosts[i].n)
    ensures i in Next(c, s).hosts && HintOk(Next(c, s).elections, Next(c, s).hosts[i].n)
  {
    hide BaseInv, Tick, Receive, Propose, Record, Live, ApplyOne, Checkpoint, TornStore, Panics, HintMoves, EsLe, OwnGrowth;
    var n, c' := c.hosts[i].n, Next(c, s);
    StepKeeps(c, s, false);
    if s.i == i && s.Deliver? && Deliverable(c, i, s.m) && s.m.AppendEntries? && s.m.term >= n.term && !Panics(n, s.m) {
      HeardIsOk(c, c', i, s.m, s.draw);
    } else if s.i == i && (s.Crash? || s.CrashInAppend?) {
      if c'.hosts[i].n != n { RestartHasNoHint(c, s, i); } else { SameHint(n); HintStaysOk(c, c', i); }
    } else {
      SameHint(n);
      if s.i == i {
        match s
        case TickStep(_, draw) => TickMovesHint(n, draw);
        case ProposeStep(_, data, storeFails) => ProposeMovesHint(n, data, storeFails);
        case Deliver(_, m, draw) => if !m.AppendEntries? || m.term < n.term { OthersMoveHint(n, m, draw); }
        case ReadyStep(_) => ReadyKeepsHint(n);
        case _ =>
      }
      HintStaysOk(c, c', i);
    }
  }

  lemma ReadyKeepsHint(n: Node)
    requires n.role == Leader ==> n.leaderHint == n.id
    ensures HintMoves(n, n.(pending := [], pendingHS := None))
  {
  }

  lemma RestartHasNoHint(c: Cluster, s: Step, i: NodeId)
    requires i in c.hosts && s.i == i && (s.Crash? || s.CrashInAppend?) && Next(c, s).hosts[i].n != c.hosts[i].n
    ensures HintOk(Next(c, s).elections, Next(c, s).hosts[i].n)
  {
    hide TornStore;
  }

  /** In every run. */
  lemma {:induction false} HintNamesLeader(cfg: Config, draws: NodeId -> nat, steps: seq<Step>, k: nat, i: NodeId)
    requires ValidConfig(cfg) && k <= |steps| && i in cfg.peers
    ensures var c := At(cfg, draws, steps, k); i in c.hosts && HintOk(c.elections, c.hosts[i].n)
  {
    hide BaseInv, At, Next, HintOk;
    if k == 0 {
      NoHintAtStart(cfg, draws, steps, i);
    } else {
      HintNamesLeader(cfg, draws, steps, k - 1, i);
      RunKeepsBase(cfg, draws, steps, k - 1);
      AtStep(cfg, draws, steps, k - 1);
      StepKeepsHint(At(cfg, draws, steps, k - 1), steps[k - 1], i);
    }
  }

  lemma NoHintAtStart(cfg: Config, draws: NodeId -> nat, steps: seq<Step>, i: NodeId)
    requires ValidConfig(cfg) && i in cfg.peers
    ensures var c := At(cfg, draws, steps, 0); i in c.hosts && HintOk(c.elections, c.hosts[i].n)
  {
    assert steps[..0] == [];
  }

  // ---- timeouts -----------------------------------------------------------------------------------------

  /** k ticks in a row, with nothing heard in between. */
  ghost function Ticks(n: Node, k: nat, draw: nat): Node {
    if k == 0 then n else Tick(Ticks(n, k - 1, draw), draw)
  }

  /** How many ticks a node that hears nothing has left. */
  function Patience(n: Node): nat {
    if n.timers.electionElapsed + 1 < n.timers.electionTimeout then n.timers.electionTimeout - n.timers.electionElapsed else 1
  }

  /** How many ticks ago a follower last heard from a leader. */
  function Silence(n: Node): nat { n.timers.lastHeartbeat }

  function Listening(n: Node): nat { if n.role == Follower then 1 else 0 }

  lemma TickAlone(n: Node, draw: nat)
    requires n.role != Leader
    ensures var t := Tick(n, draw);
            if Patience(n) > 1 then t == n.(timers := t.timers) && Patience(t) == Patience(n) - 1 && Silence(t) == Silence(n) + Listening(n)
            else t.term == n.term + 1 && t.votedFor == n.id && t.pendingHS == Some(HardState(n.term + 1, n.id, n.commit))
                 && t.timers.electionElapsed == 0 && t.timers.electionTimeout == draw && t.log == n.log
  {
    hide AppendFanout, VoteFanout, Tagged;
  }

  /** A follower or candidate that hears nothing stands for election, in the next term,
      exactly when its patience is over: not a tick before, and not one later. */
  lemma {:induction false} StandsOnTime(n: Node, k: nat, draw: nat)
    requires n.role != Leader && k <= Patience(n)
    ensures var t := Ticks(n, k, draw);
            if k < Patience(n) then t == n.(timers := t.timers) && Patience(t) == Patience(n) - k && Silence(t) == Silence(n) + k * Listening(n)
            else t.term == n.term + 1 && t.votedFor == n.id && t.pendingHS == Some(HardState(n.term + 1, n.id, n.commit))
                 && t.timers.electionElapsed == 0 && t.timers.electionTimeout == draw && t.log == n.log
  {
    hide Tick, Patience;
    PatienceIsPositive(n);
    if k > 0 {
      StandsOnTime(n, k - 1, draw);
      TickAlone(Ticks(n, k - 1, draw), draw);
    }
  }

  /** Standing, it asks every other member for its vote, with its last index and term. */
  lemma StandingAsksAll(n: Node, p: NodeId, draw: nat)
    requires n.role != Leader && Patience(n) == 1 && p in n.peers && p != n.id
    ensures var t := Tick(n, draw); Pending(t.epoch, RequestVote(n.term + 1, n.id, p, |n.log|, LastTerm(n.log))) in t.pending
  {
    hide VoteFanout, SendAppends, LastTerm, Tagged;
    var k := n.timers;
    var t := if n.role == Follower then k.(electionElapsed := k.electionElapsed + 1, lastHeartbeat := k.lastHeartbeat + 1)
             else k.(electionElapsed := k.electionElapsed + 1);
    var c := Stand(n.(timers := t), draw);
    var ms := VoteFanout(c, c.peers);
    AsksVote(c, c.peers, p);
    var x :| 0 <= x < |ms| && ms[x] == VoteRequest(c, p);
    assert QueueAll(c, ms).pending[|c.pending| + x] == Pending(c.epoch, ms[x]);
    SendOnlyQueues(Enthrone(QueueAll(c, ms)));
    SendKeepsQueue(Enthrone(QueueAll(c, ms)), Pending(c.epoch, ms[x]));
  }

  lemma SendKeepsQueue(n: Node, p: Pending)
    requires p in n.pending
    ensures p in SendAppends(n).pending
  {
    hide AppendFanout, Tagged;
  }

  /** A restarted node waits a whole timeout before it stands. */
  lemma RestartIsPatient(id: NodeId, peers: seq<NodeId>, hs: HardState, store: Log, draw: nat)
    ensures Patience(Restart(id, peers, hs, store, draw)) == Max(draw, 1)
  {
  }

  lemma PatienceIsPositive(n: Node)
    ensures Patience(n) >= 1
  {
  }

  /** In every run a leader's tick queues, for every other member, a request that carries
      the rest of its log behind the peer's probe point and its commit index. */
  lemma LeaderBeats(cfg: Config, draws: NodeId -> nat, steps: seq<Step>, i: NodeId, p: NodeId, draw: nat)
    requires ValidConfig(cfg) && i in cfg.peers && p in cfg.peers && p != i
    ensures var c := At(cfg, draws, steps, |steps|);
            && i in c.hosts
            && var n, t := c.hosts[i].n, Tick(c.hosts[i].n, draw);
               n.role == Leader ==>
                 exists m :: Pending(t.epoch, m) in t.pending && Carries(n, p, m)
  {
    hide At, BaseInv, Tick, Carries;
    var c := At(cfg, draws, steps, |steps|);
    RunKeepsBase(cfg, draws, steps, |steps|);
    InitHosts(cfg, draws, steps, |steps|);
    HintNamesLeader(cfg, draws, steps, |steps|, i);
    if c.hosts[i].n.role == Leader {
      ProbePoint(c, i, p);
      BeatCarries(c.hosts[i].n, p, draw);
    }
  }

  /** m asks p to continue, right behind the leader's first nextIndex[p] - 1 entries, with
      all that follow. */
  predicate Carries(n: Node, p: NodeId, m: Message) {
    && m.AppendEntries? && m.term == n.term && m.from == n.id && m.to == p && m.leaderCommit == n.commit
    && p in n.nextIndex && m.prevIndex + 1 == n.nextIndex[p]
    && (m.prevIndex <= |n.log| ==>
          && n.log[..m.prevIndex] + m.entries == n.log
          && m.prevTerm == if m.prevIndex == 0 then 0 else n.log[m.prevIndex - 1].term)
    && (m.prevIndex > |n.log| ==> m.entries == [] && m.prevTerm == 0)
  }

  lemma ProbePoint(c: Cluster, i: NodeId, p: NodeId)
    requires BaseInv(c) && i in c.hosts && p in c.hosts && c.hosts[i].n.role == Leader
    ensures var n := c.hosts[i].n; p in n.nextIndex && n.nextIndex[p] >= 1 && p in n.peers && n.id == i
  {
    hide VotesInv, LogsInv, Chain, PipeOk, NetOk;
    assert HostOk(c.cfg, i, c.hosts[i]) && HostOk(c.cfg, p, c.hosts[p]);
  }

  lemma BeatCarries(n: Node, p: NodeId, draw: nat)
    requires n.role == Leader && n.timers.heartbeatElapsed == 0 && n.timers.heartbeatTimeout == 1
    requires p in n.peers && p != n.id && p in n.nextIndex && n.nextIndex[p] >= 1
    ensures var t := Tick(n, draw); exists m :: Pending(t.epoch, m) in t.pending && Carries(n, p, m)
  {
    hide AppendFanout, AdvanceCommit, Carries, AppendFor;
    var b := n.(timers := n.timers.(heartbeatElapsed := 0));
    AdvanceKeepsQueue(SendAppends(b));
    SendsAppend(b, b.peers, p);
    ForCarries(n, b, p);
    var k :| 0 <= k < |AppendFanout(b, b.peers)| && AppendFanout(b, b.peers)[k] == AppendFor(b, p);
    assert SendAppends(b).pending[|b.pending| + k] == Pending(b.epoch, AppendFor(b, p));
  }

  /** In every run an accepted proposal goes out at once: for every other member there is a
      request queued that carries it. */
  lemma ProposalIsSent(cfg: Config, draws: NodeId -> nat, steps: seq<Step>, i: NodeId, p: NodeId, data: Types.Bytes)
    requires ValidConfig(cfg) && i in cfg.peers && p in cfg.peers && p != i
    ensures var c := At(cfg, draws, steps, |steps|);
            && i in c.hosts
            && var n, r := c.hosts[i].n, Propose(c.hosts[i].n, data, false);
               n.role == Leader ==>
                 && r.log == n.log + [Entry(n.term, |n.log| + 1, data)]
                 && exists m :: Pending(r.epoch, m) in r.pending && Carries(n.(log := r.log), p, m)
  {
    hide At, BaseInv, Propose, Carries;
    var c := At(cfg, draws, steps, |steps|);
    RunKeepsBase(cfg, draws, steps, |steps|);
    InitHosts(cfg, draws, steps, |steps|);
    if c.hosts[i].n.role == Leader {
      ProbePoint(c, i, p);
      StoreIsLog(c, i);
      ProposalCarries(c.hosts[i].n, p, data);
    }
  }

  lemma ProposalCarries(n: Node, p: NodeId, data: Types.Bytes)
    requires n.role == Leader && n.store == n.log && p in n.peers && p != n.id && p in n.nextIndex && n.nextIndex[p] >= 1
    ensures var r := Propose(n, data, false);
            && r.log == n.log + [Entry(n.term, |n.log| + 1, data)]
            && exists m :: Pending(r.epoch, m) in r.pending && Carries(n.(log := r.log), p, m)
  {
    hide AppendFanout, AdvanceCommit, Carries, AppendFor;
    var b := ProposeLocked(n, data, false).0;
    AdvanceKeepsQueue(SendAppends(b));
    SendsAppend(b, b.peers, p);
    ProposedCarries(n, b, p);
    var k :| 0 <= k < |AppendFanout(b, b.peers)| && AppendFanout(b, b.peers)[k] == AppendFor(b, p);
    assert SendAppends(b).pending[|b.pending| + k] == Pending(b.epoch, AppendFor(b, p));
  }

  lemma ProposedCarries(n: Node, b: Node, p: NodeId)
    requires p in n.nextIndex && n.nextIndex[p] >= 1 && b == n.(log := b.log, store := b.store, matchIndex := b.matchIndex)
    ensures Carries(n.(log := b.log), p, AppendFor(b, p))
  {
  }

  lemma AdvanceKeepsQueue(n: Node)
    ensures AdvanceCommit(n).pending == n.pending && AdvanceCommit(n).epoch == n.epoch && AdvanceCommit(n).log == n.log
  {
    hide IsQuorumIndex;
  }

  lemma ForCarries(n: Node, b: Node, p: NodeId)
    requires p in n.nextIndex && n.nextIndex[p] >= 1 && b == n.(timers := b.timers)
    ensures Carries(n, p, AppendFor(b, p))
  {
  }

  // ---- Ready -------------------------------------------------------------------------------------------

  /** How many of the first k messages are of the current epoch. */
  function Count(ps: seq<Pending>, epoch: nat, k: nat): nat
    requires k <= |ps|
  {
    if k == 0 then 0 else Count(ps, epoch, k - 1) + if ps[k - 1].epoch == epoch then 1 else 0
  }

  lemma {:induction false} LiveSplits(a: seq<Pending>, b: seq<Pending>, epoch: nat)
    ensures Live(a + b, epoch) == Live(a, epoch) + Live(b, epoch)
  {
    if |a| == 0 {
      assert a + b == b;
    } else {
      assert (a + b)[1..] == a[1..] + b;
      LiveSplits(a[1..], b, epoch);
    }
  }

  lemma {:induction false} LiveCounts(ps: seq<Pending>, epoch: nat, k: nat)
    requires k <= |ps|
    ensures |Live(ps[..k], epoch)| == Count(ps, epoch, k)
  {
    if k > 0 {
      LiveCounts(ps, epoch, k - 1);
      assert ps[..k] == ps[..k - 1] + [ps[k - 1]];
      LiveSplits(ps[..k - 1], [ps[k - 1]], epoch);
    }
  }

  /** Ready hands out the messages of the current epoch, all of them and no others, in the
      order in which they were queued: the k-th queued one comes right behind the current
      ones before it. */
  lemma ReadyKeepsOrder(ps: seq<Pending>, epoch: nat, k: nat)
    requires k < |ps| && ps[k].epoch == epoch
    ensures |Live(ps, epoch)| == Count(ps, epoch, |ps|)
    ensures Count(ps, epoch, k) < |Live(ps, epoch)| && Live(ps, epoch)[Count(ps, epoch, k)] == ps[k].msg
  {
    hide Count;
    LiveCounts(ps, epoch, |ps|);
    LiveCounts(ps, epoch, k);
    assert ps[..|ps|] == ps;
    assert ps == ps[..k] + [ps[k]] + ps[k + 1..];
    LiveSplits(ps[..k] + [ps[k]], ps[k + 1..], epoch);
    LiveSplits(ps[..k], [ps[k]], epoch);
    assert Live([ps[k]], epoch) == [ps[k].msg];
  }

  // ---- the drain ------------------------------------------------------------------------------------------

  /** In every run: draining node i is a run of the cluster's Drain steps, after which its
      pipeline has everything committed, unless the channel is full. */
  lemma DrainInRuns(cfg: Config, draws: NodeId -> nat, steps: seq<Step>, i: NodeId) returns (more: seq<Step>)
    requires ValidConfig(cfg) && i in cfg.peers
    ensures forall k :: 0 <= k < |more| ==> more[k] == Drain(i)
    ensures var c := At(cfg, draws, steps, |steps|);
            && i in c.hosts
            && var h := c.hosts[i]; var a := DrainAll(h.app, h.n.store, h.n.commit);
               && Run(c, more) == c.(hosts := c.hosts[i := h.(app := a)])
               && (a.enqueued >= h.n.commit || |a.queue| >= APPLY_BUF)
  {
    hide At, BaseInv, DrainAll, Run;
    var c := At(cfg, draws, steps, |steps|);
    RunKeepsBase(cfg, draws, steps, |steps|);
    InitHosts(cfg, draws, steps, |steps|);
    var h := c.hosts[i];
    NothingToRecord(c, i);
    more := DrainIsSteps(c, i);
    CommitIsBounded(c, i);
    DrainStops(h.app, h.n.store, h.n.commit);
  }

  lemma NothingToRecord(c: Cluster, i: NodeId)
    requires BaseInv(c) && i in c.hosts
    ensures Record(c.elections, i, c.hosts[i].n) == c.elections
  {
    hide BaseInv;
    if c.hosts[i].n.role == Leader { LeaderIsRecorded(c, i); }
  }
}
