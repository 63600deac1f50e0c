/** The protocol as atomic actions: each changes one thing about one node. Every
    step of the code is a sequence of these (Refinement), and every invariant is
    kept by each of them. */
module Actions {
  import opened Types
  import opened RaftLog
  import opened NodeSpec
  import opened Cluster
  import opened Shape
  import opened Votes
  import opened Logs
  import opened LogSteps

  datatype Action =
    | Settle(i: NodeId, n: Node)              // books, timers, step-downs, votes cast
    | Say(i: NodeId, ms: seq<Message>)        // queue messages
    | Rise(i: NodeId, n: Node)                // start a candidacy
    | Tally(i: NodeId, n: Node, m: Message)   // count a received grant
    | Reign(i: NodeId, n: Node)               // win the election
    | Grow(i: NodeId, n: Node, x: Entry)      // a leader appends a proposal
    | Adopt(i: NodeId, n: Node, m: Message, keep: nat)  // a receiver rewrites its log
    | Advance(i: NodeId, n: Node, m: Message)           // commit by counting or by a leader's word
    | Hand(i: NodeId)                         // Ready
    | Persist(i: NodeId)                      // SaveHardState
    | Emit(i: NodeId)                         // Transport.Send
    | Die(i: NodeId, draw: nat)               // crash and restart
    | Serve(i: NodeId, app: App)              // the apply pipeline

  ghost function Act(c: Cluster, a: Action): Cluster
    requires a.i in c.hosts
  {
    var h := c.hosts[a.i];
    match a
    case Settle(i, n) => PutNode(c, i, n)
    case Say(i, ms) => PutNode(c, i, QueueAll(h.n, ms))
    case Rise(i, n) => PutNode(c, i, n)
    case Tally(i, n, _) => PutNode(c, i, n)
    case Reign(i, n) => PutNode(c, i, n)
    case Grow(i, n, _) => PutNode(c, i, n)
    case Adopt(i, n, _, _) => PutNode(c, i, n)
    case Advance(i, n, _) => PutNode(c, i, n)
    case Hand(i) => PutHost(c, i, Drained(h))
    case Persist(i) => if h.out.hs.Some? then PutHost(c, i, Saved(h)) else c
    case Emit(i) => if |h.out.msgs| > 0 then AfterSend(c, i) else c
    case Die(i, draw) => PutHost(c, i, Reboot(c.cfg, i, h.hs, h.n.store, h.app.snap, draw))
    case Serve(i, app) => PutHost(c, i, h.(app := app))
  }

  /** A peer's acknowledgement of index x in term t is on the wire. */
  predicate NetAck(net: set<Message>, t: nat, v: NodeId, x: nat) {
    exists m :: m in net && m.AppendEntriesResp? && m.success && m.term == t && m.from == v && m.matchIndex >= x
  }

  /** A leader's matchIndex holds nothing a peer did not acknowledge. */
  predicate Backed(c: Cluster, n: Node) {
    n.role == Leader ==>
      forall p :: p in n.matchIndex && p != n.id && n.matchIndex[p] > 0 ==> NetAck(c.net, n.term, p, n.matchIndex[p])
  }

  predicate SameLog(o: Node, n: Node) { n.log == o.log && n.store == o.store && n.id == o.id && n.peers == o.peers }

  predicate CanSettle(c: Cluster, i: NodeId, n: Node)
    requires i in c.hosts
  {
    var o := c.hosts[i].n;
    && SameLog(o, n) && n.commit == o.commit && n.term >= o.term
    && (Meek(c, i, n) || (Keeps(o, n) && (Backed(c, o) ==> Backed(c, n))))
  }

  /** m acknowledges only what n's log shares with the leader of its term. */
  predicate TrueAck(c: Cluster, n: Node, m: Message) {
    m.AppendEntriesResp? && m.success ==>
      m.term in c.elections && SamePrefix(n.log, c.elections[m.term].log, m.matchIndex)
  }

  /** A grant answers a request on the wire that is at least as up to date. */
  ghost predicate FairGrant(c: Cluster, n: Node, m: Message) {
    IsGrant(m) ==>
      exists r :: r in c.net && r.RequestVote? && r.term == m.term && r.from == m.to &&
                  UpToDate(r.lastTerm, r.lastIndex, LastTerm(n.log), |n.log|)
  }

  ghost predicate CanSay(c: Cluster, i: NodeId, m: Message, tight: bool)
    requires i in c.hosts
  {
    var n := c.hosts[i].n;
    && Addressed(c.cfg.peers, i, m)
    && m.term == n.term
    && Covered(m, Current(n))
    && MaySay(c, n, m)
    && FairGrant(c, n, m)
    && AppendOk(c.elections, m)
    && (m.AppendEntries? ==> n.role == Leader && m.leaderCommit == n.commit)
    && (tight ==> TrueAck(c, n, m))
  }

  predicate CanAdopt(c: Cluster, i: NodeId, n: Node, m: Message, keep: nat)
    requires i in c.hosts
  {
    var o := c.hosts[i].n;
    && m in c.net && m.AppendEntries? && m.to == i && m.term == o.term == n.term
    && n.role == o.role != Leader && n.votes == o.votes
    && n.commit == o.commit && n.pending == o.pending && n.id == o.id && n.peers == o.peers
    && Match(o.log, m.prevIndex, m.prevTerm)
    && n.log == n.store == Accept(o.log, m.entries, keep)
  }

  predicate CanAdvance(c: Cluster, i: NodeId, n: Node, m: Message)
    requires i in c.hosts
  {
    var o := c.hosts[i].n;
    && SameLog(o, n) && n.pending == o.pending && n.term == o.term && n.role == o.role && n.votes == o.votes
    && n.matchIndex == o.matchIndex
    && n.commit > o.commit
    && if o.role == Leader then
         TermAt(o.log, n.commit) == o.term && |Reaching(o, n.commit)| >= Quorum(o)
       else
         && m in c.net && m.AppendEntries? && m.term == o.term && n.commit <= m.leaderCommit
         && m.term in c.elections && SamePrefix(o.log, c.elections[m.term].log, n.commit)
  }

  ghost predicate Can(c: Cluster, a: Action, tight: bool) {
    && a.i in c.hosts
    && var h := c.hosts[a.i];
       match a
       case Settle(i, n) => HostOk(c.cfg, i, h.(n := n)) && CanSettle(c, i, n)
       case Say(i, ms) => forall m :: m in ms ==> CanSay(c, i, m, tight)
       case Rise(i, n) => HostOk(c.cfg, i, h.(n := n)) && Stands(h.n, n) && SameLog(h.n, n) && n.commit == h.n.commit
       case Tally(i, n, m) =>
         && HostOk(c.cfg, i, h.(n := n)) && Counts(h.n, n, m.from) && SameLog(h.n, n) && n.commit == h.n.commit
         && m in c.net && IsGrant(m) && m.to == i && m.term == h.n.term
       case Reign(i, n) =>
         && HostOk(c.cfg, i, h.(n := n)) && Crowns(h.n, n) && SameLog(h.n, n) && n.commit == h.n.commit
         && |n.votes| >= Quorum(h.n)
         && (forall p :: p in n.matchIndex ==> n.matchIndex[p] == 0)
       case Grow(i, n, x) =>
         && HostOk(c.cfg, i, h.(n := n)) && Extends(h.n, n, x) && n.commit == h.n.commit
         && n.id == h.n.id && x.term == n.term && x.index == |h.n.log| + 1
         && (Backed(c, h.n) ==> Backed(c, n))
       case Adopt(i, n, m, keep) => HostOk(c.cfg, i, h.(n := n)) && CanAdopt(c, i, n, m, keep)
       case Advance(i, n, m) => HostOk(c.cfg, i, h.(n := n)) && CanAdvance(c, i, n, m)
       case Hand(i) => h.out == Outbox(None, [])
       case Persist(i) => h.out.hs.Some?
       case Emit(i) => h.out.hs.None? && |h.out.msgs| > 0
       case Die(i, draw) => true
       case Serve(i, app) => CanServe(c, h, app)
  }

  /** One move of the apply pipeline. */
  predicate CanServe(c: Cluster, h: Host, app: App) {
    || (CanDrain(h) && app == Enqueue(h))
    || (|h.app.queue| > 0 && app == ApplyOne(c.cfg, h.app))
    || app == Checkpoint(h.app)
  }

  function Enqueue(h: Host): App
    requires CanDrain(h)
  {
    Push(h.app, h.n.store)
  }

  ghost predicate BaseInv(c: Cluster) { ShapeInv(c) && VotesInv(c) && LogsInv(c) }

  // ---- every action keeps the base invariant ------------------------------------

  lemma PutNodeKeepsBase(c: Cluster, i: NodeId, n: Node)
    requires BaseInv(c) && i in c.hosts && HostOk(c.cfg, i, c.hosts[i].(n := n))
    requires VotesInv(PutNode(c, i, n)) && LogsInv(PutNode(c, i, n))
    ensures BaseInv(PutNode(c, i, n))
  {
    hide VotesInv, LogsInv, ShapeInv;
    PutNodeKeepsShape(c, i, n);
  }

  lemma IdleKeepsLogs(c: Cluster, i: NodeId, n: Node)
    requires LogsInv(c) && i in c.hosts && n.pending == c.hosts[i].n.pending
    requires PutNode(c, i, n).elections == c.elections
    requires LogOk(c.elections, n.log) && Tame(c.hosts[i].n, n)
    ensures LogsInv(PutNode(c, i, n))
  {
    hide EsLe, LogOk, HostLogsOk, AppendsOk, NoneStuck, TermLogsOk, NoNewClaims, Tame;
    SilentIsSilent(c, i, n);
    EsLeRefl(c.elections);
    QuietKeepsLogs(c, PutNode(c, i, n), i);
  }

  lemma HostLogOk(c: Cluster, i: NodeId)
    requires LogsInv(c) && i in c.hosts
    ensures LogOk(c.elections, c.hosts[i].n.log) && TermLogsOk(c.elections)
  {
    hide AppendsOk, NoneStuck, LogOk, TermLogsOk;
  }

  lemma MeekKeepsBase(c: Cluster, i: NodeId, n: Node)
    requires BaseInv(c) && i in c.hosts && HostOk(c.cfg, i, c.hosts[i].(n := n))
    requires Meek(c, i, n) && LogOk(c.elections, n.log) && Tame(c.hosts[i].n, n)
    ensures BaseInv(PutNode(c, i, n)) && PutNode(c, i, n).elections == c.elections
  {
    hide VotesInv, LogsInv, ShapeInv, Meek, HostOk, LogOk, Tame;
    MeekKeepsVotes(c, i, n);
    MeekIsSilent(c, i, n);
    IdleKeepsLogs(c, i, n);
    PutNodeKeepsBase(c, i, n);
  }

  lemma MeekIsSilent(c: Cluster, i: NodeId, n: Node)
    requires i in c.hosts && Meek(c, i, n)
    ensures n.pending == c.hosts[i].n.pending
  {
  }

  lemma LeaderKeepsBase(c: Cluster, i: NodeId, n: Node)
    requires BaseInv(c) && i in c.hosts && HostOk(c.cfg, i, c.hosts[i].(n := n))
    requires Keeps(c.hosts[i].n, n)
    ensures BaseInv(PutNode(c, i, n)) && PutNode(c, i, n).elections == c.elections
  {
    hide VotesInv, LogsInv, ShapeInv, HostOk, LogOk;
    LeaderKeepsVotes(c, i, n);
    HostLogOk(c, i);
    IdleKeepsLogs(c, i, n);
    PutNodeKeepsBase(c, i, n);
  }

  lemma SettleKeepsBase(c: Cluster, i: NodeId, n: Node)
    requires BaseInv(c) && i in c.hosts && HostOk(c.cfg, i, c.hosts[i].(n := n)) && CanSettle(c, i, n)
    ensures BaseInv(PutNode(c, i, n)) && PutNode(c, i, n).elections == c.elections
  {
    hide VotesInv, LogsInv, ShapeInv, HostOk, Backed, LogOk;
    HostLogOk(c, i);
    if Meek(c, i, n) {
      MeekKeepsBase(c, i, n);
    } else {
      LeaderKeepsBase(c, i, n);
    }
  }

  lemma SayKeepsBase(c: Cluster, i: NodeId, ms: seq<Message>)
    requires BaseInv(c) && i in c.hosts && forall m :: m in ms ==> CanSay(c, i, m, false)
    ensures BaseInv(Act(c, Say(i, ms))) && Act(c, Say(i, ms)).elections == c.elections
  {
    hide VotesInv, LogsInv, ShapeInv, HostOk, MaySay, AppendOk, Covered, QueueAll;
    assert forall m :: m in ms ==> m.from == i;
    QueueKeepsVotes(c, i, ms);
    QueueKeepsLogs(c, i, ms);
    SayKeepsHost(c, i, ms);
    PutNodeKeepsBase(c, i, QueueAll(c.hosts[i].n, ms));
  }

  lemma SayKeepsHost(c: Cluster, i: NodeId, ms: seq<Message>)
    requires ShapeInv(c) && i in c.hosts && forall m :: m in ms ==> CanSay(c, i, m, false)
    ensures HostOk(c.cfg, i, c.hosts[i].(n := QueueAll(c.hosts[i].n, ms)))
  {
    hide NodeOk, PipeOk, Chain, MaySay, AppendOk, Covered;
    assert HostOk(c.cfg, i, c.hosts[i]);
    QueueKeepsHost(c.cfg, i, c.hosts[i], ms);
  }

  lemma RiseKeepsBase(c: Cluster, i: NodeId, n: Node)
    requires BaseInv(c) && i in c.hosts && HostOk(c.cfg, i, c.hosts[i].(n := n)) && Stands(c.hosts[i].n, n)
    ensures BaseInv(PutNode(c, i, n)) && PutNode(c, i, n).elections == c.elections
  {
    hide VotesInv, LogsInv, ShapeInv, HostOk, Stands;
    StandKeepsVotes(c, i, n);
    StandKeepsLogs(c, i, n);
    PutNodeKeepsBase(c, i, n);
  }

  lemma TallyKeepsBase(c: Cluster, i: NodeId, n: Node, m: Message)
    requires BaseInv(c) && i in c.hosts && HostOk(c.cfg, i, c.hosts[i].(n := n)) && Counts(c.hosts[i].n, n, m.from)
    requires m in c.net && IsGrant(m) && m.to == i && m.term == c.hosts[i].n.term
    ensures BaseInv(PutNode(c, i, n)) && PutNode(c, i, n).elections == c.elections
  {
    hide VotesInv, LogsInv, ShapeInv, HostOk, LogOk;
    CountKeepsVotes(c, i, n, m);
    HostLogOk(c, i);
    IdleKeepsLogs(c, i, n);
    PutNodeKeepsBase(c, i, n);
  }

  lemma ReignKeepsBase(c: Cluster, i: NodeId, n: Node)
    requires BaseInv(c) && i in c.hosts && HostOk(c.cfg, i, c.hosts[i].(n := n)) && Crowns(c.hosts[i].n, n)
    requires |n.votes| >= Quorum(c.hosts[i].n)
    ensures n.term !in c.elections && BaseInv(PutNode(c, i, n)) && Grows(c.elections, PutNode(c, i, n).elections)
  {
    hide VotesInv, LogsInv, ShapeInv, HostOk, Crowns, EsLe, OwnGrowth;
    WinKeepsVotes(c, i, n);
    WinKeepsLogs(c, i, n);
    PutNodeKeepsBase(c, i, n);
  }

  lemma GrowKeepsBase(c: Cluster, i: NodeId, n: Node, x: Entry)
    requires BaseInv(c) && i in c.hosts && HostOk(c.cfg, i, c.hosts[i].(n := n)) && Extends(c.hosts[i].n, n, x)
    requires x.term == n.term && x.index == |c.hosts[i].n.log| + 1
    ensures BaseInv(PutNode(c, i, n)) && Grows(c.elections, PutNode(c, i, n).elections)
  {
    hide VotesInv, LogsInv, ShapeInv, HostOk, Extends, EsLe, OwnGrowth;
    ProposeKeepsVotes(c, i, n, x);
    ProposeKeepsLogs(c, i, n, x);
    PutNodeKeepsBase(c, i, n);
  }

  /** What an accepted message does to a log, seen from the cluster. */
  lemma AdoptFacts(c: Cluster, i: NodeId, n: Node, m: Message, keep: nat)
    requires BaseInv(c) && i in c.hosts && CanAdopt(c, i, n, m, keep)
    ensures m.term in c.elections && LogOk(c.elections, c.hosts[i].n.log) && TermLogsOk(c.elections)
    ensures Outcome(c.hosts[i].n.log, c.elections[m.term].log, m.prevIndex, m.entries, keep, n.log)
    ensures LogOk(c.elections, n.log)
    ensures n.log == c.hosts[i].n.log || forall k :: 0 <= k < |n.log| ==> n.log[k].term <= n.term
  {
    hide VotesInv, ShapeInv, HostOk, LogOk, TermLogsOk, Outcome, Match, Accept, AppendOk, LogsInv;
    HostLogOk(c, i);
    WireAppendOk(c, m);
    var o := c.hosts[i].n;
    AcceptSpec(c.elections, o.log, m, keep);
    OutcomeIsOk(c.elections, m.term, o.log, m.prevIndex, m.entries, keep, n.log);
    OutcomeIsOld(c.elections, m.term, o.log, m.prevIndex, m.entries, keep, n.log);
  }

  lemma WireAppendOk(c: Cluster, m: Message)
    requires LogsInv(c) && m in c.net && m.AppendEntries?
    ensures AppendOk(c.elections, m) && m.term in c.elections
  {
    hide HostLogsOk, NoneStuck, TermLogsOk;
    assert Claimed(c, m);
  }

  lemma OutcomeIsOld(es: Elections, t: nat, L: Log, prev: nat, entries: seq<Entry>, keep: nat, L2: Log)
    requires TermLogsOk(es) && t in es && Outcome(L, es[t].log, prev, entries, keep, L2)
    ensures L2 == L || forall k :: 0 <= k < |L2| ==> L2[k].term <= t
  {
    hide FirstConflict, EntriesFrom, LogOk, WellFormed;
    assert TermLogOk(es, t);
  }

  lemma AdoptKeepsBase(c: Cluster, i: NodeId, n: Node, m: Message, keep: nat)
    requires BaseInv(c) && i in c.hosts && HostOk(c.cfg, i, c.hosts[i].(n := n)) && CanAdopt(c, i, n, m, keep)
    ensures BaseInv(PutNode(c, i, n)) && PutNode(c, i, n).elections == c.elections
  {
    hide VotesInv, LogsInv, ShapeInv, HostOk, LogOk, TermLogsOk, Outcome, Match, Accept;
    AdoptFacts(c, i, n, m, keep);
    MeekKeepsBase(c, i, n);
  }

  lemma AdvanceKeepsBase(c: Cluster, i: NodeId, n: Node, m: Message)
    requires BaseInv(c) && i in c.hosts && HostOk(c.cfg, i, c.hosts[i].(n := n)) && CanAdvance(c, i, n, m)
    ensures BaseInv(PutNode(c, i, n)) && PutNode(c, i, n).elections == c.elections
  {
    hide VotesInv, LogsInv, ShapeInv, HostOk, LogOk;
    if c.hosts[i].n.role == Leader {
      LeaderKeepsBase(c, i, n);
    } else {
      HostLogOk(c, i);
      MeekKeepsBase(c, i, n);
    }
  }

  // ---- the driver's actions ---------------------------------------------------------

  lemma HostKeepsLogs(c: Cluster, i: NodeId, h: Host, net: set<Message>)
    requires LogsInv(c) && i in c.hosts
    requires var c' := PutHost(c, i, h).(net := net); NoNewClaims(c, c') && c'.elections == c.elections
    requires LogOk(c.elections, h.n.log) && Tame(c.hosts[i].n, h.n)
    ensures LogsInv(PutHost(c, i, h).(net := net))
  {
    hide EsLe, LogOk, HostLogsOk, AppendsOk, NoneStuck, TermLogsOk, NoNewClaims, Tame;
    EsLeRefl(c.elections);
    QuietKeepsLogs(c, PutHost(c, i, h).(net := net), i);
  }

  predicate SameCore(o: Node, n: Node) {
    n.role == o.role && n.term == o.term && n.votes == o.votes && n.log == o.log
  }

  lemma HostKeepsBase(c: Cluster, i: NodeId, h: Host, net: set<Message>)
    requires BaseInv(c) && i in c.hosts
    requires var c' := PutHost(c, i, h).(net := net); NoNewClaims(c, c') && ShapeInv(c')
    requires h.n.role == Follower || SameCore(c.hosts[i].n, h.n)
    requires h.n.log == c.hosts[i].n.log
    ensures BaseInv(PutHost(c, i, h).(net := net)) && PutHost(c, i, h).elections == c.elections
  {
    hide VotesInv, LogsInv, ShapeInv, HostOk, LogOk, NoNewClaims;
    HostKeepsVotes(c, i, h, net);
    HostLogOk(c, i);
    HostKeepsLogs(c, i, h, net);
  }

  lemma HandKeepsBase(c: Cluster, i: NodeId)
    requires BaseInv(c) && i in c.hosts && c.hosts[i].out == Outbox(None, [])
    ensures BaseInv(Act(c, Hand(i))) && Act(c, Hand(i)).elections == c.elections
  {
    hide VotesInv, LogsInv, HostOk, NoNewClaims, NetOk, Drained;
    var h := Drained(c.hosts[i]);
    assert HostOk(c.cfg, i, c.hosts[i]);
    ReadyKeepsHost(c.cfg, i, c.hosts[i]);
    hide ShapeInv;
    DrainedSaysNoMore(c, i);
    DrainedCore(c.hosts[i]);
    DriverKeepsShape(c, i, h);
    assert PutHost(c, i, h) == PutHost(c, i, h).(net := c.net);
    HostKeepsBase(c, i, h, c.net);
  }

  lemma DrainedCore(h: Host)
    ensures SameCore(h.n, Drained(h).n) && Drained(h).hs == h.hs
  {
  }

  lemma DriverKeepsShape(c: Cluster, i: NodeId, h: Host)
    requires ShapeInv(c) && i in c.hosts && HostOk(c.cfg, i, h) && h.hs == c.hosts[i].hs
    ensures ShapeInv(PutHost(c, i, h))
  {
    hide HostOk;
    PutHostKeepsShape(c, i, h, c.net);
    assert PutHost(c, i, h) == PutHost(c, i, h).(net := c.net);
  }

  lemma PersistKeepsBase(c: Cluster, i: NodeId)
    requires BaseInv(c) && i in c.hosts && c.hosts[i].out.hs.Some?
    ensures BaseInv(Act(c, Persist(i))) && Act(c, Persist(i)).elections == c.elections
  {
    hide VotesInv, LogsInv, HostOk, NoNewClaims, ShapeInv;
    var h := Saved(c.hosts[i]);
    SaveKeepsShape(c, i);
    SavedSaysNoMore(c, i);
    assert PutHost(c, i, h) == PutHost(c, i, h).(net := c.net);
    HostKeepsBase(c, i, h, c.net);
  }

  lemma EmitKeepsBase(c: Cluster, i: NodeId)
    requires BaseInv(c) && i in c.hosts && c.hosts[i].out.hs.None? && |c.hosts[i].out.msgs| > 0
    ensures BaseInv(Act(c, Emit(i))) && Act(c, Emit(i)).elections == c.elections
  {
    hide VotesInv, LogsInv, HostOk, NoNewClaims, ShapeInv;
    SendKeepsShape(c, i);
    SentSaysNoMore(c, i);
    HostKeepsBase(c, i, Sent(c.hosts[i]), c.net + {c.hosts[i].out.msgs[0]});
  }

  lemma DieKeepsBase(c: Cluster, i: NodeId, draw: nat)
    requires BaseInv(c) && i in c.hosts
    ensures BaseInv(Act(c, Die(i, draw))) && Act(c, Die(i, draw)).elections == c.elections
  {
    hide VotesInv, LogsInv, NoNewClaims, PipeOk;
    var o := c.hosts[i];
    assert HostOk(c.cfg, i, o);
    hide ShapeInv;
    var h := Reboot(c.cfg, i, o.hs, o.n.store, o.app.snap, draw);
    RebootKeepsShape(c, i, o.n.store, draw);
    RebootSaysNoMore(c, i, o.n.store, draw);
    assert PutHost(c, i, h) == PutHost(c, i, h).(net := c.net);
    HostKeepsBase(c, i, h, c.net);
  }

  lemma ServeKeepsHost(c: Cluster, i: NodeId, app: App)
    requires ShapeInv(c) && i in c.hosts
    ensures HostOk(c.cfg, i, c.hosts[i].(app := app))
  {
    hide NetOk;
    assert HostOk(c.cfg, i, c.hosts[i]);
  }

  lemma ServeKeepsBase(c: Cluster, i: NodeId, app: App)
    requires BaseInv(c) && i in c.hosts
    ensures BaseInv(Act(c, Serve(i, app))) && Act(c, Serve(i, app)).elections == c.elections
  {
    hide VotesInv, LogsInv, ShapeInv, HostOk;
    var h := c.hosts[i].(app := app);
    ServeKeepsHost(c, i, app);
    DriverKeepsShape(c, i, h);
    assert NoNewClaims(c, PutHost(c, i, h));
    assert PutHost(c, i, h) == PutHost(c, i, h).(net := c.net);
    HostKeepsBase(c, i, h, c.net);
  }

  lemma ActionKeepsBase(c: Cluster, a: Action)
    requires BaseInv(c) && Can(c, a, false)
    ensures BaseInv(Act(c, a)) && Grows(c.elections, Act(c, a).elections)
  {
    hide VotesInv, LogsInv, ShapeInv, HostOk, CanSay, CanSettle, CanAdopt, CanAdvance, Stands, Counts, Crowns, Extends, CanServe, EsLe, OwnGrowth, PutHost, QueueAll;
    GrowsRefl(c.elections);
    match a
    case Settle(i, n) => SettleKeepsBase(c, i, n);
    case Say(i, ms) => SayKeepsBase(c, i, ms);
    case Rise(i, n) => RiseKeepsBase(c, i, n);
    case Tally(i, n, m) => TallyKeepsBase(c, i, n, m);
    case Reign(i, n) => ReignKeepsBase(c, i, n);
    case Grow(i, n, x) => GrowKeepsBase(c, i, n, x);
    case Adopt(i, n, m, keep) => AdoptKeepsBase(c, i, n, m, keep);
    case Advance(i, n, m) => AdvanceKeepsBase(c, i, n, m);
    case Hand(i) => HandKeepsBase(c, i);
    case Persist(i) => PersistKeepsBase(c, i);
    case Emit(i) => EmitKeepsBase(c, i);
    case Die(i, draw) => DieKeepsBase(c, i, draw);
    case Serve(i, app) => ServeKeepsBase(c, i, app);
  }

  // ---- enabled actions ---------------------------------------------------------------------

  lemma CanActs(c: Cluster, a: Action, tight: bool)
    requires Can(c, a, tight)
    ensures a.i in c.hosts
  {
    hide HostOk, CanSettle, CanSay, CanAdopt, CanAdvance, CanServe;
  }

  lemma TightIsLoose(c: Cluster, a: Action)
    requires Can(c, a, true)
    ensures Can(c, a, false)
  {
    hide HostOk, CanSettle, CanAdopt, CanAdvance, CanServe, MaySay, FairGrant, AppendOk, Covered, TrueAck, Backed;
  }
}
