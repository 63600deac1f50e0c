/** Building concrete runs: each lemma is one operation of one node followed by a full
    flush of its driver, and says what the run needs to know afterwards. */
module Trace {
  import opened Types
  import opened RaftLog
  import opened NodeSpec
  import opened KvSpec
  import opened Cluster
  import opened Shape
  import opened Logs
  import opened Actions
  import opened Theorems
  import opened CommitRule

  /** Every election timeout is one tick. */
  const ONE_TICK: NodeId -> nat := i => 1

  function Members(ps: seq<NodeId>): set<NodeId> { set p | p in ps }

  /** No process dies. */
  predicate Calm(steps: seq<Step>) { forall k :: 0 <= k < |steps| ==> !steps[k].Crash? && !steps[k].CrashInAppend? }

  /** Some schedule from a fresh cluster leads to c; with tight, one without a crash
      that satisfies the hypothesis on Success replies. */
  ghost predicate Reachable(c: Cluster, tight: bool) {
    && ValidConfig(c.cfg)
    && exists steps :: c == Run(Init(c.cfg, ONE_TICK), steps) && (tight ==> TrueAcks(Init(c.cfg, ONE_TICK), steps) && Calm(steps))
  }

  lemma NextKeepsConfig(c: Cluster, s: Step)
    ensures Next(c, s).cfg == c.cfg
  {
    hide Tick, Receive, Propose, Record, Live, ApplyOne, Checkpoint, Reboot, TornStore;
  }

  lemma RunOn(init: Cluster, steps: seq<Step>, s: Step)
    ensures Run(init, steps + [s]) == Next(Run(init, steps), s)
    ensures TrueAcks(init, steps) && TrueAckAt(Run(init, steps), s) ==> TrueAcks(init, steps + [s])
  {
    hide Next, TrueAckAt;
    var more := steps + [s];
    assert more[..|steps|] == steps;
    if TrueAcks(init, steps) && TrueAckAt(Run(init, steps), s) {
      forall k | 0 <= k < |more| ensures TrueAckAt(Run(init, more[..k]), more[k]) {
        if k < |steps| { assert more[..k] == steps[..k]; }
      }
    }
  }

  lemma ReachNext(c: Cluster, tight: bool, s: Step)
    requires Reachable(c, tight) && (tight ==> TrueAckAt(c, s) && !s.Crash? && !s.CrashInAppend?)
    ensures Reachable(Next(c, s), tight) && Next(c, s).cfg == c.cfg
  {
    hide Next, Init, TrueAckAt, TrueAcks, Run;
    NextKeepsConfig(c, s);
    var steps := ScheduleOf(c, tight);
    RunOn(Init(c.cfg, ONE_TICK), steps, s);
    assert Calm(steps) && tight ==> Calm(steps + [s]);
  }

  lemma ScheduleOf(c: Cluster, tight: bool) returns (steps: seq<Step>)
    requires Reachable(c, tight)
    ensures ValidConfig(c.cfg) && c == Run(Init(c.cfg, ONE_TICK), steps)
    ensures tight ==> TrueAcks(Init(c.cfg, ONE_TICK), steps) && Calm(steps)
  {
    hide Run, Init, TrueAcks, Calm;
    steps :| c == Run(Init(c.cfg, ONE_TICK), steps) && (tight ==> TrueAcks(Init(c.cfg, ONE_TICK), steps) && Calm(steps));
  }

  lemma ReachedHasBase(c: Cluster, tight: bool)
    requires Reachable(c, tight)
    ensures BaseInv(c)
  {
    hide BaseInv, Run, Init, TrueAcks;
    var steps := ScheduleOf(c, tight);
    assert steps[..|steps|] == steps;
    RunKeepsBase(c.cfg, ONE_TICK, steps, |steps|);
  }

  // ---- one operation and the flush after it --------------------------------------------------

  const IDLE: App := App(0, [], 0, EMPTY, 0, Snapshot(0, EMPTY))

  /** Everything is sent, and nothing has been applied. */
  predicate Quiet(h: Host) { h.out == Outbox(None, []) && h.app == IDLE }

  function Flushed(n: Node): Node { n.(pending := [], pendingHS := None) }

  lemma {:induction false} SendAll(c: Cluster, tight: bool, i: NodeId) returns (d: Cluster)
    requires Reachable(c, tight) && i in c.hosts && c.hosts[i].out.hs == None
    ensures Reachable(d, tight) && d.cfg == c.cfg && d.hosts == c.hosts[i := c.hosts[i].(out := Outbox(None, []))]
    ensures c.net <= d.net && forall m :: m in c.hosts[i].out.msgs ==> m in d.net
    decreases |c.hosts[i].out.msgs|
  {
    hide Reachable, Record;
    var h := c.hosts[i];
    if |h.out.msgs| == 0 {
      d := c;
      assert h == h.(out := Outbox(None, []));
      assert c.hosts == c.hosts[i := h];
    } else {
      ReachNext(c, tight, Send(i));
      d := SendAll(Next(c, Send(i)), tight, i);
      assert h.out.msgs[0] in d.net;
      assert forall m :: m in h.out.msgs ==> m == h.out.msgs[0] || m in h.out.msgs[1..];
    }
  }

  /** d differs from c only in the nodes of s, and in messages sent. */
  ghost predicate Others(c: Cluster, d: Cluster, s: set<NodeId>) {
    && d.cfg == c.cfg && c.net <= d.net && d.hosts.Keys == c.hosts.Keys
    && forall j :: j in c.hosts && j !in s ==> d.hosts[j] == c.hosts[j]
  }

  /** Node i moves to n', and its driver flushes what n' queued. */
  lemma Move(c: Cluster, tight: bool, s: Step, n': Node) returns (d: Cluster)
    requires Reachable(c, tight) && s.i in c.hosts && Quiet(c.hosts[s.i]) && Next(c, s) == PutNode(c, s.i, n')
    requires tight ==> TrueAckAt(c, s) && !s.Crash? && !s.CrashInAppend?
    ensures Reachable(d, tight) && Others(c, d, {s.i}) && d.hosts[s.i].n == Flushed(n') && Quiet(d.hosts[s.i])
    ensures forall m :: m in Live(n'.pending, n'.epoch) ==> m in d.net
  {
    hide Reachable, Record, Live, Next;
    ReachNext(c, tight, s);
    d := Flushes(Next(c, s), tight, s.i);
    MovedOnly(c, d, s.i, n');
  }

  lemma MovedOnly(c: Cluster, d: Cluster, i: NodeId, n': Node)
    requires i in c.hosts && Quiet(c.hosts[i]) && d.cfg == c.cfg && PutNode(c, i, n').net <= d.net
    requires i in d.hosts && d.hosts == PutNode(c, i, n').hosts[i := d.hosts[i]]
    ensures Others(c, d, {i})
  {
    hide Record;
  }

  /** Ready, the save and every send. */
  lemma Flushes(c: Cluster, tight: bool, i: NodeId) returns (d: Cluster)
    requires Reachable(c, tight) && i in c.hosts && Quiet(c.hosts[i])
    ensures Reachable(d, tight) && d.cfg == c.cfg && c.net <= d.net && i in d.hosts && d.hosts == c.hosts[i := d.hosts[i]]
    ensures d.hosts[i].n == Flushed(c.hosts[i].n) && Quiet(d.hosts[i])
    ensures forall m :: m in Live(c.hosts[i].n.pending, c.hosts[i].n.epoch) ==> m in d.net
  {
    hide Reachable, Record, Live;
    ReachNext(c, tight, ReadyStep(i));
    var c1 := Next(c, ReadyStep(i));
    ReachNext(c1, tight, Save(i));
    var c2 := Next(c1, Save(i));
    d := SendAll(c2, tight, i);
  }

  lemma {:induction false} LiveWhenCurrent(ps: seq<Pending>, epoch: nat, m: Message)
    requires Pending(epoch, m) in ps
    ensures m in Live(ps, epoch)
  {
    if ps[0] != Pending(epoch, m) { LiveWhenCurrent(ps[1..], epoch, m); }
  }

  lemma QueuedIsLive(n: Node, ms: seq<Message>, m: Message)
    requires m in ms
    ensures m in Live(QueueAll(n, ms).pending, n.epoch)
  {
    hide Live;
    var k :| 0 <= k < |ms| && ms[k] == m;
    assert QueueAll(n, ms).pending[|n.pending| + k] == Pending(n.epoch, m);
    LiveWhenCurrent(QueueAll(n, ms).pending, n.epoch, m);
  }

  lemma QueuedFields(n: Node, ms: seq<Message>)
    ensures var q := QueueAll(n, ms);
            q.matchIndex == n.matchIndex && q.id == n.id && q.peers == n.peers && q.epoch == n.epoch && Flushed(q) == Flushed(n)
  {
  }

  // ---- what a run knows about a node -------------------------------------------------------------

  datatype View = View(term: nat, role: Role, log: Log, commit: nat)

  predicate NodeIs(n: Node, ps: seq<NodeId>, i: NodeId, v: View) {
    && n.id == i && n.peers == ps
    && n.term == v.term && n.role == v.role && n.log == n.store == v.log && n.commit == v.commit
    && n.timers.electionTimeout <= 1 && n.timers.heartbeatTimeout <= 1
    && n.nextIndex.Keys <= Members(ps) && n.matchIndex.Keys <= Members(ps)
  }

  predicate Is(c: Cluster, i: NodeId, v: View) {
    && i in c.hosts && i in c.cfg.peers && Quiet(c.hosts[i])
    && c.hosts[i].n.pending == [] && c.hosts[i].n.pendingHS == None && NodeIs(c.hosts[i].n, c.cfg.peers, i, v)
  }

  /** A leader that probes everyone at next and has no acknowledgement. */
  predicate Leading(n: Node, next: nat) {
    && n.nextIndex.Keys == n.matchIndex.Keys == Members(n.peers)
    && (forall p :: p in n.nextIndex ==> n.nextIndex[p] == next)
    && (forall p :: p in n.matchIndex && p != n.id ==> n.matchIndex[p] == 0)
  }

  /** i's requests for votes went out to everyone. */
  predicate Asked(c: Cluster, i: NodeId, v: View) {
    forall p :: p in c.cfg.peers && p != i ==> Request(i, v, p) in c.net
  }

  function Request(i: NodeId, v: View, p: NodeId): Message { RequestVote(v.term, i, p, |v.log|, LastTerm(v.log)) }

  /** i's latest AppendEntries went out to everyone. */
  predicate Sent(c: Cluster, i: NodeId)
    requires i in c.hosts
  {
    forall p :: p in c.cfg.peers && p != i ==> AppendFor(c.hosts[i].n, p) in c.net
  }

  lemma FlushedIs(n: Node, ps: seq<NodeId>, i: NodeId, v: View)
    requires NodeIs(n, ps, i, v)
    ensures NodeIs(Flushed(n), ps, i, v) && n.id == i && n.peers == ps && n.log == v.log
  {
  }

  lemma StaysIs(c: Cluster, d: Cluster, s: set<NodeId>, i: NodeId, v: View)
    requires Others(c, d, s) && Is(c, i, v) && i !in s
    ensures Is(d, i, v) && d.hosts[i] == c.hosts[i]
  {
    hide NodeIs, Quiet;
  }

  lemma OthersTrans(a: Cluster, b: Cluster, c: Cluster, s: set<NodeId>, t: set<NodeId>)
    requires Others(a, b, s) && Others(b, c, t)
    ensures Others(a, c, s + t)
  {
  }

  lemma ConfigStays(c: Cluster, d: Cluster, s: set<NodeId>)
    requires Others(c, d, s)
    ensures d.cfg == c.cfg && d.hosts.Keys == c.hosts.Keys
  {
  }

  lemma AskedOne(c: Cluster, d: Cluster, i: NodeId, v: View, p: NodeId)
    requires Others(c, d, {i}) && Asked(d, i, v) && p in c.cfg.peers && p != i
    ensures Request(i, v, p) in d.net
  {
  }

  lemma IsHost(c: Cluster, i: NodeId, v: View)
    requires Is(c, i, v)
    ensures i in c.hosts && i in c.cfg.peers && c.hosts[i].n.id == i && c.hosts[i].n.peers == c.cfg.peers
    ensures c.hosts[i].n.role == v.role && c.hosts[i].n.term == v.term && c.hosts[i].n.log == v.log && c.hosts[i].n.commit == v.commit
  {
  }

  lemma Start(cfg: Config, tight: bool) returns (c: Cluster)
    requires ValidConfig(cfg)
    ensures Reachable(c, tight) && c.cfg == cfg && forall i :: i in cfg.peers ==> Is(c, i, View(0, Follower, [], 0))
  {
    c := Init(cfg, ONE_TICK);
    assert c == Run(Init(cfg, ONE_TICK), []);
    assert TrueAcks(Init(cfg, ONE_TICK), []);
  }

  // ---- elections --------------------------------------------------------------------------------

  lemma {:induction false} AsksVote(n: Node, ps: seq<NodeId>, p: NodeId)
    requires p in ps && p != n.id
    ensures VoteRequest(n, p) in VoteFanout(n, ps)
  {
    if ps[0] != p { AsksVote(n, ps[1..], p); }
  }

  lemma {:induction false} SendsAppend(n: Node, ps: seq<NodeId>, p: NodeId)
    requires p in ps && p != n.id
    ensures AppendFor(n, p) in AppendFanout(n, ps)
  {
    if ps[0] != p { SendsAppend(n, ps[1..], p); }
  }

  lemma Stands(c: Cluster, tight: bool, i: NodeId, v: View) returns (d: Cluster)
    requires Reachable(c, tight) && Is(c, i, v) && v.role != Leader
    ensures Reachable(d, tight) && Others(c, d, {i}) && d.hosts[i].n.votes == {i}
    ensures Is(d, i, v.(term := v.term + 1, role := Candidate)) && Asked(d, i, v.(term := v.term + 1))
  {
    hide Reachable, LastTerm, Live, VoteFanout, QueueAll, Tick, NodeIs;
    assert |c.cfg.peers| >= 2 by { IsTwo(c, tight); }
    var s := StandingNode(c.hosts[i].n, c.cfg.peers, i, v);
    var v' := v.(term := v.term + 1, role := Candidate);
    FlushedIs(s, c.cfg.peers, i, v');
    d := Move(c, tight, TickStep(i, 1), QueueAll(s, VoteFanout(s, s.peers)));
    forall p | p in c.cfg.peers && p != i ensures Request(i, v.(term := v.term + 1), p) in d.net {
      AsksVote(s, s.peers, p);
      QueuedIsLive(s, VoteFanout(s, s.peers), VoteRequest(s, p));
      RequestOf(s, c.cfg.peers, i, v', p);
    }
  }

  lemma IsTwo(c: Cluster, tight: bool)
    requires Reachable(c, tight)
    ensures |c.cfg.peers| >= 2
  {
  }

  lemma RequestOf(s: Node, ps: seq<NodeId>, i: NodeId, v: View, p: NodeId)
    requires NodeIs(s, ps, i, v)
    ensures VoteRequest(s, p) == Request(i, v, p)
  {
  }

  /** The node right after it stood, before its requests are queued. */
  lemma StandingNode(n: Node, ps: seq<NodeId>, i: NodeId, v: View) returns (s: Node)
    requires NodeIs(n, ps, i, v) && v.role != Leader && |ps| >= 2
    ensures NodeIs(s, ps, i, v.(term := v.term + 1, role := Candidate)) && s.votes == {i}
    ensures var q := QueueAll(s, VoteFanout(s, s.peers)); Tick(n, 1) == q && Flushed(q) == Flushed(s) && q.epoch == s.epoch
  {
    hide VoteFanout, QueueAll, BecomeLeader;
    var t' := if v.role == Follower
              then n.(timers := n.timers.(electionElapsed := n.timers.electionElapsed + 1, lastHeartbeat := n.timers.lastHeartbeat + 1))
              else n.(timers := n.timers.(electionElapsed := n.timers.electionElapsed + 1));
    s := Stand(t', 1);
    LoneVote(s, VoteFanout(s, s.peers));
    QueuedFields(s, VoteFanout(s, s.peers));
  }

  lemma LoneVote(s: Node, ms: seq<Message>)
    requires s.votes == {s.id} && |s.peers| >= 2
    ensures LeadIfElected(QueueAll(s, ms)) == QueueAll(s, ms)
  {
  }

  lemma Grants(c: Cluster, tight: bool, i: NodeId, u: View, p: NodeId, v: View) returns (d: Cluster)
    requires Reachable(c, tight) && Is(c, p, v) && Request(i, u, p) in c.net
    requires u.term > v.term && UpToDate(LastTerm(u.log), |u.log|, LastTerm(v.log), |v.log|)
    ensures Reachable(d, tight) && Others(c, d, {p}) && Is(d, p, v.(term := u.term, role := Follower))
    ensures RequestVoteResponse(u.term, p, i, true) in d.net
  {
    hide Reachable, LastTerm, Live, UpToDate;
    var n, m := c.hosts[p].n, Request(i, u, p);
    var g := Grant(StepDown(n, m.term), m.from, 1);
    var r := RequestVoteResponse(u.term, p, i, true);
    assert Receive(n, m, 1) == Queue(g, r);
    QueuedIsLive(g, [r], r);
    d := Move(c, tight, Deliver(p, m, 1), Queue(g, r));
  }

  /** A vote that does not yet make a quorum. */
  lemma Tallies(c: Cluster, tight: bool, i: NodeId, v: View, p: NodeId) returns (d: Cluster)
    requires Reachable(c, tight) && Is(c, i, v) && v.role == Candidate && RequestVoteResponse(v.term, p, i, true) in c.net
    requires |c.hosts[i].n.votes + {p}| < |c.cfg.peers| / 2 + 1
    ensures Reachable(d, tight) && Others(c, d, {i}) && Is(d, i, v) && d.hosts[i].n.votes == c.hosts[i].n.votes + {p}
  {
    hide Reachable, Live, BecomeLeader;
    var n, m := c.hosts[i].n, RequestVoteResponse(v.term, p, i, true);
    assert StepDown(n, v.term) == n;
    d := Move(c, tight, Deliver(i, m, 1), n.(votes := n.votes + {p}));
  }

  lemma Wins(c: Cluster, tight: bool, i: NodeId, v: View, p: NodeId) returns (d: Cluster)
    requires Reachable(c, tight) && Is(c, i, v) && v.role == Candidate && RequestVoteResponse(v.term, p, i, true) in c.net
    requires |c.hosts[i].n.votes + {p}| >= |c.cfg.peers| / 2 + 1
    ensures Reachable(d, tight) && Others(c, d, {i}) && Is(d, i, v.(role := Leader)) && Sent(d, i)
    ensures Leading(d.hosts[i].n, |v.log| + 1)
  {
    hide Reachable, Live, AppendFanout, QueueAll, Enthrone, Receive, AppendFor, NodeIs, Leading;
    var n, m := c.hosts[i].n, RequestVoteResponse(v.term, p, i, true);
    var w := n.(votes := n.votes + {p});
    WinningVote(n, c.cfg.peers, i, v, p);
    var e := Enthrone(w);
    EnthroneIs(w, c.cfg.peers, i, v);
    FlushedIs(e, c.cfg.peers, i, v.(role := Leader));
    QueuedFields(e, AppendFanout(e, e.peers));
    d := Move(c, tight, Deliver(i, m, 1), SendAppends(e));
    FlushedLeads(e, |v.log| + 1);
    AllSent(e, d, i);
  }

  lemma WinningVote(n: Node, ps: seq<NodeId>, i: NodeId, v: View, p: NodeId)
    requires NodeIs(n, ps, i, v) && v.role == Candidate && |n.votes + {p}| >= |ps| / 2 + 1
    ensures var w := n.(votes := n.votes + {p});
            NodeIs(w, ps, i, v) && Receive(n, RequestVoteResponse(v.term, p, i, true), 1) == SendAppends(Enthrone(w))
  {
    hide AppendFanout, QueueAll, Enthrone;
    assert StepDown(n, v.term) == n;
  }

  lemma EnthroneIs(n: Node, ps: seq<NodeId>, i: NodeId, v: View)
    requires NodeIs(n, ps, i, v)
    ensures NodeIs(Enthrone(n), ps, i, v.(role := Leader)) && Leading(Enthrone(n), |v.log| + 1)
  {
    assert Enthrone(n).nextIndex.Keys == Members(ps) && Enthrone(n).matchIndex.Keys == Members(ps);
  }

  lemma FlushedLeads(n: Node, next: nat)
    requires Leading(n, next)
    ensures Leading(Flushed(n), next)
  {
  }

  /** What SendAppends queued is what the flushed node would send. */
  lemma AllSent(n: Node, d: Cluster, i: NodeId)
    requires i in d.hosts && d.hosts[i].n == Flushed(n) && n.id == i && n.peers == d.cfg.peers
    requires forall m :: m in Live(SendAppends(n).pending, n.epoch) ==> m in d.net
    ensures Sent(d, i)
  {
    hide Live, AppendFanout, QueueAll;
    forall p | p in d.cfg.peers && p != i ensures AppendFor(Flushed(n), p) in d.net {
      SendsAppend(n, n.peers, p);
      QueuedIsLive(n, AppendFanout(n, n.peers), AppendFor(n, p));
      assert AppendFor(Flushed(n), p) == AppendFor(n, p);
    }
  }

  // ---- replication --------------------------------------------------------------------------------

  /** With nothing acknowledged, the commit rule stays still. */
  lemma NothingToCommit(n: Node)
    requires |n.peers| >= 2 && Settled(n)
    ensures AdvanceCommit(n) == n
  {
    hide QueueHS, IsQuorumIndex;
    if Quorum(n) <= |n.matchIndex| {
      var q := QuorumIndex(n);
      if q > n.commit {
        SubsetSize(Reaching(n, n.commit + 1), {n.id});
        ReachingFalls(n, n.commit + 1, q);
        assert IsQuorumIndex(n, q);
        FewReach(n, q);
      }
    }
  }

  lemma FewReach(n: Node, q: nat)
    requires |n.peers| >= 2 && |Reaching(n, q)| <= 1
    ensures !IsQuorumIndex(n, q)
  {
  }

  function Proposed(n: Node, data: Types.Bytes): Node {
    var log := n.log + [Entry(n.term, |n.log| + 1, data)];
    n.(log := log, store := log, matchIndex := n.matchIndex[n.id := |log|])
  }

  lemma ProposedNode(n: Node, ps: seq<NodeId>, i: NodeId, v: View, data: Types.Bytes)
    requires NodeIs(n, ps, i, v) && v.role == Leader && i in ps
    ensures var e := Entry(v.term, |v.log| + 1, data);
            NodeIs(Proposed(n, data), ps, i, v.(log := v.log + [e]))
    ensures Propose(n, data, false) == AdvanceCommit(SendAppends(Proposed(n, data)))
  {
    hide AppendFanout, QueueAll, AdvanceCommit;
    assert ProposeLocked(n, data, false) == (Proposed(n, data), Some(|v.log| + 1));
  }

  lemma ProposedLeads(n: Node, next: nat, data: Types.Bytes)
    requires Leading(n, next) && n.id in n.peers && |n.peers| >= 2
    ensures Leading(Proposed(n, data), next) && AdvanceCommit(SendAppends(Proposed(n, data))) == SendAppends(Proposed(n, data))
  {
    hide AppendFanout, QueueAll, AdvanceCommit;
    var p := Proposed(n, data);
    QueuedFields(p, AppendFanout(p, p.peers));
    NothingToCommit(SendAppends(p));
  }

  lemma Proposes(c: Cluster, tight: bool, i: NodeId, v: View, next: nat, data: Types.Bytes) returns (d: Cluster)
    requires Reachable(c, tight) && Is(c, i, v) && v.role == Leader && Leading(c.hosts[i].n, next)
    ensures Reachable(d, tight) && Others(c, d, {i}) && Is(d, i, v.(log := v.log + [Entry(v.term, |v.log| + 1, data)]))
    ensures Leading(d.hosts[i].n, next) && Sent(d, i)
  {
    hide Reachable, Live, AppendFanout, QueueAll, Propose, NodeIs, Leading, AdvanceCommit, AppendFor, Proposed;
    var n := c.hosts[i].n;
    ProposedNode(n, c.cfg.peers, i, v, data);
    FlushedIs(n, c.cfg.peers, i, v);
    IsTwo(c, tight);
    ProposedLeads(n, next, data);
    var p := Proposed(n, data);
    FlushedIs(p, c.cfg.peers, i, v.(log := v.log + [Entry(v.term, |v.log| + 1, data)]));
    QueuedFields(p, AppendFanout(p, p.peers));
    d := Move(c, tight, ProposeStep(i, data, false), SendAppends(p));
    FlushedLeads(p, next);
    AllSent(p, d, i);
  }

  /** Over-acknowledgement: an empty request at the start of the log is acknowledged
      with the whole length of a log the leader may know nothing about. */
  lemma OverAcks(c: Cluster, l: NodeId, i: NodeId, v: View, t: nat) returns (d: Cluster)
    requires Reachable(c, false) && Is(c, i, v) && t >= v.term && AppendEntries(t, l, i, 0, 0, [], 0) in c.net
    ensures Reachable(d, false) && Others(c, d, {i})
    ensures Is(d, i, if t > v.term then v.(term := t, role := Follower) else v)
    ensures AppendEntriesResp(t, i, l, true, |v.log|) in d.net
  {
    hide Reachable, Live;
    var n, m := c.hosts[i].n, AppendEntries(t, l, i, 0, 0, [], 0);
    var h := HeardLeader(StepDown(n, t), l);
    var r := AppendEntriesResp(t, i, l, true, |v.log|);
    assert Receive(n, m, 1) == Queue(h, r);
    QueuedIsLive(h, [r], r);
    d := Move(c, false, Deliver(i, m, 1), Queue(h, r));
  }

  /** A leader hears an acknowledgement; what it then commits is left open. */
  lemma HearsAck(c: Cluster, tight: bool, i: NodeId, v: View, p: NodeId, k: nat) returns (d: Cluster)
    requires Reachable(c, tight) && Is(c, i, v) && v.role == Leader && p in c.cfg.peers
    requires AppendEntriesResp(v.term, p, i, true, k) in c.net
    ensures Reachable(d, tight) && Others(c, d, {i}) && Is(d, i, v.(commit := d.hosts[i].n.commit))
    ensures d.hosts[i].n.matchIndex == c.hosts[i].n.matchIndex[p := k] && d.hosts[i].n.nextIndex == c.hosts[i].n.nextIndex[p := k + 1]
    ensures d.hosts[i].n.commit == HandleAppendResp(c.hosts[i].n, AppendEntriesResp(v.term, p, i, true, k)).commit
  {
    hide Reachable, Live, IsQuorumIndex, TermAt;
    var n, m := c.hosts[i].n, AppendEntriesResp(v.term, p, i, true, k);
    assert StepDown(n, v.term) == n;
    AckHeard(n, c.cfg.peers, i, v, p, k);
    hide HandleAppendResp, NodeIs;
    d := Move(c, tight, Deliver(i, m, 1), HandleAppendResp(n, m));
  }

  lemma AckHeard(n: Node, ps: seq<NodeId>, i: NodeId, v: View, p: NodeId, k: nat)
    requires NodeIs(n, ps, i, v) && v.role == Leader && p in ps
    ensures var r := HandleAppendResp(n, AppendEntriesResp(v.term, p, i, true, k));
            && NodeIs(Flushed(r), ps, i, v.(commit := r.commit)) && r.matchIndex == n.matchIndex[p := k]
            && r.nextIndex == n.nextIndex[p := k + 1] && r.pending == n.pending
  {
    hide IsQuorumIndex, TermAt;
  }

  lemma Refuses(c: Cluster, l: NodeId, i: NodeId, v: View, t: nat, prev: nat, prevTerm: nat) returns (d: Cluster)
    requires Reachable(c, false) && Is(c, i, v) && t >= v.term && !Match(v.log, prev, prevTerm)
    requires AppendEntries(t, l, i, prev, prevTerm, [], 0) in c.net
    ensures Reachable(d, false) && Others(c, d, {i}) && Is(d, i, if t > v.term then v.(term := t, role := Follower) else v)
    ensures AppendEntriesResp(t, i, l, false, 0) in d.net
  {
    hide Reachable, Live, Match;
    var n, m := c.hosts[i].n, AppendEntries(t, l, i, prev, prevTerm, [], 0);
    var h := HeardLeader(StepDown(n, t), l);
    var r := AppendEntriesResp(t, i, l, false, 0);
    assert Receive(n, m, 1) == Queue(h, r);
    QueuedIsLive(h, [r], r);
    d := Move(c, false, Deliver(i, m, 1), Queue(h, r));
  }

  lemma BacksOff(c: Cluster, i: NodeId, v: View, p: NodeId) returns (d: Cluster)
    requires Reachable(c, false) && Is(c, i, v) && v.role == Leader && p in c.cfg.peers
    requires AppendEntriesResp(v.term, p, i, false, 0) in c.net && p in c.hosts[i].n.nextIndex && c.hosts[i].n.nextIndex[p] > 1
    ensures Reachable(d, false) && Others(c, d, {i}) && Is(d, i, v)
    ensures d.hosts[i].n.nextIndex == c.hosts[i].n.nextIndex[p := c.hosts[i].n.nextIndex[p] - 1]
    ensures d.hosts[i].n.matchIndex == c.hosts[i].n.matchIndex
  {
    hide Reachable, Live, AdvanceCommit;
    var n, m := c.hosts[i].n, AppendEntriesResp(v.term, p, i, false, 0);
    assert StepDown(n, v.term) == n;
    d := Move(c, false, Deliver(i, m, 1), HandleAppendResp(n, m));
  }

  /** The leader has nothing to commit: no peer has acknowledged anything, or all it
      has is committed. */
  predicate Settled(n: Node) {
    forall p :: p in n.matchIndex && p != n.id ==> n.matchIndex[p] == 0 || (n.matchIndex[p] <= n.commit && |n.log| <= n.commit)
  }

  lemma Beats(c: Cluster, tight: bool, i: NodeId, v: View) returns (d: Cluster)
    requires Reachable(c, tight) && Is(c, i, v) && v.role == Leader && Settled(c.hosts[i].n)
    ensures Reachable(d, tight) && Others(c, d, {i}) && Is(d, i, v) && Sent(d, i)
    ensures d.hosts[i].n.matchIndex == c.hosts[i].n.matchIndex && d.hosts[i].n.nextIndex == c.hosts[i].n.nextIndex
  {
    hide Reachable, Live, AppendFanout, QueueAll, AdvanceCommit, NodeIs, AppendFor;
    var n := c.hosts[i].n;
    var b := n.(timers := n.timers.(heartbeatElapsed := 0));
    IsTwo(c, tight);
    BeatNode(n, c.cfg.peers, i, v);
    FlushedIs(b, c.cfg.peers, i, v);
    QueuedFields(b, AppendFanout(b, b.peers));
    d := Move(c, tight, TickStep(i, 1), SendAppends(b));
    AllSent(b, d, i);
  }

  lemma BeatNode(n: Node, ps: seq<NodeId>, i: NodeId, v: View)
    requires NodeIs(n, ps, i, v) && v.role == Leader && |ps| >= 2 && Settled(n)
    ensures var b := n.(timers := n.timers.(heartbeatElapsed := 0)); Tick(n, 1) == SendAppends(b) && NodeIs(b, ps, i, v)
  {
    hide AppendFanout, QueueAll, AdvanceCommit;
    var b := n.(timers := n.timers.(heartbeatElapsed := 0));
    QueuedFields(b, AppendFanout(b, b.peers));
    NothingToCommit(SendAppends(b));
  }

  /** A request that continues the follower's log. */
  function Continuing(t: nat, l: NodeId, i: NodeId, log: Log, es: seq<Entry>): Message {
    AppendEntries(t, l, i, |log|, LastTerm(log), es, 0)
  }

  lemma ContinuesLog(log: Log, es: seq<Entry>)
    requires WellFormed(log + es) && |es| > 0
    ensures Match(log, |log|, LastTerm(log)) && FirstConflict(log, es) == |log| + 1 && EntriesFrom(es, |log| + 1) == es
    ensures Truncate(log, |log| + 1) == log && StoreAppend(log, es) == Some(log + es)
    ensures forall k: nat :: k >= |es| ==> Accept(log, es, k) == log + es
  {
    assert es[0] == (log + es)[|log|];
    forall k | 0 < k < |es| ensures es[k].index == es[k - 1].index + 1 {
      assert es[k] == (log + es)[|log| + k] && es[k - 1] == (log + es)[|log| + k - 1];
    }
    assert es[..|es|] == es;
  }

  lemma Extends(c: Cluster, tight: bool, l: NodeId, i: NodeId, v: View, es: seq<Entry>) returns (d: Cluster)
    requires Reachable(c, tight) && Is(c, i, v) && v.role == Follower && WellFormed(v.log + es) && |es| > 0
    requires Continuing(v.term, l, i, v.log, es) in c.net
    ensures Reachable(d, tight) && Others(c, d, {i}) && Is(d, i, v.(log := v.log + es))
    ensures AppendEntriesResp(v.term, i, l, true, |v.log + es|) in d.net
  {
    hide Reachable, Live, Receive, AckIsTrue, WellFormed, BaseInv;
    var n, m := c.hosts[i].n, Continuing(v.term, l, i, v.log, es);
    var h := HeardLeader(n, l).(log := v.log + es, store := v.log + es);
    var r := AppendEntriesResp(v.term, i, l, true, |v.log + es|);
    ReachedHasBase(c, tight);
    ExtensionIsTrue(c, n, i, v, l, es);
    ExtendingNode(n, c.cfg.peers, l, i, v, es);
    QueuedIsLive(h, [r], r);
    d := Move(c, tight, Deliver(i, m, 1), Queue(h, r));
  }

  lemma ExtendingNode(n: Node, ps: seq<NodeId>, l: NodeId, i: NodeId, v: View, es: seq<Entry>)
    requires NodeIs(n, ps, i, v) && v.role == Follower && WellFormed(v.log + es) && |es| > 0 && v.commit <= |v.log|
    ensures var m := Continuing(v.term, l, i, v.log, es);
            && !Panics(n, m)
            && Receive(n, m, 1) == Queue(HeardLeader(n, l).(log := v.log + es, store := v.log + es),
                                         AppendEntriesResp(v.term, i, l, true, |v.log + es|))
  {
    hide QueueAll, Match, FirstConflict, EntriesFrom, StoreAppend, Truncate, WellFormed, LastTerm;
    ContinuesLog(v.log, es);
    assert StepDown(n, v.term) == n;
  }

  lemma ExtensionIsTrue(c: Cluster, n: Node, i: NodeId, v: View, l: NodeId, es: seq<Entry>)
    requires BaseInv(c) && NodeIs(n, c.cfg.peers, i, v) && i in c.hosts && c.hosts[i].n == n
    requires WellFormed(v.log + es) && |es| > 0 && Continuing(v.term, l, i, v.log, es) in c.net
    ensures v.commit <= |v.log| && AckIsTrue(c.elections, n, Continuing(v.term, l, i, v.log, es))
  {
    hide BaseInv, ShapeInv, Votes.VotesInv, LogsInv, LogOk, TermLogsOk, WellFormed, Accept, AppendOk, LastTerm;
    var m := Continuing(v.term, l, i, v.log, es);
    ContinuesLog(v.log, es);
    Acks.StoreIsLog(c, i);
    Acks.BaseParts(c);
    HostLogOk(c, i);
    WireAppendOk(c, m);
    AcceptedEntriesArePresent(c.elections, v.log, m);
  }

  /** The node dies after the extension reached its stored log and before the hard
      state of the request's term was saved. */
  lemma DiesExtending(c: Cluster, l: NodeId, i: NodeId, v: View, t: nat, es: seq<Entry>) returns (d: Cluster)
    requires Reachable(c, false) && Is(c, i, v) && v.role == Follower && t > v.term && WellFormed(v.log + es) && |es| > 0
    requires Continuing(t, l, i, v.log, es) in c.net
    ensures Reachable(d, false) && Others(c, d, {i}) && Is(d, i, v.(log := v.log + es))
  {
    hide Reachable, Record, WellFormed, BaseInv;
    var m := Continuing(t, l, i, v.log, es);
    var s := CrashInAppend(i, m, |es|, 1);
    ReachNext(c, false, s);
    d := Next(c, s);
    ReachedHasBase(c, false);
    RestHasHardState(c, i);
    TornExtension(c.hosts[i].n, c.cfg.peers, i, v, l, t, es);
  }

  lemma RestHasHardState(c: Cluster, i: NodeId)
    requires BaseInv(c) && i in c.hosts && Quiet(c.hosts[i]) && c.hosts[i].n.pendingHS == None
    ensures c.hosts[i].hs == Current(c.hosts[i].n) && c.hosts[i].n.commit <= |c.hosts[i].n.log|
  {
    hide Votes.VotesInv, LogsInv, NetOk, PipeOk;
    assert HostOk(c.cfg, i, c.hosts[i]);
  }

  lemma TornExtension(n: Node, ps: seq<NodeId>, i: NodeId, v: View, l: NodeId, t: nat, es: seq<Entry>)
    requires NodeIs(n, ps, i, v) && t > v.term && WellFormed(v.log + es) && |es| > 0 && v.commit <= |v.log|
    ensures TornStore(n, Continuing(t, l, i, v.log, es), |es|) == v.log + es
  {
    hide Match, FirstConflict, EntriesFrom, Truncate, WellFormed, LastTerm, Accept;
    ContinuesLog(v.log, es);
  }
}
