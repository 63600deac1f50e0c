/** The apply pipeline: what a replica's state machine holds is the chosen log,
    applied from the start, in order and once, whatever crashes came between. */
module Applied {
  import opened Types
  import opened RaftLog
  import opened NodeSpec
  import opened KvSpec
  import opened Cluster
  import opened Shape
  import opened Votes
  import opened Logs
  import opened LogSteps
  import opened Actions
  import opened Acks
  import opened Commits

  /** The pipeline has taken the first a.enqueued entries of a chosen log, and the
      state machine the first a.applied of them. */
  ghost predicate Replays(c: Cluster, a: App, k: nat, u: nat) {
    && Chosen(c, k, u) && u in c.elections && a.applied <= a.enqueued <= k
    && a.enqueued <= |c.elections[u].log|
    && a.queue == c.elections[u].log[a.applied..a.enqueued]
    && a.kv == Fold(c.cfg.decode, c.elections[u].log[..a.applied])
  }

  ghost predicate AppOk(c: Cluster, a: App) {
    (a.enqueued == 0 && a.applied == 0 && a.queue == [] && a.kv == EMPTY) || exists k: nat, u: nat :: Replays(c, a, k, u)
  }

  ghost predicate Captures(c: Cluster, s: Snapshot, k: nat, u: nat) {
    && Chosen(c, k, u) && u in c.elections && s.index <= k && s.index <= |c.elections[u].log|
    && s.kv == Fold(c.cfg.decode, c.elections[u].log[..s.index])
  }

  ghost predicate SnapOk(c: Cluster, s: Snapshot) {
    s.index == 0 || exists k: nat, u: nat :: Captures(c, s, k, u)
  }

  ghost predicate AppsInv(c: Cluster) {
    forall i :: i in c.hosts ==> AppOk(c, c.hosts[i].app) && SnapOk(c, c.hosts[i].app.snap)
  }

  // ---- facts about replay --------------------------------------------------------------

  lemma FoldStep(decode: Decoder, log: Log, x: nat)
    requires x < |log|
    ensures Fold(decode, log[..x + 1]) == Apply(decode, Fold(decode, log[..x]), log[x])
  {
    assert log[..x + 1][..x] == log[..x];
  }

  /** lastIndex lags the applied index only across entries that changed nothing. */
  lemma {:induction false} FoldLastIndex(decode: Decoder, log: Log, x: nat)
    requires WellFormed(log) && x <= |log|
    ensures var kv := Fold(decode, log[..x]);
            kv.lastIndex <= x && Fold(decode, log[..kv.lastIndex]) == kv
  {
    if x > 0 {
      FoldStep(decode, log, x - 1);
      FoldLastIndex(decode, log, x - 1);
    }
  }

  lemma ChosenLogsAgree(c: Cluster, k: nat, u: nat, l: nat, w: nat)
    requires BaseInv(c) && AcksInv(c) && Chosen(c, k, u) && Chosen(c, l, w)
    ensures SamePrefix(c.elections[u].log, c.elections[w].log, if k <= l then k else l)
  {
    hide BaseInv, AcksInv, Chosen;
    ChosenIsReal(c, k, u);
    ChosenIsReal(c, l, w);
    if u <= w {
      ChosenReachesLeader(c, k, u, w);
    } else {
      ChosenReachesLeader(c, l, w, u);
    }
  }

  lemma SamePrefixSlices(a: Log, b: Log, x: nat, y: nat)
    requires SamePrefix(a, b, y) && x <= y
    ensures a[x..y] == b[x..y] && a[..x] == b[..x]
  {
  }

  lemma FoldEmpty(decode: Decoder)
    ensures Fold(decode, []) == EMPTY
  {
  }

  // ---- growth ----------------------------------------------------------------------------

  lemma AppStays(c: Cluster, c': Cluster, a: App)
    requires Later(c, c') && AppOk(c, a)
    ensures AppOk(c', a)
  {
    hide Later, Chosen, Fold;
    if exists k: nat, u: nat :: Replays(c, a, k, u) {
      var k: nat, u: nat :| Replays(c, a, k, u);
      ChosenStays(c, c', k, u);
      SamePrefixSlices(c.elections[u].log, c'.elections[u].log, a.applied, a.enqueued);
      LaterCfg(c, c');
      assert Replays(c', a, k, u);
    }
  }

  lemma SnapStays(c: Cluster, c': Cluster, s: Snapshot)
    requires Later(c, c') && SnapOk(c, s)
    ensures SnapOk(c', s)
  {
    hide Later, Chosen, Fold;
    if s.index > 0 {
      var k: nat, u: nat :| Captures(c, s, k, u);
      ChosenStays(c, c', k, u);
      SamePrefixSlices(c.elections[u].log, c'.elections[u].log, s.index, s.index);
      LaterCfg(c, c');
      assert Captures(c', s, k, u);
    }
  }

  lemma LaterCfg(c: Cluster, c': Cluster)
    requires Later(c, c')
    ensures c'.cfg == c.cfg
  {
  }

  // ---- the pipeline's own moves -----------------------------------------------------------

  lemma EnqueueKeepsApp(c: Cluster, i: NodeId)
    requires BaseInv(c) && AcksInv(c) && CommitsInv(c) && i in c.hosts && CanDrain(c.hosts[i]) && AppOk(c, c.hosts[i].app)
    ensures AppOk(c, Enqueue(c.hosts[i]))
  {
    hide BaseInv, AcksInv, CommitsInv, Chosen, Fold;
    var h := c.hosts[i];
    var a, b := h.app, Enqueue(h);
    StoreIsLog(c, i);
    CommitsAt(c, i);
    var l: nat, w: nat :| Covers(c, l, w, h.n.commit, h.n.term, h.n.log);
    var M := c.elections[w].log;
    ChosenIsReal(c, l, w);
    assert h.n.store[a.enqueued] == M[a.enqueued];
    if exists k: nat, u: nat :: Replays(c, a, k, u) {
      var k: nat, u: nat :| Replays(c, a, k, u);
      ChosenLogsAgree(c, k, u, l, w);
      assert SamePrefix(c.elections[u].log, M, a.enqueued);
      SamePrefixSlices(c.elections[u].log, M, a.applied, a.enqueued);
    } else {
      assert M[..0] == [];
      FoldEmpty(c.cfg.decode);
    }
    assert a.queue == M[a.applied..a.enqueued];
    assert b.queue == M[b.applied..b.enqueued];
    assert Replays(c, b, l, w);
  }

  lemma ApplyKeepsApp(c: Cluster, a: App, k: nat, u: nat)
    requires BaseInv(c) && |a.queue| > 0 && Replays(c, a, k, u)
    ensures var b := ApplyOne(c.cfg, a).(snap := a.snap, snapIndex := a.snapIndex);
            Replays(c, b, k, u) && b.applied == a.applied + 1
  {
    hide BaseInv, Chosen, Fold, Apply;
    var M := c.elections[u].log;
    ChosenIsReal(c, k, u);
    assert WellFormed(M) by { BaseTermLog(c, u); }
    assert a.queue[0] == M[a.applied];
    FoldStep(c.cfg.decode, M, a.applied);
    assert a.queue[1..] == M[a.applied + 1..a.enqueued];
  }

  lemma BaseTermLog(c: Cluster, u: nat)
    requires BaseInv(c) && u in c.elections
    ensures WellFormed(c.elections[u].log)
  {
    hide ShapeInv, VotesInv, LogsInv;
    TermLogsAt(c, u);
  }

  lemma CheckpointKeepsApp(c: Cluster, a: App)
    requires BaseInv(c) && AppOk(c, a) && SnapOk(c, a.snap)
    ensures AppOk(c, Checkpoint(a)) && SnapOk(c, Checkpoint(a).snap)
  {
    hide BaseInv, Chosen, Fold;
    var b := Checkpoint(a);
    if a.kv.lastIndex > 0 {
      var k: nat, u: nat :| Replays(c, a, k, u);
      var M := c.elections[u].log;
      BaseTermLog(c, u) by { ChosenIsReal(c, k, u); }
      FoldLastIndex(c.cfg.decode, M, a.applied);
      assert Replays(c, b, k, u) && Captures(c, b.snap, k, u);
    }
  }

  lemma ApplyOneKeepsApp(c: Cluster, a: App)
    requires BaseInv(c) && |a.queue| > 0 && AppOk(c, a) && SnapOk(c, a.snap)
    ensures AppOk(c, ApplyOne(c.cfg, a)) && SnapOk(c, ApplyOne(c.cfg, a).snap)
  {
    hide BaseInv, Chosen, Fold, SnapOk, Apply;
    var k: nat, u: nat :| Replays(c, a, k, u);
    ApplyKeepsApp(c, a, k, u);
    var b := ApplyOne(c.cfg, a).(snap := a.snap, snapIndex := a.snapIndex);
    assert Replays(c, b, k, u);
    CheckpointKeepsApp(c, b);
    assert ApplyOne(c.cfg, a) == b || ApplyOne(c.cfg, a) == Checkpoint(b);
  }

  lemma RebootKeepsApp(c: Cluster, i: NodeId, hs: HardState, store: Log, s: Snapshot, draw: nat)
    requires SnapOk(c, s)
    ensures var a := Reboot(c.cfg, i, hs, store, s, draw).app; AppOk(c, a) && a.snap == s
  {
    hide Chosen, Fold;
    var a := Reboot(c.cfg, i, hs, store, s, draw).app;
    if s.index > 0 {
      var k: nat, u: nat :| Captures(c, s, k, u);
      assert c.elections[u].log[s.index..s.index] == [];
      assert Replays(c, a, k, u);
    }
  }

  // ---- every action -------------------------------------------------------------------------

  lemma AppsStay(c: Cluster, c': Cluster)
    requires AppsInv(c) && Later(c, c')
    requires forall i :: i in c.hosts ==> i in c'.hosts && c'.hosts[i].app == c.hosts[i].app
    ensures AppsInv(c')
  {
    hide AppOk, SnapOk, Later;
    LaterParts(c, c');
    forall i | i in c'.hosts ensures AppOk(c', c'.hosts[i].app) && SnapOk(c', c'.hosts[i].app.snap) {
      AppStays(c, c', c.hosts[i].app);
      SnapStays(c, c', c.hosts[i].app.snap);
    }
  }

  lemma AppAt(c: Cluster, i: NodeId)
    requires AppsInv(c) && i in c.hosts
    ensures AppOk(c, c.hosts[i].app) && SnapOk(c, c.hosts[i].app.snap)
  {
    hide AppOk, SnapOk;
  }

  lemma OneAppMoves(c: Cluster, i: NodeId, h: Host)
    requires AppsInv(c) && i in c.hosts && Later(c, PutHost(c, i, h))
    requires AppOk(c, h.app) && SnapOk(c, h.app.snap)
    ensures AppsInv(PutHost(c, i, h))
  {
    hide AppOk, SnapOk, Later;
    var c' := PutHost(c, i, h);
    forall j | j in c'.hosts ensures AppOk(c', c'.hosts[j].app) && SnapOk(c', c'.hosts[j].app.snap) {
      AppAt(c, j);
      AppStays(c, c', c'.hosts[j].app);
      SnapStays(c, c', c'.hosts[j].app.snap);
    }
  }

  lemma ServeKeepsApps(c: Cluster, i: NodeId, app: App)
    requires BaseInv(c) && AcksInv(c) && CommitsInv(c) && AppsInv(c) && i in c.hosts && CanServe(c, c.hosts[i], app)
    ensures AppsInv(Act(c, Serve(i, app)))
  {
    hide BaseInv, AcksInv, CommitsInv, AppsInv, AppOk, SnapOk, CanDrain, Later, Checkpoint, ApplyOne;
    var h := c.hosts[i];
    AppAt(c, i);
    if CanDrain(h) && app == Enqueue(h) {
      EnqueueKeepsApp(c, i);
    } else if |h.app.queue| > 0 && app == ApplyOne(c.cfg, h.app) {
      ApplyOneKeepsApp(c, h.app);
    } else {
      CheckpointKeepsApp(c, h.app);
    }
    ServeIsLater(c, i, app);
    OneAppMoves(c, i, h.(app := app));
  }

  lemma ServeIsLater(c: Cluster, i: NodeId, app: App)
    requires BaseInv(c) && i in c.hosts
    ensures Later(c, PutHost(c, i, c.hosts[i].(app := app)))
  {
    hide ShapeInv, VotesInv, LogsInv, EsLe;
    ServeKeepsBase(c, i, app);
    EsLeRefl(c.elections);
  }

  lemma DieKeepsApps(c: Cluster, i: NodeId, draw: nat)
    requires BaseInv(c) && AppsInv(c) && i in c.hosts
    ensures AppsInv(Act(c, Die(i, draw)))
  {
    hide ShapeInv, VotesInv, LogsInv, EsLe, AppsInv, AppOk, SnapOk;
    var o := c.hosts[i];
    AppAt(c, i);
    DieKeepsBase(c, i, draw);
    EsLeRefl(c.elections);
    RebootKeepsApp(c, i, o.hs, o.n.store, o.app.snap, draw);
    OneAppMoves(c, i, Reboot(c.cfg, i, o.hs, o.n.store, o.app.snap, draw));
  }

  lemma ActIsLater(c: Cluster, a: Action)
    requires BaseInv(c) && Can(c, a, false)
    ensures Later(c, Act(c, a))
  {
    hide BaseInv, Can, EsLe, Record, QueueAll, Drained;
    CanActs(c, a, false);
    ActionKeepsBase(c, a);
    ActKeepsFrame(c, a);
  }

  lemma ActKeepsFrame(c: Cluster, a: Action)
    requires a.i in c.hosts
    ensures var c' := Act(c, a); c'.cfg == c.cfg && c'.hosts.Keys == c.hosts.Keys && c.net <= c'.net
    ensures !a.Serve? && !a.Die? ==> forall i :: i in c.hosts ==> i in Act(c, a).hosts && Act(c, a).hosts[i].app == c.hosts[i].app
  {
    hide Record, QueueAll, Reboot;
  }

  lemma ActionKeepsApps(c: Cluster, a: Action)
    requires BaseInv(c) && AcksInv(c) && CommitsInv(c) && AppsInv(c) && Can(c, a, true)
    ensures AppsInv(Act(c, a))
  {
    hide BaseInv, AcksInv, CommitsInv, AppsInv, HostOk, CanSettle, CanAdopt, CanAdvance, Act, Later, CanSay;
    match a
    case Serve(i, app) => ServeKeepsApps(c, i, app);
    case Die(i, draw) => DieKeepsApps(c, i, draw);
    case _ =>
      TightIsLoose(c, a);
      ActIsLater(c, a);
      ActKeepsFrame(c, a);
      AppsStay(c, Act(c, a));
  }
}
