/** Commitment and application over whole runs, under the hypothesis that every
    Success reply is true: the log it acknowledges is a prefix of its term's log. */
module Safety {
  import opened Types
  import opened RaftLog
  import opened KvSpec
  import opened Cluster
  import opened Shape
  import opened Votes
  import opened Logs
  import opened Actions
  import opened Acks
  import opened Commits
  import opened Applied
  import opened Theorems

  // ---- one history explains the run ----------------------------------------------

  /** The log H accounts for everything node state h has committed, queued, applied
      and checkpointed. */
  predicate HostExplained(H: Log, decode: Decoder, h: Host) {
    && SamePrefix(h.n.log, H, h.n.commit)
    && h.app.applied <= h.app.enqueued <= |H|
    && h.app.queue == H[h.app.applied..h.app.enqueued]
    && h.app.kv == Fold(decode, H[..h.app.applied])
    && h.app.snap.index <= |H|
    && (h.app.snap.index > 0 ==> h.app.snap.kv == Fold(decode, H[..h.app.snap.index]))
  }

  predicate Explains(H: Log, c: Cluster) {
    forall i :: i in c.hosts ==> HostExplained(H, c.cfg.decode, c.hosts[i])
  }

  lemma LogsAreBounded(es: Elections) returns (bound: nat)
    ensures forall t :: t in es ==> |es[t].log| <= bound
  {
    bound := 0;
    var rest := es.Keys;
    while rest != {}
      invariant rest <= es.Keys
      invariant forall t :: t in es && t !in rest ==> |es[t].log| <= bound
      decreases |rest|
    {
      var t :| t in rest;
      rest := rest - {t};
      bound := if |es[t].log| > bound then |es[t].log| else bound;
    }
  }

  ghost predicate SomeChosen(c: Cluster, k: nat) { exists u: nat :: Chosen(c, k, u) }

  lemma ChosenIsSome(c: Cluster, k: nat, u: nat)
    requires Chosen(c, k, u)
    ensures SomeChosen(c, k) && k > 0
  {
  }

  /** The chosen entry of the highest index, if any entry was chosen. */
  lemma LastChosen(c: Cluster) returns (k: nat)
    ensures k == 0 || SomeChosen(c, k)
    ensures forall l: nat :: l > k ==> !SomeChosen(c, l)
  {
    hide Chosen;
    k := LogsAreBounded(c.elections);
    forall l: nat | l > k ensures !SomeChosen(c, l) {
      if SomeChosen(c, l) {
        var u: nat :| Chosen(c, l, u);
        ChosenIsReal(c, l, u);
        assert false;
      }
    }
    while k > 0 && !SomeChosen(c, k)
      invariant forall l: nat :: l > k ==> !SomeChosen(c, l)
    {
      k := k - 1;
    }
  }

  /** The log of everything chosen so far. */
  ghost predicate IsHistory(c: Cluster, H: Log) {
    WellFormed(H) && forall k: nat, u: nat :: Chosen(c, k, u) ==> u in c.elections && SamePrefix(c.elections[u].log, H, k)
  }

  lemma HistoryExists(c: Cluster) returns (H: Log)
    requires BaseInv(c) && AcksInv(c)
    ensures IsHistory(c, H)
  {
    hide BaseInv, AcksInv, Chosen, WellFormed;
    var l := LastChosen(c);
    H := [];
    if l > 0 {
      var w: nat :| Chosen(c, l, w);
      ChosenIsReal(c, l, w);
      H := c.elections[w].log[..l];
      forall k: nat, u: nat | Chosen(c, k, u) ensures u in c.elections && SamePrefix(c.elections[u].log, H, k) {
        assert SomeChosen(c, k);
        ChosenIsReal(c, k, u);
        ChosenLogsAgree(c, k, u, l, w);
      }
      TermLogPrefixIsWellFormed(c, w, l);
    } else {
      EmptyIsWellFormed();
      forall k: nat, u: nat | Chosen(c, k, u) ensures false { ChosenIsSome(c, k, u); }
    }
  }

  lemma EmptyIsWellFormed()
    ensures WellFormed([])
  {
  }

  lemma TermLogPrefixIsWellFormed(c: Cluster, t: nat, k: nat)
    requires BaseInv(c) && t in c.elections && k <= |c.elections[t].log|
    ensures WellFormed(c.elections[t].log[..k])
  {
    hide ShapeInv, VotesInv;
    assert TermLogOk(c.elections, t);
  }

  lemma CommitIsHistory(c: Cluster, H: Log, x: nat, t: nat, log: Log)
    requires IsHistory(c, H) && CommitOk(c, x, t, log)
    ensures SamePrefix(log, H, x)
  {
    hide Chosen, WellFormed;
    if x > 0 { var k: nat, u: nat :| Covers(c, k, u, x, t, log); }
  }

  lemma AppIsHistory(c: Cluster, H: Log, a: App)
    requires IsHistory(c, H) && AppOk(c, a)
    ensures a.applied <= a.enqueued <= |H| && a.queue == H[a.applied..a.enqueued] && a.kv == Fold(c.cfg.decode, H[..a.applied])
  {
    hide Chosen, WellFormed, Fold;
    if exists k: nat, u: nat :: Replays(c, a, k, u) {
      var k: nat, u: nat :| Replays(c, a, k, u);
      SamePrefixSlices(c.elections[u].log, H, a.applied, a.enqueued);
    } else {
      FoldEmpty(c.cfg.decode);
    }
  }

  lemma SnapIsHistory(c: Cluster, H: Log, s: Snapshot)
    requires IsHistory(c, H) && SnapOk(c, s)
    ensures s.index <= |H| && (s.index > 0 ==> s.kv == Fold(c.cfg.decode, H[..s.index]))
  {
    hide Chosen, WellFormed, Fold;
    if s.index > 0 {
      var k: nat, u: nat :| Captures(c, s, k, u);
      SamePrefixSlices(c.elections[u].log, H, s.index, s.index);
    }
  }

  lemma HistoryExplains(c: Cluster, d: Cluster, H: Log)
    requires SafeInv(c) && Later(c, d) && IsHistory(d, H)
    ensures Explains(H, c)
  {
    hide AcksInv, CommitsInv, AppOk, SnapOk, CommitOk, IsHistory, Fold;
    forall i | i in c.hosts ensures HostExplained(H, c.cfg.decode, c.hosts[i]) {
      var h := c.hosts[i];
      CommitsAt(c, i);
      CommitStays(c, d, h.n.commit, h.n.term, h.n.log, h.n.term, h.n.log) by { LogReaches(c, i); }
      CommitIsHistory(d, H, h.n.commit, h.n.term, h.n.log);
      AppStays(c, d, h.app);
      AppIsHistory(d, H, h.app);
      SnapStays(c, d, h.app.snap);
      SnapIsHistory(d, H, h.app.snap);
    }
  }

  lemma LogReaches(c: Cluster, i: NodeId)
    requires CommitsInv(c) && i in c.hosts
    ensures SamePrefix(c.hosts[i].n.log, c.hosts[i].n.log, c.hosts[i].n.commit)
  {
    hide CommitsInv, Chosen;
    CommitsAt(c, i);
  }

  lemma RunIsSafe(cfg: Config, draws: NodeId -> nat, steps: seq<Step>, a: nat, b: nat)
    requires ValidConfig(cfg) && a <= b <= |steps| && TrueAcks(Init(cfg, draws), steps)
    ensures var c, d := At(cfg, draws, steps, a), At(cfg, draws, steps, b);
            BaseInv(c) && SafeInv(c) && BaseInv(d) && SafeInv(d) && After(c, d) && c.hosts.Keys == d.hosts.Keys == Peers(cfg) && c.cfg == cfg
  {
    hide BaseInv, SafeInv, At, After, TrueAcks;
    Moments(cfg, draws, steps, a, b);
    InitHosts(cfg, draws, steps, a);
    RunKeepsSafe(cfg, draws, steps, a);
    RunKeepsSafe(cfg, draws, steps, b);
  }

  /** State Machine Safety, in its strongest form: one log explains what every node
      has committed, applied and checkpointed at every moment of the run. */
  lemma OneHistory(cfg: Config, draws: NodeId -> nat, steps: seq<Step>)
    requires ValidConfig(cfg) && TrueAcks(Init(cfg, draws), steps)
    ensures exists H: Log :: WellFormed(H) && forall a: nat :: a <= |steps| ==> Explains(H, At(cfg, draws, steps, a))
  {
    hide BaseInv, AcksInv, CommitsInv, AppsInv, At, TrueAcks, WellFormed, Chosen, Explains, Later;
    var end := |steps|;
    RunIsSafe(cfg, draws, steps, end, end);
    var d := At(cfg, draws, steps, end);
    var H := HistoryExists(d);
    forall a: nat | a <= |steps| ensures Explains(H, At(cfg, draws, steps, a)) {
      RunIsSafe(cfg, draws, steps, a, end);
      HistoryExplains(At(cfg, draws, steps, a), d, H);
    }
  }

  lemma ExplainedTogether(H: Log, c: Cluster, d: Cluster, i: NodeId, j: NodeId, x: nat)
    requires Explains(H, c) && Explains(H, d) && c.cfg.decode == d.cfg.decode && i in c.hosts && j in d.hosts
    ensures x <= c.hosts[i].n.commit && x <= d.hosts[j].n.commit ==> SamePrefix(c.hosts[i].n.log, d.hosts[j].n.log, x)
    ensures c.hosts[i].app.applied == d.hosts[j].app.applied ==> c.hosts[i].app.kv == d.hosts[j].app.kv
  {
    hide Fold;
    assert HostExplained(H, c.cfg.decode, c.hosts[i]) && HostExplained(H, d.cfg.decode, d.hosts[j]);
  }

  lemma BothExplained(cfg: Config, draws: NodeId -> nat, steps: seq<Step>, a: nat, b: nat) returns (H: Log)
    requires ValidConfig(cfg) && TrueAcks(Init(cfg, draws), steps) && a <= |steps| && b <= |steps|
    ensures var c, d := At(cfg, draws, steps, a), At(cfg, draws, steps, b);
            Explains(H, c) && Explains(H, d) && c.cfg == d.cfg && c.hosts.Keys == d.hosts.Keys == Peers(cfg)
  {
    hide At, TrueAcks, WellFormed, Explains;
    OneHistory(cfg, draws, steps);
    InitHosts(cfg, draws, steps, a);
    InitHosts(cfg, draws, steps, b);
    H :| WellFormed(H) && forall a: nat :: a <= |steps| ==> Explains(H, At(cfg, draws, steps, a));
  }

  /** No two nodes ever commit different entries at one index. */
  lemma StateMachineSafety(cfg: Config, draws: NodeId -> nat, steps: seq<Step>, a: nat, b: nat, i: NodeId, j: NodeId, x: nat)
    requires ValidConfig(cfg) && TrueAcks(Init(cfg, draws), steps)
    requires a <= |steps| && b <= |steps| && i in cfg.peers && j in cfg.peers
    ensures var c, d := At(cfg, draws, steps, a), At(cfg, draws, steps, b);
            && i in c.hosts && j in d.hosts
            && (x <= c.hosts[i].n.commit && x <= d.hosts[j].n.commit ==> SamePrefix(c.hosts[i].n.log, d.hosts[j].n.log, x))
  {
    hide At, TrueAcks, Explains, SamePrefix;
    var H := BothExplained(cfg, draws, steps, a, b);
    ExplainedTogether(H, At(cfg, draws, steps, a), At(cfg, draws, steps, b), i, j, x);
  }

  /** Replicas that have applied equally many entries hold the same map. */
  lemma ReplicasConverge(cfg: Config, draws: NodeId -> nat, steps: seq<Step>, a: nat, b: nat, i: NodeId, j: NodeId)
    requires ValidConfig(cfg) && TrueAcks(Init(cfg, draws), steps)
    requires a <= |steps| && b <= |steps| && i in cfg.peers && j in cfg.peers
    ensures var c, d := At(cfg, draws, steps, a), At(cfg, draws, steps, b);
            && i in c.hosts && j in d.hosts
            && (c.hosts[i].app.applied == d.hosts[j].app.applied ==> c.hosts[i].app.kv == d.hosts[j].app.kv)
  {
    hide At, TrueAcks, Explains, SamePrefix;
    var H := BothExplained(cfg, draws, steps, a, b);
    ExplainedTogether(H, At(cfg, draws, steps, a), At(cfg, draws, steps, b), i, j, 0);
  }

  lemma QueueIsNext(H: Log, decode: Decoder, h: Host)
    requires WellFormed(H) && HostExplained(H, decode, h)
    ensures h.app.enqueued == h.app.applied + |h.app.queue|
    ensures forall k :: 0 <= k < |h.app.queue| ==> h.app.queue[k].index == h.app.applied + 1 + k
  {
    hide Fold;
  }

  /** Apply is in order and exactly once: what waits in the apply channel is the
      next index, the one after it, and so on, with no gap and no repetition. */
  lemma AppliesInOrder(cfg: Config, draws: NodeId -> nat, steps: seq<Step>, i: NodeId)
    requires ValidConfig(cfg) && TrueAcks(Init(cfg, draws), steps) && i in cfg.peers
    ensures var c := Run(Init(cfg, draws), steps);
            && i in c.hosts
            && var a := c.hosts[i].app;
            && a.enqueued == a.applied + |a.queue|
            && (forall k :: 0 <= k < |a.queue| ==> a.queue[k].index == a.applied + 1 + k)
            && (|a.queue| > 0 ==> ApplyOne(c.cfg, a).applied == a.applied + 1)
  {
    hide At, Run, TrueAcks, WellFormed, HostExplained, Checkpoint;
    var c := Run(Init(cfg, draws), steps);
    assert steps[..|steps|] == steps;
    assert At(cfg, draws, steps, |steps|) == c by { AtEnd(cfg, draws, steps); }
    OneHistory(cfg, draws, steps);
    InitHosts(cfg, draws, steps, |steps|);
    var H: Log :| WellFormed(H) && forall a: nat :: a <= |steps| ==> Explains(H, At(cfg, draws, steps, a));
    assert Explains(H, At(cfg, draws, steps, |steps|));
    QueueIsNext(H, c.cfg.decode, c.hosts[i]);
    if |c.hosts[i].app.queue| > 0 { AppliesOne(c.cfg, c.hosts[i].app); }
  }

  lemma AtEnd(cfg: Config, draws: NodeId -> nat, steps: seq<Step>)
    ensures At(cfg, draws, steps, |steps|) == Run(Init(cfg, draws), steps)
  {
    hide Run;
    assert steps[..|steps|] == steps;
  }

  lemma AppliesOne(cfg: Config, a: App)
    requires |a.queue| > 0
    ensures ApplyOne(cfg, a).applied == a.queue[0].index
  {
  }

  // ---- Leader Completeness ----------------------------------------------------------

  /** c and d are two moments of a run and e a third that is not before either. */
  lemma LeaderIsComplete(c: Cluster, d: Cluster, e: Cluster, i: NodeId, j: NodeId)
    requires SafeInv(c) && BaseInv(d) && BaseInv(e) && AcksInv(e) && After(c, e) && After(d, e)
    requires i in c.hosts && j in d.hosts && d.hosts[j].n.role == Leader && d.hosts[j].n.term > c.hosts[i].n.term
    ensures SamePrefix(c.hosts[i].n.log, d.hosts[j].n.log, c.hosts[i].n.commit)
  {
    hide BaseInv, AcksInv, CommitsInv, AppsInv, Chosen;
    var n, U := c.hosts[i].n, d.hosts[j].n.term;
    var x := n.commit;
    CommitsAt(c, i);
    CommitStays(c, e, x, n.term, n.log, n.term, n.log) by { LogReaches(c, i); }
    LeaderIsRecorded(d, j);
    if x > 0 {
      var k: nat, u: nat :| Covers(e, k, u, x, n.term, n.log);
      ChosenReachesLeader(e, k, u, U);
      EarlyEnough(e, d.elections[U].log, u, U, x);
    }
  }

  /** What a leader's term log shares with an older one it already held when it won. */
  lemma EarlyEnough(e: Cluster, log: Log, u: nat, U: nat, x: nat)
    requires BaseInv(e) && u in e.elections && U in e.elections && u < U
    requires SamePrefix(e.elections[u].log, e.elections[U].log, x)
    requires SamePrefix(log, e.elections[U].log, |log|)
    requires forall j :: |log| <= j < |e.elections[U].log| ==> e.elections[U].log[j].term == U
    ensures x <= |log|
  {
    hide ShapeInv, VotesInv;
    assert TermLogOk(e.elections, u);
    if x > 0 { assert e.elections[u].log[x - 1] == e.elections[U].log[x - 1]; }
  }

  /** Leader Completeness: what any node has committed at any moment is in the log
      of every leader of a later term, whenever that leader is looked at. */
  lemma LeaderCompleteness(cfg: Config, draws: NodeId -> nat, steps: seq<Step>, a: nat, b: nat, i: NodeId, j: NodeId)
    requires ValidConfig(cfg) && TrueAcks(Init(cfg, draws), steps)
    requires a <= |steps| && b <= |steps| && i in cfg.peers && j in cfg.peers
    ensures var c, d := At(cfg, draws, steps, a), At(cfg, draws, steps, b);
            && i in c.hosts && j in d.hosts
            && (d.hosts[j].n.role == Leader && d.hosts[j].n.term > c.hosts[i].n.term
                ==> SamePrefix(c.hosts[i].n.log, d.hosts[j].n.log, c.hosts[i].n.commit))
  {
    hide BaseInv, AcksInv, CommitsInv, AppsInv, At, After, TrueAcks, SamePrefix;
    var end := |steps|;
    RunIsSafe(cfg, draws, steps, a, end);
    RunIsSafe(cfg, draws, steps, b, end);
    var c, d := At(cfg, draws, steps, a), At(cfg, draws, steps, b);
    if d.hosts[j].n.role == Leader && d.hosts[j].n.term > c.hosts[i].n.term {
      LeaderIsComplete(c, d, At(cfg, draws, steps, end), i, j);
    }
  }
}
