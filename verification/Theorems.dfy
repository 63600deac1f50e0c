/** Safety of whole runs: what holds after any schedule of steps from a fresh
    cluster, and between any two moments of one schedule. */
module Theorems {
  import opened Types
  import opened RaftLog
  import opened Cluster
  import opened Shape
  import opened Votes
  import opened Logs
  import opened LogSteps
  import opened Actions
  import opened Acks
  import opened Commits
  import opened Applied
  import opened Refinement

  ghost predicate SafeInv(c: Cluster) { AcksInv(c) && CommitsInv(c) && AppsInv(c) }

  // ---- the start --------------------------------------------------------------

  lemma InitHasBase(cfg: Config, draws: NodeId -> nat)
    requires ValidConfig(cfg)
    ensures BaseInv(Init(cfg, draws))
  {
    var c := Init(cfg, draws);
    assert forall m :: !Claimed(c, m);
    assert ShapeInv(c);
  }

  lemma InitIsSafe(cfg: Config, draws: NodeId -> nat)
    requires ValidConfig(cfg)
    ensures SafeInv(Init(cfg, draws))
  {
    var c := Init(cfg, draws);
    assert forall m :: !Claimed(c, m);
    assert forall i :: i in c.hosts ==> AppOk(c, c.hosts[i].app);
  }

  // ---- actions preserve everything --------------------------------------------

  /** c' is a later state of the same run. */
  ghost predicate After(c: Cluster, c': Cluster) { Later(c, c') && OwnGrowth(c.elections, c'.elections) }

  lemma AfterRefl(c: Cluster)
    ensures After(c, c)
  {
  }

  lemma AfterTrans(a: Cluster, b: Cluster, c: Cluster)
    requires After(a, b) && After(b, c)
    ensures After(a, c)
  {
    forall u, j | u in a.elections && u in c.elections && |a.elections[u].log| <= j < |c.elections[u].log|
      ensures c.elections[u].log[j].term == u
    {
      if j < |b.elections[u].log| { assert b.elections[u].log[j] == c.elections[u].log[j]; }
    }
  }

  lemma ActIsAfter(c: Cluster, a: Action)
    requires BaseInv(c) && Can(c, a, false)
    ensures After(c, Act(c, a))
  {
    hide BaseInv, Can, Act, EsLe, OwnGrowth;
    ActIsLater(c, a);
    ActionKeepsBase(c, a);
  }

  lemma LastAction(c: Cluster, actions: seq<Action>, tight: bool, c': Cluster) returns (mid: Cluster)
    requires Path(c, actions, tight, c') && |actions| > 0
    ensures var a := actions[|actions| - 1];
            && Path(c, actions[..|actions| - 1], tight, mid)
            && a.i in mid.hosts && Can(mid, a, tight) && c' == Act(mid, a)
  {
    hide Act, HostOk, CanSettle, CanSay, CanAdopt, CanAdvance, CanServe;
    var a, before := actions[|actions| - 1], actions[..|actions| - 1];
    mid :| Path(c, before, tight, mid) && Can(mid, a, tight) && c' == Act(mid, a);
  }

  lemma {:induction false} PathKeeps(c: Cluster, actions: seq<Action>, tight: bool, c': Cluster)
    requires BaseInv(c) && (tight ==> SafeInv(c)) && Path(c, actions, tight, c')
    ensures BaseInv(c') && (tight ==> SafeInv(c')) && After(c, c')
    decreases |actions|
  {
    hide BaseInv, AcksInv, CommitsInv, AppsInv, Can, Act, After;
    AfterRefl(c);
    if |actions| > 0 {
      var a, before := actions[|actions| - 1], actions[..|actions| - 1];
      var mid := LastAction(c, actions, tight, c');
      PathKeeps(c, before, tight, mid);
      if tight {
        ActionKeepsAcks(mid, a);
        ActionKeepsCommits(mid, a);
        ActionKeepsApps(mid, a);
        TightIsLoose(mid, a);
      }
      ActionKeepsBase(mid, a);
      ActIsAfter(mid, a);
      AfterTrans(c, mid, c');
    }
  }

  lemma StepKeeps(c: Cluster, s: Step, tight: bool)
    requires BaseInv(c) && (tight ==> SafeInv(c) && TrueAckAt(c, s))
    ensures BaseInv(Next(c, s)) && (tight ==> SafeInv(Next(c, s))) && After(c, Next(c, s))
  {
    hide BaseInv, SafeInv, TrueAckAt, Next, Path, After;
    StepRefines(c, s, tight);
    var actions :| Path(c, actions, tight, Next(c, s));
    PathKeeps(c, actions, tight, Next(c, s));
  }

  // ---- runs ---------------------------------------------------------------------

  /** The state of the run after its first k steps. */
  ghost function At(cfg: Config, draws: NodeId -> nat, steps: seq<Step>, k: nat): Cluster
    requires k <= |steps|
  {
    Run(Init(cfg, draws), steps[..k])
  }

  lemma AtStep(cfg: Config, draws: NodeId -> nat, steps: seq<Step>, k: nat)
    requires k < |steps|
    ensures At(cfg, draws, steps, k + 1) == Next(At(cfg, draws, steps, k), steps[k])
  {
    hide Next;
    assert steps[..k + 1][..k] == steps[..k];
  }

  lemma {:induction false} RunKeepsBase(cfg: Config, draws: NodeId -> nat, steps: seq<Step>, k: nat)
    requires ValidConfig(cfg) && k <= |steps|
    ensures BaseInv(At(cfg, draws, steps, k))
  {
    hide BaseInv, SafeInv, Next, After, TrueAckAt;
    InitHasBase(cfg, draws);
    if k > 0 {
      RunKeepsBase(cfg, draws, steps, k - 1);
      AtStep(cfg, draws, steps, k - 1);
      StepKeeps(At(cfg, draws, steps, k - 1), steps[k - 1], false);
    }
  }

  lemma {:induction false} RunKeepsSafe(cfg: Config, draws: NodeId -> nat, steps: seq<Step>, k: nat)
    requires ValidConfig(cfg) && k <= |steps| && TrueAcks(Init(cfg, draws), steps)
    ensures SafeInv(At(cfg, draws, steps, k))
  {
    hide BaseInv, SafeInv, Next, After, TrueAckAt;
    InitIsSafe(cfg, draws);
    if k > 0 {
      RunKeepsSafe(cfg, draws, steps, k - 1);
      RunKeepsBase(cfg, draws, steps, k - 1);
      AtStep(cfg, draws, steps, k - 1);
      StepKeeps(At(cfg, draws, steps, k - 1), steps[k - 1], true);
    }
  }

  lemma {:induction false} RunGoesOn(cfg: Config, draws: NodeId -> nat, steps: seq<Step>, a: nat, b: nat)
    requires ValidConfig(cfg) && a <= b <= |steps|
    ensures After(At(cfg, draws, steps, a), At(cfg, draws, steps, b))
    decreases b
  {
    hide BaseInv, SafeInv, Next, After, TrueAckAt, At;
    AfterRefl(At(cfg, draws, steps, a));
    if a < b {
      RunGoesOn(cfg, draws, steps, a, b - 1);
      RunKeepsBase(cfg, draws, steps, b - 1);
      AtStep(cfg, draws, steps, b - 1);
      StepKeeps(At(cfg, draws, steps, b - 1), steps[b - 1], false);
      AfterTrans(At(cfg, draws, steps, a), At(cfg, draws, steps, b - 1), At(cfg, draws, steps, b));
    }
  }

  lemma InitHosts(cfg: Config, draws: NodeId -> nat, steps: seq<Step>, k: nat)
    requires ValidConfig(cfg) && k <= |steps|
    ensures At(cfg, draws, steps, k).hosts.Keys == Peers(cfg) && At(cfg, draws, steps, k).cfg == cfg
  {
    hide BaseInv, Next, EsLe, OwnGrowth;
    RunGoesOn(cfg, draws, steps, 0, k);
    assert steps[..0] == [];
    assert At(cfg, draws, steps, 0) == Init(cfg, draws);
  }

  /** Two moments of one run, the earlier first. */
  lemma Moments(cfg: Config, draws: NodeId -> nat, steps: seq<Step>, a: nat, b: nat)
    requires ValidConfig(cfg) && a <= b <= |steps|
    ensures var c, d := At(cfg, draws, steps, a), At(cfg, draws, steps, b);
            BaseInv(c) && BaseInv(d) && After(c, d) && c.hosts.Keys == d.hosts.Keys == Peers(cfg) && d.cfg == cfg
  {
    hide BaseInv, At, After;
    RunKeepsBase(cfg, draws, steps, a);
    RunKeepsBase(cfg, draws, steps, b);
    RunGoesOn(cfg, draws, steps, a, b);
    InitHosts(cfg, draws, steps, a);
    InitHosts(cfg, draws, steps, b);
  }

  // ---- Election Safety -------------------------------------------------------------

  lemma LeaderIsRecorded(c: Cluster, i: NodeId)
    requires BaseInv(c) && i in c.hosts && c.hosts[i].n.role == Leader
    ensures var t := c.hosts[i].n.term; t in c.elections && c.elections[t].leader == i && c.elections[t].log == c.hosts[i].n.log
  {
    hide ShapeInv, VotesInv, LogsInv;
    LeaderFacts(c, i);
  }

  predicate LeadsTerm(c: Cluster, i: NodeId, t: nat)
    requires i in c.hosts
  {
    c.hosts[i].n.role == Leader && c.hosts[i].n.term == t
  }

  lemma OneLeader(c: Cluster, d: Cluster, i: NodeId, j: NodeId)
    requires BaseInv(c) && BaseInv(d) && After(c, d)
    requires i in c.hosts && j in d.hosts && c.hosts[i].n.role == Leader && d.hosts[j].n.role == Leader
    requires c.hosts[i].n.term == d.hosts[j].n.term
    ensures i == j
  {
    hide BaseInv;
    LeaderIsRecorded(c, i);
    LeaderIsRecorded(d, j);
  }

  /** Election Safety, for any two moments of any run: two nodes that lead the
      same term are the same node. */
  lemma ElectionSafety(cfg: Config, draws: NodeId -> nat, steps: seq<Step>, a: nat, b: nat, i: NodeId, j: NodeId)
    requires ValidConfig(cfg) && a <= |steps| && b <= |steps| && i in cfg.peers && j in cfg.peers
    ensures var c, d := At(cfg, draws, steps, a), At(cfg, draws, steps, b);
            && i in c.hosts && j in d.hosts
            && (LeadsTerm(c, i, c.hosts[i].n.term) && LeadsTerm(d, j, c.hosts[i].n.term) ==> i == j)
  {
    hide BaseInv, At, After;
    Moments(cfg, draws, steps, if a <= b then a else b, if a <= b then b else a);
    var c, d := At(cfg, draws, steps, a), At(cfg, draws, steps, b);
    if c.hosts[i].n.role == Leader && d.hosts[j].n.role == Leader && c.hosts[i].n.term == d.hosts[j].n.term {
      if a <= b { OneLeader(c, d, i, j); } else { OneLeader(d, c, j, i); }
    }
  }

  // ---- Log Matching ---------------------------------------------------------------

  lemma LaterLogsMatch(c: Cluster, d: Cluster, i: NodeId, j: NodeId, k: nat)
    requires BaseInv(c) && BaseInv(d) && After(c, d) && i in c.hosts && j in d.hosts
    requires k < |c.hosts[i].n.log| && k < |d.hosts[j].n.log| && c.hosts[i].n.log[k].term == d.hosts[j].n.log[k].term
    ensures SamePrefix(c.hosts[i].n.log, d.hosts[j].n.log, k + 1)
  {
    hide ShapeInv, VotesInv, LogsInv, LogOk, TermLogsOk;
    HostLogOk(c, i);
    HostLogOk(d, j);
    LogOkGrows(c.elections, d.elections, c.hosts[i].n.log);
    LogsMatch(d.elections, c.hosts[i].n.log, d.hosts[j].n.log, k);
  }

  /** Log Matching, for the logs of any two nodes at any two moments of any run:
      entries with one index and one term end identical prefixes. */
  lemma LogMatching(cfg: Config, draws: NodeId -> nat, steps: seq<Step>, a: nat, b: nat, i: NodeId, j: NodeId, k: nat)
    requires ValidConfig(cfg) && a <= |steps| && b <= |steps| && i in cfg.peers && j in cfg.peers
    ensures var c, d := At(cfg, draws, steps, a), At(cfg, draws, steps, b);
            && i in c.hosts && j in d.hosts
            && (k < |c.hosts[i].n.log| && k < |d.hosts[j].n.log| && c.hosts[i].n.log[k].term == d.hosts[j].n.log[k].term
                ==> SamePrefix(c.hosts[i].n.log, d.hosts[j].n.log, k + 1))
  {
    hide BaseInv, At, After;
    Moments(cfg, draws, steps, if a <= b then a else b, if a <= b then b else a);
    var c, d := At(cfg, draws, steps, a), At(cfg, draws, steps, b);
    if k < |c.hosts[i].n.log| && k < |d.hosts[j].n.log| && c.hosts[i].n.log[k].term == d.hosts[j].n.log[k].term {
      if a <= b { LaterLogsMatch(c, d, i, j, k); } else { LaterLogsMatch(d, c, j, i, k); }
    }
  }
}
