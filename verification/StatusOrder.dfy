/** The order Status promises, LastLogIndex >= CommitIndex >= ApplyIndex: its second half
    can fail after a crash, and this is exactly when. */
module StatusOrder {
  import opened Types
  import opened RaftLog
  import opened NodeSpec
  import opened Cluster
  import opened Actions
  import opened Theorems
  import opened EntryLog
  import opened Guards
  import opened ReadyChecks

  /** Step s kills node i's process and starts a new one. */
  predicate Restarts(c: Cluster, s: Step, i: NodeId) {
    s.i == i && (s.Crash? || (s.CrashInAppend? && Deliverable(c, i, s.m) && s.m.AppendEntries?))
  }

  /** A lifetime of node i begins at moment a. */
  ghost predicate Begins(cfg: Config, draws: NodeId -> nat, steps: seq<Step>, a: nat, i: NodeId)
    requires a <= |steps|
  {
    a == 0 || Restarts(At(cfg, draws, steps, a - 1), steps[a - 1], i)
  }

  /** The pipeline is between applied and enqueued, at or above the floor it started
      from, and runs ahead of the commit index only up to that floor. */
  predicate InOrder(h: Host, floor: nat) {
    && floor <= h.app.applied && h.app.applied + |h.app.queue| == h.app.enqueued
    && (forall k :: 0 <= k < |h.app.queue| ==> h.app.queue[k].index == h.app.applied + k + 1)
    && (h.app.enqueued <= h.n.commit || h.app.enqueued <= floor)
  }

  lemma RebootIsInOrder(cfg: Config, i: NodeId, hs: HardState, store: Log, snap: Snapshot, draw: nat)
    ensures var h := Reboot(cfg, i, hs, store, snap, draw); InOrder(h, h.app.snap.index) && h.app.snap == snap
  {
  }

  lemma DrainKeepsOrder(h: Host, floor: nat)
    requires InOrder(h, floor) && CanDrain(h) && Indexed(h.n.store)
    ensures InOrder(h.(app := Push(h.app, h.n.store)), floor)
  {
  }

  lemma ApplyKeepsOrder(cfg: Config, h: Host, floor: nat)
    requires InOrder(h, floor) && |h.app.queue| > 0
    ensures InOrder(h.(app := ApplyOne(cfg, h.app)), floor)
  {
    hide KvSpec.Apply;
  }

  lemma StoreIndexed(c: Cluster, i: NodeId)
    requires BaseInv(c) && i in c.hosts
    ensures Indexed(c.hosts[i].n.store)
  {
    hide BaseInv, AppendAssertions;
    StoreFits(c, i);
    StoreIsIndexed(c.hosts[i].n.store);
  }

  lemma StepKeepsOrder(c: Cluster, s: Step, i: NodeId, floor: nat)
    requires BaseInv(c) && i in c.hosts && InOrder(c.hosts[i], floor) && !Restarts(c, s, i)
    ensures i in Next(c, s).hosts && InOrder(Next(c, s).hosts[i], floor)
  {
    hide BaseInv, Tick, Receive, Propose, Record, Live, ApplyOne, Reboot, TornStore, Indexed, Panics;
    var h := c.hosts[i];
    if !CrashOf(s, i) {
      StepKeepsCommit(c, s, i);
      if s.i == i {
        match s
        case Drain(_) => if CanDrain(h) { StoreIndexed(c, i); DrainKeepsOrder(h, floor); }
        case ApplyNext(_) => if |h.app.queue| > 0 { ApplyKeepsOrder(c.cfg, h, floor); }
        case _ =>
      }
    }
  }

  lemma RestartIsInOrder(c: Cluster, s: Step, i: NodeId)
    requires i in c.hosts && Restarts(c, s, i)
    ensures var d := Next(c, s); i in d.hosts && InOrder(d.hosts[i], d.hosts[i].app.snap.index)
  {
    hide Reboot, InOrder, TornStore, Record;
    var h := c.hosts[i];
    var store := if s.Crash? then h.n.store else TornStore(h.n, s.m, s.keep);
    RebootIsInOrder(c.cfg, i, h.hs, store, h.app.snap, s.draw);
  }

  lemma BeginsInOrder(cfg: Config, draws: NodeId -> nat, steps: seq<Step>, a: nat, i: NodeId)
    requires ValidConfig(cfg) && a <= |steps| && i in cfg.peers && Begins(cfg, draws, steps, a, i)
    ensures var c := At(cfg, draws, steps, a); i in c.hosts && InOrder(c.hosts[i], c.hosts[i].app.snap.index)
  {
    hide Reboot, InOrder, Next, Restarts;
    if a == 0 {
      assert steps[..0] == [];
      RebootIsInOrder(cfg, i, HardState(0, NO_NODE, 0), [], Snapshot(0, KvSpec.EMPTY), draws(i));
    } else {
      AtStep(cfg, draws, steps, a - 1);
      InitHosts(cfg, draws, steps, a - 1);
      RestartIsInOrder(At(cfg, draws, steps, a - 1), steps[a - 1], i);
    }
  }

  lemma {:induction false} StaysInOrder(cfg: Config, draws: NodeId -> nat, steps: seq<Step>, a: nat, b: nat, i: NodeId)
    requires ValidConfig(cfg) && a <= b <= |steps| && i in cfg.peers && Begins(cfg, draws, steps, a, i)
    requires forall k :: a <= k < b ==> !Restarts(At(cfg, draws, steps, k), steps[k], i)
    ensures var c, d := At(cfg, draws, steps, a), At(cfg, draws, steps, b);
            i in c.hosts && i in d.hosts && InOrder(d.hosts[i], c.hosts[i].app.snap.index)
    decreases b
  {
    hide BaseInv, At, Next, InOrder, Restarts;
    BeginsInOrder(cfg, draws, steps, a, i);
    if a < b {
      StaysInOrder(cfg, draws, steps, a, b - 1, i);
      AtStep(cfg, draws, steps, b - 1);
      RunKeepsBase(cfg, draws, steps, b - 1);
      StepKeepsOrder(At(cfg, draws, steps, b - 1), steps[b - 1], i, At(cfg, draws, steps, a).hosts[i].app.snap.index);
    }
  }

  /** In every run, at every moment of a lifetime: the log reaches the commit index, and
      the commit index has reached what was applied exactly when it has reached the
      checkpoint the lifetime started from. */
  lemma StatusOrderIff(cfg: Config, draws: NodeId -> nat, steps: seq<Step>, a: nat, b: nat, i: NodeId)
    requires ValidConfig(cfg) && a <= b <= |steps| && i in cfg.peers && Begins(cfg, draws, steps, a, i)
    requires forall k :: a <= k < b ==> !Restarts(At(cfg, draws, steps, k), steps[k], i)
    ensures var c, d := At(cfg, draws, steps, a), At(cfg, draws, steps, b);
            && i in c.hosts && i in d.hosts
            && var h := d.hosts[i];
            && |h.n.log| >= h.n.commit
            && (h.n.commit >= h.app.applied <==> h.n.commit >= c.hosts[i].app.snap.index)
  {
    hide BaseInv, At, Restarts, Begins;
    StaysInOrder(cfg, draws, steps, a, b, i);
    RunKeepsBase(cfg, draws, steps, b);
    CommitIsBounded(At(cfg, draws, steps, b), i);
  }

  // ---- LastLogIndex --------------------------------------------------------------------------------

  /** Delivering s.m makes node i rewrite its log and end up with less. */
  predicate CutsAt(c: Cluster, s: Step, i: NodeId) {
    && s.Deliver? && s.i == i && Deliverable(c, i, s.m) && s.m.AppendEntries? && !Panics(c.hosts[i].n, s.m)
    && var n, m := c.hosts[i].n, s.m;
       && m.term >= n.term && Match(n.log, m.prevIndex, m.prevTerm) && FirstConflict(n.log, m.entries) != 0
       && |n.log| > m.prevIndex + |m.entries|
  }

  /** Status calls LastLogIndex monotonic. Within a lifetime it falls exactly when a
      request is accepted that conflicts with the log and ends before it. */
  lemma LastIndexFallsIff(cfg: Config, draws: NodeId -> nat, steps: seq<Step>, k: nat, i: NodeId)
    requires ValidConfig(cfg) && k < |steps| && i in cfg.peers && !Restarts(At(cfg, draws, steps, k), steps[k], i)
    ensures var c, d := At(cfg, draws, steps, k), At(cfg, draws, steps, k + 1);
            && i in c.hosts && i in d.hosts
            && (|d.hosts[i].n.log| < |c.hosts[i].n.log| <==> CutsAt(c, steps[k], i))
  {
    hide BaseInv, At, Next, CutsAt, Restarts;
    RunKeepsBase(cfg, draws, steps, k);
    InitHosts(cfg, draws, steps, k);
    AtStep(cfg, draws, steps, k);
    StepFallsIff(At(cfg, draws, steps, k), steps[k], i);
  }

  lemma StepFallsIff(c: Cluster, s: Step, i: NodeId)
    requires BaseInv(c) && i in c.hosts && !Restarts(c, s, i)
    ensures i in Next(c, s).hosts && (|Next(c, s).hosts[i].n.log| < |c.hosts[i].n.log| <==> CutsAt(c, s, i))
  {
    hide BaseInv, Tick, Receive, Propose, Record, Live, ApplyOne, Checkpoint, Reboot, TornStore, Panics, Match, FirstConflict;
    var n := c.hosts[i].n;
    if s.i == i {
      match s
      case TickStep(_, draw) => TickClaims(n, draw);
      case ProposeStep(_, data, storeFails) => ProposeClaims(n, data, storeFails);
      case Deliver(_, m, draw) =>
        if !m.AppendEntries? {
          OtherClaims(n, m, draw);
        } else if m.term < n.term || !Match(n.log, m.prevIndex, m.prevTerm) {
          RefusedDelivery(n, m, draw);
        } else if Deliverable(c, i, m) {
          AcceptedClaims(c, i, m, draw);
        }
      case _ =>
    }
  }
}
