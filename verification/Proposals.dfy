/** Whose answer a proposal gets: waiters are keyed by index alone, so it is the answer
    to whatever entry is applied there. */
module Proposals {
  import opened Types
  import opened RaftLog
  import opened NodeSpec
  import opened Cluster
  import opened Shape
  import opened Votes
  import opened Logs
  import opened Actions
  import opened Acks
  import opened Theorems
  import opened StatusOrder

  /** e is the entry that the leader of its term put at its index. */
  predicate FromTerm(es: Elections, e: Entry) {
    e.index > 0 && e.term in es && e.index <= |es[e.term].log| && es[e.term].log[e.index - 1] == e
  }

  ghost predicate QueueFromTerms(c: Cluster, i: NodeId) {
    i in c.hosts && forall e :: e in c.hosts[i].app.queue ==> FromTerm(c.elections, e)
  }

  lemma FromTermGrows(es: Elections, es': Elections, e: Entry)
    requires FromTerm(es, e) && EsLe(es, es')
    ensures FromTerm(es', e)
  {
  }

  lemma StoredIsFromTerm(c: Cluster, i: NodeId, k: nat)
    requires BaseInv(c) && i in c.hosts && k < |c.hosts[i].n.store|
    ensures FromTerm(c.elections, c.hosts[i].n.store[k])
  {
    hide ShapeInv, VotesInv, LogsInv, TermLogsOk;
    StoreIsLog(c, i);
    StoreIndexed(c, i);
    HostLogOk(c, i);
  }

  lemma StepKeepsQueue(c: Cluster, s: Step, i: NodeId)
    requires BaseInv(c) && QueueFromTerms(c, i)
    ensures QueueFromTerms(Next(c, s), i)
  {
    hide BaseInv, Next, FromTerm, EsLe, OwnGrowth;
    StepKeeps(c, s, false);
    var c' := Next(c, s);
    QueueAfter(c, s, i);
    forall e | e in c'.hosts[i].app.queue ensures FromTerm(c'.elections, e) { FromTermGrows(c.elections, c'.elections, e); }
  }

  /** A step queues at most an entry of the stored log. */
  lemma QueueAfter(c: Cluster, s: Step, i: NodeId)
    requires BaseInv(c) && QueueFromTerms(c, i)
    ensures i in Next(c, s).hosts && forall e :: e in Next(c, s).hosts[i].app.queue ==> FromTerm(c.elections, e)
  {
    hide BaseInv, Tick, Receive, Propose, Record, Live, TornStore, Panics, FromTerm, ApplyOne, Checkpoint;
    var h := c.hosts[i];
    if s.i == i && s.Drain? && CanDrain(h) { StoredIsFromTerm(c, i, h.app.enqueued); }
    CheckpointKeepsQueue(h.app);
    if |h.app.queue| > 0 { ApplyKeepsQueue(c.cfg, h.app); }
  }

  lemma CheckpointKeepsQueue(a: App)
    ensures Checkpoint(a).queue == a.queue
  {
  }

  lemma ApplyKeepsQueue(cfg: Config, a: App)
    requires |a.queue| > 0
    ensures ApplyOne(cfg, a).queue == a.queue[1..]
  {
    hide KvSpec.Apply;
  }

  lemma {:induction false} RunKeepsQueue(cfg: Config, draws: NodeId -> nat, steps: seq<Step>, k: nat, i: NodeId)
    requires ValidConfig(cfg) && k <= |steps| && i in cfg.peers
    ensures QueueFromTerms(At(cfg, draws, steps, k), i)
  {
    hide BaseInv, At, Next, QueueFromTerms;
    if k == 0 {
      EmptyAtStart(cfg, draws, steps, i);
    } else {
      RunKeepsQueue(cfg, draws, steps, k - 1, i);
      RunKeepsBase(cfg, draws, steps, k - 1);
      AtStep(cfg, draws, steps, k - 1);
      StepKeepsQueue(At(cfg, draws, steps, k - 1), steps[k - 1], i);
    }
  }

  lemma EmptyAtStart(cfg: Config, draws: NodeId -> nat, steps: seq<Step>, i: NodeId)
    requires ValidConfig(cfg) && i in cfg.peers
    ensures QueueFromTerms(At(cfg, draws, steps, 0), i)
  {
    assert steps[..0] == [];
  }

  lemma ProposedIsFromTerm(c: Cluster, i: NodeId, data: Types.Bytes)
    requires BaseInv(c) && i in c.hosts && c.hosts[i].n.role == Leader
    ensures var n := c.hosts[i].n; FromTerm(Next(c, ProposeStep(i, data, false)).elections, Entry(n.term, |n.log| + 1, data))
  {
    hide BaseInv, SendAppends, IsQuorumIndex, TermAt, ShapeInv, VotesInv, LogsInv;
    StoreIsLog(c, i);
    StoreIndexed(c, i);
    LeaderIsRecorded(c, i);
    SendOnlyQueues(ProposeLocked(c.hosts[i].n, data, false).0);
  }

  /** In every run: node i proposes at moment a, as leader; at any later moment the entry
      that node j is about to apply at the proposal's index is the proposed one exactly
      when it is of the term that Propose returned. */
  lemma AnswerIsOwnIff(cfg: Config, draws: NodeId -> nat, steps: seq<Step>, a: nat, b: nat, i: NodeId, j: NodeId)
    requires ValidConfig(cfg) && a < b <= |steps| && i in cfg.peers && j in cfg.peers
    requires steps[a].ProposeStep? && steps[a].i == i && !steps[a].storeFails
    ensures var c, d := At(cfg, draws, steps, a), At(cfg, draws, steps, b);
            && i in c.hosts && j in d.hosts
            && var n, q := c.hosts[i].n, d.hosts[j].app.queue;
               n.role == Leader && |q| > 0 && q[0].index == |n.log| + 1 ==>
                 (q[0] == Entry(n.term, |n.log| + 1, steps[a].data) <==> q[0].term == n.term)
  {
    hide BaseInv, At, Next, FromTerm, EsLe, OwnGrowth;
    Moments(cfg, draws, steps, a, b);
    Moments(cfg, draws, steps, a + 1, b);
    AtStep(cfg, draws, steps, a);
    RunKeepsQueue(cfg, draws, steps, b, j);
    var c, c', d := At(cfg, draws, steps, a), At(cfg, draws, steps, a + 1), At(cfg, draws, steps, b);
    var n, q := c.hosts[i].n, d.hosts[j].app.queue;
    if n.role == Leader && |q| > 0 && q[0].index == |n.log| + 1 {
      var e := Entry(n.term, |n.log| + 1, steps[a].data);
      ProposedIsFromTerm(c, i, steps[a].data);
      FromTermGrows(c'.elections, d.elections, e);
      OneEntryPerPlace(d.elections, e, q[0]);
    }
  }

  lemma OneEntryPerPlace(es: Elections, e: Entry, f: Entry)
    requires FromTerm(es, e) && FromTerm(es, f) && e.index == f.index
    ensures e == f <==> e.term == f.term
  {
  }
}
