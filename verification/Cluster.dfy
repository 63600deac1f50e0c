/** A cluster of nodes over a network that loses, duplicates and reorders, as a
    deterministic function of a schedule of steps. */
module Cluster {
  import opened Types
  import opened RaftLog
  import opened NodeSpec
  import opened KvSpec

  /** What Ready handed to the driver and flush has not finished with: the hard
      state still to be saved and the messages still to be sent. */
  datatype Outbox = Outbox(hs: Option<HardState>, msgs: seq<Message>)

  /** A durable checkpoint of the state machine; index 0 means none. */
  datatype Snapshot = Snapshot(index: nat, kv: Kv)

  /** The commit -> apply pipeline of one node. Only snap is durable. */
  datatype App = App(enqueued: nat, queue: seq<Entry>, applied: nat, kv: Kv, snapIndex: nat, snap: Snapshot)

  /** hs and n.store and app.snap survive a crash; everything else is volatile. */
  datatype Host = Host(n: Node, hs: HardState, out: Outbox, app: App)

  /** History: who won a term, with whose votes, and the log of that leadership,
      which only ever grows. rank orders elections by when they were won. */
  datatype Election = Election(leader: NodeId, voters: set<NodeId>, log: Log, rank: nat)

  type Elections = map<nat, Election>

  datatype Config = Config(peers: seq<NodeId>, decode: Decoder, snapshotInterval: nat)

  datatype Cluster = Cluster(cfg: Config, hosts: map<NodeId, Host>, net: set<Message>, elections: Elections)

  datatype Step =
    | TickStep(i: NodeId, draw: nat)
    | Deliver(i: NodeId, m: Message, draw: nat)
    | ProposeStep(i: NodeId, data: Bytes, storeFails: bool)
    | ReadyStep(i: NodeId)
    | Save(i: NodeId)
    | Send(i: NodeId)
    | Drain(i: NodeId)
    | ApplyNext(i: NodeId)
    | FinalCheckpoint(i: NodeId)
    | Crash(i: NodeId, draw: nat)
    | CrashInAppend(i: NodeId, m: Message, keep: nat, draw: nat)

  function Peers(cfg: Config): set<NodeId> { set p | p in cfg.peers }

  /** The history after node i reached state n: a node that leads a term not yet
      recorded has just won it; a recorded leadership follows its leader's log. */
  function Record(es: Elections, i: NodeId, n: Node): Elections {
    if n.role != Leader then es
    else if n.term in es then es[n.term := es[n.term].(log := n.log)]
    else es[n.term := Election(i, n.votes, n.log, |es|)]
  }

  function PutHost(c: Cluster, i: NodeId, h: Host): Cluster {
    c.(hosts := c.hosts[i := h], elections := Record(c.elections, i, h.n))
  }

  function PutNode(c: Cluster, i: NodeId, n: Node): Cluster
    requires i in c.hosts
  {
    PutHost(c, i, c.hosts[i].(n := n))
  }

  /** New: the node restarts from what is durable and the pipeline resumes at the
      checkpoint. */
  function Reboot(cfg: Config, i: NodeId, hs: HardState, store: Log, snap: Snapshot, draw: nat): Host {
    Host(Restart(i, cfg.peers, hs, store, draw), hs, Outbox(None, []),
         if snap.index > 0 then App(snap.index, [], snap.index, snap.kv, snap.index, snap)
         else App(0, [], 0, EMPTY, 0, snap))
  }

  function FreshHost(cfg: Config, i: NodeId, draw: nat): Host {
    Reboot(cfg, i, HardState(0, NO_NODE, 0), [], Snapshot(0, EMPTY), draw)
  }

  /** A fresh cluster; draws holds every node's first election timeout. */
  function Init(cfg: Config, draws: NodeId -> nat): Cluster {
    Cluster(cfg, map i | i in cfg.peers :: FreshHost(cfg, i, draws(i)), {}, map[])
  }

  function Checkpoint(a: App): App {
    if a.kv.lastIndex == 0 then a
    else a.(snap := Snapshot(a.kv.lastIndex, a.kv), snapIndex := a.kv.lastIndex)
  }

  function ApplyOne(cfg: Config, a: App): App
    requires |a.queue| > 0
  {
    var e := a.queue[0];
    var b := a.(queue := a.queue[1..], kv := Apply(cfg.decode, a.kv, e), applied := e.index);
    if e.index >= b.snapIndex + cfg.snapshotInterval then Checkpoint(b) else b
  }

  /** The capacity of the apply channel. */
  const APPLY_BUF: nat := 256

  /** The next entry is committed and stored, and the channel has room for it. */
  predicate CanPush(a: App, store: Log, commit: nat) {
    && a.enqueued < commit
    && a.enqueued < |store|
    && |a.queue| < APPLY_BUF
  }

  function Push(a: App, store: Log): App
    requires a.enqueued < |store|
  {
    a.(enqueued := a.enqueued + 1, queue := a.queue + [store[a.enqueued]])
  }

  predicate CanDrain(h: Host) { CanPush(h.app, h.n.store, h.n.commit) }

  /** Message m is on the wire and addressed to node i. */
  predicate Deliverable(c: Cluster, i: NodeId, m: Message) {
    i in c.hosts && m in c.net && m.to == i
  }

  /** The stored log of a process that dies inside mirrorLogWriteLocked, after the
      truncation and keep of the appended entries became durable. */
  function TornStore(n: Node, m: Message, keep: nat): Log
    requires m.AppendEntries?
  {
    var s := StepDown(n, m.term);
    if m.term >= s.term && Match(s.log, m.prevIndex, m.prevTerm) && !TruncatePanics(s, m)
    then Accept(s.log, m.entries, keep)
    else s.store
  }

  /** One step of the schedule. A step that is not enabled changes nothing; a
      delivery that would panic is not enabled, since the dying process is a Crash
      step. */
  ghost function Next(c: Cluster, s: Step): Cluster {
    if s.i !in c.hosts then c
    else
      var h := c.hosts[s.i];
      match s
      case TickStep(i, draw) => PutNode(c, i, Tick(h.n, draw))
      case Deliver(i, m, draw) =>
        if Deliverable(c, i, m) && !Panics(h.n, m) then PutNode(c, i, Receive(h.n, m, draw)) else c
      case ProposeStep(i, data, storeFails) => PutNode(c, i, Propose(h.n, data, storeFails))
      case ReadyStep(i) =>
        if h.out == Outbox(None, [])
        then PutHost(c, i, h.(out := Outbox(h.n.pendingHS, Live(h.n.pending, h.n.epoch)),
                              n := h.n.(pending := [], pendingHS := None)))
        else c
      case Save(i) =>
        if h.out.hs.Some? then PutHost(c, i, h.(hs := h.out.hs.value, out := h.out.(hs := None))) else c
      case Send(i) =>
        if h.out.hs.None? && |h.out.msgs| > 0
        then PutHost(c, i, h.(out := h.out.(msgs := h.out.msgs[1..]))).(net := c.net + {h.out.msgs[0]})
        else c
      case Drain(i) =>
        if CanDrain(h)
        then PutHost(c, i, h.(app := Push(h.app, h.n.store)))
        else c
      case ApplyNext(i) =>
        if |h.app.queue| > 0 then PutHost(c, i, h.(app := ApplyOne(c.cfg, h.app))) else c
      case FinalCheckpoint(i) => PutHost(c, i, h.(app := Checkpoint(h.app)))
      case Crash(i, draw) => PutHost(c, i, Reboot(c.cfg, i, h.hs, h.n.store, h.app.snap, draw))
      case CrashInAppend(i, m, keep, draw) =>
        if Deliverable(c, i, m) && m.AppendEntries?
        then PutHost(c, i, Reboot(c.cfg, i, h.hs, TornStore(h.n, m, keep), h.app.snap, draw))
        else c
  }

  ghost function Run(c: Cluster, steps: seq<Step>): Cluster {
    if |steps| == 0 then c else Next(Run(c, steps[..|steps| - 1]), steps[|steps| - 1])
  }

  // ---- the acknowledgement hypothesis ------------------------------------

  /** Node n's Success reply to m, if it gives one, is true: the whole log it then
      has, and whose length it reports, is a prefix of the log of m's leadership. */
  predicate AckIsTrue(es: Elections, n: Node, m: Message)
    requires m.AppendEntries?
  {
    m.term == n.term && Match(n.log, m.prevIndex, m.prevTerm) ==>
      var log := Accept(n.log, m.entries, |m.entries|);
      m.term in es && SamePrefix(log, es[m.term].log, |log|)
  }

  predicate TrueAckAt(c: Cluster, s: Step) {
    s.Deliver? && s.m.AppendEntries? && Deliverable(c, s.i, s.m) && !Panics(c.hosts[s.i].n, s.m) ==>
      AckIsTrue(c.elections, StepDown(c.hosts[s.i].n, s.m.term), s.m)
  }

  /** The hypothesis on a schedule: every Success reply is true when it is given. */
  ghost predicate TrueAcks(c: Cluster, steps: seq<Step>) {
    forall k :: 0 <= k < |steps| ==> TrueAckAt(Run(c, steps[..k]), steps[k])
  }

  /** Distinct, nonempty ids; at least two members, so that a lone self-vote is
      never a majority. */
  predicate ValidConfig(cfg: Config) {
    && |cfg.peers| >= 2
    && NO_NODE !in cfg.peers
    && (forall j, k :: 0 <= j < k < |cfg.peers| ==> cfg.peers[j] != cfg.peers[k])
  }
}
