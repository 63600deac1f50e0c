/** Bookkeeping invariants of every run: the hard-state pipeline from the node to
    the disk is ordered, and no message outruns the hard state that covers it. */
module Shape {
  import opened Types
  import opened RaftLog
  import opened NodeSpec
  import opened Cluster

  /** The vote a message is evidence of: a grant votes for its addressee, a vote
      request for its sender. */
  function VoteOf(m: Message): NodeId {
    match m
    case RequestVote(_, from, _, _, _) => from
    case RequestVoteResponse(_, _, to, granted) => if granted then to else NO_NODE
    case _ => NO_NODE
  }

  /** hs records everything m commits its sender to. */
  predicate Covered(m: Message, hs: HardState) {
    m.term < hs.term || (m.term == hs.term && (VoteOf(m) == NO_NODE || VoteOf(m) == hs.votedFor))
  }

  /** b may replace a: the term does not go back, and within a term a vote is kept. */
  predicate HsLe(a: HardState, b: HardState) {
    && a.commit <= b.commit
    && (a.term < b.term || (a.term == b.term && (a.votedFor == NO_NODE || a.votedFor == b.votedFor)))
  }

  function InFlight(h: Host): HardState { if h.out.hs.Some? then h.out.hs.value else h.hs }

  function Latest(h: Host): HardState { if h.n.pendingHS.Some? then h.n.pendingHS.value else InFlight(h) }

  predicate Chain(h: Host) {
    && HsLe(h.hs, InFlight(h))
    && HsLe(InFlight(h), Latest(h))
    && Latest(h) == Current(h.n)
  }

  predicate Addressed(peers: seq<NodeId>, i: NodeId, m: Message) {
    m.from == i && m.to in peers && m.to != i
  }

  predicate PipeOk(h: Host) {
    && (forall m :: m in h.out.msgs ==> Addressed(h.n.peers, h.n.id, m) && Covered(m, InFlight(h)))
    && (forall p :: p in h.n.pending ==> Addressed(h.n.peers, h.n.id, p.msg) && Covered(p.msg, Current(h.n)))
  }

  predicate NodeOk(n: Node) {
    && n.store == n.log
    && n.commit <= |n.log|
    && n.matchIndex.Keys <= (set p | p in n.peers)
    && n.nextIndex.Keys <= (set p | p in n.peers)
    && (n.role != Follower ==> n.term > 0 && n.votedFor == n.id)
    && (n.role == Leader ==>
          && n.nextIndex.Keys == n.matchIndex.Keys == (set p | p in n.peers)
          && forall p :: p in n.nextIndex ==> n.nextIndex[p] > 0)
  }

  predicate HostOk(cfg: Config, i: NodeId, h: Host) {
    && h.n.id == i
    && h.n.peers == cfg.peers
    && NodeOk(h.n)
    && Chain(h)
    && PipeOk(h)
  }

  predicate NetOk(c: Cluster) {
    forall m :: m in c.net ==>
      && m.from in c.hosts
      && Addressed(c.cfg.peers, m.from, m)
      && Covered(m, c.hosts[m.from].hs)
  }

  predicate ShapeInv(c: Cluster) {
    && ValidConfig(c.cfg)
    && c.hosts.Keys == Peers(c.cfg)
    && (forall i :: i in c.hosts ==> HostOk(c.cfg, i, c.hosts[i]))
    && NetOk(c)
  }

  /** Message m is on the wire, or its sender has queued it and may yet send it. */
  predicate Claimed(c: Cluster, m: Message) {
    m in c.net || (m.from in c.hosts && Piped(c.hosts[m.from], m))
  }

  predicate Piped(h: Host, m: Message) { m in h.out.msgs || Queued(h.n.pending, m) }

  predicate Queued(ps: seq<Pending>, m: Message) { exists p :: p in ps && p.msg == m }

  // ---- the hard-state order ------------------------------------------------

  lemma HsLeTrans(a: HardState, b: HardState, c: HardState)
    requires HsLe(a, b) && HsLe(b, c)
    ensures HsLe(a, c)
  {
  }

  lemma CoveredUp(m: Message, a: HardState, b: HardState)
    requires Covered(m, a) && HsLe(a, b)
    ensures Covered(m, b)
  {
  }

  /** Every message that counts is covered by its sender's current state. */
  lemma ClaimedIsCovered(c: Cluster, m: Message)
    requires ShapeInv(c) && Claimed(c, m)
    ensures m.from in c.hosts && Addressed(c.cfg.peers, m.from, m) && Covered(m, Current(c.hosts[m.from].n))
  {
  }

  lemma PutHostKeepsShape(c: Cluster, i: NodeId, h: Host, net: set<Message>)
    requires ShapeInv(c) && i in c.hosts && HostOk(c.cfg, i, h)
    requires forall m :: m in net ==>
               && m.from in c.hosts
               && Addressed(c.cfg.peers, m.from, m)
               && Covered(m, if m.from == i then h.hs else c.hosts[m.from].hs)
    ensures ShapeInv(PutHost(c, i, h).(net := net))
  {
    hide HostOk, Covered, Addressed;
  }

  lemma PutNodeKeepsShape(c: Cluster, i: NodeId, n: Node)
    requires ShapeInv(c) && i in c.hosts
    requires HostOk(c.cfg, i, c.hosts[i].(n := n))
    ensures ShapeInv(PutNode(c, i, n))
  {
    hide HostOk, Covered, Addressed;
    PutHostKeepsShape(c, i, c.hosts[i].(n := n), c.net);
    assert PutNode(c, i, n) == PutHost(c, i, c.hosts[i].(n := n)).(net := c.net);
  }

  // ---- node micro-steps ----------------------------------------------------

  /** n only moved its hard state forward and queued it. */
  predicate Moves(n: Node, n': Node) {
    && n'.id == n.id && n'.peers == n.peers
    && n'.pending == n.pending
    && HsLe(Current(n), Current(n'))
    && n'.pendingHS == Some(Current(n'))
  }

  lemma MovesKeepsHost(cfg: Config, i: NodeId, h: Host, n': Node)
    requires HostOk(cfg, i, h) && Moves(h.n, n') && NodeOk(n')
    ensures HostOk(cfg, i, h.(n := n'))
  {
    var h' := h.(n := n');
    HsLeTrans(InFlight(h), Current(h.n), Current(n'));
    forall p | p in n'.pending ensures Covered(p.msg, Current(n')) {
      CoveredUp(p.msg, Current(h.n), Current(n'));
    }
  }

  lemma QueuedIff(n: Node, ms: seq<Message>, m: Message)
    ensures Queued(QueueAll(n, ms).pending, m) <==> Queued(n.pending, m) || m in ms
  {
    var ps := n.pending + Tagged(n.epoch, ms);
    if Queued(n.pending, m) {
      var p :| p in n.pending && p.msg == m;
      assert p in ps;
    }
    if m in ms {
      var k :| 0 <= k < |ms| && ms[k] == m;
      assert ps[|n.pending| + k] == Pending(n.epoch, m);
      assert Pending(n.epoch, m) in ps;
    }
    if Queued(ps, m) {
      var p :| p in ps && p.msg == m;
      var k :| 0 <= k < |ps| && ps[k] == p;
      if k >= |n.pending| {
        assert ps[k] == Pending(n.epoch, ms[k - |n.pending|]);
      }
    }
  }

  lemma QueueKeepsHost(cfg: Config, i: NodeId, h: Host, ms: seq<Message>)
    requires HostOk(cfg, i, h)
    requires forall m :: m in ms ==> Addressed(h.n.peers, i, m) && Covered(m, Current(h.n))
    ensures HostOk(cfg, i, h.(n := QueueAll(h.n, ms)))
  {
    var n' := QueueAll(h.n, ms);
    forall p | p in n'.pending
      ensures Addressed(n'.peers, n'.id, p.msg) && Covered(p.msg, Current(n'))
    {
      var k :| 0 <= k < |n'.pending| && n'.pending[k] == p;
      if k >= |h.n.pending| {
        assert p.msg == ms[k - |h.n.pending|];
      }
    }
  }

  // ---- host steps ----------------------------------------------------------

  lemma {:induction false} LiveIsPending(ps: seq<Pending>, epoch: nat, m: Message)
    requires m in Live(ps, epoch)
    ensures Pending(epoch, m) in ps
  {
    if !(ps[0].epoch == epoch && ps[0].msg == m) { LiveIsPending(ps[1..], epoch, m); }
  }

  function Drained(h: Host): Host {
    h.(out := Outbox(h.n.pendingHS, Live(h.n.pending, h.n.epoch)), n := h.n.(pending := [], pendingHS := None))
  }

  lemma ReadyKeepsHost(cfg: Config, i: NodeId, h: Host)
    requires HostOk(cfg, i, h) && h.out == Outbox(None, [])
    ensures HostOk(cfg, i, Drained(h))
  {
    var h' := Drained(h);
    forall m | m in h'.out.msgs ensures Addressed(h.n.peers, i, m) && Covered(m, InFlight(h')) {
      LiveIsPending(h.n.pending, h.n.epoch, m);
    }
  }

  function Saved(h: Host): Host
    requires h.out.hs.Some?
  {
    h.(hs := h.out.hs.value, out := h.out.(hs := None))
  }

  lemma SaveKeepsShape(c: Cluster, i: NodeId)
    requires ShapeInv(c) && i in c.hosts && c.hosts[i].out.hs.Some?
    ensures ShapeInv(PutHost(c, i, Saved(c.hosts[i])))
  {
    var h := c.hosts[i];
    forall m | m in c.net && m.from == i ensures Covered(m, Saved(h).hs) {
      CoveredUp(m, h.hs, Saved(h).hs);
    }
    PutHostKeepsShape(c, i, Saved(h), c.net);
    assert PutHost(c, i, Saved(h)) == PutHost(c, i, Saved(h)).(net := c.net);
  }

  function Sent(h: Host): Host
    requires |h.out.msgs| > 0
  {
    h.(out := h.out.(msgs := h.out.msgs[1..]))
  }

  lemma SentKeepsHost(cfg: Config, i: NodeId, h: Host)
    requires HostOk(cfg, i, h) && h.out.hs.None? && |h.out.msgs| > 0
    ensures HostOk(cfg, i, Sent(h))
    ensures Addressed(cfg.peers, i, h.out.msgs[0]) && Covered(h.out.msgs[0], h.hs)
  {
    assert h.out.msgs[0] in h.out.msgs;
    assert forall m :: m in Sent(h).out.msgs ==> m in h.out.msgs;
  }

  function AfterSend(c: Cluster, i: NodeId): Cluster
    requires i in c.hosts && |c.hosts[i].out.msgs| > 0
  {
    PutHost(c, i, Sent(c.hosts[i])).(net := c.net + {c.hosts[i].out.msgs[0]})
  }

  lemma SendKeepsShape(c: Cluster, i: NodeId)
    requires ShapeInv(c) && i in c.hosts && c.hosts[i].out.hs.None? && |c.hosts[i].out.msgs| > 0
    ensures ShapeInv(AfterSend(c, i))
  {
    SentKeepsHost(c.cfg, i, c.hosts[i]);
    PutHostKeepsShape(c, i, Sent(c.hosts[i]), c.net + {c.hosts[i].out.msgs[0]});
  }

  lemma RebootKeepsShape(c: Cluster, i: NodeId, log: Log, draw: nat)
    requires ShapeInv(c) && i in c.hosts
    requires c.hosts[i].hs.commit <= |log|
    ensures ShapeInv(PutHost(c, i, Reboot(c.cfg, i, c.hosts[i].hs, log, c.hosts[i].app.snap, draw)))
  {
    var h := Reboot(c.cfg, i, c.hosts[i].hs, log, c.hosts[i].app.snap, draw);
    PutHostKeepsShape(c, i, h, c.net);
    assert PutHost(c, i, h) == PutHost(c, i, h).(net := c.net);
  }
}
