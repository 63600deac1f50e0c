/** One node of pkg/raft as a value and its handlers as pure functions: what each
    *Locked method does to the state, with the stored log beside the in-memory one. */
module NodeSpec {
  import opened Types
  import opened RaftLog

  datatype Timers = Timers(electionElapsed: nat, electionTimeout: nat, lastHeartbeat: nat,
                           heartbeatElapsed: nat, heartbeatTimeout: nat)

  datatype Node = Node(
    id: NodeId, peers: seq<NodeId>,
    term: nat, votedFor: NodeId, role: Role,
    log: Log, store: Log, commit: nat, leaderHint: NodeId,
    nextIndex: map<NodeId, nat>, matchIndex: map<NodeId, nat>, votes: set<NodeId>,
    timers: Timers, epoch: nat,
    pending: seq<Pending>, pendingHS: Option<HardState>)

  /** uint64 arithmetic wraps: what nextIndex[peer]-1 is for an absent peer. */
  const MAX_UINT64: nat := 0xFFFF_FFFF_FFFF_FFFF

  function Quorum(n: Node): nat { |n.peers| / 2 + 1 }

  function Current(n: Node): HardState { HardState(n.term, n.votedFor, n.commit) }

  function Tagged(epoch: nat, ms: seq<Message>): (ps: seq<Pending>)
    ensures |ps| == |ms| && forall k :: 0 <= k < |ms| ==> ps[k] == Pending(epoch, ms[k])
  {
    seq(|ms|, k requires 0 <= k < |ms| => Pending(epoch, ms[k]))
  }

  function QueueAll(n: Node, ms: seq<Message>): Node {
    n.(pending := n.pending + Tagged(n.epoch, ms))
  }

  function Queue(n: Node, m: Message): Node { QueueAll(n, [m]) }

  function QueueHS(n: Node): Node { n.(pendingHS := Some(Current(n))) }

  function StepDown(n: Node, t: nat): Node {
    if t <= n.term then n
    else QueueHS(n.(term := t, votedFor := NO_NODE, role := Follower, leaderHint := NO_NODE,
                    votes := {}, epoch := n.epoch + 1))
  }

  function ResetElection(n: Node, draw: nat): Node {
    n.(timers := n.timers.(electionTimeout := draw, electionElapsed := 0))
  }

  // ---- leader send side -------------------------------------------------

  function AppendFor(n: Node, peer: NodeId): Message {
    var next := if peer in n.nextIndex then n.nextIndex[peer] else 0;
    var prev := if next == 0 then MAX_UINT64 else next - 1;
    AppendEntries(n.term, n.id, peer, prev, TermAt(n.log, prev), Tail(n.log, next), n.commit)
  }

  function AppendFanout(n: Node, ps: seq<NodeId>): seq<Message> {
    if |ps| == 0 then []
    else (if ps[0] == n.id then [] else [AppendFor(n, ps[0])]) + AppendFanout(n, ps[1..])
  }

  function SendAppends(n: Node): Node { QueueAll(n, AppendFanout(n, n.peers)) }

  /** Sending changes nothing but the outbox. */
  lemma SendOnlyQueues(n: Node)
    ensures SendAppends(n) == n.(pending := SendAppends(n).pending)
  {
    hide AppendFanout, Tagged;
  }

  function Enthrone(n: Node): Node {
    n.(role := Leader, leaderHint := n.id,
       nextIndex := n.nextIndex + map p | p in n.peers :: |n.log| + 1,
       matchIndex := n.matchIndex + map p | p in n.peers :: 0,
       timers := n.timers.(heartbeatElapsed := 0, heartbeatTimeout := 1))
  }

  function BecomeLeader(n: Node): Node { SendAppends(Enthrone(n)) }

  // ---- commit rule ------------------------------------------------------

  /** What the commit rule counts for a peer: the leader itself is taken at its
      last index. */
  function Progress(n: Node, p: NodeId): nat
    requires p in n.matchIndex
  {
    if p == n.id then |n.log| else n.matchIndex[p]
  }

  function Reaching(n: Node, x: nat): set<NodeId> {
    set p | p in n.matchIndex && Progress(n, p) >= x
  }

  /** q is the largest index that a quorum of the tracked peers has reached. */
  predicate IsQuorumIndex(n: Node, q: nat) {
    |Reaching(n, q)| >= Quorum(n) > |Reaching(n, q + 1)|
  }

  lemma ProgressIsBounded(n: Node, keys: set<NodeId>) returns (bound: nat)
    requires keys <= n.matchIndex.Keys
    ensures forall p :: p in keys ==> Progress(n, p) <= bound
  {
    bound := 0;
    var rest := keys;
    while rest != {}
      invariant rest <= keys
      invariant forall p :: p in keys - rest ==> Progress(n, p) <= bound
      decreases |rest|
    {
      var p :| p in rest;
      rest := rest - {p};
      bound := if Progress(n, p) > bound then Progress(n, p) else bound;
    }
  }

  lemma QuorumIndexExists(n: Node)
    requires Quorum(n) <= |n.matchIndex|
    ensures exists q: nat :: IsQuorumIndex(n, q)
  {
    var x := ProgressIsBounded(n, n.matchIndex.Keys);
    assert Reaching(n, x + 1) == {};
    assert Reaching(n, 0) == n.matchIndex.Keys;
    while |Reaching(n, x)| < Quorum(n)
      invariant |Reaching(n, x + 1)| < Quorum(n)
      decreases x
    {
      x := x - 1;
    }
    assert IsQuorumIndex(n, x);
  }

  lemma QuorumIndexIsUnique(n: Node, q: nat, r: nat)
    requires IsQuorumIndex(n, q) && IsQuorumIndex(n, r)
    ensures q == r
  {
    if q < r {
      SubsetSize(Reaching(n, r), Reaching(n, q + 1));
    } else if r < q {
      SubsetSize(Reaching(n, q), Reaching(n, r + 1));
    }
  }

  lemma SubsetSize<T>(a: set<T>, b: set<T>)
    requires a <= b
    ensures |a| <= |b|
  {
    assert b == a + (b - a);
  }

  ghost function QuorumIndex(n: Node): (q: nat)
    requires Quorum(n) <= |n.matchIndex|
    ensures IsQuorumIndex(n, q)
  {
    QuorumIndexExists(n);
    var q: nat :| IsQuorumIndex(n, q);
    q
  }

  ghost function AdvanceCommit(n: Node): Node {
    if Quorum(n) > |n.matchIndex| then n
    else
      var q := QuorumIndex(n);
      if q <= n.commit || TermAt(n.log, q) != n.term then n
      else QueueHS(n.(commit := q))
  }

  // ---- candidate --------------------------------------------------------

  function VoteRequest(n: Node, peer: NodeId): Message {
    RequestVote(n.term, n.id, peer, |n.log|, LastTerm(n.log))
  }

  function VoteFanout(n: Node, ps: seq<NodeId>): seq<Message> {
    if |ps| == 0 then []
    else (if ps[0] == n.id then [] else [VoteRequest(n, ps[0])]) + VoteFanout(n, ps[1..])
  }

  function Stand(n: Node, draw: nat): Node {
    QueueHS(ResetElection(
      n.(role := Candidate, term := n.term + 1, votedFor := n.id, leaderHint := NO_NODE, votes := {n.id}),
      draw))
  }

  function LeadIfElected(n: Node): Node {
    if |n.votes| >= Quorum(n) then BecomeLeader(n) else n
  }

  function BecomeCandidate(n: Node, draw: nat): Node {
    var c := Stand(n, draw);
    LeadIfElected(QueueAll(c, VoteFanout(c, c.peers)))
  }

  function HandleVoteResponse(n: Node, m: Message): Node
    requires m.RequestVoteResponse?
  {
    if n.role != Candidate || m.term != n.term || !m.granted then n
    else LeadIfElected(n.(votes := n.votes + {m.from}))
  }

  // ---- follower ---------------------------------------------------------

  predicate UpToDate(candTerm: nat, candIndex: nat, voterTerm: nat, voterIndex: nat) {
    if candTerm != voterTerm then candTerm > voterTerm else candIndex >= voterIndex
  }

  predicate CanGrant(n: Node, m: Message)
    requires m.RequestVote?
  {
    && m.term >= n.term
    && (n.votedFor == NO_NODE || n.votedFor == m.from)
    && UpToDate(m.lastTerm, m.lastIndex, LastTerm(n.log), |n.log|)
  }

  function Grant(n: Node, candidate: NodeId, draw: nat): Node {
    QueueHS(ResetElection(n.(votedFor := candidate), draw))
  }

  function HandleRequestVote(n: Node, m: Message, draw: nat): Node
    requires m.RequestVote?
  {
    var grant := CanGrant(n, m);
    var v := if grant then Grant(n, m.from, draw) else n;
    Queue(v, RequestVoteResponse(v.term, v.id, m.from, grant))
  }

  // ---- AppendEntries receiver -------------------------------------------

  function StoreAppend(store: Log, entries: seq<Entry>): Option<Log> {
    if |entries| == 0 then Some(store)
    else if entries[0].index != |store| + 1 then None
    else if forall k :: 0 < k < |entries| ==> entries[k].index == entries[k - 1].index + 1
    then Some(store + entries)
    else None
  }

  /** mirrorLogWriteLocked: the stored log after truncate and append, and whether
      both calls succeeded. */
  function Mirror(store: Log, from: nat, suffix: seq<Entry>): (bool, Log) {
    var cut := Truncate(store, from);
    match StoreAppend(cut, suffix)
    case Some(s) => (true, s)
    case None => (false, cut)
  }

  function AppendReply(n: Node, to: NodeId, success: bool, index: nat): Message {
    AppendEntriesResp(n.term, n.id, to, success, index)
  }

  function FollowCommit(n: Node, m: Message): Node
    requires m.AppendEntries?
  {
    var lastNew := m.prevIndex + |m.entries|;
    if m.leaderCommit > n.commit
    then QueueHS(n.(commit := if m.leaderCommit <= lastNew then m.leaderCommit else lastNew))
    else n
  }

  function HeardLeader(n: Node, leader: NodeId): Node {
    n.(leaderHint := leader, timers := n.timers.(electionElapsed := 0, lastHeartbeat := 0))
  }

  /** assertTruncateAboveCommit would panic on this message. */
  predicate TruncatePanics(n: Node, m: Message)
    requires m.AppendEntries?
  {
    var fc := FirstConflict(n.log, m.entries);
    m.term >= n.term && Match(n.log, m.prevIndex, m.prevTerm) && 0 < fc <= |n.log| && fc <= n.commit
  }

  function HandleAppend(n: Node, m: Message): Node
    requires m.AppendEntries?
  {
    if m.term < n.term then Queue(n, AppendReply(n, m.from, false, 0))
    else
      var h := HeardLeader(n, m.from);
      if !Match(h.log, m.prevIndex, m.prevTerm) then Queue(h, AppendReply(h, m.from, false, 0))
      else
        var fc := FirstConflict(h.log, m.entries);
        var suffix := EntriesFrom(m.entries, fc);
        var (ok, store) := if fc == 0 then (true, h.store) else Mirror(h.store, fc, suffix);
        var log := if fc == 0 then h.log else Truncate(h.log, fc) + suffix;
        var w := h.(log := log, store := store);
        if !ok then Queue(w, AppendReply(w, m.from, false, 0))
        else
          var v := FollowCommit(w, m);
          Queue(v, AppendReply(v, m.from, true, |v.log|))
  }

  // ---- leader -----------------------------------------------------------

  ghost function HandleAppendResp(n: Node, m: Message): Node
    requires m.AppendEntriesResp?
  {
    if n.role != Leader || m.term != n.term then n
    else if m.success then
      AdvanceCommit(n.(matchIndex := n.matchIndex[m.from := m.matchIndex],
                       nextIndex := n.nextIndex[m.from := m.matchIndex + 1]))
    else if m.from in n.nextIndex && n.nextIndex[m.from] > 1 then
      n.(nextIndex := n.nextIndex[m.from := n.nextIndex[m.from] - 1])
    else n
  }

  /** proposeLocked: the index of the new entry, or None when the node does not
      lead or the store refuses the entry. */
  function ProposeLocked(n: Node, data: Bytes, storeFails: bool): (Node, Option<nat>) {
    if n.role != Leader then (n, None)
    else
      var index := |n.log| + 1;
      var e := Entry(n.term, index, data);
      var appended := n.(log := n.log + [e]);
      match if storeFails then None else StoreAppend(n.store, [e])
      case None => (appended.(log := Truncate(appended.log, index)), None)
      case Some(s) => (appended.(store := s, matchIndex := n.matchIndex[n.id := index]), Some(index))
  }

  /** The locked part of Propose: append, then fan out at once. */
  ghost function Propose(n: Node, data: Bytes, storeFails: bool): Node {
    var (p, index) := ProposeLocked(n, data, storeFails);
    if index.None? then p else AdvanceCommit(SendAppends(p))
  }

  // ---- ticks and dispatch -----------------------------------------------

  function TickFollower(n: Node, draw: nat): Node {
    var t := n.(timers := n.timers.(electionElapsed := n.timers.electionElapsed + 1,
                                    lastHeartbeat := n.timers.lastHeartbeat + 1));
    if t.timers.electionElapsed >= t.timers.electionTimeout then BecomeCandidate(t, draw) else t
  }

  function TickCandidate(n: Node, draw: nat): Node {
    var t := n.(timers := n.timers.(electionElapsed := n.timers.electionElapsed + 1));
    if t.timers.electionElapsed >= t.timers.electionTimeout then BecomeCandidate(t, draw) else t
  }

  ghost function TickLeader(n: Node): Node {
    var elapsed := n.timers.heartbeatElapsed + 1;
    if elapsed < n.timers.heartbeatTimeout then n.(timers := n.timers.(heartbeatElapsed := elapsed))
    else AdvanceCommit(SendAppends(n.(timers := n.timers.(heartbeatElapsed := 0))))
  }

  ghost function Tick(n: Node, draw: nat): Node {
    match n.role
    case Follower => TickFollower(n, draw)
    case Candidate => TickCandidate(n, draw)
    case Leader => TickLeader(n)
  }

  ghost function Handle(n: Node, m: Message, draw: nat): Node {
    match m
    case RequestVote(_, _, _, _, _) => HandleRequestVote(n, m, draw)
    case RequestVoteResponse(_, _, _, _) => HandleVoteResponse(n, m)
    case AppendEntries(_, _, _, _, _, _, _) => HandleAppend(n, m)
    case AppendEntriesResp(_, _, _, _, _) => HandleAppendResp(n, m)
  }

  /** stepLocked: higher terms are absorbed before the message is looked at. */
  ghost function Receive(n: Node, m: Message, draw: nat): Node {
    Handle(StepDown(n, m.term), m, draw)
  }

  predicate Panics(n: Node, m: Message) {
    m.AppendEntries? && TruncatePanics(StepDown(n, m.term), m)
  }

  // ---- Ready and restart ------------------------------------------------

  function Live(ps: seq<Pending>, epoch: nat): seq<Message> {
    if |ps| == 0 then []
    else (if ps[0].epoch == epoch then [ps[0].msg] else []) + Live(ps[1..], epoch)
  }

  /** newNode over a store that already holds a hard state and a log. */
  function Restart(id: NodeId, peers: seq<NodeId>, hs: HardState, store: Log, draw: nat): Node {
    Node(id, peers, hs.term, hs.votedFor, Follower, store, store, hs.commit, NO_NODE,
         map[], map[], {}, Timers(0, draw, 0, 0, 0), 0, [], None)
  }
}
