/** Commit indexes: each is vouched for by a chosen entry, so committed prefixes
    never disagree and are never truncated. */
module Commits {
  import opened Types
  import opened RaftLog
  import opened NodeSpec
  import opened Cluster
  import opened Shape
  import opened Votes
  import opened Logs
  import opened LogSteps
  import opened Actions
  import opened Acks

  /** v vouches durably and in the open for term t's entry at k. */
  predicate Vouches(c: Cluster, v: NodeId, k: nat, t: nat) {
    (t in c.elections && c.elections[t].leader == v) || NetAck(c.net, t, v, k)
  }

  predicate ChosenBy(c: Cluster, a: set<NodeId>, k: nat, t: nat) {
    && a <= c.hosts.Keys && |a| >= |c.cfg.peers| / 2 + 1
    && forall v :: v in a ==> Vouches(c, v, k, t)
  }

  /** A leader may count term t's entry at k as committed. */
  ghost predicate Chosen(c: Cluster, k: nat, t: nat) {
    Real(c.elections, k, t) && exists a :: ChosenBy(c, a, k, t)
  }

  /** Entry (k, u) is chosen, not later than term t, and covers the first x entries of log. */
  ghost predicate Covers(c: Cluster, k: nat, u: nat, x: nat, t: nat, log: Log) {
    Chosen(c, k, u) && u in c.elections && u <= t && x <= k && SamePrefix(log, c.elections[u].log, x)
  }

  ghost predicate CommitOk(c: Cluster, x: nat, t: nat, log: Log) {
    x == 0 || exists k: nat, u: nat :: Covers(c, k, u, x, t, log)
  }

  ghost predicate HostCommitOk(c: Cluster, i: NodeId)
    requires i in c.hosts
  {
    var h := c.hosts[i];
    && CommitOk(c, h.hs.commit, h.hs.term, h.n.log)
    && CommitOk(c, InFlight(h).commit, InFlight(h).term, h.n.log)
    && CommitOk(c, h.n.commit, h.n.term, h.n.log)
  }

  ghost predicate HostCommitsOk(c: Cluster) { forall i :: i in c.hosts ==> HostCommitOk(c, i) }

  predicate AllBacked(c: Cluster) { forall i :: i in c.hosts ==> Backed(c, c.hosts[i].n) }

  ghost predicate WireCommitOk(c: Cluster, m: Message) {
    m.AppendEntries? ==> m.term in c.elections && CommitOk(c, m.leaderCommit, m.term, c.elections[m.term].log)
  }

  ghost predicate WireCommitsOk(c: Cluster) { forall m :: Claimed(c, m) ==> WireCommitOk(c, m) }

  ghost predicate CommitsInv(c: Cluster) { AllBacked(c) && HostCommitsOk(c) && WireCommitsOk(c) }

  // ---- chosen entries reach every later leader --------------------------------------

  lemma VouchIsAck(c: Cluster, v: NodeId, k: nat, t: nat)
    requires Vouches(c, v, k, t)
    ensures Acked(c, v, k, t)
  {
    if !(t in c.elections && c.elections[t].leader == v) {
      var m :| m in c.net && m.AppendEntriesResp? && m.success && m.term == t && m.from == v && m.matchIndex >= k;
      assert Claimed(c, m) && IsAck(m, v, k, t);
    }
  }

  /** Leader Completeness in one state. */
  lemma ChosenReachesLeader(c: Cluster, k: nat, t: nat, u: nat)
    requires BaseInv(c) && AcksInv(c) && Chosen(c, k, t) && u in c.elections && u >= t
    ensures SamePrefix(c.elections[t].log, c.elections[u].log, k)
  {
    hide ShapeInv, VotesInv, LogsInv, AckBound, HoldsAcks, VotesInform, WinnersKnow, Vouches, Acked, LogOk;
    var a :| ChosenBy(c, a, k, t);
    if u > t {
      forall v | v in a ensures Acked(c, v, k, t) { VouchIsAck(c, v, k, t); }
      QuorumReachesLeader(c, a, u, k, t);
      TermLogsAt(c, t);
      TermLogsAt(c, u);
      LogsMatch(c.elections, c.elections[t].log, c.elections[u].log, k - 1);
    }
  }

  lemma TermLogsAt(c: Cluster, t: nat)
    requires LogsInv(c) && t in c.elections
    ensures LogOk(c.elections, c.elections[t].log) && WellFormed(c.elections[t].log)
  {
    hide HostLogsOk, AppendsOk, NoneStuck;
    TermLogIsOk(c.elections, t);
  }

  lemma ChosenIsReal(c: Cluster, k: nat, t: nat)
    requires Chosen(c, k, t)
    ensures t in c.elections && Has(c.elections[t].log, k, t)
  {
  }

  lemma CommitIsWithin(c: Cluster, y: nat, u: nat, M: Log)
    requires CommitOk(c, y, u, M)
    ensures y <= |M|
  {
  }

  // ---- what growth keeps -------------------------------------------------------------

  ghost predicate Later(c: Cluster, c': Cluster) {
    c'.cfg == c.cfg && c'.hosts.Keys == c.hosts.Keys && c.net <= c'.net && EsLe(c.elections, c'.elections)
  }

  lemma ChosenStays(c: Cluster, c': Cluster, k: nat, t: nat)
    requires Later(c, c') && Chosen(c, k, t)
    ensures Chosen(c', k, t) && t in c'.elections
    ensures SamePrefix(c.elections[t].log, c'.elections[t].log, |c.elections[t].log|)
  {
    var a :| ChosenBy(c, a, k, t);
    assert ChosenBy(c', a, k, t) by {
      forall v | v in a ensures Vouches(c', v, k, t) { assert Vouches(c, v, k, t); }
    }
  }

  lemma CommitStays(c: Cluster, c': Cluster, x: nat, t: nat, log: Log, t': nat, log': Log)
    requires Later(c, c') && CommitOk(c, x, t, log) && t <= t' && SamePrefix(log, log', x)
    ensures CommitOk(c', x, t', log')
  {
    hide Later, Chosen;
    if x > 0 {
      var k: nat, u: nat :| Covers(c, k, u, x, t, log);
      ChosenStays(c, c', k, u);
      ChosenIsReal(c, k, u);
      assert Covers(c', k, u, x, t', log');
    }
  }

  lemma WireCommitStays(c: Cluster, c': Cluster, m: Message)
    requires Later(c, c') && WireCommitOk(c, m)
    ensures WireCommitOk(c', m)
  {
    hide CommitOk;
    if m.AppendEntries? {
      assert m.leaderCommit <= |c.elections[m.term].log| by { CommitIsWithin(c, m.leaderCommit, m.term, c.elections[m.term].log); }
      CommitStays(c, c', m.leaderCommit, m.term, c.elections[m.term].log, m.term, c'.elections[m.term].log);
    }
  }

  lemma BackedStays(c: Cluster, c': Cluster, n: Node)
    requires c.net <= c'.net && Backed(c, n)
    ensures Backed(c', n)
  {
    if n.role == Leader {
      forall p | p in n.matchIndex && p != n.id && n.matchIndex[p] > 0 ensures NetAck(c'.net, n.term, p, n.matchIndex[p]) {
        assert NetAck(c.net, n.term, p, n.matchIndex[p]);
      }
    }
  }

  lemma HostCommitStays(c: Cluster, c': Cluster, i: NodeId)
    requires Later(c, c') && i in c.hosts && HostCommitOk(c, i) && Chain(c.hosts[i])
    requires var h, h' := c.hosts[i], c'.hosts[i];
             && (h'.hs == h.hs || h'.hs == InFlight(h))
             && (InFlight(h') == InFlight(h) || InFlight(h') == Current(h.n) || InFlight(h') == h'.hs)
             && ((h'.n.commit == h.n.commit && h'.n.term >= h.n.term) || Current(h'.n) == h'.hs)
             && SamePrefix(h.n.log, h'.n.log, h.n.commit)
    ensures HostCommitOk(c', i)
  {
    hide CommitOk, Later;
    LaterParts(c, c');
    var h, h' := c.hosts[i], c'.hosts[i];
    assert h.hs.commit <= InFlight(h).commit <= h.n.commit;
    CommitStays(c, c', h.hs.commit, h.hs.term, h.n.log, h.hs.term, h'.n.log);
    CommitStays(c, c', InFlight(h).commit, InFlight(h).term, h.n.log, InFlight(h).term, h'.n.log);
    CommitStays(c, c', h.n.commit, h.n.term, h.n.log, h.n.term, h'.n.log);
    if h'.n.commit == h.n.commit && h'.n.term >= h.n.term {
      CommitStays(c, c', h.n.commit, h.n.term, h.n.log, h'.n.term, h'.n.log);
    }
  }

  /** Node i changes without saying anything; its own facts need a proof. */
  lemma QuietKeepsCommits(c: Cluster, c': Cluster, i: NodeId)
    requires CommitsInv(c) && Later(c, c') && NoNewClaims(c, c') && i in c.hosts
    requires forall j :: j in c.hosts && j != i ==> c'.hosts[j] == c.hosts[j] && Chain(c.hosts[j])
    requires HostCommitOk(c', i) && Backed(c', c'.hosts[i].n)
    requires forall j :: j in c.hosts ==> c.hosts[j].n.commit <= |c.hosts[j].n.log|
    ensures CommitsInv(c')
  {
    hide Claimed, CommitOk, Later, Backed, WireCommitOk, Chain;
    LaterParts(c, c');
    forall j | j in c'.hosts ensures HostCommitOk(c', j) && Backed(c', c'.hosts[j].n) {
      if j != i {
        assert HostCommitOk(c, j) && Backed(c, c.hosts[j].n);
        HostCommitStays(c, c', j);
        BackedStays(c, c', c.hosts[j].n);
      }
    }
    forall m | Claimed(c', m) ensures WireCommitOk(c', m) {
      assert WireCommitOk(c, m);
      WireCommitStays(c, c', m);
    }
  }

  lemma LaterParts(c: Cluster, c': Cluster)
    requires Later(c, c')
    ensures c.net <= c'.net && c'.hosts.Keys == c.hosts.Keys
  {
  }

  // ---- every action keeps commits -------------------------------------------------------

  lemma HostFacts(c: Cluster)
    requires BaseInv(c)
    ensures forall j :: j in c.hosts ==> Chain(c.hosts[j]) && c.hosts[j].n.commit <= |c.hosts[j].n.log|
  {
    hide VotesInv, LogsInv, NetOk, PipeOk, Chain;
    forall j | j in c.hosts ensures Chain(c.hosts[j]) && c.hosts[j].n.commit <= |c.hosts[j].n.log| {
      assert HostOk(c.cfg, j, c.hosts[j]);
    }
  }

  lemma CommitsAt(c: Cluster, i: NodeId)
    requires CommitsInv(c) && i in c.hosts
    ensures HostCommitOk(c, i) && Backed(c, c.hosts[i].n)
  {
    hide CommitOk, Backed, WireCommitsOk, HostCommitOk;
  }

  lemma PutNodeIsLater(c: Cluster, i: NodeId, n: Node)
    requires i in c.hosts && EsLe(c.elections, PutNode(c, i, n).elections)
    ensures Later(c, PutNode(c, i, n))
  {
    hide EsLe;
  }

  lemma HsOfNode(h: Host, n: Node)
    ensures h.(n := n).hs == h.hs && InFlight(h.(n := n)) == InFlight(h)
  {
  }

  /** The commit index and what it covers stay; the term may rise. */
  lemma SteadyKeepsCommits(c: Cluster, i: NodeId, n: Node)
    requires BaseInv(c) && CommitsInv(c) && i in c.hosts && n.pending == c.hosts[i].n.pending
    requires n.commit == c.hosts[i].n.commit && n.term >= c.hosts[i].n.term
    requires SamePrefix(c.hosts[i].n.log, n.log, n.commit)
    requires EsLe(c.elections, PutNode(c, i, n).elections) && Backed(c, n)
    ensures CommitsInv(PutNode(c, i, n))
  {
    hide BaseInv, CommitsInv, EsLe, Backed, CommitOk, NoNewClaims, Later, SamePrefix, Chain;
    var c' := PutNode(c, i, n);
    HostFacts(c);
    CommitsAt(c, i);
    PutNodeIsLater(c, i, n);
    SilentIsSilent(c, i, n);
    HsOfNode(c.hosts[i], n);
    HostCommitStays(c, c', i);
    BackedStays(c, c', n);
    QuietKeepsCommits(c, c', i);
  }

  lemma SettleKeepsCommits(c: Cluster, i: NodeId, n: Node)
    requires BaseInv(c) && CommitsInv(c) && i in c.hosts && HostOk(c.cfg, i, c.hosts[i].(n := n)) && CanSettle(c, i, n)
    ensures CommitsInv(PutNode(c, i, n))
  {
    hide BaseInv, CommitsInv, HostOk, EsLe;
    SettleKeepsBase(c, i, n);
    EsLeRefl(c.elections);
    HostFacts(c);
    CommitsAt(c, i);
    SteadyKeepsCommits(c, i, n);
  }

  lemma ReignKeepsCommits(c: Cluster, i: NodeId, n: Node)
    requires BaseInv(c) && CommitsInv(c) && Can(c, Reign(i, n), true)
    ensures CommitsInv(PutNode(c, i, n))
  {
    hide BaseInv, CommitsInv, HostOk, EsLe;
    ReignKeepsBase(c, i, n);
    HostFacts(c);
    SteadyKeepsCommits(c, i, n);
  }

  lemma GrowKeepsCommits(c: Cluster, i: NodeId, n: Node, x: Entry)
    requires BaseInv(c) && CommitsInv(c) && Can(c, Grow(i, n, x), true)
    ensures CommitsInv(PutNode(c, i, n))
  {
    hide BaseInv, CommitsInv, HostOk, EsLe, Backed;
    GrowKeepsBase(c, i, n, x);
    HostFacts(c);
    CommitsAt(c, i);
    SteadyKeepsCommits(c, i, n);
  }

  /** No committed entry is ever truncated: the panic of assertTruncateAboveCommit
      is unreachable, and what follows the commit index is all that can change. */
  lemma CommittedIsNotRewritten(c: Cluster, i: NodeId, n: Node, m: Message, keep: nat)
    requires BaseInv(c) && AcksInv(c) && CommitsInv(c) && i in c.hosts && CanAdopt(c, i, n, m, keep)
    ensures SamePrefix(c.hosts[i].n.log, n.log, n.commit)
    ensures FirstConflict(c.hosts[i].n.log, m.entries) != 0 ==> FirstConflict(c.hosts[i].n.log, m.entries) > n.commit
  {
    hide BaseInv, AcksInv, CommitsInv, LogOk, TermLogsOk, FirstConflict, EntriesFrom, Match, Accept, Chosen;
    AdoptFacts(c, i, n, m, keep);
    CommitsAt(c, i);
    var o, M := c.hosts[i].n, c.elections[m.term].log;
    if n.commit > 0 {
      var k: nat, u: nat :| Covers(c, k, u, o.commit, o.term, o.log);
      ChosenReachesLeader(c, k, u, m.term);
      assert SamePrefix(o.log, M, n.commit);
    }
  }

  lemma AdoptKeepsCommits(c: Cluster, i: NodeId, n: Node, m: Message, keep: nat)
    requires BaseInv(c) && AcksInv(c) && CommitsInv(c) && Can(c, Adopt(i, n, m, keep), true)
    ensures CommitsInv(PutNode(c, i, n))
  {
    hide BaseInv, AcksInv, CommitsInv, HostOk, EsLe, SamePrefix, Accept, Match, FirstConflict;
    CommittedIsNotRewritten(c, i, n, m, keep);
    AdoptKeepsBase(c, i, n, m, keep);
    EsLeRefl(c.elections);
    SteadyKeepsCommits(c, i, n);
  }

  // ---- advancing the commit index ---------------------------------------------------------

  lemma LeaderChooses(c: Cluster, i: NodeId, x: nat)
    requires BaseInv(c) && CommitsInv(c) && i in c.hosts && c.hosts[i].n.role == Leader && x > 0
    requires TermAt(c.hosts[i].n.log, x) == c.hosts[i].n.term && |Reaching(c.hosts[i].n, x)| >= Quorum(c.hosts[i].n)
    ensures Covers(c, x, c.hosts[i].n.term, x, c.hosts[i].n.term, c.hosts[i].n.log)
  {
    hide BaseInv, ShapeInv, VotesInv, LogsInv, CommitsInv, NetAck;
    var n := c.hosts[i].n;
    BaseParts(c);
    LeaderFacts(c, i);
    StoreIsLog(c, i);
    CommitsAt(c, i);
    TrackedPeers(c, i);
    var a := Reaching(n, x);
    forall v | v in a ensures Vouches(c, v, x, n.term) {
      if v != i {
        assert NetAck(c.net, n.term, v, n.matchIndex[v]);
        LowerAck(c.net, n.term, v, n.matchIndex[v], x);
      }
    }
    assert ChosenBy(c, a, x, n.term);
  }

  lemma LowerAck(net: set<Message>, t: nat, v: NodeId, x: nat, y: nat)
    requires NetAck(net, t, v, x) && y <= x
    ensures NetAck(net, t, v, y)
  {
    var m :| m in net && m.AppendEntriesResp? && m.success && m.term == t && m.from == v && m.matchIndex >= x;
    assert m.matchIndex >= y;
  }

  lemma TrackedPeers(c: Cluster, i: NodeId)
    requires BaseInv(c) && i in c.hosts
    ensures c.hosts[i].n.matchIndex.Keys <= c.hosts.Keys
  {
    hide VotesInv, LogsInv, NetOk, PipeOk, Chain;
    assert HostOk(c.cfg, i, c.hosts[i]);
  }

  lemma FollowerLearns(c: Cluster, m: Message, x: nat, t: nat, log: Log)
    requires CommitsInv(c) && m in c.net && m.AppendEntries? && m.term <= t && x <= m.leaderCommit
    requires m.term in c.elections && SamePrefix(log, c.elections[m.term].log, x)
    ensures CommitOk(c, x, t, log)
  {
    hide AllBacked, HostCommitsOk, Chosen;
    assert Claimed(c, m) && WireCommitOk(c, m);
    if x > 0 {
      var M := c.elections[m.term].log;
      var k: nat, u: nat :| Covers(c, k, u, m.leaderCommit, m.term, M);
      assert Covers(c, k, u, x, t, log);
    }
  }

  lemma AdvanceIsCovered(c: Cluster, i: NodeId, n: Node, m: Message)
    requires BaseInv(c) && CommitsInv(c) && i in c.hosts && CanAdvance(c, i, n, m)
    ensures CommitOk(c, n.commit, n.term, n.log)
  {
    hide BaseInv, CommitsInv, Covers;
    if c.hosts[i].n.role == Leader {
      LeaderChooses(c, i, n.commit);
    } else {
      FollowerLearns(c, m, n.commit, n.term, n.log);
    }
  }

  lemma AdvanceKeepsCommits(c: Cluster, i: NodeId, n: Node, m: Message)
    requires BaseInv(c) && CommitsInv(c) && Can(c, Advance(i, n, m), true)
    ensures CommitsInv(PutNode(c, i, n))
  {
    hide BaseInv, CommitsInv, HostOk, EsLe, CommitOk, NoNewClaims, Later, Chain;
    var c' := PutNode(c, i, n);
    AdvanceIsCovered(c, i, n, m);
    CommitIsWithin(c, n.commit, n.term, n.log);
    AdvanceKeepsBase(c, i, n, m);
    EsLeRefl(c.elections);
    HostFacts(c);
    CommitsAt(c, i);
    PutNodeIsLater(c, i, n);
    SilentIsSilent(c, i, n);
    HsOfNode(c.hosts[i], n);
    CommitStays(c, c', n.commit, n.term, n.log, n.term, n.log);
    var h := c.hosts[i];
    assert h.hs.commit <= InFlight(h).commit <= h.n.commit by { ChainCommits(h); }
    CommitStays(c, c', h.hs.commit, h.hs.term, h.n.log, h.hs.term, n.log);
    CommitStays(c, c', InFlight(h).commit, InFlight(h).term, h.n.log, InFlight(h).term, n.log);
    BackedStays(c, c', n);
    QuietKeepsCommits(c, c', i);
  }

  lemma ChainCommits(h: Host)
    requires Chain(h)
    ensures h.hs.commit <= InFlight(h).commit <= h.n.commit
  {
  }

  // ---- messages and the driver ----------------------------------------------------------------

  lemma SayKeepsCommits(c: Cluster, i: NodeId, ms: seq<Message>)
    requires BaseInv(c) && CommitsInv(c) && i in c.hosts && (forall m :: m in ms ==> CanSay(c, i, m, true))
    ensures CommitsInv(Act(c, Say(i, ms)))
  {
    hide BaseInv, MaySay, FairGrant, AppendOk, Covered, CommitOk, Backed, TrueAck, EsLe, Later, Chain;
    var n := c.hosts[i].n;
    var n' := QueueAll(n, ms);
    var c' := PutNode(c, i, n');
    assert forall m :: m in ms ==> CanSay(c, i, m, false);
    SayKeepsBase(c, i, ms);
    EsLeRefl(c.elections);
    PutNodeIsLater(c, i, n');
    HostFacts(c);
    SayIsQuietForHost(c, c', i);
    hide QueueAll;
    forall m | Claimed(c', m) ensures WireCommitOk(c', m) {
      QueueClaims(c, i, ms, m);
      if !Claimed(c, m) {
        assert CanSay(c, i, m, true);
        if m.AppendEntries? { LeaderSpeaks(c, i); }
      }
      WireCommitStays(c, c', m);
    }
    hide Claimed, CanSay;
  }

  lemma LeaderSpeaks(c: Cluster, i: NodeId)
    requires BaseInv(c) && CommitsInv(c) && i in c.hosts && c.hosts[i].n.role == Leader
    ensures c.hosts[i].n.term in c.elections && c.elections[c.hosts[i].n.term].log == c.hosts[i].n.log
    ensures CommitOk(c, c.hosts[i].n.commit, c.hosts[i].n.term, c.hosts[i].n.log)
  {
    hide ShapeInv, VotesInv, LogsInv, CommitsInv, CommitOk;
    RolesAt(c, i);
    CommitsAt(c, i);
  }

  lemma SayIsQuietForHost(c: Cluster, c': Cluster, i: NodeId)
    requires BaseInv(c) && CommitsInv(c) && i in c.hosts && Later(c, c')
    requires forall j :: j in c.hosts && j != i ==> c'.hosts[j] == c.hosts[j]
    requires i in c'.hosts
    requires var h, h' := c.hosts[i], c'.hosts[i];
             h'.hs == h.hs && h'.out == h.out && h'.n.(pending := h.n.pending) == h.n
    ensures HostCommitsOk(c') && AllBacked(c')
  {
    hide BaseInv, CommitsInv, CommitOk, Later, Chain;
    LaterParts(c, c');
    HostFacts(c);
    forall j | j in c'.hosts ensures HostCommitOk(c', j) && Backed(c', c'.hosts[j].n) {
      CommitsAt(c, j);
      HostCommitStays(c, c', j);
      BackedStays(c, c', c.hosts[j].n);
    }
  }

  lemma DriverKeepsCommits(c: Cluster, i: NodeId, h: Host, net: set<Message>)
    requires BaseInv(c) && CommitsInv(c) && i in c.hosts && c.net <= net
    requires var c' := PutHost(c, i, h).(net := net); NoNewClaims(c, c') && c'.elections == c.elections
    requires var o := c.hosts[i];
             && (h.hs == o.hs || h.hs == InFlight(o))
             && (InFlight(h) == InFlight(o) || InFlight(h) == Current(o.n) || InFlight(h) == h.hs)
             && (Current(h.n) == Current(o.n) || Current(h.n) == h.hs)
             && h.n.log == o.n.log
             && (h.n.role == Follower || (h.n.role == o.n.role && h.n.matchIndex == o.n.matchIndex && h.n.id == o.n.id && h.n.term == o.n.term))
    ensures CommitsInv(PutHost(c, i, h).(net := net))
  {
    hide BaseInv, CommitsInv, CommitOk, Later, Chain, NoNewClaims, EsLe, Claimed, NetAck, Act;
    var c' := PutHost(c, i, h).(net := net);
    assert Later(c, c') by { EsLeRefl(c.elections); PutIsLater(c, i, h, net); }
    HostFacts(c);
    CommitsAt(c, i);
    HostCommitStays(c, c', i);
    BackedStays(c, c', c.hosts[i].n);
    QuietKeepsCommits(c, c', i);
  }

  lemma PutIsLater(c: Cluster, i: NodeId, h: Host, net: set<Message>)
    requires i in c.hosts && c.net <= net && PutHost(c, i, h).elections == c.elections && EsLe(c.elections, c.elections)
    ensures Later(c, PutHost(c, i, h).(net := net))
  {
    hide EsLe;
  }

  lemma DrainedHs(h: Host)
    requires Chain(h) && h.out == Outbox(None, [])
    ensures InFlight(Drained(h)) == Current(h.n) && Current(Drained(h).n) == Current(h.n) && Drained(h).hs == h.hs
    ensures Drained(h).n.matchIndex == h.n.matchIndex && Drained(h).n.id == h.n.id
  {
  }

  lemma DriverActsKeepCommits(c: Cluster, a: Action)
    requires BaseInv(c) && CommitsInv(c) && Can(c, a, true)
    requires a.Hand? || a.Persist? || a.Emit? || a.Die? || a.Serve?
    ensures CommitsInv(Act(c, a))
  {
    hide ShapeInv, VotesInv, LogsInv, CommitsInv, NoNewClaims, CanServe, Drained, Chain;
    var i := a.i;
    var o := c.hosts[i];
    HostFacts(c);
    match a {
      case Hand(_) =>
        var h := Drained(o);
        HandKeepsBase(c, i);
        DrainedSaysNoMore(c, i);
        DrainedCore(o);
        DrainedHs(o);
        assert PutHost(c, i, h) == PutHost(c, i, h).(net := c.net);
        DriverKeepsCommits(c, i, h, c.net);
      case Persist(_) =>
        var h := Saved(o);
        PersistKeepsBase(c, i);
        SavedSaysNoMore(c, i);
        assert PutHost(c, i, h) == PutHost(c, i, h).(net := c.net);
        DriverKeepsCommits(c, i, h, c.net);
      case Emit(_) =>
        EmitKeepsBase(c, i);
        SentSaysNoMore(c, i);
        DriverKeepsCommits(c, i, Sent(o), c.net + {o.out.msgs[0]});
      case Die(_, draw) =>
        var h := Reboot(c.cfg, i, o.hs, o.n.store, o.app.snap, draw);
        StoreIsLog(c, i);
        RebootSaysNoMore(c, i, o.n.store, draw);
        DieKeepsBase(c, i, draw);
        assert PutHost(c, i, h) == PutHost(c, i, h).(net := c.net);
        DriverKeepsCommits(c, i, h, c.net);
      case Serve(_, app) =>
        var h := o.(app := app);
        ServeKeepsBase(c, i, app);
        ServeSaysNoMore(c, i, app);
        assert PutHost(c, i, h) == PutHost(c, i, h).(net := c.net);
        DriverKeepsCommits(c, i, h, c.net);
    }
  }

  lemma ActionKeepsCommits(c: Cluster, a: Action)
    requires BaseInv(c) && AcksInv(c) && CommitsInv(c) && Can(c, a, true)
    ensures CommitsInv(Act(c, a))
  {
    hide BaseInv, AcksInv, CommitsInv, HostOk, CanSettle, CanAdopt, CanAdvance, PutHost, QueueAll, CanServe, CanSay, EsLe;
    EsLeRefl(c.elections);
    HostFacts(c);
    match a
    case Settle(i, n) => SettleKeepsCommits(c, i, n);
    case Say(i, ms) => SayKeepsCommits(c, i, ms);
    case Rise(i, n) =>
      RiseKeepsBase(c, i, n);
      SteadyKeepsCommits(c, i, n);
    case Tally(i, n, m) =>
      TallyKeepsBase(c, i, n, m);
      SteadyKeepsCommits(c, i, n);
    case Reign(i, n) => ReignKeepsCommits(c, i, n);
    case Grow(i, n, x) => GrowKeepsCommits(c, i, n, x);
    case Adopt(i, n, m, keep) => AdoptKeepsCommits(c, i, n, m, keep);
    case Advance(i, n, m) => AdvanceKeepsCommits(c, i, n, m);
    case _ => DriverActsKeepCommits(c, a);
  }
}
