/** Why the hypothesis on Success replies is needed: runs of three nodes, without a
    crash or a lost store, in which two nodes commit different entries at index 1 and
    in which the truncation panic fires. */
module Witness {
  import opened Types
  import opened RaftLog
  import opened NodeSpec
  import opened KvSpec
  import opened Cluster
  import opened Safety
  import opened Trace

  const TRIO: Config := Config([1, 2, 3], data => Some(Set("k", data)), 1)

  const A: Entry := Entry(1, 1, [10])
  const B: Entry := Entry(2, 1, [20])
  const C: Entry := Entry(3, 2, [30])

  lemma TrioIsValid(c: Cluster)
    requires c.cfg == TRIO
    ensures ValidConfig(c.cfg) && 1 in c.cfg.peers && 2 in c.cfg.peers && 3 in c.cfg.peers && Members(c.cfg.peers) == {1, 2, 3}
  {
  }

  /** Node i, with node 2's vote, becomes the leader of its next term. */
  lemma Elected(c: Cluster, tight: bool, i: NodeId, v: View, w: View) returns (d: Cluster)
    requires Reachable(c, tight) && c.cfg == TRIO && i in {1, 3} && Is(c, i, v) && v.role != Leader
    requires Is(c, 2, w) && w.term <= v.term && UpToDate(LastTerm(v.log), |v.log|, LastTerm(w.log), |w.log|)
    ensures Reachable(d, tight) && Others(c, d, {i, 2})
    ensures Is(d, i, v.(term := v.term + 1, role := Leader)) && Is(d, 2, w.(term := v.term + 1, role := Follower))
    ensures Leading(d.hosts[i].n, |v.log| + 1) && Sent(d, i)
  {
    hide Reachable, LastTerm, UpToDate, Is, Others, Leading, AppendFor, Request;
    TrioIsValid(c);
    var u := v.(term := v.term + 1, role := Candidate);
    IsHost(c, i, v);
    IsHost(c, 2, w);
    var c1 := Stands(c, tight, i, v);
    StaysIs(c, c1, {i}, 2, w);
    AskedOne(c, c1, i, v.(term := v.term + 1), 2);
    var c2 := Grants(c1, tight, i, v.(term := v.term + 1), 2, w);
    StaysIs(c1, c2, {2}, i, u);
    IsHost(c2, i, u);
    assert c2.hosts[i].n.votes + {2} == {i, 2} && |{i, 2}| == 2;
    d := Wins(c2, tight, i, u, 2) by { ConfigStays(c, c1, {i}); ConfigStays(c1, c2, {2}); }
    StaysIs(c2, d, {i}, 2, w.(term := v.term + 1, role := Follower));
    OthersTrans(c, c1, c2, {i}, {2});
    OthersTrans(c, c2, d, {i} + {2}, {i});
    assert {i} + {2} + {i} == {i, 2};
  }

  /** An acknowledgement of the whole log, which ends in the current term, commits it. */
  lemma QuorumOfTwo(a: Node, i: NodeId, p: NodeId)
    requires a.peers == [1, 2, 3] && a.id == i && i in {1, 3} && p in {1, 2} && p != i && a.matchIndex.Keys == {1, 2, 3} && |a.log| > 0
    requires a.matchIndex[p] == |a.log| && forall q :: q in a.matchIndex && q != i && q != p ==> a.matchIndex[q] == 0
    ensures Quorum(a) <= |a.matchIndex| && QuorumIndex(a) == |a.log|
  {
    assert Reaching(a, |a.log|) == {i, p};
    assert Reaching(a, |a.log| + 1) == {};
    assert |{i, p}| == 2;
    assert |a.matchIndex| == |a.matchIndex.Keys|;
    QuorumIndexIsUnique(a, |a.log|, QuorumIndex(a));
  }

  lemma AckedNode(n: Node, i: NodeId, p: NodeId, v: View)
    requires NodeIs(n, [1, 2, 3], i, v) && v.role == Leader && i in {1, 3} && p in {1, 2} && p != i && n.matchIndex.Keys == {1, 2, 3}
    requires |v.log| > v.commit && TermAt(v.log, |v.log|) == v.term && forall q :: q in n.matchIndex && q != i ==> n.matchIndex[q] == 0
    ensures HandleAppendResp(n, AppendEntriesResp(v.term, p, i, true, |v.log|)).commit == |v.log|
  {
    hide IsQuorumIndex, TermAt, AdvanceCommit;
    var q := n.(matchIndex := n.matchIndex[p := |v.log|], nextIndex := n.nextIndex[p := |v.log| + 1]);
    QuorumOfTwo(q, i, p);
    Advances(q);
  }

  lemma Advances(n: Node)
    requires Quorum(n) <= |n.matchIndex| && QuorumIndex(n) == |n.log| > n.commit && TermAt(n.log, |n.log|) == n.term
    ensures AdvanceCommit(n).commit == |n.log|
  {
    hide IsQuorumIndex, TermAt;
  }

  lemma CountsAck(c: Cluster, tight: bool, i: NodeId, v: View, p: NodeId) returns (d: Cluster)
    requires Reachable(c, tight) && c.cfg == TRIO && i in {1, 3} && p in {1, 2} && p != i && Is(c, i, v) && v.role == Leader
    requires AppendEntriesResp(v.term, p, i, true, |v.log|) in c.net && |v.log| > v.commit && TermAt(v.log, |v.log|) == v.term
    requires c.hosts[i].n.matchIndex.Keys == {1, 2, 3} && forall q :: q in c.hosts[i].n.matchIndex && q != i ==> c.hosts[i].n.matchIndex[q] == 0
    ensures Reachable(d, tight) && Others(c, d, {i}) && Is(d, i, v.(commit := |v.log|))
    ensures d.hosts[i].n.matchIndex == c.hosts[i].n.matchIndex[p := |v.log|]
    ensures d.hosts[i].n.nextIndex == c.hosts[i].n.nextIndex[p := |v.log| + 1]
  {
    hide Reachable, HandleAppendResp, TermAt, NodeIs;
    AckedNode(c.hosts[i].n, i, p, v);
    d := HearsAck(c, tight, i, v, p, |v.log|);
  }

  lemma LeadingKeys(n: Node, next: nat, c: Cluster)
    requires Leading(n, next) && n.peers == c.cfg.peers && c.cfg == TRIO
    ensures n.matchIndex.Keys == {1, 2, 3} && n.nextIndex.Keys == {1, 2, 3}
    ensures forall p :: p in {1, 2, 3} ==> n.nextIndex[p] == next
    ensures forall p :: p in n.matchIndex && p != n.id ==> n.matchIndex[p] == 0
  {
    TrioIsValid(c);
  }

  /** What a leader sends a peer it probes at index next. */
  lemma ProbeAt(n: Node, ps: seq<NodeId>, i: NodeId, v: View, p: NodeId, next: nat)
    requires NodeIs(n, ps, i, v) && p in n.nextIndex && n.nextIndex[p] == next > 0
    ensures AppendFor(n, p) == AppendEntries(v.term, i, p, next - 1, TermAt(v.log, next - 1), Tail(v.log, next), v.commit)
  {
  }

  /** A new leader's first request to p carries its whole log. */
  lemma SentWhole(d: Cluster, i: NodeId, v: View, p: NodeId)
    requires d.cfg == TRIO && Is(d, i, v) && Leading(d.hosts[i].n, 1) && Sent(d, i) && p in {1, 2, 3} && p != i
    ensures AppendEntries(v.term, i, p, 0, 0, v.log, v.commit) in d.net
  {
    hide AppendFor;
    LeadingKeys(d.hosts[i].n, 1, d);
    ProbeAt(d.hosts[i].n, d.cfg.peers, i, v, p, 1);
    assert AppendFor(d.hosts[i].n, p) in d.net;
    assert Tail(v.log, 1) == v.log;
  }

  // ---- the run -------------------------------------------------------------------------------------

  /** Node 1 leads term 1 and keeps an entry to itself. */
  lemma NodeOneLeads(tight: bool) returns (d: Cluster)
    ensures Reachable(d, tight) && d.cfg == TRIO
    ensures Is(d, 1, View(1, Leader, [A], 0)) && Is(d, 2, View(1, Follower, [], 0)) && Is(d, 3, View(0, Follower, [], 0))
    ensures Leading(d.hosts[1].n, 1) && Sent(d, 1)
  {
    hide Reachable, NodeIs, Leading, AppendFor, Quiet;
    d := Start(TRIO, tight);
    var zero := View(0, Follower, [], 0);
    assert Is(d, 1, zero) && Is(d, 2, zero) && Is(d, 3, zero);
    d := Elected(d, tight, 1, zero, zero);
    d := Proposes(d, tight, 1, View(1, Leader, [], 0), 1, [10]);
    assert [] + [A] == [A];
  }

  /** Node 3 leads term 2, after a first attempt in term 1. */
  lemma NodeThreeRises(c: Cluster, tight: bool) returns (d: Cluster)
    requires Reachable(c, tight) && c.cfg == TRIO && Is(c, 2, View(1, Follower, [], 0)) && Is(c, 3, View(0, Follower, [], 0))
    ensures Reachable(d, tight) && Others(c, d, {2, 3}) && AppendEntries(2, 3, 1, 0, 0, [], 0) in d.net
    ensures Is(d, 2, View(2, Follower, [], 0)) && Is(d, 3, View(2, Leader, [], 0)) && Leading(d.hosts[3].n, 1)
  {
    hide Reachable, NodeIs, Quiet, AppendFor;
    d := Stands(c, tight, 3, View(0, Follower, [], 0));
    d := Elected(d, tight, 3, View(1, Candidate, [], 0), View(1, Follower, [], 0));
    SentWhole(d, 3, View(2, Leader, [], 0), 1);
  }

  lemma NodeThreeLeads() returns (d: Cluster)
    ensures Reachable(d, false) && d.cfg == TRIO && AppendEntries(2, 3, 1, 0, 0, [], 0) in d.net
    ensures Is(d, 1, View(1, Leader, [A], 0)) && Is(d, 2, View(2, Follower, [], 0)) && Is(d, 3, View(2, Leader, [], 0))
    ensures Leading(d.hosts[3].n, 1)
  {
    hide Reachable, NodeIs, Quiet, Leading;
    var c := NodeOneLeads(false);
    d := NodeThreeRises(c, false);
  }

  /** Node 3 commits its own entry on node 1's acknowledgement. */
  lemma NodeThreeCommits() returns (d: Cluster)
    ensures Reachable(d, false) && d.cfg == TRIO
    ensures Is(d, 1, View(2, Follower, [A], 0)) && Is(d, 2, View(2, Follower, [], 0)) && Is(d, 3, View(2, Leader, [B], 1))
  {
    hide Reachable, NodeIs, Quiet, AppendFor;
    d := NodeThreeLeads();
    d := OverAcks(d, 3, 1, View(1, Leader, [A], 0), 2);
    d := Proposes(d, false, 3, View(2, Leader, [], 0), 1, [20]);
    assert [] + [B] == [B];
    FlushedIs(d.hosts[3].n, d.cfg.peers, 3, View(2, Leader, [B], 0));
    LeadingKeys(d.hosts[3].n, 1, d);
    d := CountsAck(d, false, 3, View(2, Leader, [B], 0), 1);
  }

  /** Node 1 leads term 3 without node 3's entry. */
  lemma NodeOneReturns() returns (d: Cluster)
    ensures Reachable(d, false) && d.cfg == TRIO
    ensures Is(d, 1, View(3, Leader, [A], 0)) && Is(d, 2, View(3, Follower, [], 0)) && Is(d, 3, View(2, Leader, [B], 1))
    ensures Leading(d.hosts[1].n, 2) && Sent(d, 1)
  {
    hide Reachable, NodeIs, Quiet, AppendFor, Leading;
    d := NodeThreeCommits();
    d := Elected(d, false, 1, View(2, Follower, [A], 0), View(2, Follower, [], 0));
  }

  /** Node 1's probe of peer p misses, and the next one carries its whole log. */
  lemma ProbesBack(c: Cluster, p: NodeId, v: View, w: View, log: Log) returns (d: Cluster)
    requires Reachable(c, false) && c.cfg == TRIO && p in {2, 3} && Is(c, 1, v) && v == View(3, Leader, log, 0) && Is(c, p, w)
    requires log == [A] || log == [A, C]
    requires w.term <= 3 && !Match(w.log, 1, 1) && Leading(c.hosts[1].n, 2) && AppendEntries(3, 1, p, 1, 1, [], 0) in c.net
    ensures Reachable(d, false) && Others(c, d, {1, p}) && Is(d, 1, v)
    ensures Is(d, p, if 3 > w.term then w.(term := 3, role := Follower) else w)
    ensures AppendEntries(3, 1, p, 0, 0, log, 0) in d.net
    ensures d.hosts[1].n.matchIndex.Keys == {1, 2, 3} && forall q :: q in d.hosts[1].n.matchIndex && q != 1 ==> d.hosts[1].n.matchIndex[q] == 0
  {
    hide Reachable, Is, Others, Leading, Sent, AppendFor, Match, Members;
    TrioIsValid(c);
    IsHost(c, 1, v);
    LeadingKeys(c.hosts[1].n, 2, c);
    var c1 := Refuses(c, 1, p, w, 3, 1, 1);
    StaysIs(c, c1, {p}, 1, v);
    ConfigStays(c, c1, {p});
    var c2 := BacksOff(c1, 1, v, p);
    IsHost(c2, 1, v);
    d := Beats(c2, false, 1, v);
    OthersTrans(c1, c2, d, {1}, {1});
    OthersTrans(c, c1, d, {p}, {1} + {1});
    assert {p} + ({1} + {1}) == {1, p};
    StaysIs(c1, d, {1} + {1}, p, if 3 > w.term then w.(term := 3, role := Follower) else w);
    ConfigStays(c, d, {1, p});
    ProbesWhole(d, p, v, log);
  }

  lemma ProbesWhole(d: Cluster, p: NodeId, v: View, log: Log)
    requires Is(d, 1, v) && v == View(3, Leader, log, 0) && p in d.cfg.peers && p != 1 && Sent(d, 1)
    requires p in d.hosts[1].n.nextIndex && d.hosts[1].n.nextIndex[p] == 1
    ensures AppendEntries(3, 1, p, 0, 0, log, 0) in d.net
  {
    hide AppendFor;
    ProbeAt(d.hosts[1].n, d.cfg.peers, 1, v, p, 1);
    assert AppendFor(d.hosts[1].n, p) in d.net;
    assert Tail(log, 1) == log;
  }

  lemma FirstProbe(d: Cluster, p: NodeId)
    requires d.cfg == TRIO && p in {2, 3} && Is(d, 1, View(3, Leader, [A], 0)) && Leading(d.hosts[1].n, 2) && Sent(d, 1)
    ensures AppendEntries(3, 1, p, 1, 1, [], 0) in d.net
  {
    hide NodeIs, AppendFor;
    FlushedIs(d.hosts[1].n, d.cfg.peers, 1, View(3, Leader, [A], 0));
    LeadingKeys(d.hosts[1].n, 2, d);
    ProbeAt(d.hosts[1].n, d.cfg.peers, 1, View(3, Leader, [A], 0), p, 2);
    assert AppendFor(d.hosts[1].n, p) in d.net;
  }

  /** ... and, once it has made an entry, brings node 2 up to it. */
  lemma NodeTwoFollows() returns (d: Cluster)
    ensures Reachable(d, false) && d.cfg == TRIO
    ensures Is(d, 1, View(3, Leader, [A, C], 0)) && Is(d, 3, View(2, Leader, [B], 1)) && AppendEntriesResp(3, 2, 1, true, 2) in d.net
    ensures d.hosts[1].n.matchIndex.Keys == {1, 2, 3} && forall q :: q in d.hosts[1].n.matchIndex && q != 1 ==> d.hosts[1].n.matchIndex[q] == 0
  {
    hide Reachable, NodeIs, Quiet, Leading, AppendFor;
    d := NodeOneReturns();
    FirstProbe(d, 2);
    d := Proposes(d, false, 1, View(3, Leader, [A], 0), 2, [30]);
    assert [A] + [C] == [A, C];
    d := ProbesBack(d, 2, View(3, Leader, [A, C], 0), View(3, Follower, [], 0), [A, C]);
    assert [] + [A, C] == [A, C];
    d := Extends(d, false, 1, 2, View(3, Follower, [], 0), [A, C]);
  }

  /** ... and commits its own entry. */
  lemma NodeOneCommits() returns (d: Cluster)
    ensures Reachable(d, false) && d.cfg == TRIO
    ensures Is(d, 1, View(3, Leader, [A, C], 2)) && Is(d, 3, View(2, Leader, [B], 1))
  {
    hide Reachable, NodeIs, Quiet;
    d := NodeTwoFollows();
    d := CountsAck(d, false, 1, View(3, Leader, [A, C], 0), 2);
  }

  /** Without the hypothesis State Machine Safety and Leader Completeness fail: in
      some run nodes 1 and 3 commit different entries at index 1, and the leader of
      term 3 lacks what a node of term 2 has committed. By StateMachineSafety such a
      run has a Success reply that is not true. */
  lemma HypothesisIsNeeded()
    ensures ValidConfig(TRIO)
    ensures exists steps :: var c := Run(Init(TRIO, ONE_TICK), steps);
            && 1 in c.hosts && 3 in c.hosts
            && var one, three := c.hosts[1].n, c.hosts[3].n;
            && one.commit >= 1 && three.commit >= 1 && |one.log| >= 1 && |three.log| >= 1 && one.log[0] != three.log[0]
            && one.role == Leader && one.term > three.term
            && !TrueAcks(Init(TRIO, ONE_TICK), steps)
  {
    hide Run, Init, TrueAcks;
    var c := NodeOneCommits();
    var steps :| c == Run(Init(TRIO, ONE_TICK), steps);
    assert steps[..|steps|] == steps;
    if TrueAcks(Init(TRIO, ONE_TICK), steps) {
      StateMachineSafety(TRIO, ONE_TICK, steps, |steps|, |steps|, 1, 3, 1);
    }
  }

  /** Without the hypothesis the truncation panic is reachable: in some run a message
      on the wire makes node 3 rewrite the entry it has committed. */
  lemma PanicIsReachable()
    ensures exists steps, m :: var c := Run(Init(TRIO, ONE_TICK), steps); Deliverable(c, 3, m) && Panics(c.hosts[3].n, m)
  {
    hide Run, Init, Leading;
    var c := NodeOneReturns();
    FirstProbe(c, 3);
    c := ProbesBack(c, 3, View(3, Leader, [A], 0), View(2, Leader, [B], 1), [A]);
    var m := AppendEntries(3, 1, 3, 0, 0, [A], 0);
    assert FirstConflict([B], [A]) == 1;
    var steps :| c == Run(Init(TRIO, ONE_TICK), steps);
    assert Deliverable(c, 3, m) && Panics(c.hosts[3].n, m);
  }

  /** The hypothesis is met by ordinary runs: in one of them node 1 leads, replicates
      its entry to node 2 and commits it. */
  lemma HypothesisIsMet()
    ensures exists steps :: var c := Run(Init(TRIO, ONE_TICK), steps);
            && TrueAcks(Init(TRIO, ONE_TICK), steps)
            && 1 in c.hosts && c.hosts[1].n.commit == 1 && c.hosts[1].n.log == [A]
  {
    hide Run, Init, TrueAcks;
    var d := NodeOneCommitsTruly();
    var steps :| d == Run(Init(TRIO, ONE_TICK), steps) && TrueAcks(Init(TRIO, ONE_TICK), steps);
  }

  lemma NodeTwoAcks() returns (d: Cluster)
    ensures Reachable(d, true) && d.cfg == TRIO && Is(d, 1, View(1, Leader, [A], 0)) && AppendEntriesResp(1, 2, 1, true, 1) in d.net
    ensures d.hosts[1].n.matchIndex.Keys == {1, 2, 3} && forall q :: q in d.hosts[1].n.matchIndex && q != 1 ==> d.hosts[1].n.matchIndex[q] == 0
  {
    hide Reachable, AppendFor, Quiet, Leading, NodeIs;
    d := NodeOneLeads(true);
    FlushedIs(d.hosts[1].n, d.cfg.peers, 1, View(1, Leader, [A], 0));
    LeadingKeys(d.hosts[1].n, 1, d);
    SentWhole(d, 1, View(1, Leader, [A], 0), 2);
    assert [] + [A] == [A];
    d := Extends(d, true, 1, 2, View(1, Follower, [], 0), [A]);
  }

  lemma NodeOneCommitsTruly() returns (d: Cluster)
    ensures Reachable(d, true) && d.cfg == TRIO && Is(d, 1, View(1, Leader, [A], 1))
  {
    hide Reachable, NodeIs, Quiet;
    d := NodeTwoAcks();
    d := CountsAck(d, true, 1, View(1, Leader, [A], 0), 2);
  }
}
