/** One leader and one follower: why redelivery is harmless and why probing ends. */
module Replication {
  import opened Types
  import opened RaftLog
  import opened NodeSpec
  import opened Cluster
  import opened Shape
  import opened Votes
  import opened Logs
  import opened LogSteps
  import opened Actions
  import opened Acks
  import opened Commits
  import opened Applied
  import opened Refinement
  import opened Theorems
  import opened Safety
  import opened CommitRule
  import opened Claims

  // ---- redelivery ------------------------------------------------------------------------

  lemma {:induction false} NothingConflicts(L: Log, M: Log, entries: seq<Entry>, p: nat)
    requires WellFormed(M) && p + |entries| <= |M| && entries == M[p..p + |entries|] && SamePrefix(L, M, p + |entries|)
    ensures FirstConflict(L, entries) == 0
    decreases |entries|
  {
    if |entries| > 0 {
      assert entries[0] == M[p];
      assert entries[1..] == M[p + 1..p + 1 + |entries[1..]|];
      NothingConflicts(L, M, entries[1..], p + 1);
    }
  }

  /** m repeats part of what a follower that holds M up to k already has. */
  predicate Repeats(M: Log, k: nat, term: nat, m: Message) {
    m.AppendEntries? && m.term == term && Slice(M, m) && m.prevIndex + |m.entries| <= k
  }

  lemma RepeatChangesNothing(n: Node, M: Log, k: nat, m: Message)
    requires WellFormed(M) && SamePrefix(n.log, M, k) && Repeats(M, k, n.term, m)
    ensures Match(n.log, m.prevIndex, m.prevTerm) && FirstConflict(n.log, m.entries) == 0
    ensures var n' := HandleAppend(n, m); n'.log == n.log && n'.store == n.store && n'.term == n.term
  {
    NothingConflicts(n.log, M, m.entries, m.prevIndex);
    if m.prevIndex > 0 { assert n.log[m.prevIndex - 1] == M[m.prevIndex - 1]; }
    hide FirstConflict, EntriesFrom, Mirror, Tagged, Match;
  }

  ghost function ReceiveAll(n: Node, ms: seq<Message>, draw: nat): Node {
    if |ms| == 0 then n else Receive(ReceiveAll(n, ms[..|ms| - 1], draw), ms[|ms| - 1], draw)
  }

  /** Redelivery is harmless: once a follower holds a leader's log up to k, requests
      of that leader ending at or below k, in any order and number, leave its log
      and its stored log unchanged, and none of them can panic. */
  lemma {:induction false} RedeliveryIsHarmless(n: Node, M: Log, k: nat, ms: seq<Message>, draw: nat)
    requires WellFormed(M) && SamePrefix(n.log, M, k) && forall j :: 0 <= j < |ms| ==> Repeats(M, k, n.term, ms[j])
    ensures var n' := ReceiveAll(n, ms, draw);
            && n'.log == n.log && n'.store == n.store && n'.term == n.term
            && (|ms| > 0 ==> !Panics(ReceiveAll(n, ms[..|ms| - 1], draw), ms[|ms| - 1]))
    decreases |ms|
  {
    hide HandleAppend, Repeats, SamePrefix, Match, FirstConflict;
    if |ms| > 0 {
      var m, before := ms[|ms| - 1], ReceiveAll(n, ms[..|ms| - 1], draw);
      RedeliveryIsHarmless(n, M, k, ms[..|ms| - 1], draw);
      assert m.AppendEntries? && m.term == n.term by { RepeatParts(M, k, n.term, m); }
      assert StepDown(before, m.term) == before;
      RepeatChangesNothing(before, M, k, m);
    }
  }

  lemma RepeatParts(M: Log, k: nat, term: nat, m: Message)
    requires Repeats(M, k, term, m)
    ensures m.AppendEntries? && m.term == term
  {
  }

  // ---- probing ---------------------------------------------------------------------------

  /** A stable leader and a follower of its term whose logs obey Log Matching and
      agree on what the follower has committed. */
  predicate Paired(l: Node, f: Node) {
    && l.role == Leader && f.term == l.term > 0 && f.id in l.nextIndex && l.nextIndex[f.id] >= 1
    && WellFormed(l.log) && l.commit <= |l.log|
    && WellFormed(f.log) && f.store == f.log && Agree(f.log, l.log) && SamePrefix(f.log, l.log, f.commit)
  }

  function Probe(l: Node, f: Node): (m: Message)
    ensures m.AppendEntries?
  {
    AppendFor(l, f.id)
  }

  function Reply(f: Node, m: Message): Message
    requires m.AppendEntries?
  {
    var f' := HandleAppend(f, m);
    f'.pending[|f'.pending| - 1].msg
  }

  /** A reliable round: the leader's request reaches the follower and its reply
      reaches the leader. */
  ghost function Round(l: Node, f: Node): (Node, Node) {
    (HandleAppendResp(l, Reply(f, Probe(l, f))), HandleAppend(f, Probe(l, f)))
  }

  ghost function Rounds(l: Node, f: Node, k: nat): (Node, Node) {
    if k == 0 then (l, f) else var (l', f') := Rounds(l, f, k - 1); Round(l', f')
  }

  lemma LeaderKeepsLog(l: Node, m: Message)
    requires m.AppendEntriesResp?
    ensures var l' := HandleAppendResp(l, m); l'.log == l.log && l'.term == l.term && l'.role == l.role
    ensures l.role == Leader && m.term == l.term ==>
              HandleAppendResp(l, m).nextIndex ==
              (if m.success then l.nextIndex[m.from := m.matchIndex + 1]
               else if m.from in l.nextIndex && l.nextIndex[m.from] > 1 then l.nextIndex[m.from := l.nextIndex[m.from] - 1]
               else l.nextIndex)
    ensures l.commit <= |l.log| && l.term > 0 ==> HandleAppendResp(l, m).commit <= |l.log|
    ensures HandleAppendResp(l, m).commit >= l.commit
  {
    hide IsQuorumIndex;
    if l.role == Leader && m.term == l.term && m.success {
      AdvanceStaysWithin(l.(matchIndex := l.matchIndex[m.from := m.matchIndex],
                            nextIndex := l.nextIndex[m.from := m.matchIndex + 1]));
    }
  }

  lemma AdvanceStaysWithin(n: Node)
    requires n.role == Leader
    ensures var n' := AdvanceCommit(n);
            && n'.log == n.log && n'.term == n.term && n'.role == n.role && n'.nextIndex == n.nextIndex
            && n'.commit >= n.commit && (n.commit <= |n.log| && n.term > 0 ==> n'.commit <= |n.log|)
  {
    hide IsQuorumIndex;
  }

  /** A probe that misses: it starts beyond what the two logs share. */
  lemma MissedProbe(l: Node, f: Node)
    requires Paired(l, f) && !Match(f.log, Probe(l, f).prevIndex, Probe(l, f).prevTerm)
    ensures var (l', f') := Round(l, f);
            && Paired(l', f') && l'.log == l.log && f'.log == f.log && l'.term == l.term
            && f'.id == f.id && l.nextIndex[f.id] > 1 && l'.nextIndex[f.id] == l.nextIndex[f.id] - 1
            && l'.commit >= l.commit && f'.commit == f.commit
  {
    hide Agree, WellFormed, SamePrefix, HandleAppendResp, Tail;
    var m := Probe(l, f);
    LeaderKeepsLog(l, Reply(f, m));
  }

  lemma ProbeIsSlice(l: Node, f: Node)
    requires Paired(l, f) && Match(f.log, Probe(l, f).prevIndex, Probe(l, f).prevTerm)
    ensures var m := Probe(l, f);
            && Slice(l.log, m) && m.prevIndex + |m.entries| == |l.log|
            && m.leaderCommit == l.commit && m.term == l.term && m.from == l.id
  {
    hide Agree, SamePrefix;
  }

  lemma AcceptKeepsPair(L: Log, M: Log, m: Message, commit: nat)
    requires m.AppendEntries? && WellFormed(L) && WellFormed(M) && Slice(M, m) && Agree(L, M) && Match(L, m.prevIndex, m.prevTerm)
    requires m.prevIndex + |m.entries| == |M| && SamePrefix(L, M, commit)
    ensures var L2 := Accept(L, m.entries, |m.entries|);
            SamePrefix(L2, M, |M|) && WellFormed(L2) && Agree(L2, M)
    ensures FirstConflict(L, m.entries) == 0 || FirstConflict(L, m.entries) > commit
  {
    hide FirstConflict, Accept, Match, EntriesFrom;
    SliceOutcome(L, m, M);
  }

  /** A probe that hits: the follower ends with all of the leader's log and with the
      commit index the probe carried, if it had a lesser one. */
  lemma HitProbe(l: Node, f: Node)
    requires Paired(l, f) && Match(f.log, Probe(l, f).prevIndex, Probe(l, f).prevTerm)
    ensures var (l', f') := Round(l, f);
            && Paired(l', f') && l'.log == l.log && l'.term == l.term && f'.id == f.id
            && SamePrefix(f'.log, l.log, |l.log|) && !TruncatePanics(f, Probe(l, f))
            && l'.commit >= l.commit && f'.commit == if l.commit > f.commit then l.commit else f.commit
  {
    hide HandleAppendResp, HandleAppend, Plausible, Outcome, Accept, Match, Agree, WellFormed, FirstConflict, Probe;
    var m := Probe(l, f);
    ProbeIsSlice(l, f);
    SliceOutcome(f.log, m, l.log);
    HandleAppendAccepts(f, m, l.log);
    AcceptKeepsPair(f.log, l.log, m, f.commit);
    LeaderKeepsLog(l, Reply(f, m));
  }

  /** f holds l's log and has committed up to k. */
  predicate Caught(l: Node, f: Node, k: nat) { SamePrefix(f.log, l.log, |l.log|) && f.commit >= k }

  lemma ProbeDoesNotPanic(l: Node, f: Node)
    requires Paired(l, f)
    ensures !TruncatePanics(f, Probe(l, f))
  {
    hide Paired, Round, Probe, Match;
    if Match(f.log, Probe(l, f).prevIndex, Probe(l, f).prevTerm) { HitProbe(l, f); }
  }

  /** Each round hits or moves the probe point down by one. */
  lemma RoundGoesOn(l: Node, f: Node, c: nat)
    requires Paired(l, f) && l.commit >= c
    ensures var (l', f') := Round(l, f);
            && Paired(l', f') && l'.log == l.log && f'.id == f.id && l'.commit >= c
            && (Caught(l, f, c) ==> Caught(l', f', c))
            && (Caught(l', f', c) || (f.id in l.nextIndex && f.id in l'.nextIndex && l'.nextIndex[f.id] < l.nextIndex[f.id]))
  {
    hide Round, Probe, Match, TruncatePanics, Agree, WellFormed, SamePrefix;
    if Match(f.log, Probe(l, f).prevIndex, Probe(l, f).prevTerm) { HitProbe(l, f); } else { MissedProbe(l, f); }
  }

  /** Probing ends: after at most nextIndex reliable rounds the follower's log
      begins with the leader's whole log, and it has committed what the leader had;
      more rounds keep it so. No round panics, and the probe point never falls
      below 1. */
  lemma {:induction false} ProbingEnds(l: Node, f: Node, k: nat)
    requires Paired(l, f)
    ensures var (l', f') := Rounds(l, f, k);
            && Paired(l', f') && l'.log == l.log && f'.id == f.id && f.id in l'.nextIndex && l'.commit >= l.commit
            && !TruncatePanics(f', Probe(l', f'))
            && l'.nextIndex[f.id] >= 1
            && (Caught(l', f', l.commit) || l'.nextIndex[f.id] + k <= l.nextIndex[f.id])
            && (l.nextIndex[f.id] <= k ==> SamePrefix(f'.log, l.log, |l.log|) && f'.commit >= l.commit)
  {
    hide Round, Probe, TruncatePanics, Agree, WellFormed, SamePrefix;
    var (l', f') := Rounds(l, f, k);
    if k > 0 {
      ProbingEnds(l, f, k - 1);
      var (l1, f1) := Rounds(l, f, k - 1);
      RoundGoesOn(l1, f1, l.commit);
    }
    ProbeDoesNotPanic(l', f');
  }

  // ---- in runs -----------------------------------------------------------------------------

  lemma TermMatesArePaired(c: Cluster, i: NodeId, j: NodeId)
    requires BaseInv(c) && SafeInv(c) && i in c.hosts && j in c.hosts
    requires c.hosts[i].n.role == Leader && c.hosts[j].n.term == c.hosts[i].n.term
    ensures Paired(c.hosts[i].n, c.hosts[j].n)
  {
    hide ShapeInv, VotesInv, LogsInv, AcksInv, CommitsInv, AppsInv, LogOk, TermLogsOk, Agree, WellFormed, Chosen;
    LeaderIsRecorded(c, i);
    LeaderFacts(c, i);
    StoreIsLog(c, i);
    StoreIsLog(c, j);
    HostLogOk(c, j);
    HostAgrees(c.elections, c.hosts[i].n.term, c.hosts[j].n.log);
    LogIsWellFormed(c.elections, c.hosts[j].n.log);
    CommitsAt(c, j);
    var f := c.hosts[j].n;
    if f.commit > 0 {
      var k: nat, u: nat :| Covers(c, k, u, f.commit, f.term, f.log);
      ChosenReachesLeader(c, k, u, f.term);
    }
    ProbesAllPeers(c, i, j);
  }

  lemma ProbesAllPeers(c: Cluster, i: NodeId, j: NodeId)
    requires BaseInv(c) && i in c.hosts && j in c.hosts && c.hosts[i].n.role == Leader
    ensures c.hosts[j].n.id in c.hosts[i].n.nextIndex && c.hosts[i].n.nextIndex[c.hosts[j].n.id] >= 1
  {
    hide VotesInv, LogsInv, Chain, PipeOk, NetOk;
    assert HostOk(c.cfg, i, c.hosts[i]) && HostOk(c.cfg, j, c.hosts[j]);
  }

  /** Whenever a run that satisfies the hypothesis reaches a state with a leader and
      a node of its term, reliable rounds between them end with the node holding
      the leader's log and committing what the leader had committed. */
  lemma ProbingEndsInRuns(cfg: Config, draws: NodeId -> nat, steps: seq<Step>, i: NodeId, j: NodeId)
    requires ValidConfig(cfg) && TrueAcks(Init(cfg, draws), steps) && i in cfg.peers && j in cfg.peers
    ensures var c := Run(Init(cfg, draws), steps);
            && i in c.hosts && j in c.hosts
            && var l, f := c.hosts[i].n, c.hosts[j].n;
               l.role == Leader && f.term == l.term
               ==> && j in l.nextIndex
                   && var f' := Rounds(l, f, l.nextIndex[j]).1;
                      SamePrefix(f'.log, l.log, |l.log|) && f'.commit >= l.commit
  {
    hide BaseInv, SafeInv, Run, TrueAcks, After, Rounds, Agree, WellFormed, SamePrefix;
    var c := Run(Init(cfg, draws), steps);
    assert steps[..|steps|] == steps;
    RunIsSafe(cfg, draws, steps, |steps|, |steps|);
    var l, f := c.hosts[i].n, c.hosts[j].n;
    if l.role == Leader && f.term == l.term {
      TermMatesArePaired(c, i, j);
      StoreIsLog(c, j);
      ProbingEnds(l, f, l.nextIndex[j]);
    }
  }

  // ---- the commit rule in runs --------------------------------------------------------------------

  lemma PeersReachWithin(c: Cluster, i: NodeId, p: NodeId)
    requires BaseInv(c) && SafeInv(c) && i in c.hosts && c.hosts[i].n.role == Leader && p in c.hosts[i].n.matchIndex
    ensures Progress(c.hosts[i].n, p) <= |c.hosts[i].n.log|
  {
    hide BaseInv, HoldsAcks, VotesInform, WinnersKnow, HostCommitsOk, WireCommitsOk, AppsInv;
    LeaderIsRecorded(c, i);
    var n := c.hosts[i].n;
    if p != n.id && n.matchIndex[p] > 0 {
      assert Backed(c, n);
      var m :| m in c.net && m.AppendEntriesResp? && m.success && m.term == n.term && m.from == p && m.matchIndex >= n.matchIndex[p];
      assert Claimed(c, m);
    }
  }

  lemma PickIsWithin(c: Cluster, i: NodeId, q: nat)
    requires BaseInv(c) && SafeInv(c) && i in c.hosts && c.hosts[i].n.role == Leader && IsQuorumIndex(c.hosts[i].n, q)
    ensures q <= |c.hosts[i].n.log|
  {
    hide BaseInv, SafeInv, Progress;
    var n := c.hosts[i].n;
    forall p | p in n.matchIndex ensures Progress(n, p) <= |n.log| { PeersReachWithin(c, i, p); }
    assert Reaching(n, |n.log| + 1) == {};
  }

  lemma TracksAll(c: Cluster, i: NodeId)
    requires BaseInv(c) && i in c.hosts && c.hosts[i].n.role == Leader
    ensures Quorum(c.hosts[i].n) <= |c.hosts[i].n.matchIndex|
  {
    hide VotesInv, LogsInv, NetOk, PipeOk, Chain;
    assert HostOk(c.cfg, i, c.hosts[i]);
    DistinctSize(c.cfg.peers, c.hosts[i].n.matchIndex.Keys);
    assert |c.hosts[i].n.matchIndex| == |c.hosts[i].n.matchIndex.Keys|;
  }

  lemma LeaderOwnsLog(c: Cluster, i: NodeId)
    requires BaseInv(c) && i in c.hosts && c.hosts[i].n.role == Leader
    ensures OwnLog(c.hosts[i].n)
  {
    hide ShapeInv, VotesInv;
    LeaderIsRecorded(c, i);
    LeaderFacts(c, i);
    assert TermLogOk(c.elections, c.hosts[i].n.term);
  }

  /** In a run that satisfies the hypothesis the commit rule of every leader, whenever
      it is tried, is exactly that of Figure 2 of the Raft paper. */
  lemma CommitRuleInRuns(cfg: Config, draws: NodeId -> nat, steps: seq<Step>, i: NodeId)
    requires ValidConfig(cfg) && TrueAcks(Init(cfg, draws), steps) && i in cfg.peers
    ensures var c := Run(Init(cfg, draws), steps);
            i in c.hosts && (c.hosts[i].n.role == Leader ==> MeetsRule(c.hosts[i].n, AdvanceCommit(c.hosts[i].n).commit))
  {
    hide BaseInv, SafeInv, Run, TrueAcks, After, MeetsRule, OwnLog, IsQuorumIndex, AdvanceCommit;
    var c := Run(Init(cfg, draws), steps);
    assert steps[..|steps|] == steps;
    RunIsSafe(cfg, draws, steps, |steps|, |steps|);
    if c.hosts[i].n.role == Leader {
      TracksAll(c, i);
      LeaderOwnsLog(c, i);
      var q := QuorumIndex(c.hosts[i].n);
      PickIsWithin(c, i, q);
      CommitRuleIsExactIff(c.hosts[i].n, q);
    }
  }
}
