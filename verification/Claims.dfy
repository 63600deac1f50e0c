/** What a Success reply claims, when the claim is true, and how a follower can tell. */
module Claims {
  import opened Types
  import opened RaftLog
  import opened NodeSpec
  import opened Cluster
  import opened Shape
  import opened Votes
  import opened Logs
  import opened Actions
  import opened Acks
  import opened Commits
  import opened Applied
  import opened Theorems
  import opened Safety

  // ---- what a Success reply claims ---------------------------------------------------

  /** M holds every entry of term t that L holds: only t's leader makes them. */
  predicate OwnsTerm(L: Log, t: nat, M: Log) {
    forall k :: 0 <= k < |L| && L[k].term == t ==> k < |M| && M[k] == L[k]
  }

  /** M could be the log of m's leader, as far as follower n can tell: m is a slice of
      it, no entry is of a later term, it obeys Log Matching with n's log, it holds
      what n has of the leader's own term, and what n has committed. */
  predicate Plausible(n: Node, m: Message, M: Log)
    requires m.AppendEntries?
  {
    && WellFormed(M) && Slice(M, m) && (forall k :: 0 <= k < |M| ==> M[k].term <= m.term)
    && Agree(n.log, M) && OwnsTerm(n.log, m.term, M) && SamePrefix(n.log, M, n.commit)
  }

  /** What the follower can test before it handles m: its log must be rewritten, or
      does not reach beyond the request, or is committed, or ends in the leader's
      own term. */
  predicate Sure(n: Node, m: Message)
    requires m.AppendEntries?
  {
    || FirstConflict(n.log, m.entries) != 0
    || |n.log| <= m.prevIndex + |m.entries|
    || |n.log| <= n.commit
    || LastTerm(n.log) == m.term
  }

  lemma SliceOutcome(L: Log, m: Message, M: Log)
    requires m.AppendEntries? && WellFormed(L) && WellFormed(M) && Slice(M, m) && Agree(L, M) && Match(L, m.prevIndex, m.prevTerm)
    ensures Outcome(L, M, m.prevIndex, m.entries, |m.entries|, Accept(L, m.entries, |m.entries|))
    ensures SamePrefix(Accept(L, m.entries, |m.entries|), M, m.prevIndex + |m.entries|)
  {
    assert SamePrefix(L, M, m.prevIndex) by {
      if m.prevIndex > 0 { assert L[m.prevIndex - 1].term == M[m.prevIndex - 1].term; }
    }
    hide Outcome, Accept, FirstConflict, Match;
    AcceptIsOutcome(L, M, m.prevIndex, m.entries, |m.entries|);
    OutcomeAgrees(L, M, m.prevIndex, m.entries, Accept(L, m.entries, |m.entries|));
  }

  lemma SureIsTrue(n: Node, m: Message, M: Log)
    requires m.AppendEntries? && WellFormed(n.log) && Plausible(n, m, M) && Match(n.log, m.prevIndex, m.prevTerm) && Sure(n, m)
    ensures var L2 := Accept(n.log, m.entries, |m.entries|); SamePrefix(L2, M, |L2|)
  {
    hide Accept, FirstConflict, Match, EntriesFrom;
    SliceOutcome(n.log, m, M);
    if LastTerm(n.log) == m.term && |n.log| > 0 { assert M[|n.log| - 1] == n.log[|n.log| - 1]; }
  }

  lemma CutIsPlausible(n: Node, m: Message, M: Log, x: nat)
    requires m.AppendEntries? && Plausible(n, m, M) && m.prevIndex + |m.entries| <= x <= |M| && n.commit <= x
    requires forall k :: x <= k < |n.log| ==> n.log[k].term != m.term
    ensures Plausible(n, m, M[..x])
  {
    var end := m.prevIndex + |m.entries|;
    assert M[..x][m.prevIndex..end] == M[m.prevIndex..end];
    forall k | 0 <= k < |n.log| && k < |M[..x]| && n.log[k].term == M[..x][k].term ensures SamePrefix(n.log, M[..x], k + 1) {
      assert SamePrefix(n.log, M, k + 1);
    }
  }

  /** Where a log's entries of term t end. */
  lemma LastOf(L: Log, t: nat) returns (x: nat)
    ensures x <= |L| && (x > 0 ==> L[x - 1].term == t) && forall k :: x <= k < |L| ==> L[k].term != t
  {
    x := |L|;
    while x > 0 && L[x - 1].term != t
      invariant x <= |L| && forall k :: x <= k < |L| ==> L[k].term != t
    {
      x := x - 1;
    }
  }

  /** A follower that is not sure has a leader log before it that its reply would
      lie about. */
  lemma UnsureCanLie(n: Node, m: Message, M0: Log) returns (M: Log)
    requires m.AppendEntries? && WellFormed(n.log) && Plausible(n, m, M0) && Match(n.log, m.prevIndex, m.prevTerm) && !Sure(n, m)
    ensures Plausible(n, m, M) && |M| < |Accept(n.log, m.entries, |m.entries|)|
  {
    var own := LastOf(n.log, m.term);
    var end := m.prevIndex + |m.entries|;
    var x := if own > end then own else end;
    x := if n.commit > x then n.commit else x;
    if own > 0 { assert M0[own - 1] == n.log[own - 1]; }
    CutIsPlausible(n, m, M0, x);
    M := M0[..x];
  }

  /** When a Success reply, which carries LastIndex(), is true: it is true of every
      log its leader could have exactly when the follower is sure. */
  lemma SuccessIsTruthfulIff(n: Node, m: Message, M0: Log)
    requires m.AppendEntries? && WellFormed(n.log) && Plausible(n, m, M0) && Match(n.log, m.prevIndex, m.prevTerm)
    ensures var L2 := Accept(n.log, m.entries, |m.entries|);
            (forall M :: Plausible(n, m, M) ==> SamePrefix(L2, M, |L2|)) <==> Sure(n, m)
  {
    hide Plausible, Accept, Sure, Match;
    if Sure(n, m) {
      forall M | Plausible(n, m, M) ensures SamePrefix(Accept(n.log, m.entries, |m.entries|), M, |Accept(n.log, m.entries, |m.entries|)|) {
        SureIsTrue(n, m, M);
      }
    } else {
      var M := UnsureCanLie(n, m, M0);
    }
  }

  // ---- the hypothesis, tested at the follower -----------------------------------------------

  /** In a run the leader's log is one of those the follower has to reckon with. */
  lemma LeaderLogIsPlausible(c: Cluster, i: NodeId, m: Message)
    requires BaseInv(c) && SafeInv(c) && Deliverable(c, i, m) && m.AppendEntries? && m.term >= c.hosts[i].n.term
    requires Match(c.hosts[i].n.log, m.prevIndex, m.prevTerm)
    ensures m.term in c.elections && WellFormed(c.hosts[i].n.log) && Plausible(c.hosts[i].n, m, c.elections[m.term].log)
  {
    hide ShapeInv, VotesInv, LogsInv, AcksInv, CommitsInv, AppsInv, TermLogsOk, Agree, WellFormed, Chosen, Match, Slice, AppendOk;
    var n := c.hosts[i].n;
    HostLogOk(c, i);
    WireAppendOk(c, m);
    MatchMeansPrefix(c.elections, n.log, m);
    HostAgrees(c.elections, m.term, n.log);
    LogIsWellFormed(c.elections, n.log);
    TermsAreOlder(c.elections, m.term);
    CommitsAt(c, i);
    if n.commit > 0 {
      var k: nat, u: nat :| Covers(c, k, u, n.commit, n.term, n.log);
      ChosenReachesLeader(c, k, u, m.term);
    }
  }

  lemma TermsAreOlder(es: Elections, t: nat)
    requires TermLogsOk(es) && t in es
    ensures forall k :: 0 <= k < |es[t].log| ==> es[t].log[k].term <= t
  {
    assert TermLogOk(es, t);
  }

  /** The follower of an AppendEntries delivery passes the test. */
  predicate SureAt(c: Cluster, s: Step) {
    s.Deliver? && s.m.AppendEntries? && Deliverable(c, s.i, s.m) ==>
      var n := StepDown(c.hosts[s.i].n, s.m.term);
      s.m.term == n.term && Match(n.log, s.m.prevIndex, s.m.prevTerm) ==> Sure(n, s.m)
  }

  lemma SureAckIsTrue(c: Cluster, s: Step)
    requires BaseInv(c) && SafeInv(c) && SureAt(c, s)
    ensures TrueAckAt(c, s)
  {
    hide BaseInv, SafeInv, Plausible, Sure, Accept, Match, WellFormed;
    if s.Deliver? && s.m.AppendEntries? && Deliverable(c, s.i, s.m) {
      var n := c.hosts[s.i].n;
      var d := StepDown(n, s.m.term);
      if s.m.term == d.term && Match(d.log, s.m.prevIndex, s.m.prevTerm) {
        LeaderLogIsPlausible(c, s.i, s.m);
        SteppedDownIsSame(n, s.m, c.elections[s.m.term].log);
        SureIsTrue(d, s.m, c.elections[s.m.term].log);
      }
    }
  }

  lemma SteppedDownIsSame(n: Node, m: Message, M: Log)
    requires m.AppendEntries?
    ensures var d := StepDown(n, m.term); d.log == n.log && d.commit == n.commit && Plausible(d, m, M) == Plausible(n, m, M)
  {
  }

  /** The hypothesis follows from a test: a run in which every follower is sure at
      every delivery satisfies it. */
  lemma {:induction false} SureRunsAreTrue(cfg: Config, draws: NodeId -> nat, steps: seq<Step>)
    requires ValidConfig(cfg) && forall k :: 0 <= k < |steps| ==> SureAt(Run(Init(cfg, draws), steps[..k]), steps[k])
    ensures TrueAcks(Init(cfg, draws), steps)
    decreases |steps|
  {
    hide BaseInv, SafeInv, SureAt, TrueAckAt, Next, After;
    if |steps| > 0 {
      var last, before := |steps| - 1, steps[..|steps| - 1];
      forall k | 0 <= k < |before| ensures SureAt(Run(Init(cfg, draws), before[..k]), before[k]) {
        assert before[..k] == steps[..k];
      }
      SureRunsAreTrue(cfg, draws, before);
      assert before[..last] == before;
      RunIsSafe(cfg, draws, before, last, last);
      SureAckIsTrue(Run(Init(cfg, draws), before), steps[last]);
      forall k | 0 <= k < |steps| ensures TrueAckAt(Run(Init(cfg, draws), steps[..k]), steps[k]) {
        if k < last {
          assert before[..k] == steps[..k] && before[k] == steps[k];
        }
      }
    }
  }

  /** Late, repeated and reordered requests of one leader are within the hypothesis:
      a follower whose log is a prefix of the leader's answers truthfully. */
  lemma FollowerTellsTruth(es: Elections, n: Node, m: Message)
    requires TermLogsOk(es) && LogOk(es, n.log) && m.AppendEntries? && AppendOk(es, m)
    requires SamePrefix(n.log, es[m.term].log, |n.log|)
    ensures AckIsTrue(es, n, m)
  {
    hide TermLogsOk, LogOk, Slice, Accept, Match, FirstConflict, EntriesFrom;
    if Match(n.log, m.prevIndex, m.prevTerm) { AcceptSpec(es, n.log, m, |m.entries|); }
  }
}
