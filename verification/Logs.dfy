/** Log Matching: every log prefix that ends in an entry of term t is a prefix of
    the one log that term t's leader ever had. */
module Logs {
  import opened Types
  import opened RaftLog
  import opened Cluster
  import opened Shape

  predicate LogOk(es: Elections, log: Log) {
    forall k :: 0 <= k < |log| ==> log[k].term in es && SamePrefix(log, es[log[k].term].log, k + 1)
  }

  predicate TermLogOk(es: Elections, t: nat)
    requires t in es
  {
    && WellFormed(es[t].log)
    && LogOk(es, es[t].log)
    && (forall k :: 0 <= k < |es[t].log| ==> es[t].log[k].term <= t)
  }

  predicate TermLogsOk(es: Elections) { forall t :: t in es ==> TermLogOk(es, t) }

  /** m ships entries of the log L, right after its entry at m.prevIndex. */
  predicate Slice(L: Log, m: Message)
    requires m.AppendEntries?
  {
    && m.prevIndex + |m.entries| <= |L|
    && m.prevTerm == TermAt(L, m.prevIndex)
    && m.entries == L[m.prevIndex..m.prevIndex + |m.entries|]
  }

  /** A probe from beyond the leader's log, which an inflated acknowledgement
      provokes: it matches no log. */
  predicate Overshoot(m: Message)
    requires m.AppendEntries?
  {
    m.prevIndex > 0 && m.prevTerm == 0 && m.entries == []
  }

  predicate AppendOk(es: Elections, m: Message) {
    m.AppendEntries? ==>
      && m.term in es
      && es[m.term].leader == m.from
      && m.leaderCommit <= m.prevIndex + |m.entries|
      && (Overshoot(m) || Slice(es[m.term].log, m))
  }

  /** A candidate whose log reaches past its own term has no vote of anyone who
      helped elect that later term. */
  predicate StuckOk(c: Cluster, m: Message) {
    VoteOf(m) in c.hosts && c.hosts[VoteOf(m)].n.role == Candidate && c.hosts[VoteOf(m)].n.term == m.term ==>
      var log := c.hosts[VoteOf(m)].n.log;
      forall k :: 0 <= k < |log| && log[k].term > m.term && log[k].term in c.elections ==>
        m.from !in c.elections[log[k].term].voters
  }

  ghost predicate AppendsOk(c: Cluster) { forall m :: Claimed(c, m) ==> AppendOk(c.elections, m) }

  ghost predicate NoneStuck(c: Cluster) { forall m :: Claimed(c, m) ==> StuckOk(c, m) }

  predicate HostLogsOk(c: Cluster) { forall i :: i in c.hosts ==> LogOk(c.elections, c.hosts[i].n.log) }

  ghost predicate LogsInv(c: Cluster) {
    TermLogsOk(c.elections) && HostLogsOk(c) && AppendsOk(c) && NoneStuck(c)
  }

  // ---- facts about logs ------------------------------------------------------

  lemma LogIsWellFormed(es: Elections, log: Log)
    requires TermLogsOk(es) && LogOk(es, log)
    ensures WellFormed(log)
  {
    if |log| > 0 {
      var t := log[|log| - 1].term;
      assert TermLogOk(es, t) && SamePrefix(log, es[t].log, |log|);
    }
  }

  /** Log Matching. */
  lemma LogsMatch(es: Elections, a: Log, b: Log, k: nat)
    requires LogOk(es, a) && LogOk(es, b)
    requires k < |a| && k < |b| && a[k].term == b[k].term
    ensures SamePrefix(a, b, k + 1)
  {
    assert SamePrefix(a, es[a[k].term].log, k + 1) && SamePrefix(b, es[b[k].term].log, k + 1);
  }

  lemma PrefixIsOk(es: Elections, log: Log, k: nat)
    requires LogOk(es, log) && k <= |log|
    ensures LogOk(es, log[..k])
  {
    forall j | 0 <= j < k ensures log[j].term in es && SamePrefix(log[..k], es[log[j].term].log, j + 1) {
      assert SamePrefix(log, es[log[j].term].log, j + 1);
    }
  }

  predicate EsLe(es: Elections, es': Elections) {
    forall t :: t in es ==>
      && t in es'
      && es[t].leader == es'[t].leader && es[t].voters == es'[t].voters && es[t].rank == es'[t].rank
      && SamePrefix(es[t].log, es'[t].log, |es[t].log|)
  }

  /** Leadership logs grow only by entries of their own term. */
  predicate OwnGrowth(es: Elections, es': Elections) {
    forall u, j :: u in es && u in es' && |es[u].log| <= j < |es'[u].log| ==> es'[u].log[j].term == u
  }

  predicate Grows(es: Elections, es': Elections) { EsLe(es, es') && OwnGrowth(es, es') }

  lemma HasGrows(es: Elections, es': Elections, u: nat, k: nat, t: nat)
    requires Grows(es, es') && u in es
    ensures Has(es[u].log, k, t) ==> Has(es'[u].log, k, t)
    ensures u != t ==> Has(es'[u].log, k, t) ==> Has(es[u].log, k, t)
  {
  }

  lemma LogOkGrows(es: Elections, es': Elections, log: Log)
    requires LogOk(es, log) && EsLe(es, es')
    ensures LogOk(es', log)
  {
    forall k | 0 <= k < |log| ensures log[k].term in es' && SamePrefix(log, es'[log[k].term].log, k + 1) {
      var t := log[k].term;
      assert SamePrefix(log, es[t].log, k + 1) && SamePrefix(es[t].log, es'[t].log, |es[t].log|);
    }
  }

  lemma SliceOfPrefix(a: Log, b: Log, lo: nat, hi: nat)
    requires SamePrefix(a, b, hi) && lo <= hi
    ensures a[lo..hi] == b[lo..hi]
  {
  }

  lemma AppendOkGrows(es: Elections, es': Elections, m: Message)
    requires AppendOk(es, m) && EsLe(es, es')
    ensures AppendOk(es', m)
  {
  }

  // ---- the receiver's log surgery ----------------------------------------------

  /** The outcome of accepting part of leader log M over log L: L2 is a prefix of M
      that keeps the first p entries, where p is where L ends or first disagrees. */
  predicate Adopts(L: Log, M: Log, L2: Log, p: nat) {
    && SamePrefix(L, M, p)
    && p <= |L2| <= |M| && L2 == M[..|L2|]
    && (p == |L| || (p < |L| && p < |M| && L[p].term != M[p].term))
  }

  predicate Agree(L: Log, M: Log) {
    forall k :: 0 <= k < |L| && k < |M| && L[k].term == M[k].term ==> SamePrefix(L, M, k + 1)
  }

  /** Where a slice of M first conflicts with L: at the first entry beyond their common
      prefix. */
  lemma {:induction false} ConflictAt(L: Log, M: Log, entries: seq<Entry>, p: nat)
    requires WellFormed(M) && Agree(L, M) && SamePrefix(L, M, p)
    requires p + |entries| <= |M| && entries == M[p..p + |entries|]
    ensures var fc := FirstConflict(L, entries);
            if fc == 0 then SamePrefix(L, M, p + |entries|)
            else
              && p < fc <= p + |entries|
              && SamePrefix(L, M, fc - 1)
              && (fc - 1 == |L| || (fc - 1 < |L| && L[fc - 1].term != M[fc - 1].term))
    decreases |entries|
  {
    hide WellFormed, Agree, SamePrefix;
    if |entries| > 0 {
      assert entries[0] == M[p];
      IndexAt(M, p);
      PrefixFits(L, M, p);
      if entries[0].index <= |L| && TermAt(L, p + 1) == entries[0].term {
        AgreeAt(L, M, p);
        assert entries[1..] == M[p + 1..p + 1 + |entries[1..]|];
        ConflictAt(L, M, entries[1..], p + 1);
      }
    }
  }

  lemma PrefixFits(L: Log, M: Log, p: nat)
    requires SamePrefix(L, M, p)
    ensures p <= |L| && p <= |M|
  {
  }

  lemma {:induction false} SuffixOfSlice(M: Log, entries: seq<Entry>, p: nat, fc: nat)
    requires WellFormed(M) && p + |entries| <= |M| && entries == M[p..p + |entries|] && p < fc <= p + |entries|
    ensures EntriesFrom(entries, fc) == M[fc - 1..p + |entries|]
    decreases |entries|
  {
    hide WellFormed;
    IndexAt(M, p);
    if p + 1 < fc {
      assert entries[1..] == M[p + 1..p + 1 + |entries[1..]|];
      SuffixOfSlice(M, entries[1..], p + 1, fc);
    }
  }

  lemma ConflictSpec(L: Log, M: Log, entries: seq<Entry>, p: nat)
    requires WellFormed(M) && Agree(L, M) && SamePrefix(L, M, p)
    requires p + |entries| <= |M| && entries == M[p..p + |entries|]
    ensures var fc := FirstConflict(L, entries);
            if fc == 0 then SamePrefix(L, M, p + |entries|)
            else
              && p < fc <= p + |entries|
              && SamePrefix(L, M, fc - 1)
              && (fc - 1 == |L| || (fc - 1 < |L| && L[fc - 1].term != M[fc - 1].term))
              && EntriesFrom(entries, fc) == M[fc - 1..p + |entries|]
  {
    hide WellFormed, Agree, SamePrefix, FirstConflict, EntriesFrom;
    ConflictAt(L, M, entries, p);
    if FirstConflict(L, entries) != 0 { SuffixOfSlice(M, entries, p, FirstConflict(L, entries)); }
  }

  lemma IndexAt(M: Log, p: nat)
    requires WellFormed(M) && p < |M|
    ensures M[p].index == p + 1
  {
  }

  lemma AgreeAt(L: Log, M: Log, p: nat)
    requires Agree(L, M) && p < |L| && p < |M| && L[p].term == M[p].term
    ensures SamePrefix(L, M, p + 1)
  {
  }

  lemma HostAgrees(es: Elections, t: nat, L: Log)
    requires TermLogsOk(es) && t in es && LogOk(es, L)
    ensures WellFormed(es[t].log) && Agree(L, es[t].log)
  {
    var M := es[t].log;
    assert TermLogOk(es, t);
    forall k | 0 <= k < |L| && k < |M| && L[k].term == M[k].term ensures SamePrefix(L, M, k + 1) {
      LogsMatch(es, L, M, k);
    }
  }

  /** A request that matches extends a common prefix with the leader. */
  lemma MatchMeansPrefix(es: Elections, L: Log, m: Message)
    requires TermLogsOk(es) && LogOk(es, L) && m.AppendEntries? && AppendOk(es, m)
    requires Match(L, m.prevIndex, m.prevTerm)
    ensures Slice(es[m.term].log, m) && SamePrefix(L, es[m.term].log, m.prevIndex)
  {
    LogIsWellFormed(es, L);
    HostAgrees(es, m.term, L);
    if m.prevIndex > 0 {
      assert L[m.prevIndex - 1].term > 0;
    }
  }

  /** L2 is what accepting entries (all but those past the first keep appended
      ones) over L yields, when they are M's entries right after index prev. */
  predicate Outcome(L: Log, M: Log, prev: nat, entries: seq<Entry>, keep: nat, L2: Log) {
    var fc, end := FirstConflict(L, entries), prev + |entries|;
    && end <= |M|
    && if fc == 0 then L2 == L && SamePrefix(L, M, end)
       else
         && prev < fc <= end
         && EntriesFrom(entries, fc) == M[fc - 1..end]
         && Adopts(L, M, L2, fc - 1)
         && (keep >= |entries| ==> |L2| == end)
  }

  lemma Splice(L: Log, M: Log, p: nat, end: nat, k: nat)
    requires SamePrefix(L, M, p) && p <= end <= |M| && p + k <= end
    ensures Truncate(L, p + 1) + M[p..end][..k] == M[..p + k]
  {
    assert Truncate(L, p + 1) == M[..p];
  }

  lemma AcceptAdopts(L: Log, M: Log, entries: seq<Entry>, end: nat, keep: nat)
    requires var fc := FirstConflict(L, entries);
             && 0 < fc <= end <= |M| && SamePrefix(L, M, fc - 1)
             && EntriesFrom(entries, fc) == M[fc - 1..end]
    ensures var fc, L2 := FirstConflict(L, entries), Accept(L, entries, keep);
            && fc - 1 <= |L2| <= |M| && L2 == M[..|L2|]
            && (keep >= end - fc + 1 ==> |L2| == end)
  {
    hide FirstConflict, EntriesFrom, Truncate, SamePrefix;
    var fc, suffix := FirstConflict(L, entries), EntriesFrom(entries, FirstConflict(L, entries));
    var k := if keep <= |suffix| then keep else |suffix|;
    assert suffix == suffix[..|suffix|];
    Splice(L, M, fc - 1, end, k);
    assert Accept(L, entries, keep) == M[..fc - 1 + k];
  }

  lemma AcceptIsOutcome(L: Log, M: Log, prev: nat, entries: seq<Entry>, keep: nat)
    requires WellFormed(M) && Agree(L, M) && SamePrefix(L, M, prev)
    requires prev + |entries| <= |M| && entries == M[prev..prev + |entries|]
    ensures Outcome(L, M, prev, entries, keep, Accept(L, entries, keep))
  {
    hide Agree, WellFormed, SamePrefix, FirstConflict, EntriesFrom, Truncate;
    ConflictSpec(L, M, entries, prev);
    if FirstConflict(L, entries) != 0 {
      hide Accept;
      AcceptAdopts(L, M, entries, prev + |entries|, keep);
    }
  }

  /** What a matching AppendEntries does to a log. */
  lemma AcceptSpec(es: Elections, L: Log, m: Message, keep: nat)
    requires TermLogsOk(es) && LogOk(es, L) && m.AppendEntries? && AppendOk(es, m)
    requires Match(L, m.prevIndex, m.prevTerm)
    ensures Slice(es[m.term].log, m)
    ensures Outcome(L, es[m.term].log, m.prevIndex, m.entries, keep, Accept(L, m.entries, keep))
  {
    MatchMeansPrefix(es, L, m);
    HostAgrees(es, m.term, L);
    hide TermLogsOk, LogOk, Agree, WellFormed, SamePrefix, Match, Outcome, Accept;
    AcceptIsOutcome(L, es[m.term].log, m.prevIndex, m.entries, keep);
  }

  lemma OutcomeAgrees(L: Log, M: Log, prev: nat, entries: seq<Entry>, L2: Log)
    requires Outcome(L, M, prev, entries, |entries|, L2)
    ensures SamePrefix(L2, M, prev + |entries|)
  {
    hide FirstConflict, EntriesFrom;
  }

  lemma OutcomeIsOk(es: Elections, t: nat, L: Log, prev: nat, entries: seq<Entry>, keep: nat, L2: Log)
    requires TermLogsOk(es) && LogOk(es, L) && t in es
    requires Outcome(L, es[t].log, prev, entries, keep, L2)
    ensures LogOk(es, L2)
  {
    hide FirstConflict, EntriesFrom, LogOk, SamePrefix;
    assert TermLogOk(es, t);
    if FirstConflict(L, entries) != 0 {
      PrefixIsOk(es, es[t].log, |L2|);
    }
  }

  /** An accepted request leaves its entries in the log from PrevLogIndex+1 on, and
      the log agrees with the leader up to the end of the request. */
  lemma AcceptedEntriesArePresent(es: Elections, L: Log, m: Message)
    requires TermLogsOk(es) && LogOk(es, L) && m.AppendEntries? && AppendOk(es, m)
    requires Match(L, m.prevIndex, m.prevTerm)
    ensures var L2, end := Accept(L, m.entries, |m.entries|), m.prevIndex + |m.entries|;
            && end <= |L2| && L2[m.prevIndex..end] == m.entries
            && SamePrefix(L2, es[m.term].log, end)
            && LogOk(es, L2)
  {
    var L2, end := Accept(L, m.entries, |m.entries|), m.prevIndex + |m.entries|;
    AcceptSpec(es, L, m, |m.entries|);
    OutcomeAgrees(L, es[m.term].log, m.prevIndex, m.entries, L2);
    OutcomeIsOk(es, m.term, L, m.prevIndex, m.entries, |m.entries|, L2);
    hide TermLogsOk, LogOk, Match, Accept, AppendOk, Outcome;
    SliceOfPrefix(L2, es[m.term].log, m.prevIndex, end);
  }
}
