/** The replicated log as a value (pkg/raft/log.go) and the receiver-side log
    surgery of AppendEntries (pkg/raft/append_entries.go). Index i of the log is
    element i - 1 of the sequence. */
module RaftLog {
  import opened Types

  type Log = seq<Entry>

  function TermAt(log: Log, index: nat): nat {
    if index == 0 || index > |log| then 0 else log[index - 1].term
  }

  function LastTerm(log: Log): nat {
    if |log| == 0 then 0 else log[|log| - 1].term
  }

  predicate Match(log: Log, prevIndex: nat, prevTerm: nat) {
    if prevIndex == 0 then prevTerm == 0
    else prevIndex <= |log| && log[prevIndex - 1].term == prevTerm
  }

  function Truncate(log: Log, from: nat): Log {
    if from == 0 then []
    else if from > |log| then log
    else log[..from - 1]
  }

  /** Log.entriesFrom: the entries the leader ships from index lo on. */
  function Tail(log: Log, lo: nat): Log {
    if lo == 0 || lo > |log| then [] else log[lo - 1..]
  }

  /** firstConflictIndex: 0 when every entry is already present. */
  function FirstConflict(log: Log, entries: seq<Entry>): nat {
    if |entries| == 0 then 0
    else if entries[0].index > |log| then entries[0].index
    else if TermAt(log, entries[0].index) != entries[0].term then entries[0].index
    else FirstConflict(log, entries[1..])
  }

  /** entriesFrom: the suffix of a batch starting at index from. */
  function EntriesFrom(entries: seq<Entry>, from: nat): seq<Entry> {
    if |entries| == 0 then []
    else if entries[0].index >= from then entries
    else EntriesFrom(entries[1..], from)
  }

  /** The log after the receiver resolved conflicts with a batch, of whose
      appended part only the first keep entries reached the log. */
  function Accept(log: Log, entries: seq<Entry>, keep: nat): Log {
    var fc := FirstConflict(log, entries);
    var suffix := EntriesFrom(entries, fc);
    if fc == 0 then log
    else Truncate(log, fc) + if keep <= |suffix| then suffix[..keep] else suffix
  }

  /** The four panics of assertAppendInvariants, as the condition under which
      none of them fires. */
  predicate AppendAssertions(lastIndex: nat, lastTerm: nat, entries: seq<Entry>) {
    |entries| > 0 ==>
      && (forall k :: 0 <= k < |entries| ==> entries[k].term > 0)
      && entries[0].index == lastIndex + 1
      && entries[0].term >= lastTerm
      && (forall k :: 0 < k < |entries| ==> entries[k].index == entries[k - 1].index + 1)
      && (forall k :: 0 < k < |entries| ==> entries[k].term >= entries[k - 1].term)
  }

  /** The two logs hold the same first k entries. */
  predicate SamePrefix(a: Log, b: Log, k: nat) {
    k <= |a| && k <= |b| && forall j :: 0 <= j < k ==> a[j] == b[j]
  }

  /** Indexes run 1, 2, 3, ...; terms are positive and never decrease. */
  predicate WellFormed(log: Log) {
    && (forall k :: 0 <= k < |log| ==> log[k].index == k + 1 && log[k].term > 0)
    && (forall j, k :: 0 <= j <= k < |log| ==> log[j].term <= log[k].term)
  }

  /** The log holds the entry that term `term` created at index `index`. */
  predicate Has(log: Log, index: nat, term: nat) {
    1 <= index <= |log| && log[index - 1].term == term
  }

  // ---- laws ---------------------------------------------------------------------------

  /** What truncation drops is what entriesFrom ships; at 0 all is dropped and nothing
      shipped. */
  lemma CutAndRest(log: Log, k: nat)
    ensures k > 0 ==> Truncate(log, k) + Tail(log, k) == log && (k <= |log| + 1 ==> |Truncate(log, k)| == k - 1)
    ensures Truncate(log, 0) + Tail(log, 0) == []
  {
  }

  /** The consistency check: the entry before the batch is there and of that term, where
      the place before the first entry counts as one of term 0. */
  lemma MatchIff(log: Log, prevIndex: nat, prevTerm: nat)
    ensures Match(log, prevIndex, prevTerm) <==> prevIndex <= |log| && prevTerm == ([0] + Terms(log))[prevIndex]
    ensures prevIndex <= |log| ==> TermAt(log, prevIndex) == ([0] + Terms(log))[prevIndex]
    ensures LastTerm(log) == ([0] + Terms(log))[|log|]
  {
  }

  function Terms(log: Log): (ts: seq<nat>)
    ensures |ts| == |log|
  {
    seq(|log|, k requires 0 <= k < |log| => log[k].term)
  }
}
