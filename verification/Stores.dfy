/** The segmented file store and the memory store are one specification: whatever is
    asked of them, in any order, they answer the same. */
module Stores {
  import opened Types
  import opened RaftLog
  import opened NodeSpec
  import opened EntryLog
  import opened Codec
  import opened SegmentList
  import opened FileStore

  datatype Call =
    | AppendCall(entries: seq<Entry>)
    | TruncateCall(from: nat)
    | EntriesCall(lo: nat, hi: nat)
    | TermCall(index: nat)
    | LastIndexCall

  datatype Reply =
    | Done(ok: bool)
    | Slice(entries: Option<seq<Entry>>)
    | TermIs(term: Option<nat>)
    | Index(index: nat)

  /** The log after a call, and its answer. */
  function Answer(log: Log, call: Call): (Log, Reply) {
    match call
    case AppendCall(es) =>
      var r := StoreAppend(log, es);
      (if r.Some? then r.value else log, Done(r.Some?))
    case TruncateCall(from) => (if from > 0 then Truncate(log, from) else log, Done(from > 0))
    case EntriesCall(lo, hi) => (log, Slice(if 1 <= lo <= hi <= |log| + 1 then Some(log[lo - 1..hi - 1]) else None))
    case TermCall(index) => (log, TermIs(if index <= |log| then Some(TermAt(log, index)) else None))
    case LastIndexCall => (log, Index(|log|))
  }

  function Answers(log: Log, calls: seq<Call>): (Log, seq<Reply>) {
    if |calls| == 0 then (log, [])
    else
      var (before, replies) := Answers(log, calls[..|calls| - 1]);
      var (after, reply) := Answer(before, calls[|calls| - 1]);
      (after, replies + [reply])
  }

  /** Terms and indexes are 64-bit words, as their types have it. */
  predicate CallFits(call: Call) { call.AppendCall? ==> AllWords(call.entries) }

  method AskMemory(s: MemoryStorage, call: Call) returns (reply: Reply)
    requires s.Valid()
    modifies s
    ensures s.Valid() && (s.entries, reply) == Answer(old(s.entries), call)
  {
    match call
    case AppendCall(es) => var ok := s.Append(es); reply := Done(ok);
    case TruncateCall(from) => var ok := s.TruncateSuffix(from); reply := Done(ok);
    case EntriesCall(lo, hi) => var r := s.Entries(lo, hi); reply := Slice(r);
    case TermCall(index) => var r := s.Term(index); reply := TermIs(r);
    case LastIndexCall => var r := s.LastIndex(); reply := Index(r);
  }

  method AskFile(s: FileStorage, call: Call) returns (reply: Reply)
    requires s.Valid() && CallFits(call)
    modifies s
    ensures s.Valid() && (s.Contents(), reply) == Answer(old(s.Contents()), call)
  {
    hide StoreOk, Flat, IdxOf;
    match call
    case AppendCall(es) => var ok := s.Append(es); reply := Done(ok);
    case TruncateCall(from) => var ok := s.TruncateSuffix(from); reply := Done(ok);
    case EntriesCall(lo, hi) => var r := s.Entries(lo, hi); reply := Slice(r);
    case TermCall(index) => var r := s.Term(index); reply := TermIs(r);
    case LastIndexCall => var r := s.LastIndexLocked(); reply := Index(r);
  }

  /** Refinement over whole call sequences: a fresh file store with any rollover
      threshold and a fresh memory store accept the same calls and return the same
      results, those of a plain sequence. */
  method SameAnswers(crc: Checksum, max: nat, calls: seq<Call>) returns (file: seq<Reply>, mem: seq<Reply>)
    requires max >= 1 && forall k :: 0 <= k < |calls| ==> CallFits(calls[k])
    ensures file == mem == Answers([], calls).1
  {
    hide Answer, StoreOk, Flat, IdxOf;
    var f := new FileStorage(crc, max);
    var m := new MemoryStorage();
    file, mem := [], [];
    for k := 0 to |calls|
      invariant f.Valid() && m.Valid() && f.Contents() == m.entries == Answers([], calls[..k]).0
      invariant file == mem == Answers([], calls[..k]).1
    {
      assert calls[..k + 1][..k] == calls[..k];
      var a := AskFile(f, calls[k]);
      var b := AskMemory(m, calls[k]);
      file, mem := file + [a], mem + [b];
    }
    assert calls[..|calls|] == calls;
  }
}
