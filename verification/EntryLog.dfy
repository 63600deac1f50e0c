/** The in-memory log (pkg/raft/log.go) and the in-memory storage
    (pkg/storage/memory/memory.go) as the objects they are. */
module EntryLog {
  import opened Types
  import opened RaftLog
  import opened NodeSpec

  /** entries[k] holds index k + 1. */
  predicate Indexed(entries: seq<Entry>) { forall k :: 0 <= k < |entries| ==> entries[k].index == k + 1 }

  /** es carries on where log ends. */
  predicate Continues(log: Log, es: seq<Entry>) { forall k :: 0 <= k < |es| ==> es[k].index == |log| + 1 + k }

  lemma ContinuesIffIndexed(log: Log, es: seq<Entry>)
    ensures Indexed(log + es) <==> Indexed(log) && Continues(log, es)
  {
    var all := log + es;
    if Indexed(all) {
      forall k | 0 <= k < |log| ensures log[k].index == k + 1 { assert all[k] == log[k]; }
      forall k | 0 <= k < |es| ensures es[k].index == |log| + 1 + k { assert all[|log| + k] == es[k]; }
    }
  }

  /** The storage accepts exactly what carries on. */
  lemma StoreAppendIff(store: Log, es: seq<Entry>)
    ensures StoreAppend(store, es) == if Continues(store, es) then Some(store + es) else None
  {
    if es == [] {
      assert store + es == store;
    } else if es[0].index == |store| + 1 && forall k :: 0 < k < |es| ==> es[k].index == es[k - 1].index + 1 {
      IndexesRun(|store|, es, |es| - 1);
    }
  }

  lemma {:induction false} IndexesRun(last: nat, entries: seq<Entry>, k: nat)
    requires k < |entries| && entries[0].index == last + 1
    requires forall j :: 0 < j < |entries| ==> entries[j].index == entries[j - 1].index + 1
    ensures forall j :: 0 <= j <= k ==> entries[j].index == last + 1 + j
  {
    if k > 0 {
      IndexesRun(last, entries, k - 1);
      assert entries[k].index == entries[k - 1].index + 1;
    }
  }

  class MemLog {
    var entries: Log

    predicate Valid()
      reads this
    {
      Indexed(entries)
    }

    constructor ()
      ensures Valid() && entries == []
    {
      entries := [];
    }

    /** Appends without looking, as a production build does; the log keeps its
        indexes exactly when the batch carries on where it ends. */
    method Append(es: seq<Entry>)
      modifies this
      ensures entries == old(entries) + es
      ensures Valid() <==> old(Valid()) && Continues(old(entries), es)
    {
      ContinuesIffIndexed(entries, es);
      if |es| == 0 {
        assert entries + es == entries;
        return;
      }
      entries := entries + es;
    }

    method TruncateSuffix(from: nat)
      requires Valid()
      modifies this
      ensures Valid() && entries == Truncate(old(entries), from)
    {
      if from == 0 {
        entries := [];
        return;
      }
      var last := LastIndex();
      if from > last { return; }
      entries := entries[..from - 1];
    }

    /** None is the unexpected-EOF error past the end. */
    method Term(index: nat) returns (r: Option<nat>)
      requires Valid()
      ensures r.Some? <==> index <= |entries|
      ensures r.Some? ==> r.value == TermAt(entries, index)
    {
      if index == 0 { return Some(0); }
      var last := LastIndex();
      if index > last { return None; }
      r := Some(entries[index - 1].term);
    }

    method Matches(prevIndex: nat, prevTerm: nat) returns (r: bool)
      requires Valid()
      ensures r == Match(entries, prevIndex, prevTerm)
    {
      if prevIndex == 0 { return prevTerm == 0; }
      var last := LastIndex();
      if prevIndex > last { return false; }
      r := entries[prevIndex - 1].term == prevTerm;
    }

    /** The code reads the last entry's own index. */
    method LastIndex() returns (r: nat)
      requires Valid()
      ensures r == |entries|
    {
      if |entries| == 0 { return 0; }
      r := entries[|entries| - 1].index;
    }

    method EntriesFrom(lo: nat) returns (out: seq<Entry>)
      requires Valid()
      ensures out == Tail(entries, lo)
    {
      var last := LastIndex();
      if lo == 0 || lo > last { return []; }
      out := [];
      for k := lo - 1 to |entries|
        invariant out == entries[lo - 1..k]
      {
        out := out + [entries[k]];
      }
    }
  }

  /** A durable applied checkpoint; index 0 means none. */
  datatype StoredSnapshot = StoredSnapshot(index: nat, term: nat, data: Types.Bytes)

  class MemoryStorage {
    var entries: Log
    var hs: HardState
    var snap: StoredSnapshot

    predicate Valid()
      reads this
    {
      Indexed(entries)
    }

    constructor ()
      ensures Valid() && entries == [] && hs == HardState(0, NO_NODE, 0) && snap == StoredSnapshot(0, 0, [])
    {
      entries := [];
      hs := HardState(0, NO_NODE, 0);
      snap := StoredSnapshot(0, 0, []);
    }

    /** Rejects a batch with a gap without taking any of it. */
    method Append(es: seq<Entry>) returns (ok: bool)
      requires Valid()
      modifies this`entries
      ensures Valid()
      ensures ok <==> StoreAppend(old(entries), es).Some?
      ensures entries == (if ok then StoreAppend(old(entries), es).value else old(entries))
    {
      if |es| == 0 { return true; }
      var expected := |entries| + 1;
      if es[0].index != expected { return false; }
      for i := 0 to |es| - 1
        invariant forall k :: 0 < k <= i ==> es[k].index == es[k - 1].index + 1
      {
        if es[i + 1].index != es[i].index + 1 { return false; }
      }
      ghost var before := entries;
      IndexesRun(|before|, es, |es| - 1);
      for i := 0 to |es|
        invariant entries == before + es[..i] && Indexed(entries)
      {
        entries := entries + [es[i]];
      }
      assert es[..|es|] == es;
      return true;
    }

    method TruncateSuffix(from: nat) returns (ok: bool)
      requires Valid()
      modifies this`entries
      ensures Valid()
      ensures ok <==> from > 0
      ensures entries == if ok then Truncate(old(entries), from) else old(entries)
    {
      var last := |entries|;
      if from > last { return true; }
      if from < 1 { return false; }
      entries := entries[..from - 1];
      return true;
    }

    /** None is an invalid range or one that runs past the end. */
    method Entries(lo: nat, hi: nat) returns (r: Option<seq<Entry>>)
      requires Valid()
      ensures r.Some? <==> 1 <= lo <= hi <= |entries| + 1
      ensures r.Some? ==> r.value == entries[lo - 1..hi - 1]
    {
      var last := |entries|;
      if lo < 1 || lo > hi { return None; }
      if hi > last + 1 { return None; }
      if lo == hi { return Some([]); }
      var out := [];
      for k := lo - 1 to hi - 1
        invariant out == entries[lo - 1..k]
      {
        out := out + [entries[k]];
      }
      r := Some(out);
    }

    method Term(index: nat) returns (r: Option<nat>)
      requires Valid()
      ensures r.Some? <==> index <= |entries|
      ensures r.Some? ==> r.value == TermAt(entries, index)
    {
      if index == 0 { return Some(0); }
      if index > |entries| { return None; }
      r := Some(entries[index - 1].term);
    }

    method LastIndex() returns (r: nat)
      ensures r == |entries|
    {
      r := |entries|;
    }

    method SaveHardState(h: HardState)
      modifies this`hs
      ensures hs == h
    {
      hs := h;
    }

    method SaveSnapshot(s: StoredSnapshot)
      modifies this`snap
      ensures snap == s
    {
      snap := s;
    }
  }
}
