/** The commit -> apply -> checkpoint pipeline (pkg/raft/driver.go, apply.go and
    node_public.go) over the key/value state machine (pkg/kvsm/kvsm.go), as objects. */
module Pipeline {
  import opened Types
  import opened RaftLog
  import opened KvSpec
  import opened EntryLog
  import opened C = Cluster

  /** The JSON snapshot blob of the state machine, as an encoder and a decoder. */
  datatype SnapCodec = SnapCodec(encode: Kv -> Types.Bytes, decode: Types.Bytes -> Option<Kv>)

  /** Unmarshal undoes Marshal, and Marshal never yields an empty blob. */
  ghost predicate Faithful(codec: SnapCodec) {
    forall kv :: codec.decode(codec.encode(kv)) == Some(kv) && codec.encode(kv) != []
  }

  /** What Apply answers the proposer. */
  datatype Applied = Stored(value: Types.Bytes) | Removed | Failed

  /** r is the answer to e in state kv, where e has just been applied: a set answers
      with the value the key now has, a delete leaves its key without one; a malformed
      envelope or an unknown kind is an error. */
  ghost predicate Answers(decode: Decoder, kv: Kv, e: Entry, r: Applied) {
    && (r.Failed? <==> decode(e.data).None? || decode(e.data).value.Unknown?)
    && (r.Stored? ==> exists k :: k in kv.m && kv.m[k] == r.value && decode(e.data) == Some(Set(k, r.value)))
    && (r.Removed? ==> exists k :: k !in kv.m && decode(e.data) == Some(Del(k)))
  }

  /** What Restore makes of a blob: empty data is the empty state; None does not decode. */
  function Restored(codec: SnapCodec, data: Types.Bytes): Option<Kv> {
    if data == [] then Some(EMPTY) else codec.decode(data)
  }

  class KV {
    var m: map<string, Types.Bytes>
    var lastIndex: nat
    const decoder: Decoder
    const codec: SnapCodec

    function State(): Kv
      reads this
    {
      Kv(m, lastIndex)
    }

    constructor (d: Decoder, c: SnapCodec)
      ensures State() == EMPTY && decoder == d && codec == c
    {
      m, lastIndex, decoder, codec := map[], 0, d, c;
    }

    /** Apply one committed entry; a malformed envelope leaves even lastIndex alone. */
    method Apply(e: Entry) returns (r: Applied)
      modifies this
      ensures State() == KvSpec.Apply(decoder, old(State()), e) && Answers(decoder, State(), e, r)
    {
      var op := decoder(e.data);
      if op.None? { return Failed; }
      lastIndex := e.index;
      match op.value
      case Set(k, v) =>
        m := m[k := v];
        assert k in m && m[k] == v;
        r := Stored(v);
      case Del(k) =>
        m := m - {k};
        assert k !in m;
        r := Removed;
      case Unknown(_) => r := Failed;
    }

    method Snapshot() returns (data: Types.Bytes, index: nat)
      ensures data == codec.encode(State()) && index == lastIndex
      ensures Faithful(codec) ==> data != [] && codec.decode(data) == Some(State())
    {
      data, index := codec.encode(Kv(m, lastIndex)), lastIndex;
    }

    /** Empty data resets; data that does not decode changes nothing. */
    method Restore(data: Types.Bytes) returns (ok: bool)
      modifies this
      ensures ok <==> Restored(codec, data).Some?
      ensures State() == if ok then Restored(codec, data).value else old(State())
    {
      if |data| == 0 {
        m, lastIndex := map[], 0;
        return true;
      }
      var snap := codec.decode(data);
      if snap.None? { return false; }
      m, lastIndex := snap.value.m, snap.value.lastIndex;
      ok := true;
    }
  }

  /** drainCommitsToApply: the cluster's Drain step, for as long as it is enabled. */
  function DrainAll(a: App, store: Log, commit: nat): App
    decreases |store| - a.enqueued
  {
    if CanPush(a, store, commit) then DrainAll(Push(a, store), store, commit) else a
  }

  /** How far that gets: to the commit index, unless the stored log or the channel
      ends first. */
  function DrainEnd(a: App, store: Log, commit: nat): nat {
    var goal := if commit <= |store| then commit else |store|;
    var room := if |a.queue| < APPLY_BUF then APPLY_BUF - |a.queue| else 0;
    if goal <= a.enqueued then a.enqueued else if goal <= a.enqueued + room then goal else a.enqueued + room
  }

  /** Draining queues exactly the stored entries up to there, in order. */
  lemma {:induction false} DrainGetsTo(a: App, store: Log, commit: nat)
    ensures var d, end := DrainAll(a, store, commit), DrainEnd(a, store, commit);
            && a.enqueued <= end && (end > a.enqueued ==> end <= |store|)
            && d == a.(enqueued := end, queue := a.queue + if end > a.enqueued then store[a.enqueued..end] else [])
    decreases |store| - a.enqueued
  {
    if CanPush(a, store, commit) {
      DrainGetsTo(Push(a, store), store, commit);
      var end := DrainEnd(a, store, commit);
      assert store[a.enqueued..end] == [store[a.enqueued]] + store[a.enqueued + 1..end];
    } else {
      assert a.queue + [] == a.queue;
    }
  }

  /** The drain ends with the commit index or the end of the log reached or the channel
      full, and the pipeline waits behind none of them before. */
  lemma DrainStops(a: App, store: Log, commit: nat)
    ensures var d := DrainAll(a, store, commit); d.enqueued >= commit || d.enqueued >= |store| || |d.queue| >= APPLY_BUF
    ensures var d := DrainAll(a, store, commit);
            a.enqueued <= d.enqueued && (a.enqueued < d.enqueued ==> d.enqueued <= commit && d.enqueued <= |store| && |d.queue| <= APPLY_BUF)
  {
    DrainGetsTo(a, store, commit);
  }

  /** What it does is a run of Drain steps of the cluster, and changes nothing else. */
  lemma {:induction false} DrainIsSteps(c: Cluster, i: NodeId) returns (steps: seq<Step>)
    requires i in c.hosts && Record(c.elections, i, c.hosts[i].n) == c.elections
    ensures forall k :: 0 <= k < |steps| ==> steps[k] == C.Drain(i)
    ensures var h := c.hosts[i]; Run(c, steps) == c.(hosts := c.hosts[i := h.(app := DrainAll(h.app, h.n.store, h.n.commit))])
    decreases |c.hosts[i].n.store| - c.hosts[i].app.enqueued
  {
    hide Record;
    var h := c.hosts[i];
    if CanPush(h.app, h.n.store, h.n.commit) {
      var d := Next(c, C.Drain(i));
      var rest := DrainIsSteps(d, i);
      steps := [C.Drain(i)] + rest;
      RunFirst(c, C.Drain(i), rest);
      assert d.hosts[i := h.(app := DrainAll(h.app, h.n.store, h.n.commit))] == c.hosts[i := h.(app := DrainAll(h.app, h.n.store, h.n.commit))];
    } else {
      steps := [];
      assert c.hosts[i := h] == c.hosts;
    }
  }

  lemma {:induction false} RunFirst(c: Cluster, s: Step, rest: seq<Step>)
    ensures Run(c, [s] + rest) == Run(Next(c, s), rest)
    decreases |rest|
  {
    hide Next;
    if |rest| == 0 {
      assert [s] + rest == [s] && [s][..0] == [];
      assert Run(c, []) == c;
    } else {
      var all := [s] + rest;
      assert all[..|all| - 1] == [s] + rest[..|rest| - 1];
      RunFirst(c, s, rest[..|rest| - 1]);
    }
  }

  /** applyOne: the head of the queue is applied, and a checkpoint taken when it is due,
      if it can be taken and saved. A state machine that panics leaves its state as it
      was; the entry counts as applied, and no checkpoint is taken. */
  function ApplyHead(cfg: Config, a: App, panics: bool, saves: bool): App
    requires |a.queue| > 0
  {
    var e := a.queue[0];
    if panics then a.(queue := a.queue[1..], applied := e.index)
    else if saves then C.ApplyOne(cfg, a)
    else a.(queue := a.queue[1..], kv := KvSpec.Apply(cfg.decode, a.kv, e), applied := e.index)
  }

  /** The cluster's restart resumes the pipeline where New does. */
  lemma RebootResumes(cfg: Config, codec: SnapCodec, i: NodeId, hs: HardState, store: Log, snap: StoredSnapshot, draw: nat)
    requires snap.index > 0 ==> Restored(codec, snap.data).Some?
    ensures var kv := if snap.index > 0 then Restored(codec, snap.data).value else EMPTY;
            Reboot(cfg, i, hs, store, Snapshot(snap.index, kv), draw).app == StartFrom(codec, snap)
  {
  }

  /** Whatever happens, the head is gone and counts as applied. Only a state machine that
      does not panic has applied it, and only then can there be a new checkpoint: there is
      one exactly when the head is an interval past the last and something was applied. */
  lemma HeadIsApplied(cfg: Config, a: App, panics: bool, saves: bool)
    requires |a.queue| > 0
    ensures var r, e := ApplyHead(cfg, a, panics, saves), a.queue[0];
            var due := !panics && saves && e.index >= a.snapIndex + cfg.snapshotInterval && r.kv.lastIndex > 0;
            && r.applied == e.index && [e] + r.queue == a.queue && r.enqueued == a.enqueued
            && r.kv == (if panics then a.kv else KvSpec.Apply(cfg.decode, a.kv, e))
            && r.snap == (if due then Snapshot(r.kv.lastIndex, r.kv) else a.snap)
            && r.snapIndex == (if due then r.kv.lastIndex else a.snapIndex)
  {
  }

  /** Checkpoints keep up: once an entry that decodes is applied and saved, fewer than
      snapshotInterval entries have been applied since the last one. */
  lemma CheckpointsKeepUp(cfg: Config, a: App)
    requires |a.queue| > 0 && cfg.decode(a.queue[0].data).Some? && a.queue[0].index > 0
    ensures var r := ApplyHead(cfg, a, false, true); r.applied < r.snapIndex + cfg.snapshotInterval || r.snapIndex == r.applied
  {
  }

  /** Restore undoes Snapshot, and empty data is the empty state. */
  lemma RestoreUndoesSnapshot(codec: SnapCodec, kv: Kv)
    requires Faithful(codec)
    ensures Restored(codec, codec.encode(kv)) == Some(kv) && Restored(codec, []) == Some(EMPTY)
  {
  }

  /** The pipeline as New starts it from a stored checkpoint. */
  function StartFrom(codec: SnapCodec, snap: StoredSnapshot): App
    requires snap.index > 0 ==> Restored(codec, snap.data).Some?
  {
    if snap.index > 0 then
      var kv := Restored(codec, snap.data).value;
      App(snap.index, [], snap.index, kv, snap.index, Snapshot(snap.index, kv))
    else App(0, [], 0, EMPTY, 0, Snapshot(0, EMPTY))
  }

  class Applier {
    const cfg: Config
    const kv: KV
    const storage: MemoryStorage
    var queue: seq<Entry>
    var enqueuedIdx: nat
    var appliedIdx: nat
    var snapshotIdx: nat
    /** Proposals waiting for the entry at an index. */
    var waiters: set<nat>
    /** The state machine has panicked. */
    var fatal: bool

    /** The checkpoint in storage can be restored. */
    ghost predicate Valid()
      reads this, kv, storage
    {
      kv.decoder == cfg.decode && Faithful(kv.codec) && (storage.snap.index > 0 ==> Restored(kv.codec, storage.snap.data).Some?)
    }

    ghost function State(): App
      reads this, kv, storage
      requires Valid()
    {
      App(enqueuedIdx, queue, appliedIdx, kv.State(), snapshotIdx,
          Snapshot(storage.snap.index, if storage.snap.index > 0 then Restored(kv.codec, storage.snap.data).value else EMPTY))
    }

    constructor (c: Config, k: KV, store: MemoryStorage, index: nat)
      ensures cfg == c && kv == k && storage == store && queue == [] && waiters == {} && !fatal
      ensures enqueuedIdx == appliedIdx == snapshotIdx == index
    {
      cfg, kv, storage, queue, waiters, fatal := c, k, store, [], {}, false;
      enqueuedIdx, appliedIdx, snapshotIdx := index, index, index;
    }

    /** New: resume at the stored checkpoint, or at the start of the log; an
        unreadable checkpoint is an error. */
    static method New(c: Config, codec: SnapCodec, store: MemoryStorage) returns (r: Option<Applier>)
      requires Faithful(codec)
      ensures r.None? <==> store.snap.index > 0 && Restored(codec, store.snap.data).None?
      ensures r.Some? ==>
                var a := r.value;
                && fresh(a) && fresh(a.kv) && a.kv.codec == codec && a.storage == store && a.cfg == c
                && a.Valid() && a.State() == StartFrom(codec, store.snap)
    {
      var k := new KV(c.decode, codec);
      var snap := store.snap;
      if snap.index > 0 {
        var ok := k.Restore(snap.data);
        if !ok { return None; }
      }
      var a := new Applier(c, k, store, snap.index);
      r := Some(a);
    }

    /** Push committed entries onto the channel, one at a time and in order. */
    method Drain(store: Log, commit: nat)
      requires Valid()
      modifies this`queue, this`enqueuedIdx
      ensures Valid() && State() == DrainAll(old(State()), store, commit)
    {
      while enqueuedIdx < commit && enqueuedIdx < |store| && |queue| < APPLY_BUF
        invariant Valid() && DrainAll(State(), store, commit) == DrainAll(old(State()), store, commit)
      {
        queue := queue + [store[enqueuedIdx]];
        enqueuedIdx := enqueuedIdx + 1;
      }
    }

    /** Apply the next queued entry, hand the answer to whoever waits for its index,
        and checkpoint when the interval has passed. A panic of the state machine is
        caught: the node is marked, and the waiter gets an error. */
    method ApplyOne(log: Log, panics: bool, saves: bool) returns (answer: Option<Applied>)
      requires Valid() && |queue| > 0
      modifies this, kv, storage`snap
      ensures Valid() && State() == ApplyHead(cfg, old(State()), panics, saves)
      ensures fatal == (old(fatal) || panics)
      ensures waiters == old(waiters) - {old(queue)[0].index}
      ensures answer.Some? <==> old(queue)[0].index in old(waiters)
      ensures answer.Some? ==> if panics then answer.value == Failed else Answers(cfg.decode, kv.State(), old(queue)[0], answer.value)
    {
      var e := queue[0];
      queue := queue[1..];
      var r := Failed;
      if panics { fatal := true; } else { r := kv.Apply(e); }
      appliedIdx := e.index;
      answer := if e.index in waiters then Some(r) else None;
      waiters := waiters - {e.index};
      if !panics && e.index >= snapshotIdx + cfg.snapshotInterval { Checkpoint(log, saves); }
    }

    /** The checkpoint carries the term its index has in the log, 0 if it has none. A
        state machine without snapshots, or a save that fails, leaves the old one. */
    method Checkpoint(log: Log, saves: bool)
      requires Valid()
      modifies this`snapshotIdx, storage`snap
      ensures Valid() && State() == if saves then C.Checkpoint(old(State())) else old(State())
      ensures saves && kv.lastIndex > 0 ==> storage.snap.term == TermAt(log, kv.lastIndex)
    {
      if !saves { return; }
      var data, index := kv.Snapshot();
      if index == 0 { return; }
      storage.SaveSnapshot(StoredSnapshot(index, TermAt(log, index), data));
      snapshotIdx := index;
    }
  }

  /** A node that dies after a checkpoint resumes with the state machine it had, right
      behind the last entry in it. */
  method CheckpointThenRestart(a: Applier, log: Log) returns (r: Option<Applier>)
    requires a.Valid() && a.kv.lastIndex > 0
    modifies a, a.storage
    ensures r.Some? && r.value.Valid() && r.value.kv.State() == old(a.kv.State())
    ensures var kv := old(a.kv.State()); r.value.State() == App(kv.lastIndex, [], kv.lastIndex, kv, kv.lastIndex, Snapshot(kv.lastIndex, kv))
  {
    a.Checkpoint(log, true);
    r := Applier.New(a.cfg, a.kv.codec, a.storage);
  }
}
