/** The hard state and snapshot files (pkg/storage/file/hardstate.go, snapshot.go):
    one checksummed frame each, replaced by write, sync, rename and directory sync. */
module AtomicFile {
  import opened Types
  import opened Codec

  // ---- the frame -----------------------------------------------------------------------------

  const FRAME_CRC_LEN: nat := 4
  const FRAME_FIXED_LEN: nat := 20

  /** Two 64-bit words and a blob: term, commit and vote, or index, term and data. */
  datatype Frame = Frame(first: nat, second: nat, blob: Types.Bytes)

  predicate InRange(f: Frame) { f.first <= MAX64 && f.second <= MAX64 && |f.blob| < 0x1_0000_0000 }

  function Body(f: Frame): (b: Types.Bytes)
    ensures |b| == FRAME_FIXED_LEN + |f.blob|
  {
    PutUint(f.first, 8) + PutUint(f.second, 8) + PutUint(|f.blob|, 4) + f.blob
  }

  function Encode(crc: Checksum, f: Frame): (b: Types.Bytes)
    ensures |b| == FRAME_CRC_LEN + FRAME_FIXED_LEN + |f.blob|
  {
    PutUint(crc(Body(f)), 4) + Body(f)
  }

  /** None is a short file, a checksum mismatch or a length that overruns. */
  function Decode(crc: Checksum, b: Types.Bytes): Option<Frame> {
    if |b| < FRAME_CRC_LEN + FRAME_FIXED_LEN then None
    else
      var body := b[4..];
      if crc(body) != GetUint(b[0..4]) then None
      else if GetUint(body[16..20]) != |body| - FRAME_FIXED_LEN then None
      else Some(Frame(GetUint(body[0..8]), GetUint(body[8..16]), body[20..]))
  }

  lemma BodyParts(f: Frame)
    ensures var b := Body(f);
            b[0..8] == PutUint(f.first, 8) && b[8..16] == PutUint(f.second, 8) && b[16..20] == PutUint(|f.blob|, 4) && b[20..] == f.blob
  {
    hide PutUint;
  }

  lemma EncodeParts(crc: Checksum, f: Frame)
    ensures Encode(crc, f)[0..4] == PutUint(crc(Body(f)), 4) && Encode(crc, f)[4..] == Body(f)
  {
    hide PutUint, Body;
  }

  lemma FrameRoundTrip(crc: Checksum, f: Frame)
    requires InRange(f)
    ensures Decode(crc, Encode(crc, f)) == Some(f)
  {
    hide PutUint, GetUint, Body, Encode;
    EncodeParts(crc, f);
    BodyParts(f);
    Uint32RoundTrip(crc(Body(f)));
    Uint32RoundTrip(|f.blob|);
    Uint64RoundTrip(f.first);
    Uint64RoundTrip(f.second);
  }

  lemma DecodedWasEncoded(crc: Checksum, b: Types.Bytes)
    requires Decode(crc, b).Some?
    ensures InRange(Decode(crc, b).value) && b == Encode(crc, Decode(crc, b).value)
  {
    hide PutUint, GetUint;
    var body, f := b[4..], Decode(crc, b).value;
    PutGet(b[0..4]);
    PutGet(body[0..8]);
    PutGet(body[8..16]);
    PutGet(body[16..20]);
    Widths();
    assert body == body[0..8] + body[8..16] + body[16..20] + body[20..];
    assert b == b[0..4] + b[4..];
  }

  /** decode yields a value exactly on its encoding: no other file is accepted. */
  lemma DecodeIffEncoded(crc: Checksum, b: Types.Bytes, f: Frame)
    ensures Decode(crc, b) == Some(f) <==> InRange(f) && b == Encode(crc, f)
  {
    hide Decode, Encode;
    if Decode(crc, b) == Some(f) { DecodedWasEncoded(crc, b); }
    if InRange(f) && b == Encode(crc, f) { FrameRoundTrip(crc, f); }
  }

  // ---- a file system that can crash ------------------------------------------------------------

  /** A file: its bytes, of which a crash keeps at least the first synced ones. */
  datatype Inode = Inode(data: Types.Bytes, synced: nat)

  /** dirs lists the directory versions since the last directory sync, the current one
      last: a crash may leave any of them. */
  datatype Fs = Fs(inodes: seq<Inode>, dirs: seq<map<string, nat>>)

  predicate FsOk(fs: Fs) {
    && |fs.dirs| > 0
    && (forall v, f :: v in fs.dirs && f in v ==> v[f] < |fs.inodes|)
    && (forall n :: n in fs.inodes ==> n.synced <= |n.data|)
  }

  function Now(fs: Fs): map<string, nat>
    requires FsOk(fs)
  {
    fs.dirs[|fs.dirs| - 1]
  }

  datatype FsOp = Create(name: string) | Write(name: string, bytes: Types.Bytes) | Sync(name: string)
                | Rename(name: string, target: string) | SyncDir

  function Do(fs: Fs, op: FsOp): Fs
    requires FsOk(fs)
  {
    match op
    case Create(f) => Fs(fs.inodes + [Inode([], 0)], fs.dirs + [Now(fs)[f := |fs.inodes|]])
    case Write(f, b) =>
      if f !in Now(fs) then fs
      else var i := Now(fs)[f]; fs.(inodes := fs.inodes[i := fs.inodes[i].(data := fs.inodes[i].data + b)])
    case Sync(f) =>
      if f !in Now(fs) then fs
      else var i := Now(fs)[f]; fs.(inodes := fs.inodes[i := fs.inodes[i].(synced := |fs.inodes[i].data|)])
    case Rename(f, g) =>
      if f !in Now(fs) then fs
      else fs.(dirs := fs.dirs + [(Now(fs) - {f})[g := Now(fs)[f]]])
    case SyncDir => fs.(dirs := [Now(fs)])
  }

  /** disk is a possible directory content after a crash in state fs. */
  ghost predicate MayLeave(fs: Fs, disk: map<string, Types.Bytes>)
    requires FsOk(fs)
  {
    exists v :: v in fs.dirs && v.Keys == disk.Keys && forall f :: f in v ==> Survives(fs.inodes[v[f]], disk[f])
  }

  predicate Survives(n: Inode, bytes: Types.Bytes) {
    n.synced <= |bytes| <= |n.data| && bytes == n.data[..|bytes|]
  }

  lemma DoIsOk(fs: Fs, op: FsOp)
    requires FsOk(fs)
    ensures FsOk(Do(fs, op))
  {
  }

  /** What the save path does, in order. */
  function SaveOps(tmp: string, target: string, bytes: Types.Bytes): (ops: seq<FsOp>)
    ensures |ops| == 5
  {
    [Create(tmp), Write(tmp, bytes), Sync(tmp), Rename(tmp, target), SyncDir]
  }

  function DoAll(fs: Fs, ops: seq<FsOp>): (r: Fs)
    requires FsOk(fs)
    ensures FsOk(r)
  {
    if |ops| == 0 then fs
    else
      var before := DoAll(fs, ops[..|ops| - 1]);
      DoIsOk(before, ops[|ops| - 1]);
      Do(before, ops[|ops| - 1])
  }

  // ---- replacement is atomic ------------------------------------------------------------------------

  /** In directory version v, file target is absent (None) or holds x, all of it synced. */
  predicate TargetIs(fs: Fs, v: map<string, nat>, target: string, x: Option<Types.Bytes>) {
    match x
    case None => target !in v
    case Some(b) => target in v && v[target] < |fs.inodes| && fs.inodes[v[target]] == Inode(b, |b|)
  }

  /** Whatever a crash leaves, target is x. */
  predicate Settled(fs: Fs, target: string, x: Option<Types.Bytes>) {
    FsOk(fs) && forall v :: v in fs.dirs ==> TargetIs(fs, v, target, x)
  }

  /** tmp is a file of its own with content n, which no version knows as target. */
  predicate Scratch(fs: Fs, tmp: string, target: string, n: Inode) {
    && FsOk(fs) && tmp in Now(fs) && fs.inodes[Now(fs)[tmp]] == n
    && forall v :: v in fs.dirs && target in v ==> v[target] != Now(fs)[tmp]
  }

  lemma CreateKeeps(fs: Fs, tmp: string, target: string, x: Option<Types.Bytes>)
    requires Settled(fs, target, x) && tmp != target
    ensures var r := Do(fs, Create(tmp)); Settled(r, target, x) && Scratch(r, tmp, target, Inode([], 0))
  {
    DoIsOk(fs, Create(tmp));
    var r := Do(fs, Create(tmp));
    forall v | v in r.dirs ensures TargetIs(r, v, target, x) {
      if v !in fs.dirs { assert TargetIs(fs, Now(fs), target, x); } else { assert TargetIs(fs, v, target, x); }
    }
  }

  /** Writing and syncing the scratch file leaves the target alone. */
  lemma ScratchKeeps(fs: Fs, op: FsOp, tmp: string, target: string, x: Option<Types.Bytes>, n: Inode)
    requires Settled(fs, target, x) && Scratch(fs, tmp, target, n) && (op.Write? || op.Sync?) && op.name == tmp
    ensures var r := Do(fs, op);
            && Settled(r, target, x)
            && Scratch(r, tmp, target, if op.Write? then n.(data := n.data + op.bytes) else n.(synced := |n.data|))
  {
    DoIsOk(fs, op);
    var r := Do(fs, op);
    forall v | v in r.dirs ensures TargetIs(r, v, target, x) { assert TargetIs(fs, v, target, x); }
  }

  lemma RenameGives(fs: Fs, tmp: string, target: string, x: Option<Types.Bytes>, b: Types.Bytes)
    requires Settled(fs, target, x) && Scratch(fs, tmp, target, Inode(b, |b|)) && tmp != target
    ensures var r := Do(fs, Rename(tmp, target));
            && FsOk(r) && TargetIs(r, Now(r), target, Some(b))
            && forall v :: v in r.dirs ==> TargetIs(r, v, target, x) || TargetIs(r, v, target, Some(b))
  {
    DoIsOk(fs, Rename(tmp, target));
    var r := Do(fs, Rename(tmp, target));
    forall v | v in r.dirs ensures TargetIs(r, v, target, x) || TargetIs(r, v, target, Some(b)) {
      if v in fs.dirs { assert TargetIs(fs, v, target, x); }
    }
  }

  /** The state after the first k operations of a save. */
  lemma SaveStage(fs: Fs, tmp: string, target: string, x: Option<Types.Bytes>, bytes: Types.Bytes, k: nat)
    requires FsOk(fs) && Settled(fs, target, x) && tmp != target && k <= 5
    ensures var r := DoAll(fs, SaveOps(tmp, target, bytes)[..k]);
            && (k <= 3 ==> Settled(r, target, x))
            && (k == 3 ==> Scratch(r, tmp, target, Inode(bytes, |bytes|)))
            && (k == 2 ==> Scratch(r, tmp, target, Inode(bytes, 0)))
            && (k == 1 ==> Scratch(r, tmp, target, Inode([], 0)))
            && (k == 4 ==> TargetIs(r, Now(r), target, Some(bytes)))
            && (k == 4 ==> forall v :: v in r.dirs ==> TargetIs(r, v, target, x) || TargetIs(r, v, target, Some(bytes)))
            && (k == 5 ==> Settled(r, target, Some(bytes)))
    decreases k
  {
    hide Settled, Scratch, TargetIs, Do;
    var ops := SaveOps(tmp, target, bytes);
    if k > 0 {
      SaveStage(fs, tmp, target, x, bytes, k - 1);
      assert ops[..k][..k - 1] == ops[..k - 1] && ops[..k][k - 1] == ops[k - 1];
      var r := DoAll(fs, ops[..k - 1]);
      match k - 1
      case 0 => CreateKeeps(r, tmp, target, x);
      case 1 => ScratchKeeps(r, ops[1], tmp, target, x, Inode([], 0)); assert [] + bytes == bytes;
      case 2 => ScratchKeeps(r, ops[2], tmp, target, x, Inode(bytes, 0));
      case 3 => RenameGives(r, tmp, target, x, bytes);
      case _ => SyncDirSettles(r, target, bytes);
    }
  }

  lemma SyncDirSettles(fs: Fs, target: string, b: Types.Bytes)
    requires FsOk(fs) && TargetIs(fs, Now(fs), target, Some(b))
    ensures Settled(Do(fs, SyncDir), target, Some(b))
  {
  }

  function ReadFile(disk: map<string, Types.Bytes>, name: string): Option<Types.Bytes> {
    if name in disk then Some(disk[name]) else None
  }

  lemma LeftIsTarget(fs: Fs, v: map<string, nat>, target: string, x: Option<Types.Bytes>, disk: map<string, Types.Bytes>)
    requires FsOk(fs) && v in fs.dirs && v.Keys == disk.Keys && TargetIs(fs, v, target, x)
    requires forall f :: f in v ==> Survives(fs.inodes[v[f]], disk[f])
    ensures ReadFile(disk, target) == x
  {
    if x.Some? {
      assert Survives(fs.inodes[v[target]], disk[target]);
      assert x.value[..|x.value|] == x.value;
    }
  }

  /** A crash after any number of the save's operations, and whatever of the unsynced
      bytes and directory changes it keeps, leaves the whole old file or the whole new
      one; once the save has returned, the new one. */
  lemma CrashLeavesOldOrNew(fs: Fs, tmp: string, target: string, x: Option<Types.Bytes>, bytes: Types.Bytes, k: nat, disk: map<string, Types.Bytes>)
    requires FsOk(fs) && Settled(fs, target, x) && tmp != target && k <= 5
    requires MayLeave(DoAll(fs, SaveOps(tmp, target, bytes)[..k]), disk)
    ensures ReadFile(disk, target) == x || ReadFile(disk, target) == Some(bytes)
    ensures k <= 3 ==> ReadFile(disk, target) == x
    ensures k == 5 ==> ReadFile(disk, target) == Some(bytes)
  {
    hide TargetIs, Scratch, Survives, SaveOps, ReadFile;
    SaveStage(fs, tmp, target, x, bytes, k);
    var r := DoAll(fs, SaveOps(tmp, target, bytes)[..k]);
    var v :| v in r.dirs && v.Keys == disk.Keys && forall f :: f in v ==> Survives(r.inodes[v[f]], disk[f]);
    if TargetIs(r, v, target, Some(bytes)) { LeftIsTarget(r, v, target, Some(bytes), disk); }
    if TargetIs(r, v, target, x) { LeftIsTarget(r, v, target, x, disk); }
  }

  /** LoadHardState and LoadSnapshot: a missing file is the zero value; None is a
      corrupt file. */
  function Load(crc: Checksum, disk: map<string, Types.Bytes>, target: string): Option<Frame> {
    match ReadFile(disk, target)
    case None => Some(Frame(0, 0, []))
    case Some(b) => Decode(crc, b)
  }

  /** Saves are atomic: over a store that holds value old, a save of value new that
      crashes anywhere leaves a directory that loads as old or as new. */
  lemma SaveIsAtomic(crc: Checksum, fs: Fs, tmp: string, target: string, old_: Option<Frame>, new_: Frame, k: nat, disk: map<string, Types.Bytes>)
    requires FsOk(fs) && tmp != target && k <= 5 && InRange(new_) && (old_.Some? ==> InRange(old_.value))
    requires Settled(fs, target, if old_.Some? then Some(Encode(crc, old_.value)) else None)
    requires MayLeave(DoAll(fs, SaveOps(tmp, target, Encode(crc, new_))[..k]), disk)
    ensures var zero := Frame(0, 0, []);
            var before := if old_.Some? then old_.value else zero;
            && (Load(crc, disk, target) == Some(before) || Load(crc, disk, target) == Some(new_))
            && (k == 5 ==> Load(crc, disk, target) == Some(new_))
  {
    hide Encode, Decode, Settled, MayLeave, SaveOps;
    CrashLeavesOldOrNew(fs, tmp, target, if old_.Some? then Some(Encode(crc, old_.value)) else None, Encode(crc, new_), k, disk);
    FrameRoundTrip(crc, new_);
    if old_.Some? { FrameRoundTrip(crc, old_.value); }
  }
}
