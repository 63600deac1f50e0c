/** What reopening a directory gives back: the whole log after an error-free run, the
    acknowledged log and part of the batch after a crash, and when the reopened store
    goes on working. */
module Reopen {
  import opened Types
  import opened RaftLog
  import opened EntryLog
  import opened Codec
  import opened Segments
  import opened SegmentList
  import opened FileStore
  import opened Recovery

  // ---- recoverable directories ----------------------------------------------------------------

  /** A scan of the file finds es and nothing else. */
  predicate Scans(crc: Checksum, file: Types.Bytes, es: seq<Entry>) {
    && GoodHeader(file)
    && ScanFrom(crc, file, SEG_HEADER_LEN) == (RecsOf(crc, es), |Image(crc, es)|)
    && |Image(crc, es)| <= |file| && file[..|Image(crc, es)|] == Image(crc, es)
  }

  /** A directory from which exactly the segments segs can be read back. */
  predicate Recoverable(crc: Checksum, files: map<nat, Types.Bytes>, segs: seq<Seg>) {
    && Rising(segs)
    && (forall j :: 0 <= j < |segs| ==> segs[j].name in files && Scans(crc, files[segs[j].name], segs[j].entries))
    && (forall f :: f in files ==> Scans(crc, files[f], []) || exists j :: 0 <= j < |segs| && segs[j].name == f)
  }

  lemma ScansClean(crc: Checksum, file: Types.Bytes, es: seq<Entry>)
    requires Scans(crc, file, es)
    ensures GoodHeader(file) && Clean(crc, file) == Image(crc, es)
  {
    hide Image, ScanFrom;
    assert file[..|file|] == file;
  }

  lemma ScansIdx(crc: Checksum, s: Seg, file: Types.Bytes)
    requires Scans(crc, file, s.entries)
    ensures FileIdx(crc, s.name, file) == SegIdx(crc, s)
  {
    hide Image, ScanFrom;
    forall k | 0 <= k < |s.entries| ensures FileIdx(crc, s.name, file)[k] == SegIdx(crc, s)[k] { RecsAt(crc, s.entries, k); }
  }

  // ---- the listing meets every segment in order ---------------------------------------------------

  /** c segments have been read once the first k names have been. */
  ghost predicate Progress(names: seq<nat>, k: nat, segs: seq<Seg>, c: nat) {
    && k <= |names| && c <= |segs| && (k == |names| ==> c == |segs|)
    && (forall j :: 0 <= j < c ==> k < |names| ==> segs[j].name < names[k])
    && (forall j :: c <= j < |segs| ==> k < |names| && segs[j].name >= names[k])
  }

  lemma NameIsAhead(names: seq<nat>, k: nat, x: nat)
    requires Ascends(names) && k < |names| && x in names && x > names[k]
    ensures k + 1 < |names| && x >= names[k + 1]
  {
    var i :| 0 <= i < |names| && names[i] == x;
    assert i > k;
    if i > k + 1 { assert names[k + 1] < names[i]; }
  }

  lemma NextName(names: seq<nat>, k: nat, segs: seq<Seg>, c: nat)
    requires Rising(segs) && Ascends(names) && k < |names| && Progress(names, k, segs, c)
    requires forall j :: 0 <= j < |segs| ==> segs[j].name in names
    ensures c < |segs| && segs[c].name == names[k] ==> Progress(names, k + 1, segs, c + 1)
    ensures !(c < |segs| && segs[c].name == names[k]) ==>
              Progress(names, k + 1, segs, c) && forall j :: 0 <= j < |segs| ==> segs[j].name != names[k]
  {
    forall j | c < j < |segs| ensures segs[j].name > names[k] { assert segs[c].name < segs[j].name; }
    forall j | c <= j < |segs| && segs[j].name > names[k] ensures k + 1 < |names| && segs[j].name >= names[k + 1] {
      NameIsAhead(names, k, segs[j].name);
    }
    if k + 1 < |names| { assert names[k] < names[k + 1]; }
    var d := if c < |segs| && segs[c].name == names[k] then c + 1 else c;
    assert d < |segs| ==> segs[d].name > names[k];
  }

  lemma NothingRead(names: seq<nat>, segs: seq<Seg>)
    requires Ascends(names) && forall j :: 0 <= j < |segs| ==> segs[j].name in names
    ensures Progress(names, 0, segs, 0)
  {
    forall j | 0 <= j < |segs| ensures |names| > 0 && segs[j].name >= names[0] {
      assert segs[j].name in names;
      var i :| 0 <= i < |names| && names[i] == segs[j].name;
      if i > 0 { assert names[0] < names[i]; }
    }
    if |segs| > 0 { assert segs[0].name in names; }
  }

  lemma IdxGrows(crc: Checksum, segs: seq<Seg>, c: nat)
    requires c < |segs|
    ensures IdxOf(crc, segs[..c + 1]) == IdxOf(crc, segs[..c]) + SegIdx(crc, segs[c])
  {
    assert segs[..c + 1][..c] == segs[..c];
  }

  /** What the file named f contributes when c segments have been read. */
  lemma NextFile(crc: Checksum, files: map<nat, Types.Bytes>, segs: seq<Seg>, f: nat, c: nat)
    requires Recoverable(crc, files, segs) && f in files && c <= |segs|
    requires (c < |segs| && segs[c].name == f) || forall j :: 0 <= j < |segs| ==> segs[j].name != f
    ensures FileIdx(crc, f, files[f]) == if c < |segs| && segs[c].name == f then SegIdx(crc, segs[c]) else []
  {
    hide Scans, FileIdx, SegIdx;
    if c < |segs| && segs[c].name == f {
      ScansIdx(crc, segs[c], files[f]);
    } else {
      ScansIdx(crc, Seg(f, []), files[f]);
    }
  }

  lemma {:induction false} ReadsUpTo(crc: Checksum, files: map<nat, Types.Bytes>, names: seq<nat>, segs: seq<Seg>, k: nat) returns (c: nat)
    requires Recoverable(crc, files, segs) && Ascends(names) && (forall f :: f in files <==> f in names) && k <= |names|
    ensures Progress(names, k, segs, c) && RecoverIdx(crc, files, names[..k]) == IdxOf(crc, segs[..c])
  {
    hide Scans, FileIdx, SegIdx, Progress;
    if k == 0 {
      NothingRead(names, segs);
      c := 0;
    } else {
      c := ReadsUpTo(crc, files, names, segs, k - 1);
      var f := names[k - 1];
      assert names[..k][..k - 1] == names[..k - 1];
      ProgressBound(names, k - 1, segs, c);
      NextName(names, k - 1, segs, c);
      NextFile(crc, files, segs, f, c);
      if c < |segs| && segs[c].name == f {
        IdxGrows(crc, segs, c);
        c := c + 1;
      }
    }
  }

  lemma ProgressBound(names: seq<nat>, k: nat, segs: seq<Seg>, c: nat)
    requires Progress(names, k, segs, c)
    ensures c <= |segs| && (k == |names| ==> c == |segs|)
  {
  }

  /** From a recoverable directory the index comes back exactly, and every file is cut
      to its whole records. */
  lemma RecoverGivesIndex(crc: Checksum, files: map<nat, Types.Bytes>, names: seq<nat>, segs: seq<Seg>)
    requires Recoverable(crc, files, segs) && Listing(files, names)
    ensures RecoverIdx(crc, files, names) == IdxOf(crc, segs)
    ensures forall f :: f in names ==> GoodHeader(files[f])
    ensures forall b: Books :: RecoveredFrom(crc, files, names, b) ==> OnDisk(crc, b.files, segs)
  {
    hide Scans, FileIdx, SegIdx, Progress, Clean, GoodHeader, RecoverIdx, IdxOf;
    ListingAscends(files, names);
    var c := ReadsUpTo(crc, files, names, segs, |names|);
    ProgressBound(names, |names|, segs, c);
    assert names[..|names|] == names && segs[..c] == segs;
    forall f | f in names ensures GoodHeader(files[f]) { AFileScans(crc, files, segs, f); }
    forall b: Books | RecoveredFrom(crc, files, names, b) ensures OnDisk(crc, b.files, segs) { CleanIsOnDisk(crc, files, b.files, segs); }
  }

  lemma AFileScans(crc: Checksum, files: map<nat, Types.Bytes>, segs: seq<Seg>, f: nat)
    requires Recoverable(crc, files, segs) && f in files
    ensures GoodHeader(files[f])
  {
    hide Scans, GoodHeader;
    if Scans(crc, files[f], []) {
      ScansClean(crc, files[f], []);
    } else {
      var j :| 0 <= j < |segs| && segs[j].name == f;
      ScansClean(crc, files[f], segs[j].entries);
    }
  }

  lemma CleanIsOnDisk(crc: Checksum, files: map<nat, Types.Bytes>, disk: map<nat, Types.Bytes>, segs: seq<Seg>)
    requires Recoverable(crc, files, segs) && disk.Keys == files.Keys && forall f :: f in files ==> disk[f] == Clean(crc, files[f])
    ensures OnDisk(crc, disk, segs)
  {
    hide Image, Scans, Clean;
    forall j | 0 <= j < |segs| ensures disk[segs[j].name] == Image(crc, segs[j].entries) {
      ScansClean(crc, files[segs[j].name], segs[j].entries);
    }
    EmptyImage(crc, []);
    forall f | f in disk && Scans(crc, files[f], []) ensures disk[f] == SEG_HEADER { ScansClean(crc, files[f], []); }
  }

  lemma {:induction false} FlatFits(segs: seq<Seg>, j: nat)
    requires AllFit(Flat(segs)) && j < |segs|
    ensures AllFit(segs[j].entries)
  {
    FlatPrefix(segs, j);
    var base := |Flat(segs[..j])|;
    forall k | 0 <= k < |segs[j].entries| ensures Fits(segs[j].entries[k]) {
      assert segs[j].entries[k] == Flat(segs[..j + 1])[base + k] == Flat(segs)[base + k];
    }
  }

  // ---- the reopened store ---------------------------------------------------------------------------

  /** The segments of a store reopened with file f last: f is open, as a segment of its
      own if it was left over empty. */
  function Reopened(segs: seq<Seg>, f: nat): seq<Seg> {
    if |segs| > 0 && segs[|segs| - 1].name == f then segs else segs + [Seg(f, [])]
  }

  lemma LastNameIsGreatest(files: map<nat, Types.Bytes>, names: seq<nat>, segs: seq<Seg>, j: nat)
    requires Ascends(names) && (forall f :: f in files <==> f in names) && j < |segs| && segs[j].name in files
    ensures |names| > 0 && segs[j].name <= names[|names| - 1]
  {
    var i :| 0 <= i < |names| && names[i] == segs[j].name;
    if i < |names| - 1 { assert names[i] < names[|names| - 1]; }
  }

  /** When a store reopened from a recoverable directory goes on as one: exactly when
      the log reaches the last file's name, or will when that file is full. Its log
      and index are right in any case. */
  lemma ReopenedIff(crc: Checksum, max: nat, files: map<nat, Types.Bytes>, names: seq<nat>, segs: seq<Seg>, b: Books)
    requires Recoverable(crc, files, segs) && Listing(files, names) && |names| > 0 && RecoveredFrom(crc, files, names, b)
    requires max >= 1 && Tiled(segs, max) && AllFit(Flat(segs)) && Indexed(Flat(segs))
    ensures var f := names[|names| - 1];
            var s := Reopened(segs, f);
            && Flat(s) == Flat(segs) && b.idx == IdxOf(crc, s)
            && (StoreOk(crc, max, b.files, s, b.active, b.count) <==> f <= |Flat(segs)| + max)
  {
    hide Scans, FileIdx, SegIdx, Clean, Flat, IdxOf, AllFit, AllWords, Indexed, OnDisk, RecoverIdx,
      Tiled, Rising, Precedes, SegmentName, Pow10, Ascends, Recoverable, Listing;
    FitAreWords(Flat(segs));
    RecoverGivesIndex(crc, files, names, segs);
    var f := names[|names| - 1];
    ListedLast(crc, files, names, segs);
    if |segs| > 0 && segs[|segs| - 1].name == f {
      NextFile(crc, files, segs, f, |segs| - 1);
      SegIdxLength(crc, segs[|segs| - 1]);
      OpenIsReached(segs, max);
    } else {
      NextFile(crc, files, segs, f, |segs|);
      IdxSnocEmpty(crc, segs, f);
      FlatSnoc(segs, Seg(f, []));
      assert Flat(segs) + [] == Flat(segs);
      LeftOverOnDisk(crc, b.files, segs, f);
      LeftOverTiles(segs, f, max);
    }
  }

  /** Every segment's name is at most the last one listed; it is less unless the last
      segment has that name. */
  lemma ListedLast(crc: Checksum, files: map<nat, Types.Bytes>, names: seq<nat>, segs: seq<Seg>)
    requires Recoverable(crc, files, segs) && Listing(files, names) && |names| > 0
    ensures var f := names[|names| - 1];
            && f in files && f in names
            && ((|segs| > 0 && segs[|segs| - 1].name == f) || forall j :: 0 <= j < |segs| ==> segs[j].name < f)
  {
    hide Scans, Precedes, SegmentName, Pow10;
    ListingAscends(files, names);
    var f := names[|names| - 1];
    forall j | 0 <= j < |segs| ensures segs[j].name <= f { LastNameIsGreatest(files, names, segs, j); }
    if |segs| > 0 && segs[|segs| - 1].name != f {
      forall j | 0 <= j < |segs| - 1 ensures segs[j].name < f { assert segs[j].name < segs[|segs| - 1].name; }
    }
  }

  lemma SegIdxLength(crc: Checksum, s: Seg)
    ensures |SegIdx(crc, s)| == |s.entries|
  {
  }

  lemma FitAreWords(es: seq<Entry>)
    requires AllFit(es)
    ensures AllWords(es)
  {
  }

  lemma LeftOverOnDisk(crc: Checksum, disk: map<nat, Types.Bytes>, segs: seq<Seg>, f: nat)
    requires OnDisk(crc, disk, segs) && f in disk && forall j :: 0 <= j < |segs| ==> segs[j].name < f
    ensures OnDisk(crc, disk, segs + [Seg(f, [])])
  {
    AddSegOnDisk(crc, disk, segs, f);
    assert disk[f] == SEG_HEADER;
    assert disk[f := SEG_HEADER] == disk;
  }

  lemma LeftOverTiles(segs: seq<Seg>, f: nat, max: nat)
    requires Tiled(segs, max) && forall j :: 0 <= j < |segs| ==> segs[j].name < f
    ensures Tiled(segs + [Seg(f, [])], max) <==> f <= |Flat(segs)| + max
  {
    hide Flat;
    var s := segs + [Seg(f, [])];
    assert s[..|segs|] == segs;
    if f <= |Flat(segs)| + max { AddSegTiles(segs, f, max); }
  }

  /** openWith: scan the directory and take it up; None is a file with a bad header.
      If the directory reads back as the segments segs, the store has their log, and is
      a valid one exactly when it reaches the name of its last file. */
  method Open(crc: Checksum, max: nat, files: map<nat, Types.Bytes>, names: seq<nat>, ghost segs: seq<Seg>)
    returns (r: Option<FileStorage>)
    requires Listing(files, names)
    ensures r.Some? <==> forall f :: f in names ==> GoodHeader(files[f])
    ensures r.Some? ==> fresh(r.value) && r.value.crc == crc && r.value.maxEntries == max && r.value.Usable()
    ensures r.Some? ==> RecoveredFrom(crc, files, names, r.value.Ledger())
    ensures Recoverable(crc, files, segs) && max >= 1 && Tiled(segs, max) && AllFit(Flat(segs)) && Indexed(Flat(segs)) ==>
              && r.Some? && r.value.Contents() == Flat(segs) && r.value.idx == IdxOf(crc, r.value.segs)
              && (r.value.Valid() <==> |names| == 0 || names[|names| - 1] <= |Flat(segs)| + max)
  {
    hide Recoverable, Tiled, Flat, IdxOf, AllFit, Indexed, StoreOk, GoodHeader, Clean, FileIdx, Precedes, SegmentName, Pow10;
    var b := Recover(crc, files, names);
    if Recoverable(crc, files, segs) { RecoverGivesIndex(crc, files, names, segs); }
    if b.None? { return None; }
    ghost var s := if |names| == 0 then segs else Reopened(segs, names[|names| - 1]);
    if Recoverable(crc, files, segs) && max >= 1 && Tiled(segs, max) && AllFit(Flat(segs)) && Indexed(Flat(segs)) {
      if |names| == 0 { NothingToOpen(crc, max, files, segs); } else { ReopenedIff(crc, max, files, names, segs, b.value); }
    }
    var store := new FileStorage.Resume(crc, max, b.value, s);
    r := Some(store);
  }

  /** An empty directory is the fresh store. */
  lemma NothingToOpen(crc: Checksum, max: nat, files: map<nat, Types.Bytes>, segs: seq<Seg>)
    requires Recoverable(crc, files, segs) && (forall f :: f !in files) && max >= 1
    ensures segs == [] && StoreOk(crc, max, files, segs, None, 0)
  {
    FirstIsFile(crc, files, segs);
  }

  lemma FirstIsFile(crc: Checksum, files: map<nat, Types.Bytes>, segs: seq<Seg>)
    requires Recoverable(crc, files, segs)
    ensures |segs| > 0 ==> segs[0].name in files
  {
  }

  // ---- after an error-free run and after a crash ------------------------------------------------------

  /** A file that ends in a cut batch still yields all its entries, and the whole
      records of the batch. */
  lemma CutFileScans(crc: Checksum, es: seq<Entry>, batch: seq<Entry>, n: nat)
    requires AllFit(es) && AllFit(batch) && n <= |Records(crc, batch)|
    ensures Scans(crc, Image(crc, es) + Records(crc, batch)[..n], es + batch[..Whole(crc, batch, n)])
  {
    hide ScanFrom, RecsOf, Whole, Records;
    var j := Whole(crc, batch, n);
    var kept := es + batch[..j];
    ScanAfterCut(crc, es, batch, n);
    CutBatch(crc, batch, n);
    RecordsJoin(crc, es, batch[..j]);
    assert Image(crc, kept) == Image(crc, es) + Records(crc, batch[..j]);
  }

  lemma WholeFileScans(crc: Checksum, es: seq<Entry>)
    requires AllFit(es)
    ensures Scans(crc, Image(crc, es), es)
  {
    hide Scans, Image;
    NoRecords(crc);
    CutFileScans(crc, es, [], 0);
    assert Image(crc, es) + Records(crc, [])[..0] == Image(crc, es);
    assert es + [] == es;
  }

  lemma NoRecords(crc: Checksum)
    ensures Records(crc, []) == [] && Whole(crc, [], 0) == 0 && Image(crc, []) == SEG_HEADER && AllFit([])
  {
  }

  /** A store at rest reads back as it is. */
  lemma StoreIsRecoverable(crc: Checksum, max: nat, files: map<nat, Types.Bytes>, segs: seq<Seg>, active: Option<nat>, count: nat)
    requires StoreOk(crc, max, files, segs, active, count) && AllFit(Flat(segs))
    ensures Recoverable(crc, files, segs)
  {
    hide Scans, Flat, Image, AllFit, AllWords, Indexed;
    forall j | 0 <= j < |segs| ensures Scans(crc, files[segs[j].name], segs[j].entries) {
      FlatFits(segs, j);
      WholeFileScans(crc, segs[j].entries);
    }
    NoRecords(crc);
    WholeFileScans(crc, []);
  }

  /** Reopen after an error-free run: exactly the log that was there, as a working store
      exactly when the log reaches, or will reach, the last file's name. */
  lemma CleanReopen(crc: Checksum, max: nat, files: map<nat, Types.Bytes>, segs: seq<Seg>, active: Option<nat>, count: nat,
                    names: seq<nat>, b: Books)
    requires StoreOk(crc, max, files, segs, active, count) && AllFit(Flat(segs)) && Listing(files, names) && |names| > 0 && RecoveredFrom(crc, files, names, b)
    ensures var f := names[|names| - 1];
            var s := Reopened(segs, f);
            && Flat(s) == Flat(segs) && b.idx == IdxOf(crc, s)
            && (StoreOk(crc, max, b.files, s, b.active, b.count) <==> f <= |Flat(segs)| + max)
            && (active == Some(f) ==> f <= |Flat(segs)| + max)
  {
    hide Recoverable, RecoveredFrom, Listing, Flat, IdxOf, AllFit, AllWords, Indexed, OnDisk;
    StoreIsRecoverable(crc, max, files, segs, active, count);
    ReopenedIff(crc, max, files, names, segs, b);
    if active == Some(names[|names| - 1]) { OpenIsReached(segs, max); }
  }

  lemma OpenIsReached(segs: seq<Seg>, max: nat)
    requires Tiled(segs, max) && |segs| > 0
    ensures segs[|segs| - 1].name <= |Flat(segs)| + max
  {
    hide Flat, Rising;
    var last := |segs| - 1;
    assert segs[last].name <= |Flat(segs[..last])| + max;
    FlatSpan(segs, last, |segs|);
    assert segs[..|segs|] == segs;
  }

  /** The segments after a batch was cut short behind the open one. */
  function AfterCut(crc: Checksum, segs: seq<Seg>, batch: seq<Entry>, n: nat): seq<Seg>
    requires |segs| > 0
  {
    var last := segs[|segs| - 1];
    segs[..|segs| - 1] + [last.(entries := last.entries + batch[..Whole(crc, batch, n)])]
  }

  lemma AfterCutTiles(crc: Checksum, segs: seq<Seg>, batch: seq<Entry>, n: nat, max: nat)
    requires |segs| > 0 && Tiled(segs, max)
    ensures var s := AfterCut(crc, segs, batch, n); Tiled(s, max) && Flat(s) == Flat(segs) + batch[..Whole(crc, batch, n)]
  {
    hide Whole, Flat;
    var last, s := |segs| - 1, AfterCut(crc, segs, batch, n);
    FlatSnoc(segs[..last], segs[last]);
    FlatSnoc(segs[..last], s[last]);
    assert segs[..last] + [segs[last]] == segs && s == segs[..last] + [s[last]];
    assert Flat(segs[..last]) + (segs[last].entries + batch[..Whole(crc, batch, n)]) == Flat(segs) + batch[..Whole(crc, batch, n)];
    forall j | 0 <= j < |s| ensures s[j].name <= |Flat(s[..j])| + max { assert s[..j] == segs[..j]; }
  }

  /** An Append of batch that does not roll over dies after n of its bytes reached the
      open segment. */
  function Torn(crc: Checksum, files: map<nat, Types.Bytes>, open: nat, batch: seq<Entry>, n: nat): map<nat, Types.Bytes>
    requires open in files && n <= |Records(crc, batch)|
  {
    files[open := files[open] + Records(crc, batch)[..n]]
  }

  lemma CrashedAppendIsRecoverable(crc: Checksum, max: nat, files: map<nat, Types.Bytes>, segs: seq<Seg>, active: Option<nat>, count: nat,
                                   batch: seq<Entry>, n: nat)
    requires StoreOk(crc, max, files, segs, active, count) && AllFit(Flat(segs)) && |segs| > 0 && AllFit(batch) && n <= |Records(crc, batch)|
    ensures active.Some? && active.value in files
    ensures var s := AfterCut(crc, segs, batch, n);
            && Recoverable(crc, Torn(crc, files, active.value, batch, n), s) && Tiled(s, max)
            && Flat(s) == Flat(segs) + batch[..Whole(crc, batch, n)]
  {
    hide Scans, Flat, Image, AllFit, AllWords, Indexed, Records, Whole;
    OpenFile(crc, files, segs);
    StoreIsRecoverable(crc, max, files, segs, active, count);
    AfterCutTiles(crc, segs, batch, n, max);
    var last, s := |segs| - 1, AfterCut(crc, segs, batch, n);
    var torn := Torn(crc, files, active.value, batch, n);
    FlatFits(segs, last);
    CutFileScans(crc, segs[last].entries, batch, n);
    forall j | 0 <= j < |s| ensures s[j].name in torn && Scans(crc, torn[s[j].name], s[j].entries) {
      if j < last { assert segs[j].name < segs[last].name; }
    }
    forall f | f in torn ensures Scans(crc, torn[f], []) || exists j :: 0 <= j < |s| && s[j].name == f {
      if exists j :: 0 <= j < |segs| && segs[j].name == f {
        var j :| 0 <= j < |segs| && segs[j].name == f;
        assert s[j].name == f;
      }
    }
  }

  /** Crash recovery: reopening after that crash gives every acknowledged entry and a
      prefix of the batch, as a working store under the same condition. */
  lemma CrashedReopen(crc: Checksum, max: nat, files: map<nat, Types.Bytes>, segs: seq<Seg>, active: Option<nat>, count: nat,
                      batch: seq<Entry>, n: nat, names: seq<nat>, b: Books)
    requires StoreOk(crc, max, files, segs, active, count) && AllFit(Flat(segs)) && |segs| > 0 && active.Some? && active.value in files
    requires AllFit(batch) && Continues(Flat(segs), batch) && n <= |Records(crc, batch)|
    requires Listing(Torn(crc, files, active.value, batch, n), names) && |names| > 0
    requires RecoveredFrom(crc, Torn(crc, files, active.value, batch, n), names, b)
    ensures var j, f := Whole(crc, batch, n), names[|names| - 1];
            var s := Reopened(AfterCut(crc, segs, batch, n), f);
            && Flat(s) == Flat(segs) + batch[..j] && b.idx == IdxOf(crc, s)
            && (StoreOk(crc, max, b.files, s, b.active, b.count) <==> f <= |Flat(segs)| + j + max)
            && (active == Some(f) ==> f <= |Flat(segs)| + j + max)
  {
    hide Recoverable, RecoveredFrom, Listing, Flat, IdxOf, AllFit, AllWords, Indexed, OnDisk, Records, Whole;
    CrashedAppendIsRecoverable(crc, max, files, segs, active, count, batch, n);
    PrefixFits(Flat(segs), batch, Whole(crc, batch, n));
    ReopenedIff(crc, max, Torn(crc, files, active.value, batch, n), names, AfterCut(crc, segs, batch, n), b);
    if active == Some(names[|names| - 1]) { OpenIsReached(segs, max); }
  }

  lemma PrefixFits(log: Log, batch: seq<Entry>, j: nat)
    requires AllFit(log) && Indexed(log) && AllFit(batch) && Continues(log, batch) && j <= |batch|
    ensures AllFit(log + batch[..j]) && Indexed(log + batch[..j])
  {
    ContinuesIffIndexed(log, batch[..j]);
  }
}
