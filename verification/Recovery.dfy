/** Reopening a store: every segment is scanned in name order, torn tails are cut,
    and the index is rebuilt. */
module Recovery {
  import opened Types
  import opened Codec
  import opened Segments
  import opened SegmentList
  import opened FileStore

  // ---- the directory listing -----------------------------------------------------------------

  /** names lists the segment files, by first index, in the order of their file names. */
  ghost predicate Listing(files: map<nat, Types.Bytes>, names: seq<nat>) {
    && (forall f :: f in files <==> f in names)
    && (forall k :: 0 <= k < |names| ==> names[k] < Pow10(16))
    && (forall j, k :: 0 <= j < k < |names| ==> Precedes(SegmentName(names[j]), SegmentName(names[k])))
  }

  predicate Ascends(names: seq<nat>) { forall j, k :: 0 <= j < k < |names| ==> names[j] < names[k] }

  lemma SameUpTo(a: string, b: string, l: nat, k: nat)
    requires k < l <= |a| && l <= |b| && a[..l] == b[..l]
    ensures a[k] == b[k]
  {
    assert a[..l][k] == b[..l][k];
  }

  lemma PrecedesIsStrict(a: string, b: string)
    requires Precedes(a, b)
    ensures a != b && !Precedes(b, a)
  {
    var k :| 0 <= k < |a| && a[..k] == b[..k] && a[k] < b[k];
    if Precedes(b, a) {
      var l :| 0 <= l < |b| && b[..l] == a[..l] && b[l] < a[l];
      if k < l { SameUpTo(a, b, l, k); } else if l < k { SameUpTo(a, b, k, l); }
    }
  }

  /** File-name order is index order. */
  lemma ListingAscends(files: map<nat, Types.Bytes>, names: seq<nat>)
    requires Listing(files, names)
    ensures Ascends(names)
  {
    hide SegmentName, Precedes, Pow10;
    forall j, k | 0 <= j < k < |names| ensures names[j] < names[k] {
      PrecedesIsStrict(SegmentName(names[j]), SegmentName(names[k]));
      if names[k] < names[j] { NamesPreserveOrder(names[k], names[j]); }
    }
  }

  // ---- recover -----------------------------------------------------------------------------------

  function ToIdx(name: nat, r: ScanRec): IdxEntry { IdxEntry(r.index, r.term, name, r.offset, PAYLOAD_FIXED_LEN + r.dataLen) }

  /** The index entries of one file. */
  function FileIdx(crc: Checksum, name: nat, file: Types.Bytes): (r: seq<IdxEntry>)
    ensures |r| == |ScanFrom(crc, file, SEG_HEADER_LEN).0|
  {
    var recs := ScanFrom(crc, file, SEG_HEADER_LEN).0;
    seq(|recs|, k requires 0 <= k < |recs| => ToIdx(name, recs[k]))
  }

  /** A file cut to its whole records. */
  function Clean(crc: Checksum, file: Types.Bytes): Types.Bytes {
    var end := ScanFrom(crc, file, SEG_HEADER_LEN).1;
    if end < |file| then file[..end] else file
  }

  /** The index rebuilt from the named files, in that order. */
  function RecoverIdx(crc: Checksum, files: map<nat, Types.Bytes>, names: seq<nat>): seq<IdxEntry>
    requires forall f :: f in names ==> f in files
  {
    if |names| == 0 then []
    else
      var f := names[|names| - 1];
      RecoverIdx(crc, files, names[..|names| - 1]) + FileIdx(crc, f, files[f])
  }

  method IndexRecords(name: nat, recs: seq<ScanRec>) returns (r: seq<IdxEntry>)
    ensures |r| == |recs| && forall k :: 0 <= k < |recs| ==> r[k] == ToIdx(name, recs[k])
  {
    r := [];
    for k := 0 to |recs|
      invariant |r| == k && forall i :: 0 <= i < k ==> r[i] == ToIdx(name, recs[i])
    {
      r := r + [ToIdx(name, recs[k])];
    }
  }

  /** scanOne: the index entries of one file, and the file cut to its whole records;
      None is a missing or foreign header. */
  method ScanOne(crc: Checksum, name: nat, file: Types.Bytes) returns (r: Option<(seq<IdxEntry>, Types.Bytes)>)
    ensures r.Some? <==> GoodHeader(file)
    ensures r.Some? ==> r.value == (FileIdx(crc, name, file), Clean(crc, file))
  {
    hide ScanFrom, ToIdx;
    var scan := ScanSegment(crc, file);
    if scan.None? { return None; }
    var (recs, goodEnd) := scan.value;
    var ies := IndexRecords(name, recs);
    assert ies == FileIdx(crc, name, file);
    r := Some((ies, if goodEnd < |file| then file[..goodEnd] else file));
  }

  /** b is what recover makes of the directory: every file cut to its whole records,
      their entries indexed in name order, and the last file open. */
  ghost predicate RecoveredFrom(crc: Checksum, files: map<nat, Types.Bytes>, names: seq<nat>, b: Books)
    requires forall f :: f in names ==> f in files
  {
    && b.files.Keys == files.Keys && (forall f :: f in names ==> b.files[f] == Clean(crc, files[f]))
    && b.idx == RecoverIdx(crc, files, names)
    && (if |names| == 0 then b.active == None && b.count == 0
        else var f := names[|names| - 1]; b.active == Some(f) && b.count == |FileIdx(crc, f, files[f])|)
  }

  /** recover: an error exactly when some file has no good header. */
  method Recover(crc: Checksum, files: map<nat, Types.Bytes>, names: seq<nat>) returns (r: Option<Books>)
    requires forall f :: f in names ==> f in files
    ensures r.Some? <==> forall f :: f in names ==> GoodHeader(files[f])
    ensures r.Some? ==> RecoveredFrom(crc, files, names, r.value)
  {
    hide FileIdx, Clean, GoodHeader, RecoveredFrom;
    var b := Books(files, [], None, 0);
    NothingRecovered(crc, files);
    for k := 0 to |names|
      invariant RecoveredFrom(crc, files, names[..k], b)
      invariant forall f :: f in names[..k] ==> GoodHeader(files[f])
    {
      var name := names[k];
      assert names[..k + 1] == names[..k] + [name];
      var scan := ScanOne(crc, name, files[name]);
      if scan.None? { return None; }
      var (ies, clean) := scan.value;
      OneMoreRecovered(crc, files, names[..k], b, name);
      b := Books(b.files[name := clean], b.idx + ies, Some(name), |ies|);
    }
    assert names[..|names|] == names;
    r := Some(b);
  }

  lemma NothingRecovered(crc: Checksum, files: map<nat, Types.Bytes>)
    ensures RecoveredFrom(crc, files, [], Books(files, [], None, 0))
  {
  }

  lemma OneMoreRecovered(crc: Checksum, files: map<nat, Types.Bytes>, names: seq<nat>, b: Books, f: nat)
    requires (forall g :: g in names ==> g in files) && f in files && RecoveredFrom(crc, files, names, b)
    ensures var ies := FileIdx(crc, f, files[f]);
            RecoveredFrom(crc, files, names + [f], Books(b.files[f := Clean(crc, files[f])], b.idx + ies, Some(f), |ies|))
  {
    hide FileIdx, Clean;
    assert (names + [f])[..|names|] == names;
  }
}
