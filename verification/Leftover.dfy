/** Why a reopened store must reach the name of its last file: otherwise the entries
    it acknowledges next come back lost or out of order. */
module Leftover {
  import opened Types
  import opened EntryLog
  import opened Codec
  import opened Segments
  import opened SegmentList
  import opened FileStore
  import opened Recovery
  import opened Reopen

  /** The store reopened with the empty file f last. */
  function Fresh(files: map<nat, Types.Bytes>, idx: seq<IdxEntry>, f: nat): Books { Books(files, idx, Some(f), 0) }

  /** The first entries go into f, however far its name is ahead of the log. */
  lemma {:induction false} FillsLast(crc: Checksum, max: nat, files: map<nat, Types.Bytes>, idx: seq<IdxEntry>, f: nat, es: seq<Entry>)
    requires f in files && files[f] == SEG_HEADER && |es| <= max
    ensures var b := WriteAll(crc, max, Fresh(files, idx, f), es);
            b.files == files[f := Image(crc, es)] && b.active == Some(f) && b.count == |es|
    decreases |es|
  {
    hide Codec.Record, Image;
    EmptyImage(crc, es);
    if |es| == 0 {
      assert files[f := SEG_HEADER] == files;
    } else {
      var before := es[..|es| - 1];
      FillsLast(crc, max, files, idx, f, before);
      RecordGoesLast(crc, before, es[|es| - 1]);
      assert before + [es[|es| - 1]] == es;
    }
  }

  /** The next one opens the segment named by its own index, which sorts before f, or
      is f itself and wipes it. */
  lemma OverTakes(crc: Checksum, max: nat, files: map<nat, Types.Bytes>, idx: seq<IdxEntry>, f: nat, es: seq<Entry>)
    requires f in files && files[f] == SEG_HEADER && |es| == max + 1
    ensures var x := es[max].index;
            WriteAll(crc, max, Fresh(files, idx, f), es).files == files[f := Image(crc, es[..max])][x := Image(crc, [es[max]])]
  {
    hide Codec.Record, Image;
    FillsLast(crc, max, files, idx, f, es[..max]);
    RecordGoesLast(crc, [], es[max]);
    EmptyImage(crc, []);
    assert [] + [es[max]] == [es[max]];
  }

  /** The segments that a scan of that directory meets. */
  function Mixed(segs: seq<Seg>, max: nat, f: nat, es: seq<Entry>): seq<Seg>
    requires |es| == max + 1
  {
    var x := es[max].index;
    segs + [Seg(x, [es[max]])] + if x < f then [Seg(f, es[..max])] else []
  }

  lemma NamesReached(segs: seq<Seg>, max: nat, j: nat)
    requires Tiled(segs, max) && j < |segs|
    ensures segs[j].name <= |Flat(segs)| + max
  {
    hide Flat, Rising;
    assert segs[j].name <= |Flat(segs[..j])| + max;
    FlatSpan(segs, j, |segs|);
    assert segs[..|segs|] == segs;
  }

  lemma MixedIsRecoverable(crc: Checksum, max: nat, files: map<nat, Types.Bytes>, segs: seq<Seg>, active: Option<nat>, count: nat,
                           f: nat, es: seq<Entry>)
    requires StoreOk(crc, max, files, segs, active, count) && f in files && f > |Flat(segs)| + max
    requires AllFit(Flat(segs)) && AllFit(es) && Continues(Flat(segs), es) && |es| == max + 1
    ensures var x := es[max].index;
            Recoverable(crc, files[f := Image(crc, es[..max])][x := Image(crc, [es[max]])], Mixed(segs, max, f, es))
  {
    hide Scans, Flat, Image, AllFit, AllWords, Indexed;
    var x, s := es[max].index, Mixed(segs, max, f, es);
    var disk := files[f := Image(crc, es[..max])][x := Image(crc, [es[max]])];
    forall j | 0 <= j < |segs| ensures segs[j].name < x { NamesReached(segs, max, j); }
    StoreIsRecoverable(crc, max, files, segs, active, count);
    PartsFit(es, max);
    WholeFileScans(crc, es[..max]);
    WholeFileScans(crc, [es[max]]);
    forall j | 0 <= j < |s| ensures s[j].name in disk && Scans(crc, disk[s[j].name], s[j].entries) {}
    forall g | g in disk ensures Scans(crc, disk[g], []) || exists j :: 0 <= j < |s| && s[j].name == g {
      if g == x {
        assert s[|segs|].name == g;
      } else if g == f {
        assert s[|segs| + 1].name == g;
      } else if exists j :: 0 <= j < |segs| && segs[j].name == g {
        var j :| 0 <= j < |segs| && segs[j].name == g;
        assert s[j].name == g;
      }
    }
  }

  lemma PartsFit(es: seq<Entry>, max: nat)
    requires AllFit(es) && |es| == max + 1
    ensures AllFit(es[..max]) && AllFit([es[max]])
  {
  }

  /** The entry at the log's old end is then the wrong one. */
  lemma MixedIdx(crc: Checksum, segs: seq<Seg>, max: nat, f: nat, es: seq<Entry>)
    requires |es| == max + 1
    ensures var idx := IdxOf(crc, Mixed(segs, max, f, es)); |idx| > |Flat(segs)| && idx[|Flat(segs)|].index == es[max].index
  {
    hide IdxOf, Flat, SegIdx;
    var x := es[max].index;
    IdxSnoc(crc, segs, Seg(x, [es[max]]));
    FirstOf(crc, x, es[max]);
    if x < f { IdxSnoc(crc, segs + [Seg(x, [es[max]])], Seg(f, es[..max])); } else { assert Mixed(segs, max, f, es) == segs + [Seg(x, [es[max]])]; }
  }

  lemma IdxSnoc(crc: Checksum, segs: seq<Seg>, s: Seg)
    ensures IdxOf(crc, segs + [s]) == IdxOf(crc, segs) + SegIdx(crc, s) && |IdxOf(crc, segs)| == |Flat(segs)|
  {
    assert (segs + [s])[..|segs|] == segs;
  }

  lemma FirstOf(crc: Checksum, x: nat, e: Entry)
    ensures |SegIdx(crc, Seg(x, [e]))| == 1 && SegIdx(crc, Seg(x, [e]))[0].index == e.index
  {
  }

  /** A store reopened with its last file's name out of reach loses what it is given:
      it acknowledges max + 1 entries, and when it is opened again the entry after the
      old log is the last of them. */
  lemma OutOfReachLosesEntries(crc: Checksum, max: nat, files: map<nat, Types.Bytes>, segs: seq<Seg>, active: Option<nat>, count: nat,
                               f: nat, es: seq<Entry>, names: seq<nat>)
    requires StoreOk(crc, max, files, segs, active, count) && f in files && f > |Flat(segs)| + max
    requires AllFit(Flat(segs)) && AllFit(es) && Continues(Flat(segs), es) && |es| == max + 1
    requires Listing(WriteAll(crc, max, Fresh(files, IdxOf(crc, segs), f), es).files, names)
    ensures var disk := WriteAll(crc, max, Fresh(files, IdxOf(crc, segs), f), es).files;
            var idx := RecoverIdx(crc, disk, names);
            |idx| > |Flat(segs)| && idx[|Flat(segs)|].index == |Flat(segs)| + max + 1
  {
    hide Scans, Flat, IdxOf, Image, AllFit, AllWords, Indexed, Listing, Recoverable, WriteAll, RecoverIdx, Mixed;
    LastIsEmpty(crc, max, files, segs, active, count, f);
    OverTakes(crc, max, files, IdxOf(crc, segs), f, es);
    MixedIsRecoverable(crc, max, files, segs, active, count, f, es);
    RecoverGivesIndex(crc, WriteAll(crc, max, Fresh(files, IdxOf(crc, segs), f), es).files, names, Mixed(segs, max, f, es));
    MixedIdx(crc, segs, max, f, es);
  }

  lemma LastIsEmpty(crc: Checksum, max: nat, files: map<nat, Types.Bytes>, segs: seq<Seg>, active: Option<nat>, count: nat, f: nat)
    requires StoreOk(crc, max, files, segs, active, count) && f in files && f > |Flat(segs)| + max
    ensures files[f] == SEG_HEADER
  {
    hide Flat, Image, AllFit, AllWords, Indexed;
    forall j | 0 <= j < |segs| ensures segs[j].name != f { NamesReached(segs, max, j); }
  }

  // ---- a run ---------------------------------------------------------------------------------------

  /** The directory of three empty segments. */
  const EMPTIES: map<nat, Types.Bytes> := map[1 := SEG_HEADER, 2 := SEG_HEADER, 3 := SEG_HEADER]

  /** Files 1 to k hold one entry each, and the files after them none. */
  predicate Stacked(b: Books, k: nat) {
    && |b.idx| == k <= 3 && b.files.Keys == {1, 2, 3}
    && (forall j :: 0 <= j < k ==> OwnFile(b, j))
    && (forall f :: k < f <= 3 ==> b.files[f] == SEG_HEADER)
  }

  predicate OwnFile(b: Books, k: nat) {
    && k < |b.idx| && b.idx[k].segment == k + 1 && b.idx[k].offset == |SEG_HEADER| + REC_HEADER_LEN
    && k + 1 in b.files && |b.files[k + 1]| >= |SEG_HEADER| && b.files[k + 1][..|SEG_HEADER|] == SEG_HEADER
  }

  lemma CutUnstacks(b: Books, c: Books, k: nat)
    requires k > 0 && Stacked(b, k) && c.idx == b.idx[..k - 1] && CutAt(b.files, b.idx[k - 1], c.files)
    ensures Stacked(c, k - 1)
  {
    assert OwnFile(b, k - 1);
    forall f | f in {1, 2, 3} ensures f in c.files && (f < k ==> c.files[f] == b.files[f]) && (f >= k ==> c.files[f] == SEG_HEADER) {
      if f == k { assert c.files[f] == b.files[f][..|SEG_HEADER|]; }
    }
    forall j | 0 <= j < k - 1 ensures OwnFile(c, j) { assert OwnFile(b, j); }
  }

  /** Such stores arise: three one-entry segments, truncated one after the other from
      the end, leave an empty log with the file named 3 behind. */
  method LeavesFilesBehind(crc: Checksum) returns (s: FileStorage)
    ensures s.Valid() && s.crc == crc && s.maxEntries == 1 && s.Contents() == [] && s.files == EMPTIES
  {
    hide StoreOk, Flat, IdxOf, Image, Codec.Record, Stacked, CutAt, WriteAll;
    s := new FileStorage(crc, 1);
    var es := [Entry(1, 1, []), Entry(1, 2, []), Entry(1, 3, [])];
    var ok := s.Append(es);
    ThreeFiles(crc, es);
    for k := 3 downto 0
      invariant s.Valid() && s.crc == crc && s.maxEntries == 1 && Stacked(s.Ledger(), k) && |s.Contents()| == k
    {
      ghost var b := s.Ledger();
      StackHeight(b, k + 1);
      ok := s.TruncateSuffix(k + 1);
      CutUnstacks(b, s.Ledger(), k + 1);
    }
    BareStack(s.Ledger());
  }

  lemma StackHeight(b: Books, k: nat)
    requires Stacked(b, k)
    ensures |b.idx| == k
  {
  }

  lemma BareStack(b: Books)
    requires Stacked(b, 0)
    ensures b.files == EMPTIES
  {
  }

  lemma EachOpens(crc: Checksum, b: Books, e: Entry)
    requires b.active.None? || b.count >= 1
    ensures WriteOne(crc, 1, b, e) ==
            Books(b.files[e.index := SEG_HEADER + Codec.Record(crc, e)],
                  b.idx + [IdxEntry(e.index, e.term, e.index, |SEG_HEADER| + REC_HEADER_LEN, PAYLOAD_FIXED_LEN + |e.data|)], Some(e.index), 1)
  {
    hide Codec.Record;
  }

  lemma ThreeFiles(crc: Checksum, es: seq<Entry>)
    requires es == [Entry(1, 1, []), Entry(1, 2, []), Entry(1, 3, [])]
    ensures var b := WriteAll(crc, 1, Books(map[], [], None, 0), es);
            Stacked(b, 3)
  {
    hide Codec.Record, WriteOne;
    var b0 := Books(map[], [], None, 0);
    EachOpens(crc, b0, es[0]);
    var b1 := WriteOne(crc, 1, b0, es[0]);
    EachOpens(crc, b1, es[1]);
    var b2 := WriteOne(crc, 1, b1, es[1]);
    EachOpens(crc, b2, es[2]);
    assert WriteAll(crc, 1, b0, []) == b0;
    assert es[..1] == [es[0]] && es[..1][..0] == [];
    assert WriteAll(crc, 1, b0, es[..1]) == b1;
    assert es[..2][..1] == es[..1];
    assert WriteAll(crc, 1, b0, es[..2]) == b2;
    var b3 := WriteOne(crc, 1, b2, es[2]);
    assert OwnFile(b3, 0) && OwnFile(b3, 1) && OwnFile(b3, 2);
    assert b3.files.Keys == {1, 2, 3};
  }

  /** The listing of such a directory. */
  lemma ThreeNames(files: map<nat, Types.Bytes>)
    requires files.Keys == {1, 2, 3}
    ensures Listing(files, [1, 2, 3])
  {
    hide SegmentName, Precedes, Pow10;
    Pow10Grows(16);
    NamesPreserveOrder(1, 2);
    NamesPreserveOrder(1, 3);
    NamesPreserveOrder(2, 3);
  }

  lemma {:induction false} Pow10Grows(w: nat)
    ensures Pow10(w) > w
  {
    if w > 0 { Pow10Grows(w - 1); }
  }

  lemma EmptiesAreRecoverable(crc: Checksum)
    ensures Recoverable(crc, EMPTIES, []) && Scans(crc, SEG_HEADER, []) && StoreOk(crc, 1, EMPTIES, [], None, 0)
    ensures Tiled([], 1) && Flat([]) == [] && AllFit([]) && Indexed([]) && IdxOf(crc, []) == []
  {
    hide Scans, Image;
    NoRecords(crc);
    WholeFileScans(crc, []);
  }

  /** What the first opening finds: nothing, and file 3 open. */
  lemma OpensOnThree(crc: Checksum, b: Books)
    requires Listing(EMPTIES, [1, 2, 3]) && RecoveredFrom(crc, EMPTIES, [1, 2, 3], b)
    ensures b == Fresh(EMPTIES, [], 3)
  {
    hide Listing, RecoverIdx, FileIdx, Clean, Recoverable, StoreOk, Scans, Image;
    NoRecords(crc);
    EmptiesAreRecoverable(crc);
    RecoverGivesIndex(crc, EMPTIES, [1, 2, 3], []);
    ScansClean(crc, SEG_HEADER, []);
    ScansIdx(crc, Seg(3, []), SEG_HEADER);
    NoIdx(crc);
    assert b.files == EMPTIES;
  }

  lemma NoIdx(crc: Checksum)
    ensures SegIdx(crc, Seg(3, [])) == []
  {
  }

  /** What the second opening finds: both entries, in the wrong order. */
  lemma TwoAreLost(crc: Checksum, es: seq<Entry>)
    requires es == [Entry(1, 1, []), Entry(1, 2, [])]
    ensures var disk := WriteAll(crc, 1, Fresh(EMPTIES, [], 3), es).files;
            && Listing(disk, [1, 2, 3]) && (forall f :: f in [1, 2, 3] ==> GoodHeader(disk[f]))
            && forall b :: RecoveredFrom(crc, disk, [1, 2, 3], b) ==> |b.idx| == 2 && b.idx[0].index == 2 && b.idx[1].index == 1
  {
    hide Scans, Flat, IdxOf, Image, AllFit, AllWords, Recoverable, Listing, RecoverIdx, StoreOk, GoodHeader, Clean, FileIdx, WriteAll, SegIdx;
    EmptiesAreRecoverable(crc);
    ShortFit(es);
    OverTakes(crc, 1, EMPTIES, [], 3, es);
    MixedIsRecoverable(crc, 1, EMPTIES, [], None, 0, 3, es);
    var disk := WriteAll(crc, 1, Fresh(EMPTIES, [], 3), es).files;
    assert disk.Keys == {1, 2, 3};
    ThreeNames(disk);
    var two, three := Seg(2, [es[1]]), Seg(3, [es[0]]);
    assert Mixed([], 1, 3, es) == [] + [two] + [three] && es[..1] == [es[0]];
    RecoverGivesIndex(crc, disk, [1, 2, 3], [] + [two] + [three]);
    IdxSnoc(crc, [], two);
    IdxSnoc(crc, [] + [two], three);
    FirstOf(crc, 2, es[1]);
    FirstOf(crc, 3, es[0]);
  }

  lemma ShortFit(es: seq<Entry>)
    requires es == [Entry(1, 1, []), Entry(1, 2, [])]
    ensures AllFit(es) && Continues([], es)
  {
  }

  /** The loss, from the first append to the last opening: the store left behind is
      reopened and acknowledges two entries; opened once more, it finds the second in
      the place of the first, and takes index 1 for its last. */
  method LosesEntries(crc: Checksum) returns (ok: bool, s: FileStorage, first: nat, last: nat)
    ensures ok && s.Ledger() == WriteAll(crc, 1, Fresh(EMPTIES, [], 3), [Entry(1, 1, []), Entry(1, 2, [])])
    ensures first == 2 && last == 1
  {
    hide StoreOk, Flat, IdxOf, Image, Codec.Record, Listing, RecoveredFrom, WriteAll, Recoverable, Tiled, AllFit, Indexed, GoodHeader;
    var left := LeavesFilesBehind(crc);
    ThreeNames(left.files);
    EmptiesAreRecoverable(crc);
    var once := Open(crc, 1, left.files, [1, 2, 3], []);
    s := once.value;
    OpensOnThree(crc, s.Ledger());
    var es := [Entry(1, 1, []), Entry(1, 2, [])];
    ok := s.Append(es);
    TwoAreLost(crc, es);
    var again := Open(crc, 1, s.files, [1, 2, 3], []);
    first := again.value.idx[0].index;
    last := again.value.LastIndexLocked();
  }
}
