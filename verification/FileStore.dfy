/** The durable log of pkg/storage/file as an object: segment files and an in-memory
    index, proved to behave as the plain sequence of pkg/storage/memory. */
module FileStore {
  import opened Types
  import opened RaftLog
  import opened NodeSpec
  import opened EntryLog
  import opened Codec
  import opened Segments
  import opened SegmentList

  // ---- the directory ---------------------------------------------------------------------------

  lemma RecordGoesLast(crc: Checksum, es: seq<Entry>, e: Entry)
    ensures Image(crc, es + [e]) == Image(crc, es) + Codec.Record(crc, e)
  {
    hide Image, Codec.Record;
    ImageSnoc(crc, es + [e], |es|);
    assert (es + [e])[..|es|] == es && (es + [e])[..|es| + 1] == es + [e];
  }

  lemma AddEntryOnDisk(crc: Checksum, files: map<nat, Types.Bytes>, segs: seq<Seg>, e: Entry)
    requires OnDisk(crc, files, segs) && Rising(segs) && |segs| > 0
    ensures var last := segs[|segs| - 1];
            OnDisk(crc, files[last.name := files[last.name] + Codec.Record(crc, e)], AddEntry(segs, e))
  {
    hide Image, Codec.Record, Flat;
    var last, s := segs[|segs| - 1], AddEntry(segs, e);
    RecordGoesLast(crc, last.entries, e);
    var files' := files[last.name := files[last.name] + Codec.Record(crc, e)];
    forall j | 0 <= j < |s| ensures s[j].name in files' && files'[s[j].name] == Image(crc, s[j].entries) {
      if j < |s| - 1 { assert segs[j].name < segs[|s| - 1].name; }
    }
    forall f | f in files' ensures files'[f] == SEG_HEADER || exists j :: 0 <= j < |s| && s[j].name == f {
      if exists j :: 0 <= j < |segs| && segs[j].name == f {
        var j :| 0 <= j < |segs| && segs[j].name == f;
        assert s[j].name == f;
      }
    }
  }

  lemma AddSegOnDisk(crc: Checksum, files: map<nat, Types.Bytes>, segs: seq<Seg>, name: nat)
    requires OnDisk(crc, files, segs) && forall j :: 0 <= j < |segs| ==> segs[j].name < name
    ensures OnDisk(crc, files[name := SEG_HEADER], segs + [Seg(name, [])])
  {
    var s := segs + [Seg(name, [])];
    var files' := files[name := SEG_HEADER];
    assert Image(crc, []) == SEG_HEADER;
    hide Image;
    forall j | 0 <= j < |s| ensures s[j].name in files' && files'[s[j].name] == Image(crc, s[j].entries) {}
    forall f | f in files' ensures files'[f] == SEG_HEADER || exists j :: 0 <= j < |s| && s[j].name == f {
      if f != name && exists j :: 0 <= j < |segs| && segs[j].name == f {
        var j :| 0 <= j < |segs| && segs[j].name == f;
        assert s[j].name == f;
      }
    }
  }

  /** gone holds the segments after j that have entries. */
  ghost predicate LaterSegs(segs: seq<Seg>, j: nat, gone: set<nat>) {
    forall f :: f in gone <==> exists k :: j < k < |segs| && segs[k].name == f && |segs[k].entries| > 0
  }

  lemma CutOnDisk(crc: Checksum, files: map<nat, Types.Bytes>, segs: seq<Seg>, j: nat, r: nat, gone: set<nat>)
    requires OnDisk(crc, files, segs) && Rising(segs) && j < |segs| && r <= |segs[j].entries| && LaterSegs(segs, j, gone)
    ensures OnDisk(crc, files[segs[j].name := Image(crc, segs[j].entries[..r])] - gone, Cut(segs, j, r))
  {
    hide Image, Flat;
    var s := Cut(segs, j, r);
    var files' := files[segs[j].name := Image(crc, segs[j].entries[..r])] - gone;
    forall i | 0 <= i < |s| ensures s[i].name in files' && files'[s[i].name] == Image(crc, s[i].entries) {
      forall k | j < k < |segs| ensures segs[k].name != s[i].name { assert segs[i].name < segs[k].name; }
      if i < j { assert segs[i].name < segs[j].name; }
    }
    forall f | f in files' ensures files'[f] == SEG_HEADER || exists i :: 0 <= i < |s| && s[i].name == f {
      if exists k :: 0 <= k < |segs| && segs[k].name == f {
        var k :| 0 <= k < |segs| && segs[k].name == f;
        if k <= j {
          assert s[k].name == f;
        } else {
          assert segs[j].name < segs[k].name;
          EmptyImage(crc, segs[k].entries);
        }
      }
    }
  }

  lemma EmptyImage(crc: Checksum, es: seq<Entry>)
    ensures es == [] ==> Image(crc, es) == SEG_HEADER
  {
  }

  lemma IdxSnocEmpty(crc: Checksum, segs: seq<Seg>, name: nat)
    ensures IdxOf(crc, segs + [Seg(name, [])]) == IdxOf(crc, segs)
  {
    assert (segs + [Seg(name, [])])[..|segs|] == segs;
    assert SegIdx(crc, Seg(name, [])) == [];
    assert IdxOf(crc, segs) + [] == IdxOf(crc, segs);
  }

  /** The entry the index points at decodes to the entry of the log. */
  lemma IdxReads(crc: Checksum, s: Seg, r: nat)
    requires AllWords(s.entries) && r < |s.entries|
    ensures var ie, file := IdxAt(crc, s, r), Image(crc, s.entries);
            && REC_HEADER_LEN <= ie.offset && ie.offset + ie.length <= |file|
            && DecodeRecord(crc, file[ie.offset - REC_HEADER_LEN..ie.offset], file[ie.offset..ie.offset + ie.length]) == Ok(s.entries[r])
  {
    hide Image, Codec.Record, DecodeRecord, Payload, RecordHeader;
    var e := s.entries[r];
    var off, file := |Image(crc, s.entries[..r])|, Image(crc, s.entries);
    RecordBytes(crc, s.entries, [], r);
    assert Image(crc, s.entries) + [] == file;
    RecordLength(crc, e);
    RecordSplit(crc, e);
    assert file[off..off + |Codec.Record(crc, e)|] == Codec.Record(crc, e);
    SubSlices(file, off, Codec.Record(crc, e));
    RecordDecodes(crc, e);
  }

  lemma SubSlices(file: Types.Bytes, off: nat, r: Types.Bytes)
    requires |r| >= 8 && off + |r| <= |file| && file[off..off + |r|] == r
    ensures file[off..off + 8] == r[..8] && file[off + 8..off + |r|] == r[8..]
  {
  }

  lemma {:induction false} FlatWords(segs: seq<Seg>, j: nat)
    requires AllWords(Flat(segs)) && j < |segs|
    ensures AllWords(segs[j].entries)
  {
    FlatPrefix(segs, j);
    var base := |Flat(segs[..j])|;
    forall k | 0 <= k < |segs[j].entries| ensures Words(segs[j].entries[k]) {
      assert segs[j].entries[k] == Flat(segs[..j + 1])[base + k] == Flat(segs)[base + k];
    }
  }

  ghost predicate StoreOk(crc: Checksum, max: nat, files: map<nat, Types.Bytes>, segs: seq<Seg>, active: Option<nat>, activeCount: nat) {
    && max >= 1 && Tiled(segs, max) && OnDisk(crc, files, segs)
    && AllWords(Flat(segs)) && Indexed(Flat(segs))
    && (if |segs| == 0 then active == None
        else active == Some(segs[|segs| - 1].name) && activeCount == |segs[|segs| - 1].entries|)
  }

  lemma RolloverKeeps(crc: Checksum, max: nat, files: map<nat, Types.Bytes>, segs: seq<Seg>, active: Option<nat>, count: nat)
    requires StoreOk(crc, max, files, segs, active, count) && (|segs| > 0 ==> count >= max)
    ensures var first := |Flat(segs)| + 1;
            var s := segs + [Seg(first, [])];
            StoreOk(crc, max, files[first := SEG_HEADER], s, Some(first), 0) && Flat(s) == Flat(segs) && IdxOf(crc, s) == IdxOf(crc, segs)
  {
    hide Flat, OnDisk, Tiled, IdxOf, AllWords, Indexed;
    forall j | 0 <= j < |segs| ensures segs[j].name < |Flat(segs)| + 1 { NamesStayBelow(segs, j, max); }
    AddSegTiles(segs, |Flat(segs)| + 1, max);
    AddSegOnDisk(crc, files, segs, |Flat(segs)| + 1);
    IdxSnocEmpty(crc, segs, |Flat(segs)| + 1);
  }

  lemma WriteKeeps(crc: Checksum, max: nat, files: map<nat, Types.Bytes>, segs: seq<Seg>, active: Option<nat>, count: nat, e: Entry)
    requires StoreOk(crc, max, files, segs, active, count) && |segs| > 0 && Words(e) && e.index == |Flat(segs)| + 1
    ensures active.Some? && active.value in files
    ensures var file, s := files[active.value], AddEntry(segs, e);
            && StoreOk(crc, max, files[active.value := file + Codec.Record(crc, e)], s, active, count + 1)
            && Flat(s) == Flat(segs) + [e]
            && IdxOf(crc, s) == IdxOf(crc, segs) +
                 [IdxEntry(e.index, e.term, active.value, |file| + REC_HEADER_LEN, PAYLOAD_FIXED_LEN + |e.data|)]
  {
    hide Flat, IdxOf, Image, Codec.Record, OnDisk, AllWords, Indexed, IdxAt;
    var last := segs[|segs| - 1];
    OpenFile(crc, files, segs);
    NewIdx(crc, last, e);
    GrowthFits(Flat(segs), e);
    AddEntryGrows(crc, segs, e);
    AddEntryTiles(segs, e, max);
    AddEntryOnDisk(crc, files, segs, e);
  }

  lemma OpenFile(crc: Checksum, files: map<nat, Types.Bytes>, segs: seq<Seg>)
    requires OnDisk(crc, files, segs) && |segs| > 0
    ensures var last := segs[|segs| - 1]; last.name in files && files[last.name] == Image(crc, last.entries)
  {
  }

  lemma NewIdx(crc: Checksum, s: Seg, e: Entry)
    ensures IdxAt(crc, s.(entries := s.entries + [e]), |s.entries|) ==
            IdxEntry(e.index, e.term, s.name, |Image(crc, s.entries)| + REC_HEADER_LEN, PAYLOAD_FIXED_LEN + |e.data|)
  {
    assert (s.entries + [e])[..|s.entries|] == s.entries;
  }

  lemma GrowthFits(log: Log, e: Entry)
    requires AllWords(log) && Indexed(log) && Words(e) && e.index == |log| + 1
    ensures AllWords(log + [e]) && Indexed(log + [e])
  {
  }

  /** The index carries the index and term of the entry it stands for. */
  lemma IdxTells(crc: Checksum, segs: seq<Seg>, p: nat)
    requires p < |Flat(segs)|
    ensures |IdxOf(crc, segs)| == |Flat(segs)|
    ensures var ie, e := IdxOf(crc, segs)[p], Flat(segs)[p]; ie.index == e.index && ie.term == e.term
  {
    hide Flat, IdxOf, Image;
    var j, r := Locate(crc, segs, p);
  }

  lemma IdxReadsBack(crc: Checksum, max: nat, files: map<nat, Types.Bytes>, segs: seq<Seg>, active: Option<nat>, count: nat, p: nat)
    requires StoreOk(crc, max, files, segs, active, count) && p < |Flat(segs)|
    ensures |IdxOf(crc, segs)| == |Flat(segs)|
    ensures var ie := IdxOf(crc, segs)[p];
            && ie.segment in files && REC_HEADER_LEN <= ie.offset && ie.offset + ie.length <= |files[ie.segment]|
            && var file := files[ie.segment];
            DecodeRecord(crc, file[ie.offset - REC_HEADER_LEN..ie.offset], file[ie.offset..ie.offset + ie.length]) == Ok(Flat(segs)[p])
  {
    hide Flat, IdxOf, Tiled, Image, DecodeRecord, IdxAt, AllWords, Indexed;
    var j, k := Locate(crc, segs, p);
    FlatWords(segs, j);
    IdxReads(crc, segs[j], k);
    IdxSegment(crc, segs[j], k);
  }

  lemma ActiveTells(crc: Checksum, max: nat, files: map<nat, Types.Bytes>, segs: seq<Seg>, active: Option<nat>, count: nat)
    requires StoreOk(crc, max, files, segs, active, count)
    ensures active.Some? <==> |segs| > 0
    ensures Indexed(Flat(segs)) && AllWords(Flat(segs))
  {
    hide Flat, OnDisk, Tiled, AllWords, Indexed;
  }

  // ---- truncation ---------------------------------------------------------------------------------

  /** Where position pos lies: in segment j, whose first position is base. */
  ghost predicate Target(segs: seq<Seg>, pos: nat, j: nat, base: nat) {
    j < |segs| && base == |Flat(segs[..j])| && base <= pos < base + |segs[j].entries|
  }

  /** Entries before base lie in earlier segments, those from base to pos in the
      target, those from pos on in the target or a later segment. */
  lemma SegmentsAround(crc: Checksum, segs: seq<Seg>, pos: nat, j: nat, base: nat, q: nat)
    requires Rising(segs) && Target(segs, pos, j, base) && q < |Flat(segs)|
    ensures |IdxOf(crc, segs)| == |Flat(segs)|
    ensures q < base ==> IdxOf(crc, segs)[q].segment < segs[j].name
    ensures base <= q < base + |segs[j].entries| ==> IdxOf(crc, segs)[q].segment == segs[j].name
    ensures q >= base + |segs[j].entries| ==>
              exists k :: j < k < |segs| && segs[k].name == IdxOf(crc, segs)[q].segment && |segs[k].entries| > 0
  {
    hide Flat, IdxOf, IdxAt;
    var k, r := Locate(crc, segs, q);
    IdxSegment(crc, segs[k], r);
    if k < j {
      assert segs[k].name < segs[j].name;
      FlatSpan(segs, k, j);
    } else if k > j {
      FlatSpan(segs, j, k);
    }
  }

  /** A later segment with entries has one at or after pos. */
  lemma LaterIsSeen(crc: Checksum, segs: seq<Seg>, pos: nat, j: nat, base: nat, k: nat)
    requires Rising(segs) && Target(segs, pos, j, base) && j < k < |segs| && |segs[k].entries| > 0
    ensures |IdxOf(crc, segs)| == |Flat(segs)|
    ensures exists q :: pos <= q < |Flat(segs)| && IdxOf(crc, segs)[q].segment == segs[k].name
  {
    hide Flat, IdxOf, Tiled;
    FlatSpan(segs, j, k);
    FirstOfSegment(crc, segs, k);
  }

  lemma FirstOfSegment(crc: Checksum, segs: seq<Seg>, k: nat)
    requires k < |segs| && |segs[k].entries| > 0
    ensures |IdxOf(crc, segs)| == |Flat(segs)|
    ensures var q := |Flat(segs[..k])|; q < |Flat(segs)| && IdxOf(crc, segs)[q].segment == segs[k].name
  {
    hide Flat, IdxOf, IdxAt;
    FlatSpan(segs, k, |segs|);
    assert segs[..|segs|] == segs;
    var i, r := Locate(crc, segs, |Flat(segs[..k])|);
    OnePlace(segs, i, r, k);
    IdxSegment(crc, segs[i], r);
  }

  lemma OnePlace(segs: seq<Seg>, i: nat, r: nat, k: nat)
    requires i < |segs| && k < |segs| && r < |segs[i].entries| && |segs[k].entries| > 0
    requires |Flat(segs[..i])| + r == |Flat(segs[..k])|
    ensures i == k
  {
    hide Flat;
    if i < k { FlatSpan(segs, i, k); } else if i > k { FlatSpan(segs, k, i); }
  }

  /** gone lists the segments, other than the target's, of the entries from pos to k. */
  ghost predicate Collected(idx: seq<IdxEntry>, pos: nat, k: nat, target: nat, gone: set<nat>)
    requires pos <= k <= |idx|
  {
    forall f :: f in gone <==> f != target && exists q :: pos <= q < k && idx[q].segment == f
  }

  lemma CollectedIsLater(crc: Checksum, segs: seq<Seg>, pos: nat, j: nat, base: nat, gone: set<nat>)
    requires Rising(segs) && Target(segs, pos, j, base)
    requires |IdxOf(crc, segs)| == |Flat(segs)| && pos <= |Flat(segs)|
    requires Collected(IdxOf(crc, segs), pos, |Flat(segs)|, segs[j].name, gone)
    ensures LaterSegs(segs, j, gone)
  {
    hide Flat, IdxOf, Tiled, Target;
    var idx := IdxOf(crc, segs);
    forall f ensures f in gone <==> exists k :: j < k < |segs| && segs[k].name == f && |segs[k].entries| > 0 {
      if f in gone {
        var q :| pos <= q < |Flat(segs)| && idx[q].segment == f;
        SegmentsAround(crc, segs, pos, j, base, q);
        TargetParts(segs, pos, j, base);
      }
      if exists k :: j < k < |segs| && segs[k].name == f && |segs[k].entries| > 0 {
        var k :| j < k < |segs| && segs[k].name == f && |segs[k].entries| > 0;
        LaterIsSeen(crc, segs, pos, j, base, k);
        assert segs[j].name < segs[k].name;
      }
    }
  }

  lemma FindTarget(crc: Checksum, segs: seq<Seg>, pos: nat) returns (j: nat, base: nat)
    requires pos < |Flat(segs)|
    ensures Target(segs, pos, j, base) && |IdxOf(crc, segs)| == |Flat(segs)|
    ensures var ie := IdxOf(crc, segs)[pos];
            ie.segment == segs[j].name && ie.offset == |Image(crc, segs[j].entries[..pos - base])| + REC_HEADER_LEN
  {
    hide Flat, IdxOf, Image;
    var r;
    j, r := Locate(crc, segs, pos);
    base := |Flat(segs[..j])|;
  }

  lemma StoreTiles(crc: Checksum, max: nat, files: map<nat, Types.Bytes>, segs: seq<Seg>, active: Option<nat>, count: nat)
    requires StoreOk(crc, max, files, segs, active, count)
    ensures Rising(segs) && OnDisk(crc, files, segs)
  {
    hide Flat, OnDisk, AllWords, Indexed;
  }

  /** The directory after the segment of t was cut at t: earlier files stay as they
      are, later ones stay only if they are empty. */
  predicate CutAt(before: map<nat, Types.Bytes>, t: IdxEntry, after: map<nat, Types.Bytes>) {
    && t.segment in before && REC_HEADER_LEN <= t.offset <= |before[t.segment]| + REC_HEADER_LEN
    && after.Keys <= before.Keys
    && t.segment in after && after[t.segment] == before[t.segment][..t.offset - REC_HEADER_LEN]
    && (forall f :: f in before && f < t.segment ==> f in after && after[f] == before[f])
    && (forall f :: f in before && f > t.segment && before[f] == SEG_HEADER ==> f in after && after[f] == SEG_HEADER)
  }

  lemma LaterAreCut(crc: Checksum, files: map<nat, Types.Bytes>, segs: seq<Seg>, j: nat, gone: set<nat>, t: IdxEntry)
    requires OnDisk(crc, files, segs) && LaterSegs(segs, j, gone) && j < |segs| && Rising(segs) && t.segment == segs[j].name
    requires t.segment in files && REC_HEADER_LEN <= t.offset <= |files[t.segment]| + REC_HEADER_LEN
    ensures CutAt(files, t, files[t.segment := files[t.segment][..t.offset - REC_HEADER_LEN]] - gone)
  {
    hide OnDisk;
    LaterHaveEntries(crc, files, segs, j, gone);
  }

  /** A removed segment comes later and is not an empty one. */
  lemma LaterHaveEntries(crc: Checksum, files: map<nat, Types.Bytes>, segs: seq<Seg>, j: nat, gone: set<nat>)
    requires OnDisk(crc, files, segs) && LaterSegs(segs, j, gone) && j < |segs| && Rising(segs)
    ensures (forall f :: f in gone ==> f > segs[j].name) && forall f :: f in files && files[f] == SEG_HEADER ==> f !in gone
  {
    hide Image, Flat;
    forall f | f in files && f in gone ensures files[f] != SEG_HEADER {
      var k :| j < k < |segs| && segs[k].name == f && |segs[k].entries| > 0;
      LongImage(crc, segs[k].entries);
    }
  }

  lemma LongImage(crc: Checksum, es: seq<Entry>)
    requires |es| > 0
    ensures |Image(crc, es)| > |SEG_HEADER|
  {
  }

  lemma TargetParts(segs: seq<Seg>, pos: nat, j: nat, base: nat)
    requires Target(segs, pos, j, base)
    ensures base <= pos
  {
  }

  lemma CutKeeps(crc: Checksum, max: nat, files: map<nat, Types.Bytes>, segs: seq<Seg>, active: Option<nat>, count: nat,
                 pos: nat, j: nat, base: nat, gone: set<nat>)
    requires StoreOk(crc, max, files, segs, active, count) && Target(segs, pos, j, base) && LaterSegs(segs, j, gone)
    ensures segs[j].name in files && |Image(crc, segs[j].entries[..pos - base])| <= |files[segs[j].name]|
    ensures var s, cut := Cut(segs, j, pos - base), |Image(crc, segs[j].entries[..pos - base])|;
            && pos <= |Flat(segs)| == |IdxOf(crc, segs)|
            && StoreOk(crc, max, files[segs[j].name := files[segs[j].name][..cut]] - gone, s, Some(segs[j].name), pos - base)
            && Flat(s) == Flat(segs)[..pos] && IdxOf(crc, s) == IdxOf(crc, segs)[..pos]
  {
    hide Flat, IdxOf, Image, LaterSegs;
    PrefixImage(crc, segs[j].entries, pos - base);
    CutKeepsPrefix(crc, segs, j, pos - base);
    CutTiles(segs, j, pos - base, max);
    CutOnDisk(crc, files, segs, j, pos - base, gone);
  }

  // ---- what Append writes ------------------------------------------------------------------------

  /** The directory, the index and the open segment. */
  datatype Books = Books(files: map<nat, Types.Bytes>, idx: seq<IdxEntry>, active: Option<nat>, count: nat)

  /** One turn of Append's loop: open the next segment if there is none or it is full,
      then write the record. */
  function WriteOne(crc: Checksum, max: nat, b: Books, e: Entry): Books {
    var o := if b.active.None? || b.count >= max
             then b.(files := b.files[e.index := SEG_HEADER], active := Some(e.index), count := 0) else b;
    if o.active.value !in o.files then o
    else
      var file := o.files[o.active.value];
      o.(files := o.files[o.active.value := file + Codec.Record(crc, e)],
         idx := o.idx + [IdxEntry(e.index, e.term, o.active.value, |file| + REC_HEADER_LEN, PAYLOAD_FIXED_LEN + |e.data|)],
         count := o.count + 1)
  }

  function WriteAll(crc: Checksum, max: nat, b: Books, es: seq<Entry>): Books {
    if |es| == 0 then b else WriteOne(crc, max, WriteAll(crc, max, b, es[..|es| - 1]), es[|es| - 1])
  }

  /** Segments are filled before the next is opened, and never beyond max: a batch that
      fits into the open one stays there, and one that does not opens others. */
  lemma {:induction false} SegmentsFill(crc: Checksum, max: nat, b: Books, es: seq<Entry>)
    requires max >= 1 && b.active.Some? && b.active.value in b.files && b.count <= max && forall f :: f in b.files ==> f <= LastOf(b.idx)
    requires Follows(LastOf(b.idx), es)
    ensures var w := WriteAll(crc, max, b, es);
            && w.active.Some? && w.active.value in w.files && (forall f :: f in w.files ==> f <= LastOf(w.idx))
            && LastOf(w.idx) == LastOf(b.idx) + |es|
            && w.count <= max && (|es| > 0 ==> w.count > 0)
            && (w.active == b.active <==> b.count + |es| <= max)
            && (w.active == b.active ==> w.count == b.count + |es|)
    decreases |es|
  {
    hide Codec.Record;
    if |es| > 0 {
      var before := es[..|es| - 1];
      SegmentsFill(crc, max, b, before);
    }
  }

  /** The last index an index knows. */
  function LastOf(idx: seq<IdxEntry>): nat { if |idx| == 0 then 0 else idx[|idx| - 1].index }

  /** es carries on after index last. */
  predicate Follows(last: nat, es: seq<Entry>) { forall k :: 0 <= k < |es| ==> es[k].index == last + 1 + k }

  class FileStorage {
    const crc: Checksum
    const maxEntries: nat
    var files: map<nat, Types.Bytes>
    var idx: seq<IdxEntry>
    var active: Option<nat>
    var activeCount: nat
    ghost var segs: seq<Seg>

    /** The open segment is there to be written to. */
    predicate Usable()
      reads this
    {
      active.Some? ==> active.value in files
    }

    /** The directory and the open segment; the index may lag behind inside Append. */
    ghost predicate DiskOk()
      reads this
    {
      StoreOk(crc, maxEntries, files, segs, active, activeCount)
    }

    ghost predicate Valid()
      reads this
    {
      Usable() && DiskOk() && idx == IdxOf(crc, segs)
    }

    ghost function Contents(): Log
      reads this
    {
      Flat(segs)
    }

    ghost function Ledger(): Books
      reads this
    {
      Books(files, idx, active, activeCount)
    }

    constructor (checksum: Checksum, max: nat)
      requires max >= 1
      ensures Valid() && Contents() == [] && crc == checksum && maxEntries == max && Ledger() == Books(map[], [], None, 0)
    {
      crc, maxEntries := checksum, max;
      files, idx, active, activeCount, segs := map[], [], None, 0, [];
    }

    /** openWith: take up the books that recover rebuilt. */
    constructor Resume(checksum: Checksum, max: nat, b: Books, ghost ss: seq<Seg>)
      ensures crc == checksum && maxEntries == max && Ledger() == b && segs == ss
    {
      crc, maxEntries := checksum, max;
      files, idx, active, activeCount, segs := b.files, b.idx, b.active, b.count, ss;
    }

    method LastIndexLocked() returns (r: nat)
      ensures r == LastOf(idx) && (Valid() ==> r == |Contents()|)
    {
      hide Flat, IdxOf, Tiled, OnDisk, AllWords;
      if Valid() && |idx| > 0 { IdxTells(crc, segs, |idx| - 1); }
      if |idx| == 0 { return 0; }
      r := idx[|idx| - 1].index;
    }

    method RolloverLocked(first: nat)
      modifies this`files, this`active, this`activeCount, this`segs
      ensures files == old(files)[first := SEG_HEADER] && active == Some(first) && activeCount == 0
      ensures old(DiskOk() && first == |Contents()| + 1 && (|segs| > 0 ==> activeCount >= maxEntries)) ==>
                DiskOk() && |segs| > 0 && Contents() == old(Contents()) && IdxOf(crc, segs) == old(IdxOf(crc, segs))
    {
      hide StoreOk, Flat, IdxOf;
      if DiskOk() && (|segs| > 0 ==> activeCount >= maxEntries) { RolloverKeeps(crc, maxEntries, files, segs, active, activeCount); }
      files := files[first := SEG_HEADER];
      active := Some(first);
      activeCount := 0;
      segs := segs + [Seg(first, [])];
    }

    /** Write one record at the end of the open segment; off is where its payload starts. */
    method WriteRecordLocked(e: Entry) returns (off: nat)
      requires active.Some? && active.value in files
      modifies this`files, this`activeCount, this`segs
      ensures off == |old(files)[active.value]| + REC_HEADER_LEN && activeCount == old(activeCount) + 1
      ensures files == old(files)[active.value := old(files)[active.value] + Codec.Record(crc, e)]
      ensures old(DiskOk() && |segs| > 0 && Words(e) && e.index == |Contents()| + 1) ==>
                && DiskOk() && |segs| > 0 && Contents() == old(Contents()) + [e]
                && IdxOf(crc, segs) == old(IdxOf(crc, segs)) + [IdxEntry(e.index, e.term, active.value, off, PAYLOAD_FIXED_LEN + |e.data|)]
    {
      hide StoreOk, Flat, IdxOf, Codec.Record;
      if DiskOk() && |segs| > 0 && Words(e) && e.index == |Contents()| + 1 {
        WriteKeeps(crc, maxEntries, files, segs, active, activeCount, e);
      }
      var file := files[active.value];
      off := |file| + REC_HEADER_LEN;
      files := files[active.value := file + Codec.Record(crc, e)];
      activeCount := activeCount + 1;
      segs := if |segs| > 0 then AddEntry(segs, e) else segs;
    }

    /** One entry: roll over if need be, write the record, and return its place. */
    method WriteEntry(e: Entry, ghost b: Books) returns (ie: IdxEntry)
      requires Usable() && b == Books(files, b.idx, active, activeCount)
      modifies this`files, this`active, this`activeCount, this`segs
      ensures Usable() && Books(files, b.idx + [ie], active, activeCount) == WriteOne(crc, maxEntries, b, e)
      ensures old(DiskOk() && Words(e) && e.index == |Contents()| + 1 && b.idx == IdxOf(crc, segs)) ==>
                DiskOk() && Contents() == old(Contents()) + [e] && IdxOf(crc, segs) == b.idx + [ie]
    {
      hide Flat, IdxOf, StoreOk, Codec.Record;
      if DiskOk() { ActiveTells(crc, maxEntries, files, segs, active, activeCount); }
      if active.None? || activeCount >= maxEntries { RolloverLocked(e.index); }
      var off := WriteRecordLocked(e);
      ie := IdxEntry(e.index, e.term, active.value, off, PAYLOAD_FIXED_LEN + |e.data|);
    }

    /** The write loop of Append. */
    method WriteEntries(entries: seq<Entry>) returns (staged: seq<IdxEntry>)
      requires Usable()
      modifies this`files, this`active, this`activeCount, this`segs
      ensures Usable() && Books(files, idx + staged, active, activeCount) == WriteAll(crc, maxEntries, old(Ledger()), entries)
      ensures old(Valid() && AllWords(entries) && Continues(Contents(), entries)) ==>
                DiskOk() && idx + staged == IdxOf(crc, segs) && Contents() == old(Contents()) + entries
    {
      hide Flat, IdxOf, StoreOk, WriteOne;
      ghost var before, books, fine := Contents(), Ledger(), Valid() && AllWords(entries) && Continues(Contents(), entries);
      staged := [];
      assert idx + staged == idx && before + entries[..0] == before;
      for i := 0 to |entries|
        invariant Usable() && Books(files, idx + staged, active, activeCount) == WriteAll(crc, maxEntries, books, entries[..i])
        invariant fine ==> DiskOk() && idx + staged == IdxOf(crc, segs) && Contents() == before + entries[..i]
      {
        var e := entries[i];
        assert entries[..i + 1][..i] == entries[..i] && before + entries[..i + 1] == before + entries[..i] + [e];
        var ie := WriteEntry(e, Books(files, idx + staged, active, activeCount));
        assert idx + (staged + [ie]) == idx + staged + [ie];
        staged := staged + [ie];
      }
      assert entries[..|entries|] == entries;
    }

    /** Takes exactly what carries on after the last index, and files it in order. A
        valid store accepts exactly what the memory store accepts, and ends with the
        same log. */
    method Append(entries: seq<Entry>) returns (ok: bool)
      requires Usable()
      modifies this
      ensures Usable() && (ok <==> Follows(LastOf(old(idx)), entries))
      ensures Ledger() == if ok then WriteAll(crc, maxEntries, old(Ledger()), entries) else old(Ledger())
      ensures old(Valid()) && AllWords(entries) ==>
                && Valid() && (ok <==> StoreAppend(old(Contents()), entries).Some?)
                && Contents() == if ok then StoreAppend(old(Contents()), entries).value else old(Contents())
    {
      hide Flat, IdxOf, StoreOk, Image, Codec.Record;
      StoreAppendIff(Contents(), entries);
      if |entries| == 0 { return true; }
      var last := LastIndexLocked();
      if entries[0].index != last + 1 { return false; }
      for i := 0 to |entries| - 1
        invariant forall k :: 0 < k <= i ==> entries[k].index == entries[k - 1].index + 1
      {
        if entries[i + 1].index != entries[i].index + 1 { return false; }
      }
      IndexesRun(last, entries, |entries| - 1);
      var staged := WriteEntries(entries);
      idx := idx + staged;
      ok := true;
    }

    /** The segments of entries from pos on, other than the target's own. */
    method LaterSegments(pos: nat) returns (later: seq<nat>, ghost gone: set<nat>)
      requires pos < |idx|
      ensures gone == (set f | f in later) && Collected(idx, pos, |idx|, idx[pos].segment, gone)
    {
      later, gone := [], {};
      var target := idx[pos].segment;
      var seen := {target};
      for k := pos to |idx|
        invariant gone == (set f | f in later) && seen == gone + {target} && Collected(idx, pos, k, target, gone)
      {
        var name := idx[k].segment;
        if name != target && name !in seen {
          seen := seen + {name};
          later := later + [name];
          gone := gone + {name};
        }
      }
    }

    method RemoveSegments(names: seq<nat>, ghost gone: set<nat>)
      requires gone == set f | f in names
      modifies this`files
      ensures files == old(files) - gone
    {
      for k := 0 to |names|
        invariant files == old(files) - (set f | f in names[..k])
      {
        assert names[..k + 1] == names[..k] + [names[k]];
        files := files - {names[k]};
      }
      assert names[..|names|] == names;
    }

    /** How many entries before pos the target's segment keeps. */
    method Retained(pos: nat, ghost j: nat, ghost base: nat) returns (retained: nat)
      requires Valid() && pos < |idx| && Target(segs, pos, j, base) && |idx| == |Flat(segs)|
      ensures retained == pos - base
    {
      hide Flat, IdxOf, OnDisk, AllWords, Indexed;
      var target := idx[pos].segment;
      retained := 0;
      SegmentsAround(crc, segs, pos, j, base, pos);
      for k := 0 to pos
        invariant retained == if k <= base then 0 else k - base
      {
        SegmentsAround(crc, segs, pos, j, base, k);
        if idx[k].segment == target { retained := retained + 1; }
      }
    }

    /** Drops what the memory store drops, and keeps the rest readable. */
    method TruncateSuffix(from: nat) returns (ok: bool)
      requires Valid()
      modifies this
      ensures Valid()
      ensures ok <==> from > 0
      ensures Contents() == if ok then Truncate(old(Contents()), from) else old(Contents())
      ensures if 1 <= from <= |old(idx)| then idx == old(idx)[..from - 1] && CutAt(old(files), old(idx)[from - 1], files)
              else Ledger() == old(Ledger())
    {
      hide Flat, IdxOf, StoreOk, Image, LaterSegs, Collected, CutAt;
      var last := LastIndexLocked();
      if from > last { return true; }
      if from < 1 { return false; }
      var pos := from - 1;
      ghost var j, base := FindTarget(crc, segs, pos);
      var target := idx[pos];
      var later: seq<nat>, gone := LaterSegments(pos);
      CollectedIsLater(crc, segs, pos, j, base, gone) by { StoreTiles(crc, maxEntries, files, segs, active, activeCount); }
      CutKeeps(crc, maxEntries, files, segs, active, activeCount, pos, j, base, gone);
      LaterAreCut(crc, files, segs, j, gone, target) by { StoreTiles(crc, maxEntries, files, segs, active, activeCount); }
      var retained := Retained(pos, j, base);
      var cut := target.offset - REC_HEADER_LEN;
      files := files[target.segment := files[target.segment][..cut]];
      RemoveSegments(later, gone);
      segs := Cut(segs, j, pos - base);
      idx := idx[..pos];
      active := Some(target.segment);
      activeCount := retained;
      ok := true;
    }

    method Term(index: nat) returns (r: Option<nat>)
      requires Valid()
      ensures r.Some? <==> index <= |Contents()|
      ensures r.Some? ==> r.value == TermAt(Contents(), index)
    {
      hide Flat, IdxOf, StoreOk;
      if index == 0 { return Some(0); }
      var last := LastIndexLocked();
      if index > last { return None; }
      IdxTells(crc, segs, index - 1);
      r := Some(idx[index - 1].term);
    }

    /** Read one entry back through the index; None would be a record that does not decode. */
    method ReadEntryLocked(p: nat) returns (r: Option<Entry>)
      requires Valid() && p < |idx|
      ensures r == Some(Contents()[p])
    {
      hide Flat, IdxOf, StoreOk, DecodeRecord;
      IdxReadsBack(crc, maxEntries, files, segs, active, activeCount, p);
      var ie := idx[p];
      var file := files[ie.segment];
      var hdr, payload := file[ie.offset - REC_HEADER_LEN..ie.offset], file[ie.offset..ie.offset + ie.length];
      match DecodeRecord(crc, hdr, payload)
      case Ok(e) => r := Some(e);
      case Err(_) => r := None;
    }

    method Entries(lo: nat, hi: nat) returns (r: Option<seq<Entry>>)
      requires Valid()
      ensures r.Some? <==> 1 <= lo <= hi <= |Contents()| + 1
      ensures r.Some? ==> r.value == Contents()[lo - 1..hi - 1]
    {
      hide Flat, IdxOf, Tiled, OnDisk;
      var last := LastIndexLocked();
      if lo < 1 || lo > hi { return None; }
      if hi > last + 1 { return None; }
      if lo == hi { return Some([]); }
      var out := [];
      for i := lo to hi
        invariant out == Contents()[lo - 1..i - 1]
      {
        var e := ReadEntryLocked(i - 1);
        out := out + [e.value];
      }
      r := Some(out);
    }
  }

  lemma IdxSegment(crc: Checksum, s: Seg, k: nat)
    requires k < |s.entries|
    ensures IdxAt(crc, s, k).segment == s.name
  {
  }
}
