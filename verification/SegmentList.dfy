/** The segments of a store as a value: which entry lies in which segment, and where
    the index of the store says it does. */
module SegmentList {
  import opened Types
  import opened RaftLog
  import opened Codec

  /** A segment file, named by the first index it was created for. */
  datatype Seg = Seg(name: nat, entries: seq<Entry>)

  /** One entry of the in-memory index. */
  datatype IdxEntry = IdxEntry(index: nat, term: nat, segment: nat, offset: nat, length: nat)

  function Flat(segs: seq<Seg>): Log {
    if |segs| == 0 then [] else Flat(segs[..|segs| - 1]) + segs[|segs| - 1].entries
  }

  function SegIdx(crc: Checksum, s: Seg): (r: seq<IdxEntry>)
    ensures |r| == |s.entries|
  {
    seq(|s.entries|, k requires 0 <= k < |s.entries| => IdxAt(crc, s, k))
  }

  function IdxAt(crc: Checksum, s: Seg, k: nat): IdxEntry
    requires k < |s.entries|
  {
    var e := s.entries[k];
    IdxEntry(e.index, e.term, s.name, |Image(crc, s.entries[..k])| + REC_HEADER_LEN, PAYLOAD_FIXED_LEN + |e.data|)
  }

  function IdxOf(crc: Checksum, segs: seq<Seg>): (r: seq<IdxEntry>)
    ensures |r| == |Flat(segs)|
  {
    if |segs| == 0 then [] else IdxOf(crc, segs[..|segs| - 1]) + SegIdx(crc, segs[|segs| - 1])
  }

  /** Segments are listed in the order of their names. */
  predicate Rising(segs: seq<Seg>) { forall j, k :: 0 <= j < k < |segs| ==> segs[j].name < segs[k].name }

  /** ... and once a segment is full, with max entries, the log has reached its name:
      the segment opened next gets a greater one. */
  predicate Tiled(segs: seq<Seg>, max: nat) {
    Rising(segs) && forall j :: 0 <= j < |segs| ==> segs[j].name <= |Flat(segs[..j])| + max
  }

  /** The directory holds every segment, and besides them only empty segments. */
  predicate OnDisk(crc: Checksum, files: map<nat, Types.Bytes>, segs: seq<Seg>) {
    && (forall j :: 0 <= j < |segs| ==> segs[j].name in files && files[segs[j].name] == Image(crc, segs[j].entries))
    && (forall f :: f in files ==> files[f] == SEG_HEADER || exists j :: 0 <= j < |segs| && segs[j].name == f)
  }

  // ---- positions ------------------------------------------------------------------------------

  lemma {:induction false} FlatPrefix(segs: seq<Seg>, j: nat)
    requires j < |segs|
    ensures Flat(segs[..j + 1]) == Flat(segs[..j]) + segs[j].entries
    ensures |Flat(segs[..j + 1])| <= |Flat(segs)| && Flat(segs)[..|Flat(segs[..j + 1])|] == Flat(segs[..j + 1])
    decreases |segs|
  {
    assert segs[..j + 1][..j] == segs[..j];
    if j == |segs| - 1 {
      assert segs[..j + 1] == segs;
    } else {
      FlatPrefix(segs[..|segs| - 1], j);
      assert segs[..|segs| - 1][..j + 1] == segs[..j + 1];
    }
  }

  lemma FlatSpan(segs: seq<Seg>, j: nat, k: nat)
    requires j < k <= |segs|
    ensures |Flat(segs[..j])| + |segs[j].entries| <= |Flat(segs[..k])|
  {
    FlatPrefix(segs[..k], j);
    assert segs[..k][..j + 1] == segs[..j + 1] && segs[..k][..j] == segs[..j];
  }

  /** Position p of the log is entry r of segment j, and the index points there. */
  lemma {:induction false} Locate(crc: Checksum, segs: seq<Seg>, p: nat) returns (j: nat, r: nat)
    requires p < |Flat(segs)|
    ensures j < |segs| && r < |segs[j].entries| && p == |Flat(segs[..j])| + r
    ensures Flat(segs)[p] == segs[j].entries[r] && IdxOf(crc, segs)[p] == IdxAt(crc, segs[j], r)
    decreases |segs|
  {
    hide IdxAt;
    var before := segs[..|segs| - 1];
    if p < |Flat(before)| {
      j, r := Locate(crc, before, p);
      assert before[..j] == segs[..j];
    } else {
      j, r := |segs| - 1, p - |Flat(before)|;
    }
  }

  // ---- growing and cutting -------------------------------------------------------------------

  function AddEntry(segs: seq<Seg>, e: Entry): seq<Seg>
    requires |segs| > 0
  {
    var last := segs[|segs| - 1];
    segs[..|segs| - 1] + [last.(entries := last.entries + [e])]
  }

  lemma AddEntryGrows(crc: Checksum, segs: seq<Seg>, e: Entry)
    requires |segs| > 0
    ensures Flat(AddEntry(segs, e)) == Flat(segs) + [e]
    ensures var s := AddEntry(segs, e)[|segs| - 1];
            IdxOf(crc, AddEntry(segs, e)) == IdxOf(crc, segs) + [IdxAt(crc, s, |s.entries| - 1)]
  {
    hide IdxAt;
    var before, last := segs[..|segs| - 1], segs[|segs| - 1];
    var s := last.(entries := last.entries + [e]);
    assert AddEntry(segs, e)[..|segs| - 1] == before;
    assert Flat(AddEntry(segs, e)) == Flat(before) + (last.entries + [e]);
    assert SegIdx(crc, s)[..|last.entries|] == SegIdx(crc, last) by {
      forall k | 0 <= k < |last.entries| ensures IdxAt(crc, s, k) == IdxAt(crc, last, k) { SameIdx(crc, last, s, k); }
    }
    assert SegIdx(crc, s) == SegIdx(crc, last) + [IdxAt(crc, s, |last.entries|)];
    assert IdxOf(crc, AddEntry(segs, e)) == IdxOf(crc, before) + SegIdx(crc, s);
  }

  lemma SameIdx(crc: Checksum, a: Seg, b: Seg, k: nat)
    requires a.name == b.name && k < |a.entries| <= |b.entries| && b.entries[..|a.entries|] == a.entries
    ensures IdxAt(crc, b, k) == IdxAt(crc, a, k)
  {
    assert b.entries[..k] == b.entries[..|a.entries|][..k];
    assert b.entries[k] == b.entries[..|a.entries|][k];
  }

  lemma AddEntryTiles(segs: seq<Seg>, e: Entry, max: nat)
    requires |segs| > 0 && Tiled(segs, max)
    ensures Tiled(AddEntry(segs, e), max)
  {
    hide Flat;
    var s := AddEntry(segs, e);
    forall j | 0 <= j < |s| ensures s[j].name <= |Flat(s[..j])| + max { assert s[..j] == segs[..j]; }
  }

  lemma FlatSnoc(segs: seq<Seg>, s: Seg)
    ensures Flat(segs + [s]) == Flat(segs) + s.entries
  {
    assert (segs + [s])[..|segs|] == segs;
  }

  /** Behind a full segment a new one may get any name above the log's length, up to
      where it will be full. */
  lemma AddSegTiles(segs: seq<Seg>, name: nat, max: nat)
    requires Tiled(segs, max) && name <= |Flat(segs)| + max && forall j :: 0 <= j < |segs| ==> segs[j].name < name
    ensures var s := segs + [Seg(name, [])]; Tiled(s, max) && Flat(s) == Flat(segs)
  {
    hide Flat;
    FlatSnoc(segs, Seg(name, []));
    var s := segs + [Seg(name, [])];
    forall j | 0 <= j < |s| ensures s[j].name <= |Flat(s[..j])| + max {
      assert s[..j] == segs[..j];
      if j == |segs| { assert segs[..j] == segs; }
    }
  }

  lemma NamesStayBelow(segs: seq<Seg>, j: nat, max: nat)
    requires Tiled(segs, max) && j < |segs| && |segs[|segs| - 1].entries| >= max
    ensures segs[j].name <= |Flat(segs)|
  {
    hide Flat;
    FlatSpan(segs, |segs| - 1, |segs|);
    assert segs[..|segs|] == segs;
  }

  /** The segments before the entry at position |Flat(segs[..j])| + r. */
  function Cut(segs: seq<Seg>, j: nat, r: nat): seq<Seg>
    requires j < |segs| && r <= |segs[j].entries|
  {
    segs[..j] + [segs[j].(entries := segs[j].entries[..r])]
  }

  lemma CutKeepsPrefix(crc: Checksum, segs: seq<Seg>, j: nat, r: nat)
    requires j < |segs| && r <= |segs[j].entries|
    ensures var p := |Flat(segs[..j])| + r;
            && p <= |Flat(segs)| && Flat(Cut(segs, j, r)) == Flat(segs)[..p]
            && IdxOf(crc, Cut(segs, j, r)) == IdxOf(crc, segs)[..p]
  {
    hide IdxOf;
    var p, s := |Flat(segs[..j])| + r, Cut(segs, j, r);
    assert s[..j] == segs[..j];
    FlatPrefix(segs, j);
    assert Flat(s) == Flat(segs[..j]) + segs[j].entries[..r];
    assert Flat(s) == Flat(segs[..j + 1])[..p];
    assert Flat(s) == Flat(segs)[..p];
    CutKeepsIdx(crc, segs, j, r);
  }

  lemma CutKeepsIdx(crc: Checksum, segs: seq<Seg>, j: nat, r: nat)
    requires j < |segs| && r <= |segs[j].entries| && |Flat(segs[..j])| + r <= |Flat(segs)|
    requires Flat(Cut(segs, j, r)) == Flat(segs)[..|Flat(segs[..j])| + r]
    ensures IdxOf(crc, Cut(segs, j, r)) == IdxOf(crc, segs)[..|Flat(segs[..j])| + r]
  {
    hide Flat, IdxOf;
    var p, s := |Flat(segs[..j])| + r, Cut(segs, j, r);
    forall q | 0 <= q < p ensures IdxOf(crc, s)[q] == IdxOf(crc, segs)[q] { CutKeepsOne(crc, segs, j, r, q); }
  }

  lemma CutKeepsOne(crc: Checksum, segs: seq<Seg>, j: nat, r: nat, q: nat)
    requires j < |segs| && r <= |segs[j].entries|
    requires q < |Flat(Cut(segs, j, r))| && q < |Flat(segs)|
    ensures IdxOf(crc, Cut(segs, j, r))[q] == IdxOf(crc, segs)[q]
  {
    hide Flat, IdxOf, IdxAt;
    var s := Cut(segs, j, r);
    var i, o := Locate(crc, s, q);
    var k, l := Locate(crc, segs, q);
    SamePlace(segs, j, r, i, o, k, l);
    if i == j { SameIdx(crc, s[j], segs[j], o); }
  }

  /** A position lies in one segment only. */
  lemma SamePlace(segs: seq<Seg>, j: nat, r: nat, i: nat, o: nat, k: nat, l: nat)
    requires j < |segs| && r <= |segs[j].entries|
    requires i <= j && o < |Cut(segs, j, r)[i].entries| && k < |segs| && l < |segs[k].entries|
    requires |Flat(Cut(segs, j, r)[..i])| + o == |Flat(segs[..k])| + l
    ensures i == k && o == l
  {
    var s := Cut(segs, j, r);
    assert s[..i] == segs[..i];
    if i < k { FlatSpan(segs, i, k); } else if k < i { FlatSpan(segs, k, i); }
  }

  lemma CutTiles(segs: seq<Seg>, j: nat, r: nat, max: nat)
    requires j < |segs| && r <= |segs[j].entries| && Tiled(segs, max)
    ensures Tiled(Cut(segs, j, r), max)
  {
    hide Flat;
    var s := Cut(segs, j, r);
    forall i | 0 <= i < |s| ensures s[i].name <= |Flat(s[..i])| + max { assert s[..i] == segs[..i]; }
  }
}
