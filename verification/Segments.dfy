/** Scanning a segment file (pkg/storage/file/segment.go): what a scan finds in a
    whole segment and in one whose last write was cut short. */
module Segments {
  import opened Types
  import opened Codec

  lemma {:induction false} PrefixImage(crc: Checksum, es: seq<Entry>, k: nat)
    requires k <= |es|
    ensures |Image(crc, es[..k])| <= |Image(crc, es)| && Image(crc, es)[..|Image(crc, es[..k])|] == Image(crc, es[..k])
    decreases |es|
  {
    hide Codec.Record;
    if k == |es| {
      assert es[..k] == es;
    } else {
      PrefixImage(crc, es[..|es| - 1], k);
      assert es[..|es| - 1][..k] == es[..k];
      assert Image(crc, es) == Image(crc, es[..|es| - 1]) + Codec.Record(crc, es[|es| - 1]);
    }
  }

  lemma ImageSnoc(crc: Checksum, es: seq<Entry>, k: nat)
    requires k < |es|
    ensures Image(crc, es[..k + 1]) == Image(crc, es[..k]) + Codec.Record(crc, es[k])
  {
    hide Codec.Record;
    assert es[..k + 1][..k] == es[..k];
    assert SEG_HEADER + (Records(crc, es[..k]) + Codec.Record(crc, es[k])) == SEG_HEADER + Records(crc, es[..k]) + Codec.Record(crc, es[k]);
  }

  /** A file that starts with Image(es) holds record k where entry k belongs. */
  lemma RecordBytes(crc: Checksum, es: seq<Entry>, rest: Types.Bytes, k: nat)
    requires k < |es|
    ensures var file, off := Image(crc, es) + rest, |Image(crc, es[..k])|;
            && off + |Codec.Record(crc, es[k])| == |Image(crc, es[..k + 1])| <= |file|
            && file[off..off + |Codec.Record(crc, es[k])|] == Codec.Record(crc, es[k])
  {
    hide Codec.Record, Image;
    var file, off := Image(crc, es) + rest, |Image(crc, es[..k])|;
    PrefixImage(crc, es, k + 1);
    ImageSnoc(crc, es, k);
    var end := |Image(crc, es[..k + 1])|;
    assert file[..end] == Image(crc, es)[..end] == Image(crc, es[..k]) + Codec.Record(crc, es[k]);
    assert file[off..end] == file[..end][off..];
  }

  lemma RecordIsThere(crc: Checksum, es: seq<Entry>, rest: Types.Bytes, k: nat)
    requires k < |es| && Fits(es[k])
    ensures var file, off := Image(crc, es) + rest, |Image(crc, es[..k])|;
            && off + |Codec.Record(crc, es[k])| == |Image(crc, es[..k + 1])| <= |file|
            && ReadRecord(crc, file, off) == Some(es[k])
  {
    hide Codec.Record, Image, ReadRecord;
    RecordBytes(crc, es, rest, k);
    ReadWhole(crc, Image(crc, es) + rest, |Image(crc, es[..k])|, es[k]);
  }

  lemma ReadWhole(crc: Checksum, file: Types.Bytes, off: nat, e: Entry)
    requires Fits(e) && off + |Codec.Record(crc, e)| <= |file| && file[off..off + |Codec.Record(crc, e)|] == Codec.Record(crc, e)
    ensures ReadRecord(crc, file, off) == Some(e)
  {
    hide RecordHeader, Payload, DecodeRecord, GetUint;
    var h, p := RecordHeader(crc, Payload(e)), Payload(e);
    RecordRoundTrip(crc, e);
    var r := file[off..off + |h + p|];
    assert file[off..off + 8] == r[..8] == h;
    assert file[off + 8..off + 8 + |p|] == r[8..] == p;
  }

  /** rest is the beginning of a record, but not all of it. */
  predicate TornTail(crc: Checksum, rest: Types.Bytes, e: Entry) {
    |rest| < |Codec.Record(crc, e)| && rest == Codec.Record(crc, e)[..|rest|]
  }

  lemma TornIsUnreadable(crc: Checksum, head: Types.Bytes, rest: Types.Bytes, e: Entry)
    requires Fits(e) && TornTail(crc, rest, e)
    ensures ReadRecord(crc, head + rest, |head|) == None
  {
    hide RecordHeader, Payload, DecodeRecord, GetUint;
    var file, off, h := head + rest, |head|, RecordHeader(crc, Payload(e));
    RecordRoundTrip(crc, e);
    if |rest| >= 8 {
      assert file[off..off + 8] == rest[..8] == h;
    }
  }

  lemma {:induction false} ScanFindsAll(crc: Checksum, es: seq<Entry>, rest: Types.Bytes, k: nat)
    requires k <= |es| && AllFit(es)
    requires rest == [] || ReadRecord(crc, Image(crc, es) + rest, |Image(crc, es)|) == None
    ensures ScanFrom(crc, Image(crc, es) + rest, |Image(crc, es[..k])|) == (RecsOf(crc, es)[k..], |Image(crc, es)|)
    decreases |es| - k
  {
    hide Codec.Record, Image, ReadRecord;
    if k == |es| {
      assert es[..k] == es;
    } else {
      RecordIsThere(crc, es, rest, k);
      ScanFindsAll(crc, es, rest, k + 1);
      RecsAt(crc, es, k);
      RecordLength(crc, es[k]);
      assert RecsOf(crc, es)[k..] == [RecsOf(crc, es)[k]] + RecsOf(crc, es)[k + 1..];
      assert |Image(crc, es[..k])| < |Image(crc, es) + rest|;
    }
  }

  lemma RecordLength(crc: Checksum, e: Entry)
    ensures |Codec.Record(crc, e)| == REC_HEADER_LEN + PAYLOAD_FIXED_LEN + |e.data|
  {
  }

  lemma {:induction false} RecsAt(crc: Checksum, es: seq<Entry>, k: nat)
    requires k < |es|
    ensures RecsOf(crc, es)[k] == RecAt(es[k], |Image(crc, es[..k])|)
    decreases |es|
  {
    hide Image, RecAt;
    if k < |es| - 1 {
      RecsAt(crc, es[..|es| - 1], k);
      assert es[..|es| - 1][..k] == es[..k];
    }
  }

  // ---- a write cut short --------------------------------------------------------------------

  /** How many whole records the first n bytes of Records(es) hold. */
  function Whole(crc: Checksum, es: seq<Entry>, n: nat): (j: nat)
    ensures j <= |es|
  {
    if |es| == 0 then 0
    else if |Records(crc, es)| <= n then |es|
    else Whole(crc, es[..|es| - 1], n)
  }

  /** A cut batch is its whole records and the beginning of the next one. */
  lemma {:induction false} CutBatch(crc: Checksum, es: seq<Entry>, n: nat)
    requires n <= |Records(crc, es)|
    ensures var j := Whole(crc, es, n);
            && |Records(crc, es[..j])| <= n
            && Records(crc, es)[..n] == Records(crc, es[..j]) + Records(crc, es)[..n][|Records(crc, es[..j])|..]
            && (j == |es| ==> n == |Records(crc, es)|)
            && (j < |es| ==> TornTail(crc, Records(crc, es)[..n][|Records(crc, es[..j])|..], es[j]))
    decreases |es|
  {
    hide Codec.Record;
    if |es| > 0 {
      var last, r := es[|es| - 1], Records(crc, es[..|es| - 1]);
      assert Records(crc, es) == r + Codec.Record(crc, last);
      if |Records(crc, es)| <= n {
        assert es[..|es|] == es;
      } else if |r| <= n {
        WholeWhenEnough(crc, es[..|es| - 1], n);
      } else {
        CutBatch(crc, es[..|es| - 1], n);
        var j := Whole(crc, es, n);
        assert es[..|es| - 1][..j] == es[..j];
        assert Records(crc, es)[..n] == r[..n];
      }
    }
  }

  lemma WholeWhenEnough(crc: Checksum, es: seq<Entry>, n: nat)
    requires |Records(crc, es)| <= n
    ensures Whole(crc, es, n) == |es|
  {
  }

  lemma {:induction false} RecordsJoin(crc: Checksum, a: seq<Entry>, b: seq<Entry>)
    ensures Records(crc, a + b) == Records(crc, a) + Records(crc, b)
    decreases |b|
  {
    hide Codec.Record;
    if |b| == 0 {
      assert a + b == a;
    } else {
      assert (a + b)[..|a + b| - 1] == a + b[..|b| - 1];
      RecordsJoin(crc, a, b[..|b| - 1]);
    }
  }

  /** Recovery of a segment: whatever part of a batch reached the file behind the
      entries es, a scan finds es and the whole records of that part, no more and no
      less, and points at the end of the last of them. */
  lemma ScanAfterCut(crc: Checksum, es: seq<Entry>, batch: seq<Entry>, n: nat)
    requires AllFit(es) && AllFit(batch) && n <= |Records(crc, batch)|
    ensures var kept := es + batch[..Whole(crc, batch, n)];
            ScanFrom(crc, Image(crc, es) + Records(crc, batch)[..n], SEG_HEADER_LEN) == (RecsOf(crc, kept), |Image(crc, kept)|)
  {
    hide Codec.Record, ReadRecord, RecsOf, Whole;
    var j := Whole(crc, batch, n);
    var kept := es + batch[..j];
    CutBatch(crc, batch, n);
    var rest := Records(crc, batch)[..n][|Records(crc, batch[..j])|..];
    RecordsJoin(crc, es, batch[..j]);
    assert Image(crc, es) + Records(crc, batch)[..n] == Image(crc, kept) + rest;
    if j < |batch| { TornIsUnreadable(crc, Image(crc, kept), rest, batch[j]); } else { assert batch[..j] == batch; }
    ScanFindsAll(crc, kept, rest, 0);
    assert kept[..0] == [];
    assert RecsOf(crc, kept)[0..] == RecsOf(crc, kept);
  }

  // ---- what a scan of any file finds ------------------------------------------------------------

  /** The record of e stands at offset off. */
  predicate StandsAt(crc: Checksum, file: Types.Bytes, off: nat, e: Entry) {
    Fits(e) && off + |Codec.Record(crc, e)| <= |file| && file[off..off + |Codec.Record(crc, e)|] == Codec.Record(crc, e)
  }

  lemma RecordSplit(crc: Checksum, e: Entry)
    ensures Codec.Record(crc, e)[..8] == RecordHeader(crc, Payload(e)) && Codec.Record(crc, e)[8..] == Payload(e)
  {
    hide RecordHeader, Payload;
  }

  /** A record is read exactly where one stands: nothing torn or corrupt is. */
  lemma ReadRecordIff(crc: Checksum, file: Types.Bytes, off: nat, e: Entry)
    ensures ReadRecord(crc, file, off) == Some(e) <==> StandsAt(crc, file, off, e)
  {
    hide Codec.Record, RecordHeader, Payload, DecodeRecord, GetUint;
    RecordSplit(crc, e);
    RecordLength(crc, e);
    if off + 8 <= |file| {
      var hdr := file[off..off + 8];
      var len := GetUint(hdr[0..4]);
      HeaderLength(hdr);
      if StandsAt(crc, file, off, e) {
        var r := file[off..off + |Codec.Record(crc, e)|];
        assert file[off..off + 8] == r[..8] && file[off + 8..off + |r|] == r[8..];
        RecordRoundTrip(crc, e);
      } else if ReadRecord(crc, file, off) == Some(e) {
        var p := file[off + 8..off + 8 + len];
        DecodeRecordIff(crc, hdr, p, e);
        assert hdr[..8] == hdr;
        assert file[off..off + 8 + len] == hdr + p;
        Rejoined(crc, e);
      }
    }
  }

  lemma HeaderLength(hdr: Types.Bytes)
    requires |hdr| == REC_HEADER_LEN
    ensures GetUint(hdr[0..4]) < 0x1_0000_0000
  {
    hide PutUint, GetUint, Pow256;
    Widths();
    PutGet(hdr[0..4]);
  }

  lemma Rejoined(crc: Checksum, e: Entry)
    ensures Codec.Record(crc, e) == RecordHeader(crc, Payload(e)) + Payload(e)
  {
  }

  /** From off on the file holds the records of es, listed by rs, up to end; and there
      it ends, or no record follows. */
  ghost predicate Holds(crc: Checksum, file: Types.Bytes, off: nat, es: seq<Entry>, rs: seq<ScanRec>, end: nat) {
    && AllFit(es) && off <= end <= |file| && file[off..end] == Records(crc, es)
    && |rs| == |es| && (forall k :: 0 <= k < |es| ==> rs[k] == RecAt(es[k], off + |Records(crc, es[..k])|))
    && (end < |file| ==> forall e :: !StandsAt(crc, file, end, e))
  }

  lemma RecordsOfOne(crc: Checksum, e: Entry, es: seq<Entry>)
    ensures Records(crc, [e]) == Codec.Record(crc, e) && Records(crc, [e] + es) == Codec.Record(crc, e) + Records(crc, es)
  {
    hide Codec.Record;
    RecordsJoin(crc, [e], es);
    assert [e][..0] == [];
  }

  lemma HoldsOneMore(crc: Checksum, file: Types.Bytes, off: nat, e: Entry, es: seq<Entry>, rs: seq<ScanRec>, end: nat)
    requires StandsAt(crc, file, off, e) && Holds(crc, file, off + |Codec.Record(crc, e)|, es, rs, end)
    ensures Holds(crc, file, off, [e] + es, [RecAt(e, off)] + rs, end)
  {
    hide Codec.Record, StandsAt, Fits, Records;
    assert StandsAt(crc, file, off, e) ==> Fits(e) && file[off..off + |Codec.Record(crc, e)|] == Codec.Record(crc, e) by { StandsThere(crc, file, off, e); }
    var next, all := off + |Codec.Record(crc, e)|, [e] + es;
    RecordsOfOne(crc, e, es);
    assert file[off..end] == file[off..next] + file[next..end];
    forall k | 0 <= k < |all| ensures ([RecAt(e, off)] + rs)[k] == RecAt(all[k], off + |Records(crc, all[..k])|) {
      if k == 0 {
        assert all[..0] == [];
        NoneIsEmpty(crc);
      } else {
        assert all[..k] == [e] + es[..k - 1];
        RecordsOfOne(crc, e, es[..k - 1]);
      }
    }
  }

  lemma StandsThere(crc: Checksum, file: Types.Bytes, off: nat, e: Entry)
    requires StandsAt(crc, file, off, e)
    ensures Fits(e) && off + |Codec.Record(crc, e)| <= |file| && file[off..off + |Codec.Record(crc, e)|] == Codec.Record(crc, e)
  {
  }

  lemma NoneIsEmpty(crc: Checksum)
    ensures Records(crc, []) == []
  {
  }

  lemma NothingHeld(crc: Checksum, file: Types.Bytes, off: nat)
    requires off <= |file| && (off < |file| ==> forall e :: !StandsAt(crc, file, off, e))
    ensures Holds(crc, file, off, [], [], off)
  {
    hide StandsAt;
    NoneIsEmpty(crc);
  }

  /** A scan of any bytes finds whole, uncorrupted records only, one behind the other,
      and stops where none follows. */
  lemma {:induction false} ScanIsExact(crc: Checksum, file: Types.Bytes, off: nat) returns (es: seq<Entry>)
    requires off <= |file|
    ensures var (rs, end) := ScanFrom(crc, file, off); Holds(crc, file, off, es, rs, end)
    decreases |file| - off
  {
    hide Codec.Record, ReadRecord, StandsAt, Holds;
    var r := if off < |file| then ReadRecord(crc, file, off) else None;
    if r.None? {
      es := [];
      forall e ensures off < |file| ==> !StandsAt(crc, file, off, e) { if off < |file| { ReadRecordIff(crc, file, off, e); } }
      NothingHeld(crc, file, off);
    } else {
      ReadRecordIff(crc, file, off, r.value);
      StandsThere(crc, file, off, r.value);
      RecordLength(crc, r.value);
      var rest := ScanIsExact(crc, file, off + |Codec.Record(crc, r.value)|);
      var (rs, end) := ScanFrom(crc, file, off + |Codec.Record(crc, r.value)|);
      HoldsOneMore(crc, file, off, r.value, rest, rs, end);
      es := [r.value] + rest;
    }
  }

  lemma HoldsOneLess(crc: Checksum, file: Types.Bytes, off: nat, es: seq<Entry>, rs: seq<ScanRec>, end: nat)
    requires Holds(crc, file, off, es, rs, end) && |es| > 0
    ensures StandsAt(crc, file, off, es[0]) && rs[0] == RecAt(es[0], off)
    ensures Holds(crc, file, off + |Codec.Record(crc, es[0])|, es[1..], rs[1..], end)
  {
    hide Codec.Record, Records, Fits;
    var e, rest := es[0], es[1..];
    var next := off + |Codec.Record(crc, e)|;
    assert es == [e] + rest;
    RecordsOfOne(crc, e, rest);
    assert es[..0] == [];
    NoneIsEmpty(crc);
    assert file[off..end][..|Codec.Record(crc, e)|] == file[off..next];
    assert file[off..end][|Codec.Record(crc, e)|..] == file[next..end];
    forall k | 0 <= k < |rest| ensures rs[1..][k] == RecAt(rest[k], next + |Records(crc, rest[..k])|) {
      assert es[..k + 1] == [e] + rest[..k];
      RecordsOfOne(crc, e, rest[..k]);
      assert rs[k + 1] == RecAt(es[k + 1], off + |Records(crc, es[..k + 1])|);
    }
  }

  lemma HoldsNothing(crc: Checksum, file: Types.Bytes, off: nat, es: seq<Entry>, rs: seq<ScanRec>, end: nat)
    requires Holds(crc, file, off, es, rs, end)
    ensures off <= end <= |file| && |rs| == |es|
    ensures |es| == 0 ==> end == off && (off < |file| ==> forall e :: !StandsAt(crc, file, off, e))
  {
    hide StandsAt;
    NoneIsEmpty(crc);
    if |es| == 0 { assert |file[off..end]| == 0; }
  }

  /** ... and it misses none: whatever answers that description is what the scan finds. */
  lemma {:induction false} ScanMissesNone(crc: Checksum, file: Types.Bytes, off: nat, es: seq<Entry>, rs: seq<ScanRec>, end: nat)
    requires Holds(crc, file, off, es, rs, end)
    ensures ScanFrom(crc, file, off) == (rs, end)
    decreases |es|
  {
    hide Codec.Record, ReadRecord, StandsAt, Holds, Records;
    HoldsNothing(crc, file, off, es, rs, end);
    if |es| == 0 {
      if off < |file| && ReadRecord(crc, file, off).Some? { ReadRecordIff(crc, file, off, ReadRecord(crc, file, off).value); }
    } else {
      HoldsOneLess(crc, file, off, es, rs, end);
      ReadRecordIff(crc, file, off, es[0]);
      StandsThere(crc, file, off, es[0]);
      RecordLength(crc, es[0]);
      ScanMissesNone(crc, file, off + |Codec.Record(crc, es[0])|, es[1..], rs[1..], end);
      assert rs == [rs[0]] + rs[1..];
    }
  }

  // ---- scanSegment ------------------------------------------------------------------------------

  /** readSegHeader: long enough, the magic, and a version this build understands. */
  predicate GoodHeader(file: Types.Bytes) {
    |file| >= SEG_HEADER_LEN && file[0..4] == SEG_HEADER[0..4] && file[4] == SEG_HEADER[4]
  }

  /** A good header is the one that new segments get. */
  lemma GoodHeaderIff(file: Types.Bytes)
    ensures GoodHeader(file) <==> |file| >= |SEG_HEADER| && file[..|SEG_HEADER|] == SEG_HEADER
  {
    if |file| >= 5 {
      assert file[..5] == file[0..4] + [file[4]];
      assert SEG_HEADER == SEG_HEADER[0..4] + [SEG_HEADER[4]];
      if file[..5] == SEG_HEADER { assert file[0..4] == file[..5][0..4] && file[4] == file[..5][4]; }
    }
  }

  /** None is a missing or foreign header; a torn or corrupt record only ends the scan. */
  method ScanSegment(crc: Checksum, file: Types.Bytes) returns (r: Option<(seq<ScanRec>, nat)>)
    ensures r.Some? <==> GoodHeader(file)
    ensures r.Some? ==> r.value == ScanFrom(crc, file, SEG_HEADER_LEN)
    ensures r.Some? ==> exists es :: Holds(crc, file, SEG_HEADER_LEN, es, r.value.0, r.value.1)
  {
    hide ReadRecord, RecAt, Holds;
    if !GoodHeader(file) { return None; }
    ghost var es := ScanIsExact(crc, file, SEG_HEADER_LEN);
    var recs: seq<ScanRec>, off := [], SEG_HEADER_LEN;
    assert [] + ScanFrom(crc, file, off).0 == ScanFrom(crc, file, off).0;
    while off < |file|
      invariant off >= SEG_HEADER_LEN
      invariant var (rs, end) := ScanFrom(crc, file, off); (recs + rs, end) == ScanFrom(crc, file, SEG_HEADER_LEN)
      decreases |file| - off
    {
      var e := ReadRecord(crc, file, off);
      if e.None? { break; }
      ghost var (rs, _) := ScanFrom(crc, file, off + REC_HEADER_LEN + PAYLOAD_FIXED_LEN + |e.value.data|);
      assert recs + ([RecAt(e.value, off)] + rs) == recs + [RecAt(e.value, off)] + rs;
      recs := recs + [RecAt(e.value, off)];
      off := off + REC_HEADER_LEN + PAYLOAD_FIXED_LEN + |e.value.data|;
    }
    assert recs + [] == recs;
    r := Some((recs, off));
  }

  // ---- segment names ------------------------------------------------------------------------------

  /** The w lowest decimal digits of x. */
  function Digits(x: nat, w: nat): (s: string)
    ensures |s| == w
  {
    if w == 0 then "" else Digits(x / 10, w - 1) + [('0' as int + x % 10) as char]
  }

  function SegmentName(first: nat): string { Digits(first, 16) + ".seg" }

  predicate AllDigits(s: string) { forall k :: 0 <= k < |s| ==> '0' <= s[k] <= '9' }

  /** The number that decimal digits stand for. */
  function Decimal(s: string): nat
    requires AllDigits(s)
  {
    if |s| == 0 then 0 else 10 * Decimal(s[..|s| - 1]) + (s[|s| - 1] as int - '0' as int)
  }

  lemma {:induction false} DigitsReadBack(x: nat, w: nat)
    requires x < Pow10(w)
    ensures AllDigits(Digits(x, w)) && Decimal(Digits(x, w)) == x
  {
    if w > 0 {
      DigitsReadBack(x / 10, w - 1);
      assert Digits(x, w)[..w - 1] == Digits(x / 10, w - 1);
    }
  }

  /** A name is sixteen decimal digits that read as the first index, and the suffix. */
  lemma NameReadsBack(x: nat)
    requires x < Pow10(16)
    ensures var s := SegmentName(x); |s| == 20 && s[16..] == ".seg" && AllDigits(s[..16]) && Decimal(s[..16]) == x
  {
    hide Digits, Pow10;
    DigitsReadBack(x, 16);
    assert SegmentName(x)[..16] == Digits(x, 16);
  }

  /** Byte order on names of equal length, which ReadDir sorts by. */
  predicate Precedes(a: string, b: string) {
    |a| == |b| && exists k :: 0 <= k < |a| && a[..k] == b[..k] && a[k] < b[k]
  }

  function Pow10(w: nat): nat { if w == 0 then 1 else 10 * Pow10(w - 1) }

  lemma {:induction false} DigitsPreserveOrder(x: nat, y: nat, w: nat)
    requires x < y < Pow10(w)
    ensures Precedes(Digits(x, w), Digits(y, w))
  {
    var a, b := Digits(x, w), Digits(y, w);
    var a', b' := Digits(x / 10, w - 1), Digits(y / 10, w - 1);
    if x / 10 < y / 10 {
      DigitsPreserveOrder(x / 10, y / 10, w - 1);
      var k :| 0 <= k < |a'| && a'[..k] == b'[..k] && a'[k] < b'[k];
      assert a[..k] == a'[..k] && b[..k] == b'[..k] && a[k] < b[k];
    } else {
      assert a[..w - 1] == b[..w - 1] && a[w - 1] < b[w - 1];
    }
  }

  /** Names sort as the indexes they stand for. */
  lemma NamesPreserveOrder(x: nat, y: nat)
    requires x < y < Pow10(16)
    ensures Precedes(SegmentName(x), SegmentName(y))
  {
    hide Digits, Pow10;
    DigitsPreserveOrder(x, y, 16);
    var a, b := Digits(x, 16), Digits(y, 16);
    var k :| 0 <= k < |a| && a[..k] == b[..k] && a[k] < b[k];
    assert SegmentName(x)[..k] == a[..k] && SegmentName(y)[..k] == b[..k];
  }
}
