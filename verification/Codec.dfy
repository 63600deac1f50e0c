/** The on-disk formats of pkg/storage/file: records, segment files and their names,
    the hard state and the snapshot. The checksum is a parameter; nothing here needs
    more of it than that it is a function. */
module Codec {
  import opened Types

  type Uint32 = x: nat | x < 0x1_0000_0000

  type Checksum = Types.Bytes -> Uint32

  // ---- little-endian integers ------------------------------------------------------------

  function Pow256(k: nat): nat { if k == 0 then 1 else 256 * Pow256(k - 1) }

  /** The k low bytes of x, least significant first. */
  function PutUint(x: nat, k: nat): (b: Types.Bytes)
    ensures |b| == k
  {
    if k == 0 then [] else [(x % 256) as byte] + PutUint(x / 256, k - 1)
  }

  function GetUint(b: Types.Bytes): nat { if |b| == 0 then 0 else b[0] as nat + 256 * GetUint(b[1..]) }

  lemma {:induction false} UintRoundTrip(x: nat, k: nat)
    requires x < Pow256(k)
    ensures GetUint(PutUint(x, k)) == x
  {
    if k > 0 {
      UintRoundTrip(x / 256, k - 1);
      assert PutUint(x, k)[1..] == PutUint(x / 256, k - 1);
    }
  }

  lemma {:induction false} PutGet(b: Types.Bytes)
    ensures PutUint(GetUint(b), |b|) == b && GetUint(b) < Pow256(|b|)
  {
    if |b| > 0 {
      PutGet(b[1..]);
      assert GetUint(b) % 256 == b[0] as nat && GetUint(b) / 256 == GetUint(b[1..]);
      assert b == [b[0]] + b[1..];
    }
  }

  const MAX64: nat := 0xFFFF_FFFF_FFFF_FFFF

  lemma Widths()
    ensures Pow256(4) == 0x1_0000_0000 && Pow256(8) == MAX64 + 1
  {
    assert Pow256(1) == 256 && Pow256(2) == 0x1_0000 && Pow256(3) == 0x100_0000 && Pow256(4) == 0x1_0000_0000;
    assert Pow256(5) == 0x100_0000_0000 && Pow256(6) == 0x1_0000_0000_0000 && Pow256(7) == 0x100_0000_0000_0000;
  }

  lemma Uint32RoundTrip(x: Uint32)
    ensures GetUint(PutUint(x, 4)) == x
  {
    Widths();
    UintRoundTrip(x, 4);
  }

  /** A wider number loses its high bytes. */
  lemma {:induction false} HighBytesDrop(x: nat, q: nat, k: nat)
    ensures PutUint(x + q * Pow256(k), k) == PutUint(x, k)
  {
    if k > 0 {
      var z := q * Pow256(k - 1);
      assert q * Pow256(k) == 256 * z by { Regroup(q, Pow256(k - 1)); }
      LowByte(x, z);
      HighBytesDrop(x / 256, q, k - 1);
    }
  }

  lemma Regroup(q: nat, p: nat)
    ensures q * (256 * p) == 256 * (q * p)
  {
  }

  lemma LowByte(x: nat, z: nat)
    ensures (x + 256 * z) % 256 == x % 256 && (x + 256 * z) / 256 == x / 256 + z
  {
  }

  lemma Uint32Truncates(x: nat)
    ensures GetUint(PutUint(x, 4)) == x % 0x1_0000_0000
  {
    hide PutUint, GetUint, Pow256;
    Widths();
    HighBytesDrop(x % 0x1_0000_0000, x / 0x1_0000_0000, 4);
    Uint32RoundTrip(x % 0x1_0000_0000);
  }

  lemma Uint64RoundTrip(x: nat)
    requires x <= MAX64
    ensures GetUint(PutUint(x, 8)) == x
  {
    Widths();
    UintRoundTrip(x, 8);
  }

  // ---- records ---------------------------------------------------------------------------------

  const REC_HEADER_LEN: nat := 8
  const PAYLOAD_FIXED_LEN: nat := 16

  datatype RecordError = ShortRecord | ShortPayload | BadChecksum

  datatype Decoded = Ok(entry: Entry) | Err(error: RecordError)

  /** Term and index are 64-bit words. */
  predicate Words(e: Entry) { e.term <= MAX64 && e.index <= MAX64 }

  /** ... and the payload length is a 32-bit one, so that a scan can step over it. */
  predicate Fits(e: Entry) { Words(e) && PAYLOAD_FIXED_LEN + |e.data| < 0x1_0000_0000 }

  function Payload(e: Entry): (b: Types.Bytes)
    ensures |b| == PAYLOAD_FIXED_LEN + |e.data|
  {
    PutUint(e.term, 8) + PutUint(e.index, 8) + e.data
  }

  function RecordHeader(crc: Checksum, payload: Types.Bytes): (b: Types.Bytes)
    ensures |b| == REC_HEADER_LEN
  {
    PutUint(|payload|, 4) + PutUint(crc(payload), 4)
  }

  function Record(crc: Checksum, e: Entry): (b: Types.Bytes)
    ensures |b| == REC_HEADER_LEN + PAYLOAD_FIXED_LEN + |e.data|
  {
    RecordHeader(crc, Payload(e)) + Payload(e)
  }

  function DecodeRecord(crc: Checksum, hdr: Types.Bytes, payload: Types.Bytes): Decoded {
    if |hdr| < REC_HEADER_LEN then Err(ShortRecord)
    else if |payload| % 0x1_0000_0000 != GetUint(hdr[0..4]) then Err(ShortRecord)
    else if |payload| < PAYLOAD_FIXED_LEN then Err(ShortPayload)
    else if crc(payload) != GetUint(hdr[4..8]) then Err(BadChecksum)
    else Ok(Entry(GetUint(payload[0..8]), GetUint(payload[8..16]), payload[16..]))
  }

  /** Byte j weighs 256 to the j: the least significant byte comes first. */
  lemma {:induction false} LittleEndian(x: nat, k: nat, j: nat)
    requires j < k
    ensures PutUint(Pow256(j) * x, k)[..j] == seq(j, _ => 0) && PutUint(Pow256(j) * x, k)[j] == (x % 256) as byte
  {
    if j == 0 {
      assert Pow256(0) * x == x;
      assert seq(0, _ => 0 as byte) == [];
    } else {
      var y := Pow256(j - 1) * x;
      assert Pow256(j) * x == 256 * y by { Regroup(x, Pow256(j - 1)); }
      LowByte(0, y);
      LittleEndian(x, k - 1, j - 1);
      assert PutUint(256 * y, k) == [0 as byte] + PutUint(y, k - 1);
      assert seq(j, _ => 0 as byte) == [0 as byte] + seq(j - 1, _ => 0 as byte);
    }
  }

  lemma Joined(a: Types.Bytes, b: Types.Bytes)
    ensures (a + b)[0..|a|] == a && (a + b)[|a|..] == b && (a + b)[|a|..|a| + |b|] == b
  {
  }

  lemma HeaderParts(crc: Checksum, payload: Types.Bytes)
    ensures var h := RecordHeader(crc, payload); h[0..4] == PutUint(|payload|, 4) && h[4..8] == PutUint(crc(payload), 4)
  {
    hide PutUint;
    Joined(PutUint(|payload|, 4), PutUint(crc(payload), 4));
  }

  lemma PayloadParts(e: Entry)
    ensures var p := Payload(e); p[0..8] == PutUint(e.term, 8) && p[8..16] == PutUint(e.index, 8) && p[16..] == e.data
  {
    hide PutUint;
    var t, x := PutUint(e.term, 8), PutUint(e.index, 8);
    Joined(t + x, e.data);
    Joined(t, x);
    Middle(t, x, e.data);
  }

  lemma Middle(a: Types.Bytes, b: Types.Bytes, c: Types.Bytes)
    ensures (a + b + c)[0..|a|] == a && (a + b + c)[|a|..|a| + |b|] == b
  {
  }

  /** decodeRecord undoes encodeRecord, even when the declared length is truncated. */
  lemma RecordDecodes(crc: Checksum, e: Entry)
    requires Words(e)
    ensures DecodeRecord(crc, RecordHeader(crc, Payload(e)), Payload(e)) == Ok(e)
  {
    hide PutUint, GetUint, Pow256;
    HeaderParts(crc, Payload(e));
    PayloadParts(e);
    Uint32Truncates(|Payload(e)|);
    Uint32RoundTrip(crc(Payload(e)));
    Uint64RoundTrip(e.term);
    Uint64RoundTrip(e.index);
  }

  /** When it is not, the header declares the payload's length. */
  lemma RecordRoundTrip(crc: Checksum, e: Entry)
    requires Fits(e)
    ensures DecodeRecord(crc, RecordHeader(crc, Payload(e)), Payload(e)) == Ok(e)
    ensures GetUint(RecordHeader(crc, Payload(e))[0..4]) == |Payload(e)|
  {
    hide PutUint, GetUint;
    RecordDecodes(crc, e);
    HeaderParts(crc, Payload(e));
    Uint32RoundTrip(|Payload(e)|);
  }

  /** The header that declares a length and a checksum is the only one that does. */
  lemma HeaderIsOne(crc: Checksum, hdr: Types.Bytes, payload: Types.Bytes)
    requires |hdr| == REC_HEADER_LEN
    requires GetUint(hdr[0..4]) == |payload| % 0x1_0000_0000 && GetUint(hdr[4..8]) == crc(payload)
    ensures hdr == RecordHeader(crc, payload)
  {
    hide PutUint, GetUint, Pow256;
    Widths();
    PutGet(hdr[0..4]);
    PutGet(hdr[4..8]);
    HighBytesDrop(|payload| % 0x1_0000_0000, |payload| / 0x1_0000_0000, 4);
    assert hdr == hdr[0..4] + hdr[4..8];
  }

  lemma PayloadIsOne(p: Types.Bytes)
    requires |p| >= PAYLOAD_FIXED_LEN
    ensures var e := Entry(GetUint(p[0..8]), GetUint(p[8..16]), p[16..]); Words(e) && p == Payload(e)
  {
    hide PutUint, GetUint, Pow256;
    Widths();
    PutGet(p[0..8]);
    PutGet(p[8..16]);
    assert p == p[0..8] + p[8..16] + p[16..];
  }

  /** decodeRecord yields an entry exactly on that entry's header and payload: every
      other pair of byte strings is rejected. */
  lemma DecodeRecordIff(crc: Checksum, hdr: Types.Bytes, p: Types.Bytes, e: Entry)
    ensures DecodeRecord(crc, hdr, p) == Ok(e) <==>
            Words(e) && p == Payload(e) && |hdr| >= REC_HEADER_LEN && hdr[..REC_HEADER_LEN] == RecordHeader(crc, p)
  {
    hide PutUint, GetUint, RecordHeader, Payload;
    if |hdr| >= REC_HEADER_LEN {
      var h := hdr[..REC_HEADER_LEN];
      assert hdr[0..4] == h[0..4] && hdr[4..8] == h[4..8];
      if DecodeRecord(crc, hdr, p) == Ok(e) {
        HeaderIsOne(crc, h, p);
        PayloadIsOne(p);
      } else if Words(e) && p == Payload(e) && h == RecordHeader(crc, p) {
        RecordDecodes(crc, e);
      }
    }
  }

  /** A payload changed under its header is rejected whenever the checksum tells. */
  lemma CorruptIsRejected(crc: Checksum, e: Entry, p: Types.Bytes)
    requires |p| == |Payload(e)| && crc(p) != crc(Payload(e))
    ensures DecodeRecord(crc, RecordHeader(crc, Payload(e)), p) == Err(BadChecksum)
  {
    hide PutUint, GetUint, Payload;
    HeaderParts(crc, Payload(e));
    Uint32Truncates(|Payload(e)|);
    Uint32RoundTrip(crc(Payload(e)));
  }

  // ---- segments ----------------------------------------------------------------------------------

  const SEG_HEADER_LEN: nat := 5

  /** "TRL1" and version 1. */
  const SEG_HEADER: Types.Bytes := [0x54, 0x52, 0x4C, 0x31, 1]

  function Records(crc: Checksum, es: seq<Entry>): Types.Bytes {
    if |es| == 0 then [] else Records(crc, es[..|es| - 1]) + Record(crc, es[|es| - 1])
  }

  /** The bytes of a segment that holds es. */
  function Image(crc: Checksum, es: seq<Entry>): Types.Bytes { SEG_HEADER + Records(crc, es) }

  predicate AllWords(es: seq<Entry>) { forall k :: 0 <= k < |es| ==> Words(es[k]) }

  predicate AllFit(es: seq<Entry>) { forall k :: 0 <= k < |es| ==> Fits(es[k]) }

  datatype ScanRec = ScanRec(term: nat, index: nat, dataLen: nat, offset: nat)

  /** Where the payload of the next record goes, and the record that describes it. */
  function RecAt(e: Entry, start: nat): ScanRec { ScanRec(e.term, e.index, |e.data|, start + REC_HEADER_LEN) }

  /** What a scan of Image(es) should find. */
  function RecsOf(crc: Checksum, es: seq<Entry>): (rs: seq<ScanRec>)
    ensures |rs| == |es|
  {
    if |es| == 0 then []
    else RecsOf(crc, es[..|es| - 1]) + [RecAt(es[|es| - 1], |Image(crc, es[..|es| - 1])|)]
  }

  /** The record at offset off, when all of it is there and it decodes. */
  function ReadRecord(crc: Checksum, file: Types.Bytes, off: nat): Option<Entry> {
    if off + REC_HEADER_LEN > |file| then None
    else
      var hdr := file[off..off + REC_HEADER_LEN];
      var len, start := GetUint(hdr[0..4]), off + REC_HEADER_LEN;
      if start + len > |file| then None
      else match DecodeRecord(crc, hdr, file[start..start + len])
           case Ok(e) => Some(e)
           case Err(_) => None
  }

  lemma ReadRecordLength(crc: Checksum, file: Types.Bytes, off: nat)
    requires ReadRecord(crc, file, off).Some?
    ensures var e := ReadRecord(crc, file, off).value;
            GetUint(file[off..off + REC_HEADER_LEN][0..4]) == PAYLOAD_FIXED_LEN + |e.data| &&
            off + REC_HEADER_LEN + PAYLOAD_FIXED_LEN + |e.data| <= |file|
  {
  }

  /** The records from offset off on, up to the first that is torn or corrupt, and
      the offset where they end. */
  function ScanFrom(crc: Checksum, file: Types.Bytes, off: nat): (r: (seq<ScanRec>, nat))
    decreases |file| - off
  {
    if off >= |file| then ([], off)
    else match ReadRecord(crc, file, off)
      case None => ([], off)
      case Some(e) =>
        ReadRecordLength(crc, file, off);
        var (rs, end) := ScanFrom(crc, file, off + REC_HEADER_LEN + PAYLOAD_FIXED_LEN + |e.data|);
        ([RecAt(e, off)] + rs, end)
  }
}
