/** The peer wire format: big-endian fields, the frame header and the host-location payload,
    as the C code writes them into a byte buffer, and as the independent Python peer packs
    them with `struct`.
 */
module PeerProtocol {
  import opened Basics
  import opened HostState

  const DAIM_PEER_PROTOCOL_VERSION: nat := 1
  const DAIM_PEER_HEADER_SIZE: nat := 30
  const DAIM_PEER_HOST_LOCATION_WIRE_SIZE: nat := 59
  const DAIM_PEER_MAX_PAYLOAD_SIZE: nat := 4096
  const DAIM_PEER_MAX_ERROR_TEXT: nat := 128

  // ---------- Big-endian numbers ----------

  function Pow256(k: nat): (p: nat)
    ensures p > 0
  {
    if k == 0 then 1 else 256 * Pow256(k - 1)
  }

  /** The low `width` bytes of `v`, most significant first. */
  function BigEndian(width: nat, v: nat): (bs: seq<byte>)
    ensures |bs| == width
  {
    if width == 0 then [] else BigEndian(width - 1, v / 256) + [v % 256]
  }

  function Value(bs: seq<byte>): (v: nat)
    ensures v < Pow256(|bs|)
    decreases |bs|
  {
    if bs == [] then 0 else 256 * Value(bs[..|bs| - 1]) + bs[|bs| - 1]
  }

  lemma {:induction false} ValueOfBigEndian(width: nat, v: nat)
    requires v < Pow256(width)
    ensures Value(BigEndian(width, v)) == v
  {
    if width > 0 {
      ValueOfBigEndian(width - 1, v / 256);
      assert BigEndian(width, v)[..width - 1] == BigEndian(width - 1, v / 256);
    }
  }

  lemma {:induction false} BigEndianOfValue(bs: seq<byte>)
    ensures BigEndian(|bs|, Value(bs)) == bs
    decreases |bs|
  {
    if bs != [] {
      BigEndianOfValue(bs[..|bs| - 1]);
      assert Value(bs) / 256 == Value(bs[..|bs| - 1]) && Value(bs) % 256 == bs[|bs| - 1];
    }
  }

  /** `v` shifted right by `count` whole bytes. */
  function ShiftRight(v: nat, count: nat): nat {
    if count == 0 then v else ShiftRight(v / 256, count - 1)
  }

  lemma {:induction false} ShiftedByte(width: nat, v: nat, k: nat)
    requires k < width
    ensures BigEndian(width, v)[k] == ShiftRight(v, width - 1 - k) % 256
  {
    if k < width - 1 {
      ShiftedByte(width - 1, v / 256, k);
    }
  }

  // ---------- struct.pack and struct.unpack ----------

  function Width(c: char): nat {
    match c
    case 'B' => 1
    case 'H' => 2
    case 'I' => 4
    case 'Q' => 8
    case _ => 0
  }

  function Size(fmt: string): nat {
    if fmt == "" then 0 else Width(fmt[0]) + Size(fmt[1..])
  }

  predicate Packable(fmt: string, values: seq<nat>) {
    |values| == |fmt| && forall i :: 0 <= i < |fmt| ==> values[i] < Pow256(Width(fmt[i]))
  }

  function Pack(fmt: string, values: seq<nat>): (bs: seq<byte>)
    requires |fmt| == |values|
    ensures |bs| == Size(fmt)
  {
    if fmt == "" then [] else BigEndian(Width(fmt[0]), values[0]) + Pack(fmt[1..], values[1..])
  }

  function Unpack(fmt: string, bs: seq<byte>): (values: seq<nat>)
    requires |bs| == Size(fmt)
    ensures |values| == |fmt| && Packable(fmt, values)
  {
    if fmt == "" then []
    else [Value(bs[..Width(fmt[0])])] + Unpack(fmt[1..], bs[Width(fmt[0])..])
  }

  lemma {:induction false} UnpackOfPack(fmt: string, values: seq<nat>)
    requires Packable(fmt, values)
    ensures Unpack(fmt, Pack(fmt, values)) == values
    decreases |fmt|
  {
    if fmt != "" {
      ValueOfBigEndian(Width(fmt[0]), values[0]);
      UnpackOfPack(fmt[1..], values[1..]);
      var bs := Pack(fmt, values);
      assert bs[..Width(fmt[0])] == BigEndian(Width(fmt[0]), values[0]);
      assert bs[Width(fmt[0])..] == Pack(fmt[1..], values[1..]);
    }
  }

  lemma {:induction false} PackOfUnpack(fmt: string, bs: seq<byte>)
    requires |bs| == Size(fmt)
    ensures Pack(fmt, Unpack(fmt, bs)) == bs
    decreases |fmt|
  {
    if fmt != "" {
      BigEndianOfValue(bs[..Width(fmt[0])]);
      PackOfUnpack(fmt[1..], bs[Width(fmt[0])..]);
      var values := Unpack(fmt, bs);
      assert values[1..] == Unpack(fmt[1..], bs[Width(fmt[0])..]);
    }
  }

  // ---------- The C helpers over a byte buffer ----------

  method PutU8(buf: array<byte>, off: nat, v: byte) returns (end: nat)
    requires off < buf.Length
    modifies buf
    ensures end == off + 1
    ensures buf[..end] == old(buf[..off]) + BigEndian(1, v)
    ensures forall k :: end <= k < buf.Length ==> buf[k] == old(buf[k])
  {
    assert BigEndian(1, v) == [v] by {
      assert BigEndian(0, v / 256) == [];
    }
    buf[off] := v;
    assert buf[..off + 1] == buf[..off] + [v];
    return off + 1;
  }

  method PutU16(buf: array<byte>, off: nat, v: nat) returns (end: nat)
    requires off + 2 <= buf.Length && v < Pow256(2)
    modifies buf
    ensures end == off + 2
    ensures buf[..end] == old(buf[..off]) + BigEndian(2, v)
    ensures forall k :: end <= k < buf.Length ==> buf[k] == old(buf[k])
  {
    ShiftedByte(2, v, 0);
    ShiftedByte(2, v, 1);
    buf[off] := v / 0x100 % 256;
    buf[off + 1] := v % 256;
    assert buf[off..off + 2] == BigEndian(2, v);
    return off + 2;
  }

  lemma {:induction false} FourShifts(v: nat)
    ensures BigEndian(4, v) == [v / 0x1_000000 % 256, v / 0x1_0000 % 256, v / 0x100 % 256, v % 256]
  {
    ShiftedByte(4, v, 0);
    ShiftedByte(4, v, 1);
    ShiftedByte(4, v, 2);
    ShiftedByte(4, v, 3);
    var x, y, z := v / 0x100, v / 0x1_0000, v / 0x1_000000;
    assert x / 256 == y && y / 256 == z;
    assert ShiftRight(y, 1) == z && ShiftRight(x, 1) == y;
    assert ShiftRight(x, 2) == z && ShiftRight(v, 1) == x;
    assert ShiftRight(v, 2) == y && ShiftRight(v, 3) == z;
  }

  method PutU32(buf: array<byte>, off: nat, v: nat) returns (end: nat)
    requires off + 4 <= buf.Length && v < Pow256(4)
    modifies buf
    ensures end == off + 4
    ensures buf[..end] == old(buf[..off]) + BigEndian(4, v)
    ensures forall k :: end <= k < buf.Length ==> buf[k] == old(buf[k])
  {
    FourShifts(v);
    hide BigEndian;
    buf[off] := v / 0x1_000000 % 256;
    buf[off + 1] := v / 0x1_0000 % 256;
    buf[off + 2] := v / 0x100 % 256;
    buf[off + 3] := v % 256;
    assert buf[off..off + 4] == BigEndian(4, v);
    return off + 4;
  }

  method PutU64(buf: array<byte>, off: nat, v: nat) returns (end: nat)
    requires off + 8 <= buf.Length && v < Pow256(8)
    modifies buf
    ensures end == off + 8
    ensures buf[..end] == old(buf[..off]) + BigEndian(8, v)
    ensures forall k :: end <= k < buf.Length ==> buf[k] == old(buf[k])
  {
    end := off;
    var shift := 56;
    while shift >= 0
      invariant -8 <= shift <= 56 && shift == 56 - 8 * (end - off)
      invariant buf[..off] == old(buf[..off]) && buf[off..end] == BigEndian(8, v)[..end - off]
      invariant forall k :: off + 8 <= k < buf.Length ==> buf[k] == old(buf[k])
    {
      ShiftedByte(8, v, end - off);
      ghost var done := buf[off..end];
      buf[end] := ShiftRight(v, shift / 8) % 256;
      end := end + 1;
      assert buf[off..end] == done + [BigEndian(8, v)[end - 1 - off]];
      shift := shift - 8;
    }
    assert buf[..end] == buf[..off] + buf[off..end];
  }

  lemma {:induction false} PowMonotone(i: nat, j: nat)
    requires i <= j
    ensures Pow256(i) <= Pow256(j)
    decreases j
  {
    if i < j {
      PowMonotone(i, j - 1);
    }
  }

  method GetU16(buf: array<byte>, off: nat) returns (v: nat, end: nat)
    requires off + 2 <= buf.Length
    ensures end == off + 2 && v == Value(buf[off..end])
  {
    var high: nat, low: nat := buf[off], buf[off + 1];
    v, end := high * 0x100 + low, off + 2;
    assert buf[off..end] == [high, low] && [high, low][..1] == [high];
  }

  lemma {:induction false} FourBytes(a: byte, b: byte, c: byte, d: byte)
    ensures var (x: nat, y: nat, z: nat) := (a, b, c);
      Value([a, b, c, d]) == x * 0x1_000000 + y * 0x1_0000 + z * 0x100 + d
  {
    assert [a, b, c, d][..3] == [a, b, c] && [a, b, c][..2] == [a, b] && [a, b][..1] == [a];
    var x: nat, y: nat := a, b;
    assert Value([a]) == a;
    assert Value([a, b]) == 0x100 * x + y;
  }

  method GetU32(buf: array<byte>, off: nat) returns (v: nat, end: nat)
    requires off + 4 <= buf.Length
    ensures end == off + 4 && v == Value(buf[off..end])
  {
    var a: nat, b: nat, c: nat, d: nat := buf[off], buf[off + 1], buf[off + 2], buf[off + 3];
    v := a * 0x1_000000 + b * 0x1_0000 + c * 0x100 + d;
    end := off + 4;
    FourBytes(a, b, c, d);
    assert buf[off..end] == [a, b, c, d];
  }

  lemma {:induction false} ShiftKeeps(v: nat, i: nat)
    requires v < Pow256(i) && i < 8
    ensures (v * 256) % Pow256(8) == v * 256
  {
  }

  lemma {:induction false} OneMoreByte(bs: seq<byte>, b: byte)
    ensures Value(bs + [b]) == Value(bs) * 256 + b
  {
  }

  /** The shift never loses a bit: only eight bytes are read. */
  method GetU64(buf: array<byte>, off: nat) returns (v: nat, end: nat)
    requires off + 8 <= buf.Length
    ensures end == off + 8 && v == Value(buf[off..end])
  {
    ghost var bs := buf[off..off + 8];
    v := 0;
    assert Value(bs[..0]) == 0;
    hide Pow256, Value;
    for i := 0 to 8
      invariant v == Value(bs[..i])
    {
      ShiftKeeps(v, i);
      OneMoreByte(bs[..i], bs[i]);
      assert bs[..i + 1] == bs[..i] + [bs[i]];
      v := (v * 256) % Pow256(8) + buf[off + i];
    }
    assert bs[..8] == bs;
    end := off + 8;
  }

  // ---------- The frame header ----------

  datatype Header = Header(version: byte, kind: byte, origin: nat, id: nat, length: nat, time: nat)

  predicate HeaderFits(h: Header) {
    h.origin < Pow256(8) && h.id < Pow256(8) && h.length < Pow256(4) && h.time < Pow256(8)
  }

  const HEADER_FMT: string := "BBQQIQ"

  function HeaderFields(h: Header): seq<nat> {
    [h.version, h.kind, h.origin, h.id, h.length, h.time]
  }

  /** struct.pack(_HEADER_FMT, ...). */
  function HeaderBytes(h: Header): seq<byte> {
    Pack(HEADER_FMT, HeaderFields(h))
  }

  /** One more field at the end of a format. */
  lemma {:induction false} PackSnoc(fmt: string, values: seq<nat>, c: char, v: nat)
    requires |fmt| == |values|
    ensures Size(fmt + [c]) == Size(fmt) + Width(c)
    ensures Pack(fmt + [c], values + [v]) == Pack(fmt, values) + BigEndian(Width(c), v)
    decreases |fmt|
  {
    var f, w := fmt + [c], values + [v];
    if fmt == "" {
      assert f == [c] && f[1..] == "" && w[0] == v;
    } else {
      PackSnoc(fmt[1..], values[1..], c, v);
      assert f[1..] == fmt[1..] + [c] && w[1..] == values[1..] + [v];
    }
  }

  /** Where field `k` starts. */
  function Offset(fmt: string, k: nat): nat
    requires k <= |fmt|
  {
    if k == 0 then 0 else Width(fmt[0]) + Offset(fmt[1..], k - 1)
  }

  lemma {:induction false} OffsetsFit(fmt: string, k: nat)
    requires k < |fmt|
    ensures Offset(fmt, k + 1) == Offset(fmt, k) + Width(fmt[k]) <= Size(fmt)
    ensures Offset(fmt, 0) == 0
    decreases k
  {
    if k > 0 {
      OffsetsFit(fmt[1..], k - 1);
    }
  }

  lemma {:induction false} OffsetOfEnd(fmt: string)
    ensures Offset(fmt, |fmt|) == Size(fmt)
    decreases |fmt|
  {
    if fmt != "" {
      OffsetOfEnd(fmt[1..]);
    }
  }

  /** Each unpacked field is the number at its place. */
  lemma {:induction false} FieldValue(fmt: string, bs: seq<byte>, k: nat)
    requires |bs| == Size(fmt) && k < |fmt|
    ensures Offset(fmt, k) + Width(fmt[k]) <= |bs| && |Unpack(fmt, bs)| == |fmt|
    ensures Unpack(fmt, bs)[k] == Value(bs[Offset(fmt, k)..Offset(fmt, k) + Width(fmt[k])])
    decreases k
  {
    hide Value, Packable, Pow256;
    OffsetsFit(fmt, k);
    if k > 0 {
      var w := Width(fmt[0]);
      FieldValue(fmt[1..], bs[w..], k - 1);
      SliceOfTail(bs, w, Offset(fmt[1..], k - 1), Width(fmt[k]));
    } else {
      assert bs[0..Width(fmt[0])] == bs[..Width(fmt[0])];
    }
  }

  lemma {:induction false} SliceOfTail(bs: seq<byte>, w: nat, at: nat, n: nat)
    requires w + at + n <= |bs|
    ensures bs[w..][at..at + n] == bs[w + at..w + at + n]
  {
  }

  /** `patched` is `bs` with the `w` bytes at `at` replaced by `mid`. */
  ghost predicate Patched(bs: seq<byte>, at: nat, w: nat, mid: seq<byte>, patched: seq<byte>) {
    at + w <= |bs| && patched == bs[..at] + mid + bs[at + w..]
  }

  lemma {:induction false} PatchedBehind(head: seq<byte>, tail: seq<byte>, at: nat, w: nat, mid: seq<byte>, patched: seq<byte>)
    requires Patched(tail, at, w, mid, patched)
    ensures Patched(head + tail, |head| + at, w, mid, head + patched)
  {
  }

  lemma {:induction false} PatchedFront(before: seq<byte>, tail: seq<byte>, mid: seq<byte>)
    ensures Patched(before + tail, 0, |before|, mid, mid + tail)
  {
  }

  /** Changing one field changes just its bytes. */
  lemma {:induction false} PackPatch(fmt: string, values: seq<nat>, k: nat, v: nat)
    requires |fmt| == |values| && k < |fmt|
    ensures Patched(Pack(fmt, values), Offset(fmt, k), Width(fmt[k]), BigEndian(Width(fmt[k]), v), Pack(fmt, values[k := v]))
    decreases k
  {
    var u := values[k := v];
    PackHead(fmt, values);
    PackHead(fmt, u);
    if k == 0 {
      hide Patched, Pack, Pow256;
      assert u[1..] == values[1..];
      PatchedFront(BigEndian(Width(fmt[0]), values[0]), Pack(fmt[1..], values[1..]), BigEndian(Width(fmt[0]), v));
    } else {
      OffsetHead(fmt, k);
      hide Patched, Pack, Pow256, Offset, BigEndian;
      assert u[1..] == values[1..][k - 1 := v] && u[0] == values[0];
      PackPatch(fmt[1..], values[1..], k - 1, v);
      PatchedBehind(BigEndian(Width(fmt[0]), values[0]), Pack(fmt[1..], values[1..]), Offset(fmt[1..], k - 1), Width(fmt[k]),
        BigEndian(Width(fmt[k]), v), Pack(fmt[1..], values[1..][k - 1 := v]));
    }
  }

  lemma {:induction false} PackHead(fmt: string, values: seq<nat>)
    requires |fmt| == |values| && fmt != ""
    ensures Pack(fmt, values) == BigEndian(Width(fmt[0]), values[0]) + Pack(fmt[1..], values[1..])
  {
  }

  lemma {:induction false} OffsetHead(fmt: string, k: nat)
    requires 0 < k <= |fmt|
    ensures Offset(fmt, k) == Width(fmt[0]) + Offset(fmt[1..], k - 1)
  {
  }

  lemma {:induction false} NothingPacked(fmt: string, values: seq<nat>)
    ensures Pack(fmt[..0], values[..0]) == []
  {
  }

  /** The k-th field, in terms of the format and values up to there. */
  lemma {:induction false} PackField(fmt: string, values: seq<nat>, k: nat)
    requires |fmt| == |values| && k < |fmt|
    ensures Pack(fmt[..k + 1], values[..k + 1]) == Pack(fmt[..k], values[..k]) + BigEndian(Width(fmt[k]), values[k])
  {
    PackSnoc(fmt[..k], values[..k], fmt[k], values[k]);
    assert fmt[..k + 1] == fmt[..k] + [fmt[k]] && values[..k + 1] == values[..k] + [values[k]];
  }

  /** `bs` holds the first `k` fields. */
  ghost predicate Filled(bs: seq<byte>, fmt: string, values: seq<nat>, k: nat) {
    |fmt| == |values| && k <= |fmt| && bs == Pack(fmt[..k], values[..k])
  }

  lemma {:induction false} FillStart(fmt: string, values: seq<nat>)
    requires |fmt| == |values|
    ensures Filled([], fmt, values, 0)
  {
  }

  lemma {:induction false} Fill(bs: seq<byte>, fmt: string, values: seq<nat>, k: nat)
    requires Filled(bs, fmt, values, k) && k < |fmt|
    ensures Filled(bs + BigEndian(Width(fmt[k]), values[k]), fmt, values, k + 1)
  {
    PackField(fmt, values, k);
  }

  lemma {:induction false} FillEnd(bs: seq<byte>, fmt: string, values: seq<nat>)
    requires Filled(bs, fmt, values, |fmt|)
    ensures bs == Pack(fmt, values)
  {
    assert fmt[..|fmt|] == fmt && values[..|fmt|] == values;
  }

  lemma {:induction false} ByteIs(b: byte)
    ensures BigEndian(1, b) == [b]
  {
    assert BigEndian(0, b / 256) == [];
  }

  lemma {:induction false} HeaderWidths()
    ensures |HEADER_FMT| == 6 && Width(HEADER_FMT[0]) == 1 && Width(HEADER_FMT[1]) == 1 && Width(HEADER_FMT[2]) == 8
    ensures Width(HEADER_FMT[3]) == 8 && Width(HEADER_FMT[4]) == 4 && Width(HEADER_FMT[5]) == 8
  {
  }

  /** The 30 bytes on the wire, in order. */
  lemma {:induction false} HeaderLayout(h: Header)
    ensures HeaderBytes(h) == [h.version] + [h.kind] + BigEndian(8, h.origin) + BigEndian(8, h.id) + BigEndian(4, h.length)
      + BigEndian(8, h.time)
  {
    var v, fmt := HeaderFields(h), HEADER_FMT;
    ByteIs(h.version);
    ByteIs(h.kind);
    FillStart(fmt, v);
    HeaderWidths();
    hide BigEndian, Pack, Filled, Size, Width;
    Fill([], fmt, v, 0);
    var bs: seq<byte> := [h.version];
    assert bs == [] + BigEndian(1, h.version);
    Fill(bs, fmt, v, 1);
    bs := bs + BigEndian(1, h.kind);
    Fill(bs, fmt, v, 2);
    bs := bs + BigEndian(8, h.origin);
    Fill(bs, fmt, v, 3);
    bs := bs + BigEndian(8, h.id);
    Fill(bs, fmt, v, 4);
    bs := bs + BigEndian(4, h.length);
    Fill(bs, fmt, v, 5);
    FillEnd(bs + BigEndian(8, h.time), fmt, v);
  }

  /** daim_peer_encode_header writes byte for byte what the Python peer packs. */
  method EncodeHeader(buf: array<byte>, hdr: Header)
    requires DAIM_PEER_HEADER_SIZE <= buf.Length && HeaderFits(hdr)
    modifies buf
    ensures buf[..DAIM_PEER_HEADER_SIZE] == HeaderBytes(hdr)
    ensures forall k :: DAIM_PEER_HEADER_SIZE <= k < buf.Length ==> buf[k] == old(buf[k])
  {
    ghost var v := HeaderFields(hdr);
    FormatSizes();
    FillStart(HEADER_FMT, v);
    hide BigEndian, Pack, Filled, Size;
    Fill([], HEADER_FMT, v, 0);
    var off := PutU8(buf, 0, hdr.version);
    assert buf[..off] == [] + BigEndian(1, hdr.version);
    Fill(buf[..off], HEADER_FMT, v, 1);
    off := PutU8(buf, off, hdr.kind);
    Fill(buf[..off], HEADER_FMT, v, 2);
    off := PutU64(buf, off, hdr.origin);
    Fill(buf[..off], HEADER_FMT, v, 3);
    off := PutU64(buf, off, hdr.id);
    Fill(buf[..off], HEADER_FMT, v, 4);
    off := PutU32(buf, off, hdr.length);
    Fill(buf[..off], HEADER_FMT, v, 5);
    off := PutU64(buf, off, hdr.time);
    FillEnd(buf[..off], HEADER_FMT, v);
  }

  /** Why a header is refused, with the code's return values. */
  datatype Parsed<T> = Accepted(value: T) | Rejected(code: int)

  /** What the Python peer unpacks from 30 bytes. */
  function HeaderOf(bs: seq<byte>): (h: Header)
    requires |bs| == DAIM_PEER_HEADER_SIZE
    ensures HeaderFits(h) && HeaderBytes(h) == bs
  {
    FormatSizes();
    PackOfUnpack(HEADER_FMT, bs);
    var v := Unpack(HEADER_FMT, bs);
    assert v[0] < Pow256(Width(HEADER_FMT[0])) && v[1] < Pow256(Width(HEADER_FMT[1]));
    assert v == [v[0], v[1], v[2], v[3], v[4], v[5]];
    Header(v[0], v[1], v[2], v[3], v[4], v[5])
  }

  lemma {:induction false} FormatSizes()
    ensures Size(HEADER_FMT) == DAIM_PEER_HEADER_SIZE
  {
  }

  /** Where each header field starts. */
  lemma {:induction false} HeaderOffsets()
    ensures Offset(HEADER_FMT, 0) == 0 && Offset(HEADER_FMT, 1) == 1 && Offset(HEADER_FMT, 2) == 2
    ensures Offset(HEADER_FMT, 3) == 10 && Offset(HEADER_FMT, 4) == 18 && Offset(HEADER_FMT, 5) == 22
  {
  }

  lemma {:induction false} HeaderFieldValues(bs: seq<byte>)
    requires |bs| == DAIM_PEER_HEADER_SIZE
    ensures HeaderOf(bs) == Header(bs[0], bs[1], Value(bs[2..10]), Value(bs[10..18]), Value(bs[18..22]), Value(bs[22..30]))
  {
    FormatSizes();
    HeaderOffsets();
    hide Unpack, Size, Value, Offset;
    FieldValue(HEADER_FMT, bs, 0);
    FieldValue(HEADER_FMT, bs, 1);
    FieldValue(HEADER_FMT, bs, 2);
    FieldValue(HEADER_FMT, bs, 3);
    FieldValue(HEADER_FMT, bs, 4);
    FieldValue(HEADER_FMT, bs, 5);
    OneByte(bs, 0);
    OneByte(bs, 1);
  }

  lemma {:induction false} OneByte(bs: seq<byte>, i: nat)
    requires i < |bs|
    ensures Value(bs[i..i + 1]) == bs[i]
  {
  }

  lemma {:induction false} HeaderOfBytes(h: Header)
    requires HeaderFits(h)
    ensures |HeaderBytes(h)| == DAIM_PEER_HEADER_SIZE && HeaderOf(HeaderBytes(h)) == h
  {
    FormatSizes();
    assert Packable(HEADER_FMT, HeaderFields(h)) by {
      assert Pow256(1) == 256;
    }
    UnpackOfPack(HEADER_FMT, HeaderFields(h));
  }

  /** The specification of daim_peer_decode_header. */
  function ParseHeader(bs: seq<byte>): Parsed<Header> {
    if |bs| < DAIM_PEER_HEADER_SIZE then Rejected(-1)
    else
      var h := HeaderOf(bs[..DAIM_PEER_HEADER_SIZE]);
      if h.version != DAIM_PEER_PROTOCOL_VERSION then Rejected(-1)
      else if h.length > DAIM_PEER_MAX_PAYLOAD_SIZE then Rejected(-2)
      else Accepted(h)
  }

  /** daim_peer_decode_header. The fields are already written when the length is refused. */
  method DecodeHeader(buf: array<byte>, len: nat) returns (code: int, out: Header)
    requires len <= buf.Length
    ensures code == match ParseHeader(buf[..len]) case Accepted(_) => 0 case Rejected(c) => c
    ensures ParseHeader(buf[..len]).Accepted? ==> out == ParseHeader(buf[..len]).value
    ensures code == if len < 30 || buf[0] != 1 then -1 else if Value(buf[18..22]) > 4096 then -2 else 0
    ensures code == 0 ==>
      out == Header(buf[0], buf[1], Value(buf[2..10]), Value(buf[10..18]), Value(buf[18..22]), Value(buf[22..30]))
  {
    out := Header(0, 0, 0, 0, 0, 0);
    if len < DAIM_PEER_HEADER_SIZE {
      return -1, out;
    }
    ghost var bs := buf[..len][..DAIM_PEER_HEADER_SIZE];
    HeaderFieldValues(bs);
    assert bs == buf[..DAIM_PEER_HEADER_SIZE];
    out := out.(version := buf[0]);
    if out.version != DAIM_PEER_PROTOCOL_VERSION {
      return -1, out;
    }
    var kind := buf[1];
    var origin, off := GetU64(buf, 2);
    var id, length, time;
    id, off := GetU64(buf, off);
    length, off := GetU32(buf, off);
    time, off := GetU64(buf, off);
    assert bs[2..10] == buf[2..10] && bs[10..18] == buf[10..18] && bs[18..22] == buf[18..22] && bs[22..30] == buf[22..30];
    out := Header(out.version, kind, origin, id, length, time);
    code := if out.length > DAIM_PEER_MAX_PAYLOAD_SIZE then -2 else 0;
  }

  /** Decoding inverts encoding, whatever follows the header in the buffer. */
  lemma {:induction false} HeaderRoundTrip(h: Header, rest: seq<byte>)
    requires HeaderFits(h)
    ensures ParseHeader(HeaderBytes(h) + rest) ==
      if h.version != DAIM_PEER_PROTOCOL_VERSION then Rejected(-1)
      else if h.length > DAIM_PEER_MAX_PAYLOAD_SIZE then Rejected(-2)
      else Accepted(h)
  {
    HeaderOfBytes(h);
    assert (HeaderBytes(h) + rest)[..DAIM_PEER_HEADER_SIZE] == HeaderBytes(h);
  }

  /** Encoding an accepted header again gives the same bytes. */
  lemma {:induction false} HeaderReencodes(bs: seq<byte>)
    requires ParseHeader(bs).Accepted?
    ensures HeaderFits(ParseHeader(bs).value) && HeaderBytes(ParseHeader(bs).value) == bs[..DAIM_PEER_HEADER_SIZE]
  {
  }

  // ---------- The host-location payload ----------

  const LOC_TAIL_FMT: string := "QQIQQBQQ"

  predicate LocationFits(l: Location) {
    && l.origin < Pow256(8) && l.dpid < Pow256(8) && l.port < Pow256(4) && l.epoch < Pow256(8)
    && l.sequence < Pow256(8) && l.learnedAt < Pow256(8) && l.appliedAt < Pow256(8)
  }

  function MacBytes(m: Mac): seq<byte> {
    [m.b0, m.b1, m.b2, m.b3, m.b4, m.b5]
  }

  function TailFields(l: Location, isLocal: byte): seq<nat> {
    [l.origin, l.dpid, l.port, l.epoch, l.sequence, isLocal, l.learnedAt, l.appliedAt]
  }

  /** The payload with the flag byte as it is held. */
  function LocationBytes(l: Location): seq<byte> {
    MacBytes(l.mac) + Pack(LOC_TAIL_FMT, TailFields(l, l.isLocal))
  }

  /** encode_host_location: the Python peer writes the flag as 0 or 1. */
  function PythonLocationBytes(l: Location): seq<byte> {
    MacBytes(l.mac) + Pack(LOC_TAIL_FMT, TailFields(l, if l.isLocal != 0 then 1 else 0))
  }

  /** The 59 bytes on the wire, in order. */
  lemma {:induction false} LocationLayout(l: Location)
    ensures LocationBytes(l) == [l.mac.b0, l.mac.b1, l.mac.b2, l.mac.b3, l.mac.b4, l.mac.b5]
      + (BigEndian(8, l.origin) + BigEndian(8, l.dpid) + BigEndian(4, l.port) + BigEndian(8, l.epoch) + BigEndian(8, l.sequence)
        + [l.isLocal] + BigEndian(8, l.learnedAt) + BigEndian(8, l.appliedAt))
  {
    var v, fmt := TailFields(l, l.isLocal), LOC_TAIL_FMT;
    ByteIs(l.isLocal);
    FillStart(fmt, v);
    hide BigEndian, Pack, Filled, Size;
    Fill([], fmt, v, 0);
    var bs := [] + BigEndian(8, l.origin);
    assert bs == BigEndian(8, l.origin);
    Fill(bs, fmt, v, 1);
    bs := bs + BigEndian(8, l.dpid);
    Fill(bs, fmt, v, 2);
    bs := bs + BigEndian(4, l.port);
    Fill(bs, fmt, v, 3);
    bs := bs + BigEndian(8, l.epoch);
    Fill(bs, fmt, v, 4);
    bs := bs + BigEndian(8, l.sequence);
    Fill(bs, fmt, v, 5);
    bs := bs + BigEndian(1, l.isLocal);
    Fill(bs, fmt, v, 6);
    bs := bs + BigEndian(8, l.learnedAt);
    Fill(bs, fmt, v, 7);
    FillEnd(bs + BigEndian(8, l.appliedAt), fmt, v);
  }

  lemma {:induction false} TailSize()
    ensures Size(LOC_TAIL_FMT) == DAIM_PEER_HOST_LOCATION_WIRE_SIZE - 6
  {
  }

  /** Where tail field `k` stands in the payload, and its width. */
  function TailPlace(k: nat): (nat, nat)
    requires k < 8
  {
    if k < 2 then (6 + 8 * k, 8) else if k == 2 then (22, 4) else if k < 5 then (26 + 8 * (k - 3), 8)
    else if k == 5 then (42, 1) else (43 + 8 * (k - 6), 8)
  }

  lemma {:induction false} TailOffsets()
    ensures Offset(LOC_TAIL_FMT, 0) == 0 && Offset(LOC_TAIL_FMT, 1) == 8 && Offset(LOC_TAIL_FMT, 2) == 16
    ensures Offset(LOC_TAIL_FMT, 3) == 20 && Offset(LOC_TAIL_FMT, 4) == 28 && Offset(LOC_TAIL_FMT, 5) == 36
    ensures Offset(LOC_TAIL_FMT, 6) == 37 && Offset(LOC_TAIL_FMT, 7) == 45
  {
  }

  lemma {:induction false} TailWidth(k: nat)
    requires k < 8
    ensures Width(LOC_TAIL_FMT[k]) == TailPlace(k).1
  {
  }

  lemma {:induction false} TailPlaceIs(k: nat)
    requires k < 8
    ensures (Offset(LOC_TAIL_FMT, k) + 6, Width(LOC_TAIL_FMT[k])) == TailPlace(k)
  {
    TailWidth(k);
    TailOffsets();
    hide Offset, Width;
  }

  /** The bytes written once `k` tail fields are. */
  ghost function LocationPrefix(l: Location, k: nat): seq<byte>
    requires k <= 8
  {
    MacBytes(l.mac) + Pack(LOC_TAIL_FMT[..k], TailFields(l, l.isLocal)[..k])
  }

  lemma {:induction false} PrefixGrows(l: Location, k: nat)
    requires k < 8
    ensures LocationPrefix(l, k + 1) == LocationPrefix(l, k) + BigEndian(Width(LOC_TAIL_FMT[k]), TailFields(l, l.isLocal)[k])
    ensures LocationPrefix(l, 0) == MacBytes(l.mac) && LocationPrefix(l, 8) == LocationBytes(l)
  {
    PackField(LOC_TAIL_FMT, TailFields(l, l.isLocal), k);
    NothingPacked(LOC_TAIL_FMT, TailFields(l, l.isLocal));
    assert LOC_TAIL_FMT[..8] == LOC_TAIL_FMT && TailFields(l, l.isLocal)[..8] == TailFields(l, l.isLocal);
  }

  /** daim_peer_encode_host_location. */
  method EncodeHostLocation(buf: array<byte>, loc: Location)
    requires DAIM_PEER_HOST_LOCATION_WIRE_SIZE <= buf.Length && LocationFits(loc)
    modifies buf
    ensures buf[..DAIM_PEER_HOST_LOCATION_WIRE_SIZE] == LocationBytes(loc)
    ensures forall k :: DAIM_PEER_HOST_LOCATION_WIRE_SIZE <= k < buf.Length ==> buf[k] == old(buf[k])
  {
    hide BigEndian, LocationPrefix, LocationBytes;
    buf[0], buf[1], buf[2], buf[3], buf[4], buf[5] := loc.mac.b0, loc.mac.b1, loc.mac.b2, loc.mac.b3, loc.mac.b4, loc.mac.b5;
    PrefixGrows(loc, 0);
    assert buf[..6] == LocationPrefix(loc, 0);
    var off := PutU64(buf, 6, loc.origin);
    PrefixGrows(loc, 1);
    off := PutU64(buf, off, loc.dpid);
    PrefixGrows(loc, 2);
    off := PutU32(buf, off, loc.port);
    PrefixGrows(loc, 3);
    off := PutU64(buf, off, loc.epoch);
    PrefixGrows(loc, 4);
    off := PutU64(buf, off, loc.sequence);
    PrefixGrows(loc, 5);
    off := PutU8(buf, off, loc.isLocal);
    PrefixGrows(loc, 6);
    off := PutU64(buf, off, loc.learnedAt);
    PrefixGrows(loc, 7);
    off := PutU64(buf, off, loc.appliedAt);
  }

  /** What the 59 bytes say. */
  function LocationOf(bs: seq<byte>): Location
    requires |bs| == DAIM_PEER_HOST_LOCATION_WIRE_SIZE
  {
    Location(Mac(bs[0], bs[1], bs[2], bs[3], bs[4], bs[5]),
      Value(bs[6..14]), Value(bs[14..22]), Value(bs[22..26]), Value(bs[26..34]), Value(bs[34..42]),
      bs[42], Value(bs[43..51]), Value(bs[51..59]))
  }

  lemma {:induction false} TailValue(bs: seq<byte>, k: nat)
    requires |bs| == DAIM_PEER_HOST_LOCATION_WIRE_SIZE && k < 8
    ensures Size(LOC_TAIL_FMT) == |bs[6..]| && |Unpack(LOC_TAIL_FMT, bs[6..])| == 8
    ensures var (at, w) := (Offset(LOC_TAIL_FMT, k) + 6, Width(LOC_TAIL_FMT[k]));
      at + w <= |bs| && Unpack(LOC_TAIL_FMT, bs[6..])[k] == Value(bs[at..at + w])
  {
    hide Unpack, Offset, Size, Value, Packable;
    TailSize();
    FieldValue(LOC_TAIL_FMT, bs[6..], k);
    SliceOfTail(bs, 6, Offset(LOC_TAIL_FMT, k), Width(LOC_TAIL_FMT[k]));
  }

  lemma {:induction false} TailFieldIs(bs: seq<byte>, k: nat)
    requires |bs| == DAIM_PEER_HOST_LOCATION_WIRE_SIZE && k < 8 && |bs[6..]| == Size(LOC_TAIL_FMT)
    ensures TailFields(LocationOf(bs), bs[42])[k] == Unpack(LOC_TAIL_FMT, bs[6..])[k]
  {
    TailValue(bs, k);
    TailPlaceIs(k);
    hide Unpack, Offset, Size, Value, Packable, Pow256, LocationOf, TailFields, Width;
    FieldAtPlace(bs, k);
  }

  lemma {:induction false} FieldAtPlace(bs: seq<byte>, k: nat)
    requires |bs| == DAIM_PEER_HOST_LOCATION_WIRE_SIZE && k < 8
    ensures TailPlace(k).0 + TailPlace(k).1 <= |bs|
    ensures TailFields(LocationOf(bs), bs[42])[k] == Value(bs[TailPlace(k).0..TailPlace(k).0 + TailPlace(k).1])
  {
    OneByte(bs, 42);
    hide Value;
  }

  lemma {:induction false} LocationFieldsFit(bs: seq<byte>)
    requires |bs| == DAIM_PEER_HOST_LOCATION_WIRE_SIZE
    ensures LocationFits(LocationOf(bs))
  {
  }

  /** The struct format and the fixed offsets of the C code describe the same payload. */
  lemma {:induction false} LocationBytesOf(bs: seq<byte>)
    requires |bs| == DAIM_PEER_HOST_LOCATION_WIRE_SIZE
    ensures LocationBytes(LocationOf(bs)) == bs
  {
    TailSize();
    hide Unpack, Pack, Offset, Size, Value;
    forall k: nat | k < 8 ensures TailFields(LocationOf(bs), bs[42])[k] == Unpack(LOC_TAIL_FMT, bs[6..])[k] {
      TailFieldIs(bs, k);
    }
    assert TailFields(LocationOf(bs), bs[42]) == Unpack(LOC_TAIL_FMT, bs[6..]);
    PackOfUnpack(LOC_TAIL_FMT, bs[6..]);
    assert bs == bs[..6] + bs[6..] && bs[..6] == [bs[0], bs[1], bs[2], bs[3], bs[4], bs[5]];
  }

  /** The specification of daim_peer_decode_host_location. */
  function ParseLocation(bs: seq<byte>): Option<Location> {
    if |bs| != DAIM_PEER_HOST_LOCATION_WIRE_SIZE then None else Some(LocationOf(bs))
  }

  /** decode_host_location reads the first 59 bytes of a longer payload, and the flag as a bool. */
  function PythonParseLocation(bs: seq<byte>): Option<Location> {
    if |bs| < DAIM_PEER_HOST_LOCATION_WIRE_SIZE then None
    else
      var l := LocationOf(bs[..DAIM_PEER_HOST_LOCATION_WIRE_SIZE]);
      Some(l.(isLocal := if l.isLocal != 0 then 1 else 0))
  }

  /** daim_peer_decode_host_location. */
  method DecodeHostLocation(buf: array<byte>, len: nat) returns (code: int, out: Location)
    requires len <= buf.Length
    ensures code == if ParseLocation(buf[..len]).Some? then 0 else -1
    ensures ParseLocation(buf[..len]).Some? ==> out == ParseLocation(buf[..len]).value
  {
    if len != DAIM_PEER_HOST_LOCATION_WIRE_SIZE {
      return -1, Location(Mac(0, 0, 0, 0, 0, 0), 0, 0, 0, 0, 0, 0, 0, 0);
    }
    ghost var bs := buf[..len];
    hide Value, Pow256;
    var mac := Mac(buf[0], buf[1], buf[2], buf[3], buf[4], buf[5]);
    var origin, off := GetU64(buf, 6);
    var dpid, port, epoch, sequence, learnedAt, appliedAt;
    dpid, off := GetU64(buf, off);
    port, off := GetU32(buf, off);
    epoch, off := GetU64(buf, off);
    sequence, off := GetU64(buf, off);
    var isLocal := buf[off];
    learnedAt, off := GetU64(buf, off + 1);
    appliedAt, off := GetU64(buf, off);
    assert bs[6..14] == buf[6..14] && bs[14..22] == buf[14..22] && bs[22..26] == buf[22..26] && bs[26..34] == buf[26..34];
    assert bs[34..42] == buf[34..42] && bs[43..51] == buf[43..51] && bs[51..59] == buf[51..59];
    return 0, Location(mac, origin, dpid, port, epoch, sequence, isLocal, learnedAt, appliedAt);
  }

  /** Decoding inverts encoding on every record that fits the wire. */
  lemma {:induction false} LocationRoundTrip(l: Location)
    requires LocationFits(l)
    ensures ParseLocation(LocationBytes(l)) == Some(l)
  {
    TailSize();
    var fields, bs := TailFields(l, l.isLocal), LocationBytes(l);
    assert Packable(LOC_TAIL_FMT, fields) by {
      assert Pow256(1) == 256;
    }
    assert bs[6..] == Pack(LOC_TAIL_FMT, fields);
    UnpackOfPack(LOC_TAIL_FMT, fields);
    hide Unpack, Pack, Offset, Size, Value;
    TailFieldIs(bs, 0);
    TailFieldIs(bs, 1);
    TailFieldIs(bs, 2);
    TailFieldIs(bs, 3);
    TailFieldIs(bs, 4);
    TailFieldIs(bs, 5);
    TailFieldIs(bs, 6);
    TailFieldIs(bs, 7);
  }

  /** Encoding an accepted payload again gives the same bytes. */
  lemma {:induction false} LocationReencodes(bs: seq<byte>)
    requires ParseLocation(bs).Some?
    ensures LocationFits(ParseLocation(bs).value) && LocationBytes(ParseLocation(bs).value) == bs
  {
    LocationFieldsFit(bs);
    LocationBytesOf(bs);
  }

  /** The two encoders agree byte for byte exactly on records whose flag is 0 or 1. */
  lemma {:induction false} EncodersAgree(l: Location)
    requires LocationFits(l)
    ensures PythonLocationBytes(l) == LocationBytes(l) <==> l.isLocal <= 1
    ensures PythonLocationBytes(l) == LocationBytes(l.(isLocal := if l.isLocal != 0 then 1 else 0))
  {
    var flag: byte := if l.isLocal != 0 then 1 else 0;
    LocationRoundTrip(l);
    LocationRoundTrip(l.(isLocal := flag));
  }

  /** Whatever the C decoder accepts the Python decoder accepts; they read the same record exactly
      from a payload of the right length with a flag of 0 or 1, and refuse together exactly those
      too short for either. */
  lemma {:induction false} DecodersAgree(bs: seq<byte>)
    ensures ParseLocation(bs).Some? ==> PythonParseLocation(bs).Some?
    ensures ParseLocation(bs) == PythonParseLocation(bs) <==>
      |bs| < DAIM_PEER_HOST_LOCATION_WIRE_SIZE || (|bs| == DAIM_PEER_HOST_LOCATION_WIRE_SIZE && bs[42] <= 1)
  {
    if |bs| == DAIM_PEER_HOST_LOCATION_WIRE_SIZE {
      assert bs[..DAIM_PEER_HOST_LOCATION_WIRE_SIZE] == bs;
    }
  }

  // ---------- Payloads of one number ----------

  /** A payload that must be exactly `width` bytes: HELLO and ACK with 8, SNAPSHOT_BEGIN with 4. */
  function ParseNumber(bs: seq<byte>, width: nat): Option<nat> {
    if |bs| != width then None else Some(Value(bs))
  }

  /** Decoding inverts encoding, and every accepted payload encodes back to itself. */
  lemma {:induction false} NumberRoundTrip(width: nat, v: nat, bs: seq<byte>)
    ensures v < Pow256(width) ==> ParseNumber(BigEndian(width, v), width) == Some(v)
    ensures ParseNumber(bs, width).Some? ==> BigEndian(width, ParseNumber(bs, width).value) == bs
  {
    if v < Pow256(width) {
      ValueOfBigEndian(width, v);
    }
    BigEndianOfValue(bs);
  }

  /** daim_peer_encode_hello; daim_peer_encode_ack writes its number the same way. */
  method EncodeHello(buf: array<byte>, epoch: nat)
    requires 8 <= buf.Length && epoch < Pow256(8)
    modifies buf
    ensures buf[..8] == BigEndian(8, epoch)
    ensures forall k :: 8 <= k < buf.Length ==> buf[k] == old(buf[k])
  {
    hide BigEndian, Pow256;
    var _ := PutU64(buf, 0, epoch);
  }

  /** daim_peer_decode_hello and daim_peer_decode_ack: any other length is refused. */
  method DecodeHello(buf: array<byte>, len: nat) returns (code: int, epoch: nat)
    requires len <= buf.Length
    ensures code == if ParseNumber(buf[..len], 8).Some? then 0 else -1
    ensures ParseNumber(buf[..len], 8).Some? ==> ParseNumber(buf[..len], 8) == Some(epoch)
  {
    if len != 8 {
      return -1, 0;
    }
    hide Value;
    var off;
    code := 0;
    epoch, off := GetU64(buf, 0);
    assert buf[0..8] == buf[..8];
  }

  /** daim_peer_encode_snapshot_begin. */
  method EncodeSnapshotBegin(buf: array<byte>, count: nat)
    requires 4 <= buf.Length && count < Pow256(4)
    modifies buf
    ensures buf[..4] == BigEndian(4, count)
    ensures forall k :: 4 <= k < buf.Length ==> buf[k] == old(buf[k])
  {
    hide BigEndian, Pow256;
    var _ := PutU32(buf, 0, count);
  }

  /** daim_peer_decode_snapshot_begin. */
  method DecodeSnapshotBegin(buf: array<byte>, len: nat) returns (code: int, count: nat)
    requires len <= buf.Length
    ensures code == if ParseNumber(buf[..len], 4).Some? then 0 else -1
    ensures ParseNumber(buf[..len], 4).Some? ==> ParseNumber(buf[..len], 4) == Some(count)
  {
    if len != 4 {
      return -1, 0;
    }
    hide Value;
    var off;
    code := 0;
    count, off := GetU32(buf, 0);
    assert buf[0..4] == buf[..4];
  }

  // ---------- The error payload ----------

  function ErrorBytes(code: nat, text: seq<byte>): seq<byte> {
    BigEndian(2, code) + BigEndian(2, |text|) + text
  }

  /** daim_peer_decode_error into a buffer of `cap` characters, one of them for the NUL. The
      reader does not know the writer's limit on the text; it only cuts to its own. */
  function ParseError(bs: seq<byte>, cap: nat): Option<(nat, seq<byte>)> {
    if |bs| < 4 || cap == 0 then None
    else
      var n := Value(bs[2..4]);
      if |bs| < 4 + n then None
      else Some((Value(bs[..2]), bs[4..4 + if n < cap - 1 then n else cap - 1]))
  }

  /** daim_peer_encode_error: 0 when the text is too long for the format or for the buffer. */
  method EncodeError(buf: array<byte>, code: nat, text: seq<byte>) returns (n: nat)
    requires code < Pow256(2)
    modifies buf
    ensures n == if |text| <= 128 && 4 + |text| <= buf.Length then 4 + |text| else 0
    ensures n > 0 ==> buf[..n] == ErrorBytes(code, text)
    ensures n == 0 ==> buf[..] == old(buf[..])
  {
    if |text| > DAIM_PEER_MAX_ERROR_TEXT || buf.Length < 4 + |text| {
      return 0;
    }
    assert Pow256(2) == 0x1_0000;
    hide BigEndian, Pow256;
    var off := PutU16(buf, 0, code);
    off := PutU16(buf, off, |text|);
    ghost var head := buf[..off];
    for i := 0 to |text|
      invariant buf[..off] == head && buf[off..off + i] == text[..i]
    {
      buf[off + i] := text[i];
      assert buf[off..off + i + 1] == text[..i] + [text[i]];
    }
    n := off + |text|;
    assert text[..|text|] == text && buf[..n] == buf[..off] + buf[off..n];
  }

  lemma {:induction false} SliceOfPrefix(s: seq<byte>, len: nat, from: nat, to: nat)
    requires from <= to <= len <= |s|
    ensures s[..len][from..to] == s[from..to]
  {
  }

  method DecodeError(buf: array<byte>, len: nat, cap: nat) returns (rc: int, code: nat, text: seq<byte>)
    requires len <= buf.Length
    ensures rc == if ParseError(buf[..len], cap).Some? then 0 else -1
    ensures rc == 0 ==> ParseError(buf[..len], cap) == Some((code, text))
  {
    if len < 4 || cap == 0 {
      return -1, 0, [];
    }
    ghost var bs := buf[..len];
    hide Value, Pow256;
    var off;
    code, off := GetU16(buf, 0);
    var textLen;
    textLen, off := GetU16(buf, off);
    assert bs[..2] == buf[0..2] && bs[2..4] == buf[2..4];
    assert code == Value(bs[..2]) && textLen == Value(bs[2..4]);
    if len < 4 + textLen {
      return -1, code, [];
    }
    var copyLen := if textLen < cap - 1 then textLen else cap - 1;
    SliceOfPrefix(buf[..], len, 4, 4 + copyLen);
    assert buf[..][..len] == bs;
    return 0, code, buf[4..4 + copyLen];
  }

  lemma {:induction false} ErrorRoundTrip(code: nat, text: seq<byte>, rest: seq<byte>, cap: nat)
    requires code < Pow256(2) && |text| <= 128 && cap > 0
    ensures ParseError(ErrorBytes(code, text) + rest, cap) == Some((code, if |text| < cap then text else text[..cap - 1]))
  {
    assert Pow256(2) == 0x1_0000;
    ValueOfBigEndian(2, code);
    ValueOfBigEndian(2, |text|);
    hide BigEndian, Value, Pow256;
    var bs := ErrorBytes(code, text) + rest;
    var n := if |text| < cap - 1 then |text| else cap - 1;
    assert bs[..2] == BigEndian(2, code) && bs[2..4] == BigEndian(2, |text|);
    assert bs[4..4 + n] == text[..n];
  }
}
