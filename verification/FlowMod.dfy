/** The OpenFlow 1.3 Flow-Mod message: building it into a buffer with length fields filled in
    afterwards, and an independent reading of the same bytes.
 */
module FlowMod {
  import opened Basics
  import opened FlowString
  import opened HostState
  import opened PeerProtocol

  const OFP_VERSION_13: nat := 4
  const OFPT_FLOW_MOD: nat := 14
  const OFPFC_ADD: byte := 0
  const OFPFC_DELETE: byte := 3
  const ALL_ONES: nat := 0xffffffff
  const OFPMT_OXM: nat := 1
  const OXM_IN_PORT: nat := 0x80000004
  const OXM_ETH_DST: nat := 0x80000606
  const OXM_ETH_TYPE: nat := 0x80000a02
  const ETH_TYPE_IPV4: nat := 0x0800
  const OFPIT_APPLY_ACTIONS: nat := 4
  const OFPAT_OUTPUT: nat := 0
  const OFPCML_NO_BUFFER: nat := 0xffff

  const MATCH_BUFFER: nat := 128
  const ACTION_BUFFER: nat := 64
  const MESSAGE_BUFFER: nat := 256

  function Pad8(len: nat): (p: nat)
    ensures len <= p < len + 8 && p % 8 == 0
  {
    (len + 7) / 8 * 8
  }

  function Zeros(n: nat): seq<byte> {
    seq(n, _ => 0)
  }

  // ---------- What the bytes are to be ----------

  function InPortTlv(f: ParsedFlow): seq<byte> {
    if f.hasInPort then BigEndian(4, OXM_IN_PORT) + BigEndian(4, f.inPort) else []
  }

  function EthDstTlv(f: ParsedFlow): seq<byte> {
    if f.hasDlDst then BigEndian(4, OXM_ETH_DST) + MacBytes(f.dlDst) else []
  }

  function EthTypeTlv(f: ParsedFlow): seq<byte> {
    if f.hasIp then BigEndian(4, OXM_ETH_TYPE) + BigEndian(2, ETH_TYPE_IPV4) else []
  }

  function OxmBytes(f: ParsedFlow): (bs: seq<byte>)
    ensures |bs| == (if f.hasInPort then 8 else 0) + (if f.hasDlDst then 10 else 0) + (if f.hasIp then 6 else 0)
  {
    InPortTlv(f) + EthDstTlv(f) + EthTypeTlv(f)
  }

  function MatchBytes(f: ParsedFlow): (bs: seq<byte>)
    ensures |bs| == Pad8(4 + |OxmBytes(f)|)
  {
    var len := 4 + |OxmBytes(f)|;
    BigEndian(2, OFPMT_OXM) + BigEndian(2, len) + OxmBytes(f) + Zeros(Pad8(len) - len)
  }

  function ActionFmt(): string {
    "HHIHHIHHI"
  }

  function ActionFields(f: ParsedFlow): seq<nat> {
    [OFPIT_APPLY_ACTIONS, 24, 0, OFPAT_OUTPUT, 16, f.outputPort, OFPCML_NO_BUFFER, 0, 0]
  }

  function ActionBytes(f: ParsedFlow): seq<byte> {
    if f.hasOutput then Pack(ActionFmt(), ActionFields(f)) else []
  }

  function FixedFmt(): string {
    "BBHIQQBBHHHIIIHH"
  }

  function FixedFields(xid: nat, command: byte, f: ParsedFlow, length: nat): seq<nat> {
    [OFP_VERSION_13, OFPT_FLOW_MOD, length, xid, 0, 0, 0, command, 0, 0, if f.hasPriority then f.priority else 0,
     ALL_ONES, ALL_ONES, ALL_ONES, 0, 0]
  }

  function BodyBytes(command: byte, f: ParsedFlow): seq<byte> {
    MatchBytes(f) + if command == OFPFC_ADD then ActionBytes(f) else []
  }

  function FlowModBytes(xid: nat, command: byte, f: ParsedFlow): seq<byte> {
    Pack(FixedFmt(), FixedFields(xid, command, f, 48 + |BodyBytes(command, f)|)) + BodyBytes(command, f)
  }

  // ---------- Reading a Flow-Mod ----------

  datatype Match = Match(inPort: Option<nat>, ethDst: Option<Mac>, ethType: Option<nat>)

  datatype Reading = Reading(xid: nat, command: nat, priority: nat, match_: Match, output: Option<nat>)

  /** The OXM fields one after the other; unknown or cut-off ones are refused. */
  function ReadOxms(bs: seq<byte>, m: Match): Option<Match>
    decreases |bs|
  {
    if bs == [] then Some(m)
    else if |bs| < 4 then None
    else
      var header := Value(bs[..4]);
      var size := header % 256;
      if |bs| < 4 + size then None
      else
        var body := bs[4..4 + size];
        var rest := bs[4 + size..];
        if header == OXM_IN_PORT then ReadOxms(rest, m.(inPort := Some(Value(body))))
        else if header == OXM_ETH_DST then
          ReadOxms(rest, m.(ethDst := Some(Mac(body[0], body[1], body[2], body[3], body[4], body[5]))))
        else if header == OXM_ETH_TYPE then ReadOxms(rest, m.(ethType := Some(Value(body))))
        else None
  }

  /** The match, and what follows its padding. */
  function ReadMatch(bs: seq<byte>): Option<(Match, seq<byte>)> {
    if |bs| < 4 || Value(bs[..2]) != OFPMT_OXM then None
    else
      var len := Value(bs[2..4]);
      if len < 4 || |bs| < Pad8(len) then None
      else
        match ReadOxms(bs[4..len], Match(None, None, None))
        case None => None
        case Some(m) => Some((m, bs[Pad8(len)..]))
  }

  /** No instruction, or one apply-actions instruction with one output action. */
  function ReadActions(bs: seq<byte>): Option<Option<nat>> {
    if bs == [] then Some(None)
    else if |bs| != Size(ActionFmt()) then None
    else
      var v := Unpack(ActionFmt(), bs);
      if v[0] == OFPIT_APPLY_ACTIONS && v[1] == |bs| && v[3] == OFPAT_OUTPUT && v[4] == |bs| - 8 then Some(Some(v[5])) else None
  }

  /** The fixed part's fields, then the match and the instructions behind it. */
  function ReadParts(v: seq<nat>, total: nat, body: seq<byte>): Option<Reading>
    requires |v| == 16
  {
    if v[0] != OFP_VERSION_13 || v[1] != OFPT_FLOW_MOD || v[2] != total then None
    else
      match ReadMatch(body)
      case None => None
      case Some(m) =>
        match ReadActions(m.1)
        case None => None
        case Some(out) => Some(Reading(v[3], v[7], v[10], m.0, out))
  }

  function ReadFlowMod(bs: seq<byte>): Option<Reading> {
    FixedWidths();
    FixedSize(FixedFmt());
    if |bs| < 48 then None else ReadParts(Unpack(FixedFmt(), bs[..48]), |bs|, bs[48..])
  }

  // ---------- Reading back what was built ----------

  /** Reading goes field by field. */
  lemma {:induction false} ReadOneOxm(header: nat, body: seq<byte>, rest: seq<byte>, m: Match)
    requires header < Pow256(4) && |body| == header % 256
    ensures var r := ReadOxms(BigEndian(4, header) + body + rest, m);
      && (header == OXM_IN_PORT ==> r == ReadOxms(rest, m.(inPort := Some(Value(body)))))
      && (header == OXM_ETH_DST ==>
            r == ReadOxms(rest, m.(ethDst := Some(Mac(body[0], body[1], body[2], body[3], body[4], body[5])))))
      && (header == OXM_ETH_TYPE ==> r == ReadOxms(rest, m.(ethType := Some(Value(body)))))
  {
    ValueOfBigEndian(4, header);
    var bs := BigEndian(4, header) + body + rest;
    hide BigEndian, Value, Pow256;
    assert bs[..4] == BigEndian(4, header) && bs[4..4 + |body|] == body && bs[4 + |body|..] == rest;
  }

  lemma {:induction false} NoMoreOxms(m: Match)
    ensures ReadOxms([], m) == Some(m)
  {
  }

  lemma {:induction false} ReadOxmsBack(f: ParsedFlow)
    requires Wide(f)
    ensures ReadOxms(OxmBytes(f), Match(None, None, None)) == Some(MatchOf(f))
  {
    hide ReadOxms, InPortTlv, EthDstTlv, EthTypeTlv;
    var m0 := Match(None, None, None);
    var m1 := m0.(inPort := if f.hasInPort then Some(f.inPort) else None);
    var m2 := m1.(ethDst := if f.hasDlDst then Some(f.dlDst) else None);
    EthTypeBack(f, m2);
    EthDstBack(f, m1);
    InPortBack(f, m0);
    assert OxmBytes(f) == InPortTlv(f) + (EthDstTlv(f) + EthTypeTlv(f));
  }

  function MatchOf(f: ParsedFlow): Match {
    Match(if f.hasInPort then Some(f.inPort) else None, if f.hasDlDst then Some(f.dlDst) else None,
      if f.hasIp then Some(ETH_TYPE_IPV4) else None)
  }

  lemma {:induction false} EthTypeBack(f: ParsedFlow, m: Match)
    requires m.ethType.None?
    ensures ReadOxms(EthTypeTlv(f), m) == Some(m.(ethType := if f.hasIp then Some(ETH_TYPE_IPV4) else None))
  {
    assert Pow256(4) == 0x1_0000_0000 && Pow256(2) == 0x1_0000;
    ValueOfBigEndian(2, ETH_TYPE_IPV4);
    NoMoreOxms(m);
    hide ReadOxms, BigEndian, Value, Pow256;
    if f.hasIp {
      ReadOneOxm(OXM_ETH_TYPE, BigEndian(2, ETH_TYPE_IPV4), [], m);
      assert EthTypeTlv(f) + [] == EthTypeTlv(f);
      NoMoreOxms(m.(ethType := Some(ETH_TYPE_IPV4)));
    }
  }

  lemma {:induction false} EthDstBack(f: ParsedFlow, m: Match)
    requires m.ethDst.None?
    ensures ReadOxms(EthDstTlv(f) + EthTypeTlv(f), m)
      == ReadOxms(EthTypeTlv(f), m.(ethDst := if f.hasDlDst then Some(f.dlDst) else None))
  {
    assert Pow256(4) == 0x1_0000_0000;
    hide ReadOxms, BigEndian, Value, Pow256, EthTypeTlv;
    if f.hasDlDst {
      ReadOneOxm(OXM_ETH_DST, MacBytes(f.dlDst), EthTypeTlv(f), m);
    } else {
      assert EthDstTlv(f) + EthTypeTlv(f) == EthTypeTlv(f);
    }
  }

  lemma {:induction false} InPortBack(f: ParsedFlow, m: Match)
    requires m.inPort.None? && f.inPort < 0x1_0000_0000
    ensures ReadOxms(InPortTlv(f) + (EthDstTlv(f) + EthTypeTlv(f)), m)
      == ReadOxms(EthDstTlv(f) + EthTypeTlv(f), m.(inPort := if f.hasInPort then Some(f.inPort) else None))
  {
    assert Pow256(4) == 0x1_0000_0000;
    ValueOfBigEndian(4, f.inPort);
    hide ReadOxms, BigEndian, Value, Pow256, EthTypeTlv, EthDstTlv;
    if f.hasInPort {
      ReadOneOxm(OXM_IN_PORT, BigEndian(4, f.inPort), EthDstTlv(f) + EthTypeTlv(f), m);
    } else {
      assert InPortTlv(f) + (EthDstTlv(f) + EthTypeTlv(f)) == EthDstTlv(f) + EthTypeTlv(f);
    }
  }

  lemma {:induction false} MatchParts(f: ParsedFlow, rest: seq<byte>)
    ensures var len := 4 + |OxmBytes(f)|;
      MatchBytes(f) + rest == BigEndian(2, OFPMT_OXM) + BigEndian(2, len) + OxmBytes(f) + Zeros(Pad8(len) - len) + rest
  {
    hide OxmBytes, BigEndian, Zeros, Pad8;
  }

  lemma {:induction false} ReadMatchBack(f: ParsedFlow, rest: seq<byte>)
    requires Wide(f)
    ensures ReadMatch(MatchBytes(f) + rest) == Some((MatchOf(f), rest))
  {
    var oxms, len := OxmBytes(f), 4 + |OxmBytes(f)|;
    var kind, size := BigEndian(2, OFPMT_OXM), BigEndian(2, len);
    assert Pow256(2) == 0x1_0000;
    ValueOfBigEndian(2, OFPMT_OXM);
    ValueOfBigEndian(2, len);
    ReadOxmsBack(f);
    MatchParts(f, rest);
    hide ReadOxms, OxmBytes, BigEndian, Value, MatchOf, Pow256, ReadMatch, Pad8, Zeros, MatchBytes;
    var bs := kind + size + oxms + Zeros(Pad8(len) - len) + rest;
    FiveParts(kind, size, oxms, Zeros(Pad8(len) - len), rest);
    ZerosLength(Pad8(len) - len);
    ReadMatchParts(bs, len, MatchOf(f), oxms, rest);
  }

  lemma {:induction false} ZerosLength(n: nat)
    ensures |Zeros(n)| == n
  {
  }

  lemma {:induction false} ReadMatchParts(bs: seq<byte>, len: nat, m: Match, oxms: seq<byte>, rest: seq<byte>)
    requires 4 <= len && Pad8(len) <= |bs| && Value(bs[..2]) == OFPMT_OXM && Value(bs[2..4]) == len
    requires bs[4..len] == oxms && ReadOxms(oxms, Match(None, None, None)) == Some(m) && bs[Pad8(len)..] == rest
    ensures ReadMatch(bs) == Some((m, rest))
  {
  }

  lemma {:induction false} FiveParts(a: seq<byte>, b: seq<byte>, c: seq<byte>, d: seq<byte>, e: seq<byte>)
    requires |a| == 2 && |b| == 2
    ensures var bs := a + b + c + d + e;
      bs[..2] == a && bs[2..4] == b && bs[4..4 + |c|] == c && bs[4 + |c| + |d|..] == e
  {
  }

  lemma {:induction false} ActionWidths()
    ensures var w := ActionFmt();
      && |w| == 9 && Width(w[0]) == 2 && Width(w[1]) == 2 && Width(w[2]) == 4 && Width(w[3]) == 2 && Width(w[4]) == 2
      && Width(w[5]) == 4 && Width(w[6]) == 2 && Width(w[7]) == 2 && Width(w[8]) == 4
  {
  }

  /** The widths of the sixteen fixed fields. */
  ghost predicate IsFixed(fmt: string) {
    && |fmt| == 16 && Width(fmt[0]) == 1 && Width(fmt[1]) == 1 && Width(fmt[2]) == 2 && Width(fmt[3]) == 4 && Width(fmt[4]) == 8
    && Width(fmt[5]) == 8 && Width(fmt[6]) == 1 && Width(fmt[7]) == 1 && Width(fmt[8]) == 2 && Width(fmt[9]) == 2 && Width(fmt[10]) == 2
    && Width(fmt[11]) == 4 && Width(fmt[12]) == 4 && Width(fmt[13]) == 4 && Width(fmt[14]) == 2 && Width(fmt[15]) == 2
  }

  lemma {:induction false} FixedWidths()
    ensures IsFixed(FixedFmt())
  {
  }

  lemma {:induction false} ActionSize()
    ensures Size(ActionFmt()) == 24
  {
  }

  lemma {:induction false} ReadActionsBack(f: ParsedFlow)
    requires Wide(f)
    ensures ReadActions(ActionBytes(f)) == Some(if f.hasOutput then Some(f.outputPort) else None)
    ensures |ActionBytes(f)| == if f.hasOutput then 24 else 0
  {
    ActionSize();
    ActionValues(f, 24);
    ActionPackable(f);
    hide Pack, Size, Packable, ActionFmt, Pow256, Unpack;
    assert ActionFields(f)[1 := 24] == ActionFields(f);
    UnpackOfPack(ActionFmt(), ActionFields(f));
  }

  lemma {:induction false} ActionPackable(f: ParsedFlow)
    requires Wide(f)
    ensures Packable(ActionFmt(), ActionFields(f))
  {
  }

  lemma {:induction false} FixedSize(fmt: string)
    requires IsFixed(fmt)
    ensures Size(fmt) == 48
  {
    OffsetOfEnd(fmt);
    hide Offset, Size, Width;
    OffsetsFit(fmt, 0);
    OffsetsFit(fmt, 1);
    OffsetsFit(fmt, 2);
    OffsetsFit(fmt, 3);
    OffsetsFit(fmt, 4);
    OffsetsFit(fmt, 5);
    OffsetsFit(fmt, 6);
    OffsetsFit(fmt, 7);
    OffsetsFit(fmt, 8);
    OffsetsFit(fmt, 9);
    OffsetsFit(fmt, 10);
    OffsetsFit(fmt, 11);
    OffsetsFit(fmt, 12);
    OffsetsFit(fmt, 13);
    OffsetsFit(fmt, 14);
    OffsetsFit(fmt, 15);
  }

  lemma {:induction false} FixedPackable(fmt: string, xid: nat, command: byte, f: ParsedFlow, length: nat)
    requires IsFixed(fmt)
    requires Wide(f) && xid < 0x1_0000_0000 && length < 0x1_0000
    ensures Packable(fmt, FixedFields(xid, command, f, length))
  {
  }

  /** Exactly how long the message is, for every flow the parser can produce; it fits every
      buffer it passes through, and its length field says so. */
  lemma {:induction false} FlowModLength(xid: nat, command: byte, f: ParsedFlow)
    ensures |FlowModBytes(xid, command, f)| == 48 + Pad8(4 + |OxmBytes(f)|) + (if command == OFPFC_ADD && f.hasOutput then 24 else 0)
    ensures |FlowModBytes(xid, command, f)| % 8 == 0 && |FlowModBytes(xid, command, f)| <= MESSAGE_BUFFER
    ensures |MatchBytes(f)| <= MATCH_BUFFER && |ActionBytes(f)| <= ACTION_BUFFER
  {
    hide Pack, Size, OxmBytes, FixedFmt, ActionFmt, IsFixed;
    FixedWidths();
    FixedSize(FixedFmt());
    ActionSize();
  }

  /** Reading a built message gives back its transaction, command, priority, match and output. */
  lemma {:induction false} ReadFlowModBack(xid: nat, command: byte, f: ParsedFlow)
    requires Wide(f) && xid < 0x1_0000_0000
    ensures ReadFlowMod(FlowModBytes(xid, command, f)) == Some(Reading(xid, command, if f.hasPriority then f.priority else 0,
      MatchOf(f), if command == OFPFC_ADD && f.hasOutput then Some(f.outputPort) else None))
  {
    hide Unpack, Pack, ReadParts, Size, FixedFields, BodyBytes, Pow256, Packable, MatchOf, FixedFmt, IsFixed;
    var body := BodyBytes(command, f);
    BodyIsShort(command, f);
    FixedWidths();
    FixedPartBack(FixedFmt(), xid, command, f, 48 + |body|, body);
    ReadPartsBack(xid, command, f);
  }

  lemma {:induction false} ReadPartsBack(xid: nat, command: byte, f: ParsedFlow)
    requires Wide(f)
    ensures var body := BodyBytes(command, f);
      ReadParts(FixedFields(xid, command, f, 48 + |body|), 48 + |body|, body)
      == Some(Reading(xid, command, if f.hasPriority then f.priority else 0, MatchOf(f),
           if command == OFPFC_ADD && f.hasOutput then Some(f.outputPort) else None))
  {
    ReadBodyBack(command, f);
    hide ReadMatch, ReadActions, MatchOf, BodyBytes;
  }

  lemma {:induction false} BodyIsShort(command: byte, f: ParsedFlow)
    ensures |BodyBytes(command, f)| <= 56
  {
    hide Pack, Size, OxmBytes, ActionFmt;
    ActionSize();
  }

  lemma {:induction false} FixedPartBack(fmt: string, xid: nat, command: byte, f: ParsedFlow, length: nat, body: seq<byte>)
    requires IsFixed(fmt)
    requires Wide(f) && xid < 0x1_0000_0000 && length < 0x1_0000
    ensures Size(fmt) == 48
    ensures var bs := Pack(fmt, FixedFields(xid, command, f, length)) + body;
      |bs| == 48 + |body| && Unpack(fmt, bs[..48]) == FixedFields(xid, command, f, length) && bs[48..] == body
  {
    FixedSize(fmt);
    var fields := FixedFields(xid, command, f, length);
    FixedPackable(fmt, xid, command, f, length);
    UnpackOfPack(fmt, fields);
    hide Unpack, Pack, Size, Packable, FixedFields;
    assert (Pack(fmt, fields) + body)[..48] == Pack(fmt, fields);
  }

  lemma {:induction false} ReadBodyBack(command: byte, f: ParsedFlow)
    requires Wide(f)
    ensures ReadMatch(BodyBytes(command, f)).Some? && ReadMatch(BodyBytes(command, f)).value.0 == MatchOf(f)
    ensures ReadActions(ReadMatch(BodyBytes(command, f)).value.1) ==
      Some(if command == OFPFC_ADD && f.hasOutput then Some(f.outputPort) else None)
  {
    ReadMatchBack(f, if command == OFPFC_ADD then ActionBytes(f) else []);
    ReadActionsBack(f);
    hide ReadMatch, MatchBytes, ActionBytes;
  }

  // ---------- Building it in place ----------

  method PutBytes(buf: array<byte>, off: nat, src: seq<byte>) returns (end: nat)
    requires off + |src| <= buf.Length
    modifies buf
    ensures end == off + |src|
    ensures buf[..end] == old(buf[..off]) + src
    ensures forall k :: end <= k < buf.Length ==> buf[k] == old(buf[k])
  {
    for i := 0 to |src|
      invariant buf[..off] == old(buf[..off]) && buf[off..off + i] == src[..i]
      invariant forall k :: off + |src| <= k < buf.Length ==> buf[k] == old(buf[k])
    {
      buf[off + i] := src[i];
      assert buf[off..off + i + 1] == src[..i] + [src[i]];
    }
    assert src[..|src|] == src && buf[..off + |src|] == buf[..off] + buf[off..off + |src|];
    return off + |src|;
  }

  lemma {:induction false} Grouped(a: seq<byte>, b: seq<byte>, c: seq<byte>)
    ensures a + b + c == a + (b + c)
  {
  }

  method PutInPort(buf: array<byte>, off: nat, f: ParsedFlow) returns (end: nat)
    requires off + 8 <= buf.Length && Wide(f)
    modifies buf
    ensures end == off + |InPortTlv(f)| && buf[..end] == old(buf[..off]) + InPortTlv(f)
    ensures forall k :: end <= k < buf.Length ==> buf[k] == old(buf[k])
  {
    assert Pow256(4) == 0x1_0000_0000;
    hide BigEndian, Pow256;
    end := off;
    if f.hasInPort {
      end := PutU32(buf, end, OXM_IN_PORT);
      end := PutU32(buf, end, f.inPort);
      Grouped(old(buf[..off]), BigEndian(4, OXM_IN_PORT), BigEndian(4, f.inPort));
    }
  }

  method PutEthDst(buf: array<byte>, off: nat, f: ParsedFlow) returns (end: nat)
    requires off + 10 <= buf.Length
    modifies buf
    ensures end == off + |EthDstTlv(f)| && buf[..end] == old(buf[..off]) + EthDstTlv(f)
    ensures forall k :: end <= k < buf.Length ==> buf[k] == old(buf[k])
  {
    assert Pow256(4) == 0x1_0000_0000;
    hide BigEndian, Pow256;
    end := off;
    if f.hasDlDst {
      end := PutU32(buf, end, OXM_ETH_DST);
      end := PutBytes(buf, end, MacBytes(f.dlDst));
      Grouped(old(buf[..off]), BigEndian(4, OXM_ETH_DST), MacBytes(f.dlDst));
    }
  }

  method PutEthType(buf: array<byte>, off: nat, f: ParsedFlow) returns (end: nat)
    requires off + 6 <= buf.Length
    modifies buf
    ensures end == off + |EthTypeTlv(f)| && buf[..end] == old(buf[..off]) + EthTypeTlv(f)
    ensures forall k :: end <= k < buf.Length ==> buf[k] == old(buf[k])
  {
    assert Pow256(4) == 0x1_0000_0000 && Pow256(2) == 0x1_0000;
    hide BigEndian, Pow256;
    end := off;
    if f.hasIp {
      end := PutU32(buf, end, OXM_ETH_TYPE);
      end := PutU16(buf, end, ETH_TYPE_IPV4);
      Grouped(old(buf[..off]), BigEndian(4, OXM_ETH_TYPE), BigEndian(2, ETH_TYPE_IPV4));
    }
  }

  method PutOxms(buf: array<byte>, off: nat, f: ParsedFlow) returns (end: nat)
    requires off + 24 <= buf.Length && Wide(f)
    modifies buf
    ensures end == off + |OxmBytes(f)| && buf[..end] == old(buf[..off]) + OxmBytes(f)
  {
    hide BigEndian;
    ghost var before := buf[..off];
    end := PutInPort(buf, off, f);
    end := PutEthDst(buf, end, f);
    end := PutEthType(buf, end, f);
    Grouped(before, InPortTlv(f), EthDstTlv(f));
    Grouped(before, InPortTlv(f) + EthDstTlv(f), EthTypeTlv(f));
  }

  /** The length fields are written over the gap left for them. */
  method PatchLength(buf: array<byte>, at: nat, off: nat, v: nat)
    requires at + 2 <= off <= buf.Length && v < 0x1_0000
    modifies buf
    ensures buf[..off] == old(buf[..at]) + BigEndian(2, v) + old(buf[at + 2..off])
    ensures forall k :: off <= k < buf.Length ==> buf[k] == old(buf[k])
  {
    assert Pow256(2) == 0x1_0000;
    hide BigEndian, Pow256;
    ghost var tail := buf[at + 2..off];
    var _ := PutU16(buf, at, v);
    assert buf[at + 2..off] == tail;
    assert buf[..off] == buf[..at + 2] + buf[at + 2..off];
  }

  method PutZeros(buf: array<byte>, off: nat, n: nat) returns (end: nat)
    requires off + n <= buf.Length
    modifies buf
    ensures end == off + n
    ensures buf[..end] == old(buf[..off]) + Zeros(n)
    ensures forall k :: end <= k < buf.Length ==> buf[k] == old(buf[k])
  {
    end := off;
    while end < off + n
      invariant off <= end <= off + n
      invariant buf[..end] == old(buf[..off]) + Zeros(end - off)
      invariant forall k :: off + n <= k < buf.Length ==> buf[k] == old(buf[k])
    {
      buf[end] := 0;
      end := end + 1;
      assert Zeros(end - off) == Zeros(end - 1 - off) + [0];
    }
  }

  /** build_match: the length goes in after the fields, then the padding. */
  method BuildMatch(buf: array<byte>, f: ParsedFlow) returns (n: nat)
    requires buf.Length == MATCH_BUFFER && Wide(f)
    modifies buf
    ensures n == |MatchBytes(f)| <= buf.Length && buf[..n] == MatchBytes(f)
  {
    assert Pow256(2) == 0x1_0000;
    hide BigEndian, Pow256, OxmBytes, InPortTlv, EthDstTlv, EthTypeTlv;
    ghost var kind := BigEndian(2, OFPMT_OXM);
    var off := PutU16(buf, 0, OFPMT_OXM);
    var lenPos := off;
    ghost var gap := buf[..4];
    assert buf[..2] == [] + kind == kind;
    assert gap[..2] == buf[..2];
    off := PutOxms(buf, off + 2, f);
    ghost var bs := buf[..off];
    AfterGap(bs, gap, OxmBytes(f));
    assert forall k :: 0 <= k < off ==> buf[k] == bs[k];
    assert buf[..2] == bs[..2];
    assert buf[4..off] == bs[4..];
    PatchLength(buf, lenPos, off, off);
    n := PutZeros(buf, off, Pad8(off) - off);
  }

  lemma {:induction false} AfterGap(all: seq<byte>, gap: seq<byte>, rest: seq<byte>)
    requires all == gap + rest && |gap| == 4
    ensures all[..2] == gap[..2] && all[4..] == rest
  {
  }

  // ---------- The other two parts ----------

  lemma {:induction false} ZeroBytes(n: nat)
    ensures BigEndian(n, 0) == Zeros(n)
  {
    if n > 0 {
      ZeroBytes(n - 1);
    }
  }

  /** Every field but the length, which stays what was in the buffer. */
  method PutActionFields(buf: array<byte>, f: ParsedFlow) returns (off: nat, ghost junk: nat)
    requires buf.Length == ACTION_BUFFER && Wide(f)
    modifies buf
    ensures off == 24 && buf[..off] == Pack(ActionFmt(), ActionFields(f)[1 := junk])
  {
    assert Pow256(4) == 0x1_0000_0000 && Pow256(2) == 0x1_0000;
    ZeroBytes(4);
    ZeroBytes(2);
    ActionWidths();
    hide BigEndian, Pow256, Pack, Size, Value, Zeros, ActionFields, Filled, ActionFmt, Width;
    off := PutU16(buf, 0, OFPIT_APPLY_ACTIONS);
    ghost var gap := buf[2..4];
    junk := Value(gap);
    BigEndianOfValue(gap);
    assert buf[..4] == [] + buf[..2] + gap;
    ghost var v := ActionFields(f)[1 := junk];
    ActionValues(f, junk);
    FillStart(ActionFmt(), v);
    Fill([], ActionFmt(), v, 0);
    assert [] + buf[..2] == buf[..2];
    Fill(buf[..2], ActionFmt(), v, 1);
    off := off + 2;
    Fill(buf[..off], ActionFmt(), v, 2);
    off := PutZeros(buf, off, 4);
    Fill(buf[..off], ActionFmt(), v, 3);
    off := PutU16(buf, off, OFPAT_OUTPUT);
    Fill(buf[..off], ActionFmt(), v, 4);
    off := PutU16(buf, off, 16);
    off := PutActionEnd(buf, off, f, v);
  }

  lemma {:induction false} ActionValues(f: ParsedFlow, junk: nat)
    ensures var v := ActionFields(f)[1 := junk];
      && |v| == 9 && v[0] == OFPIT_APPLY_ACTIONS && v[1] == junk && v[2] == 0 && v[3] == OFPAT_OUTPUT && v[4] == 16
      && v[5] == f.outputPort && v[6] == OFPCML_NO_BUFFER && v[7] == 0 && v[8] == 0
  {
  }

  method PutActionEnd(buf: array<byte>, from: nat, f: ParsedFlow, ghost v: seq<nat>) returns (off: nat)
    requires buf.Length == ACTION_BUFFER && Wide(f) && from == 12 && |v| == 9
    requires v[5] == f.outputPort && v[6] == OFPCML_NO_BUFFER && v[7] == 0 && v[8] == 0
    requires Filled(buf[..from], ActionFmt(), v, 5)
    modifies buf
    ensures off == 24 && buf[..off] == Pack(ActionFmt(), v)
  {
    assert Pow256(4) == 0x1_0000_0000 && Pow256(2) == 0x1_0000;
    ZeroBytes(4);
    ZeroBytes(2);
    hide BigEndian, Pow256, Pack, Size;
    ActionWidths();
    hide Filled, ActionFmt, Width;
    assert Zeros(6) == Zeros(2) + Zeros(4);
    Fill(buf[..from], ActionFmt(), v, 5);
    off := PutU32(buf, from, f.outputPort);
    Fill(buf[..off], ActionFmt(), v, 6);
    off := PutU16(buf, off, OFPCML_NO_BUFFER);
    ghost var before := buf[..off];
    Fill(before, ActionFmt(), v, 7);
    Fill(before + Zeros(2), ActionFmt(), v, 8);
    Grouped(before, Zeros(2), Zeros(4));
    off := PutZeros(buf, off, 6);
    FillEnd(buf[..off], ActionFmt(), v);
  }

  lemma {:induction false} ActionPatch(f: ParsedFlow, junk: nat)
    ensures var bs := Pack(ActionFmt(), ActionFields(f)[1 := junk]);
      |bs| == 24 && bs[..2] + BigEndian(2, 24) + bs[4..] == Pack(ActionFmt(), ActionFields(f))
  {
  }

  /** build_actions. */
  method BuildActions(buf: array<byte>, f: ParsedFlow) returns (n: nat)
    requires buf.Length == ACTION_BUFFER && Wide(f)
    modifies buf
    ensures n == |ActionBytes(f)| <= buf.Length && buf[..n] == ActionBytes(f)
  {
    ActionSize();
    if !f.hasOutput {
      return 0;
    }
    hide BigEndian, Pack, Size, ActionFields;
    ghost var junk;
    n, junk := PutActionFields(buf, f);
    ghost var bs := buf[..n];
    ActionPatch(f, junk);
    assert buf[..2] == bs[..2] && buf[4..n] == bs[4..];
    PatchLength(buf, 2, n, n);
  }

  lemma {:induction false} FixedValues(xid: nat, command: byte, f: ParsedFlow, junk: nat)
    ensures var v := FixedFields(xid, command, f, junk);
      && |v| == 16 && v[0] == OFP_VERSION_13 && v[1] == OFPT_FLOW_MOD && v[2] == junk && v[3] == xid
      && v[4] == 0 && v[5] == 0 && v[6] == 0 && v[7] == command && v[8] == 0 && v[9] == 0
      && v[10] == (if f.hasPriority then f.priority else 0)
      && v[11] == ALL_ONES && v[12] == ALL_ONES && v[13] == ALL_ONES && v[14] == 0 && v[15] == 0
  {
  }

  /** Version, type, and a gap for the length. */
  method PutFixedStart(buf: array<byte>, ghost fmt: string, ghost v0: seq<nat>) returns (off: nat, ghost junk: nat)
    requires IsFixed(fmt)
    requires buf.Length == MESSAGE_BUFFER
    requires |v0| == 16 && v0[0] == OFP_VERSION_13 && v0[1] == OFPT_FLOW_MOD
    modifies buf
    ensures off == 4 && Filled(buf[..off], fmt, v0[2 := junk], 3)
  {
    hide BigEndian, Pow256, Pack, Size, Value, Filled, FixedFmt, Width;
    ghost var gap := buf[2..4];
    junk := Value(gap);
    BigEndianOfValue(gap);
    ghost var v := v0[2 := junk];
    FillStart(fmt, v);
    Fill([], fmt, v, 0);
    off := PutU8(buf, 0, OFP_VERSION_13);
    assert buf[..1] == [] + BigEndian(1, OFP_VERSION_13);
    Fill(buf[..off], fmt, v, 1);
    off := PutU8(buf, off, OFPT_FLOW_MOD);
    Fill(buf[..off], fmt, v, 2);
    assert buf[2..4] == gap && buf[..4] == buf[..2] + gap;
    off := off + 2;
  }

  method PutFixedMiddle(buf: array<byte>, from: nat, xid: nat, command: byte, ghost fmt: string, ghost v: seq<nat>) returns (off: nat)
    requires IsFixed(fmt)
    requires buf.Length == MESSAGE_BUFFER && xid < 0x1_0000_0000 && from == 4
    requires |v| == 16 && v[3] == xid && v[4] == v[5] == v[6] == 0 && v[7] == command
    requires Filled(buf[..from], fmt, v, 3)
    modifies buf
    ensures off == 26 && Filled(buf[..off], fmt, v, 8)
  {
    assert Pow256(8) > 0 && Pow256(4) == 0x1_0000_0000;
    hide BigEndian, Pow256, Pack, Size, Filled, FixedFmt, Width;
    Fill(buf[..from], fmt, v, 3);
    off := PutU32(buf, from, xid);
    Fill(buf[..off], fmt, v, 4);
    off := PutU64(buf, off, 0);
    Fill(buf[..off], fmt, v, 5);
    off := PutU64(buf, off, 0);
    Fill(buf[..off], fmt, v, 6);
    off := PutU8(buf, off, 0);
    Fill(buf[..off], fmt, v, 7);
    off := PutU8(buf, off, command);
  }

  method PutFixedBack(buf: array<byte>, from: nat, f: ParsedFlow, ghost fmt: string, ghost v: seq<nat>) returns (off: nat)
    requires IsFixed(fmt)
    requires buf.Length == MESSAGE_BUFFER && Wide(f) && from == 26 && |v| == 16
    requires v[8] == v[9] == 0 && v[10] == (if f.hasPriority then f.priority else 0)
    requires Filled(buf[..from], fmt, v, 8)
    modifies buf
    ensures off == 32 && Filled(buf[..off], fmt, v, 11)
  {
    assert Pow256(2) == 0x1_0000;
    hide BigEndian, Pow256, Pack, Size, Filled, FixedFmt, Width;
    Fill(buf[..from], fmt, v, 8);
    off := PutU16(buf, from, 0);
    Fill(buf[..off], fmt, v, 9);
    off := PutU16(buf, off, 0);
    Fill(buf[..off], fmt, v, 10);
    off := PutU16(buf, off, if f.hasPriority then f.priority else 0);
  }

  method PutFixedEnd(buf: array<byte>, from: nat, ghost fmt: string, ghost v: seq<nat>) returns (off: nat)
    requires IsFixed(fmt)
    requires buf.Length == MESSAGE_BUFFER && from == 32 && |v| == 16
    requires v[11] == v[12] == v[13] == ALL_ONES && v[14] == v[15] == 0
    requires Filled(buf[..from], fmt, v, 11)
    modifies buf
    ensures off == 48 && buf[..off] == Pack(fmt, v)
  {
    assert Pow256(4) == 0x1_0000_0000 && Pow256(2) == 0x1_0000;
    ZeroBytes(2);
    hide BigEndian, Pow256, Pack, Size, Filled, FixedFmt, Width;
    Fill(buf[..from], fmt, v, 11);
    off := PutU32(buf, from, ALL_ONES);
    Fill(buf[..off], fmt, v, 12);
    off := PutU32(buf, off, ALL_ONES);
    Fill(buf[..off], fmt, v, 13);
    off := PutU32(buf, off, ALL_ONES);
    Fill(buf[..off], fmt, v, 14);
    off := PutU16(buf, off, 0);
    Fill(buf[..off], fmt, v, 15);
    off := PutZeros(buf, off, 2);
    FillEnd(buf[..off], fmt, v);
  }

  lemma {:induction false} FixedPatch(fmt: string, xid: nat, command: byte, f: ParsedFlow, junk: nat, length: nat)
    requires IsFixed(fmt)
    ensures var bs := Pack(fmt, FixedFields(xid, command, f, junk));
      |bs| == 48 && bs[..2] + BigEndian(2, length) + bs[4..] == Pack(fmt, FixedFields(xid, command, f, length))
  {
    FixedSize(fmt);
    FixedValues(xid, command, f, junk);
    FixedPatchValues(xid, command, f, junk, length);
    hide Pack, BigEndian, Size, Offset, Width, FixedFields;
    OffsetsFit(fmt, 0);
    OffsetsFit(fmt, 1);
    PackPatch(fmt, FixedFields(xid, command, f, junk), 2, length);
  }

  /** The fixed part, with whatever the buffer held in place of the length. */
  method PutFixed(buf: array<byte>, xid: nat, command: byte, f: ParsedFlow) returns (off: nat, ghost junk: nat)
    requires buf.Length == MESSAGE_BUFFER && Wide(f) && xid < 0x1_0000_0000
    modifies buf
    ensures off == 48 && buf[..off] == Pack(FixedFmt(), FixedFields(xid, command, f, junk))
  {
    FixedValues(xid, command, f, 0);
    ghost var v0 := FixedFields(xid, command, f, 0);
    FixedWidths();
    hide BigEndian, Pack, Size, FixedFields, Filled, FixedFmt, Width, IsFixed;
    off, junk := PutFixedStart(buf, FixedFmt(), v0);
    off := PutFixedMiddle(buf, off, xid, command, FixedFmt(), v0[2 := junk]);
    off := PutFixedBack(buf, off, f, FixedFmt(), v0[2 := junk]);
    off := PutFixedEnd(buf, off, FixedFmt(), v0[2 := junk]);
    FixedPatchValues(xid, command, f, 0, junk);
  }

  /** build_flow_mod: the fixed part, the match, the instruction of an add, and the total
      length over its place near the front. */
  method BuildFlowMod(buf: array<byte>, xid: nat, command: byte, f: ParsedFlow) returns (n: nat)
    requires buf.Length == MESSAGE_BUFFER && Wide(f) && xid < 0x1_0000_0000
    modifies buf
    ensures n <= buf.Length && n == |FlowModBytes(xid, command, f)| && buf[..n] == FlowModBytes(xid, command, f)
  {
    BodyIsShort(command, f);
    hide BigEndian, Pack, Size, FixedFields, Pad8, BodyBytes, FixedFmt;
    ghost var junk;
    var off: nat;
    off, junk := PutFixed(buf, xid, command, f);
    ghost var fixed := buf[..off];
    off := PutBody(buf, off, command, f);
    PatchFront(buf, off, fixed, BodyBytes(command, f));
    FixedWidths();
    FixedPatch(FixedFmt(), xid, command, f, junk, off);
    n := off;
  }

  method PutBody(buf: array<byte>, from: nat, command: byte, f: ParsedFlow) returns (off: nat)
    requires buf.Length == MESSAGE_BUFFER && Wide(f) && from == 48
    modifies buf
    ensures off == from + |BodyBytes(command, f)| <= buf.Length
    ensures buf[..off] == old(buf[..from]) + BodyBytes(command, f)
  {
    BodyParts(command, f);
    hide BigEndian, MatchBytes, ActionBytes, Pad8, OxmBytes, BodyBytes;
    var matchBuf := new byte[MATCH_BUFFER];
    var matchLen := BuildMatch(matchBuf, f);
    off := PutBytes(buf, from, matchBuf[..matchLen]);
    if command == OFPFC_ADD {
      var actionBuf := new byte[ACTION_BUFFER];
      var actionLen := BuildActions(actionBuf, f);
      off := PutBytes(buf, off, actionBuf[..actionLen]);
      Grouped(old(buf[..from]), MatchBytes(f), ActionBytes(f));
    }
  }

  lemma {:induction false} FixedPatchValues(xid: nat, command: byte, f: ParsedFlow, junk: nat, length: nat)
    ensures |FixedFields(xid, command, f, junk)| == 16
    ensures FixedFields(xid, command, f, junk)[2 := length] == FixedFields(xid, command, f, length)
  {
  }

  lemma {:induction false} BodyParts(command: byte, f: ParsedFlow)
    ensures BodyBytes(command, f) == MatchBytes(f) + if command == OFPFC_ADD then ActionBytes(f) else []
    ensures |MatchBytes(f)| <= 32 && |ActionBytes(f)| <= 24
  {
    ActionSize();
    hide Pack, Size, OxmBytes;
  }

  method PatchFront(buf: array<byte>, off: nat, ghost fixed: seq<byte>, ghost body: seq<byte>)
    requires 4 <= |fixed| && off == |fixed| + |body| <= buf.Length && off < 0x1_0000 && buf[..off] == fixed + body
    modifies buf
    ensures buf[..off] == fixed[..2] + BigEndian(2, off) + fixed[4..] + body
  {
    hide BigEndian;
    assert buf[..2] == fixed[..2] && buf[4..off] == fixed[4..] + body;
    PatchLength(buf, 2, off, off);
    Grouped(fixed[..2] + BigEndian(2, off), fixed[4..], body);
  }

  // ---------- Every byte of the message ----------

  lemma {:induction false} NumberBytes()
    ensures BigEndian(1, 4) == [4] && BigEndian(1, 14) == [14] && BigEndian(1, 0) == [0]
    ensures BigEndian(2, 0) == [0, 0] && BigEndian(8, 0) == [0, 0, 0, 0, 0, 0, 0, 0]
    ensures BigEndian(4, ALL_ONES) == [255, 255, 255, 255]
  {
    ByteIs(4);
    ByteIs(14);
    ByteIs(0);
    ZeroBytes(2);
    ZeroBytes(8);
    FourShifts(ALL_ONES);
    hide BigEndian;
    assert Zeros(2) == [0, 0] && Zeros(8) == [0, 0, 0, 0, 0, 0, 0, 0];
  }

  lemma {:induction false} PackedFixed(fmt: string, v: seq<nat>)
    requires IsFixed(fmt) && |v| == 16
    ensures Pack(fmt, v) == BigEndian(1, v[0]) + BigEndian(1, v[1]) + BigEndian(2, v[2]) + BigEndian(4, v[3])
      + BigEndian(8, v[4]) + BigEndian(8, v[5]) + BigEndian(1, v[6]) + BigEndian(1, v[7]) + BigEndian(2, v[8])
      + BigEndian(2, v[9]) + BigEndian(2, v[10]) + BigEndian(4, v[11]) + BigEndian(4, v[12]) + BigEndian(4, v[13])
      + BigEndian(2, v[14]) + BigEndian(2, v[15])
  {
    FillStart(fmt, v);
    hide BigEndian, Pack, Filled, Size, Width;
    Fill([], fmt, v, 0);
    var bs := BigEndian(1, v[0]);
    assert bs == [] + BigEndian(1, v[0]);
    Fill(bs, fmt, v, 1);
    bs := bs + BigEndian(1, v[1]);
    Fill(bs, fmt, v, 2);
    bs := bs + BigEndian(2, v[2]);
    Fill(bs, fmt, v, 3);
    bs := bs + BigEndian(4, v[3]);
    Fill(bs, fmt, v, 4);
    bs := bs + BigEndian(8, v[4]);
    Fill(bs, fmt, v, 5);
    bs := bs + BigEndian(8, v[5]);
    Fill(bs, fmt, v, 6);
    bs := bs + BigEndian(1, v[6]);
    Fill(bs, fmt, v, 7);
    bs := bs + BigEndian(1, v[7]);
    Fill(bs, fmt, v, 8);
    bs := bs + BigEndian(2, v[8]);
    Fill(bs, fmt, v, 9);
    bs := bs + BigEndian(2, v[9]);
    Fill(bs, fmt, v, 10);
    bs := bs + BigEndian(2, v[10]);
    Fill(bs, fmt, v, 11);
    bs := bs + BigEndian(4, v[11]);
    Fill(bs, fmt, v, 12);
    bs := bs + BigEndian(4, v[12]);
    Fill(bs, fmt, v, 13);
    bs := bs + BigEndian(4, v[13]);
    Fill(bs, fmt, v, 14);
    bs := bs + BigEndian(2, v[14]);
    Fill(bs, fmt, v, 15);
    FillEnd(bs + BigEndian(2, v[15]), fmt, v);
  }

  /** The whole message: version, type, length, transaction; cookie and mask; table, command, no
      timeouts, priority; no buffer, any port, any group; no flags; match and instructions. */
  lemma {:induction false} MessageLayout(xid: nat, command: byte, f: ParsedFlow)
    ensures FlowModBytes(xid, command, f) ==
      [4] + [14] + BigEndian(2, |FlowModBytes(xid, command, f)|) + BigEndian(4, xid)
      + [0, 0, 0, 0, 0, 0, 0, 0] + [0, 0, 0, 0, 0, 0, 0, 0]
      + [0] + [command] + [0, 0] + [0, 0] + BigEndian(2, if f.hasPriority then f.priority else 0)
      + [255, 255, 255, 255] + [255, 255, 255, 255] + [255, 255, 255, 255] + [0, 0] + [0, 0]
      + (MatchBytes(f) + if command == 0 then ActionBytes(f) else [])
  {
    hide BigEndian, Pack, FixedFmt, FixedFields, Size, MatchBytes, ActionBytes, IsFixed;
    FixedWidths();
    FixedSize(FixedFmt());
    FixedLayout(FixedFmt(), xid, command, f, 48 + |BodyBytes(command, f)|);
  }

  lemma {:induction false} FixedLayout(fmt: string, xid: nat, command: byte, f: ParsedFlow, length: nat)
    requires IsFixed(fmt)
    ensures Pack(fmt, FixedFields(xid, command, f, length)) ==
      [4] + [14] + BigEndian(2, length) + BigEndian(4, xid)
      + [0, 0, 0, 0, 0, 0, 0, 0] + [0, 0, 0, 0, 0, 0, 0, 0]
      + [0] + [command] + [0, 0] + [0, 0] + BigEndian(2, if f.hasPriority then f.priority else 0)
      + [255, 255, 255, 255] + [255, 255, 255, 255] + [255, 255, 255, 255] + [0, 0] + [0, 0]
  {
    FixedValues(xid, command, f, length);
    NumberBytes();
    ByteIs(command);
    hide BigEndian, Pack, FixedFields, IsFixed;
    PackedFixed(fmt, FixedFields(xid, command, f, length));
  }

  lemma {:induction false} TypeBytes()
    ensures BigEndian(2, OFPMT_OXM) == [0, 1] && BigEndian(2, ETH_TYPE_IPV4) == [8, 0]
    ensures BigEndian(4, OXM_IN_PORT) == [0x80, 0, 0, 4]
    ensures BigEndian(4, OXM_ETH_DST) == [0x80, 0, 6, 6]
    ensures BigEndian(4, OXM_ETH_TYPE) == [0x80, 0, 0xa, 2]
  {
    ShiftedByte(2, OFPMT_OXM, 0);
    ShiftedByte(2, OFPMT_OXM, 1);
    ShiftedByte(2, ETH_TYPE_IPV4, 0);
    ShiftedByte(2, ETH_TYPE_IPV4, 1);
    FourShifts(OXM_IN_PORT);
    FourShifts(OXM_ETH_DST);
    FourShifts(OXM_ETH_TYPE);
    hide BigEndian;
  }

  /** The match: type 1, its length without padding, the OXM fields present, zeros up to a
      multiple of eight. */
  lemma {:induction false} MatchLayout(f: ParsedFlow)
    ensures var oxms := (if f.hasInPort then [0x80, 0, 0, 4] + BigEndian(4, f.inPort) else [])
        + (if f.hasDlDst then [0x80, 0, 6, 6] + [f.dlDst.b0, f.dlDst.b1, f.dlDst.b2, f.dlDst.b3, f.dlDst.b4, f.dlDst.b5] else [])
        + (if f.hasIp then [0x80, 0, 0xa, 2] + [8, 0] else []);
      var pad := |MatchBytes(f)| - 4 - |oxms|;
      0 <= pad < 8 && |MatchBytes(f)| % 8 == 0
      && MatchBytes(f) == [0, 1] + BigEndian(2, 4 + |oxms|) + oxms + Zeros(pad)
  {
    TypeBytes();
    hide BigEndian;
  }

  /** The instruction: apply-actions of 24 bytes holding one output action of 16. */
  lemma {:induction false} ActionLayout(f: ParsedFlow)
    ensures ActionBytes(f) == if !f.hasOutput then []
      else [0, 4] + [0, 24] + [0, 0, 0, 0] + [0, 0] + [0, 16] + BigEndian(4, f.outputPort) + [255, 255] + [0, 0] + [0, 0, 0, 0]
  {
    var v, fmt := ActionFields(f), ActionFmt();
    ActionNumbers();
    ActionWidths();
    FillStart(fmt, v);
    hide BigEndian, Pack, Filled, Size, Width, ActionFmt;
    Fill([], fmt, v, 0);
    var bs: seq<byte> := [0, 4];
    assert bs == [] + BigEndian(2, 4);
    Fill(bs, fmt, v, 1);
    bs := bs + BigEndian(2, 24);
    Fill(bs, fmt, v, 2);
    bs := bs + BigEndian(4, 0);
    Fill(bs, fmt, v, 3);
    bs := bs + BigEndian(2, 0);
    Fill(bs, fmt, v, 4);
    bs := bs + BigEndian(2, 16);
    Fill(bs, fmt, v, 5);
    bs := bs + BigEndian(4, f.outputPort);
    Fill(bs, fmt, v, 6);
    bs := bs + BigEndian(2, 0xffff);
    Fill(bs, fmt, v, 7);
    bs := bs + BigEndian(2, 0);
    Fill(bs, fmt, v, 8);
    FillEnd(bs + BigEndian(4, 0), fmt, v);
  }

  lemma {:induction false} ActionNumbers()
    ensures BigEndian(2, 4) == [0, 4] && BigEndian(2, 24) == [0, 24] && BigEndian(2, 0) == [0, 0]
    ensures BigEndian(2, 16) == [0, 16] && BigEndian(2, 0xffff) == [255, 255] && BigEndian(4, 0) == [0, 0, 0, 0]
  {
    TwoBytes(4);
    TwoBytes(24);
    TwoBytes(0);
    TwoBytes(16);
    TwoBytes(0xffff);
    FourShifts(0);
    hide BigEndian;
  }

  lemma {:induction false} TwoBytes(v: nat)
    ensures BigEndian(2, v) == [v / 256 % 256, v % 256]
  {
    ShiftedByte(2, v, 0);
    ShiftedByte(2, v, 1);
    assert ShiftRight(v, 1) == v / 256;
  }

  // ---------- From a decision to the switch and back ----------

  /** Printing a decision, parsing the string and building the message loses nothing: whoever
      reads the message finds the priority, both ports and the MAC the controller decided on. */
  lemma {:induction false} PipelineRoundTrip(xid: nat, inPort: nat, dst: Mac, outPort: nat)
    requires xid < 0x1_0000_0000 && inPort < 0x1_0000 && outPort < 0x1_0000
    ensures ParseFlow(PrintFlow(inPort, dst, outPort)).Some?
    ensures var f := ParseFlow(PrintFlow(inPort, dst, outPort)).value;
      && ReadFlowMod(FlowModBytes(xid, OFPFC_ADD, f))
           == Some(Reading(xid, OFPFC_ADD, 100, Match(Some(inPort), Some(dst), None), Some(outPort)))
      && |FlowModBytes(xid, OFPFC_ADD, f)| == 96
  {
    ParseOfPrint(inPort, dst, outPort);
    hide ParseFlow, PrintFlow, ReadFlowMod, FlowModBytes;
    var f := ParsedFlow(true, 100, true, inPort, true, dst, false, true, outPort);
    ReadFlowModBack(xid, OFPFC_ADD, f);
    FlowModLength(xid, OFPFC_ADD, f);
    assert |OxmBytes(f)| == 18;
    assert Pad8(22) == 24;
  }

  /** The other documented form, with any priority: all IPv4 traffic handed to the switch's own
      forwarding, in 88 bytes. */
  lemma {:induction false} NormalRoundTrip(xid: nat, p: nat)
    requires xid < 0x1_0000_0000 && p < 0x1_0000
    ensures ParseFlow("priority=" + Decimal(p) + ",ip,actions=normal").Some?
    ensures var f := ParseFlow("priority=" + Decimal(p) + ",ip,actions=normal").value;
      && ReadFlowMod(FlowModBytes(xid, OFPFC_ADD, f))
           == Some(Reading(xid, OFPFC_ADD, p, Match(None, None, Some(0x0800)), Some(0xfffffffa)))
      && |FlowModBytes(xid, OFPFC_ADD, f)| == 88
  {
    ParseOfNormal(p);
    hide ParseFlow, ReadFlowMod, FlowModBytes, Decimal;
    var f := ParsedFlow(true, p, false, 0, false, Mac(0, 0, 0, 0, 0, 0), true, true, 0xfffffffa);
    ReadFlowModBack(xid, OFPFC_ADD, f);
    FlowModLength(xid, OFPFC_ADD, f);
    assert |OxmBytes(f)| == 6;
    assert Pad8(10) == 16;
  }

  /** daim_ovs_wire_flow_mod_size: 0 for a string the parser refuses. */
  method WireFlowModSize(flow: string, isDelete: bool) returns (size: nat)
    ensures ParseFlow(flow).None? ==> size == 0
    ensures ParseFlow(flow).Some? ==>
      var f := ParseFlow(flow).value;
      size == 48 + Pad8(4 + (if f.hasInPort then 8 else 0) + (if f.hasDlDst then 10 else 0) + (if f.hasIp then 6 else 0))
        + (if !isDelete && f.hasOutput then 24 else 0)
  {
    var code, f := ParseFlowString(flow);
    if code != 0 {
      return 0;
    }
    var command := if isDelete then OFPFC_DELETE else OFPFC_ADD;
    var scratch := new byte[MESSAGE_BUFFER];
    size := BuildFlowMod(scratch, 0, command, f);
    FlowModLength(0, command, f);
    hide FlowModBytes, ParseFlow;
  }
}
