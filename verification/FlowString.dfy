/** Flow strings: how the learning applications print a decision, and how the persistent
    adapter takes such a string apart again.
 */
module FlowString {
  import opened Basics
  import opened HostState

  const OFPP_NORMAL: nat := 0xfffffffa
  const FLOW_BUFFER: nat := 512

  // ---------- Numbers as text ----------

  predicate IsDigit(c: char) {
    '0' <= c <= '9'
  }

  function DigitValue(c: char): nat
    requires IsDigit(c)
  {
    c as int - '0' as int
  }

  function Digit(d: nat): (c: char)
    requires d < 10
    ensures IsDigit(c) && DigitValue(c) == d
  {
    (d + '0' as int) as char
  }

  /** %u. */
  function Decimal(n: nat): (s: string)
    ensures s != "" && forall i :: 0 <= i < |s| ==> IsDigit(s[i])
  {
    if n < 10 then [Digit(n)] else Decimal(n / 10) + [Digit(n % 10)]
  }

  /** The digits at the front of `s`, read after `acc`. */
  function ReadDigits(s: string, acc: nat): nat {
    if s == "" || !IsDigit(s[0]) then acc else ReadDigits(s[1..], 10 * acc + DigitValue(s[0]))
  }

  predicate IsSpace(c: char) {
    c == ' ' || c == '\t' || c == '\n' || c == '\r' || c as int == 11 || c as int == 12
  }

  function SkipSpace(s: string): string {
    if s != "" && IsSpace(s[0]) then SkipSpace(s[1..]) else s
  }

  function Atoi(s: string): int {
    var t := SkipSpace(s);
    if t != "" && t[0] == '-' then 0 - ReadDigits(t[1..], 0)
    else if t != "" && t[0] == '+' then ReadDigits(t[1..], 0)
    else ReadDigits(t, 0)
  }

  lemma {:induction false} ReadDigitsSnoc(s: string, c: char, acc: nat)
    requires IsDigit(c) && forall i :: 0 <= i < |s| ==> IsDigit(s[i])
    ensures ReadDigits(s + [c], acc) == 10 * ReadDigits(s, acc) + DigitValue(c)
    decreases |s|
  {
    if s == "" {
      assert s + [c] == [c] && [c][1..] == "";
    } else {
      assert (s + [c])[1..] == s[1..] + [c];
      ReadDigitsSnoc(s[1..], c, 10 * acc + DigitValue(s[0]));
    }
  }

  lemma {:induction false} ReadDecimal(n: nat)
    ensures ReadDigits(Decimal(n), 0) == n
  {
    if n < 10 {
      assert [Digit(n)][1..] == "";
    } else {
      ReadDecimal(n / 10);
      ReadDigitsSnoc(Decimal(n / 10), Digit(n % 10), 0);
    }
  }

  lemma {:induction false} AtoiOfDecimal(n: nat)
    ensures Atoi(Decimal(n)) == n
  {
    ReadDecimal(n);
  }

  lemma {:induction false} DigitsThenOther(s: string, rest: string, acc: nat)
    requires forall i :: 0 <= i < |s| ==> IsDigit(s[i])
    requires rest != "" ==> !IsDigit(rest[0])
    ensures ReadDigits(s + rest, acc) == ReadDigits(s, acc)
    decreases |s|
  {
    if s == "" {
      assert s + rest == rest;
    } else {
      assert (s + rest)[1..] == s[1..] + rest;
      DigitsThenOther(s[1..], rest, 10 * acc + DigitValue(s[0]));
    }
  }

  lemma {:induction false} AtoiCases(t: string)
    requires t != ""
    ensures t[0] == '-' ==> Atoi(t) == 0 - ReadDigits(t[1..], 0)
    ensures t[0] == '+' ==> Atoi(t) == ReadDigits(t[1..], 0)
    ensures IsDigit(t[0]) ==> Atoi(t) == ReadDigits(t, 0)
  {
    hide ReadDigits;
  }

  /** An optional sign, the digits, and whatever else. */
  lemma {:induction false} AtoiReads(sign: string, n: nat, rest: string)
    requires sign == "" || sign == "+" || sign == "-"
    requires rest != "" ==> !IsDigit(rest[0])
    ensures Atoi(sign + Decimal(n) + rest) == if sign == "-" then 0 - n else n
  {
    ReadDecimal(n);
    DigitsThenOther(Decimal(n), rest, 0);
    hide ReadDigits, Decimal, SkipSpace, Atoi;
    var t := sign + Decimal(n) + rest;
    AtoiCases(t);
    if sign == "" {
      assert t == Decimal(n) + rest;
    } else {
      assert t[1..] == Decimal(n) + rest;
    }
  }

  function Pow10(k: nat): nat {
    if k == 0 then 1 else 10 * Pow10(k - 1)
  }

  lemma {:induction false} DecimalLength(n: nat, k: nat)
    requires 0 < k && n < Pow10(k)
    ensures |Decimal(n)| <= k
    decreases k
  {
    if n >= 10 {
      assert k > 1 by {
        assert Pow10(1) == 10;
      }
      DecimalLength(n / 10, k - 1);
    }
  }

  // ---------- MAC addresses as text ----------

  function HexDigit(d: nat): char
    requires d < 16
  {
    if d < 10 then (d + '0' as int) as char else (d - 10 + 'a' as int) as char
  }

  function HexValue(c: char): Option<nat> {
    if '0' <= c <= '9' then Some(c as int - '0' as int)
    else if 'a' <= c <= 'f' then Some(c as int - 'a' as int + 10)
    else if 'A' <= c <= 'F' then Some(c as int - 'A' as int + 10)
    else None
  }

  /** %02x. */
  function Hex2(b: byte): string {
    [HexDigit(b / 16), HexDigit(b % 16)]
  }

  function MacText(m: Mac): (s: string)
    ensures |s| == 17
  {
    Hex2(m.b0) + ":" + Hex2(m.b1) + ":" + Hex2(m.b2) + ":" + Hex2(m.b3) + ":" + Hex2(m.b4) + ":" + Hex2(m.b5)
  }

  /** %2x: one or two hexadecimal digits, and what is left. */
  function ScanHex2(s: string): Option<(byte, string)> {
    var t := SkipSpace(s);
    if t == "" || HexValue(t[0]).None? then None
    else if |t| > 1 && HexValue(t[1]).Some? then Some((16 * HexValue(t[0]).value + HexValue(t[1]).value, t[2..]))
    else Some((HexValue(t[0]).value, t[1..]))
  }

  /** ":%2x". */
  function ScanColonHex2(s: string): Option<(byte, string)> {
    if s == "" || s[0] != ':' then None else ScanHex2(s[1..])
  }

  /** parse_mac: six groups; whatever follows them is ignored. */
  function ParseMac(s: string): Option<Mac> {
    match ScanHex2(s) case None => None case Some(a) =>
    match ScanColonHex2(a.1) case None => None case Some(b) =>
    match ScanColonHex2(b.1) case None => None case Some(c) =>
    match ScanColonHex2(c.1) case None => None case Some(d) =>
    match ScanColonHex2(d.1) case None => None case Some(e) =>
    match ScanColonHex2(e.1) case None => None case Some(f) =>
    Some(Mac(a.0, b.0, c.0, d.0, e.0, f.0))
  }

  lemma {:induction false} ScanBack(b: byte, rest: string)
    ensures ScanHex2(Hex2(b) + rest) == Some((b, rest))
  {
  }

  lemma {:induction false} ParseMacOfText(m: Mac)
    ensures ParseMac(MacText(m)) == Some(m)
  {
    hide ScanHex2, Hex2;
    var r5 := ":" + Hex2(m.b5);
    var r4 := ":" + (Hex2(m.b4) + r5);
    var r3 := ":" + (Hex2(m.b3) + r4);
    var r2 := ":" + (Hex2(m.b2) + r3);
    var r1 := ":" + (Hex2(m.b1) + r2);
    assert MacText(m) == Hex2(m.b0) + r1;
    ScanBack(m.b0, r1);
    assert r1[1..] == Hex2(m.b1) + r2 && r2[1..] == Hex2(m.b2) + r3 && r3[1..] == Hex2(m.b3) + r4;
    assert r4[1..] == Hex2(m.b4) + r5 && r5[1..] == Hex2(m.b5) + "";
    ScanBack(m.b1, r2);
    ScanBack(m.b2, r3);
    ScanBack(m.b3, r4);
    ScanBack(m.b4, r5);
    ScanBack(m.b5, "");
  }

  /** How one group may be written: one digit for a small number, and either case. */
  datatype Style = Style(short: bool, highUpper: bool, lowUpper: bool)

  function HexChar(d: nat, upper: bool): char
    requires d < 16
  {
    if d < 10 then (d + '0' as int) as char
    else (d - 10 + if upper then 'A' as int else 'a' as int) as char
  }

  function GroupText(b: byte, style: Style): string {
    if style.short && b < 16 then [HexChar(b, style.lowUpper)]
    else [HexChar(b / 16, style.highUpper), HexChar(b % 16, style.lowUpper)]
  }

  lemma {:induction false} ScanGroup(b: byte, style: Style, rest: string)
    requires rest != "" ==> HexValue(rest[0]).None?
    ensures ScanHex2(GroupText(b, style) + rest) == Some((b, rest))
  {
  }

  lemma {:induction false} ScanColonGroup(b: byte, style: Style, rest: string)
    requires rest != "" ==> HexValue(rest[0]).None?
    ensures ScanColonHex2(":" + (GroupText(b, style) + rest)) == Some((b, rest))
  {
    ScanGroup(b, style, rest);
    hide GroupText, ScanHex2;
    assert (":" + (GroupText(b, style) + rest))[1..] == GroupText(b, style) + rest;
  }

  /** Six groups, each in any of these ways, whatever follows the last. */
  lemma {:induction false} ParseMacOfGroups(m: Mac, a: Style, b: Style, c: Style, d: Style, e: Style, f: Style, rest: string)
    requires rest != "" ==> HexValue(rest[0]).None?
    ensures ParseMac(GroupText(m.b0, a) + (":" + (GroupText(m.b1, b) + (":" + (GroupText(m.b2, c) + (":" + (GroupText(m.b3, d)
      + (":" + (GroupText(m.b4, e) + (":" + (GroupText(m.b5, f) + rest))))))))))) == Some(m)
  {
    var r5 := ":" + (GroupText(m.b5, f) + rest);
    var r4 := ":" + (GroupText(m.b4, e) + r5);
    var r3 := ":" + (GroupText(m.b3, d) + r4);
    var r2 := ":" + (GroupText(m.b2, c) + r3);
    var r1 := ":" + (GroupText(m.b1, b) + r2);
    ScanColonGroup(m.b5, f, rest);
    ScanColonGroup(m.b4, e, r5);
    ScanColonGroup(m.b3, d, r4);
    ScanColonGroup(m.b2, c, r3);
    ScanColonGroup(m.b1, b, r2);
    ScanGroup(m.b0, a, r1);
    hide GroupText, ScanHex2, ScanColonHex2, HexValue;
  }

  function Colons(s: string): nat {
    if s == "" then 0 else (if s[0] == ':' then 1 else 0) + Colons(s[1..])
  }

  lemma {:induction false} SkipKeepsColons(s: string)
    ensures Colons(SkipSpace(s)) == Colons(s)
    decreases |s|
  {
    if s != "" && IsSpace(s[0]) {
      SkipKeepsColons(s[1..]);
    }
  }

  lemma {:induction false} ScanTakesNoColon(s: string)
    ensures ScanHex2(s).Some? ==> Colons(ScanHex2(s).value.1) == Colons(s)
  {
    SkipKeepsColons(s);
    var t := SkipSpace(s);
    if |t| > 1 {
      assert t[1..][1..] == t[2..];
    }
  }

  lemma {:induction false} ScanTakesColon(s: string)
    ensures ScanColonHex2(s).Some? ==> Colons(ScanColonHex2(s).value.1) + 1 == Colons(s)
  {
    if s != "" {
      ScanTakesNoColon(s[1..]);
    }
  }

  /** Anything with fewer than five colons is refused. */
  lemma {:induction false} MacNeedsColons(s: string)
    ensures ParseMac(s).Some? ==> Colons(s) >= 5
  {
    if ParseMac(s).Some? {
      var a := ScanHex2(s).value.1;
      ScanTakesNoColon(s);
      ScanTakesColon(a);
      var b := ScanColonHex2(a).value.1;
      ScanTakesColon(b);
      var c := ScanColonHex2(b).value.1;
      ScanTakesColon(c);
      var d := ScanColonHex2(c).value.1;
      ScanTakesColon(d);
      var e := ScanColonHex2(d).value.1;
      ScanTakesColon(e);
      hide ScanHex2, ScanColonHex2, Colons;
    }
  }

  // ---------- Tokens ----------

  function Until(s: string): (k: nat)
    ensures k <= |s| && (forall i :: 0 <= i < k ==> s[i] != ',') && (k < |s| ==> s[k] == ',')
  {
    if s == "" || s[0] == ',' then 0 else 1 + Until(s[1..])
  }

  /** The non-empty pieces between commas, as repeated strtok calls give them. */
  function Tokens(s: string): seq<string>
    decreases |s|
  {
    if s == "" then []
    else if s[0] == ',' then Tokens(s[1..])
    else [s[..Until(s)]] + Tokens(s[Until(s)..])
  }

  predicate NoComma(s: string) {
    forall i :: 0 <= i < |s| ==> s[i] != ','
  }

  lemma {:induction false} UntilIs(s: string, k: nat)
    requires k <= |s| && NoComma(s[..k]) && (k < |s| ==> s[k] == ',')
    ensures Until(s) == k
    decreases k
  {
  }

  /** A token and what comes after the comma that ends it. */
  lemma {:induction false} TokenAt(s: string, start: nat, end: nat)
    requires start < end <= |s| && NoComma(s[start..end]) && (end < |s| ==> s[end] == ',')
    ensures Tokens(s[start..]) == [s[start..end]] + if end < |s| then Tokens(s[end + 1..]) else []
  {
    var t := s[start..];
    assert t[..end - start] == s[start..end] && t[end - start..] == s[end..];
    assert t[0] == s[start..end][0];
    UntilIs(t, end - start);
    if end < |s| {
      assert s[end..][1..] == s[end + 1..];
    }
  }

  lemma {:induction false} TokensOfJoin(a: string, rest: string)
    requires a != "" && NoComma(a)
    ensures Tokens(a) == [a]
    ensures Tokens(a + "," + rest) == [a] + Tokens(rest)
  {
    assert a[..|a|] == a;
    UntilIs(a, |a|);
    var s := a + "," + rest;
    assert s[..|a|] == a && s[|a|] == ',';
    UntilIs(s, |a|);
    assert s[|a|..] == "," + rest && ("," + rest)[1..] == rest;
  }

  // ---------- The parsed flow ----------

  datatype ParsedFlow = ParsedFlow(
    hasPriority: bool, priority: nat, hasInPort: bool, inPort: nat, hasDlDst: bool, dlDst: Mac,
    hasIp: bool, hasOutput: bool, outputPort: nat)

  const NO_FLOW: ParsedFlow := ParsedFlow(false, 0, false, 0, false, Mac(0, 0, 0, 0, 0, 0), false, false, 0)

  /** The fields have the widths of the C structure. */
  predicate Wide(f: ParsedFlow) {
    f.priority < 0x1_0000 && f.inPort < 0x1_0000_0000 && f.outputPort < 0x1_0000_0000
  }

  /** What one token does; None is the error return. */
  function ApplyToken(f: ParsedFlow, tok: string): Option<ParsedFlow> {
    if "priority=" <= tok then Some(f.(hasPriority := true, priority := Atoi(tok[9..]) % 0x1_0000))
    else if "in_port=" <= tok then Some(f.(hasInPort := true, inPort := Atoi(tok[8..]) % 0x1_0000_0000))
    else if "dl_dst=" <= tok then
      match ParseMac(tok[7..])
      case None => None
      case Some(m) => Some(f.(hasDlDst := true, dlDst := m))
    else if tok == "ip" then Some(f.(hasIp := true))
    else if "actions=output:" <= tok then Some(f.(hasOutput := true, outputPort := Atoi(tok[15..]) % 0x1_0000_0000))
    else if tok == "actions=normal" then Some(f.(hasOutput := true, outputPort := OFPP_NORMAL))
    else Some(f)
  }

  function ApplyTokens(f: ParsedFlow, toks: seq<string>): (r: Option<ParsedFlow>)
    ensures Wide(f) && r.Some? ==> Wide(r.value)
    decreases |toks|
  {
    if toks == [] then Some(f)
    else
      match ApplyToken(f, toks[0])
      case None => None
      case Some(g) => ApplyTokens(g, toks[1..])
  }

  /** parse_flow_string. */
  function ParseFlow(s: string): (r: Option<ParsedFlow>)
    ensures r.Some? ==> Wide(r.value)
  {
    if |s| >= FLOW_BUFFER then None else ApplyTokens(NO_FLOW, Tokens(s))
  }

  method SkipCommas(buf: array<char>, n: nat, from: nat) returns (start: nat)
    requires from <= n <= buf.Length
    ensures from <= start <= n && (start < n ==> buf[start] != ',')
    ensures Tokens(buf[..n][from..]) == Tokens(buf[..n][start..])
  {
    ghost var s := buf[..n];
    start := from;
    while start < n && buf[start] == ','
      invariant from <= start <= n
      invariant Tokens(s[from..]) == Tokens(s[start..])
    {
      assert s[start..][1..] == s[start + 1..];
      start := start + 1;
    }
  }

  method EndOfToken(buf: array<char>, n: nat, start: nat) returns (end: nat)
    requires start < n <= buf.Length && buf[start] != ','
    ensures start < end <= n && NoComma(buf[..n][start..end]) && (end < n ==> buf[end] == ',')
  {
    end := start + 1;
    while end < n && buf[end] != ','
      invariant start < end <= n
      invariant forall i :: start <= i < end ==> buf[i] != ','
    {
      end := end + 1;
    }
  }

  /** One strtok_r call: skip commas, take a token, overwrite the comma after it with NUL. */
  method StrTok(buf: array<char>, n: nat, from: nat) returns (found: bool, start: nat, end: nat, save: nat)
    requires from <= n <= buf.Length
    modifies buf
    ensures found ==> start < end <= save <= n && from < save
    ensures found ==> Tokens(old(buf[from..n])) == [buf[start..end]] + Tokens(buf[save..n])
    ensures !found ==> Tokens(old(buf[from..n])) == []
  {
    hide Tokens, NoComma, Until;
    ghost var s := buf[..n];
    start := SkipCommas(buf, n, from);
    assert buf[from..n] == s[from..];
    NoTokens(s[n..]);
    if start == n {
      return false, start, start, start;
    }
    end := EndOfToken(buf, n, start);
    TokenAt(s, start, end);
    ghost var tok := buf[start..end];
    assert tok == s[start..end];
    save := end;
    if end < n {
      ghost var rest := buf[end + 1..n];
      assert rest == s[end + 1..];
      buf[end] := '\0';
      save := end + 1;
      assert buf[save..n] == rest;
    }
    assert buf[start..end] == tok;
    found := true;
  }

  lemma {:induction false} NoTokens(s: string)
    requires s == ""
    ensures Tokens(s) == []
  {
  }

  /** The parser as it is written, over a private copy of the string. */
  method ParseFlowString(flow: string) returns (code: int, out: ParsedFlow)
    ensures code == if ParseFlow(flow).Some? then 0 else -1
    ensures code == 0 ==> out == ParseFlow(flow).value
  {
    out := NO_FLOW;
    var n := |flow|;
    if n >= FLOW_BUFFER {
      return -1, out;
    }
    var buf := new char[FLOW_BUFFER](i requires 0 <= i => if i < n then flow[i] else '\0');
    assert buf[0..n] == flow;
    var found, start: nat, end: nat, save: nat := StrTok(buf, n, 0);
    while found
      invariant found ==> start < end <= save <= n
      invariant ParseFlow(flow) == if found then ApplyTokens(out, [buf[start..end]] + Tokens(buf[save..n])) else Some(out)
      decreases found, n - save
    {
      ghost var rest := Tokens(buf[save..n]);
      assert ([buf[start..end]] + rest)[1..] == rest;
      match ApplyToken(out, buf[start..end]) {
        case None =>
          return -1, out;
        case Some(g) =>
          out := g;
      }
      found, start, end, save := StrTok(buf, n, save);
    }
    code := 0;
  }

  // ---------- The printer ----------

  /** install_flow of the learning applications. */
  function PrintFlow(inPort: nat, dst: Mac, outPort: nat): string {
    "priority=100,in_port=" + Decimal(inPort) + ",dl_dst=" + MacText(dst) + ",actions=output:" + Decimal(outPort)
  }

  lemma {:induction false} MacHasNoComma(m: Mac)
    ensures NoComma(MacText(m))
  {
  }

  // ---------- What the strings say ----------

  /** One field of a flow string; `Unknown` is a token the parser does not look for. */
  datatype Field = Priority(p: nat) | InPort(p: nat) | DlDst(m: Mac) | Ip | OutputTo(p: nat) | Normal | Unknown(text: string)

  predicate Recognised(t: string) {
    || "priority=" <= t || "in_port=" <= t || "dl_dst=" <= t || t == "ip" || "actions=output:" <= t || t == "actions=normal"
  }

  /** Numbers within their width, and unknown tokens that really are. */
  predicate Proper(x: Field) {
    match x
    case Priority(p) => p < 0x1_0000
    case InPort(p) => p < 0x1_0000_0000
    case OutputTo(p) => p < 0x1_0000_0000
    case Unknown(t) => t != "" && NoComma(t) && !Recognised(t)
    case _ => true
  }

  function FieldText(x: Field): string {
    match x
    case Priority(p) => "priority=" + Decimal(p)
    case InPort(p) => "in_port=" + Decimal(p)
    case DlDst(m) => "dl_dst=" + MacText(m)
    case Ip => "ip"
    case OutputTo(p) => "actions=output:" + Decimal(p)
    case Normal => "actions=normal"
    case Unknown(t) => t
  }

  function Joined(xs: seq<Field>): string {
    if xs == [] then "" else if |xs| == 1 then FieldText(xs[0]) else FieldText(xs[0]) + "," + Joined(xs[1..])
  }

  /** A field sets its own members and no other; an unknown one sets nothing. */
  function Sets(f: ParsedFlow, x: Field): ParsedFlow {
    match x
    case Priority(p) => f.(hasPriority := true, priority := p)
    case InPort(p) => f.(hasInPort := true, inPort := p)
    case DlDst(m) => f.(hasDlDst := true, dlDst := m)
    case Ip => f.(hasIp := true)
    case OutputTo(p) => f.(hasOutput := true, outputPort := p)
    case Normal => f.(hasOutput := true, outputPort := 0xfffffffa)
    case Unknown(_) => f
  }

  function SetsAll(f: ParsedFlow, xs: seq<Field>): ParsedFlow
    decreases |xs|
  {
    if xs == [] then f else SetsAll(Sets(f, xs[0]), xs[1..])
  }

  lemma {:induction false} TakesNumber(f: ParsedFlow, p: nat)
    ensures p < 0x1_0000 ==> ApplyToken(f, "priority=" + Decimal(p)) == Some(f.(hasPriority := true, priority := p))
    ensures p < 0x1_0000_0000 ==> ApplyToken(f, "in_port=" + Decimal(p)) == Some(f.(hasInPort := true, inPort := p))
    ensures p < 0x1_0000_0000 ==> ApplyToken(f, "actions=output:" + Decimal(p)) == Some(f.(hasOutput := true, outputPort := p))
  {
    AtoiOfDecimal(p);
    hide Decimal, Atoi;
    var a, b, c := "priority=" + Decimal(p), "in_port=" + Decimal(p), "actions=output:" + Decimal(p);
    assert a[9..] == Decimal(p) && a[0] == 'p';
    assert b[8..] == Decimal(p) && b[0] == 'i';
    assert c[15..] == Decimal(p) && c[0] == 'a' && c[2] == 't';
  }

  lemma {:induction false} TakesMac(f: ParsedFlow, m: Mac)
    ensures ApplyToken(f, "dl_dst=" + MacText(m)) == Some(f.(hasDlDst := true, dlDst := m))
  {
    ParseMacOfText(m);
    hide MacText, ParseMac;
    var tok := "dl_dst=" + MacText(m);
    assert tok[7..] == MacText(m) && tok[0] == 'd';
  }

  lemma {:induction false} TakesField(f: ParsedFlow, x: Field)
    requires Proper(x)
    ensures ApplyToken(f, FieldText(x)) == Some(Sets(f, x))
  {
    match x {
      case Priority(p) =>
        hide ApplyToken;
        TakesNumber(f, p);
      case InPort(p) =>
        hide ApplyToken;
        TakesNumber(f, p);
      case OutputTo(p) =>
        hide ApplyToken;
        TakesNumber(f, p);
      case DlDst(m) =>
        hide ApplyToken, MacText;
        TakesMac(f, m);
      case Unknown(_) =>
        hide ParseMac, Atoi;
      case _ =>
        TakesWord(f);
        hide ApplyToken;
    }
  }

  lemma {:induction false} TakesWord(f: ParsedFlow)
    ensures ApplyToken(f, "ip") == Some(f.(hasIp := true))
    ensures ApplyToken(f, "actions=normal") == Some(f.(hasOutput := true, outputPort := 0xfffffffa))
  {
    var a, b := "ip", "actions=normal";
    assert |a| == 2 && b[0] == 'a' && b[8] == 'n' && "actions=output:"[8] == 'o';
    hide ParseMac, Atoi;
  }

  lemma {:induction false} TextIsToken(x: Field)
    requires Proper(x)
    ensures FieldText(x) != "" && NoComma(FieldText(x))
  {
    match x {
      case DlDst(m) =>
        MacHasNoComma(m);
        hide MacText;
      case Unknown(_) =>
      case _ =>
        hide Recognised;
    }
  }

  lemma {:induction false} TakesFields(f: ParsedFlow, xs: seq<Field>)
    requires forall i :: 0 <= i < |xs| ==> Proper(xs[i])
    ensures ApplyTokens(f, Tokens(Joined(xs))) == Some(SetsAll(f, xs))
    decreases |xs|
  {
    if xs != [] {
      var tok := FieldText(xs[0]);
      TakesField(f, xs[0]);
      TextIsToken(xs[0]);
      TakesFields(Sets(f, xs[0]), xs[1..]);
      hide ApplyToken, FieldText, Sets, NoComma;
      if |xs| == 1 {
        TokensOfJoin(tok, "");
        assert Joined(xs[1..]) == "" && Tokens("") == [];
      } else {
        TokensOfJoin(tok, Joined(xs[1..]));
      }
      assert ([tok] + Tokens(Joined(xs[1..])))[1..] == Tokens(Joined(xs[1..]));
    }
  }

  /** Any fields in any order and number, written with commas between them: the parse has exactly
      what they say, a later field overriding an earlier one of its kind, unknown ones ignored. */
  lemma {:induction false} ParseOfFields(xs: seq<Field>)
    requires forall i :: 0 <= i < |xs| ==> Proper(xs[i])
    ensures ParseFlow(Joined(xs)) == if |Joined(xs)| < 512 then Some(SetsAll(NO_FLOW, xs)) else None
  {
    TakesFields(NO_FLOW, xs);
    hide Tokens, Joined, ApplyTokens;
  }

  ghost predicate BadMac(tok: string) {
    "dl_dst=" <= tok && ParseMac(tok[7..]).None?
  }

  lemma {:induction false} RefusedTokens(f: ParsedFlow, toks: seq<string>)
    ensures ApplyTokens(f, toks).None? <==> exists i :: 0 <= i < |toks| && BadMac(toks[i])
    decreases |toks|
  {
    if toks != [] {
      RefusedToken(f, toks[0]);
      hide ApplyToken, BadMac;
      if ApplyToken(f, toks[0]).Some? {
        RefusedTokens(ApplyToken(f, toks[0]).value, toks[1..]);
        if i :| 0 <= i < |toks| && BadMac(toks[i]) {
          assert i > 0 && BadMac(toks[1..][i - 1]);
        }
        if i :| 0 <= i < |toks| - 1 && BadMac(toks[1..][i]) {
          assert BadMac(toks[i + 1]);
        }
      }
    }
  }

  lemma {:induction false} RefusedToken(f: ParsedFlow, tok: string)
    ensures ApplyToken(f, tok).None? <==> BadMac(tok)
  {
    assert "dl_dst=" <= tok ==> tok[0] == 'd';
    hide ParseMac, Atoi;
  }

  /** The two error returns and no other: a string too long for the buffer, a MAC that cannot be read. */
  lemma {:induction false} RefusedExactly(s: string)
    ensures ParseFlow(s).None? <==> |s| >= 512 || exists i :: 0 <= i < |Tokens(s)| && BadMac(Tokens(s)[i])
  {
    hide Tokens, ApplyTokens, BadMac;
    var toks := Tokens(s);
    RefusedTokens(NO_FLOW, toks);
    assert |s| < 512 ==> ParseFlow(s) == ApplyTokens(NO_FLOW, toks);
  }

  // ---------- The documented forms ----------

  lemma {:induction false} TwoFields(x: Field, y: Field)
    ensures Joined([x, y]) == FieldText(x) + "," + FieldText(y)
    ensures forall f :: SetsAll(f, [x, y]) == Sets(Sets(f, x), y)
  {
    hide FieldText, Sets;
    assert [x, y][1..] == [y] && [y][1..] == [];
    assert Joined([y]) == FieldText(y);
    forall f ensures SetsAll(f, [x, y]) == Sets(Sets(f, x), y) {
      assert SetsAll(Sets(Sets(f, x), y), []) == Sets(Sets(f, x), y);
      assert SetsAll(Sets(f, x), [y]) == Sets(Sets(f, x), y);
    }
  }

  lemma {:induction false} ThreeFields(x: Field, y: Field, z: Field)
    ensures Joined([x, y, z]) == FieldText(x) + "," + (FieldText(y) + "," + FieldText(z))
    ensures forall f :: SetsAll(f, [x, y, z]) == Sets(Sets(Sets(f, x), y), z)
  {
    TwoFields(y, z);
    hide FieldText, Sets;
    assert [x, y, z][1..] == [y, z];
  }

  lemma {:induction false} FourFields(x: Field, y: Field, z: Field, w: Field)
    ensures Joined([x, y, z, w]) == FieldText(x) + "," + (FieldText(y) + "," + (FieldText(z) + "," + FieldText(w)))
    ensures forall f :: SetsAll(f, [x, y, z, w]) == Sets(Sets(Sets(Sets(f, x), y), z), w)
  {
    ThreeFields(y, z, w);
    hide FieldText, Sets;
    assert [x, y, z, w][1..] == [y, z, w];
  }

  lemma {:induction false} TextLength(x: Field)
    requires Proper(x) && !x.Unknown?
    ensures |FieldText(x)| <= 26
  {
    assert Pow10(10) == 10000000000;
    if x.Priority? || x.InPort? || x.OutputTo? {
      DecimalLength(x.p, 10);
    }
    hide Decimal, MacText, Pow10;
  }

  /** "priority=P,ip,actions=normal". */
  lemma {:induction false} ParseOfNormal(p: nat)
    requires p < 0x1_0000
    ensures ParseFlow("priority=" + Decimal(p) + ",ip,actions=normal") ==
      Some(ParsedFlow(true, p, false, 0, false, Mac(0, 0, 0, 0, 0, 0), true, true, 0xfffffffa))
  {
    hide ParseFlow, Joined, SetsAll, Decimal;
    TextLength(Priority(p));
    TextLength(Ip);
    TextLength(Normal);
    hide FieldText;
    ThreeFields(Priority(p), Ip, Normal);
    ParseOfFields([Priority(p), Ip, Normal]);
    NormalText(p);
  }

  lemma {:induction false} NormalText(p: nat)
    ensures FieldText(Priority(p)) + "," + (FieldText(Ip) + "," + FieldText(Normal))
      == "priority=" + Decimal(p) + ",ip,actions=normal"
  {
    hide Decimal;
    var a := "priority=" + Decimal(p);
    assert "," + ("ip" + "," + "actions=normal") == ",ip,actions=normal";
    assert a + "," + ("ip" + "," + "actions=normal") == a + ("," + ("ip" + "," + "actions=normal"));
  }

  /** "priority=P,in_port=N,actions=output:M". */
  lemma {:induction false} ParseOfInPort(p: nat, inPort: nat, outPort: nat)
    requires p < 0x1_0000 && inPort < 0x1_0000_0000 && outPort < 0x1_0000_0000
    ensures ParseFlow("priority=" + Decimal(p) + "," + ("in_port=" + Decimal(inPort) + "," + ("actions=output:" + Decimal(outPort))))
      == Some(ParsedFlow(true, p, true, inPort, false, Mac(0, 0, 0, 0, 0, 0), false, true, outPort))
  {
    var x, y, z := Priority(p), InPort(inPort), OutputTo(outPort);
    ThreeFields(x, y, z);
    TextLength(x);
    TextLength(y);
    TextLength(z);
    ParseOfFields([x, y, z]);
    hide ParseFlow, Joined, SetsAll, Decimal;
  }

  /** "priority=P,in_port=N,dl_dst=MAC,actions=output:M". */
  lemma {:induction false} ParseOfInPortAndMac(p: nat, inPort: nat, dst: Mac, outPort: nat)
    requires p < 0x1_0000 && inPort < 0x1_0000_0000 && outPort < 0x1_0000_0000
    ensures ParseFlow("priority=" + Decimal(p) + "," + ("in_port=" + Decimal(inPort) + ","
        + ("dl_dst=" + MacText(dst) + "," + ("actions=output:" + Decimal(outPort)))))
      == Some(ParsedFlow(true, p, true, inPort, true, dst, false, true, outPort))
  {
    var x, y, z, w := Priority(p), InPort(inPort), DlDst(dst), OutputTo(outPort);
    FourFields(x, y, z, w);
    TextLength(x);
    TextLength(y);
    TextLength(z);
    TextLength(w);
    ParseOfFields([x, y, z, w]);
    hide ParseFlow, Joined, SetsAll, Decimal, MacText;
  }

  lemma {:induction false} OneField(x: Field)
    requires Proper(x) && !x.Unknown?
    ensures ParseFlow(FieldText(x)) == Some(Sets(NO_FLOW, x))
  {
    ParseOfFields([x]);
    TextLength(x);
    hide ParseFlow, FieldText, Sets;
    assert [x][1..] == [] && SetsAll(Sets(NO_FLOW, x), []) == Sets(NO_FLOW, x);
  }

  /** The bare matches of a delete: one field, or port and MAC. */
  lemma {:induction false} ParseOfBareMatch(inPort: nat, dst: Mac)
    requires inPort < 0x1_0000_0000
    ensures ParseFlow("in_port=" + Decimal(inPort))
      == Some(ParsedFlow(false, 0, true, inPort, false, Mac(0, 0, 0, 0, 0, 0), false, false, 0))
    ensures ParseFlow("dl_dst=" + MacText(dst)) == Some(ParsedFlow(false, 0, false, 0, true, dst, false, false, 0))
    ensures ParseFlow("ip") == Some(ParsedFlow(false, 0, false, 0, false, Mac(0, 0, 0, 0, 0, 0), true, false, 0))
    ensures ParseFlow("in_port=" + Decimal(inPort) + "," + ("dl_dst=" + MacText(dst)))
      == Some(ParsedFlow(false, 0, true, inPort, true, dst, false, false, 0))
  {
    var x, y := InPort(inPort), DlDst(dst);
    OneField(x);
    OneField(y);
    OneField(Ip);
    TwoFields(x, y);
    TextLength(x);
    TextLength(y);
    ParseOfFields([x, y]);
    hide ParseFlow, Joined, SetsAll, Decimal, MacText;
  }

  // ---------- From printer to parser ----------

  lemma {:induction false} Regroup(a: string, p: string, x: string, q: string, y: string, r: string, z: string)
    ensures a + "," + p + x + ("," + q) + y + ("," + r) + z == a + "," + (p + x + "," + (q + y + "," + (r + z)))
  {
  }

  lemma {:induction false} HundredIs()
    ensures Decimal(100) == "100"
  {
    assert Decimal(1) == "1" && Decimal(10) == Decimal(1) + "0";
    assert Decimal(100) == Decimal(10) + "0";
  }

  /** Printing and parsing a decision gives it back, for every 16-bit port and every MAC; the
      buffers of 18 and 256 characters never cut anything off. */
  lemma {:induction false} ParseOfPrint(inPort: nat, dst: Mac, outPort: nat)
    requires inPort < 0x1_0000 && outPort < 0x1_0000
    ensures ParseFlow(PrintFlow(inPort, dst, outPort)) ==
      Some(ParsedFlow(true, 100, true, inPort, true, dst, false, true, outPort))
    ensures |MacText(dst)| < 18 && |PrintFlow(inPort, dst, outPort)| < 256
  {
    assert Pow10(5) == 100000;
    DecimalLength(inPort, 5);
    DecimalLength(outPort, 5);
    ParseOfInPortAndMac(100, inPort, dst, outPort);
    PrintedText(inPort, dst, outPort);
    hide Decimal, MacText, ParseFlow;
    PrintedLength(inPort, dst, outPort);
  }

  lemma {:induction false} PrintedLength(inPort: nat, dst: Mac, outPort: nat)
    ensures |PrintFlow(inPort, dst, outPort)| == 62 + |Decimal(inPort)| + |Decimal(outPort)|
  {
    hide Decimal, MacText;
  }

  lemma {:induction false} PrintedText(inPort: nat, dst: Mac, outPort: nat)
    ensures PrintFlow(inPort, dst, outPort) == "priority=" + Decimal(100) + "," + ("in_port=" + Decimal(inPort) + ","
        + ("dl_dst=" + MacText(dst) + "," + ("actions=output:" + Decimal(outPort))))
  {
    HundredIs();
    PrintedParts();
    hide Decimal, MacText;
    Regroup("priority=100", "in_port=", Decimal(inPort), "dl_dst=", MacText(dst), "actions=output:", Decimal(outPort));
  }

  lemma {:induction false} PrintedParts()
    ensures "priority=" + "100" == "priority=100" && "priority=100,in_port=" == "priority=100" + "," + "in_port="
    ensures ",dl_dst=" == "," + "dl_dst=" && ",actions=output:" == "," + "actions=output:"
  {
  }
}
