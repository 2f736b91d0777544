/** The persistent switch adapter: flow strings in, Flow-Mods on one stream, and what a switch
    that cuts the stream by the length fields makes of it.
 */
module PersistentAdapter {
  import opened Basics
  import opened FlowMod
  import opened FlowString
  import opened PeerProtocol

  /** One Flow-Mod asked for. */
  datatype Order = Order(xid: nat, command: byte, flow: ParsedFlow)

  predicate Sound(o: Order) {
    o.xid < 0x1_0000_0000 && Wide(o.flow)
  }

  function Message(o: Order): seq<byte> {
    FlowModBytes(o.xid, o.command, o.flow)
  }

  function Messages(os: seq<Order>): seq<byte> {
    if os == [] then [] else Messages(os[..|os| - 1]) + Message(os[|os| - 1])
  }

  /** What the switch is told: an add or a delete, its priority, match and, for an add, output. */
  function Told(o: Order): Reading {
    Reading(o.xid, o.command, if o.flow.hasPriority then o.flow.priority else 0, MatchOf(o.flow),
      if o.command == 0 && o.flow.hasOutput then Some(o.flow.outputPort) else None)
  }

  /** The switch: message after message by the length in bytes 2 and 3, until one is cut short
      or is no Flow-Mod. */
  function ReadStream(bs: seq<byte>): seq<Reading>
    decreases |bs|
  {
    if |bs| < 8 then []
    else
      var len := Value(bs[2..4]);
      if len < 8 || |bs| < len then []
      else
        match ReadFlowMod(bs[..len])
        case None => []
        case Some(r) => [r] + ReadStream(bs[len..])
  }

  function AllTold(os: seq<Order>): seq<Reading> {
    seq(|os|, i requires 0 <= i < |os| => Told(os[i]))
  }

  lemma {:induction false} PackHead(fmt: string, v: seq<nat>)
    requires |fmt| == |v| >= 3 && Width(fmt[0]) == Width(fmt[1]) == 1 && Width(fmt[2]) == 2
    ensures 4 <= |Pack(fmt, v)| && Pack(fmt, v)[2..4] == BigEndian(2, v[2])
  {
    var third := Pack(fmt[1..][1..], v[1..][1..]);
    assert fmt[1..][1..][0] == fmt[2] && v[1..][1..][0] == v[2];
    assert third[..2] == BigEndian(2, v[2]);
    hide BigEndian, Width;
    assert Pack(fmt, v) == BigEndian(1, v[0]) + (BigEndian(1, v[1]) + third);
    hide Pack;
  }

  lemma {:induction false} LengthPlace(xid: nat, command: byte, f: ParsedFlow, length: nat)
    ensures |FixedFields(xid, command, f, length)| == 16 && FixedFields(xid, command, f, length)[2] == length
  {
  }

  lemma {:induction false} LengthIs(fmt: string, xid: nat, command: byte, f: ParsedFlow)
    requires IsFixed(fmt) && fmt == FixedFmt()
    ensures |FlowModBytes(xid, command, f)| == 48 + |BodyBytes(command, f)|
    ensures FlowModBytes(xid, command, f)[2..4] == BigEndian(2, 48 + |BodyBytes(command, f)|)
  {
    hide FixedFields, BodyBytes, BigEndian, Pack, FixedFmt, IsFixed, Size, Width;
    LengthPlace(xid, command, f, 48 + |BodyBytes(command, f)|);
    Head(fmt, FixedFields(xid, command, f, 48 + |BodyBytes(command, f)|), BodyBytes(command, f));
  }

  /** The message says its own length. */
  lemma {:induction false} LengthField(o: Order)
    ensures 48 <= |Message(o)| < 0x1_0000 && Value(Message(o)[2..4]) == |Message(o)|
  {
    hide FixedFmt, BodyBytes, BigEndian, Value, IsFixed, FlowModBytes;
    FixedWidths();
    LengthIs(FixedFmt(), o.xid, o.command, o.flow);
    BodyIsShort(o.command, o.flow);
    LengthIsValue(|Message(o)|);
  }

  lemma {:induction false} Head(fmt: string, v: seq<nat>, body: seq<byte>)
    requires IsFixed(fmt) && |v| == 16
    ensures |Pack(fmt, v)| == 48 && (Pack(fmt, v) + body)[2..4] == BigEndian(2, v[2])
  {
    FixedSize(fmt);
    hide Pack, BigEndian, Width, Size;
    PackHead(fmt, v);
    var bs := Pack(fmt, v);
    assert (bs + body)[2..4] == bs[2..4];
  }

  lemma {:induction false} LengthIsValue(n: nat)
    requires n < 0x1_0000
    ensures |BigEndian(2, n)| == 2 && Value(BigEndian(2, n)) == n
  {
    assert Pow256(2) == 0x1_0000;
    ValueOfBigEndian(2, n);
  }

  lemma {:induction false} ReadBack(o: Order)
    requires Sound(o)
    ensures ReadFlowMod(Message(o)) == Some(Told(o))
  {
    hide ReadFlowMod, FlowModBytes, MatchOf;
    ReadFlowModBack(o.xid, o.command, o.flow);
  }

  lemma {:induction false} Parts(m: seq<byte>, rest: seq<byte>)
    requires 4 <= |m|
    ensures (m + rest)[2..4] == m[2..4] && (m + rest)[..|m|] == m && (m + rest)[|m|..] == rest
  {
  }

  /** One whole message, then the rest. */
  lemma {:induction false} ReadNext(o: Order, rest: seq<byte>)
    requires Sound(o)
    ensures ReadStream(Message(o) + rest) == [Told(o)] + ReadStream(rest)
  {
    LengthField(o);
    ReadBack(o);
    hide Message, ReadFlowMod, Value, Told, Sound;
    Parts(Message(o), rest);
  }

  /** The switch reads exactly the orders, in order, whatever follows them. */
  lemma {:induction false} StreamRead(os: seq<Order>, rest: seq<byte>)
    requires forall i :: 0 <= i < |os| ==> Sound(os[i])
    ensures ReadStream(Messages(os) + rest) == AllTold(os) + ReadStream(rest)
    decreases |os|
  {
    hide Message, ReadStream, Told, Sound;
    if os == [] {
      assert Messages(os) + rest == rest;
    } else {
      var init, last := os[..|os| - 1], os[|os| - 1];
      StreamRead(init, Message(last) + rest);
      ReadNext(last, rest);
      assert Messages(os) + rest == Messages(init) + (Message(last) + rest);
      assert AllTold(os) == AllTold(init) + [Told(last)];
    }
  }

  /** Part of a message, and not enough behind it to make up its length, tells the switch nothing. */
  lemma {:induction false} TornTail(o: Order, k: nat, rest: seq<byte>)
    requires k < |Message(o)| && k + |rest| < |Message(o)| && (k < 8 ==> rest == [])
    ensures ReadStream(Message(o)[..k] + rest) == []
  {
    LengthField(o);
    hide Message, ReadFlowMod, Value;
    var bs := Message(o)[..k] + rest;
    if 8 <= k {
      assert bs[2..4] == Message(o)[2..4];
    }
  }

  /** A message cut in the middle leaves what went before it as it was. */
  lemma {:induction false} CutKeepsEarlier(os: seq<Order>, o: Order, k: nat)
    requires (forall i :: 0 <= i < |os| ==> Sound(os[i])) && k < |Message(o)|
    ensures ReadStream(Messages(os) + Message(o)[..k]) == AllTold(os)
  {
    hide Message, Messages, ReadStream, Sound, AllTold;
    StreamRead(os, Message(o)[..k]);
    TornTail(o, k, []);
    assert Message(o)[..k] + [] == Message(o)[..k];
  }

  /** But the adapter goes on after a cut, and then an order reported as done may never be read: a
      bare add of 56 bytes behind the first 8 to 39 of a 96-byte one only goes to make up its length. */
  lemma {:induction false} DoneButUnread(o: Order, k: nat, p: Order)
    requires o.command == 0 && o.flow.hasInPort && o.flow.hasDlDst && !o.flow.hasIp && o.flow.hasOutput
    requires p.command == 0 && p.flow == NO_FLOW && 8 <= k < 40
    ensures |Message(o)| == 96 && |Message(p)| == 56
    ensures ReadStream(Message(o)[..k] + Message(p)) == []
  {
    hide FlowModBytes, ReadStream, OxmBytes, MatchBytes, ActionBytes;
    FlowModLength(o.xid, 0, o.flow);
    FlowModLength(p.xid, 0, p.flow);
    assert |OxmBytes(o.flow)| == 18 && |OxmBytes(p.flow)| == 0;
    assert Pad8(22) == 24 && Pad8(4) == 8;
    TornTail(o, k, Message(p));
  }

  lemma {:induction false} MessagesSnoc(os: seq<Order>, o: Order)
    ensures Messages(os + [o]) == Messages(os) + Message(o)
  {
  }

  class Adapter {
    var nextXid: nat
    var flowModsSent: nat
    var bytesSent: nat
    /** The stream, the orders written whole, and whether every send was whole so far. */
    ghost var wire: seq<byte>
    ghost var orders: seq<Order>
    ghost var whole: bool

    ghost predicate Valid()
      reads this
    {
      && nextXid < 0x1_0000_0000
      && flowModsSent == |orders| && bytesSent == |Messages(orders)|
      && (forall i :: 0 <= i < |orders| ==> Sound(orders[i]))
      && (whole ==> wire == Messages(orders))
    }

    constructor ()
      ensures Valid() && wire == [] && orders == [] && whole && nextXid == 100
    {
      nextXid, flowModsSent, bytesSent := 100, 0, 0;
      wire, orders, whole := [], [], true;
    }

    /** persistent_flow_add. `taken` is what the kernel would take of a message, or -1. */
    method FlowAdd(flow: string, taken: int) returns (rc: int)
      requires Valid() && -1 <= taken
      modifies this
      ensures Valid() && (rc == 0 || rc == -1)
      ensures ParseFlow(flow).None? ==> rc == -1 && unchanged(this)
      ensures ParseFlow(flow).Some? ==>
        && nextXid == (old(nextXid) + 1) % 0x1_0000_0000
        && Wrote(Order(old(nextXid), 0, ParseFlow(flow).value), taken, rc, old(wire), wire, old(orders), orders, old(whole), whole)
    {
      hide ParseFlow, Wrote;
      var code, f := ParseFlowString(flow);
      if code != 0 {
        return -1;
      }
      rc := Send(OFPFC_ADD, f, taken);
    }

    /** persistent_flow_delete. */
    method FlowDelete(flowMatch: string, taken: int) returns (rc: int)
      requires Valid() && -1 <= taken
      modifies this
      ensures Valid() && (rc == 0 || rc == -1)
      ensures ParseFlow(flowMatch).None? ==> rc == -1 && unchanged(this)
      ensures ParseFlow(flowMatch).Some? ==>
        && nextXid == (old(nextXid) + 1) % 0x1_0000_0000
        && Wrote(Order(old(nextXid), 3, ParseFlow(flowMatch).value), taken, rc, old(wire), wire, old(orders), orders, old(whole), whole)
    {
      hide ParseFlow, Wrote;
      var code, f := ParseFlowString(flowMatch);
      if code != 0 {
        return -1;
      }
      rc := Send(OFPFC_DELETE, f, taken);
    }

    /** The part both have in common: a transaction number is spent whatever becomes of the send. */
    method Send(command: byte, f: ParsedFlow, taken: int) returns (rc: int)
      requires Valid() && -1 <= taken && Wide(f)
      modifies this
      ensures Valid() && (rc == 0 || rc == -1)
      ensures nextXid == (old(nextXid) + 1) % 0x1_0000_0000
      ensures Wrote(Order(old(nextXid), command, f), taken, rc, old(wire), wire, old(orders), orders, old(whole), whole)
    {
      hide FlowModBytes, Messages, Wide;
      var msg := new byte[MESSAGE_BUFFER];
      var len := BuildFlowMod(msg, nextXid, command, f);
      ghost var o := Order(nextXid, command, f);
      ghost var m := Message(o);
      assert msg[..len] == m && Sound(o);
      MessagesSnoc(orders, o);
      hide Message, Sound;
      nextXid := (nextXid + 1) % 0x1_0000_0000;
      var sent := if taken > len then len else taken;
      ghost var part := msg[..if sent < 0 then 0 else sent];
      assert part == m[..if sent < 0 then 0 else sent];
      wire := wire + part;
      if sent == len {
        flowModsSent := flowModsSent + 1;
        bytesSent := bytesSent + len;
        orders := orders + [o];
        return 0;
      }
      whole := whole && sent <= 0;
      return -1;
    }
  }

  /** The message went out whole and is on record, or only its first bytes did, or nothing. */
  ghost predicate Wrote(o: Order, taken: int, rc: int, wire: seq<byte>, wire2: seq<byte>, orders: seq<Order>, orders2: seq<Order>,
      whole: bool, whole2: bool)
  {
    var m := Message(o);
    if taken >= |m| then rc == 0 && wire2 == wire + m && orders2 == orders + [o] && whole2 == whole
    else
      && rc == -1 && orders2 == orders
      && wire2 == wire + m[..if taken < 0 then 0 else taken] && whole2 == (whole && taken <= 0)
  }

  /** While no send was cut in the middle, the switch has read every order reported as done, in
      order, and nothing else. */
  lemma {:induction false} SwitchIsTold(a: Adapter)
    requires a.Valid() && a.whole
    ensures ReadStream(a.wire) == AllTold(a.orders)
  {
    StreamRead(a.orders, []);
    assert a.wire + [] == a.wire;
    hide Messages, AllTold, ReadStream;
    assert ReadStream([]) == [] by { NothingRead(); }
  }

  lemma {:induction false} NothingRead()
    ensures ReadStream([]) == []
  {
  }
}
