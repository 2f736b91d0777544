/** Frames on a byte stream: what a receiver makes of any prefix of any run of frames, and the
    send and receive loops, whose result does not depend on how the stream was cut up.
 */
module Framing {
  import opened Basics
  import opened PeerProtocol

  datatype Frame = Frame(kind: byte, origin: nat, id: nat, time: nat, payload: seq<byte>)

  function HeaderFor(f: Frame): Header {
    Header(DAIM_PEER_PROTOCOL_VERSION, f.kind, f.origin, f.id, |f.payload|, f.time)
  }

  predicate Sendable(f: Frame) {
    f.origin < Pow256(8) && f.id < Pow256(8) && f.time < Pow256(8) && |f.payload| <= DAIM_PEER_MAX_PAYLOAD_SIZE
  }

  function FrameBytes(f: Frame): seq<byte> {
    HeaderBytes(HeaderFor(f)) + f.payload
  }

  /** The bytes of a frame, in order; the second is its type. */
  lemma {:induction false} FrameLayout(f: Frame)
    ensures FrameBytes(f) == [1] + [f.kind] + BigEndian(8, f.origin) + BigEndian(8, f.id) + BigEndian(4, |f.payload|)
      + BigEndian(8, f.time) + f.payload
  {
    HeaderLayout(HeaderFor(f));
    hide HeaderBytes, BigEndian;
  }

  lemma {:induction false} TypeByte(f: Frame)
    ensures |FrameBytes(f)| > 1 && FrameBytes(f)[0] == 1 && FrameBytes(f)[1] == f.kind
  {
    FrameLayout(f);
    hide FrameBytes, BigEndian;
  }

  function Concat(fs: seq<Frame>): seq<byte> {
    if fs == [] then [] else FrameBytes(fs[0]) + Concat(fs[1..])
  }

  // ---------- Reading frames off a stream ----------

  /** What reading one message from a stream that then ends gives. */
  datatype Reading = Got(frame: Frame, rest: seq<byte>) | Ended | Malformed(code: int)

  function FrameOf(h: Header, body: seq<byte>): Frame {
    Frame(h.kind, h.origin, h.id, h.time, body)
  }

  /** recv_framed on the bytes `bs`, after which the peer closes. */
  function ReadOne(bs: seq<byte>): (r: Reading)
    ensures r.Got? ==> |r.rest| < |bs|
  {
    if |bs| < DAIM_PEER_HEADER_SIZE then Ended
    else
      match ParseHeader(bs)
      case Rejected(code) => Malformed(code)
      case Accepted(h) =>
        var body := bs[DAIM_PEER_HEADER_SIZE..];
        if |body| < h.length then Ended else Got(FrameOf(h, body[..h.length]), body[h.length..])
  }

  /** _recv_message of the Python peer, which never looks at the size limit. */
  function PythonReadOne(bs: seq<byte>): Reading {
    if |bs| < DAIM_PEER_HEADER_SIZE then Ended
    else
      var h := HeaderOf(bs[..DAIM_PEER_HEADER_SIZE]);
      var body := bs[DAIM_PEER_HEADER_SIZE..];
      if h.version != DAIM_PEER_PROTOCOL_VERSION then Malformed(-1)
      else if |body| < h.length then Ended else Got(FrameOf(h, body[..h.length]), body[h.length..])
  }

  /** All frames read until reading fails. */
  function ReadAll(bs: seq<byte>): seq<Frame>
    decreases |bs|
  {
    match ReadOne(bs)
    case Got(f, rest) => [f] + ReadAll(rest)
    case _ => []
  }

  lemma {:induction false} HeaderForFits(f: Frame)
    requires Sendable(f)
    ensures HeaderFits(HeaderFor(f)) && |HeaderBytes(HeaderFor(f))| == DAIM_PEER_HEADER_SIZE
  {
  }

  /** Whatever follows it on the stream, a frame is read back as it was sent. */
  lemma {:induction false} ReadBack(f: Frame, rest: seq<byte>)
    requires Sendable(f)
    ensures ReadOne(FrameBytes(f) + rest) == Got(f, rest)
    ensures PythonReadOne(FrameBytes(f) + rest) == Got(f, rest)
  {
    HeaderForFits(f);
    var bs := FrameBytes(f) + rest;
    assert bs == HeaderBytes(HeaderFor(f)) + (f.payload + rest);
    HeaderRoundTrip(HeaderFor(f), f.payload + rest);
    assert bs[DAIM_PEER_HEADER_SIZE..] == f.payload + rest;
    assert (f.payload + rest)[..|f.payload|] == f.payload && (f.payload + rest)[|f.payload|..] == rest;
  }

  /** A frame cut short is not read at all. */
  lemma {:induction false} CutShort(f: Frame, k: nat)
    requires Sendable(f) && k < |FrameBytes(f)|
    ensures ReadOne(FrameBytes(f)[..k]) == Ended
  {
    HeaderForFits(f);
    if k >= DAIM_PEER_HEADER_SIZE {
      var bs, rest := FrameBytes(f)[..k], f.payload[..k - DAIM_PEER_HEADER_SIZE];
      assert bs == HeaderBytes(HeaderFor(f)) + rest;
      HeaderRoundTrip(HeaderFor(f), rest);
      assert bs[DAIM_PEER_HEADER_SIZE..] == rest;
    }
  }

  /** Whatever was read is exactly what stood on the stream. */
  lemma {:induction false} ReadIsFaithful(bs: seq<byte>)
    requires ReadOne(bs).Got?
    ensures Sendable(ReadOne(bs).frame) && bs == FrameBytes(ReadOne(bs).frame) + ReadOne(bs).rest
  {
  }

  ghost predicate AllSendable(fs: seq<Frame>) {
    forall i :: 0 <= i < |fs| ==> Sendable(fs[i])
  }

  /** After any number of frames, whatever follows. */
  lemma {:induction false} ReadThrough(fs: seq<Frame>, rest: seq<byte>)
    requires AllSendable(fs)
    ensures ReadAll(Concat(fs) + rest) == fs + ReadAll(rest)
    decreases |fs|
  {
    hide FrameBytes, ReadOne;
    if fs == [] {
      assert Concat(fs) + rest == rest;
    } else {
      assert Concat(fs) + rest == FrameBytes(fs[0]) + (Concat(fs[1..]) + rest);
      ReadBack(fs[0], Concat(fs[1..]) + rest);
      ReadThrough(fs[1..], rest);
    }
  }

  lemma {:induction false} ConcatSnoc(fs: seq<Frame>, f: Frame)
    ensures Concat(fs + [f]) == Concat(fs) + FrameBytes(f)
    decreases |fs|
  {
    hide FrameBytes;
    var all := fs + [f];
    if fs == [] {
      assert all == [f] && all[1..] == [];
      assert Concat(all[1..]) == [];
    } else {
      ConcatSnoc(fs[1..], f);
      assert all[1..] == fs[1..] + [f] && all[0] == fs[0];
      assert FrameBytes(fs[0]) + (Concat(fs[1..]) + FrameBytes(f)) == FrameBytes(fs[0]) + Concat(fs[1..]) + FrameBytes(f);
    }
  }

  lemma {:induction false} ConcatSplit(fs: seq<Frame>, j: nat)
    requires j <= |fs|
    ensures Concat(fs) == Concat(fs[..j]) + Concat(fs[j..])
    decreases j
  {
    hide FrameBytes;
    if j > 0 {
      ConcatSplit(fs[1..], j - 1);
      assert fs[..j][1..] == fs[1..][..j - 1] && fs[1..][j - 1..] == fs[j..];
    }
  }

  /** When the first k bytes of a run of frames have arrived, the whole frames among them,
      and nothing else, have been read. */
  lemma {:induction false} PrefixGivesWholeFrames(fs: seq<Frame>, k: nat, j: nat)
    requires AllSendable(fs) && j <= |fs|
    requires |Concat(fs[..j])| <= k <= |Concat(fs)|
    requires j < |fs| ==> k < |Concat(fs[..j])| + |FrameBytes(fs[j])|
    ensures ReadAll(Concat(fs)[..k]) == fs[..j]
  {
    ConcatSplit(fs, j);
    hide ReadOne, FrameBytes;
    var front, back := Concat(fs[..j]), Concat(fs[j..]);
    var rest := back[..k - |front|];
    CutAfter(front, back, k);
    ReadThrough(fs[..j], rest);
    PartOfNext(fs[j..], k - |front|);
    assert fs[..j] + [] == fs[..j];
  }

  lemma {:induction false} CutAfter(front: seq<byte>, back: seq<byte>, k: nat)
    requires |front| <= k <= |front| + |back|
    ensures (front + back)[..k] == front + back[..k - |front|]
  {
  }

  /** Less than the first frame of a run is nothing at all. */
  lemma {:induction false} PartOfNext(fs: seq<Frame>, k: nat)
    requires AllSendable(fs) && k <= |Concat(fs)| && (fs != [] ==> k < |FrameBytes(fs[0])|)
    ensures ReadAll(Concat(fs)[..k]) == []
  {
    if fs != [] {
      assert Concat(fs)[..k] == FrameBytes(fs[0])[..k];
      CutShort(fs[0], k);
      hide ReadOne, FrameBytes, Concat;
    }
  }

  /** So whatever prefix has arrived, what has been read is a prefix of what was sent. */
  lemma {:induction false} PrefixGivesPrefix(fs: seq<Frame>, k: nat) returns (j: nat)
    requires AllSendable(fs) && k <= |Concat(fs)|
    ensures j <= |fs| && |Concat(fs[..j])| <= k && (j < |fs| ==> k < |Concat(fs[..j])| + |FrameBytes(fs[j])|)
    ensures ReadAll(Concat(fs)[..k]) == fs[..j]
  {
    j := 0;
    while j < |fs| && |Concat(fs[..j])| + |FrameBytes(fs[j])| <= k
      invariant j <= |fs| && |Concat(fs[..j])| <= k
    {
      assert fs[..j + 1] == fs[..j] + [fs[j]];
      ConcatSnoc(fs[..j], fs[j]);
      j := j + 1;
    }
    PrefixGivesWholeFrames(fs, k, j);
  }

  /** Both readers agree on every frame within the size limit; above it only Python goes on. */
  lemma {:induction false} ReadersAgree(bs: seq<byte>)
    ensures ReadOne(bs).Got? ==> PythonReadOne(bs) == ReadOne(bs)
    ensures PythonReadOne(bs).Got? && ReadOne(bs) != PythonReadOne(bs) ==>
      ReadOne(bs) == Malformed(-2) && |PythonReadOne(bs).frame.payload| > DAIM_PEER_MAX_PAYLOAD_SIZE
  {
  }

  // ---------- Sending ----------

  /** What the kernel does with one send call: take some bytes, be interrupted, or fail. */
  datatype Outcome = Takes(count: nat) | Interrupts | Refuses

  function Next(script: seq<Outcome>, down: bool): Outcome {
    if down || script == [] then Refuses else script[0]
  }

  /** The writing side of a connected socket. `script` is what the kernel will do; once a send
      fails or takes nothing, the connection is down. */
  class OutSocket {
    var wire: seq<byte>
    var script: seq<Outcome>
    var down: bool

    constructor (script: seq<Outcome>)
      ensures wire == [] && this.script == script && !down
    {
      wire, this.script, down := [], script, false;
    }

    /** send(2): the byte count, 0 or -1; `again` stands for EINTR. */
    method Send(chunk: seq<byte>) returns (n: int, again: bool)
      requires chunk != []
      modifies this
      ensures match Next(old(script), old(down))
        case Takes(k) => n == (if k < |chunk| then k else |chunk|) && !again
        case Interrupts => n == -1 && again
        case Refuses => n == -1 && !again
      ensures wire == old(wire) + if n > 0 then chunk[..n] else []
      ensures down <==> n <= 0 && !again
      ensures script == if old(script) == [] then [] else old(script)[1..]
    {
      var what := Next(script, down);
      script := if script == [] then [] else script[1..];
      again := what.Interrupts?;
      n := if !what.Takes? then -1 else if what.count < |chunk| then what.count else |chunk|;
      wire := wire + if n > 0 then chunk[..n] else [];
      down := n <= 0 && !again;
    }
  }

  /** The kernel will take `len` bytes before it fails. */
  predicate Suffices(script: seq<Outcome>, len: nat) {
    len == 0 || (script != [] &&
      match script[0]
      case Takes(k) => k > 0 && (k >= len || Suffices(script[1..], len - k))
      case Interrupts => Suffices(script[1..], len)
      case Refuses => false)
  }

  lemma {:induction false} PrefixJoins(buf: seq<byte>, a: nat, n: nat)
    requires a + n <= |buf|
    ensures buf[..a] + buf[a..][..n] == buf[..a + n]
  {
  }

  /** send_all: everything, or a strict prefix and a dead connection. */
  method SendAll(sock: OutSocket, buf: seq<byte>) returns (r: int)
    modifies sock
    ensures r == |buf| || r == -1
    ensures r == |buf| <==> buf == [] || (!old(sock.down) && Suffices(old(sock.script), |buf|))
    ensures r == |buf| ==> sock.wire == old(sock.wire) + buf && sock.down == old(sock.down)
    ensures r == -1 ==> sock.down && exists k :: 0 <= k < |buf| && sock.wire == old(sock.wire) + buf[..k]
    ensures r == -1 && old(sock.down) ==> sock.wire == old(sock.wire)
  {
    var sentTotal := 0;
    while sentTotal < |buf|
      invariant 0 <= sentTotal <= |buf| && sock.down == old(sock.down) && (sock.down ==> sentTotal == 0)
      invariant sock.wire == old(sock.wire) + buf[..sentTotal]
      invariant Suffices(old(sock.script), |buf|) <==> Suffices(sock.script, |buf| - sentTotal)
      decreases |sock.script|
    {
      var n, again := sock.Send(buf[sentTotal..]);
      if n < 0 {
        if again {
          continue;
        }
        return -1;
      }
      if n == 0 {
        return -1;
      }
      PrefixJoins(buf, sentTotal, n);
      sentTotal := sentTotal + n;
    }
    return sentTotal;
  }

  /** _send_fragmented: the frame in small writes of the given sizes, round and round. */
  method SendFragmented(sock: OutSocket, frame: seq<byte>, sizes: seq<nat>) returns (ok: bool)
    requires !sock.down && sizes != [] && forall i :: 0 <= i < |sizes| ==> sizes[i] > 0
    modifies sock
    ensures ok ==> sock.wire == old(sock.wire) + frame && !sock.down
    ensures !ok ==> sock.down && exists k :: 0 <= k < |frame| && sock.wire == old(sock.wire) + frame[..k]
  {
    var offset, index := 0, 0;
    while offset < |frame|
      invariant !sock.down
      invariant sock.wire == old(sock.wire) + frame[..if offset < |frame| then offset else |frame|]
    {
      var size := sizes[index % |sizes|];
      var end := if offset + size < |frame| then offset + size else |frame|;
      var r := SendAll(sock, frame[offset..end]);
      if r < 0 {
        ghost var k :| 0 <= k < end - offset && sock.wire == old(sock.wire) + frame[..offset] + frame[offset..end][..k];
        assert frame[..offset] + frame[offset..end][..k] == frame[..offset + k];
        return false;
      }
      assert frame[..offset] + frame[offset..end] == frame[..end];
      offset := offset + size;
      index := index + 1;
    }
    return true;
  }

  // ---------- One sender on one connection ----------

  /** Message ids rise along the wire. */
  ghost predicate IdsRise(fs: seq<Frame>, last: nat) {
    && (forall i, j :: 0 <= i < j < |fs| ==> fs[i].id < fs[j].id)
    && (forall i :: 0 <= i < |fs| ==> fs[i].id <= last)
  }

  lemma {:induction false} RisesOn(fs: seq<Frame>, f: Frame)
    requires AllSendable(fs) && Sendable(f) && f.id > 0 && IdsRise(fs, f.id - 1)
    ensures IdsRise(fs, f.id) && IdsRise(fs + [f], f.id) && AllSendable(fs + [f])
  {
  }

  /** Nothing, or the beginning of one frame. */
  ghost predicate Torn(torn: seq<byte>) {
    torn != [] ==> exists f: Frame, k: nat :: Sendable(f) && k < |FrameBytes(f)| && torn == FrameBytes(f)[..k]
  }

  /** The sending side of a transport with one connection: what send_framed reads and updates. */
  class Sender {
    const nodeId: nat
    var nextMessageId: nat
    var active: bool
    const sock: OutSocket
    var messagesSent: nat
    var bytesSent: nat
    /** The frames written whole, and what a failed send left behind them. */
    ghost var sent: seq<Frame>
    ghost var torn: seq<byte>

    /** The bytes on the wire are those frames and, on a dead connection, part of one more. */
    ghost predicate Written()
      reads this, sock
    {
      && sock.wire == Concat(sent) + torn && Torn(torn) && (torn != [] ==> sock.down)
      && messagesSent == |sent| && bytesSent == |Concat(sent)|
    }

    ghost predicate Valid()
      reads this, sock
    {
      nodeId < Pow256(8) && Written() && AllSendable(sent) && IdsRise(sent, nextMessageId)
    }

    constructor (nodeId: nat, sock: OutSocket)
      requires nodeId < Pow256(8) && sock.wire == []
      ensures Valid() && this.sock == sock && active && sent == [] && this.nodeId == nodeId && nextMessageId == 0
    {
      this.nodeId, this.sock := nodeId, sock;
      nextMessageId, active, messagesSent, bytesSent := 0, true, 0, 0;
      sent, torn := [], [];
    }

    /** send_framed. An id is spent by every attempt on an active connection. */
    method SendFramed(kind: byte, payload: seq<byte>, now: nat) returns (rc: int)
      requires Valid() && now < Pow256(8) && nextMessageId + 1 < Pow256(8)
      modifies this, sock
      ensures Valid() && active == old(active)
      ensures rc == 0 || rc == -1
      ensures nextMessageId == old(nextMessageId)
        + if |payload| <= DAIM_PEER_MAX_PAYLOAD_SIZE && active then 1 else 0
      ensures sent == old(sent) + if rc == 0 then [Frame(kind, nodeId, nextMessageId, now, payload)] else []
      ensures rc == 0 ==> active && |payload| <= DAIM_PEER_MAX_PAYLOAD_SIZE && !old(sock.down) && !sock.down
      ensures |payload| > DAIM_PEER_MAX_PAYLOAD_SIZE || !active ==> rc == -1 && sock.wire == old(sock.wire)
      ensures |payload| > DAIM_PEER_MAX_PAYLOAD_SIZE || !active ==> sock.down == old(sock.down)
      ensures rc == 0 <==>
        && |payload| <= DAIM_PEER_MAX_PAYLOAD_SIZE && active && !old(sock.down)
        && Suffices(old(sock.script), DAIM_PEER_HEADER_SIZE + |payload|)
      ensures rc == -1 ==> |payload| > DAIM_PEER_MAX_PAYLOAD_SIZE || !active || sock.down
    {
      if |payload| > DAIM_PEER_MAX_PAYLOAD_SIZE {
        return -1;
      }
      if !active {
        return -1;
      }
      nextMessageId := nextMessageId + 1;
      var f := Frame(kind, nodeId, nextMessageId, now, payload);
      var buf := FrameBytes(f);
      RisesOn(sent, f);
      FrameLength(f);
      hide FrameBytes, Sendable, AllSendable, IdsRise, Torn, Concat, Pow256, Suffices;
      rc := Write(f, buf);
    }

    method Write(f: Frame, buf: seq<byte>) returns (rc: int)
      requires Written() && Sendable(f) && buf == FrameBytes(f)
      modifies this`sent, this`torn, this`messagesSent, this`bytesSent, sock
      ensures Written()
      ensures rc == 0 || rc == -1
      ensures rc == 0 <==> !old(sock.down) && Suffices(old(sock.script), |buf|)
      ensures if rc == 0 then sent == old(sent) + [f] && !sock.down else sent == old(sent) && sock.down
    {
      FrameLength(f);
      hide FrameBytes, Sendable, Torn, Concat, Suffices;
      ghost var wire := sock.wire;
      var r := SendAll(sock, buf);
      if r != |buf| {
        if !old(sock.down) {
          ghost var k :| 0 <= k < |buf| && sock.wire == wire + buf[..k];
          IsTorn(f, k);
          torn := buf[..k];
        }
        return -1;
      }
      ConcatSnoc(sent, f);
      sent := sent + [f];
      messagesSent := messagesSent + 1;
      bytesSent := bytesSent + r;
      return 0;
    }
  }

  lemma {:induction false} FrameLength(f: Frame)
    requires Sendable(f)
    ensures |FrameBytes(f)| == DAIM_PEER_HEADER_SIZE + |f.payload|
  {
    HeaderForFits(f);
  }

  lemma {:induction false} IsTorn(f: Frame, k: nat)
    requires Sendable(f) && k < |FrameBytes(f)|
    ensures Torn(FrameBytes(f)[..k])
  {
  }

  /** Whoever reads any part of what a sender wrote gets a prefix of the frames it sent. */
  lemma {:induction false} ReaderSeesWhatWasSent(s: Sender, k: nat)
    requires s.Valid() && k <= |s.sock.wire|
    ensures ReadAll(s.sock.wire[..k]) <= s.sent
    ensures k == |s.sock.wire| ==> ReadAll(s.sock.wire[..k]) == s.sent
  {
    hide Torn, ReadAll, Concat, FrameBytes, AllSendable, IdsRise, Sendable;
    WrittenIsRead(s.sent, s.torn, k);
  }

  lemma {:induction false} WrittenIsRead(sent: seq<Frame>, torn: seq<byte>, k: nat)
    requires AllSendable(sent) && Torn(torn) && k <= |Concat(sent) + torn|
    ensures ReadAll((Concat(sent) + torn)[..k]) <= sent
    ensures k == |Concat(sent) + torn| ==> ReadAll((Concat(sent) + torn)[..k]) == sent
  {
    var all := Concat(sent);
    hide Torn, ReadAll, Concat, FrameBytes, AllSendable;
    if k < |all| {
      assert (all + torn)[..k] == all[..k];
      var j := PrefixGivesPrefix(sent, k);
    } else {
      var rest := torn[..k - |all|];
      assert (all + torn)[..k] == all + rest;
      ReadThrough(sent, rest);
      TornIsNothing(torn, |rest|);
    }
  }

  lemma {:induction false} TornIsNothing(torn: seq<byte>, n: nat)
    requires n <= |torn|
    requires Torn(torn)
    ensures ReadAll(torn[..n]) == []
  {
    if torn != [] {
      var f: Frame, k: nat :| Sendable(f) && k < |FrameBytes(f)| && torn == FrameBytes(f)[..k];
      assert torn[..n] == FrameBytes(f)[..n];
      CutShort(f, n);
    }
  }

  // ---------- Receiving ----------

  /** What may end one MSG_WAITALL call early: nothing, or a signal or an error once that many
      bytes have been copied. One entry for each call to come. */
  type Signals = seq<Option<nat>>

  /** The next call, for n bytes that are there, is cut short. */
  predicate CutsOff(signals: Signals, n: nat) {
    signals != [] && signals[0].Some? && signals[0].value < n
  }

  function AfterCall(signals: Signals): Signals {
    if signals == [] then [] else signals[1..]
  }

  /** One of the two calls that read this frame is cut short; without payload there is one. */
  predicate Disturbed(signals: Signals, f: Frame) {
    CutsOff(signals, DAIM_PEER_HEADER_SIZE) || CutsOff(AfterCall(signals), |f.payload|)
  }

  /** What is to come once these frames have been read. */
  function SignalsLeft(signals: Signals, fs: seq<Frame>): Signals {
    if fs == [] then signals
    else
      var before := SignalsLeft(signals, fs[..|fs| - 1]);
      if fs[|fs| - 1].payload == [] then AfterCall(before) else AfterCall(AfterCall(before))
  }

  lemma {:induction false} SignalsLeftSnoc(signals: Signals, fs: seq<Frame>, f: Frame)
    ensures SignalsLeft(signals, fs + [f]) == SignalsLeft(SignalsLeft(signals, fs), [f])
  {
    assert [f][..0] == [] && (fs + [f])[..|fs|] == fs;
  }

  /** The reading side of a socket. `data` is all that will ever arrive; `cuts` decides how
      much of it each plain recv call returns, `signals` what happens to each MSG_WAITALL call. */
  class InSocket {
    const data: seq<byte>
    var pos: nat
    var cuts: seq<nat>
    var signals: Signals

    ghost predicate Valid()
      reads this
    {
      pos <= |data|
    }

    ghost function Left(): seq<byte>
      reads this
      requires Valid()
    {
      data[pos..]
    }

    constructor (data: seq<byte>, cuts: seq<nat>, signals: Signals)
      ensures Valid() && Left() == data && this.signals == signals
    {
      this.data, pos, this.cuts, this.signals := data, 0, cuts, signals;
    }

    /** recv(2): between 1 and n bytes, none only at the end of the stream. */
    method Recv(n: nat) returns (chunk: seq<byte>)
      requires Valid() && n > 0
      modifies this
      ensures Valid() && old(Left()) == chunk + Left()
      ensures |chunk| <= n && (chunk == [] <==> old(Left()) == [])
    {
      var size := if cuts == [] then 1 else cuts[0] + 1;
      cuts := if cuts == [] then [] else cuts[1..];
      var most := if n < |data| - pos then n else |data| - pos;
      var k := if size < most then size else most;
      chunk := data[pos..pos + k];
      pos := pos + k;
      assert data[pos - k..] == chunk + data[pos..];
    }

    /** recv(2) with MSG_WAITALL: n bytes, fewer only at the end of the stream or when a signal
        or an error cuts the call short. */
    method RecvWaitAll(n: nat) returns (chunk: seq<byte>)
      requires Valid()
      modifies this
      ensures Valid() && old(Left()) == chunk + Left()
      ensures |chunk| == n <==> n <= |old(Left())| && !CutsOff(old(signals), n)
      ensures signals == AfterCall(old(signals))
    {
      var most := if n < |data| - pos then n else |data| - pos;
      var k := if CutsOff(signals, most) then signals[0].value else most;
      signals := AfterCall(signals);
      chunk := data[pos..pos + k];
      pos := pos + k;
      assert data[pos - k..] == chunk + data[pos..];
    }
  }

  /** _recv_exact: exactly n bytes however they were cut, or a ConnectionError. */
  method RecvExact(sock: InSocket, n: nat) returns (ok: bool, buf: seq<byte>)
    requires sock.Valid()
    modifies sock
    ensures sock.Valid() && old(sock.Left()) == buf + sock.Left()
    ensures ok <==> n <= |old(sock.Left())|
    ensures ok ==> |buf| == n
    ensures !ok ==> sock.Left() == []
  {
    buf := [];
    while |buf| < n
      invariant sock.Valid() && old(sock.Left()) == buf + sock.Left() && |buf| <= n
      decreases n - |buf|
    {
      var chunk := sock.Recv(n - |buf|);
      if chunk == [] {
        return false, buf;
      }
      buf := buf + chunk;
    }
    ok := true;
  }

  /** _recv_message. */
  method RecvMessage(sock: InSocket) returns (ok: bool, f: Frame)
    requires sock.Valid()
    modifies sock
    ensures sock.Valid()
    ensures ok <==> PythonReadOne(old(sock.Left())).Got?
    ensures ok ==> PythonReadOne(old(sock.Left())) == Got(f, sock.Left())
  {
    f := Frame(0, 0, 0, 0, []);
    ghost var all := sock.Left();
    var header, payload;
    ok, header := RecvExact(sock, DAIM_PEER_HEADER_SIZE);
    if !ok {
      return;
    }
    assert all[..DAIM_PEER_HEADER_SIZE] == header && all[DAIM_PEER_HEADER_SIZE..] == sock.Left();
    var h := HeaderOf(header);
    if h.version != DAIM_PEER_PROTOCOL_VERSION {
      return false, f;
    }
    ghost var body := sock.Left();
    ok, payload := RecvExact(sock, h.length);
    if ok {
      assert body[..h.length] == payload && body[h.length..] == sock.Left();
      f := FrameOf(h, payload);
    }
  }

  /** recv_framed, into a buffer of `cap` bytes. */
  method RecvFramed(sock: InSocket, cap: nat) returns (rc: int, f: Frame)
    requires sock.Valid()
    modifies sock
    ensures sock.Valid() && (rc == 0 || rc == -1)
    ensures var r := ReadOne(old(sock.Left()));
      rc == 0 <==> r.Got? && |r.frame.payload| <= cap && !Disturbed(old(sock.signals), r.frame)
    ensures rc == 0 ==> ReadOne(old(sock.Left())) == Got(f, sock.Left())
    ensures rc == 0 ==> |sock.Left()| < |old(sock.Left())|
    ensures rc == 0 ==> sock.signals == SignalsLeft(old(sock.signals), [f])
  {
    f := Frame(0, 0, 0, 0, []);
    ghost var all, signals := sock.Left(), sock.signals;
    var header := sock.RecvWaitAll(DAIM_PEER_HEADER_SIZE);
    if |header| != DAIM_PEER_HEADER_SIZE {
      return -1, f;
    }
    assert all[..DAIM_PEER_HEADER_SIZE] == header && header[..DAIM_PEER_HEADER_SIZE] == header;
    assert all[DAIM_PEER_HEADER_SIZE..] == sock.Left();
    match ParseHeader(header) {
      case Rejected(_) =>
        return -1, f;
      case Accepted(h) =>
        if h.length > cap {
          return -1, f;
        }
        var payload: seq<byte> := [];
        if h.length > 0 {
          ghost var body := sock.Left();
          payload := sock.RecvWaitAll(h.length);
          if |payload| != h.length {
            return -1, f;
          }
          assert body[..h.length] == payload && body[h.length..] == sock.Left();
        }
        SignalsAfterFrame(signals, FrameOf(h, payload));
        return 0, FrameOf(h, payload);
    }
  }

  lemma {:induction false} SignalsAfterFrame(signals: Signals, f: Frame)
    ensures SignalsLeft(signals, [f]) == if f.payload == [] then AfterCall(signals) else AfterCall(AfterCall(signals))
  {
    assert [f][..0] == [];
  }

  lemma {:induction false} PayloadFits(bs: seq<byte>)
    requires ReadOne(bs).Got?
    ensures |ReadOne(bs).frame.payload| <= DAIM_PEER_MAX_PAYLOAD_SIZE && |ReadOne(bs).rest| < |bs|
  {
  }

  /** Of the stream `all`, `fs` have been read, no call for them cut short, and `left` is to come. */
  ghost predicate ReadSoFar(all: seq<byte>, signals: Signals, fs: seq<Frame>, left: seq<byte>) {
    && ReadAll(all) == fs + ReadAll(left)
    && forall i :: 0 <= i < |fs| ==> !Disturbed(SignalsLeft(signals, fs[..i]), fs[i])
  }

  /** These frames, and the next one, if there is one, could not be read. */
  ghost predicate ReadUpTo(all: seq<byte>, signals: Signals, fs: seq<Frame>) {
    && fs <= ReadAll(all)
    && (forall i :: 0 <= i < |fs| ==> !Disturbed(SignalsLeft(signals, fs[..i]), fs[i]))
    && (|fs| < |ReadAll(all)| ==> Disturbed(SignalsLeft(signals, fs), ReadAll(all)[|fs|]))
  }

  lemma {:induction false} ReadingStarts(all: seq<byte>, signals: Signals)
    ensures ReadSoFar(all, signals, [], all) && SignalsLeft(signals, []) == signals
  {
  }

  lemma {:induction false} ReadingMoves(all: seq<byte>, signals: Signals, fs: seq<Frame>, left: seq<byte>, f: Frame, rest: seq<byte>)
    requires ReadSoFar(all, signals, fs, left) && ReadOne(left) == Got(f, rest)
    requires !Disturbed(SignalsLeft(signals, fs), f)
    ensures ReadSoFar(all, signals, fs + [f], rest)
  {
    hide ReadOne, Disturbed, SignalsLeft;
    var gs := fs + [f];
    assert fs + ([f] + ReadAll(rest)) == gs + ReadAll(rest);
    forall i | 0 <= i < |gs|
      ensures !Disturbed(SignalsLeft(signals, gs[..i]), gs[i])
    {
      assert gs[..i] == fs[..i];
      assert fs[..|fs|] == fs;
    }
  }

  lemma {:induction false} ReadingStops(all: seq<byte>, signals: Signals, fs: seq<Frame>, left: seq<byte>)
    requires ReadSoFar(all, signals, fs, left)
    requires ReadOne(left).Got? ==> Disturbed(SignalsLeft(signals, fs), ReadOne(left).frame)
    ensures ReadUpTo(all, signals, fs)
  {
    hide ReadOne, Disturbed, SignalsLeft;
    if ReadOne(left).Got? {
      assert ReadAll(left)[0] == ReadOne(left).frame;
      assert ReadAll(all)[|fs|] == ReadAll(left)[0];
    }
  }

  /** The receive loop of a connection: every frame, until the stream ends, holds something that
      is not a frame, or a call is cut short. */
  method RecvUntilClosed(sock: InSocket) returns (fs: seq<Frame>)
    requires sock.Valid()
    modifies sock
    ensures sock.Valid() && ReadUpTo(old(sock.Left()), old(sock.signals), fs)
    ensures (forall i :: 0 <= i < |old(sock.signals)| ==> old(sock.signals)[i].None?) ==> fs == ReadAll(old(sock.Left()))
  {
    ghost var all, signals := sock.Left(), sock.signals;
    ghost var left := all;
    ReadingStarts(all, signals);
    hide ReadOne, ReadAll, Disturbed, SignalsLeft, ReadSoFar, ReadUpTo;
    fs := [];
    var rc, f := RecvFramed(sock, DAIM_PEER_MAX_PAYLOAD_SIZE);
    if ReadOne(left).Got? {
      PayloadFits(left);
    }
    while rc == 0
      invariant sock.Valid() && ReadSoFar(all, signals, fs, left)
      invariant rc == 0 ==> ReadOne(left) == Got(f, sock.Left()) && sock.signals == SignalsLeft(SignalsLeft(signals, fs), [f])
      invariant rc == 0 <==> ReadOne(left).Got? && !Disturbed(SignalsLeft(signals, fs), ReadOne(left).frame)
      decreases rc == 0, |sock.Left()|
    {
      ReadingMoves(all, signals, fs, left, f, sock.Left());
      SignalsLeftSnoc(signals, fs, f);
      fs := fs + [f];
      left := sock.Left();
      rc, f := RecvFramed(sock, DAIM_PEER_MAX_PAYLOAD_SIZE);
      if ReadOne(left).Got? {
        PayloadFits(left);
      }
    }
    ReadingStops(all, signals, fs, left);
    UndisturbedReadsAll(all, signals, fs);
  }

  lemma {:induction false} QuietStaysQuiet(signals: Signals, fs: seq<Frame>)
    requires forall i :: 0 <= i < |signals| ==> signals[i].None?
    ensures forall i :: 0 <= i < |SignalsLeft(signals, fs)| ==> SignalsLeft(signals, fs)[i].None?
    decreases |fs|
  {
    if fs != [] {
      QuietStaysQuiet(signals, fs[..|fs| - 1]);
    }
  }

  /** When no call is cut short, everything is read. */
  lemma {:induction false} UndisturbedReadsAll(all: seq<byte>, signals: Signals, fs: seq<Frame>)
    requires ReadUpTo(all, signals, fs)
    ensures (forall i :: 0 <= i < |signals| ==> signals[i].None?) ==> fs == ReadAll(all)
  {
    if forall i :: 0 <= i < |signals| ==> signals[i].None? {
      QuietStaysQuiet(signals, fs);
    }
  }
}
