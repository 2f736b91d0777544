/** The symmetric snapshot exchange over channels of bounded capacity.

    Each side is one sequential thread: it blocks on a send when the frame does not fit into
    what the channel has left, and on a receive when nothing has arrived. A side is a node of
    the C transport or the scripted Python peer, which serves an empty snapshot and leaves its
    loop only when both flags are set.
 */
module SnapshotExchange {
  import opened Basics

  const HELLO_BYTES: nat := 38
  const REQUEST_BYTES: nat := 30
  const ENTRY_BYTES: nat := 89
  const END_BYTES: nat := 30

  datatype Frame = Hello | Request | Entry | End

  function Size(f: Frame): nat {
    match f
    case Hello => HELLO_BYTES
    case Request => REQUEST_BYTES
    case Entry => ENTRY_BYTES
    case End => END_BYTES
  }

  function Bytes(fs: seq<Frame>): nat {
    if fs == [] then 0 else Size(fs[0]) + Bytes(fs[1..])
  }

  datatype Kind = Node | Script

  datatype Pc = Greet | AwaitHello | Ask | Loop | Serving(left: nat) | Done | Failed

  /** `entries` is the size of the snapshot this side serves, `got` how many it has received. */
  datatype Side = Side(kind: Kind, entries: nat, pc: Pc, served: bool, ended: bool, got: nat, inbox: seq<Frame>)

  datatype State = State(near: Side, far: Side) {
    function Of(who: bool): Side { if who then near else far }

    function With(who: bool, me: Side, other: Side): State {
      if who then State(me, other) else State(other, me)
    }
  }

  function NextSend(me: Side): Option<Frame> {
    match me.pc
    case Greet => Some(Hello)
    case Ask => Some(Request)
    case Serving(left) => Some(if left == 0 then End else Entry)
    case _ => None
  }

  function AfterSend(me: Side): Side {
    match me.pc
    case Greet => me.(pc := AwaitHello)
    case Ask => me.(pc := Loop)
    case Serving(left) =>
      if left > 0 then me.(pc := Serving(left - 1))
      else me.(served := true, pc := if me.kind.Script? && me.ended then Done else Loop)
    case _ => me
  }

  predicate Listens(me: Side) {
    me.pc.AwaitHello? || me.pc.Loop?
  }

  function AfterReceive(me: Side): Side
    requires Listens(me) && me.inbox != []
  {
    var m := me.(inbox := me.inbox[1..]);
    if me.pc.AwaitHello? then m.(pc := if me.inbox[0].Hello? then Ask else Failed)
    else
      match me.inbox[0]
      case Request => m.(pc := Serving(me.entries))
      case Entry => m.(got := me.got + 1)
      case End => m.(ended := true, pc := if me.kind.Node? || me.served then Done else Loop)
      case Hello => m
  }

  datatype Step = Send(who: bool) | Receive(who: bool)

  predicate Enabled(s: State, step: Step, cap: nat) {
    match step
    case Send(who) => NextSend(s.Of(who)).Some? && Bytes(s.Of(!who).inbox) + Size(NextSend(s.Of(who)).value) <= cap
    case Receive(who) => Listens(s.Of(who)) && s.Of(who).inbox != []
  }

  function Do(s: State, step: Step, cap: nat): State
    requires Enabled(s, step, cap)
  {
    match step
    case Send(who) =>
      s.With(who, AfterSend(s.Of(who)),
             s.Of(!who).(inbox := s.Of(!who).inbox + [NextSend(s.Of(who)).value]))
    case Receive(who) => s.With(who, AfterReceive(s.Of(who)), s.Of(!who))
  }

  function Begin(kind: Kind, entries: nat): Side {
    Side(kind, entries, Greet, false, false, 0, [])
  }

  /** Two connected sides; the scripted peer has nothing to serve. */
  predicate Starting(s: State) {
    && s.near == Begin(s.near.kind, s.near.entries) && s.far == Begin(s.far.kind, s.far.entries)
    && (s.near.kind.Script? ==> s.near.entries == 0) && (s.far.kind.Script? ==> s.far.entries == 0)
  }

  ghost predicate Run(s: State, steps: seq<Step>, t: State, cap: nat)
    decreases |steps|
  {
    if steps == [] then s == t
    else Enabled(s, steps[0], cap) && Run(Do(s, steps[0], cap), steps[1..], t, cap)
  }

  // ---------- What one side has written and read, from where it stands ----------

  /** The `i`-th frame a side serving `n` entries ever writes. */
  function FrameAt(n: nat, i: nat): Frame {
    if i == 0 then Hello else if i == 1 then Request else if i < n + 2 then Entry else End
  }

  /** The size of its first `i` frames. */
  function Total(n: nat, i: nat): nat {
    if i == 0 then 0 else Total(n, i - 1) + Size(FrameAt(n, i - 1))
  }

  function Sent(me: Side): int {
    match me.pc
    case Greet => 0
    case AwaitHello => 1
    case Ask => 1
    case Loop => if me.served then me.entries + 3 else 2
    case Serving(left) => 2 + me.entries - left
    case Done => me.entries + 3
    case Failed => 0
  }

  function Heard(me: Side, peerEntries: nat): int {
    match me.pc
    case Greet => 0
    case AwaitHello => 0
    case Ask => 1
    case Loop => if me.served then 2 + me.got else 1
    case Serving(_) => 2
    case Done => peerEntries + 3
    case Failed => 0
  }

  /** A side's flags fit where it stands. */
  ghost predicate StandOk(me: Side, peerEntries: nat) {
    && !me.pc.Failed?
    && (me.kind.Script? ==> me.entries == 0)
    && match me.pc
       case Loop => !me.ended && me.got <= peerEntries && (!me.served ==> me.got == 0)
       case Serving(left) => left <= me.entries && !me.served && !me.ended && me.got == 0
       case Done => me.served && me.ended && me.got == peerEntries
       case _ => !me.served && !me.ended && me.got == 0
  }

  /** `inbox` is what lies between the first `from` and the first `to` frames of a side with `n` entries. */
  ghost predicate ChannelOk(inbox: seq<Frame>, n: nat, from: int, to: int) {
    && 0 <= from <= to && |inbox| == to - from
    && (forall i :: 0 <= i < |inbox| ==> inbox[i] == FrameAt(n, from + i))
    && Bytes(inbox) == Total(n, to) - Total(n, from)
  }

  ghost predicate SideOk(me: Side, peer: Side) {
    StandOk(me, peer.entries) && ChannelOk(me.inbox, peer.entries, Heard(me, peer.entries), Sent(peer))
  }

  ghost predicate Inv(s: State) {
    SideOk(s.near, s.far) && SideOk(s.far, s.near)
  }

  lemma {:induction false} BytesSnoc(fs: seq<Frame>, f: Frame)
    ensures Bytes(fs + [f]) == Bytes(fs) + Size(f)
  {
    if fs != [] {
      BytesSnoc(fs[1..], f);
      assert (fs + [f])[1..] == fs[1..] + [f];
    } else {
      assert fs + [f] == [f];
    }
  }

  lemma {:induction false} ChannelSnoc(inbox: seq<Frame>, n: nat, from: int, to: int, f: Frame)
    requires ChannelOk(inbox, n, from, to) && f == FrameAt(n, to)
    ensures ChannelOk(inbox + [f], n, from, to + 1)
  {
    BytesSnoc(inbox, f);
  }

  lemma {:induction false} ChannelTail(inbox: seq<Frame>, n: nat, from: int, to: int)
    requires ChannelOk(inbox, n, from, to) && inbox != []
    ensures inbox[0] == FrameAt(n, from) && from < to && ChannelOk(inbox[1..], n, from + 1, to)
  {
  }

  /** A send advances the side's log by exactly the frame it owes next. */
  lemma {:induction false} SendAdvances(me: Side, peerEntries: nat)
    requires StandOk(me, peerEntries) && NextSend(me).Some?
    ensures var me2 := AfterSend(me);
      && StandOk(me2, peerEntries) && me2.inbox == me.inbox && me2.entries == me.entries && me2.kind == me.kind
      && Sent(me2) == Sent(me) + 1 && Heard(me2, peerEntries) == Heard(me, peerEntries)
      && NextSend(me) == Some(FrameAt(me.entries, Sent(me)))
  {
  }

  /** A receive advances it by the frame its peer wrote next; END comes only after serving. */
  lemma {:induction false} ReceiveAdvances(me: Side, n: nat)
    requires StandOk(me, n) && Listens(me) && me.inbox != [] && me.inbox[0] == FrameAt(n, Heard(me, n))
    ensures var me2 := AfterReceive(me);
      && StandOk(me2, n) && me2.inbox == me.inbox[1..] && me2.entries == me.entries && me2.kind == me.kind
      && Sent(me2) == Sent(me) && Heard(me2, n) == Heard(me, n) + 1
    ensures me.inbox[0].End? ==> me.served
  {
  }

  lemma {:induction false} StepKeepsInv(s: State, step: Step, cap: nat)
    requires Inv(s) && Enabled(s, step, cap)
    ensures Inv(Do(s, step, cap))
    ensures Position(Do(s, step, cap)) == Position(s) + 1
  {
    hide StandOk, ChannelOk, AfterSend, AfterReceive, Sent, Heard, NextSend;
    match step {
      case Send(who) =>
        var me, other := s.Of(who), s.Of(!who);
        SendAdvances(me, other.entries);
        ChannelSnoc(other.inbox, me.entries, Heard(other, me.entries), Sent(me), NextSend(me).value);
        Unmoved(other, other.inbox + [NextSend(me).value], me.entries);
      case Receive(who) =>
        var me, other := s.Of(who), s.Of(!who);
        ChannelTail(me.inbox, other.entries, Heard(me, other.entries), Sent(other));
        ReceiveAdvances(me, other.entries);
    }
  }

  /** What arrives in its inbox does not move a side. */
  lemma {:induction false} Unmoved(me: Side, inbox: seq<Frame>, n: nat)
    ensures StandOk(me.(inbox := inbox), n) == StandOk(me, n)
    ensures Sent(me.(inbox := inbox)) == Sent(me) && Heard(me.(inbox := inbox), n) == Heard(me, n)
  {
  }

  /** Frames written and read so far, on both sides. */
  function Position(s: State): int {
    Sent(s.near) + Sent(s.far) + Heard(s.near, s.far.entries) + Heard(s.far, s.near.entries)
  }

  // ---------- Deadlock freedom ----------

  predicate Finished(s: State) {
    s.near.pc.Done? && s.far.pc.Done?
  }

  function SnapshotBytes(n: nat): nat {
    n * ENTRY_BYTES + END_BYTES
  }

  lemma {:induction false} TotalOf(n: nat, i: nat)
    requires i <= n + 3
    ensures Total(n, i) == if i == 0 then 0 else if i == 1 then HELLO_BYTES
      else HELLO_BYTES + REQUEST_BYTES + (if i <= n + 2 then (i - 2) * ENTRY_BYTES else SnapshotBytes(n))
    decreases i
  {
    if i > 0 {
      TotalOf(n, i - 1);
    }
  }

  /** `who` has something to write and room to write it, or something to read. */
  ghost predicate CanMove(s: State, who: bool, cap: nat) {
    Enabled(s, Send(who), cap) || Enabled(s, Receive(who), cap)
  }

  /** A serving side is never blocked when its own snapshot fits into the channel. */
  lemma {:induction false} FittingSnapshotMoves(s: State, who: bool, cap: nat)
    requires Inv(s) && s.Of(who).pc.Serving? && SnapshotBytes(s.Of(who).entries) <= cap
    requires Heard(s.Of(!who), s.Of(who).entries) >= 2
    ensures Enabled(s, Send(who), cap)
  {
    var me, other := s.Of(who), s.Of(!who);
    TotalOf(me.entries, Sent(me));
    TotalOf(me.entries, Heard(other, me.entries));
  }

  /** A side that is not serving moves, or its peer does. */
  lemma {:induction false} IdleSideMoves(s: State, who: bool, cap: nat)
    requires Inv(s) && cap >= ENTRY_BYTES && !s.Of(who).pc.Serving? && !s.Of(who).pc.Done?
    ensures CanMove(s, who, cap) || CanMove(s, !who, cap)
  {
  }

  /** One of the two snapshots fits into a channel, and any single frame does. */
  predicate SmallerFits(s: State, cap: nat) {
    && cap >= ENTRY_BYTES
    && (SnapshotBytes(s.near.entries) <= cap || SnapshotBytes(s.far.entries) <= cap)
  }

  lemma {:induction false} NeverStuck(s: State, cap: nat)
    requires Inv(s) && SmallerFits(s, cap) && !Finished(s)
    ensures CanMove(s, true, cap) || CanMove(s, false, cap)
  {
    var near, far := s.Of(true), s.Of(false);
    if !near.pc.Serving? && !near.pc.Done? {
      IdleSideMoves(s, true, cap);
    } else if !far.pc.Serving? && !far.pc.Done? {
      IdleSideMoves(s, false, cap);
    } else {
      var who := near.pc.Serving? && SnapshotBytes(near.entries) <= cap;
      assert s.Of(who).pc.Serving? && SnapshotBytes(s.Of(who).entries) <= cap;
      FittingSnapshotMoves(s, who, cap);
      assert CanMove(s, who, cap);
    }
  }

  lemma {:induction false} StartingInv(s: State)
    requires Starting(s)
    ensures Inv(s) && Position(s) == 0
  {
  }

  lemma {:induction false} RunKeepsInv(s: State, steps: seq<Step>, t: State, cap: nat)
    requires Inv(s) && Run(s, steps, t, cap)
    ensures Inv(t) && Position(t) == Position(s) + |steps|
    ensures t.near.entries == s.near.entries && t.far.entries == s.far.entries
    decreases |steps|
  {
    if steps != [] {
      StepKeepsInv(s, steps[0], cap);
      StepKeepsEntries(s, steps[0], cap);
      hide Inv, Enabled, Do, Position;
      RunKeepsInv(Do(s, steps[0], cap), steps[1..], t, cap);
    }
  }

  lemma {:induction false} StepKeepsEntries(s: State, step: Step, cap: nat)
    requires Enabled(s, step, cap)
    ensures Do(s, step, cap).near.entries == s.near.entries && Do(s, step, cap).far.entries == s.far.entries
  {
  }

  /** When the smaller snapshot fits into a channel, every run can go on until both sides are
      done, takes no more than the fixed number of steps to get there, and leaves each side
      with exactly the other's entries, its own request served before it saw END. */
  lemma {:induction false} ExchangeAlwaysCompletes(s: State, steps: seq<Step>, t: State, cap: nat)
    requires Starting(s) && SmallerFits(s, cap) && Run(s, steps, t, cap)
    ensures Finished(t) || CanMove(t, true, cap) || CanMove(t, false, cap)
    ensures |steps| <= 2 * (s.near.entries + s.far.entries + 6)
    ensures Finished(t) <==> |steps| == 2 * (s.near.entries + s.far.entries + 6)
    ensures Finished(t) ==> t.near.got == s.far.entries && t.far.got == s.near.entries
    ensures (t.near.ended ==> t.near.served) && (t.far.ended ==> t.far.served)
  {
    StartingInv(s);
    RunKeepsInv(s, steps, t, cap);
    if !Finished(t) {
      NeverStuck(t, cap);
    }
    PositionBound(t);
  }

  /** Tables hold at most 4096 records, so room for one full snapshot always suffices; against
      the scripted peer, which serves nothing, room for one entry does. */
  lemma {:induction false} OneFullSnapshotIsEnough(s: State, cap: nat)
    requires Starting(s) && s.near.entries <= 4096 && s.far.entries <= 4096
    requires cap >= SnapshotBytes(4096) || (cap >= ENTRY_BYTES && (s.near.kind.Script? || s.far.kind.Script?))
    ensures SmallerFits(s, cap)
  {
  }

  lemma {:induction false} PositionBound(s: State)
    requires Inv(s)
    ensures Position(s) <= 2 * (s.near.entries + s.far.entries + 6)
    ensures Finished(s) <==> Position(s) == 2 * (s.near.entries + s.far.entries + 6)
  {
  }

  // ---------- And only then ----------

  lemma {:induction false} RunAppend(s: State, steps: seq<Step>, t: State, more: seq<Step>, u: State, cap: nat)
    requires Run(s, steps, t, cap) && Run(t, more, u, cap)
    ensures Run(s, steps + more, u, cap)
    decreases |steps|
  {
    hide Enabled, Do;
    if steps == [] {
      assert steps + more == more;
    } else {
      RunAppend(Do(s, steps[0], cap), steps[1..], t, more, u, cap);
      assert (steps + more)[1..] == steps[1..] + more;
    }
  }

  /** END does not fit any more once all entries are in the channel, so what is sent is an entry. */
  lemma {:induction false} OneMoreEntry(s: State, who: bool, cap: nat)
    requires Inv(s) && s.Of(who).pc.Serving? && s.Of(!who).pc.Serving?
    requires SnapshotBytes(s.Of(who).entries) > cap && Enabled(s, Send(who), cap)
    ensures var t := Do(s, Send(who), cap);
      && s.Of(who).pc.left > 0 && t.Of(who) == s.Of(who).(pc := Serving(s.Of(who).pc.left - 1))
      && t.Of(!who) == s.Of(!who).(inbox := t.Of(!who).inbox)
  {
    var me, other := s.Of(who), s.Of(!who);
    TotalOf(me.entries, Sent(me));
    TotalOf(me.entries, Heard(other, me.entries));
    hide Total, Bytes, FrameAt;
  }

  /** A serving side whose peer is not reading fills the channel and blocks. */
  lemma {:induction false} FillsUp(s: State, who: bool, cap: nat) returns (steps: seq<Step>, t: State)
    requires Inv(s) && s.Of(who).pc.Serving? && s.Of(!who).pc.Serving?
    requires SnapshotBytes(s.Of(who).entries) > cap
    ensures Run(s, steps, t, cap) && Inv(t) && !Enabled(t, Send(who), cap)
    ensures t.Of(who).pc.Serving? && t.Of(who).entries == s.Of(who).entries && t.Of(who).inbox == s.Of(who).inbox
    ensures t.Of(!who) == s.Of(!who).(inbox := t.Of(!who).inbox)
    decreases s.Of(who).pc.left
  {
    if !Enabled(s, Send(who), cap) {
      steps, t := [], s;
    } else {
      OneMoreEntry(s, who, cap);
      StepKeepsInv(s, Send(who), cap);
      hide Inv, Enabled, Do, SnapshotBytes;
      var more;
      more, t := FillsUp(Do(s, Send(who), cap), who, cap);
      steps := [Send(who)] + more;
      assert steps[1..] == more;
    }
  }

  lemma {:induction false} BothServe(s: State, cap: nat) returns (steps: seq<Step>, t: State)
    requires Starting(s) && cap >= ENTRY_BYTES
    ensures Run(s, steps, t, cap)
    ensures t == State(s.near.(pc := Serving(s.near.entries)), s.far.(pc := Serving(s.far.entries)))
  {
    var a, b := s.near, s.far;
    var s1 := State(a.(pc := AwaitHello, inbox := [Hello]), b.(pc := AwaitHello, inbox := [Hello]));
    var s2 := State(a.(pc := Ask), b.(pc := Ask));
    var s3 := State(a.(pc := Loop, inbox := [Request]), b.(pc := Loop, inbox := [Request]));
    t := State(a.(pc := Serving(a.entries)), b.(pc := Serving(b.entries)));
    assert Do(Do(s, Send(true), cap), Send(false), cap) == s1;
    TwoSteps(s, Send(true), Send(false), cap);
    assert Do(Do(s1, Receive(true), cap), Receive(false), cap) == s2;
    TwoSteps(s1, Receive(true), Receive(false), cap);
    assert Do(Do(s2, Send(true), cap), Send(false), cap) == s3;
    TwoSteps(s2, Send(true), Send(false), cap);
    assert Do(Do(s3, Receive(true), cap), Receive(false), cap) == t;
    TwoSteps(s3, Receive(true), Receive(false), cap);
    RunAppend(s, [Send(true), Send(false)], s1, [Receive(true), Receive(false)], s2, cap);
    RunAppend(s2, [Send(true), Send(false)], s3, [Receive(true), Receive(false)], t, cap);
    steps := [Send(true), Send(false)] + [Receive(true), Receive(false)]
      + ([Send(true), Send(false)] + [Receive(true), Receive(false)]);
    RunAppend(s, [Send(true), Send(false)] + [Receive(true), Receive(false)], s2,
              [Send(true), Send(false)] + [Receive(true), Receive(false)], t, cap);
  }

  lemma {:induction false} TwoSteps(s: State, x: Step, y: Step, cap: nat)
    requires Enabled(s, x, cap) && Enabled(Do(s, x, cap), y, cap)
    ensures Run(s, [x, y], Do(Do(s, x, cap), y, cap), cap)
  {
  }

  /** When neither snapshot fits, both sides can end up blocked in the middle of serving. */
  lemma {:induction false} DeadlocksWhenNeitherFits(s: State, cap: nat) returns (steps: seq<Step>, t: State)
    requires Starting(s) && cap >= ENTRY_BYTES && !SmallerFits(s, cap)
    ensures Run(s, steps, t, cap) && !Finished(t) && !CanMove(t, true, cap) && !CanMove(t, false, cap)
  {
    StartingInv(s);
    var steps0, t0 := BothServe(s, cap);
    RunKeepsInv(s, steps0, t0, cap);
    var steps1, t1 := FillsUp(t0, true, cap);
    var steps2, t2 := FillsUp(t1, false, cap);
    RunAppend(s, steps0, t0, steps1, t1, cap);
    RunAppend(s, steps0 + steps1, t1, steps2, t2, cap);
    steps, t := steps0 + steps1 + steps2, t2;
  }
}
