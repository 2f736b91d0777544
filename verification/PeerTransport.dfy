/** The transport's own loops, in place: the connection slots, and the snapshot exchange of one
    connection thread, from bytes on the socket to the table. Each is proved to do exactly what
    the step relation of `Network` says happens.
 */
module PeerTransport {
  import opened Basics
  import opened Framing
  import opened HostState
  import opened HostTable
  import opened HostRuns
  import N = Network
  import opened PeerProtocol
  import X = SnapshotExchange

  const MSG_HELLO: byte := 1
  const MSG_HOST_LOCATION_UPDATE: byte := 3
  const MSG_STATE_SNAPSHOT_REQUEST: byte := 4
  const MSG_STATE_SNAPSHOT_ENTRY: byte := 6
  const MSG_STATE_SNAPSHOT_END: byte := 7

  // ---------- The connection slots ----------

  class Slots {
    const conns: array<N.Slot>

    ghost predicate Valid()
      reads this
    {
      conns.Length == N.MAX_CONNECTIONS
    }

    constructor ()
      ensures Valid() && fresh(conns) && conns[..] == seq(N.MAX_CONNECTIONS, i => N.Slot(0, false, false))
    {
      conns := new N.Slot[N.MAX_CONNECTIONS](_ => N.Slot(0, false, false));
    }

    /** acquire_connection_slot. */
    method Acquire(e: N.EndId) returns (slot: int)
      requires Valid()
      modifies conns
      ensures var k := N.FreeSlot(old(conns[..]), 0);
        if k == N.MAX_CONNECTIONS then slot == -1 && conns[..] == old(conns[..])
        else slot == k && conns[..] == old(conns[..])[k := N.Slot(e, true, false)]
      ensures slot == -1 <==> forall k :: 0 <= k < 32 ==> old(conns[..])[k].active
      ensures slot != -1 ==> !old(conns[..])[slot].active && forall k :: 0 <= k < slot ==> old(conns[..])[k].active
    {
      for i := 0 to conns.Length
        invariant conns[..] == old(conns[..])
        invariant N.FreeSlot(conns[..], 0) == N.FreeSlot(conns[..], i)
      {
        if !conns[i].active {
          conns[i] := N.Slot(e, true, false);
          return i;
        }
      }
      return -1;
    }

    /** The slots disseminate copies under the lock. */
    method CollectReady() returns (targets: seq<N.Target>)
      requires Valid()
      ensures targets == N.ReadySlots(conns[..], 0)
      ensures forall t :: t in targets <==>
        0 <= t.slot < 32 && conns[t.slot].active && conns[t.slot].ready && t.end == conns[t.slot].end
      ensures forall i, j :: 0 <= i < j < |targets| ==> targets[i].slot < targets[j].slot
    {
      hide Collected;
      ghost var slots := conns[..];
      targets := [];
      CollectStart(slots);
      for i := 0 to conns.Length
        invariant Collected(slots, targets, i)
      {
        CollectStep(slots, targets, i);
        assert slots[i] == conns[i] && targets + [] == targets;
        if conns[i].active && conns[i].ready {
          targets := targets + [N.Target(i, conns[i].end)];
        }
      }
      CollectEnd(slots, targets);
      N.TargetsRise(slots, 0);
    }
  }

  /** `targets` are the ready slots below `i`. */
  ghost predicate Collected(slots: seq<N.Slot>, targets: seq<N.Target>, i: nat)
    requires i <= |slots|
  {
    targets + N.ReadySlots(slots, i) == N.ReadySlots(slots, 0)
  }

  lemma {:induction false} CollectStart(slots: seq<N.Slot>)
    ensures Collected(slots, [], 0)
  {
  }

  lemma {:induction false} CollectStep(slots: seq<N.Slot>, targets: seq<N.Target>, i: nat)
    requires i < |slots| && Collected(slots, targets, i)
    ensures Collected(slots, targets + (if slots[i].active && slots[i].ready then [N.Target(i, slots[i].end)] else []), i + 1)
  {
  }

  lemma {:induction false} CollectEnd(slots: seq<N.Slot>, targets: seq<N.Target>)
    requires Collected(slots, targets, |slots|)
    ensures targets == N.ReadySlots(slots, 0)
  {
  }

  // ---------- Frames as messages of the step relation ----------

  /** What a frame means during the exchange; None when it is dropped. */
  function Meaning(f: Frame): Option<N.Message> {
    if f.kind == MSG_STATE_SNAPSHOT_REQUEST then Some(N.Request)
    else if f.kind == MSG_STATE_SNAPSHOT_END then Some(N.End)
    else if f.kind == MSG_STATE_SNAPSHOT_ENTRY && ParseLocation(f.payload).Some? then
      Some(N.Entry(ParseLocation(f.payload).value))
    else if f.kind == MSG_HOST_LOCATION_UPDATE && ParseLocation(f.payload).Some? then
      Some(N.Update(ParseLocation(f.payload).value, 0))
    else None
  }

  function Meanings(fs: seq<Frame>): seq<N.Message>
    decreases |fs|
  {
    if fs == [] then []
    else
      Meanings(fs[..|fs| - 1]) +
      match Meaning(fs[|fs| - 1]) case Some(m) => [m] case None => []
  }

  lemma {:induction false} MeaningsSnoc(fs: seq<Frame>, f: Frame)
    ensures Meanings(fs + [f]) == Meanings(fs) + match Meaning(f) case Some(m) => [m] case None => []
  {
  }

  function Entries(listing: seq<Location>): seq<N.Message> {
    seq(|listing|, i requires 0 <= i < |listing| => N.Entry(listing[i]))
  }

  /** One turn of the receive loop: a message, and the copy made if it is a request. */
  datatype Turn = Turn(message: N.Message, listing: seq<Location>)

  /** What one turn does; a request is served to the end before the next message is read. */
  function Take(ep: N.Endpoint, h: Host, turn: Turn, now: nat): (N.Endpoint, Host) {
    var (ep', h') := N.HearExchanging(ep, h, turn.message, now, turn.listing);
    if turn.message.Request? then (ep'.(serving := None, out := ep'.out + Entries(turn.listing) + [N.End]), h')
    else (ep', h')
  }

  function TakeAll(ep: N.Endpoint, h: Host, turns: seq<Turn>, now: nat): (N.Endpoint, Host)
    decreases |turns|
  {
    if turns == [] then (ep, h)
    else
      var (ep', h') := TakeAll(ep, h, turns[..|turns| - 1], now);
      Take(ep', h', turns[|turns| - 1], now)
  }

  lemma {:induction false} TakeSnoc(ep: N.Endpoint, h: Host, turns: seq<Turn>, turn: Turn, now: nat)
    ensures var (ep', h') := TakeAll(ep, h, turns, now);
      TakeAll(ep, h, turns + [turn], now) == Take(ep', h', turn, now)
  {
  }

  /** Every turn is taken while the exchange is on, and every copy lists the table of its moment. */
  ghost predicate Proper(ep: N.Endpoint, h: Host, turns: seq<Turn>, now: nat)
    decreases |turns|
  {
    turns != [] ==>
      && Proper(ep, h, turns[..|turns| - 1], now)
      && var (ep', h') := TakeAll(ep, h, turns[..|turns| - 1], now);
         var turn := turns[|turns| - 1];
         && ep'.phase.Exchanging?
         && (turn.message.Request? ==> N.IsListing(turn.listing, h'.table))
  }

  function MessagesOf(turns: seq<Turn>): seq<N.Message> {
    seq(|turns|, i requires 0 <= i < |turns| => turns[i].message)
  }

  function CountEntries(turns: seq<Turn>): nat {
    if turns == [] then 0 else CountEntries(turns[..|turns| - 1]) + if turns[|turns| - 1].message.Entry? then 1 else 0
  }

  /** The snapshot entries among the frames. */
  function EntryFrames(fs: seq<Frame>): nat {
    if fs == [] then 0
    else EntryFrames(fs[..|fs| - 1]) + if fs[|fs| - 1].kind == 6 && |fs[|fs| - 1].payload| == 59 then 1 else 0
  }

  lemma {:induction false} EntriesCounted(turns: seq<Turn>, fs: seq<Frame>)
    requires MessagesOf(turns) == Meanings(fs)
    ensures CountEntries(turns) == EntryFrames(fs)
    decreases |fs|
  {
    hide ParseLocation;
    if fs != [] {
      var init, last := fs[..|fs| - 1], fs[|fs| - 1];
      EntryFrame(last);
      if Meaning(last).Some? {
        assert Meanings(fs) == Meanings(init) + [Meaning(last).value];
        assert MessagesOf(turns)[|turns| - 1] == Meanings(fs)[|Meanings(fs)| - 1];
        assert MessagesOf(turns[..|turns| - 1]) == MessagesOf(turns)[..|turns| - 1];
        EntriesCounted(turns[..|turns| - 1], init);
      } else {
        assert Meanings(fs) == Meanings(init);
        EntriesCounted(turns, init);
      }
    }
  }

  /** The deferred updates, applied in the order they came. */
  function ReplayAll(h: Host, deferred: seq<N.Message>, now: nat): Host
    decreases |deferred|
  {
    if deferred == [] then h
    else
      var last := deferred[|deferred| - 1];
      var h' := ReplayAll(h, deferred[..|deferred| - 1], now);
      if last.Update? then ApplyRemote(h', last.loc, now) else h'
  }

  /** Every record fits the wire. */
  ghost predicate Encodable(t: map<Mac, Location>) {
    forall m :: m in t ==> LocationFits(t[m])
  }

  lemma {:induction false} ApplyKeepsEncodable(h: Host, u: Location, now: nat)
    requires Encodable(h.table) && LocationFits(u) && now < Pow256(8)
    ensures Encodable(ApplyRemote(h, u, now).table)
  {
  }

  lemma {:induction false} ListsIsListing(s: seq<Location>, t: map<Mac, Location>)
    requires Distinct(s) && Lists(s, t)
    ensures N.IsListing(s, t)
  {
  }

  // ---------- One connection thread ----------

  /** The messages a thread wrote, as the peer will see them. */
  ghost predicate Sent(before: seq<Frame>, after: seq<Frame>, ms: seq<N.Message>) {
    before <= after && Meanings(after) == Meanings(before) + ms
  }

  /** One frame more, with this type byte and payload. */
  ghost predicate Adds(before: seq<Frame>, after: seq<Frame>, kind: byte, payload: seq<byte>) {
    && |after| == |before| + 1 && after[..|before|] == before
    && after[|before|].kind == kind && after[|before|].payload == payload
  }

  /** One frame more, and what it means to the reader. */
  ghost predicate Writes(before: seq<Frame>, after: seq<Frame>, kind: byte, payload: seq<byte>, m: N.Message) {
    Adds(before, after, kind, payload) && Meaning(after[|before|]) == Some(m)
  }

  /** A live update from sender to reader: type 3 on the wire, read back whatever follows, and meant
      as the update it was. */
  lemma {:induction false} UpdateArrives(f: Frame, loc: Location, rest: seq<byte>)
    requires Sendable(f) && LocationFits(loc) && f.kind == 3 && f.payload == LocationBytes(loc)
    ensures |FrameBytes(f)| > 1 && FrameBytes(f)[1] == 3 && ReadOne(FrameBytes(f) + rest) == Got(f, rest)
    ensures Meaning(f) == Some(N.Update(loc, 0))
  {
    hide FrameBytes, ReadOne, LocationBytes, ParseLocation, Meaning, Sendable, LocationFits;
    TypeByte(f);
    ReadBack(f, rest);
    LocationRoundTrip(loc);
    UpdateMeans(loc);
    assert f == Frame(MSG_HOST_LOCATION_UPDATE, f.origin, f.id, f.time, LocationBytes(loc));
  }

  /** The sizes the capacity results of `SnapshotExchange` count in are those of the frames sent. */
  lemma {:induction false} SizesOnTheWire(f: Frame, epoch: nat, loc: Location)
    requires Sendable(f)
    ensures f.payload == BigEndian(8, epoch) ==> |FrameBytes(f)| == X.Size(X.Hello) == 38
    ensures f.payload == [] ==> |FrameBytes(f)| == X.Size(X.Request) == X.Size(X.End) == 30
    ensures f.payload == LocationBytes(loc) ==> |FrameBytes(f)| == X.Size(X.Entry) == 89
  {
    FrameLength(f);
    hide FrameBytes, LocationBytes, BigEndian;
  }

  /** A frame of that type carrying one record. */
  predicate CarriesLocation(f: Frame, kind: byte) {
    f.kind == kind && |f.payload| == 59
  }

  /** What one frame does to the table and the queue: an update is queued while there is room and
      ends the exchange when there is none, an entry is applied, nothing else touches either. */
  ghost predicate HandledAs(f: Frame, h: Host, queue: seq<Location>, now: nat, ok: bool, h2: Host, queue2: seq<Location>) {
    if CarriesLocation(f, 3) then
      && h2 == h && (ok <==> |queue| < 16)
      && queue2 == if ok then queue + [LocationOf(f.payload)] else queue
    else if CarriesLocation(f, 6) then
      ok && queue2 == queue && h2 == ApplyRemote(h, LocationOf(f.payload), now)
    else
      queue2 == queue && h2 == h
  }

  // ---------- Where the receive loop stands ----------

  /** Of the stream `all`, `frames` have been read and `left` is to come; read as messages they
      are `turns`, and those take (ep, h0) to (e, h). */
  ghost predicate Progress(ep: N.Endpoint, h0: Host, turns: seq<Turn>, now: nat, e: N.Endpoint, h: Host,
      all: seq<byte>, frames: seq<Frame>, left: seq<byte>)
  {
    && TakeAll(ep, h0, turns, now) == (e, h)
    && Proper(ep, h0, turns, now)
    && MessagesOf(turns) == Meanings(frames)
    && ReadAll(all) == frames + ReadAll(left)
  }

  lemma {:induction false} ProgressStarts(ep: N.Endpoint, h0: Host, now: nat, all: seq<byte>)
    ensures Progress(ep, h0, [], now, ep, h0, all, [], all)
  {
  }

  lemma {:induction false} ReadMoves(all: seq<byte>, frames: seq<Frame>, left: seq<byte>, f: Frame, rest: seq<byte>)
    requires ReadAll(all) == frames + ReadAll(left) && ReadOne(left) == Got(f, rest)
    ensures ReadAll(all) == frames + [f] + ReadAll(rest)
  {
  }

  lemma {:induction false} ProgressDropped(ep: N.Endpoint, h0: Host, turns: seq<Turn>, now: nat, e: N.Endpoint, h: Host,
      all: seq<byte>, frames: seq<Frame>, left: seq<byte>, f: Frame, rest: seq<byte>)
    requires Progress(ep, h0, turns, now, e, h, all, frames, left)
    requires ReadOne(left) == Got(f, rest) && Meaning(f).None?
    ensures Progress(ep, h0, turns, now, e, h, all, frames + [f], rest)
  {
    MeaningsSnoc(frames, f);
    ReadMoves(all, frames, left, f, rest);
    hide ReadAll, ReadOne, Meanings, Meaning, TakeAll, Proper;
  }

  lemma {:induction false} ProgressTurn(ep: N.Endpoint, h0: Host, turns: seq<Turn>, now: nat, e: N.Endpoint, h: Host,
      all: seq<byte>, frames: seq<Frame>, left: seq<byte>, f: Frame, rest: seq<byte>, turn: Turn)
    requires Progress(ep, h0, turns, now, e, h, all, frames, left)
    requires ReadOne(left) == Got(f, rest) && Meaning(f) == Some(turn.message)
    requires e.phase.Exchanging? && (turn.message.Request? ==> N.IsListing(turn.listing, h.table))
    ensures var (e2, h2) := Take(e, h, turn, now);
      Progress(ep, h0, turns + [turn], now, e2, h2, all, frames + [f], rest)
  {
    hide ReadAll, ReadOne, Meanings, Meaning, TakeAll, Proper, Take, N.IsListing, MessagesOf;
    MeaningsSnoc(frames, f);
    ReadMoves(all, frames, left, f, rest);
    TakeSnoc(ep, h0, turns, turn, now);
    ProperSnoc(ep, h0, turns, now, turn);
    MessagesSnoc(turns, turn);
  }

  lemma {:induction false} MessagesSnoc(turns: seq<Turn>, turn: Turn)
    ensures MessagesOf(turns + [turn]) == MessagesOf(turns) + [turn.message]
  {
  }

  lemma {:induction false} ProperSnoc(ep: N.Endpoint, h0: Host, turns: seq<Turn>, now: nat, turn: Turn)
    requires Proper(ep, h0, turns, now)
    requires var (e, h) := TakeAll(ep, h0, turns, now);
      e.phase.Exchanging? && (turn.message.Request? ==> N.IsListing(turn.listing, h.table))
    ensures Proper(ep, h0, turns + [turn], now)
  {
  }

  lemma {:induction false} ProgressCounts(ep: N.Endpoint, h0: Host, turns: seq<Turn>, now: nat, e: N.Endpoint, h: Host,
      all: seq<byte>, frames: seq<Frame>, left: seq<byte>)
    requires Progress(ep, h0, turns, now, e, h, all, frames, left)
    ensures CountEntries(turns) == EntryFrames(frames)
  {
    EntriesCounted(turns, frames);
  }

  /** The records the frames of one type brought, in order. */
  function Arrivals(fs: seq<Frame>, kind: byte, now: nat): seq<Arrival>
    decreases |fs|
  {
    if fs == [] then []
    else
      var last := fs[|fs| - 1];
      Arrivals(fs[..|fs| - 1], kind, now) + if CarriesLocation(last, kind) then [Arrival(LocationOf(last.payload), now)] else []
  }

  function Updates(us: seq<Arrival>): seq<N.Message> {
    seq(|us|, i requires 0 <= i < |us| => N.Update(us[i].loc, 0))
  }

  lemma {:induction false} ReplayOfUpdates(h: Host, us: seq<Arrival>, now: nat)
    requires forall i :: 0 <= i < |us| ==> us[i].now == now
    ensures ReplayAll(h, Updates(us), now) == ApplyAll(h, us)
    decreases |us|
  {
    if us != [] {
      var init := us[..|us| - 1];
      ReplayOfUpdates(h, init, now);
      assert Updates(us)[..|us| - 1] == Updates(init);
    }
  }

  lemma {:induction false} ArrivalsNow(fs: seq<Frame>, kind: byte, now: nat)
    ensures forall i :: 0 <= i < |Arrivals(fs, kind, now)| ==> Arrivals(fs, kind, now)[i].now == now
    decreases |fs|
  {
    hide LocationOf, CarriesLocation;
    if fs != [] {
      ArrivalsNow(fs[..|fs| - 1], kind, now);
    }
  }

  /** The frames as messages. */
  lemma {:induction false} MeaningIs(f: Frame)
    ensures Meaning(f) ==
      if f.kind == 4 then Some(N.Request)
      else if f.kind == 7 then Some(N.End)
      else if CarriesLocation(f, 6) then Some(N.Entry(LocationOf(f.payload)))
      else if CarriesLocation(f, 3) then Some(N.Update(LocationOf(f.payload), 0))
      else None
  {
    ParsesExactly(f.payload);
    hide LocationOf, ParseLocation;
  }

  /** A turn for this frame: an entry is applied, an update queued if there is room. */
  lemma {:induction false} TurnLeaves(e: N.Endpoint, h: Host, turn: Turn, f: Frame, now: nat)
    requires e.phase.Exchanging? && Meaning(f) == Some(turn.message)
    ensures var (e2, h2) := Take(e, h, turn, now);
      && h2 == (if CarriesLocation(f, 6) then ApplyRemote(h, LocationOf(f.payload), now) else h)
      && (e2.phase.Exchanging? || e2.phase.Replaying? || e2.phase.Closing?)
      && (!e2.phase.Closing? ==>
            e2.deferred == e.deferred + if CarriesLocation(f, 3) then [N.Update(LocationOf(f.payload), 0)] else [])
  {
    MeaningIs(f);
    hide LocationOf, Meaning, ApplyRemote;
  }

  lemma {:induction false} DropLeaves(f: Frame)
    requires Meaning(f).None?
    ensures !CarriesLocation(f, 3) && !CarriesLocation(f, 6)
  {
    MeaningIs(f);
    hide LocationOf, Meaning;
  }

  /** What the turns of an exchange leave, said of the frames alone: every entry applied in order,
      every update queued in order, unless one update was too many. */
  lemma {:induction false} ExchangeApplies(ep: N.Endpoint, h0: Host, turns: seq<Turn>, now: nat, fs: seq<Frame>)
    requires ep.deferred == [] && ep.phase.Exchanging?
    requires Proper(ep, h0, turns, now) && MessagesOf(turns) == Meanings(fs)
    ensures var (e, h) := TakeAll(ep, h0, turns, now);
      && h == ApplyAll(h0, Arrivals(fs, 6, now))
      && (e.phase.Exchanging? || e.phase.Replaying? ==> e.deferred == Updates(Arrivals(fs, 3, now)))
      && (e.phase.Exchanging? || e.phase.Closing? || e.phase.Replaying?)
    decreases |fs|
  {
    hide LocationOf, Meaning, ApplyRemote, N.IsListing, ApplyAll, Arrivals, Updates, Take, CarriesLocation;
    if fs == [] {
      NothingArrives(h0, now);
    } else {
      var init, last := fs[..|fs| - 1], fs[|fs| - 1];
      assert init + [last] == fs;
      LastArrives(h0, init, last, now);
      if Meaning(last).Some? {
        var before, turn := turns[..|turns| - 1], turns[|turns| - 1];
        assert Meanings(fs) == Meanings(init) + [Meaning(last).value];
        assert MessagesOf(turns)[|turns| - 1] == Meanings(fs)[|Meanings(fs)| - 1];
        assert MessagesOf(before) == MessagesOf(turns)[..|turns| - 1];
        ExchangeApplies(ep, h0, before, now, init);
        var (e1, h1) := TakeAll(ep, h0, before, now);
        TurnLeaves(e1, h1, turn, last, now);
      } else {
        DropLeaves(last);
        assert Meanings(fs) == Meanings(init);
        ExchangeApplies(ep, h0, turns, now, init);
      }
    }
  }

  lemma {:induction false} NothingArrives(h: Host, now: nat)
    ensures Updates(Arrivals([], 3, now)) == [] && ApplyAll(h, Arrivals([], 6, now)) == h
  {
  }

  lemma {:induction false} LastArrives(h: Host, init: seq<Frame>, last: Frame, now: nat)
    ensures Updates(Arrivals(init + [last], 3, now)) ==
      Updates(Arrivals(init, 3, now)) + if CarriesLocation(last, 3) then [N.Update(LocationOf(last.payload), 0)] else []
    ensures ApplyAll(h, Arrivals(init + [last], 6, now)) == (
      if CarriesLocation(last, 6) then ApplyRemote(ApplyAll(h, Arrivals(init, 6, now)), LocationOf(last.payload), now)
      else ApplyAll(h, Arrivals(init, 6, now)))
  {
    hide LocationOf, ApplyRemote;
    var fs, before := init + [last], Arrivals(init, 6, now);
    assert fs[..|fs| - 1] == init;
    if CarriesLocation(last, 6) {
      assert (before + [Arrival(LocationOf(last.payload), now)])[..|before|] == before;
    } else {
      assert before + [] == before;
    }
  }

  /** A frame with a decodable snapshot entry. */
  predicate CountsAsEntry(f: Frame) {
    f.kind == MSG_STATE_SNAPSHOT_ENTRY && ParseLocation(f.payload).Some?
  }

  /** Where the receive loop stands: turns taken, endpoint and table they lead to, frames read,
      bytes to come. */
  datatype Stand = Stand(turns: seq<Turn>, e: N.Endpoint, h: Host, frames: seq<Frame>, left: seq<byte>)

  function Took(st: Stand, f: Frame, rest: seq<byte>, turn: Turn, now: nat): Stand {
    var (e, h) := Take(st.e, st.h, turn, now);
    Stand(st.turns + [turn], e, h, st.frames + [f], rest)
  }

  /** One exchange: the endpoint and table it starts from, the time, the bytes and signals to come,
      and the frames written before. */
  datatype Exchange = Exchange(ep: N.Endpoint, h0: Host, now: nat, all: seq<byte>, signals: Signals, before: seq<Frame>)

  /** The loop has come to `st`, having counted `applied` entries, with these signals to come. */
  ghost predicate Reached(run: Exchange, st: Stand, coming: Signals, applied: int) {
    && Progress(run.ep, run.h0, st.turns, run.now, st.e, st.h, run.all, st.frames, st.left)
    && coming == SignalsLeft(run.signals, st.frames)
    && applied == CountEntries(st.turns)
  }

  lemma {:induction false} ReachedStart(run: Exchange)
    ensures Reached(run, Stand([], run.ep, run.h0, [], run.all), run.signals, 0)
  {
    ProgressStarts(run.ep, run.h0, run.now, run.all);
    ReadingStarts(run.all, run.signals);
    hide Progress, SignalsLeft;
  }

  lemma {:induction false} ReachedTurn(run: Exchange, st: Stand, coming: Signals, applied: int, f: Frame, rest: seq<byte>, turn: Turn)
    requires Reached(run, st, coming, applied)
    requires ReadOne(st.left) == Got(f, rest) && Meaning(f) == Some(turn.message)
    requires st.e.phase.Exchanging? && (turn.message.Request? ==> N.IsListing(turn.listing, st.h.table))
    ensures Reached(run, Took(st, f, rest, turn, run.now), SignalsLeft(coming, [f]), applied + if CountsAsEntry(f) then 1 else 0)
  {
    hide Progress, SignalsLeft, Take, Meaning, ReadOne, N.IsListing, CountEntries, CountsAsEntry;
    ProgressTurn(run.ep, run.h0, st.turns, run.now, st.e, st.h, run.all, st.frames, st.left, f, rest, turn);
    SignalsLeftSnoc(run.signals, st.frames, f);
    TurnCounts(st.turns, turn);
    EntryFrame(f);
  }

  lemma {:induction false} ReachedDropped(run: Exchange, st: Stand, coming: Signals, applied: int, f: Frame, rest: seq<byte>)
    requires Reached(run, st, coming, applied)
    requires ReadOne(st.left) == Got(f, rest) && Meaning(f).None?
    ensures Reached(run, Stand(st.turns, st.e, st.h, st.frames + [f], rest), SignalsLeft(coming, [f]),
      applied + if CountsAsEntry(f) then 1 else 0)
  {
    hide Progress, SignalsLeft, Meaning, ReadOne, CountEntries, CountsAsEntry;
    ProgressDropped(run.ep, run.h0, st.turns, run.now, st.e, st.h, run.all, st.frames, st.left, f, rest);
    SignalsLeftSnoc(run.signals, st.frames, f);
    EntryFrame(f);
  }

  /** The loop goes on at `st`, or ends there with END when `done`: the table, the socket and the
      queue are as the turns so far leave them. */
  ghost predicate Underway(run: Exchange, st: Stand, done: bool, applied: int, h: Host, left: seq<byte>, coming: Signals,
      queue: seq<Location>, sent: seq<Frame>)
  {
    && Reached(run, st, coming, applied) && applied >= 0
    && h == st.h && left == st.left && st.e.serving.None?
    && (if done then st.e.phase.Replaying? else st.e.phase.Exchanging?)
    && Queued(st.e.deferred, queue) && Wrote(run.ep.out, st.e.out, run.before, sent)
  }

  lemma {:induction false} UnderwayStart(run: Exchange, coming: Signals, sent: seq<Frame>)
    requires Reached(run, Stand([], run.ep, run.h0, [], run.all), coming, 0)
    requires run.ep.phase.Exchanging? && run.ep.deferred == [] && run.ep.serving.None?
    requires Writes(run.before, sent, 4, [], N.Request)
    ensures Underway(run, Stand([], run.ep, run.h0, [], run.all), false, 0, run.h0, run.all, coming, [], sent)
  {
    hide Reached, Wrote, Queued, Writes;
    RequestWritten(run.ep.out, run.before, sent);
    NothingQueued([]);
  }

  lemma {:induction false} UnderwayLeft(run: Exchange, st: Stand, done: bool, applied: int, h: Host, left: seq<byte>, coming: Signals,
      queue: seq<Location>, sent: seq<Frame>)
    requires Underway(run, st, done, applied, h, left, coming, queue, sent)
    ensures st.left == left
  {
  }

  /** The exchange succeeded: the last turn was END, the queue has been applied after the turns, and
      `applied` counts the snapshot entries among the frames read. */
  ghost predicate Completed(run: Exchange, st: Stand, applied: int, h: Host, left: seq<byte>, sent: seq<Frame>) {
    && Progress(run.ep, run.h0, st.turns, run.now, st.e, st.h, run.all, st.frames, st.left)
    && st.e.phase.Replaying? && h == ReplayAll(st.h, st.e.deferred, run.now) && left == st.left
    && applied == CountEntries(st.turns) == EntryFrames(st.frames)
    && Wrote(run.ep.out, st.e.out, run.before, sent)
  }

  /** At the end the queue waits for its replay, which completes the exchange. */
  lemma {:induction false} UnderwayEnds(run: Exchange, st: Stand, applied: int, h: Host, left: seq<byte>, coming: Signals,
      queue: seq<Location>, sent: seq<Frame>)
    requires Underway(run, st, true, applied, h, left, coming, queue, sent)
    ensures applied >= 0 && h == st.h && Queued(st.e.deferred, queue)
    ensures Completed(run, st, applied, ReplayAll(st.h, st.e.deferred, run.now), left, sent)
  {
    hide Progress, Queued, Wrote, CountEntries, EntryFrames, ReplayAll;
    ProgressCounts(run.ep, run.h0, st.turns, run.now, st.e, st.h, run.all, st.frames, st.left);
  }

  /** The exchange failed at `st`: one update too many, a write that failed (`mute`), the stream at
      an end, or a frame refused. */
  ghost predicate Stopped(run: Exchange, st: Stand, h: Host, mute: bool) {
    && Progress(run.ep, run.h0, st.turns, run.now, st.e, st.h, run.all, st.frames, st.left) && h == st.h
    && (st.e.phase.Exchanging? || st.e.phase.Closing?)
    && (st.e.phase.Closing? || mute || !ReadOne(st.left).Got? || Disturbed(SignalsLeft(run.signals, st.frames), ReadOne(st.left).frame))
  }

  lemma {:induction false} StopsReading(run: Exchange, st: Stand, coming: Signals, applied: int, mute: bool)
    requires Reached(run, st, coming, applied) && st.e.phase.Exchanging?
    requires !ReadOne(st.left).Got? || Disturbed(coming, ReadOne(st.left).frame)
    ensures Stopped(run, st, st.h, mute)
  {
    hide Progress, ReadOne, Disturbed, SignalsLeft, CountEntries;
  }

  lemma {:induction false} StopsHandling(run: Exchange, st: Stand, coming: Signals, applied: int, mute: bool)
    requires Reached(run, st, coming, applied) && (st.e.phase.Closing? || (st.e.phase.Exchanging? && mute))
    ensures Stopped(run, st, st.h, mute)
  {
    hide Progress, ReadOne, Disturbed, SignalsLeft, CountEntries;
  }

  /** An exchange said of the frames alone: each snapshot entry was applied as it came, and on success
      each update after all of them. */
  lemma {:induction false} ExchangeMeans(run: Exchange, st: Stand, applied: int, h: Host, left: seq<byte>, sent: seq<Frame>, mute: bool)
    requires run.ep.deferred == [] && run.ep.phase.Exchanging?
    requires if applied >= 0 then Completed(run, st, applied, h, left, sent) else Stopped(run, st, h, mute)
    ensures st.frames <= ReadAll(run.all)
    ensures st.h == ApplyAll(run.h0, Arrivals(st.frames, 6, run.now))
    ensures h == if applied >= 0 then ApplyAll(st.h, Arrivals(st.frames, 3, run.now)) else st.h
  {
    hide ReadAll, ReadOne, Meanings, Proper, ApplyAll, Arrivals, Updates, EntryFrames, CountEntries, Disturbed, SignalsLeft, Wrote;
    ExchangeApplies(run.ep, run.h0, st.turns, run.now, st.frames);
    ArrivalsNow(st.frames, 3, run.now);
    ReplayOfUpdates(st.h, Arrivals(st.frames, 3, run.now), run.now);
  }

  /** What a turn leaves, and that one update too many ends the exchange. */
  lemma {:induction false} TookIs(st: Stand, f: Frame, rest: seq<byte>, turn: Turn, now: nat)
    requires st.e.phase.Exchanging?
    ensures var t := Took(st, f, rest, turn, now);
      && (t.e, t.h) == Take(st.e, st.h, turn, now) && t.left == rest
      && (turn.message.Update? && |st.e.deferred| == N.MAX_DEFERRED_UPDATES ==> t.e.phase.Closing?)
  {
    OverflowCloses(st.e, st.h, turn, now);
    hide Take;
  }

  /** The deferred queue as the C array holds it. */
  ghost predicate Queued(deferred: seq<N.Message>, locs: seq<Location>) {
    && |deferred| == |locs| <= N.MAX_DEFERRED_UPDATES
    && forall i {:trigger locs[i]} {:trigger deferred[i]} :: 0 <= i < |locs| ==>
      deferred[i] == N.Update(locs[i], 0) && LocationFits(locs[i])
  }

  lemma {:induction false} NothingQueued(locs: seq<Location>)
    requires locs == []
    ensures Queued([], locs)
  {
  }

  lemma {:induction false} QueuedGrows(deferred: seq<N.Message>, locs: seq<Location>, loc: Location)
    requires Queued(deferred, locs) && LocationFits(loc) && |locs| < N.MAX_DEFERRED_UPDATES
    ensures Queued(deferred + [N.Update(loc, 0)], locs + [loc])
  {
  }

  lemma {:induction false} ReplayStep(h: Host, deferred: seq<N.Message>, locs: seq<Location>, i: nat, now: nat)
    requires Queued(deferred, locs) && i < |locs|
    ensures ReplayAll(h, deferred[..i + 1], now) == ApplyRemote(ReplayAll(h, deferred[..i], now), locs[i], now)
    ensures LocationFits(locs[i])
  {
    assert deferred[..i + 1][..i] == deferred[..i];
  }

  /** Everything written since the exchange began, when the endpoint had written `base`: the
      request, and what the turns wrote. */
  ghost predicate Wrote(base: seq<N.Message>, out: seq<N.Message>, before: seq<Frame>, after: seq<Frame>) {
    base <= out && Sent(before, after, [N.Request] + out[|base|..])
  }

  lemma {:induction false} RequestWritten(base: seq<N.Message>, before: seq<Frame>, after: seq<Frame>)
    requires Writes(before, after, 4, [], N.Request)
    ensures Wrote(base, base, before, after)
  {
  }

  lemma {:induction false} WroteSnapshot(base: seq<N.Message>, out: seq<N.Message>, before: seq<Frame>, sofar: seq<Frame>, after: seq<Frame>,
      listing: seq<Location>)
    requires Wrote(base, out, before, sofar) && Sent(sofar, after, Entries(listing) + [N.End])
    ensures Wrote(base, out + Entries(listing) + [N.End], before, after)
  {
  }

  class Connection {
    const hosts: HostTable
    const input: InSocket
    const output: Sender

    constructor (hosts: HostTable, input: InSocket, output: Sender)
      ensures this.hosts == hosts && this.input == input && this.output == output
    {
      this.hosts, this.input, this.output := hosts, input, output;
    }

    ghost predicate Valid()
      reads this, hosts, hosts.table, input, output, output.sock
    {
      hosts.Valid() && input.Valid() && output.Valid() && Encodable(hosts.View().table)
    }

    method SendHello(epoch: nat, now: nat) returns (ok: bool)
      requires output.Valid() && now < Pow256(8) && epoch < Pow256(8) && output.nextMessageId + 1 < Pow256(8)
      modifies output, output.sock
      ensures output.Valid() && output.active == old(output.active) && (!ok ==> !output.active || output.sock.down)
      ensures ok ==> Adds(old(output.sent), output.sent, 1, BigEndian(8, epoch))
    {
      hide Pow256, BigEndian, Torn, AllSendable, IdsRise, Concat, Suffices;
      var payload := new byte[8];
      EncodeHello(payload, epoch);
      assert payload[..] == payload[..8];
      var rc := output.SendFramed(MSG_HELLO, payload[..], now);
      ok := rc == 0;
    }

    /** The handshake at the head of run_connection: this node's epoch goes out as type 1, and the
        first frame back must be of type 1, whatever it carries; its origin is the peer. */
    method ExchangeHello(epoch: nat, now: nat) returns (reason: nat, peer: nat)
      requires input.Valid() && output.Valid() && now < Pow256(8) && epoch < Pow256(8) && output.nextMessageId + 1 < Pow256(8)
      modifies input, output, output.sock
      ensures input.Valid() && output.Valid() && output.active == old(output.active)
      ensures reason == 0 || reason == 1 || reason == 2
      ensures reason == 1 ==> input.Left() == old(input.Left()) && (!output.active || output.sock.down)
      ensures reason != 1 ==> Adds(old(output.sent), output.sent, 1, BigEndian(8, epoch))
      ensures reason == 0 ==>
        && ReadOne(old(input.Left())).Got? && ReadOne(old(input.Left())).rest == input.Left()
        && ReadOne(old(input.Left())).frame.kind == 1 && ReadOne(old(input.Left())).frame.origin == peer
      ensures reason == 2 ==> ReadOne(old(input.Left())).Got? ==>
        var f := ReadOne(old(input.Left())).frame;
        f.kind != 1 || Disturbed(old(input.signals), f)
    {
      ghost var all := input.Left();
      if ReadOne(all).Got? {
        PayloadFits(all);
      }
      hide Pow256, BigEndian, ReadOne, Disturbed, SignalsLeft, Torn, AllSendable, IdsRise, Concat, Suffices, Adds;
      peer := 0;
      var ok := SendHello(epoch, now);
      if !ok {
        return 1, peer;
      }
      var rc, f := RecvFramed(input, DAIM_PEER_MAX_PAYLOAD_SIZE);
      if rc != 0 || f.kind != MSG_HELLO {
        return 2, peer;
      }
      return 0, f.origin;
    }

    /** A frame without payload. */
    method SendPlain(kind: byte, now: nat) returns (ok: bool)
      requires output.Valid() && now < Pow256(8) && output.nextMessageId + 1 < Pow256(8)
      requires kind == 4 || kind == 7
      modifies output, output.sock
      ensures output.Valid() && output.nextMessageId <= old(output.nextMessageId) + 1
      ensures ok ==> Writes(old(output.sent), output.sent, kind, [], if kind == 7 then N.End else N.Request)
      ensures output.active == old(output.active) && (!ok ==> !output.active || output.sock.down)
    {
      var rc := output.SendFramed(kind, [], now);
      ok := rc == 0;
    }

    method SendEntry(loc: Location, now: nat) returns (ok: bool)
      requires output.Valid() && now < Pow256(8) && output.nextMessageId + 1 < Pow256(8) && LocationFits(loc)
      modifies output, output.sock
      ensures output.Valid() && output.nextMessageId <= old(output.nextMessageId) + 1
      ensures ok ==> Writes(old(output.sent), output.sent, 6, LocationBytes(loc), N.Entry(loc))
      ensures output.active == old(output.active) && (!ok ==> !output.active || output.sock.down)
    {
      LocationRoundTrip(loc);
      EntryMeans(loc);
      hide LocationBytes, ParseLocation, LocationFits, Meaning, Pow256, Suffices, Torn, AllSendable, IdsRise, Concat;
      var buf := new byte[DAIM_PEER_HOST_LOCATION_WIRE_SIZE];
      EncodeHostLocation(buf, loc);
      assert buf[..] == LocationBytes(loc);
      var rc := output.SendFramed(MSG_STATE_SNAPSHOT_ENTRY, buf[..], now);
      ok := rc == 0;
    }

    /** One frame of a disseminate call. */
    method SendUpdate(loc: Location, now: nat) returns (ok: bool)
      requires output.Valid() && now < Pow256(8) && output.nextMessageId + 1 < Pow256(8) && LocationFits(loc)
      modifies output, output.sock
      ensures output.Valid() && output.nextMessageId <= old(output.nextMessageId) + 1
      ensures ok ==> Writes(old(output.sent), output.sent, 3, LocationBytes(loc), N.Update(loc, 0))
      ensures output.active == old(output.active) && (!ok ==> !output.active || output.sock.down)
    {
      LocationRoundTrip(loc);
      UpdateMeans(loc);
      hide LocationBytes, ParseLocation, LocationFits, Meaning, Pow256, Suffices, Torn, AllSendable, IdsRise, Concat;
      var buf := new byte[DAIM_PEER_HOST_LOCATION_WIRE_SIZE];
      EncodeHostLocation(buf, loc);
      assert buf[..] == LocationBytes(loc);
      var rc := output.SendFramed(MSG_HOST_LOCATION_UPDATE, buf[..], now);
      ok := rc == 0;
    }

    /** Every entry, then END; it stops at the first frame that cannot be sent. */
    method SendSnapshot(entries: seq<Location>, now: nat) returns (ok: bool)
      requires output.Valid() && now < Pow256(8) && |entries| <= MAX_HOST_ENTRIES
      requires output.nextMessageId + MAX_HOST_ENTRIES + 1 < Pow256(8)
      requires forall i :: 0 <= i < |entries| ==> LocationFits(entries[i])
      modifies output, output.sock
      ensures output.Valid()
      ensures output.nextMessageId <= old(output.nextMessageId) + MAX_HOST_ENTRIES + 1
      ensures ok ==> Sent(old(output.sent), output.sent, Entries(entries) + [N.End])
      ensures output.active == old(output.active) && (!ok ==> !output.active || output.sock.down)
    {
      ghost var before := output.sent;
      hide *;
      SentNothing(before, entries);
      ok := true;
      var i := 0;
      while i < |entries| && ok
        invariant 0 <= i <= |entries| && output.Valid()
        invariant output.nextMessageId <= old(output.nextMessageId) + i
        invariant ok ==> SentEntries(before, output.sent, entries, i)
        invariant output.active == old(output.active) && (!ok ==> !output.active || output.sock.down)
      {
        ghost var sofar := output.sent;
        ok := SendEntry(entries[i], now);
        if ok {
          SentEntry(before, sofar, output.sent, entries, i);
        }
        i := i + 1;
      }
      if ok {
        ghost var sofar := output.sent;
        ok := SendPlain(MSG_STATE_SNAPSHOT_END, now);
        if ok {
          SentEnd(before, sofar, output.sent, entries);
        }
      }
    }

    /** serve_snapshot_request: the copy made under the lock, then all of it. */
    method ServeSnapshotRequest(now: nat) returns (ok: bool, ghost listing: seq<Location>)
      requires Valid() && now < Pow256(8)
      requires output.nextMessageId + MAX_HOST_ENTRIES + 1 < Pow256(8)
      modifies output, output.sock
      ensures Valid()
      ensures N.IsListing(listing, hosts.View().table)
      ensures output.nextMessageId <= old(output.nextMessageId) + MAX_HOST_ENTRIES + 1
      ensures ok ==> Sent(old(output.sent), output.sent, Entries(listing) + [N.End])
      ensures output.active == old(output.active) && (!ok ==> !output.active || output.sock.down)
    {
      hide N.IsListing, Encodable, Pow256, Sent, Entries, LocationFits, Sender.Valid, Suffices, Torn, AllSendable, IdsRise,
        Concat;
      var entries := hosts.ExportSnapshot();
      listing := entries;
      ListsIsListing(entries, hosts.View().table);
      EveryEntryFits(entries, hosts.View().table);
      hide Recorded, Lists, TableOf, Distinct;
      ok := SendSnapshot(entries, now);
    }

    /** One received frame of the exchange: taken as a turn, dropped, or the end of it all. */
    method HandleExchangeFrame(f: Frame, now: nat, deferred: array<Location>, count: nat, ghost e: N.Endpoint,
        ghost base: seq<N.Message>, ghost before: seq<Frame>)
      returns (ok: bool, newCount: nat, ghost taken: bool, ghost turn: Turn)
      requires Valid() && now < Pow256(8) && deferred != hosts.table
      requires e.phase.Exchanging? && e.serving.None? && Wrote(base, e.out, before, output.sent)
      requires deferred.Length == N.MAX_DEFERRED_UPDATES && count <= deferred.Length && Queued(e.deferred, deferred[..count])
      requires output.nextMessageId + MAX_HOST_ENTRIES + 1 < Pow256(8)
      modifies hosts, hosts.table, output, output.sock, deferred
      ensures Valid() && hosts.table == old(hosts.table) && newCount <= deferred.Length
      ensures output.nextMessageId <= old(output.nextMessageId) + MAX_HOST_ENTRIES + 1
      ensures taken ==> Meaning(f) == Some(turn.message)
      ensures taken ==> (turn.message.Request? ==> N.IsListing(turn.listing, old(hosts.View()).table))
      ensures var (e2, h2) := if taken then Take(e, old(hosts.View()), turn, now) else (e, old(hosts.View()));
        && hosts.View() == h2
        && (ok ==> Wrote(base, e2.out, before, output.sent) && Queued(e2.deferred, deferred[..newCount]))
        && (ok ==> e2.serving.None? && if f.kind == MSG_STATE_SNAPSHOT_END then e2.phase.Replaying? else e2.phase.Exchanging?)
        && (!ok ==> e2.phase.Exchanging? || e2.phase.Closing?)
      ensures ok && !taken ==> Meaning(f).None?
      ensures output.active == old(output.active)
      ensures HandledAs(f, old(hosts.View()), old(deferred[..count]), now, ok, hosts.View(), deferred[..newCount])
      ensures !ok ==>
        || !output.active || output.sock.down
        || (taken && turn.message.Update? && |e.deferred| == N.MAX_DEFERRED_UPDATES)
    {
      ParsesExactly(f.payload);
      hide Encodable, Recorded, TableOf, Distinct, Pow256, Sent, Wrote, Queued, LocationFits, ParseLocation, Lists,
        N.IsListing, Suffices, Torn, AllSendable, IdsRise, Concat, Entries, LocationOf, Warrants, Carried, Counted;
      newCount, ok, taken, turn := count, true, Meaning(f).Some?, Turn(N.End, []);
      if f.kind == MSG_STATE_SNAPSHOT_REQUEST {
        ghost var listing, sofar := [], output.sent;
        ok, listing := ServeSnapshotRequest(now);
        taken := ok;
        turn := Turn(N.Request, listing);
        if ok {
          WroteSnapshot(base, e.out, before, sofar, output.sent, listing);
        }
      } else if f.kind == MSG_STATE_SNAPSHOT_ENTRY {
        match ParseLocation(f.payload) {
          case Some(loc) =>
            turn := Turn(N.Entry(loc), []);
            ParsedFits(f.payload);
            ApplyKeepsEncodable(hosts.View(), loc, now);
            var _ := hosts.Apply(loc, now);
          case None =>
        }
      } else if f.kind == MSG_HOST_LOCATION_UPDATE {
        match ParseLocation(f.payload) {
          case Some(loc) =>
            turn := Turn(N.Update(loc, 0), []);
            ok := count < deferred.Length;
            if ok {
              ParsedFits(f.payload);
              QueuedGrows(e.deferred, deferred[..count], loc);
              deferred[count] := loc;
              newCount := count + 1;
              assert deferred[..newCount] == old(deferred[..count]) + [loc];
            }
            QueuedLength(e.deferred, old(deferred[..count]));
          case None =>
        }
      }
    }

    /** One pass of the receive loop: a frame read from the socket and handled. */
    method TakeFrame(now: nat, deferred: array<Location>, count: nat, applied: int, ghost run: Exchange, ghost st: Stand)
      returns (ok: bool, done: bool, newCount: nat, newApplied: int, ghost st2: Stand)
      requires Valid() && now < Pow256(8) && now == run.now && deferred != hosts.table
      requires deferred.Length == N.MAX_DEFERRED_UPDATES && count <= deferred.Length
      requires Underway(run, st, false, applied, hosts.View(), input.Left(), input.signals, deferred[..count], output.sent)
      requires output.nextMessageId + 4098 * |input.Left()| < Pow256(8)
      modifies hosts, hosts.table, input, output, output.sock, deferred
      ensures Valid() && hosts.table == old(hosts.table) && newCount <= deferred.Length
      ensures output.active == old(output.active)
      ensures ok ==>
        && Underway(run, st2, done, newApplied, hosts.View(), input.Left(), input.signals, deferred[..newCount], output.sent)
        && output.nextMessageId + 4098 * |st2.left| <= old(output.nextMessageId) + 4098 * |st.left|
        && |st2.left| < |st.left|
      ensures !ok ==> Stopped(run, st2, hosts.View(), !output.active || output.sock.down)
    {
      hide Encodable, Recorded, TableOf, Distinct, Pow256, Sent, LocationFits, Wrote, Queued, ReadOne, Meaning, Take, Warrants,
        N.IsListing, ParseLocation, Torn, AllSendable, IdsRise, Concat, Suffices, Disturbed, CarriesLocation, LocationOf,
        HandledAs, Reached, Took, CountsAsEntry, Progress, Stopped, SignalsLeft;
      ghost var coming := input.signals;
      newCount, newApplied, st2, done := count, applied, st, false;
      if ReadOne(st.left).Got? {
        PayloadFits(st.left);
      }
      var rc, f := RecvFramed(input, DAIM_PEER_MAX_PAYLOAD_SIZE);
      ok := rc == 0;
      if !ok {
        StopsReading(run, st, coming, applied, !output.active || output.sock.down);
        return;
      }
      ghost var taken, turn;
      ok, newCount, taken, turn := HandleExchangeFrame(f, now, deferred, count, st.e, run.ep.out, run.before);
      if CountsAsEntry(f) {
        newApplied := applied + 1;
      }
      done := f.kind == MSG_STATE_SNAPSHOT_END;
      if taken {
        ReachedTurn(run, st, coming, applied, f, input.Left(), turn);
        st2 := Took(st, f, input.Left(), turn, now);
        TookIs(st, f, input.Left(), turn, now);
      } else if ok {
        ReachedDropped(run, st, coming, applied, f, input.Left());
        st2 := Stand(st.turns, st.e, st.h, st.frames + [f], input.Left());
      }
      if !ok {
        StopsHandling(run, st2, if taken then SignalsLeft(coming, [f]) else coming, if taken then newApplied else applied,
          !output.active || output.sock.down);
      }
    }

    /** The request, and the receive loop: frame after frame until END. */
    method ReceiveSnapshot(now: nat, deferred: array<Location>, ghost run: Exchange)
      returns (ok: bool, count: nat, applied: int, ghost st: Stand)
      requires Valid() && now < Pow256(8) && deferred != hosts.table && deferred.Length == N.MAX_DEFERRED_UPDATES
      requires run == Exchange(run.ep, hosts.View(), now, input.Left(), input.signals, output.sent)
      requires run.ep.phase.Exchanging? && run.ep.deferred == [] && run.ep.serving.None?
      requires output.nextMessageId + 4098 * (|input.Left()| + 1) < Pow256(8)
      modifies hosts, hosts.table, input, output, output.sock, deferred
      ensures Valid() && hosts.table == old(hosts.table) && count <= deferred.Length
      ensures output.active == old(output.active)
      ensures ok ==>
        Underway(run, st, true, applied, hosts.View(), input.Left(), input.signals, deferred[..count], output.sent)
      ensures !ok ==> Stopped(run, st, hosts.View(), !output.active || output.sock.down)
    {
      hide Encodable, Recorded, TableOf, Distinct, Pow256, Torn, AllSendable, IdsRise, Concat, Suffices, Underway, Stopped,
        Reached, Writes;
      var done := false;
      count, applied, st := 0, 0, Stand([], run.ep, run.h0, [], run.all);
      ReachedStart(run);
      ok := SendPlain(MSG_STATE_SNAPSHOT_REQUEST, now);
      if !ok {
        StopsHandling(run, st, input.signals, 0, !output.active || output.sock.down);
        return;
      }
      assert deferred[..count] == [];
      UnderwayStart(run, input.signals, output.sent);
      while !done
        invariant Valid() && hosts.table == old(hosts.table) && count <= deferred.Length
        invariant Underway(run, st, done, applied, hosts.View(), input.Left(), input.signals, deferred[..count], output.sent)
        invariant output.active == old(output.active)
        invariant output.nextMessageId + 4098 * |st.left| <= old(output.nextMessageId) + 1 + 4098 * |old(input.Left())|
        decreases |st.left|
      {
        UnderwayLeft(run, st, done, applied, hosts.View(), input.Left(), input.signals, deferred[..count], output.sent);
        ok, done, count, applied, st := TakeFrame(now, deferred, count, applied, run, st);
        if !ok {
          return;
        }
      }
    }

    /** exchange_snapshots, run on the bytes of the socket. The ghost result names the frames
        consumed and the turns they amount to. On success the last turn was END, the deferred
        updates have been applied after it, and `applied` counts the snapshot entries. On
        failure the table stays as the turns so far left it. */
    method ExchangeSnapshots(now: nat, ghost ep: N.Endpoint) returns (applied: int, ghost st: Stand)
      requires Valid() && now < Pow256(8)
      requires ep.phase.Exchanging? && ep.deferred == [] && ep.serving.None?
      requires output.nextMessageId + 4098 * (|input.Left()| + 1) < Pow256(8)
      modifies hosts, hosts.table, input, output, output.sock
      ensures Valid() && hosts.table == old(hosts.table)
      ensures output.active == old(output.active)
      ensures var run := Exchange(ep, old(hosts.View()), now, old(input.Left()), old(input.signals), old(output.sent));
        if applied >= 0 then Completed(run, st, applied, hosts.View(), input.Left(), output.sent)
        else Stopped(run, st, hosts.View(), !output.active || output.sock.down)
      ensures st.frames <= ReadAll(old(input.Left())) && (applied >= 0 ==> applied == EntryFrames(st.frames))
      ensures var entered := ApplyAll(old(hosts.View()), Arrivals(st.frames, 6, now));
        hosts.View() == if applied >= 0 then ApplyAll(entered, Arrivals(st.frames, 3, now)) else entered
    {
      hide Encodable, Recorded, TableOf, Distinct, Pow256, Queued, ReplayAll, Torn, AllSendable, IdsRise, Concat, Suffices,
        Underway, Stopped, ReadAll, EntryFrames, CountEntries, ApplyAll, Arrivals, Progress, Wrote;
      ghost var run := Exchange(ep, hosts.View(), now, input.Left(), input.signals, output.sent);
      var deferred := new Location[N.MAX_DEFERRED_UPDATES](_ => NO_RECORD);
      var ok, count;
      ok, count, applied, st := ReceiveSnapshot(now, deferred, run);
      if !ok {
        ExchangeMeans(run, st, -1, hosts.View(), input.Left(), output.sent, !output.active || output.sock.down);
        return -1, st;
      }
      UnderwayEnds(run, st, applied, hosts.View(), input.Left(), input.signals, deferred[..count], output.sent);
      Replay(deferred, count, now, st.e.deferred);
      ExchangeMeans(run, st, applied, hosts.View(), input.Left(), output.sent, !output.active || output.sock.down);
    }

    /** handle_message: what the ready connection does with a frame is what `HearSteady` says,
        a request again being served to the end unless a send fails. */
    method HandleMessage(f: Frame, now: nat, ghost ep: N.Endpoint) returns (ghost listing: seq<Location>, ghost served: bool)
      requires Valid() && now < Pow256(8) && ep.phase.Steady? && ep.serving.None?
      requires output.nextMessageId + MAX_HOST_ENTRIES + 1 < Pow256(8)
      modifies hosts, hosts.table, output, output.sock
      ensures Valid() && hosts.table == old(hosts.table)
      ensures f.kind != MSG_STATE_SNAPSHOT_REQUEST ==> output.sent == old(output.sent)
      ensures Meaning(f) == Some(N.Request) ==>
        && N.IsListing(listing, hosts.View().table)
        && (served ==> Sent(old(output.sent), output.sent, Entries(listing) + [N.End]))
      ensures output.active == old(output.active) && (!served ==> !output.active || output.sock.down)
      ensures hosts.View() == match Meaning(f)
        case Some(m) => N.HearSteady(ep, old(hosts.View()), m, now, listing).1
        case None => old(hosts.View())
      ensures CarriesLocation(f, 3) ==> hosts.View() == ApplyRemote(old(hosts.View()), LocationOf(f.payload), now)
      ensures !CarriesLocation(f, 3) ==> hosts.View() == old(hosts.View())
      ensures f.kind == 4 ==>
        && N.IsListing(listing, hosts.View().table)
        && (served ==> Sent(old(output.sent), output.sent, Entries(listing) + [N.End]))
    {
      ParsesExactly(f.payload);
      hide LocationOf, Warrants, Carried, Counted;
      hide Encodable, Recorded, TableOf, Distinct, Pow256, Sent, LocationFits, ParseLocation, Sender.Valid, Lists, N.IsListing,
        Suffices, Torn, AllSendable, IdsRise, Concat;
      listing, served := [], true;
      if f.kind == MSG_HOST_LOCATION_UPDATE {
        match ParseLocation(f.payload) {
          case Some(loc) =>
            ParsedFits(f.payload);
            ApplyKeepsEncodable(hosts.View(), loc, now);
            var _ := hosts.Apply(loc, now);
          case None =>
        }
      } else if f.kind == MSG_STATE_SNAPSHOT_REQUEST {
        var ok;
        ok, listing := ServeSnapshotRequest(now);
        served := ok;
      }
    }

    /** The deferred updates, oldest first, once END has been read. */
    method Replay(deferred: array<Location>, count: nat, now: nat, ghost queue: seq<N.Message>)
      requires Valid() && now < Pow256(8) && deferred != hosts.table
      requires count <= deferred.Length && Queued(queue, deferred[..count])
      modifies hosts, hosts.table
      ensures Valid() && hosts.table == old(hosts.table)
      ensures hosts.View() == ReplayAll(old(hosts.View()), queue, now)
    {
      hide Encodable, Recorded, TableOf, Distinct, Pow256, Queued, LocationFits;
      QueuedLength(queue, deferred[..count]);
      ghost var h, locs := hosts.View(), deferred[..count];
      for i := 0 to count
        invariant Valid() && hosts.table == old(hosts.table) && deferred[..count] == locs
        invariant hosts.View() == ReplayAll(h, queue[..i], now)
      {
        ReplayStep(h, queue, locs, i, now);
        assert locs[i] == deferred[i];
        ApplyKeepsEncodable(hosts.View(), deferred[i], now);
        var _ := hosts.Apply(deferred[i], now);
      }
      assert queue[..count] == queue;
    }
  }

  lemma {:induction false} EntryMeans(loc: Location)
    requires ParseLocation(LocationBytes(loc)) == Some(loc)
    ensures forall origin, id, time ::
      Meaning(Frame(MSG_STATE_SNAPSHOT_ENTRY, origin, id, time, LocationBytes(loc))) == Some(N.Entry(loc))
  {
  }

  lemma {:induction false} UpdateMeans(loc: Location)
    requires ParseLocation(LocationBytes(loc)) == Some(loc)
    ensures forall origin, id, time ::
      Meaning(Frame(MSG_HOST_LOCATION_UPDATE, origin, id, time, LocationBytes(loc))) == Some(N.Update(loc, 0))
  {
  }

  lemma {:induction false} ParsedFits(bs: seq<byte>)
    requires ParseLocation(bs).Some?
    ensures LocationFits(ParseLocation(bs).value)
  {
  }

  lemma {:induction false} ParsesExactly(bs: seq<byte>)
    ensures ParseLocation(bs) == if |bs| == 59 then Some(LocationOf(bs)) else None
  {
  }

  lemma {:induction false} QueuedLength(deferred: seq<N.Message>, locs: seq<Location>)
    requires Queued(deferred, locs)
    ensures |deferred| == |locs|
  {
  }

  /** One update more than the queue holds ends the exchange. */
  lemma {:induction false} OverflowCloses(e: N.Endpoint, h: Host, turn: Turn, now: nat)
    requires e.phase.Exchanging?
    ensures turn.message.Update? && |e.deferred| == N.MAX_DEFERRED_UPDATES ==> Take(e, h, turn, now).0.phase.Closing?
  {
  }

  lemma {:induction false} EntryFrame(f: Frame)
    ensures Meaning(f).Some? && Meaning(f).value.Entry? <==> f.kind == 6 && |f.payload| == 59
    ensures CountsAsEntry(f) <==> f.kind == 6 && |f.payload| == 59
  {
  }

  lemma {:induction false} TurnCounts(turns: seq<Turn>, turn: Turn)
    ensures CountEntries(turns + [turn]) == CountEntries(turns) + if turn.message.Entry? then 1 else 0
  {
  }

  /** The first `i` entries have been written. */
  ghost predicate SentEntries(before: seq<Frame>, after: seq<Frame>, entries: seq<Location>, i: nat) {
    i <= |entries| && Sent(before, after, Entries(entries[..i]))
  }

  lemma {:induction false} SentNothing(before: seq<Frame>, entries: seq<Location>)
    ensures SentEntries(before, before, entries, 0)
  {
    assert Entries(entries[..0]) == [];
  }

  lemma {:induction false} SentOneMore(before: seq<Frame>, sofar: seq<Frame>, after: seq<Frame>, ms: seq<N.Message>, kind: byte,
      payload: seq<byte>, m: N.Message)
    requires Sent(before, sofar, ms) && Writes(sofar, after, kind, payload, m)
    ensures Sent(before, after, ms + [m])
  {
  }

  lemma {:induction false} SentEntry(before: seq<Frame>, sofar: seq<Frame>, after: seq<Frame>, entries: seq<Location>, i: nat)
    requires i < |entries| && SentEntries(before, sofar, entries, i)
    requires Writes(sofar, after, 6, LocationBytes(entries[i]), N.Entry(entries[i]))
    ensures SentEntries(before, after, entries, i + 1)
  {
    SentOneMore(before, sofar, after, Entries(entries[..i]), 6, LocationBytes(entries[i]), N.Entry(entries[i]));
    assert Entries(entries[..i + 1]) == Entries(entries[..i]) + [N.Entry(entries[i])];
  }

  lemma {:induction false} SentEnd(before: seq<Frame>, sofar: seq<Frame>, after: seq<Frame>, entries: seq<Location>)
    requires SentEntries(before, sofar, entries, |entries|) && Writes(sofar, after, 7, [], N.End)
    ensures Sent(before, after, Entries(entries) + [N.End])
  {
    assert entries[..|entries|] == entries;
    SentOneMore(before, sofar, after, Entries(entries), 7, [], N.End);
  }

  lemma {:induction false} EveryEntryFits(entries: seq<Location>, t: map<Mac, Location>)
    requires Lists(entries, t) && Encodable(t) && |t| <= MAX_HOST_ENTRIES
    ensures |entries| <= MAX_HOST_ENTRIES && forall i :: 0 <= i < |entries| ==> LocationFits(entries[i])
  {
  }

  // ---------- Turns are runs of the step relation ----------

  /** Serving a copy to the end: one step per entry, and one for END. */
  lemma {:induction false} ServingIsARun(s: N.State, e: N.EndId, listing: seq<Location>) returns (steps: seq<N.Step>)
    requires e in s.ends && s.ends[e].node in s.nodes
    requires s.ends[e].phase.Exchanging? && !s.ends[e].broken && s.ends[e].serving == Some(listing)
    ensures var ep := s.ends[e];
      N.Run(s, steps, N.Touch(s, e, ep.(serving := None, out := ep.out + Entries(listing) + [N.End]), s.nodes[ep.node]))
    ensures |steps| == |listing| + 1
    decreases |listing|
  {
    var ep, nd := s.ends[e], s.nodes[s.ends[e].node];
    if listing == [] {
      steps := [N.SendEnd(e)];
      assert ep.out + Entries(listing) + [N.End] == ep.out + [N.End];
      var t := N.Do(s, N.SendEnd(e));
      assert steps[1..] == [] && N.Run(t, [], t);
    } else {
      var ep2 := ep.(out := ep.out + [N.Entry(listing[0])], serving := Some(listing[1..]));
      var s2 := N.Do(s, N.SendEntry(e));
      assert s2 == N.Touch(s, e, ep2, nd);
      var rest := ServingIsARun(s2, e, listing[1..]);
      steps := [N.SendEntry(e)] + rest;
      assert steps[1..] == rest;
      assert Entries(listing) == [N.Entry(listing[0])] + Entries(listing[1..]);
      assert ep2.out + Entries(listing[1..]) + [N.End] == ep.out + Entries(listing) + [N.End];
      var last := ep.(serving := None, out := ep.out + Entries(listing) + [N.End]);
      assert N.Touch(s2, e, last, nd) == N.Touch(s, e, last, nd) by {
        assert s2.ends[e := last] == s.ends[e := last];
        assert s2.nodes[ep.node := nd] == s.nodes[ep.node := nd];
      }
    }
  }

  /** One turn of the loop of exchange_snapshots is a run of the step relation that touches
      nothing but this endpoint and its own node's table. */
  lemma {:induction false} TurnIsARun(s: N.State, e: N.EndId, turn: Turn, now: nat) returns (steps: seq<N.Step>)
    requires e in s.ends && s.ends[e].node in s.nodes
    requires s.ends[e].phase.Exchanging? && !s.ends[e].broken && s.ends[e].serving.None?
    requires N.HasMail(s, e) && N.NextMail(s, e) == turn.message
    requires turn.message.Request? ==> N.IsListing(turn.listing, s.nodes[s.ends[e].node].host.table)
    ensures var nd := s.nodes[s.ends[e].node];
      var (ep2, h2) := Take(s.ends[e], nd.host, turn, now);
      N.Run(s, steps, N.Touch(s, e, ep2, nd.(host := h2)))
  {
    hide N.IsListing;
    var nd := s.nodes[s.ends[e].node];
    var step := N.Receive(e, now, turn.listing);
    var (ep1, h1) := N.HearExchanging(s.ends[e], nd.host, turn.message, now, turn.listing);
    var s1 := N.Do(s, step);
    assert s1 == N.Touch(s, e, ep1, nd.(host := h1));
    if turn.message.Request? {
      var rest := ServingIsARun(s1, e, turn.listing);
      steps := [step] + rest;
      assert steps[1..] == rest;
      var (ep2, h2) := Take(s.ends[e], nd.host, turn, now);
      assert s1.ends[e := ep2] == s.ends[e := ep2];
      assert s1.nodes[ep1.node := s1.nodes[ep1.node]] == s.nodes[ep1.node := nd.(host := h1)];
    } else {
      steps := [step];
      assert steps[1..] == [] && N.Run(s1, [], s1);
    }
  }

  // ---------- So is the replay ----------

  lemma {:induction false} ReplayFirst(h: Host, deferred: seq<N.Message>, now: nat)
    requires deferred != [] && deferred[0].Update?
    ensures ReplayAll(h, deferred, now) == ReplayAll(ApplyRemote(h, deferred[0].loc, now), deferred[1..], now)
    decreases |deferred|
  {
    hide ApplyRemote;
    var init, last := deferred[..|deferred| - 1], deferred[|deferred| - 1];
    if |deferred| == 1 {
      assert init == [] && deferred[1..] == [];
    } else {
      ReplayFirst(h, init, now);
      assert deferred[1..][..|deferred| - 2] == init[1..] && deferred[1..][|deferred| - 2] == last;
    }
  }

  /** Replaying the queue, oldest first, is the run of replay steps that empties it. */
  lemma {:induction false} ReplayIsARun(s: N.State, e: N.EndId, now: nat) returns (steps: seq<N.Step>)
    requires e in s.ends && s.ends[e].node in s.nodes && s.ends[e].phase.Replaying?
    requires forall i :: 0 <= i < |s.ends[e].deferred| ==> s.ends[e].deferred[i].Update?
    ensures var ep, nd := s.ends[e], s.nodes[s.ends[e].node];
      N.Run(s, steps, N.Touch(s, e, ep.(deferred := []), nd.(host := ReplayAll(nd.host, ep.deferred, now))))
    ensures |steps| == |s.ends[e].deferred| && forall i :: 0 <= i < |steps| ==> steps[i] == N.Replay(e, now)
    decreases |s.ends[e].deferred|
  {
    hide ApplyRemote;
    var ep, nd := s.ends[e], s.nodes[s.ends[e].node];
    if ep.deferred == [] {
      steps := [];
      assert s.ends[e := ep] == s.ends && s.nodes[ep.node := nd] == s.nodes;
    } else {
      ReplayFirst(nd.host, ep.deferred, now);
      var ep2, nd2 := ep.(deferred := ep.deferred[1..]), nd.(host := ApplyRemote(nd.host, ep.deferred[0].loc, now));
      var s2 := N.Do(s, N.Replay(e, now));
      assert s2 == N.Touch(s, e, ep2, nd2);
      hide ReplayAll;
      var rest := ReplayIsARun(s2, e, now);
      steps := [N.Replay(e, now)] + rest;
      assert steps[1..] == rest;
      var last, lastNode := ep.(deferred := []), nd.(host := ReplayAll(nd.host, ep.deferred, now));
      assert s2.ends[e := last] == s.ends[e := last] && s2.nodes[ep.node := lastNode] == s.nodes[ep.node := lastNode];
    }
  }
}
