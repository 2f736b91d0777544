/** N nodes running the peer transport, as a step relation.

    One step is one lock-protected region (or one blocking send or receive) of one thread.
    A TCP connection is a pair of endpoints; `out` is everything an endpoint has written to
    its socket and `heard` everything it has read, so the bytes in flight towards an endpoint
    are what its peer's `out` holds beyond its own `heard`. `copy`, `via`, `minted` and
    `collected` are history: no step's effect depends on them.
 */
module Network {
  import opened Basics
  import opened HostState

  const MAX_CONNECTIONS: nat := 32
  const MAX_DEFERRED_UPDATES: nat := 16

  type NodeId = nat
  type EndId = nat

  /** `via` names the endpoint that owned the slot when the sending `disseminate` call collected it. */
  datatype Message =
    | Hello(epoch: nat)
    | Request
    | Entry(loc: Location)
    | End
    | Update(loc: Location, via: EndId)
  {
    predicate Carries() { Entry? || Update? }
  }

  /** Where a connection thread is in run_connection. */
  datatype Phase =
    | Fresh        // socket open, no slot yet
    | Greeting     // slot acquired, HELLO not written
    | AwaitHello
    | Requesting   // peer's HELLO read, REQUEST not written
    | Exchanging   // the receive loop of exchange_snapshots
    | Replaying    // END read, deferred updates being applied
    | Steady       // ready
    | Closing      // decided to disconnect
    | Closed
  {
    predicate Slotted() { !Fresh? && !Closed? }
    predicate Listening() { Exchanging? || Replaying? || Steady? }
  }

  /** A snapshot export: the records copied under the lock, with the epoch and the next
      local sequence number at that moment. */
  datatype Copy = Copy(entries: seq<Location>, epoch: nat, before: nat)

  datatype Endpoint = Endpoint(
    node: NodeId, peer: EndId, slot: nat, phase: Phase, broken: bool,
    out: seq<Message>, heard: seq<Message>,
    deferred: seq<Message>, serving: Option<seq<Location>>, copy: Option<Copy>)

  datatype Slot = Slot(end: EndId, active: bool, ready: bool)

  datatype Target = Target(slot: nat, end: EndId)

  /** Progress of the one NO_RULE event a node handles at a time. */
  datatype App =
    | Idle
    | Learned(mac: Mac, sequence: nat)
    | Found(loc: Location)
    | Sending(loc: Location, targets: seq<Target>)

  datatype Node = Node(host: Host, slots: seq<Slot>, app: App)

  datatype State = State(
    nodes: map<NodeId, Node>, ends: map<EndId, Endpoint>,
    minted: set<Claim>, collected: set<(EndId, Claim)>)

  function FreshNode(id: NodeId, epoch: nat): Node {
    Node(Init(id, epoch), seq(MAX_CONNECTIONS, i => Slot(0, false, false)), Idle)
  }

  ghost predicate Starting(s: State) {
    && s.ends == map[] && s.minted == {} && s.collected == {}
    && forall n :: n in s.nodes ==> n != 0 && s.nodes[n] == FreshNode(n, s.nodes[n].host.epoch)
  }

  datatype Step =
    | Connect(dialer: NodeId, acceptor: NodeId, near: EndId, far: EndId)
    | Acquire(e: EndId)
    | SendHello(e: EndId)
    | ReceiveHello(e: EndId)
    | SendRequest(e: EndId)
    | Receive(e: EndId, now: nat, listing: seq<Location>)
    | SendEntry(e: EndId)
    | SendEnd(e: EndId)
    | DropServing(e: EndId)
    | Replay(e: EndId, now: nat)
    | MarkReady(e: EndId)
    | Abort(e: EndId)
    | Teardown(e: EndId)
    | Break(e: EndId)
    | Learn(n: NodeId, mac: Mac, dpid: nat, port: nat, now: nat)
    | LookupLearned(n: NodeId)
    | Collect(n: NodeId)
    | Deliver(n: NodeId)
    | Restart(n: NodeId, epoch: nat)

  /** The first inactive slot at or after `i`, or the number of slots. */
  function FreeSlot(slots: seq<Slot>, i: nat): (k: nat)
    requires i <= |slots|
    ensures i <= k <= |slots|
    ensures k < |slots| ==> !slots[k].active
    ensures forall j :: i <= j < k ==> slots[j].active
    decreases |slots| - i
  {
    if i == |slots| || !slots[i].active then i else FreeSlot(slots, i + 1)
  }

  /** The slots a disseminate call collects, in slot order. */
  function ReadySlots(slots: seq<Slot>, i: nat): (ts: seq<Target>)
    requires i <= |slots|
    ensures forall t :: t in ts <==> i <= t.slot < |slots| && slots[t.slot].active && slots[t.slot].ready && t.end == slots[t.slot].end
    decreases |slots| - i
  {
    if i == |slots| then []
    else (if slots[i].active && slots[i].ready then [Target(i, slots[i].end)] else []) + ReadySlots(slots, i + 1)
  }

  /** No slot is collected twice. */
  lemma {:induction false} TargetsRise(slots: seq<Slot>, i: nat)
    requires i <= |slots|
    ensures var ts := ReadySlots(slots, i); forall a, b :: 0 <= a < b < |ts| ==> ts[a].slot < ts[b].slot
    decreases |slots| - i
  {
    if i < |slots| {
      TargetsRise(slots, i + 1);
      var ts := ReadySlots(slots, i);
      forall a, b | 0 <= a < b < |ts| ensures ts[a].slot < ts[b].slot {
        assert ts[b] in ReadySlots(slots, i + 1) || b == 0;
      }
    }
  }

  /** `entries` is the table written out in some order, once each. */
  ghost predicate IsListing(entries: seq<Location>, table: map<Mac, Location>) {
    && (forall i :: 0 <= i < |entries| ==> entries[i].mac in table && table[entries[i].mac] == entries[i])
    && (forall m :: m in table ==> table[m] in entries)
    && (forall i, j :: 0 <= i < j < |entries| ==> entries[i].mac != entries[j].mac)
  }

  // ---------- What one received message does ----------

  predicate HasMail(s: State, e: EndId)
    requires e in s.ends
  {
    var ep := s.ends[e];
    ep.peer in s.ends && |ep.heard| < |s.ends[ep.peer].out|
  }

  function NextMail(s: State, e: EndId): Message
    requires e in s.ends && HasMail(s, e)
  {
    s.ends[s.ends[e].peer].out[|s.ends[e].heard|]
  }

  function Serve(ep: Endpoint, h: Host, listing: seq<Location>): Endpoint {
    ep.(serving := Some(listing), copy := Some(Copy(listing, h.epoch, h.nextSequence)))
  }

  /** One turn of the loop in exchange_snapshots. */
  function HearExchanging(ep: Endpoint, h: Host, m: Message, now: nat, listing: seq<Location>): (Endpoint, Host) {
    var ep' := ep.(heard := ep.heard + [m]);
    match m
    case Request => (Serve(ep', h, listing), h)
    case Entry(loc) => (ep', ApplyRemote(h, loc, now))
    case End => (ep'.(phase := Replaying), h)
    case Update(_, _) =>
      if |ep.deferred| < MAX_DEFERRED_UPDATES then (ep'.(deferred := ep.deferred + [m]), h)
      else (ep'.(phase := Closing), h)
    case Hello(_) => (ep', h)
  }

  /** handle_message. */
  function HearSteady(ep: Endpoint, h: Host, m: Message, now: nat, listing: seq<Location>): (Endpoint, Host) {
    var ep' := ep.(heard := ep.heard + [m]);
    match m
    case Update(loc, _) => (ep', ApplyRemote(h, loc, now))
    case Request => (Serve(ep', h, listing), h)
    case _ => (ep', h)
  }

  function Hear(ep: Endpoint, h: Host, m: Message, now: nat, listing: seq<Location>): (Endpoint, Host) {
    if ep.phase.Exchanging? then HearExchanging(ep, h, m, now, listing) else HearSteady(ep, h, m, now, listing)
  }

  // ---------- The steps ----------

  ghost predicate EndEnabled(s: State, e: EndId, step: Step) {
    e in s.ends && s.ends[e].node in s.nodes &&
    var ep := s.ends[e];
    var nd := s.nodes[ep.node];
    match step
    case Acquire(_) => ep.phase.Fresh? && |nd.slots| == MAX_CONNECTIONS
    case SendHello(_) => ep.phase.Greeting? && !ep.broken
    case ReceiveHello(_) => ep.phase.AwaitHello? && HasMail(s, e)
    case SendRequest(_) => ep.phase.Requesting? && !ep.broken
    case Receive(_, _, listing) =>
      && (ep.phase.Exchanging? || ep.phase.Steady?) && ep.serving.None? && HasMail(s, e)
      && (NextMail(s, e).Request? ==> IsListing(listing, nd.host.table))
    case SendEntry(_) =>
      (ep.phase.Exchanging? || ep.phase.Steady?) && !ep.broken && ep.serving.Some? && ep.serving.value != []
    case SendEnd(_) =>
      (ep.phase.Exchanging? || ep.phase.Steady?) && !ep.broken && ep.serving == Some([])
    case DropServing(_) => ep.phase.Steady? && ep.broken && ep.serving.Some?
    case Replay(_, _) => ep.phase.Replaying? && ep.deferred != [] && ep.deferred[0].Update?
    case MarkReady(_) => ep.phase.Replaying? && ep.deferred == [] && ep.slot < |nd.slots|
    case Abort(_) => ep.phase.Slotted() && !ep.phase.Closing?
    case Teardown(_) => ep.phase.Closing? && ep.slot < |nd.slots|
    case _ => false
  }

  /** The endpoint and its node after an endpoint step. */
  function EndAfter(s: State, e: EndId, step: Step): (Endpoint, Node)
    requires EndEnabled(s, e, step)
  {
    var ep := s.ends[e];
    var nd := s.nodes[ep.node];
    match step
    case Acquire(_) =>
      var k := FreeSlot(nd.slots, 0);
      if k == |nd.slots| then (ep.(phase := Closed), nd)
      else (ep.(phase := Greeting, slot := k), nd.(slots := nd.slots[k := Slot(e, true, false)]))
    case SendHello(_) => (ep.(phase := AwaitHello, out := ep.out + [Hello(nd.host.epoch)]), nd)
    case ReceiveHello(_) =>
      var m := NextMail(s, e);
      (ep.(phase := if m.Hello? then Requesting else Closing, heard := ep.heard + [m]), nd)
    case SendRequest(_) => (ep.(phase := Exchanging, out := ep.out + [Request]), nd)
    case Receive(_, now, listing) =>
      var (ep', h') := Hear(ep, nd.host, NextMail(s, e), now, listing);
      (ep', nd.(host := h'))
    case SendEntry(_) =>
      (ep.(out := ep.out + [Entry(ep.serving.value[0])], serving := Some(ep.serving.value[1..])), nd)
    case SendEnd(_) => (ep.(out := ep.out + [End], serving := None), nd)
    case DropServing(_) => (ep.(serving := None), nd)
    case Replay(_, now) =>
      (ep.(deferred := ep.deferred[1..]), nd.(host := ApplyRemote(nd.host, ep.deferred[0].loc, now)))
    case MarkReady(_) =>
      (ep.(phase := Steady), nd.(slots := nd.slots[ep.slot := nd.slots[ep.slot].(ready := true)]))
    case Abort(_) => (ep.(phase := Closing), nd)
    case Teardown(_) =>
      (ep.(phase := Closed), nd.(slots := nd.slots[ep.slot := nd.slots[ep.slot].(active := false, ready := false)]))
  }

  ghost predicate NodeEnabled(s: State, n: NodeId, step: Step) {
    n in s.nodes &&
    var nd := s.nodes[n];
    match step
    case Learn(_, _, _, _, _) => nd.app.Idle?
    case LookupLearned(_) => nd.app.Learned?
    case Collect(_) => nd.app.Found?
    case Deliver(_) =>
      && nd.app.Sending? && nd.app.targets != [] && nd.app.targets[0].slot < |nd.slots|
      && (nd.slots[nd.app.targets[0].slot].active ==> nd.slots[nd.app.targets[0].slot].end in s.ends)
    case _ => false
  }

  function AfterTargets(loc: Location, ts: seq<Target>): App {
    if ts == [] then Idle else Sending(loc, ts)
  }

  function NodeAfter(s: State, n: NodeId, step: Step): State
    requires NodeEnabled(s, n, step)
  {
    var nd := s.nodes[n];
    match step
    case Learn(_, mac, dpid, port, now) =>
      var h' := LearnLocal(nd.host, mac, dpid, port, now);
      var q := LearnResult(nd.host, mac);
      s.(nodes := s.nodes[n := nd.(host := h', app := if q == 0 then Idle else Learned(mac, q))],
         minted := if q == 0 then s.minted else s.minted + {LocalRecord(nd.host, mac, dpid, port, now).ToClaim()})
    case LookupLearned(_) =>
      s.(nodes := s.nodes[n := nd.(app :=
        match Lookup(nd.host, nd.app.mac) case Some(loc) => Found(loc) case None => Idle)])
    case Collect(_) =>
      var ts := ReadySlots(nd.slots, 0);
      s.(nodes := s.nodes[n := nd.(app := AfterTargets(nd.app.loc, ts))],
         collected := s.collected + set t | t in ts :: (t.end, nd.app.loc.ToClaim()))
    case Deliver(_) =>
      var t := nd.app.targets[0];
      var slot := nd.slots[t.slot];
      var s' := s.(nodes := s.nodes[n := nd.(app := AfterTargets(nd.app.loc, nd.app.targets[1..]))]);
      if slot.active && !s.ends[slot.end].broken then
        var ep := s.ends[slot.end];
        s'.(ends := s.ends[slot.end := ep.(out := ep.out + [Update(nd.app.loc, t.end)])])
      else s'
  }

  ghost predicate Enabled(s: State, step: Step) {
    match step
    case Connect(a, b, e, f) => a in s.nodes && b in s.nodes && a != b && e !in s.ends && f !in s.ends && e != f
    case Break(e) => e in s.ends && s.ends[e].peer in s.ends
    case Restart(n, epoch) => n in s.nodes && epoch > s.nodes[n].host.epoch
    case Learn(n, _, _, _, _) => NodeEnabled(s, n, step)
    case LookupLearned(n) => NodeEnabled(s, n, step)
    case Collect(n) => NodeEnabled(s, n, step)
    case Deliver(n) => NodeEnabled(s, n, step)
    case _ => EndEnabled(s, step.e, step)
  }

  function Open(n: NodeId, peer: EndId): Endpoint {
    Endpoint(n, peer, 0, Fresh, false, [], [], [], None, None)
  }

  /** What killing the process of node `n` does to an endpoint. */
  function Killed(ends: map<EndId, Endpoint>, n: NodeId, e: EndId): Endpoint
    requires e in ends
  {
    var ep := ends[e];
    if ep.node == n then ep.(phase := Closed, broken := true)
    else if ep.peer in ends && ends[ep.peer].node == n then ep.(broken := true)
    else ep
  }

  function Touch(s: State, e: EndId, ep: Endpoint, nd: Node): State {
    s.(ends := s.ends[e := ep], nodes := s.nodes[ep.node := nd])
  }

  function Do(s: State, step: Step): State
    requires Enabled(s, step)
  {
    match step
    case Connect(a, b, e, f) => s.(ends := s.ends[e := Open(a, f)][f := Open(b, e)])
    case Break(e) =>
      var f := s.ends[e].peer;
      s.(ends := s.ends[e := s.ends[e].(broken := true)][f := s.ends[f].(broken := true)])
    case Restart(n, epoch) =>
      s.(nodes := s.nodes[n := FreshNode(n, epoch)],
         ends := map e | e in s.ends :: Killed(s.ends, n, e))
    case Learn(n, _, _, _, _) => NodeAfter(s, n, step)
    case LookupLearned(n) => NodeAfter(s, n, step)
    case Collect(n) => NodeAfter(s, n, step)
    case Deliver(n) => NodeAfter(s, n, step)
    case _ =>
      var (ep, nd) := EndAfter(s, step.e, step);
      Touch(s, step.e, ep, nd)
  }

  // ---------- Runs ----------

  /** `steps` leads from `s` to `t`. */
  ghost predicate Run(s: State, steps: seq<Step>, t: State)
    decreases |steps|
  {
    if steps == [] then s == t
    else Enabled(s, steps[0]) && Run(Do(s, steps[0]), steps[1..], t)
  }

  ghost predicate Reachable(t: State) {
    exists s, steps :: Starting(s) && Run(s, steps, t)
  }
}
