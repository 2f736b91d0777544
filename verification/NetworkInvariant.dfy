/** The inductive invariant of the network, and the proof that every step keeps it. */
module NetworkInvariant {
  import opened Basics
  import opened HostState
  import opened Network

  // ---------- The order of messages on one connection ----------

  /** How far a sender's greeting and snapshot have come, judged from the log of what it wrote. */
  datatype Stage = Silent | Greeted | Asked | Ended | Garbled

  function Advance(sender: EndId, st: Stage, m: Message): Stage {
    match m
    case Hello(_) => if st.Silent? then Greeted else Garbled
    case Request => if st.Greeted? then Asked else Garbled
    case Entry(_) => if st.Asked? then Asked else Garbled
    case End => if st.Asked? then Ended else Garbled
    case Update(_, via) => if via != sender || st.Ended? then st else Garbled
  }

  function StageOf(sender: EndId, log: seq<Message>): Stage
    decreases |log|
  {
    if log == [] then Silent else Advance(sender, StageOf(sender, log[..|log| - 1]), log[|log| - 1])
  }

  lemma {:induction false} StageSnoc(sender: EndId, log: seq<Message>, m: Message)
    ensures StageOf(sender, log + [m]) == Advance(sender, StageOf(sender, log), m)
  {
  }

  lemma {:induction false} StagePrefix(sender: EndId, a: seq<Message>, b: seq<Message>)
    requires a <= b && !StageOf(sender, b).Garbled?
    ensures !StageOf(sender, a).Garbled?
    decreases |b|
  {
    if a != b {
      assert a <= b[..|b| - 1];
      StagePrefix(sender, a, b[..|b| - 1]);
    }
  }

  // ---------- One endpoint by itself ----------

  predicate Untouched(ep: Endpoint) {
    ep.copy.None? && ep.serving.None? && ep.deferred == []
  }

  ghost predicate WireOk(e: EndId, ep: Endpoint) {
    && !StageOf(e, ep.out).Garbled?
    && (StageOf(e, ep.out).Ended? ==> ep.copy.Some? && ep.serving.None?)
    && match ep.phase
       case Fresh => ep.out == [] && Untouched(ep) && ep.heard == []
       case Greeting => StageOf(e, ep.out).Silent? && Untouched(ep) && ep.heard == []
       case AwaitHello => StageOf(e, ep.out).Greeted? && Untouched(ep) && ep.heard == []
       case Requesting =>
         && StageOf(e, ep.out).Greeted? && Untouched(ep)
         && StageOf(ep.peer, ep.heard).Greeted? && forall m :: m in ep.heard ==> m.Hello?
       case Exchanging =>
         && StageOf(ep.peer, ep.heard) == (if ep.copy.None? then Greeted else Asked)
         && StageOf(e, ep.out) == (if ep.copy.None? || ep.serving.Some? then Asked else Ended)
       case Replaying =>
         StageOf(ep.peer, ep.heard).Ended? && StageOf(e, ep.out).Ended? && ep.serving.None? && ep.copy.Some?
       case Steady =>
         StageOf(ep.peer, ep.heard).Ended? && StageOf(e, ep.out).Ended? && ep.serving.None? && ep.copy.Some?
       case _ => true
  }

  /** Every copied record is on the wire or still to be written, and nothing else is. */
  ghost predicate CopyWritten(out: seq<Message>, copy: Option<Copy>, serving: Option<seq<Location>>) {
    match copy
    case None => serving.None? && forall m :: m in out ==> !m.Entry?
    case Some(c) =>
      && (forall r :: r in c.entries ==> Entry(r) in out || (serving.Some? && r in serving.value))
      && (forall m :: m in out && m.Entry? ==> m.loc in c.entries)
      && (serving.Some? ==> forall r :: r in serving.value ==> r in c.entries)
  }

  /** Only updates collected for another endpoint are ever deferred. */
  ghost predicate DeferredOk(peer: EndId, heard: seq<Message>, deferred: seq<Message>) {
    && |deferred| <= MAX_DEFERRED_UPDATES
    && forall m :: m in deferred ==> m.Update? && m.via != peer && m in heard
  }

  /** Once listening, an endpoint's node has settled everything read and not deferred. */
  ghost predicate Absorbed(h: Host, phase: Phase, heard: seq<Message>, deferred: seq<Message>) {
    phase.Listening() ==>
      && (phase.Steady? ==> deferred == [])
      && forall m :: m in heard && m.Carries() ==> Settled(h, m.loc) || m in deferred
  }

  ghost predicate OutClaims(out: seq<Message>, pool: set<Claim>) {
    forall m :: m in out && m.Carries() ==> m.loc.ToClaim() in pool
  }

  ghost predicate CopyClaims(copy: Option<Copy>, pool: set<Claim>) {
    copy.Some? ==> forall r :: r in copy.value.entries ==> r.ToClaim() in pool
  }

  ghost predicate OutExplained(out: seq<Message>, collected: set<(EndId, Claim)>) {
    forall m :: m in out && m.Update? ==> (m.via, m.loc.ToClaim()) in collected
  }

  /** The copy has an equal or newer record for everything its node had learned by then, and
      no record of its own learned later. */
  ghost predicate CopyOk(h: Host, copy: Option<Copy>, minted: set<Claim>) {
    copy.Some? ==>
      var c := copy.value;
      && (c.epoch < h.epoch || (c.epoch == h.epoch && c.before <= h.nextSequence))
      && (forall r :: r in c.entries && r.origin == h.id ==> r.epoch == c.epoch && r.sequence < c.before)
      && forall d :: d in minted && d.origin == h.id && d.epoch == c.epoch && d.sequence < c.before ==>
           CopyHas(c.entries, d)
  }

  ghost predicate CopyHas(entries: seq<Location>, d: Claim) {
    exists r :: r in entries && r.mac == d.mac && r.origin == d.origin && VersionOf(d).AtMost(VersionAt(r))
  }

  // ---------- Endpoints, slots and nodes together ----------

  ghost predicate LinkOk(s: State, e: EndId)
    requires e in s.ends
  {
    var ep := s.ends[e];
    && ep.peer in s.ends && s.ends[ep.peer].peer == e
    && ep.node in s.nodes && s.ends[ep.peer].node != ep.node
    && ep.heard <= s.ends[ep.peer].out
  }

  ghost predicate SlotOk(s: State, n: NodeId, k: nat)
    requires n in s.nodes && k < |s.nodes[n].slots|
  {
    var slot := s.nodes[n].slots[k];
    && (slot.active ==>
          && slot.end in s.ends && s.ends[slot.end].node == n && s.ends[slot.end].slot == k
          && s.ends[slot.end].phase.Slotted())
    && (slot.ready ==>
          && slot.active && (s.ends[slot.end].phase.Steady? || s.ends[slot.end].phase.Closing?)
          && StageOf(slot.end, s.ends[slot.end].out).Ended?)
  }

  ghost predicate SeatOk(s: State, e: EndId)
    requires e in s.ends && s.ends[e].node in s.nodes
  {
    var ep := s.ends[e];
    var slots := s.nodes[ep.node].slots;
    ep.phase.Slotted() ==> ep.slot < |slots| && slots[ep.slot].active && slots[ep.slot].end == e
  }

  /** Everything about endpoint `e` that does not mention other endpoints or slots. */
  ghost predicate LogsOk(s: State, e: EndId, ep: Endpoint, h: Host) {
    && WireOk(e, ep)
    && CopyWritten(ep.out, ep.copy, ep.serving)
    && DeferredOk(ep.peer, ep.heard, ep.deferred)
    && Absorbed(h, ep.phase, ep.heard, ep.deferred)
    && OutClaims(ep.out, s.minted) && CopyClaims(ep.copy, s.minted)
    && OutExplained(ep.out, s.collected)
    && CopyOk(h, ep.copy, s.minted)
  }

  /** `via` is an earlier owner of this slot of this node, closed since. */
  ghost predicate EarlierOwner(ends: map<EndId, Endpoint>, node: NodeId, slot: nat, via: EndId) {
    via in ends && ends[via].node == node && ends[via].slot == slot && ends[via].phase.Closed?
  }

  /** An update collected for another endpoint was collected for an earlier owner of the slot. */
  ghost predicate StraysOk(ends: map<EndId, Endpoint>, e: EndId, ep: Endpoint) {
    forall m :: m in ep.out && m.Update? && m.via != e ==> EarlierOwner(ends, ep.node, ep.slot, m.via)
  }

  ghost predicate EndOk(s: State, e: EndId)
    requires e in s.ends
  {
    && LinkOk(s, e) && SeatOk(s, e) && StraysOk(s.ends, e, s.ends[e])
    && s.nodes[s.ends[e].node].host.id == s.ends[e].node
    && LogsOk(s, e, s.ends[e], s.nodes[s.ends[e].node].host)
  }

  ghost predicate TargetOk(s: State, n: NodeId, c: Claim, t: Target) {
    && t.slot < MAX_CONNECTIONS
    && t.end in s.ends && s.ends[t.end].node == n && s.ends[t.end].slot == t.slot
    && StageOf(t.end, s.ends[t.end].out).Ended?
    && (t.end, c) in s.collected
  }

  /** While a NO_RULE event is handled, the record it minted stays this node's record. */
  ghost predicate AppOk(s: State, n: NodeId)
    requires n in s.nodes
  {
    var h := s.nodes[n].host;
    match s.nodes[n].app
    case Idle => true
    case Learned(mac, q) => mac in h.table && h.table[mac].origin == n && h.table[mac].sequence == q
    case Found(loc) => loc.mac in h.table && h.table[loc.mac] == loc && loc.origin == n
    case Sending(loc, ts) =>
      && loc.mac in h.table && h.table[loc.mac] == loc && loc.origin == n
      && forall t :: t in ts ==> TargetOk(s, n, loc.ToClaim(), t)
  }

  /** A foreign record arrived over some connection to this node. */
  ghost predicate ArrivedAt(s: State, n: NodeId, c: Claim) {
    exists e, m :: e in s.ends && s.ends[e].peer in s.ends && s.ends[s.ends[e].peer].node == n
      && m in s.ends[e].out && m.Carries() && m.loc.ToClaim() == c
  }

  ghost predicate RecordsOk(s: State, n: NodeId)
    requires n in s.nodes
  {
    var h := s.nodes[n].host;
    && h.id == n && Ok(h)
    && forall m :: m in h.table ==>
         && h.table[m].ToClaim() in s.minted
         && (h.table[m].origin != n ==> ArrivedAt(s, n, h.table[m].ToClaim()))
  }

  ghost predicate NodeOk(s: State, n: NodeId)
    requires n in s.nodes
  {
    && n != 0 && RecordsOk(s, n) && AppOk(s, n)
    && |s.nodes[n].slots| == MAX_CONNECTIONS
    && (forall k: nat {:trigger SlotOk(s, n, k)} :: k < |s.nodes[n].slots| ==> SlotOk(s, n, k))
  }

  /** The owner's own record is at least as new as anything it minted in this epoch. */
  ghost predicate MintOk(h: Host, c: Claim) {
    || c.epoch < h.epoch
    || (&& c.epoch == h.epoch && c.sequence < h.nextSequence
        && c.mac in h.table && h.table[c.mac].origin == h.id
        && VersionOf(c).AtMost(VersionAt(h.table[c.mac])))
  }

  ghost predicate Minted(s: State) {
    && (forall c :: c in s.minted ==> c.origin in s.nodes && MintOk(s.nodes[c.origin].host, c))
    && (forall c, d :: c in s.minted && d in s.minted && c.origin == d.origin && VersionOf(c) == VersionOf(d) ==> c == d)
  }

  ghost predicate Wrote(ep: Endpoint, c: Claim) {
    exists m :: m in ep.out && m.Update? && m.loc.ToClaim() == c
  }

  ghost predicate Pending(nd: Node, e: EndId, c: Claim) {
    nd.app.Sending? && nd.app.loc.ToClaim() == c && exists t :: t in nd.app.targets && t.end == e
  }

  /** A collected update is written, about to be, or its connection is gone. */
  ghost predicate CollectedOk(s: State, e: EndId, c: Claim) {
    && e in s.ends && s.ends[e].node in s.nodes
    && (Wrote(s.ends[e], c) || Pending(s.nodes[s.ends[e].node], e, c) || s.ends[e].broken || s.ends[e].phase.Closed?)
  }

  ghost predicate Inv(s: State) {
    && (forall e {:trigger EndOk(s, e)} :: e in s.ends ==> EndOk(s, e))
    && (forall n {:trigger NodeOk(s, n)} :: n in s.nodes ==> NodeOk(s, n))
    && Minted(s)
    && (forall e, c {:trigger CollectedOk(s, e, c)} :: (e, c) in s.collected ==> CollectedOk(s, e, c))
  }

  lemma {:induction false} StartingInv(s: State)
    requires Starting(s)
    ensures Inv(s)
  {
  }

  // ---------- A step of one endpoint ----------

  lemma {:induction false} EndedStays(sender: EndId, a: seq<Message>, b: seq<Message>)
    requires a <= b && StageOf(sender, a).Ended? && !StageOf(sender, b).Garbled?
    ensures StageOf(sender, b).Ended?
    decreases |b|
  {
    if a != b {
      assert a <= b[..|b| - 1];
      StagePrefix(sender, b[..|b| - 1], b);
      EndedStays(sender, a, b[..|b| - 1]);
    }
  }

  /** `h2` is `h` after applying at most one record read from this connection. */
  ghost predicate Fed(h: Host, h2: Host, heard: seq<Message>) {
    h2 == h || exists m, now: nat :: m in heard && m.Carries() && h2 == ApplyRemote(h, m.loc, now)
  }

  lemma {:induction false} FedFacts(h: Host, h2: Host, heard: seq<Message>)
    requires Ok(h) && Fed(h, h2, heard)
    ensures Ok(h2) && h2.id == h.id && h2.epoch == h.epoch && h2.nextSequence == h.nextSequence
    ensures forall m :: m in h.table && h.table[m].origin == h.id ==> m in h2.table && h2.table[m] == h.table[m]
  {
  }

  /** A record in the table afterwards was there before or was read from the connection. */
  lemma {:induction false} FedRecord(h: Host, h2: Host, heard: seq<Message>, mac: Mac) returns (m: Message)
    requires Ok(h) && Fed(h, h2, heard) && mac in h2.table
    ensures (mac in h.table && h2.table[mac] == h.table[mac])
      || (m in heard && m.Carries() && m.loc.ToClaim() == h2.table[mac].ToClaim())
  {
    m := Request;
    if h2 != h {
      var x, now: nat :| x in heard && x.Carries() && h2 == ApplyRemote(h, x.loc, now);
      assert x.loc.mac in h.table ==> RecordOk(h, x.loc.mac, h.table[x.loc.mac]);
      m := x;
    }
  }

  ghost predicate SeatMoves(e: EndId, ep: Endpoint, nd: Node, ep2: Endpoint, nd2: Node) {
    if ep2.phase.Slotted() then
      && ep2.slot < |nd.slots| && ep2.slot < |nd2.slots|
      && (if ep.phase.Slotted() then ep2.slot == ep.slot else !nd.slots[ep2.slot].active)
      && nd2.slots == nd.slots[ep2.slot := Slot(e, true, nd2.slots[ep2.slot].ready)]
      && (nd2.slots[ep2.slot].ready ==> (ep2.phase.Steady? || ep2.phase.Closing?) && StageOf(e, ep2.out).Ended?)
    else if ep.phase.Slotted() then
      ep.slot < |nd.slots| && nd2.slots == nd.slots[ep.slot := nd.slots[ep.slot].(active := false, ready := false)]
    else nd2.slots == nd.slots
  }

  /** What a step of endpoint `e` leaves alone. */
  ghost predicate Frame(s: State, e: EndId, ep2: Endpoint, nd2: Node)
    requires e in s.ends && s.ends[e].node in s.nodes
  {
    var ep, nd := s.ends[e], s.nodes[s.ends[e].node];
    && ep2.node == ep.node && ep2.peer == ep.peer
    && (StageOf(e, ep.out).Ended? || !ep2.phase.Slotted() ==> ep2.slot == ep.slot)
    && ep.out <= ep2.out && ep.heard <= ep2.heard && (ep.peer in s.ends ==> ep2.heard <= s.ends[ep.peer].out)
    && (ep.broken ==> ep2.broken) && (ep.phase.Closed? ==> ep2.phase.Closed?)
    && nd2.app == nd.app && Fed(nd.host, nd2.host, ep2.heard)
  }

  /** A legal step of endpoint `e`. */
  ghost predicate Shape(s: State, e: EndId, ep2: Endpoint, nd2: Node)
    requires e in s.ends && s.ends[e].node in s.nodes
  {
    && Frame(s, e, ep2, nd2)
    && SeatMoves(e, s.ends[e], s.nodes[s.ends[e].node], ep2, nd2)
    && LogsOk(s, e, ep2, nd2.host)
  }

  lemma {:induction false} FedKeepsLogs(s: State, e: EndId, ep: Endpoint, h: Host, h2: Host, heard: seq<Message>)
    requires Ok(h) && Fed(h, h2, heard) && LogsOk(s, e, ep, h)
    ensures LogsOk(s, e, ep, h2)
  {
  }

  lemma {:induction false} TouchKeepsLink(s: State, e: EndId, ep2: Endpoint, nd2: Node, x: EndId)
    requires e in s.ends && x in s.ends && LinkOk(s, e) && LinkOk(s, x)
    requires Frame(s, e, ep2, nd2)
    ensures LinkOk(Touch(s, e, ep2, nd2), x)
  {
  }

  lemma {:induction false} TouchKeepsSeat(s: State, e: EndId, ep2: Endpoint, nd2: Node, x: EndId)
    requires e in s.ends && x in s.ends && s.ends[e].node in s.nodes && s.ends[x].node in s.nodes
    requires SeatOk(s, e) && SeatOk(s, x)
    requires ep2.node == s.ends[e].node && SeatMoves(e, s.ends[e], s.nodes[ep2.node], ep2, nd2)
    ensures SeatOk(Touch(s, e, ep2, nd2), x)
  {
  }

  lemma {:induction false} TouchKeepsStrays(s: State, e: EndId, ep2: Endpoint, nd2: Node, x: EndId, xp: Endpoint)
    requires e in s.ends && s.ends[e].node in s.nodes && Frame(s, e, ep2, nd2)
    requires StraysOk(s.ends, x, xp)
    ensures StraysOk(Touch(s, e, ep2, nd2).ends, x, xp)
  {
  }

  lemma {:induction false} TouchKeepsEnd(s: State, e: EndId, ep2: Endpoint, nd2: Node, x: EndId)
    requires e in s.ends && x in s.ends && EndOk(s, e) && EndOk(s, x)
    requires Ok(s.nodes[s.ends[e].node].host) && Shape(s, e, ep2, nd2) && StraysOk(s.ends, e, ep2)
    ensures EndOk(Touch(s, e, ep2, nd2), x)
  {
    TouchKeepsStrays(s, e, ep2, nd2, x, if x == e then ep2 else s.ends[x]);
    hide StraysOk, Frame, SeatMoves, LinkOk, SeatOk, LogsOk;
    var s2 := Touch(s, e, ep2, nd2);
    var h := s.nodes[ep2.node].host;
    FedFacts(h, nd2.host, ep2.heard);
    TouchKeepsLink(s, e, ep2, nd2, x);
    TouchKeepsSeat(s, e, ep2, nd2, x);
    if x != e && s.ends[x].node == ep2.node {
      FedKeepsLogs(s, x, s.ends[x], h, nd2.host, ep2.heard);
    }
  }

  lemma {:induction false} TouchKeepsTarget(s: State, e: EndId, ep2: Endpoint, nd2: Node, n: NodeId, c: Claim, t: Target)
    requires e in s.ends && s.ends[e].node in s.nodes && Frame(s, e, ep2, nd2) && !StageOf(e, ep2.out).Garbled?
    requires TargetOk(s, n, c, t)
    ensures TargetOk(Touch(s, e, ep2, nd2), n, c, t)
  {
    if t.end == e {
      EndedStays(e, s.ends[e].out, ep2.out);
    }
  }

  lemma {:induction false} TouchKeepsApp(s: State, e: EndId, ep2: Endpoint, nd2: Node, n: NodeId)
    requires e in s.ends && s.ends[e].node in s.nodes && Frame(s, e, ep2, nd2) && !StageOf(e, ep2.out).Garbled?
    requires n in s.nodes && AppOk(s, n) && s.nodes[n].host.id == n && Ok(s.nodes[n].host)
    ensures AppOk(Touch(s, e, ep2, nd2), n)
  {
    if n == s.ends[e].node {
      FedFacts(s.nodes[n].host, nd2.host, ep2.heard);
    }
    var app := s.nodes[n].app;
    if app.Sending? {
      forall t | t in app.targets ensures TargetOk(Touch(s, e, ep2, nd2), n, app.loc.ToClaim(), t) {
        TouchKeepsTarget(s, e, ep2, nd2, n, app.loc.ToClaim(), t);
      }
    }
  }

  lemma {:induction false} TouchKeepsSlot(s: State, e: EndId, ep2: Endpoint, nd2: Node, n: NodeId, k: nat)
    requires e in s.ends && s.ends[e].node in s.nodes && Frame(s, e, ep2, nd2)
    requires SeatOk(s, e) && SeatMoves(e, s.ends[e], s.nodes[s.ends[e].node], ep2, nd2)
    requires n in s.nodes && k < |s.nodes[n].slots| && SlotOk(s, n, k)
    ensures k < |Touch(s, e, ep2, nd2).nodes[n].slots| && SlotOk(Touch(s, e, ep2, nd2), n, k)
  {
  }

  lemma {:induction false} TouchKeepsArrivals(s: State, e: EndId, ep2: Endpoint, nd2: Node, n: NodeId, c: Claim)
    requires e in s.ends && s.ends[e].node in s.nodes && Frame(s, e, ep2, nd2)
    requires ArrivedAt(s, n, c)
    ensures ArrivedAt(Touch(s, e, ep2, nd2), n, c)
  {
    var x, m :| x in s.ends && s.ends[x].peer in s.ends && s.ends[s.ends[x].peer].node == n
      && m in s.ends[x].out && m.Carries() && m.loc.ToClaim() == c;
    var s2 := Touch(s, e, ep2, nd2);
    assert m in s2.ends[x].out;
  }

  /** A record of this node's table after the step. */
  lemma {:induction false} TouchKeepsRecord(s: State, e: EndId, ep2: Endpoint, nd2: Node, n: NodeId, mac: Mac)
    requires e in s.ends && LinkOk(s, e) && Frame(s, e, ep2, nd2)
    requires OutClaims(s.ends[s.ends[e].peer].out, s.minted)
    requires n in s.nodes && RecordsOk(s, n)
    requires mac in Touch(s, e, ep2, nd2).nodes[n].host.table
    ensures var r := Touch(s, e, ep2, nd2).nodes[n].host.table[mac];
      r.ToClaim() in s.minted && (r.origin != n ==> ArrivedAt(Touch(s, e, ep2, nd2), n, r.ToClaim()))
  {
    var s2 := Touch(s, e, ep2, nd2);
    var h, r := s.nodes[n].host, s2.nodes[n].host.table[mac];
    if mac in h.table && h.table[mac] == r {
      if r.origin != n {
        TouchKeepsArrivals(s, e, ep2, nd2, n, r.ToClaim());
      }
    } else {
      var x := FedRecord(h, nd2.host, ep2.heard, mac);
      var p := s.ends[e].peer;
      assert x in s.ends[p].out;
      assert p in s2.ends && x in s2.ends[p].out;
    }
  }

  lemma {:induction false} TouchKeepsNode(s: State, e: EndId, ep2: Endpoint, nd2: Node, n: NodeId)
    requires e in s.ends && EndOk(s, e) && Shape(s, e, ep2, nd2)
    requires OutClaims(s.ends[s.ends[e].peer].out, s.minted)
    requires n in s.nodes && NodeOk(s, n)
    ensures NodeOk(Touch(s, e, ep2, nd2), n)
  {
    var s2 := Touch(s, e, ep2, nd2);
    if n == s.ends[e].node {
      FedFacts(s.nodes[n].host, nd2.host, ep2.heard);
    }
    TouchKeepsApp(s, e, ep2, nd2, n);
    forall k: nat | k < |s2.nodes[n].slots| ensures SlotOk(s2, n, k) {
      TouchKeepsSlot(s, e, ep2, nd2, n, k);
    }
    forall m | m in s2.nodes[n].host.table
      ensures s2.nodes[n].host.table[m].ToClaim() in s2.minted
      ensures s2.nodes[n].host.table[m].origin != n ==> ArrivedAt(s2, n, s2.nodes[n].host.table[m].ToClaim())
    {
      TouchKeepsRecord(s, e, ep2, nd2, n, m);
    }
  }

  lemma {:induction false} TouchKeepsCollected(s: State, e: EndId, ep2: Endpoint, nd2: Node, x: EndId, c: Claim)
    requires e in s.ends && s.ends[e].node in s.nodes && Frame(s, e, ep2, nd2)
    requires CollectedOk(s, x, c)
    ensures CollectedOk(Touch(s, e, ep2, nd2), x, c)
  {
  }

  lemma {:induction false} TouchKeepsMinted(s: State, e: EndId, ep2: Endpoint, nd2: Node)
    requires e in s.ends && s.ends[e].node in s.nodes && Frame(s, e, ep2, nd2)
    requires Minted(s) && Ok(s.nodes[s.ends[e].node].host)
    ensures Minted(Touch(s, e, ep2, nd2))
  {
  }

  lemma {:induction false} TouchedIsSound(s: State, e: EndId)
    requires Inv(s) && e in s.ends
    ensures s.ends[e].node in s.nodes && Ok(s.nodes[s.ends[e].node].host)
    ensures s.ends[e].peer in s.ends && OutClaims(s.ends[s.ends[e].peer].out, s.minted)
  {
    hide Minted;
    assert EndOk(s, e);
    assert EndOk(s, s.ends[e].peer) && NodeOk(s, s.ends[e].node);
  }

  lemma {:induction false} TouchKeepsInv(s: State, e: EndId, ep2: Endpoint, nd2: Node)
    requires Inv(s) && e in s.ends && EndOk(s, e) && Shape(s, e, ep2, nd2) && StraysOk(s.ends, e, ep2)
    ensures Inv(Touch(s, e, ep2, nd2))
  {
    hide StraysOk, EndOk, NodeOk, Minted, CollectedOk, SeatMoves, LogsOk;
    var s2 := Touch(s, e, ep2, nd2);
    TouchedIsSound(s, e);
    hide Frame;
    forall x | x in s2.ends ensures EndOk(s2, x) {
      TouchKeepsEnd(s, e, ep2, nd2, x);
    }
    forall n | n in s2.nodes ensures NodeOk(s2, n) {
      TouchKeepsNode(s, e, ep2, nd2, n);
    }
    TouchKeepsMinted(s, e, ep2, nd2);
    forall x, c | (x, c) in s2.collected ensures CollectedOk(s2, x, c) {
      TouchKeepsCollected(s, e, ep2, nd2, x, c);
    }
  }

  // ---------- Each endpoint step is legal ----------

  /** What a step of `e` may rely on. */
  ghost predicate Poised(s: State, e: EndId) {
    && e in s.ends && EndOk(s, e)
    && Ok(s.nodes[s.ends[e].node].host) && s.nodes[s.ends[e].node].host.id == s.ends[e].node
    && (s.ends[e].phase.Slotted() ==> SlotOk(s, s.ends[e].node, s.ends[e].slot))
    && WireOk(s.ends[e].peer, s.ends[s.ends[e].peer])
  }

  lemma {:induction false} PoisedBy(s: State, e: EndId)
    requires Inv(s) && e in s.ends
    ensures Poised(s, e)
  {
    assert EndOk(s, e);
    assert EndOk(s, s.ends[e].peer) && NodeOk(s, s.ends[e].node);
    if s.ends[e].phase.Slotted() {
      assert SlotOk(s, s.ends[e].node, s.ends[e].slot);
    }
  }

  /** An endpoint in a slot owns that slot as it stands. */
  lemma {:induction false} SeatStays(s: State, e: EndId)
    requires Poised(s, e) && s.ends[e].phase.Slotted()
    ensures var ep := s.ends[e]; var slots := s.nodes[ep.node].slots;
      && ep.slot < |slots| && slots == slots[ep.slot := Slot(e, true, slots[ep.slot].ready)]
      && (slots[ep.slot].ready ==> (ep.phase.Steady? || ep.phase.Closing?) && StageOf(e, ep.out).Ended?)
  {
  }

  /** What `e` is about to read cannot be out of order. */
  lemma {:induction false} MailInOrder(s: State, e: EndId)
    requires Poised(s, e) && HasMail(s, e)
    ensures var ep := s.ends[e]; var m := NextMail(s, e);
      && ep.heard + [m] <= s.ends[ep.peer].out
      && !Advance(ep.peer, StageOf(ep.peer, ep.heard), m).Garbled?
      && StageOf(ep.peer, ep.heard + [m]) == Advance(ep.peer, StageOf(ep.peer, ep.heard), m)
  {
    var ep := s.ends[e];
    var m := NextMail(s, e);
    StagePrefix(ep.peer, ep.heard + [m], s.ends[ep.peer].out);
    StageSnoc(ep.peer, ep.heard, m);
  }

  lemma {:induction false} AcquireShape(s: State, e: EndId, step: Step)
    requires Poised(s, e) && EndEnabled(s, e, step) && step.Acquire?
    ensures var (ep2, nd2) := EndAfter(s, e, step); Shape(s, e, ep2, nd2)
  {
  }

  /** A step that keeps its slot, and does not leave readiness behind. */
  lemma {:induction false} StayingKeepsSeat(s: State, e: EndId, ep2: Endpoint, nd2: Node)
    requires Poised(s, e) && s.ends[e].phase.Slotted() && ep2.phase.Slotted()
    requires ep2.slot == s.ends[e].slot && nd2.slots == s.nodes[s.ends[e].node].slots
    requires s.ends[e].phase.Steady? || s.ends[e].phase.Closing? ==> ep2.phase.Steady? || ep2.phase.Closing?
    requires StageOf(e, s.ends[e].out).Ended? ==> StageOf(e, ep2.out).Ended?
    ensures SeatMoves(e, s.ends[e], s.nodes[s.ends[e].node], ep2, nd2)
  {
    SeatStays(s, e);
    hide Poised, StageOf;
  }

  /** `ep2` is endpoint `e` after one more message written, in phase `phase`. */
  ghost predicate Spoke(ep: Endpoint, m: Message, phase: Phase, ep2: Endpoint) {
    && ep2.node == ep.node && ep2.peer == ep.peer && ep2.slot == ep.slot && ep2.broken == ep.broken && ep2.heard == ep.heard
    && ep2.out == ep.out + [m] && ep2.phase == phase && ep.phase.Slotted() && phase.Slotted()
    && (phase == ep.phase || !(ep.phase.Steady? || ep.phase.Closing?))
  }

  lemma {:induction false} SpeakingIsLegal(s: State, e: EndId, m: Message, phase: Phase, ep2: Endpoint)
    requires Poised(s, e) && Spoke(s.ends[e], m, phase, ep2) && !StageOf(e, ep2.out).Garbled?
    requires LogsOk(s, e, ep2, s.nodes[s.ends[e].node].host)
    ensures Shape(s, e, ep2, s.nodes[s.ends[e].node])
  {
    if StageOf(e, s.ends[e].out).Ended? {
      EndedStays(e, s.ends[e].out, ep2.out);
    }
    hide LogsOk, StageOf;
    StayingKeepsSeat(s, e, ep2, s.nodes[s.ends[e].node]);
    hide SeatMoves, SeatOk, SlotOk, StraysOk, WireOk;
  }

  lemma {:induction false} HelloKeepsLogs(s: State, e: EndId, ep: Endpoint, h: Host)
    requires LogsOk(s, e, ep, h) && ep.phase.Greeting?
    ensures LogsOk(s, e, ep.(phase := AwaitHello, out := ep.out + [Hello(h.epoch)]), h)
    ensures !StageOf(e, ep.out + [Hello(h.epoch)]).Garbled?
  {
    StageSnoc(e, ep.out, Hello(h.epoch));
    hide StageOf, CopyOk, Settled;
  }

  lemma {:induction false} AskingKeepsLogs(s: State, e: EndId, ep: Endpoint, h: Host)
    requires LogsOk(s, e, ep, h) && ep.phase.Requesting?
    ensures LogsOk(s, e, ep.(phase := Exchanging, out := ep.out + [Request]), h)
    ensures !StageOf(e, ep.out + [Request]).Garbled?
  {
    StageSnoc(e, ep.out, Request);
    hide StageOf, CopyOk, Settled;
  }

  lemma {:induction false} EntryWritten(out: seq<Message>, copy: Option<Copy>, left: seq<Location>)
    requires CopyWritten(out, copy, Some(left)) && left != []
    ensures CopyWritten(out + [Entry(left[0])], copy, Some(left[1..])) && copy.Some? && left[0] in copy.value.entries
  {
    assert left == [left[0]] + left[1..];
  }

  lemma {:induction false} EntryKeepsLogs(s: State, e: EndId, ep: Endpoint, h: Host)
    requires LogsOk(s, e, ep, h) && (ep.phase.Exchanging? || ep.phase.Steady?) && ep.serving.Some? && ep.serving.value != []
    ensures var m := Entry(ep.serving.value[0]);
      && LogsOk(s, e, ep.(out := ep.out + [m], serving := Some(ep.serving.value[1..])), h)
      && !StageOf(e, ep.out + [m]).Garbled?
  {
    StageSnoc(e, ep.out, Entry(ep.serving.value[0]));
    EntryWritten(ep.out, ep.copy, ep.serving.value);
    hide StageOf, CopyOk, Settled, CopyWritten;
  }

  lemma {:induction false} EndingKeepsLogs(s: State, e: EndId, ep: Endpoint, h: Host)
    requires LogsOk(s, e, ep, h) && (ep.phase.Exchanging? || ep.phase.Steady?) && ep.serving == Some([])
    ensures LogsOk(s, e, ep.(out := ep.out + [End], serving := None), h)
    ensures !StageOf(e, ep.out + [End]).Garbled?
  {
    StageSnoc(e, ep.out, End);
    hide StageOf, CopyOk, Settled;
  }

  lemma {:induction false} UpdateKeepsLogs(s: State, e: EndId, ep: Endpoint, h: Host, loc: Location, via: EndId)
    requires LogsOk(s, e, ep, h) && ep.phase.Slotted()
    requires loc.ToClaim() in s.minted && (via, loc.ToClaim()) in s.collected
    requires via == e ==> StageOf(e, ep.out).Ended?
    ensures LogsOk(s, e, ep.(out := ep.out + [Update(loc, via)]), h)
    ensures !StageOf(e, ep.out + [Update(loc, via)]).Garbled?
  {
    StageSnoc(e, ep.out, Update(loc, via));
    hide StageOf, CopyOk, Settled;
  }

  lemma {:induction false} PoisedLogs(s: State, e: EndId)
    requires Poised(s, e)
    ensures e in s.ends && s.ends[e].node in s.nodes
    ensures LogsOk(s, e, s.ends[e], s.nodes[s.ends[e].node].host)
  {
  }

  lemma {:induction false} SendShape(s: State, e: EndId, step: Step)
    requires Poised(s, e) && EndEnabled(s, e, step)
    requires step.SendHello? || step.SendRequest? || step.SendEntry? || step.SendEnd?
    ensures var (ep2, nd2) := EndAfter(s, e, step); Shape(s, e, ep2, nd2)
  {
    hide Poised, LogsOk, StageOf, Shape;
    PoisedLogs(s, e);
    var ep, h := s.ends[e], s.nodes[s.ends[e].node].host;
    var ep2, m := EndAfter(s, e, step).0, Request;
    match step {
      case SendHello(_) =>
        m := Hello(h.epoch);
        HelloKeepsLogs(s, e, ep, h);
      case SendRequest(_) =>
        AskingKeepsLogs(s, e, ep, h);
      case SendEntry(_) =>
        m := Entry(ep.serving.value[0]);
        EntryKeepsLogs(s, e, ep, h);
      case SendEnd(_) =>
        m := End;
        EndingKeepsLogs(s, e, ep, h);
    }
    SpeakingIsLegal(s, e, m, ep2.phase, ep2);
  }

  lemma {:induction false} HelloHeard(s: State, e: EndId, ep: Endpoint, h: Host, m: Message)
    requires LogsOk(s, e, ep, h) && ep.phase.AwaitHello?
    requires !StageOf(ep.peer, ep.heard + [m]).Garbled?
    requires StageOf(ep.peer, ep.heard + [m]) == Advance(ep.peer, StageOf(ep.peer, ep.heard), m)
    ensures LogsOk(s, e, ep.(phase := if m.Hello? then Requesting else Closing, heard := ep.heard + [m]), h)
  {
    assert StageOf(ep.peer, []).Silent?;
    hide StageOf, CopyOk, Settled, CopyWritten, OutClaims, CopyClaims, OutExplained;
  }

  lemma {:induction false} ReceiveHelloShape(s: State, e: EndId, step: Step)
    requires Poised(s, e) && EndEnabled(s, e, step) && step.ReceiveHello?
    ensures var (ep2, nd2) := EndAfter(s, e, step); Shape(s, e, ep2, nd2)
  {
    MailInOrder(s, e);
    SeatStays(s, e);
    PoisedLogs(s, e);
    HelloHeard(s, e, s.ends[e], s.nodes[s.ends[e].node].host, NextMail(s, e));
    hide LogsOk, Poised, StageOf, IsListing, Ok;
  }

  lemma {:induction false} ReplayShape(s: State, e: EndId, step: Step)
    requires Poised(s, e) && EndEnabled(s, e, step) && step.Replay?
    ensures var (ep2, nd2) := EndAfter(s, e, step); Shape(s, e, ep2, nd2)
  {
    var ep := s.ends[e];
    var h := s.nodes[ep.node].host;
    var m := ep.deferred[0];
    SeatStays(s, e);
    assert m in ep.deferred && m in ep.heard;
    ApplySettles(h, m.loc, step.now);
    forall x | x in ep.heard && x.Carries() && Settled(h, x.loc) ensures Settled(ApplyRemote(h, m.loc, step.now), x.loc) {
      ApplyKeepsSettled(h, m.loc, step.now, x.loc);
    }
  }

  lemma {:induction false} MarkReadyShape(s: State, e: EndId, step: Step)
    requires Poised(s, e) && EndEnabled(s, e, step) && step.MarkReady?
    ensures var (ep2, nd2) := EndAfter(s, e, step); Shape(s, e, ep2, nd2)
  {
  }

  lemma {:induction false} AbortShape(s: State, e: EndId, step: Step)
    requires Poised(s, e) && EndEnabled(s, e, step) && step.Abort?
    ensures var (ep2, nd2) := EndAfter(s, e, step); Shape(s, e, ep2, nd2)
  {
  }

  lemma {:induction false} TeardownShape(s: State, e: EndId, step: Step)
    requires Poised(s, e) && EndEnabled(s, e, step) && step.Teardown?
    ensures var (ep2, nd2) := EndAfter(s, e, step); Shape(s, e, ep2, nd2)
  {
  }

  /** Reading a record and applying it leaves everything read so far settled or deferred. */
  lemma {:induction false} HearingSettles(h: Host, phase: Phase, heard: seq<Message>, deferred: seq<Message>, m: Message, now: nat)
    requires Ok(h) && Absorbed(h, phase, heard, deferred) && m.Carries() && phase.Listening()
    ensures Absorbed(ApplyRemote(h, m.loc, now), phase, heard + [m], deferred)
  {
  }

  /** An export made now covers every claim minted so far in this epoch, and nothing unminted. */
  ghost predicate FreshCopy(h: Host, listing: seq<Location>, minted: set<Claim>) {
    var copy := Some(Copy(listing, h.epoch, h.nextSequence));
    CopyOk(h, copy, minted) && CopyClaims(copy, minted)
  }

  lemma {:induction false} FreshCopyOk(s: State, n: NodeId, listing: seq<Location>)
    requires Minted(s) && n in s.nodes && RecordsOk(s, n) && Ok(s.nodes[n].host) && s.nodes[n].host.id == n
    requires IsListing(listing, s.nodes[n].host.table)
    ensures FreshCopy(s.nodes[n].host, listing, s.minted)
  {
  }

  lemma {:induction false} ServingKeepsLogs(s: State, e: EndId, ep: Endpoint, h: Host, listing: seq<Location>)
    requires LogsOk(s, e, ep, h) && FreshCopy(h, listing, s.minted)
    requires ep.phase.Exchanging? && ep.serving.None? && !StageOf(ep.peer, ep.heard + [Request]).Garbled?
    ensures LogsOk(s, e, Serve(ep.(heard := ep.heard + [Request]), h, listing), h)
  {
    StageSnoc(ep.peer, ep.heard, Request);
    hide CopyOk, CopyClaims, StageOf, Settled;
  }

  /** A second request would be out of order, so requests are only ever read during an exchange. */
  lemma {:induction false} RequestIs(s: State, e: EndId, step: Step)
    requires Poised(s, e) && EndEnabled(s, e, step) && step.Receive? && NextMail(s, e).Request?
    ensures var (ep, nd) := (s.ends[e], s.nodes[s.ends[e].node]);
      && EndAfter(s, e, step) == (Serve(ep.(heard := ep.heard + [Request]), nd.host, step.listing), nd)
      && ep.phase.Exchanging? && ep.serving.None?
  {
    MailInOrder(s, e);
    hide IsListing, SeatOk, SlotOk, LinkOk, StraysOk;
  }

  /** What reading any message may change. */
  ghost predicate Heard(ep: Endpoint, h: Host, m: Message, now: nat, ep2: Endpoint, h2: Host) {
    && ep2.node == ep.node && ep2.peer == ep.peer && ep2.slot == ep.slot && ep2.broken == ep.broken && ep2.out == ep.out
    && ep2.heard == ep.heard + [m]
    && (if ep.phase.Steady? then ep2.phase.Steady? else ep2.phase.Exchanging? || ep2.phase.Replaying? || ep2.phase.Closing?)
    && (h2 == h || (m.Carries() && h2 == ApplyRemote(h, m.loc, now)))
  }

  lemma {:induction false} HearingIsHeard(ep: Endpoint, h: Host, m: Message, now: nat, listing: seq<Location>)
    requires ep.phase.Exchanging? || ep.phase.Steady?
    ensures var (ep2, h2) := Hear(ep, h, m, now, listing); Heard(ep, h, m, now, ep2, h2)
  {
    hide ApplyRemote;
  }

  lemma {:induction false} ReceiveKeepsFrame(s: State, e: EndId, step: Step)
    requires Poised(s, e) && EndEnabled(s, e, step) && step.Receive?
    ensures var (ep2, nd2) := EndAfter(s, e, step); Frame(s, e, ep2, nd2)
  {
    MailInOrder(s, e);
    HearingIsHeard(s.ends[e], s.nodes[s.ends[e].node].host, NextMail(s, e), step.now, step.listing);
    hide LogsOk, IsListing, SlotOk, SeatOk, Ok, WireOk, StraysOk, StageOf, ApplyRemote, Hear;
    assert NextMail(s, e) in s.ends[e].heard + [NextMail(s, e)];
  }

  lemma {:induction false} ReceiveKeepsSeat(s: State, e: EndId, step: Step)
    requires Poised(s, e) && EndEnabled(s, e, step) && step.Receive?
    ensures var (ep2, nd2) := EndAfter(s, e, step); SeatMoves(e, s.ends[e], s.nodes[s.ends[e].node], ep2, nd2)
  {
    HearingIsHeard(s.ends[e], s.nodes[s.ends[e].node].host, NextMail(s, e), step.now, step.listing);
    hide Poised, IsListing, Hear, ApplyRemote, StageOf, SeatMoves;
    var (ep2, nd2) := EndAfter(s, e, step);
    StayingKeepsSeat(s, e, ep2, nd2);
  }

  lemma {:induction false} DeferringKeeps(h: Host, peer: EndId, heard: seq<Message>, deferred: seq<Message>, m: Message)
    requires Absorbed(h, Exchanging, heard, deferred) && DeferredOk(peer, heard, deferred)
    requires m.Update? && m.via != peer && |deferred| < MAX_DEFERRED_UPDATES
    ensures Absorbed(h, Exchanging, heard + [m], deferred + [m]) && DeferredOk(peer, heard + [m], deferred + [m])
  {
  }

  lemma {:induction false} QueueKeepsLogs(s: State, e: EndId, ep: Endpoint, h: Host, m: Message)
    requires LogsOk(s, e, ep, h) && ep.phase.Exchanging? && m.Update? && !StageOf(ep.peer, ep.heard + [m]).Garbled?
    requires |ep.deferred| < MAX_DEFERRED_UPDATES
    ensures LogsOk(s, e, ep.(heard := ep.heard + [m], deferred := ep.deferred + [m]), h)
  {
    StageSnoc(ep.peer, ep.heard, m);
    hide CopyOk, Settled, StageOf, CopyWritten, OutClaims, CopyClaims, OutExplained;
    assert m.via != ep.peer;
    DeferringKeeps(h, ep.peer, ep.heard, ep.deferred, m);
    hide Absorbed, DeferredOk;
  }

  lemma {:induction false} OverflowKeepsLogs(s: State, e: EndId, ep: Endpoint, h: Host, m: Message)
    requires LogsOk(s, e, ep, h) && m.Update?
    ensures LogsOk(s, e, ep.(phase := Closing, heard := ep.heard + [m]), h)
  {
    hide CopyOk, Settled, StageOf, CopyWritten, OutClaims, CopyClaims, OutExplained;
  }

  lemma {:induction false} DeferIs(s: State, e: EndId, step: Step)
    requires EndEnabled(s, e, step) && step.Receive? && NextMail(s, e).Update? && s.ends[e].phase.Exchanging?
    ensures var (ep, nd, m) := (s.ends[e], s.nodes[s.ends[e].node], NextMail(s, e));
      EndAfter(s, e, step) ==
        (if |ep.deferred| < MAX_DEFERRED_UPDATES then ep.(heard := ep.heard + [m], deferred := ep.deferred + [m])
         else ep.(phase := Closing, heard := ep.heard + [m]), nd)
  {
    hide IsListing;
  }

  /** The overflow branch closes the connection; everything else it reads, it keeps. */
  lemma {:induction false} DeferShape(s: State, e: EndId, step: Step)
    requires Poised(s, e) && EndEnabled(s, e, step) && step.Receive?
    requires NextMail(s, e).Update? && s.ends[e].phase.Exchanging?
    ensures var (ep2, nd2) := EndAfter(s, e, step); Shape(s, e, ep2, nd2)
  {
    hide LogsOk, Frame, SeatMoves, IsListing, EndAfter, HearExchanging;
    MailInOrder(s, e);
    ReceiveKeepsFrame(s, e, step);
    ReceiveKeepsSeat(s, e, step);
    DeferIs(s, e, step);
    var ep, h, m := s.ends[e], s.nodes[s.ends[e].node].host, NextMail(s, e);
    if |ep.deferred| < MAX_DEFERRED_UPDATES {
      QueueKeepsLogs(s, e, ep, h, m);
    } else {
      OverflowKeepsLogs(s, e, ep, h, m);
    }
  }

  /** Applying a record changes neither epoch nor sequence, so what its node copied stays good. */
  lemma {:induction false} ApplyKeepsCopy(h: Host, m: Message, now: nat, copy: Option<Copy>, minted: set<Claim>)
    requires m.Carries() && CopyOk(h, copy, minted)
    ensures CopyOk(ApplyRemote(h, m.loc, now), copy, minted)
  {
  }

  lemma {:induction false} ImportKeepsLogs(s: State, e: EndId, ep: Endpoint, h: Host, m: Message, now: nat)
    requires Ok(h) && LogsOk(s, e, ep, h) && m.Carries()
    requires if m.Entry? then ep.phase.Exchanging? else ep.phase.Steady?
    requires !StageOf(ep.peer, ep.heard + [m]).Garbled?
    ensures LogsOk(s, e, ep.(heard := ep.heard + [m]), ApplyRemote(h, m.loc, now))
  {
    StageSnoc(ep.peer, ep.heard, m);
    HearingSettles(h, ep.phase, ep.heard, ep.deferred, m, now);
    ApplyKeepsCopy(h, m, now, ep.copy, s.minted);
    hide Absorbed, CopyOk, ApplyRemote, StageOf;
  }

  lemma {:induction false} ImportIs(s: State, e: EndId, step: Step)
    requires EndEnabled(s, e, step) && step.Receive?
    requires NextMail(s, e).Carries() && (s.ends[e].phase.Exchanging? <==> NextMail(s, e).Entry?)
    ensures var (ep, nd, m) := (s.ends[e], s.nodes[s.ends[e].node], NextMail(s, e));
      EndAfter(s, e, step) == (ep.(heard := ep.heard + [m]), nd.(host := ApplyRemote(nd.host, m.loc, step.now)))
      && (if m.Entry? then ep.phase.Exchanging? else ep.phase.Steady?)
  {
    hide ApplyRemote, IsListing;
  }

  lemma {:induction false} OtherKeepsLogs(s: State, e: EndId, step: Step)
    requires Poised(s, e) && EndEnabled(s, e, step) && step.Receive?
    requires !NextMail(s, e).Carries() && !NextMail(s, e).Request?
    ensures var (ep2, nd2) := EndAfter(s, e, step); LogsOk(s, e, ep2, nd2.host)
  {
    MailInOrder(s, e);
    hide CopyOk, ApplyRemote, SeatOk, SlotOk, LinkOk, StraysOk, IsListing, OutClaims, CopyClaims, OutExplained, CopyWritten, Settled;
  }

  lemma {:induction false} ReceiveShape(s: State, e: EndId, step: Step)
    requires Poised(s, e) && EndEnabled(s, e, step) && step.Receive?
    requires FreshCopy(s.nodes[s.ends[e].node].host, step.listing, s.minted) || !NextMail(s, e).Request?
    ensures var (ep2, nd2) := EndAfter(s, e, step); Shape(s, e, ep2, nd2)
  {
    hide LogsOk, Frame, SeatMoves, FreshCopy, IsListing, EndAfter, Serve, ApplyRemote;
    var ep, h, m := s.ends[e], s.nodes[s.ends[e].node].host, NextMail(s, e);
    if ep.phase.Exchanging? && m.Update? {
      DeferShape(s, e, step);
      return;
    }
    MailInOrder(s, e);
    ReceiveKeepsFrame(s, e, step);
    ReceiveKeepsSeat(s, e, step);
    if m.Request? {
      RequestIs(s, e, step);
      ServingKeepsLogs(s, e, ep, h, step.listing);
    } else if m.Carries() {
      if ep.phase.Steady? {
        ReadyImports(s, e);
      }
      ImportIs(s, e, step);
      ImportKeepsLogs(s, e, ep, h, m, step.now);
    } else {
      OtherKeepsLogs(s, e, step);
    }
  }

  /** Entries are only read during an exchange. */
  lemma {:induction false} ReadyImports(s: State, e: EndId)
    requires Poised(s, e) && HasMail(s, e) && s.ends[e].phase.Steady?
    ensures !NextMail(s, e).Entry?
  {
    MailInOrder(s, e);
  }

  lemma {:induction false} PoisedHost(s: State, e: EndId)
    requires Poised(s, e)
    ensures Ok(s.nodes[s.ends[e].node].host) && s.nodes[s.ends[e].node].host.id == s.ends[e].node
  {
  }

  lemma {:induction false} EndStepShape(s: State, e: EndId, step: Step)
    requires Poised(s, e) && EndEnabled(s, e, step) && Minted(s) && RecordsOk(s, s.ends[e].node)
    ensures var (ep2, nd2) := EndAfter(s, e, step); Shape(s, e, ep2, nd2)
  {
    hide Poised, Shape, EndAfter, Minted, RecordsOk;
    match step {
      case Acquire(_) => AcquireShape(s, e, step);
      case ReceiveHello(_) => ReceiveHelloShape(s, e, step);
      case Receive(_, _, _) =>
        PoisedHost(s, e);
        if NextMail(s, e).Request? {
          FreshCopyOk(s, s.ends[e].node, step.listing);
        }
        ReceiveShape(s, e, step);
      case DropServing(_) => NeverServingWhenReady(s, e);
      case Replay(_, _) => ReplayShape(s, e, step);
      case MarkReady(_) => MarkReadyShape(s, e, step);
      case Abort(_) => AbortShape(s, e, step);
      case Teardown(_) => TeardownShape(s, e, step);
      case _ => SendShape(s, e, step);
    }
  }

  /** Between two nodes running this code a ready endpoint has long served its peer. */
  lemma {:induction false} NeverServingWhenReady(s: State, e: EndId)
    requires Poised(s, e) && s.ends[e].phase.Steady?
    ensures s.ends[e].serving.None?
  {
  }

  /** No step of a connection thread writes an update, and only a fresh endpoint takes a slot. */
  lemma {:induction false} EndStepKeepsStrays(s: State, e: EndId, step: Step)
    requires Poised(s, e) && EndEnabled(s, e, step)
    ensures StraysOk(s.ends, e, EndAfter(s, e, step).0)
  {
    hide LinkOk, SeatOk, SlotOk, IsListing, FreeSlot, ApplyRemote, Settled, StageOf, EarlierOwner;
  }

  // ---------- Steps of the application ----------

  lemma {:induction false} LearnKeepsEnd(s: State, n: NodeId, step: Step, x: EndId)
    requires step.Learn? && NodeEnabled(s, n, step) && RecordsOk(s, n) && x in s.ends && EndOk(s, x)
    ensures EndOk(NodeAfter(s, n, step), x)
  {
    var s2 := NodeAfter(s, n, step);
    var xp := s.ends[x];
    var h, h2 := s.nodes[xp.node].host, s2.nodes[xp.node].host;
    if xp.node == n {
      forall m | m in xp.heard && m.Carries() && Settled(h, m.loc) ensures Settled(h2, m.loc) {
        LearnKeepsSettled(h, step.mac, step.dpid, step.port, step.now, m.loc);
      }
    }
    assert LogsOk(s2, x, xp, h2);
  }

  lemma {:induction false} LearnKeepsMinted(s: State, n: NodeId, step: Step)
    requires step.Learn? && NodeEnabled(s, n, step) && RecordsOk(s, n) && Minted(s)
    ensures Minted(NodeAfter(s, n, step))
  {
    var s2 := NodeAfter(s, n, step);
    forall c | c in s2.minted ensures c.origin in s2.nodes && MintOk(s2.nodes[c.origin].host, c) {
      LearnKeepsMintOk(s, n, step, c);
    }
    hide MintOk;
    LearnKeepsVersionsUnique(s, n, step);
  }

  lemma {:induction false} LearnKeepsMintOk(s: State, n: NodeId, step: Step, c: Claim)
    requires step.Learn? && NodeEnabled(s, n, step) && RecordsOk(s, n) && Minted(s)
    requires c in NodeAfter(s, n, step).minted
    ensures c.origin in NodeAfter(s, n, step).nodes && MintOk(NodeAfter(s, n, step).nodes[c.origin].host, c)
  {
    var h := s.nodes[n].host;
    if c in s.minted {
      assert MintOk(s.nodes[c.origin].host, c);
      assert c.origin == n ==> step.mac in h.table ==> RecordOk(h, step.mac, h.table[step.mac]);
    }
  }

  /** The new claim has a sequence number no earlier claim of this epoch has. */
  lemma {:induction false} LearnKeepsVersionsUnique(s: State, n: NodeId, step: Step)
    requires step.Learn? && NodeEnabled(s, n, step) && RecordsOk(s, n) && Minted(s)
    ensures var minted := NodeAfter(s, n, step).minted;
      forall c, d :: c in minted && d in minted && c.origin == d.origin && VersionOf(c) == VersionOf(d) ==> c == d
  {
    var s2 := NodeAfter(s, n, step);
    forall c, d | c in s2.minted && d in s2.minted && c.origin == d.origin && VersionOf(c) == VersionOf(d)
      ensures c == d
    {
      assert c in s.minted ==> MintOk(s.nodes[c.origin].host, c);
      assert d in s.minted ==> MintOk(s.nodes[d.origin].host, d);
    }
  }

  lemma {:induction false} SameEndsSameArrivals(s: State, s2: State, n: NodeId, c: Claim)
    requires s2.ends == s.ends && ArrivedAt(s, n, c)
    ensures ArrivedAt(s2, n, c)
  {
  }

  lemma {:induction false} LearnKeepsRecords(s: State, n: NodeId, step: Step, k: NodeId)
    requires step.Learn? && NodeEnabled(s, n, step) && RecordsOk(s, n) && k in s.nodes && RecordsOk(s, k)
    ensures RecordsOk(NodeAfter(s, n, step), k)
  {
    var s2 := NodeAfter(s, n, step);
    var h2 := s2.nodes[k].host;
    LearnKeepsOk(s.nodes[n].host, step.mac, step.dpid, step.port, step.now);
    forall m | m in h2.table
      ensures h2.table[m].ToClaim() in s2.minted
      ensures h2.table[m].origin != k ==> ArrivedAt(s2, k, h2.table[m].ToClaim())
    {
      if m in s.nodes[k].host.table && h2.table[m] == s.nodes[k].host.table[m] {
        if h2.table[m].origin != k {
          SameEndsSameArrivals(s, s2, k, h2.table[m].ToClaim());
        }
      }
    }
  }

  lemma {:induction false} SameSlotsOk(s: State, s2: State, n: NodeId, k: nat)
    requires n in s.nodes && n in s2.nodes && s2.ends == s.ends && s2.nodes[n].slots == s.nodes[n].slots
    requires k < |s.nodes[n].slots| && SlotOk(s, n, k)
    ensures SlotOk(s2, n, k)
  {
  }

  lemma {:induction false} LearnKeepsNode(s: State, n: NodeId, step: Step, k: NodeId)
    requires step.Learn? && NodeEnabled(s, n, step) && NodeOk(s, n) && k in s.nodes && NodeOk(s, k)
    ensures NodeOk(NodeAfter(s, n, step), k)
  {
    var s2 := NodeAfter(s, n, step);
    LearnKeepsRecords(s, n, step, k);
    forall i: nat | i < |s2.nodes[k].slots| ensures SlotOk(s2, k, i) {
      assert SlotOk(s, k, i);
      SameSlotsOk(s, s2, k, i);
    }
    assert AppOk(s2, k);
  }

  lemma {:induction false} LearnKeepsInv(s: State, n: NodeId, step: Step)
    requires Inv(s) && step.Learn? && NodeEnabled(s, n, step)
    ensures Inv(NodeAfter(s, n, step))
  {
    hide EndOk, Minted;
    var s2 := NodeAfter(s, n, step);
    assert NodeOk(s, n);
    forall x | x in s2.ends ensures EndOk(s2, x) {
      assert EndOk(s, x);
      LearnKeepsEnd(s, n, step, x);
    }
    forall k | k in s2.nodes ensures NodeOk(s2, k) {
      assert NodeOk(s, k);
      LearnKeepsNode(s, n, step, k);
    }
    LearnKeepsMinted(s, n, step);
    forall x, c | (x, c) in s2.collected ensures CollectedOk(s2, x, c) {
      assert CollectedOk(s, x, c);
    }
  }

  function WithApp(s: State, n: NodeId, app: App, collected: set<(EndId, Claim)>): State
    requires n in s.nodes
  {
    s.(nodes := s.nodes[n := s.nodes[n].(app := app)], collected := collected)
  }

  lemma {:induction false} AppChangeKeepsNode(s: State, n: NodeId, app: App, collected: set<(EndId, Claim)>, k: NodeId)
    requires n in s.nodes && k in s.nodes && NodeOk(s, k) && s.collected <= collected
    requires AppOk(WithApp(s, n, app, collected), n)
    ensures NodeOk(WithApp(s, n, app, collected), k)
  {
    var s2 := WithApp(s, n, app, collected);
    forall i: nat | i < |s2.nodes[k].slots| ensures SlotOk(s2, k, i) {
      assert SlotOk(s, k, i);
      SameSlotsOk(s, s2, k, i);
    }
    var h := s.nodes[k].host;
    forall m | m in h.table && h.table[m].origin != k ensures ArrivedAt(s2, k, h.table[m].ToClaim()) {
      SameEndsSameArrivals(s, s2, k, h.table[m].ToClaim());
    }
    if k != n && s.nodes[k].app.Sending? {
      forall t | t in s.nodes[k].app.targets ensures TargetOk(s2, k, s.nodes[k].app.loc.ToClaim(), t) {
        assert TargetOk(s, k, s.nodes[k].app.loc.ToClaim(), t);
      }
    }
  }

  lemma {:induction false} AppChangeKeepsInv(s: State, n: NodeId, app: App, collected: set<(EndId, Claim)>)
    requires Inv(s) && n in s.nodes && s.collected <= collected
    requires AppOk(WithApp(s, n, app, collected), n)
    requires forall e, c :: (e, c) in collected ==> CollectedOk(WithApp(s, n, app, collected), e, c)
    ensures Inv(WithApp(s, n, app, collected))
  {
    var s2 := WithApp(s, n, app, collected);
    forall x | x in s2.ends ensures EndOk(s2, x) {
      assert EndOk(s, x);
    }
    forall k | k in s2.nodes ensures NodeOk(s2, k) {
      assert NodeOk(s, k);
      AppChangeKeepsNode(s, n, app, collected, k);
    }
  }

  lemma {:induction false} LookupKeepsInv(s: State, n: NodeId)
    requires Inv(s) && NodeEnabled(s, n, LookupLearned(n))
    ensures Inv(NodeAfter(s, n, LookupLearned(n)))
  {
    assert NodeOk(s, n);
    var h := s.nodes[n].host;
    var mac := s.nodes[n].app.mac;
    assert RecordOk(h, mac, h.table[mac]);
    var s2 := WithApp(s, n, Found(h.table[mac]), s.collected);
    forall e, c | (e, c) in s.collected ensures CollectedOk(s2, e, c) {
      assert CollectedOk(s, e, c);
    }
    AppChangeKeepsInv(s, n, Found(h.table[mac]), s.collected);
  }

  lemma {:induction false} CollectKeepsInv(s: State, n: NodeId)
    requires Inv(s) && NodeEnabled(s, n, Collect(n))
    ensures Inv(NodeAfter(s, n, Collect(n)))
  {
    assert NodeOk(s, n);
    var nd := s.nodes[n];
    var c := nd.app.loc.ToClaim();
    var ts := ReadySlots(nd.slots, 0);
    var app := AfterTargets(nd.app.loc, ts);
    var collected := s.collected + set t | t in ts :: (t.end, c);
    var s2 := WithApp(s, n, app, collected);
    forall t | t in ts ensures TargetOk(s2, n, c, t) {
      assert SlotOk(s, n, t.slot);
    }
    forall e, d | (e, d) in collected ensures CollectedOk(s2, e, d) {
      if (e, d) in s.collected {
        assert CollectedOk(s, e, d);
      } else {
        var t :| t in ts && t.end == e && d == c;
        assert TargetOk(s2, n, c, t);
        assert Pending(s2.nodes[n], e, c);
      }
    }
    AppChangeKeepsInv(s, n, app, collected);
  }

  // ---------- One frame of a disseminate call ----------

  /** The slot it is written to is the one that was collected, so a stray update came from an
      earlier owner. */
  lemma {:induction false} WriteUpdateKeepsStrays(s: State, n: NodeId, c: Claim, t: Target, loc: Location)
    requires n in s.nodes && TargetOk(s, n, c, t) && t.slot < |s.nodes[n].slots| && SlotOk(s, n, t.slot)
    requires s.nodes[n].slots[t.slot].active
    requires var e := s.nodes[n].slots[t.slot].end; StraysOk(s.ends, e, s.ends[e]) && EndOk(s, t.end)
    ensures var e := s.nodes[n].slots[t.slot].end;
      StraysOk(s.ends, e, s.ends[e].(out := s.ends[e].out + [Update(loc, t.end)]))
  {
    if s.nodes[n].slots[t.slot].end != t.end {
      StrayTargetClosed(s, n, c, t);
    }
  }

  /** A target that its slot no longer holds is closed. */
  lemma {:induction false} StrayTargetClosed(s: State, n: NodeId, c: Claim, t: Target)
    requires n in s.nodes && TargetOk(s, n, c, t) && EndOk(s, t.end)
    requires t.slot < |s.nodes[n].slots|
    requires !(s.nodes[n].slots[t.slot].active && s.nodes[n].slots[t.slot].end == t.end)
    ensures s.ends[t.end].phase.Closed?
  {
  }

  /** Dropping the first target is fine once its frame is written or its connection is gone. */
  lemma {:induction false} DropTargetKeepsInv(s: State, n: NodeId)
    requires Inv(s) && n in s.nodes && s.nodes[n].app.Sending? && s.nodes[n].app.targets != []
    requires var t := s.nodes[n].app.targets[0];
      && t.end in s.ends
      && (Wrote(s.ends[t.end], s.nodes[n].app.loc.ToClaim()) || s.ends[t.end].broken || s.ends[t.end].phase.Closed?)
    ensures Inv(WithApp(s, n, AfterTargets(s.nodes[n].app.loc, s.nodes[n].app.targets[1..]), s.collected))
  {
    assert NodeOk(s, n);
    var app := s.nodes[n].app;
    var ts, rest := app.targets, app.targets[1..];
    var s2 := WithApp(s, n, AfterTargets(app.loc, rest), s.collected);
    assert ts == [ts[0]] + rest;
    forall t | t in rest ensures TargetOk(s2, n, app.loc.ToClaim(), t) {
      assert TargetOk(s, n, app.loc.ToClaim(), t);
    }
    forall e, c | (e, c) in s.collected ensures CollectedOk(s2, e, c) {
      assert CollectedOk(s, e, c);
      if s.ends[e].node == n && Pending(s.nodes[n], e, c) {
        var t :| t in ts && t.end == e;
        assert t == ts[0] || t in rest;
      }
    }
    AppChangeKeepsInv(s, n, AfterTargets(app.loc, rest), s.collected);
  }

  lemma {:induction false} OwnStrays(s: State, e: EndId)
    requires Inv(s) && e in s.ends
    ensures StraysOk(s.ends, e, s.ends[e])
  {
    hide NodeOk, Minted;
    assert EndOk(s, e);
  }

  lemma {:induction false} DeliverKeepsInv(s: State, n: NodeId)
    requires Inv(s) && NodeEnabled(s, n, Deliver(n))
    ensures Inv(NodeAfter(s, n, Deliver(n)))
  {
    hide EndOk, CollectedOk, Minted, Poised, Shape, EndEnabled, StraysOk, LogsOk, StageOf;
    assert NodeOk(s, n);
    var app := s.nodes[n].app;
    var c := app.loc.ToClaim();
    var t := app.targets[0];
    var slot := s.nodes[n].slots[t.slot];
    assert TargetOk(s, n, c, t) && SlotOk(s, n, t.slot) && EndOk(s, t.end);
    if !(slot.active && slot.end == t.end) {
      StrayTargetClosed(s, n, c, t);
    }
    if slot.active && !s.ends[slot.end].broken {
      var e := slot.end;
      var ep2 := s.ends[e].(out := s.ends[e].out + [Update(app.loc, t.end)]);
      PoisedBy(s, e);
      OwnStrays(s, e);
      WriteUpdateKeepsStrays(s, n, c, t, app.loc);
      PoisedLogs(s, e);
      UpdateKeepsLogs(s, e, s.ends[e], s.nodes[n].host, app.loc, t.end);
      SpeakingIsLegal(s, e, Update(app.loc, t.end), s.ends[e].phase, ep2);
      TouchKeepsInv(s, e, ep2, s.nodes[n]);
      var s1 := Touch(s, e, ep2, s.nodes[n]);
      assert s1.nodes == s.nodes;
      assert e == t.end ==> Update(app.loc, t.end) in ep2.out;
      DropTargetKeepsInv(s1, n);
    } else {
      DropTargetKeepsInv(s, n);
    }
  }

  // ---------- Connections opening, breaking, and processes restarting ----------

  /** `ends2` has every endpoint of `ends` with its logs, perhaps broken or closed, and
      perhaps more endpoints. */
  ghost predicate EndsKept(ends: map<EndId, Endpoint>, ends2: map<EndId, Endpoint>) {
    forall e :: e in ends ==> e in ends2 && EndKept(ends[e], ends2[e])
  }

  ghost predicate EndKept(ep: Endpoint, ep2: Endpoint) {
    && ep2.node == ep.node && ep2.peer == ep.peer && ep2.slot == ep.slot
    && ep2.out == ep.out && ep2.heard == ep.heard
    && (ep.broken ==> ep2.broken) && (ep2.phase == ep.phase || ep2.phase.Closed?)
  }

  lemma {:induction false} KeptArrivals(s: State, s2: State, n: NodeId, c: Claim)
    requires EndsKept(s.ends, s2.ends) && ArrivedAt(s, n, c)
    ensures ArrivedAt(s2, n, c)
  {
  }

  lemma {:induction false} KeptStrays(ends: map<EndId, Endpoint>, ends2: map<EndId, Endpoint>, x: EndId)
    requires EndsKept(ends, ends2) && x in ends && StraysOk(ends, x, ends[x])
    ensures x in ends2 && StraysOk(ends2, x, ends2[x])
  {
  }

  lemma {:induction false} KeptNode(s: State, s2: State, n: NodeId)
    requires n in s.nodes && n in s2.nodes && s2.nodes[n] == s.nodes[n] && NodeOk(s, n)
    requires EndsKept(s.ends, s2.ends) && s2.minted == s.minted && s2.collected == s.collected
    requires forall e :: e in s.ends && s.ends[e].node == n ==> s2.ends[e].phase == s.ends[e].phase
    ensures NodeOk(s2, n)
  {
    forall k: nat | k < |s2.nodes[n].slots| ensures SlotOk(s2, n, k) {
      assert SlotOk(s, n, k);
    }
    var h := s.nodes[n].host;
    forall m | m in h.table && h.table[m].origin != n ensures ArrivedAt(s2, n, h.table[m].ToClaim()) {
      KeptArrivals(s, s2, n, h.table[m].ToClaim());
    }
    var app := s.nodes[n].app;
    if app.Sending? {
      forall t | t in app.targets ensures TargetOk(s2, n, app.loc.ToClaim(), t) {
        assert TargetOk(s, n, app.loc.ToClaim(), t);
      }
    }
  }

  lemma {:induction false} KeptCollected(s: State, s2: State, e: EndId, c: Claim)
    requires CollectedOk(s, e, c) && EndsKept(s.ends, s2.ends)
    requires s.ends[e].node in s2.nodes
    requires s2.nodes[s.ends[e].node] == s.nodes[s.ends[e].node] || s2.ends[e].phase.Closed?
    ensures CollectedOk(s2, e, c)
  {
  }

  lemma {:induction false} ConnectKeepsEnd(s: State, a: NodeId, b: NodeId, e: EndId, f: EndId, x: EndId)
    requires Enabled(s, Connect(a, b, e, f)) && x in s.ends && EndOk(s, x)
    ensures EndOk(Do(s, Connect(a, b, e, f)), x)
  {
    KeptStrays(s.ends, Do(s, Connect(a, b, e, f)).ends, x);
    hide StraysOk, LogsOk;
  }

  lemma {:induction false} OpenedEndOk(s: State, a: NodeId, b: NodeId, e: EndId, f: EndId)
    requires Enabled(s, Connect(a, b, e, f)) && s.nodes[a].host.id == a && s.nodes[b].host.id == b
    ensures EndOk(Do(s, Connect(a, b, e, f)), e) && EndOk(Do(s, Connect(a, b, e, f)), f)
  {
  }

  lemma {:induction false} HostKnowsItsNode(s: State, n: NodeId)
    requires Inv(s) && n in s.nodes
    ensures s.nodes[n].host.id == n
  {
    hide EndOk, Minted;
    assert NodeOk(s, n);
  }

  lemma {:induction false} ConnectKeepsInv(s: State, a: NodeId, b: NodeId, e: EndId, f: EndId)
    requires Inv(s) && Enabled(s, Connect(a, b, e, f))
    ensures Inv(Do(s, Connect(a, b, e, f)))
  {
    hide EndOk, NodeOk, Minted, CollectedOk;
    var s2 := Do(s, Connect(a, b, e, f));
    HostKnowsItsNode(s, a);
    HostKnowsItsNode(s, b);
    OpenedEndOk(s, a, b, e, f);
    forall x | x in s2.ends ensures EndOk(s2, x) {
      if x != e && x != f {
        assert EndOk(s, x);
        ConnectKeepsEnd(s, a, b, e, f, x);
      }
    }
    KeptEverythingElse(s, s2);
  }

  lemma {:induction false} BreakingKeepsLogs(s: State, s2: State, x: EndId, ep: Endpoint, broken: bool, h: Host)
    requires LogsOk(s, x, ep, h) && s2.minted == s.minted && s2.collected == s.collected
    ensures LogsOk(s2, x, ep.(broken := broken), h)
  {
  }

  lemma {:induction false} BreakKeepsEnd(s: State, e: EndId, x: EndId)
    requires Enabled(s, Break(e)) && x in s.ends && EndOk(s, x)
    ensures EndOk(Do(s, Break(e)), x)
  {
    var s2 := Do(s, Break(e));
    KeptStrays(s.ends, s2.ends, x);
    BreakingKeepsLogs(s, s2, x, s.ends[x], s2.ends[x].broken, s.nodes[s.ends[x].node].host);
    hide StraysOk, LogsOk;
  }

  lemma {:induction false} BreakKeepsLogs(s: State, e: EndId)
    requires Enabled(s, Break(e))
    ensures EndsKept(s.ends, Do(s, Break(e)).ends)
    ensures forall x :: x in s.ends ==> Do(s, Break(e)).ends[x].phase == s.ends[x].phase
  {
  }

  lemma {:induction false} KeptEverythingElse(s: State, s2: State)
    requires Inv(s) && s2.nodes == s.nodes && s2.minted == s.minted && s2.collected == s.collected
    requires EndsKept(s.ends, s2.ends)
    requires forall e :: e in s.ends ==> s2.ends[e].phase == s.ends[e].phase
    ensures forall n {:trigger NodeOk(s2, n)} :: n in s2.nodes ==> NodeOk(s2, n)
    ensures Minted(s2)
    ensures forall e, c {:trigger CollectedOk(s2, e, c)} :: (e, c) in s2.collected ==> CollectedOk(s2, e, c)
  {
    forall n | n in s2.nodes ensures NodeOk(s2, n) {
      assert NodeOk(s, n);
      KeptNode(s, s2, n);
    }
    forall x, c | (x, c) in s2.collected ensures CollectedOk(s2, x, c) {
      assert CollectedOk(s, x, c);
      KeptCollected(s, s2, x, c);
    }
  }

  lemma {:induction false} BreakKeepsInv(s: State, e: EndId)
    requires Inv(s) && Enabled(s, Break(e))
    ensures Inv(Do(s, Break(e)))
  {
    hide EndOk, NodeOk, Minted, CollectedOk;
    var s2 := Do(s, Break(e));
    BreakKeepsLogs(s, e);
    forall x | x in s2.ends ensures EndOk(s2, x) {
      assert EndOk(s, x);
      BreakKeepsEnd(s, e, x);
    }
    KeptEverythingElse(s, s2);
  }

  /** A restart only closes endpoints of its own node, and raises that node's epoch. */
  lemma {:induction false} RestartKeepsLogs(s: State, n: NodeId, epoch: nat, x: EndId)
    requires Enabled(s, Restart(n, epoch)) && x in s.ends && s.ends[x].node in s.nodes
    requires s.nodes[s.ends[x].node].host.id == s.ends[x].node
    requires LogsOk(s, x, s.ends[x], s.nodes[s.ends[x].node].host)
    ensures var s2 := Do(s, Restart(n, epoch));
      LogsOk(s2, x, s2.ends[x], s2.nodes[s.ends[x].node].host)
  {
    hide StageOf;
  }

  lemma {:induction false} RestartKeepsEnd(s: State, n: NodeId, epoch: nat, x: EndId)
    requires Enabled(s, Restart(n, epoch)) && x in s.ends && EndOk(s, x)
    ensures EndOk(Do(s, Restart(n, epoch)), x)
  {
    var s2 := Do(s, Restart(n, epoch));
    KeptStrays(s.ends, s2.ends, x);
    RestartKeepsLogs(s, n, epoch, x);
    hide StraysOk, LogsOk;
    assert EndKept(s.ends[x], s2.ends[x]);
    assert LinkOk(s2, x) && SeatOk(s2, x);
  }

  lemma {:induction false} RestartKeepsOtherNode(s: State, n: NodeId, epoch: nat, k: NodeId)
    requires Enabled(s, Restart(n, epoch)) && k in s.nodes && k != n && NodeOk(s, k)
    ensures NodeOk(Do(s, Restart(n, epoch)), k)
  {
    hide NodeOk;
    var s2 := Do(s, Restart(n, epoch));
    assert EndsKept(s.ends, s2.ends);
    KeptNode(s, s2, k);
  }

  lemma {:induction false} FreshNodeOk(s: State, n: NodeId, epoch: nat)
    requires n != 0 && n in s.nodes && s.nodes[n] == FreshNode(n, epoch)
    ensures NodeOk(s, n)
  {
  }

  lemma {:induction false} RestartKeepsNode(s: State, n: NodeId, epoch: nat, k: NodeId)
    requires Enabled(s, Restart(n, epoch)) && NodeOk(s, n) && k in s.nodes && NodeOk(s, k)
    ensures NodeOk(Do(s, Restart(n, epoch)), k)
  {
    if k != n {
      RestartKeepsOtherNode(s, n, epoch, k);
    } else {
      var s2 := Do(s, Restart(n, epoch));
      hide RecordsOk, AppOk, SlotOk;
      FreshNodeOk(s2, n, epoch);
    }
  }

  lemma {:induction false} RestartKeepsCollected(s: State, n: NodeId, epoch: nat, x: EndId, c: Claim)
    requires Enabled(s, Restart(n, epoch)) && CollectedOk(s, x, c)
    ensures CollectedOk(Do(s, Restart(n, epoch)), x, c)
  {
  }

  lemma {:induction false} RestartKeepsMinted(s: State, n: NodeId, epoch: nat)
    requires Enabled(s, Restart(n, epoch)) && Minted(s)
    ensures Minted(Do(s, Restart(n, epoch)))
  {
  }

  lemma {:induction false} RestartKeepsInv(s: State, n: NodeId, epoch: nat)
    requires Inv(s) && Enabled(s, Restart(n, epoch))
    ensures Inv(Do(s, Restart(n, epoch)))
  {
    hide EndOk, NodeOk, Minted, CollectedOk;
    var s2 := Do(s, Restart(n, epoch));
    assert NodeOk(s, n);
    forall x | x in s2.ends ensures EndOk(s2, x) {
      assert EndOk(s, x);
      RestartKeepsEnd(s, n, epoch, x);
    }
    forall k | k in s2.nodes ensures NodeOk(s2, k) {
      assert NodeOk(s, k);
      RestartKeepsNode(s, n, epoch, k);
    }
    RestartKeepsMinted(s, n, epoch);
    forall x, c | (x, c) in s2.collected ensures CollectedOk(s2, x, c) {
      assert CollectedOk(s, x, c);
      RestartKeepsCollected(s, n, epoch, x, c);
    }
  }

  // ---------- The whole step relation ----------

  lemma {:induction false} EndStepKeepsInv(s: State, e: EndId, step: Step)
    requires Inv(s) && e in s.ends && EndEnabled(s, e, step)
    ensures var (ep2, nd2) := EndAfter(s, e, step); Inv(Touch(s, e, ep2, nd2))
  {
    PoisedBy(s, e);
    assert EndOk(s, e);
    assert NodeOk(s, s.ends[e].node);
    EndStepShape(s, e, step);
    EndStepKeepsStrays(s, e, step);
    hide EndAfter, StraysOk, Shape;
    var (ep2, nd2) := EndAfter(s, e, step);
    TouchKeepsInv(s, e, ep2, nd2);
  }

  lemma {:induction false} StepKeepsInv(s: State, step: Step)
    requires Inv(s) && Enabled(s, step)
    ensures Inv(Do(s, step))
  {
    hide Inv, EndAfter, NodeEnabled, NodeAfter;
    match step {
      case Connect(a, b, e, f) => ConnectKeepsInv(s, a, b, e, f);
      case Break(e) => BreakKeepsInv(s, e);
      case Restart(n, epoch) => RestartKeepsInv(s, n, epoch);
      case Learn(n, _, _, _, _) => LearnKeepsInv(s, n, step);
      case LookupLearned(n) => LookupKeepsInv(s, n);
      case Collect(n) => CollectKeepsInv(s, n);
      case Deliver(n) => DeliverKeepsInv(s, n);
      case _ => EndStepKeepsInv(s, step.e, step);
    }
  }

  lemma {:induction false} RunKeepsInv(s: State, steps: seq<Step>, t: State)
    requires Inv(s) && Run(s, steps, t)
    ensures Inv(t)
    decreases |steps|
  {
    hide Inv, Enabled, Do;
    if steps != [] {
      StepKeepsInv(s, steps[0]);
      RunKeepsInv(Do(s, steps[0]), steps[1..], t);
    }
  }

  lemma {:induction false} ReachableInv(t: State)
    requires Reachable(t)
    ensures Inv(t)
  {
    var s, steps :| Starting(s) && Run(s, steps, t);
    StartingInv(s);
    RunKeepsInv(s, steps, t);
  }
}
