/** What one NO_RULE event of a learning node puts on the wires when nothing comes between its
    steps: the record just minted, once to every slot that is ready, and nothing anywhere else.
 */
module NetworkDelivery {
  import opened Basics
  import opened HostState
  import opened Network
  import opened NetworkInvariant

  /** What is still to be written by the disseminate call under way. */
  function Pending(app: App): seq<Target> {
    if app.Sending? then app.targets else []
  }

  /** The targets name slots held by different open connections. */
  ghost predicate Held(s: State, n: NodeId, ts: seq<Target>)
    requires n in s.nodes
  {
    && (forall i :: 0 <= i < |ts| ==>
          ts[i].slot < |s.nodes[n].slots| && s.nodes[n].slots[ts[i].slot] == Slot(ts[i].end, true, true) && ts[i].end in s.ends)
    && (forall i, j :: 0 <= i < j < |ts| ==> ts[i].end != ts[j].end)
  }

  ghost predicate Targeted(ts: seq<Target>, e: EndId) {
    exists i :: 0 <= i < |ts| && ts[i].end == e
  }

  /** The endpoint after one more update, unless its connection is dead. */
  function Updated(ep: Endpoint, e: EndId, loc: Location): Endpoint {
    if ep.broken then ep else ep.(out := ep.out + [Update(loc, e)])
  }

  /** From `s` to `t` these targets got the record and nothing else changed. */
  ghost predicate Reached(s: State, t: State, n: NodeId, ts: seq<Target>, loc: Location)
    requires n in s.nodes
  {
    && t.nodes == s.nodes[n := s.nodes[n].(app := Idle)] && t.ends.Keys == s.ends.Keys
    && t.minted == s.minted && t.collected == s.collected
    && forall e :: e in s.ends ==> t.ends[e] == if Targeted(ts, e) then Updated(s.ends[e], e, loc) else s.ends[e]
  }

  lemma {:induction false} ReachedFirst(s: State, s2: State, t: State, n: NodeId, ts: seq<Target>, loc: Location)
    requires n in s.nodes && ts != [] && Held(s, n, ts)
    requires n in s2.nodes
    requires s2 == s.(nodes := s.nodes[n := s2.nodes[n]], ends := s.ends[ts[0].end := Updated(s.ends[ts[0].end], ts[0].end, loc)])
    requires s2.nodes[n].(app := Idle) == s.nodes[n].(app := Idle)
    requires Reached(s2, t, n, ts[1..], loc)
    ensures Reached(s, t, n, ts, loc)
  {
    assert forall i :: 0 <= i < |ts[1..]| ==> ts[1..][i] == ts[i + 1];
    forall e | e in s.ends ensures t.ends[e] == if Targeted(ts, e) then Updated(s.ends[e], e, loc) else s.ends[e] {
      assert e in s2.ends;
      if e == ts[0].end {
        assert Targeted(ts, e) && !Targeted(ts[1..], e);
      } else if Targeted(ts, e) {
        var i :| 0 <= i < |ts| && ts[i].end == e;
        assert ts[1..][i - 1].end == e;
      }
    }
  }

  /** The writes of one disseminate call. */
  lemma {:induction false} DeliverAll(s: State, n: NodeId, loc: Location) returns (steps: seq<Step>, t: State)
    requires n in s.nodes && s.nodes[n].app == (if Pending(s.nodes[n].app) == [] then Idle else Sending(loc, Pending(s.nodes[n].app)))
    requires Held(s, n, Pending(s.nodes[n].app))
    ensures Run(s, steps, t) && Reached(s, t, n, Pending(s.nodes[n].app), loc)
    ensures |steps| == |Pending(s.nodes[n].app)|
    decreases |Pending(s.nodes[n].app)|
  {
    var ts := Pending(s.nodes[n].app);
    if ts == [] {
      steps, t := [], s;
      assert s.nodes[n := s.nodes[n]] == s.nodes;
    } else {
      var s2 := DeliverOne(s, n, loc, ts);
      HeldRest(s, s2, n, ts);
      hide Held, Reached, Do, Enabled;
      var rest;
      rest, t := DeliverAll(s2, n, loc);
      ReachedFirst(s, s2, t, n, ts, loc);
      steps := [Deliver(n)] + rest;
      assert steps[1..] == rest;
    }
  }

  lemma {:induction false} DeliverOne(s: State, n: NodeId, loc: Location, ts: seq<Target>) returns (s2: State)
    requires n in s.nodes && ts != [] && s.nodes[n].app == Sending(loc, ts) && Held(s, n, ts)
    ensures Enabled(s, Deliver(n)) && s2 == Do(s, Deliver(n)) && n in s2.nodes
    ensures s2 == s.(nodes := s.nodes[n := s2.nodes[n]], ends := s.ends[ts[0].end := Updated(s.ends[ts[0].end], ts[0].end, loc)])
    ensures s2.nodes[n] == s.nodes[n].(app := if ts[1..] == [] then Idle else Sending(loc, ts[1..]))
  {
    s2 := Do(s, Deliver(n));
    assert s.ends[ts[0].end := s.ends[ts[0].end]] == s.ends;
  }

  lemma {:induction false} HeldRest(s: State, s2: State, n: NodeId, ts: seq<Target>)
    requires n in s.nodes && n in s2.nodes && ts != [] && Held(s, n, ts)
    requires s2.nodes[n].slots == s.nodes[n].slots && s.ends.Keys <= s2.ends.Keys
    ensures Held(s2, n, ts[1..])
  {
    assert forall i :: 0 <= i < |ts[1..]| ==> ts[1..][i] == ts[i + 1];
  }

  /** What the collection finds is held by different open connections. */
  lemma {:induction false} ReadyAreHeld(s: State, n: NodeId)
    requires n in s.nodes && NodeOk(s, n)
    ensures Held(s, n, ReadySlots(s.nodes[n].slots, 0))
  {
    hide RecordsOk, AppOk;
    var slots := s.nodes[n].slots;
    var ts := ReadySlots(slots, 0);
    TargetsRise(slots, 0);
    forall i | 0 <= i < |ts|
      ensures ts[i].slot < |slots| && slots[ts[i].slot] == Slot(ts[i].end, true, true)
      ensures ts[i].end in s.ends && s.ends[ts[i].end].slot == ts[i].slot
    {
      assert ts[i] in ts;
      assert SlotOk(s, n, ts[i].slot);
    }
  }

  /** The open connection `e` holds a ready slot of `n`. */
  ghost predicate Ready(s: State, n: NodeId, e: EndId)
    requires n in s.nodes
  {
    exists k: nat :: k < |s.nodes[n].slots| && s.nodes[n].slots[k] == Slot(e, true, true)
  }

  lemma {:induction false} ReadyIsTargeted(s: State, n: NodeId, e: EndId)
    requires n in s.nodes
    ensures Targeted(ReadySlots(s.nodes[n].slots, 0), e) <==> Ready(s, n, e)
  {
    var slots := s.nodes[n].slots;
    var ts := ReadySlots(slots, 0);
    if Targeted(ts, e) {
      var i :| 0 <= i < |ts| && ts[i].end == e;
      assert ts[i] in ts;
      assert slots[ts[i].slot] == Slot(e, true, true);
    }
    if Ready(s, n, e) {
      var k: nat :| k < |slots| && slots[k] == Slot(e, true, true);
      assert Target(k, e) in ts;
    }
  }

  /** The learn, the lookup and the collection, one after the other. */
  lemma {:induction false} LearnAndCollect(s: State, n: NodeId, mac: Mac, dpid: nat, port: nat, now: nat, loc: Location)
    returns (first: seq<Step>, t: State)
    requires n in s.nodes && s.nodes[n].app.Idle? && s.nodes[n].host.id == n
    requires mac in s.nodes[n].host.table || |s.nodes[n].host.table| < 4096
    requires loc == Location(mac, n, dpid, port, s.nodes[n].host.epoch, s.nodes[n].host.nextSequence, 1, now, now)
    requires s.nodes[n].host.nextSequence > 0
    ensures first == [Learn(n, mac, dpid, port, now), LookupLearned(n), Collect(n)]
    ensures var h, ts := s.nodes[n].host, ReadySlots(s.nodes[n].slots, 0);
      && t.nodes == s.nodes[n := s.nodes[n].(app := if ts == [] then Idle else Sending(loc, ts),
           host := h.(nextSequence := h.nextSequence + 1, table := h.table[mac := loc]))]
      && t.ends == s.ends && t.minted == s.minted + {loc.ToClaim()}
    ensures forall rest, u :: Run(t, rest, u) ==> Run(s, first + rest, u)
  {
    hide ReadySlots;
    first := [Learn(n, mac, dpid, port, now), LookupLearned(n), Collect(n)];
    var s1 := Do(s, first[0]);
    assert s1.nodes[n].app == Learned(mac, loc.sequence) && s1.nodes[n].host.table[mac] == loc;
    var s2 := Do(s1, first[1]);
    assert s2.nodes[n].app == Found(loc);
    t := Do(s2, first[2]);
    hide Do, Enabled;
    forall rest, u | Run(t, rest, u) ensures Run(s, first + rest, u) {
      FirstSteps(s, s1, s2, t, first, rest, u);
    }
  }

  lemma {:induction false} FirstSteps(s: State, s1: State, s2: State, t: State, first: seq<Step>, rest: seq<Step>, u: State)
    requires |first| == 3 && Run(t, rest, u)
    requires Enabled(s, first[0]) && s1 == Do(s, first[0])
    requires Enabled(s1, first[1]) && s2 == Do(s1, first[1])
    requires Enabled(s2, first[2]) && t == Do(s2, first[2])
    ensures Run(s, first + rest, u)
  {
    hide Do, Enabled;
    var steps := first + rest;
    assert steps[1..][1..][1..] == rest;
    assert Run(s2, steps[1..][1..], u);
    assert Run(s1, steps[1..], u);
  }

  lemma {:induction false} NodeStands(s: State, n: NodeId)
    requires Reachable(s) && n in s.nodes
    ensures s.nodes[n].host.id == n && s.nodes[n].host.nextSequence > 0
    ensures Held(s, n, ReadySlots(s.nodes[n].slots, 0))
  {
    ReachableInv(s);
    hide Reachable, EndOk, Minted;
    assert NodeOk(s, n);
    hide Inv;
    ReadyAreHeld(s, n);
  }

  /** Left alone, an idle node that learns a host sends the record it minted once to every
      ready peer whose connection is alive, touches no other endpoint, and is idle again. */
  lemma {:induction false} LearnReachesReadyPeers(s: State, n: NodeId, mac: Mac, dpid: nat, port: nat, now: nat)
    returns (steps: seq<Step>, t: State)
    requires Reachable(s) && n in s.nodes && s.nodes[n].app.Idle?
    requires mac in s.nodes[n].host.table || |s.nodes[n].host.table| < 4096
    ensures Run(s, steps, t) && steps != [] && steps[0] == Learn(n, mac, dpid, port, now)
    ensures var h := s.nodes[n].host;
      var loc := Location(mac, n, dpid, port, h.epoch, h.nextSequence, 1, now, now);
      && t.nodes == s.nodes[n := s.nodes[n].(host := h.(nextSequence := h.nextSequence + 1, table := h.table[mac := loc]))]
      && t.ends.Keys == s.ends.Keys && t.minted == s.minted + {loc.ToClaim()}
      && forall e :: e in s.ends ==>
           t.ends[e] == if Ready(s, n, e) && !s.ends[e].broken then s.ends[e].(out := s.ends[e].out + [Update(loc, e)]) else s.ends[e]
  {
    hide Reachable, ReadySlots, Run, Do, Enabled, Ready, Targeted;
    var h := s.nodes[n].host;
    var loc := Location(mac, n, dpid, port, h.epoch, h.nextSequence, 1, now, now);
    var ts := ReadySlots(s.nodes[n].slots, 0);
    NodeStands(s, n);
    var first, s3 := LearnAndCollect(s, n, mac, dpid, port, now, loc);
    assert Pending(s3.nodes[n].app) == ts;
    HeldThere(s, s3, n, ts);
    hide Held, Pending;
    var rest;
    rest, t := DeliverAll(s3, n, loc);
    steps := first + rest;
    forall e | e in s.ends
      ensures t.ends[e] == if Ready(s, n, e) && !s.ends[e].broken then s.ends[e].(out := s.ends[e].out + [Update(loc, e)]) else s.ends[e]
    {
      ReadyIsTargeted(s, n, e);
    }
  }

  lemma {:induction false} HeldThere(s: State, s2: State, n: NodeId, ts: seq<Target>)
    requires n in s.nodes && n in s2.nodes && Held(s, n, ts)
    requires s2.nodes[n].slots == s.nodes[n].slots && s.ends.Keys <= s2.ends.Keys
    ensures Held(s2, n, ts)
  {
  }
}
