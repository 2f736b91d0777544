/** A concrete run in which a learned record never reaches a connected, ready peer: it is
    learned after the snapshot was copied, and its slots are collected before the connection
    is marked ready. So the condition in `HeldExactlyWhenCovered` cannot be dropped.
 */
module NetworkGap {
  import opened Basics
  import opened HostState
  import opened Network
  import opened NetworkTheorems

  const MAC: Mac := Mac(0, 0, 0, 0, 0, 1)

  function Pair(a: Node, b: Node, x: Endpoint, y: Endpoint, minted: set<Claim>): State {
    State(map[1 := a, 2 := b], map[10 := x, 20 := y], minted, {})
  }

  /** Node `n` in epoch 1 whose slot 0 is owned by endpoint `e`. */
  function Seated(n: NodeId, e: EndId, ready: bool): Node {
    var idle := FreshNode(n, 1);
    idle.(slots := idle.slots[0 := Slot(e, true, ready)])
  }

  function At(n: NodeId, peer: EndId, phase: Phase, out: seq<Message>, heard: seq<Message>, copy: Option<Copy>): Endpoint {
    Endpoint(n, peer, 0, phase, false, out, heard, [], None, copy)
  }

  lemma {:induction false} RunExtends(s: State, steps: seq<Step>, t: State, step: Step)
    requires Run(s, steps, t) && Enabled(t, step)
    ensures Run(s, steps + [step], Do(t, step))
    decreases |steps|
  {
    hide Enabled, Do;
    if steps == [] {
      assert Run(Do(t, step), [], Do(t, step));
    } else {
      RunExtends(Do(s, steps[0]), steps[1..], t, step);
      assert (steps + [step])[1..] == steps[1..] + [step];
    }
  }

  lemma {:induction false} Reach(t: State, step: Step, t2: State)
    requires Reachable(t) && Enabled(t, step) && Do(t, step) == t2
    ensures Reachable(t2)
  {
    hide Enabled, Do, Run, Starting;
    var s, steps :| Starting(s) && Run(s, steps, t);
    RunExtends(s, steps, t, step);
  }

  /** A step of node 1's end of the connection. */
  lemma {:induction false} Near(a: Node, b: Node, x: Endpoint, y: Endpoint, minted: set<Claim>, step: Step, a2: Node, x2: Endpoint)
    requires Reachable(Pair(a, b, x, y, minted)) && EndEnabled(Pair(a, b, x, y, minted), 10, step)
    requires Enabled(Pair(a, b, x, y, minted), step) && !step.Connect? && !step.Break? && step.e == 10
    requires EndAfter(Pair(a, b, x, y, minted), 10, step) == (x2, a2) && x2.node == 1
    ensures Reachable(Pair(a2, b, x2, y, minted))
  {
    var t := Pair(a, b, x, y, minted);
    hide EndAfter;
    assert map[10 := x, 20 := y][10 := x2] == map[10 := x2, 20 := y];
    assert map[1 := a, 2 := b][1 := a2] == map[1 := a2, 2 := b];
    Reach(t, step, Touch(t, 10, x2, a2));
  }

  /** A step of node 2's end. */
  lemma {:induction false} Far(a: Node, b: Node, x: Endpoint, y: Endpoint, minted: set<Claim>, step: Step, b2: Node, y2: Endpoint)
    requires Reachable(Pair(a, b, x, y, minted)) && EndEnabled(Pair(a, b, x, y, minted), 20, step)
    requires Enabled(Pair(a, b, x, y, minted), step) && !step.Connect? && !step.Break? && step.e == 20
    requires EndAfter(Pair(a, b, x, y, minted), 20, step) == (y2, b2) && y2.node == 2
    ensures Reachable(Pair(a, b2, x, y2, minted))
  {
    var t := Pair(a, b, x, y, minted);
    hide EndAfter;
    assert map[10 := x, 20 := y][20 := y2] == map[10 := x, 20 := y2];
    assert map[1 := a, 2 := b][2 := b2] == map[1 := a, 2 := b2];
    Reach(t, step, Touch(t, 20, y2, b2));
  }

  const SAID: seq<Message> := [Hello(1), Request]
  const SERVED: seq<Message> := [Hello(1), Request, End]
  const COPIED: Option<Copy> := Some(Copy([], 1, 1))

  lemma {:induction false} Connected()
    ensures Reachable(Pair(FreshNode(1, 1), FreshNode(2, 1), Open(1, 20), Open(2, 10), {}))
  {
    var s := State(map[1 := FreshNode(1, 1), 2 := FreshNode(2, 1)], map[], {}, {});
    assert Starting(s) && Run(s, [], s);
    Reach(s, Connect(1, 2, 10, 20), Pair(FreshNode(1, 1), FreshNode(2, 1), Open(1, 20), Open(2, 10), {}));
  }

  lemma {:induction false} Acquired()
    ensures Reachable(Pair(Seated(1, 10, false), Seated(2, 20, false),
                           At(1, 20, Greeting, [], [], None), At(2, 10, Greeting, [], [], None), {}))
  {
    Connected();
    var a, b := Seated(1, 10, false), Seated(2, 20, false);
    var x, y := At(1, 20, Greeting, [], [], None), At(2, 10, Greeting, [], [], None);
    Near(FreshNode(1, 1), FreshNode(2, 1), Open(1, 20), Open(2, 10), {}, Acquire(10), a, x);
    Far(a, FreshNode(2, 1), x, Open(2, 10), {}, Acquire(20), b, y);
  }

  lemma {:induction false} Introduced()
    ensures Reachable(Pair(Seated(1, 10, false), Seated(2, 20, false),
                           At(1, 20, AwaitHello, [Hello(1)], [], None), At(2, 10, AwaitHello, [Hello(1)], [], None), {}))
  {
    Acquired();
    var a, b := Seated(1, 10, false), Seated(2, 20, false);
    var x0, y0 := At(1, 20, Greeting, [], [], None), At(2, 10, Greeting, [], [], None);
    var x1, y1 := At(1, 20, AwaitHello, [Hello(1)], [], None), At(2, 10, AwaitHello, [Hello(1)], [], None);
    assert x0.out + [Hello(1)] == x1.out && y0.out + [Hello(1)] == y1.out;
    Near(a, b, x0, y0, {}, SendHello(10), a, x1);
    Far(a, b, x1, y0, {}, SendHello(20), b, y1);
  }

  lemma {:induction false} Greeted()
    ensures Reachable(Pair(Seated(1, 10, false), Seated(2, 20, false),
                           At(1, 20, Requesting, [Hello(1)], [Hello(1)], None),
                           At(2, 10, Requesting, [Hello(1)], [Hello(1)], None), {}))
  {
    Introduced();
    var a, b := Seated(1, 10, false), Seated(2, 20, false);
    hide Seated;
    var x1, y1 := At(1, 20, AwaitHello, [Hello(1)], [], None), At(2, 10, AwaitHello, [Hello(1)], [], None);
    var x2 := At(1, 20, Requesting, [Hello(1)], [Hello(1)], None);
    var y2 := At(2, 10, Requesting, [Hello(1)], [Hello(1)], None);
    assert x1.heard + [Hello(1)] == x2.heard && y1.heard + [Hello(1)] == y2.heard;
    Near(a, b, x1, y1, {}, ReceiveHello(10), a, x2);
    Far(a, b, x2, y1, {}, ReceiveHello(20), b, y2);
  }

  lemma {:induction false} Asked()
    ensures Reachable(Pair(Seated(1, 10, false), Seated(2, 20, false),
                           At(1, 20, Exchanging, SAID, [Hello(1)], None),
                           At(2, 10, Exchanging, SAID, [Hello(1)], None), {}))
  {
    Greeted();
    var a, b := Seated(1, 10, false), Seated(2, 20, false);
    var x0 := At(1, 20, Requesting, [Hello(1)], [Hello(1)], None);
    var y0 := At(2, 10, Requesting, [Hello(1)], [Hello(1)], None);
    var x1, y1 := At(1, 20, Exchanging, SAID, [Hello(1)], None), At(2, 10, Exchanging, SAID, [Hello(1)], None);
    assert [Hello(1)] + [Request] == SAID;
    Near(a, b, x0, y0, {}, SendRequest(10), a, x1);
    Far(a, b, x1, y0, {}, SendRequest(20), b, y1);
  }

  lemma {:induction false} NearCopied(a: Node, b: Node, y: Endpoint)
    requires a == Seated(1, 10, false) && y.node == 2 && y.out == SAID
    requires Reachable(Pair(a, b, At(1, 20, Exchanging, SAID, [Hello(1)], None), y, {}))
    ensures Reachable(Pair(a, b, At(1, 20, Exchanging, SAID, SAID, COPIED).(serving := Some([])), y, {}))
  {
    assert [Hello(1)] + [Request] == SAID;
    Near(a, b, At(1, 20, Exchanging, SAID, [Hello(1)], None), y, {}, Receive(10, 0, []), a,
         At(1, 20, Exchanging, SAID, SAID, COPIED).(serving := Some([])));
  }

  lemma {:induction false} FarCopied(a: Node, b: Node, x: Endpoint)
    requires b == Seated(2, 20, false) && x.node == 1 && x.out == SERVED
    requires Reachable(Pair(a, b, x, At(2, 10, Exchanging, SAID, [Hello(1)], None), {}))
    ensures Reachable(Pair(a, b, x, At(2, 10, Exchanging, SAID, SAID, COPIED).(serving := Some([])), {}))
  {
    assert [Hello(1)] + [Request] == SAID;
    Far(a, b, x, At(2, 10, Exchanging, SAID, [Hello(1)], None), {}, Receive(20, 0, []), b,
        At(2, 10, Exchanging, SAID, SAID, COPIED).(serving := Some([])));
  }

  /** The empty copy of node 1 is served to the end by END alone. */
  lemma {:induction false} NearAnswered(a: Node, b: Node, y: Endpoint)
    requires y.node == 2
    requires Reachable(Pair(a, b, At(1, 20, Exchanging, SAID, SAID, COPIED).(serving := Some([])), y, {}))
    ensures Reachable(Pair(a, b, At(1, 20, Exchanging, SERVED, SAID, COPIED), y, {}))
  {
    assert SAID + [End] == SERVED;
    Near(a, b, At(1, 20, Exchanging, SAID, SAID, COPIED).(serving := Some([])), y, {}, SendEnd(10), a,
         At(1, 20, Exchanging, SERVED, SAID, COPIED));
  }

  lemma {:induction false} NearServed()
    ensures Reachable(Pair(Seated(1, 10, false), Seated(2, 20, false),
                           At(1, 20, Exchanging, SERVED, SAID, COPIED),
                           At(2, 10, Exchanging, SAID, [Hello(1)], None), {}))
  {
    Asked();
    var a, b := Seated(1, 10, false), Seated(2, 20, false);
    var y := At(2, 10, Exchanging, SAID, [Hello(1)], None);
    hide Seated;
    NearCopied(a, b, y);
    NearAnswered(a, b, y);
  }

  lemma {:induction false} Served()
    ensures Reachable(Pair(Seated(1, 10, false), Seated(2, 20, false),
                           At(1, 20, Exchanging, SERVED, SAID, COPIED),
                           At(2, 10, Exchanging, SERVED, SAID, COPIED), {}))
  {
    NearServed();
    var a, b := Seated(1, 10, false), Seated(2, 20, false);
    var x := At(1, 20, Exchanging, SERVED, SAID, COPIED);
    assert SAID + [End] == SERVED;
    FarCopied(a, b, x);
    hide Seated;
    Far(a, b, x, At(2, 10, Exchanging, SAID, SAID, COPIED).(serving := Some([])), {}, SendEnd(20), b,
        At(2, 10, Exchanging, SERVED, SAID, COPIED));
  }

  /** The record node 1 learns in the gap. */
  function Gapped(): Location {
    LocalRecord(Init(1, 1), MAC, 101, 1, 7)
  }

  function Taught(ready: bool): Node {
    Seated(1, 10, ready).(host := LearnLocal(Init(1, 1), MAC, 101, 1, 7))
  }

  lemma {:induction false} NobodyReady(slots: seq<Slot>, i: nat)
    requires i <= |slots| && forall k :: 0 <= k < |slots| ==> !slots[k].ready
    ensures ReadySlots(slots, i) == []
    decreases |slots| - i
  {
    if i < |slots| {
      NobodyReady(slots, i + 1);
    }
  }

  /** A step of node 1's application that leaves the connection alone. */
  lemma {:induction false} Local(a: Node, b: Node, x: Endpoint, y: Endpoint, minted: set<Claim>, step: Step, a2: Node, minted2: set<Claim>)
    requires Reachable(Pair(a, b, x, y, minted)) && NodeEnabled(Pair(a, b, x, y, minted), 1, step)
    requires step.n == 1
    requires NodeAfter(Pair(a, b, x, y, minted), 1, step)
      == Pair(a, b, x, y, minted).(nodes := Pair(a, b, x, y, minted).nodes[1 := a2], minted := minted2)
    ensures Reachable(Pair(a2, b, x, y, minted2))
  {
    assert map[1 := a, 2 := b][1 := a2] == map[1 := a2, 2 := b];
    Reach(Pair(a, b, x, y, minted), step, Pair(a2, b, x, y, minted2));
  }

  /** Learn, look up and collect while neither end is ready: there is nobody to send to. */
  lemma {:induction false} LearnedInTheGap()
    ensures Reachable(Pair(Taught(false), Seated(2, 20, false),
                           At(1, 20, Exchanging, SERVED, SAID, COPIED),
                           At(2, 10, Exchanging, SERVED, SAID, COPIED), {Gapped().ToClaim()}))
  {
    Served();
    var a0, a, b := Seated(1, 10, false), Taught(false), Seated(2, 20, false);
    var x, y := At(1, 20, Exchanging, SERVED, SAID, COPIED), At(2, 10, Exchanging, SERVED, SAID, COPIED);
    hide At, SERVED, SAID, COPIED;
    LearnFirst(a0, b, x, y);
    Local(a.(app := Learned(MAC, 1)), b, x, y, {Gapped().ToClaim()}, LookupLearned(1),
          a.(app := Found(Gapped())), {Gapped().ToClaim()});
    CollectNobody(a, b, x, y, {Gapped().ToClaim()});
  }

  lemma {:induction false} LearnFirst(a: Node, b: Node, x: Endpoint, y: Endpoint)
    requires Reachable(Pair(a, b, x, y, {})) && a == Seated(1, 10, false)
    ensures Reachable(Pair(Taught(false).(app := Learned(MAC, 1)), b, x, y, {Gapped().ToClaim()}))
  {
    var minted: set<Claim> := {};
    assert minted + {Gapped().ToClaim()} == {Gapped().ToClaim()};
    Local(a, b, x, y, {}, Learn(1, MAC, 101, 1, 7), Taught(false).(app := Learned(MAC, 1)), {Gapped().ToClaim()});
  }

  lemma {:induction false} CollectNobody(a: Node, b: Node, x: Endpoint, y: Endpoint, minted: set<Claim>)
    requires Reachable(Pair(a.(app := Found(Gapped())), b, x, y, minted)) && a.app.Idle?
    requires forall k :: 0 <= k < |a.slots| ==> !a.slots[k].ready
    ensures Reachable(Pair(a, b, x, y, minted))
  {
    NobodyReady(a.slots, 0);
    var s := Pair(a.(app := Found(Gapped())), b, x, y, minted);
    var none: seq<Target> := [];
    assert s.collected + (set t | t in none :: (t.end, Gapped().ToClaim())) == s.collected;
    Local(a.(app := Found(Gapped())), b, x, y, minted, Collect(1), a, minted);
  }

  lemma {:induction false} NearEnded(a: Node, b: Node, y: Endpoint, minted: set<Claim>)
    requires y.node == 2 && y.out == SERVED
    requires Reachable(Pair(a, b, At(1, 20, Exchanging, SERVED, SAID, COPIED), y, minted))
    ensures Reachable(Pair(a, b, At(1, 20, Replaying, SERVED, SERVED, COPIED), y, minted))
  {
    assert SAID + [End] == SERVED;
    Near(a, b, At(1, 20, Exchanging, SERVED, SAID, COPIED), y, minted, Receive(10, 0, []), a,
         At(1, 20, Replaying, SERVED, SERVED, COPIED));
  }

  lemma {:induction false} FarEnded(a: Node, b: Node, x: Endpoint, minted: set<Claim>)
    requires x.node == 1 && x.out == SERVED
    requires Reachable(Pair(a, b, x, At(2, 10, Exchanging, SERVED, SAID, COPIED), minted))
    ensures Reachable(Pair(a, b, x, At(2, 10, Replaying, SERVED, SERVED, COPIED), minted))
  {
    assert SAID + [End] == SERVED;
    Far(a, b, x, At(2, 10, Exchanging, SERVED, SAID, COPIED), minted, Receive(20, 0, []), b,
        At(2, 10, Replaying, SERVED, SERVED, COPIED));
  }

  lemma {:induction false} BothEnded()
    ensures Reachable(Pair(Taught(false), Seated(2, 20, false),
                           At(1, 20, Replaying, SERVED, SERVED, COPIED),
                           At(2, 10, Replaying, SERVED, SERVED, COPIED), {Gapped().ToClaim()}))
  {
    LearnedInTheGap();
    hide Taught, Seated, Gapped;
    NearEnded(Taught(false), Seated(2, 20, false), At(2, 10, Exchanging, SERVED, SAID, COPIED), {Gapped().ToClaim()});
    FarEnded(Taught(false), Seated(2, 20, false), At(1, 20, Replaying, SERVED, SERVED, COPIED), {Gapped().ToClaim()});
  }

  /** `a2` is `a` with slot 0 ready. */
  ghost predicate GetsReady(a: Node, a2: Node) {
    a.slots != [] && a2 == a.(slots := a.slots[0 := a.slots[0].(ready := true)])
  }

  lemma {:induction false} NearReady(a: Node, a2: Node, b: Node, y: Endpoint, minted: set<Claim>)
    requires GetsReady(a, a2) && y.node == 2
    requires Reachable(Pair(a, b, At(1, 20, Replaying, SERVED, SERVED, COPIED), y, minted))
    ensures Reachable(Pair(a2, b, At(1, 20, Steady, SERVED, SERVED, COPIED), y, minted))
  {
    hide SERVED, COPIED;
    Near(a, b, At(1, 20, Replaying, SERVED, SERVED, COPIED), y, minted, MarkReady(10), a2,
         At(1, 20, Steady, SERVED, SERVED, COPIED));
  }

  lemma {:induction false} FarReady(a: Node, b: Node, b2: Node, x: Endpoint, minted: set<Claim>)
    requires GetsReady(b, b2) && x.node == 1
    requires Reachable(Pair(a, b, x, At(2, 10, Replaying, SERVED, SERVED, COPIED), minted))
    ensures Reachable(Pair(a, b2, x, At(2, 10, Steady, SERVED, SERVED, COPIED), minted))
  {
    hide SERVED, COPIED;
    Far(a, b, x, At(2, 10, Replaying, SERVED, SERVED, COPIED), minted, MarkReady(20), b2,
        At(2, 10, Steady, SERVED, SERVED, COPIED));
  }

  lemma {:induction false} SeatedGetsReady(n: NodeId, e: EndId)
    ensures GetsReady(Seated(n, e, false), Seated(n, e, true))
    ensures GetsReady(Taught(false), Taught(true))
  {
    assert Seated(n, e, true).slots == Seated(n, e, false).slots[0 := Slot(e, true, true)];
    assert Seated(1, 10, true).slots == Seated(1, 10, false).slots[0 := Slot(10, true, true)];
  }

  lemma {:induction false} BothReady()
    ensures Reachable(Pair(Taught(true), Seated(2, 20, true),
                           At(1, 20, Steady, SERVED, SERVED, COPIED),
                           At(2, 10, Steady, SERVED, SERVED, COPIED), {Gapped().ToClaim()}))
  {
    BothEnded();
    SeatedGetsReady(2, 20);
    hide Taught, Seated, Gapped, GetsReady;
    NearReady(Taught(false), Taught(true), Seated(2, 20, false), At(2, 10, Replaying, SERVED, SERVED, COPIED), {Gapped().ToClaim()});
    FarReady(Taught(true), Seated(2, 20, false), Seated(2, 20, true), At(1, 20, Steady, SERVED, SERVED, COPIED), {Gapped().ToClaim()});
  }

  /** "Every learn reaches every connected peer" is false: a reachable state with one live,
      drained, ready connection and nothing under way, where node 1 owns a record that node 2
      does not have. */
  lemma {:induction false} SomeLearnReachesNobody() returns (s: State)
    ensures Reachable(s) && Live(s, 10) && Drained(s, 10) && NoSlotReuse(s)
    ensures s.nodes.Keys == {1, 2} && s.nodes[1].app.Idle? && s.nodes[2].app.Idle?
    ensures s.ends[10].node == 1 && s.ends[s.ends[10].peer].node == 2
    ensures MAC in s.nodes[1].host.table && s.nodes[1].host.table[MAC].origin == 1
    ensures s.nodes[2].host.table == map[]
    ensures !Covered(s, 10, s.nodes[1].host.table[MAC].ToClaim())
  {
    BothReady();
    s := Pair(Taught(true), Seated(2, 20, true), At(1, 20, Steady, SERVED, SERVED, COPIED),
              At(2, 10, Steady, SERVED, SERVED, COPIED), {Gapped().ToClaim()});
  }
}
