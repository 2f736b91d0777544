/** Packets travelling along the line of switches: every copy, every crossing, whatever the
    tables say; and where packets end up when the tables point at the owner.
 */
module ChainForwarding {
  import opened Basics
  import opened ChainTopology
  import opened Decisions
  import opened HostState

  /** A copy waiting at switch `at`, having arrived on `port`. */
  datatype Copy = Copy(at: nat, port: nat)

  /** One use of the link between switches `link` and `link + 1`. */
  datatype Crossing = Crossing(link: nat, up: bool)

  datatype Net = Net(pending: seq<Copy>, log: seq<Crossing>, delivered: seq<nat>)

  /** Output to the ingress port or to a port that is not there does nothing; FLOOD and NONE
      both become a flood out of every other port. */
  function Outputs(n: nat, c: Copy, decision: nat): (ports: seq<nat>)
    ensures forall p :: p in ports ==> p != c.port && p != 0 && Neighbour(n, c.at, p).Some?
  {
    if Installs(decision) then OneOutput(n, c, decision)
    else OneOutput(n, c, 1) + OneOutput(n, c, 2) + OneOutput(n, c, 3)
  }

  function OneOutput(n: nat, c: Copy, port: nat): (ports: seq<nat>)
    ensures forall p :: p in ports ==> p == port && p != c.port && p != 0 && Neighbour(n, c.at, p).Some?
  {
    if port != c.port && Neighbour(n, c.at, port).Some? then [port] else []
  }

  /** One copy leaving switch `at` through `port`. */
  function Emit(n: nat, s: Net, at: nat, port: nat): Net
    requires Neighbour(n, at, port).Some?
  {
    match Neighbour(n, at, port).value
    case ToHost(h) => s.(delivered := s.delivered + [h])
    case ToSwitch(next, q) =>
      s.(pending := s.pending + [Copy(next, q)],
         log := s.log + [if at < next then Crossing(at, true) else Crossing(next, false)])
  }

  function EmitAll(n: nat, s: Net, at: nat, ports: seq<nat>): Net
    requires forall p :: p in ports ==> Neighbour(n, at, p).Some?
    decreases |ports|
  {
    if ports == [] then s else EmitAll(n, Emit(n, s, at, ports[0]), at, ports[1..])
  }

  /** Switch `s.pending[k].at` decides about the copy waiting there. */
  function Forward(n: nat, s: Net, k: nat, decision: nat): Net
    requires k < |s.pending|
  {
    var c := s.pending[k];
    EmitAll(n, s.(pending := s.pending[..k] + s.pending[k + 1..]), c.at, Outputs(n, c, decision))
  }

  datatype Move = Move(k: nat, decision: nat)

  ghost predicate Run(n: nat, s: Net, moves: seq<Move>, t: Net)
    decreases |moves|
  {
    if moves == [] then s == t
    else moves[0].k < |s.pending| && Run(n, Forward(n, s, moves[0].k, moves[0].decision), moves[1..], t)
  }

  /** Host `start` sends one packet. */
  function Sent(start: nat): Net {
    Net([Copy(start, HOST_PORT)], [], [])
  }

  // ---------- The shape of every reachable state ----------

  /** The two copies that can be under way: the one moving up and the one moving down. */
  function UpCopy(hi: nat): Copy { Copy(hi, 2) }

  function DownCopy(lo: nat): Copy { Copy(lo, if lo == 0 then 2 else 3) }

  /** Switches lo..hi have seen the packet. `first`: the sender's own switch has not decided;
      `up`, `down`: a copy waits at hi, at lo. */
  datatype Frontier = Frontier(lo: nat, hi: nat, first: bool, up: bool, down: bool)

  ghost predicate Waiting(start: nat, pending: seq<Copy>, f: Frontier) {
    if f.first then pending == [Copy(start, HOST_PORT)]
    else
      || pending == (if f.up then [UpCopy(f.hi)] else []) + (if f.down then [DownCopy(f.lo)] else [])
      || pending == (if f.down then [DownCopy(f.lo)] else []) + (if f.up then [UpCopy(f.hi)] else [])
  }

  ghost predicate Framed(n: nat, start: nat, f: Frontier) {
    && f.lo <= start <= f.hi < n
    && (f.first ==> !f.up && !f.down && f.lo == f.hi == start)
    && (f.up ==> start < f.hi) && (f.down ==> f.lo < start)
  }

  /** The shape of every reachable state. */
  ghost predicate Shape(n: nat, start: nat, s: Net, f: Frontier) {
    && Framed(n, start, f)
    && Waiting(start, s.pending, f)
    && (f.first ==> s == Sent(start))
    && |s.log| == f.hi - f.lo
    && CrossedOnce(start, s.log, f.lo, f.hi)
    && DeliveredOnce(start, s.delivered, f)
  }

  /** No link is used twice, and each only away from the sender. */
  ghost predicate CrossedOnce(start: nat, log: seq<Crossing>, lo: nat, hi: nat) {
    && (forall i :: 0 <= i < |log| ==>
      lo <= log[i].link < hi && (log[i].up <==> start <= log[i].link))
    && (forall i, j :: 0 <= i < j < |log| ==> log[i].link != log[j].link)
  }

  /** No host receives the packet twice, and the sender never gets it back. */
  ghost predicate DeliveredOnce(start: nat, delivered: seq<nat>, f: Frontier) {
    && (forall i :: 0 <= i < |delivered| ==>
      && delivered[i] != start && f.lo <= delivered[i] <= f.hi
      && (f.up ==> delivered[i] != f.hi) && (f.down ==> delivered[i] != f.lo))
    && (forall i, j :: 0 <= i < j < |delivered| ==> delivered[i] != delivered[j])
  }

  // ---------- One decision ----------

  lemma {:induction false} EmitConcat(n: nat, s: Net, at: nat, ps: seq<nat>, qs: seq<nat>)
    requires forall p :: p in ps + qs ==> Neighbour(n, at, p).Some?
    ensures forall p :: p in ps ==> p in ps + qs
    ensures forall p :: p in qs ==> p in ps + qs
    ensures EmitAll(n, s, at, ps + qs) == EmitAll(n, EmitAll(n, s, at, ps), at, qs)
    decreases |ps|
  {
    if ps == [] {
      assert ps + qs == qs;
    } else {
      assert (ps + qs)[0] == ps[0] && (ps + qs)[1..] == ps[1..] + qs;
      EmitConcat(n, Emit(n, s, at, ps[0]), at, ps[1..], qs);
    }
  }

  /** Whether a copy with decision `d` goes out of `port`. */
  predicate Goes(n: nat, c: Copy, d: nat, port: nat) {
    port != c.port && Neighbour(n, c.at, port).Some? && (Installs(d) ==> d == port)
  }

  function EmitIf(n: nat, s: Net, at: nat, port: nat, goes: bool): Net
    requires goes ==> Neighbour(n, at, port).Some?
  {
    if goes then Emit(n, s, at, port) else s
  }

  /** Whatever the decision, at most one copy per port leaves, in port order. */
  lemma {:induction false} OnePerPort(n: nat, s: Net, c: Copy, d: nat)
    requires c.at < n
    ensures var s1 := EmitIf(n, s, c.at, 1, Goes(n, c, d, 1));
      var s2 := EmitIf(n, s1, c.at, 2, Goes(n, c, d, 2));
      EmitAll(n, s, c.at, Outputs(n, c, d)) == EmitIf(n, s2, c.at, 3, Goes(n, c, d, 3))
  {
    var a, b, e := OneOutput(n, c, 1), OneOutput(n, c, 2), OneOutput(n, c, 3);
    if !Installs(d) {
      EmitConcat(n, s, c.at, a + b, e);
      EmitConcat(n, s, c.at, a, b);
    }
  }

  lemma {:induction false} ForwardFirst(n: nat, start: nat, d: nat) returns (up: bool, down: bool)
    requires start < n
    ensures up <==> start + 1 < n && (Installs(d) ==> d == if start == 0 then 2 else 3)
    ensures down <==> 0 < start && (Installs(d) ==> d == 2)
    ensures Forward(n, Sent(start), 0, d) == Net(
      (if down then [DownCopy(start - 1)] else []) + (if up then [UpCopy(start + 1)] else []),
      (if down then [Crossing(start - 1, false)] else []) + (if up then [Crossing(start, true)] else []), [])
  {
    OnePerPort(n, Net([], [], []), Copy(start, HOST_PORT), d);
    up := start + 1 < n && (Installs(d) ==> d == if start == 0 then 2 else 3);
    down := 0 < start && (Installs(d) ==> d == 2);
    assert Sent(start).pending[..0] + Sent(start).pending[1..] == [];
  }

  lemma {:induction false} ForwardUp(n: nat, s: Net, k: nat, d: nat) returns (host: bool, on: bool)
    requires k < |s.pending| && 0 < s.pending[k].at < n && s.pending[k] == UpCopy(s.pending[k].at)
    ensures host <==> (Installs(d) ==> d == HOST_PORT)
    ensures on <==> s.pending[k].at + 1 < n && (Installs(d) ==> d == 3)
    ensures var at := s.pending[k].at;
      Forward(n, s, k, d) == Net(
        s.pending[..k] + s.pending[k + 1..] + (if on then [UpCopy(at + 1)] else []),
        s.log + (if on then [Crossing(at, true)] else []),
        s.delivered + (if host then [at] else []))
  {
    var c := s.pending[k];
    OnePerPort(n, s.(pending := s.pending[..k] + s.pending[k + 1..]), c, d);
    host := Installs(d) ==> d == HOST_PORT;
    on := c.at + 1 < n && (Installs(d) ==> d == 3);
    assert Neighbour(n, c.at, 1) == Some(ToHost(c.at));
  }

  lemma {:induction false} ForwardDown(n: nat, s: Net, k: nat, d: nat) returns (host: bool, on: bool)
    requires k < |s.pending| && s.pending[k].at + 1 < n && s.pending[k] == DownCopy(s.pending[k].at)
    ensures host <==> (Installs(d) ==> d == HOST_PORT)
    ensures on <==> 0 < s.pending[k].at && (Installs(d) ==> d == 2)
    ensures var at := s.pending[k].at;
      Forward(n, s, k, d) == Net(
        s.pending[..k] + s.pending[k + 1..] + (if on then [DownCopy(at - 1)] else []),
        s.log + (if on then [Crossing(at - 1, false)] else []),
        s.delivered + (if host then [at] else []))
  {
    var c := s.pending[k];
    OnePerPort(n, s.(pending := s.pending[..k] + s.pending[k + 1..]), c, d);
    host := Installs(d) ==> d == HOST_PORT;
    on := 0 < c.at && (Installs(d) ==> d == 2);
    assert Neighbour(n, c.at, 1) == Some(ToHost(c.at));
  }

  // ---------- Loop freedom, whatever the tables say ----------

  /** What deciding `d` about copy `c` does to the frontier. */
  ghost function Advance(n: nat, start: nat, f: Frontier, c: Copy, d: nat): Frontier
    requires Framed(n, start, f)
  {
    if f.first then
      var up := start + 1 < n && (Installs(d) ==> d == if start == 0 then 2 else 3);
      var down := 0 < start && (Installs(d) ==> d == 2);
      Frontier(if down then start - 1 else start, if up then start + 1 else start, false, up, down)
    else if f.up && c == UpCopy(f.hi) then
      var on := f.hi + 1 < n && (Installs(d) ==> d == 3);
      f.(hi := if on then f.hi + 1 else f.hi, up := on)
    else
      var on := 0 < f.lo && (Installs(d) ==> d == 2);
      f.(lo := if on then f.lo - 1 else f.lo, down := on)
  }

  /** Whether the host at the deciding switch gets a copy. */
  predicate HostGets(first: bool, d: nat) {
    !first && (Installs(d) ==> d == HOST_PORT)
  }

  lemma {:induction false} StepKeepsShape(n: nat, start: nat, s: Net, k: nat, d: nat, f: Frontier)
    requires Shape(n, start, s, f) && k < |s.pending|
    ensures Shape(n, start, Forward(n, s, k, d), Advance(n, start, f, s.pending[k], d))
    ensures Forward(n, s, k, d).delivered == s.delivered + if HostGets(f.first, d) then [s.pending[k].at] else []
    ensures var s2 := Forward(n, s, k, d); 1 + |s2.pending| - |s2.log| == |s.pending| - |s.log|
  {
    if f.first {
      FirstKeepsShape(n, start, s, d, f);
    } else if f.up && s.pending[k] == UpCopy(f.hi) {
      UpKeepsShape(n, start, s, k, d, f);
    } else {
      DownKeepsShape(n, start, s, k, d, f);
    }
  }

  lemma {:induction false} FirstKeepsShape(n: nat, start: nat, s: Net, d: nat, f: Frontier)
    requires Shape(n, start, s, f) && f.first
    ensures Shape(n, start, Forward(n, s, 0, d), Advance(n, start, f, s.pending[0], d))
    ensures Forward(n, s, 0, d).delivered == []
    ensures var s2 := Forward(n, s, 0, d); |s2.pending| == |s2.log|
  {
    hide Forward, Outputs, EmitAll, Neighbour, Installs, Shape;
    FirstCopy(n, start, s, f);
    var up, down := ForwardFirst(n, start, d);
    OneOrTwoCopies(n, start, up, down);
  }

  lemma {:induction false} FirstCopy(n: nat, start: nat, s: Net, f: Frontier)
    requires Shape(n, start, s, f) && f.first
    ensures start < n && s == Sent(start)
  {
  }

  /** After the sender's own switch: at most one copy each way, each over its first link. */
  lemma {:induction false} OneOrTwoCopies(n: nat, start: nat, up: bool, down: bool)
    requires start < n && (up ==> start + 1 < n) && (down ==> 0 < start)
    ensures var s := Net(
        (if down then [DownCopy(start - 1)] else []) + (if up then [UpCopy(start + 1)] else []),
        (if down then [Crossing(start - 1, false)] else []) + (if up then [Crossing(start, true)] else []), []);
      Shape(n, start, s, Frontier(if down then start - 1 else start, if up then start + 1 else start, false, up, down))
  {
  }

  lemma {:induction false} UpKeepsShape(n: nat, start: nat, s: Net, k: nat, d: nat, f: Frontier)
    requires Shape(n, start, s, f) && k < |s.pending| && !f.first && f.up && s.pending[k] == UpCopy(f.hi)
    ensures Shape(n, start, Forward(n, s, k, d), Advance(n, start, f, s.pending[k], d))
    ensures Forward(n, s, k, d).delivered == s.delivered + if HostGets(false, d) then [f.hi] else []
    ensures var s2 := Forward(n, s, k, d); 1 + |s2.pending| - |s2.log| == |s.pending| - |s.log|
  {
    hide Forward, Outputs, EmitAll, Neighbour, Installs;
    var host, on := ForwardUp(n, s, k, d);
    assert s.pending[..k] + s.pending[k + 1..] == if f.down then [DownCopy(f.lo)] else [];
  }

  lemma {:induction false} DownKeepsShape(n: nat, start: nat, s: Net, k: nat, d: nat, f: Frontier)
    requires Shape(n, start, s, f) && k < |s.pending| && !f.first && !(f.up && s.pending[k] == UpCopy(f.hi))
    ensures Shape(n, start, Forward(n, s, k, d), Advance(n, start, f, s.pending[k], d))
    ensures Forward(n, s, k, d).delivered == s.delivered + if HostGets(false, d) then [f.lo] else []
    ensures var s2 := Forward(n, s, k, d); 1 + |s2.pending| - |s2.log| == |s.pending| - |s.log|
    ensures s.pending[k].at == f.lo
  {
    hide Forward, Outputs, EmitAll, Neighbour, Installs;
    var host, on := ForwardDown(n, s, k, d);
    assert s.pending[..k] + s.pending[k + 1..] == if f.up then [UpCopy(f.hi)] else [];
  }

  /** Every decision consumes one copy, and every copy but the first crossed one link. */
  lemma {:induction false} RunKeepsShape(n: nat, start: nat, s: Net, moves: seq<Move>, t: Net, f: Frontier)
    returns (f2: Frontier)
    requires Shape(n, start, s, f) && Run(n, s, moves, t)
    ensures Shape(n, start, t, f2)
    ensures |moves| + |t.pending| - |t.log| == |s.pending| - |s.log|
    decreases |moves|
  {
    hide CrossedOnce, DeliveredOnce, Waiting, Forward, Advance;
    if moves == [] {
      f2 := f;
    } else {
      var k, d := moves[0].k, moves[0].decision;
      StepKeepsShape(n, start, s, k, d, f);
      f2 := RunKeepsShape(n, start, Forward(n, s, k, d), moves[1..], t, Advance(n, start, f, s.pending[k], d));
    }
  }

  function Begin(start: nat): Frontier {
    Frontier(start, start, true, false, false)
  }

  lemma {:induction false} SentShape(n: nat, start: nat)
    requires start < n
    ensures Shape(n, start, Sent(start), Begin(start))
  {
  }

  /** Whatever each switch decides, at whatever moment: no link carries the packet twice in
      either direction, no copy turns back, no host gets it twice, the sender never gets it
      back, and it all ends within n decisions. */
  lemma {:induction false} NoLoops(n: nat, start: nat, moves: seq<Move>, t: Net)
    requires start < n && Run(n, Sent(start), moves, t)
    ensures forall i, j :: 0 <= i < j < |t.log| ==> t.log[i].link != t.log[j].link
    ensures forall i :: 0 <= i < |t.log| ==> (t.log[i].up <==> start <= t.log[i].link)
    ensures forall i, j :: 0 <= i < j < |t.delivered| ==> t.delivered[i] != t.delivered[j]
    ensures start !in t.delivered
    ensures |moves| + |t.pending| == |t.log| + 1 <= n
  {
    SentShape(n, start);
    hide Run, Forward;
    var f := RunKeepsShape(n, start, Sent(start), moves, t, Begin(start));
  }

  // ---------- Delivery ----------

  /** The port of switch `i` on the shortest way to host `target`. */
  function Correct(n: nat, i: nat, target: nat): nat {
    if i == target then HOST_PORT else if target < i then ChainPorts(i + 1, n).0 else ChainPorts(i + 1, n).1
  }

  /** Every decision of the run is the correct one or, when `orFlood`, a flood. */
  ghost predicate Advised(n: nat, s: Net, moves: seq<Move>, target: nat, orFlood: bool)
    decreases |moves|
  {
    moves != [] ==>
      && moves[0].k < |s.pending|
      && (var d := moves[0].decision; d == Correct(n, s.pending[moves[0].k].at, target) || (orFlood && !Installs(d)))
      && Advised(n, Forward(n, s, moves[0].k, moves[0].decision), moves[1..], target, orFlood)
  }

  /** The packet has arrived, or a copy is still heading for the target. */
  ghost predicate Heading(s: Net, f: Frontier, target: nat) {
    f.first || target in s.delivered || (f.up && f.hi <= target) || (f.down && target <= f.lo)
  }

  lemma {:induction false} StepKeepsHeading(n: nat, start: nat, s: Net, k: nat, d: nat, f: Frontier, target: nat)
    requires Shape(n, start, s, f) && k < |s.pending|
    requires target < n && target != start && Heading(s, f, target)
    requires d == Correct(n, s.pending[k].at, target) || !Installs(d)
    ensures Heading(Forward(n, s, k, d), Advance(n, start, f, s.pending[k], d), target)
  {
    hide Forward;
    StepKeepsShape(n, start, s, k, d, f);
    if !f.first && !(f.up && s.pending[k] == UpCopy(f.hi)) {
      DownKeepsShape(n, start, s, k, d, f);
    }
  }

  lemma {:induction false} RunKeepsHeading(n: nat, start: nat, s: Net, moves: seq<Move>, t: Net, f: Frontier, target: nat)
    requires Shape(n, start, s, f) && Run(n, s, moves, t)
    requires target < n && target != start && Heading(s, f, target)
    requires Advised(n, s, moves, target, true)
    ensures t.pending == [] ==> target in t.delivered
    decreases |moves|
  {
    hide Forward, Advance;
    if moves != [] {
      var k, d := moves[0].k, moves[0].decision;
      StepKeepsShape(n, start, s, k, d, f);
      StepKeepsHeading(n, start, s, k, d, f, target);
      RunKeepsHeading(n, start, Forward(n, s, k, d), moves[1..], t, Advance(n, start, f, s.pending[k], d), target);
    }
  }

  /** Where each switch either floods or points at the target, the target gets the packet. */
  lemma {:induction false} ReachesTarget(n: nat, start: nat, moves: seq<Move>, t: Net, target: nat)
    requires start < n && target < n && start != target
    requires Run(n, Sent(start), moves, t) && Advised(n, Sent(start), moves, target, true) && t.pending == []
    ensures target in t.delivered
  {
    SentShape(n, start);
    hide Run, Forward, Advised, Shape;
    RunKeepsHeading(n, start, Sent(start), moves, t, Begin(start), target);
  }

  function Distance(i: nat, j: nat): nat {
    if i < j then j - i else i - j
  }

  /** How far a packet has come on the shortest way. */
  ghost predicate OnTheWay(s: Net, f: Frontier, start: nat, target: nat) {
    || f.first
    || (start < target && f.lo == start && f.up && !f.down && f.hi <= target && s.delivered == [])
    || (target < start && f.hi == start && f.down && !f.up && target <= f.lo && s.delivered == [])
    || (!f.up && !f.down && s.delivered == [target] && f.hi - f.lo == Distance(start, target))
  }

  lemma {:induction false} StepStaysOnTheWay(n: nat, start: nat, s: Net, k: nat, d: nat, f: Frontier, target: nat)
    requires Shape(n, start, s, f) && k < |s.pending|
    requires target < n && target != start && OnTheWay(s, f, start, target)
    requires d == Correct(n, s.pending[k].at, target)
    ensures OnTheWay(Forward(n, s, k, d), Advance(n, start, f, s.pending[k], d), start, target)
  {
    hide Forward;
    StepKeepsShape(n, start, s, k, d, f);
  }

  lemma {:induction false} RunStaysOnTheWay(n: nat, start: nat, s: Net, moves: seq<Move>, t: Net, f: Frontier, target: nat)
    requires Shape(n, start, s, f) && Run(n, s, moves, t)
    requires target < n && target != start && OnTheWay(s, f, start, target)
    requires Advised(n, s, moves, target, false)
    ensures |t.pending| <= 1
    ensures t.pending == [] ==> t.delivered == [target] && |t.log| == Distance(start, target)
    decreases |moves|
  {
    hide Forward, Advance;
    if moves != [] {
      var k, d := moves[0].k, moves[0].decision;
      StepKeepsShape(n, start, s, k, d, f);
      StepStaysOnTheWay(n, start, s, k, d, f, target);
      RunStaysOnTheWay(n, start, Forward(n, s, k, d), moves[1..], t, Advance(n, start, f, s.pending[k], d), target);
    }
  }

  // ---------- What the tables have to say ----------

  /** The configuration of the node at position `i`. */
  function NodeConfig(chain: seq<nat>, i: nat, dpid: nat): Config
    requires i < |chain|
  {
    var (lower, higher) := ChainPorts(i + 1, |chain|);
    Config(chain[i], dpid, HOST_PORT, chain, lower, higher)
  }

  predicate DistinctIds(chain: seq<nat>) {
    forall i, j :: 0 <= i < j < |chain| ==> chain[i] != chain[j]
  }

  /** The table records the node at `target` as the owner of `dst`, on its host port. */
  ghost predicate Knows(h: Host, dst: Mac, owner: nat) {
    dst in h.table && h.table[dst].origin == owner && (h.id == owner ==> h.table[dst].port == HOST_PORT)
  }

  lemma {:induction false} KnowingPointsAtOwner(chain: seq<nat>, i: nat, dpid: nat, h: Host, dst: Mac, target: nat)
    requires DistinctIds(chain) && i < |chain| && target < |chain| && Ok(h) && h.id == chain[i]
    ensures Knows(h, dst, chain[target]) ==> Decide(NodeConfig(chain, i, dpid), h, dst) == Correct(|chain|, i, target)
    ensures dst !in h.table ==> !Installs(Decide(NodeConfig(chain, i, dpid), h, dst))
  {
  }

  /** The decisions are those of the handler, each on the table its switch has at that moment. */
  ghost predicate DecidedBy(chain: seq<nat>, dst: Mac, s: Net, moves: seq<Move>, tables: seq<Host>)
    requires |tables| == |moves|
    decreases |moves|
  {
    moves != [] ==>
      && moves[0].k < |s.pending|
      && (var at := s.pending[moves[0].k].at;
        && at < |chain| && Ok(tables[0]) && tables[0].id == chain[at]
        && exists dpid :: moves[0].decision == Decide(NodeConfig(chain, at, dpid), tables[0], dst))
      && DecidedBy(chain, dst, Forward(|chain|, s, moves[0].k, moves[0].decision), moves[1..], tables[1..])
  }

  lemma {:induction false} TablesAdvise(chain: seq<nat>, dst: Mac, s: Net, moves: seq<Move>, tables: seq<Host>, target: nat, orFlood: bool)
    requires DistinctIds(chain) && target < |chain| && |tables| == |moves| && DecidedBy(chain, dst, s, moves, tables)
    requires forall i :: 0 <= i < |tables| ==> Knows(tables[i], dst, chain[target]) || (orFlood && dst !in tables[i].table)
    ensures Advised(|chain|, s, moves, target, orFlood)
    decreases |moves|
  {
    if moves != [] {
      var at := s.pending[moves[0].k].at;
      var dpid :| moves[0].decision == Decide(NodeConfig(chain, at, dpid), tables[0], dst);
      KnowingPointsAtOwner(chain, at, dpid, tables[0], dst, target);
      TablesAdvise(chain, dst, Forward(|chain|, s, moves[0].k, moves[0].decision), moves[1..], tables[1..], target, orFlood);
    }
  }

  /** Once every switch the packet visits records its owner, the owner's host gets it, nobody
      else does, and it takes exactly the distance between the two switches. */
  lemma {:induction false} DeliveredOnTheShortestPath(chain: seq<nat>, dst: Mac, start: nat, target: nat, moves: seq<Move>, tables: seq<Host>, t: Net)
    requires DistinctIds(chain) && start < |chain| && target < |chain| && start != target
    requires Run(|chain|, Sent(start), moves, t) && t.pending == []
    requires |tables| == |moves| && DecidedBy(chain, dst, Sent(start), moves, tables)
    requires forall i :: 0 <= i < |tables| ==> Knows(tables[i], dst, chain[target])
    ensures t.delivered == [target]
    ensures |t.log| == Distance(start, target)
    ensures |moves| == |t.log| + 1
  {
    SentShape(|chain|, start);
    hide Run, Forward, Advised, DecidedBy, Shape, Knows;
    TablesAdvise(chain, dst, Sent(start), moves, tables, target, false);
    RunStaysOnTheWay(|chain|, start, Sent(start), moves, t, Begin(start), target);
    NoLoops(|chain|, start, moves, t);
  }

  /** While some switches have not heard of `dst`, its owner still gets the packet, once. */
  lemma {:induction false} DeliveredWhilePartlyUnknown(chain: seq<nat>, dst: Mac, start: nat, target: nat, moves: seq<Move>, tables: seq<Host>, t: Net)
    requires DistinctIds(chain) && start < |chain| && target < |chain| && start != target
    requires Run(|chain|, Sent(start), moves, t) && t.pending == []
    requires |tables| == |moves| && DecidedBy(chain, dst, Sent(start), moves, tables)
    requires forall i :: 0 <= i < |tables| ==> Knows(tables[i], dst, chain[target]) || dst !in tables[i].table
    ensures multiset(t.delivered)[target] == 1
  {
    hide Run, Forward, Advised, DecidedBy, Knows;
    TablesAdvise(chain, dst, Sent(start), moves, tables, target, true);
    ReachesTarget(|chain|, start, moves, t, target);
    NoLoops(|chain|, start, moves, t);
    OnceInDistinct(t.delivered, target);
  }

  lemma {:induction false} OnceInDistinct(s: seq<nat>, x: nat)
    requires forall i, j :: 0 <= i < j < |s| ==> s[i] != s[j]
    ensures multiset(s)[x] == if x in s then 1 else 0
    decreases |s|
  {
    if s != [] {
      OnceInDistinct(s[1..], x);
      assert s == [s[0]] + s[1..];
      assert s[0] !in s[1..];
    }
  }

  /** A packet for a MAC nobody has heard of reaches every host but its sender, once each. */
  lemma {:induction false} FloodReachesEveryHost(n: nat, start: nat, moves: seq<Move>, t: Net)
    requires start < n && Run(n, Sent(start), moves, t) && t.pending == []
    requires forall i :: 0 <= i < |moves| ==> !Installs(moves[i].decision)
    ensures forall h: nat :: h in t.delivered <==> h < n && h != start
    ensures |t.log| == n - 1
  {
    SentShape(n, start);
    hide Run, Forward, Advised;
    forall h: nat | h < n && h != start ensures h in t.delivered {
      FloodsAdvise(n, Sent(start), moves, h, t);
      ReachesTarget(n, start, moves, t, h);
    }
    var f := RunKeepsShape(n, start, Sent(start), moves, t, Begin(start));
    assert 0 != start ==> 0 in t.delivered;
    assert n - 1 != start ==> n - 1 in t.delivered;
    assert f.lo == 0 && f.hi == n - 1;
  }

  lemma {:induction false} FloodsAdvise(n: nat, s: Net, moves: seq<Move>, target: nat, t: Net)
    requires Run(n, s, moves, t)
    requires forall i :: 0 <= i < |moves| ==> !Installs(moves[i].decision)
    ensures Advised(n, s, moves, target, true)
    decreases |moves|
  {
    if moves != [] {
      FloodsAdvise(n, Forward(n, s, moves[0].k, moves[0].decision), moves[1..], target, t);
    }
  }
}
