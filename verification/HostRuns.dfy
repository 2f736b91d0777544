/** Properties of one table over whole runs: the life cycle of a MAC, the meaning of the
    statistics, and independence of the order in which remote records arrive.
 */
module HostRuns {
  import opened Basics
  import opened HostState

  /** One lock region of the table module. Live updates and snapshot entries are both `Remote`. */
  datatype Op =
    | Learn(mac: Mac, dpid: nat, port: nat, now: nat)
    | Remote(loc: Location, now: nat)

  function Step(h: Host, op: Op): Host {
    match op
    case Learn(mac, dpid, port, now) => LearnLocal(h, mac, dpid, port, now)
    case Remote(loc, now) => ApplyRemote(h, loc, now)
  }

  function Run(h: Host, ops: seq<Op>): Host
    decreases |ops|
  {
    if ops == [] then h else Step(Run(h, ops[..|ops| - 1]), ops[|ops| - 1])
  }

  lemma {:induction false} RunSnoc(h: Host, ops: seq<Op>, op: Op)
    ensures Run(h, ops + [op]) == Step(Run(h, ops), op)
  {
  }

  lemma {:induction false} RunKeepsOk(h: Host, ops: seq<Op>)
    requires Ok(h)
    ensures Ok(Run(h, ops)) && Run(h, ops).id == h.id && Run(h, ops).epoch == h.epoch
    decreases |ops|
  {
    if ops != [] {
      var before := Run(h, ops[..|ops| - 1]);
      RunKeepsOk(h, ops[..|ops| - 1]);
      match ops[|ops| - 1]
      case Learn(mac, dpid, port, now) => LearnKeepsOk(before, mac, dpid, port, now);
      case Remote(loc, now) => ApplyKeepsOk(before, loc, now);
    }
  }

  // ---------- Life cycle of one MAC ----------

  /** `b` is a possible later value of the record that was `a`, at node `id`: absent, then one
      remote origin with rising versions, then this node's own with rising versions. */
  predicate Follows(id: nat, a: Option<Location>, b: Option<Location>) {
    match a
    case None => true
    case Some(r) =>
      && b.Some?
      && (
        || (r.origin != id && b.value.origin == id)
        || (b.value.origin == r.origin && (b == a || VersionAt(r).Below(VersionAt(b.value)))))
  }

  lemma {:induction false} FollowsTransitive(id: nat, a: Option<Location>, b: Option<Location>, c: Option<Location>)
    requires Follows(id, a, b) && Follows(id, b, c)
    ensures Follows(id, a, c)
  {
  }

  lemma {:induction false} StepFollows(h: Host, op: Op, mac: Mac)
    requires Ok(h)
    ensures Follows(h.id, Lookup(h, mac), Lookup(Step(h, op), mac))
  {
  }

  /** Between any two points of any run. */
  lemma {:induction false} LifeCycle(h: Host, ops: seq<Op>, i: nat, j: nat, mac: Mac)
    requires Ok(h) && i <= j <= |ops|
    ensures Follows(h.id, Lookup(Run(h, ops[..i]), mac), Lookup(Run(h, ops[..j]), mac))
    decreases j
  {
    if i < j {
      LifeCycle(h, ops, i, j - 1, mac);
      RunKeepsOk(h, ops[..j - 1]);
      assert ops[..j] == ops[..j - 1] + [ops[j - 1]];
      RunSnoc(h, ops[..j - 1], ops[j - 1]);
      StepFollows(Run(h, ops[..j - 1]), ops[j - 1], mac);
      FollowsTransitive(h.id, Lookup(Run(h, ops[..i]), mac), Lookup(Run(h, ops[..j - 1]), mac), Lookup(Run(h, ops[..j]), mac));
    }
  }

  /** A learned record survives any number of remote applies and snapshot imports untouched. */
  lemma {:induction false} LearnedRecordStands(h: Host, mac: Mac, dpid: nat, port: nat, now: nat, ops: seq<Op>)
    requires Ok(h) && LearnResult(h, mac) != 0
    requires forall i :: 0 <= i < |ops| ==> ops[i].Remote?
    ensures Lookup(Run(LearnLocal(h, mac, dpid, port, now), ops), mac) == Some(LocalRecord(h, mac, dpid, port, now))
    decreases |ops|
  {
    var h1 := LearnLocal(h, mac, dpid, port, now);
    LearnKeepsOk(h, mac, dpid, port, now);
    RunKeepsOk(h1, ops);
    if ops != [] {
      LearnedRecordStands(h, mac, dpid, port, now, ops[..|ops| - 1]);
      RunKeepsOk(h1, ops[..|ops| - 1]);
    }
  }

  // ---------- Statistics ----------

  /** How many applies of a run from `h` ended in verdict `v`. */
  function Verdicts(h: Host, ops: seq<Op>, v: Verdict): nat
    decreases |ops|
  {
    if ops == [] then 0
    else
      var last := ops[|ops| - 1];
      Verdicts(h, ops[..|ops| - 1], v)
      + if last.Remote? && Judge(Run(h, ops[..|ops| - 1]), last.loc) == v then 1 else 0
  }

  function Applies(ops: seq<Op>): nat {
    if ops == [] then 0 else Applies(ops[..|ops| - 1]) + if ops[|ops| - 1].Remote? then 1 else 0
  }

  /** Learns that took a fresh table slot. */
  function FreshLearns(h: Host, ops: seq<Op>): nat
    decreases |ops|
  {
    if ops == [] then 0
    else
      var last := ops[|ops| - 1];
      var before := Run(h, ops[..|ops| - 1]);
      FreshLearns(h, ops[..|ops| - 1])
      + if last.Learn? && last.mac !in before.table && !Full(before) then 1 else 0
  }

  /** Learns that silently replaced another origin's record. */
  function Takeovers(h: Host, ops: seq<Op>): nat
    decreases |ops|
  {
    if ops == [] then 0
    else
      var last := ops[|ops| - 1];
      var before := Run(h, ops[..|ops| - 1]);
      Takeovers(h, ops[..|ops| - 1])
      + if last.Learn? && last.mac in before.table && before.table[last.mac].isLocal == 0 then 1 else 0
  }

  function RemoteMacs(h: Host): set<Mac> {
    set m | m in h.table && h.table[m].isLocal == 0
  }

  lemma {:induction false} CountersAddUp(h: Host, ops: seq<Op>)
    ensures Verdicts(h, ops, New) + Verdicts(h, ops, Updated) + Verdicts(h, ops, Duplicate)
         + Verdicts(h, ops, StaleRejected) + Verdicts(h, ops, OwnershipConflict) + Verdicts(h, ops, Invalid)
         == Applies(ops)
    decreases |ops|
  {
    if ops != [] {
      CountersAddUp(h, ops[..|ops| - 1]);
    }
  }

  lemma {:induction false} CountersMeasureTheTable(id: nat, epoch: nat, ops: seq<Op>)
    requires id != 0
    ensures var h := Run(Init(id, epoch), ops);
      && |h.table| == Verdicts(Init(id, epoch), ops, New) + FreshLearns(Init(id, epoch), ops)
      && |RemoteMacs(h)| == Verdicts(Init(id, epoch), ops, New) - Takeovers(Init(id, epoch), ops)
    decreases |ops|
  {
    var h0 := Init(id, epoch);
    if ops == [] {
      assert RemoteMacs(h0) == {};
    } else {
      var op := ops[|ops| - 1];
      var before := Run(h0, ops[..|ops| - 1]);
      CountersMeasureTheTable(id, epoch, ops[..|ops| - 1]);
      RunKeepsOk(h0, ops[..|ops| - 1]);
      StepMovesCounts(before, op);
    }
  }

  lemma {:induction false} StepMovesCounts(h: Host, op: Op)
    requires Ok(h)
    ensures |Step(h, op).table| == |h.table| +
      if (op.Remote? && Judge(h, op.loc) == New) || (op.Learn? && op.mac !in h.table && !Full(h)) then 1 else 0
    ensures |RemoteMacs(Step(h, op))| == |RemoteMacs(h)|
      + (if op.Remote? && Judge(h, op.loc) == New then 1 else 0)
      - (if op.Learn? && op.mac in h.table && h.table[op.mac].isLocal == 0 then 1 else 0)
  {
    match op
    case Learn(mac, dpid, port, now) => LearnMovesCounts(h, mac, dpid, port, now);
    case Remote(loc, now) => ApplyMovesCounts(h, loc, now);
  }

  lemma {:induction false} LearnMovesCounts(h: Host, mac: Mac, dpid: nat, port: nat, now: nat)
    requires Ok(h)
    ensures var h' := LearnLocal(h, mac, dpid, port, now);
      && |h'.table| == |h.table| + (if mac !in h.table && !Full(h) then 1 else 0)
      && |RemoteMacs(h')| == |RemoteMacs(h)| - (if mac in h.table && h.table[mac].isLocal == 0 then 1 else 0)
  {
    var h' := LearnLocal(h, mac, dpid, port, now);
    SizeAfterInsert(h.table, mac, LocalRecord(h, mac, dpid, port, now));
    hide Ok;
    if mac in h.table && h.table[mac].isLocal == 0 {
      assert RemoteMacs(h') == RemoteMacs(h) - {mac};
    } else {
      assert RemoteMacs(h') == RemoteMacs(h);
    }
  }

  lemma {:induction false} ApplyMovesCounts(h: Host, loc: Location, now: nat)
    requires Ok(h)
    ensures var h' := ApplyRemote(h, loc, now);
      && |h'.table| == |h.table| + (if Judge(h, loc) == New then 1 else 0)
      && |RemoteMacs(h')| == |RemoteMacs(h)| + (if Judge(h, loc) == New then 1 else 0)
  {
    var h' := ApplyRemote(h, loc, now);
    if loc.mac in h'.table {
      SizeAfterInsert(h.table, loc.mac, h'.table[loc.mac]);
    }
    hide Ok;
    if Judge(h, loc) == New {
      assert RemoteMacs(h') == RemoteMacs(h) + {loc.mac};
    } else {
      assert RemoteMacs(h') == RemoteMacs(h);
    }
  }

  // ---------- Order independence ----------

  datatype Arrival = Arrival(loc: Location, now: nat)

  function ApplyAll(h: Host, us: seq<Arrival>): Host
    decreases |us|
  {
    if us == [] then h
    else ApplyRemote(ApplyAll(h, us[..|us| - 1]), us[|us| - 1].loc, us[|us| - 1].now)
  }

  function Claims(us: seq<Arrival>): set<Claim>
    decreases |us|
  {
    if us == [] then {} else Claims(us[..|us| - 1]) + {us[|us| - 1].loc.ToClaim()}
  }

  function Known(h: Host): set<Claim> {
    set m | m in h.table :: h.table[m].ToClaim()
  }

  function Macs(all: set<Claim>): set<Mac> {
    set c | c in all :: c.mac
  }

  /** Each MAC has one origin, equal versions mean equal claims, and everything fits. */
  ghost predicate Coherent(all: set<Claim>) {
    && (forall c, d :: c in all && d in all && c.mac == d.mac ==>
          c.origin == d.origin && (VersionOf(c) == VersionOf(d) ==> c == d))
    && |Macs(all)| <= MAX_HOST_ENTRIES
  }

  ghost predicate AllRemote(h: Host, us: seq<Arrival>) {
    forall i :: 0 <= i < |us| ==> us[i].loc.origin != 0 && us[i].loc.origin != h.id
  }

  /** `h` records for `m` the newest claim in `all` about it, or nothing when there is none. */
  ghost predicate HoldsTop(h: Host, m: Mac, all: set<Claim>) {
    if m in h.table then
      && h.table[m].mac == m
      && h.table[m].ToClaim() in all
      && forall c :: c in all && c.mac == m ==> VersionOf(c).AtMost(VersionAt(h.table[m]))
    else
      forall c :: c in all ==> c.mac != m
  }

  ghost predicate HoldsMaximum(h: Host, all: set<Claim>) {
    forall m :: HoldsTop(h, m, all)
  }

  lemma {:induction false} SubsetSize<T>(a: set<T>, b: set<T>)
    requires a <= b
    ensures |a| <= |b|
  {
    assert b == a + (b - a);
  }

  lemma {:induction false} RoomFor(h: Host, m: Mac, seen: set<Claim>, all: set<Claim>)
    requires HoldsMaximum(h, seen) && seen <= all && |Macs(all)| <= MAX_HOST_ENTRIES
    requires m !in h.table && m in Macs(all)
    ensures !Full(h)
  {
    forall k | k in h.table ensures k in Macs(all) {
      assert HoldsTop(h, k, seen);
    }
    SubsetSize(h.table.Keys + {m}, Macs(all));
    assert |h.table| == |h.table.Keys|;
  }

  lemma {:induction false} ApplyKeepsMaximum(h: Host, u: Location, now: nat, seen: set<Claim>, all: set<Claim>)
    requires u.origin != 0 && u.origin != h.id
    requires Coherent(all) && seen + {u.ToClaim()} <= all
    requires HoldsMaximum(h, seen)
    ensures HoldsMaximum(ApplyRemote(h, u, now), seen + {u.ToClaim()})
  {
    var h' := ApplyRemote(h, u, now);
    assert u.ToClaim() in all;
    if u.mac !in h.table {
      RoomFor(h, u.mac, seen, all);
    }
    forall m ensures HoldsTop(h', m, seen + {u.ToClaim()}) {
      assert HoldsTop(h, m, seen);
    }
  }

  lemma {:induction false} KnownIsMaximum(h: Host)
    requires Ok(h)
    ensures HoldsMaximum(h, Known(h))
  {
  }

  /** Folding the apply rule keeps, for every MAC, the newest claim seen. */
  lemma {:induction false} FoldIsMaximum(h: Host, us: seq<Arrival>, all: set<Claim>)
    requires Ok(h) && AllRemote(h, us)
    requires Coherent(all) && Known(h) + Claims(us) <= all
    ensures HoldsMaximum(ApplyAll(h, us), Known(h) + Claims(us)) && ApplyAll(h, us).id == h.id
    decreases |us|
  {
    if us == [] {
      KnownIsMaximum(h);
      assert Known(h) + Claims(us) == Known(h);
    } else {
      var init, u := us[..|us| - 1], us[|us| - 1];
      FoldIsMaximum(h, init, all);
      ApplyKeepsMaximum(ApplyAll(h, init), u.loc, u.now, Known(h) + Claims(init), all);
      assert Known(h) + Claims(us) == Known(h) + Claims(init) + {u.loc.ToClaim()};
    }
  }

  /** Any two arrival sequences carrying the same claims, in any order and with any
      repetition, leave the same claim on record for every MAC. */
  lemma {:induction false} OrderIndependence(h: Host, us: seq<Arrival>, vs: seq<Arrival>, m: Mac)
    requires Ok(h) && AllRemote(h, us) && AllRemote(h, vs)
    requires Claims(us) == Claims(vs) && Coherent(Known(h) + Claims(us))
    ensures m in ApplyAll(h, us).table <==> m in ApplyAll(h, vs).table
    ensures m in ApplyAll(h, us).table ==>
      ApplyAll(h, us).table[m].ToClaim() == ApplyAll(h, vs).table[m].ToClaim()
  {
    var all := Known(h) + Claims(us);
    FoldIsMaximum(h, us, all);
    FoldIsMaximum(h, vs, all);
    TopIsUnique(ApplyAll(h, us), ApplyAll(h, vs), m, all);
  }

  lemma {:induction false} TopIsUnique(a: Host, b: Host, m: Mac, all: set<Claim>)
    requires Coherent(all) && HoldsTop(a, m, all) && HoldsTop(b, m, all)
    ensures m in a.table <==> m in b.table
    ensures m in a.table ==> a.table[m].ToClaim() == b.table[m].ToClaim()
  {
  }
}
