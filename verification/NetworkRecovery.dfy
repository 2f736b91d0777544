/** Agreement of a quiet mesh, and recovery of updates lost with an aborted connection. */
module NetworkRecovery {
  import HostRuns
  import opened HostState
  import opened Network
  import opened NetworkInvariant
  import opened NetworkTheorems

  // ---------- Agreement ----------

  ghost predicate Connects(s: State, e: EndId, o: NodeId, n: NodeId) {
    && Live(s, e) && Drained(s, e)
    && s.ends[e].node == o && s.ends[s.ends[e].peer].node == n
  }

  /** Every record `o` owns was learned before `e`'s snapshot copy or collected with `e` ready. */
  ghost predicate CoversAll(s: State, e: EndId, o: NodeId)
    requires e in s.ends && o in s.nodes
  {
    var h := s.nodes[o].host;
    forall m :: m in h.table && h.table[m].origin == o ==> Covered(s, e, h.table[m].ToClaim())
  }

  /** All pairs connected, ready and drained, nobody learning, and no learn fell in the gap. */
  ghost predicate QuietMesh(s: State) {
    && (forall n :: n in s.nodes ==> s.nodes[n].app.Idle?)
    && forall o, n :: o in s.nodes && n in s.nodes && o != n ==> exists e :: Connects(s, e, o, n) && CoversAll(s, e, o)
  }

  ghost predicate SingleClaimant(s: State, m: Mac) {
    forall c, d :: c in s.minted && d in s.minted && c.mac == m && d.mac == m ==> c.origin == d.origin
  }

  ghost predicate FitsEveryTable(s: State) {
    |HostRuns.Macs(s.minted)| <= MAX_HOST_ENTRIES
  }

  /** When every MAC ever claimed fits, a full table already has this one. */
  lemma {:induction false} FullTableHasIt(s: State, n: NodeId, m: Mac, c: Claim)
    requires Inv(s) && n in s.nodes && FitsEveryTable(s) && c in s.minted && c.mac == m
    requires m !in s.nodes[n].host.table
    ensures !Full(s.nodes[n].host)
  {
    var h := s.nodes[n].host;
    NodeFactsHold(s, n);
    forall k | k in h.table ensures k in HostRuns.Macs(s.minted) {
      TableClaimMinted(s, n, k);
    }
    HostRuns.SubsetSize(h.table.Keys + {m}, HostRuns.Macs(s.minted));
    assert |h.table| == |h.table.Keys|;
  }

  /** Every node of a quiet mesh records the owner's current claim for every single-claimant
      MAC its owner still holds. */
  lemma {:induction false} QuietMeshAgrees(s: State, o: NodeId, m: Mac, n: NodeId)
    requires Reachable(s) && QuietMesh(s) && SingleClaimant(s, m) && FitsEveryTable(s)
    requires o in s.nodes && n in s.nodes
    requires m in s.nodes[o].host.table && s.nodes[o].host.table[m].origin == o
    ensures m in s.nodes[n].host.table
      && s.nodes[n].host.table[m].ToClaim() == s.nodes[o].host.table[m].ToClaim()
  {
    if n != o {
      ReachableInv(s);
      var e :| Connects(s, e, o, n) && CoversAll(s, e, o);
      ExactCoverage(s, e, m);
      SettledIsHeld(s, o, m, n);
      NodeFactsHold(s, o);
      NodeFactsHold(s, n);
      TableClaimMinted(s, o, m);
      if m in s.nodes[n].host.table {
        TableClaimMinted(s, n, m);
      } else {
        FullTableHasIt(s, n, m, s.nodes[o].host.table[m].ToClaim());
      }
    }
  }

  ghost predicate LeadsTo(s: State, e: EndId, n: NodeId)
    requires e in s.ends
  {
    s.ends[e].peer in s.ends && s.ends[s.ends[e].peer].node == n
  }

  /** The exact condition, where no other connection into the far node carried this very claim
      and neither a conflict, capacity nor a stale write intervenes: the far node holds the
      owner's current record if and only if the learn escaped the gap between snapshot copy and
      readiness. Earlier connections and other nodes may have brought it anything else. */
  lemma {:induction false} HeldExactlyWhenCovered(s: State, e: EndId, m: Mac)
    requires Reachable(s) && Live(s, e) && Drained(s, e)
    requires s.ends[e].node in s.nodes && s.nodes[s.ends[e].node].app.Idle?
    requires var h := s.nodes[s.ends[e].node].host; m in h.table && h.table[m].origin == s.ends[e].node
    requires forall x :: x in s.ends[e].out && x.Update? ==> x.via == e
    requires forall x :: x in s.ends && x != e && LeadsTo(s, x, s.ends[s.ends[e].peer].node) ==>
      !Carried(s.ends[x].out, s.nodes[s.ends[e].node].host.table[m].ToClaim())
    requires s.ends[s.ends[e].peer].node in s.nodes
    requires var h := s.nodes[s.ends[s.ends[e].peer].node].host;
      if m in h.table then h.table[m].origin == s.ends[e].node else !Full(h)
    ensures var r := s.nodes[s.ends[e].node].host.table[m];
      var h := s.nodes[s.ends[s.ends[e].peer].node].host;
      (m in h.table && h.table[m].ToClaim() == r.ToClaim()) <==> Covered(s, e, r.ToClaim())
  {
    ReachableInv(s);
    ExactCoverage(s, e, m);
    var o, n := s.ends[e].node, s.ends[s.ends[e].peer].node;
    var c := s.nodes[o].host.table[m].ToClaim();
    assert o != n by {
      PeersDiffer(s, e);
    }
    hide Covered, Carried, Live, Drained;
    if Covered(s, e, c) {
      SettledIsHeld(s, o, m, n);
    }
    if m in s.nodes[n].host.table && s.nodes[n].host.table[m].ToClaim() == c {
      HeldWasCarried(s, n, m);
      assert Carried(s.ends[e].out, c);
    }
  }

  lemma {:induction false} PeersDiffer(s: State, e: EndId)
    requires Inv(s) && e in s.ends
    ensures s.ends[e].peer in s.ends && s.ends[s.ends[e].peer].node != s.ends[e].node
    ensures s.ends[e].node in s.nodes
  {
    hide NodeOk, Minted;
    assert EndOk(s, e);
  }

  /** A foreign record came over some connection into this node. */
  lemma {:induction false} HeldWasCarried(s: State, n: NodeId, m: Mac)
    requires Inv(s) && n in s.nodes && m in s.nodes[n].host.table && s.nodes[n].host.table[m].origin != n
    ensures exists e :: e in s.ends && LeadsTo(s, e, n) && Carried(s.ends[e].out, s.nodes[n].host.table[m].ToClaim())
  {
    hide EndOk, Minted;
    assert NodeOk(s, n);
    var c := s.nodes[n].host.table[m].ToClaim();
    var e, x :| e in s.ends && s.ends[e].peer in s.ends && s.ends[s.ends[e].peer].node == n
      && x in s.ends[e].out && x.Carries() && x.loc.ToClaim() == c;
    assert Carried(s.ends[e].out, c);
  }

  /** Whatever a node records of another origin came over a connection that covered it, or was
      relayed by a third node. */
  lemma {:induction false} HeldMeansCoveredOrRelayed(s: State, n: NodeId, m: Mac)
    requires Reachable(s) && NoSlotReuse(s)
    requires n in s.nodes && m in s.nodes[n].host.table && s.nodes[n].host.table[m].origin != n
    ensures var c := s.nodes[n].host.table[m].ToClaim();
      exists e :: e in s.ends && LeadsTo(s, e, n) && Carried(s.ends[e].out, c)
        && (s.ends[e].node == c.origin ==> Covered(s, e, c))
  {
    ReachableInv(s);
    HeldWasCarried(s, n, m);
    var c := s.nodes[n].host.table[m].ToClaim();
    var e :| e in s.ends && LeadsTo(s, e, n) && Carried(s.ends[e].out, c);
    if s.ends[e].node == c.origin {
      PeersDiffer(s, e);
      hide Inv, Carried, Covered;
      OnlyCoveredIsCarried(s, e, c);
    }
  }

  // ---------- Nothing spreads that its owner did not send ----------

  /** The owner itself has written `c` to some connection. */
  ghost predicate LeftHome(s: State, c: Claim) {
    exists e :: e in s.ends && s.ends[e].node == c.origin && Carried(s.ends[e].out, c)
  }

  /** A live update is only ever sent by its origin, and what a copy relays had left its origin. */
  ghost predicate HomedEnd(s: State, e: EndId)
    requires e in s.ends
  {
    var ep := s.ends[e];
    && (forall m :: m in ep.out && m.Update? ==> m.loc.origin == ep.node)
    && (ep.copy.Some? ==> forall r :: r in ep.copy.value.entries && r.origin != ep.node ==> LeftHome(s, r.ToClaim()))
  }

  ghost predicate Homed(s: State) {
    forall e {:trigger HomedEnd(s, e)} :: e in s.ends ==> HomedEnd(s, e)
  }

  lemma {:induction false} CarriedHasLeft(s: State, e: EndId, c: Claim)
    requires Inv(s) && Homed(s) && e in s.ends && Carried(s.ends[e].out, c)
    ensures LeftHome(s, c)
  {
    hide NodeOk, Minted, LeftHome;
    assert EndOk(s, e) && HomedEnd(s, e);
    var m :| m in s.ends[e].out && m.Carries() && m.loc.ToClaim() == c;
    if c.origin == s.ends[e].node {
      ItselfSent(s, e, c);
    }
  }

  lemma {:induction false} ItselfSent(s: State, e: EndId, c: Claim)
    requires e in s.ends && Carried(s.ends[e].out, c) && s.ends[e].node == c.origin
    ensures LeftHome(s, c)
  {
  }

  lemma {:induction false} HeldHasLeft(s: State, n: NodeId, m: Mac)
    requires Inv(s) && Homed(s) && n in s.nodes && m in s.nodes[n].host.table && s.nodes[n].host.table[m].origin != n
    ensures LeftHome(s, s.nodes[n].host.table[m].ToClaim())
  {
    HeldWasCarried(s, n, m);
    var c := s.nodes[n].host.table[m].ToClaim();
    var e :| e in s.ends && LeadsTo(s, e, n) && Carried(s.ends[e].out, c);
    CarriedHasLeft(s, e, c);
  }

  /** Logs only grow. */
  ghost predicate LogsGrow(s: State, t: State) {
    forall e :: e in s.ends ==> e in t.ends && t.ends[e].node == s.ends[e].node && s.ends[e].out <= t.ends[e].out
  }

  lemma {:induction false} StepGrowsLogs(s: State, step: Step)
    requires Enabled(s, step)
    ensures LogsGrow(s, Do(s, step))
  {
    if step.Connect? || step.Break? || step.Restart? {
      hide EndAfter, NodeAfter, FreshNode;
    } else if step.Learn? || step.LookupLearned? || step.Collect? || step.Deliver? {
      NodeStepGrowsLogs(s, step.n, step);
    } else {
      EndStepGrowsLog(s, step.e, step);
      hide EndAfter, EndEnabled;
    }
  }

  lemma {:induction false} NodeStepGrowsLogs(s: State, n: NodeId, step: Step)
    requires NodeEnabled(s, n, step)
    ensures LogsGrow(s, NodeAfter(s, n, step))
  {
    hide ReadySlots, LearnLocal, LocalRecord, Lookup;
  }

  lemma {:induction false} EndStepGrowsLog(s: State, e: EndId, step: Step)
    requires EndEnabled(s, e, step)
    ensures var ep2 := EndAfter(s, e, step).0; ep2.node == s.ends[e].node && s.ends[e].out <= ep2.out
  {
    hide IsListing, FreeSlot, ApplyRemote;
  }

  lemma {:induction false} LeftStaysLeft(s: State, t: State, c: Claim)
    requires LogsGrow(s, t) && LeftHome(s, c)
    ensures LeftHome(t, c)
  {
    var e :| e in s.ends && s.ends[e].node == c.origin && Carried(s.ends[e].out, c);
    assert Carried(t.ends[e].out, c);
  }

  /** What a step may add to an endpoint: an update of its own node's, or a copy of the table. */
  ghost predicate AddsOnly(s: State, t: State, e: EndId)
    requires e in t.ends
  {
    var ep := t.ends[e];
    && (forall m :: m in ep.out && m.Update? ==> m.loc.origin == ep.node || (e in s.ends && m in s.ends[e].out))
    && (e in s.ends ==> s.ends[e].node == ep.node)
    && (ep.copy.None? || (e in s.ends && ep.copy == s.ends[e].copy)
        || (ep.node in s.nodes && IsListing(ep.copy.value.entries, s.nodes[ep.node].host.table)))
  }

  lemma {:induction false} EndStepAddsOnly(s: State, e: EndId, step: Step)
    requires e in s.ends && EndEnabled(s, e, step)
    ensures AddsOnly(s, Touch(s, e, EndAfter(s, e, step).0, EndAfter(s, e, step).1), e)
  {
    hide IsListing, FreeSlot, ApplyRemote;
  }

  lemma {:induction false} DeliverAddsOnly(s: State, n: NodeId, e: EndId)
    requires Inv(s) && NodeEnabled(s, n, Deliver(n)) && e in s.ends
    ensures e in NodeAfter(s, n, Deliver(n)).ends && AddsOnly(s, NodeAfter(s, n, Deliver(n)), e)
  {
    hide EndOk, Minted;
    assert NodeOk(s, n);
    var t := s.nodes[n].app.targets[0];
    assert SlotOk(s, n, t.slot);
  }

  lemma {:induction false} StepAddsOnly(s: State, step: Step, e: EndId)
    requires Inv(s) && Enabled(s, step) && e in Do(s, step).ends
    ensures AddsOnly(s, Do(s, step), e)
  {
    if step.Deliver? {
      DeliverAddsOnly(s, step.n, e);
    } else if step.Connect? || step.Break? || step.Restart? || step.Learn? || step.LookupLearned? || step.Collect? {
      hide Inv, IsListing, ReadySlots, LearnLocal;
    } else if step.e == e {
      EndStepAddsOnly(s, e, step);
    } else {
      hide Inv, IsListing, EndAfter;
    }
  }

  lemma {:induction false} StepKeepsHomed(s: State, step: Step)
    requires Inv(s) && Homed(s) && Enabled(s, step)
    ensures Homed(Do(s, step))
  {
    var t := Do(s, step);
    StepGrowsLogs(s, step);
    hide Inv, Enabled, Do, LogsGrow, LeftHome;
    forall e | e in t.ends ensures HomedEnd(t, e) {
      StepAddsOnly(s, step, e);
      if e in s.ends {
        assert HomedEnd(s, e);
      }
      if t.ends[e].copy.Some? {
        forall r | r in t.ends[e].copy.value.entries && r.origin != t.ends[e].node ensures LeftHome(t, r.ToClaim()) {
          if e in s.ends && t.ends[e].copy == s.ends[e].copy {
            assert LeftHome(s, r.ToClaim());
          } else {
            HeldHasLeft(s, t.ends[e].node, r.mac);
          }
          LeftStaysLeft(s, t, r.ToClaim());
        }
      }
    }
  }

  lemma {:induction false} RunKeepsHomed(s: State, steps: seq<Step>, t: State)
    requires Inv(s) && Homed(s) && Run(s, steps, t)
    ensures Homed(t)
    decreases |steps|
  {
    hide Inv, Homed, Enabled, Do;
    if steps != [] {
      StepKeepsInv(s, steps[0]);
      StepKeepsHomed(s, steps[0]);
      RunKeepsHomed(Do(s, steps[0]), steps[1..], t);
    }
  }

  /** The converse of coverage for a whole mesh, with relays, reconnects and restarts: whatever
      any node records of another origin, that origin covered over some connection of its own.
      A learn that escaped all of its owner's connections is known nowhere else. */
  lemma {:induction false} UncoveredStaysHome(s: State, n: NodeId, m: Mac)
    requires Reachable(s) && NoSlotReuse(s)
    requires n in s.nodes && m in s.nodes[n].host.table && s.nodes[n].host.table[m].origin != n
    ensures var c := s.nodes[n].host.table[m].ToClaim();
      exists e :: e in s.ends && s.ends[e].node == c.origin && Carried(s.ends[e].out, c) && Covered(s, e, c)
  {
    var s0, steps :| Starting(s0) && Run(s0, steps, s);
    StartingInv(s0);
    RunKeepsHomed(s0, steps, s);
    ReachableInv(s);
    HeldHasLeft(s, n, m);
    var c := s.nodes[n].host.table[m].ToClaim();
    var e :| e in s.ends && s.ends[e].node == c.origin && Carried(s.ends[e].out, c);
    PeersDiffer(s, e);
    hide Inv, Carried, Covered;
    OnlyCoveredIsCarried(s, e, c);
  }

  // ---------- What has settled stays settled ----------

  predicate Restarts(step: Step, o: NodeId) {
    step.Restart? && step.n == o
  }

  ghost predicate NoRestart(steps: seq<Step>, o: NodeId) {
    forall i :: 0 <= i < |steps| ==> !Restarts(steps[i], o)
  }

  /** Any step but the node's own restart: a learn, an applied record, or nothing to its table. */
  lemma {:induction false} StepChangesHost(s: State, step: Step, n: NodeId)
    requires Enabled(s, step) && n in s.nodes && !Restarts(step, n)
    ensures n in Do(s, step).nodes
    ensures var h, h2 := s.nodes[n].host, Do(s, step).nodes[n].host;
      || h2 == h
      || (step.Learn? && h2 == LearnLocal(h, step.mac, step.dpid, step.port, step.now))
      || exists u, now: nat :: h2 == ApplyRemote(h, u, now)
  {
    if step.Learn? || step.LookupLearned? || step.Collect? || step.Deliver? {
      hide EndAfter, ReadySlots, LearnLocal;
      assert Do(s, step) == NodeAfter(s, step.n, step);
    } else if step.Connect? || step.Break? || step.Restart? {
      hide EndAfter, NodeAfter;
    } else {
      EndStepChangesHost(s, step.e, step);
      hide EndAfter, ApplyRemote;
    }
  }

  lemma {:induction false} EndStepChangesHost(s: State, e: EndId, step: Step)
    requires EndEnabled(s, e, step)
    ensures var (h, h2) := (s.nodes[s.ends[e].node].host, EndAfter(s, e, step).1.host);
      EndAfter(s, e, step).0.node == s.ends[e].node && (h2 == h || exists u, now: nat :: h2 == ApplyRemote(h, u, now))
  {
    hide IsListing, FreeSlot, ApplyRemote;
  }

  lemma {:induction false} StepKeepsSettled(s: State, step: Step, n: NodeId, r: Location)
    requires Inv(s) && Enabled(s, step) && n in s.nodes && !Restarts(step, n)
    requires Settled(s.nodes[n].host, r)
    ensures n in Do(s, step).nodes && Settled(Do(s, step).nodes[n].host, r)
  {
    StepChangesHost(s, step, n);
    NodeFactsHold(s, n);
    var h, h2 := s.nodes[n].host, Do(s, step).nodes[n].host;
    hide Inv, Enabled, Do, Settled, LearnLocal, ApplyRemote;
    if h2 != h {
      if step.Learn? && h2 == LearnLocal(h, step.mac, step.dpid, step.port, step.now) {
        LearnKeepsSettled(h, step.mac, step.dpid, step.port, step.now, r);
      } else {
        var u, now: nat :| h2 == ApplyRemote(h, u, now);
        ApplyKeepsSettled(h, u, now, r);
      }
    }
  }

  /** Whatever happens to connections and to other nodes, until the node restarts. */
  lemma {:induction false} RunKeepsSettled(s: State, steps: seq<Step>, t: State, n: NodeId, r: Location)
    requires Inv(s) && Run(s, steps, t) && n in s.nodes && NoRestart(steps, n)
    requires Settled(s.nodes[n].host, r)
    ensures n in t.nodes && Settled(t.nodes[n].host, r)
    decreases |steps|
  {
    hide Inv, Enabled, Do, Settled;
    if steps != [] {
      StepKeepsInv(s, steps[0]);
      StepKeepsSettled(s, steps[0], n, r);
      RunKeepsSettled(Do(s, steps[0]), steps[1..], t, n, r);
    }
  }

  // ---------- No loss across aborts ----------

  lemma {:induction false} StepKeepsOwner(s: State, step: Step, o: NodeId)
    requires Enabled(s, step) && o in s.nodes && !Restarts(step, o)
    ensures o in Do(s, step).nodes
    ensures Do(s, step).nodes[o].host.epoch == s.nodes[o].host.epoch
    ensures Do(s, step).nodes[o].host.nextSequence >= s.nodes[o].host.nextSequence
    ensures s.minted <= Do(s, step).minted
  {
    StepChangesHost(s, step, o);
    hide IsListing, FreeSlot, ReadySlots, EndAfter;
    if step.Learn? || step.LookupLearned? || step.Collect? || step.Deliver? {
      assert Do(s, step) == NodeAfter(s, step.n, step);
    }
  }

  lemma {:induction false} RunKeepsOwner(s: State, steps: seq<Step>, t: State, o: NodeId)
    requires Run(s, steps, t) && o in s.nodes && NoRestart(steps, o)
    ensures o in t.nodes && t.nodes[o].host.epoch == s.nodes[o].host.epoch
    ensures s.minted <= t.minted
    decreases |steps|
  {
    hide Enabled, Do;
    if steps != [] {
      StepKeepsOwner(s, steps[0], o);
      RunKeepsOwner(Do(s, steps[0]), steps[1..], t, o);
    }
  }

  /** A copy, once taken, is the connection's only one; a new one dates from this moment. */
  ghost predicate CopyKept(s: State, t: State, e: EndId)
    requires e in s.ends
  {
    && e in t.ends && t.ends[e].node == s.ends[e].node
    && (s.ends[e].copy.Some? ==> t.ends[e].copy == s.ends[e].copy)
    && (s.ends[e].copy.None? && t.ends[e].copy.Some? && s.ends[e].node in s.nodes ==>
          var h := s.nodes[s.ends[e].node].host;
          t.ends[e].copy.value.epoch == h.epoch && t.ends[e].copy.value.before == h.nextSequence)
  }

  lemma {:induction false} StepKeepsCopy(s: State, step: Step, e: EndId)
    requires Inv(s) && Enabled(s, step) && e in s.ends
    ensures CopyKept(s, Do(s, step), e)
  {
    if step.Receive? && step.e == e {
      ReceiveKeepsCopy(s, step, e);
    } else {
      hide Inv, CopyKept;
      OtherStepsKeepCopy(s, step, e);
    }
  }

  lemma {:induction false} ReceiveKeepsCopy(s: State, step: Step, e: EndId)
    requires Inv(s) && EndEnabled(s, e, step) && e in s.ends && step.Receive? && step.e == e
    ensures CopyKept(s, Do(s, step), e)
  {
    PoisedBy(s, e);
    MailInOrder(s, e);
    hide Inv, IsListing;
  }

  lemma {:induction false} OtherStepsKeepCopy(s: State, step: Step, e: EndId)
    requires Enabled(s, step) && e in s.ends && !(step.Receive? && step.e == e)
    ensures CopyKept(s, Do(s, step), e)
  {
    hide IsListing, FreeSlot, ReadySlots, Hear, LearnLocal, ApplyRemote;
    if step.Learn? || step.LookupLearned? || step.Collect? || step.Deliver? {
      assert Do(s, step) == NodeAfter(s, step.n, step);
    }
  }

  lemma {:induction false} NewEndsHaveNoCopy(s: State, step: Step, e: EndId)
    requires Enabled(s, step) && e !in s.ends && e in Do(s, step).ends
    ensures Do(s, step).ends[e].copy.None?
  {
  }

  ghost predicate NoCopyYet(s: State, e: EndId) {
    e in s.ends ==> s.ends[e].copy.None?
  }

  lemma {:induction false} RunKeepsCopy(s: State, steps: seq<Step>, t: State, e: EndId)
    requires Inv(s) && Run(s, steps, t) && e in s.ends && s.ends[e].copy.Some?
    ensures e in t.ends && t.ends[e].copy == s.ends[e].copy && t.ends[e].node == s.ends[e].node
    decreases |steps|
  {
    hide Inv, Enabled, Do;
    if steps != [] {
      StepKeepsInv(s, steps[0]);
      StepKeepsCopy(s, steps[0], e);
      RunKeepsCopy(Do(s, steps[0]), steps[1..], t, e);
    }
  }

  /** A snapshot copied after `s` includes everything its node had learned by `s`. */
  lemma {:induction false} LaterCopiesSeeMore(s: State, steps: seq<Step>, t: State, o: NodeId, e: EndId)
    requires Inv(s) && Run(s, steps, t) && o in s.nodes && NoRestart(steps, o)
    requires NoCopyYet(s, e) && e in t.ends && t.ends[e].node == o && t.ends[e].copy.Some?
    ensures t.ends[e].copy.value.epoch == s.nodes[o].host.epoch
    ensures t.ends[e].copy.value.before >= s.nodes[o].host.nextSequence
    decreases |steps|
  {
    hide Inv, Enabled, Do;
    if steps != [] {
      var s1 := Do(s, steps[0]);
      StepKeepsInv(s, steps[0]);
      StepKeepsOwner(s, steps[0], o);
      if e in s.ends {
        StepKeepsCopy(s, steps[0], e);
      } else if e in s1.ends {
        NewEndsHaveNoCopy(s, steps[0], e);
      }
      if NoCopyYet(s1, e) {
        LaterCopiesSeeMore(s1, steps[1..], t, o, e);
      } else {
        RunKeepsCopy(s1, steps[1..], t, e);
      }
    }
  }

  lemma {:induction false} EntriesBeforeEnd(sender: EndId, a: seq<Message>, b: seq<Message>, m: Message)
    requires a <= b && StageOf(sender, a).Ended? && !StageOf(sender, b).Garbled? && m in b && m.Entry?
    ensures m in a
    decreases |b|
  {
    if a != b {
      var last := |b| - 1;
      assert a <= b[..last] && b == b[..last] + [b[last]];
      StagePrefix(sender, b[..last], b);
      EndedStays(sender, a, b[..last]);
      EntriesBeforeEnd(sender, a, b[..last], m);
    }
  }

  /** A completed exchange has settled the whole of the peer's copy. */
  lemma {:induction false} CompletedExchangeSettles(s: State, e: EndId, r: Location)
    requires Inv(s) && e in s.ends && s.ends[e].peer in s.ends && s.ends[s.ends[e].peer].phase.Steady?
    ensures s.ends[e].copy.Some? && s.ends[s.ends[e].peer].node in s.nodes
    ensures r in s.ends[e].copy.value.entries ==> Settled(s.nodes[s.ends[s.ends[e].peer].node].host, r)
  {
    hide NodeOk, Minted;
    var f := s.ends[e].peer;
    assert EndOk(s, e);
    assert EndOk(s, f);
    EndedStays(e, s.ends[f].heard, s.ends[e].out);
    if r in s.ends[e].copy.value.entries {
      assert Entry(r) in s.ends[e].out;
      EntriesBeforeEnd(e, s.ends[f].heard, s.ends[e].out, Entry(r));
    }
  }

  /** Through `e`, `o` has served `n` a snapshot copied after `s`, and `n` has read all of it. */
  ghost predicate ExchangeDone(s: State, u: State, o: NodeId, e: EndId, n: NodeId) {
    && e in u.ends && u.ends[e].node == o && NoCopyYet(s, e)
    && u.ends[e].peer in u.ends && u.ends[u.ends[e].peer].phase.Steady? && u.ends[u.ends[e].peer].node == n
  }

  /** That was so at some point of the run, and `n` has not restarted since; the connection
      itself may be long gone. */
  ghost predicate LaterExchange(s: State, steps: seq<Step>, o: NodeId, e: EndId, n: NodeId) {
    exists i: nat, u :: i <= |steps| && Run(s, steps[..i], u) && ExchangeDone(s, u, o, e, n) && NoRestart(steps[i..], n)
  }

  lemma {:induction false} RestOfRun(s: State, steps: seq<Step>, t: State, i: nat, u: State)
    requires Run(s, steps, t) && i <= |steps| && Run(s, steps[..i], u)
    ensures Run(u, steps[i..], t)
    decreases i
  {
    hide Enabled, Do;
    if i > 0 {
      assert steps[..i][1..] == steps[1..][..i - 1];
      RestOfRun(Do(s, steps[0]), steps[1..], t, i - 1, u);
      assert steps[1..][i - 1..] == steps[i..];
    }
  }

  /** The comment on the overflow branch, made exact. Take any update of origin `o` that is
      anywhere in the system at `s` (so in particular one that an aborting exchange drops from
      its deferred queue, or the one that overflowed it), and any later run without a restart
      of `o`: the owner still records that MAC at an equal or newer version, and wherever an
      exchange with `o`, its snapshot copied after `s`, has completed in the run, the update is
      settled from then on, until that node restarts. */
  lemma {:induction false} NoLossAcrossAborts(s: State, steps: seq<Step>, t: State, r: Location)
    requires Reachable(s) && Run(s, steps, t) && NoRestart(steps, r.origin)
    requires Present(s, r.ToClaim()) && r.origin in s.nodes && r.epoch == s.nodes[r.origin].host.epoch
    ensures r.origin in t.nodes
    ensures var h := t.nodes[r.origin].host;
      r.mac in h.table && h.table[r.mac].isLocal == 1 && VersionAt(r).AtMost(VersionAt(h.table[r.mac]))
    ensures forall e, n :: LaterExchange(s, steps, r.origin, e, n) ==> n in t.nodes && Settled(t.nodes[n].host, r)
  {
    ReachableInv(s);
    RunKeepsInv(s, steps, t);
    Provenance(s, r.ToClaim());
    RunKeepsOwner(s, steps, t, r.origin);
    OwnerDominatesMinted(s, r.ToClaim());
    OwnerDominatesMinted(t, r.ToClaim());
    hide Inv, Run, Settled, Present;
    forall e, n | LaterExchange(s, steps, r.origin, e, n) ensures n in t.nodes && Settled(t.nodes[n].host, r) {
      LaterExchangeSettles(s, steps, t, r, e, n);
    }
  }

  lemma {:induction false} LaterExchangeSettles(s: State, steps: seq<Step>, t: State, r: Location, e: EndId, n: NodeId)
    requires Inv(s) && Run(s, steps, t) && NoRestart(steps, r.origin)
    requires r.origin in s.nodes && r.epoch == s.nodes[r.origin].host.epoch
    requires r.sequence < s.nodes[r.origin].host.nextSequence && r.ToClaim() in s.minted
    requires LaterExchange(s, steps, r.origin, e, n)
    ensures n in t.nodes && Settled(t.nodes[n].host, r)
  {
    hide Inv, Run, Settled, ExchangeDone;
    var i: nat, u :| i <= |steps| && Run(s, steps[..i], u) && ExchangeDone(s, u, r.origin, e, n) && NoRestart(steps[i..], n);
    RestOfRun(s, steps, t, i, u);
    RunKeepsInv(s, steps[..i], u);
    RunKeepsOwner(s, steps[..i], u, r.origin);
    DoneExchangeSettles(s, steps[..i], u, r, e, n);
    RunKeepsSettled(u, steps[i..], t, n, r);
  }

  lemma {:induction false} DoneExchangeSettles(s: State, steps: seq<Step>, u: State, r: Location, e: EndId, n: NodeId)
    requires Inv(s) && Inv(u) && Run(s, steps, u) && NoRestart(steps, r.origin)
    requires r.origin in s.nodes && r.epoch == s.nodes[r.origin].host.epoch
    requires r.sequence < s.nodes[r.origin].host.nextSequence && r.ToClaim() in u.minted
    requires ExchangeDone(s, u, r.origin, e, n)
    ensures n in u.nodes && Settled(u.nodes[n].host, r)
  {
    hide NodeOk, Minted, Run, Settled;
    CompletedExchangeSettles(u, e, r);
    LaterCopiesSeeMore(s, steps, u, r.origin, e);
    assert EndOk(u, e);
    var entries := u.ends[e].copy.value.entries;
    assert CopyHas(entries, r.ToClaim());
    var newer :| newer in entries && newer.mac == r.mac && newer.origin == r.origin
      && VersionAt(r).AtMost(VersionAt(newer));
    CompletedExchangeSettles(u, e, newer);
    SettledDownwards(u.nodes[n].host, newer, r);
  }
}
