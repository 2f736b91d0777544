/** What the protocol guarantees over every run: provenance, the owner's precedence, the
    order of messages on a connection, exact coverage, and no loss across aborts.
 */
module NetworkTheorems {
  import opened Basics
  import opened HostState
  import opened Network
  import opened NetworkInvariant

  // ---------- Provenance and agreement ----------

  /** `c` is somewhere in the system: in a table, on a wire or once written to one, deferred,
      in a snapshot being served, or about to be disseminated. */
  ghost predicate Present(s: State, c: Claim) {
    || (exists n, m :: n in s.nodes && m in s.nodes[n].host.table && s.nodes[n].host.table[m].ToClaim() == c)
    || (exists n :: n in s.nodes && (s.nodes[n].app.Found? || s.nodes[n].app.Sending?) && s.nodes[n].app.loc.ToClaim() == c)
    || (exists e, m :: e in s.ends && MessageOf(s.ends[e], m) && m.Carries() && m.loc.ToClaim() == c)
    || (exists e, r :: e in s.ends && s.ends[e].copy.Some? && r in s.ends[e].copy.value.entries && r.ToClaim() == c)
  }

  ghost predicate MessageOf(ep: Endpoint, m: Message) {
    m in ep.out || m in ep.heard || m in ep.deferred
  }

  lemma {:induction false} TableClaimMinted(s: State, n: NodeId, m: Mac)
    requires Inv(s) && n in s.nodes && m in s.nodes[n].host.table
    ensures s.nodes[n].host.table[m].ToClaim() in s.minted
  {
    hide EndOk, Minted;
    assert NodeOk(s, n);
  }

  lemma {:induction false} AppClaimMinted(s: State, n: NodeId)
    requires Inv(s) && n in s.nodes && (s.nodes[n].app.Found? || s.nodes[n].app.Sending?)
    ensures s.nodes[n].app.loc.ToClaim() in s.minted
  {
    hide EndOk, Minted;
    assert NodeOk(s, n);
  }

  lemma {:induction false} MessageClaimMinted(s: State, e: EndId, m: Message)
    requires Inv(s) && e in s.ends && m.Carries() && MessageOf(s.ends[e], m)
    ensures m.loc.ToClaim() in s.minted
  {
    hide NodeOk, Minted;
    assert EndOk(s, e);
    assert EndOk(s, s.ends[e].peer);
  }

  lemma {:induction false} CopyClaimMinted(s: State, e: EndId, r: Location)
    requires Inv(s) && e in s.ends && s.ends[e].copy.Some? && r in s.ends[e].copy.value.entries
    ensures r.ToClaim() in s.minted
  {
    hide NodeOk, Minted;
    assert EndOk(s, e);
  }

  /** Nothing is ever invented on the way: every claim in the system is in the mint history. */
  lemma {:induction false} Provenance(s: State, c: Claim)
    requires Reachable(s) && Present(s, c)
    ensures c in s.minted
  {
    ReachableInv(s);
    hide Inv;
    if n, m :| n in s.nodes && m in s.nodes[n].host.table && s.nodes[n].host.table[m].ToClaim() == c {
      TableClaimMinted(s, n, m);
    } else if n :| n in s.nodes && (s.nodes[n].app.Found? || s.nodes[n].app.Sending?) && s.nodes[n].app.loc.ToClaim() == c {
      AppClaimMinted(s, n);
    } else if e, m :| e in s.ends && MessageOf(s.ends[e], m) && m.Carries() && m.loc.ToClaim() == c {
      MessageClaimMinted(s, e, m);
    } else {
      var e, r :| e in s.ends && s.ends[e].copy.Some? && r in s.ends[e].copy.value.entries && r.ToClaim() == c;
      CopyClaimMinted(s, e, r);
    }
  }

  /** `c` is what `step` made its node learn in state `s`. */
  ghost predicate MintsIn(s: State, step: Step, c: Claim) {
    && step.Learn? && step.n in s.nodes && LearnResult(s.nodes[step.n].host, step.mac) == c.sequence != 0
    && c == Claim(step.mac, s.nodes[step.n].host.id, step.dpid, step.port, s.nodes[step.n].host.epoch, c.sequence, step.now)
  }

  lemma {:induction false} StepMints(s: State, step: Step, c: Claim)
    requires Enabled(s, step) && c in Do(s, step).minted && c !in s.minted
    ensures MintsIn(s, step, c)
  {
  }

  /** Every claim of a run from a start was minted by one learn_local of its origin. */
  lemma {:induction false} MintedByLearning(s: State, steps: seq<Step>, t: State, c: Claim) returns (i: nat, at: State)
    requires Run(s, steps, t) && c in t.minted && c !in s.minted
    ensures i < |steps| && Run(s, steps[..i], at) && MintsIn(at, steps[i], c)
    decreases |steps|
  {
    hide Enabled, Do, MintsIn;
    var s1 := Do(s, steps[0]);
    if c in s1.minted {
      StepMints(s, steps[0], c);
      i, at := 0, s;
    } else {
      i, at := MintedByLearning(s1, steps[1..], t, c);
      assert steps[1..][..i] == steps[..i + 1][1..];
      i := i + 1;
    }
  }

  /** Equal (origin, epoch, sequence) anywhere means the same claim in every field. */
  lemma {:induction false} Agreement(s: State, c: Claim, d: Claim)
    requires Reachable(s) && Present(s, c) && Present(s, d)
    requires c.origin == d.origin && VersionOf(c) == VersionOf(d)
    ensures c == d
  {
    Provenance(s, c);
    Provenance(s, d);
    ReachableInv(s);
    hide EndOk, NodeOk;
  }

  /** So a DUPLICATE verdict only ever discards what is already on record. */
  lemma {:induction false} DuplicateDiscardsNothing(s: State, n: NodeId, u: Location)
    requires Reachable(s) && n in s.nodes && Present(s, u.ToClaim())
    requires Judge(s.nodes[n].host, u) == Duplicate
    ensures s.nodes[n].host.table[u.mac].ToClaim() == u.ToClaim()
  {
    var h := s.nodes[n].host;
    assert u.mac in h.table;
    Agreement(s, h.table[u.mac].ToClaim(), u.ToClaim());
  }

  // ---------- The owner's precedence ----------

  /** No copy anywhere is ahead of its origin; and in the epoch the origin is living, the
      origin's own record for that MAC is local and at least as new. */
  lemma {:induction false} OwnerDominates(s: State, c: Claim)
    requires Reachable(s) && Present(s, c)
    ensures c.origin in s.nodes
    ensures var h := s.nodes[c.origin].host;
      && VersionOf(c).Below(Version(h.epoch, h.nextSequence))
      && (c.epoch == h.epoch ==>
            c.mac in h.table && h.table[c.mac].isLocal == 1 && VersionOf(c).AtMost(VersionAt(h.table[c.mac])))
  {
    Provenance(s, c);
    ReachableInv(s);
    OwnerDominatesMinted(s, c);
  }

  lemma {:induction false} OwnerDominatesMinted(s: State, c: Claim)
    requires Inv(s) && c in s.minted
    ensures c.origin in s.nodes
    ensures var h := s.nodes[c.origin].host;
      && h.id == c.origin
      && VersionOf(c).Below(Version(h.epoch, h.nextSequence))
      && (c.epoch == h.epoch ==>
            c.mac in h.table && h.table[c.mac].origin == h.id && h.table[c.mac].isLocal == 1
            && VersionOf(c).AtMost(VersionAt(h.table[c.mac])))
  {
    hide EndOk;
    assert MintOk(s.nodes[c.origin].host, c);
    assert NodeOk(s, c.origin);
    var h := s.nodes[c.origin].host;
    assert c.mac in h.table ==> RecordOk(h, c.mac, h.table[c.mac]);
  }

  ghost predicate NodeFacts(s: State, n: NodeId) {
    && n in s.nodes && s.nodes[n].host.id == n && Ok(s.nodes[n].host)
    && forall m :: m in s.nodes[n].host.table ==> s.nodes[n].host.table[m].mac == m
  }

  lemma {:induction false} NodeFactsHold(s: State, n: NodeId)
    requires Inv(s) && n in s.nodes
    ensures NodeFacts(s, n)
  {
    hide EndOk, Minted;
    assert NodeOk(s, n);
    forall m | m in s.nodes[n].host.table ensures s.nodes[n].host.table[m].mac == m {
      assert RecordOk(s.nodes[n].host, m, s.nodes[n].host.table[m]);
    }
  }

  /** The claim a node holds as its own is the only one with its version. */
  lemma {:induction false} OwnRecordIsTop(s: State, o: NodeId, m: Mac, c: Claim)
    requires Inv(s) && o in s.nodes && m in s.nodes[o].host.table && s.nodes[o].host.table[m].origin == o
    requires c in s.minted && c.mac == m && c.origin == o
    requires VersionAt(s.nodes[o].host.table[m]).AtMost(VersionOf(c))
    ensures c == s.nodes[o].host.table[m].ToClaim()
  {
    OwnerDominatesMinted(s, c);
    TableClaimMinted(s, o, m);
    NodeFactsHold(s, o);
    hide EndOk, NodeOk;
    assert RecordOk(s.nodes[o].host, m, s.nodes[o].host.table[m]);
  }

  // ---------- Learn, look up, disseminate ----------

  /** Whatever ran between the two lock regions, the record looked up and disseminated is
      the one just minted: local, own origin, with the returned sequence. */
  lemma {:induction false} LookupFindsTheLearned(s: State, n: NodeId)
    requires Reachable(s) && n in s.nodes && s.nodes[n].app.Learned?
    ensures var t := Do(s, LookupLearned(n)).nodes[n];
      && Enabled(s, LookupLearned(n)) && t.app.Found?
      && t.app.loc.mac == s.nodes[n].app.mac && t.app.loc.sequence == s.nodes[n].app.sequence
      && t.app.loc.isLocal == 1 && t.app.loc.origin == n && t.app.loc.epoch == t.host.epoch
  {
    ReachableInv(s);
    hide EndOk, Minted;
    assert NodeOk(s, n);
    var h, mac := s.nodes[n].host, s.nodes[n].app.mac;
    assert RecordOk(h, mac, h.table[mac]);
  }

  /** The record being sent is still the node's record for that MAC. */
  lemma {:induction false} SendingTheCurrentRecord(s: State, n: NodeId)
    requires Reachable(s) && n in s.nodes && s.nodes[n].app.Sending?
    ensures var loc := s.nodes[n].app.loc;
      Lookup(s.nodes[n].host, loc.mac) == Some(loc) && loc.origin == n && loc.isLocal == 1
  {
    ReachableInv(s);
    hide EndOk, Minted;
    assert NodeOk(s, n);
    var h, loc := s.nodes[n].host, s.nodes[n].app.loc;
    assert RecordOk(h, loc.mac, h.table[loc.mac]);
  }

  // ---------- The order of messages on a connection ----------

  lemma {:induction false} UpdateNeedsEnd(sender: EndId, log: seq<Message>, i: nat)
    requires !StageOf(sender, log).Garbled? && i < |log| && log[i].Update? && log[i].via == sender
    ensures End in log[..i]
    decreases |log|
  {
    var last := |log| - 1;
    StagePrefix(sender, log[..last], log);
    if i < last {
      UpdateNeedsEnd(sender, log[..last], i);
      assert log[..last][..i] == log[..i];
    } else {
      EndedHasEnd(sender, log[..last]);
    }
  }

  lemma {:induction false} EndedHasEnd(sender: EndId, log: seq<Message>)
    requires StageOf(sender, log).Ended?
    ensures End in log
    decreases |log|
  {
    var last := |log| - 1;
    if !log[last].End? {
      EndedHasEnd(sender, log[..last]);
    }
  }

  lemma {:induction false} EndNeedsRequest(sender: EndId, log: seq<Message>, i: nat)
    requires !StageOf(sender, log).Garbled? && i < |log| && log[i].End?
    ensures Request in log[..i]
    decreases |log|
  {
    var last := |log| - 1;
    StagePrefix(sender, log[..last], log);
    if i < last {
      EndNeedsRequest(sender, log[..last], i);
      assert log[..last][..i] == log[..i];
    } else {
      AskedHasRequest(sender, log[..last]);
    }
  }

  lemma {:induction false} AskedHasRequest(sender: EndId, log: seq<Message>)
    requires StageOf(sender, log).Asked?
    ensures Request in log
    decreases |log|
  {
    var last := |log| - 1;
    if !log[last].Request? {
      AskedHasRequest(sender, log[..last]);
    }
  }

  ghost predicate HelloIn(log: seq<Message>) {
    exists j :: 0 <= j < |log| && log[j].Hello?
  }

  lemma {:induction false} RequestNeedsHello(sender: EndId, log: seq<Message>, i: nat)
    requires !StageOf(sender, log).Garbled? && i < |log| && log[i].Request?
    ensures HelloIn(log[..i])
    decreases |log|
  {
    var last := |log| - 1;
    StagePrefix(sender, log[..last], log);
    if i < last {
      RequestNeedsHello(sender, log[..last], i);
      assert log[..last][..i] == log[..i];
    } else {
      GreetedHasHello(sender, log[..last]);
    }
  }

  lemma {:induction false} GreetedHasHello(sender: EndId, log: seq<Message>)
    requires StageOf(sender, log).Greeted?
    ensures HelloIn(log)
    decreases |log|
  {
    var last := |log| - 1;
    if !log[last].Hello? {
      GreetedHasHello(sender, log[..last]);
      var j :| 0 <= j < last && log[..last][j].Hello?;
      assert log[j].Hello?;
    }
  }

  lemma {:induction false} LogInOrder(s: State, e: EndId)
    requires Inv(s) && e in s.ends
    ensures !StageOf(e, s.ends[e].out).Garbled?
  {
    hide NodeOk, Minted;
    assert EndOk(s, e);
  }

  /** On every connection, HELLO precedes the sender's own request, that precedes its END, and an
      update whose call collected this very endpoint follows that END. */
  lemma {:induction false} UpdatesFollowEnd(s: State, e: EndId, i: nat)
    requires Reachable(s) && e in s.ends && i < |s.ends[e].out|
    ensures s.ends[e].out[i].Request? ==> HelloIn(s.ends[e].out[..i])
    ensures s.ends[e].out[i].End? ==> Request in s.ends[e].out[..i]
    ensures s.ends[e].out[i].Update? && s.ends[e].out[i].via == e ==> End in s.ends[e].out[..i]
  {
    ReachableInv(s);
    LogInOrder(s, e);
    hide Inv;
    if s.ends[e].out[i].Request? {
      RequestNeedsHello(e, s.ends[e].out, i);
    } else if s.ends[e].out[i].End? {
      EndNeedsRequest(e, s.ends[e].out, i);
    } else if s.ends[e].out[i].Update? && s.ends[e].out[i].via == e {
      UpdateNeedsEnd(e, s.ends[e].out, i);
    }
  }

  /** Whatever sits in a deferred queue was collected for an earlier connection in the sender's
      slot, one that has been torn down since. */
  lemma {:induction false} DeferredCameThroughReuse(s: State, e: EndId, m: Message)
    requires Reachable(s) && e in s.ends && m in s.ends[e].deferred
    ensures s.ends[e].peer in s.ends && m in s.ends[s.ends[e].peer].out
    ensures m.Update? && m.via != s.ends[e].peer && (m.via, m.loc.ToClaim()) in s.collected
    ensures var f := s.ends[s.ends[e].peer];
      m.via in s.ends && s.ends[m.via].node == f.node && s.ends[m.via].slot == f.slot && s.ends[m.via].phase.Closed?
  {
    ReachableInv(s);
    hide NodeOk, Minted;
    assert EndOk(s, e);
    assert EndOk(s, s.ends[e].peer);
  }

  /** No disseminate call wrote to a slot that had changed hands since it was collected. */
  ghost predicate NoSlotReuse(s: State) {
    forall e, m :: e in s.ends && m in s.ends[e].out && m.Update? ==> m.via == e
  }

  /** Without slot reuse in mid-call nothing is ever deferred, and no update can arrive while an
      exchange is on, so the overflow abort cannot happen. */
  lemma {:induction false} NothingDeferredWithoutReuse(s: State, e: EndId)
    requires Reachable(s) && NoSlotReuse(s) && e in s.ends
    ensures s.ends[e].deferred == []
    ensures s.ends[e].phase.Exchanging? && HasMail(s, e) ==> !NextMail(s, e).Update?
  {
    if s.ends[e].deferred != [] {
      DeferredCameThroughReuse(s, e, s.ends[e].deferred[0]);
    }
    ReachableInv(s);
    PoisedBy(s, e);
    hide Inv;
    if s.ends[e].phase.Exchanging? && HasMail(s, e) {
      MailInOrder(s, e);
      assert NextMail(s, e) in s.ends[s.ends[e].peer].out;
    }
  }

  /** The defensive branches of handle_message never run between two nodes of this code: a
      ready endpoint is only ever sent updates. */
  lemma {:induction false} ReadyHearsOnlyUpdates(s: State, e: EndId)
    requires Reachable(s) && e in s.ends && s.ends[e].phase.Steady? && HasMail(s, e)
    ensures NextMail(s, e).Update?
    ensures s.ends[e].serving.None?
  {
    ReachableInv(s);
    PoisedBy(s, e);
    MailInOrder(s, e);
  }

  /** Two connections never own one slot, and only active slots are ready. */
  lemma {:induction false} SlotsHaveOneOwner(s: State, e: EndId, f: EndId)
    requires Reachable(s) && e in s.ends && f in s.ends && s.ends[e].node == s.ends[f].node
    requires s.ends[e].phase.Slotted() && s.ends[f].phase.Slotted() && s.ends[e].slot == s.ends[f].slot
    ensures e == f
  {
    ReachableInv(s);
    hide NodeOk, Minted;
    assert EndOk(s, e) && EndOk(s, f);
  }

  // ---------- Exact coverage ----------

  /** Both ends of `e`'s connection are ready and the connection has not broken. */
  ghost predicate Live(s: State, e: EndId) {
    && e in s.ends && s.ends[e].peer in s.ends
    && !s.ends[e].broken && !s.ends[s.ends[e].peer].broken
    && s.ends[e].phase.Steady? && s.ends[s.ends[e].peer].phase.Steady?
  }

  /** Nothing `e` wrote is still in flight. */
  ghost predicate Drained(s: State, e: EndId)
    requires e in s.ends && s.ends[e].peer in s.ends
  {
    s.ends[s.ends[e].peer].heard == s.ends[e].out
  }

  /** The learn preceded `e`'s snapshot copy, or its slot collection found `e` ready. */
  ghost predicate Covered(s: State, e: EndId, c: Claim)
    requires e in s.ends
  {
    || (s.ends[e].copy.Some? && c.epoch == s.ends[e].copy.value.epoch && c.sequence < s.ends[e].copy.value.before)
    || (e, c) in s.collected
  }

  ghost predicate Carried(out: seq<Message>, c: Claim) {
    exists m :: m in out && m.Carries() && m.loc.ToClaim() == c
  }

  lemma {:induction false} CoveredByCopy(s: State, e: EndId, m: Mac)
    requires Inv(s) && Live(s, e) && s.ends[e].node in s.nodes
    requires var h := s.nodes[s.ends[e].node].host; m in h.table && h.table[m].origin == s.ends[e].node
    requires var r := s.nodes[s.ends[e].node].host.table[m]; var c := s.ends[e].copy;
      c.Some? && r.epoch == c.value.epoch && r.sequence < c.value.before
    ensures Carried(s.ends[e].out, s.nodes[s.ends[e].node].host.table[m].ToClaim())
  {
    var o := s.ends[e].node;
    var c := s.nodes[o].host.table[m].ToClaim();
    var entries := s.ends[e].copy.value.entries;
    TableClaimMinted(s, o, m);
    hide NodeOk, Minted;
    assert NodeFacts(s, o) by { NodeFactsHold(s, o); }
    assert EndOk(s, e);
    assert CopyHas(entries, c);
    var r :| r in entries && r.mac == c.mac && r.origin == c.origin && VersionOf(c).AtMost(VersionAt(r));
    OwnRecordIsTop(s, o, m, r.ToClaim());
    assert Entry(r) in s.ends[e].out;
  }

  lemma {:induction false} CoveredByUpdate(s: State, e: EndId, c: Claim)
    requires Inv(s) && Live(s, e) && s.ends[e].node in s.nodes && s.nodes[s.ends[e].node].app.Idle?
    requires (e, c) in s.collected
    ensures Carried(s.ends[e].out, c)
  {
    hide EndOk, NodeOk, Minted;
    assert CollectedOk(s, e, c);
    var m :| m in s.ends[e].out && m.Update? && m.loc.ToClaim() == c;
    assert m.Carries();
  }

  lemma {:induction false} CarriedIsSettled(s: State, e: EndId, r: Location)
    requires Inv(s) && Live(s, e) && Drained(s, e) && Carried(s.ends[e].out, r.ToClaim())
    ensures s.ends[s.ends[e].peer].node in s.nodes
    ensures Settled(s.nodes[s.ends[s.ends[e].peer].node].host, r)
  {
    hide NodeOk, Minted;
    assert EndOk(s, s.ends[e].peer);
    var m :| m in s.ends[e].out && m.Carries() && m.loc.ToClaim() == r.ToClaim();
    assert m in s.ends[s.ends[e].peer].heard;
  }

  lemma {:induction false} OnlyCoveredIsCarried(s: State, e: EndId, c: Claim)
    requires Inv(s) && e in s.ends && s.ends[e].node in s.nodes && c.origin == s.ends[e].node
    requires forall m :: m in s.ends[e].out && m.Update? ==> m.via == e
    requires Carried(s.ends[e].out, c)
    ensures Covered(s, e, c)
  {
    hide NodeOk, Minted;
    assert EndOk(s, e);
    var m :| m in s.ends[e].out && m.Carries() && m.loc.ToClaim() == c;
    if m.Entry? {
      assert m.loc in s.ends[e].copy.value.entries;
    }
  }

  /** On a live, drained, ready connection from a quiet owner, its current record of a MAC has
      been carried exactly when it was covered (given no stale write to this slot), and a
      carried record is settled at the far node. */
  lemma {:induction false} ExactCoverage(s: State, e: EndId, m: Mac)
    requires Reachable(s) && Live(s, e) && Drained(s, e)
    requires s.ends[e].node in s.nodes && s.nodes[s.ends[e].node].app.Idle?
    requires var h := s.nodes[s.ends[e].node].host; m in h.table && h.table[m].origin == s.ends[e].node
    ensures var r := s.nodes[s.ends[e].node].host.table[m]; var far := s.ends[s.ends[e].peer].node;
      && (Covered(s, e, r.ToClaim()) ==> Carried(s.ends[e].out, r.ToClaim()))
      && (Carried(s.ends[e].out, r.ToClaim()) ==> far in s.nodes && Settled(s.nodes[far].host, r))
      && ((forall x :: x in s.ends[e].out && x.Update? ==> x.via == e) ==>
            (Carried(s.ends[e].out, r.ToClaim()) <==> Covered(s, e, r.ToClaim())))
  {
    ReachableInv(s);
    var r := s.nodes[s.ends[e].node].host.table[m];
    hide Inv, Live, Settled;
    if Covered(s, e, r.ToClaim()) {
      if (e, r.ToClaim()) in s.collected {
        CoveredByUpdate(s, e, r.ToClaim());
      } else {
        CoveredByCopy(s, e, m);
      }
    }
    if Carried(s.ends[e].out, r.ToClaim()) {
      CarriedIsSettled(s, e, r);
      if forall x :: x in s.ends[e].out && x.Update? ==> x.via == e {
        OnlyCoveredIsCarried(s, e, r.ToClaim());
      }
    }
  }

  /** What a settled current record means: the far node holds exactly it, unless it has
      another origin on record or its table is full without that MAC. */
  lemma {:induction false} SettledIsHeld(s: State, o: NodeId, m: Mac, n: NodeId)
    requires Inv(s) && o in s.nodes && n in s.nodes && o != n
    requires m in s.nodes[o].host.table && s.nodes[o].host.table[m].origin == o
    requires Settled(s.nodes[n].host, s.nodes[o].host.table[m])
    ensures var h := s.nodes[n].host;
      || (m in h.table && h.table[m].ToClaim() == s.nodes[o].host.table[m].ToClaim())
      || (m in h.table && h.table[m].origin != o)
      || (m !in h.table && Full(h))
  {
    var h := s.nodes[n].host;
    NodeFactsHold(s, o);
    NodeFactsHold(s, n);
    hide Inv;
    assert RecordOk(s.nodes[o].host, m, s.nodes[o].host.table[m]);
    if m in h.table && h.table[m].origin == o {
      TableClaimMinted(s, n, m);
      OwnRecordIsTop(s, o, m, h.table[m].ToClaim());
    }
  }
}
