/** The NO_RULE handler of the distributed learning application: learn what arrives on the
    host port, look it up again, disseminate it, then decide. Other threads apply remote
    records between its lock regions.
 */
module LearningApp {
  import opened Basics
  import opened Decisions
  import opened HostRuns
  import opened HostState
  import opened HostTable

  const DAIM_DIST_MAX_CHAIN: nat := 64

  datatype PacketInfo = PacketInfo(inPort: nat, macSrc: Mac, macDst: Mac)

  datatype Flow = Flow(inPort: nat, macDst: Mac, outPort: nat)

  datatype AppStats = AppStats(noRuleEvents: nat, flowsInstalled: nat, localHostsLearned: nat, remoteUpdatesDisseminated: nat)

  /** The table after the learning half of the handler. */
  function AfterLearning(cfg: Config, h: Host, info: PacketInfo, now: nat, between: seq<Arrival>): Host {
    if info.inPort == cfg.hostPort then ApplyAll(LearnLocal(h, info.macSrc, cfg.dpid, info.inPort, now), between)
    else ApplyAll(h, between)
  }

  lemma {:induction false} AppliesAreARun(h: Host, us: seq<Arrival>) returns (ops: seq<Op>)
    ensures ApplyAll(h, us) == Run(h, ops) && forall i :: 0 <= i < |ops| ==> ops[i].Remote?
    decreases |us|
  {
    if us == [] {
      ops := [];
    } else {
      var init := AppliesAreARun(h, us[..|us| - 1]);
      var op := Remote(us[|us| - 1].loc, us[|us| - 1].now);
      RunSnoc(h, init, op);
      ops := init + [op];
    }
  }

  lemma {:induction false} LearnedSurvives(h: Host, mac: Mac, dpid: nat, port: nat, now: nat, us: seq<Arrival>)
    requires Ok(h) && LearnResult(h, mac) != 0
    ensures Lookup(ApplyAll(LearnLocal(h, mac, dpid, port, now), us), mac) == Some(LocalRecord(h, mac, dpid, port, now))
  {
    var ops := AppliesAreARun(LearnLocal(h, mac, dpid, port, now), us);
    LearnedRecordStands(h, mac, dpid, port, now, ops);
  }

  /** The lock regions of remote applies, as the table records them. */
  function Remotes(us: seq<Arrival>): (ops: seq<Op>)
    ensures |ops| == |us| && forall i :: 0 <= i < |us| ==> ops[i] == Remote(us[i].loc, us[i].now)
  {
    seq(|us|, i requires 0 <= i < |us| => Remote(us[i].loc, us[i].now))
  }

  /** The lock region of the learn, for a packet from the host port. */
  function Learns(info: PacketInfo, hostPort: nat, dpid: nat, now: nat): seq<Op> {
    if info.inPort == hostPort then [Learn(info.macSrc, dpid, info.inPort, now)] else []
  }

  /** The filter: what an event adds to the history keeps every learn on the host port. */
  lemma {:induction false} EventKeepsFiltered(history: seq<Op>, info: PacketInfo, hostPort: nat, dpid: nat, now: nat,
      first: seq<Arrival>, second: seq<Arrival>)
    requires Filtered(history, hostPort)
    ensures Filtered(history + Learns(info, hostPort, dpid, now) + Remotes(first) + Remotes(second), hostPort)
  {
  }

  /** What a packet makes its node own: it came in on the host port and there is room for it. */
  ghost function Owned(h: Host, info: PacketInfo, hostPort: nat, dpid: nat, now: nat): seq<Location> {
    if info.inPort == hostPort && (info.macSrc in h.table || |h.table| < 4096)
    then [Location(info.macSrc, h.id, dpid, info.inPort, h.epoch, h.nextSequence, 1, now, now)] else []
  }

  /** The flow a decision leaves on the switch: none for FLOOD, for NONE, or when the adapter refuses. */
  function Installed(info: PacketInfo, port: nat, added: bool): seq<Flow> {
    if port != 0xfffb && port != 0xfffe && added then [Flow(info.inPort, info.macDst, port)] else []
  }

  class LearningApp {
    const hosts: HostTable
    const myNodeId: nat
    const myDpid: nat
    const hostPort: nat
    const chainOrder: array<nat>
    const chainLen: nat
    const portTowardLower: nat
    const portTowardHigher: nat
    const hasTransport: bool
    var decidedPort: nat
    var stats: AppStats
    /** What went out through the transport and the switch adapter. */
    var disseminated: seq<Location>
    var flows: seq<Flow>

    ghost predicate Valid()
      reads this, hosts, hosts.table, chainOrder
    {
      && hosts.Valid() && hosts.table != chainOrder as object
      && chainOrder.Length == DAIM_DIST_MAX_CHAIN && 0 < chainLen <= DAIM_DIST_MAX_CHAIN
    }

    ghost function Cfg(): Config
      reads this, chainOrder
      requires chainLen <= chainOrder.Length
    {
      Config(myNodeId, myDpid, hostPort, chainOrder[..chainLen], portTowardLower, portTowardHigher)
    }

    constructor (hosts: HostTable, nodeId: nat, dpid: nat, hostPort: nat, chain: seq<nat>, lower: nat, higher: nat, hasTransport: bool)
      requires hosts.Valid() && 0 < |chain| <= 64
      ensures Valid() && this.hosts == hosts && this.hasTransport == hasTransport && fresh(chainOrder)
      ensures Cfg() == Config(nodeId, dpid, hostPort, chain, lower, higher)
      ensures disseminated == [] && flows == [] && stats == AppStats(0, 0, 0, 0)
    {
      this.hosts, myNodeId, myDpid, this.hostPort := hosts, nodeId, dpid, hostPort;
      chainOrder := new nat[DAIM_DIST_MAX_CHAIN](i requires 0 <= i => if i < |chain| then chain[i] else 0);
      chainLen, portTowardLower, portTowardHigher, this.hasTransport := |chain|, lower, higher, hasTransport;
      decidedPort, stats, disseminated, flows := 0, AppStats(0, 0, 0, 0), [], [];
      new;
      assert chainOrder[..chainLen] == chain;
    }

    method ChainIndexOf(nodeId: nat) returns (index: int)
      requires Valid()
      ensures index == IndexFrom(Cfg().chain, nodeId, 0)
    {
      index := 0;
      while index < chainLen
        invariant 0 <= index <= chainLen
        invariant IndexFrom(Cfg().chain, nodeId, 0) == IndexFrom(Cfg().chain, nodeId, index)
      {
        assert Cfg().chain[index] == chainOrder[index];
        if chainOrder[index] == nodeId {
          return;
        }
        index := index + 1;
      }
      index := -1;
    }

    method NextHopPort(target: nat) returns (port: nat)
      requires Valid()
      ensures port == NextHop(Cfg(), target)
    {
      var mine := ChainIndexOf(myNodeId);
      var theirs := ChainIndexOf(target);
      if mine < 0 || theirs < 0 {
        return PORT_NONE;
      }
      return if theirs < mine then portTowardLower else portTowardHigher;
    }

    /** Other connection threads applying records while this one holds no table lock. */
    method Interfere(us: seq<Arrival>)
      requires Valid()
      modifies hosts, hosts.table
      ensures Valid() && hosts.table == old(hosts.table)
      ensures hosts.View() == ApplyAll(old(hosts.View()), us)
      ensures hosts.history == old(hosts.history) + Remotes(us)
    {
      hide Recorded, TableOf, Distinct, Warrants, Carried, Counted;
      ghost var h := hosts.View();
      for i := 0 to |us|
        invariant Valid() && hosts.table == old(hosts.table)
        invariant hosts.View() == ApplyAll(h, us[..i])
        invariant hosts.history == old(hosts.history) + Remotes(us)[..i]
      {
        assert us[..i + 1][..i] == us[..i];
        var _ := hosts.Apply(us[i].loc, us[i].now);
      }
      assert us[..|us|] == us;
    }

    /** The host-port half of on_no_rule; `between` is what other threads apply between the
        learn and the lookup. */
    method LearnAndDisseminate(info: PacketInfo, now: nat, between: seq<Arrival>)
      requires Valid()
      modifies this`disseminated, this`stats, hosts, hosts.table
      ensures Valid() && hosts.table == old(hosts.table)
      ensures hosts.View() == AfterLearning(Cfg(), old(hosts.View()), info, now, between)
      ensures hosts.history == old(hosts.history) + Learns(info, hostPort, myDpid, now) + Remotes(between)
      ensures info.inPort != hostPort ==> hosts.View() == ApplyAll(old(hosts.View()), between)
      ensures var own := Owned(old(hosts.View()), info, hostPort, myDpid, now);
        && (own != [] ==> info.macSrc in hosts.View().table && hosts.View().table[info.macSrc] == own[0])
        && disseminated == old(disseminated) + (if hasTransport then own else [])
        && stats == old(stats).(localHostsLearned := old(stats).localHostsLearned + |own|,
             remoteUpdatesDisseminated := old(stats).remoteUpdatesDisseminated + if hasTransport then |own| else 0)
    {
      hide Recorded, ApplyAll, TableOf, Distinct;
      ghost var h := hosts.View();
      HostIsOk(hosts.View(), hosts.stats, hosts.history);
      if info.inPort == hostPort {
        var sequence := hosts.LearnLocal(info.macSrc, myDpid, info.inPort, now);
        Interfere(between);
        if sequence != 0 {
          stats := stats.(localHostsLearned := stats.localHostsLearned + 1);
          var learned := hosts.Find(info.macSrc);
          LearnedSurvives(h, info.macSrc, myDpid, info.inPort, now, between);
          if learned.Some? && hasTransport {
            disseminated := disseminated + [learned.value];
            stats := stats.(remoteUpdatesDisseminated := stats.remoteUpdatesDisseminated + 1);
          }
        }
      } else {
        Interfere(between);
      }
    }

    /** The lookup of the destination and the port chosen for it. */
    method ChoosePort(dst: Mac) returns (outPort: nat)
      requires Valid()
      ensures outPort == Decide(Cfg(), hosts.View(), dst)
      ensures Points(Cfg(), hosts.View(), dst, outPort)
    {
      DecidePoints(Cfg(), hosts.View(), dst);
      hide Recorded, TableOf, Distinct, Points;
      var dest := hosts.Find(dst);
      match dest {
        case Some(r) =>
          if r.isLocal != 0 {
            return r.port % 0x1_0000;
          }
          outPort := NextHopPort(r.origin);
        case None =>
          return PORT_FLOOD;
      }
    }

    /** The other half: the decision, and a flow for it unless it is to flood or goes nowhere. */
    method DecideAndInstall(info: PacketInfo, between: seq<Arrival>, added: bool)
      requires Valid()
      modifies this`decidedPort, this`flows, this`stats, hosts, hosts.table
      ensures Valid() && hosts.table == old(hosts.table)
      ensures hosts.View() == ApplyAll(old(hosts.View()), between) && hosts.history == old(hosts.history) + Remotes(between)
      ensures decidedPort == Decide(Cfg(), hosts.View(), info.macDst) && Points(Cfg(), hosts.View(), info.macDst, decidedPort)
      ensures flows == old(flows) + Installed(info, decidedPort, added)
      ensures flows != old(flows) <==> Installs(decidedPort) && added
      ensures stats == old(stats).(flowsInstalled := old(stats).flowsInstalled + |Installed(info, decidedPort, added)|)
    {
      hide Recorded, ApplyAll, TableOf, Distinct, Decide, Points, Remotes;
      Interfere(between);
      var outPort := ChoosePort(info.macDst);
      if outPort != PORT_FLOOD && outPort != PORT_NONE && added {
        flows := flows + [Flow(info.inPort, info.macDst, outPort)];
        stats := stats.(flowsInstalled := stats.flowsInstalled + 1);
      }
      decidedPort := outPort;
    }

    /** on_no_rule. `first` and `second` are what other threads apply between learning and
        looking up, and between disseminating and deciding; `added` is the switch adapter's
        answer to the flow installation. */
    method OnNoRule(info: PacketInfo, now: nat, first: seq<Arrival>, second: seq<Arrival>, added: bool)
      requires Valid()
      modifies this, hosts, hosts.table
      ensures Valid() && hosts.table == old(hosts.table)
      ensures hosts.View() == ApplyAll(AfterLearning(Cfg(), old(hosts.View()), info, now, first), second)
      ensures decidedPort == Decide(Cfg(), hosts.View(), info.macDst)
      ensures Points(Cfg(), hosts.View(), info.macDst, decidedPort)
      ensures var own := Owned(old(hosts.View()), info, hostPort, myDpid, now);
        && disseminated == old(disseminated) + (if hasTransport then own else [])
        && stats.noRuleEvents == old(stats).noRuleEvents + 1
        && stats.localHostsLearned == old(stats).localHostsLearned + |own|
        && stats.remoteUpdatesDisseminated == old(stats).remoteUpdatesDisseminated + if hasTransport then |own| else 0
      ensures flows == old(flows) + Installed(info, decidedPort, added)
      ensures stats.flowsInstalled == old(stats).flowsInstalled + |Installed(info, decidedPort, added)|
      ensures hosts.history == old(hosts.history) + Learns(info, hostPort, myDpid, now) + Remotes(first) + Remotes(second)
      ensures old(Filtered(hosts.history, hostPort)) ==> Filtered(hosts.history, hostPort)
    {
      if Filtered(hosts.history, hostPort) {
        EventKeepsFiltered(hosts.history, info, hostPort, myDpid, now, first, second);
      }
      hide Recorded, ApplyAll, TableOf, Distinct, Decide, AfterLearning, Points, Filtered, Learns, Owned, Remotes, Installed;
      stats := stats.(noRuleEvents := stats.noRuleEvents + 1);
      LearnAndDisseminate(info, now, first);
      DecideAndInstall(info, second, added);
    }
  }

  /** So the handler's decisions are those of a filtered run: as long as the history holds no learn
      from another port, every local record points at the host port, the decision for any
      destination is the one `DecisionsSettle` speaks of, and so are all before it. */
  lemma {:induction false} HandlerSettles(app: LearningApp, dst: Mac) returns (a: nat, b: nat, p: nat)
    requires app.Valid() && app.hosts.nodeId == app.myNodeId && app.hostPort < 0x1_0000
    requires Filtered(app.hosts.history, app.hostPort)
    ensures var ops := app.hosts.history;
      && Settles(app.Cfg(), app.hosts.ownerEpoch, ops, dst, a, b, p)
      && Decide(app.Cfg(), app.hosts.View(), dst) == DecisionAt(app.Cfg(), app.hosts.ownerEpoch, ops, |ops|, dst)
    ensures dst in app.hosts.View().table && app.hosts.View().table[dst].isLocal != 0 ==>
      app.hosts.View().table[dst].port == app.hostPort
  {
    var cfg, epoch, ops := app.Cfg(), app.hosts.ownerEpoch, app.hosts.history;
    HistoryMakesView(app.hosts);
    hide Recorded, TableOf, Distinct, Settles, Stage, Decide, Filtered;
    a, b, p := DecisionsSettle(cfg, epoch, ops, dst);
    LocalMeansHostPort(cfg.nodeId, epoch, ops, cfg.hostPort, dst);
    assert ops[..|ops|] == ops;
  }

  lemma {:induction false} HistoryMakesView(hosts: HostTable)
    requires hosts.Valid()
    ensures hosts.nodeId != 0 && hosts.View() == Run(Init(hosts.nodeId, hosts.ownerEpoch), hosts.history)
  {
  }

  lemma {:induction false} HostIsOk(h: Host, tally: Tally, history: seq<Op>)
    requires Recorded(h, tally, history)
    ensures Ok(h)
  {
  }
}
