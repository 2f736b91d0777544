/** The forwarding decision of the distributed learning application, and its stability over
    whole runs of one node's table.
 */
module Decisions {
  import opened HostRuns
  import opened HostState

  const PORT_FLOOD: nat := 0xfffb
  const PORT_NONE: nat := 0xfffe

  datatype Config = Config(nodeId: nat, dpid: nat, hostPort: nat, chain: seq<nat>, lower: nat, higher: nat)

  /** The first position of `id` at or after `i`, or -1. */
  function IndexFrom(chain: seq<nat>, id: nat, i: nat): (k: int)
    requires i <= |chain|
    ensures k == -1 || (i <= k < |chain| && chain[k] == id)
    ensures k == -1 ==> forall j :: i <= j < |chain| ==> chain[j] != id
    ensures k != -1 ==> forall j :: i <= j < k ==> chain[j] != id
    decreases |chain| - i
  {
    if i == |chain| then -1 else if chain[i] == id then i else IndexFrom(chain, id, i + 1)
  }

  function NextHop(cfg: Config, target: nat): nat {
    var mine := IndexFrom(cfg.chain, cfg.nodeId, 0);
    var theirs := IndexFrom(cfg.chain, target, 0);
    if mine < 0 || theirs < 0 then PORT_NONE
    else if theirs < mine then cfg.lower else cfg.higher
  }

  /** Local first, then the remote cache; a port is a 16-bit number. */
  function Decide(cfg: Config, h: Host, dst: Mac): nat {
    match Lookup(h, dst)
    case None => PORT_FLOOD
    case Some(r) => if r.isLocal != 0 then r.port % 0x1_0000 else NextHop(cfg, r.origin)
  }

  /** `i` is the first position of `id` in the chain. */
  ghost predicate FirstAt(chain: seq<nat>, id: nat, i: nat) {
    i < |chain| && chain[i] == id && id !in chain[..i]
  }

  /** What the decision for `dst` has to be: FLOOD for an unknown MAC, a local one's own port, the
      port towards a remote owner by the two positions in the chain, and NONE when either node
      has no position there. */
  ghost predicate Points(cfg: Config, h: Host, dst: Mac, port: nat) {
    if dst !in h.table then port == 0xfffb
    else if h.table[dst].isLocal != 0 then port == h.table[dst].port % 0x1_0000
    else if cfg.nodeId !in cfg.chain || h.table[dst].origin !in cfg.chain then port == 0xfffe
    else
      exists i, j :: FirstAt(cfg.chain, cfg.nodeId, i) && FirstAt(cfg.chain, h.table[dst].origin, j)
        && port == if j < i then cfg.lower else cfg.higher
  }

  lemma {:induction false} FoundFirst(chain: seq<nat>, id: nat)
    ensures id in chain <==> IndexFrom(chain, id, 0) >= 0
    ensures id in chain ==> FirstAt(chain, id, IndexFrom(chain, id, 0))
  {
  }

  lemma {:induction false} DecidePoints(cfg: Config, h: Host, dst: Mac)
    ensures Points(cfg, h, dst, Decide(cfg, h, dst))
  {
    if dst in h.table {
      FoundFirst(cfg.chain, cfg.nodeId);
      FoundFirst(cfg.chain, h.table[dst].origin);
      hide IndexFrom, FirstAt;
      assert h.table[dst].isLocal == 0 && cfg.nodeId in cfg.chain && h.table[dst].origin in cfg.chain ==>
        Decide(cfg, h, dst) == if IndexFrom(cfg.chain, h.table[dst].origin, 0) < IndexFrom(cfg.chain, cfg.nodeId, 0)
          then cfg.lower else cfg.higher;
    }
  }

  predicate Installs(port: nat) {
    port != PORT_FLOOD && port != PORT_NONE
  }

  // ---------- Runs of a node that learns only on its host port ----------

  /** The filter in on_no_rule. */
  ghost predicate Filtered(ops: seq<Op>, hostPort: nat) {
    forall i :: 0 <= i < |ops| && ops[i].Learn? ==> ops[i].port == hostPort
  }

  lemma {:induction false} LocalMeansHostPort(id: nat, epoch: nat, ops: seq<Op>, hostPort: nat, m: Mac)
    requires id != 0 && Filtered(ops, hostPort)
    ensures var h := Run(Init(id, epoch), ops);
      m in h.table && h.table[m].isLocal != 0 ==> h.table[m].port == hostPort
    decreases |ops|
  {
    if ops != [] {
      LocalMeansHostPort(id, epoch, ops[..|ops| - 1], hostPort, m);
      var before := Run(Init(id, epoch), ops[..|ops| - 1]);
      RunKeepsOk(Init(id, epoch), ops[..|ops| - 1]);
      assert m in before.table ==> RecordOk(before, m, before.table[m]);
    }
  }

  function DecisionAt(cfg: Config, epoch: nat, ops: seq<Op>, i: nat, dst: Mac): nat
    requires i <= |ops|
  {
    Decide(cfg, Run(Init(cfg.nodeId, epoch), ops[..i]), dst)
  }

  /** The decisions for one destination over a run read FLOOD* p* host_port*. */
  ghost predicate Settles(cfg: Config, epoch: nat, ops: seq<Op>, dst: Mac, a: nat, b: nat, p: nat) {
    && a <= b <= |ops| + 1
    && (forall i :: 0 <= i < a ==> DecisionAt(cfg, epoch, ops, i, dst) == PORT_FLOOD)
    && (forall i :: a <= i < b ==> DecisionAt(cfg, epoch, ops, i, dst) == p)
    && (forall i :: b <= i <= |ops| ==> DecisionAt(cfg, epoch, ops, i, dst) == cfg.hostPort)
  }

  /** How far along its life `dst` is after the run, and the split that goes with it. */
  ghost predicate Stage(cfg: Config, epoch: nat, ops: seq<Op>, dst: Mac, a: nat, b: nat, p: nat) {
    match Lookup(Run(Init(cfg.nodeId, epoch), ops), dst)
    case None => a == b == |ops| + 1
    case Some(r) =>
      if r.origin == cfg.nodeId then b <= |ops| else a <= |ops| && b == |ops| + 1 && p == NextHop(cfg, r.origin)
  }

  lemma {:induction false} SettlesExtends(cfg: Config, epoch: nat, ops: seq<Op>, dst: Mac, a: nat, b: nat, p: nat, a2: nat, b2: nat, p2: nat)
    requires ops != [] && Settles(cfg, epoch, ops[..|ops| - 1], dst, a, b, p)
    requires a2 <= b2 <= |ops| + 1
    requires a2 == a || (a == |ops| && a <= a2)
    requires b2 == b || (b == |ops| && b <= b2)
    requires p2 == p || a >= |ops|
    requires var d := DecisionAt(cfg, epoch, ops, |ops|, dst);
      d == if |ops| < a2 then PORT_FLOOD else if |ops| < b2 then p2 else cfg.hostPort
    ensures Settles(cfg, epoch, ops, dst, a2, b2, p2)
  {
    var init := ops[..|ops| - 1];
    forall i: nat | i <= |init| ensures DecisionAt(cfg, epoch, ops, i, dst) == DecisionAt(cfg, epoch, init, i, dst) {
      assert ops[..i] == init[..i];
    }
  }

  lemma {:induction false} DecisionsSettle(cfg: Config, epoch: nat, ops: seq<Op>, dst: Mac) returns (a: nat, b: nat, p: nat)
    requires cfg.nodeId != 0 && cfg.hostPort < 0x1_0000 && Filtered(ops, cfg.hostPort)
    ensures Settles(cfg, epoch, ops, dst, a, b, p) && Stage(cfg, epoch, ops, dst, a, b, p)
    decreases |ops|
  {
    assert ops[..|ops|] == ops;
    if ops == [] {
      a, b, p := 1, 1, 0;
    } else {
      var h0, init := Init(cfg.nodeId, epoch), ops[..|ops| - 1];
      var before, after := Run(h0, init), Run(h0, ops);
      var a0, b0, p0 := DecisionsSettle(cfg, epoch, init, dst);
      RunKeepsOk(h0, init);
      RunKeepsOk(h0, ops);
      StepFollows(before, ops[|ops| - 1], dst);
      LocalMeansHostPort(cfg.nodeId, epoch, ops, cfg.hostPort, dst);
      a, b, p := NextSplit(cfg, |ops|, before, after, dst, a0, b0, p0);
      SettlesExtends(cfg, epoch, ops, dst, a0, b0, p0, a, b, p);
    }
  }

  /** How one step moves the split of a run of `n - 1` steps. */
  lemma {:induction false} NextSplit(cfg: Config, n: nat, before: Host, after: Host, dst: Mac, a0: nat, b0: nat, p0: nat)
    returns (a: nat, b: nat, p: nat)
    requires n > 0 && a0 <= b0 <= n && cfg.hostPort < 0x1_0000
    requires Ok(before) && Ok(after) && before.id == after.id == cfg.nodeId
    requires Follows(cfg.nodeId, Lookup(before, dst), Lookup(after, dst))
    requires match Lookup(before, dst)
      case None => a0 == b0 == n
      case Some(r) => if r.origin == cfg.nodeId then b0 <= n - 1 else a0 <= n - 1 && b0 == n && p0 == NextHop(cfg, r.origin)
    requires dst in after.table && after.table[dst].isLocal != 0 ==> after.table[dst].port == cfg.hostPort
    ensures a <= b <= n + 1
    ensures (a == a0 || (a0 == n && a0 <= a)) && (b == b0 || (b0 == n && b0 <= b)) && (p == p0 || a0 >= n)
    ensures Decide(cfg, after, dst) == if n < a then PORT_FLOOD else if n < b then p else cfg.hostPort
    ensures match Lookup(after, dst)
      case None => a == b == n + 1
      case Some(r) => if r.origin == cfg.nodeId then b <= n else a <= n && b == n + 1 && p == NextHop(cfg, r.origin)
  {
    a, b, p := a0, b0, p0;
    if dst !in after.table {
      a, b := n + 1, n + 1;
    } else {
      var r := after.table[dst];
      assert RecordOk(after, dst, r);
      if r.origin != cfg.nodeId {
        b := n + 1;
        if dst !in before.table {
          p := NextHop(cfg, r.origin);
        }
      }
    }
  }

  /** On a switch that never learns `dst` itself, all flows installed for it share one port. */
  lemma {:induction false} TransitFlowsAgree(cfg: Config, epoch: nat, ops: seq<Op>, dst: Mac, i: nat, j: nat)
    requires cfg.nodeId != 0 && i <= j <= |ops|
    requires forall k :: 0 <= k < |ops| && ops[k].Learn? ==> ops[k].mac != dst
    requires Installs(DecisionAt(cfg, epoch, ops, i, dst)) && Installs(DecisionAt(cfg, epoch, ops, j, dst))
    ensures DecisionAt(cfg, epoch, ops, i, dst) == DecisionAt(cfg, epoch, ops, j, dst)
  {
    var h0 := Init(cfg.nodeId, epoch);
    LifeCycle(h0, ops, i, j, dst);
    RunKeepsOk(h0, ops[..i]);
    RunKeepsOk(h0, ops[..j]);
    NeverLearnedNeverLocal(h0, ops[..i], dst);
    NeverLearnedNeverLocal(h0, ops[..j], dst);
  }

  lemma {:induction false} NeverLearnedNeverLocal(h: Host, ops: seq<Op>, dst: Mac)
    requires Ok(h) && dst !in h.table
    requires forall k :: 0 <= k < |ops| && ops[k].Learn? ==> ops[k].mac != dst
    ensures dst in Run(h, ops).table ==> Run(h, ops).table[dst].isLocal == 0 && Run(h, ops).table[dst].origin != h.id
    decreases |ops|
  {
    if ops != [] {
      NeverLearnedNeverLocal(h, ops[..|ops| - 1], dst);
      RunKeepsOk(h, ops[..|ops| - 1]);
    }
  }
}
