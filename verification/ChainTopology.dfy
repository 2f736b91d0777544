/** The line of switches, one host each: how the ports get their numbers when the links are
    created, and that the two ports each node is configured with are the right ones.
 */
module ChainTopology {
  import opened Basics

  /** Where a cable ends. Switches and their hosts are numbered by position from 0. */
  datatype End = ToHost(at: nat) | ToSwitch(at: nat, port: nat)

  datatype Link = Link(a: End, b: End)

  const HOST_PORT: nat := 1

  /** chain_ports: (port toward lower, port toward higher) of node `id`, counted from 1;
      0 where there is no such neighbour. */
  function ChainPorts(id: nat, n: nat): (nat, nat) {
    (if id == 1 then 0 else 2, if id == 1 then 2 else if id == n then 0 else 3)
  }

  /** What is at the other end of `port` of switch `i`. */
  function Neighbour(n: nat, i: nat, port: nat): Option<End> {
    if i >= n then None
    else if port == HOST_PORT then Some(ToHost(i))
    else if 0 < i && port == 2 then Some(ToSwitch(i - 1, if i == 1 then 2 else 3))
    else if i + 1 < n && port == (if i == 0 then 2 else 3) then Some(ToSwitch(i + 1, 2))
    else None
  }

  ghost predicate Cabled(links: seq<Link>, a: End, b: End) {
    Link(a, b) in links || Link(b, a) in links
  }

  /** Each link exactly where creation order puts it. */
  ghost predicate InOrder(links: seq<Link>, n: nat, made: nat) {
    && |links| == n + made
    && (forall i :: 0 <= i < n ==> links[i] == Link(ToHost(i), ToSwitch(i, HOST_PORT)))
    && (forall k :: n <= k < n + made ==> links[k] == Link(ToSwitch(k - n, if k == n then 2 else 3), ToSwitch(k - n + 1, 2)))
  }

  /** ChainTopo.build. Every switch hands out its ports from 1 upwards; hosts have one port. */
  method Build(n: nat) returns (links: seq<Link>)
    requires n > 0
    ensures forall i: nat, port: nat, far :: i < n ==> (Cabled(links, ToSwitch(i, port), far) <==> Neighbour(n, i, port) == Some(far))
    ensures forall i: nat, far :: i < n ==> (Cabled(links, ToHost(i), far) <==> far == ToSwitch(i, HOST_PORT))
    ensures |links| == 2 * n - 1
  {
    var nextPort := new nat[n](_ => 1);
    links := [];
    for i := 0 to n
      invariant |links| == i
      invariant forall k :: 0 <= k < i ==> links[k] == Link(ToHost(k), ToSwitch(k, HOST_PORT))
      invariant forall k :: 0 <= k < n ==> nextPort[k] == if k < i then 2 else 1
    {
      links := links + [Link(ToHost(i), ToSwitch(i, nextPort[i]))];
      nextPort[i] := nextPort[i] + 1;
    }
    for i := 0 to n - 1
      invariant InOrder(links, n, i)
      invariant forall k :: 0 <= k < n ==> nextPort[k] == if k > i || (i == 0 && k == 0) then 2 else if k == i || k == 0 then 3 else 4
    {
      links := links + [Link(ToSwitch(i, nextPort[i]), ToSwitch(i + 1, nextPort[i + 1]))];
      nextPort[i] := nextPort[i] + 1;
      nextPort[i + 1] := nextPort[i + 1] + 1;
    }
    forall i: nat, port: nat, far | i < n
      ensures Cabled(links, ToSwitch(i, port), far) <==> Neighbour(n, i, port) == Some(far)
    {
      SwitchCables(links, n, i, port, far);
    }
    forall i: nat, far | i < n
      ensures Cabled(links, ToHost(i), far) <==> far == ToSwitch(i, HOST_PORT)
    {
      HostCable(links, n, i, far);
    }
  }

  lemma {:induction false} SwitchCables(links: seq<Link>, n: nat, i: nat, port: nat, far: End)
    requires i < n && InOrder(links, n, n - 1)
    ensures Cabled(links, ToSwitch(i, port), far) <==> Neighbour(n, i, port) == Some(far)
  {
    assert links[i] in links;
    if 0 < i {
      assert links[n + i - 1] in links;
    }
    if i + 1 < n {
      assert links[n + i] in links;
    }
  }

  lemma {:induction false} HostCable(links: seq<Link>, n: nat, i: nat, far: End)
    requires i < n && InOrder(links, n, n - 1)
    ensures Cabled(links, ToHost(i), far) <==> far == ToSwitch(i, HOST_PORT)
  {
  }

  /** The configured ports lead to the two neighbours, and 0 stands where there is none. */
  lemma {:induction false} ConfiguredPortsLeadThere(n: nat, i: nat)
    requires i < n && 2 <= n
    ensures var (lower, higher) := ChainPorts(i + 1, n);
      && (0 < i ==> Neighbour(n, i, lower) == Some(ToSwitch(i - 1, ChainPorts(i, n).1)))
      && (i + 1 < n ==> Neighbour(n, i, higher) == Some(ToSwitch(i + 1, ChainPorts(i + 2, n).0)))
      && (i == 0 ==> lower == 0) && (i + 1 == n ==> higher == 0)
      && Neighbour(n, i, 0) == None
      && lower != HOST_PORT && higher != HOST_PORT && lower != higher
  {
  }
}
