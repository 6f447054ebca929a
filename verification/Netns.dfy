/**
 The network namespace of a gateway pod, and what the commands run in it do to it.

 A command is a list of operations. The shell runs them all, also after one has failed; the run is
 clean when none failed (internal/controller/vpcnattunnel_controller.go:74-120).
 */
module Netns {

  datatype Kind = Gre | Vxlan(vid: string, port: string)

  datatype Device = Device(kind: Kind, remote: string, local: string, up: bool, addrs: set<string>)

  /** Where a route sends its traffic. */
  datatype Hop = Via(gateway: string, dev: string) | Direct(dev: string)

  /** A source NAT rule of the POSTROUTING chain. */
  datatype Rule = Rule(dst: string, toSource: string)

  /** The tunnel devices, the routes by destination, and the POSTROUTING rules in order. */
  datatype NetNs = NetNs(devs: map<string, Device>, routes: map<string, Hop>, rules: seq<Rule>)

  const EMPTY := NetNs(map[], map[], [])

  datatype Op =
    | TunnelAddGre(name: string, remote: string, local: string)
    | LinkAddVxlan(name: string, vid: string, port: string, remote: string, local: string)
    | LinkSetUp(name: string)
    | AddrAdd(addr: string, name: string)
    | TunnelDel(name: string)
    | LinkDel(name: string)
    | RouteAdd(dst: string, hop: Hop)
    | RouteDel(dst: string, hop: Hop)
    | SnatAppend(rule: Rule)
    | SnatDelete(rule: Rule)
    | Unknown

  /** The pod's own interfaces. They are always there and are no tunnel devices. */
  predicate OwnInterface(dev: string) {
    dev == "lo" || dev == "eth0" || dev == "net1"
  }

  predicate Present(ns: NetNs, dev: string) {
    OwnInterface(dev) || dev in ns.devs
  }

  /** Every route leaves through an interface that is there. */
  predicate WellFormed(ns: NetNs) {
    forall dst | dst in ns.routes :: Present(ns, ns.routes[dst].dev)
  }

  /** Deleting a device takes its routes along. */
  function Without(ns: NetNs, dev: string): NetNs {
    ns.(devs := ns.devs - {dev},
        routes := map dst | dst in ns.routes && ns.routes[dst].dev != dev :: ns.routes[dst])
  }

  /** `iptables -D` removes the first rule that matches. */
  function RemoveFirst(rules: seq<Rule>, rule: Rule): seq<Rule> {
    if rules == [] then []
    else if rules[0] == rule then rules[1..]
    else [rules[0]] + RemoveFirst(rules[1..], rule)
  }

  datatype Ran = Ran(ns: NetNs, ok: bool)

  function RunOp(ns: NetNs, op: Op): Ran {
    match op
    case TunnelAddGre(name, remote, local) =>
      if Present(ns, name) then Ran(ns, false)
      else Ran(ns.(devs := ns.devs[name := Device(Gre, remote, local, false, {})]), true)
    case LinkAddVxlan(name, vid, port, remote, local) =>
      if Present(ns, name) then Ran(ns, false)
      else Ran(ns.(devs := ns.devs[name := Device(Vxlan(vid, port), remote, local, false, {})]), true)
    case LinkSetUp(name) =>
      if name in ns.devs then Ran(ns.(devs := ns.devs[name := ns.devs[name].(up := true)]), true)
      else Ran(ns, false)
    case AddrAdd(addr, name) =>
      if name in ns.devs && addr !in ns.devs[name].addrs then
        Ran(ns.(devs := ns.devs[name := ns.devs[name].(addrs := ns.devs[name].addrs + {addr})]), true)
      else Ran(ns, false)
    case TunnelDel(name) =>
      // `ip tunnel` knows GRE devices only
      if name in ns.devs && ns.devs[name].kind.Gre? then Ran(Without(ns, name), true)
      else Ran(ns, false)
    case LinkDel(name) =>
      if name in ns.devs then Ran(Without(ns, name), true)
      else Ran(ns, false)
    case RouteAdd(dst, hop) =>
      if dst in ns.routes || !Present(ns, hop.dev) then Ran(ns, false)
      else Ran(ns.(routes := ns.routes[dst := hop]), true)
    case RouteDel(dst, hop) =>
      if dst in ns.routes && ns.routes[dst] == hop then Ran(ns.(routes := ns.routes - {dst}), true)
      else Ran(ns, false)
    case SnatAppend(rule) =>
      Ran(ns.(rules := ns.rules + [rule]), true)
    case SnatDelete(rule) =>
      if rule in ns.rules then Ran(ns.(rules := RemoveFirst(ns.rules, rule)), true)
      else Ran(ns, false)
    case Unknown =>
      Ran(ns, false)
  }

  /** `a;b;c` runs every operation; it is clean when all are. */
  function RunOps(ns: NetNs, ops: seq<Op>): Ran
    decreases |ops|
  {
    if ops == [] then Ran(ns, true)
    else
      var first := RunOp(ns, ops[0]);
      var rest := RunOps(first.ns, ops[1..]);
      Ran(rest.ns, first.ok && rest.ok)
  }

  lemma RunOne(ns: NetNs, a: Op)
    ensures RunOps(ns, [a]) == RunOp(ns, a)
  {
    assert [a][1..] == [];
  }

  lemma RunThree(ns: NetNs, a: Op, b: Op, c: Op)
    ensures var ra := RunOp(ns, a); var rb := RunOp(ra.ns, b); var rc := RunOp(rb.ns, c);
            RunOps(ns, [a, b, c]) == Ran(rc.ns, ra.ok && rb.ok && rc.ok)
  {
    assert [a, b, c][1..] == [b, c];
    assert [b, c][1..] == [c];
    var ra := RunOp(ns, a);
    var rb := RunOp(ra.ns, b);
    RunOne(rb.ns, c);
  }

  lemma RunOpWellFormed(ns: NetNs, op: Op)
    requires WellFormed(ns)
    ensures WellFormed(RunOp(ns, op).ns)
  {
  }

  lemma {:induction false} RunOpsWellFormed(ns: NetNs, ops: seq<Op>)
    requires WellFormed(ns)
    ensures WellFormed(RunOps(ns, ops).ns)
    decreases |ops|
  {
    hide RunOp, WellFormed;
    if ops != [] {
      RunOpWellFormed(ns, ops[0]);
      RunOpsWellFormed(RunOp(ns, ops[0]).ns, ops[1..]);
    }
  }

  lemma {:induction false} RemoveFirstOfAppended(rules: seq<Rule>, rule: Rule)
    ensures rule !in rules ==> RemoveFirst(rules + [rule], rule) == rules
    ensures multiset(RemoveFirst(rules + [rule], rule)) == multiset(rules)
  {
    if rules == [] {
    } else if rules[0] == rule {
      assert (rules + [rule])[1..] == rules[1..] + [rule];
      assert rules == [rules[0]] + rules[1..];
    } else {
      RemoveFirstOfAppended(rules[1..], rule);
      assert (rules + [rule])[1..] == rules[1..] + [rule];
      assert rules == [rules[0]] + rules[1..];
    }
  }

  lemma {:induction false} RemoveFirstKeepsOthers(rules: seq<Rule>, rule: Rule, other: Rule)
    requires other != rule
    ensures multiset(RemoveFirst(rules, rule))[other] == multiset(rules)[other]
  {
    if rules != [] {
      RemoveFirstKeepsOthers(rules[1..], rule, other);
      assert rules == [rules[0]] + rules[1..];
    }
  }
}
