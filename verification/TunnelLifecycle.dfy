/**
 What the generated commands do to a namespace: building is undone by taking down, and the commands
 of one tunnel leave the other tunnels of the gateway alone.
 */
module TunnelLifecycle {
  import opened Api
  import opened Netns
  import opened TunnelCommands

  /** How an exec goes: it runs, or the connection breaks after some operations and an error is reported. */
  datatype Fault = Healthy | CutAfter(n: nat)

  /** execCommandInPod: `sh -c text` in a namespace. */
  function RunText(ns: NetNs, text: string, fault: Fault): Ran {
    var ops := Parse(text);
    match fault
    case Healthy => RunOps(ns, ops)
    case CutAfter(n) => Ran(RunOps(ns, if n < |ops| then ops[..n] else ops).ns, false)
  }

  /** The finished device of a tunnel. */
  function DeviceOf(kind: Kind, st: TunnelStatus): Device {
    Device(kind, st.remoteIP, st.internalIP, true, {st.interfaceAddr})
  }

  /** The namespace with a tunnel added: one device, two routes, one rule at the end. */
  function Built(ns: NetNs, name: string, kind: Kind, st: TunnelStatus): NetNs
    requires st.globalEgressIP != []
  {
    NetNs(ns.devs[name := DeviceOf(kind, st)],
          ns.routes[st.globalnetCIDR := InFlow(st)][st.remoteGlobalnetCIDR := Direct(name)],
          ns.rules + [Snat(st)])
  }

  /** There is room for a tunnel: no such device, and neither destination is routed yet. */
  predicate Room(ns: NetNs, name: string, st: TunnelStatus) {
    && !Present(ns, name)
    && st.globalnetCIDR !in ns.routes
    && st.remoteGlobalnetCIDR !in ns.routes
    && st.globalnetCIDR != st.remoteGlobalnetCIDR
  }

  lemma CreateRuns(ns: NetNs, name: Word, typ: string, st: TunnelStatus, labels: map<string, Word>)
    ensures var r := RunText(ns, CreateCmd(name, typ, st, labels), Healthy);
            && (r.ok <==> !Present(ns, name))
            && (r.ok ==> r.ns == ns.(devs := ns.devs[name := DeviceOf(KindFor(typ, labels), st)]))
  {
    CreateCmdMeans(name, typ, st, labels);
    CreateOpsRun(ns, name, typ, st, labels);
  }

  lemma CreateOpsRun(ns: NetNs, name: string, typ: string, st: TunnelStatus, labels: map<string, Word>)
    ensures var r := RunOps(ns, CreateOps(name, typ, st, labels));
            && (r.ok <==> !Present(ns, name))
            && (r.ok ==> r.ns == ns.(devs := ns.devs[name := DeviceOf(KindFor(typ, labels), st)]))
  {
    var ops := CreateOps(name, typ, st, labels);
    RunThree(ns, ops[0], ops[1], ops[2]);
    assert ops == [ops[0], ops[1], ops[2]];
    if !Present(ns, name) {
      var added := RunOp(ns, ops[0]).ns;
      var up := RunOp(added, ops[1]).ns;
      var done := RunOp(up, ops[2]).ns;
      assert done.devs[name] == DeviceOf(KindFor(typ, labels), st);
      assert done.devs == ns.devs[name := DeviceOf(KindFor(typ, labels), st)];
    }
  }

  lemma RouteRuns(ns: NetNs, name: Word, st: TunnelStatus)
    requires st.globalEgressIP != [] && name in ns.devs
    ensures var r := RunText(ns, GenGlobalnetRoute(name, st), Healthy);
            && (r.ok <==> st.globalnetCIDR !in ns.routes && st.remoteGlobalnetCIDR !in ns.routes
                          && st.globalnetCIDR != st.remoteGlobalnetCIDR)
            && (r.ok ==>
                  var routes := ns.routes[st.globalnetCIDR := InFlow(st)][st.remoteGlobalnetCIDR := Direct(name)];
                  r.ns == ns.(routes := routes, rules := ns.rules + [Snat(st)]))
            && r.ns.devs == ns.devs
  {
    GenGlobalnetRouteMeans(name, st);
    RunThree(ns, RouteAdd(st.globalnetCIDR, InFlow(st)), RouteAdd(st.remoteGlobalnetCIDR, Direct(name)),
             SnatAppend(Snat(st)));
  }

  /** Building runs cleanly exactly when there is room, and then adds the tunnel and nothing else. */
  lemma BuildExact(ns: NetNs, name: Word, typ: string, st: TunnelStatus, labels: map<string, Word>)
    requires st.globalEgressIP != []
    ensures var create := RunText(ns, CreateCmd(name, typ, st, labels), Healthy);
            var route := RunText(create.ns, GenGlobalnetRoute(name, st), Healthy);
            && (create.ok && route.ok <==> Room(ns, name, st))
            && (Room(ns, name, st) ==> route.ns == Built(ns, name, KindFor(typ, labels), st))
  {
    CreateRuns(ns, name, typ, st, labels);
    var create := RunText(ns, CreateCmd(name, typ, st, labels), Healthy);
    if create.ok {
      RouteRuns(create.ns, name, st);
    }
  }

  lemma UnrouteRuns(ns: NetNs, name: Word, st: TunnelStatus)
    requires st.globalEgressIP != [] && st.globalnetCIDR != st.remoteGlobalnetCIDR
    requires st.globalnetCIDR in ns.routes && ns.routes[st.globalnetCIDR] == InFlow(st)
    requires st.remoteGlobalnetCIDR in ns.routes && ns.routes[st.remoteGlobalnetCIDR] == Direct(name)
    requires Snat(st) in ns.rules
    ensures RunText(ns, GenDelGlobalnetRoute(name, st), Healthy)
         == Ran(Unrouted(ns, st), true)
  {
    GenDelGlobalnetRouteMeans(name, st);
    RunThree(ns, RouteDel(st.globalnetCIDR, InFlow(st)), RouteDel(st.remoteGlobalnetCIDR, Direct(name)),
             SnatDelete(Snat(st)));
    assert ns.routes - {st.globalnetCIDR} - {st.remoteGlobalnetCIDR}
           == ns.routes - {st.globalnetCIDR, st.remoteGlobalnetCIDR};
  }

  /** `ip tunnel del` needs a GRE device, `ip link del` takes any. */
  lemma DeleteRuns(ns: NetNs, name: Word, typ: string)
    ensures RunText(ns, DeleteCmd(name, typ), Healthy)
         == if name in ns.devs && (IsVxlan(typ) || ns.devs[name].kind.Gre?) then Ran(Without(ns, name), true)
            else Ran(ns, false)
  {
    DeleteCmdMeans(name, typ);
    RunOne(ns, if IsVxlan(typ) then LinkDel(name) else TunnelDel(name));
  }

  /**
   Round trip: from any namespace with room, building and then taking down with the same status runs
   cleanly, for GRE and VXLAN, and restores devices and routes exactly. The rules come back as the
   same sequence when the SNAT rule was not there before, and as the same multiset in any case.
   */
  lemma BuildThenTakeDownRestores(ns: NetNs, name: Word, typ: string, st: TunnelStatus, labels: map<string, Word>)
    requires WellFormed(ns) && st.globalEgressIP != [] && Room(ns, name, st)
    ensures var create := RunText(ns, CreateCmd(name, typ, st, labels), Healthy);
            var route := RunText(create.ns, GenGlobalnetRoute(name, st), Healthy);
            var unroute := RunText(route.ns, GenDelGlobalnetRoute(name, st), Healthy);
            var delete := RunText(unroute.ns, DeleteCmd(name, typ), Healthy);
            && create.ok && route.ok && unroute.ok && delete.ok
            && delete.ns.devs == ns.devs && delete.ns.routes == ns.routes
            && multiset(delete.ns.rules) == multiset(ns.rules)
            && (Snat(st) !in ns.rules ==> delete.ns == ns)
  {
    BuildExact(ns, name, typ, st, labels);
    var built := Built(ns, name, KindFor(typ, labels), st);
    UnrouteRuns(built, name, st);
    DeleteRuns(Unrouted(built, st), name, typ);
    BuiltUnbuilt(ns, name, KindFor(typ, labels), st);
  }

  /** The namespace without the tunnel's routes and its rule. */
  function Unrouted(ns: NetNs, st: TunnelStatus): NetNs
    requires st.globalEgressIP != []
  {
    NetNs(ns.devs, ns.routes - {st.globalnetCIDR, st.remoteGlobalnetCIDR}, RemoveFirst(ns.rules, Snat(st)))
  }

  lemma BuiltUnbuilt(ns: NetNs, name: string, kind: Kind, st: TunnelStatus)
    requires WellFormed(ns) && st.globalEgressIP != [] && Room(ns, name, st)
    ensures var bare := Without(Unrouted(Built(ns, name, kind, st), st), name);
            && bare.devs == ns.devs && bare.routes == ns.routes
            && multiset(bare.rules) == multiset(ns.rules)
            && (Snat(st) !in ns.rules ==> bare.rules == ns.rules)
  {
    assert Unrouted(Built(ns, name, kind, st), st).routes == ns.routes;
    RemoveFirstOfAppended(ns.rules, Snat(st));
  }

  // ----- tunnels beside each other -----

  /** The operations that the commands of a tunnel consist of. */
  ghost predicate OpOf(op: Op, name: string, dst: string) {
    match op
    case TunnelAddGre(n, _, _) => n == name
    case LinkAddVxlan(n, _, _, _, _) => n == name
    case LinkSetUp(n) => n == name
    case AddrAdd(_, n) => n == name
    case TunnelDel(n) => n == name
    case LinkDel(n) => n == name
    case RouteAdd(_, Via(_, dev)) => dev == "eth0"
    case RouteDel(_, Via(_, dev)) => dev == "eth0"
    case RouteAdd(d, Direct(n)) => d == dst && n == name
    case RouteDel(d, Direct(n)) => d == dst && n == name
    case SnatAppend(rule) => rule.dst == dst
    case SnatDelete(rule) => rule.dst == dst
    case Unknown => false
  }

  /** Device, out-flow route and SNAT rules of another tunnel are the same in both namespaces. */
  ghost predicate SameFor(a: NetNs, b: NetNs, other: string, otherDst: string) {
    && (other in a.devs <==> other in b.devs)
    && (other in a.devs ==> a.devs[other] == b.devs[other])
    && ((otherDst in a.routes && a.routes[otherDst] == Direct(other))
        <==> (otherDst in b.routes && b.routes[otherDst] == Direct(other)))
    && (forall rule: Rule | rule.dst == otherDst :: multiset(a.rules)[rule] == multiset(b.rules)[rule])
  }

  lemma RuleKeepsOther(ns: NetNs, rule: Rule, other: string, otherDst: string)
    requires rule.dst != otherDst
    ensures SameFor(ns, RunOp(ns, SnatDelete(rule)).ns, other, otherDst)
  {
    forall r: Rule | r.dst == otherDst
      ensures multiset(ns.rules)[r] == multiset(RunOp(ns, SnatDelete(rule)).ns.rules)[r]
    {
      RemoveFirstKeepsOthers(ns.rules, rule, r);
    }
  }

  lemma OpKeepsOther(ns: NetNs, op: Op, name: string, dst: string, other: string, otherDst: string)
    requires OpOf(op, name, dst) && other != name && otherDst != dst && other != "eth0"
    ensures SameFor(ns, RunOp(ns, op).ns, other, otherDst)
  {
    hide RemoveFirst;
    if op.SnatDelete? {
      RuleKeepsOther(ns, op.rule, other, otherDst);
    }
  }

  lemma {:induction false} OpsKeepOther(ns: NetNs, ops: seq<Op>, name: string, dst: string, other: string,
                                        otherDst: string)
    requires forall op | op in ops :: OpOf(op, name, dst)
    requires other != name && otherDst != dst && other != "eth0"
    ensures SameFor(ns, RunOps(ns, ops).ns, other, otherDst)
    decreases |ops|
  {
    if ops != [] {
      OpKeepsOther(ns, ops[0], name, dst, other, otherDst);
      OpsKeepOther(RunOp(ns, ops[0]).ns, ops[1..], name, dst, other, otherDst);
    }
  }

  lemma TextKeepsOther(ns: NetNs, text: string, fault: Fault, name: string, dst: string, other: string,
                       otherDst: string)
    requires forall op | op in Parse(text) :: OpOf(op, name, dst)
    requires other != name && otherDst != dst && !OwnInterface(other)
    ensures SameFor(ns, RunText(ns, text, fault).ns, other, otherDst)
  {
    var ops := Parse(text);
    OpsKeepOther(ns, if fault.CutAfter? && fault.n < |ops| then ops[..fault.n] else ops, name, dst, other, otherDst);
  }

  datatype Command = Create | Route | Unroute | Delete

  function TextOf(command: Command, name: Word, typ: string, st: TunnelStatus, labels: map<string, Word>): string
    requires st.globalEgressIP != []
  {
    match command
    case Create => CreateCmd(name, typ, st, labels)
    case Route => GenGlobalnetRoute(name, st)
    case Unroute => GenDelGlobalnetRoute(name, st)
    case Delete => DeleteCmd(name, typ)
  }

  lemma TextIsOwn(command: Command, name: Word, typ: string, st: TunnelStatus, labels: map<string, Word>)
    requires st.globalEgressIP != []
    ensures forall op | op in Parse(TextOf(command, name, typ, st, labels)) :: OpOf(op, name, st.remoteGlobalnetCIDR)
  {
    match command
    case Create => CreateCmdMeans(name, typ, st, labels);
    case Route => GenGlobalnetRouteMeans(name, st);
    case Unroute => GenDelGlobalnetRouteMeans(name, st);
    case Delete => DeleteCmdMeans(name, typ);
  }

  /**
   Frame: any of the four commands of one tunnel, whether it runs cleanly, fails or is cut short, keeps
   device, out-flow route and SNAT rules of a tunnel with another name and another remote CIDR.
   Only the in-flow route, which the tunnels of a gateway share, can be affected.
   */
  lemma CommandsKeepOtherTunnels(ns: NetNs, command: Command, name: Word, typ: string, st: TunnelStatus,
                                 labels: map<string, Word>, fault: Fault, other: string, otherDst: string)
    requires st.globalEgressIP != []
    requires other != name && otherDst != st.remoteGlobalnetCIDR && !OwnInterface(other)
    ensures SameFor(ns, RunText(ns, TextOf(command, name, typ, st, labels), fault).ns, other, otherDst)
  {
    TextIsOwn(command, name, typ, st, labels);
    TextKeepsOther(ns, TextOf(command, name, typ, st, labels), fault, name, st.remoteGlobalnetCIDR, other, otherDst);
  }
}
