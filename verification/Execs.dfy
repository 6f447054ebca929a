/**
 What the reconciler's execs do to pods with a known content, when the connection holds and when it breaks.
 */
module Execs {
  import opened Api
  import opened Netns
  import opened TunnelCommands
  import opened TunnelLifecycle
  import opened Cluster
  import opened Record

  function SetNs(pods: map<Word, Pod>, gw: Word, ns: NetNs): map<Word, Pod>
    requires gw in pods
  {
    pods[gw := pods[gw].(ns := ns)]
  }

  // ----- connections that break -----

  /** Three operations of which the first n run. */
  lemma CutThree(ns: NetNs, a: Op, b: Op, c: Op, n: nat)
    ensures var ops := [a, b, c];
            var ran := RunOps(ns, if n < |ops| then ops[..n] else ops).ns;
            && (n == 0 ==> ran == ns)
            && (n == 1 ==> ran == RunOp(ns, a).ns)
            && (n == 2 ==> ran == RunOp(RunOp(ns, a).ns, b).ns)
            && (n > 2 ==> ran == RunOp(RunOp(RunOp(ns, a).ns, b).ns, c).ns)
  {
    RunThree(ns, a, b, c);
    RunOne(ns, a);
    assert [a, b, c][..1] == [a] && [a, b, c][..2] == [a, b] && [a, b][1..] == [b];
    RunOne(RunOp(ns, a).ns, b);
  }

  lemma UnrouteOnEmpty(name: Word, st: TunnelStatus, fault: Fault)
    requires st.globalEgressIP != []
    ensures RunText(EMPTY, GenDelGlobalnetRoute(name, st), fault) == Ran(EMPTY, false)
  {
    hide GenDelGlobalnetRoute;
    GenDelGlobalnetRouteMeans(name, st);
    var a, b, c := RouteDel(st.globalnetCIDR, InFlow(st)), RouteDel(st.remoteGlobalnetCIDR, Direct(name)),
      SnatDelete(Snat(st));
    RunThree(EMPTY, a, b, c);
    if fault.CutAfter? {
      CutThree(EMPTY, a, b, c, fault.n);
    }
  }

  lemma UnrouteCut(ns: NetNs, name: Word, st: TunnelStatus, n: nat)
    requires Holds(ns, name, st)
    ensures var r := RunText(ns, GenDelGlobalnetRoute(name, st), CutAfter(n));
            !r.ok && (n == 0 ==> r.ns == ns) && (n > 0 ==> st.globalnetCIDR !in r.ns.routes)
  {
    hide GenDelGlobalnetRoute, Built, Holds;
    HoldsInFlow(ns, name, st);
    GenDelGlobalnetRouteMeans(name, st);
    var a, b, c := RouteDel(st.globalnetCIDR, InFlow(st)), RouteDel(st.remoteGlobalnetCIDR, Direct(name)),
      SnatDelete(Snat(st));
    CutThree(ns, a, b, c, n);
    RouteStaysGone(RunOp(ns, a).ns, b, st.globalnetCIDR);
    RouteStaysGone(RunOp(RunOp(ns, a).ns, b).ns, c, st.globalnetCIDR);
  }

  lemma HoldsInFlow(ns: NetNs, name: Word, st: TunnelStatus)
    requires Holds(ns, name, st)
    ensures st.globalEgressIP != [] && st.globalnetCIDR in ns.routes && ns.routes[st.globalnetCIDR] == InFlow(st)
    ensures st.globalnetCIDR !in RunOp(ns, RouteDel(st.globalnetCIDR, InFlow(st))).ns.routes
  {
  }

  /** Deleting adds no route. */
  lemma RouteStaysGone(ns: NetNs, op: Op, dst: string)
    requires (op.RouteDel? || op.SnatDelete?) && dst !in ns.routes
    ensures dst !in RunOp(ns, op).ns.routes
  {
  }

  lemma DeleteAddsNoRoute(ns: NetNs, name: Word, typ: string, fault: Fault)
    ensures var r := RunText(ns, DeleteCmd(name, typ), fault);
            r.ns.routes.Keys <= ns.routes.Keys && (fault.CutAfter? ==> !r.ok)
  {
    hide DeleteCmd;
    DeleteCmdMeans(name, typ);
    RunOne(ns, if IsVxlan(typ) then LinkDel(name) else TunnelDel(name));
  }

  lemma CreateCut(name: Word, typ: string, st: TunnelStatus, labels: map<string, Word>, n: nat)
    requires !OwnInterface(name)
    ensures var r := RunText(EMPTY, CreateCmd(name, typ, st, labels), CutAfter(n));
            !r.ok && (n == 0 ==> r.ns == EMPTY) && (n > 0 ==> name in r.ns.devs) && r.ns.routes == map[]
  {
    hide CreateCmd;
    CreateCmdMeans(name, typ, st, labels);
    var ops := CreateOps(name, typ, st, labels);
    assert ops == [ops[0], ops[1], ops[2]];
    CutThree(EMPTY, ops[0], ops[1], ops[2], n);
  }

  lemma RouteTouches(ns: NetNs, name: Word, st: TunnelStatus, fault: Fault)
    requires st.globalEgressIP != []
    ensures var r := RunText(ns, GenGlobalnetRoute(name, st), fault);
            && r.ns.devs == ns.devs && r.ns.routes.Keys <= ns.routes.Keys + {st.globalnetCIDR, st.remoteGlobalnetCIDR}
            && (fault.CutAfter? ==> !r.ok)
  {
    hide GenGlobalnetRoute;
    GenGlobalnetRouteMeans(name, st);
    var a, b, c := RouteAdd(st.globalnetCIDR, InFlow(st)), RouteAdd(st.remoteGlobalnetCIDR, Direct(name)),
      SnatAppend(Snat(st));
    RunThree(ns, a, b, c);
    if fault.CutAfter? {
      CutThree(ns, a, b, c, fault.n);
    }
  }

  // ----- two execs -----

  lemma ExecBothRuns(c: Cluster, gw: Word, first: string, second: string, env: Env, i: nat)
    requires gw in c.pods
    ensures var a := RunText(c.pods[gw].ns, first, FaultOf(env, i));
            var b := RunText(a.ns, second, FaultOf(env, i + 1));
            var r := ExecBoth(c, gw, first, second, env, i);
            && r.c == c.(pods := SetNs(c.pods, gw, if a.ok then b.ns else a.ns))
            && r.outcome == if a.ok && b.ok then Done else Failed
  {
    hide RunText;
    var a := ExecIn(c, gw, first, FaultOf(env, i));
    if a.ok {
      var b := ExecIn(a.c, gw, second, FaultOf(env, i + 1));
      assert b.c.pods == SetNs(c.pods, gw, b.c.pods[gw].ns);
    }
  }

  lemma BuildInEmpty(name: Word, typ: string, st: TunnelStatus, labels: map<string, Word>, f0: Fault, f1: Fault)
    requires !OwnInterface(name) && st.globalEgressIP != []
    ensures var create := RunText(EMPTY, CreateCmd(name, typ, st, labels), f0);
            var route := RunText(create.ns, GenGlobalnetRoute(name, st), f1);
            var ns := if create.ok then route.ns else create.ns;
            && (create.ok && route.ok <==> f0 == Healthy && f1 == Healthy && st.globalnetCIDR != st.remoteGlobalnetCIDR)
            && (create.ok && route.ok ==> ns == Built(EMPTY, name, KindFor(typ, labels), st))
            && (ns == EMPTY <==> f0 == CutAfter(0))
            && ns.routes.Keys <= {st.globalnetCIDR, st.remoteGlobalnetCIDR}
            && (ns.routes != map[] ==> name in ns.devs && ns.devs[name] == DeviceOf(KindFor(typ, labels), st))
  {
    hide CreateCmd, GenGlobalnetRoute, RunText, KindFor;
    BuildExact(EMPTY, name, typ, st, labels);
    CreateRuns(EMPTY, name, typ, st, labels);
    if f0.CutAfter? {
      CreateCut(name, typ, st, labels, f0.n);
    } else {
      RouteTouches(RunText(EMPTY, CreateCmd(name, typ, st, labels), Healthy).ns, name, st, f1);
    }
  }

  lemma TakeDownHeld(ns: NetNs, name: Word, typ: string, st: TunnelStatus, f0: Fault, f1: Fault)
    requires Holds(ns, name, st) && !OwnInterface(name)
    ensures var unroute := RunText(ns, GenDelGlobalnetRoute(name, st), f0);
            var delete := RunText(unroute.ns, DeleteCmd(name, typ), f1);
            var left := if unroute.ok then delete.ns else unroute.ns;
            && (unroute.ok && delete.ok <==> f0 == Healthy && f1 == Healthy && (IsVxlan(typ) || !IsVxlan(st.typ)))
            && (unroute.ok && delete.ok ==> left == EMPTY)
            && (f0 == CutAfter(0) ==> left == ns && !unroute.ok)
            && (!(unroute.ok && delete.ok) && f0 != CutAfter(0) ==> st.globalnetCIDR !in left.routes)
  {
    hide GenDelGlobalnetRoute, DeleteCmd, RunText;
    if f0.CutAfter? {
      UnrouteCut(ns, name, st, f0.n);
    } else {
      UnrouteRuns(ns, name, st);
      DeleteAddsNoRoute(Unrouted(ns, st), name, typ, f1);
      DeleteRuns(Unrouted(ns, st), name, typ);
      BuiltUnbuilt(EMPTY, name, ns.devs[name].kind, st);
    }
  }

  // ----- the reconciler's pairs of execs -----

  /** Building on an empty pod: clean exactly when the connection holds and the CIDRs differ. */
  lemma BuildOnEmpty(c: Cluster, name: Word, gw: Word, typ: string, st: TunnelStatus, labels: map<string, Word>,
                     env: Env, i: nat)
    requires gw in c.pods && c.pods[gw].ns == EMPTY && !OwnInterface(name) && st.globalEgressIP != []
    ensures var r := ExecBoth(c, gw, CreateCmd(name, typ, st, labels), GenGlobalnetRoute(name, st), env, i);
            var ns := r.c.pods[gw].ns;
            && r.c == c.(pods := SetNs(c.pods, gw, ns))
            && r.outcome
               == (if Unbroken(env, i, i + 2) && st.globalnetCIDR != st.remoteGlobalnetCIDR then Done else Failed)
            && (r.outcome == Done ==> ns == Built(EMPTY, name, KindFor(typ, labels), st))
            && (ns == EMPTY <==> NeverStarts(env, i))
            && (NeverStarts(env, i) ==> r.c == c)
            && ns.routes.Keys <= {st.globalnetCIDR, st.remoteGlobalnetCIDR}
            && (ns.routes != map[] ==> name in ns.devs && ns.devs[name] == DeviceOf(KindFor(typ, labels), st))
  {
    hide CreateCmd, GenGlobalnetRoute, RunText, KindFor, ExecBoth;
    BuildInEmpty(name, typ, st, labels, FaultOf(env, i), FaultOf(env, i + 1));
    ExecBothRuns(c, gw, CreateCmd(name, typ, st, labels), GenGlobalnetRoute(name, st), env, i);
    assert SetNs(c.pods, gw, c.pods[gw].ns) == c.pods;
    assert Unbroken(env, i, i + 2) <==> FaultOf(env, i) == Healthy && FaultOf(env, i + 1) == Healthy;
  }

  /** Taking down on an empty pod fails and changes nothing. */
  lemma TakeDownOnEmpty(c: Cluster, name: Word, gw: Word, typ: string, st: TunnelStatus, env: Env)
    requires gw in c.pods && c.pods[gw].ns == EMPTY && st.globalEgressIP != []
    ensures var r := ExecBoth(c, gw, GenDelGlobalnetRoute(name, st), DeleteCmd(name, typ), env, 0);
            r.outcome == Failed && r.c == c
  {
    hide GenDelGlobalnetRoute, DeleteCmd, RunText, ExecBoth;
    UnrouteOnEmpty(name, st, FaultOf(env, 0));
    ExecBothRuns(c, gw, GenDelGlobalnetRoute(name, st), DeleteCmd(name, typ), env, 0);
    assert SetNs(c.pods, gw, EMPTY) == c.pods;
  }

  /**
   Taking down what the status records: clean exactly when the connection holds and the command fits the device,
   and then the pod is empty. A connection that never comes about changes nothing; otherwise a route is gone.
   */
  lemma TakeDownRecorded(c: Cluster, name: Word, gw: Word, typ: string, st: TunnelStatus, env: Env)
    requires gw in c.pods && Holds(c.pods[gw].ns, name, st) && !OwnInterface(name)
    ensures var r := ExecBoth(c, gw, GenDelGlobalnetRoute(name, st), DeleteCmd(name, typ), env, 0);
            var ns := r.c.pods[gw].ns;
            && r.c == c.(pods := SetNs(c.pods, gw, ns))
            && r.outcome == (if Unbroken(env, 0, 2) && (IsVxlan(typ) || !IsVxlan(st.typ)) then Done else Failed)
            && (r.outcome == Done ==> ns == EMPTY)
            && (NeverStarts(env, 0) ==> r.c == c)
            && (r.outcome != Done && !NeverStarts(env, 0) ==> st.globalnetCIDR !in ns.routes)
  {
    hide GenDelGlobalnetRoute, DeleteCmd, RunText, ExecBoth;
    TakeDownHeld(c.pods[gw].ns, name, typ, st, FaultOf(env, 0), FaultOf(env, 1));
    ExecBothRuns(c, gw, GenDelGlobalnetRoute(name, st), DeleteCmd(name, typ), env, 0);
    assert SetNs(c.pods, gw, c.pods[gw].ns) == c.pods;
    assert Unbroken(env, 0, 2) <==> FaultOf(env, 0) == Healthy && FaultOf(env, 1) == Healthy;
  }

  /** A single exec, before an index panic: it leaves a device behind unless the connection never comes about. */
  lemma CreateOnEmpty(c: Cluster, name: Word, gw: Word, typ: string, st: TunnelStatus, labels: map<string, Word>,
                      env: Env, i: nat)
    requires gw in c.pods && c.pods[gw].ns == EMPTY && !OwnInterface(name)
    ensures var c' := ExecIn(c, gw, CreateCmd(name, typ, st, labels), FaultOf(env, i)).c;
            && c' == c.(pods := SetNs(c.pods, gw, c'.pods[gw].ns))
            && (c'.pods[gw].ns == EMPTY <==> NeverStarts(env, i)) && (NeverStarts(env, i) ==> c' == c)
  {
    hide CreateCmd, RunText;
    assert SetNs(c.pods, gw, c.pods[gw].ns) == c.pods;
    CreateRuns(EMPTY, name, typ, st, labels);
    if FaultOf(env, i).CutAfter? {
      CreateCut(name, typ, st, labels, FaultOf(env, i).n);
    }
  }

  // ----- in pods that hold another tunnel -----

  /** Wherever there is no such device yet, an exec that creates one leaves it, unless it never starts. */
  lemma CreateAdds(ns: NetNs, name: Word, typ: string, st: TunnelStatus, labels: map<string, Word>, fault: Fault)
    requires !Present(ns, name)
    ensures var r := RunText(ns, CreateCmd(name, typ, st, labels), fault);
            && (fault == CutAfter(0) ==> r == Ran(ns, false))
            && (fault != CutAfter(0) ==> name in r.ns.devs)
  {
    hide CreateCmd, KindFor;
    CreateCmdMeans(name, typ, st, labels);
    CreateRuns(ns, name, typ, st, labels);
    if fault.CutAfter? {
      var ops := CreateOps(name, typ, st, labels);
      assert ops == [ops[0], ops[1], ops[2]];
      CutThree(ns, ops[0], ops[1], ops[2], fault.n);
    }
  }

  /** Building in a pod without the device: it is there afterwards, unless the first exec never starts. */
  lemma BuildAdds(c: Cluster, name: Word, gw: Word, typ: string, st: TunnelStatus, labels: map<string, Word>, env: Env,
                  i: nat)
    requires gw in c.pods && !Present(c.pods[gw].ns, name) && st.globalEgressIP != []
    ensures var r := ExecBoth(c, gw, CreateCmd(name, typ, st, labels), GenGlobalnetRoute(name, st), env, i);
            && r.c == c.(pods := SetNs(c.pods, gw, r.c.pods[gw].ns))
            && (NeverStarts(env, i) ==> r.c == c && r.outcome == Failed)
            && (!NeverStarts(env, i) ==> name in r.c.pods[gw].ns.devs)
  {
    hide CreateCmd, GenGlobalnetRoute, RunText, KindFor, ExecBoth;
    var ns := c.pods[gw].ns;
    CreateAdds(ns, name, typ, st, labels, FaultOf(env, i));
    RouteTouches(RunText(ns, CreateCmd(name, typ, st, labels), FaultOf(env, i)).ns, name, st, FaultOf(env, i + 1));
    ExecBothRuns(c, gw, CreateCmd(name, typ, st, labels), GenGlobalnetRoute(name, st), env, i);
    assert SetNs(c.pods, gw, ns) == c.pods;
  }

  /** The same for the exec alone, before an index panic. */
  lemma CreateExecAdds(c: Cluster, name: Word, gw: Word, typ: string, st: TunnelStatus, labels: map<string, Word>,
                       env: Env,
                       i: nat)
    requires gw in c.pods && !Present(c.pods[gw].ns, name)
    ensures var c' := ExecIn(c, gw, CreateCmd(name, typ, st, labels), FaultOf(env, i)).c;
            && c' == c.(pods := SetNs(c.pods, gw, c'.pods[gw].ns))
            && (NeverStarts(env, i) ==> c' == c) && (!NeverStarts(env, i) ==> name in c'.pods[gw].ns.devs)
  {
    hide CreateCmd, RunText;
    CreateAdds(c.pods[gw].ns, name, typ, st, labels, FaultOf(env, i));
    assert SetNs(c.pods, gw, c.pods[gw].ns) == c.pods;
  }

  /** The route of one tunnel through its device is none of another tunnel's. */
  lemma UnrouteOther(ns: NetNs, name: Word, st: TunnelStatus, other: Word, st': TunnelStatus, fault: Fault)
    requires Holds(ns, other, st') && other != name && st.globalEgressIP != []
    ensures var r := RunText(ns, GenDelGlobalnetRoute(name, st), fault);
            !r.ok && r.ns.devs == ns.devs && (r.ns == ns <==> Unharmed(ns, st, fault))
  {
    hide GenDelGlobalnetRoute;
    GenDelGlobalnetRouteMeans(name, st);
    var a, b, c := RouteDel(st.globalnetCIDR, InFlow(st)), RouteDel(st.remoteGlobalnetCIDR, Direct(name)),
      SnatDelete(Snat(st));
    var cut := RunOp(ns, a).ns;
    OtherHasNoSuchRoute(ns, name, other, st', a);
    assert RunOp(cut, b) == Ran(cut, false);
    RunThree(ns, a, b, c);
    if fault.CutAfter? {
      CutThree(ns, a, b, c, fault.n);
    }
    RuleGone(cut, Snat(st));
  }

  lemma OtherHasNoSuchRoute(ns: NetNs, name: Word, other: Word, st': TunnelStatus, a: Op)
    requires Holds(ns, other, st') && other != name && a.RouteDel?
    ensures var cut := RunOp(ns, a).ns;
            && cut.devs == ns.devs && cut.rules == ns.rules
            && forall dst | dst in cut.routes :: cut.routes[dst] != Direct(name)
  {
  }

  lemma RuleGone(ns: NetNs, rule: Rule)
    ensures var r := RunOp(ns, SnatDelete(rule)).ns;
            r.devs == ns.devs && r.routes == ns.routes && (r.rules == ns.rules <==> rule !in ns.rules)
  {
    RemoveFirstShortens(ns.rules, rule);
  }

  lemma {:induction false} RemoveFirstShortens(rules: seq<Rule>, rule: Rule)
    ensures |RemoveFirst(rules, rule)| == if rule in rules then |rules| - 1 else |rules|
  {
    if rules != [] {
      RemoveFirstShortens(rules[1..], rule);
      assert rule in rules <==> rules[0] == rule || rule in rules[1..];
    }
  }

  /** What a tunnel holds is fixed by its device: with the same device and anything else changed, it is not held. */
  lemma ChangedIsNotHeld(ns: NetNs, ns': NetNs, name: string, st: TunnelStatus)
    requires Holds(ns, name, st) && ns'.devs == ns.devs && ns' != ns
    ensures !Holds(ns', name, st)
  {
  }

  /** Taking down in a pod that holds another tunnel fails, and leaves that one alone exactly when it is unharmed. */
  lemma TakeDownOther(c: Cluster, name: Word, gw: Word, typ: string, st: TunnelStatus, other: Word, st': TunnelStatus,
                      env: Env)
    requires gw in c.pods && Holds(c.pods[gw].ns, other, st') && other != name && st.globalEgressIP != []
    ensures var r := ExecBoth(c, gw, GenDelGlobalnetRoute(name, st), DeleteCmd(name, typ), env, 0);
            && r.outcome == Failed && r.c == c.(pods := SetNs(c.pods, gw, r.c.pods[gw].ns))
            && (Unharmed(c.pods[gw].ns, st, FaultOf(env, 0)) ==> r.c == c)
            && (!Unharmed(c.pods[gw].ns, st, FaultOf(env, 0)) ==> !Holds(r.c.pods[gw].ns, other, st'))
  {
    hide GenDelGlobalnetRoute, DeleteCmd, RunText, ExecBoth, Unharmed, Holds;
    var ns := c.pods[gw].ns;
    UnrouteOther(ns, name, st, other, st', FaultOf(env, 0));
    ExecBothRuns(c, gw, GenDelGlobalnetRoute(name, st), DeleteCmd(name, typ), env, 0);
    assert SetNs(c.pods, gw, ns) == c.pods;
    if !Unharmed(ns, st, FaultOf(env, 0)) {
      ChangedIsNotHeld(ns, RunText(ns, GenDelGlobalnetRoute(name, st), FaultOf(env, 0)).ns, other, st');
    }
  }

  lemma RoutelessIsNotHeld(ns: NetNs, name: string, st: TunnelStatus)
    requires st.globalnetCIDR !in ns.routes || st.remoteGlobalnetCIDR !in ns.routes
    ensures !Holds(ns, name, st)
  {
    assert Holds(ns, name, st) ==> st.globalnetCIDR in ns.routes && st.remoteGlobalnetCIDR in ns.routes;
  }
}
