/**
 Reconciles keep the safety invariant whatever fails in the pods, and a tunnel object is only let go
 after both delete commands have run cleanly.
 */
module SafetyOfReconcile {
  import opened Api
  import opened Finalizers
  import opened Netns
  import opened TunnelCommands
  import opened TunnelLifecycle
  import opened Cluster
  import opened Shape
  import opened Safety

  // ----- which devices a command can add -----

  /** In any namespace, and however it goes, the command adds no other devices than these. */
  ghost predicate AddsAtMost(text: string, names: set<string>) {
    forall ns, fault :: RunText(ns, text, fault).ns.devs.Keys <= ns.devs.Keys + names
  }

  ghost predicate OpAddsAtMost(op: Op, names: set<string>) {
    && (op.TunnelAddGre? ==> op.name in names)
    && (op.LinkAddVxlan? ==> op.name in names)
  }

  lemma {:induction false} OpsAddAtMost(ns: NetNs, ops: seq<Op>, names: set<string>)
    requires forall op | op in ops :: OpAddsAtMost(op, names)
    ensures RunOps(ns, ops).ns.devs.Keys <= ns.devs.Keys + names
    decreases |ops|
  {
    if ops != [] {
      var ns' := RunOp(ns, ops[0]).ns;
      assert OpAddsAtMost(ops[0], names);
      assert ns'.devs.Keys <= ns.devs.Keys + names;
      OpsAddAtMost(ns', ops[1..], names);
    }
  }

  lemma TextAddsAtMost(text: string, names: set<string>)
    requires forall op | op in Parse(text) :: OpAddsAtMost(op, names)
    ensures AddsAtMost(text, names)
  {
    forall ns, fault
      ensures RunText(ns, text, fault).ns.devs.Keys <= ns.devs.Keys + names
    {
      var ops := Parse(text);
      OpsAddAtMost(ns, if fault.CutAfter? && fault.n < |ops| then ops[..fault.n] else ops, names);
    }
  }

  lemma CommandAddsAtMost(command: Command, name: Word, typ: string, st: TunnelStatus, labels: map<string, Word>)
    requires st.globalEgressIP != []
    ensures AddsAtMost(TextOf(command, name, typ, st, labels), if command.Create? then {name} else {})
  {
    match command
    case Create => CreateAddsAtMost(name, typ, st, labels);
    case Route => GenGlobalnetRouteMeans(name, st); TextAddsAtMost(GenGlobalnetRoute(name, st), {});
    case Unroute => GenDelGlobalnetRouteMeans(name, st); TextAddsAtMost(GenDelGlobalnetRoute(name, st), {});
    case Delete => DeleteCmdMeans(name, typ); TextAddsAtMost(DeleteCmd(name, typ), {});
  }

  lemma CreateAddsAtMost(name: Word, typ: string, st: TunnelStatus, labels: map<string, Word>)
    ensures AddsAtMost(CreateCmd(name, typ, st, labels), {name})
  {
    CreateCmdMeans(name, typ, st, labels);
    TextAddsAtMost(CreateCmd(name, typ, st, labels), {name});
  }

  // ----- work in one pod -----

  /** Nothing but the namespace of one pod has changed, and it got no other devices than these. */
  ghost predicate PodWork(c: Cluster, c': Cluster, gw: Word, names: set<string>) {
    && gw in c.pods && gw in c'.pods
    && c' == c.(pods := c.pods[gw := c.pods[gw].(ns := c'.pods[gw].ns)])
    && c'.pods[gw].ns.devs.Keys <= c.pods[gw].ns.devs.Keys + names
  }

  lemma ExecIsPodWork(c: Cluster, gw: Word, text: string, fault: Fault, names: set<string>)
    requires gw in c.pods && AddsAtMost(text, names)
    ensures PodWork(c, ExecIn(c, gw, text, fault).c, gw, names)
  {
    assert RunText(c.pods[gw].ns, text, fault).ns.devs.Keys <= c.pods[gw].ns.devs.Keys + names;
  }

  lemma PodWorkComposes(a: Cluster, b: Cluster, c: Cluster, gw: Word, names: set<string>)
    requires PodWork(a, b, gw, names) && PodWork(b, c, gw, names)
    ensures PodWork(a, c, gw, names)
  {
  }

  lemma ExecBothIsPodWork(c: Cluster, gw: Word, first: string, second: string, env: Env, i: nat, names: set<string>)
    requires gw in c.pods && AddsAtMost(first, names) && AddsAtMost(second, names)
    ensures PodWork(c, ExecBoth(c, gw, first, second, env, i).c, gw, names)
  {
    ExecIsPodWork(c, gw, first, FaultOf(env, i), names);
    var a := ExecIn(c, gw, first, FaultOf(env, i));
    if a.ok {
      ExecIsPodWork(a.c, gw, second, FaultOf(env, i + 1), names);
      var b := ExecIn(a.c, gw, second, FaultOf(env, i + 1));
      PodWorkComposes(c, a.c, b.c, gw, names);
    }
  }

  /** A pod may get the device of a tunnel that owns it. */
  lemma PodWorkKeepsSafe(c: Cluster, c': Cluster, gw: Word, key: Key)
    requires Safe(c) && PodWork(c, c', gw, {key.name})
    requires key in c.tunnels && Owns(c.exips, c.id, c.homes, c.tunnels[key], gw)
    ensures Safe(c')
  {
    hide TunnelsOk, DevicesApart, NamesOk, PrimariesOk, Owns;
    forall g, dev | g in c'.pods && dev in c'.pods[g].ns.devs
      ensures HasOwner(c', g, dev)
    {
      if g == gw && dev == key.name {
      } else {
        assert HasOwner(c, g, dev);
      }
    }
  }

  lemma PodWorkWithoutDevicesKeepsSafe(c: Cluster, c': Cluster, gw: Word)
    requires Safe(c) && PodWork(c, c', gw, {})
    ensures Safe(c')
  {
    forall g, dev | g in c'.pods && dev in c'.pods[g].ns.devs
      ensures HasOwner(c', g, dev)
    {
      assert HasOwner(c, g, dev);
    }
  }

  // ----- the branches of the reconciler -----

  /** Deleting cleanly at Status.LocalGw leaves no live pod with the tunnel's device. */
  lemma CleanDeleteLeavesNoDevice(c: Cluster, key: Key, env: Env)
    requires Safe(c) && key in c.tunnels && c.tunnels[key].deleting && FINALIZER in c.tunnels[key].finalizers
    requires c.tunnels[key].status.localGw in c.pods && c.tunnels[key].status.globalEgressIP != []
    ensures var t := c.tunnels[key];
            var r := ExecBoth(c, t.status.localGw, GenDelGlobalnetRoute(key.name, t.status),
                              DeleteCmd(key.name, t.spec.typ), env, 0);
            && PodWork(c, r.c, t.status.localGw, {})
            && (r.outcome == Done ==>
                  forall g | g in r.c.pods && Owns(c.exips, c.id, c.homes, t, g) :: key.name !in r.c.pods[g].ns.devs)
  {
    hide GenDelGlobalnetRoute, DeleteCmd, AddsAtMost, Shaped, NoOrphanDevices;
    var t := c.tunnels[key];
    var gw := t.status.localGw;
    var unroute, delete := GenDelGlobalnetRoute(key.name, t.status), DeleteCmd(key.name, t.spec.typ);
    CommandAddsAtMost(Unroute, key.name, t.spec.typ, t.status, t.labels);
    CommandAddsAtMost(Delete, key.name, t.spec.typ, t.status, t.labels);
    ExecBothIsPodWork(c, gw, unroute, delete, env, 0, {});
    var r := ExecBoth(c, gw, unroute, delete, env, 0);
    if r.outcome == Done {
      ExecIsPodWork(c, gw, unroute, FaultOf(env, 0), {});
      var a := ExecIn(c, gw, unroute, FaultOf(env, 0));
      assert FaultOf(env, 1) == Healthy;
      DeleteRuns(a.c.pods[gw].ns, key.name, t.spec.typ);
      assert key.name in a.c.pods[gw].ns.devs;
      DeviceAtRecordedGateway(c, key, gw);
      assert key.name !in r.c.pods[gw].ns.devs;
    }
  }

  /** Where Status.LocalGw's pod has the device, Spec.LocalGw names the same gateway. */
  lemma DeviceAtRecordedGateway(c: Cluster, key: Key, gw: Word)
    requires Safe(c) && key in c.tunnels && gw in c.pods && gw == c.tunnels[key].status.localGw
    requires key.name in c.pods[gw].ns.devs
    ensures c.tunnels[key].status.initialized && c.tunnels[key].spec.localGw == gw
  {
    assert TunnelOk(c.homes, key, c.tunnels[key]);
    assert HasOwner(c, gw, key.name);
    var k :| k in c.tunnels && k.name == key.name && Owns(c.exips, c.id, c.homes, c.tunnels[k], gw);
    assert c.tunnels[k].spec.localVpc == c.tunnels[key].spec.localVpc;
  }

  lemma DeleteKeepsSafe(c: Cluster, key: Key, env: Env)
    requires Safe(c) && key in c.tunnels && c.tunnels[key].deleting
    ensures Safe(HandleDelete(c, key, env).c)
  {
    var t := c.tunnels[key];
    var gw := t.status.localGw;
    if FINALIZER in t.finalizers && gw in c.pods && t.status.globalEgressIP != [] {
      CleanDeleteLeavesNoDevice(c, key, env);
      var r := ExecBoth(c, gw, GenDelGlobalnetRoute(key.name, t.status), DeleteCmd(key.name, t.spec.typ), env, 0);
      PodWorkWithoutDevicesKeepsSafe(c, r.c, gw);
      if r.outcome == Done {
        LetGoKeepsSafe(r.c, key);
      }
    }
  }

  lemma LetGoKeepsSafe(c: Cluster, key: Key)
    requires Safe(c) && key in c.tunnels && c.tunnels[key].deleting
    requires forall g | g in c.pods && Owns(c.exips, c.id, c.homes, c.tunnels[key], g) :: key.name !in c.pods[g].ns.devs
    ensures Safe(DropFinalizer(c, key, c.tunnels[key]))
  {
    var t := c.tunnels[key];
    DroppedHasNone(t.finalizers, FINALIZER);
    if Dropped(t.finalizers, FINALIZER) == [] {
      RemoveKeepsSafe(c, key);
    } else {
      assert TunnelOk(c.homes, key, t);
      var t' := t.(finalizers := Dropped(t.finalizers, FINALIZER));
      DevicesStayApart(c, key);
      PutKeepsShape(c, key, t');
      PutKeepsOwners(c, key, t');
    }
  }

  /** A gateway found through the VPC's GatewayExIp may get the VPC's tunnel. */
  lemma PrimaryOwns(c: Cluster, t: VpcNatTunnel)
    requires Shaped(c) && DotFree(t.spec.localVpc) && FINALIZER in t.finalizers && !t.status.initialized
    requires ExIpName(t.spec.localVpc, c.id) in c.exips
    ensures Owns(c.exips, c.id, c.homes, t, c.exips[ExIpName(t.spec.localVpc, c.id)].localGateway)
  {
    LocalLookup(c.exips, c.id, t.spec.localVpc);
  }

  /** Recording a first build keeps what the tunnel owns: it owned the primary gateway only. */
  lemma RecordFirstKeepsSafe(c: Cluster, key: Key, remote: GatewayExIp, st: TunnelStatus)
    requires Safe(c) && key in c.tunnels && !c.tunnels[key].status.initialized && FINALIZER in c.tunnels[key].finalizers
    requires ExIpName(c.tunnels[key].spec.localVpc, c.id) in c.exips
    requires st.initialized && st.localGw == c.exips[ExIpName(c.tunnels[key].spec.localVpc, c.id)].localGateway
    requires st.globalEgressIP != []
    ensures Safe(Put(c, key, FirstRecord(c.tunnels[key], remote, st)))
  {
    var t := c.tunnels[key];
    var t' := FirstRecord(t, remote, st);
    assert TunnelOk(c.homes, key, t);
    PrimaryOwns(c, t);
    DevicesStayApart(c, key);
    assert TunnelOk(c.homes, key, t');
    PutKeepsShape(c, key, t');
    PutKeepsOwners(c, key, t');
  }

  lemma FirstBuildKeepsSafe(c: Cluster, key: Key, remote: GatewayExIp, env: Env)
    requires Safe(c) && key in c.tunnels && !c.tunnels[key].status.initialized && FINALIZER in c.tunnels[key].finalizers
    ensures Safe(FirstBuild(c, key, c.tunnels[key], remote, env).c)
  {
    hide CreateCmd, GenGlobalnetRoute, ExecBoth, ExecIn, NoOrphanDevices, DevicesApart, AddsAtMost, FirstRecord;
    var t := c.tunnels[key];
    var localName := ExIpName(t.spec.localVpc, c.id);
    if localName in c.exips && c.exips[localName].localGateway in c.pods && env.globalnetCIDR.Some?
      && env.egressIP.Some? {
      var gw := c.exips[localName].localGateway;
      assert TunnelOk(c.homes, key, t);
      PrimaryOwns(c, t);
      var st := FirstStatus(t, remote, gw, c.pods[gw], env.globalnetCIDR.value, env.egressIP.value);
      var create := CreateCmd(key.name, t.spec.typ, st, t.labels);
      CreateAddsAtMost(key.name, t.spec.typ, st, t.labels);
      if st.globalEgressIP == [] {
        ExecIsPodWork(c, gw, create, FaultOf(env, 0), {key.name});
        PodWorkKeepsSafe(c, ExecIn(c, gw, create, FaultOf(env, 0)).c, gw, key);
      } else {
        BuildKeepsSafe(c, key, gw, t.spec.typ, st, t.labels, env, 0);
        var r := ExecBoth(c, gw, create, GenGlobalnetRoute(key.name, st), env, 0);
        if r.outcome == Done {
          RecordFirstKeepsSafe(r.c, key, remote, st);
        }
      }
    }
  }

  lemma BuildKeepsSafe(c: Cluster, key: Key, gw: Word, typ: string, st: TunnelStatus, labels: map<string, Word>,
                       env: Env, i: nat)
    requires Safe(c) && gw in c.pods && key in c.tunnels && Owns(c.exips, c.id, c.homes, c.tunnels[key], gw)
    requires st.globalEgressIP != []
    ensures var r := ExecBoth(c, gw, CreateCmd(key.name, typ, st, labels), GenGlobalnetRoute(key.name, st), env, i);
            PodWork(c, r.c, gw, {key.name}) && Safe(r.c)
  {
    var create, route := CreateCmd(key.name, typ, st, labels), GenGlobalnetRoute(key.name, st);
    CreateAddsAtMost(key.name, typ, st, labels);
    CommandAddsAtMost(Route, key.name, typ, st, labels);
    assert AddsAtMost(route, {key.name}) by {
      forall ns, fault
        ensures RunText(ns, route, fault).ns.devs.Keys <= ns.devs.Keys + {key.name}
      {
        assert RunText(ns, route, fault).ns.devs.Keys <= ns.devs.Keys + {};
      }
    }
    ExecBothIsPodWork(c, gw, create, route, env, i, {key.name});
    PodWorkKeepsSafe(c, ExecBoth(c, gw, create, route, env, i).c, gw, key);
  }

  /** A tunnel object changes in ways that do not matter to ownership. */
  lemma PutSamePlaceKeepsSafe(c: Cluster, key: Key, t: VpcNatTunnel)
    requires Safe(c) && key in c.tunnels && TunnelOk(c.homes, key, t)
    requires var was := c.tunnels[key];
             && t.spec.localVpc == was.spec.localVpc && t.spec.localGw == was.spec.localGw
             && t.status.initialized == was.status.initialized
             && (FINALIZER in was.finalizers ==> FINALIZER in t.finalizers)
    ensures Safe(Put(c, key, t))
  {
    assert TunnelOk(c.homes, key, c.tunnels[key]);
    DevicesStayApart(c, key);
    PutKeepsShape(c, key, t);
    PutKeepsOwners(c, key, t);
  }

  lemma ClearKeepsSafe(c: Cluster, key: Key, env: Env)
    requires Safe(c) && key in c.tunnels && c.tunnels[key].spec.localGw in c.pods
    requires c.tunnels[key].status.globalEgressIP != []
    ensures var c' := Clear(c, key, c.tunnels[key], env).c;
            Safe(c') && PodWork(c, c', c.tunnels[key].spec.localGw, {})
  {
    var t := c.tunnels[key];
    if SamePlace(t) {
      CommandAddsAtMost(Unroute, key.name, t.spec.typ, t.status, t.labels);
      CommandAddsAtMost(Delete, key.name, t.spec.typ, t.status, t.labels);
      ExecBothIsPodWork(c, t.spec.localGw, GenDelGlobalnetRoute(key.name, t.status), DeleteCmd(key.name, t.spec.typ),
                        env, 0, {});
      PodWorkWithoutDevicesKeepsSafe(c, Clear(c, key, t, env).c, t.spec.localGw);
    }
  }

  lemma RebuildKeepsSafe(c: Cluster, key: Key, remote: GatewayExIp, env: Env)
    requires Safe(c) && key in c.tunnels && c.tunnels[key].status.initialized && FINALIZER in c.tunnels[key].finalizers
    requires c.tunnels[key].spec.localGw in c.pods && c.tunnels[key].status.globalEgressIP != []
    ensures Safe(Rebuild(c, key, c.tunnels[key], remote, env).c)
  {
    hide CreateCmd, GenGlobalnetRoute, ExecBoth, NoOrphanDevices, DevicesApart;
    var t := c.tunnels[key];
    var st := NextStatus(t, remote);
    assert TunnelOk(c.homes, key, t);
    BuildKeepsSafe(c, key, t.spec.localGw, t.spec.typ, st, t.labels, env, 2);
    var r := ExecBoth(c, t.spec.localGw, CreateCmd(key.name, t.spec.typ, st, t.labels), GenGlobalnetRoute(key.name, st),
                      env, 2);
    PutSamePlaceKeepsSafe(r.c, key, Updated(t, remote));
  }

  lemma UpdateKeepsSafe(c: Cluster, key: Key, remote: GatewayExIp, env: Env)
    requires Safe(c) && key in c.tunnels && c.tunnels[key].status.initialized && FINALIZER in c.tunnels[key].finalizers
    ensures Safe(Update(c, key, c.tunnels[key], remote, env).c)
  {
    var t := c.tunnels[key];
    var gw := t.spec.localGw;
    assert TunnelOk(c.homes, key, t);
    if t.status.typ != t.spec.typ {
      PutSamePlaceKeepsSafe(c, key, t.(spec := t.spec.(typ := t.status.typ)));
    } else if t.spec.localGw == "" && t.spec.remoteIP == "" && t.spec.internalIP == "" {
    } else if gw in c.pods {
      ClearKeepsSafe(c, key, env);
      RebuildKeepsSafe(Clear(c, key, t, env).c, key, remote, env);
    }
  }

  lemma CreateOrUpdateKeepsSafe(c: Cluster, key: Key, env: Env)
    requires Safe(c) && key in c.tunnels && !c.tunnels[key].deleting
    ensures Safe(HandleCreateOrUpdate(c, key, env).c)
  {
    hide FirstBuild, Update;
    var t := WithFinalizer(c.tunnels[key]);
    assert TunnelOk(c.homes, key, c.tunnels[key]);
    var c1 := if FINALIZER in c.tunnels[key].finalizers then c else Put(c, key, t);
    PutSamePlaceKeepsSafe(c, key, t);
    if RemoteName(t) in c.exips {
      var remote := c.exips[RemoteName(t)];
      if !t.status.initialized {
        FirstBuildKeepsSafe(c1, key, remote, env);
      } else if Outdated(t, remote) {
        UpdateKeepsSafe(c1, key, remote, env);
      }
    }
  }

  lemma ReconcileKeepsSafe(c: Cluster, key: Key, env: Env)
    requires Safe(c)
    ensures Safe(ReconcileTunnel(c, key, env).c)
  {
    if key in c.tunnels {
      if c.tunnels[key].deleting {
        DeleteKeepsSafe(c, key, env);
      } else {
        CreateOrUpdateKeepsSafe(c, key, env);
      }
    }
  }

  // ----- all steps -----

  lemma UserPutKeepsSafe(c: Cluster, key: Key, t: VpcNatTunnel)
    requires Safe(c) && (Enabled(c, UserCreates(key, t)) || Enabled(c, UserEdits(key, t)))
    ensures Safe(Put(c, key, t))
  {
    hide TunnelsOk, DevicesApart, Rooted;
    assert "localVpc" in OPERATOR_LABELS;
    UserPutIsOk(c, key, t);
    PutKeepsShape(c, key, t);
    PutKeepsOwners(c, key, t);
  }

  lemma UserDeletesKeepsSafe(c: Cluster, key: Key)
    requires Safe(c) && key in c.tunnels
    ensures Safe(Next(c, UserDeletes(key)))
  {
    assert TunnelOk(c.homes, key, c.tunnels[key]);
    if c.tunnels[key].finalizers == [] {
      RemoveKeepsSafe(c, key);
    } else {
      PutSamePlaceKeepsSafe(c, key, c.tunnels[key].(deleting := true));
    }
  }

  lemma EventSafeExact(c: Cluster, step: Step)
    requires Safe(c) && step.HandleEvent? && Enabled(c, step)
    ensures Safe(Next(c, step)) <==> Calm(c, step)
  {
    hide Safe, HandleAdded, HandleWentDown, HandleCameUp, HandleDeleted, StaleFailover;
    var rest := c.(queue := c.queue[1..]);
    var gw := c.queue[0].gw;
    SafeIgnoresQueue(c, rest.queue);
    StaleIgnoresQueue(c, rest.queue, gw, step.exip, step.next);
    PopKeepsPicks(c, gw);
    match c.queue[0]
    case Added(_, available) => AddedKeepsSafe(rest, gw, available, step.cidr);
    case WentDown(_) => FailoverSafeExact(rest, gw, step.exip, step.next);
    case CameUp(_) => CameUpKeepsSafe(rest, gw, step.exip);
    case Deleted(_) => FailoverSafeExact(rest, gw, step.exip, step.next);
  }

  /**
   Every step keeps the safety invariant if and only if it is calm. Faults in pods, reused addresses, clashing
   CIDRs, edits and GatewayExIps created over tunnels of an earlier primary do not matter: only a stale failover,
   which leaves a device without an owner, breaks it.
   */
  lemma StepSafeExact(c: Cluster, step: Step)
    requires Safe(c) && Enabled(c, step)
    ensures Safe(Next(c, step)) <==> Calm(c, step)
  {
    hide Safe, ReconcileTunnel, Propagate;
    match step
    case PodDies(_) => EnvironmentKeepsSafe(c, step);
    case PodReturns(_, _, _) => EnvironmentKeepsSafe(c, step);
    case GatewayAdded(_, _, _) => EnvironmentKeepsSafe(c, step);
    case GatewayRemoved(_) => EnvironmentKeepsSafe(c, step);
    case HandleEvent(_, _, _) => EventSafeExact(c, step);
    case RemoteSet(_, _) => RemoteStepKeepsSafe(c, step);
    case RemoteGone(_) => RemoteStepKeepsSafe(c, step);
    case UserCreates(key, t) => UserPutKeepsSafe(c, key, t);
    case UserEdits(key, t) => UserPutKeepsSafe(c, key, t);
    case UserDeletes(key) => UserDeletesKeepsSafe(c, key);
    case Reconcile(key, env) => ReconcileKeepsSafe(c, key, env);
  }

  lemma RemoteStepKeepsSafe(c: Cluster, step: Step)
    requires Safe(c) && Enabled(c, step) && (step.RemoteSet? || step.RemoteGone?)
    ensures Safe(Next(c, step))
  {
    hide NoOrphanDevices, RemoteChange, Next, Shaped;
    RemoteStepKeepsShape(c, step);
    RemoteKeepsSafe(c, Next(c, step));
  }

  // ----- who lets go of an object -----

  /** Objects stay, and nothing of them changes but the spec. */
  ghost predicate SpecsOnly(tunnels: map<Key, VpcNatTunnel>, tunnels': map<Key, VpcNatTunnel>) {
    tunnels'.Keys == tunnels.Keys && forall k | k in tunnels :: tunnels'[k] == tunnels[k].(spec := tunnels'[k].spec)
  }

  lemma HandlersWriteSpecs(c: Cluster, gw: Word, exip: Option<string>, next: Option<Word>)
    requires Picks(ExIpsNaming(c, gw), exip)
    ensures SpecsOnly(c.tunnels, HandleCameUp(c, gw, exip).tunnels)
    ensures Picks(Available(c, gw) - {gw}, next) ==> SpecsOnly(c.tunnels, HandleWentDown(c, gw, exip, next).tunnels)
    ensures Picks(Available(c, gw), next) ==> SpecsOnly(c.tunnels, HandleDeleted(c, gw, exip, next).tunnels)
  {
    RetargetWritesSpecs(c.tunnels);
    SpecsOfTheSame(c.tunnels);
    hide SpecsOnly, Retarget;
  }

  lemma RetargetWritesSpecs(tunnels: map<Key, VpcNatTunnel>)
    ensures forall vpc, gw, ip :: SpecsOnly(tunnels, Retarget(tunnels, vpc, gw, ip))
  {
  }

  /** The informer's handlers write specs, and neither Status nor finalizers. */
  lemma EventWritesSpecs(c: Cluster, step: Step)
    requires step.HandleEvent? && Enabled(c, step)
    ensures SpecsOnly(c.tunnels, Next(c, step).tunnels)
  {
    var rest := c.(queue := c.queue[1..]);
    var gw := c.queue[0].gw;
    PopKeepsPicks(c, gw);
    hide SpecsOnly;
    match c.queue[0]
    case Added(_, available) =>
      assert HandleAdded(rest, gw, available, step.cidr).tunnels == c.tunnels;
      SpecsOfTheSame(c.tunnels);
    case WentDown(_) => HandlersWriteSpecs(rest, gw, step.exip, step.next);
    case CameUp(_) => HandlersWriteSpecs(rest, gw, step.exip, None);
    case Deleted(_) => HandlersWriteSpecs(rest, gw, step.exip, step.next);
  }

  lemma SpecsOfTheSame(tunnels: map<Key, VpcNatTunnel>)
    ensures SpecsOnly(tunnels, tunnels)
  {
  }

  /** Status and finalizers stay on what stays, and what holds a finalizer stays. */
  ghost predicate KeepsObjects(tunnels: map<Key, VpcNatTunnel>, tunnels': map<Key, VpcNatTunnel>) {
    forall k | k in tunnels ::
      && (tunnels[k].finalizers != [] ==> k in tunnels')
      && (k in tunnels' ==> tunnels'[k].status == tunnels[k].status && tunnels'[k].finalizers == tunnels[k].finalizers)
  }

  lemma PropagateKeepsObjects(tunnels: map<Key, VpcNatTunnel>, name: string, ip: Word)
    requires '.' in name
    ensures KeepsObjects(tunnels, Propagate(tunnels, name, ip))
  {
    PropagateKeepsRest(tunnels, name, ip);
  }

  lemma PutKeepsObjects(tunnels: map<Key, VpcNatTunnel>, key: Key, t: VpcNatTunnel)
    requires key in tunnels ==> t.status == tunnels[key].status && t.finalizers == tunnels[key].finalizers
    ensures KeepsObjects(tunnels, tunnels[key := t])
  {
  }

  lemma RemoveKeepsObjects(tunnels: map<Key, VpcNatTunnel>, key: Key)
    requires key in tunnels ==> tunnels[key].finalizers == []
    ensures KeepsObjects(tunnels, tunnels - {key})
  {
  }

  lemma OthersKeepObjects(c: Cluster, step: Step)
    requires Enabled(c, step) && !step.HandleEvent? && !step.Reconcile?
    ensures KeepsObjects(c.tunnels, Next(c, step).tunnels)
  {
    hide ReconcileTunnel, HandleAdded, HandleWentDown, HandleCameUp, HandleDeleted, Propagate, KeepsObjects;
    match step
    case RemoteSet(name, e) =>
      assert name[|e.localVpc|] == '.';
      PropagateKeepsObjects(c.tunnels, name, e.externalIP);
    case RemoteGone(name) => PropagateKeepsObjects(c.tunnels, name, c.exips[name].externalIP);
    case UserCreates(key, t) => PutKeepsObjects(c.tunnels, key, t);
    case UserEdits(key, t) => PutKeepsObjects(c.tunnels, key, t);
    case UserDeletes(key) =>
      if c.tunnels[key].finalizers == [] {
        RemoveKeepsObjects(c.tunnels, key);
      } else {
        PutKeepsObjects(c.tunnels, key, c.tunnels[key].(deleting := true));
      }
    case _ => NothingKeepsObjects(c.tunnels);
  }

  lemma NothingKeepsObjects(tunnels: map<Key, VpcNatTunnel>)
    ensures KeepsObjects(tunnels, tunnels)
  {
  }

  /**
   The two delete commands were the whole work in the pod, unbroken and without an error, before the object was
   written.
   */
  predicate DeletedCleanly(c: Cluster, key: Key, env: Env) {
    key in c.tunnels && c.tunnels[key].deleting &&
    var t := c.tunnels[key];
    && t.status.localGw in c.pods && t.status.globalEgressIP != []
    && FaultOf(env, 0) == Healthy && FaultOf(env, 1) == Healthy
    && ReconcileTunnel(c, key, env).log
         == [Exec(t.status.localGw, GenDelGlobalnetRoute(key.name, t.status), true),
             Exec(t.status.localGw, DeleteCmd(key.name, t.spec.typ), true),
             WriteObject(key)]
  }

  /**
   A tunnel object that holds the finalizer is let go of by one step only: a reconcile of the deleted
   object in which both delete commands ran, unbroken and without an error.
   */
  lemma OnlyCleanDeletesLetGo(c: Cluster, step: Step, key: Key)
    requires Enabled(c, step) && key in c.tunnels && FINALIZER in c.tunnels[key].finalizers
    ensures var after := Next(c, step).tunnels;
            || (key in after && FINALIZER in after[key].finalizers)
            || (step.Reconcile? && step.key == key && DeletedCleanly(c, key, step.env))
  {
    if step.HandleEvent? {
      EventWritesSpecs(c, step);
    } else if !step.Reconcile? {
      OthersKeepObjects(c, step);
    } else if step.key in c.tunnels {
      hide HandleDelete, HandleCreateOrUpdate;
      ReconcileWrites(c, step.key, step.env);
      if c.tunnels[step.key].deleting {
        DeleteTouches(c, step.key, step.env);
      }
    }
  }

  lemma CleanRunsAreHealthy(c: Cluster, gw: Word, first: string, second: string, env: Env, i: nat)
    requires gw in c.pods
    ensures var r := ExecBoth(c, gw, first, second, env, i);
            r.outcome == Done ==>
              && FaultOf(env, i) == Healthy && FaultOf(env, i + 1) == Healthy
              && r.log == [Exec(gw, first, true), Exec(gw, second, true)]
  {
  }

  /** A reconcile of a deleted object changes that object only, and only after both commands ran cleanly. */
  lemma DeleteTouches(c: Cluster, key: Key, env: Env)
    requires key in c.tunnels
    ensures var t := c.tunnels[key]; var r := HandleDelete(c, key, env);
            r.c.tunnels == c.tunnels
            || (&& t.status.localGw in c.pods && t.status.globalEgressIP != []
                && FaultOf(env, 0) == Healthy && FaultOf(env, 1) == Healthy
                && r.log == [Exec(t.status.localGw, GenDelGlobalnetRoute(key.name, t.status), true),
                             Exec(t.status.localGw, DeleteCmd(key.name, t.spec.typ), true),
                             WriteObject(key)])
    ensures var after := HandleDelete(c, key, env).c.tunnels;
            forall k | k in c.tunnels && k != key :: k in after && after[k] == c.tunnels[k]
  {
    hide ExecBoth, GenDelGlobalnetRoute, DeleteCmd, Dropped;
    var t := c.tunnels[key];
    var gw := t.status.localGw;
    if FINALIZER in t.finalizers && gw in c.pods && t.status.globalEgressIP != [] {
      CleanRunsAreHealthy(c, gw, GenDelGlobalnetRoute(key.name, t.status), DeleteCmd(key.name, t.spec.typ), env, 0);
    }
  }
}
