/**
 Updating a built tunnel, and the theorem that a reconcile, however its execs go, keeps the record exact
 precisely when the guards of the branch it takes are met.
 */
module RecordOfUpdate {
  import opened Api
  import opened Netns
  import opened TunnelCommands
  import opened TunnelLifecycle
  import opened Cluster
  import opened Shape
  import opened Record
  import opened Execs
  import opened RecordOfReconcile

  /** A built tunnel that is not being deleted. */
  predicate Standing(c: Cluster, key: Key) {
    key in c.tunnels && Recorded(c.tunnels[key]) && !c.tunnels[key].deleting
  }

  /** What a built tunnel's object says about itself. */
  lemma StandingIsOk(c: Cluster, key: Key)
    requires Shaped(c) && Standing(c, key)
    ensures var t := c.tunnels[key];
            && !OwnInterface(key.name) && t.status.globalEgressIP != []
            && t.spec.localGw in c.homes && c.homes[t.spec.localGw] == t.spec.localVpc
  {
    hide DevicesApart, Rooted;
    assert TunnelOk(c.homes, key, c.tunnels[key]);
  }

  // ----- the build of an update -----

  /** The update's build on a pod of the tunnel's own VPC where no other tunnel is recorded. */
  lemma RebuildExact(c: Cluster, key: Key, remote: GatewayExIp, ns: NetNs)
    requires Shaped(c) && Accurate(c) && Standing(c, key)
    requires var t := c.tunnels[key]; var gw := t.spec.localGw;
             && gw in c.pods && t.spec.typ == t.status.typ
             && (forall k | k in c.tunnels && k != key :: !RecordedOn(c.tunnels[k], gw, c.pods[gw]))
             && t.status.globalEgressIP != [] && t.status.globalnetCIDR != remote.globalNetCIDR
             && ns == Built(EMPTY, key.name, KindFor(t.spec.typ, t.labels), NextStatus(t, remote))
    ensures var t := c.tunnels[key]; var gw := t.spec.localGw;
            Accurate(c.(pods := SetNs(c.pods, gw, ns), tunnels := c.tunnels[key := Updated(t, remote)]))
            <==> c.pods[gw].externalIP == t.spec.internalIP
  {
    hide Holds, KindFor, Shaped;
    var t := c.tunnels[key];
    var gw := t.spec.localGw;
    var t' := Updated(t, remote);
    if c.pods[gw].externalIP == t.spec.internalIP {
      RecordedThereOrNowhere(c, key, gw);
      BuiltHolds(key.name, t.spec.typ, t.labels, t'.status);
      RecordBuilt(c.tunnels, c.pods, key, t', gw, ns);
    } else {
      Unrecorded(c.tunnels[key := t'], SetNs(c.pods, gw, ns), gw);
    }
  }

  lemma RecordedThereOrNowhere(c: Cluster, key: Key, gw: Word)
    requires Accurate(c) && key in c.tunnels && c.tunnels[key].spec.localGw == gw
    ensures forall g | g in c.pods && g != gw :: !RecordedOn(c.tunnels[key], g, c.pods[g])
  {
    hide Exact;
  }

  /** What building for an update leaves behind on an empty pod. */
  lemma RebuildRuns(c: Cluster, key: Key, t: VpcNatTunnel, remote: GatewayExIp, env: Env) returns (ns: NetNs)
    requires !OwnInterface(key.name)
    requires t.spec.localGw in c.pods && c.pods[t.spec.localGw].ns == EMPTY && t.status.globalEgressIP != []
    ensures var gw, st := t.spec.localGw, NextStatus(t, remote);
            var r := Rebuild(c, key, t, remote, env);
            && r.outcome == (if Unbroken(env, 2, 4) && st.globalnetCIDR != st.remoteGlobalnetCIDR then Done else Failed)
            && (r.outcome == Done ==> && ns == Built(EMPTY, key.name, KindFor(t.spec.typ, t.labels), st)
                                      && r.c == c.(pods := SetNs(c.pods, gw, ns),
                                                   tunnels := c.tunnels[key := Updated(t, remote)]))
            && (r.outcome != Done ==> r.c == c.(pods := SetNs(c.pods, gw, ns)))
            && (ns == EMPTY <==> NeverStarts(env, 2)) && (NeverStarts(env, 2) ==> r.c == c)
            && ns.routes.Keys <= {st.globalnetCIDR, st.remoteGlobalnetCIDR}
            && (ns.routes != map[] ==>
                key.name in ns.devs && ns.devs[key.name] == DeviceOf(KindFor(t.spec.typ, t.labels), st))
  {
    hide CreateCmd, GenGlobalnetRoute, ExecBoth, KindFor, Updated;
    var gw := t.spec.localGw;
    var st := NextStatus(t, remote);
    BuildOnEmpty(c, key.name, gw, t.spec.typ, st, t.labels, env, 2);
    ns := ExecBoth(c, gw, CreateCmd(key.name, t.spec.typ, st, t.labels), GenGlobalnetRoute(key.name, st), env,
                   2).c.pods[gw].ns;
    assert NeverStarts(env, 2) ==> !Unbroken(env, 2, 4);
  }

  // ----- in place -----

  /** Of what is done to one namespace, the last counts. */
  lemma SetNsTwice(c: Cluster, gw: Word, first: NetNs, ns: NetNs, tunnels: map<Key, VpcNatTunnel>)
    requires gw in c.pods
    ensures var c1 := c.(pods := SetNs(c.pods, gw, first));
            c1.(pods := SetNs(c1.pods, gw, ns), tunnels := tunnels)
              == c.(pods := SetNs(c.pods, gw, ns), tunnels := tunnels)
  {
    assert SetNs(SetNs(c.pods, gw, first), gw, ns) == SetNs(c.pods, gw, ns);
  }

  /** A build for the new status that broke off does not look like the old one: something made the status outdated. */
  lemma BrokenBuildIsNotHeld(ns: NetNs, name: Word, t: VpcNatTunnel, remote: GatewayExIp)
    requires SamePlace(t) && t.status.typ == t.spec.typ && Outdated(t, remote)
    requires ns.routes.Keys <= {t.status.globalnetCIDR, remote.globalNetCIDR}
    requires ns.routes != map[] ==>
               name in ns.devs && ns.devs[name] == DeviceOf(KindFor(t.spec.typ, t.labels), NextStatus(t, remote))
    ensures !Holds(ns, name, t.status)
  {
    assert Holds(ns, name, t.status) ==>
             t.status.globalnetCIDR in ns.routes && t.status.remoteGlobalnetCIDR in ns.routes;
    assert t.spec.interfaceAddr in DeviceOf(KindFor(t.spec.typ, t.labels), NextStatus(t, remote)).addrs;
  }

  lemma InPlaceExact(c: Cluster, key: Key, remote: GatewayExIp, env: Env)
    requires Shaped(c) && Accurate(c) && Standing(c, key) && Rebuilds(c, c.tunnels[key], remote)
    requires SamePlace(c.tunnels[key]) && Reaches(c, c.tunnels[key].spec.localGw, c.tunnels[key])
    ensures Accurate(Update(c, key, c.tunnels[key], remote, env).c) <==> BenignUpdate(c, c.tunnels[key], remote, env)
  {
    hide GenDelGlobalnetRoute, DeleteCmd, ExecBoth, Rebuild, Holds, Outdated, Shaped;
    var t := c.tunnels[key];
    var gw := t.spec.localGw;
    StandingIsOk(c, key);
    assert PodExact(c.tunnels, gw, c.pods[gw]);
    TakeDownRecorded(c, key.name, gw, t.spec.typ, t.status, env);
    var cleared := Clear(c, key, t, env);
    UnbrokenInTwo(env);
    assert NeverStarts(env, 0) ==> !Unbroken(env, 0, 2);
    if cleared.outcome == Done {
      assert cleared.c == c.(pods := SetNs(c.pods, gw, EMPTY));
      RebuildInPlaceExact(c, key, remote, env);
    } else if !NeverStarts(env, 0) {
      RoutelessIsNotHeld(cleared.c.pods[gw].ns, key.name, t.status);
      NotHeld(c.tunnels, c.pods, key, gw, cleared.c.pods[gw].ns);
    }
  }

  lemma UnbrokenInTwo(env: Env)
    ensures Unbroken(env, 0, 4) <==> Unbroken(env, 0, 2) && Unbroken(env, 2, 4)
  {
  }

  /** Once the pod has been emptied, only a build that goes through keeps the record. */
  lemma RebuildInPlaceExact(c: Cluster, key: Key, remote: GatewayExIp, env: Env)
    requires Shaped(c) && Accurate(c) && Standing(c, key)
    requires Rebuilds(c, c.tunnels[key], remote)
    requires SamePlace(c.tunnels[key]) && Reaches(c, c.tunnels[key].spec.localGw, c.tunnels[key])
    ensures var t := c.tunnels[key];
            Accurate(Rebuild(c.(pods := SetNs(c.pods, t.spec.localGw, EMPTY)), key, t, remote, env).c)
            <==> Unbroken(env, 2, 4) && t.status.globalnetCIDR != remote.globalNetCIDR
  {
    hide Rebuild, Holds, Outdated, Shaped, Exact, Trust, KindFor, Updated;
    var t := c.tunnels[key];
    var gw := t.spec.localGw;
    StandingIsOk(c, key);
    var empty := c.(pods := SetNs(c.pods, gw, EMPTY));
    var ns := RebuildRuns(empty, key, t, remote, env);
    var r := Rebuild(empty, key, t, remote, env);
    SetNsTwice(c, gw, EMPTY, ns, r.c.tunnels);
    if r.outcome == Done {
      OthersNotHere(c, key, gw);
      RebuildExact(c, key, remote, ns);
    } else {
      BrokenBuildIsNotHeld(ns, key.name, t, remote);
      NotHeld(c.tunnels, c.pods, key, gw, ns);
    }
  }

  /** At the recorded place runs another pod: taking down fails, and that is all. */
  lemma LostPodExact(c: Cluster, key: Key, remote: GatewayExIp, env: Env)
    requires Shaped(c) && Accurate(c) && Standing(c, key) && Rebuilds(c, c.tunnels[key], remote)
    requires SamePlace(c.tunnels[key]) && !Reaches(c, c.tunnels[key].spec.localGw, c.tunnels[key])
    ensures Accurate(Update(c, key, c.tunnels[key], remote, env).c) <==> BenignUpdate(c, c.tunnels[key], remote, env)
  {
    hide GenDelGlobalnetRoute, DeleteCmd, ExecBoth, Rebuild, RecordOk, Shaped, Outdated, Unharmed;
    StandingIsOk(c, key);
    TakeDownElsewhereExact(c, key, c.tunnels[key].spec.localGw, c.tunnels[key].spec.typ, env);
  }

  // ----- on another gateway -----

  /** The gateway has changed: Trust says that the tunnel is on no live pod. */
  lemma MovedExact(c: Cluster, key: Key, remote: GatewayExIp, env: Env)
    requires Shaped(c) && Accurate(c) && Standing(c, key)
    requires Rebuilds(c, c.tunnels[key], remote) && !SamePlace(c.tunnels[key])
    ensures Accurate(Update(c, key, c.tunnels[key], remote, env).c) <==> BenignUpdate(c, c.tunnels[key], remote, env)
  {
    hide Rebuild, Holds, Outdated, Shaped, Exact, Unbroken, NeverStarts;
    var t := c.tunnels[key];
    var gw := t.spec.localGw;
    StandingIsOk(c, key);
    if c.pods[gw].ns == EMPTY {
      MovedToEmptyExact(c, key, remote, env);
    } else {
      MovedBesideExact(c, key, remote, env);
    }
  }

  lemma MovedToEmptyExact(c: Cluster, key: Key, remote: GatewayExIp, env: Env)
    requires Shaped(c) && Accurate(c) && Standing(c, key) && c.tunnels[key].spec.localGw in c.pods
    requires c.tunnels[key].spec.typ == c.tunnels[key].status.typ && c.pods[c.tunnels[key].spec.localGw].ns == EMPTY
    ensures var t := c.tunnels[key]; var gw := t.spec.localGw;
            Accurate(Rebuild(c, key, t, remote, env).c)
            <==> NeverStarts(env, 2)
                 || (&& Unbroken(env, 2, 4) && t.status.globalnetCIDR != remote.globalNetCIDR
                     && c.pods[gw].externalIP == t.spec.internalIP)
  {
    hide Rebuild, Holds, Shaped, Exact, Trust, KindFor, Updated;
    var t := c.tunnels[key];
    var gw := t.spec.localGw;
    StandingIsOk(c, key);
    UnrecordedPodIsEmpty(c, gw);
    assert forall k | k in c.tunnels :: !RecordedOn(c.tunnels[k], gw, c.pods[gw]);
    var ns := RebuildRuns(c, key, t, remote, env);
    assert NeverStarts(env, 2) ==> !Unbroken(env, 2, 4);
    if Rebuild(c, key, t, remote, env).outcome == Done {
      RebuildExact(c, key, remote, ns);
    } else if !NeverStarts(env, 2) {
      Unrecorded(c.tunnels, SetNs(c.pods, gw, ns), gw);
    }
  }

  lemma MovedBesideExact(c: Cluster, key: Key, remote: GatewayExIp, env: Env)
    requires Shaped(c) && Accurate(c) && Standing(c, key) && c.tunnels[key].spec.localGw in c.pods
    requires !SamePlace(c.tunnels[key]) && c.pods[c.tunnels[key].spec.localGw].ns != EMPTY
    ensures Accurate(Rebuild(c, key, c.tunnels[key], remote, env).c) <==> NeverStarts(env, 2)
  {
    hide CreateCmd, GenGlobalnetRoute, ExecBoth, Shaped, Exact, Updated, NeverStarts;
    var t := c.tunnels[key];
    StandingIsOk(c, key);
    BuildBeside(c, key, t.spec.localGw, NextStatus(t, remote), env, 2);
  }

  /** Updates that reach no pod leave the record alone. */
  lemma UpdateWithoutRebuild(c: Cluster, key: Key, remote: GatewayExIp, env: Env)
    requires Accurate(c) && Standing(c, key)
    requires Outdated(c.tunnels[key], remote) && !Rebuilds(c, c.tunnels[key], remote)
    ensures Accurate(Update(c, key, c.tunnels[key], remote, env).c)
  {
    hide Clear, Rebuild, RecordOk, Outdated;
    var t := c.tunnels[key];
    if t.status.typ != t.spec.typ {
      PutKeepsRecord(c, key, t.(spec := t.spec.(typ := t.status.typ)));
    }
  }

  lemma UpdateExact(c: Cluster, key: Key, remote: GatewayExIp, env: Env)
    requires Shaped(c) && Accurate(c) && Standing(c, key)
    requires Outdated(c.tunnels[key], remote)
    ensures var t := c.tunnels[key];
            Accurate(Update(c, key, t, remote, env).c) <==> (Rebuilds(c, t, remote) ==> BenignUpdate(c, t, remote, env))
  {
    hide Shaped, Accurate, Outdated, BenignUpdate, Update;
    var t := c.tunnels[key];
    if !Rebuilds(c, t, remote) {
      UpdateWithoutRebuild(c, key, remote, env);
    } else if !SamePlace(t) {
      MovedExact(c, key, remote, env);
    } else if Reaches(c, t.spec.localGw, t) {
      InPlaceExact(c, key, remote, env);
    } else {
      LostPodExact(c, key, remote, env);
    }
  }

  // ----- the whole reconcile -----

  /** The finalizer is stored first. */
  lemma StoreFinalizerKeeps(c: Cluster, key: Key)
    requires Shaped(c) && Accurate(c) && key in c.tunnels
    requires !c.tunnels[key].deleting && !c.tunnels[key].status.initialized
    ensures var c1 := Put(c, key, WithFinalizer(c.tunnels[key])); Shaped(c1) && Accurate(c1)
  {
    hide RecordOk, Shaped;
    var t := c.tunnels[key];
    TunnelIsOk(c, key);
    DevicesStayApart(c, key);
    PutKeepsShape(c, key, WithFinalizer(t));
    PutKeepsRecord(c, key, WithFinalizer(t));
  }

  /** The guards do not depend on whether the finalizer is stored already. */
  lemma FinalizerIsNoGuard(c: Cluster, key: Key, env: Env)
    requires key in c.tunnels && !c.tunnels[key].deleting && !c.tunnels[key].status.initialized
    ensures BenignReconcile(Put(c, key, WithFinalizer(c.tunnels[key])), key, env) <==> BenignReconcile(c, key, env)
  {
  }

  lemma CreateExact(c: Cluster, key: Key, env: Env)
    requires Shaped(c) && Accurate(c) && key in c.tunnels
    requires !c.tunnels[key].deleting && !c.tunnels[key].status.initialized
    ensures Accurate(HandleCreateOrUpdate(c, key, env).c) <==> BenignReconcile(c, key, env)
  {
    hide Accurate, Shaped, FirstBuild, Update, FindsAll;
    var t := c.tunnels[key];
    var c1 := Put(c, key, WithFinalizer(t));
    StoreFinalizerKeeps(c, key);
    FinalizerIsNoGuard(c, key, env);
    assert FINALIZER in t.finalizers ==> c1.tunnels == c.tunnels && c1 == c;
    if RemoteName(t) in c.exips {
      FirstBuildExact(c1, key, env);
    } else {
      assert !FindsAll(c, t, env) by {
        NothingIsFound(c, t, env);
      }
    }
  }

  lemma NothingIsFound(c: Cluster, t: VpcNatTunnel, env: Env)
    ensures RemoteName(t) !in c.exips ==> !FindsAll(c, t, env)
  {
  }

  /** A reconcile keeps the record exact if and only if the guards of the branch that it takes are met. */
  lemma ReconcileExact(c: Cluster, key: Key, env: Env)
    requires Shaped(c) && Accurate(c)
    ensures Accurate(ReconcileTunnel(c, key, env).c) <==> BenignReconcile(c, key, env)
  {
    hide Accurate, Shaped, HandleDelete, Update, FirstBuild, BenignUpdate, TunnelOk;
    if key in c.tunnels {
      var t := c.tunnels[key];
      if t.deleting {
        DeleteExact(c, key, env);
      } else if !t.status.initialized {
        CreateExact(c, key, env);
      } else {
        StoredIsRecorded(c, key);
        if RemoteName(t) in c.exips && Outdated(t, c.exips[RemoteName(t)]) {
          UpdateExact(c, key, c.exips[RemoteName(t)], env);
        }
      }
    }
  }

  lemma StoredIsRecorded(c: Cluster, key: Key)
    requires Shaped(c) && key in c.tunnels && c.tunnels[key].status.initialized && !c.tunnels[key].deleting
    ensures Standing(c, key) && WithFinalizer(c.tunnels[key]) == c.tunnels[key]
  {
    hide DevicesApart, Rooted;
    assert TunnelOk(c.homes, key, c.tunnels[key]);
  }
}
