/**
 In a stable environment repeated reconciles come to rest: after one working reconcile from an unbuilt
 tunnel, after at most two from a built one.
 */
module Convergence {
  import opened Api
  import opened Finalizers
  import opened Netns
  import opened TunnelCommands
  import opened Cluster
  import opened Shape
  import opened TunnelEffects
  import opened Agreement
  import opened Record
  import opened Execs
  import opened RecordOfReconcile
  import opened RecordOfUpdate

  /**
   Everything the tunnel's reconcile looks up is there, its gateway is live with the address in Spec, the two
   clusters' CIDRs differ, no connection to a pod breaks, and where the tunnel is not built yet the pod is empty.
   */
  ghost predicate Resolvable(c: Cluster, key: Key, env: Env) {
    && Unbroken(env, 0, 4) && key in c.tunnels && !c.tunnels[key].deleting
    && RemoteName(c.tunnels[key]) in c.exips
    && var t := c.tunnels[key];
       var remote := c.exips[RemoteName(t)];
       if !t.status.initialized then
         && ExIpName(t.spec.localVpc, c.id) in c.exips
         && c.exips[ExIpName(t.spec.localVpc, c.id)].localGateway in c.pods
         && env.globalnetCIDR.Some? && env.egressIP.Some? && env.egressIP.value != []
         && env.globalnetCIDR.value != remote.globalNetCIDR
         && c.pods[c.exips[ExIpName(t.spec.localVpc, c.id)].localGateway].ns == EMPTY
       else
         && t.spec.localGw in c.pods && c.pods[t.spec.localGw].externalIP == t.spec.internalIP
         && t.status.globalnetCIDR != remote.globalNetCIDR
         && (SamePlace(t) || c.pods[t.spec.localGw].ns == EMPTY)
  }

  /** How many reconciles still have work to do. */
  ghost function Work(c: Cluster, key: Key): nat
    requires key in c.tunnels && RemoteName(c.tunnels[key]) in c.exips
  {
    var t := c.tunnels[key];
    var remote := c.exips[RemoteName(t)];
    if !t.status.initialized then 1
    else (if t.status.typ != t.spec.typ then 1 else 0)
         + (if Outdated(t.(spec := t.spec.(typ := t.status.typ)), remote) then 1 else 0)
  }

  /** A reconcile that changes nothing: no command, no write, no failure. */
  ghost predicate AtRest(c: Cluster, key: Key, env: Env) {
    ReconcileTunnel(c, key, env) == Reconciled(c, Done, [])
  }

  /** The cluster after the reconcile differs in the tunnel and in what is in the pods. */
  ghost predicate Reconciles(c: Cluster, key: Key, c': Cluster, t: VpcNatTunnel) {
    && key in c.tunnels
    && c' == c.(pods := c'.pods, tunnels := c.tunnels[key := t])
    && c'.pods.Keys == c.pods.Keys
    && forall g | g in c.pods :: c'.pods[g].externalIP == c.pods[g].externalIP
  }

  // ----- from an unbuilt tunnel -----

  /** The object that a first build stores. */
  function FirstRecordIn(c: Cluster, t: VpcNatTunnel, env: Env): VpcNatTunnel
    requires FindsAll(c, t, env)
  {
    FirstRecord(t, c.exips[RemoteName(t)], FirstStatusIn(c, t, env))
  }

  lemma FirstBuildRuns(c: Cluster, key: Key, env: Env)
    requires Shaped(c) && Accurate(c) && Resolvable(c, key, env) && !c.tunnels[key].status.initialized
    ensures var t := c.tunnels[key];
            var r := FirstBuild(c, key, t, c.exips[RemoteName(t)], env);
            r.outcome == Done && Reconciles(c, key, r.c, FirstRecordIn(c, t, env))
  {
    hide CreateCmd, GenGlobalnetRoute, ExecBoth, Shaped, Accurate, FirstRecord;
    var t := c.tunnels[key];
    FirstPod(c, key, env);
    var gw := c.exips[ExIpName(t.spec.localVpc, c.id)].localGateway;
    BuildOnEmpty(c, key.name, gw, t.spec.typ, FirstStatusIn(c, t, env), t.labels, env, 0);
  }

  lemma ReconcileIsFirstBuild(c: Cluster, key: Key, env: Env)
    requires key in c.tunnels && !c.tunnels[key].deleting
    requires !c.tunnels[key].status.initialized && RemoteName(c.tunnels[key]) in c.exips
    ensures var t := WithFinalizer(c.tunnels[key]); var c1 := Put(c, key, t);
            var r := ReconcileTunnel(c, key, env); var b := FirstBuild(c1, key, t, c1.exips[RemoteName(t)], env);
            r.c == b.c && r.outcome == b.outcome
  {
    hide FirstBuild, Update;
    assert c.tunnels[key := c.tunnels[key]] == c.tunnels;
  }

  lemma FirstBuiltHasNoWork(c: Cluster, key: Key, env: Env, c': Cluster)
    requires Resolvable(c, key, env) && !c.tunnels[key].status.initialized && FindsAll(c, c.tunnels[key], env)
    requires Reconciles(c, key, c', FirstRecordIn(c, c.tunnels[key], env))
    ensures Resolvable(c', key, env) && Work(c', key) == 0
  {
    assert RemoteName(c'.tunnels[key]) == RemoteName(c.tunnels[key]);
  }

  /** One working reconcile builds an unbuilt tunnel and leaves nothing to do. */
  lemma FirstReconcile(c: Cluster, key: Key, env: Env)
    requires Shaped(c) && Accurate(c) && Resolvable(c, key, env) && !c.tunnels[key].status.initialized
    ensures var r := ReconcileTunnel(c, key, env);
            && r.outcome == Done && Resolvable(r.c, key, env) && Work(r.c, key) == 0
  {
    hide ReconcileTunnel, FirstBuild, Shaped, Accurate, FirstRecordIn, Unbroken;
    var c1 := Put(c, key, WithFinalizer(c.tunnels[key]));
    StoreFinalizerKeeps(c, key);
    FirstBuildRuns(c1, key, env);
    ReconcileIsFirstBuild(c, key, env);
    FirstBuiltHasNoWork(c1, key, env, ReconcileTunnel(c, key, env).c);
  }

  // ----- from a built one -----

  lemma RebuildDone(c: Cluster, key: Key, remote: GatewayExIp, env: Env)
    requires Unbroken(env, 2, 4) && key in c.tunnels && !OwnInterface(key.name)
    requires var t := c.tunnels[key];
             t.spec.localGw in c.pods && c.pods[t.spec.localGw].ns == EMPTY && t.status.globalEgressIP != []
             && t.status.globalnetCIDR != remote.globalNetCIDR
    ensures var t := c.tunnels[key]; var r := Rebuild(c, key, t, remote, env);
            r.outcome == Done && Reconciles(c, key, r.c, Updated(t, remote))
  {
    hide Rebuild, Updated, Unbroken, KindFor;
    var _ := RebuildRuns(c, key, c.tunnels[key], remote, env);
  }

  /** Where it is to be built, the pod is empty in the end, whether or not it was the recorded one. */
  lemma ClearsPod(c: Cluster, key: Key, env: Env)
    requires Shaped(c) && Accurate(c) && Resolvable(c, key, env) && Standing(c, key)
    requires c.tunnels[key].status.typ == c.tunnels[key].spec.typ
    ensures c.tunnels[key].status.globalEgressIP != []
    ensures var t := c.tunnels[key]; var cleared := Clear(c, key, t, env);
            && cleared.outcome == Done && t.spec.localGw in cleared.c.pods && cleared.c.pods[t.spec.localGw].ns == EMPTY
            && cleared.c == c.(pods := cleared.c.pods) && Reconciles(c, key, cleared.c, t)
  {
    hide GenDelGlobalnetRoute, DeleteCmd, ExecBoth, Shaped, Holds, Reconciles;
    var t := c.tunnels[key];
    var gw := t.spec.localGw;
    StandingIsOk(c, key);
    NothingReconciles(c, key);
    if SamePlace(t) {
      assert PodExact(c.tunnels, gw, c.pods[gw]);
      TakeDownRecorded(c, key.name, gw, t.spec.typ, t.status, env);
      SetNsReconciles(c, key, gw, EMPTY);
    }
  }

  lemma SetNsReconciles(c: Cluster, key: Key, gw: Word, ns: NetNs)
    requires key in c.tunnels && gw in c.pods
    ensures Reconciles(c, key, c.(pods := SetNs(c.pods, gw, ns)), c.tunnels[key])
  {
    NothingReconciles(c, key);
  }

  lemma NothingReconciles(c: Cluster, key: Key)
    requires key in c.tunnels
    ensures Reconciles(c, key, c, c.tunnels[key])
  {
    assert c.tunnels[key := c.tunnels[key]] == c.tunnels;
  }

  lemma UpdateIsRebuild(c: Cluster, key: Key, remote: GatewayExIp, env: Env)
    requires key in c.tunnels
    requires var t := c.tunnels[key];
             && t.status.typ == t.spec.typ && t.spec.localGw != "" && t.spec.localGw in c.pods
             && t.status.globalEgressIP != []
    requires var cleared := Clear(c, key, c.tunnels[key], env);
             cleared.outcome == Done && c.tunnels[key].spec.localGw in cleared.c.pods
    ensures var t := c.tunnels[key];
            var u := Update(c, key, t, remote, env);
            var r := Rebuild(Clear(c, key, t, env).c, key, t, remote, env);
            u.c == r.c && u.outcome == r.outcome
  {
    hide Clear, Rebuild;
  }

  lemma ReconcilesComposes(a: Cluster, b: Cluster, c: Cluster, key: Key, t: VpcNatTunnel, u: VpcNatTunnel)
    requires Reconciles(a, key, b, t) && Reconciles(b, key, c, u)
    ensures Reconciles(a, key, c, u)
  {
    assert a.tunnels[key := t][key := u] == a.tunnels[key := u];
  }

  lemma UpdateDone(c: Cluster, key: Key, env: Env)
    requires Shaped(c) && Accurate(c) && Resolvable(c, key, env) && Standing(c, key)
    requires c.tunnels[key].status.typ == c.tunnels[key].spec.typ
    ensures var t := c.tunnels[key]; var remote := c.exips[RemoteName(t)];
            var r := Update(c, key, t, remote, env);
            r.outcome == Done && Reconciles(c, key, r.c, Updated(t, remote))
  {
    hide Clear, Rebuild, Update, TunnelsOk, DevicesApart, Accurate, Updated;
    var t := c.tunnels[key];
    var remote := c.exips[RemoteName(t)];
    StandingIsOk(c, key);
    assert "" !in c.homes;
    ClearsPod(c, key, env);
    var cleared := Clear(c, key, t, env).c;
    assert cleared.tunnels[key] == t;
    RebuildDone(cleared, key, remote, env);
    UpdateIsRebuild(c, key, remote, env);
    ReconcilesComposes(c, cleared, Rebuild(cleared, key, t, remote, env).c, key, t, Updated(t, remote));
  }

  lemma ReconcileIsUpdate(c: Cluster, key: Key, env: Env)
    requires Standing(c, key) && RemoteName(c.tunnels[key]) in c.exips
    requires Outdated(c.tunnels[key], c.exips[RemoteName(c.tunnels[key])])
    ensures ReconcileTunnel(c, key, env) == Update(c, key, c.tunnels[key], c.exips[RemoteName(c.tunnels[key])], env)
  {
    hide FirstBuild, Update;
    assert [] + Update(c, key, c.tunnels[key], c.exips[RemoteName(c.tunnels[key])], env).log
        == Update(c, key, c.tunnels[key], c.exips[RemoteName(c.tunnels[key])], env).log;
  }

  lemma UpdatedHasNoWork(c: Cluster, key: Key, env: Env, c': Cluster)
    requires Resolvable(c, key, env) && c.tunnels[key].status.initialized
    requires c.tunnels[key].status.typ == c.tunnels[key].spec.typ
    requires Reconciles(c, key, c', Updated(c.tunnels[key], c.exips[RemoteName(c.tunnels[key])]))
    ensures Resolvable(c', key, env) && Work(c', key) == 0
  {
    assert RemoteName(c'.tunnels[key]) == RemoteName(c.tunnels[key]);
  }

  /** An edited type is put back, which is one piece of the work. */
  lemma RevertIsWork(c: Cluster, key: Key, env: Env)
    requires Resolvable(c, key, env) && Standing(c, key) && c.tunnels[key].status.typ != c.tunnels[key].spec.typ
    ensures var r := ReconcileTunnel(c, key, env);
            && r.outcome == Done && Resolvable(r.c, key, env) && Work(r.c, key) == Work(c, key) - 1
  {
    var t := c.tunnels[key];
    ReconcileIsUpdate(c, key, env);
    hide ReconcileTunnel, Rebuild, Clear;
    assert RemoteName(t.(spec := t.spec.(typ := t.status.typ))) == RemoteName(t);
  }

  /** A reconcile of a built tunnel with work to do does some of it. */
  lemma WorkingReconcile(c: Cluster, key: Key, env: Env)
    requires Shaped(c) && Accurate(c) && Resolvable(c, key, env)
    requires c.tunnels[key].status.initialized && Work(c, key) > 0
    ensures var r := ReconcileTunnel(c, key, env);
            && r.outcome == Done && Resolvable(r.c, key, env) && Work(r.c, key) == Work(c, key) - 1
  {
    hide ReconcileTunnel, Update, Shaped, Accurate, Unbroken, Updated;
    var t := c.tunnels[key];
    StoredIsRecorded(c, key);
    if t.status.typ == t.spec.typ {
      UpdateDone(c, key, env);
      ReconcileIsUpdate(c, key, env);
      UpdatedHasNoWork(c, key, env, ReconcileTunnel(c, key, env).c);
    } else {
      RevertIsWork(c, key, env);
    }
  }

  /** Without work a reconcile does nothing. */
  lemma NoWorkIsRest(c: Cluster, key: Key, env: Env)
    requires Shaped(c) && Accurate(c) && Resolvable(c, key, env)
    ensures Work(c, key) == 0 <==> AtRest(c, key, env)
  {
    hide FirstBuild, Update, Shaped, Accurate, Unbroken;
    var t := c.tunnels[key];
    if !t.status.initialized {
      FirstReconcile(c, key, env);
    } else {
      StoredIsRecorded(c, key);
      if Work(c, key) > 0 {
        WorkingReconcile(c, key, env);
      }
    }
  }

  /**
   What is at rest is built as it should be: Status says what Spec and peer ask for, and the gateway's pod holds
   exactly that.
   */
  lemma RestIsBuilt(c: Cluster, key: Key, env: Env)
    requires Shaped(c) && Accurate(c) && Resolvable(c, key, env) && Work(c, key) == 0
    ensures var t := c.tunnels[key]; var remote := c.exips[RemoteName(t)];
            && t.status.initialized && FINALIZER in t.finalizers
            && t.status.remoteIP == t.spec.remoteIP && t.status.internalIP == t.spec.internalIP
            && t.status.localGw == t.spec.localGw
            && t.status.interfaceAddr == t.spec.interfaceAddr && t.status.typ == t.spec.typ
            && t.status.remoteGlobalnetCIDR == remote.globalNetCIDR
            && Holds(c.pods[t.spec.localGw].ns, key.name, t.status)
  {
    hide Holds, Shaped, Unbroken;
    var t := c.tunnels[key];
    StoredIsRecorded(c, key);
    assert PodExact(c.tunnels, t.spec.localGw, c.pods[t.spec.localGw]);
    assert RecordedOn(t, t.spec.localGw, c.pods[t.spec.localGw]);
  }

  // ----- repeated reconciles -----

  ghost function Repeat(c: Cluster, key: Key, env: Env, n: nat): Cluster
    decreases n
  {
    if n == 0 then c else Repeat(ReconcileTunnel(c, key, env).c, key, env, n - 1)
  }

  lemma ResolvableIsBenign(c: Cluster, key: Key, env: Env)
    requires Shaped(c) && Resolvable(c, key, env)
    ensures BenignReconcile(c, key, env)
  {
    hide Shaped;
    UnbrokenInTwo(env);
    if c.tunnels[key].status.initialized {
      StoredIsRecorded(c, key);
    }
  }

  /**
   Convergence: from every state whose record is exact, in a stable environment, the reconciles with work to do
   come first, each completes without an error, there are at most two of them, one from an unbuilt tunnel,
   and from then on every reconcile is a no-op.
   */
  lemma {:induction false} Converges(c: Cluster, key: Key, env: Env, n: nat)
    requires Shaped(c) && Accurate(c) && Resolvable(c, key, env)
    ensures Work(c, key) <= 2 && (!c.tunnels[key].status.initialized ==> Work(c, key) == 1)
    ensures ReconcileTunnel(c, key, env).outcome == Done
    ensures AtRest(Repeat(c, key, env, n), key, env) <==> n >= Work(c, key)
    ensures n >= Work(c, key) ==> Repeat(c, key, env, n) == Repeat(c, key, env, Work(c, key))
    ensures Shaped(Repeat(c, key, env, n)) && Accurate(Repeat(c, key, env, n))
    decreases n
  {
    hide ReconcileTunnel, Shaped, Accurate, Outdated, Resolvable, BenignReconcile;
    ResolvableHasPeer(c, key, env);
    NoWorkIsRest(c, key, env);
    if Work(c, key) > 0 {
      if c.tunnels[key].status.initialized {
        WorkingReconcile(c, key, env);
      } else {
        FirstReconcile(c, key, env);
      }
    }
    if n > 0 {
      ResolvableIsBenign(c, key, env);
      ReconcileExact(c, key, env);
      ReconcileKeepsShape(c, key, env);
      Converges(ReconcileTunnel(c, key, env).c, key, env, n - 1);
    }
  }

  lemma ResolvableHasPeer(c: Cluster, key: Key, env: Env)
    requires Resolvable(c, key, env)
    ensures key in c.tunnels && RemoteName(c.tunnels[key]) in c.exips
  {
  }

  /** After any edit of a user, of Type and InterfaceAddr above all, two reconciles are enough. */
  lemma EditsConverge(c: Cluster, key: Key, t: VpcNatTunnel, env: Env)
    requires Shaped(c) && Accurate(c) && Enabled(c, UserEdits(key, t)) && Resolvable(Put(c, key, t), key, env)
    ensures AtRest(Repeat(Put(c, key, t), key, env, 2), key, env)
  {
    hide ReconcileTunnel, Shaped, RecordOk, Resolvable;
    StepKeepsShape(c, UserEdits(key, t));
    PutKeepsRecord(c, key, t);
    Converges(Put(c, key, t), key, env, 2);
  }

  /**
   With no event pending, a tunnel whose primary gateway runs, and does not carry another tunnel, is resolvable: its
   Spec carries the pod's address.
   */
  lemma QuietIsResolvable(c: Cluster, key: Key, env: Env)
    requires Agreed(c) && Accurate(c) && c.queue == [] && Unbroken(env, 0, 4)
    requires key in c.tunnels && !c.tunnels[key].deleting
    requires var t := c.tunnels[key];
             && RemoteName(t) in c.exips
             && ExIpName(t.spec.localVpc, c.id) in c.exips
             && c.exips[ExIpName(t.spec.localVpc, c.id)].localGateway in c.pods
             && (t.status.initialized ==> t.status.globalnetCIDR != c.exips[RemoteName(t)].globalNetCIDR)
             && (!t.status.initialized ==>
                   && env.globalnetCIDR.Some? && env.egressIP.Some? && env.egressIP.value != []
                   && env.globalnetCIDR.value != c.exips[RemoteName(t)].globalNetCIDR)
    requires var gw := c.exips[ExIpName(c.tunnels[key].spec.localVpc, c.id)].localGateway;
             forall k | k in c.tunnels && k != key :: !RecordedOn(c.tunnels[k], gw, c.pods[gw])
    ensures Resolvable(c, key, env)
  {
    hide DevicesApart, HomesOk, PrimariesOk, RoutesOk, PrimariesExist, Unbroken, Exact;
    UnrecordedPodIsEmpty(c, c.exips[ExIpName(c.tunnels[key].spec.localVpc, c.id)].localGateway);
    var t := c.tunnels[key];
    var n := ExIpName(t.spec.localVpc, c.id);
    assert TunnelOk(c.homes, key, t);
    LocalLookup(c.exips, c.id, t.spec.localVpc);
    assert Local(c.exips, c.id, n) && !Pending(c.queue, c.exips[n].localGateway);
    assert t.status.initialized ==> Labelled(t, c.exips[n].localVpc);
  }

  // ----- deletion -----

  /** What a completed deletion leaves of the object. */
  lemma DeletionLetsGo(c: Cluster, key: Key, env: Env)
    requires key in c.tunnels && c.tunnels[key].deleting && FINALIZER in c.tunnels[key].finalizers
    ensures var t := c.tunnels[key]; var r := ReconcileTunnel(c, key, env);
            r.outcome == Done ==>
              && (key in r.c.tunnels <==> exists f :: f in t.finalizers && f != FINALIZER)
              && (key in r.c.tunnels ==> FINALIZER !in r.c.tunnels[key].finalizers)
  {
    hide ReconcileTunnel, Traces, ForeignKept;
    DeletionMeans(c, key, env);
  }

  lemma DeletionReaches(c: Cluster, key: Key, env: Env)
    requires Shaped(c) && Accurate(c) && key in c.tunnels
    requires c.tunnels[key].deleting && FINALIZER in c.tunnels[key].finalizers
    requires Reaches(c, c.tunnels[key].status.localGw, c.tunnels[key])
    ensures var t := c.tunnels[key]; var r := ReconcileTunnel(c, key, env);
            && (r.outcome == Done <==> !WrongDelete(t) && Unbroken(env, 0, 2))
            && (r.outcome == Done ==> t.status.localGw in r.c.pods && r.c.pods[t.status.localGw].ns == EMPTY)
  {
    hide GenDelGlobalnetRoute, DeleteCmd, ExecBoth, Dropped, Holds, Unbroken, DevicesApart;
    var t := c.tunnels[key];
    var gw := t.status.localGw;
    assert TunnelOk(c.homes, key, t);
    assert PodExact(c.tunnels, gw, c.pods[gw]);
    TakeDownRecorded(c, key.name, gw, t.spec.typ, t.status, env);
  }

  lemma DeletionElsewhere(c: Cluster, key: Key, env: Env)
    requires Shaped(c) && Accurate(c) && key in c.tunnels
    requires c.tunnels[key].deleting && FINALIZER in c.tunnels[key].finalizers
    requires !Reaches(c, c.tunnels[key].status.localGw, c.tunnels[key])
    ensures var t := c.tunnels[key]; var gw := t.status.localGw; var r := ReconcileTunnel(c, key, env);
            && r.outcome == Failed && r.c.tunnels == c.tunnels
            && (gw !in c.pods || Unharmed(c.pods[gw].ns, t.status, FaultOf(env, 0)) ==> r.c == c)
  {
    hide GenDelGlobalnetRoute, DeleteCmd, ExecBoth, Dropped, Holds, DevicesApart, Unharmed;
    var t := c.tunnels[key];
    assert TunnelOk(c.homes, key, t);
    if t.status.localGw in c.pods {
      TakeDownElsewhereExact(c, key, t.status.localGw, t.spec.typ, env);
    }
  }

  /**
   A deletion completes exactly when the pod that Status names is still running, the delete command fits the
   device and no connection breaks; the pod is empty then, and the object gone unless others have a finalizer on it.
   Once the pod has been replaced, every attempt fails, leaves all objects as they are, and changes nothing at all
   unless the new pod holds another tunnel with the same in-flow route or SNAT rule.
   */
  lemma DeletionFinishes(c: Cluster, key: Key, env: Env)
    requires Shaped(c) && Accurate(c) && key in c.tunnels
    requires c.tunnels[key].deleting && FINALIZER in c.tunnels[key].finalizers
    ensures var t := c.tunnels[key]; var gw := t.status.localGw;
            var r := ReconcileTunnel(c, key, env);
            && (r.outcome == Done <==> Reaches(c, gw, t) && !WrongDelete(t) && Unbroken(env, 0, 2))
            && (r.outcome == Done ==> gw in r.c.pods && r.c.pods[gw].ns == EMPTY
                                      && (key in r.c.tunnels ==> FINALIZER !in r.c.tunnels[key].finalizers)
                                      && (key in r.c.tunnels <==> exists f :: f in t.finalizers && f != FINALIZER))
            && (!Reaches(c, gw, t) ==>
                  && r.outcome == Failed && r.c.tunnels == c.tunnels
                  && (gw !in c.pods || Unharmed(c.pods[gw].ns, t.status, FaultOf(env, 0)) ==> r.c == c))
  {
    hide ReconcileTunnel, Reaches, WrongDelete, Unbroken, Unharmed, Shaped, Accurate;
    DeletionLetsGo(c, key, env);
    if Reaches(c, c.tunnels[key].status.localGw, c.tunnels[key]) {
      DeletionReaches(c, key, env);
    } else {
      DeletionElsewhere(c, key, env);
    }
  }
}
