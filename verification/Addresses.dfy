/**
 One address for a VPC, whether or not its primary has a pod: the GatewayExIp and all tunnels of the VPC carry
 the same one. This does not follow from agreement, and a first build can break it.
 */
module Addresses {
  import opened Api
  import opened Finalizers
  import opened TunnelCommands
  import opened TunnelLifecycle
  import opened Cluster
  import opened Shape
  import opened Agreement

  ghost predicate SameAddress(exips: map<string, GatewayExIp>, id: Word, tunnels: map<Key, VpcNatTunnel>) {
    forall n, k | Local(exips, id, n) && k in tunnels && Labelled(tunnels[k], exips[n].localVpc) ::
      tunnels[k].spec.internalIP == exips[n].externalIP
  }

  ghost predicate Addressed(c: Cluster) {
    Shaped(c) && SameAddress(c.exips, c.id, c.tunnels)
  }

  // ----- the steps that can break it -----

  /** The first build is reached, no connection breaks, and there is room for the tunnel in the pod. */
  predicate FirstBuildGoes(c: Cluster, key: Key, env: Env) {
    key in c.tunnels &&
    var t := c.tunnels[key];
    && !t.deleting && !t.status.initialized && FindsAll(c, t, env) && env.egressIP.value != []
    && FaultOf(env, 0) == Healthy && FaultOf(env, 1) == Healthy
    && Room(c.pods[Primary(c, t)].ns, key.name, FirstStatusIn(c, t, env))
  }

  function Primary(c: Cluster, t: VpcNatTunnel): Word
    requires ExIpName(t.spec.localVpc, c.id) in c.exips
  {
    c.exips[ExIpName(t.spec.localVpc, c.id)].localGateway
  }

  /**
   A first build finds the pod's address in the GatewayExIp, and a created GatewayExIp finds its address in the
   tunnels.
   */
  ghost predicate Punctual(c: Cluster, step: Step)
    requires Enabled(c, step)
  {
    match step
    case HandleEvent(_, _, cidr) =>
      c.queue[0].Added? && Creates(c, c.queue[0].gw, c.queue[0].available, cidr) ==>
        forall k | k in c.tunnels && Labelled(c.tunnels[k], Home(c, c.queue[0].gw)) ::
          c.tunnels[k].spec.internalIP == c.pods[c.queue[0].gw].externalIP
    case Reconcile(key, env) =>
      FirstBuildGoes(c, key, env) ==>
        var n := ExIpName(c.tunnels[key].spec.localVpc, c.id);
        c.exips[n].externalIP == c.pods[c.exips[n].localGateway].externalIP
    case _ => true
  }

  // ----- what a first build does -----

  lemma ExecBothDone(c: Cluster, gw: Word, first: string, second: string, env: Env, i: nat)
    requires gw in c.pods
    ensures ExecBoth(c, gw, first, second, env, i).outcome == Done
       <==> && FaultOf(env, i) == Healthy && FaultOf(env, i + 1) == Healthy
            && RunText(c.pods[gw].ns, first, Healthy).ok
            && RunText(RunText(c.pods[gw].ns, first, Healthy).ns, second, Healthy).ok
  {
  }

  /** The object is recorded exactly when the build goes through, for any content of the pod and any faults. */
  lemma FirstBuildRecords(c: Cluster, key: Key, env: Env)
    requires key in c.tunnels && !c.tunnels[key].deleting && !c.tunnels[key].status.initialized
    ensures var t := c.tunnels[key]; var after := ReconcileTunnel(c, key, env).c.tunnels;
            && key in after
            && after[key] == if FirstBuildGoes(c, key, env)
                             then FirstRecord(WithFinalizer(t), c.exips[RemoteName(t)], FirstStatusIn(c, t, env))
                             else WithFinalizer(t)
  {
    hide FirstBuild, Update, Room;
    var t := c.tunnels[key];
    var t1 := WithFinalizer(t);
    var c1 := if FINALIZER in t.finalizers then c else Put(c, key, t1);
    if RemoteName(t) in c.exips {
      BuildRecords(c1, key, env);
      SameFirstStatus(c, c1, t, t1, env);
    }
  }

  lemma BuildRecords(c: Cluster, key: Key, env: Env)
    requires key in c.tunnels && RemoteName(c.tunnels[key]) in c.exips
    requires !c.tunnels[key].deleting && !c.tunnels[key].status.initialized
    ensures var t := c.tunnels[key]; var after := FirstBuild(c, key, t, c.exips[RemoteName(t)], env).c.tunnels;
            after == if FirstBuildGoes(c, key, env) then
                c.tunnels[key := FirstRecord(t, c.exips[RemoteName(t)], FirstStatusIn(c, t, env))]
                     else c.tunnels
  {
    hide ExecBoth, CreateCmd, GenGlobalnetRoute, Room, RunText, FirstRecord;
    var t := c.tunnels[key];
    if FindsAll(c, t, env) {
      var gw, st := Primary(c, t), FirstStatusIn(c, t, env);
      if st.globalEgressIP != [] {
        ExecBothDone(c, gw, CreateCmd(key.name, t.spec.typ, st, t.labels), GenGlobalnetRoute(key.name, st), env, 0);
        BuildExact(c.pods[gw].ns, key.name, t.spec.typ, st, t.labels);
      }
    }
  }

  // ----- steps -----

  /** One object changes and says the same address, or none of its VPC does. */
  lemma PutSameAddress(c: Cluster, key: Key, t: VpcNatTunnel)
    requires SameAddress(c.exips, c.id, c.tunnels)
    requires forall n | Local(c.exips, c.id, n) && Labelled(t, c.exips[n].localVpc) ::
               t.spec.internalIP == c.exips[n].externalIP
    ensures SameAddress(c.exips, c.id, c.tunnels[key := t])
  {
  }

  lemma SayingTheSameAddress(c: Cluster, key: Key, t: VpcNatTunnel)
    requires SameAddress(c.exips, c.id, c.tunnels) && key in c.tunnels && SaysTheSame(c.tunnels[key], t)
    ensures SameAddress(c.exips, c.id, c.tunnels[key := t])
  {
    LabelledTheSame(c.tunnels[key], t);
    PutSameAddress(c, key, t);
  }

  /** A first build records the pod's address beside the one in the GatewayExIp. */
  lemma FirstRecordAddress(c: Cluster, key: Key, t': VpcNatTunnel)
    requires Shaped(c) && SameAddress(c.exips, c.id, c.tunnels) && key in c.tunnels
    requires Labelled(t', t'.spec.localVpc) && DotFree(t'.spec.localVpc) && ExIpName(t'.spec.localVpc, c.id) in c.exips
    ensures SameAddress(c.exips, c.id, c.tunnels[key := t'])
       <==> t'.spec.internalIP == c.exips[ExIpName(t'.spec.localVpc, c.id)].externalIP
  {
    hide TunnelsOk, DevicesApart, HomesOk, PrimariesOk;
    var n := ExIpName(t'.spec.localVpc, c.id);
    LocalLookup(c.exips, c.id, t'.spec.localVpc);
    if t'.spec.internalIP == c.exips[n].externalIP {
      forall m | Local(c.exips, c.id, m) && Labelled(t', c.exips[m].localVpc)
        ensures m == n
      {
      }
      PutSameAddress(c, key, t');
    } else {
      var tunnels := c.tunnels[key := t'];
      assert key in tunnels && Labelled(tunnels[key], c.exips[n].localVpc);
    }
  }

  lemma RemoveSameAddress(exips: map<string, GatewayExIp>, id: Word, tunnels: map<Key, VpcNatTunnel>, key: Key)
    requires SameAddress(exips, id, tunnels)
    ensures SameAddress(exips, id, tunnels - {key})
  {
  }

  lemma ReconcileAddressExact(c: Cluster, key: Key, env: Env)
    requires Addressed(c) && Enabled(c, Reconcile(key, env))
    ensures Addressed(ReconcileTunnel(c, key, env).c) <==> Punctual(c, Reconcile(key, env))
  {
    hide ReconcileTunnel, Writes, Shaped, SameAddress, SaysTheSame, TunnelOk, FindsAll, SameAddresses;
    ReconcileKeepsShape(c, key, env);
    ReconcileWrites(c, key, env);
    var c' := ReconcileTunnel(c, key, env).c;
    if key in c.tunnels && !c.tunnels[key].deleting && !c.tunnels[key].status.initialized {
      FirstReconcileAddress(c, key, env);
    } else if c'.tunnels != c.tunnels {
      if key in c'.tunnels {
        WriteSays(c, key, env, c'.tunnels[key]);
        SaysWhenBuilt(c, key, env, c'.tunnels[key]);
        SayingTheSameAddress(c, key, c'.tunnels[key]);
      } else {
        RemoveSameAddress(c.exips, c.id, c.tunnels, key);
      }
    }
  }

  lemma SaysWhenBuilt(c: Cluster, key: Key, env: Env, t': VpcNatTunnel)
    requires Shaped(c) && key in c.tunnels && Writes(c, c.tunnels[key], env, t')
    requires c.tunnels[key].deleting || c.tunnels[key].status.initialized
    ensures SaysTheSame(c.tunnels[key], t')
  {
    hide Dropped;
    assert TunnelOk(c.homes, key, c.tunnels[key]);
  }

  lemma FirstReconcileAddress(c: Cluster, key: Key, env: Env)
    requires Addressed(c) && key in c.tunnels && !c.tunnels[key].deleting && !c.tunnels[key].status.initialized
    ensures SameAddress(c.exips, c.id, ReconcileTunnel(c, key, env).c.tunnels)
       <==> (FirstBuildGoes(c, key, env) ==>
               var n := ExIpName(c.tunnels[key].spec.localVpc, c.id);
               c.exips[n].externalIP == c.pods[c.exips[n].localGateway].externalIP)
  {
    hide ReconcileTunnel, Writes, SameAddress, SameAddresses, Room;
    var t := c.tunnels[key];
    ReconcileWrites(c, key, env);
    FirstBuildRecords(c, key, env);
    var after := ReconcileTunnel(c, key, env).c.tunnels;
    assert TunnelOk(c.homes, key, t);
    assert after == c.tunnels[key := after[key]];
    if FirstBuildGoes(c, key, env) {
      FirstRecordAddress(c, key, after[key]);
    } else {
      SayingTheSameAddress(c, key, after[key]);
    }
  }

  lemma RetargetSameAddress(exips: map<string, GatewayExIp>, id: Word, tunnels: map<Key, VpcNatTunnel>, n: string,
                            gw: Word, target: Option<Word>, ip: Word)
    requires SameAddress(exips, id, tunnels) && n in exips
    requires forall m | Local(exips, id, m) && m != n :: exips[m].localVpc != exips[n].localVpc
    ensures SameAddress(exips[n := exips[n].(externalIP := ip, localGateway := gw)], id,
                        Retarget(tunnels, exips[n].localVpc, target, ip))
  {
    var exips' := exips[n := exips[n].(externalIP := ip, localGateway := gw)];
    assert forall m | Local(exips', id, m) :: Local(exips, id, m);
  }

  lemma FailoverSameAddress(c: Cluster, gw: Word, exip: Option<string>, next: Option<Word>)
    requires Addressed(c) && Picks(ExIpsNaming(c, gw), exip)
    ensures Picks(Available(c, gw) - {gw}, next) ==>
              var c' := HandleWentDown(c, gw, exip, next); SameAddress(c'.exips, c'.id, c'.tunnels)
    ensures Picks(Available(c, gw), next) ==>
              var c' := HandleDeleted(c, gw, exip, next); SameAddress(c'.exips, c'.id, c'.tunnels)
    ensures var c' := HandleCameUp(c, gw, exip); SameAddress(c'.exips, c'.id, c'.tunnels)
  {
    hide TunnelsOk, DevicesApart, SameAddress, Retarget;
    if exip.Some? {
      var n := exip.value;
      AllOtherLocals(c, gw, n);
      RemoveExIpSameAddress(c.exips, c.id, c.tunnels, n);
      if gw in c.pods {
        RetargetSameAddress(c.exips, c.id, c.tunnels, n, gw, None, c.pods[gw].externalIP);
        assert c.exips[n].(externalIP := c.pods[gw].externalIP, localGateway := gw)
               == c.exips[n].(externalIP := c.pods[gw].externalIP);
      }
      if next.Some? && next.value in Available(c, gw) {
        RetargetSameAddress(c.exips, c.id, c.tunnels, n, next.value, next, c.pods[next.value].externalIP);
      }
    }
  }

  lemma RemoveExIpSameAddress(exips: map<string, GatewayExIp>, id: Word, tunnels: map<Key, VpcNatTunnel>, n: string)
    requires SameAddress(exips, id, tunnels)
    ensures SameAddress(exips - {n}, id, tunnels)
  {
    assert forall m | Local(exips - {n}, id, m) :: Local(exips, id, m);
  }

  lemma CreatedSameAddress(c: Cluster, name: string, e: GatewayExIp)
    requires SameAddress(c.exips, c.id, c.tunnels) && name !in c.exips && e.localCluster == c.id
    ensures SameAddress(c.exips[name := e], c.id, c.tunnels)
       <==> forall k | k in c.tunnels && Labelled(c.tunnels[k], e.localVpc) ::
           c.tunnels[k].spec.internalIP == e.externalIP
  {
    var exips := c.exips[name := e];
    assert Local(exips, c.id, name) && exips[name] == e;
    assert forall m | m != name :: Local(exips, c.id, m) <==> Local(c.exips, c.id, m);
  }

  lemma EventAddressExact(c: Cluster, step: Step)
    requires Addressed(c) && step.HandleEvent? && Enabled(c, step)
    ensures Addressed(Next(c, step)) <==> Punctual(c, step)
  {
    hide SameAddress, HandleWentDown, HandleCameUp, HandleDeleted, TunnelsOk, DevicesApart;
    var rest := c.(queue := c.queue[1..]);
    var gw := c.queue[0].gw;
    EventKeepsShape(c, step);
    ShapeIgnoresQueue(c, c.queue[1..]);
    PopKeepsPicks(c, gw);
    match c.queue[0]
    case Added(_, available) =>
      AddedIgnoresQueue(c, rest.queue, gw, available, step.cidr);
      CreatesMeans(c, gw, available, step.cidr);
      if Creates(c, gw, available, step.cidr) {
        var name := ExIpName(Home(c, gw), c.id);
        CreatedSameAddress(c, name, HandleAdded(c, gw, available, step.cidr).exips[name]);
      }
    case WentDown(_) => FailoverSameAddress(rest, gw, step.exip, step.next);
    case CameUp(_) => FailoverSameAddress(rest, gw, step.exip, None);
    case Deleted(_) => FailoverSameAddress(rest, gw, step.exip, step.next);
  }

  lemma RemoteSameAddress(c: Cluster, c': Cluster)
    requires SameAddress(c.exips, c.id, c.tunnels) && RemoteChange(c, c')
    ensures SameAddress(c'.exips, c'.id, c'.tunnels)
  {
    hide NamesOk;
    assert forall k | k in c.tunnels :: SameButRemoteIP(c.tunnels[k], c'.tunnels[k]);
    assert forall n | Local(c'.exips, c.id, n) :: Local(c.exips, c.id, n);
  }

  lemma UserSameAddress(c: Cluster, step: Step)
    requires Addressed(c) && Enabled(c, step) && (step.UserCreates? || step.UserEdits? || step.UserDeletes?)
    ensures SameAddress(Next(c, step).exips, c.id, Next(c, step).tunnels)
  {
    hide Shaped, SameAddress;
    assert "localVpc" in OPERATOR_LABELS;
    match step
    case UserCreates(key, t) => PutSameAddress(c, key, t);
    case UserEdits(key, t) => SayingTheSameAddress(c, key, t);
    case UserDeletes(key) =>
      RemoveSameAddress(c.exips, c.id, c.tunnels, key);
      SayingTheSameAddress(c, key, c.tunnels[key].(deleting := true));
  }

  /**
   Every step keeps the one address of a VPC if and only if it is punctual: a first build that goes through
   finds the pod's address in the GatewayExIp, a created GatewayExIp finds its address in the tunnels.
   */
  lemma StepAddressExact(c: Cluster, step: Step)
    requires Addressed(c) && Enabled(c, step)
    ensures Addressed(Next(c, step)) <==> Punctual(c, step)
  {
    hide ReconcileTunnel, Propagate, Shaped, RemoteChange, FirstBuildGoes, SameAddress;
    StepKeepsShape(c, step);
    match step
    case HandleEvent(_, _, _) => EventAddressExact(c, step);
    case RemoteSet(_, _) => RemoteStepKeepsShape(c, step); RemoteSameAddress(c, Next(c, step));
    case RemoteGone(_) => RemoteStepKeepsShape(c, step); RemoteSameAddress(c, Next(c, step));
    case UserCreates(_, _) => UserSameAddress(c, step);
    case UserEdits(_, _) => UserSameAddress(c, step);
    case UserDeletes(_) => UserSameAddress(c, step);
    case Reconcile(key, env) => ReconcileAddressExact(c, key, env);
    case _ =>
  }
}
