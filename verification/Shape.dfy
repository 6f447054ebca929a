/**
 The shape of what is stored: names, primaries and tunnel objects. Every step keeps it, whatever fails,
 whatever comes back and whatever is handled late.
 */
module Shape {
  import opened GoStrings
  import opened Api
  import opened Finalizers
  import opened Netns
  import opened TunnelCommands
  import opened TunnelLifecycle
  import opened Cluster

  // ----- names of GatewayExIps -----

  /** SplitN recovers VPC and cluster from the name exactly when the VPC has no dot. */
  lemma NameRoundTrip(vpc: string, cluster: string)
    ensures SplitN2(ExIpName(vpc, cluster), '.') == [vpc, cluster] <==> DotFree(vpc)
  {
    SplitN2First(vpc, cluster, '.');
    assert vpc + "." + cluster == vpc + ['.'] + cluster;
  }

  lemma NameInjective(v1: string, c1: string, v2: string, c2: string)
    requires DotFree(v1) && DotFree(v2) && ExIpName(v1, c1) == ExIpName(v2, c2)
    ensures v1 == v2 && c1 == c2
  {
    NameRoundTrip(v1, c1);
    NameRoundTrip(v2, c2);
    assert [v1, c1][0] == [v2, c2][0] && [v1, c1][1] == [v2, c2][1];
  }

  // ----- the invariant -----

  ghost predicate HomesOk(homes: map<Word, Word>, gateways: map<Word, Gateway>, pods: map<Word, Pod>) {
    && (forall g | g in homes :: DotFree(homes[g]))
    && "" !in homes
    && (forall g | g in gateways :: g in homes)
    && (forall g | g in pods :: g in gateways)
  }

  predicate Local(exips: map<string, GatewayExIp>, id: Word, n: string) {
    n in exips && exips[n].localCluster == id
  }

  ghost predicate NamesOk(exips: map<string, GatewayExIp>) {
    forall n | n in exips :: n == ExIpName(exips[n].localVpc, exips[n].localCluster) && DotFree(exips[n].localVpc)
  }

  /** The primary gateway of a VPC belongs to the VPC. */
  ghost predicate PrimariesOk(exips: map<string, GatewayExIp>, id: Word, homes: map<Word, Word>,
                              vpcs: map<Word, seq<Word>>) {
    forall n | Local(exips, id, n) ::
      && exips[n].localGateway in homes && homes[exips[n].localGateway] == exips[n].localVpc
      && exips[n].localVpc in vpcs
  }

  ghost predicate TunnelOk(homes: map<Word, Word>, k: Key, t: VpcNatTunnel) {
    && !OwnInterface(k.name) && DotFree(t.spec.localVpc) && DotFree(t.spec.remoteVpc)
    && ("localVpc" in t.labels <==> t.status.initialized)
    && (!t.status.initialized ==> t.status == EMPTY_STATUS)
    && (t.status.initialized ==>
          && t.labels["localVpc"] == t.spec.localVpc
          && "remoteVpc" in t.labels && t.labels["remoteVpc"] == t.spec.remoteVpc
          && "remoteCluster" in t.labels && t.labels["remoteCluster"] == t.spec.remoteCluster
          && t.status.localGw in homes && homes[t.status.localGw] == t.spec.localVpc
          && t.spec.localGw in homes && homes[t.spec.localGw] == t.spec.localVpc
          && t.status.globalEgressIP != []
          && (FINALIZER in t.finalizers || t.deleting))
  }

  ghost predicate TunnelsOk(homes: map<Word, Word>, tunnels: map<Key, VpcNatTunnel>) {
    forall k | k in tunnels :: TunnelOk(homes, k, tunnels[k])
  }

  /** The tunnels of a VPC have different device names. */
  ghost predicate DevicesApart(tunnels: map<Key, VpcNatTunnel>) {
    forall k, k' | k in tunnels && k' in tunnels && k.name == k'.name
      && tunnels[k].spec.localVpc == tunnels[k'].spec.localVpc :: k == k'
  }

  /** Names and primaries. */
  ghost predicate Rooted(c: Cluster) {
    && HomesOk(c.homes, c.gateways, c.pods)
    && NamesOk(c.exips)
    && PrimariesOk(c.exips, c.id, c.homes, c.vpcs)
  }

  ghost predicate Shaped(c: Cluster) {
    Rooted(c) && TunnelsOk(c.homes, c.tunnels) && DevicesApart(c.tunnels)
  }

  lemma TunnelIsOk(c: Cluster, key: Key)
    requires Shaped(c) && key in c.tunnels
    ensures TunnelOk(c.homes, key, c.tunnels[key])
  {
    hide TunnelOk;
  }

  lemma ShapeIgnoresQueue(c: Cluster, queue: seq<Event>)
    requires Shaped(c)
    ensures Shaped(c.(queue := queue))
  {
    hide TunnelsOk, DevicesApart;
  }

  /** Looking up a VPC of this cluster finds this cluster's GatewayExIp of that VPC. */
  lemma LocalLookup(exips: map<string, GatewayExIp>, id: Word, vpc: Word)
    requires NamesOk(exips) && DotFree(vpc) && ExIpName(vpc, id) in exips
    ensures var n := ExIpName(vpc, id); Local(exips, id, n) && exips[n].localVpc == vpc
  {
    var n := ExIpName(vpc, id);
    NameInjective(vpc, id, exips[n].localVpc, exips[n].localCluster);
  }

  /** A gateway is primary of at most one VPC, its own. */
  lemma PrimaryIsUnique(c: Cluster, gw: Word, n: string)
    requires Rooted(c) && n in ExIpsNaming(c, gw)
    ensures gw in c.homes && n == ExIpName(Home(c, gw), c.id)
    ensures Local(c.exips, c.id, n) && c.exips[n].localVpc == Home(c, gw)
    ensures c.exips[n].localVpc in c.vpcs
    ensures ExIpsNaming(c, gw) == {n}
  {
    forall m | m in ExIpsNaming(c, gw)
      ensures m == ExIpName(Home(c, gw), c.id) && c.exips[m].localVpc == Home(c, gw)
    {
      assert Local(c.exips, c.id, m);
    }
  }

  // ----- what a reconcile writes -----

  /** The same pods with the same addresses; what is in them may differ. */
  ghost predicate SameAddresses(pods: map<Word, Pod>, pods': map<Word, Pod>) {
    pods'.Keys == pods.Keys && forall g | g in pods :: pods'[g] == pods[g].(ns := pods'[g].ns)
  }

  /** All that a first build looks up is there. */
  predicate FindsAll(c: Cluster, t: VpcNatTunnel, env: Env) {
    var n := ExIpName(t.spec.localVpc, c.id);
    && RemoteName(t) in c.exips && n in c.exips && c.exips[n].localGateway in c.pods
    && env.globalnetCIDR.Some? && env.egressIP.Some?
  }

  /** The status that a first build would record. */
  function FirstStatusIn(c: Cluster, t: VpcNatTunnel, env: Env): TunnelStatus
    requires FindsAll(c, t, env)
  {
    var gw := c.exips[ExIpName(t.spec.localVpc, c.id)].localGateway;
    FirstStatus(t, c.exips[RemoteName(t)], gw, c.pods[gw], env.globalnetCIDR.value, env.egressIP.value)
  }

  /** The only objects that a reconcile can store in place of `t`. */
  ghost predicate Writes(c: Cluster, t: VpcNatTunnel, env: Env, t': VpcNatTunnel) {
    || (t.deleting && t' == t.(finalizers := Dropped(t.finalizers, FINALIZER)))
    || (!t.deleting && t' == WithFinalizer(t))
    || (!t.deleting && !t.status.initialized && FindsAll(c, t, env) && env.egressIP.value != []
        && t' == FirstRecord(WithFinalizer(t), c.exips[RemoteName(t)], FirstStatusIn(c, t, env)))
    || (!t.deleting && t.status.initialized && t' == WithFinalizer(t).(spec := t.spec.(typ := t.status.typ)))
    || (!t.deleting && t.status.initialized && RemoteName(t) in c.exips && t.spec.localGw in c.pods
        && t.status.typ == t.spec.typ
        && t' == Updated(WithFinalizer(t), c.exips[RemoteName(t)]))
  }

  /** Addresses stay, and of the objects at most this one is changed, or removed when it is deleted. */
  ghost predicate WritesOne(c: Cluster, key: Key, env: Env, c': Cluster) {
    && c' == c.(pods := c'.pods, tunnels := c'.tunnels) && SameAddresses(c.pods, c'.pods)
    && (|| c'.tunnels == c.tunnels
        || (key in c.tunnels && c.tunnels[key].deleting && c'.tunnels == c.tunnels - {key})
        || (key in c.tunnels && key in c'.tunnels && c'.tunnels == c.tunnels[key := c'.tunnels[key]]
            && Writes(c, c.tunnels[key], env, c'.tunnels[key])))
  }

  lemma ExecKeepsAddresses(c: Cluster, gw: Word, first: string, second: string, env: Env, i: nat)
    requires gw in c.pods
    ensures var c' := ExecIn(c, gw, first, FaultOf(env, i)).c;
            c' == c.(pods := c'.pods) && SameAddresses(c.pods, c'.pods)
    ensures var c' := ExecBoth(c, gw, first, second, env, i).c;
            c' == c.(pods := c'.pods) && SameAddresses(c.pods, c'.pods)
  {
    hide RunText;
  }

  lemma DeleteWrites(c: Cluster, key: Key, env: Env)
    requires key in c.tunnels && c.tunnels[key].deleting
    ensures WritesOne(c, key, env, HandleDelete(c, key, env).c)
  {
    hide ExecBoth, ExecIn, GenDelGlobalnetRoute, DeleteCmd, Dropped;
    var t := c.tunnels[key];
    var gw := t.status.localGw;
    if gw in c.pods && t.status.globalEgressIP != [] {
      ExecKeepsAddresses(c, gw, GenDelGlobalnetRoute(key.name, t.status), DeleteCmd(key.name, t.spec.typ), env, 0);
    }
  }

  lemma FirstBuildWrites(c: Cluster, key: Key, t: VpcNatTunnel, env: Env)
    requires RemoteName(t) in c.exips
    ensures var c' := FirstBuild(c, key, t, c.exips[RemoteName(t)], env).c;
            && c' == c.(pods := c'.pods, tunnels := c'.tunnels) && SameAddresses(c.pods, c'.pods)
            && (|| c'.tunnels == c.tunnels
                || (FindsAll(c, t, env) && env.egressIP.value != []
                    && c'.tunnels
                       == c.tunnels[key := FirstRecord(t, c.exips[RemoteName(t)], FirstStatusIn(c, t, env))]))
  {
    hide ExecBoth, ExecIn, GenGlobalnetRoute, CreateCmd, SameAddresses, WithLabels;
    AddressesAreTheSame(c.pods);
    if FindsAll(c, t, env) {
      var gw, st := c.exips[ExIpName(t.spec.localVpc, c.id)].localGateway, FirstStatusIn(c, t, env);
      var create := CreateCmd(key.name, t.spec.typ, st, t.labels);
      if st.globalEgressIP == [] {
        ExecKeepsAddresses(c, gw, create, "", env, 0);
      } else {
        ExecKeepsAddresses(c, gw, create, GenGlobalnetRoute(key.name, st), env, 0);
      }
    }
  }

  lemma AddressesAreTheSame(pods: map<Word, Pod>)
    ensures SameAddresses(pods, pods)
  {
  }

  lemma AddressesStayTheSame(a: map<Word, Pod>, b: map<Word, Pod>, c: map<Word, Pod>)
    requires SameAddresses(a, b) && SameAddresses(b, c)
    ensures SameAddresses(a, c)
  {
  }

  lemma ClearWrites(c: Cluster, key: Key, t: VpcNatTunnel, env: Env)
    requires t.spec.localGw in c.pods
    ensures var c' := Clear(c, key, t, env).c; c' == c.(pods := c'.pods) && SameAddresses(c.pods, c'.pods)
  {
    hide ExecBoth, ExecIn, GenDelGlobalnetRoute, DeleteCmd, SameAddresses;
    AddressesAreTheSame(c.pods);
    if t.status.globalEgressIP != [] {
      ExecKeepsAddresses(c, t.spec.localGw, GenDelGlobalnetRoute(key.name, t.status), DeleteCmd(key.name, t.spec.typ),
                         env, 0);
    }
  }

  lemma RebuildWrites(c: Cluster, key: Key, t: VpcNatTunnel, remote: GatewayExIp, env: Env)
    requires t.spec.localGw in c.pods
    ensures var c' := Rebuild(c, key, t, remote, env).c;
            && c' == c.(pods := c'.pods, tunnels := c'.tunnels) && SameAddresses(c.pods, c'.pods)
            && (c'.tunnels == c.tunnels || c'.tunnels == c.tunnels[key := Updated(t, remote)])
  {
    hide ExecBoth, ExecIn, GenGlobalnetRoute, CreateCmd, SameAddresses, Updated;
    var st := NextStatus(t, remote);
    var create := CreateCmd(key.name, t.spec.typ, st, t.labels);
    if st.globalEgressIP == [] {
      ExecKeepsAddresses(c, t.spec.localGw, create, "", env, 2);
    } else {
      ExecKeepsAddresses(c, t.spec.localGw, create, GenGlobalnetRoute(key.name, st), env, 2);
    }
  }

  lemma UpdateWrites(c: Cluster, key: Key, t: VpcNatTunnel, remote: GatewayExIp, env: Env)
    ensures var c' := Update(c, key, t, remote, env).c;
            && c' == c.(pods := c'.pods, tunnels := c'.tunnels) && SameAddresses(c.pods, c'.pods)
            && (|| c'.tunnels == c.tunnels
                || c'.tunnels == c.tunnels[key := t.(spec := t.spec.(typ := t.status.typ))]
                || (t.spec.localGw in c.pods && t.status.typ == t.spec.typ
                    && c'.tunnels == c.tunnels[key := Updated(t, remote)]))
  {
    hide Clear, Rebuild, SameAddresses, Updated;
    AddressesAreTheSame(c.pods);
    if t.spec.localGw in c.pods {
      ClearWrites(c, key, t, env);
      var cleared := Clear(c, key, t, env).c;
      assert t.spec.localGw in cleared.pods by {
        AddressesKeepPods(c.pods, cleared.pods);
      }
      RebuildWrites(cleared, key, t, remote, env);
      AddressesStayTheSame(c.pods, cleared.pods, Rebuild(cleared, key, t, remote, env).c.pods);
    }
  }

  lemma AddressesKeepPods(pods: map<Word, Pod>, pods': map<Word, Pod>)
    requires SameAddresses(pods, pods')
    ensures pods'.Keys == pods.Keys
  {
  }

  lemma CreateOrUpdateWrites(c: Cluster, key: Key, env: Env)
    requires key in c.tunnels && !c.tunnels[key].deleting
    ensures WritesOne(c, key, env, HandleCreateOrUpdate(c, key, env).c)
  {
    hide FirstBuild, Update, SameAddresses, Updated, FirstRecord, FirstStatus;
    AddressesAreTheSame(c.pods);
    var t := c.tunnels[key];
    var t1 := WithFinalizer(t);
    var c1 := if FINALIZER in t.finalizers then c else Put(c, key, t1);
    assert c1.tunnels == c.tunnels[key := t1];
    assert RemoteName(t1) == RemoteName(t);
    if RemoteName(t) in c.exips {
      if t.status.initialized {
        UpdateWrites(c1, key, t1, c.exips[RemoteName(t)], env);
      } else {
        FirstBuildWrites(c1, key, t1, env);
        SameFirstStatus(c, c1, t, t1, env);
      }
    }
  }

  lemma SameFirstStatus(c: Cluster, c1: Cluster, t: VpcNatTunnel, t1: VpcNatTunnel, env: Env)
    requires c1 == c.(tunnels := c1.tunnels) && t1 == t.(finalizers := t1.finalizers)
    ensures FindsAll(c1, t1, env) <==> FindsAll(c, t, env)
    ensures FindsAll(c, t, env) ==> FirstStatusIn(c1, t1, env) == FirstStatusIn(c, t, env)
  {
  }

  /** All that a reconcile can store, whatever fails in it. */
  lemma ReconcileWrites(c: Cluster, key: Key, env: Env)
    ensures WritesOne(c, key, env, ReconcileTunnel(c, key, env).c)
  {
    hide HandleDelete, HandleCreateOrUpdate;
    AddressesAreTheSame(c.pods);
    if key in c.tunnels {
      if c.tunnels[key].deleting {
        DeleteWrites(c, key, env);
      } else {
        CreateOrUpdateWrites(c, key, env);
      }
    }
  }

  // ----- every step keeps the shape -----

  lemma WriteKeepsShape(c: Cluster, key: Key, env: Env, t': VpcNatTunnel)
    requires Shaped(c) && key in c.tunnels && Writes(c, c.tunnels[key], env, t')
    ensures TunnelOk(c.homes, key, t') && t'.spec.localVpc == c.tunnels[key].spec.localVpc
  {
    hide Dropped;
    var t := c.tunnels[key];
    assert TunnelOk(c.homes, key, t);
    if !t.status.initialized && FindsAll(c, t, env) {
      LocalLookup(c.exips, c.id, t.spec.localVpc);
    }
  }

  lemma PutKeepsTunnels(homes: map<Word, Word>, tunnels: map<Key, VpcNatTunnel>, key: Key, t: VpcNatTunnel)
    requires TunnelsOk(homes, tunnels) && DevicesApart(tunnels) && TunnelOk(homes, key, t)
    requires forall k | k in tunnels && k != key && k.name == key.name :: tunnels[k].spec.localVpc != t.spec.localVpc
    ensures TunnelsOk(homes, tunnels[key := t]) && DevicesApart(tunnels[key := t])
  {
    hide TunnelOk;
  }

  lemma PutKeepsShape(c: Cluster, key: Key, t: VpcNatTunnel)
    requires Shaped(c) && TunnelOk(c.homes, key, t)
    requires forall k | k in c.tunnels && k != key && k.name == key.name ::
               c.tunnels[k].spec.localVpc != t.spec.localVpc
    ensures Shaped(Put(c, key, t))
  {
    hide TunnelsOk, TunnelOk, DevicesApart, HomesOk, NamesOk, PrimariesOk;
    PutKeepsTunnels(c.homes, c.tunnels, key, t);
  }

  lemma RemoveKeepsShape(c: Cluster, key: Key)
    requires Shaped(c)
    ensures Shaped(c.(tunnels := c.tunnels - {key}))
  {
    hide TunnelOk;
  }

  /** Pods' contents do not matter. */
  lemma AddressesKeepShape(c: Cluster, c': Cluster)
    requires Shaped(c) && c' == c.(pods := c'.pods) && SameAddresses(c.pods, c'.pods)
    ensures Shaped(c')
  {
    hide TunnelsOk, DevicesApart;
  }

  lemma ReconcileKeepsShape(c: Cluster, key: Key, env: Env)
    requires Shaped(c)
    ensures Shaped(ReconcileTunnel(c, key, env).c)
  {
    hide ReconcileTunnel, Writes, Shaped, SameAddresses;
    ReconcileWrites(c, key, env);
    var c' := ReconcileTunnel(c, key, env).c;
    var stored := c.(tunnels := c'.tunnels);
    if c'.tunnels != c.tunnels {
      if key in c'.tunnels {
        WriteKeepsShape(c, key, env, c'.tunnels[key]);
        DevicesStayApart(c, key);
        PutKeepsShape(c, key, c'.tunnels[key]);
      } else {
        RemoveKeepsShape(c, key);
      }
    }
    AddressesKeepShape(stored, c');
  }

  lemma DevicesStayApart(c: Cluster, key: Key)
    requires Shaped(c) && key in c.tunnels
    ensures forall k | k in c.tunnels && k != key && k.name == key.name ::
              c.tunnels[k].spec.localVpc != c.tunnels[key].spec.localVpc
  {
  }

  /** Pods and gateways change. */
  lemma EnvironmentKeepsShape(c: Cluster, c': Cluster)
    requires Shaped(c)
    requires c' == c.(pods := c'.pods, gateways := c'.gateways, queue := c'.queue)
    requires (forall g | g in c'.gateways :: g in c'.homes) && (forall g | g in c'.pods :: g in c'.gateways)
    ensures Shaped(c')
  {
    hide TunnelsOk, DevicesApart;
  }

  /** The two tunnels differ in nothing but Spec.RemoteIP. */
  predicate SameButRemoteIP(a: VpcNatTunnel, b: VpcNatTunnel) {
    b == a.(spec := a.spec.(remoteIP := b.spec.remoteIP))
  }

  lemma PropagateKeepsRest(tunnels: map<Key, VpcNatTunnel>, name: string, ip: Word)
    requires '.' in name
    ensures var after := Propagate(tunnels, name, ip);
            after.Keys == tunnels.Keys && forall k | k in tunnels :: SameButRemoteIP(tunnels[k], after[k])
  {
  }

  lemma RemoteKeepsTunnels(homes: map<Word, Word>, tunnels: map<Key, VpcNatTunnel>, tunnels': map<Key, VpcNatTunnel>)
    requires TunnelsOk(homes, tunnels) && DevicesApart(tunnels) && tunnels'.Keys == tunnels.Keys
    requires forall k | k in tunnels :: SameButRemoteIP(tunnels[k], tunnels'[k])
    ensures TunnelsOk(homes, tunnels') && DevicesApart(tunnels')
  {
    forall k | k in tunnels'
      ensures TunnelOk(homes, k, tunnels'[k]) && tunnels'[k].spec.localVpc == tunnels[k].spec.localVpc
    {
      assert TunnelOk(homes, k, tunnels[k]) && SameButRemoteIP(tunnels[k], tunnels'[k]);
    }
  }

  /** GatewayExIps of other clusters come, change and go. */
  ghost predicate RemoteChange(c: Cluster, c': Cluster) {
    && NamesOk(c'.exips) && c' == c.(exips := c'.exips, tunnels := c'.tunnels)
    && (forall n | Local(c.exips, c.id, n) || Local(c'.exips, c.id, n) ::
        n in c.exips && n in c'.exips && c'.exips[n] == c.exips[n])
    && c'.tunnels.Keys == c.tunnels.Keys
    && forall k | k in c.tunnels :: SameButRemoteIP(c.tunnels[k], c'.tunnels[k])
  }

  lemma RemoteSetIsRemote(c: Cluster, name: string, e: GatewayExIp)
    requires Rooted(c) && Enabled(c, RemoteSet(name, e)) && '.' in name
    ensures RemoteChange(c, c.(exips := c.exips[name := e], tunnels := Propagate(c.tunnels, name, e.externalIP)))
  {
    hide Propagate;
    PropagateKeepsRest(c.tunnels, name, e.externalIP);
    if Local(c.exips, c.id, name) {
      NameInjective(c.exips[name].localVpc, c.id, e.localVpc, e.localCluster);
    }
  }

  lemma RemoteGoneIsRemote(c: Cluster, name: string)
    requires Rooted(c) && Enabled(c, RemoteGone(name))
    ensures RemoteChange(c,
                         c.(exips := c.exips - {name}, tunnels := Propagate(c.tunnels, name, c.exips[name].externalIP)))
  {
    hide Propagate;
    PropagateKeepsRest(c.tunnels, name, c.exips[name].externalIP);
  }

  lemma RemoteKeepsShape(c: Cluster, c': Cluster)
    requires Shaped(c) && RemoteChange(c, c')
    ensures Shaped(c')
  {
    hide TunnelsOk, DevicesApart;
    RemoteKeepsTunnels(c.homes, c.tunnels, c'.tunnels);
  }

  // ----- the informer's handlers -----

  lemma PopKeepsPicks(c: Cluster, gw: Word)
    requires c.queue != []
    ensures var rest := c.(queue := c.queue[1..]);
            ExIpsNaming(rest, gw) == ExIpsNaming(c, gw) && Available(rest, gw) == Available(c, gw)
  {
    var rest := c.(queue := c.queue[1..]);
    assert forall h :: Home(rest, h) == Home(c, h);
  }

  lemma NewExIpKeepsShape(c: Cluster, name: string, e: GatewayExIp)
    requires Shaped(c) && name !in c.exips && name == ExIpName(e.localVpc, c.id)
    requires e.localCluster == c.id && DotFree(e.localVpc)
    requires e.localGateway in c.homes && c.homes[e.localGateway] == e.localVpc && e.localVpc in c.vpcs
    ensures Shaped(c.(exips := c.exips[name := e]))
    ensures forall n | Local(c.exips[name := e], c.id, n) && n != name :: Local(c.exips, c.id, n)
  {
    hide TunnelsOk, DevicesApart, HomesOk;
  }

  lemma AddedKeepsShape(c: Cluster, gw: Word, available: bool, cidr: Option<Word>)
    requires Shaped(c)
    ensures Shaped(HandleAdded(c, gw, available, cidr))
  {
    var c' := HandleAdded(c, gw, available, cidr);
    if c' != c {
      var name := ExIpName(Home(c, gw), c.id);
      assert gw in c.homes && DotFree(c.homes[gw]);
      NewExIpKeepsShape(c, name, c'.exips[name]);
    }
  }

  /** Pointing a VPC's tunnels at one of its gateways keeps their shape. */
  lemma RetargetKeepsTunnels(homes: map<Word, Word>, tunnels: map<Key, VpcNatTunnel>, vpc: Word, gw: Option<Word>,
                             ip: Word)
    requires TunnelsOk(homes, tunnels) && DevicesApart(tunnels)
    requires gw.Some? ==> gw.value in homes && homes[gw.value] == vpc
    ensures TunnelsOk(homes, Retarget(tunnels, vpc, gw, ip)) && DevicesApart(Retarget(tunnels, vpc, gw, ip))
  {
    forall k | k in tunnels
      ensures TunnelOk(homes, k, Retarget(tunnels, vpc, gw, ip)[k])
    {
      assert TunnelOk(homes, k, tunnels[k]);
    }
  }

  lemma PromoteKeepsShape(c: Cluster, gw: Word, n: string, next: Word)
    requires Shaped(c)
    requires n in ExIpsNaming(c, gw) && next in Available(c, gw) && c.exips[n].localVpc in c.vpcs
    ensures Shaped(Promote(c, n, next))
  {
    hide TunnelsOk, DevicesApart;
    PrimaryIsUnique(c, gw, n);
    var vpc, ip := c.exips[n].localVpc, c.pods[next].externalIP;
    var c' := Promote(c, n, next);
    assert next in c.homes && c.homes[next] == vpc;
    RetargetKeepsTunnels(c.homes, c.tunnels, vpc, Some(next), ip);
    assert NamesOk(c'.exips);
    assert PrimariesOk(c'.exips, c.id, c.homes, c'.vpcs);
  }

  lemma CameUpKeepsShape(c: Cluster, gw: Word, exip: Option<string>)
    requires Shaped(c) && Picks(ExIpsNaming(c, gw), exip)
    ensures Shaped(HandleCameUp(c, gw, exip))
  {
    hide TunnelsOk, DevicesApart;
    if exip.Some? && gw in c.pods {
      var c' := HandleCameUp(c, gw, exip);
      RetargetKeepsTunnels(c.homes, c.tunnels, c.exips[exip.value].localVpc, None, c.pods[gw].externalIP);
      assert NamesOk(c'.exips);
      assert PrimariesOk(c'.exips, c.id, c.homes, c.vpcs);
    }
  }

  lemma RetireKeepsShape(c: Cluster, n: string)
    requires Shaped(c)
    ensures Shaped(c.(exips := c.exips - {n}))
  {
    hide TunnelsOk, DevicesApart, HomesOk;
    assert forall m | Local(c.exips - {n}, c.id, m) :: Local(c.exips, c.id, m);
  }

  lemma FailoverKeepsShape(c: Cluster, gw: Word, exip: Option<string>, next: Option<Word>)
    requires Shaped(c) && Picks(ExIpsNaming(c, gw), exip)
    ensures Picks(Available(c, gw) - {gw}, next) ==> Shaped(HandleWentDown(c, gw, exip, next))
    ensures Picks(Available(c, gw), next) ==> Shaped(HandleDeleted(c, gw, exip, next))
  {
    hide Shaped, Promote;
    if exip.Some? {
      RetireKeepsShape(c, exip.value);
      if c.exips[exip.value].localVpc in c.vpcs && next.Some? && next.value in Available(c, gw) {
        PromoteKeepsShape(c, gw, exip.value, next.value);
      }
    }
  }

  lemma EventKeepsShape(c: Cluster, step: Step)
    requires Shaped(c) && step.HandleEvent? && Enabled(c, step)
    ensures Shaped(Next(c, step))
  {
    var rest := c.(queue := c.queue[1..]);
    var gw := c.queue[0].gw;
    EnvironmentKeepsShape(c, rest);
    hide Shaped, HandleAdded, HandleWentDown, HandleCameUp, HandleDeleted;
    PopKeepsPicks(c, gw);
    match c.queue[0]
    case Added(_, available) => AddedKeepsShape(rest, gw, available, step.cidr);
    case WentDown(_) => FailoverKeepsShape(rest, gw, step.exip, step.next);
    case CameUp(_) => CameUpKeepsShape(rest, gw, step.exip);
    case Deleted(_) => FailoverKeepsShape(rest, gw, step.exip, step.next);
  }

  // ----- users -----

  lemma UserPutIsOk(c: Cluster, key: Key, t: VpcNatTunnel)
    requires Shaped(c) && (Enabled(c, UserCreates(key, t)) || Enabled(c, UserEdits(key, t)))
    ensures TunnelOk(c.homes, key, t)
    ensures forall k | k in c.tunnels && k != key && k.name == key.name :: c.tunnels[k].spec.localVpc != t.spec.localVpc
  {
    assert "localVpc" in OPERATOR_LABELS && "remoteVpc" in OPERATOR_LABELS && "remoteCluster" in OPERATOR_LABELS;
    if key in c.tunnels {
      assert TunnelOk(c.homes, key, c.tunnels[key]);
    }
  }

  lemma UserDeletesKeepsShape(c: Cluster, key: Key)
    requires Shaped(c) && key in c.tunnels
    ensures Shaped(Next(c, UserDeletes(key)))
  {
    var t := c.tunnels[key].(deleting := true);
    assert TunnelOk(c.homes, key, c.tunnels[key]);
    assert TunnelOk(c.homes, key, t);
    DevicesStayApart(c, key);
    PutKeepsShape(c, key, t);
    RemoveKeepsShape(c, key);
  }

  /** Every step keeps the shape, without any condition. */
  lemma StepKeepsShape(c: Cluster, step: Step)
    requires Shaped(c) && Enabled(c, step)
    ensures Shaped(Next(c, step))
  {
    hide ReconcileTunnel, Propagate, Shaped;
    match step
    case PodDies(_) => EnvironmentStepKeepsShape(c, step);
    case PodReturns(_, _, _) => EnvironmentStepKeepsShape(c, step);
    case GatewayAdded(_, _, _) => EnvironmentStepKeepsShape(c, step);
    case GatewayRemoved(_) => EnvironmentStepKeepsShape(c, step);
    case HandleEvent(_, _, _) => EventKeepsShape(c, step);
    case RemoteSet(_, _) => RemoteStepKeepsShape(c, step);
    case RemoteGone(_) => RemoteStepKeepsShape(c, step);
    case UserCreates(key, t) => UserPutIsOk(c, key, t); PutKeepsShape(c, key, t);
    case UserEdits(key, t) => UserPutIsOk(c, key, t); PutKeepsShape(c, key, t);
    case UserDeletes(key) => UserDeletesKeepsShape(c, key);
    case Reconcile(key, env) => ReconcileKeepsShape(c, key, env);
  }

  lemma EnvironmentStepKeepsShape(c: Cluster, step: Step)
    requires Shaped(c) && Enabled(c, step)
    requires (step.PodDies? || step.PodReturns? || step.GatewayAdded? || step.GatewayRemoved?)
    ensures Shaped(Next(c, step))
  {
    EnvironmentKeepsShape(c, Next(c, step));
  }

  lemma RemoteStepKeepsShape(c: Cluster, step: Step)
    requires Shaped(c) && Enabled(c, step) && (step.RemoteSet? || step.RemoteGone?)
    ensures Shaped(Next(c, step)) && RemoteChange(c, Next(c, step))
  {
    hide Propagate;
    if step.RemoteSet? {
      assert step.name[|step.e.localVpc|] == '.';
      RemoteSetIsRemote(c, step.name, step.e);
    } else {
      RemoteGoneIsRemote(c, step.name);
    }
    RemoteKeepsShape(c, Next(c, step));
  }
}
