/**
 The address of the peer: a built tunnel carries the external IP of its peer's GatewayExIp, as far as that is
 known in the cluster. Every step keeps this, without any condition.
 */
module Peers {
  import opened Api
  import opened Finalizers
  import opened Cluster
  import opened Shape

  ghost predicate RemotesAgree(exips: map<string, GatewayExIp>, id: Word, tunnels: map<Key, VpcNatTunnel>) {
    forall k | k in tunnels && tunnels[k].status.initialized && tunnels[k].spec.remoteCluster != id
      && RemoteName(tunnels[k]) in exips ::
      tunnels[k].spec.remoteIP == exips[RemoteName(tunnels[k])].externalIP
  }

  ghost predicate Peered(c: Cluster) {
    Shaped(c) && RemotesAgree(c.exips, c.id, c.tunnels)
  }

  // ----- the broker -----

  /** Exactly the tunnels whose peer has this name point at it. */
  lemma PointsAtMeans(homes: map<Word, Word>, k: Key, t: VpcNatTunnel, vpc: Word, cluster: Word)
    requires TunnelOk(homes, k, t) && t.status.initialized && DotFree(vpc) && '.' in ExIpName(vpc, cluster)
    ensures PointsAt(t, ExIpName(vpc, cluster)) <==> RemoteName(t) == ExIpName(vpc, cluster)
  {
    NameRoundTrip(vpc, cluster);
    if RemoteName(t) == ExIpName(vpc, cluster) {
      NameInjective(t.spec.remoteVpc, t.spec.remoteCluster, vpc, cluster);
    }
  }

  lemma PropagateKeepsPeers(c: Cluster, name: string, e: GatewayExIp, exips: map<string, GatewayExIp>)
    requires TunnelsOk(c.homes, c.tunnels) && RemotesAgree(c.exips, c.id, c.tunnels)
    requires DotFree(e.localVpc) && name == ExIpName(e.localVpc, e.localCluster) && '.' in name
    requires exips == c.exips[name := e] || exips == c.exips - {name}
    ensures RemotesAgree(exips, c.id, Propagate(c.tunnels, name, e.externalIP))
  {
    forall k | k in c.tunnels && c.tunnels[k].status.initialized
      ensures PointsAt(c.tunnels[k], name) <==> RemoteName(c.tunnels[k]) == name
    {
      PointsAtMeans(c.homes, k, c.tunnels[k], e.localVpc, e.localCluster);
    }
  }

  // ----- the informer -----

  /** What a tunnel looks up of its peer does not change. */
  predicate SamePeer(a: VpcNatTunnel, b: VpcNatTunnel) {
    && b.status.initialized == a.status.initialized && b.spec.remoteIP == a.spec.remoteIP
    && b.spec.remoteVpc == a.spec.remoteVpc && b.spec.remoteCluster == a.spec.remoteCluster
  }

  /** Handlers change GatewayExIps of this cluster only, and of the tunnels nothing that concerns the peer. */
  lemma LocalChangeKeepsPeers(c: Cluster, c': Cluster)
    requires Peered(c) && NamesOk(c'.exips) && c'.id == c.id && c'.tunnels.Keys == c.tunnels.Keys
    requires forall k | k in c.tunnels :: SamePeer(c.tunnels[k], c'.tunnels[k])
    requires forall n | n in c'.exips && c'.exips[n].localCluster != c.id :: n in c.exips && c'.exips[n] == c.exips[n]
    ensures RemotesAgree(c'.exips, c'.id, c'.tunnels)
  {
    forall k | k in c'.tunnels && c'.tunnels[k].spec.remoteCluster != c.id && RemoteName(c'.tunnels[k]) in c'.exips
      ensures c'.exips[RemoteName(c'.tunnels[k])].localCluster != c.id
    {
      var t := c.tunnels[k];
      assert TunnelOk(c.homes, k, t) && SamePeer(t, c'.tunnels[k]);
      var e := c'.exips[RemoteName(t)];
      NameInjective(t.spec.remoteVpc, t.spec.remoteCluster, e.localVpc, e.localCluster);
    }
  }

  lemma RetargetKeepsPeer(tunnels: map<Key, VpcNatTunnel>, vpc: Word, gw: Option<Word>, ip: Word)
    ensures Retarget(tunnels, vpc, gw, ip).Keys == tunnels.Keys
    ensures forall k | k in tunnels :: SamePeer(tunnels[k], Retarget(tunnels, vpc, gw, ip)[k])
  {
  }

  /** What the handlers leave of GatewayExIps of other clusters and of the tunnels. */
  ghost predicate LocalOnly(c: Cluster, c': Cluster) {
    && c'.id == c.id && c'.tunnels.Keys == c.tunnels.Keys
    && (forall k | k in c.tunnels :: SamePeer(c.tunnels[k], c'.tunnels[k]))
    && (forall n | n in c'.exips && c'.exips[n].localCluster != c.id :: n in c.exips && c'.exips[n] == c.exips[n])
  }

  lemma PromoteIsLocal(c: Cluster, n: string, next: Word)
    requires Local(c.exips, c.id, n) && c.exips[n].localVpc in c.vpcs && next in c.pods && next in c.gateways
    ensures LocalOnly(c, Promote(c, n, next))
  {
    hide Retarget;
    RetargetKeepsPeer(c.tunnels, c.exips[n].localVpc, Some(next), c.pods[next].externalIP);
  }

  lemma CameUpIsLocal(c: Cluster, gw: Word, exip: Option<string>)
    requires Picks(ExIpsNaming(c, gw), exip)
    ensures LocalOnly(c, HandleCameUp(c, gw, exip))
  {
    hide Retarget;
    if exip.Some? && gw in c.pods {
      RetargetKeepsPeer(c.tunnels, c.exips[exip.value].localVpc, None, c.pods[gw].externalIP);
    } else {
      NothingIsLocal(c);
    }
  }

  lemma NothingIsLocal(c: Cluster)
    ensures LocalOnly(c, c) && forall n | n in c.exips && c.exips[n].localCluster == c.id ::
              LocalOnly(c, c.(exips := c.exips - {n}))
  {
  }

  lemma FailoverIsLocal(c: Cluster, gw: Word, exip: Option<string>, next: Option<Word>)
    requires Picks(ExIpsNaming(c, gw), exip)
    ensures Picks(Available(c, gw) - {gw}, next) ==> LocalOnly(c, HandleWentDown(c, gw, exip, next))
    ensures Picks(Available(c, gw), next) ==> LocalOnly(c, HandleDeleted(c, gw, exip, next))
  {
    hide Promote, LocalOnly;
    NothingIsLocal(c);
    if exip.Some? && c.exips[exip.value].localVpc in c.vpcs && next.Some? && next.value in Available(c, gw) {
      PromoteIsLocal(c, exip.value, next.value);
    }
  }

  lemma EventKeepsPeers(c: Cluster, step: Step)
    requires Peered(c) && step.HandleEvent? && Enabled(c, step)
    ensures Peered(Next(c, step))
  {
    hide HandleAdded, HandleWentDown, HandleCameUp, HandleDeleted, LocalOnly, TunnelsOk, DevicesApart;
    var rest := c.(queue := c.queue[1..]);
    var gw := c.queue[0].gw;
    EventKeepsShape(c, step);
    PopKeepsPicks(c, gw);
    match c.queue[0]
    case Added(_, available) => AddedIsLocal(rest, gw, available, step.cidr);
      LocalOnlyKeepsPeers(c, rest, Next(c, step));
    case WentDown(_) => FailoverIsLocal(rest, gw, step.exip, step.next); LocalOnlyKeepsPeers(c, rest, Next(c, step));
    case CameUp(_) => CameUpIsLocal(rest, gw, step.exip); LocalOnlyKeepsPeers(c, rest, Next(c, step));
    case Deleted(_) => FailoverIsLocal(rest, gw, step.exip, step.next); LocalOnlyKeepsPeers(c, rest, Next(c, step));
  }

  lemma LocalOnlyKeepsPeers(c: Cluster, rest: Cluster, c': Cluster)
    requires Peered(c) && Shaped(c') && rest == c.(queue := rest.queue) && LocalOnly(rest, c')
    ensures RemotesAgree(c'.exips, c'.id, c'.tunnels)
  {
    LocalChangeKeepsPeers(c, c');
  }

  lemma AddedIsLocal(c: Cluster, gw: Word, available: bool, cidr: Option<Word>)
    ensures LocalOnly(c, HandleAdded(c, gw, available, cidr))
  {
  }

  // ----- users and reconciles -----

  lemma PutKeepsPeers(exips: map<string, GatewayExIp>, id: Word, tunnels: map<Key, VpcNatTunnel>, key: Key,
                      t: VpcNatTunnel)
    requires RemotesAgree(exips, id, tunnels)
    requires t.status.initialized && RemoteName(t) in exips ==>
               t.spec.remoteCluster == id || t.spec.remoteIP == exips[RemoteName(t)].externalIP
    ensures RemotesAgree(exips, id, tunnels[key := t]) && RemotesAgree(exips, id, tunnels - {key})
  {
  }

  lemma WriteKeepsPeer(c: Cluster, key: Key, env: Env, t': VpcNatTunnel)
    requires Peered(c) && key in c.tunnels && Writes(c, c.tunnels[key], env, t')
    ensures t'.status.initialized && RemoteName(t') in c.exips ==>
              t'.spec.remoteCluster == c.id || t'.spec.remoteIP == c.exips[RemoteName(t')].externalIP
  {
    hide Dropped, TunnelsOk, DevicesApart, Rooted;
  }

  lemma ReconcileKeepsPeers(c: Cluster, key: Key, env: Env)
    requires Peered(c)
    ensures Peered(ReconcileTunnel(c, key, env).c)
  {
    hide ReconcileTunnel, Writes, Shaped, RemotesAgree, SameAddresses;
    ReconcileKeepsShape(c, key, env);
    ReconcileWrites(c, key, env);
    var c' := ReconcileTunnel(c, key, env).c;
    if c'.tunnels != c.tunnels {
      if key in c'.tunnels {
        WriteKeepsPeer(c, key, env, c'.tunnels[key]);
        PutKeepsPeers(c.exips, c.id, c.tunnels, key, c'.tunnels[key]);
      } else {
        StoredKeepsPeer(c, key);
        PutKeepsPeers(c.exips, c.id, c.tunnels, key, c.tunnels[key]);
      }
    }
  }

  lemma StoredKeepsPeer(c: Cluster, key: Key)
    requires Peered(c) && key in c.tunnels
    ensures var t := c.tunnels[key];
            t.status.initialized && RemoteName(t) in c.exips ==>
                t.spec.remoteCluster == c.id || t.spec.remoteIP == c.exips[RemoteName(t)].externalIP
  {
  }

  lemma UserKeepsPeers(c: Cluster, step: Step)
    requires Peered(c) && Enabled(c, step) && (step.UserCreates? || step.UserEdits? || step.UserDeletes?)
    ensures RemotesAgree(Next(c, step).exips, c.id, Next(c, step).tunnels)
  {
    hide RemotesAgree, Shaped, ReconcileTunnel, HandleAdded, HandleWentDown, HandleCameUp, HandleDeleted, Propagate;
    match step
    case UserCreates(key, t) => PutKeepsPeers(c.exips, c.id, c.tunnels, key, t);
    case UserEdits(key, t) =>
      StoredKeepsPeer(c, key);
      PutKeepsPeers(c.exips, c.id, c.tunnels, key, t);
    case UserDeletes(key) =>
      StoredKeepsPeer(c, key);
      PutKeepsPeers(c.exips, c.id, c.tunnels, key, c.tunnels[key].(deleting := true));
  }

  lemma RemoteStepKeepsPeers(c: Cluster, step: Step)
    requires Peered(c) && Enabled(c, step) && (step.RemoteSet? || step.RemoteGone?)
    ensures RemotesAgree(Next(c, step).exips, c.id, Next(c, step).tunnels)
  {
    hide Propagate, RemotesAgree, TunnelsOk, DevicesApart;
    if step.RemoteSet? {
      assert step.name[|step.e.localVpc|] == '.';
      PropagateKeepsPeers(c, step.name, step.e, c.exips[step.name := step.e]);
    } else {
      PropagateKeepsPeers(c, step.name, c.exips[step.name], c.exips - {step.name});
    }
  }

  /** Every step keeps the peers' addresses, without any condition. */
  lemma StepKeepsPeers(c: Cluster, step: Step)
    requires Peered(c) && Enabled(c, step)
    ensures Peered(Next(c, step))
  {
    hide ReconcileTunnel, Propagate, Shaped, RemotesAgree;
    StepKeepsShape(c, step);
    match step
    case HandleEvent(_, _, _) => EventKeepsPeers(c, step);
    case RemoteSet(_, _) => RemoteStepKeepsPeers(c, step);
    case RemoteGone(_) => RemoteStepKeepsPeers(c, step);
    case UserCreates(_, _) => UserKeepsPeers(c, step);
    case UserEdits(_, _) => UserKeepsPeers(c, step);
    case UserDeletes(_) => UserKeepsPeers(c, step);
    case Reconcile(key, env) => ReconcileKeepsPeers(c, key, env);
    case _ =>
  }
}
