/**
 What handling a gateway's event makes of the cluster, field by field: which standby takes over, which fields of
 GatewayExIp, routes and tunnels change, and that nothing else does.
 */
module GatewayEffects {
  import opened Api
  import opened Cluster
  import opened Shape

  /** An available gateway of the VPC. */
  predicate Standby(c: Cluster, vpc: Word, gw: Word) {
    gw in c.pods && gw in c.gateways && gw in c.homes && c.homes[gw] == vpc
  }

  /** The label by which the handlers find the tunnels of a VPC. */
  predicate OfVpc(t: VpcNatTunnel, vpc: Word) {
    "localVpc" in t.labels && t.labels["localVpc"] == vpc
  }

  /** Nothing but GatewayExIps, routes and tunnels differs, and of them only those of one GatewayExIp's VPC. */
  ghost predicate ChangesOneVpc(c: Cluster, c': Cluster, n: string)
    requires n in c.exips
  {
    && c'.id == c.id && c'.homes == c.homes && c'.gateways == c.gateways && c'.pods == c.pods
    && c.queue != [] && c'.queue == c.queue[1..]
    && (forall m | m != n :: (m in c'.exips <==> m in c.exips) && (m in c.exips ==> c'.exips[m] == c.exips[m]))
    && c'.vpcs.Keys == c.vpcs.Keys && (forall v | v in c.vpcs && v != c.exips[n].localVpc :: c'.vpcs[v] == c.vpcs[v])
    && c'.tunnels.Keys == c.tunnels.Keys
    && forall k | k in c.tunnels && !OfVpc(c.tunnels[k], c.exips[n].localVpc) :: c'.tunnels[k] == c.tunnels[k]
  }

  /** GatewayExIp, all routes and all tunnels of the VPC name the gateway and carry the address of its pod. */
  ghost predicate TakenOver(c: Cluster, c': Cluster, n: string, next: Word)
    requires n in c.exips
  {
    && ChangesOneVpc(c, c', n) && next in c.pods && next in c.gateways
    && var was := c.exips[n]; var ip := c.pods[next].externalIP;
       && n in c'.exips && c'.exips[n] == GatewayExIp(ip, was.globalNetCIDR, was.localVpc, next, was.localCluster)
       && was.localVpc in c.vpcs && was.localVpc in c'.vpcs
       && |c'.vpcs[was.localVpc]| == |c.vpcs[was.localVpc]|
       && (forall hop | hop in c'.vpcs[was.localVpc] :: hop == c.gateways[next].lanIP)
       && forall k | k in c.tunnels && OfVpc(c.tunnels[k], was.localVpc) ::
            c'.tunnels[k] == c.tunnels[k].(spec := c.tunnels[k].spec.(localGw := next, internalIP := ip))
  }

  /** A gateway that some GatewayExIp names: the handler finds this one, and available gateways are those of its VPC. */
  lemma FindsPrimary(c: Cluster, step: Step, n: string)
    requires Shaped(c) && Enabled(c, step) && step.HandleEvent?
    requires Local(c.exips, c.id, n) && c.exips[n].localGateway == c.queue[0].gw
    ensures step.exip == Some(n) && c.exips[n].localVpc in c.vpcs
    ensures forall h :: h in Available(c, c.queue[0].gw) <==> Standby(c, c.exips[n].localVpc, h)
    ensures ExIpsNaming(c, c.queue[0].gw) == {n}
  {
    hide TunnelsOk, DevicesApart, NamesOk;
    assert n in ExIpsNaming(c, c.queue[0].gw);
    PrimaryIsUnique(c, c.queue[0].gw, n);
  }

  lemma PromoteTakesOver(c: Cluster, c': Cluster, n: string, next: Word)
    requires n in c.exips && c.exips[n].localVpc in c.vpcs && next in c.pods && next in c.gateways && c.queue != []
    requires c' == Promote(c.(queue := c.queue[1..]), n, next)
    ensures TakenOver(c, c', n, next)
  {
  }

  /**
   The primary of a VPC has lost its pod. If another gateway of the VPC is available, one of them takes over; if
   there is none, nothing is changed.
   */
  lemma WentDownMeans(c: Cluster, step: Step, n: string)
    requires Shaped(c) && Enabled(c, step) && step.HandleEvent? && c.queue[0].WentDown?
    requires Local(c.exips, c.id, n) && c.exips[n].localGateway == c.queue[0].gw
    ensures var vpc := c.exips[n].localVpc; var c' := Next(c, step);
            if exists h :: Standby(c, vpc, h) && h != c.queue[0].gw then
              && step.next.Some? && Standby(c, vpc, step.next.value) && step.next.value != c.queue[0].gw
              && TakenOver(c, c', n, step.next.value)
            else c' == c.(queue := c.queue[1..])
  {
    hide Shaped, Promote, Standby, TakenOver;
    var gw := c.queue[0].gw;
    FindsPrimary(c, step, n);
    PopKeepsPicks(c, gw);
    assert forall h :: h in Available(c, gw) - {gw} <==> Standby(c, c.exips[n].localVpc, h) && h != gw;
    if step.next.Some? {
      assert step.next.value in Available(c, gw);
      PromoteTakesOver(c, Next(c, step), n, step.next.value);
    } else {
      assert Available(c, gw) - {gw} == {};
    }
  }

  /**
   The primary of a VPC has been deleted. If a gateway of the VPC is available, whether or not the VPC has tunnels,
   one of them takes over; if there is none, the GatewayExIp is deleted, and nothing else is changed.
   */
  lemma DeletedMeans(c: Cluster, step: Step, n: string)
    requires Shaped(c) && Enabled(c, step) && step.HandleEvent? && c.queue[0].Deleted?
    requires Local(c.exips, c.id, n) && c.exips[n].localGateway == c.queue[0].gw
    ensures var vpc := c.exips[n].localVpc; var c' := Next(c, step);
            if exists h :: Standby(c, vpc, h) then
              step.next.Some? && Standby(c, vpc, step.next.value) && TakenOver(c, c', n, step.next.value)
            else c' == c.(queue := c.queue[1..], exips := c.exips - {n})
  {
    hide Shaped, Promote, Standby, TakenOver;
    var gw := c.queue[0].gw;
    FindsPrimary(c, step, n);
    PopKeepsPicks(c, gw);
    if step.next.Some? {
      assert step.next.value in Available(c, gw);
      PromoteTakesOver(c, Next(c, step), n, step.next.value);
    } else {
      assert Available(c, gw) == {};
    }
  }

  /**
   The primary of a VPC has a pod again: GatewayExIp and tunnels of the VPC get that pod's address, while gateway and
   routes stay; if the pod is gone once more, nothing is changed.
   */
  lemma CameUpMeans(c: Cluster, step: Step, n: string)
    requires Shaped(c) && Enabled(c, step) && step.HandleEvent? && c.queue[0].CameUp?
    requires Local(c.exips, c.id, n) && c.exips[n].localGateway == c.queue[0].gw
    ensures var gw := c.queue[0].gw; var was := c.exips[n]; var c' := Next(c, step);
            if gw in c.pods then
              && ChangesOneVpc(c, c', n) && c'.vpcs == c.vpcs && n in c'.exips
              && var ip := c.pods[gw].externalIP;
                 && c'.exips[n] == GatewayExIp(ip, was.globalNetCIDR, was.localVpc, gw, was.localCluster)
                 && forall k | k in c.tunnels && OfVpc(c.tunnels[k], was.localVpc) ::
                      c'.tunnels[k] == c.tunnels[k].(spec := c.tunnels[k].spec.(internalIP := ip))
            else c' == c.(queue := c.queue[1..])
  {
    hide Shaped;
    FindsPrimary(c, step, n);
    PopKeepsPicks(c, c.queue[0].gw);
  }

  /**
   A gateway has been added. A GatewayExIp is created exactly if the gateway is still there and available, its VPC
   exists and has none yet, all static routes of the VPC lead to the gateway, and the cluster's CIDR is known; it
   carries the pod's address, that CIDR, and the three labels. Nothing else is changed.
   */
  lemma AddedMeans(c: Cluster, step: Step)
    requires Shaped(c) && Enabled(c, step) && step.HandleEvent? && c.queue[0].Added?
    ensures var gw := c.queue[0].gw; var c' := Next(c, step);
            if && c.queue[0].available && gw in c.gateways && gw in c.pods && gw in c.homes && step.cidr.Some?
               && c.homes[gw] + "." + c.id !in c.exips && c.homes[gw] in c.vpcs
               && forall hop | hop in c.vpcs[c.homes[gw]] :: hop == c.gateways[gw].lanIP
            then
              c' == c.(queue := c.queue[1..],
                       exips := c.exips[c.homes[gw] + "." + c.id :=
                         GatewayExIp(c.pods[gw].externalIP, step.cidr.value, c.homes[gw], gw, c.id)])
            else c' == c.(queue := c.queue[1..])
  {
    hide TunnelsOk, DevicesApart, NamesOk, PrimariesOk;
  }

  /** The event of a gateway that no GatewayExIp names changes nothing, unless it has just been added. */
  lemma OthersMean(c: Cluster, step: Step)
    requires Enabled(c, step) && step.HandleEvent? && !c.queue[0].Added?
    requires forall n | Local(c.exips, c.id, n) :: c.exips[n].localGateway != c.queue[0].gw
    ensures Next(c, step) == c.(queue := c.queue[1..])
  {
    assert ExIpsNaming(c, c.queue[0].gw) == {};
  }

  // ----- GatewayExIps of other clusters -----

  /** The labels by which the sync finds the tunnels to a VPC of a cluster. */
  predicate LeadsTo(t: VpcNatTunnel, vpc: Word, cluster: Word) {
    && "remoteVpc" in t.labels && t.labels["remoteVpc"] == vpc
    && "remoteCluster" in t.labels && t.labels["remoteCluster"] == cluster
  }

  /**
   A GatewayExIp of another cluster has been stored: it is stored under its name, and exactly the tunnels to its VPC
   get its address as RemoteIP.
   */
  lemma RemoteSetMeans(c: Cluster, name: string, e: GatewayExIp)
    requires Enabled(c, RemoteSet(name, e))
    ensures var c' := Next(c, RemoteSet(name, e));
            && name == e.localVpc + "." + e.localCluster
            && c' == c.(exips := c.exips[name := e], tunnels := c'.tunnels) && c'.tunnels.Keys == c.tunnels.Keys
            && forall k | k in c.tunnels ::
                 c'.tunnels[k] == if LeadsTo(c.tunnels[k], e.localVpc, e.localCluster)
                                  then c.tunnels[k].(spec := c.tunnels[k].spec.(remoteIP := e.externalIP))
                                  else c.tunnels[k]
  {
    NameRoundTrip(e.localVpc, e.localCluster);
    assert name[|e.localVpc|] == '.';
  }

  /** It has been deleted: it is gone, and the tunnels to its VPC get the address that it had. */
  lemma RemoteGoneMeans(c: Cluster, name: string)
    requires Shaped(c) && Enabled(c, RemoteGone(name))
    ensures var e := c.exips[name]; var c' := Next(c, RemoteGone(name));
            && c' == c.(exips := c.exips - {name}, tunnels := c'.tunnels) && c'.tunnels.Keys == c.tunnels.Keys
            && forall k | k in c.tunnels ::
                 c'.tunnels[k] == if LeadsTo(c.tunnels[k], e.localVpc, e.localCluster)
                                  then c.tunnels[k].(spec := c.tunnels[k].spec.(remoteIP := e.externalIP))
                                  else c.tunnels[k]
  {
    hide TunnelsOk, DevicesApart;
    NameRoundTrip(c.exips[name].localVpc, c.exips[name].localCluster);
  }
}
