/**
 Agreement on the primary gateway: GatewayExIp, static routes and tunnels of a VPC name the same gateway and
 carry its address. What is in the pods has no part in it, so faults, late failovers and reused addresses do
 not matter; the one step that can break it creates a GatewayExIp over tunnels of an earlier primary.
 */
module Agreement {
  import opened Api
  import opened Finalizers
  import opened Netns
  import opened Cluster
  import opened Shape

  // ----- the invariant -----

  /** While a VPC has a GatewayExIp, its tunnels name the gateway in its label. */
  ghost predicate GatewaysAgree(exips: map<string, GatewayExIp>, id: Word, tunnels: map<Key, VpcNatTunnel>) {
    forall n, k | Local(exips, id, n) && k in tunnels && Labelled(tunnels[k], exips[n].localVpc) ::
      tunnels[k].spec.localGw == exips[n].localGateway
  }

  /** The primary gateway exists, unless its deletion is still to be handled. */
  ghost predicate PrimariesExist(exips: map<string, GatewayExIp>, id: Word, gateways: map<Word, Gateway>,
                                 queue: seq<Event>) {
    forall n | Local(exips, id, n) :: exips[n].localGateway in gateways || Deleted(exips[n].localGateway) in queue
  }

  /** An event that will refresh the address of this gateway is still to be handled. */
  predicate Pending(queue: seq<Event>, gw: Word) {
    CameUp(gw) in queue || Deleted(gw) in queue
  }

  /** The GatewayExIp carries the external IP of the primary gateway's pod. */
  ghost predicate FreshExIps(exips: map<string, GatewayExIp>, id: Word, pods: map<Word, Pod>, queue: seq<Event>) {
    forall n | Local(exips, id, n) && exips[n].localGateway in pods && !Pending(queue, exips[n].localGateway) ::
      exips[n].externalIP == pods[exips[n].localGateway].externalIP
  }

  /** So do the tunnels of the VPC. */
  ghost predicate FreshTunnels(exips: map<string, GatewayExIp>, id: Word, pods: map<Word, Pod>, queue: seq<Event>,
                               tunnels: map<Key, VpcNatTunnel>) {
    forall n, k | Local(exips, id, n) && exips[n].localGateway in pods && !Pending(queue, exips[n].localGateway)
                  && k in tunnels && Labelled(tunnels[k], exips[n].localVpc) ::
      tunnels[k].spec.internalIP == pods[exips[n].localGateway].externalIP
  }

  /** All static routes of a VPC go to its primary gateway. */
  ghost predicate RoutesOk(exips: map<string, GatewayExIp>, id: Word, vpcs: map<Word, seq<Word>>,
                           gateways: map<Word, Gateway>, queue: seq<Event>) {
    forall n | Local(exips, id, n) && exips[n].localVpc in vpcs
               && exips[n].localGateway in gateways && Deleted(exips[n].localGateway) !in queue ::
      forall hop | hop in vpcs[exips[n].localVpc] :: hop == gateways[exips[n].localGateway].lanIP
  }

  ghost predicate Base(c: Cluster) {
    Shaped(c) && GatewaysAgree(c.exips, c.id, c.tunnels)
  }

  ghost predicate Fresh(c: Cluster) {
    && FreshExIps(c.exips, c.id, c.pods, c.queue)
    && FreshTunnels(c.exips, c.id, c.pods, c.queue, c.tunnels)
    && RoutesOk(c.exips, c.id, c.vpcs, c.gateways, c.queue)
  }

  ghost predicate Agreed(c: Cluster) {
    Base(c) && PrimariesExist(c.exips, c.id, c.gateways, c.queue) && Fresh(c)
  }

  // ----- the step that can break it -----

  /** Handling `Added` stores a new GatewayExIp. */
  predicate Creates(c: Cluster, gw: Word, available: bool, cidr: Option<Word>) {
    && available && gw in c.gateways && gw in c.pods && cidr.Some?
    && ExIpName(Home(c, gw), c.id) !in c.exips && Home(c, gw) in c.vpcs
    && forall hop | hop in c.vpcs[Home(c, gw)] :: hop == c.gateways[gw].lanIP
  }

  /** The handler's early returns and the guard are two sides of the same thing. */
  lemma CreatesMeans(c: Cluster, gw: Word, available: bool, cidr: Option<Word>)
    ensures Creates(c, gw, available, cidr) <==> HandleAdded(c, gw, available, cidr) != c
  {
    var name := ExIpName(Home(c, gw), c.id);
    assert Creates(c, gw, available, cidr) ==> name in HandleAdded(c, gw, available, cidr).exips;
  }

  /** Tunnels of the VPC, left over from an earlier primary, name another gateway. */
  ghost predicate OrphanTunnels(c: Cluster, gw: Word) {
    exists k :: k in c.tunnels && Labelled(c.tunnels[k], Home(c, gw)) && c.tunnels[k].spec.localGw != gw
  }

  /** Tunnels of the VPC that a new GatewayExIp would leave with another address. */
  ghost predicate StaleTunnels(c: Cluster, gw: Word, queue: seq<Event>) {
    gw in c.pods && !Pending(queue, gw) &&
    exists k :: k in c.tunnels && Labelled(c.tunnels[k], Home(c, gw))
      && c.tunnels[k].spec.internalIP != c.pods[gw].externalIP
  }

  /** A created GatewayExIp finds the tunnels of its VPC at its gateway, with its address. */
  ghost predicate Orderly(c: Cluster, step: Step)
    requires Enabled(c, step)
  {
    step.HandleEvent? && c.queue[0].Added? && Creates(c, c.queue[0].gw, c.queue[0].available, step.cidr) ==>
      !OrphanTunnels(c, c.queue[0].gw) && !StaleTunnels(c, c.queue[0].gw, c.queue[1..])
  }

  // ----- pods and gateways -----

  lemma PodGoneKeepsFresh(c: Cluster, gw: Word, c': Cluster)
    requires Fresh(c)
    requires c' == c.(pods := c.pods - {gw}, gateways := c'.gateways, queue := c'.queue)
    requires forall g | g in c'.gateways :: g in c.gateways && c'.gateways[g] == c.gateways[g]
    requires forall ev | ev in c.queue :: ev in c'.queue
    ensures Fresh(c')
  {
  }

  /** A pod comes up: if it is a primary's, an event that will refresh the address is pending. */
  lemma PodUpKeepsFresh(c: Cluster, gw: Word, ip: Word, ovnGw: Word, c': Cluster)
    requires Fresh(c) && gw !in c.pods
    requires c' == c.(pods := c.pods[gw := Pod(ip, ovnGw, EMPTY)], gateways := c'.gateways, queue := c'.queue)
    requires forall ev | ev in c.queue :: ev in c'.queue
    requires forall n | Local(c.exips, c.id, n) && c.exips[n].localGateway == gw :: Pending(c'.queue, gw)
    requires RoutesOk(c.exips, c.id, c.vpcs, c'.gateways, c'.queue)
    ensures Fresh(c')
  {
    hide RoutesOk;
  }

  /** A gateway without a pod changes nothing but what is pending. */
  lemma NoPodKeepsFresh(c: Cluster, c': Cluster)
    requires Fresh(c) && c' == c.(gateways := c'.gateways, queue := c'.queue)
    requires forall ev | ev in c.queue :: ev in c'.queue
    requires RoutesOk(c.exips, c.id, c.vpcs, c'.gateways, c'.queue)
    ensures Fresh(c')
  {
    hide RoutesOk;
  }

  /** A gateway that is added anew: if it is still somebody's primary, its deletion is not handled yet. */
  lemma AddedGatewayKeepsRoutes(c: Cluster, gw: Word, lanIP: Word, queue: seq<Event>)
    requires PrimariesExist(c.exips, c.id, c.gateways, c.queue) && RoutesOk(c.exips, c.id, c.vpcs, c.gateways, c.queue)
    requires gw !in c.gateways && forall ev | ev in c.queue :: ev in queue
    ensures RoutesOk(c.exips, c.id, c.vpcs, c.gateways[gw := Gateway(lanIP)], queue)
    ensures forall n | Local(c.exips, c.id, n) && c.exips[n].localGateway == gw :: Pending(queue, gw)
  {
  }

  lemma EnvironmentKeepsAgreement(c: Cluster, step: Step)
    requires Agreed(c) && Enabled(c, step)
    requires (step.PodDies? || step.PodReturns? || step.GatewayAdded? || step.GatewayRemoved?)
    ensures Agreed(Next(c, step))
  {
    hide Fresh, TunnelsOk, DevicesApart;
    var c' := Next(c, step);
    EnvironmentStepKeepsShape(c, step);
    EnvironmentKeepsFresh(c, step);
    assert forall ev | ev in c.queue :: ev in c'.queue;
    if step.GatewayRemoved? {
      assert Deleted(step.gw) in c'.queue;
    }
  }

  lemma EnvironmentKeepsFresh(c: Cluster, step: Step)
    requires Agreed(c) && Enabled(c, step)
    requires (step.PodDies? || step.PodReturns? || step.GatewayAdded? || step.GatewayRemoved?)
    ensures Fresh(Next(c, step))
  {
    hide FreshExIps, FreshTunnels, TunnelsOk, DevicesApart, GatewaysAgree;
    var c' := Next(c, step);
    match step
    case PodDies(gw) => PodGoneKeepsFresh(c, gw, c');
    case GatewayRemoved(gw) => PodGoneKeepsFresh(c, gw, c');
    case PodReturns(gw, ip, ovnGw) =>
      assert CameUp(gw) in c'.queue;
      PodUpKeepsFresh(c, gw, ip, ovnGw, c');
    case GatewayAdded(gw, lanIP, pod) =>
      AddedGatewayKeepsRoutes(c, gw, lanIP, c'.queue);
      if pod.Some? {
        PodUpKeepsFresh(c, gw, pod.value.0, pod.value.1, c');
      } else {
        NoPodKeepsFresh(c, c');
      }
  }

  // ----- events -----

  /** The GatewayExIps whose primary is another gateway. */
  function OtherExIps(exips: map<string, GatewayExIp>, id: Word, gw: Word): map<string, GatewayExIp> {
    map n | n in exips && Local(exips, id, n) && exips[n].localGateway != gw :: exips[n]
  }

  /** What is still fresh once an event is taken from the queue: everything about other gateways. */
  ghost predicate FreshBut(c: Cluster, gw: Word) {
    && FreshExIps(OtherExIps(c.exips, c.id, gw), c.id, c.pods, c.queue)
    && FreshTunnels(OtherExIps(c.exips, c.id, gw), c.id, c.pods, c.queue, c.tunnels)
    && RoutesOk(OtherExIps(c.exips, c.id, gw), c.id, c.vpcs, c.gateways, c.queue)
  }

  ghost predicate PrimariesExistBut(c: Cluster, gw: Word) {
    PrimariesExist(OtherExIps(c.exips, c.id, gw), c.id, c.gateways, c.queue)
  }

  /** Another event than the gateway's own is popped. */
  lemma PopKeepsPending(queue: seq<Event>, gw: Word)
    requires queue != []
    ensures Pending(queue, gw) && queue[0] != CameUp(gw) && queue[0] != Deleted(gw) ==> Pending(queue[1..], gw)
    ensures Pending(queue[1..], gw) ==> Pending(queue, gw)
  {
    assert forall ev | ev in queue :: ev == queue[0] || ev in queue[1..];
  }

  /** Addresses: what is fresh stays fresh, except behind the event's own gateway. */
  lemma PopKeepsAddresses(exips: map<string, GatewayExIp>, id: Word, pods: map<Word, Pod>, queue: seq<Event>,
                          tunnels: map<Key, VpcNatTunnel>)
    requires queue != [] && FreshExIps(exips, id, pods, queue) && FreshTunnels(exips, id, pods, queue, tunnels)
    ensures FreshExIps(OtherExIps(exips, id, queue[0].gw), id, pods, queue[1..])
    ensures FreshTunnels(OtherExIps(exips, id, queue[0].gw), id, pods, queue[1..], tunnels)
    ensures queue[0].Added? || queue[0].WentDown? ==>
              FreshExIps(exips, id, pods, queue[1..]) && FreshTunnels(exips, id, pods, queue[1..], tunnels)
  {
    forall gw: Word
      ensures Pending(queue, gw) && queue[0] != CameUp(gw) && queue[0] != Deleted(gw) ==> Pending(queue[1..], gw)
    {
      PopKeepsPending(queue, gw);
    }
    hide Pending;
  }

  lemma PopKeepsRoutes(exips: map<string, GatewayExIp>, id: Word, vpcs: map<Word, seq<Word>>,
                       gateways: map<Word, Gateway>,
                       queue: seq<Event>)
    requires queue != [] && RoutesOk(exips, id, vpcs, gateways, queue) && PrimariesExist(exips, id, gateways, queue)
    ensures RoutesOk(OtherExIps(exips, id, queue[0].gw), id, vpcs, gateways, queue[1..])
    ensures PrimariesExist(OtherExIps(exips, id, queue[0].gw), id, gateways, queue[1..])
    ensures !queue[0].Deleted? ==>
              RoutesOk(exips, id, vpcs, gateways, queue[1..]) && PrimariesExist(exips, id, gateways, queue[1..])
  {
    assert forall ev | ev in queue :: ev == queue[0] || ev in queue[1..];
  }

  lemma PopKeepsAgreement(c: Cluster)
    requires Agreed(c) && c.queue != []
    ensures var rest := c.(queue := c.queue[1..]); var gw := c.queue[0].gw;
            && Base(rest) && FreshBut(rest, gw) && PrimariesExistBut(rest, gw)
            && (c.queue[0].Added? || c.queue[0].WentDown? ==> Agreed(rest))
            && (!c.queue[0].Deleted? ==>
                  && RoutesOk(rest.exips, rest.id, rest.vpcs, rest.gateways, rest.queue)
                  && PrimariesExist(rest.exips, rest.id, rest.gateways, rest.queue))
  {
    hide FreshExIps, FreshTunnels, RoutesOk, PrimariesExist, Shaped;
    PopKeepsAddresses(c.exips, c.id, c.pods, c.queue, c.tunnels);
    PopKeepsRoutes(c.exips, c.id, c.vpcs, c.gateways, c.queue);
    ShapeIgnoresQueue(c, c.queue[1..]);
  }

  /** The names left after a promotion that are not the promoted one belong to other VPCs and gateways. */
  lemma OtherLocals(c: Cluster, gw: Word, n: string, m: string)
    requires Rooted(c) && n in ExIpsNaming(c, gw) && Local(c.exips, c.id, m) && m != n
    ensures c.exips[m].localGateway != gw && c.exips[m].localVpc != c.exips[n].localVpc
    ensures Local(OtherExIps(c.exips, c.id, gw), c.id, m)
  {
    PrimaryIsUnique(c, gw, n);
    assert m !in ExIpsNaming(c, gw);
  }

  lemma AllOtherLocals(c: Cluster, gw: Word, n: string)
    requires Rooted(c) && n in ExIpsNaming(c, gw)
    ensures forall m | Local(c.exips, c.id, m) && m != n ::
              && c.exips[m].localGateway != gw && c.exips[m].localVpc != c.exips[n].localVpc
              && Local(OtherExIps(c.exips, c.id, gw), c.id, m)
  {
    forall m | Local(c.exips, c.id, m) && m != n
      ensures c.exips[m].localGateway != gw && c.exips[m].localVpc != c.exips[n].localVpc
      ensures Local(OtherExIps(c.exips, c.id, gw), c.id, m)
    {
      OtherLocals(c, gw, n, m);
    }
  }

  /** A gateway that is nobody's primary: all freshness is about others. */
  lemma NotPrimary(c: Cluster, gw: Word)
    requires FreshBut(c, gw) && PrimariesExistBut(c, gw) && ExIpsNaming(c, gw) == {}
    ensures Fresh(c) && PrimariesExist(c.exips, c.id, c.gateways, c.queue)
  {
    forall n | Local(c.exips, c.id, n)
      ensures Local(OtherExIps(c.exips, c.id, gw), c.id, n)
    {
      assert n !in ExIpsNaming(c, gw);
    }
  }

  /** All tunnels of a VPC get the address of a gateway, and those of other VPCs stay fresh. */
  lemma RetargetKeepsFresh(exips: map<string, GatewayExIp>, id: Word, pods: map<Word, Pod>, queue: seq<Event>,
                           tunnels: map<Key, VpcNatTunnel>, n: string, gw: Word, next: Word, target: Option<Word>)
    requires n in exips && next in pods && exips[n].localGateway == gw
    requires forall m | Local(exips, id, m) && m != n ::
               Local(OtherExIps(exips, id, gw), id, m) && exips[m].localVpc != exips[n].localVpc
    requires FreshTunnels(OtherExIps(exips, id, gw), id, pods, queue, tunnels)
    ensures var ip := pods[next].externalIP;
            FreshTunnels(exips[n := exips[n].(externalIP := ip, localGateway := next)], id, pods, queue,
                         Retarget(tunnels, exips[n].localVpc, target, ip))
  {
  }

  lemma RerouteKeepsRoutes(exips: map<string, GatewayExIp>, id: Word, vpcs: map<Word, seq<Word>>,
                           gateways: map<Word, Gateway>,
                           queue: seq<Event>, n: string, gw: Word, next: Word, ip: Word)
    requires n in exips && next in gateways && exips[n].localGateway == gw && exips[n].localVpc in vpcs
    requires forall m | Local(exips, id, m) && m != n ::
               Local(OtherExIps(exips, id, gw), id, m) && exips[m].localVpc != exips[n].localVpc
    requires RoutesOk(OtherExIps(exips, id, gw), id, vpcs, gateways, queue)
    ensures RoutesOk(exips[n := exips[n].(externalIP := ip, localGateway := next)], id,
                     vpcs[exips[n].localVpc := seq(|vpcs[exips[n].localVpc]|, _ => gateways[next].lanIP)],
                     gateways, queue)
  {
  }

  /** A new primary in the GatewayExIp and in the VPC's tunnels alike. */
  lemma RenameKeepsAgreement(exips: map<string, GatewayExIp>, id: Word, tunnels: map<Key, VpcNatTunnel>, n: string,
                             next: Word, ip: Word)
    requires GatewaysAgree(exips, id, tunnels) && n in exips
    requires forall m | Local(exips, id, m) && m != n :: exips[m].localVpc != exips[n].localVpc
    ensures GatewaysAgree(exips[n := exips[n].(externalIP := ip, localGateway := next)], id,
                          Retarget(tunnels, exips[n].localVpc, Some(next), ip))
  {
    var exips' := exips[n := exips[n].(externalIP := ip, localGateway := next)];
    assert forall m | Local(exips', id, m) :: Local(exips, id, m);
  }

  lemma PromoteKeepsBase(c: Cluster, gw: Word, n: string, next: Word)
    requires Base(c)
    requires n in ExIpsNaming(c, gw) && next in Available(c, gw) && c.exips[n].localVpc in c.vpcs
    ensures Base(Promote(c, n, next))
  {
    hide TunnelsOk, DevicesApart, GatewaysAgree, NamesOk, PrimariesOk, HomesOk;
    AllOtherLocals(c, gw, n);
    PromoteKeepsShape(c, gw, n, next);
    RenameKeepsAgreement(c.exips, c.id, c.tunnels, n, next, c.pods[next].externalIP);
  }

  /** Also when the failover is handled late: what is in the pods does not matter. */
  lemma PromoteKeepsFresh(c: Cluster, gw: Word, n: string, next: Word)
    requires Rooted(c) && FreshBut(c, gw) && PrimariesExistBut(c, gw)
    requires n in ExIpsNaming(c, gw) && next in Available(c, gw) && c.exips[n].localVpc in c.vpcs
    ensures var c' := Promote(c, n, next); Fresh(c') && PrimariesExist(c'.exips, c'.id, c'.gateways, c'.queue)
  {
    hide FreshTunnels, RoutesOk;
    AllOtherLocals(c, gw, n);
    RetargetKeepsFresh(c.exips, c.id, c.pods, c.queue, c.tunnels, n, gw, next, Some(next));
    RerouteKeepsRoutes(c.exips, c.id, c.vpcs, c.gateways, c.queue, n, gw, next, c.pods[next].externalIP);
  }

  lemma PromoteKeepsAgreement(c: Cluster, gw: Word, n: string, next: Word)
    requires Base(c) && FreshBut(c, gw) && PrimariesExistBut(c, gw)
    requires n in ExIpsNaming(c, gw) && next in Available(c, gw) && c.exips[n].localVpc in c.vpcs
    ensures Agreed(Promote(c, n, next))
  {
    hide GatewaysAgree, FreshBut, Fresh, PrimariesExistBut, PrimariesExist, Rooted, Promote;
    PromoteKeepsBase(c, gw, n, next);
    PromoteKeepsFresh(c, gw, n, next);
  }

  /** A new address alone keeps agreement on the gateway. */
  lemma ReaddressKeepsAgreement(exips: map<string, GatewayExIp>, exips': map<string, GatewayExIp>, id: Word,
                                tunnels: map<Key, VpcNatTunnel>, vpc: Word, ip: Word)
    requires GatewaysAgree(exips, id, tunnels)
    requires forall m | Local(exips', id, m) ::
               Local(exips, id, m) && exips'[m].localVpc == exips[m].localVpc
                 && exips'[m].localGateway == exips[m].localGateway
    ensures GatewaysAgree(exips', id, Retarget(tunnels, vpc, None, ip))
  {
  }

  lemma CameUpKeepsBase(c: Cluster, gw: Word, exip: Option<string>)
    requires Base(c) && Picks(ExIpsNaming(c, gw), exip)
    ensures Base(HandleCameUp(c, gw, exip))
  {
    hide TunnelsOk, DevicesApart, GatewaysAgree, NamesOk, PrimariesOk, HomesOk;
    CameUpKeepsShape(c, gw, exip);
    if exip.Some? && gw in c.pods {
      ReaddressKeepsAgreement(c.exips, HandleCameUp(c, gw, exip).exips, c.id, c.tunnels, c.exips[exip.value].localVpc,
                              c.pods[gw].externalIP);
    }
  }

  lemma CameUpKeepsFresh(c: Cluster, gw: Word, n: string)
    requires Rooted(c) && FreshBut(c, gw) && n in ExIpsNaming(c, gw) && gw in c.pods
    requires RoutesOk(c.exips, c.id, c.vpcs, c.gateways, c.queue)
    ensures Fresh(HandleCameUp(c, gw, Some(n)))
  {
    AllOtherLocals(c, gw, n);
    RetargetKeepsFresh(c.exips, c.id, c.pods, c.queue, c.tunnels, n, gw, gw, None);
    hide FreshTunnels;
    var c' := HandleCameUp(c, gw, Some(n));
    assert c'.exips == c.exips[n := c.exips[n].(externalIP := c.pods[gw].externalIP, localGateway := gw)];
    assert forall m | Local(c'.exips, c.id, m) && m != n ::
             Local(OtherExIps(c.exips, c.id, gw), c.id, m) && c'.exips[m] == c.exips[m];
  }

  lemma NotAvailable(c: Cluster, gw: Word)
    requires FreshBut(c, gw) && gw !in c.pods && RoutesOk(c.exips, c.id, c.vpcs, c.gateways, c.queue)
    ensures Fresh(c)
  {
    forall n | Local(c.exips, c.id, n) && c.exips[n].localGateway in c.pods
      ensures Local(OtherExIps(c.exips, c.id, gw), c.id, n)
    {
    }
  }

  lemma CameUpKeepsAgreement(c: Cluster, gw: Word, exip: Option<string>)
    requires Base(c) && FreshBut(c, gw) && PrimariesExist(c.exips, c.id, c.gateways, c.queue)
    requires RoutesOk(c.exips, c.id, c.vpcs, c.gateways, c.queue) && Picks(ExIpsNaming(c, gw), exip)
    ensures Agreed(HandleCameUp(c, gw, exip))
  {
    hide GatewaysAgree, FreshBut, Fresh, RoutesOk, Rooted;
    CameUpKeepsBase(c, gw, exip);
    if exip.None? {
      PrimariesOfOthers(c, gw);
      NotPrimary(c, gw);
    } else if gw !in c.pods {
      NotAvailable(c, gw);
    } else {
      CameUpKeepsFresh(c, gw, exip.value);
      CameUpKeepsPrimaries(c, gw, exip.value);
    }
  }

  lemma PrimariesOfOthers(c: Cluster, gw: Word)
    requires PrimariesExist(c.exips, c.id, c.gateways, c.queue)
    ensures PrimariesExistBut(c, gw)
  {
  }

  lemma CameUpKeepsPrimaries(c: Cluster, gw: Word, n: string)
    requires PrimariesExist(c.exips, c.id, c.gateways, c.queue) && n in ExIpsNaming(c, gw) && gw in c.pods
    ensures var c' := HandleCameUp(c, gw, Some(n)); PrimariesExist(c'.exips, c'.id, c'.gateways, c'.queue)
  {
    var c' := HandleCameUp(c, gw, Some(n));
    assert forall m | Local(c'.exips, c.id, m) ::
             Local(c.exips, c.id, m) && c'.exips[m].localGateway == c.exips[m].localGateway;
  }

  /** The last gateway of a VPC went: its GatewayExIp goes too. */
  lemma RetireKeepsAgreement(c: Cluster, gw: Word, n: string)
    requires Base(c) && FreshBut(c, gw) && PrimariesExistBut(c, gw) && n in ExIpsNaming(c, gw)
    ensures Agreed(c.(exips := c.exips - {n}))
  {
    hide TunnelsOk, DevicesApart, HomesOk;
    RetireKeepsShape(c, n);
    AllOtherLocals(c, gw, n);
    assert forall m | Local(c.exips - {n}, c.id, m) :: Local(c.exips, c.id, m);
  }

  lemma DeletedKeepsAgreement(c: Cluster, gw: Word, exip: Option<string>, next: Option<Word>)
    requires Base(c) && FreshBut(c, gw) && PrimariesExistBut(c, gw)
    requires Picks(ExIpsNaming(c, gw), exip) && Picks(Available(c, gw), next)
    ensures Agreed(HandleDeleted(c, gw, exip, next))
  {
    hide GatewaysAgree, FreshBut, Fresh, PrimariesExistBut, PrimariesExist, Promote;
    if exip.None? {
      NotPrimary(c, gw);
    } else {
      PrimaryIsUnique(c, gw, exip.value);
      if next.None? {
        RetireKeepsAgreement(c, gw, exip.value);
      } else {
        PromoteKeepsAgreement(c, gw, exip.value, next.value);
      }
    }
  }

  lemma WentDownKeepsAgreement(c: Cluster, gw: Word, exip: Option<string>, next: Option<Word>)
    requires Agreed(c) && FreshBut(c, gw) && PrimariesExistBut(c, gw)
    requires Picks(ExIpsNaming(c, gw), exip) && Picks(Available(c, gw) - {gw}, next)
    ensures Agreed(HandleWentDown(c, gw, exip, next))
  {
    hide Base, FreshBut, Fresh, PrimariesExistBut, PrimariesExist, Promote;
    if exip.Some? && c.exips[exip.value].localVpc in c.vpcs && next.Some? {
      PromoteKeepsAgreement(c, gw, exip.value, next.value);
    }
  }

  lemma NewExIpKeepsBase(c: Cluster, name: string, e: GatewayExIp)
    requires Base(c) && name !in c.exips && name == ExIpName(e.localVpc, c.id)
    requires e.localCluster == c.id && DotFree(e.localVpc)
    requires e.localGateway in c.homes && c.homes[e.localGateway] == e.localVpc && e.localVpc in c.vpcs
    requires forall k | k in c.tunnels && Labelled(c.tunnels[k], e.localVpc) ::
               c.tunnels[k].spec.localGw == e.localGateway
    ensures Base(c.(exips := c.exips[name := e]))
  {
    hide TunnelsOk, DevicesApart, HomesOk, NamesOk, PrimariesOk;
    NewExIpKeepsShape(c, name, e);
  }

  /** A new GatewayExIp keeps agreement exactly when the tunnels of its VPC already name gateway and address. */
  lemma AddedExact(c: Cluster, gw: Word, available: bool, cidr: Option<Word>)
    requires Agreed(c)
    ensures Agreed(HandleAdded(c, gw, available, cidr))
       <==> (Creates(c, gw, available, cidr) ==> !OrphanTunnels(c, gw) && !StaleTunnels(c, gw, c.queue))
  {
    CreatesMeans(c, gw, available, cidr);
    if Creates(c, gw, available, cidr) {
      CreatedExact(c, gw, ExIpName(Home(c, gw), c.id),
                   HandleAdded(c, gw, available, cidr).exips[ExIpName(Home(c, gw), c.id)]);
    }
  }

  lemma CreatedExact(c: Cluster, gw: Word, name: string, e: GatewayExIp)
    requires Agreed(c) && gw in c.gateways && gw in c.pods && Home(c, gw) in c.vpcs
    requires name !in c.exips && name == ExIpName(Home(c, gw), c.id)
    requires forall hop | hop in c.vpcs[Home(c, gw)] :: hop == c.gateways[gw].lanIP
    requires e.externalIP == c.pods[gw].externalIP && e.localVpc == Home(c, gw)
    requires e.localGateway == gw && e.localCluster == c.id
    ensures Agreed(c.(exips := c.exips[name := e])) <==> !OrphanTunnels(c, gw) && !StaleTunnels(c, gw, c.queue)
  {
    hide TunnelsOk, DevicesApart;
    var c' := c.(exips := c.exips[name := e]);
    assert c.homes[gw] == Home(c, gw) && DotFree(c.homes[gw]);
    NewExIpKeepsShape(c, name, e);
    assert Local(c'.exips, c.id, name);
    if OrphanTunnels(c, gw) {
      assert !GatewaysAgree(c'.exips, c.id, c'.tunnels);
    } else if StaleTunnels(c, gw, c.queue) {
      assert !FreshTunnels(c'.exips, c.id, c'.pods, c'.queue, c'.tunnels);
    } else {
      hide HomesOk, NamesOk, PrimariesOk;
      NewExIpKeepsBase(c, name, e);
      assert forall n | Local(c'.exips, c.id, n) && n != name :: Local(c.exips, c.id, n) && c'.exips[n] == c.exips[n];
    }
  }

  /** What `Added` does has nothing to do with the events behind it. */
  lemma AddedIgnoresQueue(c: Cluster, queue: seq<Event>, gw: Word, available: bool, cidr: Option<Word>)
    ensures HandleAdded(c.(queue := queue), gw, available, cidr) == HandleAdded(c, gw, available, cidr).(queue := queue)
    ensures Creates(c.(queue := queue), gw, available, cidr) <==> Creates(c, gw, available, cidr)
    ensures OrphanTunnels(c.(queue := queue), gw) <==> OrphanTunnels(c, gw)
    ensures forall q :: StaleTunnels(c.(queue := queue), gw, q) <==> StaleTunnels(c, gw, q)
  {
    assert Home(c.(queue := queue), gw) == Home(c, gw);
  }

  lemma EventAgreementExact(c: Cluster, step: Step)
    requires Agreed(c) && step.HandleEvent? && Enabled(c, step)
    ensures Agreed(Next(c, step)) <==> Orderly(c, step)
  {
    hide Base, Fresh, FreshBut, PrimariesExist, PrimariesExistBut, Agreed, RoutesOk;
    hide HandleAdded, HandleWentDown, HandleCameUp, HandleDeleted, Creates, OrphanTunnels, StaleTunnels;
    var rest := c.(queue := c.queue[1..]);
    var gw := c.queue[0].gw;
    PopKeepsAgreement(c);
    PopKeepsPicks(c, gw);
    match c.queue[0]
    case Added(_, available) =>
      AddedIgnoresQueue(c, rest.queue, gw, available, step.cidr);
      AddedExact(rest, gw, available, step.cidr);
    case WentDown(_) => WentDownKeepsAgreement(rest, gw, step.exip, step.next);
    case CameUp(_) => CameUpKeepsAgreement(rest, gw, step.exip);
    case Deleted(_) => DeletedKeepsAgreement(rest, gw, step.exip, step.next);
  }

  // ----- the broker, users and reconciles -----

  /** What agreement looks at is the same for the tunnels of this cluster's VPCs. */
  lemma SameLocalsKeepFresh(c: Cluster, exips: map<string, GatewayExIp>, tunnels: map<Key, VpcNatTunnel>)
    requires forall n | Local(exips, c.id, n) :: Local(c.exips, c.id, n) && exips[n] == c.exips[n]
    requires forall k | k in tunnels ::
               k in c.tunnels && tunnels[k].labels == c.tunnels[k].labels
                 && tunnels[k].spec.internalIP == c.tunnels[k].spec.internalIP
    ensures Fresh(c) ==> Fresh(c.(exips := exips, tunnels := tunnels))
  {
  }

  lemma RemoteKeepsAgreement(c: Cluster, c': Cluster)
    requires Agreed(c) && RemoteChange(c, c') && Shaped(c')
    ensures Agreed(c')
  {
    hide Shaped, Fresh, NamesOk;
    assert forall k | k in c.tunnels :: SameButRemoteIP(c.tunnels[k], c'.tunnels[k]);
    SameLocalsKeepFresh(c, c'.exips, c'.tunnels);
    assert forall n | Local(c'.exips, c.id, n) :: Local(c.exips, c.id, n);
  }

  /** One object is stored that names, if it is labelled, the primary gateway and its address. */
  lemma PutKeepsFresh(c: Cluster, key: Key, t: VpcNatTunnel)
    requires Fresh(c)
    requires forall n | Local(c.exips, c.id, n) && Labelled(t, c.exips[n].localVpc)
                        && c.exips[n].localGateway in c.pods && !Pending(c.queue, c.exips[n].localGateway) ::
               t.spec.internalIP == c.pods[c.exips[n].localGateway].externalIP
    ensures Fresh(Put(c, key, t))
  {
    hide Pending;
  }

  lemma PutKeepsBase(c: Cluster, key: Key, t: VpcNatTunnel)
    requires Base(c) && TunnelOk(c.homes, key, t)
    requires forall k | k in c.tunnels && k != key && k.name == key.name ::
               c.tunnels[k].spec.localVpc != t.spec.localVpc
    requires forall n | Local(c.exips, c.id, n) && Labelled(t, c.exips[n].localVpc) ::
               t.spec.localGw == c.exips[n].localGateway
    ensures Base(Put(c, key, t))
  {
    hide TunnelsOk, TunnelOk, DevicesApart, Rooted;
    PutKeepsShape(c, key, t);
  }

  /** What a changed object says about gateway and address is what it said before. */
  predicate SaysTheSame(a: VpcNatTunnel, b: VpcNatTunnel) {
    && b.spec.localGw == a.spec.localGw && b.spec.internalIP == a.spec.internalIP && b.spec.localVpc == a.spec.localVpc
    && ("localVpc" in b.labels <==> "localVpc" in a.labels) && LabelOf(b, "localVpc") == LabelOf(a, "localVpc")
  }

  lemma SayingTheSameKeepsAgreement(c: Cluster, key: Key, t: VpcNatTunnel)
    requires Agreed(c) && key in c.tunnels && TunnelOk(c.homes, key, t) && SaysTheSame(c.tunnels[key], t)
    ensures Agreed(Put(c, key, t))
  {
    hide TunnelOk, Rooted, Fresh, Pending;
    DevicesStayApart(c, key);
    PutKeepsBase(c, key, t);
    LabelledTheSame(c.tunnels[key], t);
    FreshSays(c, key);
    PutKeepsFresh(c, key, t);
  }

  lemma LabelledTheSame(a: VpcNatTunnel, b: VpcNatTunnel)
    requires SaysTheSame(a, b)
    ensures forall vpc: Word :: Labelled(b, vpc) <==> Labelled(a, vpc)
  {
  }

  lemma FreshSays(c: Cluster, key: Key)
    requires Fresh(c) && key in c.tunnels
    ensures forall n | Local(c.exips, c.id, n) && Labelled(c.tunnels[key], c.exips[n].localVpc)
                       && c.exips[n].localGateway in c.pods && !Pending(c.queue, c.exips[n].localGateway) ::
              c.tunnels[key].spec.internalIP == c.pods[c.exips[n].localGateway].externalIP
  {
  }

  lemma RemoveKeepsAgreement(c: Cluster, key: Key)
    requires Agreed(c)
    ensures Agreed(c.(tunnels := c.tunnels - {key}))
  {
    hide Rooted, TunnelOk, Pending;
    RemoveKeepsShape(c, key);
  }

  lemma CreateKeepsAgreement(c: Cluster, key: Key, t: VpcNatTunnel)
    requires Agreed(c) && Enabled(c, UserCreates(key, t))
    ensures Agreed(Put(c, key, t))
  {
    hide Rooted, TunnelOk, Pending, Fresh;
    assert "localVpc" in OPERATOR_LABELS;
    UserPutIsOk(c, key, t);
    PutKeepsBase(c, key, t);
    PutKeepsFresh(c, key, t);
  }

  lemma EditKeepsAgreement(c: Cluster, key: Key, t: VpcNatTunnel)
    requires Agreed(c) && Enabled(c, UserEdits(key, t))
    ensures Agreed(Put(c, key, t))
  {
    hide Agreed, TunnelOk;
    assert "localVpc" in OPERATOR_LABELS;
    assert Shaped(c) by { AgreedIsShaped(c); }
    UserPutIsOk(c, key, t);
    SayingTheSameKeepsAgreement(c, key, t);
  }

  lemma AgreedIsShaped(c: Cluster)
    requires Agreed(c)
    ensures Shaped(c)
  {
  }

  lemma UserDeletesKeepsAgreement(c: Cluster, key: Key)
    requires Agreed(c) && key in c.tunnels
    ensures Agreed(Next(c, UserDeletes(key)))
  {
    hide Agreed;
    AgreedIsShaped(c);
    RemoveKeepsAgreement(c, key);
    assert TunnelOk(c.homes, key, c.tunnels[key]);
    SayingTheSameKeepsAgreement(c, key, c.tunnels[key].(deleting := true));
  }

  /**
   What a reconcile stores says the same, or it is a first build and names the primary gateway and its pod's address.
   */
  lemma WriteSays(c: Cluster, key: Key, env: Env, t': VpcNatTunnel)
    requires Shaped(c) && key in c.tunnels && Writes(c, c.tunnels[key], env, t')
    ensures || SaysTheSame(c.tunnels[key], t')
            || (!c.tunnels[key].status.initialized && FindsAll(c, c.tunnels[key], env)
                && Labelled(t', t'.spec.localVpc) && t'.spec.localVpc == c.tunnels[key].spec.localVpc
                && var gw := c.exips[ExIpName(t'.spec.localVpc, c.id)].localGateway;
                   t'.spec.localGw == gw && t'.spec.internalIP == c.pods[gw].externalIP)
  {
    hide Dropped;
    var t := c.tunnels[key];
    assert TunnelOk(c.homes, key, t);
  }

  lemma FirstWriteKeepsAgreement(c: Cluster, key: Key, t': VpcNatTunnel)
    requires Agreed(c) && key in c.tunnels && TunnelOk(c.homes, key, t') && Labelled(t', t'.spec.localVpc)
    requires t'.spec.localVpc == c.tunnels[key].spec.localVpc && DotFree(t'.spec.localVpc)
    requires var n := ExIpName(t'.spec.localVpc, c.id);
             && n in c.exips && c.exips[n].localGateway in c.pods
             && t'.spec.localGw == c.exips[n].localGateway
             && t'.spec.internalIP == c.pods[c.exips[n].localGateway].externalIP
    ensures Agreed(Put(c, key, t'))
  {
    hide TunnelOk, Fresh, Pending, TunnelsOk;
    var n := ExIpName(t'.spec.localVpc, c.id);
    forall m | Local(c.exips, c.id, m) && Labelled(t', c.exips[m].localVpc)
      ensures m == n
    {
    }
    DevicesStayApart(c, key);
    PutKeepsBase(c, key, t');
    PutKeepsFresh(c, key, t');
  }

  lemma AddressesKeepAgreement(c: Cluster, c': Cluster)
    requires Agreed(c) && c' == c.(pods := c'.pods) && SameAddresses(c.pods, c'.pods)
    ensures Agreed(c')
  {
    hide Rooted, TunnelOk, Pending;
    AddressesKeepShape(c, c');
  }

  lemma ReconcileKeepsAgreement(c: Cluster, key: Key, env: Env)
    requires Agreed(c)
    ensures Agreed(ReconcileTunnel(c, key, env).c)
  {
    hide ReconcileTunnel, Writes, Agreed, SameAddresses, SaysTheSame, TunnelOk, FindsAll;
    AgreedIsShaped(c);
    ReconcileWrites(c, key, env);
    var c' := ReconcileTunnel(c, key, env).c;
    if c'.tunnels != c.tunnels {
      if key in c'.tunnels {
        WriteKeepsAgreement(c, key, env, c'.tunnels[key]);
      } else {
        RemoveKeepsAgreement(c, key);
      }
    }
    AddressesKeepAgreement(c.(tunnels := c'.tunnels), c');
  }

  lemma WriteKeepsAgreement(c: Cluster, key: Key, env: Env, t': VpcNatTunnel)
    requires Agreed(c) && key in c.tunnels && Writes(c, c.tunnels[key], env, t')
    ensures Agreed(Put(c, key, t'))
  {
    hide Writes, Agreed, SaysTheSame;
    AgreedIsShaped(c);
    WriteKeepsShape(c, key, env, t');
    WriteSays(c, key, env, t');
    if SaysTheSame(c.tunnels[key], t') {
      SayingTheSameKeepsAgreement(c, key, t');
    } else {
      FirstWriteKeepsAgreement(c, key, t');
    }
  }

  /**
   Every step keeps agreement, whatever fails in the pods and however late events are handled, if and only if
   it is orderly: only a GatewayExIp that is created over tunnels of an earlier primary breaks it.
   */
  lemma StepAgreementExact(c: Cluster, step: Step)
    requires Agreed(c) && Enabled(c, step)
    ensures Agreed(Next(c, step)) <==> Orderly(c, step)
  {
    hide ReconcileTunnel, Propagate, Agreed, Creates, OrphanTunnels, StaleTunnels;
    match step
    case PodDies(_) => EnvironmentKeepsAgreement(c, step);
    case PodReturns(_, _, _) => EnvironmentKeepsAgreement(c, step);
    case GatewayAdded(_, _, _) => EnvironmentKeepsAgreement(c, step);
    case GatewayRemoved(_) => EnvironmentKeepsAgreement(c, step);
    case HandleEvent(_, _, _) => EventAgreementExact(c, step);
    case RemoteSet(_, _) => RemoteStepKeepsAgreement(c, step);
    case RemoteGone(_) => RemoteStepKeepsAgreement(c, step);
    case UserCreates(key, t) => CreateKeepsAgreement(c, key, t);
    case UserEdits(key, t) => EditKeepsAgreement(c, key, t);
    case UserDeletes(key) => UserDeletesKeepsAgreement(c, key);
    case Reconcile(key, env) => ReconcileKeepsAgreement(c, key, env);
  }

  lemma RemoteStepKeepsAgreement(c: Cluster, step: Step)
    requires Agreed(c) && Enabled(c, step) && (step.RemoteSet? || step.RemoteGone?)
    ensures Agreed(Next(c, step))
  {
    hide Agreed, RemoteChange, Shaped, Next;
    AgreedIsShaped(c);
    RemoteStepKeepsShape(c, step);
    RemoteKeepsAgreement(c, Next(c, step));
  }
}
