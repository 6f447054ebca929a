/**
 What every run keeps, also when pod commands fail and addresses come back: every tunnel device on a live pod
 belongs to a tunnel object that still holds its finalizer.
 */
module Safety {
  import opened Api
  import opened Cluster
  import opened Shape

  /** The tunnel may have its device on the pod of this gateway. */
  ghost predicate Owns(exips: map<string, GatewayExIp>, id: Word, homes: map<Word, Word>, t: VpcNatTunnel, gw: Word) {
    && FINALIZER in t.finalizers
    && gw in homes && homes[gw] == t.spec.localVpc
    && (if t.status.initialized then t.spec.localGw == gw
        else ExIpName(t.spec.localVpc, id) in exips && exips[ExIpName(t.spec.localVpc, id)].localGateway == gw)
  }

  ghost predicate HasOwner(c: Cluster, gw: Word, dev: string) {
    exists k :: k in c.tunnels && k.name == dev && Owns(c.exips, c.id, c.homes, c.tunnels[k], gw)
  }

  /** No live pod holds a tunnel device without an owner. */
  ghost predicate NoOrphanDevices(c: Cluster) {
    forall gw, dev | gw in c.pods && dev in c.pods[gw].ns.devs :: HasOwner(c, gw, dev)
  }

  ghost predicate Safe(c: Cluster) {
    Shaped(c) && NoOrphanDevices(c)
  }

  // ----- the steps that keep it -----

  /**
   A failover, or a deleted gateway, while a pod of the VPC other than the new primary's is running with a tunnel
   device on it.
   */
  ghost predicate StaleFailover(c: Cluster, gw: Word, exip: Option<string>, next: Option<Word>) {
    exip.Some? && next.Some? &&
    exists g :: g in c.pods && g != next.value && Home(c, g) == Home(c, gw) && c.pods[g].ns.devs != map[]
  }

  lemma StaleIgnoresQueue(c: Cluster, queue: seq<Event>, gw: Word, exip: Option<string>, next: Option<Word>)
    ensures StaleFailover(c.(queue := queue), gw, exip, next) <==> StaleFailover(c, gw, exip, next)
  {
    var c' := c.(queue := queue);
    assert forall g | g in c.pods :: Home(c', g) == Home(c, g);
    assert Home(c', gw) == Home(c, gw);
  }

  /** No stale failover. */
  ghost predicate Calm(c: Cluster, step: Step)
    requires Enabled(c, step)
  {
    match step
    case HandleEvent(exip, next, _) =>
      c.queue[0].WentDown? || c.queue[0].Deleted? ==> !StaleFailover(c, c.queue[0].gw, exip, next)
    case _ => true
  }

  // ----- pods and gateways come and go -----

  /** Pods and gateways change, and the queue grows. */
  lemma EnvironmentKeepsSafe(c: Cluster, step: Step)
    requires Safe(c) && Enabled(c, step)
    requires (step.PodDies? || step.PodReturns? || step.GatewayAdded? || step.GatewayRemoved?)
    ensures Safe(Next(c, step))
  {
    hide TunnelsOk, DevicesApart;
    var c' := Next(c, step);
    EnvironmentStepKeepsShape(c, step);
    forall gw, dev | gw in c'.pods && dev in c'.pods[gw].ns.devs
      ensures HasOwner(c', gw, dev)
    {
      assert HasOwner(c, gw, dev);
    }
  }

  /** Devices stay, and so do their owners. */
  lemma OwnersStay(c: Cluster, c': Cluster)
    requires NoOrphanDevices(c) && c'.pods == c.pods
    requires forall k, gw | k in c.tunnels && gw in c.pods && k.name in c.pods[gw].ns.devs
             && Owns(c.exips, c.id, c.homes, c.tunnels[k], gw) ::
               k in c'.tunnels && Owns(c'.exips, c'.id, c'.homes, c'.tunnels[k], gw)
    ensures NoOrphanDevices(c')
  {
    forall gw, dev | gw in c'.pods && dev in c'.pods[gw].ns.devs
      ensures HasOwner(c', gw, dev)
    {
      assert HasOwner(c, gw, dev);
      var k :| k in c.tunnels && k.name == dev && Owns(c.exips, c.id, c.homes, c.tunnels[k], gw);
      assert k in c'.tunnels && k.name == dev && Owns(c'.exips, c'.id, c'.homes, c'.tunnels[k], gw);
    }
  }

  // ----- users and the broker -----

  /** One tunnel object changes; what it owned on a live pod it still owns. */
  lemma PutKeepsOwners(c: Cluster, key: Key, t: VpcNatTunnel)
    requires NoOrphanDevices(c)
    requires key in c.tunnels ==>
               forall gw | gw in c.pods && key.name in c.pods[gw].ns.devs
                 && Owns(c.exips, c.id, c.homes, c.tunnels[key], gw) ::
                 Owns(c.exips, c.id, c.homes, t, gw)
    ensures NoOrphanDevices(Put(c, key, t))
  {
    OwnersStay(c, Put(c, key, t));
  }

  /** A tunnel object goes away that owns nothing on a live pod. */
  lemma RemoveKeepsSafe(c: Cluster, key: Key)
    requires Safe(c)
    requires key in c.tunnels ==>
               forall gw | gw in c.pods && Owns(c.exips, c.id, c.homes, c.tunnels[key], gw) ::
                   key.name !in c.pods[gw].ns.devs
    ensures Safe(c.(tunnels := c.tunnels - {key}))
  {
    RemoveKeepsShape(c, key);
    OwnersStay(c, c.(tunnels := c.tunnels - {key}));
  }

  /** GatewayExIps of other clusters come, change and go. */
  lemma RemoteKeepsSafe(c: Cluster, c': Cluster)
    requires Safe(c) && RemoteChange(c, c') && Shaped(c')
    ensures Safe(c')
  {
    hide HomesOk, PrimariesOk, DevicesApart;
    forall k, gw | k in c.tunnels && Owns(c.exips, c.id, c.homes, c.tunnels[k], gw)
      ensures k in c'.tunnels && Owns(c'.exips, c'.id, c'.homes, c'.tunnels[k], gw)
    {
      assert SameButRemoteIP(c.tunnels[k], c'.tunnels[k]);
      if !c.tunnels[k].status.initialized {
        assert TunnelOk(c.homes, k, c.tunnels[k]);
        LocalLookup(c.exips, c.id, c.tunnels[k].spec.localVpc);
      }
    }
    OwnersStay(c, c');
  }

  // ----- the informer's handlers -----

  /** A new GatewayExIp takes no owner away, whatever the tunnels of its VPC name. */
  lemma AddedKeepsSafe(c: Cluster, gw: Word, available: bool, cidr: Option<Word>)
    requires Safe(c)
    ensures Safe(HandleAdded(c, gw, available, cidr))
  {
    hide Shaped;
    AddedKeepsShape(c, gw, available, cidr);
    OwnersStay(c, HandleAdded(c, gw, available, cidr));
  }

  /** All devices of the VPC are on the new primary's pod. */
  lemma PromoteKeepsOwners(c: Cluster, gw: Word, n: string, next: Word)
    requires Shaped(c) && NoOrphanDevices(c)
    requires n in ExIpsNaming(c, gw) && next in Available(c, gw) && c.exips[n].localVpc in c.vpcs
    requires !StaleFailover(c, gw, Some(n), Some(next))
    ensures NoOrphanDevices(Promote(c, n, next))
  {
    hide DevicesApart, NoOrphanDevices;
    PrimaryIsUnique(c, gw, n);
    var c' := Promote(c, n, next);
    forall k, g | k in c.tunnels && g in c.pods && k.name in c.pods[g].ns.devs
                  && Owns(c.exips, c.id, c.homes, c.tunnels[k], g)
      ensures k in c'.tunnels && Owns(c'.exips, c.id, c.homes, c'.tunnels[k], g)
    {
      assert TunnelOk(c.homes, k, c.tunnels[k]);
      assert c.pods[g].ns.devs != map[];
      if !c.tunnels[k].status.initialized {
        LocalLookup(c.exips, c.id, c.tunnels[k].spec.localVpc);
      }
    }
    OwnersStay(c, c');
  }

  /** After a promotion all tunnels of the VPC belong to the new primary: no other pod's device has an owner. */
  lemma PromoteOrphans(c: Cluster, gw: Word, n: string, next: Word, g: Word, dev: string)
    requires Shaped(c)
    requires n in ExIpsNaming(c, gw) && next in Available(c, gw) && c.exips[n].localVpc in c.vpcs
    requires g in c.pods && g != next && Home(c, g) == Home(c, gw)
    ensures !HasOwner(Promote(c, n, next), g, dev)
  {
    hide DevicesApart;
    PrimaryIsUnique(c, gw, n);
    var c' := Promote(c, n, next);
    forall k | k in c'.tunnels
      ensures !Owns(c'.exips, c'.id, c'.homes, c'.tunnels[k], g)
    {
      assert TunnelOk(c.homes, k, c.tunnels[k]);
    }
  }

  lemma PromoteSafeExact(c: Cluster, gw: Word, n: string, next: Word)
    requires Safe(c)
    requires n in ExIpsNaming(c, gw) && next in Available(c, gw) && c.exips[n].localVpc in c.vpcs
    ensures Safe(Promote(c, n, next)) <==> !StaleFailover(c, gw, Some(n), Some(next))
  {
    hide Shaped, Promote, HasOwner;
    PromoteKeepsShape(c, gw, n, next);
    PromoteKeepsPods(c, n, next);
    if StaleFailover(c, gw, Some(n), Some(next)) {
      var g :| g in c.pods && g != next && Home(c, g) == Home(c, gw) && c.pods[g].ns.devs != map[];
      var dev :| dev in c.pods[g].ns.devs;
      PromoteOrphans(c, gw, n, next, g, dev);
    } else {
      PromoteKeepsOwners(c, gw, n, next);
    }
  }

  lemma PromoteKeepsPods(c: Cluster, n: string, next: Word)
    requires n in c.exips && c.exips[n].localVpc in c.vpcs && next in c.pods && next in c.gateways
    ensures Promote(c, n, next).pods == c.pods
  {
  }

  lemma ReaddressKeepsOwners(c: Cluster, c': Cluster, vpc: Word, ip: Word)
    requires NoOrphanDevices(c) && c' == c.(exips := c'.exips, tunnels := Retarget(c.tunnels, vpc, None, ip))
    requires c'.exips.Keys == c.exips.Keys && forall n | n in c.exips ::
               c'.exips[n].localGateway == c.exips[n].localGateway
    ensures NoOrphanDevices(c')
  {
    OwnersStay(c, c');
  }

  lemma CameUpKeepsSafe(c: Cluster, gw: Word, exip: Option<string>)
    requires Safe(c) && Picks(ExIpsNaming(c, gw), exip)
    ensures Safe(HandleCameUp(c, gw, exip))
  {
    hide Shaped, NoOrphanDevices;
    CameUpKeepsShape(c, gw, exip);
    if exip.Some? && gw in c.pods {
      ReaddressKeepsOwners(c, HandleCameUp(c, gw, exip), c.exips[exip.value].localVpc, c.pods[gw].externalIP);
    }
  }

  /** The last gateway of a VPC went: its GatewayExIp goes too. */
  lemma RetireKeepsSafe(c: Cluster, gw: Word, n: string)
    requires Safe(c) && n in ExIpsNaming(c, gw) && Available(c, gw) == {}
    ensures Safe(c.(exips := c.exips - {n}))
  {
    PrimaryIsUnique(c, gw, n);
    RetireKeepsShape(c, n);
    var c' := c.(exips := c.exips - {n});
    assert forall m | Local(c'.exips, c.id, m) :: Local(c.exips, c.id, m);
    forall k, g | k in c.tunnels && g in c.pods && Owns(c.exips, c.id, c.homes, c.tunnels[k], g)
      ensures Owns(c'.exips, c.id, c.homes, c.tunnels[k], g)
    {
      assert g !in Available(c, gw);
      assert TunnelOk(c.homes, k, c.tunnels[k]);
      if !c.tunnels[k].status.initialized {
        LocalLookup(c.exips, c.id, c.tunnels[k].spec.localVpc);
      }
    }
    OwnersStay(c, c');
  }

  lemma FailoverSafeExact(c: Cluster, gw: Word, exip: Option<string>, next: Option<Word>)
    requires Safe(c) && Picks(ExIpsNaming(c, gw), exip)
    ensures Picks(Available(c, gw) - {gw}, next) ==>
              (Safe(HandleWentDown(c, gw, exip, next)) <==> !StaleFailover(c, gw, exip, next))
    ensures Picks(Available(c, gw), next) ==>
              (Safe(HandleDeleted(c, gw, exip, next)) <==> !StaleFailover(c, gw, exip, next))
  {
    hide NoOrphanDevices, Promote, TunnelsOk, DevicesApart;
    if exip.Some? {
      PrimaryIsUnique(c, gw, exip.value);
      if next.Some? && next.value in Available(c, gw) {
        PromoteSafeExact(c, gw, exip.value, next.value);
      } else if Available(c, gw) == {} {
        RetireKeepsSafe(c, gw, exip.value);
      }
    }
  }

  /** What is safe does not depend on what is pending. */
  lemma SafeIgnoresQueue(c: Cluster, queue: seq<Event>)
    requires Safe(c)
    ensures Safe(c.(queue := queue))
  {
    hide Shaped;
    ShapeIgnoresQueue(c, queue);
    OwnersStay(c, c.(queue := queue));
  }
}
