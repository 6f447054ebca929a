/**
 What the informer's handlers do to the record: exactly the stale events break it.
 */
module RecordOfEvents {
  import opened Api
  import opened Cluster
  import opened Shape
  import opened Agreement
  import opened Safety
  import opened Record

  /** Only specs change, and those of tunnels on live pods still name that place. */
  lemma SpecsKeepRecord(tunnels: map<Key, VpcNatTunnel>, tunnels': map<Key, VpcNatTunnel>, pods: map<Word, Pod>)
    requires RecordOk(tunnels, pods) && tunnels'.Keys == tunnels.Keys
    requires forall k | k in tunnels ::
               tunnels'[k].status == tunnels[k].status && tunnels'[k].finalizers == tunnels[k].finalizers
    requires forall k, g | k in tunnels && g in pods && RecordedOn(tunnels[k], g, pods[g]) :: SamePlace(tunnels'[k])
    ensures RecordOk(tunnels', pods)
  {
    hide Holds;
    forall k, g | k in tunnels' && g in pods && RecordedOn(tunnels'[k], g, pods[g])
      ensures RecordedOn(tunnels[k], g, pods[g])
    {
    }
    forall g | g in pods
      ensures PodExact(tunnels', g, pods[g])
    {
      assert PodExact(tunnels, g, pods[g]);
      if Claimed(tunnels, g, pods[g]) {
        var k :| k in tunnels && RecordedOn(tunnels[k], g, pods[g]);
        assert RecordedOn(tunnels'[k], g, pods[g]);
      }
    }
  }

  /**
   A tunnel that is recorded on a pod: its VPC is that of the gateway, its labels say so, and the pod has its device.
   */
  lemma RecordedThere(c: Cluster, k: Key, g: Word)
    requires Shaped(c) && Accurate(c) && k in c.tunnels && g in c.pods && RecordedOn(c.tunnels[k], g, c.pods[g])
    ensures forall vpc: Word :: Labelled(c.tunnels[k], vpc) <==> Home(c, g) == vpc
    ensures c.pods[g].ns.devs != map[] && SamePlace(c.tunnels[k])
  {
    hide Rooted, DevicesApart;
    assert TunnelOk(c.homes, k, c.tunnels[k]);
    assert PodExact(c.tunnels, g, c.pods[g]);
    HoldsHasDevice(c.pods[g].ns, k.name, c.tunnels[k].status);
  }

  /** A pod with a device is some tunnel's recorded pod. */
  lemma DeviceIsRecorded(c: Cluster, g: Word) returns (k: Key)
    requires Accurate(c) && g in c.pods && c.pods[g].ns.devs != map[]
    ensures k in c.tunnels && RecordedOn(c.tunnels[k], g, c.pods[g])
  {
    assert PodExact(c.tunnels, g, c.pods[g]);
    k :| k in c.tunnels && RecordedOn(c.tunnels[k], g, c.pods[g]);
  }

  /** All that the VPC's tunnels have on live pods is where they are pointed. */
  lemma RetargetKeepsRecord(c: Cluster, vpc: Word, gw: Option<Word>, ip: Word)
    requires Shaped(c) && Accurate(c)
    requires forall g | g in c.pods && Home(c, g) == vpc && c.pods[g].ns.devs != map[] ::
               c.pods[g].externalIP == ip && (gw.Some? ==> g == gw.value)
    ensures RecordOk(Retarget(c.tunnels, vpc, gw, ip), c.pods)
  {
    hide Shaped, RecordOk, Home;
    var tunnels' := Retarget(c.tunnels, vpc, gw, ip);
    forall k, g | k in c.tunnels && g in c.pods && RecordedOn(c.tunnels[k], g, c.pods[g])
      ensures SamePlace(tunnels'[k])
    {
      RecordedThere(c, k, g);
    }
    SpecsKeepRecord(c.tunnels, tunnels', c.pods);
  }

  // ----- promotion -----

  lemma PromoteKeepsRecord(c: Cluster, gw: Word, n: string, next: Word)
    requires Shaped(c) && Accurate(c)
    requires n in ExIpsNaming(c, gw) && next in Available(c, gw) && c.exips[n].localVpc in c.vpcs
    requires !StaleFailover(c, gw, Some(n), Some(next))
    ensures Accurate(Promote(c, n, next))
  {
    hide RecordOk, TunnelsOk, DevicesApart, Retarget;
    PrimaryIsUnique(c, gw, n);
    RetargetKeepsRecord(c, c.exips[n].localVpc, Some(next), c.pods[next].externalIP);
  }

  /** A stale failover breaks trust: the tunnel on the running pod is pointed elsewhere. */
  lemma StalePromoteBreaksTrust(c: Cluster, gw: Word, n: string, next: Word)
    requires Shaped(c) && Accurate(c)
    requires n in ExIpsNaming(c, gw) && next in Available(c, gw) && c.exips[n].localVpc in c.vpcs
    requires StaleFailover(c, gw, Some(n), Some(next))
    ensures !Accurate(Promote(c, n, next))
  {
    PrimaryIsUnique(c, gw, n);
    hide Shaped, RecordOk;
    var g :| g in c.pods && g != next && Home(c, g) == Home(c, gw) && c.pods[g].ns.devs != map[];
    var k := DeviceIsRecorded(c, g);
    RecordedThere(c, k, g);
    var c' := Promote(c, n, next);
    assert RecordedOn(c'.tunnels[k], g, c'.pods[g]) && c'.tunnels[k].spec.localGw == next;
    MistrustBreaks(c', k, g);
  }

  lemma MistrustBreaks(c: Cluster, k: Key, g: Word)
    requires k in c.tunnels && g in c.pods && RecordedOn(c.tunnels[k], g, c.pods[g]) && !SamePlace(c.tunnels[k])
    ensures !Accurate(c)
  {
    hide Exact;
  }

  lemma PromoteExact(c: Cluster, gw: Word, n: string, next: Word)
    requires Shaped(c) && Accurate(c)
    requires n in ExIpsNaming(c, gw) && next in Available(c, gw) && c.exips[n].localVpc in c.vpcs
    ensures Accurate(Promote(c, n, next)) <==> !StaleFailover(c, gw, Some(n), Some(next))
  {
    hide Shaped, Accurate, Promote, StaleFailover;
    if StaleFailover(c, gw, Some(n), Some(next)) {
      StalePromoteBreaksTrust(c, gw, n, next);
    } else {
      PromoteKeepsRecord(c, gw, n, next);
    }
  }

  /** A failover or a deleted gateway keeps the record exactly when the event is not stale. */
  lemma FailoverExact(c: Cluster, gw: Word, exip: Option<string>, next: Option<Word>)
    requires Shaped(c) && Accurate(c) && Picks(ExIpsNaming(c, gw), exip)
    ensures Picks(Available(c, gw) - {gw}, next) ==>
              (Accurate(HandleWentDown(c, gw, exip, next)) <==> !StaleFailover(c, gw, exip, next))
    ensures Picks(Available(c, gw), next) ==>
              (Accurate(HandleDeleted(c, gw, exip, next)) <==> !StaleFailover(c, gw, exip, next))
  {
    hide RecordOk, Promote, TunnelsOk, DevicesApart;
    if exip.Some? {
      PrimaryIsUnique(c, gw, exip.value);
      if next.Some? && next.value in Available(c, gw) {
        PromoteExact(c, gw, exip.value, next.value);
      }
    }
  }

  // ----- a restart of the primary -----

  lemma CameUpKeepsRecord(c: Cluster, gw: Word, exip: Option<string>)
    requires Shaped(c) && Accurate(c) && Picks(ExIpsNaming(c, gw), exip) && !Readdressed(c, gw, exip)
    ensures Accurate(HandleCameUp(c, gw, exip))
  {
    hide RecordOk, TunnelsOk, DevicesApart, Retarget;
    if exip.Some? && gw in c.pods {
      PrimaryIsUnique(c, gw, exip.value);
      RetargetKeepsRecord(c, c.exips[exip.value].localVpc, None, c.pods[gw].externalIP);
    }
  }

  /** The tunnel on the running pod gets the address of another one. */
  lemma ReaddressedBreaksTrust(c: Cluster, gw: Word, exip: Option<string>)
    requires Shaped(c) && Accurate(c) && Picks(ExIpsNaming(c, gw), exip) && Readdressed(c, gw, exip)
    ensures !Accurate(HandleCameUp(c, gw, exip))
  {
    PrimaryIsUnique(c, gw, exip.value);
    hide Shaped, RecordOk;
    var g :| g in c.pods && Home(c, g) == Home(c, gw) && c.pods[g].ns.devs != map[]
             && c.pods[g].externalIP != c.pods[gw].externalIP;
    var k := DeviceIsRecorded(c, g);
    RecordedThere(c, k, g);
    var c' := HandleCameUp(c, gw, exip);
    assert RecordedOn(c'.tunnels[k], g, c'.pods[g]) && c'.tunnels[k].spec.internalIP == c.pods[gw].externalIP;
    MistrustBreaks(c', k, g);
  }

  /**
   Handling a restart keeps the record exactly when no other pod of the VPC carries a device under another address.
   */
  lemma CameUpExact(c: Cluster, gw: Word, exip: Option<string>)
    requires Shaped(c) && Accurate(c) && Picks(ExIpsNaming(c, gw), exip)
    ensures Accurate(HandleCameUp(c, gw, exip)) <==> !Readdressed(c, gw, exip)
  {
    hide Shaped, Accurate, Readdressed, HandleCameUp;
    if Readdressed(c, gw, exip) {
      ReaddressedBreaksTrust(c, gw, exip);
    } else {
      CameUpKeepsRecord(c, gw, exip);
    }
  }

  /** In states where gateways agree, all devices of a VPC are on its primary's pod: no restart breaks the record. */
  lemma AgreedIsNotReaddressed(c: Cluster, gw: Word, exip: Option<string>)
    requires Base(c) && Accurate(c) && Picks(ExIpsNaming(c, gw), exip)
    ensures !Readdressed(c, gw, exip)
  {
    hide Rooted, DevicesApart, TunnelsOk;
    if Readdressed(c, gw, exip) {
      PrimaryIsUnique(c, gw, exip.value);
      var g :| g in c.pods && Home(c, g) == Home(c, gw) && c.pods[g].ns.devs != map[]
               && c.pods[g].externalIP != c.pods[gw].externalIP;
      var k := DeviceIsRecorded(c, g);
      RecordedThere(c, k, g);
      assert false;
    }
  }
}
