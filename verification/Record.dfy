/**
 Status as an exact record of what the pods hold.

 The reconciler never looks into a pod. These invariants say when its trust in Status is justified;
 `KeepsRecord` says which steps keep it so, and `Steps.StepRecordExact` that these are exactly the ones.
 */
module Record {
  import opened Api
  import opened Netns
  import opened TunnelCommands
  import opened TunnelLifecycle
  import opened Cluster
  import opened Shape
  import opened Agreement
  import opened Peers
  import opened Safety

  /** A tunnel that has been built and not been deleted. */
  predicate Recorded(t: VpcNatTunnel) {
    t.status.initialized && FINALIZER in t.finalizers
  }

  /** The tunnel's Status names this pod incarnation. */
  predicate RecordedOn(t: VpcNatTunnel, gw: Word, pod: Pod) {
    Recorded(t) && t.status.localGw == gw && t.status.internalIP == pod.externalIP
  }

  /** The namespace holds the device, the two routes and the rule that derive from the status, and nothing else. */
  predicate Holds(ns: NetNs, name: string, st: TunnelStatus) {
    && st.globalEgressIP != [] && st.globalnetCIDR != st.remoteGlobalnetCIDR
    && name in ns.devs
    && (ns.devs[name].kind.Vxlan? <==> IsVxlan(st.typ))
    && ns == Built(EMPTY, name, ns.devs[name].kind, st)
  }

  /** Some tunnel's Status names this incarnation. */
  ghost predicate Claimed(tunnels: map<Key, VpcNatTunnel>, gw: Word, pod: Pod) {
    exists k :: k in tunnels && RecordedOn(tunnels[k], gw, pod)
  }

  /** A live pod holds what the Status naming it derives, and nothing if none does. */
  ghost predicate PodExact(tunnels: map<Key, VpcNatTunnel>, gw: Word, pod: Pod) {
    && (forall k | k in tunnels && RecordedOn(tunnels[k], gw, pod) :: Holds(pod.ns, k.name, tunnels[k].status))
    && (pod.ns != EMPTY ==> Claimed(tunnels, gw, pod))
  }

  ghost predicate Exact(tunnels: map<Key, VpcNatTunnel>, pods: map<Word, Pod>) {
    forall gw | gw in pods :: PodExact(tunnels, gw, pods[gw])
  }

  /** While the recorded incarnation lives, Spec names it too. */
  ghost predicate Trust(tunnels: map<Key, VpcNatTunnel>, pods: map<Word, Pod>) {
    forall k, gw | k in tunnels && gw in pods && RecordedOn(tunnels[k], gw, pods[gw]) :: SamePlace(tunnels[k])
  }

  ghost predicate RecordOk(tunnels: map<Key, VpcNatTunnel>, pods: map<Word, Pod>) {
    Exact(tunnels, pods) && Trust(tunnels, pods)
  }

  ghost predicate Accurate(c: Cluster) {
    RecordOk(c.tunnels, c.pods)
  }

  ghost predicate Inv(c: Cluster) {
    Agreed(c) && Peered(c) && Accurate(c)
  }

  // ----- exactly which steps keep it -----

  /** The pod comes back with an address that a tunnel's Status still records for its gateway. */
  ghost predicate ReusedAddress(c: Cluster, gw: Word, ip: Word) {
    exists k :: k in c.tunnels && Recorded(c.tunnels[k]) && c.tunnels[k].status.localGw == gw
      && c.tunnels[k].status.internalIP == ip
  }

  predicate Reaches(c: Cluster, gw: Word, t: VpcNatTunnel) {
    gw in c.pods && RecordedOn(t, gw, c.pods[gw])
  }

  /** The delete command does not fit the recorded device: Type was edited from vxlan to something else. */
  predicate WrongDelete(t: VpcNatTunnel) {
    IsVxlan(t.status.typ) && !IsVxlan(t.spec.typ)
  }

  /** The connection breaks before the first operation of the exec. */
  predicate NeverStarts(env: Env, i: nat) {
    FaultOf(env, i) == CutAfter(0)
  }

  /** No connection breaks in these execs. */
  predicate Unbroken(env: Env, i: nat, n: nat) {
    forall j | i <= j < n :: FaultOf(env, j) == Healthy
  }

  /**
   Of the statements that run before the connection breaks, none of those that delete the status's in-flow route
   and its SNAT rule finds anything in the namespace.
   */
  predicate Unharmed(ns: NetNs, st: TunnelStatus, fault: Fault) {
    && (fault != CutAfter(0) ==> !(st.globalnetCIDR in ns.routes && ns.routes[st.globalnetCIDR] == InFlow(st)))
    && (fault.Healthy? || fault.n > 2 ==> st.globalEgressIP != [] ==> Snat(st) !in ns.rules)
  }

  /**
   The guards of the branch that a reconcile takes, on the state before it. Where the branch works in the pod that
   Status names, the connection has to hold from the first exec to the last, or not to come about at all. Where it
   builds in another one, that pod has to be empty, too; and where it takes down in another one, what that pod
   holds for another tunnel has to differ from what is deleted.
   */
  predicate BenignReconcile(c: Cluster, key: Key, env: Env) {
    key in c.tunnels ==>
      var t := c.tunnels[key];
      if t.deleting then
        FINALIZER in t.finalizers && t.status.localGw in c.pods ==>
          if Reaches(c, t.status.localGw, t) then NeverStarts(env, 0) || (Unbroken(env, 0, 2) && !WrongDelete(t))
          else Unharmed(c.pods[t.status.localGw].ns, t.status, FaultOf(env, 0))
      else if !t.status.initialized then
        FindsAll(c, t, env) ==>
          NeverStarts(env, 0) ||
          (&& Unbroken(env, 0, 2) && env.egressIP.value != []
           && env.globalnetCIDR.value != c.exips[RemoteName(t)].globalNetCIDR
           && c.pods[c.exips[ExIpName(t.spec.localVpc, c.id)].localGateway].ns == EMPTY)
      else
        RemoteName(t) in c.exips && Rebuilds(c, t, c.exips[RemoteName(t)]) ==>
          BenignUpdate(c, t, c.exips[RemoteName(t)], env)
  }

  /** The update reaches a pod and gets past the early returns. */
  predicate Rebuilds(c: Cluster, t: VpcNatTunnel, remote: GatewayExIp) {
    && Outdated(t, remote) && t.status.typ == t.spec.typ
    && !(t.spec.localGw == "" && t.spec.remoteIP == "" && t.spec.internalIP == "")
    && t.spec.localGw in c.pods
  }

  predicate BenignUpdate(c: Cluster, t: VpcNatTunnel, remote: GatewayExIp, env: Env)
    requires t.spec.localGw in c.pods
  {
    var pod := c.pods[t.spec.localGw];
    if !SamePlace(t) then
      NeverStarts(env, 2) ||
      (&& Unbroken(env, 2, 4) && t.status.globalnetCIDR != remote.globalNetCIDR
       && pod.externalIP == t.spec.internalIP && pod.ns == EMPTY)
    else if Reaches(c, t.spec.localGw, t) then
      NeverStarts(env, 0) || (Unbroken(env, 0, 4) && t.status.globalnetCIDR != remote.globalNetCIDR)
    else Unharmed(pod.ns, t.status, FaultOf(env, 0))
  }

  /**
   A restart of the primary is handled, and a pod of the VPC with another address is running with a tunnel device
   on it.
   */
  ghost predicate Readdressed(c: Cluster, gw: Word, exip: Option<string>) {
    exip.Some? && gw in c.pods &&
    exists g :: g in c.pods && Home(c, g) == Home(c, gw) && c.pods[g].ns.devs != map[]
                && c.pods[g].externalIP != c.pods[gw].externalIP
  }

  /** The steps that keep the record; everything is a guard on the state before the step. */
  ghost predicate KeepsRecord(c: Cluster, step: Step)
    requires Enabled(c, step)
  {
    match step
    case PodReturns(gw, ip, _) => !ReusedAddress(c, gw, ip)
    case GatewayAdded(gw, _, pod) => pod.Some? ==> !ReusedAddress(c, gw, pod.value.0)
    case HandleEvent(exip, next, _) =>
      (match c.queue[0]
       case Added(_, _) => true
       case WentDown(gw) => !StaleFailover(c, gw, exip, next)
       case CameUp(gw) => !Readdressed(c, gw, exip)
       case Deleted(gw) => !StaleFailover(c, gw, exip, next))
    case Reconcile(key, env) => BenignReconcile(c, key, env)
    case _ => true
  }

  ghost predicate Benign(c: Cluster, step: Step)
    requires Enabled(c, step)
  {
    Orderly(c, step) && KeepsRecord(c, step)
  }

  // ----- what the record says about a pod -----

  /** A pod that no Status names holds nothing. */
  lemma UnrecordedPodIsEmpty(c: Cluster, gw: Word)
    requires Accurate(c) && gw in c.pods
    ensures c.pods[gw].ns == EMPTY <==> !Claimed(c.tunnels, gw, c.pods[gw])
  {
    hide Trust;
    assert PodExact(c.tunnels, gw, c.pods[gw]);
    assert forall k: Key, st | k.name in EMPTY.devs :: !Holds(EMPTY, k.name, st);
  }

  /** At most one tunnel is recorded on a pod, for each would be all that the pod holds. */
  lemma OthersNotHere(c: Cluster, key: Key, gw: Word)
    requires Shaped(c) && Accurate(c) && key in c.tunnels && gw in c.pods && RecordedOn(c.tunnels[key], gw, c.pods[gw])
    ensures forall k | k in c.tunnels && k != key :: !RecordedOn(c.tunnels[k], gw, c.pods[gw])
  {
    hide Trust, Rooted;
    assert PodExact(c.tunnels, gw, c.pods[gw]);
    forall k | k in c.tunnels && k != key
      ensures !RecordedOn(c.tunnels[k], gw, c.pods[gw])
    {
      assert TunnelOk(c.homes, k, c.tunnels[k]) && TunnelOk(c.homes, key, c.tunnels[key]);
      assert key.name in c.pods[gw].ns.devs && c.pods[gw].ns.devs.Keys == {key.name};
    }
  }

  /** What the record says implies that every device has its owner. */
  lemma AccurateIsSafe(c: Cluster)
    requires Shaped(c) && Accurate(c)
    ensures Safe(c)
  {
    hide Rooted, DevicesApart;
    forall gw, dev | gw in c.pods && dev in c.pods[gw].ns.devs
      ensures HasOwner(c, gw, dev)
    {
      assert PodExact(c.tunnels, gw, c.pods[gw]);
      var k :| k in c.tunnels && RecordedOn(c.tunnels[k], gw, c.pods[gw]);
      assert TunnelOk(c.homes, k, c.tunnels[k]);
      assert k.name == dev && Owns(c.exips, c.id, c.homes, c.tunnels[k], gw);
    }
  }

  /** A built namespace has its device. */
  lemma HoldsHasDevice(ns: NetNs, name: string, st: TunnelStatus)
    requires Holds(ns, name, st)
    ensures ns.devs.Keys == {name} && ns != EMPTY && ns.devs != map[]
  {
  }

  // ----- pods come and go -----

  lemma PodsKeepRecord(tunnels: map<Key, VpcNatTunnel>, pods: map<Word, Pod>, pods': map<Word, Pod>)
    requires RecordOk(tunnels, pods)
    requires forall g | g in pods' :: (g in pods && pods'[g] == pods[g])
                                      || (pods'[g].ns == EMPTY && forall k | k in tunnels ::
                                          !RecordedOn(tunnels[k], g, pods'[g]))
    ensures RecordOk(tunnels, pods')
  {
    hide Holds;
  }

  /** A pod comes up: its namespace is empty, so no Status may name it yet. */
  lemma PodUpExact(c: Cluster, gw: Word, ip: Word, ovnGw: Word)
    requires Accurate(c) && gw !in c.pods
    ensures RecordOk(c.tunnels, c.pods[gw := Pod(ip, ovnGw, EMPTY)]) <==> !ReusedAddress(c, gw, ip)
  {
    var pods := c.pods[gw := Pod(ip, ovnGw, EMPTY)];
    if ReusedAddress(c, gw, ip) {
      var k :| k in c.tunnels && Recorded(c.tunnels[k]) && c.tunnels[k].status.localGw == gw
        && c.tunnels[k].status.internalIP == ip;
      assert RecordedOn(c.tunnels[k], gw, pods[gw]);
      assert !Holds(EMPTY, k.name, c.tunnels[k].status);
      assert !PodExact(c.tunnels, gw, pods[gw]);
    } else {
      PodsKeepRecord(c.tunnels, c.pods, pods);
    }
  }

  // ----- objects change that are not built or taken down -----

  /** Nothing that the record looks at differs. */
  predicate SameRecord(a: VpcNatTunnel, b: VpcNatTunnel) {
    && b.status == a.status && (Recorded(a) <==> Recorded(b))
    && b.spec.internalIP == a.spec.internalIP && b.spec.localGw == a.spec.localGw
  }

  lemma SameStatusKeepsRecord(tunnels: map<Key, VpcNatTunnel>, tunnels': map<Key, VpcNatTunnel>, pods: map<Word, Pod>)
    requires Exact(tunnels, pods) && Trust(tunnels, pods)
    requires forall k | k in tunnels' && Recorded(tunnels'[k]) :: k in tunnels && SameRecord(tunnels[k], tunnels'[k])
    requires forall k | k in tunnels && Recorded(tunnels[k]) :: k in tunnels' && SameRecord(tunnels[k], tunnels'[k])
    ensures Exact(tunnels', pods) && Trust(tunnels', pods)
  {
    hide Holds;
    forall gw | gw in pods
      ensures PodExact(tunnels', gw, pods[gw])
    {
      assert PodExact(tunnels, gw, pods[gw]);
      if Claimed(tunnels, gw, pods[gw]) {
        var k :| k in tunnels && RecordedOn(tunnels[k], gw, pods[gw]);
        assert RecordedOn(tunnels'[k], gw, pods[gw]);
      }
    }
  }

  lemma PutKeepsRecord(c: Cluster, key: Key, t: VpcNatTunnel)
    requires Accurate(c)
    requires if key in c.tunnels then SameRecord(c.tunnels[key], t) else !Recorded(t)
    ensures Accurate(Put(c, key, t))
  {
    hide Exact, Trust;
    SameStatusKeepsRecord(c.tunnels, c.tunnels[key := t], c.pods);
  }

  lemma RemoveKeepsRecord(c: Cluster, key: Key)
    requires Accurate(c) && key in c.tunnels && !Recorded(c.tunnels[key])
    ensures Accurate(c.(tunnels := c.tunnels - {key}))
  {
    hide Exact, Trust;
    SameStatusKeepsRecord(c.tunnels, c.tunnels - {key}, c.pods);
  }

  lemma RemoteKeepsRecord(c: Cluster, c': Cluster)
    requires Accurate(c) && RemoteChange(c, c')
    ensures Accurate(c')
  {
    hide NamesOk, Exact, Trust;
    assert forall k | k in c.tunnels :: SameButRemoteIP(c.tunnels[k], c'.tunnels[k]);
    SameStatusKeepsRecord(c.tunnels, c'.tunnels, c.pods);
  }
}
