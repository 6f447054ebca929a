/**
 Recovery from the loss of a primary gateway: the failover, and the reconciles that it causes, end with the tunnel
 standing on a standby.
 */
module Recovery {
  import opened Api
  import opened Netns
  import opened Cluster
  import opened Shape
  import opened GatewayEffects
  import opened Safety
  import opened Record
  import opened RecordOfUpdate
  import opened Steps
  import opened Convergence

  /** No running pod of the VPC has anything in it. */
  ghost predicate Bare(c: Cluster, vpc: Word) {
    forall g | g in c.pods && g in c.homes && c.homes[g] == vpc :: c.pods[g].ns == EMPTY
  }

  /** A built tunnel whose peer is known and has another CIDR. */
  predicate Rebuildable(c: Cluster, key: Key) {
    && key in c.tunnels && c.tunnels[key].status.initialized && !c.tunnels[key].deleting
    && RemoteName(c.tunnels[key]) in c.exips
    && c.tunnels[key].status.globalnetCIDR != c.exips[RemoteName(c.tunnels[key])].globalNetCIDR
  }

  /** Where the tunnel is meant to be, whether or not it is there yet. */
  ghost predicate AimsAt(c: Cluster, key: Key, gw: Word, ip: Word) {
    && key in c.tunnels && c.tunnels[key].spec.localGw == gw && c.tunnels[key].spec.internalIP == ip
  }

  // ----- reconciles -----

  /** A reconcile of a built tunnel does not move it. */
  lemma ReconcileKeepsAim(c: Cluster, key: Key, env: Env, gw: Word, ip: Word)
    requires AimsAt(c, key, gw, ip) && c.tunnels[key].status.initialized && !c.tunnels[key].deleting
    requires key in ReconcileTunnel(c, key, env).c.tunnels
    ensures var c' := ReconcileTunnel(c, key, env).c;
            AimsAt(c', key, gw, ip) && c'.tunnels[key].status.initialized && !c'.tunnels[key].deleting
  {
    hide ReconcileTunnel, SameAddresses;
    ReconcileWrites(c, key, env);
  }

  /** Nor do repeated ones; after two there is no work left. */
  lemma {:induction false} RepeatSettles(c: Cluster, key: Key, env: Env, n: nat, gw: Word, ip: Word)
    requires Shaped(c) && Accurate(c) && Resolvable(c, key, env) && AimsAt(c, key, gw, ip)
    requires c.tunnels[key].status.initialized && Work(c, key) <= n
    ensures var c' := Repeat(c, key, env, n);
            && Shaped(c') && Accurate(c') && Resolvable(c', key, env) && AimsAt(c', key, gw, ip) && Work(c', key) == 0
    decreases n
  {
    hide ReconcileTunnel, Shaped, Accurate, Outdated, Unbroken, BenignReconcile;
    if n > 0 {
      var r := ReconcileTunnel(c, key, env);
      NoWorkIsRest(c, key, env);
      if Work(c, key) > 0 {
        WorkingReconcile(c, key, env);
        ReconcileKeepsAim(c, key, env, gw, ip);
      }
      ResolvableIsBenign(c, key, env);
      ReconcileExact(c, key, env);
      ReconcileKeepsShape(c, key, env);
      RepeatSettles(r.c, key, env, n - 1, gw, ip);
    }
  }

  // ----- failover -----

  /** Once a standby has taken over, the tunnel is to be built there, and can be. */
  lemma TakenOverIsResolvable(c: Cluster, c': Cluster, n: string, next: Word, key: Key, env: Env)
    requires Shaped(c) && Local(c.exips, c.id, n) && TakenOver(c, c', n, next) && Rebuildable(c, key)
    requires c.tunnels[key].spec.localVpc == c.exips[n].localVpc && c.pods[next].ns == EMPTY && Unbroken(env, 0, 4)
    ensures Resolvable(c', key, env) && AimsAt(c', key, next, c.pods[next].externalIP)
    ensures c'.tunnels[key].status == c.tunnels[key].status
  {
    hide Unbroken, Rooted, DevicesApart;
    assert TunnelOk(c.homes, key, c.tunnels[key]);
    assert OfVpc(c.tunnels[key], c.exips[n].localVpc);
    assert RemoteName(c'.tunnels[key]) == RemoteName(c.tunnels[key]);
  }

  /** With nothing in any running pod, the failover is not late. */
  lemma BareIsNotStale(c: Cluster, step: Step, n: string)
    requires Shaped(c) && Enabled(c, step) && step.HandleEvent? && (c.queue[0].WentDown? || c.queue[0].Deleted?)
    requires Local(c.exips, c.id, n) && c.exips[n].localGateway == c.queue[0].gw && Bare(c, c.exips[n].localVpc)
    ensures KeepsRecord(c, step)
  {
    hide TunnelsOk, DevicesApart, NamesOk;
    assert Home(c, c.queue[0].gw) == c.exips[n].localVpc;
    assert forall g | g in c.pods :: g in c.homes && Home(c, g) == c.homes[g];
    assert EMPTY.devs == map[];
  }

  /**
   Recovery: the primary of a VPC is lost or deleted while its tunnel is built, another gateway of the VPC is
   available, and no running pod of the VPC has anything in it. Then handling that event and two reconciles whose
   connections hold leave the tunnel built on a standby: Status names its gateway and its pod's address, the pod holds
   exactly what Status says, and further reconciles change nothing.
   */
  lemma FailoverRebuilds(c: Cluster, step: Step, n: string, standby: Word, key: Key, env: Env)
    requires Shaped(c) && Accurate(c) && Enabled(c, step) && step.HandleEvent?
    requires c.queue[0].Deleted? || (c.queue[0].WentDown? && standby != c.queue[0].gw)
    requires Local(c.exips, c.id, n) && c.exips[n].localGateway == c.queue[0].gw
    requires Standby(c, c.exips[n].localVpc, standby) && Bare(c, c.exips[n].localVpc)
    requires Rebuildable(c, key) && c.tunnels[key].spec.localVpc == c.exips[n].localVpc && Unbroken(env, 0, 4)
    ensures var after := Repeat(Next(c, step), key, env, 2);
            && AtRest(after, key, env)
            && exists next :: Standby(c, c.exips[n].localVpc, next) &&
                 key in after.tunnels && next in after.pods
                 && after.tunnels[key].status.localGw == next
                 && after.tunnels[key].status.internalIP == c.pods[next].externalIP
                 && Holds(after.pods[next].ns, key.name, after.tunnels[key].status)
  {
    hide Next, Shaped, Accurate, TakenOver, Standby, KeepsRecord, Resolvable, Holds, ReconcileTunnel, Unbroken;
    var c' := Next(c, step);
    BareIsNotStale(c, step, n);
    StepRecordExact(c, step);
    StepKeepsShape(c, step);
    if c.queue[0].WentDown? {
      WentDownMeans(c, step, n);
    } else {
      DeletedMeans(c, step, n);
    }
    var next := step.next.value;
    assert Standby(c, c.exips[n].localVpc, next) && TakenOver(c, c', n, next);
    Settled(c, c', n, next, key, env);
  }

  lemma Settled(c: Cluster, c': Cluster, n: string, next: Word, key: Key, env: Env)
    requires Shaped(c) && Shaped(c') && Accurate(c') && Local(c.exips, c.id, n) && TakenOver(c, c', n, next)
    requires Standby(c, c.exips[n].localVpc, next) && Bare(c, c.exips[n].localVpc)
    requires Rebuildable(c, key) && c.tunnels[key].spec.localVpc == c.exips[n].localVpc && Unbroken(env, 0, 4)
    ensures var after := Repeat(c', key, env, 2);
            && AtRest(after, key, env) && key in after.tunnels && next in after.pods
            && after.tunnels[key].status.localGw == next
            && after.tunnels[key].status.internalIP == c.pods[next].externalIP
            && Holds(after.pods[next].ns, key.name, after.tunnels[key].status)
  {
    hide Shaped, Accurate, TakenOver, Holds, ReconcileTunnel, Unbroken, AtRest;
    TakenOverIsResolvable(c, c', n, next, key, env);
    RepeatSettles(c', key, env, 2, next, c.pods[next].externalIP);
    var after := Repeat(c', key, env, 2);
    RestIsBuilt(after, key, env);
    NoWorkIsRest(after, key, env);
  }
}
