/**
 What a reconcile makes of the tunnel object, field by field, and which commands it sends, in which order and with
 which writes after them.
 */
module TunnelEffects {
  import opened Api
  import opened Finalizers
  import opened TunnelCommands
  import opened TunnelLifecycle
  import opened Cluster
  import opened Shape

  // ----- finalizers -----

  /** Finalizers of others are what they were. */
  ghost predicate ForeignKept(was: seq<string>, now: seq<string>) {
    forall f | f != "tunnel.finalizer.ustc.io" :: multiset(now)[f] == multiset(was)[f]
  }

  /** The object has a finalizer that is not the operator's. */
  ghost predicate HeldByOthers(t: VpcNatTunnel) {
    exists f :: f in t.finalizers && f != "tunnel.finalizer.ustc.io"
  }

  lemma {:induction false} DroppedCounts(finalizers: seq<string>, f: string)
    ensures multiset(Dropped(finalizers, f)) == multiset(finalizers)[f := 0]
  {
    if finalizers != [] {
      DroppedCounts(finalizers[1..], f);
      assert finalizers == [finalizers[0]] + finalizers[1..];
    }
  }

  /** Dropping the operator's finalizer removes the object exactly when it has no other. */
  lemma DropMeans(c: Cluster, key: Key, t: VpcNatTunnel)
    requires key in c.tunnels
    ensures var after := DropFinalizer(c, key, t).tunnels;
            && (key in after <==> HeldByOthers(t))
            && (key in after ==>
                  && "tunnel.finalizer.ustc.io" !in after[key].finalizers
                  && ForeignKept(t.finalizers, after[key].finalizers)
                  && after == c.tunnels[key := t.(finalizers := after[key].finalizers)])
            && (key !in after ==> after == c.tunnels - {key})
  {
    DroppedHasNone(t.finalizers, FINALIZER);
    DroppedCounts(t.finalizers, FINALIZER);
    var rest := Dropped(t.finalizers, FINALIZER);
    if HeldByOthers(t) {
      var f :| f in t.finalizers && f != FINALIZER;
      assert f in rest;
    }
    assert rest != [] ==> rest[0] in rest;
  }

  // ----- commands -----

  /**
   The commands are sent to the gateway's pod one after the other, the next one only after a success: all of them, or
   up to the first that fails.
   */
  ghost predicate Sends(log: seq<Effect>, gw: Word, plan: seq<string>, all: bool) {
    && |log| <= |plan| && (if all then |log| == |plan| else log != [])
    && forall i | 0 <= i < |log| :: log[i] == Exec(gw, plan[i], all || i < |log| - 1)
  }

  /** Of the pods, at most what is in this one differs. */
  predicate OnlyIn(pods: map<Word, Pod>, pods': map<Word, Pod>, gw: Word) {
    gw in pods && gw in pods' && pods' == pods[gw := pods[gw].(ns := pods'[gw].ns)]
  }

  lemma OnlyInStays(pods: map<Word, Pod>, gw: Word)
    requires gw in pods
    ensures OnlyIn(pods, pods, gw)
  {
    assert pods[gw := pods[gw]] == pods;
  }

  lemma OnlyInComposes(a: map<Word, Pod>, b: map<Word, Pod>, c: map<Word, Pod>, gw: Word)
    requires OnlyIn(a, b, gw) && OnlyIn(b, c, gw)
    ensures OnlyIn(a, c, gw)
  {
  }

  lemma ExecBothSends(c: Cluster, gw: Word, first: string, second: string, env: Env, i: nat)
    requires gw in c.pods
    ensures var r := ExecBoth(c, gw, first, second, env, i);
            && Sends(r.log, gw, [first, second], r.outcome == Done) && !r.outcome.Panicked?
            && r.c == c.(pods := r.c.pods) && OnlyIn(c.pods, r.c.pods, gw)
  {
    hide RunText;
  }

  /** What was sent after what had been sent before. */
  lemma SendsMore(a: seq<Effect>, b: seq<Effect>, gw: Word, first: seq<string>, second: seq<string>, all: bool)
    requires Sends(a, gw, first, true) && Sends(b, gw, second, all)
    ensures Sends(a + b, gw, first + second, all)
  {
  }

  /** A plan that is not completed may be part of a longer one. */
  lemma SendsLess(a: seq<Effect>, gw: Word, first: seq<string>, second: seq<string>)
    requires Sends(a, gw, first, false)
    ensures Sends(a, gw, first + second, false)
  {
  }

  /** Commands after these first effects, and, once all of them have succeeded, these last ones. */
  ghost predicate Traces(log: seq<Effect>, before: seq<Effect>, gw: Word, plan: seq<string>, all: bool,
                         after: seq<Effect>) {
    exists sent :: Sends(sent, gw, plan, all) && log == before + sent + if all then after else []
  }

  // ----- deletion -----

  /**
   Deletion, in any state: without the operator's finalizer there is nothing to do, and with no pod running at the
   recorded gateway it fails and does nothing. Otherwise the routes are deleted before the device, both with what
   Status records, in the recorded gateway's pod; the operator's finalizer is dropped after both succeeded, and only
   then, and the object goes exactly if it has no other finalizer.
   */
  lemma DeletionMeans(c: Cluster, key: Key, env: Env)
    requires key in c.tunnels && c.tunnels[key].deleting
    ensures var t := c.tunnels[key]; var gw := t.status.localGw; var r := ReconcileTunnel(c, key, env);
            if "tunnel.finalizer.ustc.io" !in t.finalizers then r == Reconciled(c, Done, [])
            else if gw !in c.pods then r == Reconciled(c, Failed, [])
            else if t.status.globalEgressIP == [] then r == Reconciled(c, Panicked, [])
            else
              && r.c == c.(pods := r.c.pods, tunnels := r.c.tunnels) && OnlyIn(c.pods, r.c.pods, gw)
              && !r.outcome.Panicked?
              && Traces(r.log, [], gw, [GenDelGlobalnetRoute(key.name, t.status), DeleteCmd(key.name, t.spec.typ)],
                        r.outcome == Done, [WriteObject(key)])
              && if r.outcome != Done then r.c.tunnels == c.tunnels
                 else if !HeldByOthers(t) then r.c.tunnels == c.tunnels - {key}
                 else
                   && key in r.c.tunnels && "tunnel.finalizer.ustc.io" !in r.c.tunnels[key].finalizers
                   && ForeignKept(t.finalizers, r.c.tunnels[key].finalizers)
                   && r.c.tunnels == c.tunnels[key := t.(finalizers := r.c.tunnels[key].finalizers)]
  {
    hide ExecBoth, GenDelGlobalnetRoute, DeleteCmd, DropFinalizer, HeldByOthers, ForeignKept, Sends, OnlyIn;
    var t := c.tunnels[key];
    var gw := t.status.localGw;
    if FINALIZER in t.finalizers && gw in c.pods && t.status.globalEgressIP != [] {
      var first, second := GenDelGlobalnetRoute(key.name, t.status), DeleteCmd(key.name, t.spec.typ);
      ExecBothSends(c, gw, first, second, env, 0);
      var r := ExecBoth(c, gw, first, second, env, 0);
      DropMeans(r.c, key, t);
      DropKeepsRest(r.c, key, t);
      assert ReconcileTunnel(c, key, env).log == [] + r.log + if r.outcome == Done then [WriteObject(key)] else [];
    }
  }

  lemma DropKeepsRest(c: Cluster, key: Key, t: VpcNatTunnel)
    ensures DropFinalizer(c, key, t) == c.(tunnels := DropFinalizer(c, key, t).tunnels)
  {
  }

  // ----- create and update -----

  /** The finalizer is stored before anything else is done. */
  function Storing(t: VpcNatTunnel, key: Key): seq<Effect> {
    if "tunnel.finalizer.ustc.io" in t.finalizers then [] else [WriteObject(key)]
  }

  /** The object with the finalizer, after those it had. */
  function Holding(t: VpcNatTunnel): VpcNatTunnel {
    if "tunnel.finalizer.ustc.io" in t.finalizers then t
    else t.(finalizers := t.finalizers + ["tunnel.finalizer.ustc.io"])
  }

  /** What a first build finds is recorded, and copied to Spec and labels; other labels stay. */
  ghost predicate BuiltFrom(c: Cluster, t: VpcNatTunnel, env: Env, t': VpcNatTunnel) {
    var local, remote := t.spec.localVpc + "." + c.id, t.spec.remoteVpc + "." + t.spec.remoteCluster;
    && local in c.exips && remote in c.exips && env.globalnetCIDR.Some? && env.egressIP.Some?
    && var gw := c.exips[local].localGateway;
       && gw in c.pods
       && t'.status.initialized && t'.status.localGw == gw
       && t'.status.internalIP == c.pods[gw].externalIP && t'.status.ovnGwIP == c.pods[gw].ovnGw
       && t'.status.remoteIP == c.exips[remote].externalIP
       && t'.status.remoteGlobalnetCIDR == c.exips[remote].globalNetCIDR
       && t'.status.globalnetCIDR == env.globalnetCIDR.value && t'.status.globalEgressIP == env.egressIP.value
       && t'.status.interfaceAddr == t.spec.interfaceAddr && t'.status.typ == t.spec.typ
       && t'.spec == t.spec.(localGw := gw, internalIP := c.pods[gw].externalIP, remoteIP := c.exips[remote].externalIP)
       && t'.labels == t.labels[
                         "localVpc" := t.spec.localVpc][
                         "remoteVpc" := t.spec.remoteVpc][
                         "remoteCluster" := t.spec.remoteCluster]
       && t'.finalizers == t.finalizers && t'.deleting == t.deleting
  }

  /** All lookups of a first build succeed. */
  predicate AllFound(c: Cluster, t: VpcNatTunnel, env: Env) {
    var local, remote := t.spec.localVpc + "." + c.id, t.spec.remoteVpc + "." + t.spec.remoteCluster;
    && local in c.exips && remote in c.exips && c.exips[local].localGateway in c.pods
    && env.globalnetCIDR.Some? && env.egressIP.Some?
  }

  /**
   First build, in any state: if something is not found it fails, and at most the finalizer is stored. Otherwise the
   device is created before the routes, both from what will be recorded, in the pod of the gateway that the local
   GatewayExIp names; it is recorded after both succeeded, and only then. With no egress address there is a panic once
   the device is there.
   */
  lemma FirstBuildMeans(c: Cluster, key: Key, env: Env)
    requires key in c.tunnels && !c.tunnels[key].deleting && !c.tunnels[key].status.initialized
    ensures var t := c.tunnels[key]; var r := ReconcileTunnel(c, key, env);
            && r.c == c.(pods := r.c.pods, tunnels := r.c.tunnels)
            && if !AllFound(c, t, env) then
                 r == Reconciled(c.(tunnels := c.tunnels[key := Holding(t)]), Failed, Storing(t, key))
               else
                 var gw := c.exips[t.spec.localVpc + "." + c.id].localGateway;
                 && OnlyIn(c.pods, r.c.pods, gw)
                 && exists t' :: BuiltFrom(c, Holding(t), env, t') &&
                      var create := CreateCmd(key.name, t.spec.typ, t'.status, t.labels);
                      if t'.status.globalEgressIP == [] then
                        && r.outcome != Done && r.c.tunnels == c.tunnels[key := Holding(t)]
                        && Traces(r.log, Storing(t, key), gw, [create], r.outcome == Panicked, [])
                      else
                        && r.outcome != Panicked
                        && r.c.tunnels == c.tunnels[key := if r.outcome == Done then t' else Holding(t)]
                        && Traces(r.log, Storing(t, key), gw, [create, GenGlobalnetRoute(key.name, t'.status)],
                                  r.outcome == Done, [WriteStatus(key), WriteObject(key)])
  {
    hide ExecBoth, ExecIn, CreateCmd, GenGlobalnetRoute, Update, Sends, OnlyIn;
    var t := c.tunnels[key];
    var t1 := Holding(t);
    var c1 := if FINALIZER in t.finalizers then c else Put(c, key, t1);
    assert t1 == WithFinalizer(t) && c1.tunnels == c.tunnels[key := t1];
    if RemoteName(t) in c.exips {
      FirstBuildSends(c1, key, t1, env);
      if AllFound(c, t, env) {
        SameFirstStatus(c, c1, t, t1, env);
        FirstRecordIsBuilt(c, t1, env);
      }
    }
  }

  lemma FirstBuildSends(c: Cluster, key: Key, t: VpcNatTunnel, env: Env)
    requires RemoteName(t) in c.exips
    ensures var r := FirstBuild(c, key, t, c.exips[RemoteName(t)], env);
            && r.c == c.(pods := r.c.pods, tunnels := r.c.tunnels)
            && if !FindsAll(c, t, env) then r == Reconciled(c, Failed, [])
               else
                 var gw, st := c.exips[ExIpName(t.spec.localVpc, c.id)].localGateway, FirstStatusIn(c, t, env);
                 var create := CreateCmd(key.name, t.spec.typ, st, t.labels);
                 OnlyIn(c.pods, r.c.pods, gw) &&
                 if st.globalEgressIP == [] then
                   && r.outcome != Done && r.c.tunnels == c.tunnels
                   && Traces(r.log, [], gw, [create], r.outcome == Panicked, [])
                 else
                   && r.outcome != Panicked
                   && r.c.tunnels == (if r.outcome == Done then
                        c.tunnels[key := FirstRecord(t, c.exips[RemoteName(t)], st)] else c.tunnels)
                   && Traces(r.log, [], gw, [create, GenGlobalnetRoute(key.name, st)], r.outcome == Done,
                             [WriteStatus(key), WriteObject(key)])
  {
    hide RunText, ExecBoth, CreateCmd, GenGlobalnetRoute, FirstRecord, WithLabels;
    if FindsAll(c, t, env) {
      var gw, st := c.exips[ExIpName(t.spec.localVpc, c.id)].localGateway, FirstStatusIn(c, t, env);
      var create := CreateCmd(key.name, t.spec.typ, st, t.labels);
      var r := FirstBuild(c, key, t, c.exips[RemoteName(t)], env);
      if st.globalEgressIP == [] {
        assert Sends(r.log, gw, [create], r.outcome == Panicked);
        assert r.log == [] + r.log + [];
      } else {
        ExecBothSends(c, gw, create, GenGlobalnetRoute(key.name, st), env, 0);
        var sent := ExecBoth(c, gw, create, GenGlobalnetRoute(key.name, st), env, 0).log;
        assert r.log == [] + sent + if r.outcome == Done then [WriteStatus(key), WriteObject(key)] else [];
      }
    }
  }

  lemma FirstRecordIsBuilt(c: Cluster, t: VpcNatTunnel, env: Env)
    requires FindsAll(c, t, env)
    ensures BuiltFrom(c, t, env, FirstRecord(t, c.exips[RemoteName(t)], FirstStatusIn(c, t, env)))
  {
  }

  /**
   An update records what Spec and the peer's GatewayExIp say, and leaves what only a first build finds as it was, and
   all the rest of the object.
   */
  ghost predicate UpdatedFrom(t: VpcNatTunnel, remote: GatewayExIp, t': VpcNatTunnel) {
    && t'.status.localGw == t.spec.localGw && t'.status.internalIP == t.spec.internalIP
    && t'.status.remoteIP == t.spec.remoteIP && t'.status.interfaceAddr == t.spec.interfaceAddr
    && t'.status.remoteGlobalnetCIDR == remote.globalNetCIDR
    && t'.status.initialized && t'.status.typ == t.status.typ && t'.status.ovnGwIP == t.status.ovnGwIP
    && t'.status.globalnetCIDR == t.status.globalnetCIDR && t'.status.globalEgressIP == t.status.globalEgressIP
    && t'.spec == t.spec && t'.labels == t.labels && t'.finalizers == t.finalizers && t'.deleting == t.deleting
  }

  /** Status says what Spec and the peer's GatewayExIp say. */
  predicate UpToDate(t: VpcNatTunnel, remote: GatewayExIp) {
    && t.status.localGw == t.spec.localGw && t.status.internalIP == t.spec.internalIP
    && t.status.remoteIP == t.spec.remoteIP && t.status.interfaceAddr == t.spec.interfaceAddr
    && t.status.remoteGlobalnetCIDR == remote.globalNetCIDR
  }

  /** What is sent where the tunnel stands already: routes and device are deleted with what Status records. */
  function TakingDown(t: VpcNatTunnel, key: Key): seq<string>
    requires t.status.globalEgressIP != []
  {
    if t.status.localGw == t.spec.localGw && t.status.internalIP == t.spec.internalIP then
      [GenDelGlobalnetRoute(key.name, t.status), DeleteCmd(key.name, t.status.typ)]
    else []
  }

  /**
   The reconcile of a built tunnel: an edited Type is put back and nothing else is done; where Status is up to date,
   nothing is done. Otherwise, in the pod of the gateway that Spec names, what stands there is taken down, the device
   is created, and the routes, in this order; Status is recorded after all of them succeeded, and only then.
   */
  lemma UpdateMeans(c: Cluster, key: Key, env: Env)
    requires Shaped(c) && key in c.tunnels && !c.tunnels[key].deleting && c.tunnels[key].status.initialized
    ensures var t := c.tunnels[key]; var r := ReconcileTunnel(c, key, env);
            var name := t.spec.remoteVpc + "." + t.spec.remoteCluster;
            var kept := c.(tunnels := c.tunnels[key := Holding(t)]);
            && t.status.globalEgressIP != [] && r.c == c.(pods := r.c.pods, tunnels := r.c.tunnels)
            && if name !in c.exips then r == Reconciled(kept, Failed, Storing(t, key))
               else if t.status.typ != t.spec.typ then
                 r == Reconciled(Put(c, key, Holding(t).(spec := t.spec.(typ := t.status.typ))), Done,
                                 Storing(t, key) + [WriteObject(key)])
               else if UpToDate(t, c.exips[name]) then r == Reconciled(kept, Done, Storing(t, key))
               else if t.spec.localGw !in c.pods then r == Reconciled(kept, Failed, Storing(t, key))
               else
                 exists t' :: UpdatedFrom(Holding(t), c.exips[name], t')
                   && r.outcome != Panicked && OnlyIn(c.pods, r.c.pods, t.spec.localGw)
                   && r.c.tunnels == c.tunnels[key := if r.outcome == Done then t' else Holding(t)]
                   && Traces(r.log, Storing(t, key), t.spec.localGw,
                             TakingDown(t, key) + [CreateCmd(key.name, t.status.typ, t'.status, t.labels),
                                                   GenGlobalnetRoute(key.name, t'.status)],
                             r.outcome == Done, [WriteStatus(key)])
  {
    hide ExecBoth, ExecIn, CreateCmd, GenGlobalnetRoute, GenDelGlobalnetRoute, DeleteCmd, Clear, Rebuild, FirstBuild,
         Sends, DevicesApart, TunnelsOk, SameAddresses, OnlyIn;
    var t := c.tunnels[key];
    TunnelIsOk(c, key);
    var t1 := Holding(t);
    var c1 := if FINALIZER in t.finalizers then c else Put(c, key, t1);
    assert t1 == WithFinalizer(t) && c1.tunnels == c.tunnels[key := t1];
    if RemoteName(t) in c.exips && t.status.typ == t.spec.typ && t.spec.localGw in c.pods {
      UpdateSends(c1, key, t1, c.exips[RemoteName(t)], env);
    }
  }

  lemma UpdateSends(c: Cluster, key: Key, t: VpcNatTunnel, remote: GatewayExIp, env: Env)
    requires t.spec.localGw in c.pods && t.status.typ == t.spec.typ && t.status.globalEgressIP != []
    requires t.spec.localGw != "" && LabelsCurrent(t) && t.status.initialized
    ensures var r := Update(c, key, t, remote, env);
            && r.c == c.(pods := r.c.pods, tunnels := r.c.tunnels) && r.outcome != Panicked
            && UpdatedFrom(t, remote, Updated(t, remote)) && OnlyIn(c.pods, r.c.pods, t.spec.localGw)
            && r.c.tunnels == (if r.outcome == Done then c.tunnels[key := Updated(t, remote)] else c.tunnels)
            && Traces(r.log, [], t.spec.localGw,
                      TakingDown(t, key) + [CreateCmd(key.name, t.status.typ, Updated(t, remote).status, t.labels),
                                            GenGlobalnetRoute(key.name, Updated(t, remote).status)],
                      r.outcome == Done, [WriteStatus(key)])
  {
    hide CreateCmd, GenGlobalnetRoute, Sends, Rebuild, Clear, Update, TakingDown, OnlyIn, Updated, NextStatus,
         UpdatedFrom;
    UpdatedIsFrom(t, remote);
    var gw := t.spec.localGw;
    var up := [CreateCmd(key.name, t.spec.typ, NextStatus(t, remote), t.labels),
               GenGlobalnetRoute(key.name, NextStatus(t, remote))];
    ClearSends(c, key, t, env);
    UpdateComposes(c, key, t, remote, env);
    var cleared, r := Clear(c, key, t, env), Update(c, key, t, remote, env);
    if cleared.outcome == Done {
      var rest := RebuildSends(cleared.c, key, t, remote, env);
      OnlyInComposes(c.pods, cleared.c.pods, r.c.pods, gw);
      SendsMore(cleared.log, rest, gw, TakingDown(t, key), up, r.outcome == Done);
      assert r.log == [] + (cleared.log + rest) + if r.outcome == Done then [WriteStatus(key)] else [];
    } else {
      SendsLess(cleared.log, gw, TakingDown(t, key), up);
      assert r.log == [] + cleared.log + [];
    }
  }

  lemma UpdatedIsFrom(t: VpcNatTunnel, remote: GatewayExIp)
    requires LabelsCurrent(t) && t.status.initialized
    ensures UpdatedFrom(t, remote, Updated(t, remote)) && Updated(t, remote).status == NextStatus(t, remote)
    ensures NextStatus(t, remote).globalEgressIP == t.status.globalEgressIP
  {
  }

  /** What stands at the same place is taken down, and nothing is done otherwise. */
  lemma ClearSends(c: Cluster, key: Key, t: VpcNatTunnel, env: Env)
    requires t.spec.localGw in c.pods && t.status.typ == t.spec.typ && t.status.globalEgressIP != []
    ensures var cleared := Clear(c, key, t, env);
            && cleared.c == c.(pods := cleared.c.pods) && t.spec.localGw in cleared.c.pods
            && cleared.outcome != Panicked && OnlyIn(c.pods, cleared.c.pods, t.spec.localGw)
            && Sends(cleared.log, t.spec.localGw, TakingDown(t, key), cleared.outcome == Done)
  {
    hide ExecBoth, GenDelGlobalnetRoute, DeleteCmd, OnlyIn;
    OnlyInStays(c.pods, t.spec.localGw);
    if SamePlace(t) {
      var unroute, delete := GenDelGlobalnetRoute(key.name, t.status), DeleteCmd(key.name, t.spec.typ);
      ExecBothSends(c, t.spec.localGw, unroute, delete, env, 0);
    }
  }

  lemma UpdateComposes(c: Cluster, key: Key, t: VpcNatTunnel, remote: GatewayExIp, env: Env)
    requires t.spec.localGw in c.pods && t.status.typ == t.spec.typ && t.spec.localGw != ""
    requires var cleared := Clear(c, key, t, env); cleared.outcome == Done ==> t.spec.localGw in cleared.c.pods
    ensures var cleared := Clear(c, key, t, env); var r := Update(c, key, t, remote, env);
            if cleared.outcome != Done then r == cleared
            else
              var rebuilt := Rebuild(cleared.c, key, t, remote, env);
              r.c == rebuilt.c && r.outcome == rebuilt.outcome && r.log == cleared.log + rebuilt.log
  {
    hide Clear, Rebuild;
  }

  lemma RebuildSends(c: Cluster, key: Key, t: VpcNatTunnel, remote: GatewayExIp, env: Env) returns (sent: seq<Effect>)
    requires t.spec.localGw in c.pods && t.status.globalEgressIP != [] && LabelsCurrent(t)
    ensures var r := Rebuild(c, key, t, remote, env);
            && r.c == c.(pods := r.c.pods, tunnels := r.c.tunnels) && r.outcome != Panicked
            && OnlyIn(c.pods, r.c.pods, t.spec.localGw)
            && r.c.tunnels == (if r.outcome == Done then c.tunnels[key := Updated(t, remote)] else c.tunnels)
            && Sends(sent, t.spec.localGw, [CreateCmd(key.name, t.spec.typ, NextStatus(t, remote), t.labels),
                                            GenGlobalnetRoute(key.name, NextStatus(t, remote))], r.outcome == Done)
            && r.log == sent + if r.outcome == Done then [WriteStatus(key)] else []
  {
    hide RunText, ExecBoth, CreateCmd, GenGlobalnetRoute, Sends, OnlyIn;
    var st := NextStatus(t, remote);
    var first, second := CreateCmd(key.name, t.spec.typ, st, t.labels), GenGlobalnetRoute(key.name, st);
    ExecBothSends(c, t.spec.localGw, first, second, env, 2);
    sent := ExecBoth(c, t.spec.localGw, first, second, env, 2).log;
  }

  // ----- finalizers, whatever fails -----

  /**
   Whatever fails, a reconcile keeps the finalizers of others on every object, and with one of them the object. The
   operator's own is there afterwards, unless the object is being deleted.
   */
  lemma ReconcileKeepsFinalizers(c: Cluster, reconciled: Key, env: Env, key: Key)
    requires key in c.tunnels
    ensures var t := c.tunnels[key]; var after := ReconcileTunnel(c, reconciled, env).c.tunnels;
            && (HeldByOthers(t) ==> key in after)
            && (key in after ==> ForeignKept(t.finalizers, after[key].finalizers))
            && (reconciled == key && !t.deleting ==>
                  key in after && "tunnel.finalizer.ustc.io" in after[key].finalizers)
  {
    hide ReconcileTunnel, SameAddresses, Writes, HeldByOthers, ForeignKept, Traces;
    var t := c.tunnels[key];
    ForeignStays(t.finalizers);
    ReconcileWrites(c, reconciled, env);
    if reconciled == key {
      if t.deleting {
        DeletionMeans(c, key, env);
      } else {
        CreateOrUpdateHolds(c, key, env);
      }
    }
  }

  lemma ForeignStays(finalizers: seq<string>)
    ensures ForeignKept(finalizers, finalizers)
    ensures ForeignKept(finalizers, finalizers + ["tunnel.finalizer.ustc.io"])
  {
  }

  /** What is stored for an object that is not being deleted has the finalizers it had, and the operator's. */
  lemma CreateOrUpdateHolds(c: Cluster, key: Key, env: Env)
    requires key in c.tunnels && !c.tunnels[key].deleting
    ensures var after := ReconcileTunnel(c, key, env).c.tunnels;
            key in after && after[key].finalizers == Holding(c.tunnels[key]).finalizers
  {
    hide FirstBuild, Update, SameAddresses, FirstStatus, NextStatus;
    var t1 := WithFinalizer(c.tunnels[key]);
    var c1 := if FINALIZER in c.tunnels[key].finalizers then c else Put(c, key, t1);
    if RemoteName(t1) in c.exips {
      UpdateWrites(c1, key, t1, c.exips[RemoteName(t1)], env);
      FirstBuildWrites(c1, key, t1, env);
    }
  }
}
