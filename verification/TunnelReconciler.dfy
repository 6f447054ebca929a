/**
 The reconciler of VpcNatTunnels as it runs: it fetches an object, changes its fields one by one between
 commands and writes, and proves to do what `Cluster.ReconcileTunnel` says.
 */
module TunnelReconciler {
  import opened Api
  import opened Finalizers
  import opened TunnelCommands
  import opened TunnelLifecycle
  import opened Cluster
  import Spec = Cluster

  /** A fetched VpcNatTunnel. */
  class TunnelObject {
    var spec: TunnelSpec
    var status: TunnelStatus
    var labels: map<string, Word>
    var finalizers: seq<string>
    const deleting: bool

    constructor (t: VpcNatTunnel)
      ensures Value() == t
    {
      spec, status, labels, finalizers, deleting := t.spec, t.status, t.labels, t.finalizers, t.deleting;
    }

    function Value(): VpcNatTunnel
      reads this
    {
      VpcNatTunnel(spec, status, labels, finalizers, deleting)
    }
  }

  lemma LabelsInAnyOrder(t: VpcNatTunnel)
    ensures var labels := t.labels["remoteCluster" := t.spec.remoteCluster]["remoteVpc" := t.spec.remoteVpc];
            labels["localVpc" := t.spec.localVpc] == WithLabels(t)
  {
    var a, b, c := "localVpc", "remoteCluster", "remoteVpc";
    assert a != b && b != c && a != c;
  }

  lemma LabelsIgnoreStatus(t: VpcNatTunnel, st: TunnelStatus)
    ensures LabelsCurrent(t.(status := st)) == LabelsCurrent(t) && WithLabels(t.(status := st)) == WithLabels(t)
  {
  }

  class VpcNatTunnelReconciler {
    var c: Cluster
    ghost var log: seq<Effect>

    constructor (c: Cluster)
      ensures this.c == c && log == []
    {
      this.c := c;
      log := [];
    }

    /** execCommandInPod, lines 74-120 */
    method ExecCommandInPod(gw: Word, text: string, fault: Fault) returns (ok: bool)
      requires gw in c.pods
      modifies this
      ensures c == ExecIn(old(c), gw, text, fault).c && ok == ExecIn(old(c), gw, text, fault).ok
      ensures log == old(log) + [Exec(gw, text, ok)]
    {
      var r := RunText(c.pods[gw].ns, text, fault);
      c := c.(pods := c.pods[gw := c.pods[gw].(ns := r.ns)]);
      ok := r.ok;
      log := log + [Exec(gw, text, ok)];
    }

    /** One command after the other; the second is only run when the first was clean. */
    method ExecBothInPod(gw: Word, first: string, second: string, env: Env, i: nat) returns (ok: bool)
      requires gw in c.pods
      modifies this
      ensures var r := ExecBoth(old(c), gw, first, second, env, i);
              c == r.c && r.outcome == (if ok then Done else Failed) && log == old(log) + r.log
      ensures gw in c.pods && c == old(c).(pods := c.pods)
    {
      hide RunText;
      ok := ExecCommandInPod(gw, first, FaultOf(env, i));
      if ok {
        ok := ExecCommandInPod(gw, second, FaultOf(env, i + 1));
      }
    }

    /**
     Client.Update stores everything but the status, which is a subresource; the answer overwrites the object.
     A deleted object without finalizers is removed.
     */
    method UpdateObject(key: Key, t: TunnelObject)
      requires key in c.tunnels
      modifies this, t`status
      ensures t.status == old(c).tunnels[key].status
      ensures c == if t.deleting && t.finalizers == [] then old(c).(tunnels := old(c).tunnels - {key})
              else Put(old(c), key, t.Value())
      ensures log == old(log) + [WriteObject(key)]
    {
      t.status := c.tunnels[key].status;
      if t.deleting && t.finalizers == [] {
        c := c.(tunnels := c.tunnels - {key});
      } else {
        c := c.(tunnels := c.tunnels[key := t.Value()]);
      }
      log := log + [WriteObject(key)];
    }

    /** Status().Update stores the status and nothing else; the answer overwrites the object. */
    method UpdateStatus(key: Key, t: TunnelObject)
      requires key in c.tunnels && t.deleting == c.tunnels[key].deleting
      modifies this, t`spec, t`labels, t`finalizers
      ensures t.Value() == old(c).tunnels[key].(status := old(t.status)) && c == Put(old(c), key, t.Value())
      ensures log == old(log) + [WriteStatus(key)]
    {
      var stored := c.tunnels[key];
      t.spec, t.labels, t.finalizers := stored.spec, stored.labels, stored.finalizers;
      c := c.(tunnels := c.tunnels[key := t.Value()]);
      log := log + [WriteStatus(key)];
    }

    /** Reconcile, lines 61-72 */
    method Reconcile(key: Key, env: Env) returns (outcome: Outcome)
      modifies this
      ensures var r := ReconcileTunnel(old(c), key, env); c == r.c && outcome == r.outcome && log == old(log) + r.log
    {
      if key !in c.tunnels {
        return Done;
      }
      var t := new TunnelObject(c.tunnels[key]);
      hide Spec.HandleDelete, Spec.HandleCreateOrUpdate;
      if t.deleting {
        outcome := HandleDelete(key, t, env);
      } else {
        outcome := HandleCreateOrUpdate(key, t, env);
      }
    }

    /** handleDelete, lines 407-436 */
    method HandleDelete(key: Key, t: TunnelObject, env: Env) returns (outcome: Outcome)
      requires key in c.tunnels && t.Value() == c.tunnels[key] && t.deleting
      modifies this, t
      ensures var r := Spec.HandleDelete(old(c), key, env); c == r.c && outcome == r.outcome && log == old(log) + r.log
    {
      hide ExecBoth, GenDelGlobalnetRoute, DeleteCmd;
      var stored := ContainsString(t.finalizers, FINALIZER);
      if stored {
        var gw := t.status.localGw;
        if gw !in c.pods {
          return Failed;
        }
        if t.status.globalEgressIP == [] {
          return Panicked;
        }
        var ok := ExecBothInPod(gw, GenDelGlobalnetRoute(key.name, t.status), DeleteCmd(key.name, t.spec.typ), env, 0);
        if !ok {
          return Failed;
        }
        t.finalizers := Dropped(t.finalizers, FINALIZER);
        UpdateObject(key, t);
      }
      return Done;
    }

    /** handleCreateOrUpdate, lines 227-405 */
    method HandleCreateOrUpdate(key: Key, t: TunnelObject, env: Env) returns (outcome: Outcome)
      requires key in c.tunnels && t.Value() == c.tunnels[key] && !t.deleting
      modifies this, t
      ensures var r := Spec.HandleCreateOrUpdate(old(c), key, env);
              c == r.c && outcome == r.outcome && log == old(log) + r.log
    {
      hide Spec.FirstBuild, Spec.Update;
      var stored := ContainsString(t.finalizers, FINALIZER);
      if !stored {
        t.finalizers := t.finalizers + [FINALIZER];
        UpdateObject(key, t);
      }
      var remoteName := ExIpName(t.spec.remoteVpc, t.spec.remoteCluster);
      if remoteName !in c.exips {
        return Failed;
      }
      var remote := c.exips[remoteName];
      if !t.status.initialized {
        outcome := FirstBuild(key, t, remote, env);
      } else if t.status.remoteIP != t.spec.remoteIP || t.status.internalIP != t.spec.internalIP
                || t.status.interfaceAddr != t.spec.interfaceAddr || t.status.localGw != t.spec.localGw
                || t.status.remoteGlobalnetCIDR != remote.globalNetCIDR || t.status.typ != t.spec.typ {
        outcome := Update(key, t, remote, env);
      } else {
        outcome := Done;
      }
    }

    /** Lines 246-323 */
    method FirstBuild(key: Key, t: TunnelObject, remote: GatewayExIp, env: Env) returns (outcome: Outcome)
      requires key in c.tunnels && t.Value() == c.tunnels[key] && !t.deleting
      modifies this, t
      ensures var r := Spec.FirstBuild(old(c), key, old(t.Value()), remote, env);
              c == r.c && outcome == r.outcome && log == old(log) + r.log
    {
      hide ExecBoth, ExecIn, GenGlobalnetRoute, CreateCmd;
      ghost var was := t.Value();
      var localName := ExIpName(t.spec.localVpc, c.id);
      if localName !in c.exips {
        return Failed;
      }
      var localGateway := c.exips[localName].localGateway;
      t.status := t.status.(localGw := localGateway);
      t.status := t.status.(remoteIP := remote.externalIP);
      t.status := t.status.(remoteGlobalnetCIDR := remote.globalNetCIDR);
      t.status := t.status.(initialized := true);
      t.status := t.status.(interfaceAddr := t.spec.interfaceAddr);
      t.status := t.status.(typ := t.spec.typ);
      if t.status.localGw !in c.pods {
        return Failed;
      }
      var pod := c.pods[t.status.localGw];
      if env.globalnetCIDR.None? {
        return Failed;
      }
      t.status := t.status.(globalnetCIDR := env.globalnetCIDR.value);
      t.status := t.status.(ovnGwIP := pod.ovnGw);
      if env.egressIP.None? {
        return Failed;
      }
      t.status := t.status.(globalEgressIP := env.egressIP.value);
      t.status := t.status.(internalIP := pod.externalIP);
      assert t.status == FirstStatus(was, remote, localGateway, pod, env.globalnetCIDR.value, env.egressIP.value);

      if t.status.globalEgressIP == [] {
        // the routes cannot be generated: an index panic, after the device has been created
        var created := ExecCommandInPod(localGateway, CreateCmd(key.name, t.spec.typ, t.status, t.labels),
                                        FaultOf(env, 0));
        return if created then Panicked else Failed;
      }
      var ok := ExecBothInPod(localGateway, CreateCmd(key.name, t.spec.typ, t.status, t.labels),
                              GenGlobalnetRoute(key.name, t.status), env, 0);
      if !ok {
        return Failed;
      }
      RecordFirstBuild(key, t, remote, localGateway);
      return Done;
    }

    /** Lines 301-322 */
    method RecordFirstBuild(key: Key, t: TunnelObject, remote: GatewayExIp, localGateway: Word)
      requires key in c.tunnels && t.Value() == c.tunnels[key].(status := t.status) && !t.deleting
      modifies this, t
      ensures var was := old(t.Value());
              t.Value() == was.(labels := WithLabels(was),
                                spec := was.spec.(internalIP := was.status.internalIP, localGw := localGateway,
                                                  remoteIP := remote.externalIP))
      ensures c == Put(old(c), key, t.Value()) && log == old(log) + [WriteStatus(key), WriteObject(key)]
    {
      ghost var ran := c;
      UpdateStatus(key, t);
      var labels := t.labels;
      t.spec := t.spec.(internalIP := t.status.internalIP);
      t.spec := t.spec.(localGw := localGateway);
      t.spec := t.spec.(remoteIP := remote.externalIP);
      labels := labels["localVpc" := t.spec.localVpc];
      labels := labels["remoteCluster" := t.spec.remoteCluster];
      labels := labels["remoteVpc" := t.spec.remoteVpc];
      t.labels := labels;
      UpdateObject(key, t);
      assert c.tunnels == ran.tunnels[key := t.Value()];
    }

    /** Lines 325-402 */
    method Update(key: Key, t: TunnelObject, remote: GatewayExIp, env: Env) returns (outcome: Outcome)
      requires key in c.tunnels && t.Value() == c.tunnels[key] && !t.deleting
      modifies this, t
      ensures var r := Spec.Update(old(c), key, old(t.Value()), remote, env);
              c == r.c && outcome == r.outcome && log == old(log) + r.log
    {
      hide Spec.Clear, Spec.Rebuild;
      ghost var was := t.Value();
      if t.status.typ != t.spec.typ {
        t.spec := t.spec.(typ := t.status.typ);
        UpdateObject(key, t);
        return Done;
      }
      if t.spec.localGw == "" && t.spec.remoteIP == "" && t.spec.internalIP == "" {
        return Done;
      }
      if t.spec.localGw !in c.pods {
        return Failed;
      }
      outcome := TakeDown(key, t, env);
      if outcome == Done {
        outcome := Build(key, t, was, remote, env);
      }
    }

    /** Lines 344-367 */
    method TakeDown(key: Key, t: TunnelObject, env: Env) returns (outcome: Outcome)
      requires t.spec.localGw in c.pods
      modifies this, t`status
      ensures var r := Spec.Clear(old(c), key, old(t.Value()), env);
              c == r.c && outcome == r.outcome && log == old(log) + r.log
      ensures c == old(c).(pods := c.pods) && t.spec.localGw in c.pods
      ensures outcome == Done ==> t.status == old(t.status).(localGw := t.spec.localGw)
    {
      hide ExecBoth, GenDelGlobalnetRoute, DeleteCmd;
      if t.status.localGw == t.spec.localGw && t.spec.internalIP == t.status.internalIP {
        if t.status.globalEgressIP == [] {
          return Panicked;
        }
        var ok := ExecBothInPod(t.status.localGw, GenDelGlobalnetRoute(key.name, t.status),
                                DeleteCmd(key.name, t.spec.typ), env, 0);
        if !ok {
          return Failed;
        }
      } else {
        t.status := t.status.(localGw := t.spec.localGw);
      }
      return Done;
    }

    /** Lines 372-401 */
    method Build(key: Key, t: TunnelObject, ghost was: VpcNatTunnel, remote: GatewayExIp,
                 env: Env) returns (outcome: Outcome)
      requires key in c.tunnels && c.tunnels[key] == was && !t.deleting
      requires t.Value() == was.(status := was.status.(localGw := was.spec.localGw))
      requires t.spec.localGw in c.pods
      modifies this, t
      ensures var r := Spec.Rebuild(old(c), key, was, remote, env);
              c == r.c && outcome == r.outcome && log == old(log) + r.log
    {
      hide ExecBoth, ExecIn, GenGlobalnetRoute, CreateCmd, LabelsCurrent, WithLabels;
      LabelsIgnoreStatus(was, NextStatus(was, remote));
      t.status := t.status.(remoteIP := t.spec.remoteIP);
      t.status := t.status.(remoteGlobalnetCIDR := remote.globalNetCIDR);
      t.status := t.status.(internalIP := t.spec.internalIP);
      t.status := t.status.(interfaceAddr := t.spec.interfaceAddr);
      assert t.status == NextStatus(was, remote);
      if t.status.globalEgressIP == [] {
        // as in a first build, the device is there before the routes cannot be generated
        var created := ExecCommandInPod(t.status.localGw, CreateCmd(key.name, t.spec.typ, t.status, t.labels),
                                        FaultOf(env, 2));
        return if created then Panicked else Failed;
      }
      var ok := ExecBothInPod(t.status.localGw, CreateCmd(key.name, t.spec.typ, t.status, t.labels),
                              GenGlobalnetRoute(key.name, t.status), env, 2);
      if !ok {
        return Failed;
      }
      RecordUpdate(key, t);
      return Done;
    }

    /** Lines 387-401: the labels are only written when they are not current. */
    method RecordUpdate(key: Key, t: TunnelObject)
      requires key in c.tunnels && t.Value() == c.tunnels[key].(status := t.status) && !t.deleting
      modifies this, t
      ensures var was := old(t.Value());
              && t.Value() == was.(labels := if LabelsCurrent(was) then was.labels else WithLabels(was))
              && log == old(log) + [WriteStatus(key)] + (if LabelsCurrent(was) then [] else [WriteObject(key)])
      ensures c == Put(old(c), key, t.Value())
    {
      hide LabelOf;
      ghost var ran := c;
      ghost var was := t.Value();
      LabelsInAnyOrder(was);
      UpdateStatus(key, t);
      if LabelOf(t.Value(), "remoteCluster") != t.spec.remoteCluster
        || LabelOf(t.Value(), "remoteVpc") != t.spec.remoteVpc
         || LabelOf(t.Value(), "localVpc") != t.spec.localVpc {
        t.labels := t.labels["remoteCluster" := t.spec.remoteCluster];
        t.labels := t.labels["remoteVpc" := t.spec.remoteVpc];
        t.labels := t.labels["localVpc" := t.spec.localVpc];
        UpdateObject(key, t);
      }
      assert c.tunnels == ran.tunnels[key := t.Value()];
    }
  }
}
