/**
 In every pod every route leaves through an interface that is there: what is run in a pod keeps this, whatever it is
 and wherever it breaks off.
 */
module WellFormedPods {
  import opened Api
  import opened Netns
  import opened TunnelCommands
  import opened TunnelLifecycle
  import opened Cluster
  import opened Shape

  ghost predicate PodsWellFormed(pods: map<Word, Pod>) {
    forall g | g in pods :: WellFormed(pods[g].ns)
  }

  lemma TextKeepsWellFormed(ns: NetNs, text: string, fault: Fault)
    requires WellFormed(ns)
    ensures WellFormed(RunText(ns, text, fault).ns)
  {
    hide Parse, WellFormed;
    var ops := Parse(text);
    RunOpsWellFormed(ns, if fault.CutAfter? && fault.n < |ops| then ops[..fault.n] else ops);
  }

  lemma ExecKeepsWellFormed(c: Cluster, gw: Word, text: string, fault: Fault)
    requires PodsWellFormed(c.pods) && gw in c.pods
    ensures PodsWellFormed(ExecIn(c, gw, text, fault).c.pods)
  {
    hide RunText, WellFormed;
    TextKeepsWellFormed(c.pods[gw].ns, text, fault);
  }

  lemma ExecBothKeepsWellFormed(c: Cluster, gw: Word, first: string, second: string, env: Env, i: nat)
    requires PodsWellFormed(c.pods) && gw in c.pods
    ensures PodsWellFormed(ExecBoth(c, gw, first, second, env, i).c.pods)
  {
    hide RunText, PodsWellFormed;
    ExecKeepsWellFormed(c, gw, first, FaultOf(env, i));
    ExecKeepsWellFormed(ExecIn(c, gw, first, FaultOf(env, i)).c, gw, second, FaultOf(env, i + 1));
  }

  lemma DeleteKeepsWellFormed(c: Cluster, key: Key, env: Env)
    requires PodsWellFormed(c.pods) && key in c.tunnels
    ensures PodsWellFormed(HandleDelete(c, key, env).c.pods)
  {
    hide ExecBoth, PodsWellFormed, GenDelGlobalnetRoute, DeleteCmd;
    var t := c.tunnels[key];
    var gw := t.status.localGw;
    if gw in c.pods && t.status.globalEgressIP != [] {
      ExecBothKeepsWellFormed(c, gw, GenDelGlobalnetRoute(key.name, t.status), DeleteCmd(key.name, t.spec.typ), env, 0);
    }
  }

  /** A build in one pod, with or without its routes. */
  lemma BuildKeepsWellFormed(c: Cluster, gw: Word, name: Word, typ: string, st: TunnelStatus, labels: map<string, Word>,
                             env: Env, i: nat)
    requires PodsWellFormed(c.pods) && gw in c.pods
    ensures var create := CreateCmd(name, typ, st, labels);
            && PodsWellFormed(ExecIn(c, gw, create, FaultOf(env, i)).c.pods)
            && (st.globalEgressIP != [] ==>
                  PodsWellFormed(ExecBoth(c, gw, create, GenGlobalnetRoute(name, st), env, i).c.pods))
  {
    hide ExecBoth, ExecIn, PodsWellFormed, CreateCmd, GenGlobalnetRoute;
    ExecKeepsWellFormed(c, gw, CreateCmd(name, typ, st, labels), FaultOf(env, i));
    if st.globalEgressIP != [] {
      ExecBothKeepsWellFormed(c, gw, CreateCmd(name, typ, st, labels), GenGlobalnetRoute(name, st), env, i);
    }
  }

  lemma FirstBuildKeepsWellFormed(c: Cluster, key: Key, t: VpcNatTunnel, remote: GatewayExIp, env: Env)
    requires PodsWellFormed(c.pods)
    ensures PodsWellFormed(FirstBuild(c, key, t, remote, env).c.pods)
  {
    hide ExecBoth, ExecIn, PodsWellFormed, CreateCmd, GenGlobalnetRoute;
    var name := ExIpName(t.spec.localVpc, c.id);
    if name in c.exips && c.exips[name].localGateway in c.pods && env.globalnetCIDR.Some? && env.egressIP.Some? {
      var gw := c.exips[name].localGateway;
      var st := FirstStatus(t, remote, gw, c.pods[gw], env.globalnetCIDR.value, env.egressIP.value);
      BuildKeepsWellFormed(c, gw, key.name, t.spec.typ, st, t.labels, env, 0);
    }
  }

  lemma ClearKeepsWellFormed(c: Cluster, key: Key, t: VpcNatTunnel, env: Env)
    requires PodsWellFormed(c.pods) && t.spec.localGw in c.pods
    ensures PodsWellFormed(Clear(c, key, t, env).c.pods) && t.spec.localGw in Clear(c, key, t, env).c.pods
  {
    hide ExecBoth, PodsWellFormed, GenDelGlobalnetRoute, DeleteCmd;
    if t.status.globalEgressIP != [] {
      var unroute, delete := GenDelGlobalnetRoute(key.name, t.status), DeleteCmd(key.name, t.spec.typ);
      ExecBothKeepsWellFormed(c, t.spec.localGw, unroute, delete, env, 0);
    }
  }

  lemma UpdateKeepsWellFormed(c: Cluster, key: Key, t: VpcNatTunnel, remote: GatewayExIp, env: Env)
    requires PodsWellFormed(c.pods)
    ensures PodsWellFormed(Update(c, key, t, remote, env).c.pods)
  {
    hide ExecBoth, ExecIn, Clear, PodsWellFormed, CreateCmd, GenGlobalnetRoute;
    if t.spec.localGw in c.pods {
      ClearKeepsWellFormed(c, key, t, env);
      var cleared := Clear(c, key, t, env).c;
      BuildKeepsWellFormed(cleared, t.spec.localGw, key.name, t.spec.typ, NextStatus(t, remote), t.labels, env, 2);
    }
  }

  lemma ReconcileKeepsWellFormed(c: Cluster, key: Key, env: Env)
    requires PodsWellFormed(c.pods)
    ensures PodsWellFormed(ReconcileTunnel(c, key, env).c.pods)
  {
    hide PodsWellFormed, HandleDelete, FirstBuild, Update, Outdated;
    if key in c.tunnels {
      DeleteKeepsWellFormed(c, key, env);
      var t := WithFinalizer(c.tunnels[key]);
      var c1 := if FINALIZER in c.tunnels[key].finalizers then c else Put(c, key, t);
      if RemoteName(t) in c.exips {
        FirstBuildKeepsWellFormed(c1, key, t, c.exips[RemoteName(t)], env);
        UpdateKeepsWellFormed(c1, key, t, c.exips[RemoteName(t)], env);
      }
    }
  }

  lemma HandlersKeepPods(c: Cluster, gw: Word, exip: Option<string>, next: Option<Word>)
    requires Picks(ExIpsNaming(c, gw), exip)
    ensures HandleCameUp(c, gw, exip).pods == c.pods
    ensures Picks(Available(c, gw) - {gw}, next) ==> HandleWentDown(c, gw, exip, next).pods == c.pods
    ensures Picks(Available(c, gw), next) ==> HandleDeleted(c, gw, exip, next).pods == c.pods
  {
    hide Retarget;
  }

  lemma EventKeepsPods(c: Cluster, step: Step)
    requires Enabled(c, step) && step.HandleEvent?
    ensures Next(c, step).pods == c.pods
  {
    hide HandleWentDown, HandleCameUp, HandleDeleted;
    PopKeepsPicks(c, c.queue[0].gw);
    HandlersKeepPods(c.(queue := c.queue[1..]), c.queue[0].gw, step.exip, step.next);
  }

  lemma EmptyIsWellFormed()
    ensures WellFormed(EMPTY)
  {
  }

  /** Every step keeps it, without any condition. */
  lemma StepKeepsWellFormed(c: Cluster, step: Step)
    requires PodsWellFormed(c.pods) && Enabled(c, step)
    ensures PodsWellFormed(Next(c, step).pods)
  {
    hide ReconcileTunnel, HandleAdded, HandleWentDown, HandleCameUp, HandleDeleted, Propagate, WellFormed;
    if step.Reconcile? {
      ReconcileKeepsWellFormed(c, step.key, step.env);
    } else if step.HandleEvent? {
      EventKeepsPods(c, step);
    }
    assert WellFormed(EMPTY) by {
      EmptyIsWellFormed();
    }
  }
}
