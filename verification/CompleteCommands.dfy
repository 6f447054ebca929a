/**
 Every command that reaches a pod is complete: none of its words is empty. The commands are pasted together
 from Status, labels and names, so this is about all the ways in which these get their values.
 */
module CompleteCommands {
  import opened GoStrings
  import opened Api
  import opened Finalizers
  import opened Netns
  import opened TunnelCommands
  import opened TunnelLifecycle
  import opened Cluster
  import opened Shape

  // ----- the text of a command -----

  predicate NoEmptyWord(text: string) {
    forall s | s in Split(text, ';') :: "" !in Split(s, ' ')
  }

  predicate OpFilled(op: Op) {
    match op
    case TunnelAddGre(name, remote, local) => name != "" && remote != "" && local != ""
    case LinkAddVxlan(name, vid, port, remote, local) => name != "" && vid != "" && port != "" && remote != ""
      && local != ""
    case LinkSetUp(name) => name != ""
    case AddrAdd(addr, name) => addr != "" && name != ""
    case TunnelDel(name) => name != ""
    case LinkDel(name) => name != ""
    case RouteAdd(dst, hop) => dst != "" && hop.dev != "" && (hop.Via? ==> hop.gateway != "")
    case RouteDel(dst, hop) => dst != "" && hop.dev != "" && (hop.Via? ==> hop.gateway != "")
    case SnatAppend(rule) => rule.dst != "" && rule.toSource != ""
    case SnatDelete(rule) => rule.dst != "" && rule.toSource != ""
    case Unknown => false
  }

  /** What is read as a filled operation has no empty word. */
  lemma ReadWordsAreFilled(w: seq<string>)
    requires OpFilled(ParseWords(w))
    ensures "" !in w
  {
    forall i | 0 <= i < |w|
      ensures w[i] != ""
    {
    }
  }

  lemma {:induction false} ReadStatementsAreFilled(statements: seq<string>)
    requires forall op | op in ParseStatements(statements) :: OpFilled(op)
    ensures forall s | s in statements :: "" !in Split(s, ' ')
  {
    hide ParseWords, OpFilled;
    if statements != [] {
      var first := ParseStatement(statements[0]);
      assert ParseStatements(statements) == [first] + ParseStatements(statements[1..]);
      assert first in ParseStatements(statements);
      ReadWordsAreFilled(Split(statements[0], ' '));
      ReadStatementsAreFilled(statements[1..]);
      assert statements == [statements[0]] + statements[1..];
    }
  }

  predicate StatusFilled(st: TunnelStatus) {
    && st.internalIP != "" && st.remoteIP != "" && st.interfaceAddr != ""
    && st.globalnetCIDR != "" && st.remoteGlobalnetCIDR != "" && st.ovnGwIP != ""
  }

  lemma CreateIsFilled(name: Word, typ: string, st: TunnelStatus, labels: map<string, Word>)
    requires name != "" && StatusFilled(st) && LabelsFilled(labels)
    ensures NoEmptyWord(CreateCmd(name, typ, st, labels))
  {
    hide CreateCmd;
    CreateCmdMeans(name, typ, st, labels);
    ReadStatementsAreFilled(Split(CreateCmd(name, typ, st, labels), ';'));
  }

  lemma DeleteIsFilled(name: Word, typ: string)
    requires name != ""
    ensures NoEmptyWord(DeleteCmd(name, typ))
  {
    hide DeleteCmd;
    DeleteCmdMeans(name, typ);
    ReadStatementsAreFilled(Split(DeleteCmd(name, typ), ';'));
  }

  lemma RouteIsFilled(name: Word, st: TunnelStatus)
    requires name != "" && StatusFilled(st) && st.globalEgressIP != []
    ensures NoEmptyWord(GenGlobalnetRoute(name, st))
  {
    hide GenGlobalnetRoute;
    GenGlobalnetRouteMeans(name, st);
    ReadStatementsAreFilled(Split(GenGlobalnetRoute(name, st), ';'));
  }

  lemma UnrouteIsFilled(name: Word, st: TunnelStatus)
    requires name != "" && StatusFilled(st) && st.globalEgressIP != []
    ensures NoEmptyWord(GenDelGlobalnetRoute(name, st))
  {
    hide GenDelGlobalnetRoute;
    GenDelGlobalnetRouteMeans(name, st);
    ReadStatementsAreFilled(Split(GenDelGlobalnetRoute(name, st), ';'));
  }

  // ----- where the words come from -----

  predicate TunnelFilled(k: Key, t: VpcNatTunnel) {
    && k.name != "" && t.spec.interfaceAddr != "" && LabelsFilled(t.labels)
    && (t.status.initialized ==> StatusFilled(t.status) && t.spec.remoteIP != "" && t.spec.internalIP != "")
  }

  predicate ExIpFilled(e: GatewayExIp) {
    e.externalIP != "" && e.globalNetCIDR != ""
  }

  ghost predicate PodsFilled(pods: map<Word, Pod>) {
    forall g | g in pods :: pods[g].externalIP != "" && pods[g].ovnGw != ""
  }

  ghost predicate ExIpsFilled(exips: map<string, GatewayExIp>) {
    forall n | n in exips :: ExIpFilled(exips[n])
  }

  ghost predicate TunnelsFilled(tunnels: map<Key, VpcNatTunnel>) {
    forall k | k in tunnels :: TunnelFilled(k, tunnels[k])
  }

  ghost predicate ValuesFilled(c: Cluster) {
    PodsFilled(c.pods) && ExIpsFilled(c.exips) && TunnelsFilled(c.tunnels)
  }

  ghost predicate Filled(c: Cluster) {
    Shaped(c) && ValuesFilled(c)
  }

  lemma RetargetKeepsFilled(tunnels: map<Key, VpcNatTunnel>, vpc: Word, gw: Option<Word>, ip: Word)
    requires TunnelsFilled(tunnels) && ip != ""
    ensures TunnelsFilled(Retarget(tunnels, vpc, gw, ip))
  {
    forall k | k in tunnels
      ensures TunnelFilled(k, RetargetOne(tunnels[k], vpc, gw, ip))
    {
      assert TunnelFilled(k, tunnels[k]);
    }
  }

  lemma PropagateKeepsFilled(tunnels: map<Key, VpcNatTunnel>, name: string, ip: Word)
    requires TunnelsFilled(tunnels) && '.' in name && ip != ""
    ensures TunnelsFilled(Propagate(tunnels, name, ip))
  {
    forall k | k in tunnels
      ensures TunnelFilled(k, PropagateOne(tunnels[k], name, ip))
    {
      assert TunnelFilled(k, tunnels[k]);
    }
  }

  lemma PromoteKeepsFilled(c: Cluster, n: string, next: Word)
    requires ValuesFilled(c) && n in c.exips && c.exips[n].localVpc in c.vpcs && next in c.pods && next in c.gateways
    ensures ValuesFilled(Promote(c, n, next))
  {
    hide TunnelsFilled;
    RetargetKeepsFilled(c.tunnels, c.exips[n].localVpc, Some(next), c.pods[next].externalIP);
  }

  lemma FailoverKeepsFilled(c: Cluster, gw: Word, exip: Option<string>, next: Option<Word>)
    requires ValuesFilled(c) && Picks(ExIpsNaming(c, gw), exip)
    ensures Picks(Available(c, gw) - {gw}, next) ==> ValuesFilled(HandleWentDown(c, gw, exip, next))
    ensures Picks(Available(c, gw), next) ==> ValuesFilled(HandleDeleted(c, gw, exip, next))
  {
    hide TunnelsFilled, Promote, ExIpFilled;
    if exip.Some? && next.Some? && c.exips[exip.value].localVpc in c.vpcs && next.value in Available(c, gw) {
      PromoteKeepsFilled(c, exip.value, next.value);
    }
  }

  lemma CameUpKeepsFilled(c: Cluster, gw: Word, exip: Option<string>)
    requires ValuesFilled(c) && Picks(ExIpsNaming(c, gw), exip)
    ensures ValuesFilled(HandleCameUp(c, gw, exip))
  {
    hide TunnelsFilled;
    if exip.Some? && gw in c.pods {
      RetargetKeepsFilled(c.tunnels, c.exips[exip.value].localVpc, None, c.pods[gw].externalIP);
    }
  }

  lemma AddedKeepsFilled(c: Cluster, gw: Word, available: bool, cidr: Option<Word>)
    requires ValuesFilled(c) && (cidr.Some? ==> cidr.value != "")
    ensures ValuesFilled(HandleAdded(c, gw, available, cidr))
  {
    hide TunnelsFilled;
  }

  lemma EventKeepsFilled(c: Cluster, step: Step)
    requires ValuesFilled(c) && step.HandleEvent? && Enabled(c, step)
    ensures ValuesFilled(Next(c, step))
  {
    hide PodsFilled, ExIpsFilled, TunnelsFilled, HandleAdded, HandleWentDown, HandleCameUp, HandleDeleted;
    var rest := c.(queue := c.queue[1..]);
    var gw := c.queue[0].gw;
    PopKeepsPicks(c, gw);
    match c.queue[0]
    case Added(_, available) => AddedKeepsFilled(rest, gw, available, step.cidr);
    case WentDown(_) => FailoverKeepsFilled(rest, gw, step.exip, step.next);
    case CameUp(_) => CameUpKeepsFilled(rest, gw, step.exip);
    case Deleted(_) => FailoverKeepsFilled(rest, gw, step.exip, step.next);
  }

  lemma EnvironmentKeepsFilled(c: Cluster, step: Step)
    requires ValuesFilled(c) && Enabled(c, step)
    requires (step.PodDies? || step.PodReturns? || step.GatewayAdded? || step.GatewayRemoved?)
    ensures ValuesFilled(Next(c, step))
  {
    hide TunnelsFilled, ExIpsFilled;
  }

  lemma UserPutIsFilled(c: Cluster, key: Key, t: VpcNatTunnel)
    requires TunnelsFilled(c.tunnels) && (Enabled(c, UserCreates(key, t)) || Enabled(c, UserEdits(key, t)))
    ensures TunnelFilled(key, t)
  {
    if key in c.tunnels {
      assert TunnelFilled(key, c.tunnels[key]);
    }
  }

  lemma PutKeepsFilled(c: Cluster, key: Key, t: VpcNatTunnel)
    requires ValuesFilled(c) && TunnelFilled(key, t)
    ensures ValuesFilled(Put(c, key, t)) && ValuesFilled(c.(tunnels := c.tunnels - {key}))
  {
    hide PodsFilled, ExIpsFilled, TunnelFilled;
  }

  lemma UserKeepsFilled(c: Cluster, step: Step)
    requires ValuesFilled(c) && Enabled(c, step) && (step.UserCreates? || step.UserEdits? || step.UserDeletes?)
    ensures ValuesFilled(Next(c, step))
  {
    hide PodsFilled, ExIpsFilled, Put;
    match step
    case UserCreates(key, t) => UserPutIsFilled(c, key, t); PutKeepsFilled(c, key, t);
    case UserEdits(key, t) => UserPutIsFilled(c, key, t); PutKeepsFilled(c, key, t);
    case UserDeletes(key) =>
      assert TunnelFilled(key, c.tunnels[key]);
      PutKeepsFilled(c, key, c.tunnels[key].(deleting := true));
  }

  lemma RemoteKeepsFilled(c: Cluster, step: Step)
    requires ValuesFilled(c) && Enabled(c, step) && (step.RemoteSet? || step.RemoteGone?)
    ensures ValuesFilled(Next(c, step))
  {
    hide PodsFilled, TunnelsFilled, Propagate;
    if step.RemoteSet? {
      assert step.name[|step.e.localVpc|] == '.';
      PropagateKeepsFilled(c.tunnels, step.name, step.e.externalIP);
    } else {
      PropagateKeepsFilled(c.tunnels, step.name, c.exips[step.name].externalIP);
    }
  }

  lemma WriteKeepsFilled(c: Cluster, key: Key, env: Env, t': VpcNatTunnel)
    requires ValuesFilled(c) && Enabled(c, Reconcile(key, env))
    requires key in c.tunnels && Writes(c, c.tunnels[key], env, t')
    ensures TunnelFilled(key, t')
  {
    hide Dropped;
    var t := c.tunnels[key];
    assert TunnelFilled(key, t);
    assert LabelsFilled(WithLabels(t)) && WithLabels(WithFinalizer(t)) == WithLabels(t);
  }

  lemma ReconcileKeepsFilled(c: Cluster, key: Key, env: Env)
    requires ValuesFilled(c) && Enabled(c, Reconcile(key, env))
    ensures ValuesFilled(ReconcileTunnel(c, key, env).c)
  {
    hide ReconcileTunnel, Writes, TunnelFilled, ExIpFilled;
    ReconcileWrites(c, key, env);
    var c' := ReconcileTunnel(c, key, env).c;
    if key in c.tunnels && key in c'.tunnels && Writes(c, c.tunnels[key], env, c'.tunnels[key]) {
      WriteKeepsFilled(c, key, env, c'.tunnels[key]);
    }
  }

  /** Every step keeps it, without any condition. */
  lemma StepKeepsFilled(c: Cluster, step: Step)
    requires Filled(c) && Enabled(c, step)
    ensures Filled(Next(c, step))
  {
    hide ReconcileTunnel, Propagate, Shaped, ValuesFilled;
    StepKeepsShape(c, step);
    match step
    case PodDies(_) => EnvironmentKeepsFilled(c, step);
    case PodReturns(_, _, _) => EnvironmentKeepsFilled(c, step);
    case GatewayAdded(_, _, _) => EnvironmentKeepsFilled(c, step);
    case GatewayRemoved(_) => EnvironmentKeepsFilled(c, step);
    case HandleEvent(_, _, _) => EventKeepsFilled(c, step);
    case RemoteSet(_, _) => RemoteKeepsFilled(c, step);
    case RemoteGone(_) => RemoteKeepsFilled(c, step);
    case UserCreates(_, _) => UserKeepsFilled(c, step);
    case UserEdits(_, _) => UserKeepsFilled(c, step);
    case UserDeletes(_) => UserKeepsFilled(c, step);
    case Reconcile(key, env) => ReconcileKeepsFilled(c, key, env);
  }

  // ----- what a reconcile sends -----

  predicate SendsFilled(log: seq<Effect>) {
    forall e | e in log :: e.Exec? ==> NoEmptyWord(e.text)
  }

  lemma ExecBothSends(c: Cluster, gw: Word, first: string, second: string, env: Env, i: nat)
    requires gw in c.pods && NoEmptyWord(first) && NoEmptyWord(second)
    ensures SendsFilled(ExecBoth(c, gw, first, second, env, i).log)
  {
    hide NoEmptyWord, RunText;
  }

  lemma DeleteSendsFilled(c: Cluster, key: Key, env: Env)
    requires Filled(c) && key in c.tunnels
    ensures SendsFilled(HandleDelete(c, key, env).log)
  {
    hide ExecBoth, GenDelGlobalnetRoute, DeleteCmd, DropFinalizer, NoEmptyWord, Rooted, DevicesApart;
    var t := c.tunnels[key];
    assert TunnelOk(c.homes, key, t) && TunnelFilled(key, t);
    if t.status.globalEgressIP != [] && t.status.localGw in c.pods {
      UnrouteIsFilled(key.name, t.status);
      DeleteIsFilled(key.name, t.spec.typ);
      ExecBothSends(c, t.status.localGw, GenDelGlobalnetRoute(key.name, t.status), DeleteCmd(key.name, t.spec.typ),
                    env, 0);
    }
  }

  lemma FirstBuildSendsFilled(c: Cluster, key: Key, t: VpcNatTunnel, remote: GatewayExIp, env: Env)
    requires PodsFilled(c.pods) && TunnelFilled(key, t) && ExIpFilled(remote) && Enabled(c, Reconcile(key, env))
    ensures SendsFilled(FirstBuild(c, key, t, remote, env).log)
  {
    hide ExecBoth, ExecIn, GenGlobalnetRoute, CreateCmd, NoEmptyWord;
    var n := ExIpName(t.spec.localVpc, c.id);
    if n in c.exips && c.exips[n].localGateway in c.pods && env.globalnetCIDR.Some? && env.egressIP.Some? {
      var gw := c.exips[n].localGateway;
      var st := FirstStatus(t, remote, gw, c.pods[gw], env.globalnetCIDR.value, env.egressIP.value);
      CreateIsFilled(key.name, t.spec.typ, st, t.labels);
      if st.globalEgressIP != [] {
        RouteIsFilled(key.name, st);
        ExecBothSends(c, gw, CreateCmd(key.name, t.spec.typ, st, t.labels), GenGlobalnetRoute(key.name, st), env, 0);
      }
    }
  }

  lemma ClearSendsFilled(c: Cluster, key: Key, t: VpcNatTunnel, env: Env)
    requires t.spec.localGw in c.pods && TunnelFilled(key, t) && t.status.initialized
    ensures SendsFilled(Clear(c, key, t, env).log)
  {
    hide ExecBoth, GenDelGlobalnetRoute, DeleteCmd, NoEmptyWord;
    if t.status.globalEgressIP != [] {
      UnrouteIsFilled(key.name, t.status);
      DeleteIsFilled(key.name, t.spec.typ);
      ExecBothSends(c, t.spec.localGw, GenDelGlobalnetRoute(key.name, t.status), DeleteCmd(key.name, t.spec.typ),
                    env, 0);
    }
  }

  lemma RebuildSendsFilled(c: Cluster, key: Key, t: VpcNatTunnel, remote: GatewayExIp, env: Env)
    requires t.spec.localGw in c.pods && TunnelFilled(key, t) && t.status.initialized && ExIpFilled(remote)
    ensures SendsFilled(Rebuild(c, key, t, remote, env).log)
  {
    hide ExecBoth, ExecIn, GenGlobalnetRoute, CreateCmd, NoEmptyWord;
    var st := NextStatus(t, remote);
    CreateIsFilled(key.name, t.spec.typ, st, t.labels);
    if st.globalEgressIP != [] {
      RouteIsFilled(key.name, st);
      ExecBothSends(c, t.spec.localGw, CreateCmd(key.name, t.spec.typ, st, t.labels), GenGlobalnetRoute(key.name, st),
                    env, 2);
    }
  }

  lemma UpdateSendsFilled(c: Cluster, key: Key, t: VpcNatTunnel, remote: GatewayExIp, env: Env)
    requires TunnelFilled(key, t) && t.status.initialized && ExIpFilled(remote)
    ensures SendsFilled(Update(c, key, t, remote, env).log)
  {
    hide Clear, Rebuild, NoEmptyWord;
    if t.spec.localGw in c.pods {
      ClearSendsFilled(c, key, t, env);
      ClearWrites(c, key, t, env);
      RebuildSendsFilled(Clear(c, key, t, env).c, key, t, remote, env);
    }
  }

  /** Whatever a reconcile sends to a pod is filled. */
  lemma ReconcileSendsFilled(c: Cluster, key: Key, env: Env)
    requires Filled(c) && Enabled(c, Reconcile(key, env))
    ensures SendsFilled(ReconcileTunnel(c, key, env).log)
  {
    hide HandleDelete, FirstBuild, Update, NoEmptyWord, Shaped, Outdated;
    if key in c.tunnels {
      var t := c.tunnels[key];
      assert TunnelFilled(key, t);
      if t.deleting {
        DeleteSendsFilled(c, key, env);
      } else {
        var t1 := WithFinalizer(t);
        var c1 := if FINALIZER in t.finalizers then c else Put(c, key, t1);
        if RemoteName(t1) in c.exips {
          if t.status.initialized {
            UpdateSendsFilled(c1, key, t1, c.exips[RemoteName(t1)], env);
          } else {
            FirstBuildSendsFilled(c1, key, t1, c.exips[RemoteName(t1)], env);
          }
        }
      }
    }
  }
}
