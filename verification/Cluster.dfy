/**
 One cluster: its gateways and their pods, the VPCs' static routes, the GatewayExIps and tunnels in
 the API server, the gateway events not handled yet, and every step that can change them.

 Handlers and reconciles are single steps on this state. What they read from elsewhere is a parameter
 of the step.
 */
module Cluster {
  import opened GoStrings
  import opened Api
  import opened Finalizers
  import opened Netns
  import opened TunnelCommands
  import opened TunnelLifecycle

  datatype Gateway = Gateway(lanIP: Word)

  /** A running gateway pod. Gateway name and external IP identify the incarnation. */
  datatype Pod = Pod(externalIP: Word, ovnGw: Word, ns: NetNs)

  /** What the informer reports about the gateways' StatefulSets. */
  datatype Event =
    | Added(gw: Word, available: bool)
    | WentDown(gw: Word)
    | CameUp(gw: Word)
    | Deleted(gw: Word)

  datatype Cluster = Cluster(
    id: Word,
    homes: map<Word, Word>,             // gateway name to VPC (logical router), for good
    gateways: map<Word, Gateway>,       // the gateways that exist
    pods: map<Word, Pod>,               // the gateways that are available, and their pods
    vpcs: map<Word, seq<Word>>,         // next hops of the static routes
    exips: map<string, GatewayExIp>,
    tunnels: map<Key, VpcNatTunnel>,
    queue: seq<Event>)

  const FINALIZER := "tunnel.finalizer.ustc.io"

  // ----- the tunnel reconciler (internal/controller/vpcnattunnel_controller.go) -----

  datatype Outcome = Done | Failed | Panicked

  /** What a reconcile does to pods and API server, in order. */
  datatype Effect =
    | Exec(gw: Word, text: string, ok: bool)
    | WriteObject(key: Key)
    | WriteStatus(key: Key)

  datatype Reconciled = Reconciled(c: Cluster, outcome: Outcome, log: seq<Effect>)

  /** What a reconcile reads besides the cluster, and how its execs go. */
  datatype Env = Env(globalnetCIDR: Option<Word>, egressIP: Option<seq<Word>>, faults: seq<Fault>)

  function FaultOf(env: Env, i: nat): Fault {
    if i < |env.faults| then env.faults[i] else Healthy
  }

  datatype Execution = Execution(c: Cluster, ok: bool)

  function ExecIn(c: Cluster, gw: Word, text: string, fault: Fault): Execution
    requires gw in c.pods
  {
    var r := RunText(c.pods[gw].ns, text, fault);
    Execution(c.(pods := c.pods[gw := c.pods[gw].(ns := r.ns)]), r.ok)
  }

  function Put(c: Cluster, key: Key, t: VpcNatTunnel): Cluster {
    c.(tunnels := c.tunnels[key := t])
  }

  /** Storing a deleted object without finalizers removes it. */
  function DropFinalizer(c: Cluster, key: Key, t: VpcNatTunnel): Cluster {
    var rest := Dropped(t.finalizers, FINALIZER);
    if rest == [] then c.(tunnels := c.tunnels - {key}) else Put(c, key, t.(finalizers := rest))
  }

  function LabelOf(t: VpcNatTunnel, name: string): Word {
    if name in t.labels then t.labels[name] else ""
  }

  function WithLabels(t: VpcNatTunnel): map<string, Word> {
    t.labels["localVpc" := t.spec.localVpc]["remoteCluster" := t.spec.remoteCluster]["remoteVpc" := t.spec.remoteVpc]
  }

  /** controllerutil.AddFinalizer */
  function WithFinalizer(t: VpcNatTunnel): VpcNatTunnel {
    if FINALIZER in t.finalizers then t else t.(finalizers := t.finalizers + [FINALIZER])
  }

  /** The name of the peer's GatewayExIp. */
  function RemoteName(t: VpcNatTunnel): string {
    ExIpName(t.spec.remoteVpc, t.spec.remoteCluster)
  }

  function ReconcileTunnel(c: Cluster, key: Key, env: Env): Reconciled {
    if key !in c.tunnels then Reconciled(c, Done, [])
    else if c.tunnels[key].deleting then HandleDelete(c, key, env)
    else HandleCreateOrUpdate(c, key, env)
  }

  /** Run `first` and then `second` in the pod, stopping when one fails. */
  function ExecBoth(c: Cluster, gw: Word, first: string, second: string, env: Env, i: nat): (r: Reconciled)
    requires gw in c.pods
    ensures r.c == c.(pods := r.c.pods) && gw in r.c.pods
  {
    var a := ExecIn(c, gw, first, FaultOf(env, i));
    if !a.ok then Reconciled(a.c, Failed, [Exec(gw, first, false)])
    else
      var b := ExecIn(a.c, gw, second, FaultOf(env, i + 1));
      Reconciled(b.c, if b.ok then Done else Failed, [Exec(gw, first, true), Exec(gw, second, b.ok)])
  }

  /** handleDelete, lines 407-436 */
  function HandleDelete(c: Cluster, key: Key, env: Env): Reconciled
    requires key in c.tunnels
  {
    var t := c.tunnels[key];
    var gw := t.status.localGw;
    if FINALIZER !in t.finalizers then Reconciled(c, Done, [])
    else if gw !in c.pods then Reconciled(c, Failed, [])
    else if t.status.globalEgressIP == [] then Reconciled(c, Panicked, [])
    else
      var r := ExecBoth(c, gw, GenDelGlobalnetRoute(key.name, t.status), DeleteCmd(key.name, t.spec.typ), env, 0);
      if r.outcome != Done then r
      else Reconciled(DropFinalizer(r.c, key, t), Done, r.log + [WriteObject(key)])
  }

  /** handleCreateOrUpdate, lines 227-405 */
  function HandleCreateOrUpdate(c: Cluster, key: Key, env: Env): Reconciled
    requires key in c.tunnels
  {
    var t := WithFinalizer(c.tunnels[key]);
    var stored := FINALIZER in c.tunnels[key].finalizers;
    var c1 := if stored then c else Put(c, key, t);
    var log1 := if stored then [] else [WriteObject(key)];
    if RemoteName(t) !in c.exips then Reconciled(c1, Failed, log1)
    else
      var remote := c.exips[RemoteName(t)];
      var r := if !t.status.initialized then FirstBuild(c1, key, t, remote, env)
               else if Outdated(t, remote) then Update(c1, key, t, remote, env)
               else Reconciled(c1, Done, []);
      r.(log := log1 + r.log)
  }

  /** The status that a first build records. */
  function FirstStatus(t: VpcNatTunnel, remote: GatewayExIp, gw: Word, pod: Pod, cidr: Word,
                       egress: seq<Word>): TunnelStatus {
    TunnelStatus(true, pod.externalIP, remote.externalIP, t.spec.interfaceAddr, gw, t.spec.typ,
                 cidr, remote.globalNetCIDR, pod.ovnGw, egress)
  }

  /** The tunnel object once a first build is recorded. */
  function FirstRecord(t: VpcNatTunnel, remote: GatewayExIp, st: TunnelStatus): VpcNatTunnel {
    t.(status := st, labels := WithLabels(t),
       spec := t.spec.(internalIP := st.internalIP, localGw := st.localGw, remoteIP := remote.externalIP))
  }

  /** Lines 246-323 */
  function FirstBuild(c: Cluster, key: Key, t: VpcNatTunnel, remote: GatewayExIp, env: Env): Reconciled
  {
    var localName := ExIpName(t.spec.localVpc, c.id);
    if localName !in c.exips then Reconciled(c, Failed, [])
    else
      var gw := c.exips[localName].localGateway;
      if gw !in c.pods || env.globalnetCIDR.None? || env.egressIP.None? then Reconciled(c, Failed, [])
      else
        var st := FirstStatus(t, remote, gw, c.pods[gw], env.globalnetCIDR.value, env.egressIP.value);
        var create := CreateCmd(key.name, t.spec.typ, st, t.labels);
        if st.globalEgressIP == [] then
          // the routes cannot be generated: an index panic, after the device has been created
          var a := ExecIn(c, gw, create, FaultOf(env, 0));
          Reconciled(a.c, if a.ok then Panicked else Failed, [Exec(gw, create, a.ok)])
        else
          var r := ExecBoth(c, gw, create, GenGlobalnetRoute(key.name, st), env, 0);
          if r.outcome != Done then r
          else Reconciled(Put(r.c, key, FirstRecord(t, remote, st)), Done, r.log + [WriteStatus(key), WriteObject(key)])
  }

  /** Lines 325-327 */
  predicate Outdated(t: VpcNatTunnel, remote: GatewayExIp) {
    || t.status.remoteIP != t.spec.remoteIP || t.status.internalIP != t.spec.internalIP
    || t.status.interfaceAddr != t.spec.interfaceAddr || t.status.localGw != t.spec.localGw
    || t.status.remoteGlobalnetCIDR != remote.globalNetCIDR || t.status.typ != t.spec.typ
  }

  /** Line 344: the gateway and its external IP are those the tunnel was built on. */
  predicate SamePlace(t: VpcNatTunnel) {
    t.status.localGw == t.spec.localGw && t.spec.internalIP == t.status.internalIP
  }

  /** The status that an update records. */
  function NextStatus(t: VpcNatTunnel, remote: GatewayExIp): TunnelStatus {
    t.status.(localGw := t.spec.localGw, remoteIP := t.spec.remoteIP, remoteGlobalnetCIDR := remote.globalNetCIDR,
              internalIP := t.spec.internalIP, interfaceAddr := t.spec.interfaceAddr)
  }

  predicate LabelsCurrent(t: VpcNatTunnel) {
    && LabelOf(t, "remoteCluster") == t.spec.remoteCluster && LabelOf(t, "remoteVpc") == t.spec.remoteVpc
    && LabelOf(t, "localVpc") == t.spec.localVpc
  }

  /** The tunnel object once an update is recorded. */
  function Updated(t: VpcNatTunnel, remote: GatewayExIp): VpcNatTunnel {
    t.(status := NextStatus(t, remote), labels := if LabelsCurrent(t) then t.labels else WithLabels(t))
  }

  /** Lines 344-367: what stands at the same place is taken down first. */
  function Clear(c: Cluster, key: Key, t: VpcNatTunnel, env: Env): Reconciled
    requires t.spec.localGw in c.pods
  {
    if !SamePlace(t) then Reconciled(c, Done, [])
    else if t.status.globalEgressIP == [] then Reconciled(c, Panicked, [])
    else ExecBoth(c, t.spec.localGw, GenDelGlobalnetRoute(key.name, t.status), DeleteCmd(key.name, t.spec.typ), env, 0)
  }

  /** Lines 372-401: the tunnel is built on the gateway that Spec names, and recorded. */
  function Rebuild(c: Cluster, key: Key, t: VpcNatTunnel, remote: GatewayExIp, env: Env): Reconciled
    requires t.spec.localGw in c.pods
  {
    var st := NextStatus(t, remote);
    var create := CreateCmd(key.name, t.spec.typ, st, t.labels);
    if st.globalEgressIP == [] then
      // as in a first build, the device is there before the routes cannot be generated
      var a := ExecIn(c, t.spec.localGw, create, FaultOf(env, 2));
      Reconciled(a.c, if a.ok then Panicked else Failed, [Exec(t.spec.localGw, create, a.ok)])
    else
      var r := ExecBoth(c, t.spec.localGw, create, GenGlobalnetRoute(key.name, st), env, 2);
      if r.outcome != Done then r
      else
        Reconciled(Put(r.c, key, Updated(t, remote)), Done,
                   r.log + [WriteStatus(key)] + (if LabelsCurrent(t) then [] else [WriteObject(key)]))
  }

  /** Lines 328-402 */
  function Update(c: Cluster, key: Key, t: VpcNatTunnel, remote: GatewayExIp, env: Env): Reconciled
  {
    if t.status.typ != t.spec.typ then
      Reconciled(Put(c, key, t.(spec := t.spec.(typ := t.status.typ))), Done, [WriteObject(key)])
    else if t.spec.localGw == "" && t.spec.remoteIP == "" && t.spec.internalIP == "" then
      Reconciled(c, Done, [])
    else if t.spec.localGw !in c.pods then Reconciled(c, Failed, [])
    else
      var cleared := Clear(c, key, t, env);
      if cleared.outcome != Done then cleared
      else
        var r := Rebuild(cleared.c, key, t, remote, env);
        r.(log := cleared.log + r.log)
  }

  // ----- the gateway informer (internal/controller/gateway_informer.go) -----

  function Home(c: Cluster, gw: Word): Word {
    if gw in c.homes then c.homes[gw] else ""
  }

  /** The GatewayExIps of this cluster that name the gateway. */
  function ExIpsNaming(c: Cluster, gw: Word): set<string> {
    set n | n in c.exips && c.exips[n].localGateway == gw && c.exips[n].localCluster == c.id
  }

  /** The available gateways on the same logical router. */
  function Available(c: Cluster, gw: Word): set<Word> {
    set h | h in c.pods && h in c.gateways && Home(c, h) == Home(c, gw)
  }

  /** The first match of a list whose order is not known: any, or none when there is none. */
  predicate Picks<T(==)>(matching: set<T>, pick: Option<T>) {
    if matching == {} then pick.None? else pick.Some? && pick.value in matching
  }

  predicate Labelled(t: VpcNatTunnel, vpc: Word) {
    "localVpc" in t.labels && t.labels["localVpc"] == vpc
  }

  /** Every tunnel of the VPC gets the external IP, and the gateway if one is given. */
  function Retarget(tunnels: map<Key, VpcNatTunnel>, vpc: Word, gw: Option<Word>, ip: Word): map<Key, VpcNatTunnel> {
    map k | k in tunnels :: RetargetOne(tunnels[k], vpc, gw, ip)
  }

  function RetargetOne(t: VpcNatTunnel, vpc: Word, gw: Option<Word>, ip: Word): VpcNatTunnel {
    if !Labelled(t, vpc) then t
    else t.(spec := t.spec.(internalIP := ip, localGw := if gw.Some? then gw.value else t.spec.localGw))
  }

  /** AddFunc, lines 64-144 */
  function HandleAdded(c: Cluster, gw: Word, available: bool, cidr: Option<Word>): Cluster {
    var vpc := Home(c, gw);
    var name := ExIpName(vpc, c.id);
    if !available || gw !in c.gateways || gw !in c.pods || name in c.exips || vpc !in c.vpcs then c
    else if exists hop | hop in c.vpcs[vpc] :: hop != c.gateways[gw].lanIP then c
    else if cidr.None? then c
    else c.(exips := c.exips[name := GatewayExIp(c.pods[gw].externalIP, cidr.value, vpc, gw, c.id)])
  }

  /** Make `next` the primary gateway behind the GatewayExIp `name`: routes, GatewayExIp, tunnels. */
  function Promote(c: Cluster, name: string, next: Word): Cluster
    requires name in c.exips && c.exips[name].localVpc in c.vpcs && next in c.pods && next in c.gateways
  {
    var e := c.exips[name];
    var ip := c.pods[next].externalIP;
    c.(vpcs := c.vpcs[e.localVpc := seq(|c.vpcs[e.localVpc]|, _ => c.gateways[next].lanIP)],
       exips := c.exips[name := e.(externalIP := ip, localGateway := next)],
       tunnels := Retarget(c.tunnels, e.localVpc, Some(next), ip))
  }

  /** UpdateFunc from 1 to 0 available pods, lines 151-253 */
  function HandleWentDown(c: Cluster, gw: Word, exip: Option<string>, next: Option<Word>): Cluster
    requires Picks(ExIpsNaming(c, gw), exip) && Picks(Available(c, gw) - {gw}, next)
  {
    if exip.None? || c.exips[exip.value].localVpc !in c.vpcs || next.None? then c
    else Promote(c, exip.value, next.value)
  }

  /** UpdateFunc from 0 to 1 available pods, lines 255-320 */
  function HandleCameUp(c: Cluster, gw: Word, exip: Option<string>): Cluster
    requires Picks(ExIpsNaming(c, gw), exip)
  {
    if exip.None? || gw !in c.pods then c
    else
      var e := c.exips[exip.value];
      var ip := c.pods[gw].externalIP;
      c.(exips := c.exips[exip.value := e.(externalIP := ip)],
         tunnels := Retarget(c.tunnels, e.localVpc, None, ip))
  }

  /** DeleteFunc, lines 323-433 */
  function HandleDeleted(c: Cluster, gw: Word, exip: Option<string>, next: Option<Word>): Cluster
    requires Picks(ExIpsNaming(c, gw), exip) && Picks(Available(c, gw), next)
  {
    if exip.None? || c.exips[exip.value].localVpc !in c.vpcs then c
    else if next.None? then c.(exips := c.exips - {exip.value})
    else Promote(c, exip.value, next.value)
  }

  // ----- propagation from the broker (internal/controller/gatewayexip_controller.go) -----

  /** onRemoteGatewayExIpSynced, lines 155-186: the tunnels labelled with VPC and cluster of the name. */
  function Propagate(tunnels: map<Key, VpcNatTunnel>, name: string, ip: Word): map<Key, VpcNatTunnel>
    requires '.' in name
  {
    map k | k in tunnels :: PropagateOne(tunnels[k], name, ip)
  }

  predicate PointsAt(t: VpcNatTunnel, name: string)
    requires '.' in name
  {
    && "remoteVpc" in t.labels && t.labels["remoteVpc"] == SplitN2(name, '.')[0]
    && "remoteCluster" in t.labels && t.labels["remoteCluster"] == SplitN2(name, '.')[1]
  }

  function PropagateOne(t: VpcNatTunnel, name: string, ip: Word): VpcNatTunnel
    requires '.' in name
  {
    if PointsAt(t, name) then t.(spec := t.spec.(remoteIP := ip)) else t
  }

  // ----- steps -----

  datatype Step =
    | PodDies(gw: Word)
    | PodReturns(gw: Word, ip: Word, ovnGw: Word)
    | GatewayAdded(gw: Word, lanIP: Word, pod: Option<(Word, Word)>)   // a pod that is already up: IP, OVN gateway
    | GatewayRemoved(gw: Word)
    | HandleEvent(exip: Option<string>, next: Option<Word>, cidr: Option<Word>)
    | RemoteSet(name: string, e: GatewayExIp)
    | RemoteGone(name: string)
    | UserCreates(key: Key, t: VpcNatTunnel)
    | UserEdits(key: Key, t: VpcNatTunnel)
    | UserDeletes(key: Key)
    | Reconcile(key: Key, env: Env)

  predicate DotFree(s: string) {
    '.' !in s
  }

  const OPERATOR_LABELS := {"localVpc", "remoteVpc", "remoteCluster"}

  /** Labels that end up in a command have a value. */
  predicate LabelsFilled(labels: map<string, Word>) {
    Vid(labels) != "" && Port(labels) != ""
  }

  predicate EnvFilled(env: Env) {
    (env.globalnetCIDR.Some? ==> env.globalnetCIDR.value != "") && (env.egressIP.Some? ==> "" !in env.egressIP.value)
  }

  /** What users and environment do, and do not do. No value that ends up in a command is empty. */
  predicate Enabled(c: Cluster, step: Step) {
    match step
    case PodDies(gw) => gw in c.pods
    case PodReturns(gw, ip, ovnGw) => gw in c.gateways && gw !in c.pods && ip != "" && ovnGw != ""
    case GatewayAdded(gw, _, pod) => gw in c.homes && gw !in c.gateways
      && (pod.Some? ==> pod.value.0 != "" && pod.value.1 != "")
    case GatewayRemoved(gw) => gw in c.gateways
    case HandleEvent(exip, next, cidr) =>
      c.queue != [] && (cidr.Some? ==> cidr.value != "") &&
      var gw := c.queue[0].gw;
      && Picks(ExIpsNaming(c, gw), exip)
      && (c.queue[0].WentDown? ==> Picks(Available(c, gw) - {gw}, next))
      && (c.queue[0].Deleted? ==> Picks(Available(c, gw), next))
    case RemoteSet(name, e) =>
      && e.localCluster != c.id && DotFree(e.localVpc) && name == ExIpName(e.localVpc, e.localCluster)
      && e.externalIP != "" && e.globalNetCIDR != ""
    case RemoteGone(name) => name in c.exips && c.exips[name].localCluster != c.id && '.' in name
    case UserCreates(key, t) =>
      && key !in c.tunnels && key.name != "" && !OwnInterface(key.name)
      && t.status == EMPTY_STATUS && !t.deleting && t.labels.Keys !! OPERATOR_LABELS
      && DotFree(t.spec.localVpc) && DotFree(t.spec.remoteVpc) && t.spec.interfaceAddr != "" && LabelsFilled(t.labels)
      && (forall k | k in c.tunnels && k.name == key.name :: c.tunnels[k].spec.localVpc != t.spec.localVpc)
    case UserEdits(key, t) =>
      key in c.tunnels &&
      var was := c.tunnels[key];
      && t.status == was.status && t.finalizers == was.finalizers && t.deleting == was.deleting
      && t.spec.localVpc == was.spec.localVpc && DotFree(t.spec.remoteVpc) && t.spec.interfaceAddr != ""
      && LabelsFilled(t.labels)
      && t.spec.remoteIP == was.spec.remoteIP && t.spec.internalIP == was.spec.internalIP
      && t.spec.localGw == was.spec.localGw
      && (forall l | l in OPERATOR_LABELS :: (l in t.labels <==> l in was.labels) && LabelOf(t, l) == LabelOf(was, l))
      && (was.status.initialized ==>
          t.spec.remoteVpc == was.spec.remoteVpc && t.spec.remoteCluster == was.spec.remoteCluster)
    case UserDeletes(key) => key in c.tunnels
    case Reconcile(_, env) => EnvFilled(env)
  }

  function Next(c: Cluster, step: Step): Cluster
    requires Enabled(c, step)
  {
    match step
    case PodDies(gw) =>
      c.(pods := c.pods - {gw}, queue := c.queue + [WentDown(gw)])
    case PodReturns(gw, ip, ovnGw) =>
      c.(pods := c.pods[gw := Pod(ip, ovnGw, EMPTY)], queue := c.queue + [CameUp(gw)])
    case GatewayAdded(gw, lanIP, pod) =>
      c.(gateways := c.gateways[gw := Gateway(lanIP)],
         pods := if pod.Some? then c.pods[gw := Pod(pod.value.0, pod.value.1, EMPTY)] else c.pods,
         queue := c.queue + [Added(gw, pod.Some?)])
    case GatewayRemoved(gw) =>
      c.(gateways := c.gateways - {gw}, pods := c.pods - {gw}, queue := c.queue + [Deleted(gw)])
    case HandleEvent(exip, next, cidr) =>
      var rest := c.(queue := c.queue[1..]);
      (match c.queue[0]
       case Added(gw, available) => HandleAdded(rest, gw, available, cidr)
       case WentDown(gw) => HandleWentDown(rest, gw, exip, next)
       case CameUp(gw) => HandleCameUp(rest, gw, exip)
       case Deleted(gw) => HandleDeleted(rest, gw, exip, next))
    case RemoteSet(name, e) =>
      assert name[|e.localVpc|] == '.';
      c.(exips := c.exips[name := e], tunnels := Propagate(c.tunnels, name, e.externalIP))
    case RemoteGone(name) =>
      c.(exips := c.exips - {name}, tunnels := Propagate(c.tunnels, name, c.exips[name].externalIP))
    case UserCreates(key, t) => Put(c, key, t)
    case UserEdits(key, t) => Put(c, key, t)
    case UserDeletes(key) =>
      if c.tunnels[key].finalizers == [] then c.(tunnels := c.tunnels - {key})
      else Put(c, key, c.tunnels[key].(deleting := true))
    case Reconcile(key, env) => ReconcileTunnel(c, key, env).c
  }
}
