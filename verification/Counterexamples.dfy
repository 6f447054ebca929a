/**
 Runs that lose a property, a few steps after a state that is reached from an empty cluster by benign steps: what the
 guards are for. None of these steps is an error to the operator. All names and values are arbitrary.
 */
module Counterexamples {
  import opened Api
  import opened Finalizers
  import opened Netns
  import opened TunnelCommands
  import opened TunnelLifecycle
  import opened Cluster
  import opened Shape
  import opened Agreement
  import opened Addresses
  import opened Safety
  import opened SafetyOfReconcile
  import opened Record
  import opened Execs
  import opened RecordOfReconcile
  import opened RecordOfUpdate
  import opened Steps
  import opened Runs
  import opened Convergence

  // ----- reaching a state -----

  /** A run from an empty cluster that ends in this state. */
  ghost predicate ReachedBy(states: seq<Cluster>, steps: seq<Step>, c: Cluster) {
    && Run(states, steps) && Initial(states[0]) && states[|steps|] == c
    && forall j | 0 <= j < |steps| :: Benign(states[j], steps[j])
  }

  ghost predicate Reached(c: Cluster) {
    exists states, steps :: ReachedBy(states, steps, c)
  }

  lemma ReachedInitially(c: Cluster)
    requires Initial(c)
    ensures Reached(c)
  {
    assert ReachedBy([c], [], c);
  }

  /** The same, part by part. */
  predicate Same(c: Cluster, c': Cluster) {
    && c.id == c'.id && c.homes == c'.homes && c.gateways == c'.gateways && c.pods == c'.pods && c.vpcs == c'.vpcs
    && c.exips == c'.exips && c.tunnels == c'.tunnels && c.queue == c'.queue
  }

  lemma ReachedNext(c: Cluster, step: Step, c': Cluster)
    requires Reached(c) && Enabled(c, step) && Benign(c, step) && Same(Next(c, step), c')
    ensures Reached(c')
  {
    hide Next, Enabled, Benign, Initial;
    var states, steps :| ReachedBy(states, steps, c);
    Append(states, steps, step);
    assert ReachedBy(states + [c'], steps + [step], c');
  }

  lemma Append(states: seq<Cluster>, steps: seq<Step>, step: Step)
    requires Run(states, steps) && Enabled(states[|steps|], step)
    ensures Run(states + [Next(states[|steps|], step)], steps + [step])
  {
    hide Next, Enabled;
  }

  lemma ReachedIsInv(c: Cluster)
    requires Reached(c)
    ensures Inv(c) && Shaped(c) && Accurate(c)
  {
    hide Next, Benign, Initial, Accurate, Fresh, PrimariesExist, Shaped, GatewaysAgree;
    var states, steps :| ReachedBy(states, steps, c);
    InvInEveryState(states, steps, |steps|);
  }

  // ----- a scene -----

  /**
   A tunnel `key` from VPC `vpc` of cluster `id`, which has the gateways `a` and `b`, to `peerVpc` of cluster `peer`.
   The pod of gateway `a` comes up with `ip`.
   */
  datatype Scene = Scene(
    key: Key, addr: Word, typ: Word,
    id: Word, cidr: Word, egress: seq<Word>, vpc: Word, a: Word, b: Word, ip: Word, ovnGw: Word,
    peer: Word, peerVpc: Word, peerIP: Word, peerCIDR: Word)

  predicate Fine(s: Scene) {
    && s.key.name != "" && !OwnInterface(s.key.name) && s.addr != "" && DotFree(s.vpc) && DotFree(s.peerVpc)
    && s.id != s.peer && s.a != s.b && s.a != "" && s.b != "" && s.cidr != s.peerCIDR
    && s.cidr != "" && s.egress != [] && "" !in s.egress && s.ip != "" && s.ovnGw != "" && s.peerIP != ""
    && s.peerCIDR != ""
  }

  function LocalName(s: Scene): string {
    ExIpName(s.vpc, s.id)
  }

  function PeerName(s: Scene): string {
    ExIpName(s.peerVpc, s.peer)
  }

  function At(s: Scene, gateways: map<Word, Gateway>, pods: map<Word, Pod>, exips: map<string, GatewayExIp>,
              tunnels: map<Key, VpcNatTunnel>, queue: seq<Event>): Cluster {
    Cluster(s.id, map[s.a := s.vpc, s.b := s.vpc], gateways, pods, map[s.vpc := []], exips, tunnels, queue)
  }

  function Both(s: Scene): map<Word, Gateway> {
    map[s.a := Gateway(s.a), s.b := Gateway(s.b)]
  }

  function LocalExIp(s: Scene, gw: Word, ip: Word): GatewayExIp {
    GatewayExIp(ip, s.cidr, s.vpc, gw, s.id)
  }

  function PeerExIp(s: Scene, cidr: Word): GatewayExIp {
    GatewayExIp(s.peerIP, cidr, s.peerVpc, s.peer, s.peer)
  }

  /** The two VPCs' GatewayExIps. */
  function ExIps(s: Scene, gw: Word, ip: Word, peerCIDR: Word): map<string, GatewayExIp> {
    map[LocalName(s) := LocalExIp(s, gw, ip), PeerName(s) := PeerExIp(s, peerCIDR)]
  }

  /** As the user creates it. */
  function Unbuilt(s: Scene): VpcNatTunnel {
    VpcNatTunnel(TunnelSpec(s.peer, s.peerVpc, s.addr, s.vpc, s.typ, "", "", ""), EMPTY_STATUS, map[], [], false)
  }

  /** What a first build on gateway `a` records. */
  function StatusOf(s: Scene, pod: Pod): TunnelStatus {
    TunnelStatus(true, pod.externalIP, s.peerIP, s.addr, s.a, s.typ, s.cidr, s.peerCIDR, pod.ovnGw, s.egress)
  }

  /** The built tunnel, with Spec naming gateway and address. */
  function Tunnel(s: Scene, st: TunnelStatus, gw: Word, ip: Word): VpcNatTunnel {
    VpcNatTunnel(TunnelSpec(s.peer, s.peerVpc, s.addr, s.vpc, s.typ, s.peerIP, ip, gw), st,
                 map["localVpc" := s.vpc, "remoteVpc" := s.peerVpc, "remoteCluster" := s.peer], [FINALIZER], false)
  }

  function PodOf(s: Scene, ip: Word): Pod {
    Pod(ip, s.ovnGw, EMPTY)
  }

  function Carrying(s: Scene, pod: Pod): Pod
    requires Fine(s)
  {
    pod.(ns := Built(EMPTY, s.key.name, KindFor(s.typ, map[]), StatusOf(s, pod)))
  }

  /** A reconcile finds CIDR and egress addresses, and no connection breaks. */
  function Undisturbed(s: Scene): Env {
    Env(Some(s.cidr), Some(s.egress), [])
  }

  lemma NamesDiffer(s: Scene)
    requires Fine(s)
    ensures LocalName(s) != PeerName(s)
  {
    NameRoundTrip(s.vpc, s.id);
    NameRoundTrip(s.peerVpc, s.peer);
    assert [s.vpc, s.id][1] != [s.peerVpc, s.peer][1];
  }

  /** The only primary of the scene. */
  lemma Naming(s: Scene, c: Cluster, gw: Word, ip: Word, cidr: Word)
    requires Fine(s) && c.id == s.id && c.exips == ExIps(s, gw, ip, cidr)
    ensures ExIpsNaming(c, gw) == {LocalName(s)} && forall g | g != gw :: ExIpsNaming(c, g) == {}
  {
    NamesDiffer(s);
  }

  // ----- steps of the scene -----

  /** Handling an event of a gateway that no GatewayExIp names, or a failover without anyone to fail over to. */
  lemma HandledInVain(c: Cluster, exip: Option<string>, c': Cluster)
    requires Reached(c) && c.queue != [] && !c.queue[0].Added? && Same(c.(queue := c.queue[1..]), c')
    requires Picks(ExIpsNaming(c, c.queue[0].gw), exip)
    requires exip.Some? ==> c.queue[0].WentDown? && c.pods.Keys <= {c.queue[0].gw}
    ensures Reached(c')
  {
    hide Reached;
    var gw := c.queue[0].gw;
    var some := if c.queue[0].WentDown? then Available(c, gw) - {gw} else Available(c, gw);
    assert exip.Some? ==> some == {};
    var next := None;
    if some != {} {
      var g :| g in some;
      next := Some(g);
    }
    PopKeepsPicks(c, gw);
    ReachedNext(c, HandleEvent(exip, next, None), c');
  }

  /** A restart is handled when the pod is gone again. */
  lemma CameUpInVain(c: Cluster, gw: Word, exip: Option<string>, c': Cluster)
    requires Reached(c) && c.queue != [] && c.queue[0] == CameUp(gw) && gw !in c.pods && Picks(ExIpsNaming(c, gw), exip)
    requires Same(c.(queue := c.queue[1..]), c')
    ensures Reached(c')
  {
    hide Reached;
    PopKeepsPicks(c, gw);
    ReachedNext(c, HandleEvent(exip, None, None), c');
  }

  lemma Edited(c: Cluster, key: Key, t: VpcNatTunnel, c': Cluster)
    requires Reached(c) && Enabled(c, UserEdits(key, t)) && Same(Put(c, key, t), c')
    ensures Reached(c')
  {
    hide Reached;
    ReachedNext(c, UserEdits(key, t), c');
  }

  lemma DeletedByUser(c: Cluster, key: Key, c': Cluster)
    requires Reached(c) && key in c.tunnels && c.tunnels[key].finalizers != []
    requires Same(Put(c, key, c.tunnels[key].(deleting := true)), c')
    ensures Reached(c')
  {
    hide Reached;
    ReachedNext(c, UserDeletes(key), c');
  }

  lemma GatewayJoined(c: Cluster, gw: Word, pod: Option<(Word, Word)>, c': Cluster)
    requires Reached(c) && Enabled(c, GatewayAdded(gw, gw, pod)) && (pod.Some? ==> !ReusedAddress(c, gw, pod.value.0))
    requires Same(Next(c, GatewayAdded(gw, gw, pod)), c')
    ensures Reached(c')
  {
    hide Reached, Next, Enabled;
    ReachedNext(c, GatewayAdded(gw, gw, pod), c');
  }

  lemma GatewayLeft(c: Cluster, gw: Word, c': Cluster)
    requires Reached(c) && gw in c.gateways
    requires Same(c.(gateways := c.gateways - {gw}, pods := c.pods - {gw}, queue := c.queue + [Deleted(gw)]), c')
    ensures Reached(c')
  {
    hide Reached;
    ReachedNext(c, GatewayRemoved(gw), c');
  }

  /** What handling a failover is, as a step. */
  lemma FailoverStep(c: Cluster, gw: Word, name: string, next: Word)
    requires c.queue != [] && c.queue[0] == WentDown(gw) && ExIpsNaming(c, gw) == {name}
    requires next in Available(c, gw) - {gw} && c.exips[name].localVpc in c.vpcs
    ensures var step := HandleEvent(Some(name), Some(next), None);
            && Enabled(c, step) && Next(c, step) == Promote(c.(queue := c.queue[1..]), name, next)
            && Orderly(c, step) && (KeepsRecord(c, step) <==> !StaleFailover(c, gw, Some(name), Some(next)))
            && (Calm(c, step) <==> !StaleFailover(c, gw, Some(name), Some(next)))
  {
    hide Promote, StaleFailover;
    PopKeepsPicks(c, gw);
  }

  /** And handling a restart. */
  lemma RestartStep(c: Cluster, gw: Word, name: string)
    requires c.queue != [] && c.queue[0] == CameUp(gw) && ExIpsNaming(c, gw) == {name}
    ensures var step := HandleEvent(Some(name), None, None);
            var rest := c.(queue := c.queue[1..]);
            && Enabled(c, step) && Picks(ExIpsNaming(rest, gw), Some(name))
            && Next(c, step) == HandleCameUp(rest, gw, Some(name))
            && Orderly(c, step) && (KeepsRecord(c, step) <==> !Readdressed(c, gw, Some(name)))
  {
    hide HandleCameUp, Readdressed;
    PopKeepsPicks(c, gw);
  }

  lemma Died(c: Cluster, gw: Word, c': Cluster)
    requires Reached(c) && gw in c.pods && Same(c.(pods := c.pods - {gw}, queue := c.queue + [WentDown(gw)]), c')
    ensures Reached(c')
  {
    hide Reached;
    ReachedNext(c, PodDies(gw), c');
  }

  /** A pod comes up at a gateway where no tunnel is recorded with its address. */
  lemma CameBack(c: Cluster, gw: Word, ip: Word, ovnGw: Word, c': Cluster)
    requires Reached(c) && gw in c.gateways && gw !in c.pods && ip != "" && ovnGw != "" && !ReusedAddress(c, gw, ip)
    requires Same(c.(pods := c.pods[gw := Pod(ip, ovnGw, EMPTY)], queue := c.queue + [CameUp(gw)]), c')
    ensures Reached(c')
  {
    hide Reached;
    ReachedNext(c, PodReturns(gw, ip, ovnGw), c');
  }

  /** The scene before the tunnel is built: `a` is primary, `b` has no pod. */
  function Opening(s: Scene): Cluster {
    At(s, Both(s), map[s.a := PodOf(s, s.ip)], ExIps(s, s.a, s.ip, s.peerCIDR), map[s.key := Unbuilt(s)], [])
  }

  /** The first gateway's event creates the GatewayExIp. */
  lemma CreatesFirst(s: Scene, c: Cluster)
    requires Fine(s)
    requires c == At(s, map[s.a := Gateway(s.a)], map[s.a := PodOf(s, s.ip)], map[], map[], [Added(s.a, true)])
    ensures var step := HandleEvent(None, None, Some(s.cidr));
            && Enabled(c, step) && Benign(c, step)
            && Same(Next(c, step), c.(exips := map[LocalName(s) := LocalExIp(s, s.a, s.ip)], queue := []))
  {
    assert ExIpsNaming(c, s.a) == {} && c.queue[1..] == [];
    AddedIgnoresQueue(c, [], s.a, true, Some(s.cidr));
  }

  lemma FirstGateway(s: Scene)
    requires Fine(s)
    ensures Reached(At(s, map[s.a := Gateway(s.a)], map[s.a := PodOf(s, s.ip)],
                       map[LocalName(s) := LocalExIp(s, s.a, s.ip)], map[], []))
  {
    hide Reached, Benign;
    var c := At(s, map[], map[], map[], map[], []);
    ReachedInitially(c);
    var c1 := At(s, map[s.a := Gateway(s.a)], map[s.a := PodOf(s, s.ip)], map[], map[], [Added(s.a, true)]);
    GatewayJoined(c, s.a, Some((s.ip, s.ovnGw)), c1);
    CreatesFirst(s, c1);
    ReachedNext(c1, HandleEvent(None, None, Some(s.cidr)),
                c1.(exips := map[LocalName(s) := LocalExIp(s, s.a, s.ip)], queue := []));
  }

  lemma SecondGateway(s: Scene)
    requires Fine(s)
    ensures Reached(At(s, Both(s), map[s.a := PodOf(s, s.ip)], map[LocalName(s) := LocalExIp(s, s.a, s.ip)], map[], []))
  {
    hide Reached;
    FirstGateway(s);
    var exips := map[LocalName(s) := LocalExIp(s, s.a, s.ip)];
    var c := At(s, map[s.a := Gateway(s.a)], map[s.a := PodOf(s, s.ip)], exips, map[], []);
    var c1 := c.(gateways := Both(s), queue := [Added(s.b, false)]);
    GatewayJoined(c, s.b, None, c1);
    assert ExIpsNaming(c1, s.b) == {};
    ReachedNext(c1, HandleEvent(None, None, None), c1.(queue := []));
  }

  lemma Opened(s: Scene)
    requires Fine(s)
    ensures Reached(Opening(s))
  {
    hide Reached;
    SecondGateway(s);
    NamesDiffer(s);
    var c := At(s, Both(s), map[s.a := PodOf(s, s.ip)], map[LocalName(s) := LocalExIp(s, s.a, s.ip)], map[], []);
    var c1 := c.(exips := ExIps(s, s.a, s.ip, s.peerCIDR));
    assert PeerName(s)[|s.peerVpc|] == '.';
    ReachedNext(c, RemoteSet(PeerName(s), PeerExIp(s, s.peerCIDR)), c1);
    ReachedNext(c1, UserCreates(s.key, Unbuilt(s)), Opening(s));
  }

  /** A first build on an empty pod, in full. */
  lemma FirstBuildDone(c: Cluster, key: Key, env: Env)
    requires key in c.tunnels && !c.tunnels[key].deleting
    requires !c.tunnels[key].status.initialized && !OwnInterface(key.name)
    requires FindsAll(c, c.tunnels[key], env) && Unbroken(env, 0, 2)
    requires var st := FirstStatusIn(c, c.tunnels[key], env);
             st.globalEgressIP != [] && st.globalnetCIDR != st.remoteGlobalnetCIDR && c.pods[st.localGw].ns == EMPTY
    ensures var t := WithFinalizer(c.tunnels[key]);
            var st := FirstStatusIn(c, c.tunnels[key], env);
            ReconcileTunnel(c, key, env).c
            == c.(pods := SetNs(c.pods, st.localGw, Built(EMPTY, key.name, KindFor(t.spec.typ, t.labels), st)),
                  tunnels := c.tunnels[key := FirstRecord(t, c.exips[RemoteName(t)], st)])
  {
    hide CreateCmd, GenGlobalnetRoute, ExecBoth, KindFor, FirstRecord, Unbroken, ReconcileTunnel;
    var t := WithFinalizer(c.tunnels[key]);
    var c1 := Put(c, key, t);
    var st := FirstStatusIn(c, c.tunnels[key], env);
    assert FirstStatusIn(c1, t, env) == st;
    assert c1.tunnels == c.tunnels[key := t];
    ReconcileIsFirstBuild(c, key, env);
    BuildOnEmpty(c1, key.name, st.localGw, t.spec.typ, st, t.labels, env, 0);
  }

  /** The tunnel is built on `a`, whatever is still to be handled. */
  lemma SceneBuilt(s: Scene, pods: map<Word, Pod>, ip: Word, queue: seq<Event>)
    requires Fine(s) && s.a in pods && pods[s.a].ns == EMPTY
    requires Reached(At(s, Both(s), pods, ExIps(s, s.a, ip, s.peerCIDR), map[s.key := Unbuilt(s)], queue))
    ensures var c := At(s, Both(s), pods, ExIps(s, s.a, ip, s.peerCIDR), map[s.key := Unbuilt(s)], queue);
            var t := Tunnel(s, StatusOf(s, pods[s.a]), s.a, pods[s.a].externalIP);
            var c' := c.(pods := pods[s.a := Carrying(s, pods[s.a])], tunnels := map[s.key := t]);
            Reached(c') && Enabled(c, Reconcile(s.key, Undisturbed(s)))
              && c' == Next(c, Reconcile(s.key, Undisturbed(s)))
  {
    hide Reached, ReconcileTunnel, KindFor;
    var c := At(s, Both(s), pods, ExIps(s, s.a, ip, s.peerCIDR), map[s.key := Unbuilt(s)], queue);
    NamesDiffer(s);
    assert RemoteName(Unbuilt(s)) == PeerName(s);
    assert [] + [FINALIZER] == [FINALIZER];
    FirstBuildDone(c, s.key, Undisturbed(s));
    var t := Tunnel(s, StatusOf(s, pods[s.a]), s.a, pods[s.a].externalIP);
    assert FirstRecord(WithFinalizer(Unbuilt(s)), PeerExIp(s, s.peerCIDR), StatusOf(s, pods[s.a])) == t;
    ReconcileIsAStep(c, s.key, Undisturbed(s));
    var c' := c.(pods := pods[s.a := Carrying(s, pods[s.a])], tunnels := map[s.key := t]);
    assert Same(ReconcileTunnel(c, s.key, Undisturbed(s)).c, c');
    SceneIsBenign(s, c);
    ReachedNext(c, Reconcile(s.key, Undisturbed(s)), c');
  }

  lemma SceneIsBenign(s: Scene, c: Cluster)
    requires Fine(s) && c.tunnels == map[s.key := Unbuilt(s)] && PeerName(s) in c.exips
    requires c.exips[PeerName(s)].globalNetCIDR == s.peerCIDR
    requires LocalName(s) in c.exips && c.exips[LocalName(s)].localGateway in c.pods && c.id == s.id
    requires c.pods[c.exips[LocalName(s)].localGateway].ns == EMPTY
    ensures Benign(c, Reconcile(s.key, Undisturbed(s)))
  {
  }

  /** The tunnel stands on the primary `a`, and nothing is to be handled. */
  function Standstill(s: Scene): Cluster
    requires Fine(s)
  {
    At(s, Both(s), map[s.a := Carrying(s, PodOf(s, s.ip))], ExIps(s, s.a, s.ip, s.peerCIDR),
       map[s.key := Tunnel(s, StatusOf(s, PodOf(s, s.ip)), s.a, s.ip)], [])
  }

  lemma StandstillReached(s: Scene)
    requires Fine(s)
    ensures Reached(Standstill(s))
  {
    hide Reached, Next, Enabled;
    Opened(s);
    var pods := map[s.a := PodOf(s, s.ip)];
    SceneBuilt(s, pods, s.ip, []);
    assert pods[s.a := Carrying(s, pods[s.a])] == map[s.a := Carrying(s, PodOf(s, s.ip))];
  }

  /** What the standing tunnel's pod holds. */
  lemma CarryingHolds(s: Scene, pod: Pod)
    requires Fine(s)
    ensures Holds(Carrying(s, pod).ns, s.key.name, StatusOf(s, pod)) && s.key.name in Carrying(s, pod).ns.devs
  {
    BuiltHolds(s.key.name, s.typ, map[], StatusOf(s, pod));
  }

  // ----- a reused address -----

  /**
   A pod comes back with the address it had: Status names it although it is empty, Spec still equals
   Status, and so no reconcile ever builds the tunnel again.
   */
  lemma ReusedAddressIsNotNoticed(s: Scene, env: Env) returns (c: Cluster, step: Step)
    requires Fine(s)
    ensures Reached(c) && Enabled(c, step) && step == PodReturns(s.a, s.ip, s.ovnGw)
    ensures !Accurate(Next(c, step)) && Next(c, step).pods[s.a].ns == EMPTY
    ensures AtRest(Next(c, step), s.key, env)
  {
    hide Reached, RecordOk, ReusedAddress, StatusOf, ExIps;
    GoneReached(s);
    c := Standstill(s).(pods := map[]);
    step := PodReturns(s.a, s.ip, s.ovnGw);
    IsReused(s, c);
    ReachedIsInv(c);
    StepRecordExact(c, step);
    NothingOutdated(s, Next(c, step), env);
  }

  /** The tunnel's pod is gone, and there is none to fail over to. */
  lemma GoneReached(s: Scene)
    requires Fine(s)
    ensures Reached(Standstill(s).(pods := map[]))
  {
    hide Reached, Carrying, StatusOf, ExIps;
    StandstillReached(s);
    var c := Standstill(s);
    var c1 := c.(pods := map[], queue := [WentDown(s.a)]);
    Died(c, s.a, c1);
    Naming(s, c1, s.a, s.ip, s.peerCIDR);
    HandledInVain(c1, Some(LocalName(s)), c.(pods := map[]));
  }

  lemma IsReused(s: Scene, c: Cluster)
    requires c.tunnels == map[s.key := Tunnel(s, StatusOf(s, PodOf(s, s.ip)), s.a, s.ip)]
    ensures ReusedAddress(c, s.a, s.ip)
  {
    assert s.key in c.tunnels && Recorded(c.tunnels[s.key]);
  }

  lemma NothingOutdated(s: Scene, c: Cluster, env: Env)
    requires Fine(s) && c.tunnels == map[s.key := Tunnel(s, StatusOf(s, PodOf(s, s.ip)), s.a, s.ip)]
    requires c.exips == ExIps(s, s.a, s.ip, s.peerCIDR)
    ensures AtRest(c, s.key, env)
  {
    hide FirstBuild, Update;
    NamesDiffer(s);
    assert RemoteName(c.tunnels[s.key]) == PeerName(s);
  }

  // ----- a failover that is handled late -----

  /** An update on another gateway whose pod is empty: built and recorded there, with Spec's address. */
  lemma MovedUpdate(c: Cluster, key: Key, env: Env)
    requires Standing(c, key) && RemoteName(c.tunnels[key]) in c.exips && Unbroken(env, 2, 4) && !OwnInterface(key.name)
    requires var t := c.tunnels[key];
             && !SamePlace(t) && t.status.typ == t.spec.typ && t.spec.localGw != "" && t.spec.localGw in c.pods
             && c.pods[t.spec.localGw].ns == EMPTY && t.status.globalEgressIP != []
             && t.status.globalnetCIDR != c.exips[RemoteName(t)].globalNetCIDR
    ensures var t := c.tunnels[key]; var remote := c.exips[RemoteName(t)];
            var r := ReconcileTunnel(c, key, env);
            var ns := Built(EMPTY, key.name, KindFor(t.spec.typ, t.labels), NextStatus(t, remote));
            && r.outcome == Done
            && r.c == c.(pods := SetNs(c.pods, t.spec.localGw, ns), tunnels := c.tunnels[key := Updated(t, remote)])
  {
    hide ReconcileTunnel, Rebuild, Update, Updated, KindFor, Unbroken;
    var t := c.tunnels[key];
    var remote := c.exips[RemoteName(t)];
    var _ := RebuildRuns(c, key, t, remote, env);
    ReconcileIsUpdate(c, key, env);
    UpdateIsRebuild(c, key, remote, env);
  }

  /** A deletion while the recorded pod is running: the pod is emptied and the object gone. */
  lemma DeletionRuns(c: Cluster, key: Key, env: Env)
    requires key in c.tunnels && c.tunnels[key].deleting && c.tunnels[key].finalizers == [FINALIZER]
    requires var t := c.tunnels[key];
             && t.status.localGw in c.pods && Holds(c.pods[t.status.localGw].ns, key.name, t.status)
             && t.status.typ == t.spec.typ && Unbroken(env, 0, 2) && !OwnInterface(key.name)
    ensures ReconcileTunnel(c, key, env).c
         == c.(pods := SetNs(c.pods, c.tunnels[key].status.localGw, EMPTY), tunnels := c.tunnels - {key})
  {
    hide GenDelGlobalnetRoute, DeleteCmd, ExecBoth, Unbroken;
    var t := c.tunnels[key];
    TakeDownRecorded(c, key.name, t.status.localGw, t.spec.typ, t.status, env);
    assert Dropped([FINALIZER], FINALIZER) == Dropped([], FINALIZER) by {
      assert [FINALIZER][1..] == [];
    }
  }

  /** After the move, building on the new gateway and deleting leaves what was on the old one. */
  lemma MovedThenDeleted(c: Cluster, key: Key, a: Word, env: Env) returns (c1: Cluster, c2: Cluster, c3: Cluster)
    requires Standing(c, key) && RemoteName(c.tunnels[key]) in c.exips && Unbroken(env, 0, 4) && !OwnInterface(key.name)
    requires var t := c.tunnels[key];
             && !SamePlace(t) && t.status.typ == t.spec.typ && t.spec.localGw != "" && t.spec.localGw in c.pods
             && c.pods[t.spec.localGw].ns == EMPTY && t.status.globalEgressIP != [] && t.finalizers == [FINALIZER]
             && t.status.globalnetCIDR != c.exips[RemoteName(t)].globalNetCIDR
             && a in c.pods && a != t.spec.localGw
    ensures c1 == ReconcileTunnel(c, key, env).c
    ensures Enabled(c1, UserDeletes(key)) && c2 == Next(c1, UserDeletes(key)) && c3 == ReconcileTunnel(c2, key, env).c
    ensures key !in c3.tunnels && a in c3.pods && c3.pods[a] == c.pods[a]
  {
    hide ReconcileTunnel, KindFor, Holds;
    UnbrokenInTwo(env);
    hide Unbroken;
    MovedUpdate(c, key, env);
    c1 := ReconcileTunnel(c, key, env).c;
    c2 := Next(c1, UserDeletes(key));
    var t := c1.tunnels[key];
    BuiltHolds(key.name, t.spec.typ, c.tunnels[key].labels, t.status);
    DeletionRuns(c2, key, env);
    c3 := ReconcileTunnel(c2, key, env).c;
  }

  /** The two ends of a restart of `a`, with the same address, are still to be handled when the tunnel is built. */
  function Restarted(s: Scene, ipB: Word): Cluster
    requires Fine(s)
  {
    At(s, Both(s), map[s.a := Carrying(s, PodOf(s, s.ip)), s.b := PodOf(s, ipB)], ExIps(s, s.a, s.ip, s.peerCIDR),
       map[s.key := Tunnel(s, StatusOf(s, PodOf(s, s.ip)), s.a, s.ip)], [WentDown(s.a), CameUp(s.a)])
  }

  lemma OpenedWithStandby(s: Scene, ipB: Word)
    requires Fine(s) && ipB != ""
    ensures Reached(Opening(s).(pods := map[s.a := PodOf(s, s.ip), s.b := PodOf(s, ipB)]))
  {
    hide Reached;
    Opened(s);
    var c := Opening(s);
    var c1 := c.(pods := map[s.a := PodOf(s, s.ip), s.b := PodOf(s, ipB)], queue := [CameUp(s.b)]);
    CameBack(c, s.b, ipB, s.ovnGw, c1);
    Naming(s, c1, s.a, s.ip, s.peerCIDR);
    HandledInVain(c1, None, c1.(queue := []));
  }

  /** The restart of `a`, before the tunnel is built. */
  lemma RestartPending(s: Scene, ipB: Word)
    requires Fine(s) && ipB != ""
    ensures Reached(Opening(s).(pods := map[s.a := PodOf(s, s.ip), s.b := PodOf(s, ipB)],
                                queue := [WentDown(s.a), CameUp(s.a)]))
  {
    hide Reached, ExIps;
    OpenedWithStandby(s, ipB);
    var c := Opening(s).(pods := map[s.a := PodOf(s, s.ip), s.b := PodOf(s, ipB)]);
    var c1 := c.(pods := map[s.b := PodOf(s, ipB)], queue := [WentDown(s.a)]);
    Died(c, s.a, c1);
    CameBack(c1, s.a, s.ip, s.ovnGw, c.(queue := [WentDown(s.a), CameUp(s.a)]));
  }

  lemma RestartedReached(s: Scene, ipB: Word)
    requires Fine(s) && ipB != ""
    ensures Reached(Restarted(s, ipB))
  {
    hide Reached, Next, Enabled, Carrying, ExIps, StatusOf;
    RestartPending(s, ipB);
    var pods := map[s.a := PodOf(s, s.ip), s.b := PodOf(s, ipB)];
    SceneBuilt(s, pods, s.ip, [WentDown(s.a), CameUp(s.a)]);
    assert pods[s.a := Carrying(s, PodOf(s, s.ip))] == Restarted(s, ipB).pods;
  }

  /** The late failover can be handled, and is stale. */
  lemma LateFailover(s: Scene, ipB: Word)
    requires Fine(s)
    ensures var c := Restarted(s, ipB);
            var step := HandleEvent(Some(LocalName(s)), Some(s.b), None);
            && Enabled(c, step) && !Calm(c, step) && LocalName(s) in c.exips
            && c.exips[LocalName(s)] == LocalExIp(s, s.a, s.ip)
            && Next(c, step) == Promote(c.(queue := [CameUp(s.a)]), LocalName(s), s.b)
  {
    hide Next, Enabled, Calm, Orderly, KeepsRecord, KindFor, Promote, ExIpName, StatusOf;
    var c := Restarted(s, ipB);
    NamesDiffer(s);
    Naming(s, c, s.a, s.ip, s.peerCIDR);
    assert c.queue[1..] == [CameUp(s.a)];
    FailoverStep(c, s.a, LocalName(s), s.b);
    assert s.key.name in c.pods[s.a].ns.devs;
    assert s.a in c.pods && StaleFailover(c, s.a, Some(LocalName(s)), Some(s.b));
  }

  /** Where it leads: Spec names the other gateway, and no pod changes. */
  lemma LatePromotion(s: Scene, ipB: Word)
    requires Fine(s)
    ensures var c := Restarted(s, ipB).(queue := [CameUp(s.a)]);
            && LocalName(s) in c.exips && c.exips[LocalName(s)] == LocalExIp(s, s.a, s.ip)
            && var c' := Promote(c, LocalName(s), s.b);
               && c'.pods == c.pods && c'.tunnels == map[s.key := Tunnel(s, StatusOf(s, PodOf(s, s.ip)), s.b, ipB)]
               && PeerName(s) in c'.exips && c'.exips[PeerName(s)].globalNetCIDR == s.peerCIDR
  {
    hide KindFor, Retarget, StatusOf;
    NamesDiffer(s);
    RetargetsScene(s, ipB, map[s.key := Tunnel(s, StatusOf(s, PodOf(s, s.ip)), s.a, s.ip)]);
  }

  /** A run to a state that is reached, and four steps more. */
  lemma Continued(c: Cluster, after: seq<Cluster>, more: seq<Step>) returns (states: seq<Cluster>, steps: seq<Step>)
    requires Reached(c) && |after| == 4 && |more| == 4
    requires Enabled(c, more[0]) && after[0] == Next(c, more[0])
    requires Enabled(after[0], more[1]) && after[1] == Next(after[0], more[1])
    requires Enabled(after[1], more[2]) && after[2] == Next(after[1], more[2])
    requires Enabled(after[2], more[3]) && after[3] == Next(after[2], more[3])
    ensures Run(states, steps) && Initial(states[0]) && |steps| >= 4 && steps[|steps| - 4..] == more
    ensures forall j | 0 <= j < |steps| - 4 :: Benign(states[j], steps[j])
    ensures states[|steps| - 4..] == [c] + after
  {
    hide Initial, Next, Enabled, Benign;
    states, steps :| ReachedBy(states, steps, c);
    Append(states, steps, more[0]);
    Append(states + [after[0]], steps + [more[0]], more[1]);
    Append(states + [after[0]] + [after[1]], steps + [more[0]] + [more[1]], more[2]);
    Append(states + [after[0]] + [after[1]] + [after[2]], steps + [more[0]] + [more[1]] + [more[2]], more[3]);
    states := states + [after[0]] + [after[1]] + [after[2]] + [after[3]];
    steps := steps + [more[0]] + [more[1]] + [more[2]] + [more[3]];
  }

  /**
   A failover that is handled late, in a run from an empty cluster: the old primary is running again and carries the
   tunnel's device, while Spec is pointed at the other gateway. The next reconcile builds a second device there, the
   deletion takes down that one only, and in the end a running pod has the device of a tunnel that is gone. All steps
   before the last four are benign.
   */
  lemma StaleFailoverLeavesADevice(s: Scene, ipB: Word) returns (states: seq<Cluster>, steps: seq<Step>)
    requires Fine(s) && ipB != ""
    ensures Run(states, steps) && Initial(states[0]) && |steps| >= 4
    ensures forall j | 0 <= j < |steps| - 4 :: Benign(states[j], steps[j])
    ensures steps[|steps| - 4..] == [HandleEvent(Some(LocalName(s)), Some(s.b), None), Reconcile(s.key, Undisturbed(s)),
                                     UserDeletes(s.key), Reconcile(s.key, Undisturbed(s))]
    ensures !Safe(states[|steps| - 3])
    ensures var last := states[|steps|];
            s.key !in last.tunnels && s.a in last.pods && s.key.name in last.pods[s.a].ns.devs
  {
    hide Initial, Next, Enabled, Shaped, NoOrphanDevices, Accurate, ReconcileTunnel, KindFor, Benign, Calm, Promote;
    RestartedReached(s, ipB);
    var c := Restarted(s, ipB);
    LateFailover(s, ipB);
    LatePromotion(s, ipB);
    ReachedIsInv(c);
    AccurateIsSafe(c);
    StepSafeExact(c, HandleEvent(Some(LocalName(s)), Some(s.b), None));
    var failover, reconcile := HandleEvent(Some(LocalName(s)), Some(s.b), None), Reconcile(s.key, Undisturbed(s));
    var c1 := Next(c, failover);
    var c2, c3, c4 := MovedThenDeleted(c1, s.key, s.a, Undisturbed(s));
    ReconcileIsAStep(c1, s.key, Undisturbed(s));
    ReconcileIsAStep(c3, s.key, Undisturbed(s));
    states, steps := Continued(c, [c1, c2, c3, c4], [failover, reconcile, UserDeletes(s.key), reconcile]);
    CarryingHolds(s, PodOf(s, s.ip));
  }

  lemma ReconcileIsAStep(c: Cluster, key: Key, env: Env)
    requires EnvFilled(env)
    ensures Enabled(c, Reconcile(key, env)) && Next(c, Reconcile(key, env)) == ReconcileTunnel(c, key, env).c
  {
  }

  // ----- a delete command that does not fit -----

  /** A reconcile whose guards are not met. */
  lemma NotBenignBreaks(c: Cluster, key: Key, env: Env)
    requires Reached(c)
    ensures !BenignReconcile(c, key, env) ==> !Accurate(ReconcileTunnel(c, key, env).c)
  {
    hide BenignReconcile, ReconcileTunnel, RecordOk, Reached;
    ReachedIsInv(c);
    ReconcileExact(c, key, env);
  }

  /**
   Type is edited from vxlan to another one and the tunnel is deleted before a reconcile puts it back: the
   routes go, the device stays, and so does the object.
   */
  lemma WrongDeleteSticks(s: Scene, typ: Word, env: Env) returns (c: Cluster)
    requires Fine(s) && IsVxlan(s.typ) && !IsVxlan(typ) && Unbroken(env, 0, 2)
    ensures Reached(c) && s.key in c.tunnels && c.tunnels[s.key].deleting
    ensures var r := ReconcileTunnel(c, s.key, env);
            && r.outcome == Failed && r.c.tunnels == c.tunnels && s.a in r.c.pods
            && s.cidr !in r.c.pods[s.a].ns.routes && !Accurate(r.c)
  {
    hide Reached, ExecBoth, GenDelGlobalnetRoute, DeleteCmd, KindFor, Accurate, Holds;
    StandstillReached(s);
    MayBeEdited(s);
    var t := Standstill(s).tunnels[s.key];
    EditedThenDeleted(Standstill(s), s.key, t, typ);
    c := Standstill(s).(tunnels := map[s.key := t.(spec := t.spec.(typ := typ), deleting := true)]);
    CarryingHolds(s, PodOf(s, s.ip));
    TakeDownRecorded(c, s.key.name, s.a, typ, t.status, env);
    NotBenignBreaks(c, s.key, env);
  }

  lemma TypeMayBeEdited(c: Cluster, key: Key, t: VpcNatTunnel, typ: Word)
    requires c.tunnels == map[key := t] && Enabled(c, UserEdits(key, t))
    ensures Enabled(c, UserEdits(key, t.(spec := t.spec.(typ := typ))))
  {
    hide LabelsFilled;
  }

  lemma EditedThenDeleted(c: Cluster, key: Key, t: VpcNatTunnel, typ: Word)
    requires Reached(c) && c.tunnels == map[key := t] && t.finalizers != [] && !t.deleting
    requires Enabled(c, UserEdits(key, t))
    ensures Reached(c.(tunnels := map[key := t.(spec := t.spec.(typ := typ), deleting := true)]))
  {
    hide Reached, Enabled;
    TypeMayBeEdited(c, key, t, typ);
    var edited := t.(spec := t.spec.(typ := typ));
    var c1 := c.(tunnels := map[key := edited]);
    Edited(c, key, edited, c1);
    DeletedByUser(c1, key, c.(tunnels := map[key := edited.(deleting := true)]));
  }

  lemma MayBeEdited(s: Scene)
    requires Fine(s)
    ensures Enabled(Standstill(s), UserEdits(s.key, Standstill(s).tunnels[s.key]))
  {
    hide ExIps, Carrying, StatusOf;
  }

  // ----- clashing CIDRs -----

  /**
   The peer's CIDR changes to the own one: the update takes the tunnel down, cannot build it again and fails.
   The object goes on recording the tunnel, and the pod does not hold it.
   */
  lemma ClashingCIDRTakesDown(s: Scene, env: Env) returns (c: Cluster)
    requires Fine(s) && Unbroken(env, 0, 4)
    ensures Reached(c) && s.key in c.tunnels && s.a in c.pods
    ensures Holds(c.pods[s.a].ns, s.key.name, c.tunnels[s.key].status)
    ensures var r := ReconcileTunnel(c, s.key, env);
            && r.outcome == Failed && r.c.tunnels == c.tunnels && s.a in r.c.pods
            && !Holds(r.c.pods[s.a].ns, s.key.name, c.tunnels[s.key].status) && !Accurate(r.c)
  {
    hide Reached, ReconcileTunnel, KindFor, Unbroken, Accurate, BenignReconcile;
    StandstillReached(s);
    NamesDiffer(s);
    var c0 := Standstill(s);
    var changed := RemoteSet(PeerName(s), PeerExIp(s, s.cidr));
    assert PeerName(s)[|s.peerVpc|] == '.';
    c := c0.(exips := ExIps(s, s.a, s.ip, s.cidr));
    PropagateTheSame(c0.tunnels, PeerName(s), s.peerIP);
    ReachedNext(c0, changed, c);
    assert RemoteName(c.tunnels[s.key]) == PeerName(s);
    UnbrokenInTwo(env);
    CarryingHolds(s, PodOf(s, s.ip));
    ClashingUpdate(c, s.key, env);
    ReconcileIsUpdate(c, s.key, env);
    ClashIsNotBenign(c, s.key, env);
    NotBenignBreaks(c, s.key, env);
  }

  lemma PropagateTheSame(tunnels: map<Key, VpcNatTunnel>, name: string, ip: Word)
    requires '.' in name && forall k | k in tunnels :: tunnels[k].spec.remoteIP == ip
    ensures Propagate(tunnels, name, ip) == tunnels
  {
  }

  lemma ClashingUpdate(c: Cluster, key: Key, env: Env)
    requires Standing(c, key) && RemoteName(c.tunnels[key]) in c.exips && Unbroken(env, 0, 2) && !OwnInterface(key.name)
    requires var t := c.tunnels[key]; var remote := c.exips[RemoteName(t)];
             && SamePlace(t) && t.status.typ == t.spec.typ && t.spec.localGw != "" && t.spec.localGw in c.pods
             && Holds(c.pods[t.spec.localGw].ns, key.name, t.status) && Outdated(t, remote)
             && t.status.globalnetCIDR == remote.globalNetCIDR
    ensures var t := c.tunnels[key]; var r := Update(c, key, t, c.exips[RemoteName(t)], env);
            && r.outcome == Failed && r.c.tunnels == c.tunnels
            && t.spec.localGw in r.c.pods && !Holds(r.c.pods[t.spec.localGw].ns, key.name, t.status)
  {
    hide Rebuild, ExecBoth, GenDelGlobalnetRoute, DeleteCmd, KindFor, Unbroken, Updated;
    var t := c.tunnels[key];
    var gw, remote := t.spec.localGw, c.exips[RemoteName(t)];
    TakeDownRecorded(c, key.name, gw, t.spec.typ, t.status, env);
    var empty := Clear(c, key, t, env).c;
    var ns := RebuildRuns(empty, key, t, remote, env);
    BrokenBuildIsNotHeld(ns, key.name, t, remote);
  }

  lemma ClashIsNotBenign(c: Cluster, key: Key, env: Env)
    requires Standing(c, key) && RemoteName(c.tunnels[key]) in c.exips && Unbroken(env, 0, 4)
    requires var t := c.tunnels[key]; var remote := c.exips[RemoteName(t)];
             && SamePlace(t) && t.status.typ == t.spec.typ && t.spec.localGw != "" && Reaches(c, t.spec.localGw, t)
             && Outdated(t, remote) && t.status.globalnetCIDR == remote.globalNetCIDR
    ensures !BenignReconcile(c, key, env)
  {
    assert FaultOf(env, 0) == Healthy;
  }

  // ----- a pod that has been replaced -----

  /** `a` has gone and `b` been promoted, whose pod has been replaced since; the event that says so is pending. */
  function Replaced(s: Scene, before: Word, after: Word): Cluster
    requires Fine(s)
  {
    At(s, Both(s), map[s.b := PodOf(s, after)], ExIps(s, s.b, before, s.peerCIDR),
       map[s.key := Tunnel(s, StatusOf(s, PodOf(s, s.ip)), s.b, before)], [CameUp(s.b)])
  }

  /** The tunnel stands on `a`, and `b` has a pod, too. */
  lemma StandbyReached(s: Scene, ipB: Word)
    requires Fine(s) && ipB != ""
    ensures Reached(Standstill(s).(pods := map[s.a := Carrying(s, PodOf(s, s.ip)), s.b := PodOf(s, ipB)]))
  {
    hide Reached, KindFor;
    StandstillReached(s);
    var c := Standstill(s);
    var c1 := c.(pods := map[s.a := Carrying(s, PodOf(s, s.ip)), s.b := PodOf(s, ipB)], queue := [CameUp(s.b)]);
    CameBack(c, s.b, ipB, s.ovnGw, c1);
    Naming(s, c1, s.a, s.ip, s.peerCIDR);
    HandledInVain(c1, None, c1.(queue := []));
  }

  /** The tunnel's Spec names the promoted `b`, which is running. */
  function TakenOver(s: Scene, ipB: Word): Cluster
    requires Fine(s)
  {
    At(s, Both(s), map[s.b := PodOf(s, ipB)], ExIps(s, s.b, ipB, s.peerCIDR),
       map[s.key := Tunnel(s, StatusOf(s, PodOf(s, s.ip)), s.b, ipB)], [])
  }

  /** Handling the failover, once `a` is gone. */
  lemma FailsOver(s: Scene, ipB: Word, c: Cluster)
    requires Fine(s) && c == At(s, Both(s), map[s.b := PodOf(s, ipB)], ExIps(s, s.a, s.ip, s.peerCIDR),
                                map[s.key := Tunnel(s, StatusOf(s, PodOf(s, s.ip)), s.a, s.ip)], [WentDown(s.a)])
    ensures var step := HandleEvent(Some(LocalName(s)), Some(s.b), None);
            Enabled(c, step) && Benign(c, step) && Same(Next(c, step), TakenOver(s, ipB))
  {
    hide Next, Enabled, KeepsRecord, Orderly, KindFor, Promote, TakenOver, StatusOf, ExIps, ExIpName, Tunnel;
    Naming(s, c, s.a, s.ip, s.peerCIDR);
    assert c.queue[1..] == [];
    PromotesScene(s, ipB, c.(queue := []));
    FailoverStep(c, s.a, LocalName(s), s.b);
    assert !StaleFailover(c, s.a, Some(LocalName(s)), Some(s.b));
  }

  lemma PromotesScene(s: Scene, ipB: Word, c: Cluster)
    requires Fine(s) && c == At(s, Both(s), map[s.b := PodOf(s, ipB)], ExIps(s, s.a, s.ip, s.peerCIDR),
                                map[s.key := Tunnel(s, StatusOf(s, PodOf(s, s.ip)), s.a, s.ip)], [])
    ensures LocalName(s) in c.exips && c.exips[LocalName(s)] == LocalExIp(s, s.a, s.ip)
    ensures Same(Promote(c, LocalName(s), s.b), TakenOver(s, ipB))
  {
    hide KindFor, Retarget, StatusOf, ExIpName, Both, ExIps;
    ExIpsMoved(s, s.b, ipB);
    RetargetsScene(s, ipB, c.tunnels);
  }

  lemma ExIpsMoved(s: Scene, gw: Word, ip: Word)
    requires Fine(s)
    ensures LocalName(s) in ExIps(s, s.a, s.ip, s.peerCIDR)
    ensures ExIps(s, s.a, s.ip, s.peerCIDR)[LocalName(s)] == LocalExIp(s, s.a, s.ip)
    ensures ExIps(s, s.a, s.ip, s.peerCIDR)[LocalName(s) := LocalExIp(s, gw, ip)] == ExIps(s, gw, ip, s.peerCIDR)
  {
    hide LocalName, PeerName;
    NamesDiffer(s);
  }

  lemma RetargetsScene(s: Scene, ipB: Word, tunnels: map<Key, VpcNatTunnel>)
    requires tunnels == map[s.key := Tunnel(s, StatusOf(s, PodOf(s, s.ip)), s.a, s.ip)]
    ensures Retarget(tunnels, s.vpc, Some(s.b), ipB) == map[s.key := Tunnel(s, StatusOf(s, PodOf(s, s.ip)), s.b, ipB)]
  {
  }

  /** The failover from `a` to `b`. */
  lemma FailedOver(s: Scene, ipB: Word)
    requires Fine(s) && ipB != ""
    ensures Reached(TakenOver(s, ipB))
  {
    hide Reached, Next, Enabled, Benign, KindFor;
    StandbyReached(s, ipB);
    var c := Standstill(s).(pods := map[s.a := Carrying(s, PodOf(s, s.ip)), s.b := PodOf(s, ipB)]);
    var c1 := c.(pods := map[s.b := PodOf(s, ipB)], queue := [WentDown(s.a)]);
    Died(c, s.a, c1);
    FailsOver(s, ipB, c1);
    ReachedNext(c1, HandleEvent(Some(LocalName(s)), Some(s.b), None), TakenOver(s, ipB));
  }

  lemma ReplacedReached(s: Scene, before: Word, after: Word)
    requires Fine(s) && before != "" && after != ""
    ensures Reached(Replaced(s, before, after))
  {
    hide Reached, KindFor;
    FailedOver(s, before);
    var c := TakenOver(s, before);
    var c1 := c.(pods := map[], queue := [WentDown(s.b)]);
    Died(c, s.b, c1);
    var c2 := c.(pods := map[s.b := PodOf(s, after)], queue := [WentDown(s.b), CameUp(s.b)]);
    CameBack(c1, s.b, after, s.ovnGw, c2);
    Naming(s, c2, s.b, before, s.peerCIDR);
    HandledInVain(c2, Some(LocalName(s)), Replaced(s, before, after));
  }

  /**
   The gateway that Spec names has been replaced, and the event that says so is not handled yet: the update
   builds on the new pod and records the address of the one before it.
   */
  lemma MovedPodIsRecordedWrongly(s: Scene, before: Word, after: Word, env: Env) returns (c: Cluster)
    requires Fine(s) && before != "" && after != "" && before != after && Unbroken(env, 0, 4)
    ensures Reached(c) && s.key in c.tunnels
    ensures var r := ReconcileTunnel(c, s.key, env);
            && r.outcome == Done && s.key in r.c.tunnels && s.b in r.c.pods
            && r.c.tunnels[s.key].status.localGw == s.b && s.key.name in r.c.pods[s.b].ns.devs
            && r.c.tunnels[s.key].status.internalIP == before && r.c.pods[s.b].externalIP == after && !Accurate(r.c)
  {
    hide Reached, ReconcileTunnel, KindFor, Accurate;
    UnbrokenInTwo(env);
    ReplacedReached(s, before, after);
    NamesDiffer(s);
    c := Replaced(s, before, after);
    assert RemoteName(c.tunnels[s.key]) == PeerName(s);
    MovedUpdate(c, s.key, env);
    assert !BenignReconcile(c, s.key, env);
    NotBenignBreaks(c, s.key, env);
  }

  // ----- a GatewayExIp over tunnels of an earlier primary -----

  /** The VPC has lost its last gateway and its GatewayExIp. */
  lemma Abandoned(s: Scene)
    requires Fine(s)
    ensures Reached(At(s, map[s.b := Gateway(s.b)], map[], map[PeerName(s) := PeerExIp(s, s.peerCIDR)],
                       map[s.key := Tunnel(s, StatusOf(s, PodOf(s, s.ip)), s.a, s.ip)], []))
  {
    hide Reached, KindFor, Benign;
    StandstillReached(s);
    var c := Standstill(s);
    var c1 := c.(gateways := map[s.b := Gateway(s.b)], pods := map[], queue := [Deleted(s.a)]);
    GatewayLeft(c, s.a, c1);
    Retires(s, c1);
    ReachedNext(c1, HandleEvent(Some(LocalName(s)), None, None),
                c1.(exips := map[PeerName(s) := PeerExIp(s, s.peerCIDR)], queue := []));
  }

  /** The last gateway's deletion is handled. */
  lemma Retires(s: Scene, c: Cluster)
    requires Fine(s) && c.id == s.id && c.exips == ExIps(s, s.a, s.ip, s.peerCIDR)
    requires c.pods == map[] && c.queue == [Deleted(s.a)]
    requires s.vpc in c.vpcs
    ensures var step := HandleEvent(Some(LocalName(s)), None, None);
            && Enabled(c, step) && Benign(c, step)
            && Same(Next(c, step), c.(exips := map[PeerName(s) := PeerExIp(s, s.peerCIDR)], queue := []))
  {
    NamesDiffer(s);
    Naming(s, c, s.a, s.ip, s.peerCIDR);
    PopKeepsPicks(c, s.a);
    assert Available(c, s.a) == {} && c.queue[1..] == [];
    assert c.exips - {LocalName(s)} == map[PeerName(s) := PeerExIp(s, s.peerCIDR)];
  }

  /** The scene when the other gateway has been added, to an abandoned VPC. */
  function Adding(s: Scene, ipB: Word): Cluster {
    At(s, map[s.b := Gateway(s.b)], map[s.b := PodOf(s, ipB)], map[PeerName(s) := PeerExIp(s, s.peerCIDR)],
       map[s.key := Tunnel(s, StatusOf(s, PodOf(s, s.ip)), s.a, s.ip)], [Added(s.b, true)])
  }

  lemma CreatesOverTunnels(s: Scene, ipB: Word)
    requires Fine(s)
    ensures var c := Adding(s, ipB);
            Creates(c, s.b, true, Some(s.cidr)) && OrphanTunnels(c, s.b) && ExIpsNaming(c, s.b) == {}
              && Home(c, s.b) == s.vpc
  {
    hide StatusOf, ExIpName;
    NamesDiffer(s);
    var c := Adding(s, ipB);
    assert Labelled(c.tunnels[s.key], Home(c, s.b)) && c.tunnels[s.key].spec.localGw != s.b;
  }

  /** What handling the event does. */
  lemma CreatedOverTunnels(s: Scene, ipB: Word)
    requires Fine(s)
    ensures var c := Adding(s, ipB); var step := HandleEvent(None, None, Some(s.cidr));
            && Enabled(c, step) && !Orderly(c, step) && KeepsRecord(c, step)
            && var c' := Next(c, step);
               LocalName(s) in c'.exips && c'.exips[LocalName(s)].localGateway == s.b && c'.tunnels == c.tunnels
  {
    hide StatusOf, ExIpName, Creates, OrphanTunnels, StaleTunnels, Home;
    var c := Adding(s, ipB);
    CreatesOverTunnels(s, ipB);
    assert c.queue[1..] == [];
    AddedIgnoresQueue(c, [], s.b, true, Some(s.cidr));
    CreatesMeans(c, s.b, true, Some(s.cidr));
  }

  /** The other gateway is removed and added again, now with a pod. */
  lemma AnotherAdded(s: Scene, ipB: Word)
    requires Fine(s) && ipB != ""
    ensures Reached(Adding(s, ipB))
  {
    hide Reached, KindFor;
    Abandoned(s);
    var exips := map[PeerName(s) := PeerExIp(s, s.peerCIDR)];
    var tunnels := map[s.key := Tunnel(s, StatusOf(s, PodOf(s, s.ip)), s.a, s.ip)];
    var c := At(s, map[s.b := Gateway(s.b)], map[], exips, tunnels, []);
    var c1 := c.(gateways := map[], queue := [Deleted(s.b)]);
    GatewayLeft(c, s.b, c1);
    assert ExIpsNaming(c1, s.b) == {};
    var c2 := c.(gateways := map[]);
    HandledInVain(c1, None, c2);
    GatewayJoined(c2, s.b, Some((ipB, s.ovnGw)), c.(pods := map[s.b := PodOf(s, ipB)], queue := [Added(s.b, true)]));
  }

  /**
   The VPC has lost its last gateway and its GatewayExIp; another gateway is added. The new GatewayExIp names
   it, but the tunnels go on naming the old one.
   */
  lemma AddedGatewayIgnoresTunnels(s: Scene, ipB: Word) returns (c: Cluster, step: Step)
    requires Fine(s) && ipB != ""
    ensures Reached(c) && c.queue == [Added(s.b, true)] && Enabled(c, step)
    ensures step == HandleEvent(None, None, Some(s.cidr))
    ensures !Agreed(Next(c, step)) && Accurate(Next(c, step))
    ensures var c' := Next(c, step);
            && LocalName(s) in c'.exips && c'.exips[LocalName(s)].localGateway == s.b
            && c'.tunnels == c.tunnels && s.key in c.tunnels && c.tunnels[s.key].spec.localGw == s.a
  {
    hide Reached, Agreed, Accurate, StatusOf, Orderly, KeepsRecord, Next, Enabled;
    AnotherAdded(s, ipB);
    c, step := Adding(s, ipB), HandleEvent(None, None, Some(s.cidr));
    CreatedOverTunnels(s, ipB);
    ReachedIsInv(c);
    InvIsAgreed(c);
    StepAgreementExact(c, step);
    StepRecordExact(c, step);
  }

  lemma InvIsAgreed(c: Cluster)
    requires Inv(c)
    ensures Agreed(c)
  {
  }

  // ----- a restart that is over before its event is handled -----

  /**
   The only gateway's pod has come back with another address, and a tunnel is built before that event is handled.
   The pod dies again, and both events are handled without it. Every step is benign, no event is left, and
   GatewayExIp and tunnel carry two different old addresses.
   */
  lemma OldAddressesDiffer(s: Scene, ip: Word) returns (c: Cluster)
    requires Fine(s) && ip != "" && ip != s.ip
    ensures Reached(c) && c.queue == []
    ensures Local(c.exips, c.id, LocalName(s)) && c.exips[LocalName(s)].externalIP == s.ip
    ensures s.key in c.tunnels && Labelled(c.tunnels[s.key], c.exips[LocalName(s)].localVpc)
    ensures c.tunnels[s.key].spec.internalIP == ip && !Addressed(c)
  {
    hide Reached, Next, Enabled, KindFor;
    Opened(s);
    NamesDiffer(s);
    var c0 := Opening(s);
    var c1 := c0.(pods := map[], queue := [WentDown(s.a)]);
    Died(c0, s.a, c1);
    var pods := map[s.a := PodOf(s, ip)];
    var c2 := c0.(pods := pods, queue := [WentDown(s.a), CameUp(s.a)]);
    CameBack(c1, s.a, ip, s.ovnGw, c2);
    Naming(s, c2, s.a, s.ip, s.peerCIDR);
    HandledInVain(c2, Some(LocalName(s)), c2.(queue := [CameUp(s.a)]));
    SceneBuilt(s, pods, s.ip, [CameUp(s.a)]);
    c := EventsWithoutPod(s, ip);
    assert pods[s.a := Carrying(s, PodOf(s, ip))] == map[s.a := Carrying(s, PodOf(s, ip))];
    assert Local(c.exips, c.id, LocalName(s)) && Labelled(c.tunnels[s.key], c.exips[LocalName(s)].localVpc);
  }

  /** The pod dies, and the two events are handled: neither changes anything. */
  lemma EventsWithoutPod(s: Scene, ip: Word) returns (c: Cluster)
    requires Fine(s)
    ensures var t := Tunnel(s, StatusOf(s, PodOf(s, ip)), s.a, ip);
            var built := At(s, Both(s), map[s.a := Carrying(s, PodOf(s, ip))], ExIps(s, s.a, s.ip, s.peerCIDR),
                            map[s.key := t],
                            [CameUp(s.a)]);
            c == built.(pods := map[], queue := []) && (Reached(built) ==> Reached(c))
  {
    hide Reached, KindFor;
    var t := Tunnel(s, StatusOf(s, PodOf(s, ip)), s.a, ip);
    var built := At(s, Both(s), map[s.a := Carrying(s, PodOf(s, ip))], ExIps(s, s.a, s.ip, s.peerCIDR), map[s.key := t],
                    [CameUp(s.a)]);
    c := built.(pods := map[], queue := []);
    if Reached(built) {
      var c1 := built.(pods := map[], queue := [CameUp(s.a), WentDown(s.a)]);
      Died(built, s.a, c1);
      Naming(s, c1, s.a, s.ip, s.peerCIDR);
      var c2 := built.(pods := map[], queue := [WentDown(s.a)]);
      CameUpInVain(c1, s.a, Some(LocalName(s)), c2);
      Naming(s, c2, s.a, s.ip, s.peerCIDR);
      HandledInVain(c2, Some(LocalName(s)), c);
    }
  }

  // ----- a connection that breaks while a tunnel is built -----

  /** An unbuilt tunnel whose device is on its VPC's primary gateway already. */
  predicate Stuck(c: Cluster, key: Key) {
    key in c.tunnels && !c.tunnels[key].deleting && !c.tunnels[key].status.initialized &&
    var name := ExIpName(c.tunnels[key].spec.localVpc, c.id);
    && name in c.exips && c.exips[name].localGateway in c.pods
    && key.name in c.pods[c.exips[name].localGateway].ns.devs
  }

  lemma {:induction false} OpsKeepDevices(ns: NetNs, ops: seq<Op>)
    requires forall op | op in ops :: !op.TunnelDel? && !op.LinkDel?
    ensures ns.devs.Keys <= RunOps(ns, ops).ns.devs.Keys
    decreases |ops|
  {
    if ops != [] {
      OpsKeepDevices(RunOp(ns, ops[0]).ns, ops[1..]);
    }
  }

  /** Creating a device that is there already fails, and leaves it there. */
  lemma CreateOverDevice(ns: NetNs, name: Word, typ: string, st: TunnelStatus, labels: map<string, Word>, fault: Fault)
    requires name in ns.devs
    ensures var r := RunText(ns, CreateCmd(name, typ, st, labels), fault); !r.ok && name in r.ns.devs
  {
    hide CreateCmd;
    CreateRuns(ns, name, typ, st, labels);
    CreateCmdMeans(name, typ, st, labels);
    var ops := CreateOps(name, typ, st, labels);
    OpsKeepDevices(ns, if fault.CutAfter? && fault.n < |ops| then ops[..fault.n] else ops);
  }

  /**
   No reconcile of a stuck tunnel completes, however often it is tried: it fails, and the tunnel is stuck afterwards.
   */
  lemma StuckStays(c: Cluster, key: Key, env: Env)
    requires Stuck(c, key)
    ensures ReconcileTunnel(c, key, env).outcome == Failed && Stuck(ReconcileTunnel(c, key, env).c, key)
  {
    hide CreateCmd, RunText, GenGlobalnetRoute, Update;
    var t := WithFinalizer(c.tunnels[key]);
    if FindsAll(c, t, env) {
      var st := FirstStatusIn(c, t, env);
      CreateOverDevice(c.pods[st.localGw].ns, key.name, t.spec.typ, st, t.labels, FaultOf(env, 0));
    }
  }

  /**
   The connection breaks after the first operation of a first build: the device is there and nothing records it.
   From then on no reconcile completes, with the best of connections.
   */
  lemma BrokenBuildSticks(s: Scene) returns (c: Cluster, env: Env)
    requires Fine(s)
    ensures Reached(c) && s.key in c.tunnels && env == Undisturbed(s).(faults := [CutAfter(1)])
    ensures var r := ReconcileTunnel(c, s.key, env); r.outcome == Failed && Stuck(r.c, s.key) && !Accurate(r.c)
  {
    hide Reached, CreateCmd, RunText, GenGlobalnetRoute, Update, BenignReconcile, Accurate;
    Opened(s);
    NamesDiffer(s);
    c, env := Opening(s), Undisturbed(s).(faults := [CutAfter(1)]);
    var t := WithFinalizer(Unbuilt(s));
    assert RemoteName(t) == PeerName(s);
    CreateCut(s.key.name, t.spec.typ, FirstStatusIn(c, t, env), t.labels, 1);
    CutIsNotBenign(c, s.key, env);
    NotBenignBreaks(c, s.key, env);
  }

  lemma CutIsNotBenign(c: Cluster, key: Key, env: Env)
    requires key in c.tunnels && !c.tunnels[key].deleting && !c.tunnels[key].status.initialized
    requires FindsAll(c, c.tunnels[key], env) && FaultOf(env, 0) == CutAfter(1)
    ensures !BenignReconcile(c, key, env)
  {
    assert !Unbroken(env, 0, 2);
  }

  // ----- a deletion that harms another tunnel -----

  /** The tunnel's pod has been replaced, both events are handled, and it is not built again yet. */
  function Restored(s: Scene, ip: Word): Cluster {
    At(s, Both(s), map[s.a := PodOf(s, ip)], ExIps(s, s.a, ip, s.peerCIDR),
       map[s.key := Tunnel(s, StatusOf(s, PodOf(s, s.ip)), s.a, ip)], [])
  }

  /** The same while the restart is still to be handled. */
  function Restoring(s: Scene, ip: Word): Cluster {
    At(s, Both(s), map[s.a := PodOf(s, ip)], ExIps(s, s.a, s.ip, s.peerCIDR),
       map[s.key := Tunnel(s, StatusOf(s, PodOf(s, s.ip)), s.a, s.ip)], [CameUp(s.a)])
  }

  lemma ReaddressesScene(s: Scene, ip: Word, tunnels: map<Key, VpcNatTunnel>)
    requires tunnels == map[s.key := Tunnel(s, StatusOf(s, PodOf(s, s.ip)), s.a, s.ip)]
    ensures Retarget(tunnels, s.vpc, None, ip) == map[s.key := Tunnel(s, StatusOf(s, PodOf(s, s.ip)), s.a, ip)]
  {
  }

  /** Handling the restart. */
  lemma Readdresses(s: Scene, ip: Word)
    requires Fine(s)
    ensures var c := Restoring(s, ip); var step := HandleEvent(Some(LocalName(s)), None, None);
            Enabled(c, step) && Benign(c, step) && Same(Next(c, step), Restored(s, ip))
  {
    hide Next, Enabled, Orderly, KeepsRecord, StatusOf, ExIpName, ExIps, Tunnel, Retarget, Both;
    var c := Restoring(s, ip);
    ExIpsMoved(s, s.a, ip);
    ReaddressesScene(s, ip, c.tunnels);
    Naming(s, c, s.a, s.ip, s.peerCIDR);
    RestartStep(c, s.a, LocalName(s));
    assert c.queue[1..] == [];
  }

  lemma RestoredReached(s: Scene, ip: Word)
    requires Fine(s) && ip != "" && ip != s.ip
    ensures Reached(Restored(s, ip))
  {
    hide Reached, Next, Enabled, Benign, Carrying, ExIpName;
    StandstillReached(s);
    var c := Standstill(s);
    var c1 := c.(pods := map[], queue := [WentDown(s.a)]);
    Died(c, s.a, c1);
    var c2 := c.(pods := map[s.a := PodOf(s, ip)], queue := [WentDown(s.a), CameUp(s.a)]);
    CameBack(c1, s.a, ip, s.ovnGw, c2);
    Naming(s, c2, s.a, s.ip, s.peerCIDR);
    HandledInVain(c2, Some(LocalName(s)), Restoring(s, ip));
    Readdresses(s, ip);
    ReachedNext(Restoring(s, ip), HandleEvent(Some(LocalName(s)), None, None), Restored(s, ip));
  }

  /** A second tunnel of the VPC is built in the new pod. */
  function Shared(s: Scene, ip: Word, second: Key): Cluster
    requires Fine(s)
  {
    var pod := PodOf(s, ip);
    var ns := Built(EMPTY, second.name, KindFor(s.typ, map[]), StatusOf(s, pod));
    Restored(s, ip).(pods := map[s.a := pod.(ns := ns)],
                     tunnels := map[s.key := Tunnel(s, StatusOf(s, PodOf(s, s.ip)), s.a, ip),
                                    second := Tunnel(s, StatusOf(s, pod), s.a, ip)])
  }

  /** The second tunnel has been created. */
  function Created(s: Scene, ip: Word, second: Key): Cluster {
    Restored(s, ip).(tunnels := map[s.key := Tunnel(s, StatusOf(s, PodOf(s, s.ip)), s.a, ip), second := Unbuilt(s)])
  }

  lemma SecondFindsAll(s: Scene, ip: Word, second: Key)
    requires Fine(s) && second != s.key
    ensures var c := Created(s, ip, second);
            && FindsAll(c, Unbuilt(s), Undisturbed(s)) && RemoteName(Unbuilt(s)) == PeerName(s)
            && c.exips[PeerName(s)] == PeerExIp(s, s.peerCIDR)
            && c.exips[LocalName(s)] == LocalExIp(s, s.a, ip) && c.tunnels[second] == Unbuilt(s)
            && FirstStatusIn(c, Unbuilt(s), Undisturbed(s)) == StatusOf(s, PodOf(s, ip))
  {
    NamesDiffer(s);
  }

  lemma SecondIsBenign(s: Scene, ip: Word, second: Key)
    requires Fine(s) && second != s.key
    ensures Benign(Created(s, ip, second), Reconcile(second, Undisturbed(s)))
  {
    SecondFindsAll(s, ip, second);
    hide At, ExIps, Tunnel, ExIpName;
  }

  /** The first build of the second tunnel. */
  lemma SecondBuilt(s: Scene, ip: Word, second: Key)
    requires Fine(s) && second != s.key && !OwnInterface(second.name)
    ensures Same(ReconcileTunnel(Created(s, ip, second), second, Undisturbed(s)).c, Shared(s, ip, second))
  {
    hide ReconcileTunnel, KindFor, ExIpName, ExIps, FindsAll, FirstStatusIn;
    SecondFindsAll(s, ip, second);
    assert [] + [FINALIZER] == [FINALIZER];
    assert FirstRecord(WithFinalizer(Unbuilt(s)), PeerExIp(s, s.peerCIDR), StatusOf(s, PodOf(s, ip)))
        == Tunnel(s, StatusOf(s, PodOf(s, ip)), s.a, ip);
    FirstBuildDone(Created(s, ip, second), second, Undisturbed(s));
  }

  lemma SharedReached(s: Scene, ip: Word, second: Key)
    requires Fine(s) && ip != "" && ip != s.ip
    requires second.name != s.key.name && second.name != "" && !OwnInterface(second.name)
    ensures Reached(Shared(s, ip, second))
  {
    hide Reached, Benign, ReconcileTunnel, KindFor, StatusOf, ExIps;
    RestoredReached(s, ip);
    var c1 := Created(s, ip, second);
    NewTunnel(Restored(s, ip), second, Unbuilt(s), c1);
    SecondIsBenign(s, ip, second);
    SecondBuilt(s, ip, second);
    ReconcileIsAStep(c1, second, Undisturbed(s));
    ReachedNext(c1, Reconcile(second, Undisturbed(s)), Shared(s, ip, second));
  }

  lemma NewTunnel(c: Cluster, key: Key, t: VpcNatTunnel, c': Cluster)
    requires Reached(c) && Enabled(c, UserCreates(key, t)) && Same(Put(c, key, t), c')
    ensures Reached(c')
  {
    hide Reached;
    ReachedNext(c, UserCreates(key, t), c');
  }

  /**
   The first tunnel, whose pod is gone, is deleted: the delete command runs in the new pod, where the second tunnel
   of the VPC stands, and takes that one's in-flow route away. It fails, and Status of the second one goes on saying
   that it stands.
   */
  lemma DeletionHarmsAnother(s: Scene, ip: Word, second: Key, env: Env) returns (c: Cluster)
    requires Fine(s) && ip != "" && ip != s.ip && !NeverStarts(env, 0)
    requires second.name != s.key.name && second.name != "" && !OwnInterface(second.name)
    ensures Reached(c) && s.key in c.tunnels && c.tunnels[s.key].deleting && second in c.tunnels && s.a in c.pods
    ensures RecordedOn(c.tunnels[second], s.a, c.pods[s.a])
    ensures Holds(c.pods[s.a].ns, second.name, c.tunnels[second].status)
    ensures var r := ReconcileTunnel(c, s.key, env);
            && r.outcome == Failed && r.c.tunnels == c.tunnels && s.a in r.c.pods
            && !Holds(r.c.pods[s.a].ns, second.name, c.tunnels[second].status) && !Accurate(r.c)
  {
    hide Reached, Accurate, KindFor, ExecBoth, GenDelGlobalnetRoute, DeleteCmd;
    SharedReached(s, ip, second);
    var c0 := Shared(s, ip, second);
    var t := c0.tunnels[s.key];
    c := Put(c0, s.key, t.(deleting := true));
    DeletedByUser(c0, s.key, c);
    BuiltHolds(second.name, s.typ, map[], StatusOf(s, PodOf(s, ip)));
    TakeDownOther(c, s.key.name, s.a, s.typ, t.status, second.name, StatusOf(s, PodOf(s, ip)), env);
    assert !BenignReconcile(c, s.key, env);
    NotBenignBreaks(c, s.key, env);
  }

  // ----- two tunnels of one VPC -----

  /**
   While a tunnel stands on the primary gateway and the cluster's CIDR is the one it was built with, no other tunnel
   can be built there, whatever its peer: the two share the in-flow route of that CIDR.
   */
  lemma SecondTunnelIsNotBuilt(c: Cluster, first: Key, key: Key, env: Env)
    requires first in c.tunnels && key in c.tunnels && !c.tunnels[key].deleting && !c.tunnels[key].status.initialized
    requires ExIpName(c.tunnels[key].spec.localVpc, c.id) in c.exips
    requires var gw := Primary(c, c.tunnels[key]);
             gw in c.pods && Holds(c.pods[gw].ns, first.name, c.tunnels[first].status)
    requires env.globalnetCIDR == Some(c.tunnels[first].status.globalnetCIDR)
    ensures var after := ReconcileTunnel(c, key, env).c.tunnels; key in after && !after[key].status.initialized
  {
    hide ReconcileTunnel;
    FirstBuildRecords(c, key, env);
  }
}
