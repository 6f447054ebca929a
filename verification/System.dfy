/**
 Several clusters and the broker between them. GatewayExIps travel from their cluster to the broker and
 from there to all others; everything else happens inside a cluster.
 */
module System {
  import opened Api
  import opened Netns
  import opened TunnelCommands
  import opened Cluster
  import opened Shape
  import opened Agreement
  import opened Addresses
  import opened Peers
  import opened CompleteCommands
  import opened Record
  import opened RecordOfUpdate
  import opened Steps
  import opened Runs
  import opened Convergence

  datatype System = System(clusters: map<Word, Cluster>, broker: map<string, GatewayExIp>)

  datatype SystemStep =
    | Act(id: Word, step: Step)                // a step inside a cluster
    | Push(id: Word, name: string)             // a GatewayExIp of the cluster was stored
    | Withdraw(id: Word, name: string)         // and was deleted
    | Pull(id: Word, name: string)             // the broker's copy was stored
    | Forget(id: Word, name: string)           // and was deleted

  /** The step that a system step is to its cluster, if it is one. */
  function Inner(s: System, step: SystemStep): Option<Step>
    requires step.Pull? ==> step.name in s.broker
  {
    match step
    case Act(_, inner) => Some(inner)
    case Push(_, _) => None
    case Withdraw(_, _) => None
    case Pull(_, name) => Some(RemoteSet(name, s.broker[name]))
    case Forget(_, name) => Some(RemoteGone(name))
  }

  predicate Possible(s: System, step: SystemStep) {
    step.id in s.clusters &&
    var c := s.clusters[step.id];
    match step
    case Act(_, inner) => !inner.RemoteSet? && !inner.RemoteGone? && Enabled(c, inner)
    case Push(id, name) => Local(c.exips, id, name)
    case Withdraw(id, name) => name in s.broker && s.broker[name].localCluster == id && name !in c.exips
    case Pull(id, name) => name in s.broker && Enabled(c, RemoteSet(name, s.broker[name]))
    case Forget(id, name) => name !in s.broker && Enabled(c, RemoteGone(name))
  }

  function SystemNext(s: System, step: SystemStep): System
    requires Possible(s, step)
  {
    var c := s.clusters[step.id];
    match step
    case Push(_, name) => s.(broker := s.broker[name := c.exips[name]])
    case Withdraw(_, name) => s.(broker := s.broker - {name})
    case _ => s.(clusters := s.clusters[step.id := Next(c, Inner(s, step).value)])
  }

  // ----- what every step keeps -----

  lemma NextKeepsId(c: Cluster, step: Step)
    requires Enabled(c, step)
    ensures Next(c, step).id == c.id
  {
    hide ReconcileTunnel, HandleAdded, HandleWentDown, HandleCameUp, HandleDeleted, Propagate, SameAddresses, Writes;
    if step.Reconcile? {
      ReconcileWrites(c, step.key, step.env);
    } else if step.HandleEvent? {
      EventKeepsId(c, step);
    }
  }

  lemma EventKeepsId(c: Cluster, step: Step)
    requires Enabled(c, step) && step.HandleEvent?
    ensures Next(c, step).id == c.id
  {
    hide Retarget;
    PopKeepsPicks(c, c.queue[0].gw);
  }

  /** The broker's copies are well named and have values, and so has every cluster. */
  ghost predicate Sound(s: System) {
    && NamesOk(s.broker) && ExIpsFilled(s.broker)
    && forall id | id in s.clusters :: s.clusters[id].id == id && Peered(s.clusters[id]) && Filled(s.clusters[id])
  }

  lemma ClusterNames(c: Cluster)
    requires Filled(c)
    ensures NamesOk(c.exips) && ExIpsFilled(c.exips)
  {
    hide TunnelsOk, DevicesApart, TunnelsFilled;
  }

  /** Every step keeps it, without any condition. */
  lemma StepKeepsSound(s: System, step: SystemStep)
    requires Sound(s) && Possible(s, step)
    ensures Sound(SystemNext(s, step))
  {
    hide Next, Enabled, Filled, Peered;
    var c := s.clusters[step.id];
    if Inner(s, step).None? {
      ClusterNames(c);
    } else {
      StepKeepsPeers(c, Inner(s, step).value);
      StepKeepsFilled(c, Inner(s, step).value);
      NextKeepsId(c, Inner(s, step).value);
    }
  }

  // ----- runs -----

  /** Every cluster starts empty, and so does the broker. */
  ghost predicate SystemInitial(s: System) {
    s.broker == map[] && forall id | id in s.clusters :: s.clusters[id].id == id && Initial(s.clusters[id])
  }

  ghost predicate SystemRun(states: seq<System>, steps: seq<SystemStep>) {
    && |states| == |steps| + 1
    && forall i | 0 <= i < |steps| :: Possible(states[i], steps[i]) && states[i + 1] == SystemNext(states[i], steps[i])
  }

  lemma InitiallyFilled(c: Cluster)
    requires Initial(c)
    ensures Filled(c) && Peered(c) && Inv(c)
  {
    InitiallyInv(c);
  }

  lemma {:induction false} SoundInEveryState(states: seq<System>, steps: seq<SystemStep>, i: nat)
    requires SystemRun(states, steps) && SystemInitial(states[0]) && i < |states|
    ensures Sound(states[i])
  {
    hide SystemNext, Possible, Filled, Peered;
    if i == 0 {
      forall id | id in states[0].clusters
        ensures Peered(states[0].clusters[id]) && Filled(states[0].clusters[id])
      {
        InitiallyFilled(states[0].clusters[id]);
      }
    } else {
      SoundInEveryState(states, steps, i - 1);
      StepKeepsSound(states[i - 1], steps[i - 1]);
    }
  }

  /** What the step is to its cluster is benign there. */
  ghost predicate BenignSystemStep(s: System, step: SystemStep)
    requires Possible(s, step)
  {
    Inner(s, step).Some? ==> Benign(s.clusters[step.id], Inner(s, step).value)
  }

  /** It is orderly, which is all that agreement on the primaries needs. */
  ghost predicate OrderlySystemStep(s: System, step: SystemStep)
    requires Possible(s, step)
  {
    Inner(s, step).Some? ==> Orderly(s.clusters[step.id], Inner(s, step).value)
  }

  /** It is punctual, which keeps one address per VPC. */
  ghost predicate PunctualSystemStep(s: System, step: SystemStep)
    requires Possible(s, step)
  {
    Inner(s, step).Some? ==> Punctual(s.clusters[step.id], Inner(s, step).value)
  }

  ghost predicate SystemAddressed(s: System) {
    forall id | id in s.clusters :: Addressed(s.clusters[id])
  }

  ghost predicate SystemAgreed(s: System) {
    forall id | id in s.clusters :: Agreed(s.clusters[id])
  }

  ghost predicate SystemInv(s: System) {
    forall id | id in s.clusters :: Inv(s.clusters[id])
  }

  lemma {:induction false} SystemAgreedInEveryState(states: seq<System>, steps: seq<SystemStep>, i: nat)
    requires SystemRun(states, steps) && SystemInitial(states[0]) && i < |states|
    requires forall j | 0 <= j < i :: OrderlySystemStep(states[j], steps[j])
    ensures SystemAgreed(states[i])
  {
    hide Next, Orderly, Agreed, Enabled;
    if i == 0 {
      forall id | id in states[0].clusters
        ensures Agreed(states[0].clusters[id])
      {
        InitiallyInv(states[0].clusters[id]);
      }
    } else {
      SystemAgreedInEveryState(states, steps, i - 1);
      var s, step := states[i - 1], steps[i - 1];
      if Inner(s, step).Some? {
        StepAgreementExact(s.clusters[step.id], Inner(s, step).value);
      }
    }
  }

  lemma {:induction false} SystemAddressedInEveryState(states: seq<System>, steps: seq<SystemStep>, i: nat)
    requires SystemRun(states, steps) && SystemInitial(states[0]) && i < |states|
    requires forall j | 0 <= j < i :: PunctualSystemStep(states[j], steps[j])
    ensures SystemAddressed(states[i])
  {
    hide Next, Punctual, Addressed, Enabled;
    if i == 0 {
      forall id | id in states[0].clusters
        ensures Addressed(states[0].clusters[id])
      {
        InitiallyInv(states[0].clusters[id]);
      }
    } else {
      SystemAddressedInEveryState(states, steps, i - 1);
      var s, step := states[i - 1], steps[i - 1];
      if Inner(s, step).Some? {
        StepAddressExact(s.clusters[step.id], Inner(s, step).value);
      }
    }
  }

  lemma {:induction false} SystemInvInEveryState(states: seq<System>, steps: seq<SystemStep>, i: nat)
    requires SystemRun(states, steps) && SystemInitial(states[0]) && i < |states|
    requires forall j | 0 <= j < i :: BenignSystemStep(states[j], steps[j])
    ensures SystemInv(states[i])
  {
    hide Next, Benign, Inv, Enabled;
    if i == 0 {
      forall id | id in states[0].clusters
        ensures Inv(states[0].clusters[id])
      {
        InitiallyInv(states[0].clusters[id]);
      }
    } else {
      SystemInvInEveryState(states, steps, i - 1);
      var s, step := states[i - 1], steps[i - 1];
      if Inner(s, step).Some? {
        StepExact(s.clusters[step.id], Inner(s, step).value);
      }
    }
  }

  // ----- synchronisation -----

  /** Another push or pull of this GatewayExIp would change nothing. */
  ghost predicate Synced(s: System, from: Word, to: Word, name: string)
    requires from in s.clusters && to in s.clusters
  {
    Local(s.clusters[from].exips, from, name) ==>
      && name in s.broker && s.broker[name] == s.clusters[from].exips[name]
      && name in s.clusters[to].exips && s.clusters[to].exips[name] == s.broker[name]
  }

  /** Whatever the broker holds of other clusters can be pulled, and whatever it has lost can be forgotten. */
  lemma PullIsPossible(s: System, id: Word, name: string)
    requires Sound(s) && id in s.clusters
    ensures name in s.broker && s.broker[name].localCluster != id ==> Possible(s, Pull(id, name))
    ensures name !in s.broker && name in s.clusters[id].exips && s.clusters[id].exips[name].localCluster != id ==>
              Possible(s, Forget(id, name))
  {
    hide Peered, ValuesFilled, TunnelsOk, DevicesApart;
    var c := s.clusters[id];
    if name in c.exips {
      assert name[|c.exips[name].localVpc|] == '.';
    }
  }

  /**
   In every state of every run, a cluster's GatewayExIp can be brought to any other cluster: pushed and then
   pulled, whatever the broker and the other cluster held, it is synced.
   */
  lemma SyncIsPossible(states: seq<System>, steps: seq<SystemStep>, i: nat, from: Word, to: Word, name: string)
    requires SystemRun(states, steps) && SystemInitial(states[0]) && i < |states|
    requires from in states[i].clusters && to in states[i].clusters && from != to
    requires Local(states[i].clusters[from].exips, from, name)
    ensures Possible(states[i], Push(from, name))
    ensures var pushed := SystemNext(states[i], Push(from, name));
            && Possible(pushed, Pull(to, name))
            && Synced(SystemNext(pushed, Pull(to, name)), from, to, name)
  {
    hide Peered, Filled, Propagate, SystemRun, SystemInitial, Sound;
    SoundInEveryState(states, steps, i);
    var s := states[i];
    StepKeepsSound(s, Push(from, name));
    PullIsPossible(SystemNext(s, Push(from, name)), to, name);
  }

  // ----- agreement at rest -----

  /** A built tunnel whose reconcile is a no-op. */
  ghost predicate Resting(c: Cluster, key: Key) {
    && key in c.tunnels && c.tunnels[key].status.initialized && !c.tunnels[key].deleting
    && ExIpName(c.tunnels[key].spec.localVpc, c.id) in c.exips && RemoteName(c.tunnels[key]) in c.exips
    && exists env :: AtRest(c, key, env)
  }

  /** No event is pending, and the primary gateway of the tunnel's VPC is running. */
  predicate Quiet(c: Cluster, key: Key) {
    && key in c.tunnels && c.queue == []
    && ExIpName(c.tunnels[key].spec.localVpc, c.id) in c.exips
    && c.exips[ExIpName(c.tunnels[key].spec.localVpc, c.id)].localGateway in c.pods
  }

  lemma RestIsNotOutdated(c: Cluster, key: Key, env: Env)
    requires Shaped(c) && key in c.tunnels && c.tunnels[key].status.initialized && !c.tunnels[key].deleting
    requires RemoteName(c.tunnels[key]) in c.exips && AtRest(c, key, env)
    ensures !Outdated(c.tunnels[key], c.exips[RemoteName(c.tunnels[key])])
  {
    hide Outdated, TunnelsOk, DevicesApart, Update;
    var t := c.tunnels[key];
    var remote := c.exips[RemoteName(t)];
    StoredIsRecorded(c, key);
    StandingIsOk(c, key);
    if Outdated(t, remote) {
      OutdatedIsBusy(c, key, remote, env);
      ReconcileIsUpdate(c, key, env);
    }
  }

  lemma OutdatedIsBusy(c: Cluster, key: Key, remote: GatewayExIp, env: Env)
    requires key in c.tunnels && Outdated(c.tunnels[key], remote) && c.tunnels[key].spec.localGw != ""
    ensures var r := Update(c, key, c.tunnels[key], remote, env); r.outcome != Done || r.log != []
  {
  }

  /** What rests carries what its Spec says; the peer's address is the one that is known. */
  lemma RestingSide(c: Cluster, key: Key)
    requires Peered(c) && Resting(c, key)
    ensures var t := c.tunnels[key];
            && t.status.localGw == t.spec.localGw && t.status.internalIP == t.spec.internalIP
            && (t.spec.remoteCluster != c.id ==> t.status.remoteIP == c.exips[RemoteName(t)].externalIP)
            && FINALIZER in t.finalizers && DotFree(t.spec.localVpc) && LocalOf(c, t.spec.localVpc)
            && c.exips[ExIpName(t.spec.localVpc, c.id)].localVpc == t.spec.localVpc && Labelled(t, t.spec.localVpc)
  {
    hide DevicesApart, HomesOk, PrimariesOk;
    var t := c.tunnels[key];
    assert TunnelOk(c.homes, key, t);
    LocalLookup(c.exips, c.id, t.spec.localVpc);
    var env :| AtRest(c, key, env);
    RestIsNotOutdated(c, key, env);
  }

  /** One side: Status carries gateway and address of the VPC's current primary. */
  lemma SettledSide(c: Cluster, key: Key)
    requires Agreed(c) && Peered(c) && Resting(c, key) && Quiet(c, key)
    ensures var t := c.tunnels[key]; var e := c.exips[ExIpName(t.spec.localVpc, c.id)];
            && t.status.localGw == e.localGateway && t.status.internalIP == e.externalIP
            && e.externalIP == c.pods[e.localGateway].externalIP
  {
    hide Shaped, RemotesAgree, RoutesOk, PrimariesExist, AtRest;
    RestingSide(c, key);
    var name := ExIpName(c.tunnels[key].spec.localVpc, c.id);
    assert Local(c.exips, c.id, name) && Labelled(c.tunnels[key], c.exips[name].localVpc);
    assert !Pending(c.queue, c.exips[name].localGateway);
  }

  /** With one address per VPC, that address is in Status, pod or no pod. */
  lemma AddressedSide(c: Cluster, key: Key)
    requires Addressed(c) && Peered(c) && Resting(c, key)
    ensures c.tunnels[key].status.internalIP == c.exips[ExIpName(c.tunnels[key].spec.localVpc, c.id)].externalIP
  {
    hide Shaped, RemotesAgree, AtRest;
    RestingSide(c, key);
  }

  /** The VPC has its own GatewayExIp in this cluster. */
  predicate LocalOf(c: Cluster, vpc: Word) {
    Local(c.exips, c.id, ExIpName(vpc, c.id))
  }

  /** The two tunnels connect the same two VPCs. */
  predicate Mutual(a: Word, ta: VpcNatTunnel, b: Word, tb: VpcNatTunnel) {
    && ta.spec.remoteCluster == b && tb.spec.remoteCluster == a
    && ta.spec.remoteVpc == tb.spec.localVpc && tb.spec.remoteVpc == ta.spec.localVpc
  }

  /** The tunnel's device is on the primary gateway of its VPC, alone, with the addresses in Status. */
  ghost predicate OnPrimary(c: Cluster, key: Key)
    requires key in c.tunnels
  {
    var t := c.tunnels[key];
    var name := ExIpName(t.spec.localVpc, c.id);
    && name in c.exips && c.exips[name].localGateway in c.pods
    && var devs := c.pods[c.exips[name].localGateway].ns.devs;
       && devs.Keys == {key.name}
       && devs[key.name].local == t.status.internalIP && devs[key.name].remote == t.status.remoteIP
       && (devs[key.name].kind.Vxlan? <==> IsVxlan(t.status.typ)) && devs[key.name].up
  }

  lemma SettledIsOnPrimary(c: Cluster, key: Key)
    requires Inv(c) && Resting(c, key) && Quiet(c, key)
    ensures OnPrimary(c, key)
  {
    hide Base, Fresh, Peered, RecordOk, AtRest;
    RestingSide(c, key);
    SettledSide(c, key);
    RecordedIsHeld(c, key, c.exips[ExIpName(c.tunnels[key].spec.localVpc, c.id)].localGateway);
  }

  lemma RecordedIsHeld(c: Cluster, key: Key, gw: Word)
    requires Accurate(c) && key in c.tunnels && gw in c.pods && RecordedOn(c.tunnels[key], gw, c.pods[gw])
    ensures Holds(c.pods[gw].ns, key.name, c.tunnels[key].status)
  {
    hide Holds, Trust;
    assert PodExact(c.tunnels, gw, c.pods[gw]);
  }

  /** Two tunnels at rest between the same two VPCs, one in each of two clusters. */
  ghost predicate Facing(s: System, a: Word, ka: Key, b: Word, kb: Key) {
    && a != b && a in s.clusters && b in s.clusters
    && Resting(s.clusters[a], ka) && Resting(s.clusters[b], kb)
    && Mutual(a, s.clusters[a].tunnels[ka], b, s.clusters[b].tunnels[kb])
  }

  /** They are, and each cluster knows the other's GatewayExIp as it is. */
  ghost predicate Joined(s: System, a: Word, ka: Key, b: Word, kb: Key) {
    && Facing(s, a, ka, b, kb)
    && Synced(s, a, b, ExIpName(s.clusters[a].tunnels[ka].spec.localVpc, a))
    && Synced(s, b, a, ExIpName(s.clusters[b].tunnels[kb].spec.localVpc, b))
  }

  /** What one side sees of the other is the address in the other's GatewayExIp. */
  lemma PeersAgree(s: System, a: Word, ka: Key, b: Word, kb: Key)
    requires Sound(s)
    ensures Facing(s, a, ka, b, kb) && Synced(s, a, b, ExIpName(s.clusters[a].tunnels[ka].spec.localVpc, a)) ==>
              s.clusters[b].tunnels[kb].status.remoteIP
              == s.clusters[a].exips[ExIpName(s.clusters[a].tunnels[ka].spec.localVpc, a)].externalIP
  {
    hide Peered, Filled, AtRest;
    if Facing(s, a, ka, b, kb) {
      RestingSide(s.clusters[a], ka);
      RestingSide(s.clusters[b], kb);
    }
  }

  /** Each one's InternalIP is the other's RemoteIP. */
  ghost predicate AddressesMatch(s: System, a: Word, ka: Key, b: Word, kb: Key) {
    && a in s.clusters && ka in s.clusters[a].tunnels && b in s.clusters && kb in s.clusters[b].tunnels
    && s.clusters[a].tunnels[ka].status.internalIP == s.clusters[b].tunnels[kb].status.remoteIP
    && s.clusters[b].tunnels[kb].status.internalIP == s.clusters[a].tunnels[ka].status.remoteIP
  }

  /**
   End-to-end addresses: in every state reached by orderly steps, whatever fails in the pods, in which two
   mutually pointing tunnels are at rest, their VPCs' primary gateways running with no event pending, and their
   VPCs' GatewayExIps synced, each one's InternalIP is the other's RemoteIP.
   */
  lemma EndToEndAddresses(states: seq<System>, steps: seq<SystemStep>, i: nat, a: Word, ka: Key, b: Word, kb: Key)
    requires SystemRun(states, steps) && SystemInitial(states[0]) && i < |states|
    requires forall j | 0 <= j < i :: OrderlySystemStep(states[j], steps[j])
    ensures Joined(states[i], a, ka, b, kb) && Quiet(states[i].clusters[a], ka) && Quiet(states[i].clusters[b], kb) ==>
              AddressesMatch(states[i], a, ka, b, kb)
  {
    hide SystemRun, SystemInitial, OrderlySystemStep, AtRest, Quiet, Agreed, Peered, Filled, Synced;
    SoundInEveryState(states, steps, i);
    SystemAgreedInEveryState(states, steps, i);
    var s := states[i];
    PeersAgree(s, a, ka, b, kb);
    PeersAgree(s, b, kb, a, ka);
    if Joined(s, a, ka, b, kb) && Quiet(s.clusters[a], ka) && Quiet(s.clusters[b], kb) {
      SettledSide(s.clusters[a], ka);
      SettledSide(s.clusters[b], kb);
    }
  }

  /**
   The same in every state reached by punctual steps, without a pod and with events pending: one address per VPC is
   enough.
   */
  lemma EndToEndOneAddress(states: seq<System>, steps: seq<SystemStep>, i: nat, a: Word, ka: Key, b: Word, kb: Key)
    requires SystemRun(states, steps) && SystemInitial(states[0]) && i < |states|
    requires forall j | 0 <= j < i :: PunctualSystemStep(states[j], steps[j])
    ensures Joined(states[i], a, ka, b, kb) ==> AddressesMatch(states[i], a, ka, b, kb)
  {
    hide SystemRun, SystemInitial, PunctualSystemStep, AtRest, Addressed, Peered, Filled, Synced;
    SoundInEveryState(states, steps, i);
    SystemAddressedInEveryState(states, steps, i);
    var s := states[i];
    PeersAgree(s, a, ka, b, kb);
    PeersAgree(s, b, kb, a, ka);
    if Joined(s, a, ka, b, kb) {
      AddressedSide(s.clusters[a], ka);
      AddressedSide(s.clusters[b], kb);
    }
  }

  /**
   End-to-end agreement: in every state reached by benign steps, two such tunnels moreover have each their
   device on the VPC's current primary gateway, with those addresses, as the only tunnel there.
   */
  lemma EndToEndAgreement(states: seq<System>, steps: seq<SystemStep>, i: nat, a: Word, ka: Key, b: Word, kb: Key)
    requires SystemRun(states, steps) && SystemInitial(states[0]) && i < |states|
    requires forall j | 0 <= j < i :: BenignSystemStep(states[j], steps[j])
    ensures Joined(states[i], a, ka, b, kb) && Quiet(states[i].clusters[a], ka) && Quiet(states[i].clusters[b], kb) ==>
              && OnPrimary(states[i].clusters[a], ka) && OnPrimary(states[i].clusters[b], kb)
              && AddressesMatch(states[i], a, ka, b, kb)
  {
    hide SystemRun, SystemInitial, BenignSystemStep, OrderlySystemStep, Resting, Quiet, Inv, Synced, OnPrimary;
    BenignIsOrderly(states, steps, i);
    EndToEndAddresses(states, steps, i, a, ka, b, kb);
    SystemInvInEveryState(states, steps, i);
    var s := states[i];
    if Joined(s, a, ka, b, kb) && Quiet(s.clusters[a], ka) && Quiet(s.clusters[b], kb) {
      SettledIsOnPrimary(s.clusters[a], ka);
      SettledIsOnPrimary(s.clusters[b], kb);
    }
  }

  lemma BenignIsOrderly(states: seq<System>, steps: seq<SystemStep>, i: nat)
    requires SystemRun(states, steps) && i < |states| && forall j | 0 <= j < i :: BenignSystemStep(states[j], steps[j])
    ensures forall j | 0 <= j < i :: OrderlySystemStep(states[j], steps[j])
  {
    hide Next, Enabled, Orderly, KeepsRecord;
  }
}
