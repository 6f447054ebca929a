/**
 Whole runs of a cluster: what holds in every state that is reached.
 */
module Runs {
  import opened GoStrings
  import opened Api
  import opened Netns
  import opened TunnelCommands
  import opened TunnelLifecycle
  import opened Cluster
  import opened Shape
  import opened Agreement
  import opened Addresses
  import opened Peers
  import opened CompleteCommands
  import opened WellFormedPods
  import opened GatewayEffects
  import opened TunnelEffects
  import opened Safety
  import opened SafetyOfReconcile
  import opened Record
  import opened RecordOfReconcile
  import opened Steps

  /** The operator starts on a cluster that has VPCs, but no gateway, GatewayExIp or tunnel yet. */
  ghost predicate Initial(c: Cluster) {
    && c.gateways == map[] && c.pods == map[] && c.exips == map[] && c.tunnels == map[] && c.queue == []
    && "" !in c.homes && forall g | g in c.homes :: DotFree(c.homes[g])
  }

  ghost predicate Run(states: seq<Cluster>, steps: seq<Step>) {
    && |states| == |steps| + 1
    && forall i | 0 <= i < |steps| :: Enabled(states[i], steps[i]) && states[i + 1] == Next(states[i], steps[i])
  }

  lemma InitiallyInv(c: Cluster)
    requires Initial(c)
    ensures Inv(c) && Addressed(c) && Shaped(c) && Safe(c)
  {
  }

  // ----- every run -----

  /** Shape and peers' addresses: in every state of every run, whatever fails. */
  lemma {:induction false} PeeredInEveryState(states: seq<Cluster>, steps: seq<Step>, i: nat)
    requires Run(states, steps) && Initial(states[0]) && i < |states|
    ensures Peered(states[i])
  {
    hide Next, Inv, Addressed;
    if i == 0 {
      InitiallyPeered(states[0]);
    } else {
      PeeredInEveryState(states, steps, i - 1);
      StepKeepsPeers(states[i - 1], steps[i - 1]);
    }
  }

  lemma InitiallyPeered(c: Cluster)
    requires Initial(c)
    ensures Peered(c)
  {
    InitiallyInv(c);
  }

  /** One primary per VPC, and one VPC per primary, its own. */
  lemma OnePrimary(states: seq<Cluster>, steps: seq<Step>, i: nat, n: string, m: string)
    requires Run(states, steps) && Initial(states[0]) && i < |states|
    requires Local(states[i].exips, states[i].id, n) && Local(states[i].exips, states[i].id, m)
    ensures n == states[i].exips[n].localVpc + "." + states[i].exips[n].localCluster
    ensures states[i].exips[n].localGateway in states[i].homes
    ensures states[i].homes[states[i].exips[n].localGateway] == states[i].exips[n].localVpc
    ensures states[i].exips[n].localGateway == states[i].exips[m].localGateway ==> n == m
    ensures states[i].exips[n].localVpc == states[i].exips[m].localVpc ==> n == m
  {
    hide Next, TunnelsOk, DevicesApart, RemotesAgree;
    PeeredInEveryState(states, steps, i);
  }

  /** A built tunnel of another cluster's VPC carries the address that is known for its peer. */
  lemma PeersAddress(states: seq<Cluster>, steps: seq<Step>, i: nat, key: Key)
    requires Run(states, steps) && Initial(states[0]) && i < |states|
    requires key in states[i].tunnels && states[i].tunnels[key].status.initialized
    ensures var c := states[i]; var t := c.tunnels[key]; var name := t.spec.remoteVpc + "." + t.spec.remoteCluster;
            t.spec.remoteCluster != c.id && name in c.exips ==> t.spec.remoteIP == c.exips[name].externalIP
  {
    hide Next, Shaped;
    PeeredInEveryState(states, steps, i);
  }

  lemma {:induction false} FilledInEveryState(states: seq<Cluster>, steps: seq<Step>, i: nat)
    requires Run(states, steps) && Initial(states[0]) && i < |states|
    ensures Filled(states[i])
  {
    hide Next, Inv, Addressed;
    if i == 0 {
      InitiallyInv(states[0]);
    } else {
      FilledInEveryState(states, steps, i - 1);
      StepKeepsFilled(states[i - 1], steps[i - 1]);
    }
  }

  /**
   In every run, every statement of every command that a reconcile sends to a pod consists of words that are not
   empty.
   */
  lemma CommandsAreComplete(states: seq<Cluster>, steps: seq<Step>, i: nat)
    requires Run(states, steps) && Initial(states[0]) && i < |steps|
    ensures steps[i].Reconcile? ==>
              forall e | e in ReconcileTunnel(states[i], steps[i].key, steps[i].env).log && e.Exec? ::
                forall statement | statement in Split(e.text, ';') :: "" !in Split(statement, ' ')
  {
    hide Next, ReconcileTunnel, ValuesFilled;
    FilledInEveryState(states, steps, i);
    if steps[i].Reconcile? {
      ReconcileSendsFilled(states[i], steps[i].key, steps[i].env);
    }
  }

  lemma {:induction false} WellFormedInEveryState(states: seq<Cluster>, steps: seq<Step>, i: nat)
    requires Run(states, steps) && Initial(states[0]) && i < |states|
    ensures PodsWellFormed(states[i].pods)
  {
    hide Next, WellFormed;
    if i > 0 {
      WellFormedInEveryState(states, steps, i - 1);
      StepKeepsWellFormed(states[i - 1], steps[i - 1]);
    }
  }

  /**
   Round trip, in every live pod of every state of every run: if there is room for a tunnel, building it and taking it
   down again succeed, and restore devices and routes as they were and the rules up to their order.
   */
  lemma RoundTripInEveryState(states: seq<Cluster>, steps: seq<Step>, i: nat, gw: Word,
                              name: Word, typ: string, st: TunnelStatus, labels: map<string, Word>)
    requires Run(states, steps) && Initial(states[0]) && i < |states| && gw in states[i].pods
    requires st.globalEgressIP != [] && Room(states[i].pods[gw].ns, name, st)
    ensures var ns := states[i].pods[gw].ns;
            var create := RunText(ns, CreateCmd(name, typ, st, labels), Healthy);
            var route := RunText(create.ns, GenGlobalnetRoute(name, st), Healthy);
            var unroute := RunText(route.ns, GenDelGlobalnetRoute(name, st), Healthy);
            var delete := RunText(unroute.ns, DeleteCmd(name, typ), Healthy);
            && create.ok && route.ok && unroute.ok && delete.ok
            && delete.ns.devs == ns.devs && delete.ns.routes == ns.routes
            && multiset(delete.ns.rules) == multiset(ns.rules)
            && (Snat(st) !in ns.rules ==> delete.ns == ns)
  {
    hide Next, RunText, CreateCmd, GenGlobalnetRoute, GenDelGlobalnetRoute, DeleteCmd, WellFormed, Room;
    WellFormedInEveryState(states, steps, i);
    BuildThenTakeDownRestores(states[i].pods[gw].ns, name, typ, st, labels);
  }

  // ----- agreement on the primary -----

  lemma {:induction false} AgreedInEveryState(states: seq<Cluster>, steps: seq<Step>, i: nat)
    requires Run(states, steps) && Initial(states[0]) && i < |states|
    requires forall j | 0 <= j < i :: Orderly(states[j], steps[j])
    ensures Agreed(states[i])
  {
    hide Next, Orderly;
    if i == 0 {
      InitiallyInv(states[0]);
    } else {
      AgreedInEveryState(states, steps, i - 1);
      StepAgreementExact(states[i - 1], steps[i - 1]);
    }
  }

  /** Gateways and addresses agree all along a run if and only if every step of it is orderly. */
  lemma RunAgreementExact(states: seq<Cluster>, steps: seq<Step>)
    requires Run(states, steps) && Initial(states[0])
    ensures (forall i | 0 <= i < |states| :: Agreed(states[i]))
            <==> (forall j | 0 <= j < |steps| :: Orderly(states[j], steps[j]))
  {
    hide Next, Orderly, Agreed;
    if forall j | 0 <= j < |steps| :: Orderly(states[j], steps[j]) {
      forall i | 0 <= i < |states|
        ensures Agreed(states[i])
      {
        AgreedInEveryState(states, steps, i);
      }
    }
    if forall i | 0 <= i < |states| :: Agreed(states[i]) {
      forall j | 0 <= j < |steps|
        ensures Orderly(states[j], steps[j])
      {
        assert Agreed(states[j]) && Agreed(states[j + 1]);
        StepAgreementExact(states[j], steps[j]);
      }
    }
  }

  /**
   Failover agreement, whatever fails in the pods and however late events are handled: while a VPC has a
   GatewayExIp, the gateway in its label belongs to the VPC, every tunnel of the VPC names that gateway, and all
   static routes lead to it. With no event of the gateway pending, GatewayExIp and tunnels carry the external IP
   of its pod.
   */
  lemma FailoverAgreement(states: seq<Cluster>, steps: seq<Step>, i: nat, n: string)
    requires Run(states, steps) && Initial(states[0]) && i < |states|
    requires forall j | 0 <= j < i :: Orderly(states[j], steps[j])
    requires Local(states[i].exips, states[i].id, n)
    ensures var c := states[i]; var e := c.exips[n]; var gw := e.localGateway;
            && gw in c.homes && c.homes[gw] == e.localVpc && e.localVpc in c.vpcs
            && (forall k | k in c.tunnels && Labelled(c.tunnels[k], e.localVpc) :: c.tunnels[k].spec.localGw == gw)
            && (Deleted(gw) !in c.queue ==>
                  gw in c.gateways && forall hop | hop in c.vpcs[e.localVpc] :: hop == c.gateways[gw].lanIP)
            && (gw in c.pods && CameUp(gw) !in c.queue && Deleted(gw) !in c.queue ==>
                  && e.externalIP == c.pods[gw].externalIP
                  && forall k | k in c.tunnels && Labelled(c.tunnels[k], e.localVpc) ::
                       c.tunnels[k].spec.internalIP == e.externalIP)
  {
    hide Next, Orderly, TunnelsOk, DevicesApart, HomesOk, NamesOk;
    AgreedInEveryState(states, steps, i);
  }

  // ----- one address per VPC -----

  lemma {:induction false} AddressedInEveryState(states: seq<Cluster>, steps: seq<Step>, i: nat)
    requires Run(states, steps) && Initial(states[0]) && i < |states|
    requires forall j | 0 <= j < i :: Punctual(states[j], steps[j])
    ensures Addressed(states[i])
  {
    hide Next, Punctual;
    if i == 0 {
      InitiallyInv(states[0]);
    } else {
      AddressedInEveryState(states, steps, i - 1);
      StepAddressExact(states[i - 1], steps[i - 1]);
    }
  }

  /** GatewayExIp and tunnels carry one address all along a run if and only if every step of it is punctual. */
  lemma RunAddressExact(states: seq<Cluster>, steps: seq<Step>)
    requires Run(states, steps) && Initial(states[0])
    ensures (forall i | 0 <= i < |states| :: Addressed(states[i]))
            <==> (forall j | 0 <= j < |steps| :: Punctual(states[j], steps[j]))
  {
    hide Next, Punctual, Addressed;
    if forall j | 0 <= j < |steps| :: Punctual(states[j], steps[j]) {
      forall i | 0 <= i < |states|
        ensures Addressed(states[i])
      {
        AddressedInEveryState(states, steps, i);
      }
    }
    if forall i | 0 <= i < |states| :: Addressed(states[i]) {
      forall j | 0 <= j < |steps|
        ensures Punctual(states[j], steps[j])
      {
        assert Addressed(states[j]) && Addressed(states[j + 1]);
        StepAddressExact(states[j], steps[j]);
      }
    }
  }

  /** One address per VPC, whether or not the primary has a pod and whatever is still to be handled. */
  lemma OneAddress(states: seq<Cluster>, steps: seq<Step>, i: nat, n: string, key: Key)
    requires Run(states, steps) && Initial(states[0]) && i < |states|
    requires forall j | 0 <= j < i :: Punctual(states[j], steps[j])
    requires Local(states[i].exips, states[i].id, n)
    requires key in states[i].tunnels && Labelled(states[i].tunnels[key], states[i].exips[n].localVpc)
    ensures states[i].tunnels[key].spec.internalIP == states[i].exips[n].externalIP
  {
    hide Next, Punctual, Shaped;
    AddressedInEveryState(states, steps, i);
  }

  // ----- safety -----

  lemma {:induction false} SafeInEveryState(states: seq<Cluster>, steps: seq<Step>, i: nat)
    requires Run(states, steps) && Initial(states[0]) && i < |states|
    requires forall j | 0 <= j < i :: Calm(states[j], steps[j])
    ensures Safe(states[i])
  {
    hide Next, Calm;
    if i == 0 {
      InitiallyInv(states[0]);
    } else {
      SafeInEveryState(states, steps, i - 1);
      StepSafeExact(states[i - 1], steps[i - 1]);
    }
  }

  /** Every device has its owner all along a run if and only if every step of it is calm, whatever fails in the pods. */
  lemma RunSafeExact(states: seq<Cluster>, steps: seq<Step>)
    requires Run(states, steps) && Initial(states[0])
    ensures (forall i | 0 <= i < |states| :: Safe(states[i]))
            <==> (forall j | 0 <= j < |steps| :: Calm(states[j], steps[j]))
  {
    hide Next, Calm, Safe;
    if forall j | 0 <= j < |steps| :: Calm(states[j], steps[j]) {
      forall i | 0 <= i < |states|
        ensures Safe(states[i])
      {
        SafeInEveryState(states, steps, i);
      }
    }
    if forall i | 0 <= i < |states| :: Safe(states[i]) {
      forall j | 0 <= j < |steps|
        ensures Calm(states[j], steps[j])
      {
        assert Safe(states[j]) && Safe(states[j + 1]);
        StepSafeExact(states[j], steps[j]);
      }
    }
  }

  /**
   Finalizer safety: in every state of every calm run, whatever failed in the pods, a tunnel device on a
   live pod belongs to a stored tunnel object of that VPC which still holds the finalizer.
   */
  lemma NoDeviceOfAnAbsentTunnel(states: seq<Cluster>, steps: seq<Step>, i: nat, gw: Word, dev: string)
    requires Run(states, steps) && Initial(states[0]) && i < |states|
    requires forall j | 0 <= j < i :: Calm(states[j], steps[j])
    requires gw in states[i].pods && dev in states[i].pods[gw].ns.devs
    ensures exists key :: key in states[i].tunnels && key.name == dev && gw in states[i].homes
                          && states[i].tunnels[key].spec.localVpc == states[i].homes[gw]
                          && FINALIZER in states[i].tunnels[key].finalizers
  {
    hide Next, Calm, Shaped;
    SafeInEveryState(states, steps, i);
    assert HasOwner(states[i], gw, dev);
  }

  /** The pods of the VPC have lost the device, for no other tunnel of the VPC could own it. */
  lemma GoneWithItsDevice(c: Cluster, c': Cluster, key: Key, gw: Word)
    requires Safe(c) && Safe(c') && key in c.tunnels && c'.tunnels == c.tunnels - {key} && c'.homes == c.homes
    requires gw in c'.pods && gw in c.homes && c.homes[gw] == c.tunnels[key].spec.localVpc
    ensures key.name !in c'.pods[gw].ns.devs
  {
    hide TunnelsOk, Rooted;
    assert key.name in c'.pods[gw].ns.devs ==> HasOwner(c', gw, key.name);
  }

  lemma StepLetsGoCleanly(c: Cluster, step: Step, c': Cluster, key: Key)
    requires Safe(c) && Enabled(c, step) && c' == Next(c, step) && Safe(c')
    requires key in c.tunnels && FINALIZER in c.tunnels[key].finalizers
    ensures key !in c'.tunnels ==>
              && step.Reconcile? && step.key == key && DeletedCleanly(c, key, step.env)
              && forall gw | gw in c'.pods && gw in c.homes && c.homes[gw] == c.tunnels[key].spec.localVpc ::
                   key.name !in c'.pods[gw].ns.devs
  {
    hide ReconcileTunnel, Safe, Enabled, Writes, SameAddresses;
    OnlyCleanDeletesLetGo(c, step, key);
    if key !in c'.tunnels {
      ReconcileWrites(c, key, step.env);
      assert c' == ReconcileTunnel(c, key, step.env).c && c'.tunnels == c.tunnels - {key};
      forall gw | gw in c'.pods && gw in c.homes && c.homes[gw] == c.tunnels[key].spec.localVpc
        ensures key.name !in c'.pods[gw].ns.devs
      {
        GoneWithItsDevice(c, c', key, gw);
      }
    }
  }

  /**
   A tunnel object that holds the finalizer disappears only in a reconcile in which both delete commands ran
   cleanly, and then no live pod of its VPC holds its device; in every calm run, whatever failed before.
   */
  lemma DisappearsCleanly(states: seq<Cluster>, steps: seq<Step>, i: nat, key: Key)
    requires Run(states, steps) && Initial(states[0]) && i < |steps|
    requires forall j | 0 <= j <= i :: Calm(states[j], steps[j])
    requires key in states[i].tunnels && FINALIZER in states[i].tunnels[key].finalizers
    ensures var c, c' := states[i], states[i + 1];
            key !in c'.tunnels ==>
              && steps[i].Reconcile? && steps[i].key == key && DeletedCleanly(c, key, steps[i].env)
              && forall gw | gw in c'.pods && gw in c.homes && c.homes[gw] == c.tunnels[key].spec.localVpc ::
                   key.name !in c'.pods[gw].ns.devs
  {
    hide Next, Enabled, Safe, DeletedCleanly, Calm;
    SafeInEveryState(states, steps, i);
    SafeInEveryState(states, steps, i + 1);
    StepLetsGoCleanly(states[i], steps[i], states[i + 1], key);
  }

  // ----- the record -----

  lemma {:induction false} AccurateInEveryState(states: seq<Cluster>, steps: seq<Step>, i: nat)
    requires Run(states, steps) && Initial(states[0]) && i < |states|
    requires forall j | 0 <= j < i :: KeepsRecord(states[j], steps[j])
    ensures Shaped(states[i]) && Accurate(states[i])
  {
    hide Next, KeepsRecord;
    if i == 0 {
      InitiallyInv(states[0]);
    } else {
      AccurateInEveryState(states, steps, i - 1);
      StepKeepsShape(states[i - 1], steps[i - 1]);
      StepRecordExact(states[i - 1], steps[i - 1]);
    }
  }

  /**
   Status is an exact record all along a run if and only if the guard of every step is met, whatever becomes of
   the agreement on primaries.
   */
  lemma RunRecordExact(states: seq<Cluster>, steps: seq<Step>)
    requires Run(states, steps) && Initial(states[0])
    ensures (forall i | 0 <= i < |states| :: Accurate(states[i]))
            <==> (forall j | 0 <= j < |steps| :: KeepsRecord(states[j], steps[j]))
  {
    hide Next, KeepsRecord, Accurate, Shaped, RemotesAgree;
    if forall j | 0 <= j < |steps| :: KeepsRecord(states[j], steps[j]) {
      forall i | 0 <= i < |states|
        ensures Accurate(states[i])
      {
        AccurateInEveryState(states, steps, i);
      }
    }
    if forall i | 0 <= i < |states| :: Accurate(states[i]) {
      forall j | 0 <= j < |steps|
        ensures KeepsRecord(states[j], steps[j])
      {
        assert Accurate(states[j]) && Accurate(states[j + 1]);
        PeeredInEveryState(states, steps, j);
        StepRecordExact(states[j], steps[j]);
      }
    }
  }

  /**
   Status is an exact record: in every state, the incarnation that a built tunnel's Status names, if it is live, holds
   exactly device, two routes and SNAT rule derived from that Status; and any other live pod of the VPC is empty, or
   is the one that another tunnel's Status names.
   */
  lemma StatusIsAnExactRecord(states: seq<Cluster>, steps: seq<Step>, i: nat, key: Key, gw: Word)
    requires Run(states, steps) && Initial(states[0]) && i < |states|
    requires forall j | 0 <= j < i :: KeepsRecord(states[j], steps[j])
    requires key in states[i].tunnels && gw in states[i].pods && gw in states[i].homes
    requires states[i].homes[gw] == states[i].tunnels[key].spec.localVpc
    ensures var t := states[i].tunnels[key]; var pod := states[i].pods[gw];
            if t.status.initialized && FINALIZER in t.finalizers && t.status.localGw == gw
              && t.status.internalIP == pod.externalIP then
              && t.status.globalEgressIP != []
              && exists kind: Kind ::
                   (kind.Vxlan? <==> IsVxlan(t.status.typ)) && pod.ns == Built(EMPTY, key.name, kind, t.status)
            else
              pod.ns == EMPTY
              || exists k :: && k in states[i].tunnels && k != key && k.name in pod.ns.devs
                             && states[i].tunnels[k].spec.localVpc == t.spec.localVpc
                             && states[i].tunnels[k].status.localGw == gw
                             && states[i].tunnels[k].status.internalIP == pod.externalIP
  {
    hide Next, KeepsRecord, Shaped;
    var c := states[i];
    AccurateInEveryState(states, steps, i);
    assert PodExact(c.tunnels, gw, c.pods[gw]);
    if RecordedOn(c.tunnels[key], gw, c.pods[gw]) {
      assert Holds(c.pods[gw].ns, key.name, c.tunnels[key].status);
    } else if c.pods[gw].ns != EMPTY {
      var k := HeldByOther(c, key, gw);
      TunnelIsOk(c, k);
    }
  }

  // ----- record, agreement and peers -----

  lemma {:induction false} InvInEveryState(states: seq<Cluster>, steps: seq<Step>, i: nat)
    requires Run(states, steps) && Initial(states[0]) && i < |states|
    requires forall j | 0 <= j < i :: Benign(states[j], steps[j])
    ensures Inv(states[i])
  {
    hide Next, Benign;
    if i == 0 {
      InitiallyInv(states[0]);
    } else {
      InvInEveryState(states, steps, i - 1);
      StepExact(states[i - 1], steps[i - 1]);
    }
  }

  /** The whole invariant holds all along a run if and only if every step of it is benign. */
  lemma RunExact(states: seq<Cluster>, steps: seq<Step>)
    requires Run(states, steps) && Initial(states[0])
    ensures (forall i | 0 <= i < |states| :: Inv(states[i]))
            <==> (forall j | 0 <= j < |steps| :: Benign(states[j], steps[j]))
  {
    hide Next, Benign, Inv;
    if forall j | 0 <= j < |steps| :: Benign(states[j], steps[j]) {
      forall i | 0 <= i < |states|
        ensures Inv(states[i])
      {
        InvInEveryState(states, steps, i);
      }
    }
    if forall i | 0 <= i < |states| :: Inv(states[i]) {
      forall j | 0 <= j < |steps|
        ensures Benign(states[j], steps[j])
      {
        assert Inv(states[j]) && Inv(states[j + 1]);
        StepExact(states[j], steps[j]);
      }
    }
  }

  // ----- other gateways -----

  /** A gateway that is nobody's primary: its events change no route, no existing GatewayExIp and no tunnel. */
  lemma OtherGatewaysChangeNothing(c: Cluster, step: Step)
    requires Enabled(c, step) && step.HandleEvent? && ExIpsNaming(c, c.queue[0].gw) == {}
    ensures var c' := Next(c, step);
            && c'.vpcs == c.vpcs && c'.tunnels == c.tunnels && c'.pods == c.pods
            && (forall n | n in c.exips :: n in c'.exips && c'.exips[n] == c.exips[n])
            && (!c.queue[0].Added? ==> c' == c.(queue := c.queue[1..]))
  {
    AddedIgnoresQueue(c, c.queue[1..], c.queue[0].gw, c.queue[0].Added? && c.queue[0].available, step.cidr);
  }

  // ----- the kind of a device -----

  /** What only a first build finds out. */
  predicate SameBuild(was: TunnelStatus, now: TunnelStatus) {
    && was.initialized && now.initialized && now.typ == was.typ && now.ovnGwIP == was.ovnGwIP
    && now.globalnetCIDR == was.globalnetCIDR && now.globalEgressIP == was.globalEgressIP
  }

  lemma WritesKeepBuild(c: Cluster, t: VpcNatTunnel, env: Env)
    requires t.status.initialized
    ensures forall t' | Writes(c, t, env, t') :: SameBuild(t.status, t'.status)
  {
  }

  /** A step that keeps an object keeps the type, gateway, CIDR and egress addresses recorded by its first build. */
  lemma StepKeepsBuild(c: Cluster, step: Step, key: Key)
    requires Enabled(c, step) && key in c.tunnels && key in Next(c, step).tunnels && c.tunnels[key].status.initialized
    ensures SameBuild(c.tunnels[key].status, Next(c, step).tunnels[key].status)
  {
    hide ReconcileTunnel, HandleAdded, HandleWentDown, HandleCameUp, HandleDeleted, Propagate, Put, Enabled, Writes,
         SameAddresses;
    if step.HandleEvent? {
      EventWritesSpecs(c, step);
    } else if step.Reconcile? {
      ReconcileWrites(c, step.key, step.env);
      WritesKeepBuild(c, c.tunnels[key], step.env);
    } else {
      OthersKeepObjects(c, step);
    }
  }

  /** The commands that an update may run: the old ones from the recorded Status, the new ones from the next. */
  predicate UpdateCommand(key: Key, t: VpcNatTunnel, remote: GatewayExIp, e: Effect) {
    e.Exec? ==>
      && e.gw == t.spec.localGw
      && (|| e.text == CreateCmd(key.name, t.status.typ, NextStatus(t, remote), t.labels)
          || e.text == DeleteCmd(key.name, t.status.typ)
          || (t.status.globalEgressIP != [] &&
                (e.text == GenDelGlobalnetRoute(key.name, t.status)
                 || e.text == GenGlobalnetRoute(key.name, NextStatus(t, remote)))))
  }

  /** Every delete and every create of the update path is of the recorded kind, whatever Type says. */
  lemma UpdateUsesRecordedKind(c: Cluster, key: Key, t: VpcNatTunnel, remote: GatewayExIp, env: Env)
    ensures forall e | e in Update(c, key, t, remote, env).log :: UpdateCommand(key, t, remote, e)
  {
    hide Rebuild, ExecBoth, GenDelGlobalnetRoute, GenGlobalnetRoute, CreateCmd, DeleteCmd;
    if t.spec.localGw in c.pods && t.status.typ == t.spec.typ {
      ClearCommands(c, key, t, remote, env);
      RebuildCommands(Clear(c, key, t, env).c, key, t, remote, env);
    }
  }

  lemma ClearCommands(c: Cluster, key: Key, t: VpcNatTunnel, remote: GatewayExIp, env: Env)
    requires t.spec.localGw in c.pods && t.status.typ == t.spec.typ
    ensures forall e | e in Clear(c, key, t, env).log :: UpdateCommand(key, t, remote, e)
  {
    hide ExecIn;
  }

  lemma RebuildCommands(c: Cluster, key: Key, t: VpcNatTunnel, remote: GatewayExIp, env: Env)
    requires t.spec.localGw in c.pods && t.status.typ == t.spec.typ
    ensures forall e | e in Rebuild(c, key, t, remote, env).log :: UpdateCommand(key, t, remote, e)
  {
    hide ExecIn;
  }

  /** The object is there in both states, and what its first build recorded, once there is such, stays. */
  ghost predicate Stable(c: Cluster, c': Cluster, key: Key) {
    key in c.tunnels && key in c'.tunnels &&
    (c.tunnels[key].status.initialized ==> SameBuild(c.tunnels[key].status, c'.tunnels[key].status))
  }

  lemma StepIsStable(c: Cluster, step: Step, c': Cluster, key: Key)
    requires Enabled(c, step) && c' == Next(c, step) && key in c.tunnels && key in c'.tunnels
    ensures Stable(c, c', key)
  {
    if c.tunnels[key].status.initialized {
      StepKeepsBuild(c, step, key);
    }
  }

  lemma {:induction false} StableComposes(states: seq<Cluster>, i: nat, j: nat, key: Key)
    requires i <= j < |states| && key in states[i].tunnels
    requires forall m | i <= m < j :: Stable(states[m], states[m + 1], key)
    ensures Stable(states[i], states[j], key)
    decreases j
  {
    if i < j {
      StableComposes(states, i, j - 1, key);
      assert Stable(states[j - 1], states[j - 1 + 1], key);
    }
  }

  /**
   As long as the object is there, recorded type, OVN gateway, own CIDR and egress addresses are those of the first
   build, whatever is edited, reconciled and failed over.
   */
  lemma BuildIsStable(states: seq<Cluster>, steps: seq<Step>, i: nat, j: nat, key: Key)
    requires Run(states, steps) && i <= j < |states|
    requires forall m | i <= m <= j :: key in states[m].tunnels
    requires states[i].tunnels[key].status.initialized
    ensures key in states[j].tunnels
    ensures var was, now := states[i].tunnels[key].status, states[j].tunnels[key].status;
            && now.initialized && now.typ == was.typ && now.ovnGwIP == was.ovnGwIP
            && now.globalnetCIDR == was.globalnetCIDR && now.globalEgressIP == was.globalEgressIP
  {
    forall m | i <= m < j
      ensures Stable(states[m], states[m + 1], key)
    {
      StepIsStable(states[m], steps[m], states[m + 1], key);
    }
    StableComposes(states, i, j, key);
  }

  // ----- finalizers of others -----

  lemma StepKeepsFinalizer(c: Cluster, step: Step, key: Key, f: string)
    requires Enabled(c, step) && key in c.tunnels && f in c.tunnels[key].finalizers
    requires f != "tunnel.finalizer.ustc.io"
    ensures key in Next(c, step).tunnels && f in Next(c, step).tunnels[key].finalizers
  {
    hide ReconcileTunnel, HandleAdded, HandleWentDown, HandleCameUp, HandleDeleted, Propagate, Put, Enabled;
    if step.HandleEvent? {
      EventWritesSpecs(c, step);
    } else if step.Reconcile? {
      ReconcileKeepsFinalizers(c, step.key, step.env, key);
      assert multiset(c.tunnels[key].finalizers)[f] > 0;
    } else {
      OthersKeepObjects(c, step);
    }
  }

  /** An object with a finalizer of somebody else never disappears, and never loses it. */
  lemma {:induction false} FinalizersOfOthersHold(states: seq<Cluster>, steps: seq<Step>, i: nat, j: nat, key: Key,
                                                  f: string)
    requires Run(states, steps) && i <= j < |states|
    requires key in states[i].tunnels && f in states[i].tunnels[key].finalizers && f != "tunnel.finalizer.ustc.io"
    ensures key in states[j].tunnels && f in states[j].tunnels[key].finalizers
    decreases j
  {
    hide Next;
    if i < j {
      FinalizersOfOthersHold(states, steps, i, j - 1, key, f);
      StepKeepsFinalizer(states[j - 1], steps[j - 1], key, f);
    }
  }

  // ----- failover -----

  /**
   Failover, in every run, whatever has failed before: when the loss or the deletion of a VPC's primary is handled and
   another gateway of the VPC is available, one of them is behind the GatewayExIp, all static routes of the VPC and
   all its labelled tunnels afterwards, with the address of its pod; and nothing of any other VPC has changed.
   */
  lemma StandbyTakesOver(states: seq<Cluster>, steps: seq<Step>, i: nat, n: string, standby: Word)
    requires Run(states, steps) && Initial(states[0]) && i < |steps| && steps[i].HandleEvent?
    requires var ev := states[i].queue[0];
             ev == Deleted(ev.gw) || (ev == WentDown(ev.gw) && standby != ev.gw)
    requires Local(states[i].exips, states[i].id, n) && states[i].exips[n].localGateway == states[i].queue[0].gw
    requires Standby(states[i], states[i].exips[n].localVpc, standby)
    ensures exists next ::
              && Standby(states[i], states[i].exips[n].localVpc, next)
              && (states[i].queue[0].WentDown? ==> next != states[i].queue[0].gw)
              && TakenOver(states[i], states[i + 1], n, next)
  {
    hide Next, Shaped, TakenOver, Standby, RemotesAgree;
    PeeredInEveryState(states, steps, i);
    if states[i].queue[0].WentDown? {
      WentDownMeans(states[i], steps[i], n);
    } else {
      DeletedMeans(states[i], steps[i], n);
    }
  }
}
