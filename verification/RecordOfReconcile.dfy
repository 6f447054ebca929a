/**
 What deleting and building for the first time do to the record, however their execs go: it stays exact, or
 not, precisely as the guards of the branch taken say.
 */
module RecordOfReconcile {
  import opened Api
  import opened Finalizers
  import opened Netns
  import opened TunnelCommands
  import opened TunnelLifecycle
  import opened Cluster
  import opened Shape
  import opened Record
  import opened Execs

  // ----- changes to the record -----

  /** One pod and the tunnel it is recorded for change together. */
  lemma RecordBuilt(tunnels: map<Key, VpcNatTunnel>, pods: map<Word, Pod>, key: Key, t: VpcNatTunnel, gw: Word,
                    ns: NetNs)
    requires Exact(tunnels, pods) && Trust(tunnels, pods) && key in tunnels && gw in pods
    requires forall k | k in tunnels && k != key :: !RecordedOn(tunnels[k], gw, pods[gw])
    requires forall g | g in pods && g != gw :: !RecordedOn(tunnels[key], g, pods[g])
    requires RecordedOn(t, gw, pods[gw]) && SamePlace(t) && Holds(ns, key.name, t.status)
    ensures Exact(tunnels[key := t], SetNs(pods, gw, ns)) && Trust(tunnels[key := t], SetNs(pods, gw, ns))
  {
    hide PodExact, Trust, Holds;
    BuiltKeepsTrust(tunnels, pods, key, t, gw, ns);
    forall g | g in pods
      ensures PodExact(tunnels[key := t], g, SetNs(pods, gw, ns)[g])
    {
      if g == gw {
        BuiltPodExact(tunnels, gw, pods[gw].(ns := ns), key, t);
      } else {
        OtherPodExact(tunnels, g, pods[g], key, t);
      }
    }
  }

  lemma BuiltKeepsTrust(tunnels: map<Key, VpcNatTunnel>, pods: map<Word, Pod>, key: Key, t: VpcNatTunnel, gw: Word,
                        ns: NetNs)
    requires Trust(tunnels, pods) && key in tunnels && gw in pods && RecordedOn(t, gw, pods[gw]) && SamePlace(t)
    ensures Trust(tunnels[key := t], SetNs(pods, gw, ns)) && forall g | g in pods && g != gw ::
              !RecordedOn(t, g, pods[g])
  {
  }

  lemma BuiltPodExact(tunnels: map<Key, VpcNatTunnel>, gw: Word, pod: Pod, key: Key, t: VpcNatTunnel)
    requires forall k | k in tunnels && k != key :: !RecordedOn(tunnels[k], gw, pod)
    requires RecordedOn(t, gw, pod) && Holds(pod.ns, key.name, t.status)
    ensures PodExact(tunnels[key := t], gw, pod)
  {
    hide Holds;
    assert RecordedOn(tunnels[key := t][key], gw, pod);
  }

  /** Nothing is said about a pod by a tunnel that is and was recorded elsewhere. */
  lemma OtherPodExact(tunnels: map<Key, VpcNatTunnel>, g: Word, pod: Pod, key: Key, t: VpcNatTunnel)
    requires PodExact(tunnels, g, pod) && key in tunnels && !RecordedOn(tunnels[key], g, pod) && !RecordedOn(t, g, pod)
    ensures PodExact(tunnels[key := t], g, pod) && PodExact(tunnels - {key}, g, pod)
  {
    hide Holds;
    if Claimed(tunnels, g, pod) {
      var k :| k in tunnels && RecordedOn(tunnels[k], g, pod);
      assert k in tunnels[key := t] && RecordedOn(tunnels[key := t][k], g, pod);
      assert k in tunnels - {key} && RecordedOn((tunnels - {key})[k], g, pod);
    }
  }

  /** The pod is emptied and the tunnel let go of. */
  lemma RecordDropped(tunnels: map<Key, VpcNatTunnel>, pods: map<Word, Pod>, key: Key, gw: Word, t: VpcNatTunnel)
    requires Exact(tunnels, pods) && Trust(tunnels, pods) && key in tunnels && gw in pods
    requires RecordedOn(tunnels[key], gw, pods[gw]) && !Recorded(t)
    requires forall k | k in tunnels && k != key :: !RecordedOn(tunnels[k], gw, pods[gw])
    ensures Exact(tunnels[key := t], SetNs(pods, gw, EMPTY)) && Trust(tunnels[key := t], SetNs(pods, gw, EMPTY))
    ensures Exact(tunnels - {key}, SetNs(pods, gw, EMPTY)) && Trust(tunnels - {key}, SetNs(pods, gw, EMPTY))
  {
    hide PodExact, Trust;
    DroppedKeepsTrust(tunnels, pods, key, gw, t);
    forall g | g in pods
      ensures PodExact(tunnels[key := t], g, SetNs(pods, gw, EMPTY)[g])
      ensures PodExact(tunnels - {key}, g, SetNs(pods, gw, EMPTY)[g])
    {
      if g == gw {
        EmptiedPodExact(tunnels, gw, pods[gw].(ns := EMPTY), key, t);
      } else {
        OtherPodExact(tunnels, g, pods[g], key, t);
      }
    }
  }

  lemma DroppedKeepsTrust(tunnels: map<Key, VpcNatTunnel>, pods: map<Word, Pod>, key: Key, gw: Word, t: VpcNatTunnel)
    requires Trust(tunnels, pods) && key in tunnels && gw in pods
    requires !Recorded(t) && RecordedOn(tunnels[key], gw, pods[gw])
    ensures Trust(tunnels[key := t], SetNs(pods, gw, EMPTY)) && Trust(tunnels - {key}, SetNs(pods, gw, EMPTY))
    ensures forall g | g in pods && g != gw :: !RecordedOn(tunnels[key], g, pods[g]) && !RecordedOn(t, g, pods[g])
  {
  }

  lemma EmptiedPodExact(tunnels: map<Key, VpcNatTunnel>, gw: Word, pod: Pod, key: Key, t: VpcNatTunnel)
    requires pod.ns == EMPTY && !Recorded(t) && forall k | k in tunnels && k != key :: !RecordedOn(tunnels[k], gw, pod)
    ensures PodExact(tunnels[key := t], gw, pod) && PodExact(tunnels - {key}, gw, pod)
  {
  }

  /** A pod with content that no Status names. */
  lemma Unrecorded(tunnels: map<Key, VpcNatTunnel>, pods: map<Word, Pod>, gw: Word)
    requires gw in pods && pods[gw].ns != EMPTY && forall k | k in tunnels :: !RecordedOn(tunnels[k], gw, pods[gw])
    ensures !Exact(tunnels, pods)
  {
    assert !Claimed(tunnels, gw, pods[gw]);
    assert !PodExact(tunnels, gw, pods[gw]);
  }

  /** A pod that lost part of what its tunnel's Status says, with the object as it was. */
  lemma NotHeld(tunnels: map<Key, VpcNatTunnel>, pods: map<Word, Pod>, key: Key, gw: Word, ns: NetNs)
    requires key in tunnels && gw in pods && RecordedOn(tunnels[key], gw, pods[gw])
    requires !Holds(ns, key.name, tunnels[key].status)
    ensures !Exact(tunnels, SetNs(pods, gw, ns))
  {
    hide Holds;
    assert RecordedOn(tunnels[key], gw, SetNs(pods, gw, ns)[gw]);
    assert !PodExact(tunnels, gw, SetNs(pods, gw, ns)[gw]);
  }

  // ----- in pods that hold another tunnel -----

  /** What is in the pod belongs to another tunnel of the VPC, with another name. */
  lemma HeldByOther(c: Cluster, key: Key, gw: Word) returns (k: Key)
    requires Shaped(c) && Accurate(c) && key in c.tunnels && gw in c.pods && c.pods[gw].ns != EMPTY
    requires gw in c.homes && c.homes[gw] == c.tunnels[key].spec.localVpc && !RecordedOn(c.tunnels[key], gw, c.pods[gw])
    ensures k in c.tunnels && k != key && RecordedOn(c.tunnels[k], gw, c.pods[gw])
    ensures Holds(c.pods[gw].ns, k.name, c.tunnels[k].status) && k.name != key.name
  {
    hide Holds, Rooted;
    assert PodExact(c.tunnels, gw, c.pods[gw]);
    k :| k in c.tunnels && RecordedOn(c.tunnels[k], gw, c.pods[gw]);
    assert TunnelOk(c.homes, k, c.tunnels[k]);
  }

  /** Taking down in a pod that Status does not name fails, and keeps the record exactly when nothing is harmed. */
  lemma TakeDownElsewhereExact(c: Cluster, key: Key, gw: Word, typ: string, env: Env)
    requires Shaped(c) && Accurate(c) && key in c.tunnels && gw in c.pods && c.tunnels[key].status.globalEgressIP != []
    requires gw in c.homes && c.homes[gw] == c.tunnels[key].spec.localVpc && !RecordedOn(c.tunnels[key], gw, c.pods[gw])
    ensures var st := c.tunnels[key].status;
            var r := ExecBoth(c, gw, GenDelGlobalnetRoute(key.name, st), DeleteCmd(key.name, typ), env, 0);
            && r.outcome == Failed && r.c == c.(pods := r.c.pods)
            && (Unharmed(c.pods[gw].ns, st, FaultOf(env, 0)) ==> r.c == c)
            && (Accurate(r.c) <==> Unharmed(c.pods[gw].ns, st, FaultOf(env, 0)))
  {
    hide GenDelGlobalnetRoute, DeleteCmd, ExecBoth, Holds, Shaped, Exact, Trust;
    var st := c.tunnels[key].status;
    if c.pods[gw].ns == EMPTY {
      TakeDownOnEmpty(c, key.name, gw, typ, st, env);
    } else {
      var k := HeldByOther(c, key, gw);
      TakeDownOther(c, key.name, gw, typ, st, k.name, c.tunnels[k].status, env);
      var r := ExecBoth(c, gw, GenDelGlobalnetRoute(key.name, st), DeleteCmd(key.name, typ), env, 0);
      if !Unharmed(c.pods[gw].ns, st, FaultOf(env, 0)) {
        NotHeld(c.tunnels, c.pods, k, gw, r.c.pods[gw].ns);
      }
    }
  }

  /** Building beside another tunnel, once it starts, spoils that one's record, whatever becomes of the own object. */
  lemma BuildBeside(c: Cluster, key: Key, gw: Word, st: TunnelStatus, env: Env, i: nat)
    requires Shaped(c) && Accurate(c) && key in c.tunnels && gw in c.pods && c.pods[gw].ns != EMPTY
    requires gw in c.homes && c.homes[gw] == c.tunnels[key].spec.localVpc && !RecordedOn(c.tunnels[key], gw, c.pods[gw])
    requires !OwnInterface(key.name) && st.globalEgressIP != []
    ensures var t := c.tunnels[key];
            var r := ExecBoth(c, gw, CreateCmd(key.name, t.spec.typ, st, t.labels), GenGlobalnetRoute(key.name, st),
                              env, i);
            && (NeverStarts(env, i) ==> r.c == c && r.outcome == Failed)
            && (!NeverStarts(env, i) ==> !Accurate(r.c) && forall t' :: !Accurate(Put(r.c, key, t')))
  {
    hide CreateCmd, GenGlobalnetRoute, ExecBoth, Shaped, Exact, Trust, NeverStarts;
    var t := c.tunnels[key];
    var k := HeldByOther(c, key, gw);
    HoldsHasDevice(c.pods[gw].ns, k.name, c.tunnels[k].status);
    BuildAdds(c, key.name, gw, t.spec.typ, st, t.labels, env, i);
    if !NeverStarts(env, i) {
      var c1 := ExecBoth(c, gw, CreateCmd(key.name, t.spec.typ, st, t.labels), GenGlobalnetRoute(key.name, st),
                         env, i).c;
      SecondDeviceSpoils(c, k, key.name, gw, c1.pods[gw].ns, c.tunnels);
      forall t'
        ensures !Accurate(Put(c1, key, t'))
      {
        SecondDeviceSpoils(c, k, key.name, gw, c1.pods[gw].ns, c.tunnels[key := t']);
      }
    }
  }

  lemma CreateBeside(c: Cluster, key: Key, gw: Word, st: TunnelStatus, env: Env, i: nat)
    requires Shaped(c) && Accurate(c) && key in c.tunnels && gw in c.pods && c.pods[gw].ns != EMPTY
    requires gw in c.homes && c.homes[gw] == c.tunnels[key].spec.localVpc && !RecordedOn(c.tunnels[key], gw, c.pods[gw])
    requires !OwnInterface(key.name)
    ensures var t := c.tunnels[key];
            Accurate(ExecIn(c, gw, CreateCmd(key.name, t.spec.typ, st, t.labels), FaultOf(env, i)).c)
            <==> NeverStarts(env, i)
  {
    hide CreateCmd, ExecIn, Shaped, Exact, Trust, NeverStarts;
    var t := c.tunnels[key];
    var k := HeldByOther(c, key, gw);
    HoldsHasDevice(c.pods[gw].ns, k.name, c.tunnels[k].status);
    CreateExecAdds(c, key.name, gw, t.spec.typ, st, t.labels, env, i);
    if !NeverStarts(env, i) {
      var c1 := ExecIn(c, gw, CreateCmd(key.name, t.spec.typ, st, t.labels), FaultOf(env, i)).c;
      SecondDeviceSpoils(c, k, key.name, gw, c1.pods[gw].ns, c.tunnels);
    }
  }

  /** A pod with a device beside the recorded tunnel's. */
  lemma SecondDeviceSpoils(c: Cluster, k: Key, name: Word, gw: Word, ns: NetNs, tunnels: map<Key, VpcNatTunnel>)
    requires k in c.tunnels && gw in c.pods && RecordedOn(c.tunnels[k], gw, c.pods[gw])
    requires k.name != name && name in ns.devs
    requires k in tunnels && tunnels[k] == c.tunnels[k]
    ensures !Exact(tunnels, SetNs(c.pods, gw, ns))
  {
    hide Exact;
    assert !Holds(ns, k.name, c.tunnels[k].status) by {
      assert Holds(ns, k.name, c.tunnels[k].status) ==> ns.devs.Keys == {k.name};
    }
    NotHeld(tunnels, c.pods, k, gw, ns);
  }

  // ----- deleting -----

  lemma DeleteExact(c: Cluster, key: Key, env: Env)
    requires Shaped(c) && Accurate(c) && key in c.tunnels && c.tunnels[key].deleting
    ensures Accurate(HandleDelete(c, key, env).c) <==> BenignReconcile(c, key, env)
  {
    hide GenDelGlobalnetRoute, DeleteCmd, ExecBoth, DropFinalizer, RecordOk, DevicesApart, Unharmed;
    var t := c.tunnels[key];
    var gw := t.status.localGw;
    assert TunnelOk(c.homes, key, t);
    if FINALIZER in t.finalizers && gw in c.pods {
      if Reaches(c, gw, t) {
        DeleteRecordedExact(c, key, env);
      } else {
        TakeDownElsewhereExact(c, key, gw, t.spec.typ, env);
      }
    }
  }

  lemma DeleteRecordedExact(c: Cluster, key: Key, env: Env)
    requires Shaped(c) && Accurate(c) && key in c.tunnels && c.tunnels[key].deleting
    requires FINALIZER in c.tunnels[key].finalizers && Reaches(c, c.tunnels[key].status.localGw, c.tunnels[key])
    ensures Accurate(HandleDelete(c, key, env).c)
       <==> NeverStarts(env, 0) || (Unbroken(env, 0, 2) && !WrongDelete(c.tunnels[key]))
  {
    hide GenDelGlobalnetRoute, DeleteCmd, ExecBoth, DropFinalizer, Holds;
    var t := c.tunnels[key];
    var gw := t.status.localGw;
    assert TunnelOk(c.homes, key, t);
    assert PodExact(c.tunnels, gw, c.pods[gw]);
    TakeDownRecorded(c, key.name, gw, t.spec.typ, t.status, env);
    var r := ExecBoth(c, gw, GenDelGlobalnetRoute(key.name, t.status), DeleteCmd(key.name, t.spec.typ), env, 0);
    assert NeverStarts(env, 0) ==> !Unbroken(env, 0, 2);
    if r.outcome == Done {
      EmptiedAndDropped(c, key, gw);
      assert r.c == c.(pods := SetNs(c.pods, gw, EMPTY));
    } else if !NeverStarts(env, 0) {
      RoutelessIsNotHeld(r.c.pods[gw].ns, key.name, t.status);
      NotHeld(c.tunnels, c.pods, key, gw, r.c.pods[gw].ns);
    }
  }

  lemma EmptiedAndDropped(c: Cluster, key: Key, gw: Word)
    requires Shaped(c) && Accurate(c) && key in c.tunnels && Reaches(c, gw, c.tunnels[key])
    ensures Accurate(DropFinalizer(c.(pods := SetNs(c.pods, gw, EMPTY)), key, c.tunnels[key]))
  {
    hide Exact, Trust, Shaped;
    var t := c.tunnels[key];
    var t' := t.(finalizers := Dropped(t.finalizers, FINALIZER));
    DroppedHasNone(t.finalizers, FINALIZER);
    OthersNotHere(c, key, gw);
    RecordDropped(c.tunnels, c.pods, key, gw, t');
  }

  // ----- building for the first time -----

  lemma FirstBuildExact(c: Cluster, key: Key, env: Env)
    requires Shaped(c) && Accurate(c) && key in c.tunnels
    requires var t := c.tunnels[key];
             !t.deleting && !t.status.initialized && FINALIZER in t.finalizers && RemoteName(t) in c.exips
    ensures Accurate(FirstBuild(c, key, c.tunnels[key], c.exips[RemoteName(c.tunnels[key])], env).c)
       <==> BenignReconcile(c, key, env)
  {
    hide CreateCmd, GenGlobalnetRoute, ExecBoth, ExecIn, RecordOk, DevicesApart, FirstRecord, NeverStarts;
    var t := c.tunnels[key];
    if FindsAll(c, t, env) {
      FirstPod(c, key, env);
      var gw := c.exips[ExIpName(t.spec.localVpc, c.id)].localGateway;
      var st := FirstStatusIn(c, t, env);
      if c.pods[gw].ns != EMPTY && st.globalEgressIP == [] {
        CreateBeside(c, key, gw, st, env, 0);
      } else if c.pods[gw].ns != EMPTY {
        BuildBeside(c, key, gw, st, env, 0);
      } else if st.globalEgressIP == [] {
        FirstPanicExact(c, key, gw, st, env);
      } else {
        FirstExecsExact(c, key, gw, st, env);
      }
    }
  }

  /** A first build works in the pod of the VPC's primary gateway, and its own Status names no pod. */
  lemma FirstPod(c: Cluster, key: Key, env: Env)
    requires Shaped(c) && Accurate(c) && key in c.tunnels && !c.tunnels[key].status.initialized
    requires FindsAll(c, c.tunnels[key], env)
    ensures var gw := c.exips[ExIpName(c.tunnels[key].spec.localVpc, c.id)].localGateway;
            && !OwnInterface(key.name) && gw in c.homes && c.homes[gw] == c.tunnels[key].spec.localVpc
            && !RecordedOn(c.tunnels[key], gw, c.pods[gw])
            && (c.pods[gw].ns == EMPTY ==> forall k | k in c.tunnels :: !RecordedOn(c.tunnels[k], gw, c.pods[gw]))
  {
    hide DevicesApart, RecordOk;
    var t := c.tunnels[key];
    assert TunnelOk(c.homes, key, t);
    LocalLookup(c.exips, c.id, t.spec.localVpc);
    UnrecordedPodIsEmpty(c, c.exips[ExIpName(t.spec.localVpc, c.id)].localGateway);
  }

  /** Without an egress address the build panics, and leaves a device behind unless its exec never starts. */
  lemma FirstPanicExact(c: Cluster, key: Key, gw: Word, st: TunnelStatus, env: Env)
    requires Accurate(c) && key in c.tunnels && gw in c.pods && c.pods[gw].ns == EMPTY && !OwnInterface(key.name)
    requires forall k | k in c.tunnels :: !RecordedOn(c.tunnels[k], gw, c.pods[gw])
    ensures var t := c.tunnels[key];
            Accurate(ExecIn(c, gw, CreateCmd(key.name, t.spec.typ, st, t.labels), FaultOf(env, 0)).c)
            <==> NeverStarts(env, 0)
  {
    hide CreateCmd, ExecIn, Exact, Trust;
    var t := c.tunnels[key];
    CreateOnEmpty(c, key.name, gw, t.spec.typ, st, t.labels, env, 0);
    var c' := ExecIn(c, gw, CreateCmd(key.name, t.spec.typ, st, t.labels), FaultOf(env, 0)).c;
    if !NeverStarts(env, 0) {
      assert forall k | k in c'.tunnels :: !RecordedOn(c'.tunnels[k], gw, c'.pods[gw]);
      Unrecorded(c'.tunnels, c'.pods, gw);
    }
  }

  lemma FirstExecsExact(c: Cluster, key: Key, gw: Word, st: TunnelStatus, env: Env)
    requires Accurate(c) && key in c.tunnels && gw in c.pods && c.pods[gw].ns == EMPTY && !OwnInterface(key.name)
    requires forall k | k in c.tunnels :: !RecordedOn(c.tunnels[k], gw, c.pods[gw])
    requires var t := c.tunnels[key]; !t.status.initialized && FINALIZER in t.finalizers && RemoteName(t) in c.exips
    requires st.globalEgressIP != [] && st.initialized && st.localGw == gw && st.internalIP == c.pods[gw].externalIP
    requires st.typ == c.tunnels[key].spec.typ
    ensures var t := c.tunnels[key];
            var r := ExecBoth(c, gw, CreateCmd(key.name, t.spec.typ, st, t.labels), GenGlobalnetRoute(key.name, st),
                              env, 0);
            var after := if r.outcome == Done then Put(r.c, key, FirstRecord(t, c.exips[RemoteName(t)], st)) else r.c;
            Accurate(after)
            <==> NeverStarts(env, 0) || (Unbroken(env, 0, 2) && st.globalnetCIDR != st.remoteGlobalnetCIDR)
  {
    hide CreateCmd, GenGlobalnetRoute, ExecBoth, Exact, Trust, Holds, KindFor;
    var t := c.tunnels[key];
    BuildOnEmpty(c, key.name, gw, t.spec.typ, st, t.labels, env, 0);
    var r := ExecBoth(c, gw, CreateCmd(key.name, t.spec.typ, st, t.labels), GenGlobalnetRoute(key.name, st), env, 0);
    assert NeverStarts(env, 0) ==> !Unbroken(env, 0, 2);
    if r.outcome == Done {
      var t' := FirstRecord(t, c.exips[RemoteName(t)], st);
      BuiltHolds(key.name, t.spec.typ, t.labels, st);
      RecordBuilt(c.tunnels, c.pods, key, t', gw, r.c.pods[gw].ns);
    } else if !NeverStarts(env, 0) {
      assert forall k | k in r.c.tunnels :: !RecordedOn(r.c.tunnels[k], gw, r.c.pods[gw]);
      Unrecorded(r.c.tunnels, r.c.pods, gw);
    }
  }

  lemma BuiltHolds(name: string, typ: string, labels: map<string, Word>, st: TunnelStatus)
    requires st.globalEgressIP != [] && st.globalnetCIDR != st.remoteGlobalnetCIDR && st.typ == typ
    ensures Holds(Built(EMPTY, name, KindFor(typ, labels), st), name, st)
  {
  }
}
