/**
 One step of a cluster: Status is an exact record after it if and only if the guard of the step holds before it.
 */
module Steps {
  import opened Api
  import opened Cluster
  import opened Shape
  import opened Agreement
  import opened Peers
  import opened Safety
  import opened Record
  import opened RecordOfEvents
  import opened RecordOfUpdate

  // ----- the record -----

  lemma EnvironmentRecordExact(c: Cluster, step: Step)
    requires Shaped(c) && Accurate(c) && Enabled(c, step)
    requires step.PodDies? || step.PodReturns? || step.GatewayAdded? || step.GatewayRemoved?
    ensures Accurate(Next(c, step)) <==> KeepsRecord(c, step)
  {
    hide RecordOk, ReusedAddress, TunnelsOk, DevicesApart;
    match step
    case PodDies(gw) => PodsGoKeepsRecord(c, gw);
    case PodReturns(gw, ip, ovnGw) => PodUpExact(c, gw, ip, ovnGw);
    case GatewayAdded(gw, _, pod) =>
      if pod.Some? {
        PodUpExact(c, gw, pod.value.0, pod.value.1);
      }
    case GatewayRemoved(gw) => PodsGoKeepsRecord(c, gw);
  }

  lemma PodsGoKeepsRecord(c: Cluster, gw: Word)
    requires Accurate(c)
    ensures RecordOk(c.tunnels, c.pods - {gw})
  {
    PodsKeepRecord(c.tunnels, c.pods, c.pods - {gw});
  }

  lemma ReaddressedIgnoresQueue(c: Cluster, queue: seq<Event>, gw: Word, exip: Option<string>)
    ensures Readdressed(c.(queue := queue), gw, exip) <==> Readdressed(c, gw, exip)
  {
    var c' := c.(queue := queue);
    assert forall g | g in c.pods :: Home(c', g) == Home(c, g);
    assert Home(c', gw) == Home(c, gw);
  }

  /** What an event does to the record has nothing to do with the events behind it. */
  lemma EventRecordExact(c: Cluster, step: Step)
    requires Shaped(c) && Accurate(c) && Enabled(c, step) && step.HandleEvent?
    ensures Accurate(Next(c, step)) <==> KeepsRecord(c, step)
  {
    hide Shaped, RecordOk, HandleWentDown, HandleCameUp, HandleDeleted, StaleFailover, Readdressed;
    var rest := c.(queue := c.queue[1..]);
    var gw := c.queue[0].gw;
    ShapeIgnoresQueue(c, c.queue[1..]);
    PopKeepsPicks(c, gw);
    StaleIgnoresQueue(c, rest.queue, gw, step.exip, step.next);
    ReaddressedIgnoresQueue(c, rest.queue, gw, step.exip);
    match c.queue[0]
    case Added(_, _) =>
    case WentDown(_) => FailoverExact(rest, gw, step.exip, step.next);
    case CameUp(_) => CameUpExact(rest, gw, step.exip);
    case Deleted(_) => FailoverExact(rest, gw, step.exip, step.next);
  }

  lemma UserKeepsRecord(c: Cluster, step: Step)
    requires Accurate(c) && Enabled(c, step) && (step.UserCreates? || step.UserEdits? || step.UserDeletes?)
    ensures Accurate(Next(c, step))
  {
    hide RecordOk;
    match step
    case UserCreates(key, t) => PutKeepsRecord(c, key, t);
    case UserEdits(key, t) => PutKeepsRecord(c, key, t);
    case UserDeletes(key) =>
      if c.tunnels[key].finalizers == [] {
        RemoveKeepsRecord(c, key);
      } else {
        PutKeepsRecord(c, key, c.tunnels[key].(deleting := true));
      }
  }

  /**
   Every step, from every state that is well shaped: Status is an exact record after it, if and only if the step's
   guard holds before it.
   */
  lemma StepRecordExact(c: Cluster, step: Step)
    requires Shaped(c) && Accurate(c) && Enabled(c, step)
    ensures Accurate(Next(c, step)) <==> KeepsRecord(c, step)
  {
    hide ReconcileTunnel, BenignReconcile, Propagate, ReusedAddress, Accurate, TunnelsOk, DevicesApart, Rooted;
    match step
    case PodDies(_) => EnvironmentRecordExact(c, step);
    case PodReturns(_, _, _) => EnvironmentRecordExact(c, step);
    case GatewayAdded(_, _, _) => EnvironmentRecordExact(c, step);
    case GatewayRemoved(_) => EnvironmentRecordExact(c, step);
    case HandleEvent(_, _, _) => EventRecordExact(c, step);
    case RemoteSet(_, _) => RemoteStepKeepsShape(c, step); RemoteKeepsRecord(c, Next(c, step));
    case RemoteGone(_) => RemoteStepKeepsShape(c, step); RemoteKeepsRecord(c, Next(c, step));
    case UserCreates(_, _) => UserKeepsRecord(c, step);
    case UserEdits(_, _) => UserKeepsRecord(c, step);
    case UserDeletes(_) => UserKeepsRecord(c, step);
    case Reconcile(key, env) => ReconcileExact(c, key, env);
  }

  /**
   Every step: in a state where gateways and addresses agree and Status is an exact record, the same holds after the
   step if and only if the step is benign.
   */
  lemma StepExact(c: Cluster, step: Step)
    requires Inv(c) && Enabled(c, step)
    ensures Inv(Next(c, step)) <==> Benign(c, step)
  {
    hide Next, Peered, Agreed, Accurate, Orderly, KeepsRecord;
    AgreedIsShaped(c);
    StepAgreementExact(c, step);
    StepKeepsPeers(c, step);
    StepRecordExact(c, step);
  }
}
