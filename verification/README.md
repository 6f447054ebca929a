# X-ClusterLink: the tunnel, failover and DNS logic

X-ClusterLink keeps GRE and VXLAN tunnels between the VPCs of several Kubernetes clusters alive while
VPC gateways fail, restart and come and go. This project models its controllers and proves what they keep.

* `GoStrings`, `TunnelCommands`, `Netns`, `TunnelLifecycle`: the shell commands as text, what the text means,
  what it does to the network namespace of a gateway pod, and that building is undone by taking down.
* `Cluster`: one cluster as a state (gateways, pods and their namespaces, static routes, GatewayExIps,
  tunnels, pending gateway events) and every step on it: pods and gateways come and go, users edit, the three
  informer handlers, the broker's updates, and the tunnel reconciler with arbitrary failures of pod commands.
* `Shape`, `Peers`, `CompleteCommands`, `WellFormedPods`: names, primaries and stored objects, what a reconcile can
  write, the peers' addresses, that no command has an empty word, and that no pod has a route without its interface;
  every step keeps these, whatever fails.
* `GatewayEffects`, `TunnelEffects`: every handler and every branch of a reconcile, told field by field and command by
  command: who takes over after a failover, what a build and an update record and leave alone, in which order commands
  and writes follow each other, and which finalizers stay.
* `Agreement`, `Addresses`: GatewayExIp, routes and tunnels of a VPC name one gateway and carry its address.
* `Safety`, `SafetyOfReconcile`: every tunnel device on a running pod belongs to a stored tunnel with its finalizer.
* `Record`, `Execs`, `RecordOfEvents`, `RecordOfReconcile`, `RecordOfUpdate`, `Steps`: the reconciler never reads
  a pod, it trusts Status. `Accurate` says what that trust needs, and `Steps.StepRecordExact` that a step keeps it if
  and only if `KeepsRecord` holds, a guard on the state before the step.
* `Runs`, `Convergence`, `Recovery`, `System`: whole runs, coming to rest, recovery from the loss of a primary, and
  several clusters around a broker.
* `Counterexamples`: runs from an empty cluster that lose a property as soon as a guard is not met.
* `DnsCommands`, `DnsCorefile`: the rewriting of init commands and of the Corefile by `Contains` and `Replace`.
* `TunnelReconciler`, `GatewayInformer`, `GatewayExIpController`, `DnsReconciler`, `Lists`, `Finalizers`: the
  controllers as they run, with objects changed field by field, pointers to loop variables and arrays
  rewritten in place; each method is proved to do what the functions above say.

`dafny verify dfyconfig.toml` checks everything.

## Where the code does less than it promises

Four properties are lost in certain steps. For each, a guard on the state before the step says exactly when, for
one step and for whole runs, with several tunnels per VPC and arbitrary failures of pod commands. The four do not
depend on each other, but for the third, which the fourth implies.

* Agreement (`Agreed`): while a VPC has a GatewayExIp, routes and tunnels follow its gateway, and with no event of
  it pending all carry its pod's address. Kept if and only if the step is `Orderly`: a GatewayExIp is not created
  while tunnels of its VPC, whose last gateway had gone, name another gateway or address
  (`AddedGatewayIgnoresTunnels`).
* One address (`Addressed`): GatewayExIp and tunnels of a VPC carry the same address, also while its primary has no
  pod. Kept if and only if the step is `Punctual`: beside the above, a first build finds its pod's address in the
  GatewayExIp. A restart that is over before its events are handled, with a first build in between, leaves two
  different old addresses, and no event that would repair them (`OldAddressesDiffer`).
* Finalizer safety (`Safe`): every device on a running pod belongs to a stored tunnel that holds its finalizer and may
  be on that pod. Kept if and only if the step is `Calm`: no gateway is promoted, by a failover or a deletion, while
  another running pod of the VPC carries a device. A failover that is handled late does that, and in the end a
  running pod has the device of a tunnel that is gone (`StaleFailoverLeavesADevice`).
* The record (`Accurate`): Status is an exact record of what the pods hold, and while the recorded pod lives, Spec
  names it too. Kept if and only if the step meets `KeepsRecord`, that is, none of these happens:
  * such a promotion; or a restart is handled while another pod of the VPC carries a device under another address,
    which cannot happen while gateways agree (`AgreedIsNotReaddressed`);
  * a pod comes back with an address that a Status still records for its gateway: nothing is rebuilt
    (`ReusedAddressIsNotNoticed`);
  * a connection breaks in a pod, after the first of the commands has begun to work: after a first build that broke
    off, no reconcile of the tunnel completes while that pod runs (`BrokenBuildSticks`, `StuckStays`);
  * a tunnel is built while the two clusters' CIDRs are equal, or with no egress address (the comment at
    internal/controller/vpcnattunnel_controller.go:324 expects the CIDR to change, not what it may change to): an
    update takes the tunnel down and does not build it again (`ClashingCIDRTakesDown`);
  * an update builds on a pod whose address is not the one in Spec, and records the one in Spec
    (`MovedPodIsRecordedWrongly`);
  * Type is edited away from vxlan and the tunnel is deleted before the edit is undone (`WrongDeleteSticks`);
  * a tunnel is built in a pod that another tunnel of the VPC is recorded on. It cannot be completed there as long as
    the cluster's CIDR is the same (`SecondTunnelIsNotBuilt`), and its device stays behind;
  * a tunnel is taken down in such a pod, its own being gone, and the other one has the same in-flow route or SNAT
    rule: that is deleted, and the other one's Status goes on as before (`DeletionHarmsAnother`).

The comment at internal/controller/vpcnattunnel_controller.go:343 expects the old tunnel to be there whenever
Status and Spec agree on the place; `DeletionFinishes` shows that deletion completes exactly when the recorded
pod is still running, the delete command fits the device and no connection breaks. All counterexamples but the general
`StuckStays` and `SecondTunnelIsNotBuilt` start in a state that is reached from an empty cluster by steps which meet
all guards but `Punctual`.

## Model

| member | source | states |
|---|---|---|
| TunnelCommands.CreateCmdMeans | internal/tunnel/vxlan/operation.go:24-49 | read back by splitting on semicolons and blanks, the create command is the intended three operations with remote, local and address in their places, of the kind the factory chooses and with the labels' vid and port or the defaults |
| TunnelCommands.DeleteCmdMeans | internal/tunnel/gre/operation.go:28-31 | the delete command is the one operation that deletes this device, `link` for VXLAN and `tunnel` for GRE |
| TunnelCommands.GenGlobalnetRouteMeans | internal/controller/vpcnattunnel_controller.go:204-213 | the route command is read as in-flow route, out-flow route and one appended SNAT rule with the first and last egress address |
| TunnelCommands.GenDelGlobalnetRouteMeans | internal/controller/vpcnattunnel_controller.go:215-221 | the reverse command is read as the deletion of exactly these three |
| TunnelCommands.CreateCmdWords | internal/tunnel/vxlan/operation.go:24-49 | the words of the create command's three statements, literally, for VXLAN and for GRE |
| TunnelCommands.DeleteCmdWords | internal/tunnel/gre/operation.go:28-31 | the words of the delete command, literally, for both |
| TunnelCommands.RouteCmdWords | internal/controller/vpcnattunnel_controller.go:204-221 | the words of the route command and of its reverse, literally |
| TunnelLifecycle.BuildExact | internal/controller/vpcnattunnel_controller.go:291-300 | creating and routing run cleanly if and only if there is room for the tunnel, and then add one device, two routes and one rule and nothing else |
| TunnelLifecycle.DeleteRuns | internal/tunnel/factory/factory.go:24-33 | the delete command succeeds exactly on a device that it fits: any for VXLAN, only GRE devices otherwise |
| TunnelLifecycle.BuildThenTakeDownRestores | internal/controller/vpcnattunnel_controller.go:200-225 | from any namespace with room, building and taking down with the same Status succeeds and restores it: devices and routes exactly, rules as a multiset, and as a sequence if the rule was not there before |
| TunnelLifecycle.CommandsKeepOtherTunnels | internal/controller/vpcnattunnel_controller.go:204-221 | any command of one tunnel, clean, failing or cut short, keeps device, out-flow route and SNAT rules of every other tunnel of the gateway |
| Shape.NameRoundTrip | internal/controller/gatewayexip_controller.go:158-160 | SplitN recovers VPC and cluster from a GatewayExIp's name if and only if the VPC has no dot |
| Shape.NameInjective | internal/controller/gateway_informer.go:124 | different pairs of VPC and cluster have different names |
| Shape.PrimaryIsUnique | internal/controller/gateway_informer.go:158-176 | a gateway is named by at most one GatewayExIp of the cluster, that of its own VPC |
| Shape.ReconcileWrites | internal/controller/vpcnattunnel_controller.go:227-434 | whatever fails, a reconcile changes no address and no other object, and stores in place of its own only one of five: finalizer dropped, finalizer added, the record of a first build, Type put back, or the record of an update |
| Shape.StepKeepsShape | internal/controller/vpcnattunnel_controller.go:61-436 | every step, without any condition, keeps names, primaries of the own VPC, and labels, gateways and finalizer of built tunnels |
| Peers.PointsAtMeans | internal/controller/gatewayexip_controller.go:162-165 | the labels that the sync selects by pick exactly the built tunnels that look up this GatewayExIp |
| Peers.StepKeepsPeers | internal/controller/gatewayexip_controller.go:155-186 | every step, without any condition, keeps Spec.RemoteIP of all built tunnels to another cluster equal to the address of the GatewayExIp they look up |
| CompleteCommands.ReconcileSendsFilled | internal/controller/vpcnattunnel_controller.go:200-225 | all commands of a reconcile, split by semicolons and blanks, have no empty word, given that no stored value or label that goes into them is empty |
| WellFormedPods.StepKeepsWellFormed | internal/controller/vpcnattunnel_controller.go:74-120 | every step, without any condition, keeps every pod free of routes through an interface that is not there |
| GatewayEffects.WentDownMeans | internal/controller/gateway_informer.go:151-253 | handling the loss of a primary: if and only if another gateway of the VPC is available, one of them takes over, that is, GatewayExIp, all static routes and all labelled tunnels of the VPC name it and carry its pod's address; nothing else changes, and nothing at all without such a gateway |
| GatewayEffects.DeletedMeans | internal/controller/gateway_informer.go:323-433 | handling the deletion of a primary, with or without tunnels: the same if a gateway of the VPC is available; otherwise exactly the GatewayExIp is deleted |
| GatewayEffects.CameUpMeans | internal/controller/gateway_informer.go:255-320 | handling the restart of a primary: GatewayExIp and labelled tunnels of the VPC get the pod's address, gateway, routes, CIDR and everything else stay; nothing changes if the pod is gone again |
| GatewayEffects.AddedMeans | internal/controller/gateway_informer.go:64-144 | a GatewayExIp is created exactly under the conditions that the early returns leave, with the pod's address, the cluster's CIDR and the three labels; nothing else changes |
| GatewayEffects.OthersMean | internal/controller/gateway_informer.go:167-176 | in any state, the event of a gateway that no GatewayExIp of the cluster names only leaves the queue |
| GatewayEffects.RemoteSetMeans | internal/controller/gatewayexip_controller.go:155-186 | a stored GatewayExIp of another cluster gives its address as Spec.RemoteIP to exactly the tunnels labelled with its VPC and cluster |
| GatewayEffects.RemoteGoneMeans | internal/controller/gatewayexip_controller.go:155-186 | when it is deleted, these tunnels get the last address it had |
| TunnelEffects.FirstBuildMeans | internal/controller/vpcnattunnel_controller.go:227-323 | a reconcile of an unbuilt tunnel, in any state and with any faults: which lookups have to succeed, every field of Status, Spec and labels that is recorded and from where, that device precedes routes and both precede the writes, which happen only after both succeeded, and the panic with no egress address |
| TunnelEffects.UpdateMeans | internal/controller/vpcnattunnel_controller.go:325-403 | a reconcile of a built tunnel, in any well-shaped state and with any faults: Type put back and nothing else, or nothing to do, or taking down (only at the recorded place) before building, in the pod of Spec.LocalGw; Status is written only after all succeeded, takes five fields from Spec and the peer's GatewayExIp, and keeps type, OVN gateway, own CIDR and egress addresses |
| TunnelEffects.DeletionMeans | internal/controller/vpcnattunnel_controller.go:407-436 | a reconcile of a deleted object, in any state and with any faults: routes before device, on the recorded gateway; after both succeeded, and only then, the operator's finalizer is dropped, all others stay, and the object is gone exactly if there are none |
| TunnelEffects.ReconcileKeepsFinalizers | internal/controller/vpcnattunnel_controller.go:228-234 | whatever fails, a reconcile keeps the finalizers of others and every object that has one, and leaves the operator's on what is not being deleted |
| Agreement.CreatesMeans | internal/controller/gateway_informer.go:64-138 | handling a new gateway changes something exactly under the conditions that the early returns leave |
| Agreement.StepAgreementExact | internal/controller/gateway_informer.go:62-434 | every step keeps agreement on primary gateways, routes and fresh addresses if and only if it is orderly, whatever is in the pods |
| Addresses.FirstBuildRecords | internal/controller/vpcnattunnel_controller.go:246-322 | whatever is in the pod and whatever breaks, a first build is recorded exactly when everything is found, no connection breaks and there is room, and otherwise the object gets its finalizer only |
| Addresses.StepAddressExact | internal/controller/vpcnattunnel_controller.go:246-315 | every step keeps one address per VPC if and only if a first build finds its pod's address in the GatewayExIp and a created GatewayExIp finds its address in the tunnels |
| SafetyOfReconcile.CleanDeleteLeavesNoDevice | internal/controller/vpcnattunnel_controller.go:407-426 | when both delete commands ran cleanly, no live pod that the tunnel could be on has its device |
| SafetyOfReconcile.ReconcileKeepsSafe | internal/controller/vpcnattunnel_controller.go:61-72 | a reconcile keeps the safety invariant, whatever pod command fails or is cut short wherever |
| SafetyOfReconcile.StepSafeExact | internal/controller/gateway_informer.go:62-434 | every step, with faults, reused addresses and GatewayExIps created over other tunnels, keeps every device owned if and only if it does not promote a gateway while another live pod of the VPC carries a device |
| SafetyOfReconcile.OnlyCleanDeletesLetGo | internal/controller/vpcnattunnel_controller.go:407-434 | an object with the finalizer is let go of only by a reconcile of the deleted object in which both delete commands ran unbroken and without an error |
| Record.PodUpExact | internal/controller/vpcnattunnel_controller.go:325-327 | a pod that comes up keeps the record exact if and only if no Status records its gateway with its address |
| Record.AccurateIsSafe | internal/controller/vpcnattunnel_controller.go:228-234 | where Status is an exact record, every device on a live pod has its owner |
| RecordOfEvents.FailoverExact | internal/controller/gateway_informer.go:151-433 | a failover, or the deletion of a gateway, keeps the record exact if and only if no live pod of the VPC other than the promoted one carries a device |
| RecordOfEvents.CameUpExact | internal/controller/gateway_informer.go:255-320 | handling a restart of the primary, which refreshes GatewayExIp and tunnels, keeps the record exact if and only if no live pod of the VPC carries a device under another address |
| RecordOfEvents.AgreedIsNotReaddressed | internal/controller/gateway_informer.go:255-320 | where gateways agree and the record is exact, that is always so |
| Execs.BuildOnEmpty | internal/controller/vpcnattunnel_controller.go:291-300 | on an empty pod building completes exactly when the CIDRs differ and no connection breaks; the pod stays empty exactly when the first exec never starts; what is left has no other route |
| Execs.TakeDownRecorded | internal/controller/vpcnattunnel_controller.go:350-359 | taking down what Status records completes exactly when the delete command fits and no connection breaks, and then empties the pod; otherwise a route is gone, unless the first exec never started |
| Execs.TakeDownOther | internal/controller/vpcnattunnel_controller.go:350-359 | taking down in a pod that holds another tunnel fails, and leaves that tunnel intact exactly when none of the statements that ran deletes its in-flow route or SNAT rule |
| RecordOfReconcile.FirstBuildExact | internal/controller/vpcnattunnel_controller.go:246-323 | a first build, however its execs go, keeps the record exact if and only if it never starts, or no connection breaks, the CIDRs differ, there is an egress address and the pod is empty |
| RecordOfReconcile.DeleteExact | internal/controller/vpcnattunnel_controller.go:407-436 | a deletion, however its execs go, keeps the record exact if and only if it never starts, or no connection breaks and the delete command fits; with another pod running there, if and only if it harms nothing that this one holds |
| RecordOfUpdate.UpdateExact | internal/controller/vpcnattunnel_controller.go:325-403 | an update, however its execs go, keeps the record exact if and only if it does not build, or it never starts, or no connection breaks, the CIDRs differ and a new place is empty and has the address in Spec; with another pod at the recorded place, if and only if it harms nothing that this one holds |
| RecordOfUpdate.ReconcileExact | internal/controller/vpcnattunnel_controller.go:61-72 | a reconcile, with arbitrary faults in its execs, keeps the record exact if and only if the guards of the branch taken are met |
| Steps.StepRecordExact | internal/controller/vpcnattunnel_controller.go:61-436 | from every well-shaped state, whatever gateways agree on, a step keeps the record exact if and only if its guard holds |
| Steps.StepExact | internal/controller/vpcnattunnel_controller.go:61-436 | every step of a cluster, with arbitrary faults in pods, keeps record, agreement and peers together if and only if it is benign |
| Runs.RunRecordExact | internal/controller/vpcnattunnel_controller.go:61-436 | along a whole run from an empty cluster, with arbitrary faults and several tunnels per VPC, Status is an exact record in every state if and only if the guard of every step is met |
| Runs.RunExact | internal/controller/vpcnattunnel_controller.go:61-436 | along a whole run, record, agreement and peers hold together in every state if and only if every step is benign |
| Runs.RunSafeExact | internal/controller/vpcnattunnel_controller.go:227-434 | along a whole run, with arbitrary faults, several tunnels per VPC and GatewayExIps created over other tunnels, every device has its owner in every state if and only if every step is calm |
| Runs.StatusIsAnExactRecord | internal/controller/vpcnattunnel_controller.go:344-391 | in every state reached by steps that keep the record, the pod that a built tunnel's Status names holds exactly device, routes and rule derived from that Status; any other live pod of the VPC is empty, or is the one that another tunnel's Status names |
| Runs.RoundTripInEveryState | internal/controller/vpcnattunnel_controller.go:200-225 | in every live pod of every state of every run, building a tunnel for which there is room and taking it down succeed and restore the namespace |
| Runs.RunAgreementExact | internal/controller/gateway_informer.go:62-434 | along a whole run, with arbitrary faults, late events and several tunnels per VPC, gateways and addresses agree in every state if and only if every step is orderly |
| Runs.FailoverAgreement | internal/controller/gateway_informer.go:177-252 | in every state reached by orderly steps, while a VPC has a GatewayExIp, its label, the tunnels' Spec.LocalGw and all static routes agree on a gateway of the VPC; with no event of it pending all carry its pod's address |
| Runs.RunAddressExact | internal/controller/gateway_informer.go:233-319 | along a whole run GatewayExIp and tunnels carry one address in every state if and only if every step is punctual |
| Runs.OneAddress | internal/controller/gateway_informer.go:233-319 | in every state reached by punctual steps, pod or no pod, Spec.InternalIP of a labelled tunnel is the address in its VPC's GatewayExIp |
| Runs.PeersAddress | internal/controller/gatewayexip_controller.go:155-186 | in every state of every run, Spec.RemoteIP of a built tunnel to another cluster is the address of the peer's GatewayExIp, if that is there |
| Runs.CommandsAreComplete | internal/controller/vpcnattunnel_controller.go:200-225 | in every run, no statement of a command that a reconcile sends to a pod has an empty word |
| Runs.OnePrimary | internal/controller/gateway_informer.go:85-132 | in every state of every run names are VPC, dot, cluster; a primary belongs to its VPC; no two GatewayExIps of a cluster share a gateway or a VPC |
| Runs.OtherGatewaysChangeNothing | internal/controller/gateway_informer.go:167-176 | events of gateways named by no GatewayExIp change no route, no existing GatewayExIp and no tunnel |
| Runs.NoDeviceOfAnAbsentTunnel | internal/controller/vpcnattunnel_controller.go:228-234 | in every state reached by calm steps, each tunnel device on a live pod belongs to a stored object of that VPC that holds the finalizer |
| Runs.DisappearsCleanly | internal/controller/vpcnattunnel_controller.go:416-428 | in a calm run an object with the finalizer disappears only when both delete commands ran cleanly, and then no live pod of its VPC has its device |
| Runs.BuildIsStable | internal/controller/vpcnattunnel_controller.go:263-280 | in every run, as long as the object is there, Status.Type, OvnGwIP, GlobalnetCIDR and GlobalEgressIP are those of the first build, whatever is edited and failed over |
| Runs.FinalizersOfOthersHold | internal/controller/vpcnattunnel_controller.go:427-428 | in every run, an object with a finalizer of somebody else never disappears and never loses it |
| Runs.StandbyTakesOver | internal/controller/gateway_informer.go:151-433 | in every run, whatever has failed before, when the loss or deletion of a primary is handled and another gateway of the VPC is available, one of them takes over GatewayExIp, routes and tunnels, and no other VPC is changed |
| Runs.UpdateUsesRecordedKind | internal/controller/vpcnattunnel_controller.go:329-359 | every delete and create command that an update issues is of the recorded kind, every other is one of the two route commands, all on the gateway in Spec |
| Convergence.NoWorkIsRest | internal/controller/vpcnattunnel_controller.go:325-327 | a reconcile is a no-op, without commands and writes, exactly when there is no work left |
| Convergence.WorkingReconcile | internal/controller/vpcnattunnel_controller.go:328-403 | a reconcile with work to do completes and does one piece of it |
| Convergence.Converges | internal/controller/vpcnattunnel_controller.go:227-405 | in a stable environment at most two reconciles work, one from an unbuilt tunnel, none fails, and all later ones are no-ops |
| Convergence.RestIsBuilt | internal/controller/vpcnattunnel_controller.go:325-391 | with no work left, Status says what Spec and the peer's GatewayExIp ask for and the gateway's pod holds exactly that |
| Convergence.EditsConverge | internal/controller/vpcnattunnel_controller.go:328-338 | after any edit by a user two reconciles are enough |
| Convergence.QuietIsResolvable | internal/controller/gateway_informer.go:292-319 | with no event pending and the primary running, and no other tunnel recorded on it, Spec carries what convergence needs |
| Convergence.DeletionFinishes | internal/controller/vpcnattunnel_controller.go:411-428 | a deletion completes exactly when the recorded pod still runs, the delete command fits and no connection breaks; then the pod is empty and the object gone, unless it has another finalizer; with the pod replaced it fails, stores nothing, and changes nothing in a pod that holds no other tunnel with the same in-flow route or SNAT rule |
| Recovery.FailoverRebuilds | internal/controller/gateway_informer.go:151-253 | from every well-shaped state with an exact record, with nothing left in the VPC's running pods: handling the loss of the primary and two unbroken reconciles leave the tunnel built on a standby, with its gateway and its pod's address in Status, and at rest |
| System.SystemInvInEveryState | internal/controller/gatewayexip_controller.go:100-113 | the invariant of every cluster in every state of a system of clusters around a broker, reached by benign steps |
| System.SyncIsPossible | internal/controller/gatewayexip_controller.go:100-113 | in every state of every run a GatewayExIp can be pushed and then pulled into any other cluster, and is synced afterwards |
| System.PeersAgree | internal/controller/gatewayexip_controller.go:175-184 | a tunnel at rest carries the address in its synced peer's GatewayExIp as RemoteIP |
| System.EndToEndAddresses | internal/controller/vpcnattunnel_controller.go:246-403 | in every state reached by orderly steps, whatever fails in the pods, two mutually pointing tunnels at rest, synced, with their primaries running and no event pending, have each other's address |
| System.EndToEndOneAddress | internal/controller/vpcnattunnel_controller.go:246-403 | in every state reached by punctual steps two such tunnels have each other's address also without a pod and with events pending |
| System.EndToEndAgreement | internal/controller/vpcnattunnel_controller.go:246-403 | in every state reached by benign steps, two such tunnels moreover have each their device, alone, on their VPC's primary gateway with those addresses |
| Counterexamples.ReusedAddressIsNotNoticed | internal/controller/vpcnattunnel_controller.go:325-327 | a pod back with its old address stays empty, and the reconcile is at rest |
| Counterexamples.StaleFailoverLeavesADevice | internal/controller/gateway_informer.go:151-252 | a run from an empty cluster, benign but for its last four steps: a late failover, a reconcile, and the deletion of the tunnel; then the object is gone and the running old primary still has its device |
| Counterexamples.WrongDeleteSticks | internal/tunnel/factory/factory.go:24-33 | with Type edited from vxlan, deletion fails with the routes gone and the object as it was |
| Counterexamples.ClashingCIDRTakesDown | internal/controller/vpcnattunnel_controller.go:350-386 | an update to a clashing CIDR fails with the object unchanged, and the pod that held the recorded tunnel holds it no more |
| Counterexamples.MovedPodIsRecordedWrongly | internal/controller/vpcnattunnel_controller.go:360-391 | an update on a replaced pod completes, and Status records the address of the pod before it |
| Counterexamples.AddedGatewayIgnoresTunnels | internal/controller/gateway_informer.go:89-138 | a GatewayExIp created for a later gateway leaves the tunnels at the earlier one, which breaks agreement and keeps the record |
| Counterexamples.DeletionHarmsAnother | internal/controller/vpcnattunnel_controller.go:411-423 | the deletion of a tunnel whose pod has been replaced fails, with the second tunnel of the VPC, which stood in the new pod, damaged and its object unchanged |
| Counterexamples.OldAddressesDiffer | internal/controller/gateway_informer.go:255-319 | a state reached by benign steps, with a first build between the two ends of a restart, in which no event is left and GatewayExIp and tunnel carry different addresses |
| Counterexamples.BrokenBuildSticks | internal/controller/vpcnattunnel_controller.go:291-300 | a first build whose connection breaks after its first operation leaves its device behind and nothing that records it |
| Counterexamples.StuckStays | internal/controller/vpcnattunnel_controller.go:291-295 | with its device left on the primary gateway, no reconcile of an unbuilt tunnel completes, and that stays so |
| Counterexamples.SecondTunnelIsNotBuilt | internal/controller/vpcnattunnel_controller.go:204-213 | while a tunnel stands on a gateway and the own CIDR is the one it was built with, a reconcile of an unbuilt tunnel with the same primary gateway does not build it |
| Finalizers.ContainsString | internal/controller/vpcnattunnel_controller.go:438-445 | the loop finds the string if and only if it is in the list |
| TunnelReconciler.VpcNatTunnelReconciler.Reconcile | internal/controller/vpcnattunnel_controller.go:61-72 | fetching the object and changing it field by field between commands and writes has the outcome, the cluster and the sequence of effects of the step function |
| TunnelReconciler.VpcNatTunnelReconciler.HandleDelete | internal/controller/vpcnattunnel_controller.go:407-436 | the same for deletion, with the finalizer dropped after the second clean command |
| TunnelReconciler.VpcNatTunnelReconciler.HandleCreateOrUpdate | internal/controller/vpcnattunnel_controller.go:227-405 | the same for create and update, with the finalizer stored before the first command |
| TunnelReconciler.VpcNatTunnelReconciler.FirstBuild | internal/controller/vpcnattunnel_controller.go:246-323 | the first build, including the index panic on an empty egress list |
| TunnelReconciler.VpcNatTunnelReconciler.Update | internal/controller/vpcnattunnel_controller.go:325-402 | the update: revert of Type, taking down, building, recording |
| TunnelReconciler.VpcNatTunnelReconciler.UpdateStatus | internal/controller/vpcnattunnel_controller.go:387-391 | a status write stores the status only and overwrites the object with what is stored |
| Lists.FirstMatchIsFirst | internal/controller/gateway_informer.go:203-210 | what the scans are compared with is the first matching element, or none if there is none |
| GatewayInformer.ScanExIps | internal/controller/gateway_informer.go:163-176 | with one loop variable shared by all iterations, the pointer ends at the first match, or at something that the test after the loop rejects |
| GatewayInformer.ScanStatefulSets | internal/controller/gateway_informer.go:201-214 | the pointer ends at the first available gateway of the router, or at the empty object |
| GatewayInformer.StoredIsRetarget | internal/controller/gateway_informer.go:245-252 | storing the listed tunnels one by one, in any order, retargets exactly the tunnels of the VPC |
| GatewayInformer.Informer.AddFunc | internal/controller/gateway_informer.go:64-144 | the handler with its early returns is the step function for a new gateway |
| GatewayInformer.Informer.UpdateFunc | internal/controller/gateway_informer.go:146-321 | the handler has an outcome that the step function allows, for every order of the lists |
| GatewayInformer.Informer.DeleteFunc | internal/controller/gateway_informer.go:323-433 | the same for a deleted gateway |
| GatewayInformer.Informer.Reroute | internal/controller/gateway_informer.go:215-233 | overwriting through the loop's pointer sets every static route of the VPC |
| GatewayExIpController.Controller.OnRemoteGatewayExIpSynced | internal/controller/gatewayexip_controller.go:155-186 | the loop with its skipped tunnels propagates the address; a name without a dot panics before anything is changed |
| GatewayExIpController.PropagationIsExact | internal/controller/gatewayexip_controller.go:158-184 | Spec.RemoteIP becomes the new address on exactly the tunnels labelled with VPC and cluster, nothing else changes, and doing it again changes nothing |
| DnsCommands.RouteIsTerminated | internal/controller/vpcdnsforward_controller.go:176 | the route's only semicolon is its last character |
| DnsCommands.RouteMeans | internal/controller/vpcdnsforward_controller.go:176 | the text of the route, letter by letter |
| DnsCommands.AddRouteMeans | internal/controller/vpcdnsforward_controller.go:238-243 | the create loop appends the route to exactly the commands that contain a route statement and not this route, and leaves all others as they are, whatever text they are |
| DnsCommands.RouteRoundTrip | internal/controller/vpcdnsforward_controller.go:238-268 | on arbitrary commands, deleting after creating restores all of them if and only if none contained the route before |
| DnsCommands.AddIsIdempotent | internal/controller/vpcdnsforward_controller.go:239-243 | adding the route twice is adding it once, on arbitrary commands |
| DnsCommands.AddIsInsert | internal/controller/vpcdnsforward_controller.go:239-243 | on lists of statements the create loop inserts the route once at the end if it is not there |
| DnsCommands.DropIsFilter | internal/controller/vpcdnsforward_controller.go:266-268 | the delete loop filters out exactly the statements equal to the route, if and only if no statement has it as a proper suffix |
| DnsCommands.DropIsIdempotent | internal/controller/vpcdnsforward_controller.go:266-268 | on such lists deleting twice is deleting once and the route is gone |
| DnsCommands.DropTwiceDiffers | internal/controller/vpcdnsforward_controller.go:266-268 | on a text with the route nested in itself, deleting once leaves a route that deleting twice removes |
| DnsCommands.RoutesAreApart | internal/controller/vpcdnsforward_controller.go:176 | one route occurs in another if and only if service address and gateway are the same |
| DnsCommands.RoutesDoNotInterfere | internal/controller/vpcdnsforward_controller.go:240-267 | adding or removing one route keeps the presence of every other |
| DnsCorefile.ForwardIsInserted | internal/controller/vpcdnsforward_controller.go:114-146 | the new Corefile is the old one with the forwarding block, given letter by letter, in front of the first default server, or the old one if there is none or the zone is known |
| DnsCorefile.EnsuredIsIdempotent | internal/controller/vpcdnsforward_controller.go:211-223 | checking and then updating is idempotent for every Corefile, also when the address has changed |
| DnsCorefile.BlockRoundTrip | internal/controller/vpcdnsforward_controller.go:114-146 | removing the block gives the original Corefile back |
| DnsCorefile.ServersAreKept | internal/controller/vpcdnsforward_controller.go:142-146 | the number of servers is unchanged, apart from any in the address itself |
| DnsReconciler.AddRouteTo | internal/controller/vpcdnsforward_controller.go:237-244 | the loop rewrites the array of commands in place into the commands with the route |
| DnsReconciler.DropRouteFrom | internal/controller/vpcdnsforward_controller.go:265-268 | the loop rewrites the array into the commands without the route |
| DnsReconciler.VpcDnsForwardReconciler.FirstServerMeans | internal/controller/vpcdnsforward_controller.go:190-195 | the server that is looked for is the first of the list with this VPC that is active, or the empty name if there is none |
| DnsReconciler.VpcDnsForwardReconciler.GetVpcDnsDeployment | internal/controller/vpcdnsforward_controller.go:180-207 | the deployment of the first active server of the VPC, or of the empty name |
| DnsReconciler.VpcDnsForwardReconciler.HandleCreateOrUpdate | internal/controller/vpcdnsforward_controller.go:66-82 | finalizer, Corefile and the commands of this VPC's deployment afterwards, on success and on every failure; all other deployments unchanged |
| DnsReconciler.VpcDnsForwardReconciler.HandleDelete | internal/controller/vpcdnsforward_controller.go:84-100 | the finalizer goes if and only if everything is found, and then every command of this deployment has the route deleted once, and no other deployment is changed |

## Left out

Hypotheses, all of them in `Cluster.Enabled` or in the state:

- Two tunnels of one VPC have different names, as the name is that of the device.
- Users do not edit the fields, labels and finalizer that the operator manages; LocalVpc never changes, RemoteVpc and RemoteCluster not after the first build. Type, InterfaceAddr and other labels are edited freely.
- VPC names have no dot; gateway names and the cluster they belong to never change VPC; a tunnel is not called lo, eth0 or net1; gateway names are not empty.
- A gateway is available exactly while its pod runs, and a pod's namespace is lost with the pod; a running pod carries both address annotations. The StatefulSet's address annotation is the gateway's LanIP, its router annotation the gateway's VPC.
- Gateway events are handled in the order in which they happened, none is merged or lost; handlers and reconciles are single steps; the operator does not restart.
- API reads and writes succeed, except that objects may be missing; conflicts and stale caches are not modelled. Pod commands fail as the commands do, and their connections anywhere in between.
- Field values are free of blanks and semicolons, and those that go into a command are not empty when users and environment set them (`CommandsAreComplete` says what follows).
- One route per destination; connected routes, two GRE devices with the same end points, MTU and interface-name length are not modelled.
- A VPC's static routes are as many as they were; the handler rewrites their next hops through pointers, a type of kube-ovn that is not part of this repository.
- Runs.StatusIsAnExactRecord: claims the kind of the device, not VXLAN id and port, because the labels with them may be edited after the build.

Not modelled:

- Kubernetes client, informer, cache and exec transport, the Submariner syncer (internal/controller/gatewayexip_controller.go:92-145 becomes push and pull steps), flags, environment variables and wiring in cmd/main.go.
- onLocalGatewayExIp and onRemoteGatewayExIp, which filter a namespace and set one: the model has no namespaces for GatewayExIps.
- A Submariner cluster without a global CIDR, on which the operator panics; here it counts as not found, with the same effect on the stored state.
- Waiting and retrying, log text, generated deep copies, manifests.
- Deployments without an init container, on which the DNS handlers panic.
- Two VpcDnsForwards of one VPC share the route in the deployment; deleting one removes it for both.
- Liveness of the informer: a gateway that becomes available after its Added event is never made primary, and a standby that recovers while the primary is down is ignored; the model's handlers do the same, no claim is made.
