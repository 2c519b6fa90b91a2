# Cluster API provider for Azure Stack HCI: verified model

This project models, in Dafny, the controllers and the API conversions of the Azure Stack HCI
infrastructure provider, and proves what they guarantee over whole runs. `dafny verify
dfyconfig.toml` checks all of it.

Four parts:

1. **The load balancer replica manager.** `LoadBalancer.dfy` gives one reconcile as functions of the
   resource, its live replica VMs and the answers of every call; `LoadBalancerController.dfy` holds the
   controller in its own imperative form, a scope object updated in place and a reconciler with its
   loops, each method proved to do what the functions say. `VirtualMachineOrder.dfy` is the in-place sort
   and the choice of the replica to delete. On top: what one reconcile can do (`ReplicaSafety.dfy`),
   every field, phase and result it persists (`ReplicaStatus.dfy`), convergence with an exact step count (`ReplicaConvergence.dfy`), truthful phases and stable addresses
   over all runs (`LoadBalancerRuns.dfy`), availability (`ReplicaAvailability.dfy`), and concrete runs for
   the guarantees that fail (`ReplicaCounterexamples.dfy`).
2. **The finalizer and deletion protocol** of the cluster, machine, virtual machine and load balancer
   controllers, as a state machine whose steps are the single calls, interleaved in any order, each able
   to fail with or without effect (`ResourceStore.dfy`, `FinalizerProtocol.dfy`). Proved: what each step
   makes, marks and removes (`FinalizerEffects.dfy`), that what is not being deleted can be brought up
   (`FinalizerBuildUp.dfy`), an inductive invariant, no orphaned infrastructure and the teardown order (`FinalizerInvariants.dfy`,
   `FinalizerTheorems.dfy`), and exactly when a deletion can never get stuck, by the steps of the
   controllers alone (`FinalizerProgress.dfy`, `FinalizerLiveness.dfy`); concrete executions for the
   guarantees that fail are in `FinalizerCounterexamples.dfy`.
3. **The v1beta1 / v1beta2 conversion** with exact conditions for every round trip (`ApiTypes.dfy`,
   `Conversion.dfy`), and what of the statuses produced by the cluster and machine controllers survives it
   (`ClusterController.dfy`, `MachineController.dfy`, `ConditionList.dfy`).
4. **Smaller pieces** these need: the control plane endpoint written by two controllers together
   (`ControlPlaneEndpoint.dfy`) and the network interface built for a VM (`NetworkInterfaceBuilder.dfy`).

## Assumptions

- Reads show the current state: the list call returns exactly the live replicas. The order of the list
  is arbitrary.
- Generated VM names are new and differ from machine names. Names are compared as Go compares bytes;
  a character stands for a byte.
- Fewer than 2^31 replicas are listed; the int32 arithmetic itself, with its wrap-around, is modelled.
- A cluster's machines carry its name as label, and nobody creates machines for a cluster that is
  being deleted. One controller works on one key at a time; controllers may stop at any call.
- An AzureStackHCICluster has the name of the Cluster it belongs to, keeps its resource group, and keeps
  its load balancer in the spec as long as it has one. Clusters may share a resource group.
- `conditions.Set` updates by type or adds, and stamps no observed generation; the library's sorting of
  the list and its choice of transition time are not modelled.
- The patch that closes a reconcile is three requests, for the conditions, for metadata and spec, and for
  the rest of the status. All are made, and each may fail, for the load balancer, the cluster and the
  machine alike.

## Where a plausible guarantee fails

The code is kept as it is; each failure has a concrete run and the exact condition.

- *Availability during an upgrade.* The memory of an upgrade is the reason of one condition. A new VM
  that reports a failed VMRunning condition while it is still provisioning overwrites that reason, and
  the next pass takes the surge replica for a scale down and deletes a replica that is in use
  (`UpgradeCanLoseAvailability`; exact condition `AvailabilityStep`; holds over runs without such a
  pass, `UpgradeKeepsAvailability`).
- *At most one replica not ready.* A failed read of the service leaves an old count; after a scale down
  it lets replicas be created without waiting (`FailedReadsWidenGap`; exact condition `GapStep`; holds
  over runs with honest counts, `RunBoundedGap`).
- *`provisioned` means that all replicas are ready.* True if the pass read the service and the report was
  honest; after a failed read it decides on the count left over (`ProvisionedNotReady`; exact condition
  `ProvisionedMeansReady`).
- *With `provisioned`, the reported count covers all replicas.* A pass that has to read the address
  separately stores a second, possibly smaller count (`ProvisionedCountTooSmall`,
  `AllCountedWhenProvisioned`).
- *A persisted `provisioned` reflects the pass that persisted it.* A pass whose early patch fails, or whose
  spec gives no replica count, looks at nothing and writes the phase from old conditions
  (`ProvisionedWithoutLooking`, `BlindPhase`, `PhaseIsFresh`).
- *Every desired count is reached.* Not a negative one (`NegativeCountNotReached`), and an upgrade at the
  largest int32 never starts, because the maximum wraps around (`UpgradeAtMaximumNotStarted`); exact
  condition `UndisturbedMakesProgress`.
- *The deletion of a machine, load balancer or cluster finishes.* A reconcile ends, also of a resource being
  deleted, when the owner Machine, the Cluster or the AzureStackHCICluster is not found. A held machine
  without owner, which the cluster controller itself marks, stays for good and keeps its cluster
  (`OrphanedMachineSticks`; exact conditions `MachineDeletionLive`, `ClusterDeletionLive`). A Get of the
  load balancer that errs lets the cluster go first, and the load balancer and its service stay for good
  (`MisreadStrandsLoadBalancer`; exact condition `LBDeletionLive`).
- *The control plane has one endpoint.* In one life of the load balancer resource; deleted and created anew
  with another address, it changes the endpoint (`TwoLivesTwoEndpoints`; exact condition
  `OneEndpointExactly`).
- *A status written by the cluster controller survives a trip through v1beta1.* Its provisioned mark and its
  Ready condition are written by different requests; where only one of them was, the trip takes the mark
  back or sets it (`PartialPatchMisleadsTrip`; exact condition `ReachableClusterSurvivesTrip`).
- *A v1beta1 status is read the same way twice.* A cluster that is ready but has no true Ready condition
  loses its provisioned mark on a trip through v1beta1 (`TripUnprovisionsCluster`; exact condition
  `ClusterInitializationRoundTrip`).
- *A trip through v1beta1 keeps the whole status of a provisioned cluster or a running machine.* Never: their
  conditions have no message and come back with one (`ReachableClusterSurvivesTrip`,
  `RunningMachineChangesOnTrip`; exact conditions `ClusterStatusRoundTrip`, `MachineStatusRoundTrip`).
- *A trip through v1beta1 keeps the image VMs are built from.* A load balancer without image comes back
  with an empty OS type in place of the Linux default, and a machine image given by name only is lost
  (`TripLosesImageChoice`; exact condition `TripKeepsImageChoice`).
- *A foreign group is never deleted.* A failed Get makes the controller tag it as its own, and the deletion
  of the cluster deletes it (`ForeignGroupDeleted`; exact condition `ForeignGroupStep`; holds over
  executions without such a Get, `ForeignGroupSurvives`).
- *A group in use is never deleted.* The tag does not say which cluster created the group, so the first of
  several clusters in it to be deleted deletes it (`SharedGroupDeleted`; exact condition `GroupGoes`).

## Model

| member | source | states |
|---|---|---|
| `VirtualMachineOrder.LessIsStrictTotalOrder` | api/v1beta2/azurestackhcivirtualmachine_types.go:122-132 | The order by creation timestamp and name is a strict total order on VMs with different names |
| `VirtualMachineOrder.StringLessByPosition` | api/v1beta2/azurestackhcivirtualmachine_types.go:127-132 | Names compare by the first position where they differ, a prefix coming first |
| `VirtualMachineOrder.SortByCreation` | controllers/azurestackhciloadbalancer_virtualmachine.go:323 | In place, the list becomes sorted and stays a permutation |
| `VirtualMachineOrder.SelectVirtualMachineForScaleDown` | controllers/azurestackhciloadbalancer_virtualmachine.go:317-332 | The sort and scan return a candidate that no candidate precedes, the outdated VMs being the candidates while there are any; an error only on an empty list |
| `VirtualMachineOrder.VictimByAge` | controllers/azurestackhciloadbalancer_virtualmachine.go:322-331 | The victim is outdated unless no VM is, and among such VMs the earliest created, at equal timestamps the first name |
| `VirtualMachineOrder.VictimIsUnique` | controllers/azurestackhciloadbalancer_virtualmachine.go:317-332 | With distinct names there is one possible victim, whatever the order of the list |
| `VirtualMachineOrder.VictimSparesUpToDate` | controllers/azurestackhciloadbalancer_virtualmachine.go:322-331 | While an outdated VM remains the scale down takes one, so no up-to-date VM is lost |
| `LoadBalancerController.Reconciler.GetVirtualMachines` | controllers/azurestackhciloadbalancer_virtualmachine.go:364-372 | By index: the items without deletion timestamp, all of them, once each, in order |
| `LoadBalancer.LiveByIndex` | controllers/azurestackhciloadbalancer_virtualmachine.go:364-372 | The filtered list is the listed items at the increasing indices without deletion timestamp, none left out |
| `LoadBalancer.ListedLive` | controllers/azurestackhciloadbalancer_virtualmachine.go:364-372 | Its VMs are those listed at such indices, and its length is their number |
| `LoadBalancerController.Reconciler.MachineReplicaCounts` | controllers/azurestackhciloadbalancer_virtualmachine.go:389-402 | The number of replicas and of indices with a failed one, as int32 |
| `LoadBalancerController.Reconciler.ReconcileServiceStatus` | controllers/azurestackhciloadbalancer_controller.go:286-308 | The address is written once, the ready count on every successful read, nothing on a failed one |
| `LoadBalancerController.Reconciler.UpdateStatus` | controllers/azurestackhciloadbalancer_virtualmachine.go:376-386 | Counters from the list, ready count from the service or the old one |
| `LoadBalancerController.Reconciler.FindFailure` | controllers/azurestackhciloadbalancer_virtualmachine.go:48-61 | The condition at the first index where VMRunning is false with a reason, and none exactly when there is no such index |
| `LoadBalancerController.Reconciler.IsUpgradeRequired` | controllers/azurestackhciloadbalancer_virtualmachine.go:435-442 | True exactly when an outdated VM is listed |
| `LoadBalancerController.Reconciler.ScaleUpVMs` | controllers/azurestackhciloadbalancer_virtualmachine.go:286-296 | One create with the target version label; the counter follows only on success |
| `LoadBalancerController.Reconciler.ScaleDownVMs` | controllers/azurestackhciloadbalancer_virtualmachine.go:299-314 | Deletes the unique victim of the listed VMs; not-found answers count as success |
| `LoadBalancerController.Reconciler.SurgeVMs` | controllers/azurestackhciloadbalancer_virtualmachine.go:129-134 | The surge loop creates until the counter reaches the maximum or a create fails |
| `LoadBalancerController.Reconciler.ActOn` | controllers/azurestackhciloadbalancer_virtualmachine.go:65-148 | The branches taken from readiness, remembered reason, counts and outdated replicas |
| `LoadBalancerController.Reconciler.ReconcileVirtualMachines` | controllers/azurestackhciloadbalancer_virtualmachine.go:42-149 | The whole VM pass: resource, live VMs and result |
| `LoadBalancerController.Reconciler.ReconcileLoadBalancerService` | controllers/azurestackhciloadbalancer_controller.go:200-283 | The service, the address and the gate on a ready replica |
| `LoadBalancerController.Reconciler.ReconcileNormally` | controllers/azurestackhciloadbalancer_controller.go:172-284 | Finalizer first, then replica count check, VMs, service, with the error exits |
| `LoadBalancerController.Reconciler.ReconcileDeleted` | controllers/azurestackhciloadbalancer_controller.go:331-366 | Service, then every listed VM, then the finalizer; stops at the first failure |
| `LoadBalancerController.Reconciler.SetStatus` | controllers/azurestackhciloadbalancer_controller.go:382-431 | Selector, phase and infrastructure condition; what each phase means is `ReplicaStatus.PhaseExactly` |
| `LoadBalancerController.Reconciler.ReconcileResource` | controllers/azurestackhciloadbalancer_controller.go:154-170 | Branch on the deletion timestamp, then status and close, each request of which may fail |
| `ReplicaSafety.SurgeIsOneCreate` | controllers/azurestackhciloadbalancer_virtualmachine.go:129-134 | At the desired count the loop performs one create, or none when the int32 maximum wraps around |
| `ReplicaSafety.SurgeFillsToMaximum` | cloud/scope/loadbalancer.go:88-91 | If creates succeed the loop creates exactly what is missing to the maximum |
| `ReplicaSafety.ReconcileEffect` | controllers/azurestackhciloadbalancer_virtualmachine.go:63-136 | The replica set after a reconcile, from the observed count, the counts and the reason alone |
| `ReplicaSafety.ReconcileShape` | controllers/azurestackhciloadbalancer_virtualmachine.go:63-136 | Unchanged, or one new replica at the target version under full observed readiness, or minus the victim above the desired count |
| `ReplicaSafety.SurgeAndFloor` | controllers/azurestackhciloadbalancer_virtualmachine.go:84-136 | The count moves by at most one, up to desired + 1 and down to desired |
| `ReplicaSafety.PersistedCondition` | controllers/azurestackhciloadbalancer_virtualmachine.go:48-146 | The replicas condition a reconcile persists, branch by branch |
| `ReplicaSafety.ReconcileFrame` | controllers/azurestackhciloadbalancer_controller.go:154-170 | No reconcile touches the spec; a known address and readiness stay |
| `ReplicaStatus.DecisionMeans` | controllers/azurestackhciloadbalancer_virtualmachine.go:65-148 | Each branch is taken exactly under its own guards on observed readiness, counts, remembered reason and versions |
| `ReplicaStatus.RemovalExactly` | controllers/azurestackhciloadbalancer_virtualmachine.go:258-284 | The victim goes exactly when its update did not fail, with not-found as success, and its delete did not or took effect all the same |
| `ReplicaStatus.PersistedResource` | controllers/azurestackhciloadbalancer_controller.go:172-284 | Every field a reconcile persists and its result, from replicas and answers: the counter is the size of the replica set left, unless a call failed; then address, ready count, flag, conditions, port, selector and the time to come back |
| `ReplicaStatus.PersistedDeletion` | controllers/azurestackhciloadbalancer_controller.go:331-366 | The same for a resource being deleted: the finalizer goes exactly when service and every listed VM are deleted, and a replica goes exactly when a delete the loop gets to takes it |
| `LoadBalancerRuns.AddressIsStable` | controllers/azurestackhciloadbalancer_controller.go:301-303 | Over every run an address once known never changes and ready never reverts |
| `LoadBalancerRuns.DeletionIsComplete` | controllers/azurestackhciloadbalancer_controller.go:331-356 | The finalizer goes only with the service deleted and no live replica left; no replica is added meanwhile |
| `LoadBalancerRuns.RunNeverExceedsSurge` | cloud/scope/loadbalancer.go:88-91 | With a fixed spec a run at or below desired + 1 stays there |
| `LoadBalancerRuns.RunKeepsFloor` | controllers/azurestackhciloadbalancer_virtualmachine.go:102-118 | With a fixed spec the controller never takes the count below the smaller of start and desired |
| `LoadBalancerRuns.RunKeepsConditionInv` | controllers/azurestackhciloadbalancer_virtualmachine.go:48-146 | Over every run the reasons of an operation under way come with status false |
| `LoadBalancerRuns.TruthfulPhase` | api/v1beta2/phase_types.go:63-65 | In every run a reconcile that persists `provisioned` leaves the desired count, all at the target version, an address, all observed ready, and none or at least one counted ready |
| `LoadBalancerRuns.ProvisionedExactly` | controllers/azurestackhciloadbalancer_controller.go:172-284 | In every run a pass that looks persists `provisioned` exactly when it finds the desired replicas, all observed ready and none outdated, and gets past the gates of the service, on a resource with a phase and no terminal error |
| `LoadBalancerRuns.AllCountedWhenProvisioned` | controllers/azurestackhciloadbalancer_controller.go:231-253 | With `provisioned`, the stored ready count covers all replicas exactly when the service was read once or the second read still counts them |
| `LoadBalancerRuns.BlindPhase` | controllers/azurestackhciloadbalancer_controller.go:175-188 | A pass whose early patch fails or whose replica count is missing persists `provisioned` exactly when no condition was false before, whatever the replicas |
| `LoadBalancerRuns.PhaseIsFresh` | controllers/azurestackhciloadbalancer_controller.go:382-431 | In every run what a persisted `provisioned` promises is true exactly when the pass looked at the replicas or it was true before |
| `ReplicaStatus.PhaseExactly` | controllers/azurestackhciloadbalancer_controller.go:382-431 | In every run each phase is persisted exactly under its guards: deleting, failed, pending, upgrading when the pass leaves that reason, provisioned, otherwise provisioning; a pass that starts a surge persists `upgrading` |
| `ReplicaStatus.UpgradingLeft` | controllers/azurestackhciloadbalancer_virtualmachine.go:65-136 | The replicas condition is left false with reason upgrading exactly by a pass that starts a surge, goes on with a remembered upgrade, or does not get to decide |
| `ReplicaStatus.AbsentIsNotFalse` | controllers/azurestackhciloadbalancer_controller.go:408-431 | Without any condition a pass that looks at nothing reports `provisioned` |
| `ReplicaConvergence.NoStepsLeftIffConverged` | controllers/azurestackhciloadbalancer_virtualmachine.go:138-148 | The step count is zero exactly when the desired state is achieved |
| `ReplicaConvergence.EachChangeIsProgress` | controllers/azurestackhciloadbalancer_virtualmachine.go:84-136 | Every create or delete lowers the steps left by one, and nothing raises them |
| `ReplicaConvergence.UndisturbedMakesProgress` | cloud/scope/loadbalancer.go:189-192 | An undisturbed reconcile makes progress exactly when there is a replica to delete or the maximum does not wrap around |
| `ReplicaConvergence.ReconcileConverges` | controllers/azurestackhciloadbalancer_virtualmachine.go:84-136 | The steps left never grow and an undisturbed reconcile lowers them by one until zero |
| `ReplicaConvergence.RunConservation` | controllers/azurestackhciloadbalancer_virtualmachine.go:286-314 | Over every run creates plus deletes are the steps done, creates minus deletes the change in count |
| `ReplicaConvergence.RunConverges` | controllers/azurestackhciloadbalancer_virtualmachine.go:84-136 | After as many undisturbed reconciles as steps left, among any others, the spec is met |
| `ReplicaConvergence.UpgradeCost` | controllers/azurestackhciloadbalancer_virtualmachine.go:120-136 | Upgrading k replicas takes exactly k creates and k deletes in every run, and 2k reconciles if each of them is undisturbed, with replicas becoming ready in between |
| `ReplicaConvergence.ConvergedIsProvisioned` | controllers/azurestackhciloadbalancer_controller.go:382-431 | From a new resource, after as many undisturbed reconciles as steps needed, an undisturbed pass reports `provisioned` exactly when it gets past the gates of the service |
| `ReplicaAvailability.CreatesExactly` | controllers/azurestackhciloadbalancer_virtualmachine.go:63-136 | A replica is added exactly when the pass decides, the count allows it, all are observed ready and the create takes effect |
| `ReplicaAvailability.GapStep` | controllers/azurestackhciloadbalancer_virtualmachine.go:65-82 | At most one unready replica is kept exactly unless those guards of a create hold while one is unready, which an honest count rules out |
| `ReplicaAvailability.RunBoundedGap` | controllers/azurestackhciloadbalancer_virtualmachine.go:65-82 | Over every honest run at most one replica is unready |
| `ReplicaAvailability.SuccessfulReadsBoundGap` | controllers/azurestackhciloadbalancer_virtualmachine.go:376-386 | It is so if the service reports honestly and no read fails |
| `ReplicaAvailability.UpgradingWaits` | controllers/azurestackhciloadbalancer_virtualmachine.go:65-70 | While upgrading nothing changes with a replica observed unready, and a delete leaves the desired number usable |
| `ReplicaAvailability.AvailabilityStep` | controllers/azurestackhciloadbalancer_virtualmachine.go:65-118 | The exact condition under which a reconcile keeps the desired number usable |
| `ReplicaAvailability.UpgradeKeepsAvailability` | controllers/azurestackhciloadbalancer_virtualmachine.go:65-136 | Over a whole upgrade without lost reasons the desired number stays usable |
| `ReplicaAvailability.ProvisionedMeansReady` | api/v1beta2/phase_types.go:63-65 | In every run, `provisioned` persisted by a pass that looked means that all replicas are really ready if it read an honest report; whatever is really ready, it means that exactly when the read succeeded or there are no replicas |
| `ReplicaCounterexamples.UpgradeCanLoseAvailability` | controllers/azurestackhciloadbalancer_virtualmachine.go:48-82 | A run from a new resource with honest counts and no failed patch in which all usable replicas go |
| `ReplicaCounterexamples.HonestUpgradeRun` | controllers/azurestackhciloadbalancer_virtualmachine.go:120-136 | An upgrade with honest counts, of two undisturbed reconciles, that meets the spec |
| `ReplicaCounterexamples.FailedReadsWidenGap` | controllers/azurestackhciloadbalancer_virtualmachine.go:379-380 | A run from a new resource with honest reports and two failed reads that leaves two replicas unready |
| `ReplicaCounterexamples.ProvisionedCountTooSmall` | controllers/azurestackhciloadbalancer_controller.go:231-271 | A run from a new resource, honest and with all replicas ready, that ends `provisioned` with one of two counted |
| `ReplicaCounterexamples.ProvisionedNotReady` | controllers/azurestackhciloadbalancer_virtualmachine.go:379-380 | A run from a new resource that ends `provisioned` with a replica unready, after a failed read |
| `ReplicaCounterexamples.ProvisionedWithoutLooking` | controllers/azurestackhciloadbalancer_controller.go:175-181 | A run from a new resource that ends `provisioned` with two of three replicas, after a failed patch |
| `ReplicaCounterexamples.NegativeCountNotReached` | cloud/scope/loadbalancer.go:189-192 | With -1 desired and no replica an undisturbed pass changes nothing and the spec is not met |
| `ReplicaCounterexamples.UpgradeAtMaximumNotStarted` | cloud/scope/loadbalancer.go:189-192 | With the largest int32 of outdated replicas an undisturbed pass starts no upgrade |
| `FinalizerInvariants.StepKeepsInv` | controllers/azurestackhcivirtualmachine_controller.go:140-161 | Every call of every controller and user keeps the invariant of all keys |
| `FinalizerEffects.MachineryByVM` | controllers/azurestackhcivirtualmachine_reconciler.go:62-150 | NIC, VM and OS disk appear exactly by the create steps of the VM controller on their key and go exactly by its delete steps |
| `FinalizerEffects.ServiceByLB` | controllers/azurestackhciloadbalancer_controller.go:310-380 | The same for the service and the load balancer controller |
| `FinalizerEffects.VaultByCluster` | controllers/azurestackhcicluster_reconciler.go:53-131 | The same for the vault and the cluster controller |
| `FinalizerEffects.GroupByCluster` | cloud/services/groups/groups.go:54-128 | A group is tagged exactly by a create of a cluster in it after a Get that found none or failed, and goes exactly by a delete with the tag on |
| `FinalizerEffects.OnlyGuardiansChange` | controllers/azurestackhcivirtualmachine_reconciler.go:62-150 | No step but of the controller whose finalizer guards it changes a piece of infrastructure |
| `FinalizerEffects.VMResourceByMachine` | controllers/azurestackhcimachine_controller.go:287-471 | A machine controller makes the VM resource of its name, and marks or removes it exactly by its delete call |
| `FinalizerEffects.VMResourceByLB` | controllers/azurestackhciloadbalancer_virtualmachine.go:151-296 | A load balancer controller makes replicas owned by its own cluster, and marks or removes exactly those it deletes |
| `FinalizerEffects.LBByCluster` | controllers/azurestackhcicluster_controller.go:358-494 | The load balancer resource is made, and asked to go, exactly by the steps of its own cluster |
| `FinalizerEffects.MachineByCluster` | controllers/azurestackhcicluster_controller.go:322-355 | The cluster controller marks or removes exactly the orphan it deletes |
| `FinalizerEffects.ClusterByCluster` | controllers/azurestackhcicluster_controller.go:144-320 | A cluster is held exactly from a patch that took effect, and gone exactly by the removal of its finalizer |
| `FinalizerBuildUp.VMCanComeUp` | controllers/azurestackhcivirtualmachine_reconciler.go:62-95 | From every reachable state a VM resource that is not marked, with idle controller, can by that controller alone come to have NIC, VM and OS disk under its finalizer |
| `FinalizerBuildUp.MachineCanComeUp` | controllers/azurestackhcimachine_controller.go:194-242 | From every reachable state a machine with owner and cluster can come to have its VM resource and that machinery, under both finalizers |
| `FinalizerBuildUp.LBCanComeUp` | controllers/azurestackhciloadbalancer_controller.go:172-284 | The same for a load balancer: its service and a running replica of its own |
| `FinalizerBuildUp.ClusterCanComeUp` | controllers/azurestackhcicluster_controller.go:144-226 | The same for a cluster: its group, vault and load balancer resource |
| `FinalizerInvariants.VMStepKeepsVM` | controllers/azurestackhcivirtualmachine_reconciler.go:62-150 | The VM controller creates only under its finalizer and removes it only after VM, NIC and disk |
| `FinalizerInvariants.MachineStepKeepsMachine` | controllers/azurestackhcimachine_controller.go:410-471 | The machine controller creates its VM resource only under its finalizer and removes it only when the VM resource is gone |
| `FinalizerInvariants.LBStepKeepsLB` | controllers/azurestackhciloadbalancer_virtualmachine.go:151-184 | The load balancer controller removes its finalizer only after the service and with every replica marked |
| `FinalizerInvariants.ClusterStepKeepsCluster` | controllers/azurestackhcicluster_reconciler.go:91-131 | The cluster controller creates its vault only under its finalizer and removes it only after the vault |
| `FinalizerInvariants.ClusterStepKeepsGroup` | cloud/services/groups/groups.go:54-128 | Past its deletion a tagged group is there only if another cluster in it answers for it |
| `FinalizerInvariants.ClusterStepKeepsMembership` | controllers/azurestackhcicluster_controller.go:239-279 | Past the empty machine list no machine of the cluster exists |
| `FinalizerTheorems.NoOrphans` | controllers/azurestackhcivirtualmachine_controller.go:148-161 | In every reachable state NIC, VM, disk, service and vault exist only with their resource and its finalizer |
| `FinalizerTheorems.MachineChain` | controllers/azurestackhcimachine_controller.go:202-225 | A machine's VM resource implies the held machine, whose cluster still waits |
| `FinalizerTheorems.TeardownOrder` | controllers/azurestackhcicluster_controller.go:239-317 | While vault and group are deleted no machine, VM resource, NIC, VM or disk of the cluster's machines exists, nor the load balancer if its Get erred only on absence |
| `FinalizerTheorems.LoadBalancerGone` | controllers/azurestackhciloadbalancer_controller.go:331-356 | Without the held load balancer there is no service and no live replica |
| `FinalizerTheorems.LoadBalancerDeletionComplete` | controllers/azurestackhciloadbalancer_controller.go:345-356 | The finalizer step finds the service gone and every replica gone or marked |
| `FinalizerTheorems.NoReplicaAfterDeletion` | controllers/azurestackhciloadbalancer_controller.go:164-170 | After it no step creates a replica or service until the cluster controller creates the load balancer anew |
| `FinalizerTheorems.ClusterGoesLast` | controllers/azurestackhcicluster_controller.go:303-317 | The cluster resource goes with vault and machines already gone, and its tagged group too unless another cluster in the group answers for it |
| `FinalizerTheorems.ForeignGroupStep` | cloud/services/groups/groups.go:54-128 | A step keeps an untagged group untagged exactly unless it is a create, by any cluster in the group, after a Get that failed otherwise |
| `FinalizerTheorems.GroupGoes` | cloud/services/groups/groups.go:89-128 | A group goes exactly by the delete call of a cluster in it while it is tagged, whoever else is in it |
| `FinalizerTheorems.ForeignGroupSurvives` | cloud/services/groups/groups.go:110-125 | Over every execution without such a Get a group not created here is never deleted |
| `FinalizerProgress.MarkedVMCanGo` | controllers/azurestackhcivirtualmachine_controller.go:296-322 | A marked VM resource can always be brought to disappear with NIC, VM and disk |
| `FinalizerProgress.MarkedMachineCanGo` | controllers/azurestackhcimachine_controller.go:410-471 | A marked machine whose owner, Cluster and AzureStackHCICluster are there can, by the controllers alone, with its VM resource and all infrastructure |
| `FinalizerProgress.MarkedLBCanGo` | controllers/azurestackhciloadbalancer_controller.go:331-366 | A marked load balancer whose Cluster and AzureStackHCICluster are there can, by the controllers alone, with its service |
| `FinalizerLiveness.MachineDeletionLive` | controllers/azurestackhcimachine_controller.go:117-147 | The deletion of a machine never gets stuck exactly when owner, Cluster and AzureStackHCICluster are there; an idle controller can finish it exactly then |
| `FinalizerLiveness.BlockedForever` | controllers/azurestackhcimachine_controller.go:117-147 | A held machine one of whose Gets fails is never removed by any continuation of the controllers |
| `FinalizerLiveness.LBDeletionLive` | controllers/azurestackhciloadbalancer_controller.go:105-125 | A marked load balancer with idle controller can go exactly when Cluster and AzureStackHCICluster are there; if the cluster controller's Get errs only on absence, it never gets stuck exactly when moreover that controller is not past it |
| `FinalizerLiveness.LBBlockedForever` | controllers/azurestackhciloadbalancer_controller.go:105-125 | A held load balancer one of whose Gets fails, and its service, are never removed by any continuation of the controllers |
| `FinalizerLiveness.MarkedClusterCanGo` | controllers/azurestackhcicluster_controller.go:228-320 | By the controllers alone a marked cluster can go with machines, load balancer, service, vault and owned group, if its Cluster is there and every machine is departing |
| `FinalizerLiveness.ClusterDeletionLive` | controllers/azurestackhcicluster_controller.go:239-355 | The deletion of a cluster never gets stuck exactly when its Cluster is there and every machine is marked with its owner there, or without owner reference and not held nor about to be |
| `FinalizerLiveness.KeptForever` | controllers/azurestackhcicluster_controller.go:322-355 | A machine that is held without owner, or that nobody asked to delete, and its cluster are never removed by any continuation of the controllers |
| `FinalizerCounterexamples.OrphanedMachineSticks` | controllers/azurestackhcimachine_controller.go:117-125 | An execution to a machine marked as orphan that no continuation removes, nor its cluster |
| `FinalizerCounterexamples.MisreadStrandsLoadBalancer` | controllers/azurestackhcicluster_controller.go:292-301 | An execution to a marked load balancer without cluster that no continuation removes, nor its service |
| `FinalizerCounterexamples.ForeignGroupDeleted` | cloud/services/groups/groups.go:61-78 | An execution in which an untagged group of before is deleted |
| `FinalizerCounterexamples.SharedGroupDeleted` | cloud/services/groups/groups.go:110-125 | An execution in which a group is deleted while another cluster in it lives |
| `Conversion.ConditionsRoundTrip` | api/v1beta1/conversion.go:145-178 | Conditions survive either round trip exactly when reasons and messages are set and no severity, or no generation, is; a third conversion changes nothing |
| `Conversion.ConditionsSaySame` | api/v1beta1/conversion.go:145-178 | Each direction alone keeps type, status, time, reason and message at every index, an empty reason or message becoming unknown upwards |
| `Conversion.ConvertConditionsUp` | api/v1beta1/zz_generated.conversion.go:606-616 | At each index type, status, time, reason and message of the input, empty ones as unknown; nil to nil |
| `Conversion.ConvertConditionsDown` | api/v1beta1/zz_generated.conversion.go:585-595 | At each index type, status, time, reason and message of the input, without severity; nil to nil |
| `Conversion.NetworkInterfacesBijection` | api/v1beta1/conversion.go:269-294 | Network interfaces survive both round trips, nil lists, nil entries and empty lists included |
| `Conversion.NicsKept` | api/v1beta1/conversion.go:269-294 | Each direction alone keeps the name of every interface and all fields of every IP configuration, index by index |
| `Conversion.ConvertNicsUp` | api/v1beta1/conversion.go:269-294 | At each index the name and the IP configurations of the input, nil entries kept |
| `Conversion.ConvertIpsUp` | api/v1beta1/conversion.go:275-290 | At each index all seven fields of the input entry, nil entries kept |
| `Conversion.ConvertNicsDown` | api/v1beta1/conversion.go:337-362 | At each index the name and the IP configurations of the input, nil entries kept |
| `Conversion.ConvertIpsDown` | api/v1beta1/conversion.go:343-358 | At each index all seven fields of the input entry, nil entries kept |
| `Conversion.MachineSpecRoundTrip` | api/v1beta1/conversion.go:255-385 | Machine specs survive exactly when image and disk are zero or meaningful; hub specs exactly when every set pointer is expressible; a third conversion changes nothing |
| `Conversion.VMSpecRoundTrip` | api/v1beta1/conversion.go:387-522 | The same for virtual machine specs, whose image is always set |
| `Conversion.LBSpecRoundTrip` | api/v1beta1/conversion.go:524-555 | Load balancer specs always survive from v1beta1, from the hub exactly when the image is set |
| `Conversion.SpecsUp` | api/v1beta1/conversion.go:180-540 | Upwards every field of image, disk, zone and interfaces is that of the input; a machine's image, a disk and a zone are set exactly when they have content, the image of a VM or load balancer always |
| `Conversion.SpecsDown` | api/v1beta1/conversion.go:195-555 | Downwards every field is that of the input, and an unset pointer becomes the zero value |
| `Conversion.StatusesUp` | api/v1beta1/conversion.go:29-86 | Upwards the mark is set exactly for a ready status; phase, addresses, state and conditions are kept |
| `Conversion.StatusesDown` | api/v1beta1/conversion.go:49-98 | Downwards a cluster is ready exactly with a true Ready condition, a machine as its flag says |
| `Conversion.TripKeepsImageChoice` | controllers/azurestackhciloadbalancer_virtualmachine.go:335-349 | The image chosen for VMs survives a hub trip exactly when a machine's is absent or meaningful, a load balancer's present |
| `Conversion.TripLosesImageChoice` | api/v1beta1/conversion.go:304-310 | A machine image given by name, and the Linux default of a load balancer, are lost |
| `Conversion.ScanReady` | api/v1beta1/conversion.go:56-64 | The loop finds whether a true Ready condition is there |
| `Conversion.ClusterInitializationRoundTrip` | api/v1beta1/conversion.go:29-67 | The provisioned mark survives exactly when it agrees with the Ready condition |
| `Conversion.ClusterStatusRoundTrip` | api/v1beta1/conversion.go:29-67 | A whole cluster status survives either trip exactly when the mark agrees and its conditions survive |
| `Conversion.TripUnprovisionsCluster` | api/v1beta1/conversion.go:29-67 | A ready v1beta1 status without conditions is provisioned after one conversion and not after a trip more |
| `Conversion.MachineStatusRoundTrip` | api/v1beta1/conversion.go:69-98 | The machine's mark survives exactly when it agrees with the ready flag; a whole status exactly when moreover its conditions do and, from v1beta1, there are no failure fields |
| `MachineController.MachineScope.SetReady` | cloud/scope/machine.go:177-189 | Ready and provisioned together |
| `MachineController.MachineScope.ReconcileStatus` | controllers/azurestackhcimachine_controller.go:244-282 | After the merge loop and the switch VMRunning tells the VM state, every other type is the last of the VM's or the old one, and the ready flag and mark are set exactly on success |
| `MachineController.MachineScope.MergeConditions` | controllers/azurestackhcimachine_controller.go:244-249 | The loop sets every condition of the VM, in order, and leaves an empty list alone |
| `MachineController.FoundAfter` | controllers/azurestackhcimachine_controller.go:244-282 | What is found for each type after a pass: VMRunning true exactly when the VM succeeded, false with the reason of an update exactly while updating, else false with the failure; any other type the VM's last, or the old one |
| `MachineController.RunTellsState` | controllers/azurestackhcimachine_controller.go:244-282 | Over every run a pass that persists its conditions leaves VMRunning true exactly when it saw success, and one that persists the status the state and the flag |
| `MachineController.NoConditionGrowth` | controllers/azurestackhcimachine_controller.go:244-249 | Types stay unique, none is lost, and only the VM's and VMRunning are added |
| `MachineController.RunNeverGrows` | controllers/azurestackhcimachine_controller.go:244-249 | After any number of passes there are no more conditions than such types |
| `MachineController.RepeatedPassIsNoOp` | controllers/azurestackhcimachine_controller.go:244-282 | A second pass against the same VM changes at most transition times |
| `MachineController.ReachableMachineSurvivesTrip` | cloud/scope/machine.go:177-189 | Every status produced from a new machine, whatever part of its patches succeeded, is provisioned exactly when ready, so its `Initialization` survives a trip; the whole status exactly when its conditions do |
| `MachineController.RunningMachineChangesOnTrip` | controllers/azurestackhcimachine_controller.go:256-282 | After a pass that saw the VM running or updating the whole status never survives |
| `ClusterController.ClusterScope.ReconcileNormally` | controllers/azurestackhcicluster_controller.go:144-226 | Services, load balancer, endpoint, provisioned mark and both conditions, with the error exits |
| `ClusterController.ClusterScope.ReconcileDeleted` | controllers/azurestackhcicluster_controller.go:228-320 | The conditions of the delete branch, exit by exit: list, machines, orphans, load balancer, services |
| `ClusterController.ClusterScope.SetPhase` | controllers/azurestackhcicluster_controller.go:496-518 | Deleting, provisioned or provisioning |
| `ClusterController.ReconcileResource` | controllers/azurestackhcicluster_controller.go:126-142 | Branch on the deletion timestamp, then phase and close, each request of which may fail |
| `ClusterController.PersistedCluster` | controllers/azurestackhcicluster_controller.go:144-320 | What a reconcile persists: the network condition true exactly when it gets to the end of the normal branch, otherwise false with the reason and message of the step that failed or is waited for; mark, phase and endpoint likewise |
| `ClusterController.StableProgress` | controllers/azurestackhcicluster_controller.go:199-209 | Over every run provisioned never reverts and the phase only moves forward |
| `ClusterController.ReachableClusterSurvivesTrip` | controllers/azurestackhcicluster_controller.go:199-223 | The `Initialization` of every status produced from a new cluster survives a trip exactly when provisioned mark and Ready condition were both persisted or neither, so always with whole patches; the whole status exactly when its conditions do too, and never once provisioned |
| `ClusterController.PartialPatchMisleadsTrip` | controllers/azurestackhcicluster_controller.go:199-223 | A first provisioning pass of which only status or only conditions persist has the mark taken back, or set, by a trip |
| `ClusterController.EndpointIsConstant` | controllers/azurestackhcicluster_controller.go:428-434 | The endpoint is the initial one or that of an address shown, and with one address stays once written |
| `ControlPlaneEndpoint.OneEndpoint` | controllers/azurestackhcicluster_controller.go:428-434 | However load balancer and cluster controller interleave, no endpoint is written but of an address of a life of the load balancer, and one only in one life |
| `ControlPlaneEndpoint.OneEndpointExactly` | controllers/azurestackhcicluster_controller.go:428-434 | One endpoint only is ever written exactly when all lives of the load balancer that got an address got the same |
| `ControlPlaneEndpoint.TwoLivesTwoEndpoints` | controllers/azurestackhciloadbalancer_controller.go:301-303 | Two lives of a new load balancer with two addresses, and two endpoints |
| `NetworkInterfaceBuilder.GeneratedNamesDiffer` | cloud/defaults.go:131-134 | No two generated IP configuration names coincide |
| `NetworkInterfaceBuilder.DecimalWrites` | cloud/defaults.go:131-134 | The digits of an index write it, without a leading zero |
| `NetworkInterfaceBuilder.BuildConfigs` | controllers/azurestackhcivirtualmachine_reconciler.go:65-81 | One configuration per entry, in order, with the name given or the one made of interface and index, and the primary flag of the entry |
| `NetworkInterfaceBuilder.BuildInterface` | cloud/services/networkinterfaces/networkinterfaces.go:76-128 | One IP configuration per entry with pools exactly on the primaries, or one with all pools |
| `NetworkInterfaceBuilder.InterfaceOfSpec` | cloud/services/networkinterfaces/networkinterfaces.go:101-128 | Pools are joined exactly with no entry or a primary one; names collide exactly when the spec repeats one or gives a generated one |

## Left out

- Timers, requeue scheduling and the wait for volume attachments: deletion proceeds after the timeout, so nothing is claimed about volumes.
- LoadBalancerController.Reconciler.ReconcileResource: does not model the early returns before a scope exists, which write nothing. What they do to a deletion is in the deletion protocol.
- Events, logs, telemetry, correlation annotations.
- The fields of the VM resource other than name, creation timestamp and version label, and the image lookup by Kubernetes version.
- A generated VM name that collides with an existing one, which would update that VM in place.
- The four controllers of the deletion protocol are modelled as steps on values, not as objects; what their methods write into the status is in the imperative modules.
- Virtual networks and their deletion, which the service skips for networks it owns.
- Scheduling: a deletion that cannot get stuck is one the controllers can still finish after whatever they did, not one they finish in bounded time; calls that fail forever are not excluded.
- Edits of the specs of clusters and machines; a load balancer removed from the spec of a cluster that has one would not be deleted with it.
- The bastion of the cluster status and the cluster, template and list conversions, which copy fields.
- The second copies of the network interface loops in the virtual machine spec conversion, identical to those modelled.
- Nil entries inside the first network interface of a VM spec, on which the controller would panic.
