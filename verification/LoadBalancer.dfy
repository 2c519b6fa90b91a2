/** The AzureStackHCILoadBalancer resource and what one reconcile makes of it, as functions of
    the resource, the set of its replica VMs and the answers of the calls made on the way. */
module LoadBalancer {
  import opened Basics
  import opened VirtualMachineOrder

  // ----- conditions -----

  datatype Status = StatusTrue | StatusFalse | StatusUnknown

  /** The reasons the load balancer controller compares or sets; any other text is `Other`. */
  datatype Reason =
    | NoReason
    | Upgrading
    | ScalingUp
    | ScalingDown
    | WaitingForReplicasReady
    | AllReplicasReady
    | FailedReplicas
    | MachineReconciliationFailed
    | OutOfMemory
    | OutOfCapacity
    | ServiceReconciliationFailed
    | ServiceStatusFailed
    | AddressUnavailable
    | NoReplicasReady
    | InfrastructureReady
    | DeletionFailed
    | LoadBalancerDeleting
    | Other(text: string)

  datatype Condition = Condition(status: Status, reason: Reason, message: string)

  /** `conditions.IsFalse`: an absent condition is not false. */
  predicate IsFalse(c: Option<Condition>) {
    c.Some? && c.value.status.StatusFalse?
  }

  /** `conditions.GetReason`: the empty reason when the condition is absent. */
  function ReasonOf(c: Option<Condition>): Reason {
    if c.Some? then c.value.reason else NoReason
  }

  function NotReady(reason: Reason, message: string): Option<Condition> {
    Some(Condition(StatusFalse, reason, message))
  }

  // ----- the resource -----

  datatype Phase = NoPhase | Pending | Provisioning | Provisioned | UpgradingPhase | Deleting | Failed

  /** Metadata, spec and status of the load balancer, with its two conditions. */
  datatype LB = LB(
    name: string,
    deleting: bool,
    finalizer: bool,
    specReplicas: Option<int>,
    imageVersion: Option<string>,
    ready: bool,
    replicas: int,
    readyReplicas: int,
    failedReplicas: int,
    address: string,
    port: int,
    phase: Phase,
    errorReason: Option<string>,
    selector: string,
    replicasReady: Option<Condition>,
    infraReady: Option<Condition>)
  {
    /** `GetDesiredReplicas` */
    function Desired(): int {
      if specReplicas.Some? then specReplicas.value else 0
    }

    /** `GetMaxReplicas`, an int32 addition. */
    function MaxReplicas(): int {
      WrapInt32(Desired() + MAX_SURGE)
    }

    /** `OSVersion` */
    function OSVersion(): string {
      if imageVersion.Some? then imageVersion.value else ""
    }

    predicate AreUpgrading() { ReasonOf(replicasReady) == Upgrading }
    predicate AreScalingUp() { ReasonOf(replicasReady) == ScalingUp }
    predicate ScaleUpRequired() { replicas < Desired() }
    predicate ScaleDownRequired() { replicas > Desired() }
  }

  const MAX_SURGE: int := 1

  const LOAD_BALANCER_LABEL: string := "msft.microsoft/load-balancer"

  // ----- answers of the calls -----

  datatype VMState = Creating | StateDeleting | StateFailed | Migrating | Succeeded | Updating

  /** One VM resource of the list call: its identity, whether it has a deletion timestamp, its
      VMRunning condition and its VM state. */
  datatype ListedVM = ListedVM(vm: VM, deleting: bool, running: Option<Condition>, state: Option<VMState>)

  /** What reading the load balancer service returned. */
  datatype ServiceStatus = ServiceStatus(address: string, replicationCount: int)

  /** The outcome of a create: the call may fail, and a failed call may still have taken effect. */
  datatype CreateOutcome = CreateOutcome(ok: bool, effect: bool, name: string, created: int)

  /** The answers to the update and delete calls on a VM resource. A failed delete call may
      still have taken effect. */
  datatype Call = CallOk | CallNotFound | CallFailed
  datatype DeleteOutcome = DeleteOutcome(update: Call, delete: Call, effect: bool)
  {
    /** `deleteVirtualMachine` ignores not-found answers and fails on any other error. */
    predicate Ok() { !update.CallFailed? && !delete.CallFailed? }
    predicate Gone() { Ok() || (!update.CallFailed? && effect) }
  }

  datatype ServiceResult =
    | ServiceOk
    | ServiceOutOfMemory(message: string)
    | ServiceOutOfCapacity(message: string)
    | ServiceError(message: string)

  /** The texts of the errors that the second read of the service and the part on the VMs may end with. */
  datatype ErrorTexts = ErrorTexts(addressRead: string, vms: string)

  /** Every answer one reconcile gets from the API server and the load balancer service. */
  datatype Answers = Answers(
    patchOk: bool,
    listOk: bool,
    items: seq<ListedVM>,
    statusRead: Option<ServiceStatus>,
    creates: seq<CreateOutcome>,
    delete: DeleteOutcome,
    service: ServiceResult,
    addressRead: Option<ServiceStatus>,
    apiServerPort: int,
    serviceDelete: Option<string>,
    deletes: seq<DeleteOutcome>,
    errors: ErrorTexts,
    close: CloseOutcome)
  {
    /** The answer to the k-th create of the pass. */
    function Create(k: nat): CreateOutcome {
      if k < |creates| then creates[k] else CreateOutcome(false, false, "", 0)
    }

    function DeleteOf(k: nat): DeleteOutcome {
      if k < |deletes| then deletes[k] else DeleteOutcome(CallFailed, CallFailed, false)
    }
  }

  // ----- reconcileVirtualMachines -----

  /** `getVirtualMachinesForLoadBalancer` keeps the items without a deletion timestamp. */
  function Live(items: seq<ListedVM>): seq<ListedVM> {
    if items == [] then []
    else if items[0].deleting then Live(items[1..])
    else [items[0]] + Live(items[1..])
  }

  /** `kept` are the items without a deletion timestamp from index `low` on, at the indices `at`, in order: no such
      index is left out, and none is listed twice. */
  ghost predicate KeepsFrom(items: seq<ListedVM>, kept: seq<ListedVM>, at: seq<nat>, low: nat) {
    && |at| == |kept|
    && (forall k :: 0 <= k < |at| ==> low <= at[k] < |items| && items[at[k]] == kept[k] && !items[at[k]].deleting)
    && (forall k, l :: 0 <= k < l < |at| ==> at[k] < at[l])
    && (forall i :: low <= i < |items| && !items[i].deleting ==> i in at)
  }

  ghost predicate KeepsLive(items: seq<ListedVM>, kept: seq<ListedVM>, at: seq<nat>) {
    KeepsFrom(items, kept, at, 0)
  }

  function Identities(live: seq<ListedVM>): (s: seq<VM>)
    ensures |s| == |live|
    ensures forall i :: 0 <= i < |s| ==> s[i] == live[i].vm
  {
    seq(|live|, i requires 0 <= i < |live| => live[i].vm)
  }

  /** The indices of the items without a deletion timestamp, and the VMs at them. */
  ghost function LiveIndices(items: seq<ListedVM>): set<nat> {
    set i: nat | i < |items| && !items[i].deleting
  }

  ghost function ListedVMs(items: seq<ListedVM>): set<VM> {
    set i | 0 <= i < |items| && !items[i].deleting :: items[i].vm
  }

  lemma FirstKept(items: seq<ListedVM>, kept: seq<ListedVM>, at: seq<nat>, low: nat)
    requires low < |items| && !items[low].deleting && KeepsFrom(items, kept, at, low + 1)
    ensures KeepsFrom(items, [items[low]] + kept, [low] + at, low)
  {
    var all, more := [low] + at, [items[low]] + kept;
    forall k | 0 <= k < |all| ensures low <= all[k] < |items| && items[all[k]] == more[k] && !items[all[k]].deleting {
      assert k > 0 ==> all[k] == at[k - 1] && more[k] == kept[k - 1];
    }
    forall k, l | 0 <= k < l < |all| ensures all[k] < all[l] {
      assert all[l] == at[l - 1] && (k > 0 ==> all[k] == at[k - 1]);
    }
    assert all[0] == low && forall i :: i in at ==> i in all;
  }

  lemma {:induction false} LiveFrom(items: seq<ListedVM>, low: nat) returns (at: seq<nat>)
    requires low <= |items|
    ensures KeepsFrom(items, Live(items[low..]), at, low)
    decreases |items| - low
  {
    if low == |items| {
      return [];
    }
    assert items[low..][0] == items[low] && items[low..][1..] == items[low + 1..];
    at := LiveFrom(items, low + 1);
    if !items[low].deleting {
      FirstKept(items, Live(items[low + 1..]), at, low);
      at := [low] + at;
    }
  }

  /** `Live` keeps the items without a deletion timestamp, all of them, once each and in order. */
  lemma LiveByIndex(items: seq<ListedVM>) returns (at: seq<nat>)
    ensures KeepsLive(items, Live(items), at)
  {
    assert items[0..] == items;
    at := LiveFrom(items, 0);
  }

  ghost function AsSet(at: seq<nat>): set<nat> {
    set i | i in at
  }

  lemma {:induction false} DistinctCount(at: seq<nat>)
    requires forall k, l :: 0 <= k < l < |at| ==> at[k] < at[l]
    ensures |AsSet(at)| == |at|
  {
    if at != [] {
      var front, last := at[..|at| - 1], at[|at| - 1];
      DistinctCount(front);
      assert last !in front;
      assert AsSet(at) == AsSet(front) + {last};
    }
  }

  /** What the list shows, in terms of the filtered list. */
  lemma ListedLive(items: seq<ListedVM>)
    ensures ListedVMs(items) == Elements(Identities(Live(items)))
    ensures |LiveIndices(items)| == |Live(items)|
  {
    var at := LiveByIndex(items);
    var live := Live(items);
    DistinctCount(at);
    assert LiveIndices(items) == AsSet(at);
    forall i | 0 <= i < |items| && !items[i].deleting ensures items[i].vm in Identities(live) {
      var k :| 0 <= k < |at| && at[k] == i;
      assert Identities(live)[k] == items[i].vm;
    }
    forall v | v in Identities(live) ensures v in ListedVMs(items) {
      var k :| 0 <= k < |live| && Identities(live)[k] == v;
      assert items[at[k]].vm == v;
    }
  }

  /** A VM whose VMRunning condition is false with a reason stops the pass. */
  predicate ReportsFailure(x: ListedVM) {
    IsFalse(x.running) && x.running.value.reason != NoReason
  }

  function FirstFailure(live: seq<ListedVM>): (c: Option<Condition>)
    ensures c.None? <==> forall x :: x in live ==> !ReportsFailure(x)
    ensures c.Some? ==> c.value.status.StatusFalse? && c.value.reason != NoReason
  {
    if live == [] then None
    else if ReportsFailure(live[0]) then live[0].running
    else FirstFailure(live[1..])
  }

  function FailedCount(live: seq<ListedVM>): nat {
    if live == [] then 0
    else FailedCount(live[..|live| - 1]) + (if live[|live| - 1].state == Some(StateFailed) then 1 else 0)
  }

  /** The indices of the VMs in the failed state. */
  ghost function FailedAt(live: seq<ListedVM>): set<nat> {
    set i: nat | i < |live| && live[i].state == Some(StateFailed)
  }

  lemma {:induction false} FailedCountIsSize(live: seq<ListedVM>)
    ensures FailedCount(live) == |FailedAt(live)|
  {
    if live != [] {
      var n := |live| - 1;
      FailedCountIsSize(live[..n]);
      assert FailedAt(live) == FailedAt(live[..n]) + if live[n].state == Some(StateFailed) then {n} else {};
    }
  }

  /** `reconcileLoadBalancerServiceStatus`: the address is written once, the count always. */
  function ReadService(lb: LB, read: Option<ServiceStatus>): LB {
    if read.None? then lb
    else lb.(address := if lb.address == "" then read.value.address else lb.address,
             readyReplicas := read.value.replicationCount)
  }

  /** `updateReplicaStatus`: a failed read keeps the old ready count. */
  function UpdateReplicaStatus(lb: LB, live: seq<ListedVM>, read: Option<ServiceStatus>): LB {
    ReadService(lb, read).(replicas := WrapInt32(|live|), failedReplicas := WrapInt32(FailedCount(live)))
  }

  datatype PassResult = Done | RequeueAfter(seconds: nat) | Error

  /** What a pass leaves: the resource in memory, the live VMs and the result. */
  datatype Pass = Pass(lb: LB, vms: set<VM>, result: PassResult)

  /** `scaleUpVirtualMachines` */
  function ScaleUp(lb: LB, vms: set<VM>, c: CreateOutcome): Pass {
    var vms' := if c.effect then vms + {VM(c.name, c.created, lb.OSVersion())} else vms;
    if c.ok then Pass(lb.(replicas := WrapInt32(lb.replicas + 1)), vms', Done) else Pass(lb, vms', Error)
  }

  /** `scaleDownVirtualMachines` on the listed live VMs. */
  ghost function ScaleDown(lb: LB, vms: set<VM>, listed: set<VM>, d: DeleteOutcome): Pass {
    if listed == {} then Pass(lb, vms, Error)
    else
      var v := Victim(listed, lb.OSVersion());
      var vms' := if d.Gone() then vms - {v} else vms;
      if d.Ok() then Pass(lb.(replicas := if lb.replicas > 0 then lb.replicas - 1 else lb.replicas), vms', Done)
      else Pass(lb, vms', Error)
  }

  /** The surge loop: create until the replica counter reaches the maximum. */
  function Surge(lb: LB, vms: set<VM>, a: Answers, k: nat): Pass
    requires IsInt32(lb.replicas)
    decreases lb.MaxReplicas() - lb.replicas
  {
    if lb.replicas >= lb.MaxReplicas() then Pass(lb, vms, Done)
    else
      var p := ScaleUp(lb, vms, a.Create(k));
      if p.result.Error? then p else Surge(p.lb, p.vms, a, k + 1)
  }

  function SetReplicasReady(lb: LB, reason: Reason): LB {
    lb.(replicasReady := NotReady(reason, ""))
  }

  function ThenRequeue(p: Pass, seconds: nat): Pass {
    if p.result.Error? then p else p.(result := RequeueAfter(seconds))
  }

  /** The branch `reconcileVirtualMachines` takes once the replica counters are up to date. */
  datatype Decision = KeepWaiting | WaitForReady | AddReplica | RemoveReplica | Upgrade | Settled

  /** The decision, from the observed ready count, the replica count, the desired one, the remembered
      reason and whether an outdated replica is listed. */
  function Branch(ready: int, replicas: int, desired: int, upgrading: bool, scalingUp: bool, outdated: bool): Decision {
    if ready < replicas && (upgrading || scalingUp) then KeepWaiting
    else if ready < replicas && replicas <= desired then WaitForReady
    else if replicas < desired then AddReplica
    else if replicas > desired then RemoveReplica
    else if outdated then Upgrade
    else Settled
  }

  function Decide(lb: LB, outdated: bool): Decision {
    Branch(lb.readyReplicas, lb.replicas, lb.Desired(), lb.AreUpgrading(), lb.AreScalingUp(), outdated)
  }

  /** Scaling keeps the reason `Upgrading` of an upgrade under way. */
  function MarkScaling(lb: LB, reason: Reason): LB {
    if lb.AreUpgrading() then lb else SetReplicasReady(lb, reason)
  }

  ghost function Act(lb: LB, vms: set<VM>, listed: set<VM>, a: Answers): Pass
    requires IsInt32(lb.replicas)
  {
    match Decide(lb, Outdated(listed, lb.OSVersion()) != {})
    case KeepWaiting => Pass(lb, vms, RequeueAfter(60))
    case WaitForReady => Pass(SetReplicasReady(lb, WaitingForReplicasReady), vms, RequeueAfter(60))
    case AddReplica => ThenRequeue(ScaleUp(MarkScaling(lb, ScalingUp), vms, a.Create(0)), 60)
    case RemoveReplica => ThenRequeue(ScaleDown(MarkScaling(lb, ScalingDown), vms, listed, a.delete), 20)
    case Upgrade => ThenRequeue(Surge(SetReplicasReady(lb, Upgrading), vms, a, 0), 60)
    case Settled =>
      if IsFalse(lb.replicasReady)
      then Pass(lb.(replicasReady := Some(Condition(StatusTrue, AllReplicasReady, ""))), vms, Done)
      else Pass(lb, vms, Done)
  }

  /** `reconcileVirtualMachines` */
  ghost function ReconcileVMs(lb: LB, vms: set<VM>, a: Answers): Pass {
    if !a.listOk then Pass(lb, vms, Error)
    else
      var live := Live(a.items);
      var failure := FirstFailure(live);
      if failure.Some? then
        Pass(lb.(replicasReady := NotReady(failure.value.reason, failure.value.message)), vms, Done)
      else
        Act(UpdateReplicaStatus(lb, live, a.statusRead), vms, Elements(Identities(live)), a)
  }

  // ----- reconcileNormal -----

  function SetInfraNotReady(lb: LB, reason: Reason, message: string): LB {
    lb.(infraReady := NotReady(reason, message))
  }

  function ServiceFailureReason(r: ServiceResult): Reason
    requires !r.ServiceOk?
  {
    match r
    case ServiceOutOfMemory(_) => OutOfMemory
    case ServiceOutOfCapacity(_) => OutOfCapacity
    case ServiceError(_) => ServiceReconciliationFailed
  }

  /** What the part of `reconcileNormal` after the VMs decides: the infrastructure condition, the address,
      the ready count, the ready flag and the result. */
  datatype ServiceOutcome = ServiceOutcome(
    infraReady: Option<Condition>, address: string, readyReplicas: int, ready: bool, result: PassResult)

  /** The service, then its address, then the gate on a ready replica. */
  function ServiceDecision(lb: LB, vmResult: PassResult, a: Answers): ServiceOutcome {
    var failed := (reason, message) =>
      ServiceOutcome(NotReady(reason, message), lb.address, lb.readyReplicas, lb.ready, Error);
    if !a.service.ServiceOk? then failed(ServiceFailureReason(a.service), a.service.message)
    else if lb.address == "" && a.addressRead.None? then failed(ServiceStatusFailed, a.errors.addressRead)
    else
      var address := if lb.address == "" then a.addressRead.value.address else lb.address;
      var count := if lb.address == "" then a.addressRead.value.replicationCount else lb.readyReplicas;
      if address == "" then
        ServiceOutcome(NotReady(AddressUnavailable, ""), address, count, lb.ready, RequeueAfter(20))
      else if lb.replicas != 0 && count < 1 then
        ServiceOutcome(NotReady(NoReplicasReady, ""), address, count, lb.ready, RequeueAfter(20))
      else
        ServiceOutcome(if IsFalse(lb.infraReady) then Some(Condition(StatusTrue, InfrastructureReady, ""))
                       else lb.infraReady, address, count, true, vmResult)
  }

  function ReconcileService(p: Pass, a: Answers): Pass {
    var o := ServiceDecision(p.lb, p.result, a);
    Pass(p.lb.(port := a.apiServerPort, infraReady := o.infraReady, address := o.address,
               readyReplicas := o.readyReplicas, ready := o.ready), p.vms, o.result)
  }

  /** `reconcileNormal` */
  ghost function ReconcileNormal(lb: LB, vms: set<VM>, a: Answers): Pass {
    var lb0 := lb.(finalizer := true);
    if !a.patchOk then Pass(lb0, vms, Error)
    else if lb0.specReplicas.None? then Pass(lb0, vms, Error)
    else
      var p := ReconcileVMs(lb0, vms, a);
      if p.result.Error? then Pass(SetInfraNotReady(p.lb, MachineReconciliationFailed, a.errors.vms), p.vms, Error)
      else ReconcileService(p, a)
  }

  // ----- reconcileDelete -----

  /** `reconcileDeleteVirtualMachines` over the listed VMs from index k: stops at the first failure. */
  function DeleteFrom(vms: set<VM>, listed: seq<VM>, a: Answers, k: nat): (r: (set<VM>, bool))
    decreases |listed| - k
  {
    if k >= |listed| then (vms, true)
    else
      var vms' := if a.DeleteOf(k).Gone() then vms - {listed[k]} else vms;
      if a.DeleteOf(k).Ok() then DeleteFrom(vms', listed, a, k + 1) else (vms', false)
  }

  /** `reconcileDelete`: the service first, then the VMs, then the finalizer. */
  function ReconcileDelete(lb: LB, vms: set<VM>, a: Answers): Pass {
    if a.serviceDelete.Some? then Pass(SetInfraNotReady(lb, DeletionFailed, a.serviceDelete.value), vms, Error)
    else if !a.listOk then Pass(SetInfraNotReady(lb, DeletionFailed, a.errors.vms), vms, Error)
    else
      var (vms', ok) := DeleteFrom(vms, Identities(Live(a.items)), a, 0);
      if !ok then Pass(SetInfraNotReady(lb, DeletionFailed, a.errors.vms), vms', Error)
      else Pass(SetInfraNotReady(lb.(finalizer := false), LoadBalancerDeleting, ""), vms', Done)
  }

  // ----- reconcileStatus and Reconcile -----

  function PhaseOf(lb: LB): Phase {
    if lb.deleting then Deleting
    else if lb.errorReason.Some? then Failed
    else if lb.phase.NoPhase? then Pending
    else if IsFalse(lb.replicasReady) then (if lb.AreUpgrading() then UpgradingPhase else Provisioning)
    else if IsFalse(lb.infraReady) then Provisioning
    else Provisioned
  }

  /** Failed replicas make the infrastructure condition false as well. */
  function InfraAfter(lb: LB): Option<Condition> {
    if !lb.deleting && lb.errorReason.None? && !lb.phase.NoPhase?
       && IsFalse(lb.replicasReady) && ReasonOf(lb.replicasReady) == FailedReplicas
    then NotReady(FailedReplicas, lb.replicasReady.value.message) else lb.infraReady
  }

  /** `reconcileStatus`, run after every pass. */
  function ReconcileStatus(lb: LB): LB {
    lb.(selector := if lb.selector == "" then LOAD_BALANCER_LABEL + "=" + lb.name else lb.selector,
        phase := PhaseOf(lb),
        infraReady := InfraAfter(lb))
  }

  function PersistConditions(lb: LB, after: LB): LB {
    lb.(replicasReady := after.replicasReady, infraReady := after.infraReady)
  }

  function PersistStatus(lb: LB, after: LB): LB {
    lb.(ready := after.ready, replicas := after.replicas, readyReplicas := after.readyReplicas,
        failedReplicas := after.failedReplicas, address := after.address, port := after.port, phase := after.phase,
        selector := after.selector)
  }

  /** What the deferred close persists, after the early patch of the finalizer. */
  function Persist(lb: LB, after: LB, a: Answers): LB {
    var lb1 := lb.(finalizer := lb.finalizer || (!lb.deleting && a.patchOk));
    var lb2 := if a.close.conditionsOk then PersistConditions(lb1, after) else lb1;
    var lb3 := if a.close.objectOk then lb2.(finalizer := after.finalizer) else lb2;
    if a.close.statusOk then PersistStatus(lb3, after) else lb3
  }

  /** `Reconcile` from the persisted resource to the persisted resource. */
  ghost function Reconcile(lb: LB, vms: set<VM>, a: Answers): Pass {
    var p := if lb.deleting then ReconcileDelete(lb, vms, a) else ReconcileNormal(lb, vms, a);
    Pass(Persist(lb, ReconcileStatus(p.lb), a), p.vms, p.result)
  }

  // ----- assumptions on the answers -----

  /** The list call shows the current state: the listed VMs without a deletion timestamp are
      exactly the live ones, each once. */
  ghost predicate ListsLive(a: Answers, vms: set<VM>) {
    ListedVMs(a.items) == vms && |LiveIndices(a.items)| == |vms|
  }

  /** Generated names are fresh, and a successful call took effect. */
  ghost predicate FreshCreates(a: Answers, vms: set<VM>) {
    && (forall c :: c in a.creates ==> (c.ok ==> c.effect) && forall v :: v in vms ==> v.name != c.name)
    && (forall i, j :: 0 <= i < j < |a.creates| ==> a.creates[i].name != a.creates[j].name)
  }

  ghost predicate Faithful(lb: LB, vms: set<VM>, a: Answers) {
    && DistinctNames(vms)
    && |vms| <= INT32_MAX
    && (a.listOk ==> ListsLive(a, vms))
    && FreshCreates(a, vms)
    && IsInt32(lb.Desired())
  }

  lemma FaithfulList(lb: LB, vms: set<VM>, a: Answers)
    requires Faithful(lb, vms, a) && a.listOk
    ensures Elements(Identities(Live(a.items))) == vms && |Live(a.items)| == |vms|
  {
    ListedLive(a.items);
  }
}
