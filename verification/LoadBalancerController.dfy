/** The load balancer controller as it runs: a scope whose methods update the resource in place
    and a reconciler that walks the branches, each proved against its function in LoadBalancer. */
module LoadBalancerController {
  import opened Basics
  import opened VirtualMachineOrder
  import opened LoadBalancer

  /** `LoadBalancerScope`: the resource being reconciled, field by field. */
  class LoadBalancerScope {
    const name: string
    const deleting: bool
    const specReplicas: Option<int>
    const imageVersion: Option<string>
    const errorReason: Option<string>
    var finalizer: bool
    var ready: bool
    var replicas: int
    var readyReplicas: int
    var failedReplicas: int
    var address: string
    var port: int
    var phase: Phase
    var selector: string
    var replicasReady: Option<Condition>
    var infraReady: Option<Condition>

    function Resource(): LB
      reads this
    {
      LB(name, deleting, finalizer, specReplicas, imageVersion, ready, replicas, readyReplicas, failedReplicas,
         address, port, phase, errorReason, selector, replicasReady, infraReady)
    }

    constructor (lb: LB)
      ensures Resource() == lb
    {
      name, deleting, specReplicas := lb.name, lb.deleting, lb.specReplicas;
      imageVersion, errorReason := lb.imageVersion, lb.errorReason;
      finalizer, ready, replicas, readyReplicas := lb.finalizer, lb.ready, lb.replicas, lb.readyReplicas;
      failedReplicas, address, port, phase := lb.failedReplicas, lb.address, lb.port, lb.phase;
      selector, replicasReady, infraReady := lb.selector, lb.replicasReady, lb.infraReady;
    }

    method AddReplica()
      modifies this`replicas
      ensures replicas == WrapInt32(old(replicas) + 1)
    {
      replicas := WrapInt32(replicas + 1);
    }

    method RemoveReplica()
      modifies this`replicas
      ensures replicas == if old(replicas) > 0 then old(replicas) - 1 else old(replicas)
    {
      if replicas > 0 {
        replicas := replicas - 1;
      }
    }
  }

  /** `AzureStackHCILoadBalancerReconciler`, with the live replica VMs of the API server as the
      state its calls act on. */
  class Reconciler {
    var vms: set<VM>

    constructor (vms: set<VM>)
      ensures this.vms == vms
    {
      this.vms := vms;
    }

    /** `getVirtualMachinesForLoadBalancer` */
    method GetVirtualMachines(a: Answers) returns (filtered: seq<ListedVM>)
      ensures exists at :: KeepsLive(a.items, filtered, at)
      ensures filtered == Live(a.items)
    {
      filtered := [];
      for idx := 0 to |a.items|
        invariant filtered + Live(a.items[idx..]) == Live(a.items)
      {
        ghost var rest := a.items[idx..];
        assert rest[0] == a.items[idx] && rest[1..] == a.items[idx + 1..];
        if !a.items[idx].deleting {
          filtered := filtered + [a.items[idx]];
        }
      }
      assert filtered == Live(a.items);
      ghost var at := LiveByIndex(a.items);
      assert KeepsLive(a.items, filtered, at);
    }

    /** `getMachineReplicaCounts` */
    method MachineReplicaCounts(live: seq<ListedVM>) returns (replicas: int, failedReplicas: int)
      ensures replicas == WrapInt32(|live|)
      ensures failedReplicas == WrapInt32(|FailedAt(live)|)
      ensures failedReplicas == WrapInt32(FailedCount(live))
    {
      replicas := WrapInt32(|live|);
      failedReplicas := 0;
      ghost var exact := 0;
      for i := 0 to |live|
        invariant exact == FailedCount(live[..i])
        invariant failedReplicas == WrapInt32(exact)
      {
        assert live[..i + 1][..i] == live[..i];
        if live[i].state == Some(StateFailed) {
          failedReplicas := WrapInt32(failedReplicas + 1);
          exact := exact + 1;
        }
      }
      assert live[..|live|] == live;
      FailedCountIsSize(live);
    }

    /** `reconcileLoadBalancerServiceStatus` */
    method ReconcileServiceStatus(lbs: LoadBalancerScope, read: Option<ServiceStatus>) returns (ok: bool)
      modifies lbs`address, lbs`readyReplicas
      ensures lbs.Resource() == ReadService(old(lbs.Resource()), read)
      ensures ok == read.Some?
    {
      if read.None? {
        return false;
      }
      if lbs.address == "" {
        lbs.address := read.value.address;
      }
      lbs.readyReplicas := read.value.replicationCount;
      return true;
    }

    /** `updateReplicaStatus` */
    method UpdateStatus(lbs: LoadBalancerScope, live: seq<ListedVM>, read: Option<ServiceStatus>)
      modifies lbs`address, lbs`readyReplicas, lbs`replicas, lbs`failedReplicas
      ensures lbs.Resource() == UpdateReplicaStatus(old(lbs.Resource()), live, read)
    {
      var replicas, failedReplicas := MachineReplicaCounts(live);
      var _ := ReconcileServiceStatus(lbs, read);
      lbs.replicas := replicas;
      lbs.failedReplicas := failedReplicas;
    }

    /** `isUpgradeRequired` */
    method IsUpgradeRequired(lbs: LoadBalancerScope, live: seq<ListedVM>) returns (required: bool)
      ensures required <==> Outdated(Elements(Identities(live)), lbs.Resource().OSVersion()) != {}
    {
      var target := lbs.Resource().OSVersion();
      for i := 0 to |live|
        invariant forall k :: 0 <= k < i ==> live[k].vm.version == target
      {
        if live[i].vm.version != target {
          assert Identities(live)[i] in Outdated(Elements(Identities(live)), target);
          return true;
        }
      }
      assert Outdated(Elements(Identities(live)), target) == {};
      return false;
    }

    /** `scaleUpVirtualMachines` */
    method ScaleUpVMs(lbs: LoadBalancerScope, c: CreateOutcome) returns (result: PassResult)
      modifies this`vms, lbs`replicas
      ensures Pass(lbs.Resource(), vms, result) == ScaleUp(old(lbs.Resource()), old(vms), c)
    {
      if c.effect {
        vms := vms + {VM(c.name, c.created, lbs.Resource().OSVersion())};
      }
      if !c.ok {
        return Error;
      }
      lbs.AddReplica();
      return Done;
    }

    /** `scaleDownVirtualMachines`, with the in-place sort of the listed VMs. */
    method ScaleDownVMs(lbs: LoadBalancerScope, live: seq<ListedVM>, d: DeleteOutcome) returns (result: PassResult)
      requires DistinctNames(Elements(Identities(live)))
      modifies this`vms, lbs`replicas
      ensures Pass(lbs.Resource(), vms, result)
           == ScaleDown(old(lbs.Resource()), old(vms), Elements(Identities(live)), d)
    {
      var target := lbs.Resource().OSVersion();
      var vmList := new VM[|live|](i requires 0 <= i < |live| => live[i].vm);
      ghost var listed := Elements(Identities(live));
      assert vmList[..] == Identities(live);
      var selected := SelectVirtualMachineForScaleDown(vmList, target);
      if selected.None? {
        assert listed == {};
        return Error;
      }
      assert Identities(live)[0] in listed;
      VictimIsUnique(selected.value, Victim(listed, target), listed, target);
      if d.Gone() {
        vms := vms - {selected.value};
      }
      if !d.Ok() {
        return Error;
      }
      lbs.RemoveReplica();
      return Done;
    }

    /** The surge loop of the upgrade. */
    method SurgeVMs(lbs: LoadBalancerScope, a: Answers) returns (result: PassResult)
      requires IsInt32(lbs.replicas)
      modifies this`vms, lbs`replicas
      ensures Pass(lbs.Resource(), vms, result) == Surge(old(lbs.Resource()), old(vms), a, 0)
    {
      var k := 0;
      while lbs.replicas < lbs.Resource().MaxReplicas()
        invariant IsInt32(lbs.replicas)
        invariant Surge(lbs.Resource(), vms, a, k) == Surge(old(lbs.Resource()), old(vms), a, 0)
        decreases lbs.Resource().MaxReplicas() - lbs.replicas
      {
        result := ScaleUpVMs(lbs, a.Create(k));
        if result.Error? {
          return;
        }
        k := k + 1;
      }
      return Done;
    }

    method SetReplicasCondition(lbs: LoadBalancerScope, reason: Reason)
      modifies lbs`replicasReady
      ensures lbs.Resource() == SetReplicasReady(old(lbs.Resource()), reason)
    {
      lbs.replicasReady := NotReady(reason, "");
    }

    /** The loop over the listed VMs that looks for a failed one. */
    method FindFailure(live: seq<ListedVM>) returns (c: Option<Condition>)
      ensures c.Some? <==> exists x :: x in live && x.running.Some? && x.running.value.status == StatusFalse
                                    && x.running.value.reason != NoReason
      ensures c.Some? ==> exists i :: 0 <= i < |live| && ReportsFailure(live[i]) && c == live[i].running
                                  && forall k :: 0 <= k < i ==> !ReportsFailure(live[k])
      ensures c == FirstFailure(live)
    {
      for i := 0 to |live|
        invariant FirstFailure(live[i..]) == FirstFailure(live)
        invariant forall k :: 0 <= k < i ==> !ReportsFailure(live[k])
      {
        assert live[i..][0] == live[i] && live[i..][1..] == live[i + 1..];
        if IsFalse(live[i].running) && live[i].running.value.reason != NoReason {
          return live[i].running;
        }
      }
      return None;
    }

    /** `reconcileVirtualMachines` */
    method ReconcileVirtualMachines(lbs: LoadBalancerScope, a: Answers) returns (result: PassResult)
      requires a.listOk ==> DistinctNames(Elements(Identities(Live(a.items))))
      modifies this`vms, lbs
      ensures Pass(lbs.Resource(), vms, result) == ReconcileVMs(old(lbs.Resource()), old(vms), a)
    {
      if !a.listOk {
        return Error;
      }
      var live := GetVirtualMachines(a);
      var failure := FindFailure(live);
      if failure.Some? {
        lbs.replicasReady := NotReady(failure.value.reason, failure.value.message);
        return Done;
      }
      UpdateStatus(lbs, live, a.statusRead);
      result := ActOn(lbs, live, a);
    }

    /** The decisions of `reconcileVirtualMachines` after the counters are updated. */
    method ActOn(lbs: LoadBalancerScope, live: seq<ListedVM>, a: Answers) returns (result: PassResult)
      requires IsInt32(lbs.replicas)
      requires DistinctNames(Elements(Identities(live)))
      modifies this`vms, lbs
      ensures Pass(lbs.Resource(), vms, result)
           == Act(old(lbs.Resource()), old(vms), Elements(Identities(live)), a)
    {
      if lbs.readyReplicas < lbs.replicas {
        if lbs.Resource().AreUpgrading() || lbs.Resource().AreScalingUp() {
          return RequeueAfter(60);
        }
        if !lbs.Resource().ScaleDownRequired() {
          SetReplicasCondition(lbs, WaitingForReplicasReady);
          return RequeueAfter(60);
        }
      }
      if lbs.Resource().ScaleUpRequired() {
        if !lbs.Resource().AreUpgrading() {
          SetReplicasCondition(lbs, ScalingUp);
        }
        result := ScaleUpVMs(lbs, a.Create(0));
        return if result.Error? then Error else RequeueAfter(60);
      }
      if lbs.Resource().ScaleDownRequired() {
        if !lbs.Resource().AreUpgrading() {
          SetReplicasCondition(lbs, ScalingDown);
        }
        result := ScaleDownVMs(lbs, live, a.delete);
        return if result.Error? then Error else RequeueAfter(20);
      }
      var upgrade := IsUpgradeRequired(lbs, live);
      if upgrade {
        SetReplicasCondition(lbs, Upgrading);
        result := SurgeVMs(lbs, a);
        return if result.Error? then Error else RequeueAfter(60);
      }
      if IsFalse(lbs.replicasReady) {
        lbs.replicasReady := Some(Condition(StatusTrue, AllReplicasReady, ""));
      }
      return Done;
    }

    /** `reconcileNormal` */
    method ReconcileNormally(lbs: LoadBalancerScope, a: Answers) returns (result: PassResult)
      requires a.listOk ==> DistinctNames(Elements(Identities(Live(a.items))))
      modifies this`vms, lbs
      ensures Pass(lbs.Resource(), vms, result) == ReconcileNormal(old(lbs.Resource()), old(vms), a)
    {
      lbs.finalizer := true;
      if !a.patchOk || lbs.specReplicas.None? {
        return Error;
      }
      result := ReconcileVirtualMachines(lbs, a);
      if result.Error? {
        lbs.infraReady := NotReady(MachineReconciliationFailed, a.errors.vms);
        return;
      }
      result := ReconcileLoadBalancerService(lbs, a, result);
    }

    /** The service and address part of `reconcileNormal`. */
    method ReconcileLoadBalancerService(lbs: LoadBalancerScope, a: Answers, vmResult: PassResult)
      returns (result: PassResult)
      modifies lbs
      ensures Pass(lbs.Resource(), vms, result)
           == ReconcileService(Pass(old(lbs.Resource()), vms, vmResult), a)
    {
      lbs.port := a.apiServerPort;
      match a.service {
        case ServiceOk =>
        case ServiceOutOfMemory(message) =>
          lbs.infraReady := NotReady(OutOfMemory, message);
          return Error;
        case ServiceOutOfCapacity(message) =>
          lbs.infraReady := NotReady(OutOfCapacity, message);
          return Error;
        case ServiceError(message) =>
          lbs.infraReady := NotReady(ServiceReconciliationFailed, message);
          return Error;
      }
      if lbs.address == "" {
        var ok := ReconcileServiceStatus(lbs, a.addressRead);
        if !ok {
          lbs.infraReady := NotReady(ServiceStatusFailed, a.errors.addressRead);
          return Error;
        }
        if lbs.address == "" {
          lbs.infraReady := NotReady(AddressUnavailable, "");
          return RequeueAfter(20);
        }
      }
      if lbs.replicas != 0 && lbs.readyReplicas < 1 {
        lbs.infraReady := NotReady(NoReplicasReady, "");
        return RequeueAfter(20);
      }
      if IsFalse(lbs.infraReady) {
        lbs.infraReady := Some(Condition(StatusTrue, InfrastructureReady, ""));
      }
      lbs.ready := true;
      return vmResult;
    }

    /** `reconcileDelete`, with the loop of `reconcileDeleteVirtualMachines`. */
    method ReconcileDeleted(lbs: LoadBalancerScope, a: Answers) returns (result: PassResult)
      modifies this`vms, lbs`finalizer, lbs`infraReady
      ensures Pass(lbs.Resource(), vms, result) == ReconcileDelete(old(lbs.Resource()), old(vms), a)
    {
      if a.serviceDelete.Some? {
        lbs.infraReady := NotReady(DeletionFailed, a.serviceDelete.value);
        return Error;
      }
      if !a.listOk {
        lbs.infraReady := NotReady(DeletionFailed, a.errors.vms);
        return Error;
      }
      var live := GetVirtualMachines(a);
      var listed := Identities(live);
      for k := 0 to |listed|
        invariant lbs.Resource() == old(lbs.Resource())
        invariant DeleteFrom(vms, listed, a, k) == DeleteFrom(old(vms), listed, a, 0)
      {
        if a.DeleteOf(k).Gone() {
          vms := vms - {listed[k]};
        }
        if !a.DeleteOf(k).Ok() {
          lbs.infraReady := NotReady(DeletionFailed, a.errors.vms);
          return Error;
        }
      }
      lbs.finalizer := false;
      lbs.infraReady := NotReady(LoadBalancerDeleting, "");
      return Done;
    }

    /** `reconcileStatus` */
    method SetStatus(lbs: LoadBalancerScope)
      modifies lbs
      ensures lbs.Resource() == ReconcileStatus(old(lbs.Resource()))
    {
      if lbs.selector == "" {
        lbs.selector := LOAD_BALANCER_LABEL + "=" + lbs.name;
      }
      if lbs.deleting {
        lbs.phase := Deleting;
        return;
      }
      if lbs.errorReason.Some? {
        lbs.phase := Failed;
        return;
      }
      if lbs.phase.NoPhase? {
        lbs.phase := Pending;
        return;
      }
      if IsFalse(lbs.replicasReady) {
        if ReasonOf(lbs.replicasReady) == FailedReplicas {
          lbs.infraReady := NotReady(FailedReplicas, lbs.replicasReady.value.message);
        }
        if lbs.Resource().AreUpgrading() {
          lbs.phase := UpgradingPhase;
          return;
        }
        lbs.phase := Provisioning;
        return;
      }
      if IsFalse(lbs.infraReady) {
        lbs.phase := Provisioning;
        return;
      }
      lbs.phase := Provisioned;
    }

    /** `Reconcile`: load, branch on the deletion timestamp, set the status, persist. */
    method ReconcileResource(lb: LB, a: Answers) returns (persisted: LB, result: PassResult)
      requires a.listOk ==> DistinctNames(Elements(Identities(Live(a.items))))
      modifies this
      ensures Pass(persisted, vms, result) == Reconcile(lb, old(vms), a)
    {
      var lbs := new LoadBalancerScope(lb);
      if lbs.deleting {
        result := ReconcileDeleted(lbs, a);
      } else {
        result := ReconcileNormally(lbs, a);
      }
      SetStatus(lbs);
      persisted := Persist(lb, lbs.Resource(), a);
    }
  }
}
