/** What a reconcile leaves of the resource, field by field, told from the replicas, the decision and the answers
    alone: how far the pass got, then the counts, the address, the conditions, the phase and the result. */
module ReplicaStatus {
  import opened Basics
  import opened VirtualMachineOrder
  import opened LoadBalancer
  import opened ReplicaSafety
  import opened LoadBalancerRuns

  // ----- how far a pass gets -----

  /** It stops before the VMs; it cannot list them; one of them reports a failure; or it decides, and the call the
      decision makes succeeds or fails. */
  datatype Exit = Blind | ListFailed | VMFailed | Acted(decision: Decision, ok: bool)

  ghost function ExitOf(lb: LB, vms: set<VM>, a: Answers): Exit {
    if !Looks(lb, a) then Blind
    else if !a.listOk then ListFailed
    else if exists i :: 0 <= i < |a.items| && !a.items[i].deleting && ReportsFailure(a.items[i]) then VMFailed
    else Acted(DecisionOf(lb, vms, a), CallSucceeds(lb, vms, a))
  }

  /** The call that the decision makes, if it makes one, succeeds. */
  predicate CallOk(d: Decision, desired: int, vms: set<VM>, a: Answers) {
    match d
    case AddReplica => a.Create(0).ok
    case Upgrade => desired == INT32_MAX || a.Create(0).ok
    case RemoveReplica => vms != {} && !a.delete.update.CallFailed? && !a.delete.delete.CallFailed?
    case _ => true
  }

  ghost predicate CallSucceeds(lb: LB, vms: set<VM>, a: Answers) {
    CallOk(DecisionOf(lb, vms, a), lb.Desired(), vms, a)
  }

  /** How many replicas a successful call leaves of `n`. */
  function CountAfter(d: Decision, desired: int, n: int): int {
    match d
    case AddReplica => n + 1
    case Upgrade => if desired < INT32_MAX then n + 1 else n
    case RemoveReplica => n - 1
    case _ => n
  }

  /** The result of the VM part, if it is no error. */
  function VMResult(exit: Exit): PassResult {
    if !exit.Acted? || exit.decision.Settled? then Done
    else if exit.decision.RemoveReplica? then RequeueAfter(20)
    else RequeueAfter(60)
  }

  /** A VM reports a failure exactly when one of the filtered list does. */
  lemma FailureByIndex(items: seq<ListedVM>)
    ensures FirstFailure(Live(items)).Some? <==>
              exists i :: 0 <= i < |items| && !items[i].deleting && ReportsFailure(items[i])
  {
    if i: nat :| i < |items| && !items[i].deleting && ReportsFailure(items[i]) { KeptAt(items, i); }
    if x :| x in Live(items) && ReportsFailure(x) {
      var i := CameFrom(items, x);
    }
  }

  lemma KeptAt(items: seq<ListedVM>, i: nat)
    requires i < |items| && !items[i].deleting
    ensures items[i] in Live(items)
  {
    var at := LiveByIndex(items);
    var k :| 0 <= k < |at| && at[k] == i;
    assert Live(items)[k] == items[i];
  }

  lemma CameFrom(items: seq<ListedVM>, x: ListedVM) returns (i: nat)
    requires x in Live(items)
    ensures i < |items| && items[i] == x && !x.deleting
  {
    var at := LiveByIndex(items);
    var k :| 0 <= k < |at| && Live(items)[k] == x;
    i := at[k];
  }

  /** The pass gets to the service. */
  predicate Serviced(exit: Exit) {
    exit.VMFailed? || (exit.Acted? && exit.ok)
  }

  // ----- the fields -----

  /** The counter follows the replica set, unless a call failed. */
  ghost function ReplicasAfter(lb: LB, vms: set<VM>, a: Answers): int {
    var exit := ExitOf(lb, vms, a);
    if !exit.Acted? then lb.replicas else if exit.ok then |VMsAfter(lb, vms, a)| else |vms|
  }

  ghost function FailedAfter(lb: LB, vms: set<VM>, a: Answers): int {
    if ExitOf(lb, vms, a).Acted? then |FailedAt(Live(a.items))| else lb.failedReplicas
  }

  /** The address before the service part: a known one, or what the first read brought. */
  ghost function AddressKnown(lb: LB, vms: set<VM>, a: Answers): string {
    if lb.address == "" && ExitOf(lb, vms, a).Acted? && a.statusRead.Some? then a.statusRead.value.address
    else lb.address
  }

  /** The service is read again, for want of an address, and answers. */
  ghost predicate ReadsAgain(lb: LB, vms: set<VM>, a: Answers) {
    Serviced(ExitOf(lb, vms, a)) && a.service.ServiceOk? && AddressKnown(lb, vms, a) == "" && a.addressRead.Some?
  }

  ghost function AddressAfter(lb: LB, vms: set<VM>, a: Answers): string {
    if ReadsAgain(lb, vms, a) then a.addressRead.value.address else AddressKnown(lb, vms, a)
  }

  ghost function ReadyReplicasAfter(lb: LB, vms: set<VM>, a: Answers): int {
    if ReadsAgain(lb, vms, a) then a.addressRead.value.replicationCount
    else if ExitOf(lb, vms, a).Acted? then ObservedReady(lb, a)
    else lb.readyReplicas
  }

  /** The pass gets past the service, the address and the gate on a ready replica. */
  ghost predicate GetsThrough(lb: LB, vms: set<VM>, a: Answers) {
    && Serviced(ExitOf(lb, vms, a)) && a.service.ServiceOk? && AddressAfter(lb, vms, a) != ""
    && (ReplicasAfter(lb, vms, a) == 0 || ReadyReplicasAfter(lb, vms, a) >= 1)
  }

  /** The infrastructure condition the pass comes to, before the status is set. */
  ghost function InfraReached(lb: LB, vms: set<VM>, a: Answers): Option<Condition> {
    var exit := ExitOf(lb, vms, a);
    if exit.Blind? then lb.infraReady
    else if !Serviced(exit) then NotReady(MachineReconciliationFailed, a.errors.vms)
    else
      match a.service
      case ServiceOutOfMemory(message) => NotReady(OutOfMemory, message)
      case ServiceOutOfCapacity(message) => NotReady(OutOfCapacity, message)
      case ServiceError(message) => NotReady(ServiceReconciliationFailed, message)
      case ServiceOk =>
        if GetsThrough(lb, vms, a) then
          (if IsFalse(lb.infraReady) then Some(Condition(StatusTrue, InfrastructureReady, "")) else lb.infraReady)
        else if AddressAfter(lb, vms, a) != "" then NotReady(NoReplicasReady, "")
        else if AddressKnown(lb, vms, a) == "" && a.addressRead.None? then
          NotReady(ServiceStatusFailed, a.errors.addressRead)
        else NotReady(AddressUnavailable, "")
  }

  /** When to come back: after 60 seconds for replicas to become ready, 20 for a deletion, an address or a first
      ready replica, at once on an error, and not at all when all is done. */
  ghost function ResultAfter(lb: LB, vms: set<VM>, a: Answers): PassResult {
    var exit := ExitOf(lb, vms, a);
    if !Serviced(exit) || !a.service.ServiceOk? then Error
    else if AddressKnown(lb, vms, a) == "" && a.addressRead.None? then Error
    else if !GetsThrough(lb, vms, a) then RequeueAfter(20)
    else if exit.VMFailed? || exit.decision.Settled? then Done
    else if exit.decision.RemoveReplica? then RequeueAfter(20)
    else RequeueAfter(60)
  }

  // ----- proofs -----

  /** The decisions, each by its own guards. */
  lemma DecisionMeans(lb: LB, vms: set<VM>, a: Answers)
    ensures var d, n, ready := DecisionOf(lb, vms, a), |vms|, ObservedReady(lb, a);
      var underWay := ReasonOf(lb.replicasReady) == Upgrading || ReasonOf(lb.replicasReady) == ScalingUp;
      var desired := match lb.specReplicas case Some(count) => count case None => 0;
      var target := match lb.imageVersion case Some(version) => version case None => "";
      var outdated := exists v :: v in vms && v.version != target;
      && (d.KeepWaiting? <==> ready < n && underWay)
      && (d.WaitForReady? <==> ready < n && !underWay && n <= desired)
      && (d.AddReplica? <==> n < desired && n <= ready)
      && (d.RemoveReplica? <==> n > desired && (n <= ready || !underWay))
      && (d.Upgrade? <==> n == desired && n <= ready && outdated)
      && (d.Settled? <==> n == desired && n <= ready && !outdated)
  {
    if v :| v in vms && v.version != lb.OSVersion() { assert v in Outdated(vms, lb.OSVersion()); }
  }

  lemma UpgradeCounts(lb: LB, vms: set<VM>, a: Answers)
    requires lb.replicas == |vms| <= INT32_MAX && IsInt32(lb.Desired())
    requires Decide(lb, Outdated(vms, lb.OSVersion()) != {}).Upgrade?
    ensures var p, ok := Act(lb, vms, vms, a), CallOk(Upgrade, lb.Desired(), vms, a);
      && p.lb.replicas == (if ok then CountAfter(Upgrade, lb.Desired(), |vms|) else |vms|)
      && p.result == (if ok then RequeueAfter(60) else Error)
  {
    SurgeIsOneCreate(SetReplicasReady(lb, Upgrading), vms, a);
  }

  /** The counter and the result of the call a decision makes. */
  lemma ActCounts(lb: LB, vms: set<VM>, a: Answers)
    requires lb.replicas == |vms| <= INT32_MAX && IsInt32(lb.Desired())
    ensures var p, d := Act(lb, vms, vms, a), Decide(lb, Outdated(vms, lb.OSVersion()) != {});
      var ok := CallOk(d, lb.Desired(), vms, a);
      && p.lb.replicas == (if ok then CountAfter(d, lb.Desired(), |vms|) else |vms|)
      && p.result == (if ok then VMResult(Acted(d, ok)) else Error)
  {
    if Decide(lb, Outdated(vms, lb.OSVersion()) != {}).Upgrade? { UpgradeCounts(lb, vms, a); }
  }

  lemma CreatedSize(lb: LB, vms: set<VM>, a: Answers)
    requires FreshCreates(a, vms) && DistinctNames(vms) && a.Create(0).ok
    ensures |WithCreated(lb, vms, a)| == |vms| + 1
  {
    CreatedGrows(lb, vms, a);
  }

  /** After a create or delete that succeeded, the replica set has changed by one. */
  lemma AfterSize(lb: LB, vms: set<VM>, a: Answers)
    requires Faithful(lb, vms, a) && Decides(lb, a) && CallSucceeds(lb, vms, a)
    ensures |VMsAfter(lb, vms, a)| == CountAfter(DecisionOf(lb, vms, a), lb.Desired(), |vms|)
  {
    match DecisionOf(lb, vms, a)
    case AddReplica => CreatedSize(lb, vms, a);
    case Upgrade => if lb.Desired() < INT32_MAX { CreatedSize(lb, vms, a); }
    case _ =>
  }

  /** The victim goes exactly when its update did not fail, with not-found counting as success, and its delete did
      not or took effect all the same. */
  lemma RemovalExactly(lb: LB, vms: set<VM>, a: Answers)
    requires Decides(lb, a) && DecisionOf(lb, vms, a).RemoveReplica? && vms != {}
    ensures VMsAfter(lb, vms, a) == vms - {Victim(vms, lb.OSVersion())} <==>
              !a.delete.update.CallFailed? && (!a.delete.delete.CallFailed? || a.delete.effect)
  {
    assert Victim(vms, lb.OSVersion()) in vms;
  }

  lemma ExitMeans(lb: LB, vms: set<VM>, a: Answers)
    requires !lb.deleting
    ensures Decides(lb, a) <==> ExitOf(lb, vms, a).Acted?
    ensures Looks(lb, a) && a.listOk ==> (FirstFailure(Live(a.items)).Some? <==> ExitOf(lb, vms, a).VMFailed?)
  {
    FailureByIndex(a.items);
  }

  /** The resource the VM part hands on to the service part, and its result. */
  ghost predicate VMPartLeaves(lb: LB, vms: set<VM>, a: Answers, p: Pass) {
    var exit := ExitOf(lb, vms, a);
    && p.lb == lb.(finalizer := true, replicas := ReplicasAfter(lb, vms, a), failedReplicas := FailedAfter(lb, vms, a),
                   readyReplicas := if exit.Acted? then ObservedReady(lb, a) else lb.readyReplicas,
                   address := AddressKnown(lb, vms, a), replicasReady := ConditionAfter(lb, vms, a))
    && p.result == (if Serviced(exit) then VMResult(exit) else Error)
  }

  lemma ActedCounts(lb: LB, vms: set<VM>, a: Answers)
    requires Faithful(lb, vms, a) && Decides(lb, a) && IsInt32(Observed(lb, a).replicas)
    ensures var p, exit := Act(Observed(lb, a), vms, vms, a), ExitOf(lb, vms, a);
      && p.lb.replicas == ReplicasAfter(lb, vms, a)
      && p.result == (if Serviced(exit) then VMResult(exit) else Error)
  {
    ExitMeans(lb, vms, a);
    ObservedFields(lb, vms, a);
    ActCounts(Observed(lb, a), vms, a);
    if CallSucceeds(lb, vms, a) { AfterSize(lb, vms, a); }
  }

  lemma ActedRest(lb: LB, vms: set<VM>, a: Answers)
    requires Faithful(lb, vms, a) && Decides(lb, a) && IsInt32(Observed(lb, a).replicas)
    ensures var lb' := Act(Observed(lb, a), vms, vms, a).lb;
      lb' == lb.(finalizer := true, replicas := lb'.replicas, failedReplicas := FailedAfter(lb, vms, a),
                 readyReplicas := ObservedReady(lb, a), address := AddressKnown(lb, vms, a),
                 replicasReady := lb'.replicasReady)
  {
    ExitMeans(lb, vms, a);
    FailedFits(lb, vms, a);
    ActOnlyReplicas(Observed(lb, a), vms, vms, a);
  }

  lemma ActedPart(lb: LB, vms: set<VM>, a: Answers)
    requires Faithful(lb, vms, a) && Decides(lb, a)
    ensures VMPartLeaves(lb, vms, a, ReconcileVMs(lb.(finalizer := true), vms, a))
  {
    var p := ReconcileVMs(lb.(finalizer := true), vms, a);
    FaithfulList(lb, vms, a);
    assert p == Act(Observed(lb, a), vms, vms, a);
    ActedCounts(lb, vms, a);
    ActedRest(lb, vms, a);
    VMsCondition(lb, vms, a);
    ExitMeans(lb, vms, a);
  }

  lemma FailedFits(lb: LB, vms: set<VM>, a: Answers)
    requires Faithful(lb, vms, a) && a.listOk
    ensures WrapInt32(FailedCount(Live(a.items))) == |FailedAt(Live(a.items))|
  {
    FaithfulList(lb, vms, a);
    FailedCountIsSize(Live(a.items));
    FailedBound(Live(a.items));
  }

  lemma {:induction false} FailedBound(live: seq<ListedVM>)
    ensures FailedCount(live) <= |live|
  {
    if live != [] { FailedBound(live[..|live| - 1]); }
  }

  lemma VMPart(lb: LB, vms: set<VM>, a: Answers)
    requires !lb.deleting && Faithful(lb, vms, a) && Looks(lb, a)
    ensures VMPartLeaves(lb, vms, a, ReconcileVMs(lb.(finalizer := true), vms, a))
  {
    ExitMeans(lb, vms, a);
    if Decides(lb, a) { ActedPart(lb, vms, a); }
  }

  // ----- the service part and the close -----

  /** The resource in memory at the end of a pass that looks. */
  ghost predicate PassLeaves(lb: LB, vms: set<VM>, a: Answers, p: Pass) {
    var exit := ExitOf(lb, vms, a);
    && p.lb == lb.(finalizer := true, replicas := ReplicasAfter(lb, vms, a), failedReplicas := FailedAfter(lb, vms, a),
                   readyReplicas := ReadyReplicasAfter(lb, vms, a), address := AddressAfter(lb, vms, a),
                   port := if Serviced(exit) then a.apiServerPort else lb.port,
                   ready := lb.ready || GetsThrough(lb, vms, a),
                   replicasReady := ConditionAfter(lb, vms, a), infraReady := InfraReached(lb, vms, a))
    && p.result == ResultAfter(lb, vms, a)
  }

  lemma ServicePart(lb: LB, vms: set<VM>, a: Answers, p: Pass)
    requires VMPartLeaves(lb, vms, a, p) && Serviced(ExitOf(lb, vms, a))
    ensures PassLeaves(lb, vms, a, ReconcileService(p, a))
  {
  }

  /** What a pass leaves in memory. */
  lemma NormalPass(lb: LB, vms: set<VM>, a: Answers)
    requires !lb.deleting && Faithful(lb, vms, a)
    ensures PassLeaves(lb, vms, a, ReconcileNormal(lb, vms, a))
  {
    if Looks(lb, a) {
      VMPart(lb, vms, a);
      var p := ReconcileVMs(lb.(finalizer := true), vms, a);
      if Serviced(ExitOf(lb, vms, a)) { ServicePart(lb, vms, a, p); }
    }
  }

  /** Failed replicas, as a condition left from before may say, show in the infrastructure condition too. */
  ghost function InfraPersisted(lb: LB, vms: set<VM>, a: Answers): Option<Condition> {
    var c := ConditionAfter(lb, vms, a);
    if lb.errorReason.None? && !lb.phase.NoPhase? && c.Some? && c.value.status == StatusFalse
       && c.value.reason == FailedReplicas
    then NotReady(FailedReplicas, c.value.message)
    else InfraReached(lb, vms, a)
  }

  /** The resource in memory when the close begins. */
  lemma BeforeClose(lb: LB, vms: set<VM>, a: Answers)
    requires !lb.deleting && Faithful(lb, vms, a)
    ensures var after := ReconcileStatus(ReconcileNormal(lb, vms, a).lb);
      after == lb.(
        finalizer := true, replicasReady := ConditionAfter(lb, vms, a), infraReady := InfraPersisted(lb, vms, a),
        ready := lb.ready || GetsThrough(lb, vms, a), replicas := ReplicasAfter(lb, vms, a),
        readyReplicas := ReadyReplicasAfter(lb, vms, a), failedReplicas := FailedAfter(lb, vms, a),
        address := AddressAfter(lb, vms, a), port := if Serviced(ExitOf(lb, vms, a)) then a.apiServerPort else lb.port,
        selector := if lb.selector == "" then "msft.microsoft/load-balancer=" + lb.name else lb.selector,
        phase := after.phase)
    ensures ReconcileNormal(lb, vms, a).result == ResultAfter(lb, vms, a)
  {
    NormalPass(lb, vms, a);
  }

  /** What a reconcile of a resource that is not being deleted persists, field by field, and its result. The phase is
      in `PhaseExactly`. */
  lemma PersistedResource(lb: LB, vms: set<VM>, a: Answers)
    requires !lb.deleting && Faithful(lb, vms, a)
    ensures var lb' := Reconcile(lb, vms, a).lb;
      lb' == lb.(
        finalizer := lb.finalizer || a.patchOk || a.close.objectOk,
        replicasReady := if a.close.conditionsOk then ConditionAfter(lb, vms, a) else lb.replicasReady,
        infraReady := if a.close.conditionsOk then InfraPersisted(lb, vms, a) else lb.infraReady,
        ready := if a.close.statusOk then lb.ready || GetsThrough(lb, vms, a) else lb.ready,
        replicas := if a.close.statusOk then ReplicasAfter(lb, vms, a) else lb.replicas,
        readyReplicas := if a.close.statusOk then ReadyReplicasAfter(lb, vms, a) else lb.readyReplicas,
        failedReplicas := if a.close.statusOk then FailedAfter(lb, vms, a) else lb.failedReplicas,
        address := if a.close.statusOk then AddressAfter(lb, vms, a) else lb.address,
        port := if a.close.statusOk && Serviced(ExitOf(lb, vms, a)) then a.apiServerPort else lb.port,
        selector := if a.close.statusOk && lb.selector == "" then "msft.microsoft/load-balancer=" + lb.name
                    else lb.selector,
        phase := if a.close.statusOk then lb'.phase else lb.phase)
    ensures Reconcile(lb, vms, a).result == ResultAfter(lb, vms, a)
  {
    BeforeClose(lb, vms, a);
  }

  // ----- phases -----

  predicate FalseWith(c: Option<Condition>, reason: Reason) {
    c.Some? && c.value.status == StatusFalse && c.value.reason == reason
  }

  predicate FalseWithOther(c: Option<Condition>, reason: Reason) {
    c.Some? && c.value.status == StatusFalse && c.value.reason != reason
  }

  /** A resource past its first phase, without terminal error, that is not being deleted. */
  predicate UnderWay(lb: LB) {
    !lb.deleting && lb.errorReason.None? && !lb.phase.NoPhase?
  }

  lemma PhaseOfNormal(lb: LB, vms: set<VM>, a: Answers)
    requires !lb.deleting && Faithful(lb, vms, a) && a.close.statusOk
    ensures var phase, c, infra := Reconcile(lb, vms, a).lb.phase, ConditionAfter(lb, vms, a), InfraReached(lb, vms, a);
      && (phase.Failed? <==> lb.errorReason.Some?)
      && (phase.Pending? <==> lb.errorReason.None? && lb.phase.NoPhase?)
      && (phase.UpgradingPhase? <==> UnderWay(lb) && FalseWith(c, Upgrading))
      && (phase.Provisioning? <==>
            && UnderWay(lb) && !FalseWith(c, Upgrading)
            && (FalseWithOther(c, Upgrading) || (infra.Some? && infra.value.status == StatusFalse)))
      && !phase.Deleting? && !phase.NoPhase?
  {
    NormalPass(lb, vms, a);
  }

  lemma PhaseOfDeleted(lb: LB, vms: set<VM>, a: Answers)
    requires a.close.statusOk
    ensures Reconcile(lb, vms, a).lb.phase.Deleting? <==> lb.deleting
  {
    if lb.deleting {
      ReconcileDeleteFrame(lb, vms, a);
    } else {
      ReconcileNormalKeepsDeleting(lb, vms, a);
    }
  }

  lemma ReconcileNormalKeepsDeleting(lb: LB, vms: set<VM>, a: Answers)
    requires !lb.deleting
    ensures !ReconcileNormal(lb, vms, a).lb.deleting
  {
    var lb0 := lb.(finalizer := true);
    if a.listOk && FirstFailure(Live(a.items)).None? {
      var live := Live(a.items);
      ActOnlyReplicas(UpdateReplicaStatus(lb0, live, a.statusRead), vms, Elements(Identities(live)), a);
    }
  }

  /** The pass leaves the replicas condition false with reason `Upgrading`: it starts a surge, or goes on with an
      upgrade it remembers, or does not get to decide. */
  ghost predicate LeavesUpgrading(lb: LB, vms: set<VM>, a: Answers) {
    var remembered := ReasonOf(lb.replicasReady) == Upgrading;
    match ExitOf(lb, vms, a)
    case Acted(d, _) => d.Upgrade? || (remembered && (d.KeepWaiting? || d.AddReplica? || d.RemoveReplica?))
    case VMFailed => var f := FirstFailure(Live(a.items)); f.Some? && f.value.reason == Upgrading
    case _ => remembered
  }

  lemma UpgradingLeft(lb: LB, vms: set<VM>, a: Answers)
    requires !lb.deleting && ConditionInv(lb)
    ensures FalseWith(ConditionAfter(lb, vms, a), Upgrading) <==> LeavesUpgrading(lb, vms, a)
  {
    ExitMeans(lb, vms, a);
    DecisionMeans(lb, vms, a);
  }

  /** The phases of a pass that persists its status, each by its own guards. */
  ghost predicate PhaseIs(lb: LB, vms: set<VM>, a: Answers, phase: Phase) {
    var provisioned := if Looks(lb, a) then Settles(lb, vms, a) && PassesGates(lb, vms, a)
                       else !IsFalse(lb.replicasReady) && !IsFalse(lb.infraReady);
    && (phase.Deleting? <==> lb.deleting)
    && (phase.Failed? <==> !lb.deleting && lb.errorReason.Some?)
    && (phase.Pending? <==> !lb.deleting && lb.errorReason.None? && lb.phase.NoPhase?)
    && (phase.UpgradingPhase? <==> UnderWay(lb) && LeavesUpgrading(lb, vms, a))
    && (phase.Provisioned? <==> UnderWay(lb) && provisioned)
    && (phase.Provisioning? <==> UnderWay(lb) && !LeavesUpgrading(lb, vms, a) && !provisioned)
  }

  lemma PhaseStep(w: World, a: Answers)
    requires WellFormed(w) && ConditionInv(w.lb) && Allowed(w, Reconciled(a)) && a.close.statusOk
    ensures PhaseIs(w.lb, w.vms, a, Next(w, Reconciled(a)).lb.phase)
  {
    PhaseOfDeleted(w.lb, w.vms, a);
    if !w.lb.deleting {
      PhaseOfNormal(w.lb, w.vms, a);
      UpgradingLeft(w.lb, w.vms, a);
      if Looks(w.lb, a) { ProvisionedStep(w, a); } else { BlindPhase(w, a); }
    }
  }

  /** Every phase, in every run: exactly when a pass persists it. In particular a pass that starts a surge persists
      `upgrading`, and one that scales up outside an upgrade `provisioning`. */
  lemma PhaseExactly(w: World, es: seq<Event>, a: Answers)
    requires Fresh(w) && ValidRun(w, es + [Reconciled(a)]) && a.close.statusOk
    ensures var m, phase := Run(w, es), Run(w, es + [Reconciled(a)]).lb.phase;
      var exit := ExitOf(m.lb, m.vms, a);
      && PhaseIs(m.lb, m.vms, a, phase)
      && (UnderWay(m.lb) && exit.Acted? && exit.decision.Upgrade? ==> phase.UpgradingPhase?)
      && (UnderWay(m.lb) && exit.Acted? && exit.decision.AddReplica? && ReasonOf(m.lb.replicasReady) != Upgrading ==>
            phase.Provisioning?)
  {
    RunSnoc(w, es, Reconciled(a));
    RunWellFormed(w, es);
    RunKeepsConditionInv(w, es);
    PhaseStep(Run(w, es), a);
    if !Run(w, es).lb.deleting {
      ExitMeans(Run(w, es).lb, Run(w, es).vms, a);
      DecisionMeans(Run(w, es).lb, Run(w, es).vms, a);
    }
  }

  /** A condition that is not there is not false: a pass that looks at nothing reports a resource without
      conditions, past its first phase, as provisioned. */
  lemma AbsentIsNotFalse(w: World, a: Answers)
    requires UnderWay(w.lb) && a.close.statusOk && !Looks(w.lb, a)
    requires w.lb.replicasReady.None? && w.lb.infraReady.None?
    ensures Next(w, Reconciled(a)).lb.phase.Provisioned?
  {
    BlindPhase(w, a);
  }

  // ----- deletion -----

  predicate DeleteOk(a: Answers, k: nat) {
    !a.DeleteOf(k).update.CallFailed? && !a.DeleteOf(k).delete.CallFailed?
  }

  predicate DeleteTakesEffect(a: Answers, k: nat) {
    !a.DeleteOf(k).update.CallFailed? && (!a.DeleteOf(k).delete.CallFailed? || a.DeleteOf(k).effect)
  }

  /** The service and every listed VM are deleted, not-found counting as deleted. */
  ghost predicate DeletesAll(a: Answers) {
    a.serviceDelete.None? && a.listOk && forall k :: 0 <= k < |Live(a.items)| ==> DeleteOk(a, k)
  }

  /** Some delete from number `k` on that the loop gets to takes `v` away. */
  ghost predicate Deleted(listed: seq<VM>, a: Answers, k: nat, v: VM) {
    exists i :: k <= i < |listed| && listed[i] == v && DeleteTakesEffect(a, i)
             && forall j :: k <= j < i ==> DeleteOk(a, j)
  }

  lemma DeletedSplit(listed: seq<VM>, a: Answers, k: nat, v: VM)
    requires k < |listed|
    ensures Deleted(listed, a, k, v) <==>
              (v == listed[k] && DeleteTakesEffect(a, k)) || (DeleteOk(a, k) && Deleted(listed, a, k + 1, v))
  {
    if DeleteOk(a, k) && Deleted(listed, a, k + 1, v) {
      var i :| k + 1 <= i < |listed| && listed[i] == v && DeleteTakesEffect(a, i)
            && forall j :: k + 1 <= j < i ==> DeleteOk(a, j);
      assert forall j :: k <= j < i ==> DeleteOk(a, j);
    }
    if Deleted(listed, a, k, v) {
      var i :| k <= i < |listed| && listed[i] == v && DeleteTakesEffect(a, i)
            && forall j :: k <= j < i ==> DeleteOk(a, j);
      if i > k { assert DeleteOk(a, k); }
    }
  }

  lemma {:induction false} DeleteFromExactly(vms: set<VM>, listed: seq<VM>, a: Answers, k: nat)
    requires k <= |listed|
    ensures var (vms', ok) := DeleteFrom(vms, listed, a, k);
      && (ok <==> forall i :: k <= i < |listed| ==> DeleteOk(a, i))
      && (forall v :: v in vms' <==> v in vms && !Deleted(listed, a, k, v))
    decreases |listed| - k
  {
    if k < |listed| {
      var vms1 := if a.DeleteOf(k).Gone() then vms - {listed[k]} else vms;
      if a.DeleteOf(k).Ok() {
        DeleteFromExactly(vms1, listed, a, k + 1);
        forall v ensures Deleted(listed, a, k, v) <==> v == listed[k] || Deleted(listed, a, k + 1, v) {
          DeletedSplit(listed, a, k, v);
        }
      } else {
        assert !DeleteOk(a, k);
        forall v ensures Deleted(listed, a, k, v) <==> v == listed[k] && DeleteTakesEffect(a, k) {
          DeletedSplit(listed, a, k, v);
        }
      }
    }
  }

  ghost function DeletionCondition(a: Answers): Option<Condition> {
    if DeletesAll(a) then NotReady(LoadBalancerDeleting, "")
    else NotReady(DeletionFailed, if a.serviceDelete.Some? then a.serviceDelete.value else a.errors.vms)
  }

  lemma DeletePass(lb: LB, vms: set<VM>, a: Answers)
    ensures var p := ReconcileDelete(lb, vms, a);
      && p.lb == lb.(finalizer := lb.finalizer && !DeletesAll(a), infraReady := DeletionCondition(a))
      && p.result == (if DeletesAll(a) then Done else Error)
      && (a.serviceDelete.Some? || !a.listOk ==> p.vms == vms)
      && (a.serviceDelete.None? && a.listOk ==>
            forall v :: v in p.vms <==> v in vms && !Deleted(Identities(Live(a.items)), a, 0, v))
  {
    DeleteFromExactly(vms, Identities(Live(a.items)), a, 0);
  }

  /** What a reconcile of a resource being deleted persists, leaves of the replicas and returns: the finalizer goes
      exactly when everything is deleted and the patch of it succeeds. */
  lemma PersistedDeletion(lb: LB, vms: set<VM>, a: Answers)
    requires lb.deleting
    ensures var lb' := Reconcile(lb, vms, a).lb;
      lb' == lb.(
        finalizer := lb.finalizer && !(a.close.objectOk && DeletesAll(a)),
        infraReady := if a.close.conditionsOk then DeletionCondition(a) else lb.infraReady,
        selector := if a.close.statusOk && lb.selector == "" then "msft.microsoft/load-balancer=" + lb.name
                    else lb.selector,
        phase := if a.close.statusOk then Deleting else lb.phase)
    ensures Reconcile(lb, vms, a).result == if DeletesAll(a) then Done else Error
    ensures var vms' := Reconcile(lb, vms, a).vms;
      if a.serviceDelete.Some? || !a.listOk then vms' == vms
      else forall v :: v in vms' <==> v in vms && !Deleted(Identities(Live(a.items)), a, 0, v)
  {
    DeletePass(lb, vms, a);
  }
}
