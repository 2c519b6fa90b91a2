/** The status the cluster controller reports: provisioning never goes back, the phase only moves
    forward, the endpoint is written once, and what of the status survives a trip through v1beta1. */
module ClusterController {
  import opened Basics
  import opened ApiCommon
  import opened V1Beta2
  import opened ConditionList
  import Conversion

  const NETWORK_READY := "NetworkInfrastructureReady"
  const PHASE_PENDING := "pending"
  const PHASE_PROVISIONING := "provisioning"
  const PHASE_PROVISIONED := "provisioned"
  const PHASE_DELETING := "deleting"

  datatype Endpoint = Endpoint(host: string, port: int)

  /** The AzureStackHCICluster as far as its status and endpoint go. */
  datatype Cluster = Cluster(deleting: bool, status: ClusterStatus, endpoint: Endpoint)

  /** A failed step: the reason and message of the condition it sets. */
  datatype Failure = Failure(reason: string, message: string)

  /** What creating or updating the load balancer resource returned: an error, or the resource with
      its infrastructure condition, if it has one, and its address. */
  datatype LBAnswer =
    | LBNotWanted
    | LBError(failure: Failure)
    | LBFound(infra: Option<(ConditionStatus, Failure)>, address: string)

  /** The answers of the calls of the delete branch, in order: the list of machines or its error, the error of
      deleting the orphans among them, a failed Get of the load balancer, the error of its update or delete,
      whether it is still found, and the error of deleting the services. */
  datatype Deletion = Deletion(
    listError: Option<string>, machines: nat, orphanError: Option<string>, lbGetFailed: bool, lbError: Option<string>,
    lbFound: bool, servicesError: Option<string>)

  /** The answers of one reconcile. */
  datatype Answers = Answers(
    patchOk: bool, services: Option<Failure>, lb: LBAnswer, apiServerPort: int, deletion: Deletion, clock: int,
    close: CloseOutcome)

  function NotReady(st: ClusterStatus, f: Failure, clock: int): ClusterStatus {
    st.(conditions := Set(st.conditions, Condition(NETWORK_READY, ConditionFalse, 0, clock, f.reason, f.message)))
  }

  function SetTrue(st: ClusterStatus, kind: string, clock: int): ClusterStatus {
    st.(conditions := Set(st.conditions, Condition(kind, ConditionTrue, 0, clock, "InfrastructureReady", "")))
  }

  /** The end of `reconcileNormal`: mark provisioned and set both conditions. */
  function Provisioned(st: ClusterStatus, clock: int): ClusterStatus {
    SetTrue(SetTrue(st.(initialization := PROVISIONED), NETWORK_READY, clock), Conversion.READY, clock)
  }

  function ReconcileNormal(c: Cluster, a: Answers): Cluster {
    if !a.patchOk then c
    else if a.services.Some? then c.(status := NotReady(c.status, a.services.value, a.clock))
    else
      match a.lb
      case LBNotWanted => c.(status := Provisioned(c.status, a.clock))
      case LBError(f) => c.(status := NotReady(c.status, f, a.clock))
      case LBFound(infra, address) =>
        if infra.Some? && infra.value.0.ConditionFalse? then
          c.(status := NotReady(c.status, infra.value.1, a.clock))
        else
          c.(endpoint := if address != "" then Endpoint(address, a.apiServerPort) else c.endpoint,
             status := Provisioned(c.status, a.clock))
  }

  const DELETION_FAILED := "DeletionFailed"
  const MACHINES_DELETING := "AzureStackHCIMachineDeleting"
  const LOAD_BALANCER_DELETING := "LoadBalancerDeleting"

  /** What the delete branch reports beyond "Deleted": where it failed or what it waits for. A failed Get of the
      load balancer is not reported. */
  function Report(d: Deletion): Option<Failure> {
    var failed := (error: Option<string>) requires error.Some? => Some(Failure(DELETION_FAILED, error.value));
    if d.listError.Some? then failed(d.listError)
    else if d.machines > 0 then
      (if d.orphanError.Some? then failed(d.orphanError) else Some(Failure(MACHINES_DELETING, "")))
    else if d.lbGetFailed then None
    else if d.lbError.Some? then failed(d.lbError)
    else if d.lbFound then Some(Failure(LOAD_BALANCER_DELETING, ""))
    else if d.servicesError.Some? then failed(d.servicesError)
    else None
  }

  function ReconcileDelete(c: Cluster, a: Answers): Cluster {
    var st := NotReady(c.status, Failure("Deleted", ""), a.clock);
    var report := Report(a.deletion);
    c.(status := if report.Some? then NotReady(st, report.value, a.clock) else st)
  }

  /** `reconcilePhase` */
  function ReconcilePhase(c: Cluster): Cluster {
    var init := c.status.initialization;
    var phase :=
      if c.deleting then PHASE_DELETING
      else if init.Some? && init.value.provisioned.Some? && init.value.provisioned.value then PHASE_PROVISIONED
      else PHASE_PROVISIONING;
    c.(status := c.status.(phase := phase))
  }

  /** What the deferred close persists: the conditions, the endpoint and the rest of the status, each or not. */
  function Persist(c: Cluster, after: Cluster, close: CloseOutcome): Cluster {
    c.(endpoint := if close.objectOk then after.endpoint else c.endpoint,
       status := ClusterStatus(
         if close.statusOk then after.status.phase else c.status.phase,
         if close.conditionsOk then after.status.conditions else c.status.conditions,
         if close.statusOk then after.status.initialization else c.status.initialization))
  }

  /** The resource in memory when the branch is done. */
  function Branch(c: Cluster, a: Answers): Cluster {
    if c.deleting then ReconcileDelete(c, a) else ReconcileNormal(c, a)
  }

  /** `Reconcile` from the persisted resource to the persisted resource. */
  function Reconcile(c: Cluster, a: Answers): Cluster {
    Persist(c, ReconcilePhase(Branch(c, a)), a.close)
  }

  /** `ClusterScope`: the fields updated in place. */
  class ClusterScope {
    const deleting: bool
    var phase: string
    var conditions: Slice<Condition>
    var initialization: Option<Initialization>
    var endpoint: Endpoint

    function Resource(): Cluster
      reads this
    {
      Cluster(deleting, ClusterStatus(phase, conditions, initialization), endpoint)
    }

    constructor (c: Cluster)
      ensures Resource() == c
    {
      deleting, phase, conditions := c.deleting, c.status.phase, c.status.conditions;
      initialization, endpoint := c.status.initialization, c.endpoint;
    }

    method SetNotReady(f: Failure, clock: int)
      modifies this`conditions
      ensures Resource() == old(Resource()).(status := NotReady(old(Resource()).status, f, clock))
    {
      conditions := Set(conditions, Condition(NETWORK_READY, ConditionFalse, 0, clock, f.reason, f.message));
    }

    /** `reconcileNormal` with `reconcileAzureStackHCILoadBalancer` */
    method ReconcileNormally(a: Answers)
      modifies this
      ensures Resource() == ReconcileNormal(old(Resource()), a)
    {
      if !a.patchOk {
        return;
      }
      if a.services.Some? {
        SetNotReady(a.services.value, a.clock);
        return;
      }
      if a.lb.LBError? {
        SetNotReady(a.lb.failure, a.clock);
        return;
      }
      if a.lb.LBFound? {
        if a.lb.infra.Some? && a.lb.infra.value.0.ConditionFalse? {
          SetNotReady(a.lb.infra.value.1, a.clock);
          return;
        }
        if a.lb.address != "" {
          endpoint := Endpoint(a.lb.address, a.apiServerPort);
        }
      }
      if initialization.None? {
        initialization := Some(Initialization(None));
      }
      initialization := Some(initialization.value.(provisioned := Some(true)));
      conditions := Set(conditions, Condition(NETWORK_READY, ConditionTrue, 0, a.clock, "InfrastructureReady", ""));
      conditions := Set(conditions, Condition(Conversion.READY, ConditionTrue, 0, a.clock, "InfrastructureReady", ""));
    }

    /** `reconcileDelete`, its status only. */
    method ReconcileDeleted(a: Answers)
      modifies this
      ensures Resource() == ReconcileDelete(old(Resource()), a)
    {
      SetNotReady(Failure("Deleted", ""), a.clock);
      var d := a.deletion;
      if d.listError.Some? {
        SetNotReady(Failure(DELETION_FAILED, d.listError.value), a.clock);
        return;
      }
      if d.machines > 0 {
        if d.orphanError.Some? {
          SetNotReady(Failure(DELETION_FAILED, d.orphanError.value), a.clock);
          return;
        }
        SetNotReady(Failure(MACHINES_DELETING, ""), a.clock);
        return;
      }
      if d.lbGetFailed {
        return;
      }
      if d.lbError.Some? {
        SetNotReady(Failure(DELETION_FAILED, d.lbError.value), a.clock);
        return;
      }
      if d.lbFound {
        SetNotReady(Failure(LOAD_BALANCER_DELETING, ""), a.clock);
        return;
      }
      if d.servicesError.Some? {
        SetNotReady(Failure(DELETION_FAILED, d.servicesError.value), a.clock);
      }
    }

    /** `reconcilePhase`, branch by branch. */
    method SetPhase()
      modifies this`phase
      ensures Resource() == ReconcilePhase(old(Resource()))
    {
      if phase == "" {
        phase := PHASE_PENDING;
      }
      if initialization.Some? && initialization.value.provisioned.Some? {
        if !initialization.value.provisioned.value {
          phase := PHASE_PROVISIONING;
        }
        if initialization.value.provisioned.value {
          phase := PHASE_PROVISIONED;
        }
      } else {
        phase := PHASE_PROVISIONING;
      }
      if deleting {
        phase := PHASE_DELETING;
      }
    }
  }

  method ReconcileResource(c: Cluster, a: Answers) returns (persisted: Cluster)
    ensures persisted == Reconcile(c, a)
  {
    var scope := new ClusterScope(c);
    if scope.deleting {
      scope.ReconcileDeleted(a);
    } else {
      scope.ReconcileNormally(a);
    }
    scope.SetPhase();
    persisted := Persist(c, scope.Resource(), a.close);
  }

  // ----- runs -----

  datatype Event = Reconciled(answers: Answers) | DeleteRequested

  function Next(c: Cluster, e: Event): Cluster {
    match e
    case Reconciled(a) => Reconcile(c, a)
    case DeleteRequested => c.(deleting := true)
  }

  function Run(c: Cluster, es: seq<Event>): Cluster
    decreases |es|
  {
    if es == [] then c else Next(Run(c, es[..|es| - 1]), es[|es| - 1])
  }

  predicate Fresh(c: Cluster) {
    !c.deleting && c.status == ClusterStatus("", NilSlice, None)
  }

  function PhaseRank(phase: string): int {
    if phase == "" then 0
    else if phase == PHASE_PROVISIONING then 1
    else if phase == PHASE_PROVISIONED then 2
    else if phase == PHASE_DELETING then 3
    else -1
  }

  /** A true `Ready` condition is found in a list with unique types. */
  predicate FoundReady(cs: Slice<Condition>) {
    var r := Find(List(cs), Conversion.READY);
    r.Some? && r.value.status.ConditionTrue?
  }

  lemma FoundReadyIsHubReady(cs: Slice<Condition>)
    requires Unique(List(cs))
    ensures FoundReady(cs) <==> Conversion.HubReady(cs)
  {
    var s := List(cs);
    if Conversion.HubReady(cs) {
      var i :| 0 <= i < |s| && Conversion.IsReady(s[i].kind, s[i].status);
      FindAt(s, i);
    }
    if FoundReady(cs) {
      FoundIsListed(s, Conversion.READY);
      var c := Find(s, Conversion.READY).value;
      var i :| 0 <= i < |s| && s[i] == c;
      assert cs.elems[i] == c;
    }
  }

  /** Reporting a network failure does not touch the `Ready` condition. */
  lemma NotReadyKeepsReady(st: ClusterStatus, f: Failure, clock: int)
    requires Unique(List(st.conditions))
    ensures var st' := NotReady(st, f, clock);
      && Unique(List(st'.conditions)) && st'.initialization == st.initialization
      && Find(List(st'.conditions), Conversion.READY) == Find(List(st.conditions), Conversion.READY)
  {
    var c := Condition(NETWORK_READY, ConditionFalse, 0, clock, f.reason, f.message);
    UpsertUnique(List(st.conditions), c);
    UpsertFind(List(st.conditions), c, Conversion.READY);
  }

  lemma ProvisionedSetsReady(st: ClusterStatus, clock: int)
    requires Unique(List(st.conditions))
    ensures var st' := Provisioned(st, clock);
      && Unique(List(st'.conditions)) && st'.initialization == PROVISIONED
      && FoundReady(st'.conditions) && Find(List(st'.conditions), Conversion.READY).value.message == ""
  {
    var c1 := Condition(NETWORK_READY, ConditionTrue, 0, clock, "InfrastructureReady", "");
    var c2 := Condition(Conversion.READY, ConditionTrue, 0, clock, "InfrastructureReady", "");
    var s := List(st.conditions);
    UpsertUnique(s, c1);
    UpsertUnique(Upsert(s, c1), c2);
    UpsertFind(Upsert(s, c1), c2, Conversion.READY);
  }

  /** The pass gets to the end of `reconcileNormal`, where it marks the cluster provisioned and ready. */
  predicate Provisions(c: Cluster, a: Answers) {
    && !c.deleting && a.patchOk && a.services.None?
    && !a.lb.LBError? && !(a.lb.LBFound? && a.lb.infra.Some? && a.lb.infra.value.0.ConditionFalse?)
  }

  /** A true `Ready` condition has no message: only the end of `reconcileNormal` sets it. */
  predicate ReadyUnexplained(cs: Slice<Condition>) {
    FoundReady(cs) ==> Find(List(cs), Conversion.READY).value.message == ""
  }

  /** What a branch makes of the status in memory. */
  predicate BranchMakes(c: Cluster, m: Cluster, provisions: bool) {
    && m.deleting == c.deleting && m.status.phase == c.status.phase
    && m.status.initialization == (if provisions then PROVISIONED else c.status.initialization)
    && FoundReady(m.status.conditions) == (provisions || FoundReady(c.status.conditions))
  }

  lemma DeleteBranch(c: Cluster, a: Answers)
    requires Unique(List(c.status.conditions)) && ReadyUnexplained(c.status.conditions)
    ensures var m := ReconcileDelete(c, a);
      && Unique(List(m.status.conditions)) && ReadyUnexplained(m.status.conditions) && BranchMakes(c, m, false)
  {
    var st := NotReady(c.status, Failure("Deleted", ""), a.clock);
    NotReadyKeepsReady(c.status, Failure("Deleted", ""), a.clock);
    if Report(a.deletion).Some? { NotReadyKeepsReady(st, Report(a.deletion).value, a.clock); }
  }

  lemma NormalBranch(c: Cluster, a: Answers)
    requires Unique(List(c.status.conditions)) && ReadyUnexplained(c.status.conditions) && !c.deleting
    ensures var m := ReconcileNormal(c, a);
      && Unique(List(m.status.conditions)) && ReadyUnexplained(m.status.conditions)
      && BranchMakes(c, m, Provisions(c, a))
  {
    if Provisions(c, a) {
      ProvisionedSetsReady(c.status, a.clock);
    } else if a.patchOk {
      var f := if a.services.Some? then a.services.value
               else if a.lb.LBError? then a.lb.failure
               else a.lb.infra.value.1;
      NotReadyKeepsReady(c.status, f, a.clock);
    }
  }

  lemma BranchKeeps(c: Cluster, a: Answers)
    requires Unique(List(c.status.conditions)) && ReadyUnexplained(c.status.conditions)
    ensures var m := Branch(c, a);
      && Unique(List(m.status.conditions)) && ReadyUnexplained(m.status.conditions)
      && BranchMakes(c, m, Provisions(c, a))
  {
    if c.deleting { DeleteBranch(c, a); } else { NormalBranch(c, a); }
  }

  // ----- what a pass tells -----

  predicate Says(c: Option<Condition>, status: ConditionStatus, reason: string, message: string) {
    c.Some? && c.value.status == status && c.value.reason == reason && c.value.message == message
  }

  /** Setting one network condition is what is found of it. */
  lemma NetworkSet(st: ClusterStatus, c: Condition)
    requires c.kind == NETWORK_READY
    ensures Find(List(Set(st.conditions, c)), "NetworkInfrastructureReady") == Some(c)
  {
    UpsertFind(List(st.conditions), c, NETWORK_READY);
  }

  /** What the delete branch says of the network, exit by exit. */
  predicate DeletionTells(d: Deletion, found: Option<Condition>) {
    && (d.listError.Some? ==> Says(found, ConditionFalse, "DeletionFailed", d.listError.value))
    && (d.listError.None? && d.machines > 0 && d.orphanError.Some? ==>
          Says(found, ConditionFalse, "DeletionFailed", d.orphanError.value))
    && (d.listError.None? && d.machines > 0 && d.orphanError.None? ==>
          Says(found, ConditionFalse, "AzureStackHCIMachineDeleting", ""))
    && (d.listError.None? && d.machines == 0 ==>
          && (d.lbGetFailed ==> Says(found, ConditionFalse, "Deleted", ""))
          && (!d.lbGetFailed && d.lbError.Some? ==> Says(found, ConditionFalse, "DeletionFailed", d.lbError.value))
          && (!d.lbGetFailed && d.lbError.None? && d.lbFound ==>
                Says(found, ConditionFalse, "LoadBalancerDeleting", ""))
          && (!d.lbGetFailed && d.lbError.None? && !d.lbFound ==>
                if d.servicesError.Some? then Says(found, ConditionFalse, "DeletionFailed", d.servicesError.value)
                else Says(found, ConditionFalse, "Deleted", "")))
  }

  /** What a branch says of the network: true exactly when it gets to the end of `reconcileNormal`, otherwise false
      with the reason of the step that failed or is waited for; and nothing new if the early patch fails. */
  predicate BranchTells(c: Cluster, a: Answers, found: Option<Condition>) {
    if c.deleting then DeletionTells(a.deletion, found)
    else if !a.patchOk then found == Find(List(c.status.conditions), "NetworkInfrastructureReady")
    else if Provisions(c, a) then Says(found, ConditionTrue, "InfrastructureReady", "")
    else
      && (a.services.Some? ==> Says(found, ConditionFalse, a.services.value.reason, a.services.value.message))
      && (a.services.None? && a.lb.LBError? ==>
            Says(found, ConditionFalse, a.lb.failure.reason, a.lb.failure.message))
      && (a.services.None? && a.lb.LBFound? && a.lb.infra.Some? ==>
            Says(found, ConditionFalse, a.lb.infra.value.1.reason, a.lb.infra.value.1.message))
  }

  lemma DeleteBranchTells(c: Cluster, a: Answers)
    requires c.deleting
    ensures BranchTells(c, a, Find(List(Branch(c, a).status.conditions), "NetworkInfrastructureReady"))
  {
    var deleted := Condition(NETWORK_READY, ConditionFalse, 0, a.clock, "Deleted", "");
    NetworkSet(c.status, deleted);
    var st := NotReady(c.status, Failure("Deleted", ""), a.clock);
    var report := Report(a.deletion);
    if report.Some? {
      NetworkSet(st, Condition(NETWORK_READY, ConditionFalse, 0, a.clock, report.value.reason, report.value.message));
    }
  }

  lemma NormalBranchTells(c: Cluster, a: Answers)
    requires !c.deleting
    ensures BranchTells(c, a, Find(List(Branch(c, a).status.conditions), "NetworkInfrastructureReady"))
    ensures Provisions(c, a) ==>
              Says(Find(List(Branch(c, a).status.conditions), "Ready"), ConditionTrue, "InfrastructureReady", "")
  {
    if Provisions(c, a) {
      var c1 := Condition(NETWORK_READY, ConditionTrue, 0, a.clock, "InfrastructureReady", "");
      var c2 := Condition(Conversion.READY, ConditionTrue, 0, a.clock, "InfrastructureReady", "");
      NetworkSet(c.status, c1);
      UpsertFind(Upsert(List(c.status.conditions), c1), c2, NETWORK_READY);
      UpsertFind(Upsert(List(c.status.conditions), c1), c2, Conversion.READY);
    } else if a.patchOk {
      var f := if a.services.Some? then a.services.value
               else if a.lb.LBError? then a.lb.failure
               else a.lb.infra.value.1;
      NetworkSet(c.status, Condition(NETWORK_READY, ConditionFalse, 0, a.clock, f.reason, f.message));
    }
  }

  /** What a reconcile persists: the network condition with the conditions, phase and mark with the rest of the
      status, the endpoint with the spec, and each as it was if its request fails. */
  lemma PersistedCluster(c: Cluster, a: Answers)
    ensures var c' := Reconcile(c, a);
      var found := Find(List(c'.status.conditions), "NetworkInfrastructureReady");
      && (a.close.conditionsOk ==> BranchTells(c, a, found))
      && (!a.close.conditionsOk ==> c'.status.conditions == c.status.conditions)
      && (a.close.conditionsOk && Provisions(c, a) ==>
            Says(Find(List(c'.status.conditions), "Ready"), ConditionTrue, "InfrastructureReady", ""))
    ensures var c' := Reconcile(c, a);
      && (!a.close.statusOk ==>
            c'.status.phase == c.status.phase && c'.status.initialization == c.status.initialization)
      && (a.close.statusOk ==>
            && c'.status.initialization == (if Provisions(c, a) then Some(Initialization(Some(true)))
                                            else c.status.initialization)
            && (c'.status.phase == "deleting" <==> c.deleting)
            && (c'.status.phase == "provisioned" <==>
                  !c.deleting && c'.status.initialization == Some(Initialization(Some(true))))
            && (c'.status.phase == "provisioning" <==>
                  !c.deleting && c'.status.initialization != Some(Initialization(Some(true)))))
    ensures Reconcile(c, a).endpoint ==
      if a.close.objectOk && Provisions(c, a) && a.lb.LBFound? && a.lb.address != ""
      then Endpoint(a.lb.address, a.apiServerPort) else c.endpoint
  {
    if c.deleting { DeleteBranchTells(c, a); } else { NormalBranchTells(c, a); }
  }

  // ----- over runs -----

  /** The phase says how far the mark is. */
  predicate PhaseAgrees(c: Cluster) {
    PhaseRank(c.status.phase) ==
      if c.status.phase == "" then 0
      else if c.status.phase == PHASE_DELETING then 3
      else if c.status.initialization.Some? then 2 else 1
  }

  ghost predicate StatusInv(c: Cluster) {
    && Unique(List(c.status.conditions)) && ReadyUnexplained(c.status.conditions)
    && (c.status.initialization == PROVISIONED || c.status.initialization == None)
    && PhaseAgrees(c)
    && (c.status.phase == PHASE_DELETING ==> c.deleting)
    && (c.status.phase == "" ==> c.status.initialization.None?)
  }

  lemma ReconcileKeepsInv(c: Cluster, a: Answers)
    requires StatusInv(c)
    ensures var c' := Reconcile(c, a);
      && StatusInv(c') && c'.deleting == c.deleting
      && PhaseRank(c.status.phase) <= PhaseRank(c'.status.phase)
      && c'.status.initialization ==
           (if Provisions(c, a) && a.close.statusOk then PROVISIONED else c.status.initialization)
      && FoundReady(c'.status.conditions) ==
           ((Provisions(c, a) && a.close.conditionsOk) || FoundReady(c.status.conditions))
  {
    BranchKeeps(c, a);
  }

  lemma NextKeepsInv(c: Cluster, e: Event)
    requires StatusInv(c)
    ensures var c' := Next(c, e);
      && StatusInv(c')
      && (c.status.initialization == PROVISIONED ==> c'.status.initialization == PROVISIONED)
      && PhaseRank(c.status.phase) <= PhaseRank(c'.status.phase)
  {
    if e.Reconciled? { ReconcileKeepsInv(c, e.answers); }
  }

  /** Some pass of the run that got to the end persisted the rest of the status, and with it the mark. */
  ghost predicate MarkWritten(c: Cluster, es: seq<Event>)
    decreases |es|
  {
    es != [] &&
    var front, last := es[..|es| - 1], es[|es| - 1];
    || MarkWritten(c, front)
    || (last.Reconciled? && Provisions(Run(c, front), last.answers) && last.answers.close.statusOk)
  }

  /** Some pass of the run that got to the end persisted the conditions, and with them a true `Ready`. */
  ghost predicate ReadyWritten(c: Cluster, es: seq<Event>)
    decreases |es|
  {
    es != [] &&
    var front, last := es[..|es| - 1], es[|es| - 1];
    || ReadyWritten(c, front)
    || (last.Reconciled? && Provisions(Run(c, front), last.answers) && last.answers.close.conditionsOk)
  }

  /** Over every run from a new cluster, mark and condition are there exactly if they were written. */
  lemma {:induction false} RunKeepsInv(c: Cluster, es: seq<Event>)
    requires Fresh(c)
    ensures StatusInv(Run(c, es))
    ensures Run(c, es).status.initialization == if MarkWritten(c, es) then PROVISIONED else None
    ensures FoundReady(Run(c, es).status.conditions) <==> ReadyWritten(c, es)
    decreases |es|
  {
    if es != [] {
      var front, last := es[..|es| - 1], es[|es| - 1];
      RunKeepsInv(c, front);
      if last.Reconciled? { ReconcileKeepsInv(Run(c, front), last.answers); }
    }
  }

  /** Stable progress: over every run from a new cluster, provisioned never reverts and the phase only
      moves forward through provisioning, provisioned and deleting. */
  lemma {:induction false} StableProgress(c: Cluster, es: seq<Event>, i: nat)
    requires Fresh(c) && i <= |es|
    ensures var before, after := Run(c, es[..i]).status, Run(c, es).status;
      && (before.initialization == PROVISIONED ==> after.initialization == PROVISIONED)
      && 0 <= PhaseRank(before.phase) <= PhaseRank(after.phase)
    decreases |es|
  {
    RunKeepsInv(c, es[..i]);
    if i < |es| {
      var front := es[..|es| - 1];
      assert front[..i] == es[..i];
      StableProgress(c, front, i);
      RunKeepsInv(c, front);
      NextKeepsInv(Run(c, front), es[|es| - 1]);
    } else {
      assert es[..i] == es;
    }
  }

  /** The `Initialization` the cluster controller produces from a new cluster survives hub -> v1beta1 -> hub
      exactly when mark and `Ready` condition were both written, or neither; patches that succeed or fail as
      a whole always give that. The whole status survives exactly when moreover its conditions do, and never
      that of a cluster that is provisioned. */
  lemma ReachableClusterSurvivesTrip(c: Cluster, es: seq<Event>)
    requires Fresh(c)
    ensures var st := Run(c, es).status;
      var trip := Conversion.UpClusterStatus(Conversion.DownClusterStatus(st));
      && (trip.initialization == st.initialization <==> (MarkWritten(c, es) <==> ReadyWritten(c, es)))
      && (WholePatches(es) ==> trip.initialization == st.initialization)
      && (trip == st <==>
            && (MarkWritten(c, es) <==> ReadyWritten(c, es))
            && forall x :: x in List(st.conditions) ==> Conversion.KeptUp(x))
      && (st.initialization == PROVISIONED ==> trip != st)
  {
    RunKeepsInv(c, es);
    var st := Run(c, es).status;
    FoundReadyIsHubReady(st.conditions);
    Conversion.ClusterInitializationRoundTrip(Conversion.DownClusterStatus(st), st);
    Conversion.ClusterStatusRoundTrip(Conversion.DownClusterStatus(st), st);
    if WholePatches(es) { WrittenTogether(c, es); }
    if FoundReady(st.conditions) {
      FoundIsListed(List(st.conditions), Conversion.READY);
      assert !Conversion.KeptUp(Find(List(st.conditions), Conversion.READY).value);
    }
  }

  /** Conditions and the rest of the status are persisted together, or neither. */
  predicate WholePatches(es: seq<Event>) {
    forall e :: e in es && e.Reconciled? ==> (e.answers.close.conditionsOk <==> e.answers.close.statusOk)
  }

  lemma {:induction false} WrittenTogether(c: Cluster, es: seq<Event>)
    requires WholePatches(es)
    ensures MarkWritten(c, es) <==> ReadyWritten(c, es)
    decreases |es|
  {
    if es != [] {
      assert es[|es| - 1] in es;
      WrittenTogether(c, es[..|es| - 1]);
    }
  }

  /** One pass that gets to the end and persists its status but not its conditions: the cluster is provisioned,
      and no longer after a trip. With the conditions persisted but not the status, the trip provisions it. */
  lemma PartialPatchMisleadsTrip(c: Cluster, a: Answers)
    requires Fresh(c) && Provisions(c, a) && a.close.conditionsOk != a.close.statusOk
    ensures var st := Run(c, [Reconciled(a)]).status;
      var trip := Conversion.UpClusterStatus(Conversion.DownClusterStatus(st));
      && (a.close.statusOk ==> st.initialization == PROVISIONED && trip.initialization == None)
      && (a.close.conditionsOk ==> st.initialization == None && trip.initialization == PROVISIONED)
  {
    var es := [Reconciled(a)];
    assert es[..0] == [] && Run(c, []) == c;
    RunKeepsInv(c, es);
    FoundReadyIsHubReady(Run(c, es).status.conditions);
  }

  /** A pass leaves the endpoint, or writes that of the address the load balancer shows. */
  lemma EndpointStep(c: Cluster, a: Answers)
    ensures var endpoint := Reconcile(c, a).endpoint;
      || endpoint == c.endpoint
      || (a.lb.LBFound? && a.lb.address != "" && endpoint == Endpoint(a.lb.address, a.apiServerPort))
  {
  }

  /** Every address the load balancer shows to the passes of the run is empty or one of `hosts`, and the API server
      port stays the same. */
  predicate Shows(es: seq<Event>, hosts: set<string>, port: int) {
    forall e :: e in es && e.Reconciled? ==>
      && e.answers.apiServerPort == port
      && (e.answers.lb.LBFound? ==> e.answers.lb.address == "" || e.answers.lb.address in hosts)
  }

  /** Then the endpoint is the initial one or that of one of these hosts; and with one host, it never leaves that
      one once it is written. */
  lemma {:induction false} EndpointIsConstant(c: Cluster, es: seq<Event>, hosts: set<string>, port: int)
    requires Shows(es, hosts, port)
    ensures var endpoint := Run(c, es).endpoint;
      endpoint == c.endpoint || (endpoint.host in hosts && endpoint.port == port)
    ensures forall host :: hosts == {host} && es != [] && Run(c, es[..|es| - 1]).endpoint == Endpoint(host, port)
              ==> Run(c, es).endpoint == Endpoint(host, port)
    decreases |es|
  {
    if es != [] {
      var front, last := es[..|es| - 1], es[|es| - 1];
      assert last in es;
      EndpointIsConstant(c, front, hosts, port);
      if last.Reconciled? { EndpointStep(Run(c, front), last.answers); }
    }
  }
}
