/** What a single reconcile can do to the replica set: the surge bound, the floor, and the
    exact conditions under which a replica is created or deleted. */
module ReplicaSafety {
  import opened Basics
  import opened VirtualMachineOrder
  import opened LoadBalancer

  /** The ready count the pass decides on: the fresh one, or the old one if the read failed. */
  function ObservedReady(lb: LB, a: Answers): int {
    if a.statusRead.Some? then a.statusRead.value.replicationCount else lb.readyReplicas
  }

  /** The pass reaches the scaling decisions. */
  predicate Decides(lb: LB, a: Answers) {
    && !lb.deleting && a.patchOk && lb.specReplicas.Some? && a.listOk
    && FirstFailure(Live(a.items)).None?
  }

  /** One replica at the target version joined `vms`. */
  ghost predicate Grew(vms: set<VM>, vms': set<VM>, target: string) {
    exists v :: v !in vms && vms' == vms + {v} && v.version == target && DistinctNames(vms')
  }

  /** A replica is created only below the desired count, or at it when a surge is due. */
  predicate MayCreate(lb: LB, vms: set<VM>) {
    || |vms| < lb.Desired()
    || (|vms| == lb.Desired() < INT32_MAX && Outdated(vms, lb.OSVersion()) != {})
  }

  /** What a pass did to the replica set, and the guards it did it under. */
  ghost predicate StepShape(lb: LB, vms: set<VM>, vms': set<VM>, a: Answers) {
    || vms' == vms
    || (&& Grew(vms, vms', lb.OSVersion())
        && Decides(lb, a) && MayCreate(lb, vms)
        && |vms| <= ObservedReady(lb, a))
    || (&& vms != {} && vms' == vms - {Victim(vms, lb.OSVersion())}
        && Decides(lb, a) && |vms| > lb.Desired()
        && (|vms| <= ObservedReady(lb, a) || !(lb.AreUpgrading() || lb.AreScalingUp())))
  }

  lemma CreatedGrows(lb: LB, vms: set<VM>, a: Answers)
    requires FreshCreates(a, vms) && DistinctNames(vms)
    ensures var c := a.Create(0);
      var v := VM(c.name, c.created, lb.OSVersion());
      && (c.ok ==> c.effect)
      && (c.effect ==> v !in vms && Grew(vms, vms + {v}, lb.OSVersion()))
  {
    var c := a.Create(0);
    if c.effect {
      assert c in a.creates;
      var v := VM(c.name, c.created, lb.OSVersion());
      assert vms + {v} == vms + {v} && DistinctNames(vms + {v});
    }
  }

  /** At the desired count the surge loop performs exactly one create, unless the int32 sum
      `desired + MaxSurge` wraps around: then it performs none. */
  lemma SurgeIsOneCreate(lb: LB, vms: set<VM>, a: Answers)
    requires lb.replicas == lb.Desired() && IsInt32(lb.Desired())
    ensures lb.Desired() < INT32_MAX ==> Surge(lb, vms, a, 0) == ScaleUp(lb, vms, a.Create(0))
    ensures lb.Desired() == INT32_MAX ==> Surge(lb, vms, a, 0) == Pass(lb, vms, Done)
  {
    if lb.Desired() < INT32_MAX {
      var p := ScaleUp(lb, vms, a.Create(0));
      if !p.result.Error? {
        assert p.lb.replicas == p.lb.MaxReplicas();
        assert Surge(p.lb, p.vms, a, 1) == Pass(p.lb, p.vms, Done);
      }
    }
  }

  /** From any counter below the maximum, if all creates succeed, the loop creates as many VMs as
      are missing to the maximum; started at the desired count, that is `MaxSurge`. */
  lemma {:induction false} SurgeFillsToMaximum(lb: LB, vms: set<VM>, a: Answers, k: nat)
    requires IsInt32(lb.replicas) && lb.replicas <= lb.MaxReplicas()
    requires k + (lb.MaxReplicas() - lb.replicas) <= |a.creates|
    requires forall i :: k <= i < |a.creates| ==> a.creates[i].ok && a.creates[i].effect
    requires forall i, v :: k <= i < |a.creates| && v in vms ==> v.name != a.creates[i].name
    requires forall i, j :: 0 <= i < j < |a.creates| ==> a.creates[i].name != a.creates[j].name
    ensures var p := Surge(lb, vms, a, k);
      && p.result.Done?
      && p.lb.replicas == lb.MaxReplicas()
      && |p.vms| == |vms| + (lb.MaxReplicas() - lb.replicas)
      && vms <= p.vms
    decreases lb.MaxReplicas() - lb.replicas
  {
    if lb.replicas < lb.MaxReplicas() {
      var c := a.Create(k);
      var v := VM(c.name, c.created, lb.OSVersion());
      assert v !in vms;
      var p := ScaleUp(lb, vms, c);
      assert p.vms == vms + {v};
      SurgeFillsToMaximum(p.lb, p.vms, a, k + 1);
    }
  }

  lemma UpgradeVMs(lb: LB, vms: set<VM>, a: Answers)
    requires lb.replicas == |vms| <= INT32_MAX && IsInt32(lb.Desired())
    requires Decide(lb, Outdated(vms, lb.OSVersion()) != {}).Upgrade?
    ensures Act(lb, vms, vms, a).vms == if lb.Desired() < INT32_MAX then WithCreated(lb, vms, a) else vms
  {
    SurgeIsOneCreate(SetReplicasReady(lb, Upgrading), vms, a);
  }

  /** The replica set after the decision, branch by branch. */
  lemma ActVMs(lb: LB, vms: set<VM>, a: Answers)
    requires lb.replicas == |vms| <= INT32_MAX && IsInt32(lb.Desired())
    ensures var vms' := Act(lb, vms, vms, a).vms;
      match Decide(lb, Outdated(vms, lb.OSVersion()) != {})
      case AddReplica => vms' == WithCreated(lb, vms, a)
      case Upgrade => vms' == if lb.Desired() < INT32_MAX then WithCreated(lb, vms, a) else vms
      case RemoveReplica =>
        vms' == if vms != {} && a.delete.Gone() then vms - {Victim(vms, lb.OSVersion())} else vms
      case _ => vms' == vms
  {
    if Decide(lb, Outdated(vms, lb.OSVersion()) != {}).Upgrade? { UpgradeVMs(lb, vms, a); }
  }

  /** `lb1` is the resource the pass decides on: counters updated, spec and reason as before. */
  function Observed(lb: LB, a: Answers): LB {
    UpdateReplicaStatus(lb.(finalizer := true), Live(a.items), a.statusRead)
  }

  lemma ObservedFields(lb: LB, vms: set<VM>, a: Answers)
    requires Faithful(lb, vms, a) && a.listOk
    ensures var lb1 := Observed(lb, a);
      && lb1.replicas == |vms|
      && lb1.readyReplicas == ObservedReady(lb, a)
      && lb1.Desired() == lb.Desired() && lb1.OSVersion() == lb.OSVersion()
      && lb1.AreUpgrading() == lb.AreUpgrading() && lb1.AreScalingUp() == lb.AreScalingUp()
  {
    FaithfulList(lb, vms, a);
  }

  /** A pass changes the replica set exactly as its decision does. */
  lemma ReconcileVMsOnly(lb: LB, vms: set<VM>, a: Answers)
    requires !lb.deleting && Faithful(lb, vms, a)
    ensures !Decides(lb, a) ==> Reconcile(lb, vms, a).vms == vms
    ensures Decides(lb, a) ==>
              && IsInt32(Observed(lb, a).replicas)
              && Reconcile(lb, vms, a).vms == Act(Observed(lb, a), vms, vms, a).vms
  {
    var lb0 := lb.(finalizer := true);
    var p := ReconcileNormal(lb, vms, a);
    assert Reconcile(lb, vms, a).vms == p.vms;
    if a.patchOk && lb0.specReplicas.Some? {
      assert p.vms == ReconcileVMs(lb0, vms, a).vms;
      if a.listOk { FaithfulList(lb, vms, a); }
    }
  }

  /** The decision of a pass that gets that far. */
  ghost function DecisionOf(lb: LB, vms: set<VM>, a: Answers): Decision {
    Branch(ObservedReady(lb, a), |vms|, lb.Desired(), lb.AreUpgrading(), lb.AreScalingUp(),
           Outdated(vms, lb.OSVersion()) != {})
  }

  ghost function WithCreated(lb: LB, vms: set<VM>, a: Answers): set<VM> {
    var c := a.Create(0);
    if c.effect then vms + {VM(c.name, c.created, lb.OSVersion())} else vms
  }

  /** The replica set a reconcile leaves. */
  ghost function VMsAfter(lb: LB, vms: set<VM>, a: Answers): set<VM> {
    if !Decides(lb, a) then vms
    else
      match DecisionOf(lb, vms, a)
      case AddReplica => WithCreated(lb, vms, a)
      case Upgrade => if lb.Desired() < INT32_MAX then WithCreated(lb, vms, a) else vms
      case RemoveReplica => if vms != {} && a.delete.Gone() then vms - {Victim(vms, lb.OSVersion())} else vms
      case _ => vms
  }

  /** What a reconcile of a resource that is not being deleted does to its replica set. */
  lemma ReconcileEffect(lb: LB, vms: set<VM>, a: Answers)
    requires !lb.deleting && Faithful(lb, vms, a)
    ensures Reconcile(lb, vms, a).vms == VMsAfter(lb, vms, a)
  {
    ReconcileVMsOnly(lb, vms, a);
    if Decides(lb, a) {
      ObservedFields(lb, vms, a);
      ActVMs(Observed(lb, a), vms, a);
    }
  }

  lemma AfterShape(lb: LB, vms: set<VM>, a: Answers)
    requires Faithful(lb, vms, a)
    ensures StepShape(lb, vms, VMsAfter(lb, vms, a), a)
  {
    CreatedGrows(lb, vms, a);
  }

  /** Every reconcile either leaves the replica set alone, or adds one replica, or removes the
      victim; and it adds one only having observed that all replicas are ready. */
  lemma ReconcileShape(lb: LB, vms: set<VM>, a: Answers)
    requires !lb.deleting && Faithful(lb, vms, a)
    ensures StepShape(lb, vms, Reconcile(lb, vms, a).vms, a)
  {
    ReconcileEffect(lb, vms, a);
    AfterShape(lb, vms, a);
  }

  lemma ShapeCounts(lb: LB, vms: set<VM>, vms': set<VM>, a: Answers)
    requires StepShape(lb, vms, vms', a)
    ensures vms' == vms || |vms'| == |vms| + 1 || |vms'| == |vms| - 1
    ensures |vms'| == |vms| + 1 <==> Grew(vms, vms', lb.OSVersion())
    ensures |vms'| == |vms| + 1 ==> MayCreate(lb, vms) && |vms| <= ObservedReady(lb, a)
    ensures |vms'| == |vms| - 1 ==> vms != {} && vms' == vms - {Victim(vms, lb.OSVersion())} && |vms| > lb.Desired()
  {
    if Grew(vms, vms', lb.OSVersion()) {
      var v :| v !in vms && vms' == vms + {v};
      assert |vms'| == |vms| + 1;
    }
  }

  /** Surge and floor: one reconcile moves the replica count by at most one, never past
      `desired + MaxSurge` upwards and never past `desired` downwards. */
  lemma SurgeAndFloor(lb: LB, vms: set<VM>, a: Answers)
    requires !lb.deleting && Faithful(lb, vms, a)
    ensures var n, n', d := |vms|, |Reconcile(lb, vms, a).vms|, lb.Desired();
      && n - 1 <= n' <= n + 1
      && Min(n, d) <= n' <= Max(n, d + MAX_SURGE)
  {
    ReconcileShape(lb, vms, a);
    ShapeCounts(lb, vms, Reconcile(lb, vms, a).vms, a);
  }

  // ----- frames: what each part of a pass leaves alone -----

  predicate OnlyReplicas(lb: LB, lb': LB) {
    lb' == lb.(replicas := lb'.replicas, replicasReady := lb'.replicasReady)
  }

  lemma ScalingFrame(lb: LB, vms: set<VM>, listed: set<VM>, c: CreateOutcome, d: DeleteOutcome)
    ensures OnlyReplicas(lb, ScaleUp(lb, vms, c).lb) && ScaleUp(lb, vms, c).lb.replicasReady == lb.replicasReady
    ensures OnlyReplicas(lb, ScaleDown(lb, vms, listed, d).lb)
    ensures ScaleDown(lb, vms, listed, d).lb.replicasReady == lb.replicasReady
  {
  }

  lemma {:induction false} SurgeFrame(lb: LB, vms: set<VM>, a: Answers, k: nat)
    requires IsInt32(lb.replicas)
    ensures OnlyReplicas(lb, Surge(lb, vms, a, k).lb) && Surge(lb, vms, a, k).lb.replicasReady == lb.replicasReady
    decreases lb.MaxReplicas() - lb.replicas
  {
    if lb.replicas < lb.MaxReplicas() {
      var p := ScaleUp(lb, vms, a.Create(k));
      ScalingFrame(lb, vms, vms, a.Create(k), a.delete);
      if !p.result.Error? { SurgeFrame(p.lb, p.vms, a, k + 1); }
    }
  }

  lemma OnlyReplicasTwice(lb: LB, lb1: LB, lb2: LB)
    requires OnlyReplicas(lb, lb1) && OnlyReplicas(lb1, lb2)
    ensures OnlyReplicas(lb, lb2)
  {
  }

  /** The decisions change only the counter and the replicas condition. */
  lemma ActOnlyReplicas(lb: LB, vms: set<VM>, listed: set<VM>, a: Answers)
    requires IsInt32(lb.replicas)
    ensures OnlyReplicas(lb, Act(lb, vms, listed, a).lb)
  {
    var p := Act(lb, vms, listed, a);
    match Decide(lb, Outdated(listed, lb.OSVersion()) != {})
    case Upgrade =>
      SurgeFrame(SetReplicasReady(lb, Upgrading), vms, a, 0);
      OnlyReplicasTwice(lb, SetReplicasReady(lb, Upgrading), p.lb);
    case AddReplica =>
      ScalingFrame(MarkScaling(lb, ScalingUp), vms, listed, a.Create(0), a.delete);
      OnlyReplicasTwice(lb, MarkScaling(lb, ScalingUp), p.lb);
    case RemoveReplica =>
      ScalingFrame(MarkScaling(lb, ScalingDown), vms, listed, a.Create(0), a.delete);
      OnlyReplicasTwice(lb, MarkScaling(lb, ScalingDown), p.lb);
    case _ =>
  }

  /** And this is the condition they leave. */
  lemma ActFrame(lb: LB, vms: set<VM>, listed: set<VM>, a: Answers)
    requires IsInt32(lb.replicas)
    ensures OnlyReplicas(lb, Act(lb, vms, listed, a).lb)
    ensures Act(lb, vms, listed, a).lb.replicasReady ==
      match Decide(lb, Outdated(listed, lb.OSVersion()) != {})
      case KeepWaiting => lb.replicasReady
      case WaitForReady => NotReady(WaitingForReplicasReady, "")
      case AddReplica => MarkScaling(lb, ScalingUp).replicasReady
      case RemoveReplica => MarkScaling(lb, ScalingDown).replicasReady
      case Upgrade => NotReady(Upgrading, "")
      case Settled => if IsFalse(lb.replicasReady)
                      then Some(Condition(StatusTrue, AllReplicasReady, "")) else lb.replicasReady
  {
    ActOnlyReplicas(lb, vms, listed, a);
    match Decide(lb, Outdated(listed, lb.OSVersion()) != {})
    case Upgrade => SurgeFrame(SetReplicasReady(lb, Upgrading), vms, a, 0);
    case AddReplica => ScalingFrame(MarkScaling(lb, ScalingUp), vms, listed, a.Create(0), a.delete);
    case RemoveReplica => ScalingFrame(MarkScaling(lb, ScalingDown), vms, listed, a.Create(0), a.delete);
    case _ =>
  }

  lemma ServiceFrame(p: Pass, a: Answers)
    ensures var lb' := ReconcileService(p, a).lb;
      && lb' == p.lb.(port := lb'.port, infraReady := lb'.infraReady, address := lb'.address,
                      readyReplicas := lb'.readyReplicas, ready := lb'.ready)
      && (p.lb.address != "" ==> lb'.address == p.lb.address && lb'.readyReplicas == p.lb.readyReplicas)
      && (p.lb.ready ==> lb'.ready)
  {
  }

  lemma StatusFrame(lb: LB)
    ensures var lb' := ReconcileStatus(lb);
      lb' == lb.(selector := lb'.selector, phase := lb'.phase, infraReady := lb'.infraReady)
  {
  }

  /** No pass touches the spec, the deletion timestamp or the name. */
  predicate SameSpec(lb: LB, lb': LB) {
    && lb'.specReplicas == lb.specReplicas && lb'.imageVersion == lb.imageVersion
    && lb'.deleting == lb.deleting && lb'.name == lb.name && lb'.errorReason == lb.errorReason
  }

  /** An address once known stays, and a load balancer once ready stays ready. */
  predicate Monotone(lb: LB, lb': LB) {
    (lb.address != "" ==> lb'.address == lb.address) && (lb.ready ==> lb'.ready)
  }

  lemma ReconcileVMsFrame(lb: LB, vms: set<VM>, a: Answers)
    requires IsInt32(lb.Desired())
    ensures var lb' := ReconcileVMs(lb, vms, a).lb;
      SameSpec(lb, lb') && Monotone(lb, lb') && lb'.phase == lb.phase && lb'.infraReady == lb.infraReady
  {
    var live := Live(a.items);
    if a.listOk && FirstFailure(live).None? {
      ActFrame(UpdateReplicaStatus(lb, live, a.statusRead), vms, Elements(Identities(live)), a);
    }
  }

  lemma ReconcileNormalFrame(lb: LB, vms: set<VM>, a: Answers)
    requires IsInt32(lb.Desired())
    ensures var lb' := ReconcileNormal(lb, vms, a).lb;
      SameSpec(lb, lb') && Monotone(lb, lb') && lb'.phase == lb.phase
  {
    var lb0 := lb.(finalizer := true);
    ReconcileVMsFrame(lb0, vms, a);
    var p := ReconcileVMs(lb0, vms, a);
    ServiceFrame(p, a);
  }

  lemma ReconcileDeleteFrame(lb: LB, vms: set<VM>, a: Answers)
    ensures var lb' := ReconcileDelete(lb, vms, a).lb; SameSpec(lb, lb') && Monotone(lb, lb')
  {
  }

  /** The close writes each part of the resource or leaves it. */
  lemma PersistFields(lb: LB, after: LB, a: Answers)
    ensures var lb' := Persist(lb, after, a);
      && SameSpec(lb, lb')
      && lb'.replicasReady == (if a.close.conditionsOk then after.replicasReady else lb.replicasReady)
      && lb'.address == (if a.close.statusOk then after.address else lb.address)
      && lb'.ready == (if a.close.statusOk then after.ready else lb.ready)
      && lb'.phase == (if a.close.statusOk then after.phase else lb.phase)
  {
  }

  lemma PersistFrame(lb: LB, after: LB, a: Answers)
    requires Monotone(lb, after)
    ensures var lb' := Persist(lb, ReconcileStatus(after), a); SameSpec(lb, lb') && Monotone(lb, lb')
  {
    StatusFrame(after);
    PersistFields(lb, ReconcileStatus(after), a);
  }

  lemma ReconcileFrame(lb: LB, vms: set<VM>, a: Answers)
    requires IsInt32(lb.Desired())
    ensures var lb' := Reconcile(lb, vms, a).lb; SameSpec(lb, lb') && Monotone(lb, lb')
  {
    if lb.deleting {
      ReconcileDeleteFrame(lb, vms, a);
      PersistFrame(lb, ReconcileDelete(lb, vms, a).lb, a);
    } else {
      ReconcileNormalFrame(lb, vms, a);
      PersistFrame(lb, ReconcileNormal(lb, vms, a).lb, a);
    }
  }

  lemma ReconcileKeepsNamesDistinct(lb: LB, vms: set<VM>, a: Answers)
    requires !lb.deleting && Faithful(lb, vms, a)
    ensures DistinctNames(Reconcile(lb, vms, a).vms)
  {
    ReconcileShape(lb, vms, a);
  }

  /** The replicas condition a reconcile persists. */
  ghost function ConditionAfter(lb: LB, vms: set<VM>, a: Answers): Option<Condition> {
    if !a.patchOk || lb.specReplicas.None? || !a.listOk then lb.replicasReady
    else if FirstFailure(Live(a.items)).Some? then
      NotReady(FirstFailure(Live(a.items)).value.reason, FirstFailure(Live(a.items)).value.message)
    else
      match DecisionOf(lb, vms, a)
      case KeepWaiting => lb.replicasReady
      case WaitForReady => NotReady(WaitingForReplicasReady, "")
      case AddReplica => if lb.AreUpgrading() then lb.replicasReady else NotReady(ScalingUp, "")
      case RemoveReplica => if lb.AreUpgrading() then lb.replicasReady else NotReady(ScalingDown, "")
      case Upgrade => NotReady(Upgrading, "")
      case Settled => if IsFalse(lb.replicasReady)
                      then Some(Condition(StatusTrue, AllReplicasReady, "")) else lb.replicasReady
  }

  lemma VMsCondition(lb: LB, vms: set<VM>, a: Answers)
    requires Faithful(lb, vms, a) && a.patchOk && lb.specReplicas.Some?
    ensures ReconcileVMs(lb.(finalizer := true), vms, a).lb.replicasReady == ConditionAfter(lb, vms, a)
  {
    if a.listOk && FirstFailure(Live(a.items)).None? {
      FaithfulList(lb, vms, a);
      ObservedFields(lb, vms, a);
      ActFrame(Observed(lb, a), vms, vms, a);
    }
  }

  lemma PersistedCondition(lb: LB, vms: set<VM>, a: Answers)
    requires !lb.deleting && Faithful(lb, vms, a) && a.close.conditionsOk
    ensures Reconcile(lb, vms, a).lb.replicasReady == ConditionAfter(lb, vms, a)
  {
    if a.patchOk && lb.specReplicas.Some? {
      VMsCondition(lb, vms, a);
      ServiceFrame(ReconcileVMs(lb.(finalizer := true), vms, a), a);
    }
    StatusFrame(ReconcileNormal(lb, vms, a).lb);
  }
}
