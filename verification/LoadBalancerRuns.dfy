/** Runs of the load balancer controller against its environment: reconciles in any order with
    spec edits, a deletion request, replicas becoming ready or unready, and replicas lost. */
module LoadBalancerRuns {
  import opened Basics
  import opened VirtualMachineOrder
  import opened LoadBalancer
  import opened ReplicaSafety

  /** The persisted resource, its live replica VMs and those of them the service can use. */
  datatype World = World(lb: LB, vms: set<VM>, ready: set<VM>)

  datatype Event =
    | Reconciled(answers: Answers)
    | SpecEdited(replicas: Option<int>, version: Option<string>)
    | DeleteRequested
    | BecameReady(vm: VM)
    | BecameUnready(vm: VM)
    | Lost(vm: VM)

  ghost predicate WellFormed(w: World) {
    DistinctNames(w.vms) && w.ready <= w.vms && IsInt32(w.lb.Desired())
  }

  ghost predicate Allowed(w: World, e: Event) {
    match e
    case Reconciled(a) => (w.lb.deleting ==> w.lb.finalizer) && Faithful(w.lb, w.vms, a)
    case SpecEdited(replicas, _) => replicas.Some? ==> IsInt32(replicas.value)
    case DeleteRequested => true
    case BecameReady(vm) => vm in w.vms
    case BecameUnready(vm) => true
    case Lost(vm) => true
  }

  ghost function Next(w: World, e: Event): World {
    match e
    case Reconciled(a) =>
      var p := Reconcile(w.lb, w.vms, a);
      World(p.lb, p.vms, w.ready * p.vms)
    case SpecEdited(replicas, version) =>
      w.(lb := w.lb.(specReplicas := replicas, imageVersion := version))
    case DeleteRequested => w.(lb := w.lb.(deleting := true))
    case BecameReady(vm) => w.(ready := w.ready + {vm})
    case BecameUnready(vm) => w.(ready := w.ready - {vm})
    case Lost(vm) => w.(vms := w.vms - {vm}, ready := w.ready - {vm})
  }

  ghost function Run(w: World, es: seq<Event>): World
    decreases |es|
  {
    if es == [] then w else Run(Next(w, es[0]), es[1..])
  }

  ghost predicate ValidRun(w: World, es: seq<Event>)
    decreases |es|
  {
    es == [] || (Allowed(w, es[0]) && ValidRun(Next(w, es[0]), es[1..]))
  }

  /** A resource as it is created: no status yet. */
  ghost predicate Fresh(w: World) {
    && WellFormed(w) && w.vms == {}
    && !w.lb.ready && w.lb.replicas == 0 && w.lb.readyReplicas == 0 && w.lb.address == ""
    && w.lb.phase.NoPhase? && w.lb.replicasReady.None? && w.lb.infraReady.None?
  }

  lemma DeleteShrinks(vms: set<VM>, listed: seq<VM>, a: Answers, k: nat)
    ensures DeleteFrom(vms, listed, a, k).0 <= vms
    decreases |listed| - k
  {
  }

  lemma NextWellFormed(w: World, e: Event)
    requires WellFormed(w) && Allowed(w, e)
    ensures WellFormed(Next(w, e))
  {
    if e.Reconciled? {
      ReconcileFrame(w.lb, w.vms, e.answers);
      if w.lb.deleting {
        DeleteShrinks(w.vms, Identities(Live(e.answers.items)), e.answers, 0);
      } else {
        ReconcileKeepsNamesDistinct(w.lb, w.vms, e.answers);
      }
    }
  }

  /** A run over `es + [e]` ends with the step `e`. */
  lemma {:induction false} RunSnoc(w: World, es: seq<Event>, e: Event)
    ensures Run(w, es + [e]) == Next(Run(w, es), e)
    ensures ValidRun(w, es + [e]) <==> ValidRun(w, es) && Allowed(Run(w, es), e)
    decreases |es|
  {
    var all := es + [e];
    if es == [] {
      assert all[1..] == [];
    } else {
      assert all[0] == es[0] && all[1..] == es[1..] + [e];
      RunSnoc(Next(w, es[0]), es[1..], e);
    }
  }

  lemma {:induction false} RunWellFormed(w: World, es: seq<Event>)
    requires WellFormed(w) && ValidRun(w, es)
    ensures WellFormed(Run(w, es))
    decreases |es|
  {
    if es != [] {
      NextWellFormed(w, es[0]);
      RunWellFormed(Next(w, es[0]), es[1..]);
    }
  }

  // ----- the address and readiness never go back -----

  /** Over every run, an address once known never changes and a load balancer once ready stays so. */
  lemma {:induction false} AddressIsStable(w: World, es: seq<Event>)
    requires WellFormed(w) && ValidRun(w, es)
    ensures Monotone(w.lb, Run(w, es).lb)
    decreases |es|
  {
    if es != [] {
      if es[0].Reconciled? { ReconcileFrame(w.lb, w.vms, es[0].answers); }
      NextWellFormed(w, es[0]);
      AddressIsStable(Next(w, es[0]), es[1..]);
    }
  }

  // ----- deletion -----

  lemma {:induction false} DeletesAllListed(vms: set<VM>, listed: seq<VM>, a: Answers, k: nat)
    requires k <= |listed| && DeleteFrom(vms, listed, a, k).1
    ensures DeleteFrom(vms, listed, a, k).0 == vms - Elements(listed[k..])
    decreases |listed| - k
  {
    if k < |listed| {
      assert a.DeleteOf(k).Ok();
      DeletesAllListed(vms - {listed[k]}, listed, a, k + 1);
      assert listed[k..] == [listed[k]] + listed[k + 1..];
    }
  }

  /** When a reconcile removes the finalizer, the service is deleted and no live replica is left; and
      while the deletion is under way no reconcile adds a replica. */
  lemma DeletionIsComplete(w: World, a: Answers)
    requires WellFormed(w) && Allowed(w, Reconciled(a)) && w.lb.deleting
    ensures var w' := Next(w, Reconciled(a));
      && w'.vms <= w.vms
      && (!w'.lb.finalizer ==> a.serviceDelete.None? && w'.vms == {})
  {
    var listed := Identities(Live(a.items));
    DeleteShrinks(w.vms, listed, a, 0);
    StatusFrame(ReconcileDelete(w.lb, w.vms, a).lb);
    if a.listOk && DeleteFrom(w.vms, listed, a, 0).1 {
      FaithfulList(w.lb, w.vms, a);
      DeletesAllListed(w.vms, listed, a, 0);
      assert listed[0..] == listed;
    }
  }

  // ----- fixed spec: the surge bound over whole runs -----

  /** The run edits no spec and requests no deletion. */
  predicate FixedSpec(es: seq<Event>) {
    forall e :: e in es ==> !e.SpecEdited? && !e.DeleteRequested?
  }

  lemma StepKeepsSpec(w: World, e: Event)
    requires WellFormed(w) && Allowed(w, e) && !e.SpecEdited? && !e.DeleteRequested?
    ensures SameSpec(w.lb, Next(w, e).lb)
  {
    if e.Reconciled? { ReconcileFrame(w.lb, w.vms, e.answers); }
  }

  /** A run that starts at or below `desired + MaxSurge` replicas never exceeds it. */
  lemma {:induction false} RunNeverExceedsSurge(w: World, es: seq<Event>)
    requires WellFormed(w) && ValidRun(w, es) && FixedSpec(es) && !w.lb.deleting
    requires |w.vms| <= w.lb.Desired() + MAX_SURGE
    ensures |Run(w, es).vms| <= w.lb.Desired() + MAX_SURGE
    decreases |es|
  {
    if es != [] {
      var w' := Next(w, es[0]);
      NextWellFormed(w, es[0]);
      StepKeepsSpec(w, es[0]);
      if es[0].Reconciled? { SurgeAndFloor(w.lb, w.vms, es[0].answers); }
      RunNeverExceedsSurge(w', es[1..]);
    }
  }

  /** Unless replicas are lost from outside, a run never takes the count below the smaller of
      where it started and `desired`. */
  lemma {:induction false} RunKeepsFloor(w: World, es: seq<Event>)
    requires WellFormed(w) && ValidRun(w, es) && FixedSpec(es) && !w.lb.deleting
    requires forall e :: e in es ==> !e.Lost?
    ensures |Run(w, es).vms| >= Min(|w.vms|, w.lb.Desired())
    decreases |es|
  {
    if es != [] {
      NextWellFormed(w, es[0]);
      StepKeepsSpec(w, es[0]);
      if es[0].Reconciled? { SurgeAndFloor(w.lb, w.vms, es[0].answers); }
      RunKeepsFloor(Next(w, es[0]), es[1..]);
    }
  }

  // ----- a truthful phase -----

  /** The replicas condition is false, or true with the reason `AllReplicasReady`. In particular
      the reasons `Upgrading`, `ScalingUp` and `ScalingDown` always come with status false. */
  predicate ConditionInv(lb: LB) {
    lb.replicasReady.Some? ==>
      || lb.replicasReady.value.status.StatusFalse?
      || (lb.replicasReady.value.status.StatusTrue? && lb.replicasReady.value.reason == AllReplicasReady)
  }

  lemma VMsKeepConditionInv(lb: LB, vms: set<VM>, a: Answers)
    requires ConditionInv(lb)
    ensures ConditionInv(ReconcileVMs(lb, vms, a).lb)
  {
    var live := Live(a.items);
    if a.listOk && FirstFailure(live).None? {
      var lb1 := UpdateReplicaStatus(lb, live, a.statusRead);
      ActFrame(lb1, vms, Elements(Identities(live)), a);
    }
  }

  lemma NormalKeepsConditionInv(lb: LB, vms: set<VM>, a: Answers)
    requires ConditionInv(lb)
    ensures ConditionInv(ReconcileNormal(lb, vms, a).lb)
  {
    var lb0 := lb.(finalizer := true);
    VMsKeepConditionInv(lb0, vms, a);
    ServiceFrame(ReconcileVMs(lb0, vms, a), a);
  }

  lemma DeleteKeepsCondition(lb: LB, vms: set<VM>, a: Answers)
    ensures ReconcileDelete(lb, vms, a).lb.replicasReady == lb.replicasReady
  {
  }

  lemma NextKeepsConditionInv(w: World, e: Event)
    requires ConditionInv(w.lb)
    ensures ConditionInv(Next(w, e).lb)
  {
    if e.Reconciled? {
      var a := e.answers;
      NormalKeepsConditionInv(w.lb, w.vms, a);
      DeleteKeepsCondition(w.lb, w.vms, a);
      var after := if w.lb.deleting then ReconcileDelete(w.lb, w.vms, a).lb else ReconcileNormal(w.lb, w.vms, a).lb;
      StatusFrame(after);
      PersistFields(w.lb, ReconcileStatus(after), a);
    }
  }

  lemma {:induction false} RunKeepsConditionInv(w: World, es: seq<Event>)
    requires ConditionInv(w.lb)
    ensures ConditionInv(Run(w, es).lb)
    decreases |es|
  {
    if es != [] {
      NextKeepsConditionInv(w, es[0]);
      RunKeepsConditionInv(Next(w, es[0]), es[1..]);
    }
  }

  /** Every decision but `Settled` leaves the replicas condition false. */
  lemma UnsettledMeansFalse(lb: LB, vms: set<VM>, a: Answers)
    requires ConditionInv(lb) && IsInt32(lb.replicas)
    requires !Decide(lb, Outdated(vms, lb.OSVersion()) != {}).Settled?
    ensures IsFalse(Act(lb, vms, vms, a).lb.replicasReady)
  {
    ActFrame(lb, vms, vms, a);
  }

  lemma SettledMeans(lb: LB, vms: set<VM>, a: Answers)
    requires lb.replicas == |vms| <= INT32_MAX
    requires Decide(lb, Outdated(vms, lb.OSVersion()) != {}).Settled?
    ensures |vms| == lb.Desired() && |vms| <= lb.readyReplicas && Outdated(vms, lb.OSVersion()) == {}
    ensures var p := Act(lb, vms, vms, a);
      p.vms == vms && p.result.Done? && p.lb == lb.(replicasReady := p.lb.replicasReady)
  {
  }

  /** With the condition invariant, a pass that does not leave the replicas condition false has
      found the desired number of replicas, all observed ready and none outdated. */
  lemma NotFalseMeansSettled(lb: LB, vms: set<VM>, a: Answers)
    requires ConditionInv(lb) && Faithful(lb, vms, a)
    requires var p := ReconcileVMs(lb, vms, a); !p.result.Error? && !IsFalse(p.lb.replicasReady)
    ensures a.listOk && FirstFailure(Live(a.items)).None?
    ensures |vms| == lb.Desired() && |vms| <= ObservedReady(lb, a) && Outdated(vms, lb.OSVersion()) == {}
    ensures var p := ReconcileVMs(lb, vms, a);
      && p.vms == vms && p.result.Done?
      && p.lb == UpdateReplicaStatus(lb, Live(a.items), a.statusRead).(replicasReady := p.lb.replicasReady)
  {
    var live := Live(a.items);
    var lb1 := UpdateReplicaStatus(lb, live, a.statusRead);
    var p := ReconcileVMs(lb, vms, a);
    assert a.listOk && FirstFailure(live).None?;
    FaithfulList(lb, vms, a);
    assert p == Act(lb1, vms, vms, a);
    if !Decide(lb1, Outdated(vms, lb1.OSVersion()) != {}).Settled? { UnsettledMeansFalse(lb1, vms, a); }
    SettledMeans(lb1, vms, a);
  }

  /** The pass read the service a second time, because the first read brought no address. */
  predicate SecondRead(lb: LB, a: Answers) {
    lb.address == "" && (a.statusRead.None? || a.statusRead.value.address == "")
  }

  /** What the phase `provisioned` promises of the resource and its replicas. */
  ghost predicate SpecMet(w: World) {
    && |w.vms| == w.lb.Desired() == w.lb.replicas
    && (forall v :: v in w.vms ==> v.version == w.lb.OSVersion())
    && w.lb.address != "" && w.lb.ready
    && (w.vms == {} || w.lb.readyReplicas >= 1)
  }

  /** What it says of the pass that persisted it, given the answers: nothing was changed, and all replicas were
      observed ready. */
  ghost predicate ProvisionedTruly(w: World, w': World, a: Answers) {
    && SpecMet(w') && w'.vms == w.vms
    && |w'.vms| <= ObservedReady(w.lb, a)
    && (!SecondRead(w.lb, a) ==> w'.lb.readyReplicas >= |w'.vms|)
  }

  /** The pass looks at the replicas: the early patch succeeds and the spec gives a count. */
  predicate Looks(lb: LB, a: Answers) {
    a.patchOk && lb.specReplicas.Some?
  }

  /** It finds nothing to do: the desired number of replicas, all observed ready, none outdated. */
  ghost predicate Settles(lb: LB, vms: set<VM>, a: Answers) {
    && Decides(lb, a) && |vms| == lb.Desired() && |vms| <= ObservedReady(lb, a)
    && Outdated(vms, lb.OSVersion()) == {}
  }

  /** It gets past the gates of the service: the service itself, an address, and a replica counted ready. */
  predicate PassesGates(lb: LB, vms: set<VM>, a: Answers) {
    && a.service.ServiceOk?
    && (SecondRead(lb, a) ==>
          && a.addressRead.Some? && a.addressRead.value.address != ""
          && (vms == {} || a.addressRead.value.replicationCount >= 1))
  }

  /** Settled passes, and no other, leave the replicas condition not false. */
  lemma SettledExactly(lb: LB, vms: set<VM>, a: Answers)
    requires !lb.deleting && ConditionInv(lb) && Faithful(lb, vms, a) && Looks(lb, a)
    ensures var p := ReconcileVMs(lb.(finalizer := true), vms, a);
      !p.result.Error? && !IsFalse(p.lb.replicasReady) <==> Settles(lb, vms, a)
  {
    var lb0 := lb.(finalizer := true);
    var p := ReconcileVMs(lb0, vms, a);
    if Settles(lb, vms, a) {
      ObservedFields(lb, vms, a);
      FaithfulList(lb, vms, a);
      var lb1 := Observed(lb, a);
      assert p == Act(lb1, vms, vms, a);
      ActFrame(lb1, vms, vms, a);
      SettledMeans(lb1, vms, a);
    } else if !p.result.Error? && !IsFalse(p.lb.replicasReady) {
      NotFalseMeansSettled(lb0, vms, a);
      assert false;
    }
  }

  /** The resource a settled pass hands to the service part. */
  lemma SettledPass(lb: LB, vms: set<VM>, a: Answers)
    requires !lb.deleting && ConditionInv(lb) && Faithful(lb, vms, a) && Looks(lb, a) && Settles(lb, vms, a)
    ensures var p := ReconcileVMs(lb.(finalizer := true), vms, a);
      && p.vms == vms && p.result.Done?
      && p.lb == Observed(lb, a).(replicasReady := p.lb.replicasReady)
  {
    SettledExactly(lb, vms, a);
    NotFalseMeansSettled(lb.(finalizer := true), vms, a);
  }

  /** Passes that get past the gates, and no other, leave the infrastructure condition not false. */
  lemma GatesExactly(p: Pass, lb: LB, vms: set<VM>, a: Answers)
    requires |vms| <= INT32_MAX && Settles(lb, vms, a) && Faithful(lb, vms, a)
    requires p.vms == vms && p.lb == Observed(lb, a).(replicasReady := p.lb.replicasReady)
    ensures !IsFalse(ReconcileService(p, a).lb.infraReady) <==> PassesGates(lb, vms, a)
    ensures PassesGates(lb, vms, a) ==>
              var lb' := ReconcileService(p, a).lb;
              && lb'.address != "" && lb'.ready && lb'.replicas == |vms|
              && lb'.readyReplicas == (if SecondRead(lb, a) then a.addressRead.value.replicationCount
                                       else ObservedReady(lb, a))
  {
    ObservedFields(lb, vms, a);
  }

  /** What the pass in memory comes to: the phase is `provisioned` just when it settles and passes the gates, on a
      resource that had a phase and no terminal error. */
  lemma MemoryPhase(lb: LB, vms: set<VM>, a: Answers)
    requires !lb.deleting && ConditionInv(lb) && Faithful(lb, vms, a) && Looks(lb, a)
    ensures PhaseOf(ReconcileNormal(lb, vms, a).lb).Provisioned? <==>
      && lb.errorReason.None? && !lb.phase.NoPhase?
      && Settles(lb, vms, a) && PassesGates(lb, vms, a)
  {
    var p := ReconcileVMs(lb.(finalizer := true), vms, a);
    ReconcileNormalFrame(lb, vms, a);
    SettledExactly(lb, vms, a);
    ServiceFrame(p, a);
    if Settles(lb, vms, a) {
      SettledPass(lb, vms, a);
      GatesExactly(p, lb, vms, a);
    }
  }

  /** The status a pass persists is that of the resource in memory. */
  lemma StatusPersisted(lb: LB, vms: set<VM>, a: Answers)
    requires !lb.deleting && a.close.statusOk
    ensures var lb', m := Reconcile(lb, vms, a).lb, ReconcileNormal(lb, vms, a).lb;
      && lb'.phase == PhaseOf(m) && lb'.address == m.address && lb'.ready == m.ready
      && lb'.replicas == m.replicas && lb'.readyReplicas == m.readyReplicas
      && Reconcile(lb, vms, a).vms == ReconcileNormal(lb, vms, a).vms
  {
  }

  /** Exactly when a pass that looks persists the phase `provisioned`, and what it leaves then. */
  lemma ProvisionedStep(w: World, a: Answers)
    requires WellFormed(w) && ConditionInv(w.lb) && Allowed(w, Reconciled(a))
    requires !w.lb.deleting && Looks(w.lb, a) && a.close.statusOk
    ensures var w' := Next(w, Reconciled(a));
      && (w'.lb.phase.Provisioned? <==>
            && w.lb.errorReason.None? && !w.lb.phase.NoPhase?
            && Settles(w.lb, w.vms, a) && PassesGates(w.lb, w.vms, a))
      && (w'.lb.phase.Provisioned? ==>
            && ProvisionedTruly(w, w', a)
            && w'.lb.readyReplicas == (if SecondRead(w.lb, a) then a.addressRead.value.replicationCount
                                       else ObservedReady(w.lb, a)))
  {
    MemoryPhase(w.lb, w.vms, a);
    StatusPersisted(w.lb, w.vms, a);
    ReconcileFrame(w.lb, w.vms, a);
    if Settles(w.lb, w.vms, a) && PassesGates(w.lb, w.vms, a) {
      SettledPass(w.lb, w.vms, a);
      GatesExactly(ReconcileVMs(w.lb.(finalizer := true), w.vms, a), w.lb, w.vms, a);
      forall v | v in w.vms ensures v.version == w.lb.OSVersion() {
        assert v !in Outdated(w.vms, w.lb.OSVersion());
      }
    }
  }

  /** Truthful phase: in every run from a new resource, a reconcile that looks and persists the phase
      `provisioned` leaves exactly the desired replicas, all of the target version, an address, and zero
      replicas or at least one ready. */
  lemma TruthfulPhase(w: World, es: seq<Event>, a: Answers)
    requires Fresh(w) && ValidRun(w, es + [Reconciled(a)])
    requires var m := Run(w, es); !m.lb.deleting && Looks(m.lb, a) && a.close.statusOk
    requires Run(w, es + [Reconciled(a)]).lb.phase.Provisioned?
    ensures ProvisionedTruly(Run(w, es), Run(w, es + [Reconciled(a)]), a)
  {
    RunSnoc(w, es, Reconciled(a));
    RunWellFormed(w, es);
    RunKeepsConditionInv(w, es);
    ProvisionedStep(Run(w, es), a);
  }

  /** And the converse: it persists that phase exactly when it settles and passes the gates, on a resource that
      had a phase and no terminal error. */
  lemma ProvisionedExactly(w: World, es: seq<Event>, a: Answers)
    requires Fresh(w) && ValidRun(w, es + [Reconciled(a)])
    requires var m := Run(w, es); !m.lb.deleting && Looks(m.lb, a) && a.close.statusOk
    ensures var m := Run(w, es);
      Run(w, es + [Reconciled(a)]).lb.phase.Provisioned? <==>
        && m.lb.errorReason.None? && !m.lb.phase.NoPhase?
        && Settles(m.lb, m.vms, a) && PassesGates(m.lb, m.vms, a)
  {
    RunSnoc(w, es, Reconciled(a));
    RunWellFormed(w, es);
    RunKeepsConditionInv(w, es);
    ProvisionedStep(Run(w, es), a);
  }

  /** The count of ready replicas the resource reports with `provisioned`: it covers all replicas exactly when
      the pass read the service once, or the second read still counted every replica. */
  lemma AllCountedWhenProvisioned(w: World, es: seq<Event>, a: Answers)
    requires Fresh(w) && ValidRun(w, es + [Reconciled(a)])
    requires var m := Run(w, es); !m.lb.deleting && Looks(m.lb, a) && a.close.statusOk
    requires Run(w, es + [Reconciled(a)]).lb.phase.Provisioned?
    ensures var m, m' := Run(w, es), Run(w, es + [Reconciled(a)]);
      m'.lb.readyReplicas >= |m'.vms| <==>
        !SecondRead(m.lb, a) || (a.addressRead.Some? && a.addressRead.value.replicationCount >= |m.vms|)
  {
    RunSnoc(w, es, Reconciled(a));
    RunWellFormed(w, es);
    RunKeepsConditionInv(w, es);
    ProvisionedStep(Run(w, es), a);
  }

  /** A pass that does not look persists `provisioned` on the conditions left from before, whatever the
      replicas are. */
  lemma BlindPhase(w: World, a: Answers)
    requires !w.lb.deleting && a.close.statusOk && !Looks(w.lb, a)
    ensures var w' := Next(w, Reconciled(a));
      && w'.vms == w.vms
      && w'.lb == w.lb.(finalizer := w'.lb.finalizer, selector := w'.lb.selector, phase := w'.lb.phase,
                        infraReady := w'.lb.infraReady)
      && (w'.lb.phase.Provisioned? <==>
            && w.lb.errorReason.None? && !w.lb.phase.NoPhase?
            && !IsFalse(w.lb.replicasReady) && !IsFalse(w.lb.infraReady))
  {
    StatusFrame(w.lb.(finalizer := true));
  }

  /** So in every run, what a persisted `provisioned` promises is true exactly when the pass looked, or it was
      true before the pass. */
  lemma PhaseIsFresh(w: World, es: seq<Event>, a: Answers)
    requires Fresh(w) && ValidRun(w, es + [Reconciled(a)])
    requires !Run(w, es).lb.deleting && a.close.statusOk
    requires Run(w, es + [Reconciled(a)]).lb.phase.Provisioned?
    ensures var m, m' := Run(w, es), Run(w, es + [Reconciled(a)]);
      SpecMet(m') <==> Looks(m.lb, a) || SpecMet(m)
  {
    RunSnoc(w, es, Reconciled(a));
    if Looks(Run(w, es).lb, a) {
      TruthfulPhase(w, es, a);
    } else {
      BlindPhase(Run(w, es), a);
    }
  }

  lemma PhaseStaysOnce(w: World, e: Event)
    requires !w.lb.phase.NoPhase? || (e.Reconciled? && e.answers.close.statusOk)
    ensures !Next(w, e).lb.phase.NoPhase?
  {
    if e.Reconciled? {
      var a := e.answers;
      var after := if w.lb.deleting then ReconcileDelete(w.lb, w.vms, a).lb else ReconcileNormal(w.lb, w.vms, a).lb;
      PersistFields(w.lb, ReconcileStatus(after), a);
    }
  }

  /** A phase is there once a reconcile has persisted its status, and stays. */
  lemma {:induction false} PhaseStays(w: World, es: seq<Event>)
    requires !w.lb.phase.NoPhase? || exists e :: e in es && e.Reconciled? && e.answers.close.statusOk
    ensures !Run(w, es).lb.phase.NoPhase?
    decreases |es|
  {
    if es != [] {
      if !w.lb.phase.NoPhase? || (es[0].Reconciled? && es[0].answers.close.statusOk) {
        PhaseStaysOnce(w, es[0]);
      } else {
        var e :| e in es && e.Reconciled? && e.answers.close.statusOk;
        assert e in es[1..];
      }
      PhaseStays(Next(w, es[0]), es[1..]);
    }
  }
}
