/** Concrete runs, all from a new load balancer, in which a plausible guarantee of the replica manager fails,
    each matching the exact condition proved for that guarantee; and a run that shows what an upgrade costs. */
module ReplicaCounterexamples {
  import opened Basics
  import opened VirtualMachineOrder
  import opened LoadBalancer
  import opened ReplicaSafety
  import opened LoadBalancerRuns
  import opened ReplicaAvailability
  import ReplicaConvergence

  function Healthy(v: VM): ListedVM {
    ListedVM(v, false, Some(Condition(StatusTrue, Other("Succeeded"), "")), Some(Succeeded))
  }

  function Provisioning(v: VM): ListedVM {
    ListedVM(v, false, Some(Condition(StatusFalse, Other("VMProvisionFailed"), "")), None)
  }

  /** A pass all of whose calls succeed, except possibly the reads of the service. */
  function Quiet(items: seq<ListedVM>, read: Option<ServiceStatus>, name: string, created: int): Answers {
    Answers(true, true, items, read, [CreateOutcome(true, true, name, created)], DeleteOutcome(CallOk, CallOk, true),
            ServiceOk, None, 6443, None, [], ErrorTexts("", ""), CloseOutcome(true, true, true))
  }

  const ADDRESS := "10.0.0.1"

  function Count(n: int): Option<ServiceStatus> {
    Some(ServiceStatus(ADDRESS, n))
  }

  lemma LiveOne(x: ListedVM)
    requires !x.deleting
    ensures Live([x]) == [x] && ListedVMs([x]) == {x.vm} && |LiveIndices([x])| == 1
  {
    assert Live([x]) == [x];
    assert Identities([x])[0] == x.vm;
    ListedLive([x]);
  }

  lemma LiveTwo(x: ListedVM, y: ListedVM)
    requires !x.deleting && !y.deleting && x.vm != y.vm
    ensures Live([x, y]) == [x, y] && ListedVMs([x, y]) == {x.vm, y.vm}
    ensures |LiveIndices([x, y])| == 2 && |{x.vm, y.vm}| == 2
  {
    assert [x, y][1..] == [y];
    LiveOne(y);
    assert Live([x, y]) == [x] + Live([y]);
    assert Identities([x, y])[0] == x.vm && Identities([x, y])[1] == y.vm;
    ListedLive([x, y]);
  }

  lemma LiveNone()
    ensures Live([]) == [] && ListedVMs([]) == {} && LiveIndices([]) == {}
  {
  }

  // ----- building runs -----

  lemma {:induction false} HonestSnoc(w: World, es: seq<Event>, e: Event)
    requires HonestRun(w, es) && (e.Reconciled? ==> Honest(Run(w, es), e.answers))
    ensures HonestRun(w, es + [e])
    decreases |es|
  {
    var all := es + [e];
    if es == [] {
      assert all[1..] == [];
    } else {
      assert all[0] == es[0] && all[1..] == es[1..] + [e];
      HonestSnoc(Next(w, es[0]), es[1..], e);
    }
  }

  /** One more event of a valid and honest run. */
  lemma RunOn(w: World, es: seq<Event>, e: Event)
    requires ValidRun(w, es) && HonestRun(w, es) && Allowed(Run(w, es), e)
    requires e.Reconciled? ==> Honest(Run(w, es), e.answers)
    ensures ValidRun(w, es + [e]) && HonestRun(w, es + [e]) && Run(w, es + [e]) == Next(Run(w, es), e)
  {
    RunSnoc(w, es, e);
    HonestSnoc(w, es, e);
  }

  /** A load balancer as it is created, with `n` replicas wanted at version "1". */
  function NewWorld(n: int): World {
    World(LB("lb", false, false, Some(n), Some("1"), false, 0, 0, 0, "", 0, NoPhase, None, "", None, None), {}, {})
  }

  function ReplicaA(): VM { VM("a", 1, "1") }
  function ReplicaB(): VM { VM("b", 2, "1") }
  function ReplicaC(): VM { VM("c", 3, "1") }

  /** A pass in which the service, without address yet, counts `n` replicas, and its second read fails. */
  function Early(items: seq<ListedVM>, n: int, name: string, created: int): Answers {
    Quiet(items, Some(ServiceStatus("", n)), name, created)
  }

  lemma EarlyStatus(lb: LB, vms: set<VM>, items: seq<ListedVM>, n: int, name: string, created: int)
    requires !lb.deleting && IsInt32(lb.Desired()) && lb.address == ""
    ensures var lb' := Reconcile(lb, vms, Early(items, n, name, created)).lb;
      lb'.address == "" && !lb'.phase.NoPhase? && SameSpec(lb, lb')
  {
    var a := Early(items, n, name, created);
    ReconcileFrame(lb, vms, a);
    var lb0 := lb.(finalizer := true);
    if lb.specReplicas.Some? {
      var live := Live(a.items);
      if FirstFailure(live).None? {
        ActFrame(UpdateReplicaStatus(lb0, live, a.statusRead), vms, Elements(Identities(live)), a);
      }
      ServiceFrame(ReconcileVMs(lb0, vms, a), a);
    }
  }

  /** Below the desired count, with all replicas counted, such a pass creates one. */
  lemma EarlyCreate(w: World, items: seq<ListedVM>, name: string, created: int)
    requires var a := Early(items, |w.vms|, name, created);
      && WellFormed(w) && Faithful(w.lb, w.vms, a) && Decides(w.lb, a) && w.lb.address == ""
      && |w.vms| < w.lb.Desired()
    ensures var a := Early(items, |w.vms|, name, created);
      var w' := Next(w, Reconciled(a));
      && w'.vms == w.vms + {VM(name, created, w.lb.OSVersion())} && w'.ready == w.ready
      && w'.lb.address == "" && !w'.lb.phase.NoPhase? && SameSpec(w.lb, w'.lb)
  {
    var a := Early(items, |w.vms|, name, created);
    ReconcileEffect(w.lb, w.vms, a);
    EarlyStatus(w.lb, w.vms, items, |w.vms|, name, created);
    assert w.ready * (w.vms + {VM(name, created, w.lb.OSVersion())}) == w.ready;
  }

  /** The first replica is created, and becomes ready. */
  function FirstEvents(): seq<Event> {
    [] + [Reconciled(Early([], 0, "a", 1))] + [BecameReady(ReplicaA())]
  }

  lemma FirstReplica(n: int)
    requires 1 <= n <= INT32_MAX
    ensures var e, w := Reconciled(Early([], 0, "a", 1)), NewWorld(n);
      && Fresh(w) && Allowed(w, e) && Honest(w, e.answers) && Decides(w.lb, e.answers)
      && Next(w, e).vms == {ReplicaA()} && Next(w, e).ready == {}
      && Next(w, e).lb.address == "" && SameSpec(w.lb, Next(w, e).lb)
  {
    var a := Early([], 0, "a", 1);
    LiveNone();
    assert a.Create(0) in a.creates;
    EarlyCreate(NewWorld(n), [], "a", 1);
  }

  lemma FirstRun(n: int)
    requires 1 <= n <= INT32_MAX
    ensures var w := Run(NewWorld(n), FirstEvents());
      && Fresh(NewWorld(n)) && ValidRun(NewWorld(n), FirstEvents()) && HonestRun(NewWorld(n), FirstEvents())
      && w.vms == {ReplicaA()} && w.ready == {ReplicaA()} && w.lb.address == "" && SameSpec(NewWorld(n).lb, w.lb)
  {
    var e1, e2 := Reconciled(Early([], 0, "a", 1)), BecameReady(ReplicaA());
    FirstReplica(n);
    RunOn(NewWorld(n), [], e1);
    RunOn(NewWorld(n), [] + [e1], e2);
  }

  // ----- an upgrade -----

  function NewVM(): VM { VM("b", 2, "2") }

  /** One replica, ready, and version "2" wanted. */
  ghost predicate UpgradeDue(w: World) {
    SameSpec(NewWorld(1).lb.(imageVersion := Some("2")), w.lb) && w.vms == {ReplicaA()} && w.ready == {ReplicaA()}
  }

  function UpgradeDueEvents(): seq<Event> {
    FirstEvents() + [SpecEdited(Some(1), Some("2"))]
  }

  lemma UpgradeDueRun()
    ensures var w := Run(NewWorld(1), UpgradeDueEvents());
      && Fresh(NewWorld(1)) && ValidRun(NewWorld(1), UpgradeDueEvents()) && HonestRun(NewWorld(1), UpgradeDueEvents())
      && UpgradeDue(w) && WellFormed(w) && UpgradeInv(w)
  {
    FirstRun(1);
    RunOn(NewWorld(1), FirstEvents(), SpecEdited(Some(1), Some("2")));
    RunWellFormed(NewWorld(1), UpgradeDueEvents());
  }

  function StartPass(): Answers {
    Quiet([Healthy(ReplicaA())], Count(1), "b", 2)
  }

  /** The surge replica is there and not ready. */
  ghost predicate Surged(w: World) {
    && SameSpec(NewWorld(1).lb.(imageVersion := Some("2")), w.lb)
    && w.vms == {ReplicaA(), NewVM()} && w.ready == {ReplicaA()}
  }

  lemma StartPassAnswers(lb: LB)
    requires SameSpec(NewWorld(1).lb.(imageVersion := Some("2")), lb)
    ensures Faithful(lb, {ReplicaA()}, StartPass()) && VMsAfter(lb, {ReplicaA()}, StartPass()) == {ReplicaA(), NewVM()}
    ensures ReplicaConvergence.Undisturbed(lb, {ReplicaA()}, StartPass()) && ReplicaA() in Outdated({ReplicaA()}, "2")
    ensures ConditionAfter(lb, {ReplicaA()}, StartPass()) == NotReady(Upgrading, "")
  {
    LiveOne(Healthy(ReplicaA()));
    assert StartPass().Create(0) in StartPass().creates;
    assert ReplicaA() in Outdated({ReplicaA()}, "2");
  }

  /** The upgrade starts: a surge replica is created, the reason is `Upgrading`. */
  lemma UpgradeStarts(w: World)
    requires UpgradeDue(w)
    ensures var w' := Next(w, Reconciled(StartPass()));
      && Allowed(w, Reconciled(StartPass())) && Honest(w, StartPass())
      && Surged(w') && w'.lb.AreUpgrading()
  {
    StartPassAnswers(w.lb);
    ReconcileEffect(w.lb, w.vms, StartPass());
    ReconcileFrame(w.lb, w.vms, StartPass());
    PersistedCondition(w.lb, w.vms, StartPass());
  }

  /** A pass over the old and the new replica, `x` and `y` as listed, with `n` counted. */
  function SurgedPass(y: ListedVM, n: int): Answers {
    Quiet([Healthy(ReplicaA()), y], Count(n), "c", 3)
  }

  lemma SurgedFaithful(lb: LB, y: ListedVM, n: int)
    requires SameSpec(NewWorld(1).lb.(imageVersion := Some("2")), lb) && y.vm == NewVM() && !y.deleting
    ensures Faithful(lb, {ReplicaA(), NewVM()}, SurgedPass(y, n)) && |{ReplicaA(), NewVM()}| == 2
    ensures FirstFailure(Live(SurgedPass(y, n).items)) == if ReportsFailure(y) then y.running else None
    ensures Outdated({ReplicaA(), NewVM()}, "2") == {ReplicaA()}
  {
    var x := Healthy(ReplicaA());
    LiveTwo(x, y);
    assert [x, y][1..] == [y] && [y][0] == y && [y][1..] == [];
  }

  lemma FailurePass(lb: LB)
    requires SameSpec(NewWorld(1).lb.(imageVersion := Some("2")), lb)
    ensures var vms, a := {ReplicaA(), NewVM()}, SurgedPass(Provisioning(NewVM()), 1);
      && Faithful(lb, vms, a) && VMsAfter(lb, vms, a) == vms
      && ConditionAfter(lb, vms, a) == NotReady(Other("VMProvisionFailed"), "")
  {
    SurgedFaithful(lb, Provisioning(NewVM()), 1);
  }

  /** The new VM is still provisioning and says so: its reason replaces `Upgrading`. */
  lemma FailureReplacesReason(w: World)
    requires Surged(w)
    ensures var a := SurgedPass(Provisioning(NewVM()), 1);
      var w' := Next(w, Reconciled(a));
      && Allowed(w, Reconciled(a)) && Honest(w, a)
      && Surged(w') && ReasonOf(w'.lb.replicasReady) == Other("VMProvisionFailed")
  {
    var a := SurgedPass(Provisioning(NewVM()), 1);
    FailurePass(w.lb);
    ReconcileEffect(w.lb, w.vms, a);
    ReconcileFrame(w.lb, w.vms, a);
    PersistedCondition(w.lb, w.vms, a);
    assert w.ready * w.vms == w.ready;
  }

  lemma SurplusTaken(lb: LB, n: int)
    requires SameSpec(NewWorld(1).lb.(imageVersion := Some("2")), lb)
    requires n == 2 || (n == 1 && ReasonOf(lb.replicasReady) == Other("VMProvisionFailed"))
    ensures var vms, a := {ReplicaA(), NewVM()}, SurgedPass(Healthy(NewVM()), n);
      Decides(lb, a) && VMsAfter(lb, vms, a) == {NewVM()}
  {
    var vms, a := {ReplicaA(), NewVM()}, SurgedPass(Healthy(NewVM()), n);
    SurgedFaithful(lb, Healthy(NewVM()), n);
    assert DecisionOf(lb, vms, a).RemoveReplica?;
    assert Victim(vms, "2") == ReplicaA();
    assert vms - {ReplicaA()} == {NewVM()};
  }

  /** A pass over both, running, that takes the old replica for surplus deletes it: with both counted, or
      with the reason of the upgrade lost. */
  lemma OldReplicaDeleted(w: World, n: int)
    requires SameSpec(NewWorld(1).lb.(imageVersion := Some("2")), w.lb) && w.vms == {ReplicaA(), NewVM()}
    requires n == 2 || (n == 1 && ReasonOf(w.lb.replicasReady) == Other("VMProvisionFailed"))
    ensures var a := SurgedPass(Healthy(NewVM()), n);
      Allowed(w, Reconciled(a)) && Decides(w.lb, a) && Next(w, Reconciled(a)).vms == {NewVM()}
  {
    SurgedFaithful(w.lb, Healthy(NewVM()), n);
    SurplusTaken(w.lb, n);
    ReconcileEffect(w.lb, w.vms, SurgedPass(Healthy(NewVM()), n));
  }

  /** The upgrade starts, and the new VM reports that it is still provisioning. */
  function ForgetfulEvents(): seq<Event> {
    UpgradeDueEvents() + [Reconciled(StartPass())] + [Reconciled(SurgedPass(Provisioning(NewVM()), 1))]
  }

  lemma ForgetfulRun()
    ensures var w := Run(NewWorld(1), ForgetfulEvents());
      && ValidRun(NewWorld(1), ForgetfulEvents()) && HonestRun(NewWorld(1), ForgetfulEvents())
      && Surged(w) && ReasonOf(w.lb.replicasReady) == Other("VMProvisionFailed")
  {
    var w0, before := NewWorld(1), UpgradeDueEvents();
    var e1, e2 := Reconciled(StartPass()), Reconciled(SurgedPass(Provisioning(NewVM()), 1));
    UpgradeDueRun();
    UpgradeStarts(Run(w0, before));
    RunOn(w0, before, e1);
    FailureReplacesReason(Run(w0, before + [e1]));
    RunOn(w0, before + [e1], e2);
  }

  function LossEvents(): seq<Event> {
    ForgetfulEvents() + [Reconciled(SurgedPass(Healthy(NewVM()), 1))]
  }

  lemma LossRun()
    ensures ValidRun(NewWorld(1), LossEvents()) && HonestRun(NewWorld(1), LossEvents())
    ensures Run(NewWorld(1), LossEvents()).ready == {}
  {
    ForgetfulRun();
    var w := Run(NewWorld(1), ForgetfulEvents());
    OldReplicaDeleted(w, 1);
    RunOn(NewWorld(1), ForgetfulEvents(), Reconciled(SurgedPass(Healthy(NewVM()), 1)));
    assert w.ready * {NewVM()} == {};
  }

  predicate PatchesSucceed(es: seq<Event>) {
    forall e :: e in es && e.Reconciled? ==> e.answers.close == CloseOutcome(true, true, true)
  }

  lemma LossPatches()
    ensures PatchesSucceed(LossEvents()) && UpgradeDueEvents() <= LossEvents()
  {
    assert PatchesSucceed(UpgradeDueEvents());
    assert PatchesSucceed(ForgetfulEvents());
  }

  /** An upgrade in which every count is honest, every patch succeeds and no replica is ever lost, and
      yet all usable replicas are gone in the end: the new VM runs but the service does not use it yet, and
      with the reason gone the controller takes the surplus for a scale down. */
  lemma UpgradeCanLoseAvailability()
    ensures Fresh(NewWorld(1)) && ValidRun(NewWorld(1), LossEvents()) && HonestRun(NewWorld(1), LossEvents())
    ensures UpgradeDueEvents() <= LossEvents() && UpgradeInv(Run(NewWorld(1), UpgradeDueEvents()))
    ensures |Run(NewWorld(1), LossEvents()).ready| < Run(NewWorld(1), UpgradeDueEvents()).lb.Desired()
    ensures PatchesSucceed(LossEvents())
  {
    UpgradeDueRun();
    LossRun();
    LossPatches();
  }

  function UpgradeEvents(): seq<Event> {
    [Reconciled(StartPass())] + [BecameReady(NewVM())] + [Reconciled(SurgedPass(Healthy(NewVM()), 2))]
  }

  lemma UpgradeFirstHalf(w: World)
    requires UpgradeDue(w)
    ensures var w2 := Next(Next(w, Reconciled(StartPass())), BecameReady(NewVM()));
      && Allowed(w, Reconciled(StartPass())) && Honest(w, StartPass())
      && Allowed(Next(w, Reconciled(StartPass())), BecameReady(NewVM()))
      && SameSpec(NewWorld(1).lb.(imageVersion := Some("2")), w2.lb)
      && w2.vms == {ReplicaA(), NewVM()} && w2.ready == w2.vms
  {
    UpgradeStarts(w);
  }

  lemma UpgradeSecondHalf(w: World)
    requires SameSpec(NewWorld(1).lb.(imageVersion := Some("2")), w.lb)
    requires w.vms == {ReplicaA(), NewVM()} && w.ready == w.vms
    ensures var a := SurgedPass(Healthy(NewVM()), 2);
      && Allowed(w, Reconciled(a)) && Honest(w, a) && Next(w, Reconciled(a)).vms == {NewVM()}
      && ReplicaConvergence.Undisturbed(w.lb, w.vms, a) && !ReplicaConvergence.Converged(w.vms, w.lb)
      && ReplicaConvergence.Converged({NewVM()}, w.lb)
  {
    SurgedFaithful(w.lb, Healthy(NewVM()), 2);
    OldReplicaDeleted(w, 2);
    assert Outdated({NewVM()}, "2") == {};
  }

  /** What an upgrade costs, at an upgrade with honest counts: each of its two reconciles is undisturbed, since
      the new replica becomes ready in between, and the spec is met in the end. */
  lemma HonestUpgradeRun(w: World)
    requires UpgradeDue(w)
    ensures ValidRun(w, UpgradeEvents()) && HonestRun(w, UpgradeEvents())
    ensures ReplicaConvergence.UndisturbedUntilConverged(w, UpgradeEvents())
    ensures ReplicaConvergence.Reconciles(UpgradeEvents()) == 2
    ensures |w.vms| == w.lb.Desired() && ReplicaConvergence.Converged(Run(w, UpgradeEvents()).vms, w.lb)
  {
    var e1, e2 := Reconciled(StartPass()), BecameReady(NewVM());
    var e3 := Reconciled(SurgedPass(Healthy(NewVM()), 2));
    StartPassAnswers(w.lb);
    UpgradeFirstHalf(w);
    UpgradeSecondHalf(Next(Next(w, e1), e2));
    RunOfThree(w, e1, e2, e3);
    UndisturbedOfThree(w, e1, e2, e3);
  }

  lemma RunOfThree(w: World, e1: Event, e2: Event, e3: Event)
    requires var w1 := Next(w, e1);
      && Allowed(w, e1) && Allowed(w1, e2) && Allowed(Next(w1, e2), e3)
      && (e1.Reconciled? ==> Honest(w, e1.answers)) && (e2.Reconciled? ==> Honest(w1, e2.answers))
      && (e3.Reconciled? ==> Honest(Next(w1, e2), e3.answers))
    ensures var es := [e1] + [e2] + [e3];
      ValidRun(w, es) && HonestRun(w, es) && Run(w, es) == Next(Next(Next(w, e1), e2), e3)
  {
    RunOn(w, [], e1);
    RunOn(w, [] + [e1], e2);
    RunOn(w, [] + [e1] + [e2], e3);
    assert [] + [e1] + [e2] + [e3] == [e1] + [e2] + [e3];
  }

  lemma UndisturbedOfThree(w: World, e1: Event, e2: Event, e3: Event)
    requires e1.Reconciled? && !e2.Reconciled? && e3.Reconciled?
    requires ReplicaConvergence.Undisturbed(w.lb, w.vms, e1.answers) && !ReplicaConvergence.Converged(w.vms, w.lb)
    requires var w2 := Next(Next(w, e1), e2);
      ReplicaConvergence.Undisturbed(w2.lb, w2.vms, e3.answers) && !ReplicaConvergence.Converged(w2.vms, w2.lb)
    ensures ReplicaConvergence.UndisturbedUntilConverged(w, [e1] + [e2] + [e3])
    ensures ReplicaConvergence.Reconciles([e1] + [e2] + [e3]) == 2
  {
    var es := [e1] + [e2] + [e3];
    assert es[1..] == [e2, e3] && [e2, e3][1..] == [e3] && [e3][1..] == [];
    var w1 := Next(w, e1);
    var w2 := Next(w1, e2);
    assert ReplicaConvergence.UndisturbedUntilConverged(w2, [e3]);
    assert ReplicaConvergence.UndisturbedUntilConverged(w1, [e2, e3]);
    assert ReplicaConvergence.Reconciles([e3]) == 1 && ReplicaConvergence.Reconciles([e2, e3]) == 1;
  }

  // ----- two replicas, and the phase `provisioned` -----

  function EarlyEvents(): seq<Event> {
    FirstEvents() + [Reconciled(Early([Healthy(ReplicaA())], 1, "b", 2))] + [BecameReady(ReplicaB())]
  }

  /** The state the early events lead to. */
  ghost predicate BothRunning(w: World) {
    && WellFormed(w) && ConditionInv(w.lb) && SameSpec(NewWorld(2).lb, w.lb)
    && w.vms == {ReplicaA(), ReplicaB()} && !w.lb.phase.NoPhase?
  }

  lemma SecondReplica(w: World)
    requires w.vms == {ReplicaA()} && w.ready == {ReplicaA()}
    requires w.lb.address == "" && SameSpec(NewWorld(2).lb, w.lb)
    ensures var e := Reconciled(Early([Healthy(ReplicaA())], 1, "b", 2));
      && Allowed(w, e) && Honest(w, e.answers)
      && Next(w, e).vms == {ReplicaA(), ReplicaB()} && Next(w, e).ready == {ReplicaA()}
      && Next(w, e).lb.address == "" && !Next(w, e).lb.phase.NoPhase? && SameSpec(w.lb, Next(w, e).lb)
  {
    LiveOne(Healthy(ReplicaA()));
    var a := Early([Healthy(ReplicaA())], 1, "b", 2);
    assert a.Create(0) in a.creates;
    EarlyCreate(w, [Healthy(ReplicaA())], "b", 2);
  }

  /** From a new load balancer, two replicas come up, and the address is not known yet. */
  lemma EarlyRun()
    ensures var w := Run(NewWorld(2), EarlyEvents());
      && Fresh(NewWorld(2)) && ValidRun(NewWorld(2), EarlyEvents()) && HonestRun(NewWorld(2), EarlyEvents())
      && BothRunning(w) && w.ready == w.vms && w.lb.address == ""
  {
    var e3, e4 := Reconciled(Early([Healthy(ReplicaA())], 1, "b", 2)), BecameReady(ReplicaB());
    FirstRun(2);
    SecondReplica(Run(NewWorld(2), FirstEvents()));
    RunOn(NewWorld(2), FirstEvents(), e3);
    RunOn(NewWorld(2), FirstEvents() + [e3], e4);
    RunWellFormed(NewWorld(2), EarlyEvents());
    RunKeepsConditionInv(NewWorld(2), EarlyEvents());
  }

  /** A pass over both replicas, with what the two reads of the service return. */
  function Both(read: Option<ServiceStatus>, second: Option<ServiceStatus>): Answers {
    Quiet([Healthy(ReplicaA()), Healthy(ReplicaB())], read, "z", 9).(addressRead := second)
  }

  lemma BothFaithful(lb: LB, read: Option<ServiceStatus>, second: Option<ServiceStatus>)
    requires IsInt32(lb.Desired())
    ensures Faithful(lb, {ReplicaA(), ReplicaB()}, Both(read, second)) && |{ReplicaA(), ReplicaB()}| == 2
    ensures FirstFailure(Live(Both(read, second).items)).None? && Outdated({ReplicaA(), ReplicaB()}, "1") == {}
  {
    LiveTwo(Healthy(ReplicaA()), Healthy(ReplicaB()));
  }

  /** A pass that persists its conditions with `provisioned` leaves neither of them false. */
  lemma ConditionsPersisted(lb: LB, vms: set<VM>, a: Answers)
    requires !lb.deleting && a.close == CloseOutcome(true, true, true) && Reconcile(lb, vms, a).lb.phase.Provisioned?
    ensures var lb' := Reconcile(lb, vms, a).lb; !IsFalse(lb'.replicasReady) && !IsFalse(lb'.infraReady)
  {
  }

  /** With both counted and an address in the end, it persists `provisioned`, and the count of its last read. */
  lemma BothProvisioned(w: World, read: Option<ServiceStatus>, second: Option<ServiceStatus>)
    requires BothRunning(w) && ObservedReady(w.lb, Both(read, second)) == 2
    requires SecondRead(w.lb, Both(read, second)) ==>
               second.Some? && second.value.address != "" && second.value.replicationCount >= 1
    ensures var a := Both(read, second);
      var w' := Next(w, Reconciled(a));
      && Allowed(w, Reconciled(a)) && w'.vms == w.vms && w'.ready == w.ready && BothRunning(w')
      && w'.lb.phase.Provisioned? && w'.lb.address != ""
      && w'.lb.readyReplicas == (if SecondRead(w.lb, a) then second.value.replicationCount else 2)
      && !IsFalse(w'.lb.replicasReady) && !IsFalse(w'.lb.infraReady)
  {
    var a := Both(read, second);
    BothFaithful(w.lb, read, second);
    ProvisionedStep(w, a);
    ConditionsPersisted(w.lb, w.vms, a);
    NextWellFormed(w, Reconciled(a));
    NextKeepsConditionInv(w, Reconciled(a));
    ReconcileFrame(w.lb, w.vms, a);
    assert w.ready * w.vms == w.ready;
  }

  /** A run from a new load balancer with honest counts and every replica ready, that ends `provisioned` with one
      of the two replicas counted: the first read of the last pass brings no address, the second a smaller
      count. */
  lemma ProvisionedCountTooSmall() returns (es: seq<Event>, a: Answers)
    ensures var w := NewWorld(2);
      var w' := Run(w, es + [Reconciled(a)]);
      && Fresh(w) && ValidRun(w, es + [Reconciled(a)]) && HonestRun(w, es + [Reconciled(a)])
      && w'.lb.phase.Provisioned? && w'.ready == w'.vms && w'.lb.readyReplicas == 1 < |w'.vms|
  {
    es, a := EarlyEvents(), Both(Some(ServiceStatus("", 2)), Count(1));
    EarlyRun();
    BothProvisioned(Run(NewWorld(2), es), Some(ServiceStatus("", 2)), Count(1));
    RunOn(NewWorld(2), es, Reconciled(a));
  }

  /** The run goes on from a truthful `provisioned` with the given event. */
  function ProvisionedEvents(e: Event): seq<Event> {
    EarlyEvents() + [Reconciled(Both(Count(2), None))] + [e]
  }

  ghost function ProvisionedWorld(): World {
    Run(NewWorld(2), EarlyEvents() + [Reconciled(Both(Count(2), None))])
  }

  lemma ProvisionedOn(w: World, es: seq<Event>)
    requires ValidRun(w, es) && HonestRun(w, es)
    requires BothRunning(Run(w, es)) && Run(w, es).ready == Run(w, es).vms
    ensures var es', w' := es + [Reconciled(Both(Count(2), None))], Run(w, es + [Reconciled(Both(Count(2), None))]);
      && ValidRun(w, es') && HonestRun(w, es')
      && BothRunning(w') && w'.ready == w'.vms && w'.lb.readyReplicas == 2 && w'.lb.address != ""
      && !IsFalse(w'.lb.replicasReady) && !IsFalse(w'.lb.infraReady)
  {
    BothProvisioned(Run(w, es), Count(2), None);
    RunOn(w, es, Reconciled(Both(Count(2), None)));
  }

  lemma ProvisionedFirst()
    ensures var es, w := EarlyEvents() + [Reconciled(Both(Count(2), None))], ProvisionedWorld();
      && Fresh(NewWorld(2)) && ValidRun(NewWorld(2), es) && HonestRun(NewWorld(2), es)
      && BothRunning(w) && w.ready == w.vms && w.lb.readyReplicas == 2 && w.lb.address != ""
      && !IsFalse(w.lb.replicasReady) && !IsFalse(w.lb.infraReady)
  {
    EarlyRun();
    ProvisionedOn(NewWorld(2), EarlyEvents());
  }

  lemma ProvisionedThen(e: Event)
    requires
      || e == BecameUnready(ReplicaA()) || e == SpecEdited(Some(1), Some("1"))
      || e == SpecEdited(Some(3), Some("1"))
    ensures var w := ProvisionedWorld();
      && Fresh(NewWorld(2)) && ValidRun(NewWorld(2), ProvisionedEvents(e))
      && HonestRun(NewWorld(2), ProvisionedEvents(e))
      && Run(NewWorld(2), ProvisionedEvents(e)) == Next(w, e)
      && BothRunning(w) && w.ready == w.vms && w.lb.readyReplicas == 2 && w.lb.address != ""
      && !IsFalse(w.lb.replicasReady) && !IsFalse(w.lb.infraReady)
  {
    ProvisionedFirst();
    RunOn(NewWorld(2), EarlyEvents() + [Reconciled(Both(Count(2), None))], e);
  }

  /** A replica turns unready, and the next read fails: the pass decides on the count left over. */
  lemma StaleProvisioned(w: World)
    requires BothRunning(w) && w.lb.readyReplicas == 2 && w.lb.address != ""
    ensures var w1 := Next(w, BecameUnready(ReplicaA()));
      var w2 := Next(w1, Reconciled(Both(None, None)));
      && Allowed(w1, Reconciled(Both(None, None)))
      && w2.lb.phase.Provisioned? && ReplicaA() in Unready(w2)
  {
    var w1 := Next(w, BecameUnready(ReplicaA()));
    assert BothRunning(w1);
    BothProvisioned(w1, None, None);
  }

  /** A run from a new load balancer in which the service reports honestly, and which ends `provisioned` with a
      replica that is not ready: it turned unready, and the last read of the service failed. */
  lemma ProvisionedNotReady() returns (es: seq<Event>, a: Answers)
    ensures var w := NewWorld(2);
      var w' := Run(w, es + [Reconciled(a)]);
      && Fresh(w) && ValidRun(w, es + [Reconciled(a)]) && HonestRun(w, es) && a.statusRead.None?
      && w'.lb.phase.Provisioned? && ReplicaA() in Unready(w')
  {
    var e := BecameUnready(ReplicaA());
    es, a := ProvisionedEvents(e), Both(None, None);
    ProvisionedThen(e);
    StaleProvisioned(ProvisionedWorld());
    RunSnoc(NewWorld(2), es, Reconciled(a));
  }

  function NoPatch(): Answers {
    Both(Count(2), None).(patchOk := false)
  }

  lemma NoPatchAnswers(lb: LB)
    requires IsInt32(lb.Desired())
    ensures Faithful(lb, {ReplicaA(), ReplicaB()}, NoPatch()) && |{ReplicaA(), ReplicaB()}| == 2
  {
    LiveTwo(Healthy(ReplicaA()), Healthy(ReplicaB()));
  }

  /** A run from a new load balancer that ends `provisioned` with two of three replicas: the spec was edited, and
      the early patch of the last pass failed, so that it looked at nothing. */
  lemma ProvisionedWithoutLooking() returns (es: seq<Event>, a: Answers)
    ensures var w := NewWorld(2);
      var w' := Run(w, es + [Reconciled(a)]);
      && Fresh(w) && ValidRun(w, es + [Reconciled(a)]) && !Looks(Run(w, es).lb, a) && a.close.statusOk
      && w'.lb.phase.Provisioned? && |w'.vms| == 2 < w'.lb.Desired()
  {
    var e := SpecEdited(Some(3), Some("1"));
    es, a := ProvisionedEvents(e), NoPatch();
    ProvisionedThen(e);
    var w := Run(NewWorld(2), es);
    NoPatchAnswers(w.lb);
    RunSnoc(NewWorld(2), es, Reconciled(a));
    BlindPhase(w, a);
  }

  // ----- a failed read of the service lets the gap grow -----

  /** The ready count a pass with a known address persists. */
  lemma PersistedReadyCount(lb: LB, vms: set<VM>, a: Answers)
    requires !lb.deleting && Faithful(lb, vms, a) && a.close.statusOk && Decides(lb, a) && lb.address != ""
    ensures Reconcile(lb, vms, a).lb.readyReplicas == ObservedReady(lb, a)
  {
    FaithfulList(lb, vms, a);
    ActFrame(Observed(lb, a), vms, vms, a);
    ServiceFrame(ReconcileVMs(lb.(finalizer := true), vms, a), a);
    StatusPersisted(lb, vms, a);
  }

  /** A create on a read that failed, with enough replicas wanted and a stale count high enough. */
  lemma StaleCreates(lb: LB, vms: set<VM>, items: seq<ListedVM>, name: string, created: int)
    requires Decides(lb, Quiet(items, None, name, created))
    requires |vms| < lb.Desired() && |vms| <= lb.readyReplicas
    ensures VMsAfter(lb, vms, Quiet(items, None, name, created)) == vms + {VM(name, created, lb.OSVersion())}
  {
  }

  lemma StaleCreate(w: World, items: seq<ListedVM>, name: string, created: int)
    requires var a := Quiet(items, None, name, created);
      && WellFormed(w) && Faithful(w.lb, w.vms, a) && Decides(w.lb, a) && w.lb.address != ""
      && |w.vms| < w.lb.Desired() && |w.vms| <= w.lb.readyReplicas
    ensures var a := Quiet(items, None, name, created);
      var w' := Next(w, Reconciled(a));
      && w'.vms == w.vms + {VM(name, created, w.lb.OSVersion())} && w'.ready == w.ready
      && w'.lb.readyReplicas == w.lb.readyReplicas && SameSpec(w.lb, w'.lb) && w'.lb.address == w.lb.address
  {
    var a := Quiet(items, None, name, created);
    var v := VM(name, created, w.lb.OSVersion());
    StaleCreates(w.lb, w.vms, items, name, created);
    ReconcileEffect(w.lb, w.vms, a);
    ReconcileFrame(w.lb, w.vms, a);
    PersistedReadyCount(w.lb, w.vms, a);
    assert w.ready * (w.vms + {v}) == w.ready;
  }

  function DownPass(): Answers { Both(Count(2), None) }

  lemma DownPassVMs(lb: LB)
    requires SameSpec(NewWorld(1).lb, lb)
    ensures var vms := {ReplicaA(), ReplicaB()};
      Faithful(lb, vms, DownPass()) && Decides(lb, DownPass()) && VMsAfter(lb, vms, DownPass()) == {ReplicaB()}
  {
    var vms := {ReplicaA(), ReplicaB()};
    BothFaithful(lb, Count(2), None);
    assert Less(ReplicaA(), ReplicaB());
    assert vms - {ReplicaA()} == {ReplicaB()};
  }

  /** Two usable replicas, one wanted: the older one goes, the counted two stay in the status. */
  lemma ScaledDown(w: World)
    requires SameSpec(NewWorld(1).lb, w.lb) && w.lb.address != ""
    requires w.vms == {ReplicaA(), ReplicaB()} && w.ready == w.vms
    ensures var w' := Next(w, Reconciled(DownPass()));
      && Allowed(w, Reconciled(DownPass())) && Honest(w, DownPass())
      && w'.vms == {ReplicaB()} && w'.ready == {ReplicaB()} && w'.lb.readyReplicas == 2
      && w'.lb.address == w.lb.address && SameSpec(w.lb, w'.lb)
  {
    DownPassVMs(w.lb);
    BothFaithful(w.lb, Count(2), None);
    ReconcileEffect(w.lb, w.vms, DownPass());
    ReconcileFrame(w.lb, w.vms, DownPass());
    PersistedReadyCount(w.lb, w.vms, DownPass());
  }

  function BlindPass1(): Answers { Quiet([Healthy(ReplicaB())], None, "c", 3) }
  function BlindPass2(): Answers { Quiet([Healthy(ReplicaB()), Healthy(ReplicaC())], None, "d", 4) }

  lemma BlindPass1Answers(lb: LB)
    requires SameSpec(NewWorld(3).lb, lb)
    ensures Faithful(lb, {ReplicaB()}, BlindPass1()) && Decides(lb, BlindPass1())
  {
    LiveOne(Healthy(ReplicaB()));
  }

  lemma BlindPass2Answers(lb: LB)
    requires SameSpec(NewWorld(3).lb, lb)
    ensures Faithful(lb, {ReplicaB(), ReplicaC()}, BlindPass2()) && Decides(lb, BlindPass2())
    ensures |{ReplicaB(), ReplicaC()}| == 2
  {
    LiveTwo(Healthy(ReplicaB()), Healthy(ReplicaC()));
  }

  /** Three wanted now, and the read fails. */
  lemma BlindCreate(w: World)
    requires w.vms == {ReplicaB()} && w.ready == {ReplicaB()} && w.lb.readyReplicas == 2 && w.lb.address != ""
    requires SameSpec(NewWorld(3).lb, w.lb)
    ensures var w' := Next(w, Reconciled(BlindPass1()));
      && Allowed(w, Reconciled(BlindPass1()))
      && w'.vms == {ReplicaB(), ReplicaC()} && w'.ready == {ReplicaB()} && w'.lb.readyReplicas == 2
      && w'.lb.address != "" && SameSpec(NewWorld(3).lb, w'.lb)
  {
    BlindPass1Answers(w.lb);
    StaleCreate(w, BlindPass1().items, "c", 3);
  }

  /** And once more. */
  lemma BlindCreateAgain(w: World)
    requires w.vms == {ReplicaB(), ReplicaC()} && w.ready == {ReplicaB()} && w.lb.readyReplicas == 2
    requires w.lb.address != "" && SameSpec(NewWorld(3).lb, w.lb)
    ensures Allowed(w, Reconciled(BlindPass2())) && |Unready(Next(w, Reconciled(BlindPass2())))| == 2
  {
    BlindPass2Answers(w.lb);
    StaleCreate(w, BlindPass2().items, "d", 4);
    TwoUnready(Next(w, Reconciled(BlindPass2())));
  }

  lemma TwoUnready(w: World)
    requires w.vms == {ReplicaB(), ReplicaC()} + {VM("d", 4, "1")} && w.ready == {ReplicaB()}
    ensures |Unready(w)| == 2
  {
    assert Unready(w) == {ReplicaC(), VM("d", 4, "1")};
  }

  lemma {:induction false} HonestRunReports(w: World, es: seq<Event>)
    requires HonestRun(w, es)
    ensures HonestReports(w, es)
    decreases |es|
  {
    if es != [] { HonestRunReports(Next(w, es[0]), es[1..]); }
  }

  /** One more event of a valid run with honest reports. */
  lemma {:induction false} ReportsOn(w: World, es: seq<Event>, e: Event)
    requires HonestReports(w, es) && (e.Reconciled? && e.answers.statusRead.Some? ==> Honest(Run(w, es), e.answers))
    ensures HonestReports(w, es + [e])
    decreases |es|
  {
    var all := es + [e];
    if es == [] {
      assert all[1..] == [];
    } else {
      assert all[0] == es[0] && all[1..] == es[1..] + [e];
      ReportsOn(Next(w, es[0]), es[1..], e);
    }
  }

  /** Scaled down to one replica, then three wanted. */
  function DownEvents(): seq<Event> {
    ProvisionedEvents(SpecEdited(Some(1), Some("1"))) + [Reconciled(DownPass())] + [SpecEdited(Some(3), Some("1"))]
  }

  lemma DownRun()
    ensures var w := Run(NewWorld(2), DownEvents());
      && Fresh(NewWorld(2)) && ValidRun(NewWorld(2), DownEvents()) && HonestRun(NewWorld(2), DownEvents())
      && w.vms == {ReplicaB()} && w.ready == {ReplicaB()} && w.lb.readyReplicas == 2 && w.lb.address != ""
      && SameSpec(NewWorld(3).lb, w.lb)
  {
    var e1, e3 := SpecEdited(Some(1), Some("1")), SpecEdited(Some(3), Some("1"));
    ProvisionedThen(e1);
    ScaledDown(Run(NewWorld(2), ProvisionedEvents(e1)));
    RunOn(NewWorld(2), ProvisionedEvents(e1), Reconciled(DownPass()));
    RunOn(NewWorld(2), ProvisionedEvents(e1) + [Reconciled(DownPass())], e3);
  }

  /** The whole run: scale down, edit the spec, scale up twice without a successful read. */
  function BlindEvents(): seq<Event> {
    DownEvents() + [Reconciled(BlindPass1())] + [Reconciled(BlindPass2())]
  }

  predicate NoneTurnsUnready(es: seq<Event>) {
    forall e :: e in es ==> !e.BecameUnready?
  }

  lemma BlindEventsTurnNoneUnready()
    ensures NoneTurnsUnready(BlindEvents())
  {
    assert NoneTurnsUnready(EarlyEvents());
    assert NoneTurnsUnready(ProvisionedEvents(SpecEdited(Some(1), Some("1"))));
    assert NoneTurnsUnready(DownEvents());
  }

  lemma BlindRun()
    ensures ValidRun(NewWorld(2), BlindEvents()) && |Unready(Run(NewWorld(2), BlindEvents()))| == 2
  {
    var e1, e2 := Reconciled(BlindPass1()), Reconciled(BlindPass2());
    DownRun();
    BlindCreate(Run(NewWorld(2), DownEvents()));
    RunSnoc(NewWorld(2), DownEvents(), e1);
    BlindCreateAgain(Run(NewWorld(2), DownEvents() + [e1]));
    RunSnoc(NewWorld(2), DownEvents() + [e1], e2);
  }

  /** From a new load balancer, the service reports honestly and no replica turns unready, but two reads fail
      after a scale down: the two replicas counted before it let two more be created one after the other. */
  lemma FailedReadsWidenGap()
    ensures var w := NewWorld(2);
      && Fresh(w) && ValidRun(w, BlindEvents()) && HonestReports(w, BlindEvents())
      && |Unready(Run(w, BlindEvents()))| == 2
    ensures NoneTurnsUnready(BlindEvents())
  {
    DownRun();
    BlindRun();
    BlindEventsTurnNoneUnready();
    HonestRunReports(NewWorld(2), DownEvents());
    ReportsOn(NewWorld(2), DownEvents(), Reconciled(BlindPass1()));
    ReportsOn(NewWorld(2), DownEvents() + [Reconciled(BlindPass1())], Reconciled(BlindPass2()));
  }

  // ----- desired counts that are never reached -----

  /** A desired count of -1: with no replica left, an undisturbed pass has nothing to delete. */
  lemma NegativeCountNotReached()
    ensures var lb := NewWorld(2).lb.(specReplicas := Some(-1));
      var a := Quiet([], Count(0), "z", 9);
      && !lb.deleting && Faithful(lb, {}, a) && ReplicaConvergence.Undisturbed(lb, {}, a)
      && !ReplicaConvergence.Converged({}, lb) && Reconcile(lb, {}, a).vms == {}
  {
    var lb := NewWorld(2).lb.(specReplicas := Some(-1));
    var a := Quiet([], Count(0), "z", 9);
    LiveNone();
    assert a.Create(0) in a.creates;
    ReplicaConvergence.UndisturbedMakesProgress(lb, {}, a);
  }

  /** `n` replicas at version "1". */
  function Many(n: nat): seq<ListedVM> {
    seq(n, i requires 0 <= i < n => Healthy(VM(seq(i, _ => 'a'), 0, "1")))
  }

  ghost function ManyVMs(n: nat): set<VM> {
    Elements(Identities(Many(n)))
  }

  lemma {:induction false} LiveAll(items: seq<ListedVM>)
    requires forall x :: x in items ==> !x.deleting && !ReportsFailure(x)
    ensures Live(items) == items && FirstFailure(items).None?
  {
    if items != [] {
      assert items[0] in items;
      LiveAll(items[1..]);
    }
  }

  lemma {:induction false} ManySize(n: nat)
    ensures |ManyVMs(n)| == n
    ensures forall v :: v in ManyVMs(n) ==> |v.name| < n && v.name != "b" && v.version == "1"
    ensures DistinctNames(ManyVMs(n))
  {
    if n > 0 {
      ManySize(n - 1);
      var v := VM(seq(n - 1, _ => 'a'), 0, "1");
      assert |v.name| == n - 1 && (n > 1 ==> v.name[0] == 'a');
      assert Identities(Many(n)) == Identities(Many(n - 1)) + [v];
      assert ManyVMs(n) == ManyVMs(n - 1) + {v};
    }
  }

  lemma ManyFaithful(n: nat, lb: LB)
    requires 0 < n <= INT32_MAX && lb.specReplicas == Some(n)
    ensures |ManyVMs(n)| == n && Faithful(lb, ManyVMs(n), Quiet(Many(n), Count(n), "b", 1))
  {
    ManySize(n);
    LiveAll(Many(n));
    ListedLive(Many(n));
  }

  lemma ManyOutdated(n: nat)
    requires n > 0
    ensures Outdated(ManyVMs(n), "2") != {}
  {
    var vms := ManyVMs(n);
    assert Identities(Many(n))[0] in vms;
    assert Identities(Many(n))[0] in Outdated(vms, "2");
  }

  lemma ManyListed(n: nat, lb: LB)
    requires 0 < n <= INT32_MAX && !lb.deleting && lb.specReplicas == Some(n) && lb.OSVersion() == "2"
    ensures var vms, a := ManyVMs(n), Quiet(Many(n), Count(n), "b", 1);
      && |vms| == n && Faithful(lb, vms, a) && ReplicaConvergence.Undisturbed(lb, vms, a)
      && Outdated(vms, "2") != {}
  {
    ManyFaithful(n, lb);
    ManyOutdated(n);
    LiveAll(Many(n));
  }

  /** An upgrade at the largest int32: with that many replicas, all outdated, the maximum wraps around and an
      undisturbed pass creates none. */
  lemma UpgradeAtMaximumNotStarted(n: nat)
    requires n == INT32_MAX
    ensures var lb := NewWorld(2).lb.(specReplicas := Some(n), imageVersion := Some("2"));
      var vms, a := ManyVMs(n), Quiet(Many(n), Count(n), "b", 1);
      && Faithful(lb, vms, a) && ReplicaConvergence.Undisturbed(lb, vms, a)
      && !ReplicaConvergence.Converged(vms, lb) && Reconcile(lb, vms, a).vms == vms
  {
    var lb := NewWorld(2).lb.(specReplicas := Some(n), imageVersion := Some("2"));
    ManyListed(n, lb);
    ReplicaConvergence.UndisturbedMakesProgress(lb, ManyVMs(n), Quiet(Many(n), Count(n), "b", 1));
  }
}
