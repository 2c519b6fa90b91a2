/** A fixed spec is reached: an exact count of the reconciles still needed, which every create
    or delete lowers by one and nothing raises. */
module ReplicaConvergence {
  import opened Basics
  import opened VirtualMachineOrder
  import opened LoadBalancer
  import opened ReplicaSafety
  import opened LoadBalancerRuns

  ghost predicate Converged(vms: set<VM>, lb: LB) {
    |vms| == lb.Desired() && Outdated(vms, lb.OSVersion()) == {}
  }

  /** The creates and deletes still needed for n replicas, k of them outdated, to become d up-to-date
      ones. Above d every delete takes an outdated replica first; at or below d every outdated
      replica costs one surge create and one delete. */
  function StepsLeft(n: nat, k: nat, d: int): (steps: int)
  {
    if n <= d then (d - n) + 2 * k
    else if k <= n - d then n - d
    else 2 * k - (n - d)
  }

  ghost function Steps(vms: set<VM>, lb: LB): int {
    StepsLeft(|vms|, |Outdated(vms, lb.OSVersion())|, lb.Desired())
  }

  /** The replica counts for which the int32 arithmetic and the deletion of a replica work. */
  predicate InRange(lb: LB) {
    0 <= lb.Desired() < INT32_MAX
  }

  lemma OutdatedIsPart(vms: set<VM>, target: string)
    ensures Outdated(vms, target) <= vms
    ensures |Outdated(vms, target)| <= |vms|
  {
    SubsetSize(Outdated(vms, target), vms);
  }

  lemma {:induction false} SubsetSize(a: set<VM>, b: set<VM>)
    requires a <= b
    ensures |a| <= |b|
    decreases |a|
  {
    if a != {} {
      var v :| v in a;
      SubsetSize(a - {v}, b - {v});
    }
  }

  /** Nothing is left to do exactly when the spec is met. */
  lemma NoStepsLeftIffConverged(vms: set<VM>, lb: LB)
    ensures Steps(vms, lb) >= 0
    ensures Steps(vms, lb) == 0 <==> Converged(vms, lb)
  {
    OutdatedIsPart(vms, lb.OSVersion());
  }

  lemma GrowingOutdated(vms: set<VM>, vms': set<VM>, target: string)
    requires Grew(vms, vms', target)
    ensures Outdated(vms', target) == Outdated(vms, target) && |vms'| == |vms| + 1
  {
    var v :| v !in vms && vms' == vms + {v} && v.version == target;
    assert Outdated(vms', target) == Outdated(vms, target);
  }

  lemma GrowthIsProgress(vms: set<VM>, vms': set<VM>, lb: LB)
    requires Grew(vms, vms', lb.OSVersion()) && MayCreate(lb, vms)
    ensures Steps(vms', lb) == Steps(vms, lb) - 1
  {
    GrowingOutdated(vms, vms', lb.OSVersion());
    if |vms| == lb.Desired() { assert |Outdated(vms, lb.OSVersion())| > 0; }
  }

  lemma RemovalIsProgress(vms: set<VM>, lb: LB)
    requires vms != {} && |vms| > lb.Desired() && DistinctNames(vms)
    ensures Steps(vms - {Victim(vms, lb.OSVersion())}, lb) == Steps(vms, lb) - 1
  {
    var target := lb.OSVersion();
    var vms' := vms - {Victim(vms, target)};
    OutdatedIsPart(vms, target);
    VictimSparesUpToDate(vms, target);
    assert |vms'| == |vms| - 1;
    if Outdated(vms, target) == {} { assert |Outdated(vms', target)| == 0; }
    else { assert |Outdated(vms, target)| > 0; }
  }

  /** A reconcile that changes the replica set does exactly one of the needed steps. */
  lemma EachChangeIsProgress(lb: LB, vms: set<VM>, a: Answers)
    requires !lb.deleting && Faithful(lb, vms, a)
    ensures var vms' := Reconcile(lb, vms, a).vms;
      Steps(vms', lb) == if vms' == vms then Steps(vms, lb) else Steps(vms, lb) - 1
  {
    var vms' := Reconcile(lb, vms, a).vms;
    var target := lb.OSVersion();
    ReconcileShape(lb, vms, a);
    if vms' != vms {
      if Grew(vms, vms', target) {
        GrowthIsProgress(vms, vms', lb);
      } else {
        RemovalIsProgress(vms, lb);
      }
    }
  }

  /** An undisturbed reconcile: every call succeeds, all replicas are observed ready and no VM
      reports a failure. */
  ghost predicate Undisturbed(lb: LB, vms: set<VM>, a: Answers) {
    && Decides(lb, a)
    && ObservedReady(lb, a) >= |vms|
    && |a.creates| > 0 && a.creates[0].ok
    && a.delete.Ok()
  }

  lemma CreateAdds(lb: LB, vms: set<VM>, a: Answers)
    requires FreshCreates(a, vms) && |a.creates| > 0 && a.creates[0].ok
    ensures WithCreated(lb, vms, a) != vms
  {
    var c := a.creates[0];
    assert c in a.creates;
    assert VM(c.name, c.created, lb.OSVersion()) !in vms;
  }

  lemma RemoveTakes(lb: LB, vms: set<VM>)
    requires vms != {}
    ensures vms - {Victim(vms, lb.OSVersion())} != vms
  {
    assert Victim(vms, lb.OSVersion()) in vms;
  }

  lemma UndisturbedDecision(lb: LB, vms: set<VM>, a: Answers)
    requires Undisturbed(lb, vms, a) && !Converged(vms, lb)
    ensures DecisionOf(lb, vms, a) ==
      if |vms| < lb.Desired() then AddReplica else if |vms| > lb.Desired() then RemoveReplica else Upgrade
  {
  }

  lemma UndisturbedChanges(lb: LB, vms: set<VM>, a: Answers)
    requires Faithful(lb, vms, a) && Undisturbed(lb, vms, a) && !Converged(vms, lb)
    ensures VMsAfter(lb, vms, a) != vms <==>
              !(lb.Desired() < 0 && vms == {}) && !(lb.Desired() == INT32_MAX && |vms| == INT32_MAX)
  {
    UndisturbedDecision(lb, vms, a);
    if |vms| <= lb.Desired() {
      CreateAdds(lb, vms, a);
    } else if vms != {} {
      RemoveTakes(lb, vms);
    }
  }

  /** Until the spec is met, every undisturbed reconcile makes progress if the desired count is in
      range; out of range it does so exactly when there is still a replica to delete, and the
      surge does not need the int32 above the largest one. */
  lemma UndisturbedMakesProgress(lb: LB, vms: set<VM>, a: Answers)
    requires !lb.deleting && Faithful(lb, vms, a) && Undisturbed(lb, vms, a) && !Converged(vms, lb)
    ensures Reconcile(lb, vms, a).vms != vms <==>
              !(lb.Desired() < 0 && vms == {}) && !(lb.Desired() == INT32_MAX && |vms| == INT32_MAX)
  {
    ReconcileEffect(lb, vms, a);
    UndisturbedChanges(lb, vms, a);
  }

  /** Rolling upgrade converges, one reconcile at a time: the number of steps left never grows, and
      an undisturbed reconcile lowers it by exactly one until it is zero. */
  lemma ReconcileConverges(lb: LB, vms: set<VM>, a: Answers)
    requires !lb.deleting && Faithful(lb, vms, a) && InRange(lb)
    ensures var left, left' := Steps(vms, lb), Steps(Reconcile(lb, vms, a).vms, lb);
      && left - 1 <= left' <= left
      && (Undisturbed(lb, vms, a) ==> left' == if left > 0 then left - 1 else 0)
  {
    NoStepsLeftIffConverged(vms, lb);
    NoStepsLeftIffConverged(Reconcile(lb, vms, a).vms, lb);
    EachChangeIsProgress(lb, vms, a);
    if Undisturbed(lb, vms, a) && !Converged(vms, lb) {
      UndisturbedMakesProgress(lb, vms, a);
    }
  }

  // ----- whole runs -----

  /** The run has no event but reconciles and changes of readiness. */
  predicate OnlyReconciles(es: seq<Event>) {
    forall e :: e in es ==> e.Reconciled? || e.BecameReady? || e.BecameUnready?
  }

  ghost function Creates(w: World, es: seq<Event>): nat
    decreases |es|
  {
    if es == [] then 0
    else var w' := Next(w, es[0]); Creates(w', es[1..]) + (if |w'.vms| > |w.vms| then 1 else 0)
  }

  ghost function Deletes(w: World, es: seq<Event>): nat
    decreases |es|
  {
    if es == [] then 0
    else var w' := Next(w, es[0]); Deletes(w', es[1..]) + (if |w'.vms| < |w.vms| then 1 else 0)
  }

  ghost function UndisturbedCount(w: World, es: seq<Event>): nat
    decreases |es|
  {
    if es == [] then 0
    else
      var one := if es[0].Reconciled? && Undisturbed(w.lb, w.vms, es[0].answers) then 1 else 0;
      one + UndisturbedCount(Next(w, es[0]), es[1..])
  }

  lemma StepCounts(w: World, e: Event)
    requires WellFormed(w) && Allowed(w, e) && !w.lb.deleting
    requires e.Reconciled? || e.BecameReady? || e.BecameUnready?
    ensures var w' := Next(w, e);
      var up, down := if |w'.vms| > |w.vms| then 1 else 0, if |w'.vms| < |w.vms| then 1 else 0;
      && Steps(w'.vms, w.lb) == Steps(w.vms, w.lb) - up - down
      && |w'.vms| == |w.vms| + up - down
  {
    if e.Reconciled? {
      ReconcileShape(w.lb, w.vms, e.answers);
      ShapeCounts(w.lb, w.vms, Next(w, e).vms, e.answers);
      EachChangeIsProgress(w.lb, w.vms, e.answers);
    }
  }

  /** Conservation over every run, whatever fails on the way: the creates and deletes that
      happened are exactly the steps no longer left, and their difference is the change in the
      number of replicas. */
  lemma {:induction false} RunConservation(w: World, es: seq<Event>)
    requires WellFormed(w) && ValidRun(w, es) && OnlyReconciles(es) && !w.lb.deleting
    ensures var w' := Run(w, es);
      && SameSpec(w.lb, w'.lb)
      && Steps(w'.vms, w.lb) == Steps(w.vms, w.lb) - Creates(w, es) - Deletes(w, es)
      && |w'.vms| == |w.vms| + Creates(w, es) - Deletes(w, es)
    decreases |es|
  {
    if es != [] {
      var w1 := Next(w, es[0]);
      NextWellFormed(w, es[0]);
      StepKeepsSpec(w, es[0]);
      StepCounts(w, es[0]);
      RunConservation(w1, es[1..]);
      assert w1.lb.Desired() == w.lb.Desired() && w1.lb.OSVersion() == w.lb.OSVersion();
    }
  }

  /** Convergence over runs: after as many undisturbed reconciles as there were steps left, in
      whatever company of disturbed ones, the spec is met; and it stays met. */
  lemma {:induction false} RunConverges(w: World, es: seq<Event>)
    requires WellFormed(w) && ValidRun(w, es) && OnlyReconciles(es) && !w.lb.deleting && InRange(w.lb)
    ensures Steps(Run(w, es).vms, w.lb) <= Max(0, Steps(w.vms, w.lb) - UndisturbedCount(w, es))
    ensures UndisturbedCount(w, es) >= Steps(w.vms, w.lb) ==> Converged(Run(w, es).vms, w.lb)
    decreases |es|
  {
    NoStepsLeftIffConverged(w.vms, w.lb);
    if es != [] {
      var w1 := Next(w, es[0]);
      NextWellFormed(w, es[0]);
      StepKeepsSpec(w, es[0]);
      if es[0].Reconciled? { ReconcileConverges(w.lb, w.vms, es[0].answers); }
      NoStepsLeftIffConverged(w1.vms, w.lb);
      RunConverges(w1, es[1..]);
      assert w1.lb.Desired() == w.lb.Desired() && w1.lb.OSVersion() == w.lb.OSVersion();
    }
    NoStepsLeftIffConverged(Run(w, es).vms, w.lb);
  }

  lemma UndisturbedStepCounts(w: World, e: Event)
    requires WellFormed(w) && Allowed(w, e) && !w.lb.deleting && InRange(w.lb)
    requires e.Reconciled? && Undisturbed(w.lb, w.vms, e.answers) && !Converged(w.vms, w.lb)
    ensures |Next(w, e).vms| != |w.vms|
  {
    UndisturbedMakesProgress(w.lb, w.vms, e.answers);
    EachChangeIsProgress(w.lb, w.vms, e.answers);
    StepCounts(w, e);
  }

  ghost function Reconciles(es: seq<Event>): nat {
    if es == [] then 0 else (if es[0].Reconciled? then 1 else 0) + Reconciles(es[1..])
  }

  /** Every reconcile of the run is undisturbed and finds the spec not yet met; in between, replicas become
      ready or unready as they will. */
  ghost predicate UndisturbedUntilConverged(w: World, es: seq<Event>)
    decreases |es|
  {
    es == [] ||
    (&& (es[0].Reconciled? ==> Undisturbed(w.lb, w.vms, es[0].answers) && !Converged(w.vms, w.lb))
     && UndisturbedUntilConverged(Next(w, es[0]), es[1..]))
  }

  /** Each of its reconciles then creates or deletes one replica. */
  lemma {:induction false} UndisturbedChangesEachTime(w: World, es: seq<Event>)
    requires WellFormed(w) && ValidRun(w, es) && OnlyReconciles(es) && !w.lb.deleting && InRange(w.lb)
    requires UndisturbedUntilConverged(w, es)
    ensures Creates(w, es) + Deletes(w, es) == Reconciles(es)
    decreases |es|
  {
    if es != [] {
      if es[0].Reconciled? { UndisturbedStepCounts(w, es[0]); }
      NextWellFormed(w, es[0]);
      StepKeepsSpec(w, es[0]);
      UndisturbedChangesEachTime(Next(w, es[0]), es[1..]);
    }
  }

  /** A rolling upgrade of k outdated replicas, from the desired count to the spec met, performs exactly k
      creates and k deletes in every run; and if each reconcile is undisturbed, none after the spec is met,
      it takes exactly 2k reconciles, whatever happens to readiness in between. */
  lemma UpgradeCost(w: World, es: seq<Event>)
    requires WellFormed(w) && ValidRun(w, es) && OnlyReconciles(es) && !w.lb.deleting && InRange(w.lb)
    requires |w.vms| == w.lb.Desired() && Converged(Run(w, es).vms, w.lb)
    ensures var k := |Outdated(w.vms, w.lb.OSVersion())|;
      && Creates(w, es) == k && Deletes(w, es) == k
      && (UndisturbedUntilConverged(w, es) ==> Reconciles(es) == 2 * k)
  {
    RunConservation(w, es);
    NoStepsLeftIffConverged(Run(w, es).vms, w.lb);
    if UndisturbedUntilConverged(w, es) { UndisturbedChangesEachTime(w, es); }
  }

  /** And it shows: from a new resource, after as many undisturbed reconciles as steps are needed, one of which
      persisted its status, a further undisturbed pass that persists its status reports `provisioned` exactly
      when it gets past the gates of the service. */
  lemma ConvergedIsProvisioned(w: World, es: seq<Event>, a: Answers)
    requires Fresh(w) && ValidRun(w, es + [Reconciled(a)]) && OnlyReconciles(es)
    requires !w.lb.deleting && InRange(w.lb) && w.lb.errorReason.None?
    requires UndisturbedCount(w, es) >= Steps(w.vms, w.lb)
    requires exists e :: e in es && e.Reconciled? && e.answers.close.statusOk
    requires var m := Run(w, es); Undisturbed(m.lb, m.vms, a) && a.close.statusOk
    ensures var m := Run(w, es);
      Run(w, es + [Reconciled(a)]).lb.phase.Provisioned? <==> PassesGates(m.lb, m.vms, a)
  {
    RunSnoc(w, es, Reconciled(a));
    RunConservation(w, es);
    RunConverges(w, es);
    PhaseStays(w, es);
    ProvisionedExactly(w, es, a);
  }
}
