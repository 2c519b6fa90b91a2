/** How many replicas are usable while the controller scales and upgrades, given that the load
    balancer service never counts more replicas than are really ready. */
module ReplicaAvailability {
  import opened Basics
  import opened VirtualMachineOrder
  import opened LoadBalancer
  import opened ReplicaSafety
  import opened LoadBalancerRuns
  import opened ReplicaConvergence

  /** The ready count the pass decides on, fresh or stale, is not above the real one. */
  ghost predicate Honest(w: World, a: Answers) {
    ObservedReady(w.lb, a) <= |w.ready|
  }

  ghost predicate HonestRun(w: World, es: seq<Event>)
    decreases |es|
  {
    es == [] || ((es[0].Reconciled? ==> Honest(w, es[0].answers)) && HonestRun(Next(w, es[0]), es[1..]))
  }

  /** The replicas that exist but cannot be used yet. */
  ghost function Unready(w: World): set<VM> {
    w.vms - w.ready
  }

  lemma ReadySize(w: World)
    requires WellFormed(w)
    ensures |w.ready| + |Unready(w)| == |w.vms|
  {
    assert w.vms == w.ready + Unready(w);
  }

  // ----- bounded readiness gap -----

  lemma GrowthGap(vms: set<VM>, vms': set<VM>, ready: set<VM>, target: string)
    requires Grew(vms, vms', target) && ready <= vms
    ensures |vms' - ready * vms'| == |vms - ready| + 1
  {
    var v :| v !in vms && vms' == vms + {v};
    assert vms' - ready * vms' == (vms - ready) + {v};
  }

  lemma ShrinkGap(vms: set<VM>, vms': set<VM>, ready: set<VM>)
    requires vms' <= vms
    ensures |vms' - ready * vms'| <= |vms - ready|
  {
    SubsetSize(vms' - ready * vms', vms - ready);
  }

  /** The guards of a create: the pass gets to its decision, the count allows one more replica, all replicas
      are observed ready, and the create call takes effect. */
  predicate CreatesReplica(lb: LB, vms: set<VM>, a: Answers) {
    Decides(lb, a) && MayCreate(lb, vms) && |vms| <= ObservedReady(lb, a) && a.Create(0).effect
  }

  lemma CreateDecision(lb: LB, vms: set<VM>, a: Answers)
    requires Decides(lb, a)
    ensures var d := DecisionOf(lb, vms, a);
      MayCreate(lb, vms) && |vms| <= ObservedReady(lb, a) <==> d.AddReplica? || (d.Upgrade? && lb.Desired() < INT32_MAX)
  {
  }

  lemma NoCreateShrinks(lb: LB, vms: set<VM>, a: Answers)
    requires !CreatesReplica(lb, vms, a)
    ensures VMsAfter(lb, vms, a) <= vms
  {
    if Decides(lb, a) { CreateDecision(lb, vms, a); }
  }

  /** They are exact: a reconcile adds a replica just when they hold. */
  lemma CreatesExactly(lb: LB, vms: set<VM>, a: Answers)
    requires !lb.deleting && Faithful(lb, vms, a)
    ensures CreatesReplica(lb, vms, a) <==> Grew(vms, Reconcile(lb, vms, a).vms, lb.OSVersion())
  {
    ReconcileEffect(lb, vms, a);
    if CreatesReplica(lb, vms, a) {
      CreateDecision(lb, vms, a);
      CreatedGrows(lb, vms, a);
    } else {
      NoCreateShrinks(lb, vms, a);
    }
  }

  /** The pass creates a replica while another is still unready, on a count that says otherwise. */
  ghost predicate WidensGap(w: World, a: Answers) {
    CreatesReplica(w.lb, w.vms, a) && Unready(w) != {}
  }

  /** With at most one unready replica before, a reconcile leaves at most one exactly when it is not such a pass:
      one that decides, may create, sees a ready count of at least all replicas, fresh or left over, while
      one of them is unready. An honest count rules that out. */
  lemma GapStep(w: World, a: Answers)
    requires WellFormed(w) && Allowed(w, Reconciled(a)) && !w.lb.deleting && |Unready(w)| <= 1
    ensures |Unready(Next(w, Reconciled(a)))| <= 1 <==> !WidensGap(w, a)
    ensures Honest(w, a) ==> !WidensGap(w, a)
  {
    ReadySize(w);
    var vms' := Reconcile(w.lb, w.vms, a).vms;
    ReconcileShape(w.lb, w.vms, a);
    ShapeCounts(w.lb, w.vms, vms', a);
    CreatesExactly(w.lb, w.vms, a);
    assert Unready(Next(w, Reconciled(a))) == vms' - w.ready * vms';
    if Grew(w.vms, vms', w.lb.OSVersion()) {
      GrowthGap(w.vms, vms', w.ready, w.lb.OSVersion());
    } else {
      ShrinkGap(w.vms, vms', w.ready);
    }
  }

  /** Bounded readiness gap: over every run in which ready replicas stay ready until they are deleted
      and no pass decides on a ready count above the real one, at most one replica is unready. */
  lemma {:induction false} RunBoundedGap(w: World, es: seq<Event>)
    requires WellFormed(w) && ValidRun(w, es) && HonestRun(w, es) && |Unready(w)| <= 1
    requires forall e :: e in es ==> !e.BecameUnready?
    ensures |Unready(Run(w, es))| <= 1
    decreases |es|
  {
    if es != [] {
      var e, w' := es[0], Next(w, es[0]);
      NextWellFormed(w, e);
      if e.Reconciled? && !w.lb.deleting {
        GapStep(w, e.answers);
      } else {
        if e.Reconciled? { DeleteShrinks(w.vms, Identities(Live(e.answers.items)), e.answers, 0); }
        SubsetSize(Unready(w'), Unready(w));
      }
      RunBoundedGap(w', es[1..]);
    }
  }

  /** The service never reports more replicas than are ready at the time. */
  ghost predicate HonestReports(w: World, es: seq<Event>)
    decreases |es|
  {
    es == [] ||
    (&& (es[0].Reconciled? && es[0].answers.statusRead.Some? ==> Honest(w, es[0].answers))
     && HonestReports(Next(w, es[0]), es[1..]))
  }

  lemma {:induction false} SuccessfulReadsAreHonest(w: World, es: seq<Event>)
    requires HonestReports(w, es)
    requires forall e :: e in es && e.Reconciled? ==> e.answers.statusRead.Some?
    ensures HonestRun(w, es)
    decreases |es|
  {
    if es != [] { SuccessfulReadsAreHonest(Next(w, es[0]), es[1..]); }
  }

  /** If the service reports honestly and every read of it succeeds, the gap is bounded. */
  lemma SuccessfulReadsBoundGap(w: World, es: seq<Event>)
    requires WellFormed(w) && ValidRun(w, es) && |Unready(w)| <= 1
    requires HonestReports(w, es)
    requires forall e :: e in es && e.Reconciled? ==> e.answers.statusRead.Some?
    requires forall e :: e in es ==> !e.BecameUnready?
    ensures |Unready(Run(w, es))| <= 1
  {
    SuccessfulReadsAreHonest(w, es);
    RunBoundedGap(w, es);
  }

  // ----- availability -----

  /** During an upgrade nothing is created or deleted while a replica is observed unready, and a
      delete leaves at least the desired number of usable replicas. */
  lemma UpgradingWaits(w: World, a: Answers)
    requires WellFormed(w) && Allowed(w, Reconciled(a)) && !w.lb.deleting && w.lb.AreUpgrading()
    ensures var w' := Next(w, Reconciled(a));
      && (ObservedReady(w.lb, a) < |w.vms| ==> w'.vms == w.vms)
      && (Honest(w, a) && |w'.vms| < |w.vms| ==> |w'.ready| >= w.lb.Desired())
  {
    var w' := Next(w, Reconciled(a));
    ReadySize(w);
    ReconcileShape(w.lb, w.vms, a);
    ShapeCounts(w.lb, w.vms, w'.vms, a);
    if |w'.vms| < |w.vms| { RemovalReady(w, a); }
  }

  /** A delete takes one usable replica at most: the victim, if it was one. */
  lemma RemovalReady(w: World, a: Answers)
    requires WellFormed(w) && Allowed(w, Reconciled(a)) && !w.lb.deleting
    requires |Next(w, Reconciled(a)).vms| < |w.vms|
    ensures w.vms != {}
    ensures var v := Victim(w.vms, w.lb.OSVersion());
      var w' := Next(w, Reconciled(a));
      && w'.ready == w.ready - {v}
      && |w'.ready| == |w.ready| - (if v in w.ready then 1 else 0)
  {
    var w' := Next(w, Reconciled(a));
    ReconcileShape(w.lb, w.vms, a);
    ShapeCounts(w.lb, w.vms, w'.vms, a);
    assert w'.ready == w.ready - {Victim(w.vms, w.lb.OSVersion())};
  }

  lemma NoRemovalKeepsReady(w: World, a: Answers)
    requires WellFormed(w) && Allowed(w, Reconciled(a)) && !w.lb.deleting
    requires |Next(w, Reconciled(a)).vms| >= |w.vms|
    ensures Next(w, Reconciled(a)).ready == w.ready
  {
    var w' := Next(w, Reconciled(a));
    ReconcileShape(w.lb, w.vms, a);
    ShapeCounts(w.lb, w.vms, w'.vms, a);
    assert w.vms <= w'.vms;
    assert w.ready * w'.vms == w.ready;
  }

  /** The pass deletes a usable replica while only the desired number is usable. */
  ghost predicate CausesOutage(w: World, a: Answers) {
    && Decides(w.lb, a) && a.delete.Gone()
    && |w.vms| > w.lb.Desired() && |w.ready| == w.lb.Desired()
    && !(w.lb.AreUpgrading() || w.lb.AreScalingUp())
    && w.vms != {} && Victim(w.vms, w.lb.OSVersion()) in w.ready
  }

  /** With at least the desired number of usable replicas and an honest count, a reconcile keeps
      that many usable exactly when it is not such a pass: more replicas than desired, only the
      desired number usable, an oldest candidate that is one of them, and a remembered reason
      that is neither `Upgrading` nor `ScalingUp`. */
  lemma AvailabilityStep(w: World, a: Answers)
    requires WellFormed(w) && Allowed(w, Reconciled(a)) && !w.lb.deleting
    requires Honest(w, a) && |w.ready| >= w.lb.Desired()
    ensures |Next(w, Reconciled(a)).ready| >= w.lb.Desired() <==> !CausesOutage(w, a)
  {
    var w' := Next(w, Reconciled(a));
    ReadySize(w);
    if |w'.vms| < |w.vms| {
      RemovalReady(w, a);
      RemovalReason(w, a);
    } else {
      NoRemovalKeepsReady(w, a);
      if CausesOutage(w, a) { OutageRemoves(w, a); }
    }
  }

  lemma RemovalReason(w: World, a: Answers)
    requires WellFormed(w) && Allowed(w, Reconciled(a)) && !w.lb.deleting
    requires |Next(w, Reconciled(a)).vms| < |w.vms|
    ensures Decides(w.lb, a) && a.delete.Gone() && |w.vms| > w.lb.Desired()
    ensures ObservedReady(w.lb, a) >= |w.vms| || !(w.lb.AreUpgrading() || w.lb.AreScalingUp())
  {
    ReconcileEffect(w.lb, w.vms, a);
  }

  lemma OutageRemoves(w: World, a: Answers)
    requires WellFormed(w) && Allowed(w, Reconciled(a)) && !w.lb.deleting && CausesOutage(w, a)
    ensures Next(w, Reconciled(a)).vms == w.vms - {Victim(w.vms, w.lb.OSVersion())}
    ensures |Next(w, Reconciled(a)).vms| < |w.vms|
  {
    ReconcileEffect(w.lb, w.vms, a);
  }

  /** A pass that cannot lose the memory of an upgrade: no VM reports a failure, and the condition it
      sets is persisted. */
  ghost predicate Smooth(a: Answers) {
    a.close.conditionsOk && (a.listOk ==> FirstFailure(Live(a.items)).None?)
  }

  /** At most one replica above the desired count, the desired number usable, and when it is only
      that many of more, the reason of the surge is remembered. */
  ghost predicate UpgradeInv(w: World) {
    && !w.lb.deleting && |w.vms| <= w.lb.Desired() + MAX_SURGE && |w.ready| >= w.lb.Desired()
    && (|w.vms| > w.lb.Desired() && |w.ready| == w.lb.Desired() ==> w.lb.AreUpgrading() || w.lb.AreScalingUp())
  }

  /** A removal takes one replica, or the delete failed and it leaves all. */
  lemma RemovalShrinks(lb: LB, vms: set<VM>, a: Answers)
    requires Decides(lb, a) && DecisionOf(lb, vms, a).RemoveReplica?
    ensures |VMsAfter(lb, vms, a)| == |vms| - 1 || VMsAfter(lb, vms, a) == vms
  {
    if vms != {} && a.delete.Gone() {
      assert VMsAfter(lb, vms, a) == vms - {Victim(vms, lb.OSVersion())};
    }
  }

  /** A smooth pass that leaves a replica above the desired count remembers why, or there is a usable
      one to spare and it changed nothing; `usable` is the number of usable replicas before it. */
  lemma SurplusIsRemembered(lb: LB, vms: set<VM>, a: Answers, usable: int)
    requires !lb.deleting && Faithful(lb, vms, a) && Smooth(a)
    requires ObservedReady(lb, a) <= usable <= |vms| <= lb.Desired() + MAX_SURGE && lb.Desired() <= usable
    requires |vms| > lb.Desired() && usable == lb.Desired() ==> lb.AreUpgrading() || lb.AreScalingUp()
    ensures |VMsAfter(lb, vms, a)| > lb.Desired() ==>
      || ReasonOf(ConditionAfter(lb, vms, a)) == Upgrading
      || ReasonOf(ConditionAfter(lb, vms, a)) == ScalingUp
      || (VMsAfter(lb, vms, a) == vms && usable > lb.Desired())
  {
    if !Decides(lb, a) {
      assert VMsAfter(lb, vms, a) == vms && ConditionAfter(lb, vms, a) == lb.replicasReady;
    } else if DecisionOf(lb, vms, a).RemoveReplica? {
      RemovalShrinks(lb, vms, a);
    } else if DecisionOf(lb, vms, a).Upgrade? {
      assert ConditionAfter(lb, vms, a) == NotReady(Upgrading, "");
    } else {
      assert !DecisionOf(lb, vms, a).AddReplica?;
    }
  }

  lemma SmoothKeepsUpgradeInv(w: World, a: Answers)
    requires WellFormed(w) && Allowed(w, Reconciled(a)) && UpgradeInv(w) && Honest(w, a) && Smooth(a)
    ensures UpgradeInv(Next(w, Reconciled(a)))
  {
    ReadySize(w);
    SurplusIsRemembered(w.lb, w.vms, a, |w.ready|);
    AvailabilityStep(w, a);
    SurgeAndFloor(w.lb, w.vms, a);
    ReconcileFrame(w.lb, w.vms, a);
    PersistedCondition(w.lb, w.vms, a);
    ReconcileEffect(w.lb, w.vms, a);
    if CausesOutage(w, a) { assert false; }
    if Next(w, Reconciled(a)).vms == w.vms { NoRemovalKeepsReady(w, a); }
  }

  /** Availability over a whole upgrade: if the run starts with the desired replicas all usable,
      keeps its spec, loses no replica, and every pass is honest and smooth, then at least the
      desired number of replicas is usable in every state. */
  lemma {:induction false} UpgradeKeepsAvailability(w: World, es: seq<Event>)
    requires WellFormed(w) && ValidRun(w, es) && HonestRun(w, es) && UpgradeInv(w)
    requires forall e :: e in es ==> (e.Reconciled? && Smooth(e.answers)) || e.BecameReady?
    ensures |Run(w, es).ready| >= w.lb.Desired()
    decreases |es|
  {
    if es != [] {
      var e, w' := es[0], Next(w, es[0]);
      NextWellFormed(w, e);
      StepKeepsSpec(w, e);
      if e.Reconciled? {
        SmoothKeepsUpgradeInv(w, e.answers);
      } else {
        SubsetSize(w.ready, w'.ready);
      }
      UpgradeKeepsAvailability(w', es[1..]);
    }
  }

  // ----- the phase and real readiness -----

  /** What the pass read of the service, if it read it, is not above the real count. */
  ghost predicate HonestReport(w: World, a: Answers) {
    a.statusRead.Some? ==> a.statusRead.value.replicationCount <= |w.ready|
  }

  ghost predicate AllReady(w: World) {
    w.ready == w.vms
  }

  /** The meaning the API documents for `provisioned`, that all replicas are ready, at a reconcile of any run
      that looks at the replicas and persists the phase. It holds for sure, that is with whatever replicas
      really ready the report is honest about, exactly when the read of the service succeeded, or there
      are no replicas: after a failed read the pass decides on the count left over. */
  lemma ProvisionedMeansReady(w: World, es: seq<Event>, a: Answers)
    requires Fresh(w) && ValidRun(w, es + [Reconciled(a)])
    requires var m := Run(w, es); !m.lb.deleting && Looks(m.lb, a) && a.close.statusOk
    requires Run(w, es + [Reconciled(a)]).lb.phase.Provisioned?
    ensures var m, m' := Run(w, es), Run(w, es + [Reconciled(a)]);
      && (a.statusRead.Some? && HonestReport(m, a) ==> m'.ready == m'.vms)
      && ((forall ready :: ready <= m.vms && HonestReport(m.(ready := ready), a) ==>
             AllReady(Next(m.(ready := ready), Reconciled(a))))
          <==> a.statusRead.Some? || m.vms == {})
  {
    TruthfulPhase(w, es, a);
    RunSnoc(w, es, Reconciled(a));
    RunWellFormed(w, es);
    var m := Run(w, es);
    forall ready | ready <= m.vms && HonestReport(m.(ready := ready), a)
      ensures Next(m.(ready := ready), Reconciled(a)).ready == ready
      ensures Next(m.(ready := ready), Reconciled(a)).vms == m.vms
      ensures a.statusRead.Some? ==> ready == m.vms
    {
      assert ready * m.vms == ready;
      if a.statusRead.Some? { ReadySize(m.(ready := ready)); }
    }
    if a.statusRead.None? && m.vms != {} {
      var none: set<VM> := {};
      assert HonestReport(m.(ready := none), a) && !AllReady(Next(m.(ready := none), Reconciled(a)));
    }
    assert m.(ready := m.ready) == m;
  }
}
