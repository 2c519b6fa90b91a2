/** Exactly when a deletion cannot get stuck. A reconcile ends, even of a resource being deleted, where a Get
    at its start does not find the owner, the Cluster or the AzureStackHCICluster; then nothing the
    controllers do brings the resource to disappear. */
module FinalizerLiveness {
  import opened ResourceStore
  import opened FinalizerProtocol
  import opened FinalizerInvariants
  import opened FinalizerTheorems
  import opened FinalizerProgress

  lemma {:induction false} PathKeeps<S(!new), A(!new)>(
    step: (S, A, S) -> bool, inv: S -> bool, s: S, xs: seq<A>, t: S)
    requires Path(step, s, xs, t) && inv(s)
    requires forall x, a, y :: inv(x) && step(x, a, y) ==> inv(y)
    ensures inv(t)
    decreases |xs|
  {
    if xs != [] {
      var m :| step(s, xs[0], m) && Path(step, m, xs[1..], t);
      PathKeeps(step, inv, m, xs[1..], t);
    }
  }

  // ----- what no controller changes -----

  lemma RootsStay(s: State, a: Action)
    requires Enabled(s, a) && !a.step.OfUser?
    ensures Apply(s, a).roots == s.roots
  {
    match a.step
    case OfVM(x) => VMFrame(s, a.key, x);
    case OfMachine(x) => MachineFrame(s, a.key, x);
    case OfLB(x) => LBFrame(s, a.key, x);
    case OfCluster(x) => ClusterFrame(s, a.key, x);
  }

  /** What is left of a machine after a step of a controller: the same machine, no less marked or held. */
  predicate SameMachine(s: State, t: State, m: Name) {
    m in t.machines ==>
      && m in s.machines && t.machines[m].data == s.machines[m].data
      && (Marked(s.machines, m) ==> Marked(t.machines, m))
      && (Held(s.machines, m) ==> Held(t.machines, m))
  }

  lemma MachineStepKeepsData(s: State, k: Name, step: MachineStep, m: Name)
    requires MachineOk(s, k) && MachineEnabled(s, k, step)
    ensures SameMachine(s, MachineApply(s, k, step), m)
  {
  }

  lemma ClusterStepKeepsData(s: State, c: Name, step: ClusterStep, m: Name)
    requires ClusterEnabled(s, c, step)
    ensures SameMachine(s, ClusterApply(s, c, step), m)
  {
  }

  lemma MachineKept(s: State, a: Action, m: Name)
    requires Inv(s) && Enabled(s, a) && !a.step.OfUser?
    ensures SameMachine(s, Apply(s, a), m)
  {
    assert Ok(s, a.key);
    match a.step
    case OfVM(x) => VMFrame(s, a.key, x);
    case OfMachine(x) => MachineStepKeepsData(s, a.key, x, m);
    case OfLB(x) => LBFrame(s, a.key, x);
    case OfCluster(x) => ClusterStepKeepsData(s, a.key, x, m);
  }

  /** A cluster stays the same; it goes only with its services deleted, its finalizer removed. */
  predicate SameCluster(s: State, t: State, c: Name) {
    && (c in t.clusters ==>
          && c in s.clusters && t.clusters[c].data == s.clusters[c].data
          && (Marked(s.clusters, c) ==> Marked(t.clusters, c)))
    && (c in s.clusters && c !in t.clusters ==> InServices(s, c, 2))
  }

  lemma ClusterStepKeepsClusters(s: State, k: Name, step: ClusterStep, c: Name)
    requires ClusterEnabled(s, k, step)
    ensures SameCluster(s, ClusterApply(s, k, step), c)
  {
  }

  lemma ClusterKept(s: State, a: Action, c: Name)
    requires Enabled(s, a) && !a.step.OfUser?
    ensures SameCluster(s, Apply(s, a), c)
  {
    match a.step
    case OfVM(x) => VMFrame(s, a.key, x);
    case OfMachine(x) => MachineFrame(s, a.key, x);
    case OfLB(x) => LBFrame(s, a.key, x);
    case OfCluster(x) => ClusterStepKeepsClusters(s, a.key, x, c);
  }

  /** A cluster with a machine does not go. */
  lemma MachineHoldsCluster(s: State, a: Action, m: Name)
    requires Inv(s) && Enabled(s, a) && !a.step.OfUser?
    requires m in s.machines && s.machines[m].data.cluster in s.clusters
    ensures s.machines[m].data.cluster in Apply(s, a).clusters
  {
    assert Ok(s, m);
    ClusterKept(s, a, s.machines[m].data.cluster);
  }

  // ----- machines -----

  ghost predicate MachineCanGo(s: State, m: Name) {
    exists actions, t :: Leads(s, actions, t) && m !in t.machines
  }

  /** Whatever the controllers do, their deletion of the machine can still be completed by them. */
  ghost predicate MachineNeverStuck(s: State, m: Name) {
    forall actions, t :: Leads(s, actions, t) ==> MachineCanGo(t, m)
  }

  ghost predicate MachineGoing(s: State, m: Name) {
    Inv(s) && (m in s.machines ==> Marked(s.machines, m) && MachineServed(s, m))
  }

  lemma MachineGoingStays(s: State, a: Action, m: Name)
    requires MachineGoing(s, m) && Enabled(s, a) && !a.step.OfUser?
    ensures MachineGoing(Apply(s, a), m)
  {
    var t := Apply(s, a);
    StepKeepsInv(s, a);
    MachineKept(s, a, m);
    RootsStay(s, a);
    if m in t.machines {
      var c := s.machines[m].data.cluster;
      assert MachineFinds(s, m, c, 0) && MachineFinds(s, m, c, 1) && MachineFinds(s, m, c, 2);
      MachineHoldsCluster(s, a, m);
    }
  }

  /** The machine is held, Get number `i` of its reconcile fails, and the controller is not past it. */
  predicate MachineBlocked(s: State, m: Name, i: nat) {
    && Held(s.machines, m) && i < MACHINE_GETS && !MachineFinds(s, m, s.machines[m].data.cluster, i)
    && (m in s.machinePc ==>
          && s.machinePc[m].MachineRead? && s.machinePc[m].found <= i
          && s.machinePc[m].cluster == s.machines[m].data.cluster)
  }

  lemma BlockedByMachineStep(s: State, k: Name, step: MachineStep, m: Name, i: nat)
    requires MachineBlocked(s, m, i) && MachineEnabled(s, k, step)
    ensures MachineBlocked(MachineApply(s, k, step), m, i)
  {
  }

  lemma BlockedByClusterStep(s: State, c: Name, step: ClusterStep, m: Name, i: nat)
    requires MachineBlocked(s, m, i) && ClusterEnabled(s, c, step)
    ensures MachineBlocked(ClusterApply(s, c, step), m, i)
  {
    ClusterStepKeepsData(s, c, step, m);
    ClusterStepKeepsClusters(s, c, step, s.machines[m].data.cluster);
    ClusterFrame(s, c, step);
  }

  lemma BlockedStays(s: State, a: Action, m: Name, i: nat)
    requires MachineBlocked(s, m, i) && Enabled(s, a) && !a.step.OfUser?
    ensures MachineBlocked(Apply(s, a), m, i)
  {
    match a.step
    case OfVM(x) => VMFrame(s, a.key, x);
    case OfMachine(x) => BlockedByMachineStep(s, a.key, x, m, i);
    case OfLB(x) => LBFrame(s, a.key, x);
    case OfCluster(x) => BlockedByClusterStep(s, a.key, x, m, i);
  }

  /** No continuation by the controllers removes a blocked machine. */
  lemma BlockedForever(s: State, xs: seq<Action>, t: State, m: Name, i: nat)
    requires MachineBlocked(s, m, i) && Leads(s, xs, t)
    ensures MachineBlocked(t, m, i)
  {
    var inv := (x: State) => MachineBlocked(x, m, i);
    forall x, a, y | inv(x) && ControllerStep(x, a, y) ensures inv(y) { BlockedStays(x, a, m, i); }
    PathKeeps(ControllerStep, inv, s, xs, t);
  }

  /** A marked machine whose controller is idle can go exactly when its owner, Cluster and AzureStackHCICluster
      are there; and, whatever its controller is doing, exactly then its deletion never gets stuck. */
  lemma MachineDeletionLive(s: State, m: Name)
    requires Inv(s) && Marked(s.machines, m)
    ensures MachineNeverStuck(s, m) <==> MachineServed(s, m)
    ensures m !in s.machinePc ==> (MachineCanGo(s, m) <==> MachineServed(s, m))
  {
    assert Ok(s, m);
    if MachineServed(s, m) {
      forall actions, t | Leads(s, actions, t) ensures MachineCanGo(t, m) {
        MachineGoesOn(s, m, actions, t);
      }
      assert Leads(s, [], s);
    } else {
      MachineGetsStuck(s, m);
    }
  }

  lemma MachineGoesOn(s: State, m: Name, actions: seq<Action>, t: State)
    requires MachineGoing(s, m) && Leads(s, actions, t)
    ensures MachineCanGo(t, m)
  {
    var inv := (x: State) => MachineGoing(x, m);
    forall x, a, y | inv(x) && ControllerStep(x, a, y) ensures inv(y) { MachineGoingStays(x, a, m); }
    PathKeeps(ControllerStep, inv, s, actions, t);
    if m in t.machines {
      var go, u := MarkedMachineCanGo(t, m);
    } else {
      assert Leads(t, [], t);
    }
  }

  lemma MachineGetsStuck(s: State, m: Name)
    requires Held(s.machines, m) && !MachineServed(s, m)
    ensures !MachineNeverStuck(s, m)
    ensures m !in s.machinePc ==> !MachineCanGo(s, m)
  {
    var i :| 0 <= i < MACHINE_GETS && !MachineFinds(s, m, s.machines[m].data.cluster, i);
    var free, t := MachineFree(s, m);
    assert MachineBlocked(t, m, i);
    forall actions, u | Leads(t, actions, u) ensures m in u.machines { BlockedForever(t, actions, u, m, i); }
    assert !MachineCanGo(t, m);
    if m !in s.machinePc {
      forall actions, u | Leads(s, actions, u) ensures m in u.machines { BlockedForever(s, actions, u, m, i); }
    }
  }

  // ----- load balancers -----

  ghost predicate LBCanGo(s: State, c: Name) {
    exists actions, t :: Leads(s, actions, t) && c !in t.lbs
  }

  /** A step other than the Get of the load balancer that errs though there may be one. */
  predicate TruthfulStep(s: State, a: Action, t: State) {
    ControllerStep(s, a, t) && a.step != OfCluster(ClusterGetLB(true))
  }

  ghost predicate LBNeverStuck(s: State, c: Name) {
    forall actions, t :: Path(TruthfulStep, s, actions, t) && Marked(t.lbs, c) ==> LBCanGo(t, c)
  }

  /** The Cluster and the AzureStackHCICluster are there, and the controller of the latter is not already past
      the load balancer. */
  predicate LBServed(s: State, c: Name) {
    c in s.roots && c in s.clusters && !(c in s.clusterPc && s.clusterPc[c].ClusterServices?)
  }

  ghost predicate LBGoing(s: State, c: Name) {
    Inv(s) && c in s.roots && (c in s.lbs ==> LBServed(s, c))
  }

  lemma LBStepKeepsLBs(s: State, k: Name, step: LBStep, c: Name)
    requires LBEnabled(s, k, step)
    ensures c in LBApply(s, k, step).lbs ==> c in s.lbs
  {
  }

  lemma LBServedByClusterStep(s: State, k: Name, step: ClusterStep, c: Name)
    requires Ok(s, k) && (c in s.lbs ==> LBServed(s, c)) && c in s.roots
    requires ClusterEnabled(s, k, step) && step != ClusterGetLB(true)
    ensures var t := ClusterApply(s, k, step); c in t.lbs ==> LBServed(t, c)
  {
  }

  lemma LBGoingStays(s: State, a: Action, c: Name)
    requires LBGoing(s, c) && Enabled(s, a) && !a.step.OfUser? && a.step != OfCluster(ClusterGetLB(true))
    ensures LBGoing(Apply(s, a), c)
  {
    StepKeepsInv(s, a);
    RootsStay(s, a);
    assert Ok(s, a.key);
    match a.step
    case OfVM(x) => VMFrame(s, a.key, x);
    case OfMachine(x) => MachineFrame(s, a.key, x);
    case OfLB(x) =>
      LBFrame(s, a.key, x);
      LBStepKeepsLBs(s, a.key, x, c);
    case OfCluster(x) => LBServedByClusterStep(s, a.key, x, c);
  }

  /** The load balancer is held, Get number `i` of its reconcile fails, and the controller is not past it. */
  predicate LBBlocked(s: State, c: Name, i: nat) {
    && Held(s.lbs, c) && i < LB_GETS && !LBFinds(s, c, i)
    && (c in s.lbPc ==> s.lbPc[c].LBRead? && s.lbPc[c].found <= i)
  }

  lemma LBBlockedByLBStep(s: State, k: Name, step: LBStep, c: Name, i: nat)
    requires LBBlocked(s, c, i) && LBEnabled(s, k, step)
    ensures var t := LBApply(s, k, step); LBBlocked(t, c, i) && (c in s.services ==> c in t.services)
  {
  }

  lemma LBBlockedByClusterStep(s: State, k: Name, step: ClusterStep, c: Name, i: nat)
    requires LBBlocked(s, c, i) && ClusterEnabled(s, k, step)
    ensures var t := ClusterApply(s, k, step); LBBlocked(t, c, i) && t.services == s.services
  {
    ClusterStepKeepsClusters(s, k, step, c);
  }

  lemma LBBlockedStays(s: State, a: Action, c: Name, i: nat)
    requires LBBlocked(s, c, i) && Enabled(s, a) && !a.step.OfUser?
    ensures var t := Apply(s, a); LBBlocked(t, c, i) && (c in s.services ==> c in t.services)
  {
    match a.step
    case OfVM(x) => VMFrame(s, a.key, x);
    case OfMachine(x) => MachineFrame(s, a.key, x);
    case OfLB(x) => LBBlockedByLBStep(s, a.key, x, c, i);
    case OfCluster(x) => LBBlockedByClusterStep(s, a.key, x, c, i);
  }

  /** No continuation by the controllers removes a blocked load balancer or its service. */
  lemma LBBlockedForever(s: State, xs: seq<Action>, t: State, c: Name, i: nat)
    requires LBBlocked(s, c, i) && Leads(s, xs, t)
    ensures LBBlocked(t, c, i) && (c in s.services ==> c in t.services)
  {
    var inv := (x: State) => LBBlocked(x, c, i) && (c in s.services ==> c in x.services);
    forall x, a, y | inv(x) && ControllerStep(x, a, y) ensures inv(y) { LBBlockedStays(x, a, c, i); }
    PathKeeps(ControllerStep, inv, s, xs, t);
  }

  /** A marked load balancer whose controller is idle can go exactly when its Cluster and AzureStackHCICluster
      are there; and, if the cluster controller's Get errs only where there is no load balancer, its
      deletion never gets stuck exactly when moreover that controller is not past it already. */
  lemma LBDeletionLive(s: State, c: Name)
    requires Inv(s) && Marked(s.lbs, c)
    ensures LBNeverStuck(s, c) <==> LBServed(s, c)
    ensures c !in s.lbPc ==> (LBCanGo(s, c) <==> c in s.roots && c in s.clusters)
  {
    assert Ok(s, c);
    if c in s.roots && c in s.clusters {
      var go, t := MarkedLBCanGo(s, c);
    } else {
      LBGetsStuck(s, c);
    }
    if LBServed(s, c) {
      forall actions, t | Path(TruthfulStep, s, actions, t) && Marked(t.lbs, c) ensures LBCanGo(t, c) {
        LBGoesOn(s, c, actions, t);
      }
    } else if c in s.roots && c in s.clusters {
      LBGetsStranded(s, c);
    }
  }

  lemma LBGoesOn(s: State, c: Name, actions: seq<Action>, t: State)
    requires LBGoing(s, c) && Path(TruthfulStep, s, actions, t) && Marked(t.lbs, c)
    ensures LBCanGo(t, c)
  {
    var inv := (x: State) => LBGoing(x, c);
    forall x, a, y | inv(x) && TruthfulStep(x, a, y) ensures inv(y) { LBGoingStays(x, a, c); }
    PathKeeps(TruthfulStep, inv, s, actions, t);
    var go, u := MarkedLBCanGo(t, c);
  }

  lemma {:induction false} TruthfulPath(s: State, xs: seq<Action>, t: State)
    requires Leads(s, xs, t) && forall a :: a in xs ==> a.step != OfCluster(ClusterGetLB(true))
    ensures Path(TruthfulStep, s, xs, t)
    decreases |xs|
  {
    if xs != [] {
      var m :| ControllerStep(s, xs[0], m) && Path(ControllerStep, m, xs[1..], t);
      assert xs[0] in xs && TruthfulStep(s, xs[0], m);
      TruthfulPath(m, xs[1..], t);
    }
  }

  /** A blocked load balancer that is marked is stuck. */
  lemma BlockedLBIsStuck(s: State, c: Name, i: nat)
    requires LBBlocked(s, c, i)
    ensures !LBCanGo(s, c)
  {
    forall actions, u | Leads(s, actions, u) ensures c in u.lbs { LBBlockedForever(s, actions, u, c, i); }
  }

  lemma LBGetsStuck(s: State, c: Name)
    requires Marked(s.lbs, c) && Held(s.lbs, c) && !(c in s.roots && c in s.clusters)
    ensures !LBNeverStuck(s, c)
    ensures c !in s.lbPc ==> !LBCanGo(s, c)
  {
    var i := if c !in s.roots then 0 else 1;
    var free, t := LBFree(s, c);
    TruthfulPath(s, free, t);
    BlockedLBIsStuck(t, c, i);
    if c !in s.lbPc { BlockedLBIsStuck(s, c, i); }
  }

  /** Past the load balancer, the cluster controller may finish first and strand it. */
  lemma LBGetsStranded(s: State, c: Name)
    requires Inv(s) && Marked(s.lbs, c) && c in s.clusterPc && s.clusterPc[c].ClusterServices?
    ensures !LBNeverStuck(s, c)
  {
    assert Ok(s, c);
    var free, s1 := LBFree(s, c);
    var leave, t := ClusterLeaves(s1, c, s.clusterPc[c].done);
    LeadsOn(s, free, s1, leave, t);
    TruthfulPath(s, free + leave, t);
    BlockedLBIsStuck(t, c, 1);
  }

  // ----- clusters -----

  ghost predicate ClusterCanGo(s: State, c: Name) {
    exists actions, t :: Leads(s, actions, t) && c !in t.clusters
  }

  ghost predicate ClusterNeverStuck(s: State, c: Name) {
    forall actions, t :: Leads(s, actions, t) ==> ClusterCanGo(t, c)
  }

  /** A pass of the machine controller that saw the machine not being deleted, and its owner, may still put the
      finalizer on. */
  predicate MayHold(s: State, m: Name) {
    m in s.machinePc &&
    match s.machinePc[m]
    case MachineLoaded => true
    case MachineRead(_, c, found) =>
      found >= 1 && (found == 1 ==> MachineFinds(s, m, c, 1)) && MachineFinds(s, m, c, 2)
    case _ => false
  }

  /** The machine will not outstay the deletion of its cluster: its owner is there and it is marked; or it has
      no owner reference, so that the cluster controller deletes it, and no finalizer holds it or may come
      to hold it. A reference to an owner that is missing makes the cluster controller give up. */
  predicate Departing(s: State, m: Name)
    requires m in s.machines
  {
    match s.machines[m].data.owner
    case OwnerFound => s.machines[m].deleting
    case OwnerMissing => false
    case NoOwnerRef => !s.machines[m].finalizer && !MayHold(s, m)
  }

  ghost predicate ClusterClear(s: State, c: Name) {
    c in s.roots && forall m :: m in MachinesOf(s, c) ==> Departing(s, m)
  }

  ghost predicate ClusterGoing(s: State, c: Name) {
    Inv(s) && (c in s.clusters ==> Marked(s.clusters, c) && ClusterClear(s, c))
  }

  lemma DepartingByMachineStep(s: State, k: Name, step: MachineStep, m: Name)
    requires Ok(s, k) && m in s.machines && Departing(s, m) && MachineEnabled(s, k, step)
    ensures var t := MachineApply(s, k, step); m in t.machines ==> Departing(t, m)
  {
    MachineFrame(s, k, step);
    MachineStepKeepsData(s, k, step, m);
  }

  lemma DepartingByClusterStep(s: State, k: Name, step: ClusterStep, m: Name)
    requires m in s.machines && Departing(s, m) && ClusterEnabled(s, k, step)
    ensures var t := ClusterApply(s, k, step); m in t.machines ==> Departing(t, m)
  {
    ClusterFrame(s, k, step);
    ClusterStepKeepsData(s, k, step, m);
    if m in s.machinePc && s.machinePc[m].MachineRead? {
      ClusterStepKeepsClusters(s, k, step, s.machinePc[m].cluster);
    }
  }

  lemma DepartingFrame(s: State, t: State, m: Name)
    requires m in s.machines && Departing(s, m)
    requires t.machines == s.machines && t.machinePc == s.machinePc && t.roots == s.roots && t.clusters == s.clusters
    ensures Departing(t, m)
  {
  }

  lemma DepartingStays(s: State, a: Action, m: Name)
    requires Inv(s) && m in s.machines && Departing(s, m) && Enabled(s, a) && !a.step.OfUser?
    ensures m in Apply(s, a).machines ==> Departing(Apply(s, a), m)
  {
    assert Ok(s, a.key);
    match a.step
    case OfVM(x) =>
      VMFrame(s, a.key, x);
      DepartingFrame(s, VMApply(s, a.key, x), m);
    case OfMachine(x) => DepartingByMachineStep(s, a.key, x, m);
    case OfLB(x) =>
      LBFrame(s, a.key, x);
      DepartingFrame(s, LBApply(s, a.key, x), m);
    case OfCluster(x) => DepartingByClusterStep(s, a.key, x, m);
  }

  lemma ClusterGoingStays(s: State, a: Action, c: Name)
    requires ClusterGoing(s, c) && Enabled(s, a) && !a.step.OfUser?
    ensures ClusterGoing(Apply(s, a), c)
  {
    var t := Apply(s, a);
    StepKeepsInv(s, a);
    RootsStay(s, a);
    ClusterKept(s, a, c);
    if c in t.clusters {
      forall m | m in MachinesOf(t, c) ensures Departing(t, m) {
        MachineKept(s, a, m);
        assert m in MachinesOf(s, c);
        DepartingStays(s, a, m);
      }
    }
  }

  lemma ClusterGoingForever(s: State, actions: seq<Action>, t: State, c: Name)
    requires ClusterGoing(s, c) && Leads(s, actions, t)
    ensures ClusterGoing(t, c)
  {
    var inv := (x: State) => ClusterGoing(x, c);
    forall x, a, y | inv(x) && ControllerStep(x, a, y) ensures inv(y) { ClusterGoingStays(x, a, c); }
    PathKeeps(ControllerStep, inv, s, actions, t);
  }

  /** A departing machine goes. */
  lemma DepartingGoes(s: State, c: Name, m: Name) returns (actions: seq<Action>, t: State)
    requires ClusterGoing(s, c) && c in s.clusters && m in MachinesOf(s, c)
    ensures Leads(s, actions, t) && t.clusters == s.clusters && t.machines == s.machines - {m}
  {
    assert Departing(s, m);
    if s.machines[m].data.owner.OwnerFound? {
      actions, t := MarkedMachineCanGo(s, m);
    } else {
      actions, t := OrphanGoes(s, c, m);
    }
  }

  /** All machines of the cluster go, one after the other. */
  lemma {:induction false} MachinesGo(s: State, c: Name) returns (actions: seq<Action>, t: State)
    requires ClusterGoing(s, c) && c in s.clusters
    ensures Leads(s, actions, t) && ClusterGoing(t, c) && c in t.clusters && MachinesOf(t, c) == {}
    decreases |MachinesOf(s, c)|
  {
    if MachinesOf(s, c) == {} {
      return [], s;
    }
    var m :| m in MachinesOf(s, c);
    var go, s1 := DepartingGoes(s, c, m);
    ClusterGoingForever(s, go, s1, c);
    assert MachinesOf(s1, c) == MachinesOf(s, c) - {m};
    var rest, s2 := MachinesGo(s1, c);
    LeadsOn(s, go, s1, rest, s2);
    actions, t := go + rest, s2;
  }

  /** By the controllers alone, a marked cluster all of whose machines are departing can be brought to disappear
      with its machines, its load balancer and service, its vault and the group it owns. */
  lemma MarkedClusterCanGo(s: State, c: Name) returns (actions: seq<Action>, t: State)
    requires Inv(s) && Marked(s.clusters, c) && ClusterClear(s, c)
    ensures Leads(s, actions, t) && MachinesOf(t, c) == {}
    ensures c !in t.clusters && c !in t.lbs && c !in t.services && c !in t.vaults
    ensures var g := s.clusters[c].data; g in t.groups ==> !t.groups[g]
  {
    var machines, s1 := MachinesGo(s, c);
    ClusterDataStays(s, machines, s1, c);
    var rest, s2 := EmptyClusterCanGo(s1, c);
    LeadsOn(s, machines, s1, rest, s2);
    actions, t := machines + rest, s2;
  }

  lemma ClusterDataStays(s: State, xs: seq<Action>, t: State, c: Name)
    requires Leads(s, xs, t) && c in s.clusters && c in t.clusters
    ensures t.clusters[c].data == s.clusters[c].data
  {
    var inv := (x: State) => c in x.clusters ==> x.clusters[c].data == s.clusters[c].data;
    forall x, a, y | inv(x) && ControllerStep(x, a, y) ensures inv(y) { ClusterKept(x, a, c); }
    PathKeeps(ControllerStep, inv, s, xs, t);
  }

  // What keeps a cluster for good: its own Cluster missing, or a machine that stays.

  predicate ClusterBlocked(s: State, c: Name) {
    Held(s.clusters, c) && c !in s.roots && (c in s.clusterPc ==> s.clusterPc[c].ClusterRead?)
  }

  lemma ClusterBlockedByStep(s: State, k: Name, step: ClusterStep, c: Name)
    requires ClusterBlocked(s, c) && ClusterEnabled(s, k, step)
    ensures ClusterBlocked(ClusterApply(s, k, step), c)
  {
  }

  lemma ClusterBlockedStays(s: State, a: Action, c: Name)
    requires ClusterBlocked(s, c) && Enabled(s, a) && !a.step.OfUser?
    ensures ClusterBlocked(Apply(s, a), c)
  {
    match a.step
    case OfVM(x) => VMFrame(s, a.key, x);
    case OfMachine(x) => MachineFrame(s, a.key, x);
    case OfLB(x) => LBFrame(s, a.key, x);
    case OfCluster(x) => ClusterBlockedByStep(s, a.key, x, c);
  }

  lemma BlockedClusterIsStuck(s: State, c: Name)
    requires ClusterBlocked(s, c)
    ensures !ClusterCanGo(s, c)
  {
    var inv := (x: State) => ClusterBlocked(x, c);
    forall x, a, y | inv(x) && ControllerStep(x, a, y) ensures inv(y) { ClusterBlockedStays(x, a, c); }
    forall actions, t | Leads(s, actions, t) ensures c in t.clusters {
      PathKeeps(ControllerStep, inv, s, actions, t);
    }
  }

  /** Nobody has asked for the deletion of the machine, and the cluster controller will not. */
  predicate MachineUnasked(s: State, m: Name) {
    m in s.machines && !s.machines[m].deleting && !s.machines[m].data.owner.NoOwnerRef?
  }

  lemma UnaskedByMachineStep(s: State, k: Name, step: MachineStep, m: Name)
    requires Ok(s, k) && MachineUnasked(s, m) && MachineEnabled(s, k, step)
    ensures MachineUnasked(MachineApply(s, k, step), m)
  {
  }

  lemma UnaskedByClusterStep(s: State, k: Name, step: ClusterStep, m: Name)
    requires MachineUnasked(s, m) && ClusterEnabled(s, k, step)
    ensures MachineUnasked(ClusterApply(s, k, step), m)
  {
  }

  lemma UnaskedStays(s: State, a: Action, m: Name)
    requires Inv(s) && MachineUnasked(s, m) && Enabled(s, a) && !a.step.OfUser?
    ensures MachineUnasked(Apply(s, a), m)
  {
    assert Ok(s, a.key);
    match a.step
    case OfVM(x) => VMFrame(s, a.key, x);
    case OfMachine(x) => UnaskedByMachineStep(s, a.key, x, m);
    case OfLB(x) => LBFrame(s, a.key, x);
    case OfCluster(x) => UnaskedByClusterStep(s, a.key, x, m);
  }

  /** The machine of the cluster stays, and so does the cluster. */
  ghost predicate Kept(s: State, c: Name, m: Name) {
    && Inv(s) && c in s.clusters && m in MachinesOf(s, c)
    && (MachineUnasked(s, m) || MachineBlocked(s, m, 0))
  }

  lemma KeptStays(s: State, a: Action, c: Name, m: Name)
    requires Kept(s, c, m) && Enabled(s, a) && !a.step.OfUser?
    ensures Kept(Apply(s, a), c, m)
  {
    StepKeepsInv(s, a);
    MachineKept(s, a, m);
    MachineHoldsCluster(s, a, m);
    if MachineUnasked(s, m) { UnaskedStays(s, a, m); } else { BlockedStays(s, a, m, 0); }
  }

  /** No continuation by the controllers removes such a machine or its cluster. */
  lemma KeptForever(s: State, actions: seq<Action>, t: State, c: Name, m: Name)
    requires Kept(s, c, m) && Leads(s, actions, t)
    ensures Kept(t, c, m)
  {
    var inv := (x: State) => Kept(x, c, m);
    forall x, a, y | inv(x) && ControllerStep(x, a, y) ensures inv(y) { KeptStays(x, a, c, m); }
    PathKeeps(ControllerStep, inv, s, actions, t);
  }

  lemma KeptClusterIsStuck(s: State, c: Name, m: Name)
    requires Kept(s, c, m)
    ensures !ClusterCanGo(s, c)
  {
    forall actions, t | Leads(s, actions, t) ensures c in t.clusters { KeptForever(s, actions, t, c, m); }
  }

  lemma MayHoldGoesOn(s: State, m: Name)
    requires MachineOk(s, m) && m in s.machines && !s.machines[m].deleting && MayHold(s, m)
    requires s.machinePc[m].MachineRead?
    ensures MachineEnabled(s, m, MachineFind)
    ensures var t := MachineApply(s, m, MachineFind);
      && t == s.(machinePc := t.machinePc) && MachineOk(t, m) && MayHold(t, m)
      && (t.machinePc[m].MachineRead? ==> t.machinePc[m].found == s.machinePc[m].found + 1)
  {
  }

  /** The pass of the machine controller under way goes on to put the finalizer on. */
  lemma {:induction false} BecomesHeld(s: State, m: Name) returns (actions: seq<Action>, t: State)
    requires MachineOk(s, m) && m in s.machines && !s.machines[m].deleting && MayHold(s, m)
    ensures Leads(s, actions, t) && t == s.(machines := WithFinalizer(s.machines, m), machinePc := t.machinePc)
    decreases if s.machinePc[m].MachineLoaded? then 0 else MACHINE_GETS - s.machinePc[m].found
  {
    assert Leads(s, [], s);
    if s.machinePc[m].MachineLoaded? {
      var patch := Action(m, OfMachine(MachinePatch(true, true)));
      LeadsByOne(s, [], s, patch);
      actions, t := [] + [patch], Apply(s, patch);
    } else {
      var find := Action(m, OfMachine(MachineFind));
      MayHoldGoesOn(s, m);
      LeadsByOne(s, [], s, find);
      var s1 := MachineApply(s, m, MachineFind);
      assert Apply(s, find) == s1;
      var rest, s2 := BecomesHeld(s1, m);
      LeadsOn(s, [] + [find], s1, rest, s2);
      actions, t := [] + [find] + rest, s2;
    }
  }

  lemma HeldMachineSticks(s: State, c: Name, m: Name) returns (actions: seq<Action>, t: State)
    requires Inv(s) && c in s.clusters && m in MachinesOf(s, c)
    requires s.machines[m].finalizer && !s.machines[m].data.owner.OwnerFound?
    ensures Leads(s, actions, t) && Kept(t, c, m)
  {
    actions, t := MachineFree(s, m);
    LeadsKeepsInv(s, actions, t);
    assert MachineBlocked(t, m, 0);
  }

  lemma UnheldMachineSticks(s: State, c: Name, m: Name) returns (actions: seq<Action>, t: State)
    requires Inv(s) && c in s.clusters && m in MachinesOf(s, c)
    requires !s.machines[m].deleting && !s.machines[m].data.owner.OwnerFound? && MayHold(s, m)
    ensures Leads(s, actions, t) && Kept(t, c, m)
  {
    assert Ok(s, m);
    var hold, s1 := BecomesHeld(s, m);
    LeadsKeepsInv(s, hold, s1);
    var free, s2 := HeldMachineSticks(s1, c, m);
    LeadsOn(s, hold, s1, free, s2);
    actions, t := hold + free, s2;
  }

  /** A machine that is not departing can come to keep its cluster for good. */
  lemma StayingMachineSticks(s: State, c: Name, m: Name)
    requires Inv(s) && c in s.clusters && m in MachinesOf(s, c) && !Departing(s, m)
    ensures !ClusterNeverStuck(s, c)
  {
    assert Ok(s, m);
    var actions, t := [], s;
    assert Leads(s, [], s);
    if s.machines[m].finalizer && !MachineUnasked(s, m) {
      actions, t := HeldMachineSticks(s, c, m);
    } else if !MachineUnasked(s, m) {
      actions, t := UnheldMachineSticks(s, c, m);
    }
    KeptClusterIsStuck(t, c, m);
  }

  /** Whatever the controllers are doing, the deletion of a cluster never gets stuck exactly when its Cluster is
      there and every machine of it is departing. */
  lemma ClusterDeletionLive(s: State, c: Name)
    requires Inv(s) && Marked(s.clusters, c)
    ensures ClusterNeverStuck(s, c) <==> ClusterClear(s, c)
  {
    assert Ok(s, c);
    if ClusterClear(s, c) {
      forall actions, t | Leads(s, actions, t) ensures ClusterCanGo(t, c) {
        ClusterGoingForever(s, actions, t, c);
        if c in t.clusters {
          var go, u := MarkedClusterCanGo(t, c);
        } else {
          assert Leads(t, [], t);
        }
      }
    } else if c !in s.roots {
      var free, t := ClusterFree(s, c);
      BlockedClusterIsStuck(t, c);
    } else {
      var m :| m in MachinesOf(s, c) && !Departing(s, m);
      StayingMachineSticks(s, c, m);
    }
  }
}
