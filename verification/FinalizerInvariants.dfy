/** What every interleaving of the controllers keeps: no infrastructure without the resource whose
    finalizer guards it, and a teardown order from the replicas and machines up to the cluster. */
module FinalizerInvariants {
  import opened ResourceStore
  import opened FinalizerProtocol

  // ----- the invariant, key by key -----

  /** NIC, VM and OS disk exist only under a held VM resource. */
  ghost predicate VMOk(s: State, n: Name) {
    && SettledAt(s.vms, n)
    && (n in s.nics || n in s.servers || n in s.disks ==> Held(s.vms, n))
    && (n in s.vmPc ==>
          match s.vmPc[n]
          case VMLoaded => true
          case VMCreating => Held(s.vms, n)
          case VMTeardown(done) =>
            && Marked(s.vms, n)
            && (done >= 1 ==> n !in s.servers) && (done >= 2 ==> n !in s.nics) && (done >= 3 ==> n !in s.disks))
  }

  /** The VM resource of a machine exists only under the held machine. */
  ghost predicate MachineOk(s: State, m: Name) {
    && SettledAt(s.machines, m)
    && (m in s.vms && s.vms[m].data.MachineOwner? ==> Held(s.machines, m))
    && (m in s.machinePc ==>
          match s.machinePc[m]
          case MachineRead(deleting, c, found) =>
            && found < MACHINE_GETS
            && (deleting ==> Marked(s.machines, m) && s.machines[m].data.cluster == c)
          case MachineLoaded => true
          case MachineCreating => Held(s.machines, m)
          case MachineDeleting => Marked(s.machines, m)
          case MachineDeletingVM => Marked(s.machines, m)
          case MachineVMGone => Marked(s.machines, m) && m !in s.vms)
  }

  /** A service exists only under the held load balancer. */
  ghost predicate LBOk(s: State, c: Name) {
    && SettledAt(s.lbs, c)
    && (c in s.services ==> Held(s.lbs, c))
    && (c in s.lbPc ==>
          match s.lbPc[c]
          case LBRead(deleting, _) => deleting ==> Marked(s.lbs, c)
          case LBLoaded => true
          case LBCreating => Held(s.lbs, c)
          case LBDeleting => Marked(s.lbs, c)
          case LBServiceGone => Marked(s.lbs, c) && c !in s.services
          case LBDeletingVMs(left) => Marked(s.lbs, c) && c !in s.services)
  }

  /** A replica not marked for deletion exists only under the held load balancer, and the controller
      that is deleting the replicas still has it on its list. */
  ghost predicate ReplicaOk(s: State, n: Name) {
    n in s.vms && s.vms[n].data.LoadBalancerOwner? && !s.vms[n].deleting ==>
      var c := s.vms[n].data.cluster;
      && Held(s.lbs, c)
      && (c in s.lbPc && s.lbPc[c].LBDeletingVMs? ==> n in s.lbPc[c].left)
  }

  /** A vault exists only under the held cluster, and is gone once the controller is past it. */
  ghost predicate ClusterOk(s: State, c: Name) {
    && SettledAt(s.clusters, c)
    && (c in s.vaults ==> Held(s.clusters, c))
    && (c in s.clusterPc ==>
          match s.clusterPc[c]
          case ClusterRead(deleting) => deleting ==> Marked(s.clusters, c)
          case ClusterLoaded => true
          case ClusterCreating => Held(s.clusters, c)
          case ClusterServices(done, lbGone) =>
            && Marked(s.clusters, c)
            && done <= 2
            && (lbGone ==> c !in s.lbs)
            && (done >= 1 ==> c !in s.vaults)
          case _ => Marked(s.clusters, c))
  }

  /** The cluster's controller is past the deletion of the group. */
  predicate PastGroup(s: State, c: Name) {
    c in s.clusterPc && s.clusterPc[c].ClusterServices? && s.clusterPc[c].done >= 2
  }

  /** A cluster that still answers for the group. */
  predicate Uses(s: State, c: Name, g: Name) {
    Held(s.clusters, c) && s.clusters[c].data == g && !PastGroup(s, c)
  }

  /** Past its deletion, a group with the ownership tag is there only if another cluster, which shares the
      group and created it again, answers for it. */
  ghost predicate GroupOk(s: State, c: Name) {
    PastGroup(s, c) && c in s.clusters ==>
      var g := s.clusters[c].data;
      g in s.groups && s.groups[g] ==> exists w :: Uses(s, w, g)
  }

  /** The controller has seen the machine list of the cluster empty. */
  predicate PastMachines(s: State, c: Name) {
    c in s.clusterPc &&
    (s.clusterPc[c].ClusterNoMachines? || s.clusterPc[c].ClusterLBRequested? || s.clusterPc[c].ClusterServices?)
  }

  /** No machine belongs to a cluster whose controller has seen the machine list empty. */
  ghost predicate MembershipOk(s: State, m: Name) {
    m in s.machines ==> !PastMachines(s, s.machines[m].data.cluster)
  }

  ghost predicate Ok(s: State, k: Name) {
    && VMOk(s, k) && MachineOk(s, k) && LBOk(s, k) && ReplicaOk(s, k)
    && ClusterOk(s, k) && GroupOk(s, k) && MembershipOk(s, k)
  }

  ghost predicate Inv(s: State) {
    forall k :: Ok(s, k)
  }

  lemma InitInv(s: State)
    requires Init(s)
    ensures Inv(s)
  {
  }

  // ----- what the controllers leave alone -----

  lemma VMFrame(s: State, n: Name, step: VMStep)
    requires VMEnabled(s, n, step)
    ensures var s' := VMApply(s, n, step);
      s' == s.(vms := s'.vms, nics := s'.nics, servers := s'.servers, disks := s'.disks, vmPc := s'.vmPc)
  {
  }

  lemma MachineFrame(s: State, m: Name, step: MachineStep)
    requires MachineEnabled(s, m, step)
    ensures var s' := MachineApply(s, m, step);
      s' == s.(machines := s'.machines, vms := s'.vms, machinePc := s'.machinePc)
  {
  }

  lemma LBFrame(s: State, c: Name, step: LBStep)
    requires LBEnabled(s, c, step)
    ensures var s' := LBApply(s, c, step);
      s' == s.(lbs := s'.lbs, vms := s'.vms, services := s'.services, lbPc := s'.lbPc)
  {
  }

  lemma ClusterFrame(s: State, c: Name, step: ClusterStep)
    requires ClusterEnabled(s, c, step)
    ensures var s' := ClusterApply(s, c, step);
      s' == s.(clusters := s'.clusters, machines := s'.machines, lbs := s'.lbs, vaults := s'.vaults,
               groups := s'.groups, clusterPc := s'.clusterPc)
  {
  }

  lemma GroupFrame(s: State, s': State, j: Name)
    requires GroupOk(s, j) && s'.clusters == s.clusters && s'.clusterPc == s.clusterPc && s'.groups == s.groups
    ensures GroupOk(s', j)
  {
    if PastGroup(s', j) && j in s'.clusters && s'.clusters[j].data in s'.groups && s'.groups[s'.clusters[j].data] {
      var w :| Uses(s, w, s'.clusters[j].data);
      assert Uses(s', w, s'.clusters[j].data);
    }
  }

  // ----- one step of a controller at its key, seen from any key `j` -----

  lemma VMCreateKeepsVM(s: State, n: Name, step: VMStep, j: Name)
    requires VMOk(s, j) && VMOk(s, n) && VMEnabled(s, n, step)
    requires step.VMLoad? || step.VMPatch? || step.VMCreateNic? || step.VMCreateServer? || step.VMDeleteFailedServer?
    ensures VMOk(VMApply(s, n, step), j)
  {
  }

  lemma VMDeleteKeepsVM(s: State, n: Name, step: VMStep, j: Name)
    requires VMOk(s, j) && VMOk(s, n) && VMEnabled(s, n, step)
    requires step.VMDeleteServer? || step.VMDeleteNic? || step.VMDeleteDisk? || step.VMRemoveFinalizer? || step.VMStop?
    ensures VMOk(VMApply(s, n, step), j)
  {
  }

  lemma VMStepKeepsVM(s: State, n: Name, step: VMStep, j: Name)
    requires VMOk(s, j) && VMOk(s, n) && VMEnabled(s, n, step)
    ensures VMOk(VMApply(s, n, step), j)
  {
    match step
    case VMDeleteServer(_, _) | VMDeleteNic(_, _) | VMDeleteDisk(_, _) | VMRemoveFinalizer | VMStop =>
      VMDeleteKeepsVM(s, n, step, j);
    case _ => VMCreateKeepsVM(s, n, step, j);
  }

  lemma VMStepKeepsOwners(s: State, n: Name, step: VMStep, j: Name)
    requires MachineOk(s, j) && ReplicaOk(s, j) && VMEnabled(s, n, step)
    ensures var s' := VMApply(s, n, step); MachineOk(s', j) && ReplicaOk(s', j)
  {
  }

  lemma VMStepKeepsOk(s: State, n: Name, step: VMStep, j: Name)
    requires Ok(s, j) && Ok(s, n) && VMEnabled(s, n, step)
    ensures Ok(VMApply(s, n, step), j)
  {
    VMStepKeepsVM(s, n, step, j);
    VMStepKeepsOwners(s, n, step, j);
    VMFrame(s, n, step);
    GroupFrame(s, VMApply(s, n, step), j);
  }

  lemma MachineReadKeepsMachine(s: State, m: Name, step: MachineStep, j: Name)
    requires MachineOk(s, j) && MachineOk(s, m) && MachineEnabled(s, m, step)
    requires step.MachineLoad? || step.MachineFind? || step.MachinePatch? || step.MachineStop?
    ensures MachineOk(MachineApply(s, m, step), j)
  {
  }

  lemma MachineVMKeepsMachine(s: State, m: Name, step: MachineStep, j: Name)
    requires MachineOk(s, j) && MachineOk(s, m) && MachineEnabled(s, m, step)
    requires step.MachineCreateVM? || step.MachineGetVM? || step.MachineDeleteVM? || step.MachineRemoveFinalizer?
    ensures MachineOk(MachineApply(s, m, step), j)
  {
  }

  lemma MachineStepKeepsMachine(s: State, m: Name, step: MachineStep, j: Name)
    requires MachineOk(s, j) && MachineOk(s, m) && MachineEnabled(s, m, step)
    ensures MachineOk(MachineApply(s, m, step), j)
  {
    match step
    case MachineLoad | MachineFind | MachinePatch(_, _) | MachineStop => MachineReadKeepsMachine(s, m, step, j);
    case _ => MachineVMKeepsMachine(s, m, step, j);
  }

  lemma MachineStepKeepsVM(s: State, m: Name, step: MachineStep, j: Name)
    requires VMOk(s, j) && ReplicaOk(s, j) && MachineEnabled(s, m, step)
    ensures var s' := MachineApply(s, m, step); VMOk(s', j) && ReplicaOk(s', j)
  {
  }

  lemma MachineStepKeepsMembership(s: State, m: Name, step: MachineStep, j: Name)
    requires MembershipOk(s, j) && MachineEnabled(s, m, step)
    ensures MembershipOk(MachineApply(s, m, step), j)
  {
  }

  lemma MachineStepKeepsOk(s: State, m: Name, step: MachineStep, j: Name)
    requires Ok(s, j) && Ok(s, m) && MachineEnabled(s, m, step)
    ensures Ok(MachineApply(s, m, step), j)
  {
    MachineStepKeepsMachine(s, m, step, j);
    MachineStepKeepsVM(s, m, step, j);
    MachineStepKeepsMembership(s, m, step, j);
    MachineFrame(s, m, step);
    GroupFrame(s, MachineApply(s, m, step), j);
  }

  lemma LBReadKeepsLB(s: State, c: Name, step: LBStep, j: Name)
    requires LBOk(s, j) && ReplicaOk(s, j) && LBOk(s, c) && LBEnabled(s, c, step)
    requires step.LBLoad? || step.LBFind? || step.LBPatch? || step.LBStop?
    ensures var s' := LBApply(s, c, step); LBOk(s', j) && ReplicaOk(s', j)
  {
  }

  lemma LBCreateKeepsLB(s: State, c: Name, step: LBStep, j: Name)
    requires LBOk(s, j) && ReplicaOk(s, j) && LBOk(s, c) && LBEnabled(s, c, step)
    requires step.LBCreateVM? || step.LBDeleteVM? || step.LBCreateService?
    ensures var s' := LBApply(s, c, step); LBOk(s', j) && ReplicaOk(s', j)
  {
  }

  lemma LBDeleteKeepsLB(s: State, c: Name, step: LBStep, j: Name)
    requires LBOk(s, j) && ReplicaOk(s, j) && LBOk(s, c) && LBEnabled(s, c, step)
    requires step.LBDeleteService? || step.LBListVMs? || step.LBDeleteListed? || step.LBRemoveFinalizer?
    ensures var s' := LBApply(s, c, step); LBOk(s', j) && ReplicaOk(s', j)
  {
  }

  lemma LBStepKeepsLB(s: State, c: Name, step: LBStep, j: Name)
    requires LBOk(s, j) && ReplicaOk(s, j) && LBOk(s, c) && LBEnabled(s, c, step)
    ensures var s' := LBApply(s, c, step); LBOk(s', j) && ReplicaOk(s', j)
  {
    match step
    case LBLoad | LBFind | LBPatch(_, _) | LBStop => LBReadKeepsLB(s, c, step, j);
    case LBCreateVM(_) | LBDeleteVM(_) | LBCreateService => LBCreateKeepsLB(s, c, step, j);
    case _ => LBDeleteKeepsLB(s, c, step, j);
  }

  lemma LBStepKeepsVM(s: State, c: Name, step: LBStep, j: Name)
    requires VMOk(s, j) && LBEnabled(s, c, step)
    ensures VMOk(LBApply(s, c, step), j)
  {
  }

  lemma LBStepKeepsMachine(s: State, c: Name, step: LBStep, j: Name)
    requires MachineOk(s, j) && LBEnabled(s, c, step)
    ensures MachineOk(LBApply(s, c, step), j)
  {
  }

  lemma LBStepKeepsCluster(s: State, c: Name, step: LBStep, j: Name)
    requires ClusterOk(s, j) && LBEnabled(s, c, step)
    ensures ClusterOk(LBApply(s, c, step), j)
  {
  }

  lemma LBStepKeepsOk(s: State, c: Name, step: LBStep, j: Name)
    requires Ok(s, j) && Ok(s, c) && LBEnabled(s, c, step)
    ensures Ok(LBApply(s, c, step), j)
  {
    LBStepKeepsLB(s, c, step, j);
    LBStepKeepsVM(s, c, step, j);
    LBStepKeepsMachine(s, c, step, j);
    LBStepKeepsCluster(s, c, step, j);
    LBFrame(s, c, step);
    GroupFrame(s, LBApply(s, c, step), j);
  }

  lemma ClusterReadKeepsCluster(s: State, c: Name, step: ClusterStep, j: Name)
    requires ClusterOk(s, j) && ClusterOk(s, c) && ClusterEnabled(s, c, step)
    requires step.ClusterLoad? || step.ClusterFind? || step.ClusterPatch? || step.ClusterStop?
    ensures ClusterOk(ClusterApply(s, c, step), j)
  {
  }

  lemma ClusterCreateKeepsCluster(s: State, c: Name, step: ClusterStep, j: Name)
    requires ClusterOk(s, j) && ClusterOk(s, c) && ClusterEnabled(s, c, step)
    requires step.ClusterCreateGroup? || step.ClusterCreateVault? || step.ClusterCreateLB?
    ensures ClusterOk(ClusterApply(s, c, step), j)
  {
  }

  lemma ClusterWaitKeepsCluster(s: State, c: Name, step: ClusterStep, j: Name)
    requires ClusterOk(s, j) && ClusterOk(s, c) && ClusterEnabled(s, c, step)
    requires step.ClusterListMachines? || step.ClusterDeleteOrphan? || step.ClusterDeleteLB? || step.ClusterGetLB?
    ensures ClusterOk(ClusterApply(s, c, step), j)
  {
  }

  lemma ClusterLeaveKeepsCluster(s: State, c: Name, step: ClusterStep, j: Name)
    requires ClusterOk(s, j) && ClusterOk(s, c) && ClusterEnabled(s, c, step)
    requires step.ClusterDeleteVault? || step.ClusterDeleteGroup? || step.ClusterRemoveFinalizer?
    ensures ClusterOk(ClusterApply(s, c, step), j)
  {
  }

  lemma ClusterStepKeepsCluster(s: State, c: Name, step: ClusterStep, j: Name)
    requires ClusterOk(s, j) && ClusterOk(s, c) && ClusterEnabled(s, c, step)
    ensures ClusterOk(ClusterApply(s, c, step), j)
  {
    match step
    case ClusterLoad | ClusterFind | ClusterPatch(_, _) | ClusterStop => ClusterReadKeepsCluster(s, c, step, j);
    case ClusterCreateGroup(_) | ClusterCreateVault | ClusterCreateLB => ClusterCreateKeepsCluster(s, c, step, j);
    case ClusterDeleteVault(_, _) | ClusterDeleteGroup(_, _) | ClusterRemoveFinalizer =>
      ClusterLeaveKeepsCluster(s, c, step, j);
    case _ => ClusterWaitKeepsCluster(s, c, step, j);
  }

  /** Whoever creates the group again is another cluster that answers for it, and it stays the witness until
      it has deleted the group itself. */
  lemma ClusterStepKeepsGroup(s: State, c: Name, step: ClusterStep, j: Name)
    requires GroupOk(s, j) && ClusterOk(s, c) && ClusterEnabled(s, c, step)
    ensures GroupOk(ClusterApply(s, c, step), j)
  {
    var s' := ClusterApply(s, c, step);
    if PastGroup(s', j) && j in s'.clusters && s'.clusters[j].data in s'.groups && s'.groups[s'.clusters[j].data] {
      var g := s'.clusters[j].data;
      if step.ClusterCreateGroup? && s.clusters[c].data == g {
        assert Uses(s', c, g);
      } else {
        var w :| Uses(s, w, g);
        assert Uses(s', w, g);
      }
    }
  }

  /** The controller gets past the machines of its cluster only if there are none. */
  lemma PastMachinesMeansNone(s: State, c: Name, step: ClusterStep, d: Name)
    requires ClusterEnabled(s, c, step) && PastMachines(ClusterApply(s, c, step), d) && !PastMachines(s, d)
    ensures d == c && MachinesOf(s, c) == {}
  {
  }

  lemma ClusterStepAddsNoMachine(s: State, c: Name, step: ClusterStep, j: Name)
    requires ClusterEnabled(s, c, step) && j in ClusterApply(s, c, step).machines
    ensures j in s.machines && ClusterApply(s, c, step).machines[j].data == s.machines[j].data
  {
  }

  lemma ClusterStepKeepsMembership(s: State, c: Name, step: ClusterStep, j: Name)
    requires MembershipOk(s, j) && ClusterEnabled(s, c, step)
    ensures MembershipOk(ClusterApply(s, c, step), j)
  {
    var s' := ClusterApply(s, c, step);
    if j in s'.machines {
      ClusterStepAddsNoMachine(s, c, step, j);
      var d := s.machines[j].data.cluster;
      assert d == c ==> j in MachinesOf(s, c);
      if PastMachines(s', d) { PastMachinesMeansNone(s, c, step, d); }
    }
  }

  lemma ClusterStepKeepsMachine(s: State, c: Name, step: ClusterStep, j: Name)
    requires MachineOk(s, j) && ClusterEnabled(s, c, step)
    ensures MachineOk(ClusterApply(s, c, step), j)
  {
  }

  lemma ClusterStepKeepsLB(s: State, c: Name, step: ClusterStep, j: Name)
    requires LBOk(s, j) && ReplicaOk(s, j) && ClusterEnabled(s, c, step)
    ensures var s' := ClusterApply(s, c, step); LBOk(s', j) && ReplicaOk(s', j)
  {
  }

  lemma ClusterStepKeepsOk(s: State, c: Name, step: ClusterStep, j: Name)
    requires Ok(s, j) && Ok(s, c) && ClusterEnabled(s, c, step)
    ensures Ok(ClusterApply(s, c, step), j)
  {
    ClusterStepKeepsCluster(s, c, step, j);
    ClusterStepKeepsGroup(s, c, step, j);
    ClusterStepKeepsMembership(s, c, step, j);
    ClusterStepKeepsMachine(s, c, step, j);
    ClusterStepKeepsLB(s, c, step, j);
    ClusterFrame(s, c, step);
  }

  lemma UserStepKeepsVM(s: State, k: Name, step: UserStep, j: Name)
    requires VMOk(s, j) && UserEnabled(s, k, step)
    ensures VMOk(UserApply(s, k, step), j)
  {
  }

  lemma UserStepKeepsMachine(s: State, k: Name, step: UserStep, j: Name)
    requires MachineOk(s, j) && UserEnabled(s, k, step)
    ensures MachineOk(UserApply(s, k, step), j)
  {
  }

  lemma UserStepKeepsLB(s: State, k: Name, step: UserStep, j: Name)
    requires LBOk(s, j) && ReplicaOk(s, j) && UserEnabled(s, k, step)
    ensures var s' := UserApply(s, k, step); LBOk(s', j) && ReplicaOk(s', j)
  {
  }

  lemma UserStepKeepsCluster(s: State, k: Name, step: UserStep, j: Name)
    requires ClusterOk(s, j) && MembershipOk(s, j) && UserEnabled(s, k, step)
    requires step.CreateMachine? ==> ClusterOk(s, step.cluster)
    ensures var s' := UserApply(s, k, step); ClusterOk(s', j) && MembershipOk(s', j)
  {
  }

  lemma UserStepKeepsGroup(s: State, k: Name, step: UserStep, j: Name)
    requires GroupOk(s, j) && ClusterOk(s, j) && UserEnabled(s, k, step)
    ensures GroupOk(UserApply(s, k, step), j)
  {
    var s' := UserApply(s, k, step);
    if PastGroup(s', j) && j in s'.clusters && s'.clusters[j].data in s'.groups && s'.groups[s'.clusters[j].data] {
      var w :| Uses(s, w, s'.clusters[j].data);
      assert Uses(s', w, s'.clusters[j].data);
    }
  }

  lemma UserStepKeepsOk(s: State, k: Name, step: UserStep, j: Name)
    requires Inv(s) && UserEnabled(s, k, step)
    ensures Ok(UserApply(s, k, step), j)
  {
    assert Ok(s, j) && Ok(s, k);
    if step.CreateMachine? { assert Ok(s, step.cluster); }
    UserStepKeepsVM(s, k, step, j);
    UserStepKeepsMachine(s, k, step, j);
    UserStepKeepsLB(s, k, step, j);
    UserStepKeepsCluster(s, k, step, j);
    UserStepKeepsGroup(s, k, step, j);
  }

  /** Every step of every controller and user keeps the invariant. */
  lemma StepKeepsInv(s: State, a: Action)
    requires Inv(s) && Enabled(s, a)
    ensures Inv(Apply(s, a))
  {
    forall j ensures Ok(Apply(s, a), j) {
      assert Ok(s, j) && Ok(s, a.key);
      match a.step
      case OfVM(x) => VMStepKeepsOk(s, a.key, x, j);
      case OfMachine(x) => MachineStepKeepsOk(s, a.key, x, j);
      case OfLB(x) => LBStepKeepsOk(s, a.key, x, j);
      case OfCluster(x) => ClusterStepKeepsOk(s, a.key, x, j);
      case OfUser(x) => UserStepKeepsOk(s, a.key, x, j);
    }
  }

  lemma {:induction false} ExecutionKeepsInv(states: seq<State>, actions: seq<Action>, i: nat)
    requires Execution(states, actions) && Init(states[0]) && i <= |actions|
    ensures Inv(states[i])
  {
    if i == 0 {
      InitInv(states[0]);
    } else {
      ExecutionKeepsInv(states, actions, i - 1);
      StepKeepsInv(states[i - 1], actions[i - 1]);
    }
  }

  lemma ReachableInv(s: State)
    requires Reachable(s)
    ensures Inv(s)
  {
    var states, actions :| Execution(states, actions) && Init(states[0]) && states[|actions|] == s;
    ExecutionKeepsInv(states, actions, |actions|);
  }
}
