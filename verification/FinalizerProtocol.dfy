/** The four controllers as they interleave over the API server and the infrastructure behind it.
    Every call is one step and may fail; controllers of different keys and kinds run in any order;
    one controller works on one key at a time. */
module FinalizerProtocol {
  import opened ResourceStore

  /** Who a VM resource belongs to: the machine of the same name, or a cluster's load balancer. */
  datatype Owner = MachineOwner | LoadBalancerOwner(cluster: Name)

  /** How far the VM controller is with one key. */
  datatype VMPc = VMLoaded | VMCreating | VMTeardown(done: nat)

  /** The first Get read the machine, being deleted or not, of some cluster; `found` counts the Gets after
      it that succeeded: the owner Machine, its Cluster, the AzureStackHCICluster. */
  datatype MachinePc =
    | MachineRead(deleting: bool, cluster: Name, found: nat)
    | MachineLoaded
    | MachineCreating
    | MachineDeleting
    | MachineDeletingVM
    | MachineVMGone

  /** After the load balancer itself, the Gets of its owner Cluster and of the AzureStackHCICluster. */
  datatype LBPc =
    | LBRead(deleting: bool, found: nat)
    | LBLoaded
    | LBCreating
    | LBDeleting
    | LBServiceGone
    | LBDeletingVMs(left: set<Name>)

  /** After the cluster itself, the Get of its owner Cluster. `lbGone` records whether the last Get of the
      load balancer really found none. */
  datatype ClusterPc =
    | ClusterRead(deleting: bool)
    | ClusterLoaded
    | ClusterCreating
    | ClusterDeleting
    | ClusterNoMachines
    | ClusterLBRequested
    | ClusterServices(done: nat, lbGone: bool)

  /** The owner reference of a machine: not set, to a Machine that cannot be found, or to one that can. */
  datatype OwnerRef = NoOwnerRef | OwnerMissing | OwnerFound

  datatype MachineData = MachineData(cluster: Name, owner: OwnerRef)

  /** `roots` are the Cluster resources of the Cluster API, each with the name of its AzureStackHCICluster.
      Then the resources by kind, a cluster with the name of its resource group, a machine with its cluster
      and owner; a load balancer is keyed by its cluster, from whose name its own is made. Then the
      infrastructure: NIC, VM and OS disk of each VM resource, the service of each load balancer, the vault
      of each cluster, and the resource groups, by name, with or without the ownership tag. */
  datatype State = State(
    roots: set<Name>,
    clusters: Store<Name>,
    machines: Store<MachineData>,
    vms: Store<Owner>,
    lbs: Store<()>,
    nics: set<Name>,
    servers: set<Name>,
    disks: set<Name>,
    services: set<Name>,
    vaults: set<Name>,
    groups: map<Name, bool>,
    vmPc: map<Name, VMPc>,
    machinePc: map<Name, MachinePc>,
    lbPc: map<Name, LBPc>,
    clusterPc: map<Name, ClusterPc>)

  // ----- the virtual machine controller -----

  /** Calls carry their outcome: `effect` if the call changed the state, `ok` if it returned no error.
      A failed call may have had its effect; a delete that returned no error has had it. */
  datatype VMStep =
    | VMLoad
    | VMPatch(effect: bool, ok: bool)
    | VMCreateNic
    | VMCreateServer(server: bool, disk: bool)
    | VMDeleteFailedServer
    | VMDeleteServer(effect: bool, ok: bool)
    | VMDeleteNic(effect: bool, ok: bool)
    | VMDeleteDisk(effect: bool, ok: bool)
    | VMRemoveFinalizer
    | VMStop

  predicate At<P(==)>(pc: map<Name, P>, k: Name, p: P) {
    k in pc && pc[k] == p
  }

  predicate VMEnabled(s: State, n: Name, step: VMStep) {
    match step
    case VMLoad => n in s.vms && n !in s.vmPc
    case VMPatch(effect, ok) => At(s.vmPc, n, VMLoaded) && (ok ==> effect && n in s.vms)
    case VMCreateNic => At(s.vmPc, n, VMCreating)
    case VMCreateServer(_, _) => At(s.vmPc, n, VMCreating)
    case VMDeleteFailedServer => At(s.vmPc, n, VMCreating)
    case VMDeleteServer(effect, ok) => At(s.vmPc, n, VMTeardown(0)) && (ok ==> effect)
    case VMDeleteNic(effect, ok) => At(s.vmPc, n, VMTeardown(1)) && (ok ==> effect)
    case VMDeleteDisk(effect, ok) => At(s.vmPc, n, VMTeardown(2)) && (ok ==> effect)
    case VMRemoveFinalizer => At(s.vmPc, n, VMTeardown(3))
    case VMStop => n in s.vmPc
  }

  function Advance<P>(pc: map<Name, P>, k: Name, ok: bool, next: P): map<Name, P> {
    if ok then pc[k := next] else pc - {k}
  }

  function Without(xs: set<Name>, n: Name, effect: bool): set<Name> {
    if effect then xs - {n} else xs
  }

  function VMApply(s: State, n: Name, step: VMStep): State
    requires VMEnabled(s, n, step)
  {
    match step
    case VMLoad => s.(vmPc := s.vmPc[n := if s.vms[n].deleting then VMTeardown(0) else VMLoaded])
    case VMPatch(effect, ok) =>
      s.(vms := if effect then WithFinalizer(s.vms, n) else s.vms, vmPc := Advance(s.vmPc, n, ok, VMCreating))
    case VMCreateNic => s.(nics := s.nics + {n})
    case VMCreateServer(server, disk) =>
      s.(servers := if server then s.servers + {n} else s.servers, disks := if disk then s.disks + {n} else s.disks)
    case VMDeleteFailedServer => s.(servers := s.servers - {n})
    case VMDeleteServer(effect, ok) =>
      s.(servers := Without(s.servers, n, effect), vmPc := Advance(s.vmPc, n, ok, VMTeardown(1)))
    case VMDeleteNic(effect, ok) =>
      s.(nics := Without(s.nics, n, effect), vmPc := Advance(s.vmPc, n, ok, VMTeardown(2)))
    case VMDeleteDisk(effect, ok) =>
      s.(disks := Without(s.disks, n, effect), vmPc := Advance(s.vmPc, n, ok, VMTeardown(3)))
    case VMRemoveFinalizer => s.(vms := WithoutFinalizer(s.vms, n), vmPc := s.vmPc - {n})
    case VMStop => s.(vmPc := s.vmPc - {n})
  }

  // ----- the machine controller -----

  datatype MachineStep =
    | MachineLoad
    | MachineFind
    | MachinePatch(effect: bool, ok: bool)
    | MachineCreateVM
    | MachineGetVM
    | MachineDeleteVM
    | MachineRemoveFinalizer
    | MachineStop

  const MACHINE_GETS := 3

  /** The Gets of a reconcile of machine `m` of cluster `c`, before any work: when does Get number `i` find
      what it looks for? The reconcile ends where one does not, even that of a machine being deleted. */
  predicate MachineFinds(s: State, m: Name, c: Name, i: nat) {
    if i == 0 then m in s.machines ==> s.machines[m].data.owner.OwnerFound?
    else if i == 1 then c in s.roots
    else c in s.clusters
  }

  predicate MachineEnabled(s: State, m: Name, step: MachineStep) {
    match step
    case MachineLoad => m in s.machines && m !in s.machinePc
    case MachineFind =>
      && m in s.machinePc && s.machinePc[m].MachineRead?
      && MachineFinds(s, m, s.machinePc[m].cluster, s.machinePc[m].found)
    case MachinePatch(effect, ok) => At(s.machinePc, m, MachineLoaded) && (ok ==> effect && m in s.machines)
    case MachineCreateVM => At(s.machinePc, m, MachineCreating)
    case MachineGetVM => At(s.machinePc, m, MachineDeleting)
    case MachineDeleteVM => At(s.machinePc, m, MachineDeletingVM)
    case MachineRemoveFinalizer => At(s.machinePc, m, MachineVMGone)
    case MachineStop => m in s.machinePc
  }

  function MachineApply(s: State, m: Name, step: MachineStep): State
    requires MachineEnabled(s, m, step)
  {
    match step
    case MachineLoad =>
      s.(machinePc := s.machinePc[m := MachineRead(s.machines[m].deleting, s.machines[m].data.cluster, 0)])
    case MachineFind =>
      var pc := s.machinePc[m];
      s.(machinePc := s.machinePc[m :=
        if pc.found + 1 < MACHINE_GETS then pc.(found := pc.found + 1)
        else if pc.deleting then MachineDeleting
        else MachineLoaded])
    case MachinePatch(effect, ok) =>
      s.(machines := if effect then WithFinalizer(s.machines, m) else s.machines,
         machinePc := Advance(s.machinePc, m, ok, MachineCreating))
    case MachineCreateVM => s.(vms := Created(s.vms, m, MachineOwner))
    case MachineGetVM =>
      var next := if m in s.vms then MachineDeletingVM else MachineVMGone;
      s.(machinePc := Advance(s.machinePc, m, !Marked(s.vms, m), next))
    case MachineDeleteVM => s.(vms := Deleted(s.vms, m), machinePc := s.machinePc - {m})
    case MachineRemoveFinalizer => s.(machines := WithoutFinalizer(s.machines, m), machinePc := s.machinePc - {m})
    case MachineStop => s.(machinePc := s.machinePc - {m})
  }

  // ----- the load balancer controller -----

  datatype LBStep =
    | LBLoad
    | LBFind
    | LBPatch(effect: bool, ok: bool)
    | LBCreateVM(vm: Name)
    | LBDeleteVM(vm: Name)
    | LBCreateService
    | LBDeleteService(effect: bool, ok: bool)
    | LBListVMs
    | LBDeleteListed(vm: Name, effect: bool, ok: bool)
    | LBRemoveFinalizer
    | LBStop

  /** VM resources of the load balancer that are not marked for deletion. */
  function LiveReplicas(s: State, c: Name): set<Name> {
    set n | n in s.vms && s.vms[n].data == LoadBalancerOwner(c) && !s.vms[n].deleting
  }

  const LB_GETS := 2

  /** The same for the load balancer controller. */
  predicate LBFinds(s: State, c: Name, i: nat) {
    if i == 0 then c in s.roots else c in s.clusters
  }

  predicate LBEnabled(s: State, c: Name, step: LBStep) {
    match step
    case LBLoad => c in s.lbs && c !in s.lbPc
    case LBFind => c in s.lbPc && s.lbPc[c].LBRead? && LBFinds(s, c, s.lbPc[c].found)
    case LBPatch(effect, ok) => At(s.lbPc, c, LBLoaded) && (ok ==> effect && c in s.lbs)
    case LBCreateVM(n) => At(s.lbPc, c, LBCreating) && n !in s.vms && n !in s.machines
    case LBDeleteVM(n) => At(s.lbPc, c, LBCreating) && n in LiveReplicas(s, c)
    case LBCreateService => At(s.lbPc, c, LBCreating)
    case LBDeleteService(effect, ok) => At(s.lbPc, c, LBDeleting) && (ok ==> effect)
    case LBListVMs => At(s.lbPc, c, LBServiceGone)
    case LBDeleteListed(n, effect, ok) =>
      c in s.lbPc && s.lbPc[c].LBDeletingVMs? && n in s.lbPc[c].left && (ok ==> effect)
    case LBRemoveFinalizer => At(s.lbPc, c, LBDeletingVMs({}))
    case LBStop => c in s.lbPc
  }

  function LBApply(s: State, c: Name, step: LBStep): State
    requires LBEnabled(s, c, step)
  {
    match step
    case LBLoad => s.(lbPc := s.lbPc[c := LBRead(s.lbs[c].deleting, 0)])
    case LBFind =>
      var pc := s.lbPc[c];
      s.(lbPc := s.lbPc[c :=
        if pc.found + 1 < LB_GETS then pc.(found := pc.found + 1) else if pc.deleting then LBDeleting else LBLoaded])
    case LBPatch(effect, ok) =>
      s.(lbs := if effect then WithFinalizer(s.lbs, c) else s.lbs, lbPc := Advance(s.lbPc, c, ok, LBCreating))
    case LBCreateVM(n) => s.(vms := Created(s.vms, n, LoadBalancerOwner(c)))
    case LBDeleteVM(n) => s.(vms := Deleted(s.vms, n))
    case LBCreateService => s.(services := s.services + {c})
    case LBDeleteService(effect, ok) =>
      s.(services := Without(s.services, c, effect), lbPc := Advance(s.lbPc, c, ok, LBServiceGone))
    case LBListVMs => s.(lbPc := s.lbPc[c := LBDeletingVMs(LiveReplicas(s, c))])
    case LBDeleteListed(n, effect, ok) =>
      s.(vms := if effect then Deleted(s.vms, n) else s.vms,
         lbPc := Advance(s.lbPc, c, ok, LBDeletingVMs(s.lbPc[c].left - {n})))
    case LBRemoveFinalizer => s.(lbs := WithoutFinalizer(s.lbs, c), lbPc := s.lbPc - {c})
    case LBStop => s.(lbPc := s.lbPc - {c})
  }

  // ----- the cluster controller -----

  datatype ClusterStep =
    | ClusterLoad
    | ClusterFind
    | ClusterPatch(effect: bool, ok: bool)
    | ClusterCreateGroup(getErr: bool)
    | ClusterCreateVault
    | ClusterCreateLB
    | ClusterListMachines
    | ClusterDeleteOrphan(machine: Name)
    | ClusterDeleteLB(effect: bool)
    | ClusterGetLB(err: bool)
    | ClusterDeleteVault(effect: bool, ok: bool)
    | ClusterDeleteGroup(effect: bool, ok: bool)
    | ClusterRemoveFinalizer
    | ClusterStop

  function MachinesOf(s: State, c: Name): set<Name> {
    set m | m in s.machines && s.machines[m].data.cluster == c
  }

  predicate InServices(s: State, c: Name, done: nat) {
    c in s.clusterPc && s.clusterPc[c].ClusterServices? && s.clusterPc[c].done == done
  }

  /** The calls on the group name it from the spec the controller holds: the finalizer is on, so the
      cluster is there, as the invariant of these states shows. */
  predicate ClusterEnabled(s: State, c: Name, step: ClusterStep) {
    match step
    case ClusterLoad => c in s.clusters && c !in s.clusterPc
    case ClusterFind => c in s.clusterPc && s.clusterPc[c].ClusterRead? && c in s.roots
    case ClusterPatch(effect, ok) => At(s.clusterPc, c, ClusterLoaded) && (ok ==> effect && c in s.clusters)
    case ClusterCreateGroup(_) => At(s.clusterPc, c, ClusterCreating) && c in s.clusters
    case ClusterCreateVault => At(s.clusterPc, c, ClusterCreating)
    case ClusterCreateLB => At(s.clusterPc, c, ClusterCreating)
    case ClusterListMachines => At(s.clusterPc, c, ClusterDeleting)
    case ClusterDeleteOrphan(m) =>
      At(s.clusterPc, c, ClusterDeleting) && m in MachinesOf(s, c) && s.machines[m].data.owner.NoOwnerRef?
    case ClusterDeleteLB(_) => At(s.clusterPc, c, ClusterNoMachines)
    case ClusterGetLB(err) => At(s.clusterPc, c, ClusterLBRequested)
    case ClusterDeleteVault(effect, ok) => InServices(s, c, 0) && (ok ==> effect)
    case ClusterDeleteGroup(effect, ok) => InServices(s, c, 1) && (ok ==> effect) && c in s.clusters
    case ClusterRemoveFinalizer => InServices(s, c, 2)
    case ClusterStop => c in s.clusterPc
  }

  /** A group is created with the ownership tag unless the Get found one. */
  function GroupCreated(groups: map<Name, bool>, g: Name, getErr: bool): map<Name, bool> {
    if g in groups && !getErr then groups else groups[g := true]
  }

  /** A group is deleted only with the ownership tag on it. */
  function GroupDeleted(groups: map<Name, bool>, g: Name): map<Name, bool> {
    if g in groups && groups[g] then groups - {g} else groups
  }

  function ClusterApply(s: State, c: Name, step: ClusterStep): State
    requires ClusterEnabled(s, c, step)
  {
    match step
    case ClusterLoad => s.(clusterPc := s.clusterPc[c := ClusterRead(s.clusters[c].deleting)])
    case ClusterFind =>
      s.(clusterPc := s.clusterPc[c := if s.clusterPc[c].deleting then ClusterDeleting else ClusterLoaded])
    case ClusterPatch(effect, ok) =>
      s.(clusters := if effect then WithFinalizer(s.clusters, c) else s.clusters,
         clusterPc := Advance(s.clusterPc, c, ok, ClusterCreating))
    case ClusterCreateGroup(getErr) => s.(groups := GroupCreated(s.groups, s.clusters[c].data, getErr))
    case ClusterCreateVault => s.(vaults := s.vaults + {c})
    case ClusterCreateLB => s.(lbs := Created(s.lbs, c, ()))
    case ClusterListMachines => s.(clusterPc := Advance(s.clusterPc, c, MachinesOf(s, c) == {}, ClusterNoMachines))
    case ClusterDeleteOrphan(m) => s.(machines := Deleted(s.machines, m))
    case ClusterDeleteLB(effect) =>
      s.(lbs := if effect then Deleted(s.lbs, c) else s.lbs, clusterPc := s.clusterPc[c := ClusterLBRequested])
    case ClusterGetLB(err) =>
      s.(clusterPc := Advance(s.clusterPc, c, err || c !in s.lbs, ClusterServices(0, !err && c !in s.lbs)))
    case ClusterDeleteVault(effect, ok) =>
      s.(vaults := Without(s.vaults, c, effect),
         clusterPc := Advance(s.clusterPc, c, ok, s.clusterPc[c].(done := 1)))
    case ClusterDeleteGroup(effect, ok) =>
      s.(groups := if effect then GroupDeleted(s.groups, s.clusters[c].data) else s.groups,
         clusterPc := Advance(s.clusterPc, c, ok, s.clusterPc[c].(done := 2)))
    case ClusterRemoveFinalizer => s.(clusters := WithoutFinalizer(s.clusters, c), clusterPc := s.clusterPc - {c})
    case ClusterStop => s.(clusterPc := s.clusterPc - {c})
  }

  // ----- users and other controllers -----

  /** Anybody may create clusters in any resource group, create machines for clusters that are not being
      deleted, delete any resource at any time, and create a group of their own. The controllers of the
      Cluster API create and delete Cluster resources and set the owner of a machine, which may go away. */
  datatype UserStep =
    | CreateRoot
    | DeleteRoot
    | CreateCluster(group: Name)
    | CreateMachine(cluster: Name)
    | SetOwner(owner: OwnerRef)
    | CreateGroup
    | DeleteCluster
    | DeleteMachine
    | DeleteVM
    | DeleteLB

  predicate UserEnabled(s: State, k: Name, step: UserStep) {
    match step
    case CreateMachine(c) => c in s.clusters ==> !s.clusters[c].deleting
    case CreateGroup => k !in s.groups
    case _ => true
  }

  function UserApply(s: State, k: Name, step: UserStep): State {
    match step
    case CreateRoot => s.(roots := s.roots + {k})
    case DeleteRoot => s.(roots := s.roots - {k})
    case CreateCluster(g) => s.(clusters := Created(s.clusters, k, g))
    case CreateMachine(c) => s.(machines := Created(s.machines, k, MachineData(c, NoOwnerRef)))
    case SetOwner(owner) =>
      s.(machines := if k in s.machines then WithData(s.machines, k, s.machines[k].data.(owner := owner))
                     else s.machines)
    case CreateGroup => s.(groups := s.groups[k := false])
    case DeleteCluster => s.(clusters := Deleted(s.clusters, k))
    case DeleteMachine => s.(machines := Deleted(s.machines, k))
    case DeleteVM => s.(vms := Deleted(s.vms, k))
    case DeleteLB => s.(lbs := Deleted(s.lbs, k))
  }

  // ----- the whole system -----

  datatype Step =
    | OfVM(vm: VMStep)
    | OfMachine(machine: MachineStep)
    | OfLB(lb: LBStep)
    | OfCluster(cluster: ClusterStep)
    | OfUser(user: UserStep)

  /** One step of some controller on its key, or of a user. */
  datatype Action = Action(key: Name, step: Step)

  predicate Enabled(s: State, a: Action) {
    match a.step
    case OfVM(x) => VMEnabled(s, a.key, x)
    case OfMachine(x) => MachineEnabled(s, a.key, x)
    case OfLB(x) => LBEnabled(s, a.key, x)
    case OfCluster(x) => ClusterEnabled(s, a.key, x)
    case OfUser(x) => UserEnabled(s, a.key, x)
  }

  function Apply(s: State, a: Action): State
    requires Enabled(s, a)
  {
    match a.step
    case OfVM(x) => VMApply(s, a.key, x)
    case OfMachine(x) => MachineApply(s, a.key, x)
    case OfLB(x) => LBApply(s, a.key, x)
    case OfCluster(x) => ClusterApply(s, a.key, x)
    case OfUser(x) => UserApply(s, a.key, x)
  }

  /** Nothing exists yet; groups may. */
  ghost predicate Init(s: State) {
    && s.roots == {} && s.clusters == map[] && s.machines == map[] && s.vms == map[] && s.lbs == map[]
    && s.nics == s.servers == s.disks == s.services == s.vaults == {}
    && s.vmPc == map[] && s.machinePc == map[] && s.lbPc == map[] && s.clusterPc == map[]
    && (forall c :: c in s.groups ==> !s.groups[c])
  }

  /** Every interleaving: the states along an execution. */
  ghost predicate Execution(states: seq<State>, actions: seq<Action>) {
    && |states| == |actions| + 1
    && forall i {:trigger actions[i]} :: 0 <= i < |actions| ==>
         Enabled(states[i], actions[i]) && states[i + 1] == Apply(states[i], actions[i])
  }

  ghost predicate Reachable(s: State) {
    exists states, actions :: Execution(states, actions) && Init(states[0]) && states[|actions|] == s
  }
}
