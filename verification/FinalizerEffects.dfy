/** What each step does to resources and infrastructure, exactly: who makes a thing, who removes it, who marks a
    resource for deletion and who puts the finalizer on. */
module FinalizerEffects {
  import opened ResourceStore
  import opened FinalizerProtocol
  import opened FinalizerInvariants

  // ----- infrastructure -----

  /** In the set `xs` before and `ys` after a step, `n` appears exactly if `makes`, goes exactly if `removes`. */
  predicate Changes(xs: set<Name>, ys: set<Name>, n: Name, makes: bool, removes: bool) {
    && (n !in xs ==> (n in ys <==> makes))
    && (n in xs ==> (n !in ys <==> removes))
  }

  /** NIC, VM and OS disk of a VM resource are made and removed by the steps of its controller, each by its own. */
  lemma MachineryByVM(s: State, k: Name, x: VMStep, n: Name)
    requires VMEnabled(s, k, x)
    ensures var t := VMApply(s, k, x);
      && Changes(s.nics, t.nics, n, k == n && x.VMCreateNic?, k == n && x.VMDeleteNic? && x.effect)
      && Changes(s.servers, t.servers, n, k == n && x.VMCreateServer? && x.server,
           k == n && (x.VMDeleteFailedServer? || (x.VMDeleteServer? && x.effect)))
      && Changes(s.disks, t.disks, n, k == n && x.VMCreateServer? && x.disk, k == n && x.VMDeleteDisk? && x.effect)
  {
  }

  /** The service of a load balancer by those of its controller, the vault by the cluster's. */
  lemma ServiceByLB(s: State, k: Name, x: LBStep, c: Name)
    requires LBEnabled(s, k, x)
    ensures Changes(s.services, LBApply(s, k, x).services, c, k == c && x.LBCreateService?,
              k == c && x.LBDeleteService? && x.effect)
  {
  }

  lemma VaultByCluster(s: State, k: Name, x: ClusterStep, c: Name)
    requires ClusterEnabled(s, k, x)
    ensures Changes(s.vaults, ClusterApply(s, k, x).vaults, c, k == c && x.ClusterCreateVault?,
              k == c && x.ClusterDeleteVault? && x.effect)
  {
  }

  lemma UserFrame(s: State, k: Name, x: UserStep)
    ensures var t := UserApply(s, k, x);
      && t.nics == s.nics && t.servers == s.servers && t.disks == s.disks
      && t.services == s.services && t.vaults == s.vaults
      && t.groups == (if x.CreateGroup? then s.groups[k := false] else s.groups)
  {
  }

  /** And by nobody else: whoever's step changes infrastructure is the controller whose finalizer guards it. */
  lemma OnlyGuardiansChange(s: State, a: Action, n: Name)
    requires Enabled(s, a)
    ensures var t := Apply(s, a);
      && ((n in s.nics) != (n in t.nics) || (n in s.servers) != (n in t.servers) || (n in s.disks) != (n in t.disks) ==>
            a.key == n && a.step.OfVM?)
      && ((n in s.services) != (n in t.services) ==> a.key == n && a.step.OfLB?)
      && ((n in s.vaults) != (n in t.vaults) ==> a.key == n && a.step.OfCluster?)
  {
    match a.step
    case OfVM(x) =>
      VMFrame(s, a.key, x);
      MachineryByVM(s, a.key, x, n);
    case OfMachine(x) => MachineFrame(s, a.key, x);
    case OfLB(x) =>
      LBFrame(s, a.key, x);
      ServiceByLB(s, a.key, x, n);
    case OfCluster(x) =>
      ClusterFrame(s, a.key, x);
      VaultByCluster(s, a.key, x, n);
    case OfUser(x) => UserFrame(s, a.key, x);
  }

  /** A resource group gets the ownership tag, whether it was there or not, when its cluster's controller creates it
      after a Get that found none or failed; it goes when that controller deletes it with the tag on. */
  lemma GroupByCluster(s: State, k: Name, x: ClusterStep, g: Name)
    requires ClusterEnabled(s, k, x)
    ensures var t := ClusterApply(s, k, x);
      var own := k in s.clusters && s.clusters[k].data == g;
      var tags := own && x.ClusterCreateGroup? && (g !in s.groups || x.getErr);
      && (g !in s.groups ==> (g in t.groups <==> tags))
      && (g in s.groups ==> (g !in t.groups <==> own && x.ClusterDeleteGroup? && x.effect && s.groups[g]))
      && (g in t.groups ==> t.groups[g] == (tags || (g in s.groups && s.groups[g])))
  {
  }

  // ----- resources -----

  /** In the store `xs` before and `ys` after a step: a resource appears exactly if `made`, as a new one; it goes
      exactly if its deletion is asked for and nothing holds it, or its finalizer is removed; otherwise it is
      marked exactly if it was or that is asked for, and held exactly if it was or the finalizer is put on. */
  predicate Resource<D>(xs: Store<D>, ys: Store<D>, k: Name, made: bool, asked: bool, held: bool, released: bool) {
    && (k !in xs ==> (k in ys <==> made))
    && (k !in xs && k in ys ==> !ys[k].deleting && !ys[k].finalizer)
    && (k in xs ==> (k !in ys <==> (asked && !xs[k].finalizer) || released))
    && (k in xs && k in ys ==>
          && (ys[k].deleting <==> xs[k].deleting || asked)
          && (ys[k].finalizer <==> xs[k].finalizer || held))
  }

  lemma VMResourceByVM(s: State, k: Name, x: VMStep, n: Name)
    requires VMOk(s, k) && VMEnabled(s, k, x)
    ensures var t := VMApply(s, k, x);
      && Resource(s.vms, t.vms, n, false, false, k == n && x.VMPatch? && x.effect, k == n && x.VMRemoveFinalizer?)
      && (n in s.vms && n in t.vms ==> t.vms[n].data == s.vms[n].data)
  {
  }

  lemma VMResourceByMachine(s: State, k: Name, x: MachineStep, n: Name)
    requires MachineEnabled(s, k, x)
    ensures var t := MachineApply(s, k, x);
      && Resource(s.vms, t.vms, n, k == n && x.MachineCreateVM?, k == n && x.MachineDeleteVM?, false, false)
      && (n in t.vms ==> t.vms[n].data == if n in s.vms then s.vms[n].data else MachineOwner)
  {
  }

  lemma VMResourceByLB(s: State, k: Name, x: LBStep, n: Name)
    requires LBEnabled(s, k, x)
    ensures var t := LBApply(s, k, x);
      && Resource(s.vms, t.vms, n, x == LBCreateVM(n),
           (x.LBDeleteVM? && x.vm == n) || (x.LBDeleteListed? && x.vm == n && x.effect), false, false)
      && (n in t.vms ==> t.vms[n].data == if n in s.vms then s.vms[n].data else LoadBalancerOwner(k))
  {
  }

  lemma VMResourceByUser(s: State, k: Name, x: UserStep, n: Name)
    requires UserEnabled(s, k, x)
    ensures var t := UserApply(s, k, x);
      && Resource(s.vms, t.vms, n, false, k == n && x.DeleteVM?, false, false)
      && (n in s.vms && n in t.vms ==> t.vms[n].data == s.vms[n].data)
  {
  }

  lemma MachineByMachine(s: State, k: Name, x: MachineStep, m: Name)
    requires MachineOk(s, k) && MachineEnabled(s, k, x)
    ensures var t := MachineApply(s, k, x);
      && Resource(s.machines, t.machines, m, false, false, k == m && x.MachinePatch? && x.effect,
           k == m && x.MachineRemoveFinalizer?)
      && (m in s.machines && m in t.machines ==> t.machines[m].data == s.machines[m].data)
  {
  }

  lemma MachineByCluster(s: State, k: Name, x: ClusterStep, m: Name)
    requires ClusterEnabled(s, k, x)
    ensures var t := ClusterApply(s, k, x);
      && Resource(s.machines, t.machines, m, false, x == ClusterDeleteOrphan(m), false, false)
      && (m in s.machines && m in t.machines ==> t.machines[m].data == s.machines[m].data)
  {
  }

  lemma MachineByUser(s: State, k: Name, x: UserStep, m: Name)
    requires UserEnabled(s, k, x)
    ensures var t := UserApply(s, k, x);
      && Resource(s.machines, t.machines, m, k == m && x.CreateMachine?, k == m && x.DeleteMachine?, false, false)
      && (m !in s.machines && m in t.machines ==> t.machines[m].data == MachineData(x.cluster, NoOwnerRef))
      && (m in s.machines && m in t.machines ==>
            && t.machines[m].data.cluster == s.machines[m].data.cluster
            && t.machines[m].data.owner == if k == m && x.SetOwner? then x.owner else s.machines[m].data.owner)
  {
  }

  lemma LBByLB(s: State, k: Name, x: LBStep, c: Name)
    requires LBOk(s, k) && LBEnabled(s, k, x)
    ensures Resource(s.lbs, LBApply(s, k, x).lbs, c, false, false, k == c && x.LBPatch? && x.effect,
              k == c && x.LBRemoveFinalizer?)
  {
  }

  lemma LBByCluster(s: State, k: Name, x: ClusterStep, c: Name)
    requires ClusterEnabled(s, k, x)
    ensures Resource(s.lbs, ClusterApply(s, k, x).lbs, c, k == c && x.ClusterCreateLB?,
              k == c && x.ClusterDeleteLB? && x.effect, false, false)
  {
  }

  lemma LBByUser(s: State, k: Name, x: UserStep, c: Name)
    requires UserEnabled(s, k, x)
    ensures Resource(s.lbs, UserApply(s, k, x).lbs, c, false, k == c && x.DeleteLB?, false, false)
  {
  }

  lemma ClusterByCluster(s: State, k: Name, x: ClusterStep, c: Name)
    requires ClusterOk(s, k) && ClusterEnabled(s, k, x)
    ensures var t := ClusterApply(s, k, x);
      && Resource(s.clusters, t.clusters, c, false, false, k == c && x.ClusterPatch? && x.effect,
           k == c && x.ClusterRemoveFinalizer?)
      && (c in s.clusters && c in t.clusters ==> t.clusters[c].data == s.clusters[c].data)
  {
  }

  lemma ClusterByUser(s: State, k: Name, x: UserStep, c: Name)
    requires UserEnabled(s, k, x)
    ensures var t := UserApply(s, k, x);
      && Resource(s.clusters, t.clusters, c, k == c && x.CreateCluster?, k == c && x.DeleteCluster?, false, false)
      && (c in t.clusters ==> t.clusters[c].data == if c in s.clusters then s.clusters[c].data else x.group)
  {
  }
}
