/** The counterpart of the deletion: by the controllers alone, what is not being deleted can be brought up, with the
    infrastructure behind it, under the finalizer that guards it. */
module FinalizerBuildUp {
  import opened ResourceStore
  import opened FinalizerProtocol
  import opened FinalizerInvariants
  import opened FinalizerTheorems
  import opened FinalizerProgress

  /** The states the controllers lead to from a reachable one are reachable. */
  lemma ReachableByOne(s: State, a: Action)
    requires Reachable(s) && Enabled(s, a)
    ensures Reachable(Apply(s, a))
  {
    var states, actions :| Execution(states, actions) && Init(states[0]) && states[|actions|] == s;
    var states', actions' := states + [Apply(s, a)], actions + [a];
    forall i {:trigger actions'[i]} | 0 <= i < |actions'|
      ensures Enabled(states'[i], actions'[i]) && states'[i + 1] == Apply(states'[i], actions'[i])
    {
      if i < |actions| { assert actions'[i] == actions[i]; }
    }
    assert Execution(states', actions') && states'[0] == states[0] && states'[|actions'|] == Apply(s, a);
  }

  lemma {:induction false} LeadsReachable(s: State, xs: seq<Action>, t: State)
    requires Reachable(s) && Leads(s, xs, t)
    ensures Reachable(t)
    decreases |xs|
  {
    if xs != [] {
      var m :| ControllerStep(s, xs[0], m) && Path(ControllerStep, m, xs[1..], t);
      ReachableByOne(s, xs[0]);
      LeadsReachable(m, xs[1..], t);
    }
  }

  // ----- virtual machines -----

  /** The VM controller puts its finalizer on. */
  lemma VMIsHeld(s: State, n: Name) returns (actions: seq<Action>, t: State)
    requires n in s.vms && !s.vms[n].deleting && n !in s.vmPc
    ensures Leads(s, actions, t) && forall a :: a in actions ==> a.key == n && a.step.OfVM?
    ensures t == s.(vms := WithFinalizer(s.vms, n), vmPc := t.vmPc) && At(t.vmPc, n, VMCreating)
  {
    var load, patch := Action(n, OfVM(VMLoad)), Action(n, OfVM(VMPatch(true, true)));
    assert Leads(s, [], s);
    LeadsByOne(s, [], s, load);
    var s1 := Apply(s, load);
    LeadsByOne(s, [] + [load], s1, patch);
    actions, t := [] + [load] + [patch], Apply(s1, patch);
  }

  /** It then creates the NIC, and VM and OS disk. */
  lemma VMIsBuilt(s: State, n: Name) returns (actions: seq<Action>, t: State)
    requires At(s.vmPc, n, VMCreating)
    ensures Leads(s, actions, t) && forall a :: a in actions ==> a.key == n && a.step.OfVM?
    ensures n in t.nics && n in t.servers && n in t.disks
    ensures t == s.(nics := t.nics, servers := t.servers, disks := t.disks, vmPc := s.vmPc - {n})
  {
    var nic, server := Action(n, OfVM(VMCreateNic)), Action(n, OfVM(VMCreateServer(true, true)));
    var stop := Action(n, OfVM(VMStop));
    assert Leads(s, [], s);
    LeadsByOne(s, [], s, nic);
    var s1 := Apply(s, nic);
    LeadsByOne(s, [] + [nic], s1, server);
    var s2 := Apply(s1, server);
    LeadsByOne(s, [] + [nic] + [server], s2, stop);
    actions, t := [] + [nic] + [server] + [stop], Apply(s2, stop);
  }

  /** From every reachable state, a VM resource that is not being deleted, with its controller idle, can by that
      controller alone be brought to a reachable state with its NIC, VM and OS disk, and its finalizer on. */
  lemma VMCanComeUp(s: State, n: Name) returns (actions: seq<Action>, t: State)
    requires Reachable(s) && n in s.vms && !s.vms[n].deleting && n !in s.vmPc
    ensures Leads(s, actions, t) && Reachable(t) && forall a :: a in actions ==> a.key == n && a.step.OfVM?
    ensures Held(t.vms, n) && n in t.nics && n in t.servers && n in t.disks && n !in t.vmPc
    ensures t == s.(vms := WithFinalizer(s.vms, n), nics := t.nics, servers := t.servers, disks := t.disks,
                    vmPc := t.vmPc)
  {
    var hold, s1 := VMIsHeld(s, n);
    var build, s2 := VMIsBuilt(s1, n);
    LeadsOn(s, hold, s1, build, s2);
    actions, t := hold + build, s2;
    LeadsReachable(s, actions, t);
  }

  // ----- machines -----

  /** The reads of the machine controller, up to the normal branch. */
  lemma MachineLooks(s: State, m: Name) returns (actions: seq<Action>, t: State)
    requires m in s.machines && !s.machines[m].deleting && m !in s.machinePc && MachineServed(s, m)
    ensures Leads(s, actions, t) && t == s.(machinePc := s.machinePc[m := MachineLoaded])
  {
    var load, find := Action(m, OfMachine(MachineLoad)), Action(m, OfMachine(MachineFind));
    var c := s.machines[m].data.cluster;
    assert MachineFinds(s, m, c, 0) && MachineFinds(s, m, c, 1) && MachineFinds(s, m, c, 2);
    assert Leads(s, [], s);
    LeadsByOne(s, [], s, load);
    var s1 := Apply(s, load);
    LeadsByOne(s, [] + [load], s1, find);
    var s2 := Apply(s1, find);
    LeadsByOne(s, [] + [load] + [find], s2, find);
    var s3 := Apply(s2, find);
    LeadsByOne(s, [] + [load] + [find] + [find], s3, find);
    actions, t := [] + [load] + [find] + [find] + [find], Apply(s3, find);
    assert t.machinePc == s.machinePc[m := MachineLoaded];
  }

  /** The machine controller puts its finalizer on and creates the VM resource, unless there is one. */
  lemma MachineGetsVM(s: State, m: Name) returns (actions: seq<Action>, t: State)
    requires m in s.machines && !s.machines[m].deleting && m !in s.machinePc && MachineServed(s, m)
    ensures Leads(s, actions, t) && Held(t.machines, m) && m in t.vms
    ensures m !in s.vms ==> t.vms[m] == Res(false, false, MachineOwner)
    ensures m in s.vms ==> t.vms == s.vms
    ensures t == s.(machines := t.machines, vms := t.vms, machinePc := t.machinePc)
  {
    var look, s1 := MachineLooks(s, m);
    var patch, create := Action(m, OfMachine(MachinePatch(true, true))), Action(m, OfMachine(MachineCreateVM));
    LeadsByOne(s, look, s1, patch);
    var s2 := Apply(s1, patch);
    LeadsByOne(s, look + [patch], s2, create);
    actions, t := look + [patch] + [create], Apply(s2, create);
  }

  /** From every reachable state, a machine with owner and cluster, not being deleted and with no VM resource that is,
      can be brought to run: its VM resource, NIC, VM and OS disk exist, under both finalizers. */
  lemma MachineCanComeUp(s: State, m: Name) returns (actions: seq<Action>, t: State)
    requires Reachable(s) && m in s.machines && !s.machines[m].deleting && MachineServed(s, m)
    requires m !in s.machinePc && m !in s.vmPc && !Marked(s.vms, m)
    ensures Leads(s, actions, t) && Reachable(t)
    ensures Held(t.machines, m) && Held(t.vms, m) && m in t.nics && m in t.servers && m in t.disks
  {
    var get, s1 := MachineGetsVM(s, m);
    LeadsReachable(s, get, s1);
    var up, s2 := VMCanComeUp(s1, m);
    LeadsOn(s, get, s1, up, s2);
    actions, t := get + up, s2;
  }

  // ----- load balancers -----

  lemma LBIsHeld(s: State, c: Name) returns (actions: seq<Action>, t: State)
    requires c in s.lbs && !s.lbs[c].deleting && c !in s.lbPc && c in s.roots && c in s.clusters
    ensures Leads(s, actions, t)
    ensures t == s.(lbs := WithFinalizer(s.lbs, c), lbPc := t.lbPc) && At(t.lbPc, c, LBCreating)
  {
    var load, find := Action(c, OfLB(LBLoad)), Action(c, OfLB(LBFind));
    var patch := Action(c, OfLB(LBPatch(true, true)));
    assert Leads(s, [], s);
    LeadsByOne(s, [], s, load);
    var s1 := Apply(s, load);
    LeadsByOne(s, [] + [load], s1, find);
    var s2 := Apply(s1, find);
    LeadsByOne(s, [] + [load] + [find], s2, find);
    var s3 := Apply(s2, find);
    LeadsByOne(s, [] + [load] + [find] + [find], s3, patch);
    actions, t := [] + [load] + [find] + [find] + [patch], Apply(s3, patch);
  }

  lemma LBIsBuilt(s: State, c: Name, n: Name) returns (actions: seq<Action>, t: State)
    requires At(s.lbPc, c, LBCreating) && n !in s.vms && n !in s.machines
    ensures Leads(s, actions, t) && c in t.services && n in LiveReplicas(t, c) && t.vms[n].data == LoadBalancerOwner(c)
    ensures t == s.(vms := t.vms, services := t.services, lbPc := s.lbPc - {c})
  {
    var vm, service := Action(c, OfLB(LBCreateVM(n))), Action(c, OfLB(LBCreateService));
    var stop := Action(c, OfLB(LBStop));
    assert Leads(s, [], s);
    LeadsByOne(s, [], s, vm);
    var s1 := Apply(s, vm);
    LeadsByOne(s, [] + [vm], s1, service);
    var s2 := Apply(s1, service);
    LeadsByOne(s, [] + [vm] + [service], s2, stop);
    actions, t := [] + [vm] + [service] + [stop], Apply(s2, stop);
  }

  /** From every reachable state, a load balancer with its clusters, not being deleted, can be brought to serve: its
      service exists, and a replica of a new name with NIC, VM and OS disk, all under their finalizers. */
  lemma LBCanComeUp(s: State, c: Name, n: Name) returns (actions: seq<Action>, t: State)
    requires Reachable(s) && c in s.lbs && !s.lbs[c].deleting && c !in s.lbPc && c in s.roots && c in s.clusters
    requires n !in s.vms && n !in s.machines && n !in s.vmPc
    ensures Leads(s, actions, t) && Reachable(t) && Held(t.lbs, c) && c in t.services
    ensures n in LiveReplicas(t, c) && Held(t.vms, n) && n in t.nics && n in t.servers && n in t.disks
  {
    var hold, s1 := LBIsHeld(s, c);
    var build, s2 := LBIsBuilt(s1, c, n);
    LeadsOn(s, hold, s1, build, s2);
    LeadsReachable(s, hold + build, s2);
    var up, s3 := VMCanComeUp(s2, n);
    LeadsOn(s, hold + build, s2, up, s3);
    actions, t := hold + build + up, s3;
  }

  // ----- clusters -----

  lemma ClusterIsHeld(s: State, c: Name) returns (actions: seq<Action>, t: State)
    requires c in s.clusters && !s.clusters[c].deleting && c !in s.clusterPc && c in s.roots
    ensures Leads(s, actions, t)
    ensures t == s.(clusters := WithFinalizer(s.clusters, c), clusterPc := t.clusterPc)
    ensures At(t.clusterPc, c, ClusterCreating)
  {
    var load, find := Action(c, OfCluster(ClusterLoad)), Action(c, OfCluster(ClusterFind));
    var patch := Action(c, OfCluster(ClusterPatch(true, true)));
    assert Leads(s, [], s);
    LeadsByOne(s, [], s, load);
    var s1 := Apply(s, load);
    LeadsByOne(s, [] + [load], s1, find);
    var s2 := Apply(s1, find);
    LeadsByOne(s, [] + [load] + [find], s2, patch);
    actions, t := [] + [load] + [find] + [patch], Apply(s2, patch);
  }

  lemma ClusterIsBuilt(s: State, c: Name) returns (actions: seq<Action>, t: State)
    requires At(s.clusterPc, c, ClusterCreating) && c in s.clusters
    ensures Leads(s, actions, t) && c in t.vaults && s.clusters[c].data in t.groups && c in t.lbs
    ensures t == s.(groups := t.groups, vaults := t.vaults, lbs := t.lbs)
  {
    var group, vault := Action(c, OfCluster(ClusterCreateGroup(false))), Action(c, OfCluster(ClusterCreateVault));
    var lb := Action(c, OfCluster(ClusterCreateLB));
    assert Leads(s, [], s);
    LeadsByOne(s, [], s, group);
    var s1 := Apply(s, group);
    LeadsByOne(s, [] + [group], s1, vault);
    var s2 := Apply(s1, vault);
    LeadsByOne(s, [] + [group] + [vault], s2, lb);
    actions, t := [] + [group] + [vault] + [lb], Apply(s2, lb);
  }

  /** From every reachable state, a cluster with its Cluster, not being deleted, can be brought up: its group, vault and
      load balancer resource exist, under its finalizer. */
  lemma ClusterCanComeUp(s: State, c: Name) returns (actions: seq<Action>, t: State)
    requires Reachable(s) && c in s.clusters && !s.clusters[c].deleting && c !in s.clusterPc && c in s.roots
    ensures Leads(s, actions, t) && Reachable(t)
    ensures Held(t.clusters, c) && c in t.vaults && s.clusters[c].data in t.groups && c in t.lbs
  {
    var hold, s1 := ClusterIsHeld(s, c);
    var build, s2 := ClusterIsBuilt(s1, c);
    LeadsOn(s, hold, s1, build, s2);
    actions, t := hold + build, s2;
    LeadsReachable(s, actions, t);
  }
}
