/** Ways for a deletion to finish, by the steps of the controllers alone: where the Gets at the start of
    their reconciles find what they look for, a marked VM resource, machine, load balancer or cluster can
    be brought to disappear together with all it guards, whatever the controllers were doing. */
module FinalizerProgress {
  import opened ResourceStore
  import opened FinalizerProtocol
  import opened FinalizerInvariants
  import opened FinalizerTheorems

  /** A path of steps of any transition relation. */
  ghost predicate Path<S(!new), A>(step: (S, A, S) -> bool, s: S, actions: seq<A>, t: S)
    decreases |actions|
  {
    if actions == [] then s == t else exists m :: step(s, actions[0], m) && Path(step, m, actions[1..], t)
  }

  lemma {:induction false} PathsJoin<S(!new), A>(
    step: (S, A, S) -> bool, s: S, xs: seq<A>, t: S, ys: seq<A>, u: S)
    requires Path(step, s, xs, t) && Path(step, t, ys, u)
    ensures Path(step, s, xs + ys, u)
    decreases |xs|
  {
    if xs == [] {
      assert xs + ys == ys;
    } else {
      var m :| step(s, xs[0], m) && Path(step, m, xs[1..], t);
      PathsJoin(step, m, xs[1..], t, ys, u);
      assert (xs + ys)[0] == xs[0] && (xs + ys)[1..] == xs[1..] + ys;
    }
  }

  /** A step of a controller, not of a user. */
  predicate ControllerStep(s: State, a: Action, t: State) {
    !a.step.OfUser? && Enabled(s, a) && Apply(s, a) == t
  }

  /** The actions, in order, are enabled and lead from `s` to `t`; all are the controllers' own. */
  ghost predicate Leads(s: State, actions: seq<Action>, t: State) {
    Path(ControllerStep, s, actions, t)
  }

  lemma LeadsOn(s: State, xs: seq<Action>, t: State, ys: seq<Action>, u: State)
    requires Leads(s, xs, t) && Leads(t, ys, u)
    ensures Leads(s, xs + ys, u)
  {
    PathsJoin(ControllerStep, s, xs, t, ys, u);
  }

  lemma LeadsByOne(s: State, xs: seq<Action>, t: State, a: Action)
    requires Leads(s, xs, t) && Enabled(t, a) && !a.step.OfUser?
    ensures Leads(s, xs + [a], Apply(t, a))
  {
    assert [a][1..] == [] && [a][0] == a;
    assert ControllerStep(t, a, Apply(t, a)) && Path(ControllerStep, Apply(t, a), [], Apply(t, a));
    LeadsOn(s, xs, t, [a], Apply(t, a));
  }

  lemma {:induction false} LeadsKeepsInv(s: State, xs: seq<Action>, t: State)
    requires Inv(s) && Leads(s, xs, t)
    ensures Inv(t)
    decreases |xs|
  {
    if xs != [] {
      var m :| ControllerStep(s, xs[0], m) && Path(ControllerStep, m, xs[1..], t);
      StepKeepsInv(s, xs[0]);
      LeadsKeepsInv(m, xs[1..], t);
    }
  }

  /** Only VM resources, their infrastructure, machines and their controllers may differ. */
  ghost predicate SameAbove(s: State, t: State) {
    t == s.(machines := t.machines, vms := t.vms, nics := t.nics, servers := t.servers, disks := t.disks,
            vmPc := t.vmPc, machinePc := t.machinePc)
  }

  /** The VM controller, once at a key, can always stop; then nobody is at the key. */
  lemma VMFree(s: State, n: Name) returns (actions: seq<Action>, t: State)
    ensures Leads(s, actions, t) && n !in t.vmPc && t == s.(vmPc := t.vmPc)
  {
    if n in s.vmPc {
      var a := Action(n, OfVM(VMStop));
      assert Leads(s, [], s);
      LeadsByOne(s, [], s, a);
      actions, t := [] + [a], Apply(s, a);
    } else {
      actions, t := [], s;
    }
  }

  /** Load, then delete VM, NIC and disk, then the finalizer. */
  lemma VMTeardownRun(s: State, n: Name) returns (actions: seq<Action>, t: State)
    requires Marked(s.vms, n) && n !in s.vmPc
    ensures Leads(s, actions, t)
    ensures t == s.(vms := s.vms - {n}, servers := s.servers - {n}, nics := s.nics - {n}, disks := s.disks - {n},
                    vmPc := t.vmPc)
  {
    var load := Action(n, OfVM(VMLoad));
    var server := Action(n, OfVM(VMDeleteServer(true, true)));
    var nic := Action(n, OfVM(VMDeleteNic(true, true)));
    var disk := Action(n, OfVM(VMDeleteDisk(true, true)));
    var last := Action(n, OfVM(VMRemoveFinalizer));
    assert Leads(s, [], s);
    LeadsByOne(s, [], s, load);
    var s1 := Apply(s, load);
    LeadsByOne(s, [] + [load], s1, server);
    var s2 := Apply(s1, server);
    LeadsByOne(s, [] + [load] + [server], s2, nic);
    var s3 := Apply(s2, nic);
    LeadsByOne(s, [] + [load] + [server] + [nic], s3, disk);
    var s4 := Apply(s3, disk);
    LeadsByOne(s, [] + [load] + [server] + [nic] + [disk], s4, last);
    actions, t := [] + [load] + [server] + [nic] + [disk] + [last], Apply(s4, last);
  }

  /** From any state, a VM resource marked for deletion can be brought to disappear, and its NIC, VM
      and disk with it, whatever its controller was doing. */
  lemma MarkedVMCanGo(s: State, n: Name) returns (actions: seq<Action>, t: State)
    requires Marked(s.vms, n)
    ensures Leads(s, actions, t) && n !in t.vms && !HasInfrastructure(t, n)
    ensures SameAbove(s, t) && t.machines == s.machines && t.machinePc == s.machinePc
  {
    var free, s1 := VMFree(s, n);
    var down, s2 := VMTeardownRun(s1, n);
    LeadsOn(s, free, s1, down, s2);
    actions, t := free + down, s2;
  }

  /** Every Get of a reconcile of the machine finds what it looks for: the owner Machine, its Cluster and the
      AzureStackHCICluster. */
  predicate MachineServed(s: State, m: Name) {
    m in s.machines && forall i :: 0 <= i < MACHINE_GETS ==> MachineFinds(s, m, s.machines[m].data.cluster, i)
  }

  /** The reads of the machine controller, up to the deletion. */
  lemma MachineReads(s: State, m: Name) returns (actions: seq<Action>, t: State)
    requires Marked(s.machines, m) && m !in s.machinePc && MachineServed(s, m)
    ensures Leads(s, actions, t) && t == s.(machinePc := s.machinePc[m := MachineDeleting])
  {
    var load, find := Action(m, OfMachine(MachineLoad)), Action(m, OfMachine(MachineFind));
    var c := s.machines[m].data.cluster;
    assert MachineFinds(s, m, c, 0) && MachineFinds(s, m, c, 1) && MachineFinds(s, m, c, 2);
    assert Leads(s, [], s);
    LeadsByOne(s, [], s, load);
    var s1 := Apply(s, load);
    LeadsByOne(s, [] + [load], s1, find);
    var s2 := Apply(s1, find);
    LeadsByOne(s, [] + [load] + [find], s2, find);
    var s3 := Apply(s2, find);
    LeadsByOne(s, [] + [load] + [find] + [find], s3, find);
    actions, t := [] + [load] + [find] + [find] + [find], Apply(s3, find);
    assert t.machinePc == s.machinePc[m := MachineDeleting];
  }

  /** The machine controller marks the VM resource, if there is one that is not marked yet. */
  lemma MachineMarksVM(s: State, m: Name) returns (actions: seq<Action>, t: State)
    requires Marked(s.machines, m) && m !in s.machinePc && MachineServed(s, m) && m in s.vms
    ensures Leads(s, actions, t) && SameAbove(s, t) && t.machines == s.machines
    ensures m !in t.machinePc && (m in t.vms ==> Marked(t.vms, m))
  {
    if s.vms[m].deleting {
      return [], s;
    }
    var get, delete := Action(m, OfMachine(MachineGetVM)), Action(m, OfMachine(MachineDeleteVM));
    var look, s1 := MachineReads(s, m);
    LeadsByOne(s, look, s1, get);
    var s2 := Apply(s1, get);
    LeadsByOne(s, look + [get], s2, delete);
    actions, t := look + [get] + [delete], Apply(s2, delete);
  }

  /** With the VM resource gone, the machine controller removes its finalizer. */
  lemma MachineLeaves(s: State, m: Name) returns (actions: seq<Action>, t: State)
    requires Marked(s.machines, m) && m !in s.machinePc && MachineServed(s, m) && m !in s.vms
    ensures Leads(s, actions, t) && t == s.(machines := s.machines - {m}, machinePc := t.machinePc)
  {
    var get, last := Action(m, OfMachine(MachineGetVM)), Action(m, OfMachine(MachineRemoveFinalizer));
    var look, s1 := MachineReads(s, m);
    LeadsByOne(s, look, s1, get);
    var s2 := Apply(s1, get);
    LeadsByOne(s, look + [get], s2, last);
    actions, t := look + [get] + [last], Apply(s2, last);
  }

  lemma MachineFree(s: State, m: Name) returns (actions: seq<Action>, t: State)
    ensures Leads(s, actions, t) && m !in t.machinePc && t == s.(machinePc := t.machinePc)
  {
    if m in s.machinePc {
      var a := Action(m, OfMachine(MachineStop));
      assert Leads(s, [], s);
      LeadsByOne(s, [], s, a);
      actions, t := [] + [a], Apply(s, a);
    } else {
      actions, t := [], s;
    }
  }

  /** The VM resource of a marked machine can be brought to disappear. */
  lemma MachineVMCanGo(s: State, m: Name) returns (actions: seq<Action>, t: State)
    requires Marked(s.machines, m) && m !in s.machinePc && MachineServed(s, m)
    ensures Leads(s, actions, t) && SameAbove(s, t) && t.machines == s.machines
    ensures m !in t.machinePc && m !in t.vms
  {
    if m !in s.vms {
      return [], s;
    }
    var mark, s1 := MachineMarksVM(s, m);
    if m !in s1.vms {
      return mark, s1;
    }
    var go, s2 := MarkedVMCanGo(s1, m);
    LeadsOn(s, mark, s1, go, s2);
    actions, t := mark + go, s2;
  }

  lemma ServedFrame(s: State, t: State, m: Name)
    requires MachineServed(s, m) && t.machines == s.machines && t.roots == s.roots && t.clusters == s.clusters
    ensures MachineServed(t, m)
  {
    var c := s.machines[m].data.cluster;
    forall i | 0 <= i < MACHINE_GETS ensures MachineFinds(t, m, c, i) { assert MachineFinds(s, m, c, i); }
  }

  /** A machine marked for deletion can be brought to disappear if it has its owner and cluster, and with it
      its VM resource and all infrastructure behind it. */
  lemma MarkedMachineCanGo(s: State, m: Name) returns (actions: seq<Action>, t: State)
    requires Inv(s) && Marked(s.machines, m) && MachineServed(s, m)
    ensures Leads(s, actions, t) && Inv(t) && SameAbove(s, t) && t.machines == s.machines - {m}
    ensures m !in t.vms && !HasInfrastructure(t, m)
  {
    var free, s1 := MachineFree(s, m);
    ServedFrame(s, s1, m);
    var vm, s2 := MachineVMCanGo(s1, m);
    ServedFrame(s, s2, m);
    var leave, s3 := MachineLeaves(s2, m);
    LeadsOn(s, free, s1, vm, s2);
    LeadsOn(s, free + vm, s2, leave, s3);
    actions, t := free + vm + leave, s3;
    LeadsKeepsInv(s, actions, t);
    assert Ok(t, m);
  }

  // ----- the load balancer -----

  /** Only the load balancer `c`, its service, VM resources and load balancer controllers may differ. */
  ghost predicate SameBeside(s: State, t: State) {
    t == s.(lbs := t.lbs, services := t.services, vms := t.vms, lbPc := t.lbPc)
  }

  lemma LBFree(s: State, c: Name) returns (actions: seq<Action>, t: State)
    ensures Leads(s, actions, t) && c !in t.lbPc && t == s.(lbPc := t.lbPc)
    ensures forall a :: a in actions ==> a.step.OfLB?
  {
    if c in s.lbPc {
      var a := Action(c, OfLB(LBStop));
      assert Leads(s, [], s);
      LeadsByOne(s, [], s, a);
      actions, t := [] + [a], Apply(s, a);
    } else {
      actions, t := [], s;
    }
  }

  lemma LBReads(s: State, c: Name) returns (actions: seq<Action>, t: State)
    requires Marked(s.lbs, c) && c !in s.lbPc && c in s.roots && c in s.clusters
    ensures Leads(s, actions, t) && t == s.(lbPc := s.lbPc[c := LBDeleting])
  {
    var load, find := Action(c, OfLB(LBLoad)), Action(c, OfLB(LBFind));
    assert Leads(s, [], s);
    LeadsByOne(s, [], s, load);
    var s1 := Apply(s, load);
    LeadsByOne(s, [] + [load], s1, find);
    var s2 := Apply(s1, find);
    LeadsByOne(s, [] + [load] + [find], s2, find);
    actions, t := [] + [load] + [find] + [find], Apply(s2, find);
    assert t.lbPc == s.lbPc[c := LBDeleting];
  }

  /** The loop over the listed replicas, each delete succeeding. */
  lemma {:induction false} LBDeletesListed(s: State, c: Name, left: set<Name>) returns (actions: seq<Action>, t: State)
    requires At(s.lbPc, c, LBDeletingVMs(left))
    ensures Leads(s, actions, t) && SameBeside(s, t) && t.lbs == s.lbs && t.services == s.services
    ensures At(t.lbPc, c, LBDeletingVMs({}))
    decreases |left|
  {
    if left == {} {
      return [], s;
    }
    var n :| n in left;
    var a := Action(c, OfLB(LBDeleteListed(n, true, true)));
    assert Leads(s, [], s);
    LeadsByOne(s, [], s, a);
    var s1 := Apply(s, a);
    var rest, s2 := LBDeletesListed(s1, c, left - {n});
    LeadsOn(s, [] + [a], s1, rest, s2);
    actions, t := [] + [a] + rest, s2;
  }

  /** A load balancer marked for deletion can be brought to disappear if its Cluster and its
      AzureStackHCICluster are there. */
  lemma MarkedLBCanGo(s: State, c: Name) returns (actions: seq<Action>, t: State)
    requires Marked(s.lbs, c) && c in s.roots && c in s.clusters
    ensures Leads(s, actions, t) && SameBeside(s, t) && c !in t.lbs && c !in t.services
  {
    var free, s1 := LBFree(s, c);
    var look, s2 := LBReads(s1, c);
    LeadsOn(s, free, s1, look, s2);
    var service := Action(c, OfLB(LBDeleteService(true, true)));
    var list, last := Action(c, OfLB(LBListVMs)), Action(c, OfLB(LBRemoveFinalizer));
    LeadsByOne(s, free + look, s2, service);
    var s3 := Apply(s2, service);
    LeadsByOne(s, free + look + [service], s3, list);
    var s4 := Apply(s3, list);
    var loop, s5 := LBDeletesListed(s4, c, LiveReplicas(s3, c));
    LeadsOn(s, free + look + [service] + [list], s4, loop, s5);
    LeadsByOne(s, free + look + [service] + [list] + loop, s5, last);
    actions, t := free + look + [service] + [list] + loop + [last], Apply(s5, last);
  }

  // ----- the cluster -----

  lemma ClusterFree(s: State, c: Name) returns (actions: seq<Action>, t: State)
    ensures Leads(s, actions, t) && c !in t.clusterPc && t == s.(clusterPc := t.clusterPc)
  {
    if c in s.clusterPc {
      var a := Action(c, OfCluster(ClusterStop));
      assert Leads(s, [], s);
      LeadsByOne(s, [], s, a);
      actions, t := [] + [a], Apply(s, a);
    } else {
      actions, t := [], s;
    }
  }

  lemma ClusterReads(s: State, c: Name) returns (actions: seq<Action>, t: State)
    requires Marked(s.clusters, c) && c in s.roots
    ensures Leads(s, actions, t) && t == s.(clusterPc := t.clusterPc) && At(t.clusterPc, c, ClusterDeleting)
  {
    var free, s1 := ClusterFree(s, c);
    var load, find := Action(c, OfCluster(ClusterLoad)), Action(c, OfCluster(ClusterFind));
    LeadsByOne(s, free, s1, load);
    var s2 := Apply(s1, load);
    LeadsByOne(s, free + [load], s2, find);
    actions, t := free + [load] + [find], Apply(s2, find);
  }

  /** The cluster controller deletes a machine without owner; with no finalizer on it, it is gone at once. */
  lemma OrphanGoes(s: State, c: Name, m: Name) returns (actions: seq<Action>, t: State)
    requires Marked(s.clusters, c) && c in s.roots && m in MachinesOf(s, c)
    requires s.machines[m].data.owner.NoOwnerRef? && !s.machines[m].finalizer
    ensures Leads(s, actions, t) && t == s.(machines := s.machines - {m}, clusterPc := t.clusterPc)
  {
    var look, s1 := ClusterReads(s, c);
    var delete := Action(c, OfCluster(ClusterDeleteOrphan(m)));
    assert m in MachinesOf(s1, c);
    LeadsByOne(s, look, s1, delete);
    actions, t := look + [delete], Apply(s1, delete);
  }

  /** With the machines gone, it asks for the deletion of the load balancer. */
  lemma ClusterAsksForLB(s: State, c: Name) returns (actions: seq<Action>, t: State)
    requires Marked(s.clusters, c) && c in s.roots && MachinesOf(s, c) == {}
    ensures Leads(s, actions, t) && t == s.(lbs := Deleted(s.lbs, c), clusterPc := t.clusterPc)
    ensures At(t.clusterPc, c, ClusterLBRequested)
  {
    var look, s1 := ClusterReads(s, c);
    var list, lb := Action(c, OfCluster(ClusterListMachines)), Action(c, OfCluster(ClusterDeleteLB(true)));
    assert MachinesOf(s1, c) == {};
    LeadsByOne(s, look, s1, list);
    var s2 := Apply(s1, list);
    LeadsByOne(s, look + [list], s2, lb);
    actions, t := look + [list] + [lb], Apply(s2, lb);
  }

  /** The controller's next step at its services succeeds: the vault, the group if it is tagged as owned, then
      the finalizer. */
  function ServiceStep(done: nat): ClusterStep {
    if done == 0 then ClusterDeleteVault(true, true)
    else if done == 1 then ClusterDeleteGroup(true, true)
    else ClusterRemoveFinalizer
  }

  lemma ServiceStepDone(s: State, c: Name, done: nat)
    requires Marked(s.clusters, c) && InServices(s, c, done) && done <= 2
    ensures ClusterEnabled(s, c, ServiceStep(done))
    ensures var t := ClusterApply(s, c, ServiceStep(done));
      && t == s.(clusters := t.clusters, vaults := t.vaults, groups := t.groups, clusterPc := t.clusterPc)
      && t.clusters == (if done == 2 then s.clusters - {c} else s.clusters)
      && t.vaults == (if done == 0 then s.vaults - {c} else s.vaults)
      && t.groups == (if done == 1 then GroupDeleted(s.groups, s.clusters[c].data) else s.groups)
      && (done < 2 ==> InServices(t, c, done + 1))
  {
  }

  lemma {:induction false} ClusterLeaves(s: State, c: Name, done: nat) returns (actions: seq<Action>, t: State)
    requires Marked(s.clusters, c) && InServices(s, c, done) && done <= 2
    ensures Leads(s, actions, t) && forall a :: a in actions ==> a.step != OfCluster(ClusterGetLB(true))
    ensures t == s.(clusters := s.clusters - {c}, vaults := t.vaults, groups := t.groups, clusterPc := t.clusterPc)
    ensures t.vaults == if done == 0 then s.vaults - {c} else s.vaults
    ensures t.groups == if done <= 1 then GroupDeleted(s.groups, s.clusters[c].data) else s.groups
    decreases 2 - done
  {
    var a := Action(c, OfCluster(ServiceStep(done)));
    ServiceStepDone(s, c, done);
    assert Leads(s, [], s);
    LeadsByOne(s, [], s, a);
    var s1 := ClusterApply(s, c, ServiceStep(done));
    assert Apply(s, a) == s1;
    if done == 2 {
      return [] + [a], s1;
    }
    var rest, s2 := ClusterLeaves(s1, c, done + 1);
    LeadsOn(s, [] + [a], s1, rest, s2);
    actions, t := [] + [a] + rest, s2;
  }

  /** With its machines gone, a marked cluster can be brought to disappear with its load balancer, its vault
      and the group it owns. */
  lemma EmptyClusterCanGo(s: State, c: Name) returns (actions: seq<Action>, t: State)
    requires Inv(s) && Marked(s.clusters, c) && c in s.roots && MachinesOf(s, c) == {}
    ensures Leads(s, actions, t) && t.machines == s.machines
    ensures c !in t.clusters && c !in t.lbs && c !in t.services && c !in t.vaults
    ensures t.groups == GroupDeleted(s.groups, s.clusters[c].data)
  {
    var ask, s1 := ClusterAsksForLB(s, c);
    LeadsKeepsInv(s, ask, s1);
    assert Ok(s1, c);
    var lb, s2 := LBGoes(s1, c);
    LeadsOn(s, ask, s1, lb, s2);
    var get := Action(c, OfCluster(ClusterGetLB(false)));
    LeadsByOne(s, ask + lb, s2, get);
    var s3 := Apply(s2, get);
    var leave, s4 := ClusterLeaves(s3, c, 0);
    LeadsOn(s, ask + lb + [get], s3, leave, s4);
    actions, t := ask + lb + [get] + leave, s4;
  }

  lemma LBGoes(s: State, c: Name) returns (actions: seq<Action>, t: State)
    requires LBOk(s, c) && (c in s.lbs ==> Marked(s.lbs, c)) && c in s.roots && c in s.clusters
    ensures Leads(s, actions, t) && SameBeside(s, t) && c !in t.lbs && c !in t.services
  {
    if c in s.lbs {
      actions, t := MarkedLBCanGo(s, c);
    } else {
      actions, t := [], s;
    }
  }
}
