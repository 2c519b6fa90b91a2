/** The guarantees of the deletion protocol, in every reachable state of every interleaving. */
module FinalizerTheorems {
  import opened ResourceStore
  import opened FinalizerProtocol
  import opened FinalizerInvariants

  /** Infrastructure behind the VM resource `n`. */
  predicate HasInfrastructure(s: State, n: Name) {
    n in s.nics || n in s.servers || n in s.disks
  }

  /** No orphans: infrastructure exists only while the resource that can clean it up exists with its
      finalizer on it. */
  lemma NoOrphans(s: State)
    requires Reachable(s)
    ensures forall n :: HasInfrastructure(s, n) ==> Held(s.vms, n)
    ensures forall c :: c in s.services ==> Held(s.lbs, c)
    ensures forall c :: c in s.vaults ==> Held(s.clusters, c)
  {
    ReachableInv(s);
    forall k ensures
      && (HasInfrastructure(s, k) ==> Held(s.vms, k))
      && (k in s.services ==> Held(s.lbs, k))
      && (k in s.vaults ==> Held(s.clusters, k))
    { assert Ok(s, k); }
  }

  /** The chain behind the teardown order: infrastructure of a machine's VM implies the VM resource,
      which implies the machine, which implies that its cluster is still waiting for machines. */
  lemma MachineChain(s: State, n: Name)
    requires Reachable(s)
    requires n in s.vms && s.vms[n].data.MachineOwner?
    ensures Held(s.machines, n) && !PastMachines(s, s.machines[n].data.cluster)
  {
    ReachableInv(s);
    assert Ok(s, n);
  }

  /** Teardown order: while the cluster controller deletes the vault and the group of cluster c, no
      machine of c exists, no VM resource and no NIC, VM or disk of such a machine; and if the last
      Get of the load balancer failed only for want of one, no load balancer, service or live
      replica of c either. */
  lemma TeardownOrder(s: State, c: Name)
    requires Reachable(s) && c in s.clusterPc && s.clusterPc[c].ClusterServices?
    ensures MachinesOf(s, c) == {}
    ensures forall n :: n in s.vms && s.vms[n].data.MachineOwner? ==> n in s.machines && s.machines[n].data.cluster != c
    ensures forall n :: HasInfrastructure(s, n) ==>
              && n in s.vms
              && (s.vms[n].data.MachineOwner? ==> n in s.machines && s.machines[n].data.cluster != c)
    ensures s.clusterPc[c].lbGone ==> c !in s.lbs && c !in s.services && LiveReplicas(s, c) == {}
  {
    ReachableInv(s);
    NoOrphans(s);
    assert Ok(s, c);
    forall m | m in s.machines ensures s.machines[m].data.cluster != c { assert Ok(s, m); }
    forall n | n in s.vms && s.vms[n].data.MachineOwner? ensures n in s.machines && s.machines[n].data.cluster != c {
      MachineChain(s, n);
    }
    if s.clusterPc[c].lbGone { LoadBalancerGone(s, c); }
  }

  /** Where a load balancer resource is gone, so are its service and every replica not already
      marked for deletion: nothing can create another one. */
  lemma LoadBalancerGone(s: State, c: Name)
    requires Reachable(s) && !Held(s.lbs, c)
    ensures c !in s.services && LiveReplicas(s, c) == {}
  {
    ReachableInv(s);
    assert Ok(s, c);
    forall n ensures n !in LiveReplicas(s, c) { assert Ok(s, n); }
  }

  /** Load balancer deletion is complete: the step that removes the finalizer happens only with the
      service gone and every replica gone or marked, and it removes the resource. */
  lemma LoadBalancerDeletionComplete(s: State, c: Name)
    requires Reachable(s) && LBEnabled(s, c, LBRemoveFinalizer)
    ensures c !in s.services && LiveReplicas(s, c) == {} && c !in LBApply(s, c, LBRemoveFinalizer).lbs
  {
    ReachableInv(s);
    assert Ok(s, c);
    forall n ensures n !in LiveReplicas(s, c) { assert Ok(s, n); }
  }

  /** After that, as long as nobody creates the load balancer anew, no replica appears and no service. */
  lemma {:induction false} NoReplicaAfterDeletion(states: seq<State>, actions: seq<Action>, c: Name, i: nat, j: nat)
    requires Execution(states, actions) && Init(states[0]) && i <= j <= |actions|
    requires c !in states[i].lbs
    requires forall k :: i <= k < j ==> actions[k] != Action(c, OfCluster(ClusterCreateLB))
    ensures c !in states[j].lbs && c !in states[j].services && LiveReplicas(states[j], c) == {}
    decreases j
  {
    if i < j {
      NoReplicaAfterDeletion(states, actions, c, i, j - 1);
      NoLoadBalancerFromNothing(states[j - 1], actions[j - 1], c);
    }
    assert Execution(states[..j + 1], actions[..j]);
    assert states[..j + 1][0] == states[0] && states[..j + 1][|actions[..j]|] == states[j];
    LoadBalancerGone(states[j], c);
  }

  lemma LBKeepsAbsence(s: State, k: Name, step: LBStep, c: Name)
    requires LBEnabled(s, k, step) && c !in s.lbs
    ensures c !in LBApply(s, k, step).lbs
  {
  }

  lemma ClusterKeepsAbsence(s: State, k: Name, step: ClusterStep, c: Name)
    requires ClusterEnabled(s, k, step) && c !in s.lbs && !(k == c && step.ClusterCreateLB?)
    ensures c !in ClusterApply(s, k, step).lbs
  {
  }

  lemma UserKeeps(s: State, k: Name, step: UserStep, c: Name, g: Name)
    requires UserEnabled(s, k, step)
    ensures c !in s.lbs ==> c !in UserApply(s, k, step).lbs
    ensures g in s.groups ==> g in UserApply(s, k, step).groups && UserApply(s, k, step).groups[g] == s.groups[g]
  {
  }

  lemma NoLoadBalancerFromNothing(s: State, a: Action, c: Name)
    requires Enabled(s, a) && c !in s.lbs && a != Action(c, OfCluster(ClusterCreateLB))
    ensures c !in Apply(s, a).lbs
  {
    match a.step
    case OfVM(x) => VMFrame(s, a.key, x);
    case OfMachine(x) => MachineFrame(s, a.key, x);
    case OfLB(x) => LBKeepsAbsence(s, a.key, x, c);
    case OfCluster(x) => ClusterKeepsAbsence(s, a.key, x, c);
    case OfUser(x) => UserKeeps(s, a.key, x, c, c);
  }

  /** The cluster resource goes last: when its finalizer is removed, its vault is gone and no machine of it
      exists; and its group is gone or not tagged as owned, unless another cluster shares the group and
      answers for it. */
  lemma ClusterGoesLast(s: State, c: Name)
    requires Reachable(s) && ClusterEnabled(s, c, ClusterRemoveFinalizer)
    ensures c in s.clusters
    ensures var s', g := ClusterApply(s, c, ClusterRemoveFinalizer), s.clusters[c].data;
      && c !in s'.clusters && c !in s'.vaults && MachinesOf(s', c) == {}
      && (g in s'.groups && s'.groups[g] ==> exists w :: w != c && Uses(s', w, g))
  {
    ReachableInv(s);
    assert Ok(s, c);
    TeardownOrder(s, c);
    var s', g := ClusterApply(s, c, ClusterRemoveFinalizer), s.clusters[c].data;
    if g in s'.groups && s'.groups[g] {
      var w :| Uses(s, w, g);
      assert w != c && Uses(s', w, g);
    }
  }

  // ----- group ownership -----

  /** The step is the creation of the group `g`, by the controller of any cluster in it, after a Get of the
      group that failed for another cause than its absence. */
  predicate Misreads(s: State, a: Action, g: Name) {
    a.step == OfCluster(ClusterCreateGroup(true)) && a.key in s.clusters && s.clusters[a.key].data == g
  }

  lemma ClusterGroupStep(s: State, k: Name, step: ClusterStep, g: Name)
    requires ClusterEnabled(s, k, step) && g in s.groups && !s.groups[g]
    ensures var groups := ClusterApply(s, k, step).groups;
      (g in groups && !groups[g]) <==> !Misreads(s, Action(k, OfCluster(step)), g)
  {
  }

  /** A step keeps a group without the ownership tag, untagged, exactly when it is not such a creation. */
  lemma ForeignGroupStep(s: State, a: Action, g: Name)
    requires Enabled(s, a) && g in s.groups && !s.groups[g]
    ensures var groups := Apply(s, a).groups; (g in groups && !groups[g]) <==> !Misreads(s, a, g)
  {
    match a.step
    case OfVM(x) => VMFrame(s, a.key, x);
    case OfMachine(x) => MachineFrame(s, a.key, x);
    case OfLB(x) => LBFrame(s, a.key, x);
    case OfCluster(x) => ClusterGroupStep(s, a.key, x, g);
    case OfUser(x) => UserKeeps(s, a.key, x, g, g);
  }

  /** The step is the deletion of the group `g`, tagged as owned, by the controller of a cluster in it. */
  predicate DeletesGroup(s: State, a: Action, g: Name) {
    && a.step.OfCluster? && a.step.cluster.ClusterDeleteGroup? && a.step.cluster.effect
    && a.key in s.clusters && s.clusters[a.key].data == g && g in s.groups && s.groups[g]
  }

  lemma ClusterGroupGoes(s: State, k: Name, step: ClusterStep, g: Name)
    requires ClusterEnabled(s, k, step) && g in s.groups
    ensures g !in ClusterApply(s, k, step).groups <==> DeletesGroup(s, Action(k, OfCluster(step)), g)
  {
  }

  /** A group goes exactly by such a step, whether or not other clusters are in it. */
  lemma GroupGoes(s: State, a: Action, g: Name)
    requires Enabled(s, a) && g in s.groups
    ensures g !in Apply(s, a).groups <==> DeletesGroup(s, a, g)
  {
    match a.step
    case OfVM(x) => VMFrame(s, a.key, x);
    case OfMachine(x) => MachineFrame(s, a.key, x);
    case OfLB(x) => LBFrame(s, a.key, x);
    case OfCluster(x) => ClusterGroupGoes(s, a.key, x, g);
    case OfUser(x) => UserKeeps(s, a.key, x, g, g);
  }

  /** So over every execution without such a misread, whichever clusters share the group, a group no
      controller created is never deleted. */
  lemma {:induction false} ForeignGroupSurvives(states: seq<State>, actions: seq<Action>, g: Name, i: nat, j: nat)
    requires Execution(states, actions) && i <= j <= |actions|
    requires g in states[i].groups && !states[i].groups[g]
    requires forall k {:trigger actions[k]} :: i <= k < j ==> !Misreads(states[k], actions[k], g)
    ensures g in states[j].groups && !states[j].groups[g]
    decreases j
  {
    if i < j {
      ForeignGroupSurvives(states, actions, g, i, j - 1);
      ForeignGroupStep(states[j - 1], actions[j - 1], g);
    }
  }
}
