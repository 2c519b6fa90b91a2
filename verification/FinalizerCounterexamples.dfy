/** Concrete executions, from an empty store, in which a deletion gets stuck or a group somebody else created
    is deleted. */
module FinalizerCounterexamples {
  import opened ResourceStore
  import opened FinalizerProtocol
  import opened FinalizerInvariants
  import opened FinalizerTheorems
  import opened FinalizerProgress
  import opened FinalizerLiveness

  /** A step of a controller or a user. */
  predicate AnyStep(s: State, a: Action, t: State) {
    Enabled(s, a) && Apply(s, a) == t
  }

  ghost predicate Goes(s: State, actions: seq<Action>, t: State) {
    Path(AnyStep, s, actions, t)
  }

  lemma GoesByOne(s: State, xs: seq<Action>, t: State, a: Action)
    requires Goes(s, xs, t) && Enabled(t, a)
    ensures Goes(s, xs + [a], Apply(t, a))
  {
    assert [a][1..] == [] && [a][0] == a;
    assert AnyStep(t, a, Apply(t, a)) && Path(AnyStep, Apply(t, a), [], Apply(t, a));
    PathsJoin(AnyStep, s, xs, t, [a], Apply(t, a));
  }

  /** A path of steps is an execution. */
  lemma {:induction false} PathIsExecution(s: State, xs: seq<Action>, t: State) returns (states: seq<State>)
    requires Goes(s, xs, t)
    ensures Execution(states, xs) && states[0] == s && states[|xs|] == t
    decreases |xs|
  {
    if xs == [] {
      return [s];
    }
    var m :| AnyStep(s, xs[0], m) && Path(AnyStep, m, xs[1..], t);
    var rest := PathIsExecution(m, xs[1..], t);
    states := [s] + rest;
    forall i {:trigger xs[i]} | 0 <= i < |xs|
      ensures Enabled(states[i], xs[i]) && states[i + 1] == Apply(states[i], xs[i])
    {
      if i > 0 { assert xs[1..][i - 1] == xs[i]; }
    }
  }

  lemma GoesToReachable(s: State, xs: seq<Action>, t: State)
    requires Init(s) && Goes(s, xs, t)
    ensures Reachable(t)
  {
    var states := PathIsExecution(s, xs, t);
  }

  /** Nothing but the given groups. */
  function Empty(groups: map<Name, bool>): State {
    State({}, map[], map[], map[], map[], {}, {}, {}, {}, {}, groups, map[], map[], map[], map[])
  }

  // ----- pieces of executions -----

  lemma TwiceUpdated<D>(store: Store<D>, k: Name, once: Res<D>, twice: Res<D>)
    ensures store[k := once][k := twice] == store[k := twice]
  {
  }

  /** A cluster is created in group `g`, with its Cluster. */
  lemma ClusterCreated(s: State, c: Name, g: Name) returns (xs: seq<Action>, t: State)
    requires c !in s.clusters
    ensures Goes(s, xs, t)
    ensures t == s.(roots := s.roots + {c}, clusters := s.clusters[c := Res(false, false, g)])
  {
    var root, create := Action(c, OfUser(CreateRoot)), Action(c, OfUser(CreateCluster(g)));
    assert Goes(s, [], s);
    GoesByOne(s, [], s, root);
    var s1 := Apply(s, root);
    GoesByOne(s, [] + [root], s1, create);
    xs, t := [] + [root] + [create], Apply(s1, create);
  }

  /** Its controller puts the finalizer on. */
  lemma ClusterHolds(s: State, c: Name) returns (xs: seq<Action>, t: State)
    requires c in s.clusters && !s.clusters[c].deleting && c in s.roots && c !in s.clusterPc
    ensures Goes(s, xs, t)
    ensures t == s.(clusters := WithFinalizer(s.clusters, c), clusterPc := s.clusterPc[c := ClusterCreating])
  {
    var load, find := Action(c, OfCluster(ClusterLoad)), Action(c, OfCluster(ClusterFind));
    var patch := Action(c, OfCluster(ClusterPatch(true, true)));
    assert Goes(s, [], s);
    GoesByOne(s, [], s, load);
    var s1 := Apply(s, load);
    GoesByOne(s, [] + [load], s1, find);
    var s2 := Apply(s1, find);
    GoesByOne(s, [] + [load] + [find], s2, patch);
    xs, t := [] + [load] + [find] + [patch], Apply(s2, patch);
    assert t.clusterPc == s.clusterPc[c := ClusterCreating];
  }

  lemma ClusterStarts(s: State, c: Name, g: Name) returns (xs: seq<Action>, t: State)
    requires c !in s.clusters && c !in s.clusterPc
    ensures Goes(s, xs, t)
    ensures t == s.(roots := s.roots + {c}, clusters := s.clusters[c := Res(false, true, g)],
                    clusterPc := s.clusterPc[c := ClusterCreating])
  {
    var x1, s1 := ClusterCreated(s, c, g);
    var x2, s2 := ClusterHolds(s1, c);
    PathsJoin(AnyStep, s, x1, s1, x2, s2);
    xs, t := x1 + x2, s2;
    TwiceUpdated(s.clusters, c, Res(false, false, g), Res(false, true, g));
  }

  /** Its deletion is asked for. */
  lemma ClusterIsMarked(s: State, c: Name) returns (xs: seq<Action>, t: State)
    requires Held(s.clusters, c) && !s.clusters[c].deleting && c in s.clusterPc
    ensures Goes(s, xs, t)
    ensures t == s.(clusters := s.clusters[c := s.clusters[c].(deleting := true)], clusterPc := s.clusterPc - {c})
  {
    var stop, delete := Action(c, OfCluster(ClusterStop)), Action(c, OfUser(DeleteCluster));
    assert Goes(s, [], s);
    GoesByOne(s, [], s, stop);
    var s1 := Apply(s, stop);
    GoesByOne(s, [] + [stop], s1, delete);
    xs, t := [] + [stop] + [delete], Apply(s1, delete);
  }

  /** And the controller starts on it. */
  lemma ClusterIsDeleted(s: State, c: Name) returns (xs: seq<Action>, t: State)
    requires Held(s.clusters, c) && !s.clusters[c].deleting && c in s.clusterPc && c in s.roots
    ensures Goes(s, xs, t)
    ensures t == s.(clusters := s.clusters[c := s.clusters[c].(deleting := true)],
                    clusterPc := s.clusterPc[c := ClusterDeleting])
  {
    var x1, s1 := ClusterIsMarked(s, c);
    var load, find := Action(c, OfCluster(ClusterLoad)), Action(c, OfCluster(ClusterFind));
    GoesByOne(s, x1, s1, load);
    var s2 := Apply(s1, load);
    GoesByOne(s, x1 + [load], s2, find);
    xs, t := x1 + [load] + [find], Apply(s2, find);
    assert t.clusterPc == s.clusterPc[c := ClusterDeleting];
  }

  /** Without machines the controller gets past the load balancer, whether it is gone or the Get errs. */
  lemma ClusterPassesLB(s: State, c: Name, err: bool) returns (xs: seq<Action>, t: State)
    requires At(s.clusterPc, c, ClusterDeleting) && MachinesOf(s, c) == {} && (err || c !in s.lbs)
    ensures Goes(s, xs, t)
    ensures t == s.(lbs := Deleted(s.lbs, c), clusterPc := s.clusterPc[c := ClusterServices(0, !err)])
  {
    var list := Action(c, OfCluster(ClusterListMachines));
    var delete, get := Action(c, OfCluster(ClusterDeleteLB(true))), Action(c, OfCluster(ClusterGetLB(err)));
    assert Goes(s, [], s);
    GoesByOne(s, [], s, list);
    var s1 := Apply(s, list);
    GoesByOne(s, [] + [list], s1, delete);
    var s2 := Apply(s1, delete);
    GoesByOne(s, [] + [list] + [delete], s2, get);
    xs, t := [] + [list] + [delete] + [get], Apply(s2, get);
    assert t.clusterPc == s.clusterPc[c := ClusterServices(0, !err)];
  }

  lemma {:induction false} LeadsGoes(s: State, xs: seq<Action>, t: State)
    requires Leads(s, xs, t)
    ensures Goes(s, xs, t)
    decreases |xs|
  {
    if xs != [] {
      var m :| ControllerStep(s, xs[0], m) && Path(ControllerStep, m, xs[1..], t);
      assert AnyStep(s, xs[0], m);
      LeadsGoes(m, xs[1..], t);
    }
  }

  // ----- a machine without owner -----

  /** A machine with an owner is created. */
  lemma MachineCreated(s: State, c: Name, m: Name) returns (xs: seq<Action>, t: State)
    requires m !in s.machines && c in s.clusters && !s.clusters[c].deleting
    ensures Goes(s, xs, t)
    ensures t == s.(machines := s.machines[m := Res(false, false, MachineData(c, OwnerFound))])
  {
    var create, own := Action(m, OfUser(CreateMachine(c))), Action(m, OfUser(SetOwner(OwnerFound)));
    assert Goes(s, [], s);
    GoesByOne(s, [], s, create);
    var s1 := Apply(s, create);
    GoesByOne(s, [] + [create], s1, own);
    xs, t := [] + [create] + [own], Apply(s1, own);
    assert t.machines == s.machines[m := Res(false, false, MachineData(c, OwnerFound))];
  }

  /** Its controller finds all it looks for. */
  lemma MachineStarts(s: State, c: Name, m: Name) returns (xs: seq<Action>, t: State)
    requires m in s.machines && s.machines[m] == Res(false, false, MachineData(c, OwnerFound)) && m !in s.machinePc
    requires c in s.roots && c in s.clusters
    ensures Goes(s, xs, t) && t == s.(machinePc := s.machinePc[m := MachineLoaded])
  {
    var load, find := Action(m, OfMachine(MachineLoad)), Action(m, OfMachine(MachineFind));
    assert Goes(s, [], s);
    GoesByOne(s, [], s, load);
    var s1 := Apply(s, load);
    GoesByOne(s, [] + [load], s1, find);
    var s2 := Apply(s1, find);
    GoesByOne(s, [] + [load] + [find], s2, find);
    var s3 := Apply(s2, find);
    GoesByOne(s, [] + [load] + [find] + [find], s3, find);
    xs, t := [] + [load] + [find] + [find] + [find], Apply(s3, find);
    assert t.machinePc == s.machinePc[m := MachineLoaded];
  }

  /** The finalizer is on, the controller stops, and the owner goes away. */
  lemma MachineLosesOwner(s: State, c: Name, m: Name) returns (xs: seq<Action>, t: State)
    requires m in s.machines && s.machines[m] == Res(false, false, MachineData(c, OwnerFound))
    requires At(s.machinePc, m, MachineLoaded)
    ensures Goes(s, xs, t)
    ensures t == s.(machines := s.machines[m := Res(false, true, MachineData(c, NoOwnerRef))],
                    machinePc := s.machinePc - {m})
  {
    var patch, stop := Action(m, OfMachine(MachinePatch(true, true))), Action(m, OfMachine(MachineStop));
    var disown := Action(m, OfUser(SetOwner(NoOwnerRef)));
    assert Goes(s, [], s);
    GoesByOne(s, [], s, patch);
    var s1 := Apply(s, patch);
    GoesByOne(s, [] + [patch], s1, stop);
    var s2 := Apply(s1, stop);
    GoesByOne(s, [] + [patch] + [stop], s2, disown);
    xs, t := [] + [patch] + [stop] + [disown], Apply(s2, disown);
    assert t.machines == s.machines[m := Res(false, true, MachineData(c, NoOwnerRef))];
    assert t.machinePc == s.machinePc - {m};
  }

  lemma OrphanIsMarked(s: State, c: Name, m: Name) returns (xs: seq<Action>, t: State)
    requires m in s.machines && s.machines[m] == Res(false, true, MachineData(c, NoOwnerRef)) && m !in s.machinePc
    requires Held(s.clusters, c) && !s.clusters[c].deleting && c in s.clusterPc && c in s.roots
    ensures Goes(s, xs, t) && Marked(t.machines, m) && Marked(t.clusters, c)
    ensures m in MachinesOf(t, c) && MachineBlocked(t, m, 0)
  {
    var x1, s1 := ClusterIsDeleted(s, c);
    var orphan := Action(c, OfCluster(ClusterDeleteOrphan(m)));
    assert m in MachinesOf(s1, c);
    GoesByOne(s, x1, s1, orphan);
    xs, t := x1 + [orphan], Apply(s1, orphan);
  }

  /** An execution that ends with a machine the cluster controller has marked as orphaned, because it has no
      owner, and that neither machine nor cluster controller will ever remove: nor then the cluster. */
  lemma OrphanedMachineSticks(c: Name, m: Name) returns (xs: seq<Action>, s: State)
    ensures Goes(Empty(map[]), xs, s) && Reachable(s) && Marked(s.machines, m) && Marked(s.clusters, c)
    ensures forall actions, t :: Leads(s, actions, t) ==> m in t.machines && c in t.clusters
  {
    var s0 := Empty(map[]);
    var x1, s1 := ClusterStarts(s0, c, "group");
    var x2, s2 := MachineCreated(s1, c, m);
    PathsJoin(AnyStep, s0, x1, s1, x2, s2);
    var x3, s3 := MachineStarts(s2, c, m);
    PathsJoin(AnyStep, s0, x1 + x2, s2, x3, s3);
    var x4, s4 := MachineLosesOwner(s3, c, m);
    PathsJoin(AnyStep, s0, x1 + x2 + x3, s3, x4, s4);
    var x5, s5 := OrphanIsMarked(s4, c, m);
    PathsJoin(AnyStep, s0, x1 + x2 + x3 + x4, s4, x5, s5);
    xs, s := x1 + x2 + x3 + x4 + x5, s5;
    GoesToReachable(s0, xs, s);
    OrphanStays(s, c, m);
  }

  lemma OrphanStays(s: State, c: Name, m: Name)
    requires Reachable(s) && c in s.clusters && m in MachinesOf(s, c) && MachineBlocked(s, m, 0)
    ensures forall actions, t :: Leads(s, actions, t) ==> m in t.machines && c in t.clusters
  {
    ReachableInv(s);
    forall actions, t | Leads(s, actions, t) ensures m in t.machines && c in t.clusters {
      KeptForever(s, actions, t, c, m);
    }
  }

  // ----- a load balancer without cluster -----

  /** The load balancer is created, and its controller starts on it. */
  lemma LBStarts(s: State, c: Name) returns (xs: seq<Action>, t: State)
    requires c !in s.lbs && c !in s.lbPc && At(s.clusterPc, c, ClusterCreating)
    ensures Goes(s, xs, t)
    ensures t == s.(lbs := s.lbs[c := Res(false, false, ())], lbPc := s.lbPc[c := LBRead(false, 0)])
  {
    var create, load := Action(c, OfCluster(ClusterCreateLB)), Action(c, OfLB(LBLoad));
    assert Goes(s, [], s);
    GoesByOne(s, [], s, create);
    var s1 := Apply(s, create);
    GoesByOne(s, [] + [create], s1, load);
    xs, t := [] + [create] + [load], Apply(s1, load);
  }

  /** It finds what it looks for. */
  lemma LBFound(s: State, c: Name) returns (xs: seq<Action>, t: State)
    requires At(s.lbPc, c, LBRead(false, 0)) && c in s.roots && c in s.clusters
    ensures Goes(s, xs, t) && t == s.(lbPc := s.lbPc[c := LBLoaded])
  {
    var find := Action(c, OfLB(LBFind));
    assert Goes(s, [], s);
    GoesByOne(s, [], s, find);
    var s1 := Apply(s, find);
    GoesByOne(s, [] + [find], s1, find);
    xs, t := [] + [find] + [find], Apply(s1, find);
    assert t.lbPc == s.lbPc[c := LBLoaded];
  }

  /** It puts the finalizer on and creates the service. */
  lemma LBServes(s: State, c: Name) returns (xs: seq<Action>, t: State)
    requires c in s.lbs && s.lbs[c] == Res(false, false, ()) && At(s.lbPc, c, LBLoaded)
    ensures Goes(s, xs, t)
    ensures t == s.(lbs := s.lbs[c := Res(false, true, ())], services := s.services + {c}, lbPc := s.lbPc - {c})
  {
    var patch, service := Action(c, OfLB(LBPatch(true, true))), Action(c, OfLB(LBCreateService));
    var stop := Action(c, OfLB(LBStop));
    assert Goes(s, [], s);
    GoesByOne(s, [], s, patch);
    var s1 := Apply(s, patch);
    GoesByOne(s, [] + [patch], s1, service);
    var s2 := Apply(s1, service);
    GoesByOne(s, [] + [patch] + [service], s2, stop);
    xs, t := [] + [patch] + [service] + [stop], Apply(s2, stop);
    assert t.lbPc == s.lbPc - {c};
  }

  /** The cluster controller gets past the load balancer on a Get that errs, and goes. */
  lemma ClusterGoesFirst(s: State, c: Name) returns (xs: seq<Action>, t: State)
    requires Held(s.clusters, c) && !s.clusters[c].deleting && c in s.clusterPc && c in s.roots
    requires MachinesOf(s, c) == {}
    ensures Goes(s, xs, t) && t.lbs == Deleted(s.lbs, c) && t.lbPc == s.lbPc && t.services == s.services
    ensures c !in t.clusters
  {
    var x1, s1 := ClusterIsDeleted(s, c);
    assert MachinesOf(s1, c) == {};
    var x2, s2 := ClusterPassesLB(s1, c, true);
    PathsJoin(AnyStep, s, x1, s1, x2, s2);
    var x3, s3 := ClusterLeaves(s2, c, 0);
    LeadsGoes(s2, x3, s3);
    PathsJoin(AnyStep, s, x1 + x2, s2, x3, s3);
    xs, t := x1 + x2 + x3, s3;
  }

  /** An execution in which the Get of the load balancer errs while there is one: the cluster goes, and no
      controller ever removes the load balancer, although marked, or its service. */
  lemma MisreadStrandsLoadBalancer(c: Name) returns (xs: seq<Action>, s: State)
    ensures Goes(Empty(map[]), xs, s) && Reachable(s) && Marked(s.lbs, c) && c in s.services && c !in s.clusters
    ensures forall actions, t :: Leads(s, actions, t) ==> c in t.lbs && c in t.services
  {
    var s0 := Empty(map[]);
    var x1, s1 := ClusterStarts(s0, c, "group");
    var x2, s2 := LBStarts(s1, c);
    PathsJoin(AnyStep, s0, x1, s1, x2, s2);
    var x3, s3 := LBFound(s2, c);
    PathsJoin(AnyStep, s0, x1 + x2, s2, x3, s3);
    var x4, s4 := LBServes(s3, c);
    PathsJoin(AnyStep, s0, x1 + x2 + x3, s3, x4, s4);
    assert MachinesOf(s4, c) == {};
    var x5, s5 := ClusterGoesFirst(s4, c);
    PathsJoin(AnyStep, s0, x1 + x2 + x3 + x4, s4, x5, s5);
    xs, s := x1 + x2 + x3 + x4 + x5, s5;
    GoesToReachable(s0, xs, s);
    assert LBBlocked(s, c, 1);
    forall actions, t | Leads(s, actions, t) ensures c in t.lbs && c in t.services {
      LBBlockedForever(s, actions, t, c, 1);
    }
  }

  // ----- a foreign group -----

  /** A cluster without machines and load balancer is deleted, up to its group. */
  lemma ClusterReachesGroup(s: State, c: Name) returns (xs: seq<Action>, t: State)
    requires Held(s.clusters, c) && !s.clusters[c].deleting && c in s.clusterPc && c in s.roots
    requires s.machines == map[] && c !in s.lbs
    ensures Goes(s, xs, t)
    ensures t == s.(clusters := s.clusters[c := s.clusters[c].(deleting := true)], vaults := s.vaults - {c},
                    clusterPc := s.clusterPc[c := ClusterServices(1, true)])
  {
    var x1, s1 := ClusterIsDeleted(s, c);
    assert MachinesOf(s1, c) == {};
    var x2, s2 := ClusterPassesLB(s1, c, false);
    PathsJoin(AnyStep, s, x1, s1, x2, s2);
    var vault := Action(c, OfCluster(ClusterDeleteVault(true, true)));
    GoesByOne(s, x1 + x2, s2, vault);
    xs, t := x1 + x2 + [vault], Apply(s2, vault);
    assert t.clusterPc == s.clusterPc[c := ClusterServices(1, true)];
  }

  /** The controller of a cluster creates the group, or tags the one there is after a Get that failed; then the
      cluster is deleted up to its group. */
  lemma GroupTaken(groups: map<Name, bool>, c: Name, g: Name, getErr: bool) returns (xs: seq<Action>, t: State)
    requires getErr || g !in groups
    ensures Goes(Empty(groups), xs, t) && t.groups == groups[g := true]
    ensures t.clusters == map[c := Res(true, true, g)] && t.clusterPc == map[c := ClusterServices(1, true)]
  {
    var s0 := Empty(groups);
    var x1, s1 := ClusterStarts(s0, c, g);
    var create := Action(c, OfCluster(ClusterCreateGroup(getErr)));
    GoesByOne(s0, x1, s1, create);
    var s2 := Apply(s1, create);
    var x2, s3 := ClusterReachesGroup(s2, c);
    PathsJoin(AnyStep, s0, x1 + [create], s2, x2, s3);
    xs, t := x1 + [create] + x2, s3;
  }

  /** An execution in which a group that was there before, without the ownership tag, is tagged after a Get
      that failed, and deleted with the cluster. */
  lemma ForeignGroupDeleted(c: Name, g: Name) returns (xs: seq<Action>, s: State)
    ensures Init(Empty(map[g := false])) && Goes(Empty(map[g := false]), xs, s) && g !in s.groups
  {
    var s0 := Empty(map[g := false]);
    var x1, s1 := GroupTaken(map[g := false], c, g, true);
    var delete := Action(c, OfCluster(ClusterDeleteGroup(true, true)));
    GoesByOne(s0, x1, s1, delete);
    xs, s := x1 + [delete], Apply(s1, delete);
  }

  /** An execution in which two clusters share a group that the controller of the first created: the deletion
      of the first deletes the group, while the second is not being deleted and answers for it. */
  lemma SharedGroupDeleted(c: Name, d: Name, g: Name) returns (xs: seq<Action>, s: State)
    requires c != d
    ensures Init(Empty(map[])) && Goes(Empty(map[]), xs, s) && g !in s.groups
    ensures Uses(s, d, g) && !s.clusters[d].deleting
  {
    var s0 := Empty(map[]);
    var x1, s1 := GroupTaken(map[], c, g, false);
    var x2, s2 := ClusterStarts(s1, d, g);
    PathsJoin(AnyStep, s0, x1, s1, x2, s2);
    var delete := Action(c, OfCluster(ClusterDeleteGroup(true, true)));
    GoesByOne(s0, x1 + x2, s2, delete);
    xs, s := x1 + x2 + [delete], Apply(s2, delete);
  }
}
