/** The load balancer controller and the cluster controller together: the endpoint of the control
    plane is written from the addresses of the load balancer only, one in each of its lives. */
module ControlPlaneEndpoint {
  import opened Basics
  import LoadBalancer
  import LoadBalancerRuns
  import ReplicaCounterexamples
  import ClusterController

  /** The address the cluster controller saw is the one the load balancer had at some moment. */
  ghost predicate SeenAddress(w: LoadBalancerRuns.World, es: seq<LoadBalancerRuns.Event>, address: string) {
    exists i :: 0 <= i <= |es| && address == LoadBalancerRuns.Run(w, es[..i]).lb.address
  }

  lemma {:induction false} RunAppend(w: LoadBalancerRuns.World, es: seq<LoadBalancerRuns.Event>, i: nat)
    requires i <= |es|
    ensures LoadBalancerRuns.Run(w, es) == LoadBalancerRuns.Run(LoadBalancerRuns.Run(w, es[..i]), es[i..])
    ensures LoadBalancerRuns.ValidRun(w, es) ==>
              && LoadBalancerRuns.ValidRun(w, es[..i])
              && LoadBalancerRuns.ValidRun(LoadBalancerRuns.Run(w, es[..i]), es[i..])
    decreases i
  {
    if i == 0 {
      assert es[..0] == [] && es[0..] == es;
    } else {
      assert es[1..][..i - 1] == es[..i][1..] && es[1..][i - 1..] == es[i..];
      RunAppend(LoadBalancerRuns.Next(w, es[0]), es[1..], i - 1);
    }
  }

  /** Every address seen during a run of the load balancer is empty or the one it ends with. */
  lemma SeenAddressesAgree(w: LoadBalancerRuns.World, es: seq<LoadBalancerRuns.Event>, address: string)
    requires LoadBalancerRuns.WellFormed(w) && LoadBalancerRuns.ValidRun(w, es) && SeenAddress(w, es, address)
    ensures address == "" || address == LoadBalancerRuns.Run(w, es).lb.address
  {
    var i :| 0 <= i <= |es| && address == LoadBalancerRuns.Run(w, es[..i]).lb.address;
    RunAppend(w, es, i);
    LoadBalancerRuns.RunWellFormed(w, es[..i]);
    LoadBalancerRuns.AddressIsStable(LoadBalancerRuns.Run(w, es[..i]), es[i..]);
  }

  /** One lifetime of the load balancer resource, from its creation on: deleted and created anew, it lives
      again and may get another address. */
  datatype Life = Life(start: LoadBalancerRuns.World, events: seq<LoadBalancerRuns.Event>)

  ghost predicate Lived(life: Life) {
    LoadBalancerRuns.WellFormed(life.start) && LoadBalancerRuns.ValidRun(life.start, life.events)
  }

  ghost function AddressOf(life: Life): string {
    LoadBalancerRuns.Run(life.start, life.events).lb.address
  }

  ghost function Hosts(lives: seq<Life>): set<string> {
    set i | 0 <= i < |lives| && AddressOf(lives[i]) != "" :: AddressOf(lives[i])
  }

  /** Every address the cluster controller saw is one the load balancer had in one of its lives. */
  ghost predicate SeesLives(lives: seq<Life>, ces: seq<ClusterController.Event>, port: int) {
    forall e :: e in ces && e.Reconciled? ==>
      && e.answers.apiServerPort == port
      && (e.answers.lb.LBFound? ==>
            exists i :: 0 <= i < |lives| && SeenAddress(lives[i].start, lives[i].events, e.answers.lb.address))
  }

  lemma SeesLivesShows(lives: seq<Life>, ces: seq<ClusterController.Event>, port: int)
    requires (forall life :: life in lives ==> Lived(life)) && SeesLives(lives, ces, port)
    ensures ClusterController.Shows(ces, Hosts(lives), port)
  {
    forall e | e in ces && e.Reconciled? && e.answers.lb.LBFound?
      ensures e.answers.lb.address == "" || e.answers.lb.address in Hosts(lives)
    {
      var i :| 0 <= i < |lives| && SeenAddress(lives[i].start, lives[i].events, e.answers.lb.address);
      assert Lived(lives[i]);
      SeenAddressesAgree(lives[i].start, lives[i].events, e.answers.lb.address);
    }
  }

  /** However the two controllers interleave, with a fixed API server port the cluster controller writes no
      endpoint but that of an address of the load balancer; in one life of it, one endpoint only. */
  lemma OneEndpoint(lives: seq<Life>, c: ClusterController.Cluster, ces: seq<ClusterController.Event>, port: int)
    requires (forall life :: life in lives ==> Lived(life)) && SeesLives(lives, ces, port)
    ensures var endpoint := ClusterController.Run(c, ces).endpoint;
      && (endpoint == c.endpoint || (endpoint.host in Hosts(lives) && endpoint.port == port))
      && (|lives| == 1 ==> endpoint == c.endpoint || endpoint == ClusterController.Endpoint(AddressOf(lives[0]), port))
  {
    SeesLivesShows(lives, ces, port);
    ClusterController.EndpointIsConstant(c, ces, Hosts(lives), port);
  }

  // ----- several lives -----

  ghost predicate EndsAt(
    c: ClusterController.Cluster, ces: seq<ClusterController.Event>, target: ClusterController.Endpoint)
  {
    ClusterController.Run(c, ces).endpoint == c.endpoint || ClusterController.Run(c, ces).endpoint == target
  }

  ghost predicate AlwaysAt(
    lives: seq<Life>, c: ClusterController.Cluster, port: int, target: ClusterController.Endpoint)
  {
    forall ces :: SeesLives(lives, ces, port) ==> EndsAt(c, ces, target)
  }

  /** There is one endpoint, and every run of the cluster controller leaves its own or writes that one. */
  ghost predicate OneOnly(lives: seq<Life>, c: ClusterController.Cluster, port: int) {
    exists target :: AlwaysAt(lives, c, port, target)
  }

  /** All lives that got an address got the same one. */
  ghost predicate Agree(lives: seq<Life>) {
    forall i, j :: 0 <= i < |lives| && 0 <= j < |lives| && AddressOf(lives[i]) != "" && AddressOf(lives[j]) != "" ==>
      AddressOf(lives[i]) == AddressOf(lives[j])
  }

  /** A pass of the cluster controller that finds the load balancer ready at `address`. */
  function Saw(address: string, port: int): ClusterController.Event {
    ClusterController.Reconciled(ClusterController.Answers(
      true, None, ClusterController.LBFound(None, address), port,
      ClusterController.Deletion(None, 0, None, false, None, false, None), 0, CloseOutcome(true, true, true)))
  }

  lemma SawWrites(c: ClusterController.Cluster, address: string, port: int)
    requires !c.deleting && address != ""
    ensures var c' := ClusterController.Next(c, Saw(address, port));
      !c'.deleting && c'.endpoint == ClusterController.Endpoint(address, port)
    ensures ClusterController.Run(c, [Saw(address, port)]) == ClusterController.Next(c, Saw(address, port))
  {
    assert [Saw(address, port)][..0] == [] && ClusterController.Run(c, []) == c;
  }

  lemma SawIsSeen(lives: seq<Life>, i: nat, port: int)
    requires i < |lives|
    ensures SeesLives(lives, [Saw(AddressOf(lives[i]), port)], port)
  {
    var life := lives[i];
    assert life.events[..|life.events|] == life.events;
    assert SeenAddress(life.start, life.events, AddressOf(life));
  }

  /** A load balancer that lives twice with different addresses changes the endpoint. */
  lemma SecondLifeChangesEndpoint(lives: seq<Life>, c: ClusterController.Cluster, i: nat, j: nat, port: int)
    requires !c.deleting && i < |lives| && j < |lives| && AddressOf(lives[i]) != "" && AddressOf(lives[j]) != ""
    ensures var e1, e2 := Saw(AddressOf(lives[i]), port), Saw(AddressOf(lives[j]), port);
      && SeesLives(lives, [e1], port) && SeesLives(lives, [e1] + [e2], port)
      && ClusterController.Run(c, [e1]).endpoint == ClusterController.Endpoint(AddressOf(lives[i]), port)
      && ClusterController.Run(c, [e1] + [e2]).endpoint == ClusterController.Endpoint(AddressOf(lives[j]), port)
  {
    var e1, e2 := Saw(AddressOf(lives[i]), port), Saw(AddressOf(lives[j]), port);
    SawIsSeen(lives, i, port);
    SawIsSeen(lives, j, port);
    SawWrites(c, AddressOf(lives[i]), port);
    assert e2 in [e2] && ([e1] + [e2])[..1] == [e1];
    SawWrites(ClusterController.Run(c, [e1]), AddressOf(lives[j]), port);
  }

  lemma AgreeingLives(lives: seq<Life>, c: ClusterController.Cluster, i: nat, port: int)
    requires (forall life :: life in lives ==> Lived(life)) && Agree(lives)
    requires i < |lives| && AddressOf(lives[i]) != ""
    ensures OneOnly(lives, c, port)
  {
    var target := ClusterController.Endpoint(AddressOf(lives[i]), port);
    forall ces | SeesLives(lives, ces, port) ensures EndsAt(c, ces, target) {
      OneEndpoint(lives, c, ces, port);
    }
    assert AlwaysAt(lives, c, port, target);
  }

  lemma NoAddress(lives: seq<Life>, c: ClusterController.Cluster, port: int)
    requires (forall life :: life in lives ==> Lived(life)) && Hosts(lives) == {}
    ensures OneOnly(lives, c, port)
  {
    forall ces | SeesLives(lives, ces, port) ensures EndsAt(c, ces, c.endpoint) {
      OneEndpoint(lives, c, ces, port);
    }
    assert AlwaysAt(lives, c, port, c.endpoint);
  }

  lemma DisagreeingLives(lives: seq<Life>, c: ClusterController.Cluster, i: nat, j: nat, port: int)
    requires !c.deleting && c.endpoint.host == "" && i < |lives| && j < |lives|
    requires AddressOf(lives[i]) != "" && AddressOf(lives[j]) != "" && AddressOf(lives[i]) != AddressOf(lives[j])
    ensures !OneOnly(lives, c, port)
  {
    SecondLifeChangesEndpoint(lives, c, i, j, port);
    var e1, e2 := Saw(AddressOf(lives[i]), port), Saw(AddressOf(lives[j]), port);
    forall target ensures !AlwaysAt(lives, c, port, target) {
      assert !(EndsAt(c, [e1], target) && EndsAt(c, [e1] + [e2], target));
    }
  }

  /** Of a cluster whose endpoint is not set yet, one endpoint only is ever written, exactly when all lives of the
      load balancer that got an address got the same one. */
  lemma OneEndpointExactly(lives: seq<Life>, c: ClusterController.Cluster, port: int)
    requires forall life :: life in lives ==> Lived(life)
    requires !c.deleting && c.endpoint.host == ""
    ensures OneOnly(lives, c, port) <==> Agree(lives)
  {
    if Agree(lives) {
      if i :| 0 <= i < |lives| && AddressOf(lives[i]) != "" {
        AgreeingLives(lives, c, i, port);
      } else {
        NoAddress(lives, c, port);
      }
    } else {
      var i, j :| 0 <= i < |lives| && 0 <= j < |lives| && AddressOf(lives[i]) != "" && AddressOf(lives[j]) != ""
        && AddressOf(lives[i]) != AddressOf(lives[j]);
      DisagreeingLives(lives, c, i, j, port);
    }
  }

  /** A life of a new load balancer that wants no replicas: one pass, and it has the address. */
  function ShortLife(address: string): Life {
    Life(ReplicaCounterexamples.NewWorld(0),
         [LoadBalancerRuns.Reconciled(
            ReplicaCounterexamples.Quiet([], Some(LoadBalancer.ServiceStatus(address, 0)), "z", 9))])
  }

  lemma ShortLifeAddress(address: string)
    requires address != ""
    ensures var life := ShortLife(address);
      LoadBalancerRuns.Fresh(life.start) && Lived(life) && AddressOf(life) == address
  {
    var life := ShortLife(address);
    var e := life.events[0];
    var a := e.answers;
    ReplicaCounterexamples.LiveNone();
    assert a.Create(0) in a.creates;
    assert LoadBalancerRuns.Allowed(life.start, e);
    LoadBalancerRuns.SettledPass(life.start.lb, life.start.vms, a);
    LoadBalancerRuns.StatusPersisted(life.start.lb, life.start.vms, a);
    assert life.events[1..] == [];
    assert LoadBalancerRuns.Run(life.start, life.events)
        == LoadBalancerRuns.Run(LoadBalancerRuns.Next(life.start, e), []);
  }

  /** Deleted and created anew, a load balancer comes back with another address: two endpoints are written. */
  lemma TwoLivesTwoEndpoints(c: ClusterController.Cluster, port: int) returns (lives: seq<Life>)
    requires ClusterController.Fresh(c) && c.endpoint.host == ""
    ensures forall life :: life in lives ==> LoadBalancerRuns.Fresh(life.start) && Lived(life)
    ensures !OneOnly(lives, c, port)
  {
    lives := [ShortLife("10.0.0.1"), ShortLife("10.0.0.2")];
    ShortLifeAddress("10.0.0.1");
    ShortLifeAddress("10.0.0.2");
    DisagreeingLives(lives, c, 0, 1, port);
  }
}
