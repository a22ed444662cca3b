/**
 Why outsiders must keep off attachments the spec asks CAPCS for. An attach that slips in between
 the router read and the create is refused by the API, but the pending entry written ahead of the
 create is already in status, so the next pass takes the stranger's interface for its own.
 */
module Intrusion {
  import opened Types
  import opened Cloud
  import opened Regions
  import opened Admission
  import opened Networks
  import opened Routers
  import opened LoadBalancer
  import opened ServerGroups
  import opened Controller
  import opened Runs

  const ROUTER: Id := 1
  const NETWORK: Id := 2
  const SUBNET: Id := 3
  const STRANGER: Id := 4

  const QUIET := Fate(Ok, [], true, true, Running, SUBNET, DEFAULT_CIDR)

  const NOBODY := Kube([], false)

  function Quiet(k: nat): Fate { QUIET }

  /** A stranger attaches the router to the network just before the third call. */
  function Intruded(k: nat): Fate {
    if k == 2 then QUIET.(outside := [Intrude(ROUTER, NETWORK)]) else QUIET
  }

  /** An adopted router and a pre-existing network, to be joined by CAPCS. */
  function SharedSpec(a: Name): Spec {
    Spec(
      a, None,
      [NetworkSpec(a, NETWORK, None, 0, None)],
      [RouterSpec(a, ROUTER, false, [InterfaceSpec(a, NO_ID, Some(Addr(V4, 9)))])],
      LoadBalancerSpec(Some(false), "round_robin", "lb-standard", 6443, None, None, HealthMonitorSpec(5, 3, 2, 3)),
      None, NO_ID, 0)
  }

  const SHARED := World(
    map[ROUTER := Resource(Router, None, NO_ID), NETWORK := Resource(Network, None, NO_ID),
        SUBNET := Resource(Subnet, None, NETWORK)],
    map[], [], [], map[], STRANGER, {}, {}, {})

  const INTRUDED := SHARED.(ifaces := map[STRANGER := Attachment(ROUTER, NETWORK)], next := STRANGER + 1)

  function Start(a: Name): State {
    State(SHARED, EMPTY_STATUS, SharedSpec(a), 0, false, false)
  }

  function Known(a: Name): seq<NetworkStatus> {
    [NetworkStatus(a, NETWORK, SUBNET, Some(DEFAULT_CIDR), false)]
  }

  /** Status with the interface entry holding `iface`. */
  function Entry(a: Name, iface: Id): Status {
    EMPTY_STATUS.(networks := Known(a), routers := [RouterStatus(a, ROUTER, false, [InterfaceStatus(a, iface, true)])])
  }

  lemma NetworkStageFinds(a: Name)
    ensures ReconcileNetworks(Start(a).(finalizer := true), Intruded) ==
            Stage(State(SHARED, EMPTY_STATUS.(networks := Known(a)), SharedSpec(a), 1, true, false), Proceed)
  {
    var s, n := Start(a).(finalizer := true), SharedSpec(a).networks[0];
    assert OutsideAll(SHARED, s.spec, []) == SHARED;
    assert Get(s, Intruded, Network, NETWORK).reply == Done(NETWORK);
    var one := ReconcileNetwork(s, Intruded, n);
    assert one.s.st.networks == Known(a);
    assert NetworksFrom(one.s, Intruded, s.spec.networks, 1) == Stage(one.s, Proceed);
  }

  /** First pass: the create is refused, the pending entry stays. */
  lemma FirstPass(a: Name)
    ensures Reconcile(Start(a), Intruded, NOBODY) == State(INTRUDED, Entry(a, NO_ID), SharedSpec(a), 3, true, false)
  {
    NetworkStageFinds(a);
    var s, r := ReconcileNetworks(Start(a).(finalizer := true), Intruded).s, SharedSpec(a).routers[0];
    assert OutsideAll(SHARED, s.spec, []) == SHARED;
    var g := Get(s, Intruded, Router, ROUTER);
    assert g.reply == Done(ROUTER);
    var t := SetRouter(g.s, r, ROUTER);
    assert t.st.routers == [RouterStatus(a, ROUTER, false, [])];
    assert Interfaces(g.s.w, ROUTER) == map[];
    var p := SetInterface(t, a, InterfaceStatus(a, NO_ID, true));
    assert p.st == Entry(a, NO_ID);
    assert OutsideAll(SHARED, s.spec, [Intrude(ROUTER, NETWORK)]) == OutsideAll(INTRUDED, s.spec, []);
    assert Tick(p, Intruded).w == INTRUDED;
    assert STRANGER in INTRUDED.ifaces;
    assert !CanAttach(INTRUDED, ROUTER, NETWORK);
    assert AttachInterface(t, Intruded, r, ROUTER, r.interfaces[0], NETWORK).flow == Error;
  }

  /** Second pass: the router read shows an interface, status has an entry, so the interface is claimed. */
  lemma SecondPass(a: Name)
    ensures Reconcile(State(INTRUDED, Entry(a, NO_ID), SharedSpec(a), 3, true, false), Quiet, NOBODY) ==
            State(INTRUDED, Entry(a, STRANGER), SharedSpec(a), 1, true, false)
  {
    var s, r := State(INTRUDED, Entry(a, NO_ID), SharedSpec(a), 0, true, false), SharedSpec(a).routers[0];
    assert NetworksFrom(s, Quiet, s.spec.networks, 1) == Stage(s, Proceed);
    assert ReconcileNetworks(s, Quiet) == Stage(s, Proceed);
    assert OutsideAll(INTRUDED, s.spec, []) == INTRUDED;
    var g := Get(s, Quiet, Router, ROUTER);
    assert g.reply == Done(ROUTER);
    var t, live := SetRouter(g.s, r, ROUTER), Interfaces(g.s.w, ROUTER);
    assert t.st == Entry(a, NO_ID);
    assert live == map[STRANGER := NETWORK];
    var claimed := InterfaceStatus(a, STRANGER, true);
    assert PutInterface(t.st.routers[0].interfaces, claimed) == [claimed];
    assert WithInterfaces(t.st.routers, a, [claimed]) == Entry(a, STRANGER).routers;
    var c := ClaimInterface(t, r, r.interfaces[0], STRANGER);
    assert c == Stage(g.s.(st := Entry(a, STRANGER)), Proceed);
    assert STRANGER in live && LiveOn(live, NETWORK) == STRANGER;
    assert ReconcileInterface(t, Quiet, r, ROUTER, live, r.interfaces[0]) == c;
    assert InterfacesFrom(c.s, Quiet, r, ROUTER, live, 1) == Stage(c.s, Proceed);
    assert ReconcileRouter(s, Quiet, r) == Stage(c.s, Proceed);
    assert RoutersFrom(c.s, Quiet, s.spec.routers, 1, Proceed) == Stage(c.s, Proceed);
    assert ReconcileRouters(s, Quiet) == Stage(c.s, Proceed);
    assert ReconcileLoadBalancer(c.s, Quiet, []) == LbStage(c.s, Proceed, NO_ID, true);
  }

  /** Deletion then detaches it. */
  lemma DeletePass(a: Name)
    ensures var t := Reconcile(State(INTRUDED, Entry(a, STRANGER), SharedSpec(a), 1, true, true), Quiet, NOBODY);
            t.w.targets == {STRANGER} && t.w.made == {}
  {
    var s := State(INTRUDED, Entry(a, STRANGER), SharedSpec(a), 0, true, true);
    assert OutsideAll(INTRUDED, s.spec, []) == INTRUDED;
    assert DeleteServerGroups(s, Quiet, []) == Stage(s.(clock := 2), Proceed);
    var u, rs := s.(clock := 2), s.st.routers[0];
    var g := Get(u, Quiet, Router, ROUTER);
    assert g.reply == Done(ROUTER);
    var live := Interfaces(g.s.w, ROUTER);
    assert live == map[STRANGER := NETWORK];
    var one := DetachOne(g.s, Quiet, ROUTER, live, rs.interfaces[0]);
    assert OutsideAll(g.s.w, s.spec, []) == g.s.w;
    assert one.kept == [] && !one.err && one.s.w.targets == {STRANGER};
    assert DetachFrom(one.s, Quiet, rs, live, 1, [] + one.kept, false) == Handled(one.s, [], false);
    assert rs.interfaces[0].managed && HasManaged(rs.interfaces);
    assert DeleteInterfaces(u, Quiet, rs) == Handled(one.s, [], false);
    var kept := rs.(interfaces := []);
    assert DeleteRouter(u, Quiet, rs) == Handled(one.s, [kept], false);
    var d := one.s.(st := one.s.st.(routers := [kept]));
    assert DeleteRoutersFrom(one.s, Quiet, u.st.routers, 1, [] + [kept], false) == Stage(d, Proceed);
    assert DeleteRouters(u, Quiet) == Stage(d, Proceed);
    assert [] + [d.st.networks[0]] == d.st.networks;
    assert DeleteNetworksFrom(d, Quiet, d.st.networks, 1, d.st.networks, false) == Stage(d, Proceed);
    assert DeleteNetworks(d, Quiet) == Stage(d, Proceed);
  }

  function NoRegions(a: Name): Env {
    Env(RegionInfo(map[], map[]), a)
  }

  lemma ClaimedAfterTwoPasses(a: Name)
    ensures Led(NoRegions(a), State(INTRUDED, Entry(a, STRANGER), SharedSpec(a), 1, true, false))
  {
    StartIsCreated(a);
    CreatedIsLed(NoRegions(a), Start(a));
    FirstPass(a);
    var s1 := State(INTRUDED, Entry(a, NO_ID), SharedSpec(a), 3, true, false);
    StepIsLed(NoRegions(a), Start(a), Wake(Intruded, NOBODY), s1);
    SecondPass(a);
    StepIsLed(
      NoRegions(a), s1, Wake(Quiet, NOBODY), State(INTRUDED, Entry(a, STRANGER), SharedSpec(a), 1, true, false));
  }

  /** One unruly attach is enough: a run leads to the detach of an interface the controller never created. */
  lemma StrangersInterfaceIsDetached(a: Name)
    ensures exists t: State :: Led(NoRegions(a), t) && !(t.w.targets <= t.w.made)
  {
    var s2 := State(INTRUDED, Entry(a, STRANGER), SharedSpec(a), 1, true, false);
    var s3 := s2.(deleting := true);
    ClaimedAfterTwoPasses(a);
    StepIsLed(NoRegions(a), s2, RequestDeletion, s3);
    var t := Reconcile(s3, Quiet, NOBODY);
    StepIsLed(NoRegions(a), s3, Wake(Quiet, NOBODY), t);
    DeletePass(a);
    assert Led(NoRegions(a), t) && STRANGER in t.w.targets && STRANGER !in t.w.made;
  }

  lemma StartIsCreated(a: Name)
    ensures Created(NoRegions(a), Start(a))
  {
    var spec := SharedSpec(a);
    var e := spec.routers[0].interfaces[0];
    assert InterfaceValid(e, spec.networks[0], true);
    assert InterfaceOk(e, spec.networks, true);
  }
}
