/**
 Outsiders must keep off CAPCS's own routers as well. An attach to one between its creation and
 the attach CAPCS asks for is refused to CAPCS, and the next pass claims the stranger's interface,
 because whatever is on a managed router counts as CAPCS's.
 */
module OwnRouterIntrusion {
  import opened Types
  import opened Cloud
  import opened Ensure
  import opened Admission
  import opened Networks
  import opened Routers
  import opened LoadBalancer
  import opened ServerGroups
  import opened Controller
  import opened Runs
  import opened Intrusion

  const OWN: Id := 4
  const GUEST: Id := 5

  /** A router of CAPCS's own, to be joined to a pre-existing network. */
  function OwnSpec(a: Name): Spec {
    SharedSpec(a).(routers := [RouterSpec(a, NO_ID, false, [InterfaceSpec(a, NO_ID, Some(Addr(V4, 9)))])])
  }

  const PLAIN := World(
    map[NETWORK := Resource(Network, None, NO_ID), SUBNET := Resource(Subnet, None, NETWORK)],
    map[], [], [], map[], OWN, {}, {}, {})

  function WithOwn(a: Name): World {
    Land(PLAIN, Router, Named(a), NO_ID)
  }

  function WithGuest(a: Name): World {
    AttachNow(WithOwn(a), OWN, NETWORK)
  }

  /** The stranger is quick: between the creation of the router and the attach. */
  function Raced(k: nat): Fate {
    if k == 3 then QUIET.(outside := [Intrude(OWN, NETWORK)]) else QUIET
  }

  function Begin(a: Name): State {
    State(PLAIN, EMPTY_STATUS, OwnSpec(a), 0, false, false)
  }

  function Entries(a: Name, iface: Id): Status {
    EMPTY_STATUS.(networks := Known(a), routers := [RouterStatus(a, OWN, true, [InterfaceStatus(a, iface, true)])])
  }

  lemma NetworkIsRead(a: Name)
    ensures ReconcileNetworks(Begin(a).(finalizer := true), Raced) ==
            Stage(State(PLAIN, EMPTY_STATUS.(networks := Known(a)), OwnSpec(a), 1, true, false), Proceed)
  {
    var s, n := Begin(a).(finalizer := true), OwnSpec(a).networks[0];
    assert OutsideAll(PLAIN, s.spec, []) == PLAIN;
    assert Get(s, Raced, Network, NETWORK).reply == Done(NETWORK);
    var one := ReconcileNetwork(s, Raced, n);
    assert one.s.st.networks == Known(a);
    assert NetworksFrom(one.s, Raced, s.spec.networks, 1) == Stage(one.s, Proceed);
  }

  lemma RouterIsMade(a: Name)
    ensures var s := State(PLAIN, EMPTY_STATUS.(networks := Known(a)), OwnSpec(a), 1, true, false);
            Obtain(s, Raced, NO_ID, Router, Named(a), NO_ID) == Obtained(s.(w := WithOwn(a), clock := 3), OWN, Proceed, true)
  {
    var s := State(PLAIN, EMPTY_STATUS.(networks := Known(a)), OwnSpec(a), 1, true, false);
    assert OutsideAll(PLAIN, s.spec, []) == PLAIN;
    assert Tagged(PLAIN, Router, Named(a)) == {};
    var e := EnsureResource(s, Raced, NO_ID, Router, Named(a));
    assert e == Ensured(s.(clock := 2), NO_ID, false);
    var c := Create(e.s, Raced, Router, Named(a), NO_ID);
    assert c == Called(s.(w := WithOwn(a), clock := 3), Done(OWN));
  }

  lemma AttachIsRefused(a: Name)
    ensures var r := OwnSpec(a).routers[0];
            var st := EMPTY_STATUS.(networks := Known(a), routers := [RouterStatus(a, OWN, true, [])]);
            AttachInterface(State(WithOwn(a), st, OwnSpec(a), 3, true, false), Raced, r, OWN, r.interfaces[0], NETWORK) ==
            Stage(State(WithGuest(a), Entries(a, NO_ID), OwnSpec(a), 4, true, false), Error)
  {
    var st := EMPTY_STATUS.(networks := Known(a), routers := [RouterStatus(a, OWN, true, [])]);
    var t := State(WithOwn(a), st, OwnSpec(a), 3, true, false);
    var p := SetInterface(t, a, InterfaceStatus(a, NO_ID, true));
    assert p.st == Entries(a, NO_ID);
    assert OutsideAll(WithOwn(a), t.spec, [Intrude(OWN, NETWORK)]) == OutsideAll(WithGuest(a), t.spec, []);
    assert Tick(p, Raced).w == WithGuest(a);
    assert GUEST in WithGuest(a).ifaces;
    assert !CanAttach(WithGuest(a), OWN, NETWORK);
  }

  lemma RouterStageFails(a: Name)
    ensures ReconcileRouters(State(PLAIN, EMPTY_STATUS.(networks := Known(a)), OwnSpec(a), 1, true, false), Raced) ==
            Stage(State(WithGuest(a), Entries(a, NO_ID), OwnSpec(a), 4, true, false), Error)
  {
    var n := State(PLAIN, EMPTY_STATUS.(networks := Known(a)), OwnSpec(a), 1, true, false);
    var s, r := n.(w := WithOwn(a), clock := 3), OwnSpec(a).routers[0];
    RouterIsMade(a);
    AttachIsRefused(a);
    var t := SetRouter(s, r, OWN);
    assert t.st.routers == [RouterStatus(a, OWN, true, [])];
    assert Interfaces(s.w, OWN) == map[];
    var refused := AttachInterface(t, Raced, r, OWN, r.interfaces[0], NETWORK);
    assert ReconcileInterface(t, Raced, r, OWN, map[], r.interfaces[0]) == refused;
    assert Settle(s, Raced, r, OWN) == refused;
    assert ReconcileRouter(n, Raced, r) == refused;
  }

  /** First pass: the router is made, the attach is refused, the pending entry stays. */
  lemma PassOne(a: Name)
    ensures Reconcile(Begin(a), Raced, NOBODY) == State(WithGuest(a), Entries(a, NO_ID), OwnSpec(a), 4, true, false)
  {
    NetworkIsRead(a);
    RouterStageFails(a);
  }

  /** Second pass: an interface on a managed router is claimed. */
  lemma PassTwo(a: Name)
    ensures Reconcile(State(WithGuest(a), Entries(a, NO_ID), OwnSpec(a), 4, true, false), Quiet, NOBODY) ==
            State(WithGuest(a), Entries(a, GUEST), OwnSpec(a), 1, true, false)
  {
    var s, r := State(WithGuest(a), Entries(a, NO_ID), OwnSpec(a), 0, true, false), OwnSpec(a).routers[0];
    assert NetworksFrom(s, Quiet, s.spec.networks, 1) == Stage(s, Proceed);
    assert ReconcileNetworks(s, Quiet) == Stage(s, Proceed);
    assert OutsideAll(WithGuest(a), s.spec, []) == WithGuest(a);
    var o := Obtain(s, Quiet, OWN, Router, Named(a), NO_ID);
    assert o == Obtained(s.(clock := 1), OWN, Proceed, true);
    var t, live := SetRouter(o.s, r, OWN), Interfaces(o.s.w, OWN);
    assert t.st == Entries(a, NO_ID);
    assert live == map[GUEST := NETWORK];
    var claimed := InterfaceStatus(a, GUEST, true);
    assert PutInterface(t.st.routers[0].interfaces, claimed) == [claimed];
    assert WithInterfaces(t.st.routers, a, [claimed]) == Entries(a, GUEST).routers;
    var c := ClaimInterface(t, r, r.interfaces[0], GUEST);
    assert c == Stage(o.s.(st := Entries(a, GUEST)), Proceed);
    assert GUEST in live && LiveOn(live, NETWORK) == GUEST;
    assert ReconcileInterface(t, Quiet, r, OWN, live, r.interfaces[0]) == c;
    assert InterfacesFrom(c.s, Quiet, r, OWN, live, 1) == Stage(c.s, Proceed);
    assert ReconcileRouter(s, Quiet, r) == Stage(c.s, Proceed);
    assert RoutersFrom(c.s, Quiet, s.spec.routers, 1, Proceed) == Stage(c.s, Proceed);
    assert ReconcileRouters(s, Quiet) == Stage(c.s, Proceed);
    assert ReconcileLoadBalancer(c.s, Quiet, []) == LbStage(c.s, Proceed, NO_ID, true);
  }

  lemma GuestIsDetached(a: Name)
    ensures var s, rs := State(WithGuest(a), Entries(a, GUEST), OwnSpec(a), 2, true, true), Entries(a, GUEST).routers[0];
            var d := DeleteInterfaces(s, Quiet, rs);
            d.kept == [] && !d.err && d.s.w == WithGuest(a).(ifaces := map[], targets := {GUEST}) && d.s.clock == 4
  {
    var s, rs := State(WithGuest(a), Entries(a, GUEST), OwnSpec(a), 2, true, true), Entries(a, GUEST).routers[0];
    assert OutsideAll(s.w, s.spec, []) == s.w;
    var g := Get(s, Quiet, Router, OWN);
    assert g.reply == Done(OWN);
    var live := Interfaces(g.s.w, OWN);
    assert live == map[GUEST := NETWORK];
    var one := DetachOne(g.s, Quiet, OWN, live, rs.interfaces[0]);
    assert OutsideAll(g.s.w, s.spec, []) == g.s.w;
    assert one.kept == [] && !one.err && one.s.w.targets == {GUEST};
    assert DetachFrom(one.s, Quiet, rs, live, 1, [] + one.kept, false) == Handled(one.s, [], false);
    assert rs.interfaces[0].managed && HasManaged(rs.interfaces);
    assert one.s.w.ifaces == map[];
  }

  /** Deletion then detaches it, and deletes the router. */
  lemma LastPass(a: Name)
    ensures var t := Reconcile(State(WithGuest(a), Entries(a, GUEST), OwnSpec(a), 1, true, true), Quiet, NOBODY);
            t.w.targets == {GUEST, OWN} && t.w.made == {OWN}
  {
    var s := State(WithGuest(a), Entries(a, GUEST), OwnSpec(a), 0, true, true);
    assert OutsideAll(s.w, s.spec, []) == s.w;
    assert DeleteServerGroups(s, Quiet, []) == Stage(s.(clock := 2), Proceed);
    var u, rs := s.(clock := 2), s.st.routers[0];
    GuestIsDetached(a);
    var d := DeleteInterfaces(u, Quiet, rs);
    assert OutsideAll(d.s.w, s.spec, []) == d.s.w;
    var c := Delete(d.s, Quiet, Router, OWN);
    assert c.reply == Done(OWN) && c.s.w.targets == {GUEST, OWN} && c.s.w.made == {OWN};
    assert DeleteRouter(u, Quiet, rs) == Handled(c.s, [], false);
    var e := c.s.(st := c.s.st.(routers := []));
    assert DeleteRoutersFrom(c.s, Quiet, u.st.routers, 1, [] + [], false) == Stage(e, Proceed);
    assert DeleteRouters(u, Quiet) == Stage(e, Proceed);
    assert [] + [e.st.networks[0]] == e.st.networks;
    assert DeleteNetworksFrom(e, Quiet, e.st.networks, 1, e.st.networks, false) == Stage(e, Proceed);
    assert DeleteNetworks(e, Quiet) == Stage(e, Proceed);
  }

  lemma BeginIsCreated(a: Name)
    ensures Created(NoRegions(a), Begin(a))
  {
    var spec := OwnSpec(a);
    var e := spec.routers[0].interfaces[0];
    assert InterfaceValid(e, spec.networks[0], false);
    assert InterfaceOk(e, spec.networks, false);
  }

  lemma GuestIsClaimed(a: Name)
    ensures Led(NoRegions(a), State(WithGuest(a), Entries(a, GUEST), OwnSpec(a), 1, true, false))
  {
    BeginIsCreated(a);
    CreatedIsLed(NoRegions(a), Begin(a));
    PassOne(a);
    var s1 := State(WithGuest(a), Entries(a, NO_ID), OwnSpec(a), 4, true, false);
    StepIsLed(NoRegions(a), Begin(a), Wake(Raced, NOBODY), s1);
    PassTwo(a);
    StepIsLed(NoRegions(a), s1, Wake(Quiet, NOBODY), State(WithGuest(a), Entries(a, GUEST), OwnSpec(a), 1, true, false));
  }

  /** An attach to a router of CAPCS's own is enough too. */
  lemma GuestOnOwnRouterIsDetached(a: Name)
    ensures exists t: State :: Led(NoRegions(a), t) && GUEST in t.w.targets && GUEST !in t.w.made && OWN in t.w.made
  {
    var s2 := State(WithGuest(a), Entries(a, GUEST), OwnSpec(a), 1, true, false);
    var s3 := s2.(deleting := true);
    GuestIsClaimed(a);
    StepIsLed(NoRegions(a), s2, RequestDeletion, s3);
    var t := Reconcile(s3, Quiet, NOBODY);
    StepIsLed(NoRegions(a), s3, Wake(Quiet, NOBODY), t);
    LastPass(a);
    assert Led(NoRegions(a), t);
  }
}
