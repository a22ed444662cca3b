/**
 Provisioned is complete and monotone: a pass that gets through all four stages sets it exactly
 when the endpoint has a host, and once it is set no pass and no admitted update clears it.
 */
module Provisioned {
  import opened Types
  import opened Keys
  import opened Cloud
  import opened Ensure
  import opened Networks
  import opened Routers
  import opened LoadBalancer
  import opened Members
  import opened FloatingIps
  import opened ServerGroups
  import opened Controller
  import opened Admission
  import opened OwnershipRuns
  import opened AtMostOne
  import opened StatusShape
  import opened Runs

  // ----------------------------------------------------------------- ids are set

  /** A managed resource that was obtained has an id. */
  lemma ObtainedHasId(s: State, f: Fates, current: Id, kind: Kind, tag: Tag, parent: Id)
    requires Lawful(s.w)
    ensures var o := Obtain(s, f, current, kind, tag, parent);
            Lawful(o.s.w) && (o.flow == Proceed ==> o.id != NO_ID && o.looked)
  {
    ObtainIsLawful(s, f, current, kind, tag, parent);
    EnsureIsLawful(s, f, current, kind, tag);
    var e := EnsureResource(s, f, current, kind, tag);
    TickIsLawful(e.s, f);
  }

  // -------------------------------------------------------------------- networks

  ghost predicate Full(n: Option<NetworkStatus>) {
    n.Some? && n.value.networkId != NO_ID && n.value.subnetId != NO_ID
  }

  ghost predicate NetworksFull(ns: seq<NetworkStatus>, specs: seq<NetworkSpec>, k: nat)
    requires k <= |specs|
  {
    forall j | 0 <= j < k :: Full(FindNetwork(ns, specs[j].name))
  }

  /** Entries are for networks of the spec. */
  ghost predicate KnownNetworks(ns: seq<NetworkStatus>, specs: seq<NetworkSpec>) {
    forall a | FindNetwork(ns, a).Some? :: Defined(a, specs)
  }

  /** The list was left alone, or a complete entry was put in. */
  ghost predicate Written(was: seq<NetworkStatus>, now: seq<NetworkStatus>, name: Name, done: bool) {
    || (now == was && (done ==> Full(FindNetwork(was, name))))
    || (exists m: NetworkStatus :: m.name == name && Full(Some(m)) && now == PutNetwork(was, m))
  }

  lemma WrittenIsFull(was: seq<NetworkStatus>, now: seq<NetworkStatus>, name: Name, done: bool)
    requires Written(was, now, name, done)
    ensures done ==> Full(FindNetwork(now, name))
    ensures forall a | a != name :: FindNetwork(now, a) == FindNetwork(was, a)
  {
    if !(now == was && (done ==> Full(FindNetwork(was, name)))) {
      var m: NetworkStatus :| m.name == name && Full(Some(m)) && now == PutNetwork(was, m);
      forall a ensures FindNetwork(now, a) == if a == name then Some(m) else FindNetwork(was, a) { FindPutNetwork(was, m, a); }
    }
  }

  lemma PreExistingIsWritten(s: State, f: Fates, n: NetworkSpec)
    requires n.uuid != NO_ID
    ensures var e := PreExistingNetwork(s, f, n); Written(s.st.networks, e.s.st.networks, n.name, e.flow == Proceed)
  {
    var e := PreExistingNetwork(s, f, n);
    if e.s.st.networks != s.st.networks {
      assert Full(Some(NetworkStatus(n.name, n.uuid, f(s.clock).value, Some(f(s.clock).cidr), false)));
    }
  }

  lemma ManagedIsWritten(s: State, f: Fates, n: NetworkSpec)
    requires Lawful(s.w)
    ensures var e := ManagedNetwork(s, f, n); Written(s.st.networks, e.s.st.networks, n.name, e.flow == Proceed)
  {
    var e := FindNetwork(s.st.networks, n.name);
    var networkId := if e.Some? then e.value.networkId else NO_ID;
    var subnetId := if e.Some? then e.value.subnetId else NO_ID;
    ObtainedHasId(s, f, networkId, Network, Named(n.name), NO_ID);
    var net := Obtain(s, f, networkId, Network, Named(n.name), NO_ID);
    if net.flow == Proceed {
      ObtainedHasId(net.s, f, subnetId, Subnet, Named(n.name), net.id);
      var sub := Obtain(net.s, f, subnetId, Subnet, Named(n.name), net.id);
      if sub.flow == Proceed { assert Full(Some(NetworkStatus(n.name, net.id, sub.id, n.cidr, true))); }
    }
  }

  lemma NetworkIsFull(s: State, f: Fates, n: NetworkSpec)
    requires Lawful(s.w)
    ensures var e := ReconcileNetwork(s, f, n);
            && Lawful(e.s.w)
            && (e.flow == Proceed ==> Full(FindNetwork(e.s.st.networks, n.name)))
            && (forall a | a != n.name :: FindNetwork(e.s.st.networks, a) == FindNetwork(s.st.networks, a))
  {
    NetworkIsLawful(s, f, n);
    if n.uuid == NO_ID { ManagedIsWritten(s, f, n); } else { PreExistingIsWritten(s, f, n); }
    var e := ReconcileNetwork(s, f, n);
    WrittenIsFull(s.st.networks, e.s.st.networks, n.name, e.flow == Proceed);
  }

  lemma NetworksAreFull(s: State, f: Fates, specs: seq<NetworkSpec>, k: nat)
    requires Lawful(s.w) && k <= |specs| && DistinctNetworks(specs)
    requires NetworksFull(s.st.networks, specs, k) && KnownNetworks(s.st.networks, specs)
    ensures var e := NetworksFrom(s, f, specs, k);
            Lawful(e.s.w) && KnownNetworks(e.s.st.networks, specs) &&
            (e.flow == Proceed ==> NetworksFull(e.s.st.networks, specs, |specs|))
    decreases |specs| - k
  {
    if k < |specs| {
      NetworkIsFull(s, f, specs[k]);
      var one := ReconcileNetwork(s, f, specs[k]);
      assert specs[k] in specs && Defined(specs[k].name, specs);
      if one.flow == Proceed {
        forall j | 0 <= j < k + 1 ensures Full(FindNetwork(one.s.st.networks, specs[j].name)) {
          assert j < k ==> specs[j].name != specs[k].name;
        }
        NetworksAreFull(one.s, f, specs, k + 1);
      }
    }
  }

  // --------------------------------------------------------------------- routers

  /** The router's entry after one interface: that interface is set, the rest is as before. */
  ghost predicate OneSet(was: Option<RouterStatus>, now: Option<RouterStatus>, a: Name, done: bool) {
    && was.Some? && now.Some? && now.value.routerId == was.value.routerId
    && (done ==> FindInterface(now.value.interfaces, a).Some? && FindInterface(now.value.interfaces, a).value.interfaceId != NO_ID)
    && (forall b | b != a :: FindInterface(now.value.interfaces, b) == FindInterface(was.value.interfaces, b))
  }

  lemma SetInterfaceSets(s: State, router: Name, e: InterfaceStatus, done: bool)
    requires FindRouter(s.st.routers, router).Some? && (done ==> e.interfaceId != NO_ID)
    ensures var t := SetInterface(s, router, e);
            OneSet(FindRouter(s.st.routers, router), FindRouter(t.st.routers, router), e.network, done)
    ensures var t := SetInterface(s, router, e);
            forall q | q != router :: FindRouter(t.st.routers, q) == FindRouter(s.st.routers, q)
  {
    forall q ensures q != router ==> FindRouter(SetInterface(s, router, e).st.routers, q) == FindRouter(s.st.routers, q) {
      SetInterfaceFinds(s, router, e, q);
    }
    SetInterfaceFinds(s, router, e, router);
    var es := FindRouter(s.st.routers, router).value.interfaces;
    forall b ensures FindInterface(PutInterface(es, e), b) == if b == e.network then Some(e) else FindInterface(es, b) {
      FindPutInterface(es, e, b);
    }
  }

  lemma InterfaceIsSet(s: State, f: Fates, r: RouterSpec, id: Id, live: map<Id, Id>, e: InterfaceSpec)
    requires Lawful(s.w) && NO_ID !in live && FindRouter(s.st.routers, r.name).Some?
    ensures var t := ReconcileInterface(s, f, r, id, live, e);
            && Lawful(t.s.w)
            && OneSet(FindRouter(s.st.routers, r.name), FindRouter(t.s.st.routers, r.name), e.network, t.flow == Proceed)
            && (forall q | q != r.name :: FindRouter(t.s.st.routers, q) == FindRouter(s.st.routers, q))
  {
    InterfaceIsLawful(s, f, r, id, live, e);
    var n, t := FindNetwork(s.st.networks, e.network), ReconcileInterface(s, f, r, id, live, e);
    if n.None? {
    } else if e.uuid != NO_ID {
      SetInterfaceSets(s, r.name, InterfaceStatus(e.network, e.uuid, false), true);
    } else if exists i :: i in live && live[i] == n.value.networkId {
      SetInterfaceSets(s, r.name, InterfaceStatus(e.network, LiveOn(live, n.value.networkId), true), true);
    } else {
      AttachSets(s, f, r, id, e, n.value.networkId);
    }
  }

  lemma AttachSets(s: State, f: Fates, r: RouterSpec, id: Id, e: InterfaceSpec, network: Id)
    requires Lawful(s.w) && FindRouter(s.st.routers, r.name).Some?
    ensures var t := AttachInterface(s, f, r, id, e, network);
            && OneSet(FindRouter(s.st.routers, r.name), FindRouter(t.s.st.routers, r.name), e.network, t.flow == Proceed)
            && (forall q | q != r.name :: FindRouter(t.s.st.routers, q) == FindRouter(s.st.routers, q))
  {
    var pending := InterfaceStatus(e.network, NO_ID, true);
    SetInterfaceSets(s, r.name, pending, false);
    var p := SetInterface(s, r.name, pending);
    TickIsLawful(p, f);
    var c := CreateInterface(p, f, id, network);
    if c.reply.Done? { SetInterfaceSets(c.s, r.name, InterfaceStatus(e.network, c.reply.id, true), true); }
  }

  ghost predicate InterfacesSet(rs: Option<RouterStatus>, es: seq<InterfaceSpec>, k: nat)
    requires k <= |es|
  {
    rs.Some? && forall j | 0 <= j < k ::
      FindInterface(rs.value.interfaces, es[j].network).Some? && FindInterface(rs.value.interfaces, es[j].network).value.interfaceId != NO_ID
  }

  /** The entry of the router is there under the same id, and no other entry changed. */
  ghost predicate OthersKept(was: seq<RouterStatus>, now: seq<RouterStatus>, name: Name) {
    && FindRouter(was, name).Some? && FindRouter(now, name).Some?
    && FindRouter(now, name).value.routerId == FindRouter(was, name).value.routerId
    && forall q | q != name :: FindRouter(now, q) == FindRouter(was, q)
  }

  lemma InterfacesKeepOthers(s: State, f: Fates, r: RouterSpec, id: Id, live: map<Id, Id>, k: nat)
    requires Lawful(s.w) && NO_ID !in live && k <= |r.interfaces| && FindRouter(s.st.routers, r.name).Some?
    ensures OthersKept(s.st.routers, InterfacesFrom(s, f, r, id, live, k).s.st.routers, r.name)
    decreases |r.interfaces| - k
  {
    if k < |r.interfaces| {
      InterfaceIsSet(s, f, r, id, live, r.interfaces[k]);
      var one := ReconcileInterface(s, f, r, id, live, r.interfaces[k]);
      assert OthersKept(s.st.routers, one.s.st.routers, r.name);
      if one.flow == Proceed { InterfacesKeepOthers(one.s, f, r, id, live, k + 1); }
    }
  }

  lemma OneMoreSet(was: Option<RouterStatus>, now: Option<RouterStatus>, es: seq<InterfaceSpec>, k: nat)
    requires k < |es| && DistinctInterfaces(es) && InterfacesSet(was, es, k) && OneSet(was, now, es[k].network, true)
    ensures InterfacesSet(now, es, k + 1)
  {
    forall j | 0 <= j < k ensures es[j].network != es[k].network {
    }
  }

  lemma InterfacesAreSet(s: State, f: Fates, r: RouterSpec, id: Id, live: map<Id, Id>, k: nat)
    requires Lawful(s.w) && NO_ID !in live && k <= |r.interfaces| && DistinctInterfaces(r.interfaces)
    requires InterfacesSet(FindRouter(s.st.routers, r.name), r.interfaces, k)
    ensures var t := InterfacesFrom(s, f, r, id, live, k);
            && Lawful(t.s.w)
            && (t.flow == Proceed ==> InterfacesSet(FindRouter(t.s.st.routers, r.name), r.interfaces, |r.interfaces|))
    decreases |r.interfaces| - k
  {
    if k < |r.interfaces| {
      InterfaceIsSet(s, f, r, id, live, r.interfaces[k]);
      var one := ReconcileInterface(s, f, r, id, live, r.interfaces[k]);
      if one.flow == Proceed {
        OneMoreSet(FindRouter(s.st.routers, r.name), FindRouter(one.s.st.routers, r.name), r.interfaces, k);
        InterfacesAreSet(one.s, f, r, id, live, k + 1);
      }
    }
  }

  lemma SettledIsProvisioned(s: State, f: Fates, r: RouterSpec, id: Id)
    requires Lawful(s.w) && DistinctInterfaces(r.interfaces) && id != NO_ID
    ensures var t := Settle(s, f, r, id);
            && Lawful(t.s.w)
            && (t.flow == Proceed ==> RouterProvisioned(r, FindRouter(t.s.st.routers, r.name)))
            && (forall q | q != r.name :: FindRouter(t.s.st.routers, q) == FindRouter(s.st.routers, q))
  {
    SetRouterFinds(s, r, id);
    InterfacesAreSet(SetRouter(s, r, id), f, r, id, Interfaces(s.w, id), 0);
    InterfacesKeepOthers(SetRouter(s, r, id), f, r, id, Interfaces(s.w, id), 0);
    var t := Settle(s, f, r, id);
    if t.flow == Proceed { AllInterfacesAttached(r, FindRouter(t.s.st.routers, r.name).value); }
  }

  lemma AllInterfacesAttached(r: RouterSpec, rs: RouterStatus)
    requires InterfacesSet(Some(rs), r.interfaces, |r.interfaces|)
    ensures InterfacesAttached(r, rs)
  {
    forall e | e in r.interfaces
      ensures FindInterface(rs.interfaces, e.network).Some? && FindInterface(rs.interfaces, e.network).value.interfaceId != NO_ID
    {
      var j :| 0 <= j < |r.interfaces| && r.interfaces[j] == e;
    }
  }

  lemma RouterIsProvisioned(s: State, f: Fates, r: RouterSpec)
    requires Lawful(s.w) && DistinctInterfaces(r.interfaces)
    ensures var t := ReconcileRouter(s, f, r);
            && Lawful(t.s.w)
            && (t.flow == Proceed ==> RouterProvisioned(r, FindRouter(t.s.st.routers, r.name)))
            && (forall q | q != r.name :: FindRouter(t.s.st.routers, q) == FindRouter(s.st.routers, q))
  {
    if r.uuid != NO_ID {
      TickIsLawful(s, f);
      SettledIsProvisioned(Get(s, f, Router, r.uuid).s, f, r, r.uuid);
    } else {
      var current := RouterIdOf(s.st.routers, r.name);
      ObtainedHasId(s, f, current, Router, Named(r.name), NO_ID);
      var o := Obtain(s, f, current, Router, Named(r.name), NO_ID);
      if o.flow == Proceed { SettledIsProvisioned(o.s, f, r, o.id); }
    }
  }

  ghost predicate RoutersDone(rss: seq<RouterStatus>, specs: seq<RouterSpec>, k: nat)
    requires k <= |specs|
  {
    forall j | 0 <= j < k :: RouterProvisioned(specs[j], FindRouter(rss, specs[j].name))
  }

  lemma OneMoreRouter(was: seq<RouterStatus>, now: seq<RouterStatus>, specs: seq<RouterSpec>, k: nat)
    requires k < |specs| && DistinctRouters(specs) && RoutersDone(was, specs, k)
    requires RouterProvisioned(specs[k], FindRouter(now, specs[k].name))
    requires forall q | q != specs[k].name :: FindRouter(now, q) == FindRouter(was, q)
    ensures RoutersDone(now, specs, k + 1)
  {
    forall j | 0 <= j < k ensures specs[j].name != specs[k].name {
    }
  }

  lemma RoutersAreProvisioned(s: State, f: Fates, specs: seq<RouterSpec>, k: nat, acc: Flow)
    requires Lawful(s.w) && k <= |specs| && DistinctRouters(specs) && (acc == Proceed ==> RoutersDone(s.st.routers, specs, k))
    ensures var e := RoutersFrom(s, f, specs, k, acc);
            Lawful(e.s.w) && (e.flow == Proceed ==> RoutersDone(e.s.st.routers, specs, |specs|))
    decreases |specs| - k
  {
    if k < |specs| {
      RouterIsProvisioned(s, f, specs[k]);
      var one := ReconcileRouter(s, f, specs[k]);
      if one.flow != Error {
        if Join(acc, one.flow) == Proceed { OneMoreRouter(s.st.routers, one.s.st.routers, specs, k); }
        RoutersAreProvisioned(one.s, f, specs, k + 1, Join(acc, one.flow));
      }
    }
  }

  // ------------------------------------------------- load balancer and floating IP

  lemma PartHasId(s: State, f: Fates, kind: Kind, parent: Id)
    requires Lawful(s.w) && IsPart(kind)
    ensures var e := ReconcilePart(s, f, kind, parent);
            && Lawful(e.s.w) && (e.flow == Proceed ==> PartId(e.s.st, kind) != NO_ID)
            && (forall k | IsPart(k) && k != kind :: PartId(e.s.st, k) == PartId(s.st, k))
  {
    ObtainedHasId(s, f, PartId(s.st, kind), kind, Owned, parent);
  }

  lemma LbHasId(s: State, f: Fates)
    requires Lawful(s.w)
    ensures var e := ReconcileLb(s, f); Lawful(e.s.w) && (e.flow == Proceed ==> e.s.st.lbId != NO_ID)
  {
    EnsureIsLawful(s, f, s.st.lbId, LoadBalancer, Owned);
    PartHasId(s, f, LoadBalancer, NO_ID);
  }

  lemma PartsHaveIds(s: State, f: Fates)
    requires Lawful(s.w)
    ensures var e := ReconcileParts(s, f);
            Lawful(e.s.w) && e.s.st.lbId == s.st.lbId && (e.flow == Proceed ==> e.s.st.poolId != NO_ID && e.s.st.listenerId != NO_ID)
  {
    PartHasId(s, f, Pool, s.st.lbId);
    var p := ReconcilePart(s, f, Pool, s.st.lbId);
    PartHasId(p.s, f, Listener, p.s.st.poolId);
    var l := ReconcilePart(p.s, f, Listener, p.s.st.poolId);
    PartHasId(l.s, f, Monitor, l.s.st.poolId);
    assert PartId(p.s.st, LoadBalancer) == PartId(s.st, LoadBalancer);
    assert PartId(l.s.st, LoadBalancer) == PartId(p.s.st, LoadBalancer) && PartId(l.s.st, Pool) == PartId(p.s.st, Pool);
    if p.flow == Proceed && l.flow == Proceed {
      var m := ReconcilePart(l.s, f, Monitor, l.s.st.poolId);
      assert PartId(m.s.st, LoadBalancer) == PartId(l.s.st, LoadBalancer);
      assert PartId(m.s.st, Pool) == PartId(l.s.st, Pool) && PartId(m.s.st, Listener) == PartId(l.s.st, Listener);
    }
  }

  ghost predicate LbSet(spec: Spec, st: Status) {
    LbEnabled(spec) ==> st.lbId != NO_ID && st.poolId != NO_ID && st.listenerId != NO_ID
  }

  lemma LoadBalancerHasIds(s: State, f: Fates, machines: seq<Machine>)
    requires Lawful(s.w) && DistinctMachines(machines)
    ensures var e := ReconcileLoadBalancer(s, f, machines); Lawful(e.s.w) && (e.flow == Proceed ==> LbSet(e.s.spec, e.s.st))
  {
    LoadBalancerIsLawful(s, f, machines);
    if LbEnabled(s.spec) {
      LbHasId(s, f);
      var lb := ReconcileLb(s, f);
      if lb.flow == Proceed { AfterLbHasIds(lb, f, machines); }
    }
  }

  lemma AfterLbHasIds(lb: Stage, f: Fates, machines: seq<Machine>)
    requires Lawful(lb.s.w) && lb.flow == Proceed && lb.s.st.lbId != NO_ID
    ensures var e := AfterLb(lb, f, machines); e.flow == Proceed ==> LbSet(e.s.spec, e.s.st)
  {
    TickIsLawful(lb.s, f);
    PartsHaveIds(Get(lb.s, f, LoadBalancer, lb.s.st.lbId).s, f);
  }

  lemma FloatingIpHasId(s: State, f: Fates, machines: seq<Machine>)
    requires Lawful(s.w)
    ensures var e := ReconcileFloatingIp(s, f, machines);
            Lawful(e.s.w) && (e.flow == Proceed && e.s.spec.fip.Some? ==> e.s.st.fip != NO_ID)
  {
    FloatingIpIsLawful(s, f, machines);
    if s.spec.fip.Some? && s.spec.fip.value.address == NO_ID { ManagedFipHasId(s, f, machines); }
  }

  lemma ManagedFipHasId(s: State, f: Fates, machines: seq<Machine>)
    requires Lawful(s.w)
    ensures var e := ManagedFip(s, f, machines); e.flow == Proceed ==> e.s.st.fip != NO_ID
  {
    EnsureIsLawful(s, f, s.st.fip, FloatingIp, Owned);
    var e := EnsureResource(s, f, s.st.fip, FloatingIp, Owned);
    if !e.err && e.id == NO_ID { CreatedFipHasId(SetFip(e.s, NO_ID), f, Target(s, machines)); }
  }

  lemma CreatedFipHasId(s: State, f: Fates, target: Id)
    requires Lawful(s.w)
    ensures var c := CreateFip(s, f, target); c.reply.Done? ==> c.reply.id != NO_ID
  {
    TickIsLawful(s, f);
  }

  // ------------------------------------------------------------------ whole passes

  /** What a pass finds: a sound cloud, and a status of the right shape. */
  ghost predicate Tidy(s: State) {
    Lawful(s.w) && Shaped(s)
  }

  lemma FlaggedIsKnown(ns: seq<NetworkStatus>, specs: seq<NetworkSpec>)
    requires NetworkFlags(specs, ns)
    ensures KnownNetworks(ns, specs)
  {
    forall a | FindNetwork(ns, a).Some? ensures Defined(a, specs) { FoundNetworkIn(ns, a); }
  }

  lemma FullListIsComplete(ns: seq<NetworkStatus>, specs: seq<NetworkSpec>)
    requires KeyedNetworks(ns) && KnownNetworks(ns, specs) && NetworksFull(ns, specs, |specs|)
    ensures forall n | n in ns :: n.networkId != NO_ID && n.subnetId != NO_ID
  {
    forall n | n in ns ensures n.networkId != NO_ID && n.subnetId != NO_ID {
      var k :| 0 <= k < |ns| && ns[k] == n;
      KeyedNetworksFound(ns, k);
      var m :| m in specs && m.name == n.name;
      var j :| 0 <= j < |specs| && specs[j] == m;
      assert Full(FindNetwork(ns, specs[j].name));
    }
  }

  lemma AllRoutersProvisioned(rss: seq<RouterStatus>, specs: seq<RouterSpec>)
    requires RoutersDone(rss, specs, |specs|)
    ensures forall r | r in specs :: RouterProvisioned(r, FindRouter(rss, r.name))
  {
    forall r | r in specs ensures RouterProvisioned(r, FindRouter(rss, r.name)) {
      var j :| 0 <= j < |specs| && specs[j] == r;
    }
  }

  /** What the four stages leave is all of Provisioned but the host. */
  ghost predicate Complete(spec: Spec, st: Status) {
    && st.networks != []
    && (forall n | n in st.networks :: n.networkId != NO_ID && n.subnetId != NO_ID)
    && (forall r | r in spec.routers :: RouterProvisioned(r, FindRouter(st.routers, r.name)))
  }

  lemma CompleteIsProvisioned(s: State, vip: Id)
    requires Complete(s.spec, s.st) && LbSet(s.spec, s.st) && (s.spec.fip.Some? ==> s.st.fip != NO_ID)
    ensures var t := Conclude(s, vip); t.st.provisioned <==> t.spec.host != NO_ID
  {
  }

  lemma AfterRoutersDecides(r: Stage, f: Fates, kube: Kube)
    requires Lawful(r.s.w) && DistinctMachines(kube.machines) && (r.flow == Proceed ==> Complete(r.s.spec, r.s.st))
    ensures var p := AfterRouters(r, f, kube);
            if p.through then p.s.st.provisioned <==> p.s.spec.host != NO_ID
            else p.s.st.provisioned == r.s.st.provisioned && p.s.spec == r.s.spec
  {
    if r.flow == Proceed {
      LoadBalancerHasIds(r.s, f, kube.machines);
      var lb := ReconcileLoadBalancer(r.s, f, kube.machines);
      if lb.flow == Proceed {
        FloatingIpHasId(lb.s, f, kube.machines);
        var p := ReconcileFloatingIp(lb.s, f, kube.machines);
        if p.flow == Proceed { CompleteIsProvisioned(p.s, lb.vip); }
      }
    }
  }

  lemma StagesComplete(s: State, f: Fates)
    requires Tidy(s) && s.spec.networks != []
    ensures var n := ReconcileNetworks(s, f);
            && Lawful(n.s.w)
            && (n.flow == Proceed ==>
                  var r := ReconcileRouters(n.s, f); Lawful(r.s.w) && (r.flow == Proceed ==> Complete(r.s.spec, r.s.st)))
  {
    FlaggedIsKnown(s.st.networks, s.spec.networks);
    NetworksAreFull(s, f, s.spec.networks, 0);
    NetworksStayKeyed(s, f, s.spec.networks, 0);
    var n := ReconcileNetworks(s, f);
    if n.flow == Proceed {
      FullListIsComplete(n.s.st.networks, s.spec.networks);
      assert Full(FindNetwork(n.s.st.networks, s.spec.networks[0].name));
      RoutersAreProvisioned(n.s, f, s.spec.routers, 0, Proceed);
      var r := ReconcileRouters(n.s, f);
      if r.flow == Proceed { AllRoutersProvisioned(r.s.st.routers, s.spec.routers); }
    }
  }

  /** A pass through all stages sets Provisioned exactly when there is a host; any other pass leaves it. */
  lemma PassDecidesProvisioned(s: State, f: Fates, kube: Kube)
    requires Tidy(s) && DistinctMachines(kube.machines)
    ensures var p := ReconcileNormal(s, f, kube);
            if p.through then p.s.st.provisioned <==> p.s.spec.host != NO_ID
            else p.s.st.provisioned == s.st.provisioned && p.s.spec == s.spec
  {
    if s.spec.networks != [] {
      StagesComplete(s, f);
      var n := ReconcileNetworks(s, f);
      if n.flow == Proceed { AfterRoutersDecides(ReconcileRouters(n.s, f), f, kube); }
    }
  }

  // ------------------------------------------------------------------- whole runs

  lemma NormalPassKeepsHost(s: State, f: Fates, kube: Kube)
    requires s.spec.host != NO_ID
    ensures ReconcileNormal(s, f, kube).s.spec == s.spec
  {
    var n := ReconcileNetworks(s, f);
    var r := ReconcileRouters(n.s, f);
    AfterRoutersKeepsHost(r, f, kube);
  }

  lemma AfterRoutersKeepsHost(r: Stage, f: Fates, kube: Kube)
    requires r.s.spec.host != NO_ID
    ensures AfterRouters(r, f, kube).s.spec == r.s.spec
  {
  }

  lemma DeletePassKeepsProvisioned(s: State, f: Fates, kube: Kube)
    ensures var t := ReconcileDelete(s, f, kube).s; t.st.provisioned == s.st.provisioned && t.spec == s.spec
  {
    var p := DeleteFloatingIp(s, f);
    var lb := DeleteLoadBalancer(p.s, f);
    var g := DeleteServerGroups(lb.s, f, kube.machines);
    var r := DeleteRouters(g.s, f);
  }

  ghost predicate Promise(s: State) {
    Tidy(s) && (s.st.provisioned ==> s.spec.host != NO_ID)
  }

  lemma PassKeepsPromise(s: State, f: Fates, kube: Kube)
    requires Promise(s) && DistinctMachines(kube.machines)
    ensures var t := Reconcile(s, f, kube);
            (t.st.provisioned ==> t.spec.host != NO_ID) &&
            (s.st.provisioned ==> t.st.provisioned && t.spec.host == s.spec.host)
  {
    var u := s.(clock := 0);
    if !s.deleting {
      PassDecidesProvisioned(u.(finalizer := true), f, kube);
      if s.st.provisioned { NormalPassKeepsHost(u.(finalizer := true), f, kube); }
    } else {
      DeletePassKeepsProvisioned(u, f, kube);
    }
  }

  /** Once true, Provisioned stays true and the host stays what it is. */
  lemma StepKeepsPromise(env: Env, s: State, e: Event)
    requires Promise(s) && ProperEvent(e)
    ensures var t := Step(env, s, e); Promise(t) && (s.st.provisioned ==> t.st.provisioned && t.spec.host == s.spec.host)
  {
    StepKeepsShape(env, s, e);
    StepIsLawful(env, s, e);
    if e.Wake? { PassKeepsPromise(s, e.f, e.kube); }
  }

  lemma CreatedKeepsPromise(env: Env, s: State)
    requires Created(env, s)
    ensures Promise(s)
  {
    CreatedIsSafe(env, s);
  }

  lemma {:induction false} RunKeepsPromise(env: Env, trace: seq<State>, es: seq<Event>, k: nat)
    requires IsRun(env, trace, es) && ProperRun(es) && k <= |es|
    ensures Promise(trace[k])
    decreases k
  {
    if k == 0 {
      CreatedKeepsPromise(env, trace[0]);
    } else {
      RunKeepsPromise(env, trace, es, k - 1);
      StepKeepsPromise(env, trace[k - 1], es[k - 1]);
      assert Follows(env, trace[k - 1], es[k - 1], trace[k - 1 + 1]);
    }
  }

  /** Provisioned, once true at some point of a run, is true at every later point, with the same host. */
  lemma {:induction false} ProvisionedIsMonotone(env: Env, trace: seq<State>, es: seq<Event>, j: nat, k: nat)
    requires IsRun(env, trace, es) && ProperRun(es) && j <= k <= |es| && trace[j].st.provisioned
    ensures trace[k].st.provisioned && trace[k].spec.host == trace[j].spec.host != NO_ID
    decreases k
  {
    if j == k {
      RunKeepsPromise(env, trace, es, j);
    } else {
      ProvisionedIsMonotone(env, trace, es, j, k - 1);
      RunKeepsPromise(env, trace, es, k - 1);
      StepKeepsPromise(env, trace[k - 1], es[k - 1]);
      assert Follows(env, trace[k - 1], es[k - 1], trace[k - 1 + 1]);
    }
  }
}
