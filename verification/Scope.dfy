/**
 The reconcilers in the form they are written in: an object whose status lists are edited in
 place, loops over spec and status, early exits. Every method is proved to do to the object what
 the function of the same stage does to the state.
 */
module Scope {
  import opened Types
  import opened Cloud
  import opened Ensure
  import opened Ip
  import opened Networks
  import opened Routers
  import opened LoadBalancer
  import opened FloatingIps
  import opened ServerGroups
  import opened Controller
  import opened Members
  import opened AtMostOne

  // ---------------------------------------------------------------- list updates

  lemma {:induction false} PutNetworkAt(ns: seq<NetworkStatus>, n: NetworkStatus, i: nat)
    requires i <= |ns| && (forall j | 0 <= j < i :: ns[j].name != n.name) && (i < |ns| ==> ns[i].name == n.name)
    ensures PutNetwork(ns, n) == if i < |ns| then ns[i := n] else ns + [n]
  {
    if ns != [] && i > 0 {
      PutNetworkAt(ns[1..], n, i - 1);
    }
  }

  lemma {:induction false} PutRouterAt(rs: seq<RouterStatus>, name: Name, id: Id, managed: bool, i: nat)
    requires i <= |rs| && (forall j | 0 <= j < i :: rs[j].name != name) && (i < |rs| ==> rs[i].name == name)
    ensures PutRouter(rs, name, id, managed) ==
            if i < |rs| then rs[i := rs[i].(routerId := id, managed := managed)] else rs + [RouterStatus(name, id, managed, [])]
  {
    if rs != [] && i > 0 {
      var rest := rs[1..];
      PutRouterAt(rest, name, id, managed, i - 1);
      if i < |rs| {
        var q := rs[i].(routerId := id, managed := managed);
        assert [rs[0]] + rest[i - 1 := q] == rs[i := q];
      } else {
        assert [rs[0]] + (rest + [RouterStatus(name, id, managed, [])]) == rs + [RouterStatus(name, id, managed, [])];
      }
    }
  }

  lemma {:induction false} FindRouterAt(rs: seq<RouterStatus>, name: Name, es: seq<InterfaceStatus>, i: nat)
    requires i <= |rs| && (forall j | 0 <= j < i :: rs[j].name != name) && (i < |rs| ==> rs[i].name == name)
    ensures FindRouter(rs, name) == if i < |rs| then Some(rs[i]) else None
    ensures i < |rs| ==> WithInterfaces(rs, name, es) == rs[i := rs[i].(interfaces := es)]
  {
    if rs != [] && i > 0 {
      var rest := rs[1..];
      FindRouterAt(rest, name, es, i - 1);
      if i < |rs| {
        var q := rs[i].(interfaces := es);
        assert [rs[0]] + rest[i - 1 := q] == rs[i := q];
      }
    }
  }

  lemma {:induction false} PutInterfaceAt(es: seq<InterfaceStatus>, e: InterfaceStatus, i: nat)
    requires i <= |es| && (forall j | 0 <= j < i :: es[j].network != e.network) && (i < |es| ==> es[i].network == e.network)
    ensures PutInterface(es, e) == if i < |es| then es[i := e] else es + [e]
  {
    if es != [] && i > 0 {
      PutInterfaceAt(es[1..], e, i - 1);
    }
  }

  /** setRouterInterfaceStatus on the entry's list: overwrite or append. */
  method UpsertInterface(es: seq<InterfaceStatus>, e: InterfaceStatus) returns (r: seq<InterfaceStatus>)
    ensures r == PutInterface(es, e)
  {
    for i := 0 to |es|
      invariant forall j | 0 <= j < i :: es[j].network != e.network
    {
      if es[i].network == e.network {
        PutInterfaceAt(es, e, i);
        return es[i := e];
      }
    }
    PutInterfaceAt(es, e, |es|);
    return es + [e];
  }

  // ------------------------------------------------------------------ live indexes

  /** A router attaches to a network at most once. */
  ghost predicate OnePerNetwork(live: map<Id, Id>) {
    forall i, j | i in live && j in live && live[i] == live[j] :: i == j
  }

  ghost predicate Inverts(byNetwork: map<Id, Id>, live: map<Id, Id>) {
    && (forall i | i in live :: live[i] in byNetwork && byNetwork[live[i]] == i)
    && (forall n | n in byNetwork :: byNetwork[n] in live && live[byNetwork[n]] == n)
  }

  /** liveByNetwork, filled in a loop over the router's interfaces. */
  method IndexByNetwork(live: map<Id, Id>) returns (byNetwork: map<Id, Id>)
    requires OnePerNetwork(live)
    ensures Inverts(byNetwork, live)
  {
    byNetwork := map[];
    var todo := live.Keys;
    while todo != {}
      invariant todo <= live.Keys
      invariant forall i | i in live && i !in todo :: live[i] in byNetwork && byNetwork[live[i]] == i
      invariant forall n | n in byNetwork :: byNetwork[n] in live && byNetwork[n] !in todo && live[byNetwork[n]] == n
      decreases |todo|
    {
      var i :| i in todo;
      byNetwork := byNetwork[live[i] := i];
      todo := todo - {i};
    }
  }

  lemma IndexAgrees(byNetwork: map<Id, Id>, live: map<Id, Id>, network: Id)
    requires OnePerNetwork(live) && Inverts(byNetwork, live)
    ensures network in byNetwork <==> exists i :: i in live && live[i] == network
    ensures network in byNetwork ==> LiveOn(live, network) == byNetwork[network]
  {
    if network in byNetwork {
      assert byNetwork[network] in live && live[byNetwork[network]] == network;
    }
  }

  lemma LawfulLive(w: World, router: Id)
    requires Lawful(w)
    ensures OnePerNetwork(Interfaces(w, router)) && NO_ID !in Interfaces(w, router)
    ensures forall i | i in Interfaces(w, router) :: Interfaces(w, router)[i] != NO_ID
  {
  }

  lemma InterfacesUnfold(s: State, f: Fates, r: RouterSpec, id: Id, live: map<Id, Id>, i: nat)
    requires i < |r.interfaces|
    ensures var one := ReconcileInterface(s, f, r, id, live, r.interfaces[i]);
            InterfacesFrom(s, f, r, id, live, i) ==
            if one.flow == Proceed then InterfacesFrom(one.s, f, r, id, live, i + 1) else one
  {
  }

  class ClusterScope {
    var cloud: World
    var status: Status
    var spec: Spec
    var clock: nat
    var finalizer: bool
    var deleting: bool

    function Now(): State
      reads this
    {
      State(cloud, status, spec, clock, finalizer, deleting)
    }

    /** What the API guarantees and every pass keeps. */
    ghost predicate Valid()
      reads this
    {
      Lawful(cloud)
    }

    constructor (w: World, wish: Spec)
      ensures Now() == State(w, EMPTY_STATUS, wish, 0, false, false)
    {
      cloud, status, spec, clock, finalizer, deleting := w, EMPTY_STATUS, wish, 0, false, false;
    }

    // ------------------------------------------------------------------ API calls

    method GetResource(f: Fates, kind: Kind, id: Id) returns (reply: Reply)
      modifies `cloud, `clock
      ensures var c := Get(old(Now()), f, kind, id); Now() == c.s && reply == c.reply
    {
      var c := Get(Now(), f, kind, id);
      cloud, clock, reply := c.s.w, c.s.clock, c.reply;
    }

    method DeleteResource(f: Fates, kind: Kind, id: Id) returns (reply: Reply)
      modifies `cloud, `clock
      ensures var c := Delete(old(Now()), f, kind, id); Now() == c.s && reply == c.reply
    {
      var c := Delete(Now(), f, kind, id);
      cloud, clock, reply := c.s.w, c.s.clock, c.reply;
    }

    method AttachRouter(f: Fates, router: Id, network: Id) returns (reply: Reply)
      modifies `cloud, `clock
      ensures var c := CreateInterface(old(Now()), f, router, network); Now() == c.s && reply == c.reply
    {
      var c := CreateInterface(Now(), f, router, network);
      cloud, clock, reply := c.s.w, c.s.clock, c.reply;
    }

    method DetachRouter(f: Fates, router: Id, iface: Id) returns (reply: Reply)
      modifies `cloud, `clock
      ensures var c := DeleteInterface(old(Now()), f, router, iface); Now() == c.s && reply == c.reply
    {
      var c := DeleteInterface(Now(), f, router, iface);
      cloud, clock, reply := c.s.w, c.s.clock, c.reply;
    }

    /** Creates the resource unless ensureResource handed one out or failed. */
    method CreateIfMissing(e: Ensured, f: Fates, kind: Kind, tag: Tag, parent: Id) returns (id: Id, flow: Flow, looked: bool)
      requires Now() == e.s
      modifies `cloud, `clock
      ensures var o := CreateMissing(e, f, kind, tag, parent);
              Now() == o.s && id == o.id && flow == o.flow && looked == o.looked
    {
      if e.err { return NO_ID, Error, false; }
      if e.id != NO_ID { return e.id, Proceed, true; }
      var c := Create(Now(), f, kind, tag, parent);
      cloud, clock := c.s.w, c.s.clock;
      match c.reply
      case Done(made) => return made, Proceed, true;
      case TimedOut => return NO_ID, Stalled, true;
      case _ => return NO_ID, Error, true;
    }

    /** Get by id, adopt by tag, or create: the common part of every managed resource. */
    method ObtainResource(f: Fates, current: Id, kind: Kind, tag: Tag, parent: Id) returns (id: Id, flow: Flow, looked: bool)
      modifies `cloud, `clock
      ensures var o := Obtain(old(Now()), f, current, kind, tag, parent);
              Now() == o.s && id == o.id && flow == o.flow && looked == o.looked
    {
      var e := EnsureResource(Now(), f, current, kind, tag);
      cloud, clock := e.s.w, e.s.clock;
      id, flow, looked := CreateIfMissing(e, f, kind, tag, parent);
    }

    // ------------------------------------------------------------------- networks

    method SetNetworkStatus(n: NetworkStatus)
      modifies `status
      ensures Now() == SetNetwork(old(Now()), n)
    {
      var ns := status.networks;
      for i := 0 to |ns|
        invariant status == old(status)
        invariant forall j | 0 <= j < i :: ns[j].name != n.name
      {
        if ns[i].name == n.name {
          PutNetworkAt(ns, n, i);
          status := status.(networks := ns[i := n]);
          return;
        }
      }
      PutNetworkAt(ns, n, |ns|);
      status := status.(networks := ns + [n]);
    }

    method ReconcilePreExistingNetwork(f: Fates, n: NetworkSpec) returns (flow: Flow)
      modifies `cloud, `clock, `status
      ensures var e := PreExistingNetwork(old(Now()), f, n); Now() == e.s && flow == e.flow
    {
      var entry := FindNetwork(status.networks, n.name);
      if entry.Some? && entry.value.networkId != NO_ID && entry.value.subnetId != NO_ID && entry.value.cidr.Some? {
        return Proceed;
      }
      var fate := f(clock);
      var reply := GetResource(f, Network, n.uuid);
      if !reply.Done? || !fate.inZone { return Error; }
      if !(IsKind(cloud.res, fate.value, Subnet) && cloud.res[fate.value].parent == n.uuid && fate.value != NO_ID) {
        return Error;
      }
      SetNetworkStatus(NetworkStatus(n.name, n.uuid, fate.value, Some(fate.cidr), false));
      return Proceed;
    }

    method ReconcileManagedNetwork(f: Fates, n: NetworkSpec) returns (flow: Flow)
      modifies `cloud, `clock, `status
      ensures var e := ManagedNetwork(old(Now()), f, n); Now() == e.s && flow == e.flow
    {
      var entry := FindNetwork(status.networks, n.name);
      var networkId := if entry.Some? then entry.value.networkId else NO_ID;
      var subnetId := if entry.Some? then entry.value.subnetId else NO_ID;
      var net, netFlow, _ := ObtainResource(f, networkId, Network, Named(n.name), NO_ID);
      if netFlow != Proceed { return netFlow; }
      var sub, subFlow, _ := ObtainResource(f, subnetId, Subnet, Named(n.name), net);
      if subFlow != Proceed { return subFlow; }
      SetNetworkStatus(NetworkStatus(n.name, net, sub, n.cidr, true));
      return Proceed;
    }

    method ReconcileNetworkStage(f: Fates) returns (flow: Flow)
      modifies `cloud, `clock, `status
      ensures var e := ReconcileNetworks(old(Now()), f); Now() == e.s && flow == e.flow
    {
      var specs := spec.networks;
      if specs == [] { return Error; }
      for i := 0 to |specs|
        invariant NetworksFrom(Now(), f, specs, i) == NetworksFrom(old(Now()), f, specs, 0)
      {
        if specs[i].uuid != NO_ID {
          flow := ReconcilePreExistingNetwork(f, specs[i]);
        } else {
          flow := ReconcileManagedNetwork(f, specs[i]);
        }
        if flow != Proceed { return; }
      }
      return Proceed;
    }

    /** The list is replaced at the end, except when the API refuses because of pool members. */
    method DeleteNetworkStage(f: Fates) returns (flow: Flow)
      modifies `cloud, `clock, `status
      ensures var e := DeleteNetworks(old(Now()), f); Now() == e.s && flow == e.flow
    {
      var ns, remaining, err := status.networks, [], false;
      for i := 0 to |ns|
        invariant DeleteNetworksFrom(Now(), f, ns, i, remaining, err) == DeleteNetworks(old(Now()), f)
      {
        if !ns[i].managed {
          remaining := remaining + [ns[i]];
        } else if ns[i].networkId != NO_ID {
          var reply := DeleteResource(f, Network, ns[i].networkId);
          if reply.Refused? { return Requeue; }
          if !(reply.Done? || reply.Missing?) {
            remaining, err := remaining + [ns[i]], true;
          }
        }
      }
      status := status.(networks := remaining);
      return if err then Error else Proceed;
    }

    // -------------------------------------------------------------------- routers

    method SetRouterStatus(r: RouterSpec, id: Id)
      modifies `status
      ensures Now() == SetRouter(old(Now()), r, id)
    {
      var rs, managed := status.routers, r.uuid == NO_ID;
      for i := 0 to |rs|
        invariant status == old(status)
        invariant forall j | 0 <= j < i :: rs[j].name != r.name
      {
        if rs[i].name == r.name {
          PutRouterAt(rs, r.name, id, managed, i);
          status := status.(routers := rs[i := rs[i].(routerId := id, managed := managed)]);
          return;
        }
      }
      PutRouterAt(rs, r.name, id, managed, |rs|);
      status := status.(routers := rs + [RouterStatus(r.name, id, managed, [])]);
    }

    method SetRouterInterfaceStatus(router: Name, e: InterfaceStatus)
      modifies `status
      ensures Now() == SetInterface(old(Now()), router, e)
    {
      var rs := status.routers;
      for i := 0 to |rs|
        invariant status == old(status)
        invariant forall j | 0 <= j < i :: rs[j].name != router
      {
        if rs[i].name == router {
          var es := UpsertInterface(rs[i].interfaces, e);
          FindRouterAt(rs, router, es, i);
          status := status.(routers := rs[i := rs[i].(interfaces := es)]);
          return;
        }
      }
      FindRouterAt(rs, router, [], |rs|);
    }

    /** One interface of the spec: adopt, claim or create. */
    method ReconcileRouterInterface(f: Fates, r: RouterSpec, id: Id, live: map<Id, Id>, byNetwork: map<Id, Id>, e: InterfaceSpec)
      returns (flow: Flow)
      requires OnePerNetwork(live) && Inverts(byNetwork, live)
      modifies `cloud, `clock, `status
      ensures var t := ReconcileInterface(old(Now()), f, r, id, live, e); Now() == t.s && flow == t.flow
    {
      var n := FindNetwork(status.networks, e.network);
      if n.None? { return Error; }
      IndexAgrees(byNetwork, live, n.value.networkId);
      if e.uuid != NO_ID {
        if !(e.uuid in live) || live[e.uuid] != n.value.networkId { return Error; }
        SetRouterInterfaceStatus(r.name, InterfaceStatus(e.network, e.uuid, false));
        return Proceed;
      }
      if n.value.networkId in byNetwork {
        var rs := FindRouter(status.routers, r.name);
        if rs.None? || (FindInterface(rs.value.interfaces, e.network).None? && !rs.value.managed) { return Error; }
        SetRouterInterfaceStatus(r.name, InterfaceStatus(e.network, byNetwork[n.value.networkId], true));
        return Proceed;
      }
      SetRouterInterfaceStatus(r.name, InterfaceStatus(e.network, NO_ID, true));
      var reply := AttachRouter(f, id, n.value.networkId);
      match reply
      case Done(iface) =>
        SetRouterInterfaceStatus(r.name, InterfaceStatus(e.network, iface, true));
        return Proceed;
      case TimedOut => return Stalled;
      case _ => return Error;
    }

    method ReconcileRouterInterfaces(f: Fates, r: RouterSpec, id: Id, live: map<Id, Id>) returns (flow: Flow)
      requires OnePerNetwork(live)
      modifies `cloud, `clock, `status
      ensures var t := InterfacesFrom(old(Now()), f, r, id, live, 0); Now() == t.s && flow == t.flow
    {
      var byNetwork := IndexByNetwork(live);
      ghost var whole := InterfacesFrom(Now(), f, r, id, live, 0);
      for i := 0 to |r.interfaces|
        invariant InterfacesFrom(Now(), f, r, id, live, i) == whole
      {
        InterfacesUnfold(Now(), f, r, id, live, i);
        flow := ReconcileRouterInterface(f, r, id, live, byNetwork, r.interfaces[i]);
        if flow != Proceed { return; }
      }
      return Proceed;
    }

    method ReconcileOneRouter(f: Fates, r: RouterSpec) returns (flow: Flow)
      requires Valid()
      modifies `cloud, `clock, `status
      ensures Valid()
      ensures var t := ReconcileRouter(old(Now()), f, r); Now() == t.s && flow == t.flow
    {
      RouterIsLawful(Now(), f, r);
      var id := r.uuid;
      if r.uuid != NO_ID {
        TickIsLawful(Now(), f);
        var inZone := f(clock).inZone;
        var reply := GetResource(f, Router, r.uuid);
        if !reply.Done? || !inZone { return Error; }
      } else {
        var current := RouterIdOf(status.routers, r.name);
        ObtainIsLawful(Now(), f, current, Router, Named(r.name), NO_ID);
        var found, obtained, _ := ObtainResource(f, current, Router, Named(r.name), NO_ID);
        if obtained != Proceed { return obtained; }
        id := found;
      }
      var active, live := Last(Now(), f).active, Interfaces(cloud, id);
      LawfulLive(cloud, id);
      SetRouterStatus(r, id);
      if !active { return Requeue; }
      flow := ReconcileRouterInterfaces(f, r, id, live);
    }

    /** All routers in one call; an error ends it, anything else is joined. */
    method ReconcileRouterStage(f: Fates) returns (flow: Flow)
      requires Valid()
      modifies `cloud, `clock, `status
      ensures Valid()
      ensures var e := ReconcileRouters(old(Now()), f); Now() == e.s && flow == e.flow
    {
      var specs := spec.routers;
      flow := Proceed;
      for i := 0 to |specs|
        invariant Valid()
        invariant RoutersFrom(Now(), f, specs, i, flow) == ReconcileRouters(old(Now()), f)
      {
        var one := ReconcileOneRouter(f, specs[i]);
        if one == Error { return Error; }
        flow := Join(flow, one);
      }
    }

    /** One interface entry: nothing of it is left, or the entry for the next attempt. */
    method DetachEntry(f: Fates, router: Id, live: map<Id, Id>, byNetwork: map<Id, Id>, e: InterfaceStatus)
      returns (kept: seq<InterfaceStatus>, err: bool)
      requires OnePerNetwork(live) && Inverts(byNetwork, live)
      modifies `cloud, `clock
      ensures var d := DetachOne(old(Now()), f, router, live, e); Now() == d.s && kept == d.kept && err == d.err
    {
      if !e.managed { return [e], false; }
      var network := NetworkIdOf(status.networks, e.network);
      IndexAgrees(byNetwork, live, network);
      var id := if e.interfaceId != NO_ID then e.interfaceId else if network in byNetwork then byNetwork[network] else NO_ID;
      if id !in live { return [], false; }
      var answer := DetachRouter(f, router, id);
      if answer.Done? || answer.Missing? { return [], false; }
      return [e.(interfaceId := id)], true;
    }

    /** Detaches what CAPCS created on the router and returns the entries that are left. */
    method DeleteRouterInterfaces(f: Fates, rs: RouterStatus) returns (kept: seq<InterfaceStatus>, err: bool)
      requires Valid()
      modifies `cloud, `clock
      ensures var d := DeleteInterfaces(old(Now()), f, rs); Now() == d.s && kept == d.kept && err == d.err
    {
      if !HasManaged(rs.interfaces) { return rs.interfaces, false; }
      TickIsLawful(Now(), f);
      var reply := GetResource(f, Router, rs.routerId);
      if reply.Missing? { return [], false; }
      if !reply.Done? { return rs.interfaces, true; }
      LawfulLive(cloud, rs.routerId);
      kept, err := DetachEntries(f, rs, Interfaces(cloud, rs.routerId));
    }

    method DetachEntries(f: Fates, rs: RouterStatus, live: map<Id, Id>) returns (kept: seq<InterfaceStatus>, err: bool)
      requires OnePerNetwork(live)
      modifies `cloud, `clock
      ensures var d := DetachFrom(old(Now()), f, rs, live, 0, [], false); Now() == d.s && kept == d.kept && err == d.err
    {
      var byNetwork := IndexByNetwork(live);
      kept, err := [], false;
      for i := 0 to |rs.interfaces|
        invariant DetachFrom(Now(), f, rs, live, i, kept, err) == DetachFrom(old(Now()), f, rs, live, 0, [], false)
      {
        var more, failed := DetachEntry(f, rs.routerId, live, byNetwork, rs.interfaces[i]);
        kept, err := kept + more, err || failed;
      }
    }

    /** One router entry: interfaces first, then the router itself if it is CAPCS's. */
    method DeleteRouterEntry(f: Fates, rs: RouterStatus) returns (kept: seq<RouterStatus>, err: bool)
      requires Valid()
      modifies `cloud, `clock
      ensures var d := DeleteRouter(old(Now()), f, rs); Now() == d.s && kept == d.kept && err == d.err
    {
      if rs.routerId == NO_ID { return [], false; }
      var interfaces, failed := DeleteRouterInterfaces(f, rs);
      var pruned := rs.(interfaces := interfaces);
      if failed { return [pruned], true; }
      if !rs.managed { return [pruned], false; }
      var reply := DeleteResource(f, Router, rs.routerId);
      if reply.Done? || reply.Missing? { return [], false; }
      return [pruned], true;
    }

    method DeleteRouterStage(f: Fates) returns (flow: Flow)
      requires Valid()
      modifies `cloud, `clock, `status
      ensures Valid()
      ensures var e := DeleteRouters(old(Now()), f); Now() == e.s && flow == e.flow
    {
      var rss, remaining, err := status.routers, [], false;
      for i := 0 to |rss|
        invariant Valid()
        invariant DeleteRoutersFrom(Now(), f, rss, i, remaining, err) == DeleteRouters(old(Now()), f)
      {
        DeleteRouterIsLawful(Now(), f, rss[i]);
        var kept, failed := DeleteRouterEntry(f, rss[i]);
        remaining, err := remaining + kept, err || failed;
      }
      status := status.(routers := remaining);
      return if err then Error else Proceed;
    }

    // -------------------------------------------------------------- load balancer

    method ReconcileLbPart(f: Fates, kind: Kind, parent: Id) returns (flow: Flow)
      requires IsPart(kind)
      modifies `cloud, `clock, `status
      ensures var e := ReconcilePart(old(Now()), f, kind, parent); Now() == e.s && flow == e.flow
    {
      var id, obtained, looked := ObtainResource(f, PartId(status, kind), kind, Owned, parent);
      if looked {
        match kind
        case LoadBalancer => status := status.(lbId := id);
        case Pool => status := status.(poolId := id);
        case Listener => status := status.(listenerId := id);
        case Monitor => status := status.(monitorId := id);
      }
      return obtained;
    }

    method ReconcileLbParts(f: Fates) returns (flow: Flow)
      modifies `cloud, `clock, `status
      ensures var e := ReconcileParts(old(Now()), f); Now() == e.s && flow == e.flow
    {
      flow := ReconcileLbPart(f, Pool, status.lbId);
      if flow != Proceed { return; }
      flow := ReconcileLbPart(f, Listener, status.poolId);
      if flow != Proceed { return; }
      flow := ReconcileLbPart(f, Monitor, status.poolId);
    }

    /** Create what is missing, fix changed addresses, delete the rest. */
    method ReconcileLbMembers(f: Fates, machines: seq<Machine>) returns (flow: Flow)
      modifies `cloud, `clock, `status
      ensures var e := ReconcileMembers(old(Now()), f, machines); Now() == e.s && flow == e.flow
    {
      var l := ListMembers(Now(), f);
      cloud, clock := l.s.w, l.s.clock;
      if !l.ok { return Error; }
      var want := GetDesiredMembers(spec, status.networks, machines);
      if want.None? { return Error; }
      var currentByName := IndexMembers(l.members);
      var desiredNames := WantedNameSet(want.value);
      flow := UpsertMembers(f, l.members, currentByName, want.value);
      if flow != Proceed { return; }
      flow := PruneMembers(f, l.members, want.value, desiredNames);
    }

    method UpsertMembers(f: Fates, current: seq<Member>, byName: map<Name, Member>, want: seq<Wanted>) returns (flow: Flow)
      requires IndexesMembers(byName, current)
      modifies `cloud, `clock, `status
      ensures var e := UpsertFrom(old(Now()), f, current, want, 0); Now() == e.s && flow == e.flow
    {
      for i := 0 to |want|
        invariant UpsertFrom(Now(), f, current, want, i) == UpsertFrom(old(Now()), f, current, want, 0)
      {
        var w := want[i];
        if w.name !in byName {
          var c := CreateMember(Now(), f, w);
          cloud, clock := c.s.w, c.s.clock;
          if c.reply.TimedOut? { return Stalled; }
          if !c.reply.Done? { return Error; }
          status := status.(memberIds := status.memberIds + [c.reply.id]);
        } else if byName[w.name].address != w.address {
          var c := UpdateMember(Now(), f, byName[w.name].id, w.address);
          cloud, clock := c.s.w, c.s.clock;
          if !c.reply.Done? { return Error; }
        }
      }
      return Proceed;
    }

    method PruneMembers(f: Fates, current: seq<Member>, want: seq<Wanted>, names: set<Name>) returns (flow: Flow)
      requires forall x :: x in names <==> IsWanted(want, x)
      modifies `cloud, `clock, `status
      ensures var e := PruneFrom(old(Now()), f, current, want, 0); Now() == e.s && flow == e.flow
    {
      for i := 0 to |current|
        invariant PruneFrom(Now(), f, current, want, i) == PruneFrom(old(Now()), f, current, want, 0)
      {
        if current[i].name !in names {
          var c := DeleteMember(Now(), f, current[i].id);
          cloud, clock := c.s.w, c.s.clock;
          if !c.reply.Done? { return Error; }
          status := status.(memberIds := DropId(status.memberIds, current[i].id));
        }
      }
      return Proceed;
    }

    method ReconcileLoadBalancerStage(f: Fates, machines: seq<Machine>) returns (flow: Flow, vip: Id, ready: bool)
      modifies `cloud, `clock, `status
      ensures var e := ReconcileLoadBalancer(old(Now()), f, machines);
              Now() == e.s && flow == e.flow && vip == e.vip && ready == e.ready
    {
      if !LbEnabled(spec) { return Proceed, NO_ID, true; }
      var e := EnsureResource(Now(), f, status.lbId, LoadBalancer, Owned);
      if !e.err && e.id == NO_ID && !VipReady(Now()) {
        cloud, clock, status := e.s.w, e.s.clock, status.(lbId := NO_ID);
        return Error, NO_ID, false;
      }
      flow := ReconcileLbPart(f, LoadBalancer, NO_ID);
      if flow != Proceed { return flow, NO_ID, false; }
      var fate := f(clock);
      var reply := GetResource(f, LoadBalancer, status.lbId);
      if !reply.Done? { return Error, NO_ID, false; }
      if fate.lbState == Changing { return Requeue, NO_ID, false; }
      flow := ReconcileLbParts(f);
      if flow != Proceed { return flow, NO_ID, false; }
      flow := ReconcileLbMembers(f, machines);
      if flow != Proceed { return flow, NO_ID, false; }
      return Proceed, fate.value, fate.lbState == Running;
    }

    // ------------------------------------------------------------------- teardown

    method DeleteLoadBalancerStage(f: Fates) returns (flow: Flow)
      modifies `cloud, `clock, `status
      ensures var e := DeleteLoadBalancer(old(Now()), f); Now() == e.s && flow == e.flow
    {
      if !LbEnabled(spec) { return Proceed; }
      if status.lbId != NO_ID {
        var reply := DeleteResource(f, LoadBalancer, status.lbId);
        if !(reply.Done? || reply.Missing?) { return Error; }
      }
      status := status.(lbId := NO_ID, poolId := NO_ID, listenerId := NO_ID, monitorId := NO_ID, memberIds := []);
      return Proceed;
    }

    method DeleteFloatingIpStage(f: Fates) returns (flow: Flow)
      modifies `cloud, `clock, `status
      ensures var e := DeleteFloatingIp(old(Now()), f); Now() == e.s && flow == e.flow
    {
      if spec.fip.None? || spec.fip.value.address != NO_ID || status.fip == NO_ID { return Proceed; }
      var reply := DeleteResource(f, FloatingIp, status.fip);
      if !(reply.Done? || reply.Missing?) { return Error; }
      status := status.(fip := NO_ID);
      return Proceed;
    }

    /** Groups that hold one of the cluster's servers stop the loop, groups with foreign servers are skipped. */
    method DeleteServerGroupStage(f: Fates, machines: seq<Machine>) returns (flow: Flow)
      modifies `cloud, `clock
      ensures var e := DeleteServerGroups(old(Now()), f, machines); Now() == e.s && flow == e.flow
    {
      var ok := f(clock).outcome.Ok?;
      var t := Tick(Now(), f);
      cloud, clock := t.w, t.clock;
      if !ok { return Error; }
      var owned := GetOwnedServerIds(machines);
      ok := f(clock).outcome.Ok?;
      t := Tick(Now(), f);
      cloud, clock := t.w, t.clock;
      if !ok { return Error; }
      var groups := OwnedGroups(cloud.groups);
      for i := 0 to |groups|
        invariant DeleteGroupsFrom(Now(), f, owned, groups, i) == DeleteServerGroups(old(Now()), f, machines)
      {
        var mine, foreign := ClassifyServers(groups[i], owned);
        if mine { return Requeue; }
        if !foreign {
          var c := DeleteGroup(Now(), f, groups[i].id);
          cloud, clock := c.s.w, c.s.clock;
          if !(c.reply.Done? || c.reply.Missing?) { return Error; }
        }
      }
      return Proceed;
    }

    // ----------------------------------------------------------------- controller

    method AssignFloatingIp(f: Fates, machines: seq<Machine>) returns (flow: Flow)
      modifies `cloud, `clock
      ensures var e := Assign(old(Now()), f, machines); Now() == e.s && flow == e.flow
    {
      var target := FindTarget(Now(), machines);
      if target == NO_ID || (status.fip in cloud.serves && cloud.serves[status.fip] == target) { return Proceed; }
      var outcome := f(clock).outcome;
      var t := Tick(Now(), f);
      cloud, clock := t.w, t.clock;
      if Lands(outcome) { cloud := cloud.(serves := cloud.serves[status.fip := target]); }
      return if outcome.Ok? then Proceed else Error;
    }

    method ReconcileManagedFloatingIp(f: Fates, machines: seq<Machine>) returns (flow: Flow)
      modifies `cloud, `clock, `status
      ensures var e := ManagedFip(old(Now()), f, machines); Now() == e.s && flow == e.flow
    {
      var target := FindTarget(Now(), machines);
      var id, err := FindFloatingIp(f);
      if err { return Error; }
      status := status.(fip := id);
      if id != NO_ID {
        flow := AssignFloatingIp(f, machines);
        return;
      }
      var reply := CreateFloatingIp(f, target);
      match reply
      case Done(made) =>
        status := status.(fip := made);
        return Proceed;
      case TimedOut => return Stalled;
      case _ => return Error;
    }

    method FindFloatingIp(f: Fates) returns (id: Id, err: bool)
      modifies `cloud, `clock
      ensures var e := EnsureResource(old(Now()), f, old(status.fip), FloatingIp, Owned); Now() == e.s && id == e.id && err == e.err
    {
      var e := EnsureResource(Now(), f, status.fip, FloatingIp, Owned);
      cloud, clock, id, err := e.s.w, e.s.clock, e.id, e.err;
    }

    method CreateFloatingIp(f: Fates, target: Id) returns (reply: Reply)
      modifies `cloud, `clock
      ensures var c := CreateFip(old(Now()), f, target); Now() == c.s && reply == c.reply
    {
      var landed := Lands(f(clock).outcome);
      var t := Tick(Now(), f);
      var c := Create(Now(), f, FloatingIp, Owned, NO_ID);
      cloud, clock, reply := c.s.w, c.s.clock, c.reply;
      if target != NO_ID && landed { cloud := cloud.(serves := cloud.serves[t.w.next := target]); }
    }

    method ReconcileFloatingIpStage(f: Fates, machines: seq<Machine>) returns (flow: Flow)
      modifies `cloud, `clock, `status
      ensures var e := ReconcileFloatingIp(old(Now()), f, machines); Now() == e.s && flow == e.flow
    {
      if spec.fip.None? { return Proceed; }
      var ip := spec.fip.value.address;
      if ip == NO_ID {
        flow := ReconcileManagedFloatingIp(f, machines);
        return;
      }
      var inZone := f(clock).inZone;
      var reply := GetResource(f, FloatingIp, ip);
      if !reply.Done? || !inZone { return Error; }
      status := status.(fip := ip);
      flow := AssignFloatingIp(f, machines);
    }

    /** The endpoint is filled in once; then Provisioned is decided. */
    method ReconcileControlPlaneEndpoint(vip: Id)
      modifies `spec, `status
      ensures Now() == Conclude(old(Now()), vip)
    {
      if spec.host == NO_ID {
        var host := if spec.fip.Some? then status.fip else if LbEnabled(spec) then vip else NO_ID;
        if host != NO_ID { spec := spec.(host := host, port := spec.lb.port); }
      }
      status := status.(provisioned := IsProvisioned(spec, status));
    }

    /** Load balancer and floating IP, once networks and routers are there. */
    method ReconcileFrontEnd(f: Fates, kube: Kube) returns (flow: Flow)
      modifies `cloud, `clock, `status, `spec
      ensures var p := AfterRouters(Stage(old(Now()), Proceed), f, kube); Now() == p.s && flow == p.flow
    {
      var lbFlow, vip, ready := ReconcileLoadBalancerStage(f, kube.machines);
      if lbFlow != Proceed { return lbFlow; }
      flow := ReconcileFloatingIpStage(f, kube.machines);
      if flow != Proceed { return; }
      ReconcileControlPlaneEndpoint(vip);
      return if ready && kube.initialized then Proceed else Requeue;
    }

    /** The four stages; the first that does not finish ends the pass. */
    method ReconcileNormally(f: Fates, kube: Kube) returns (flow: Flow)
      requires Valid() && DistinctMachines(kube.machines)
      modifies `cloud, `clock, `status, `spec
      ensures Valid()
      ensures var p := ReconcileNormal(old(Now()), f, kube); Now() == p.s && flow == p.flow
    {
      NormalPassIsLawful(Now(), f, kube);
      NetworksAreLawful(Now(), f, spec.networks, 0);
      flow := ReconcileNetworkStage(f);
      if flow != Proceed { return; }
      flow := ReconcileRouterStage(f);
      if flow != Proceed { return; }
      flow := ReconcileFrontEnd(f, kube);
    }

    /** Server groups, routers, networks, and then the finalizer. */
    method DeleteBackEnd(f: Fates, kube: Kube) returns (flow: Flow)
      requires Valid()
      modifies this
      ensures var e := DeleteAfterLb(Stage(old(Now()), Proceed), f, kube); Now() == e.s && flow == e.flow
    {
      ServerGroupsAreLawful(Now(), f, kube.machines);
      flow := DeleteServerGroupStage(f, kube.machines);
      if flow != Proceed { return; }
      flow := DeleteRouterStage(f);
      if flow != Proceed { return; }
      flow := DeleteNetworkStage(f);
      if flow != Proceed { return; }
      finalizer := false;
    }

    /** Tears down in reverse order of creation. */
    method ReconcileDeletion(f: Fates, kube: Kube) returns (flow: Flow)
      requires Valid()
      modifies this
      ensures Valid()
      ensures var e := ReconcileDelete(old(Now()), f, kube); Now() == e.s && flow == e.flow
    {
      DeletePassIsLawful(Now(), f, kube);
      DeleteIsLawful(Now(), f, FloatingIp, status.fip);
      flow := DeleteFloatingIpStage(f);
      if flow != Proceed { return; }
      DeleteIsLawful(Now(), f, LoadBalancer, status.lbId);
      flow := DeleteLoadBalancerStage(f);
      if flow != Proceed { return; }
      flow := DeleteBackEnd(f, kube);
    }

    /** One reconcile of the object, as long as it exists. */
    method ReconcileObject(f: Fates, kube: Kube)
      requires Valid() && DistinctMachines(kube.machines)
      modifies this
      ensures Valid()
      ensures Now() == Reconcile(old(Now()), f, kube)
    {
      if !deleting {
        clock, finalizer := 0, true;
        var _ := ReconcileNormally(f, kube);
      } else {
        clock := 0;
        var _ := ReconcileDeletion(f, kube);
      }
    }
  }

  // ------------------------------------------------------------------------- searches

  /** getDesiredLoadBalancerMembers: the machines with an internal address on the member subnet. */
  method GetDesiredMembers(spec: Spec, ns: seq<NetworkStatus>, machines: seq<Machine>) returns (want: Option<seq<Wanted>>)
    ensures want == DesiredMembers(spec, ns, machines)
  {
    var subnet := PoolMemberSubnet(spec, ns);
    if subnet.None? { return None; }
    var cidr := MemberSubnetCidr(ns, subnet.value);
    if cidr.None? || cidr.value.BadCidr? { return None; }
    var list := [];
    for i := 0 to |machines|
      invariant list + WantedFrom(machines[i..], subnet.value, cidr.value, spec.lb.port) ==
                WantedFrom(machines, subnet.value, cidr.value, spec.lb.port)
    {
      var m := machines[i];
      var address := FirstAddress(m.addresses, cidr.value);
      assert machines[i..][0] == m && machines[i..][1..] == machines[i + 1..];
      if m.controlPlane && address.Some? {
        list := list + [Wanted(m.name, subnet.value, address.value, spec.lb.port)];
      }
    }
    assert machines[|machines|..] == [] && list + [] == list;
    return Some(list);
  }

  /** getFloatingIPTarget: the load balancer, else the first control-plane server. */
  method FindTarget(s: State, machines: seq<Machine>) returns (target: Id)
    ensures target == Target(s, machines)
  {
    if LbEnabled(s.spec) { return s.st.lbId; }
    for i := 0 to |machines|
      invariant FirstServer(machines) == FirstServer(machines[i..])
    {
      assert machines[i..][0] == machines[i] && machines[i..][1..] == machines[i + 1..];
      if machines[i].controlPlane && machines[i].serverId != NO_ID { return machines[i].serverId; }
    }
    assert machines[|machines|..] == [];
    return NO_ID;
  }

  /** A machine's first internal address on the subnet. */
  method FirstAddress(addresses: seq<MachineAddress>, cidr: Cidr) returns (a: Option<Addr>)
    ensures a == MemberAddress(addresses, cidr)
  {
    for i := 0 to |addresses|
      invariant MemberAddress(addresses, cidr) == MemberAddress(addresses[i..], cidr)
    {
      assert addresses[i..][0] == addresses[i] && addresses[i..][1..] == addresses[i + 1..];
      if addresses[i].internal && Contains(cidr, addresses[i].address) { return Some(addresses[i].address); }
    }
    assert addresses[|addresses|..] == [];
    return None;
  }

  lemma ByNameAppend(ms: seq<Member>, m: Member, x: Name)
    ensures ByName(ms + [m], x) == if m.name == x then Some(m) else ByName(ms, x)
  {
    if ms == [] {
      assert ([m])[1..] == [] && ms + [m] == [m];
    } else {
      assert (ms + [m])[0] == ms[0] && (ms + [m])[1..] == ms[1..] + [m];
      ByNameAppend(ms[1..], m, x);
    }
  }

  ghost predicate IndexesMembers(byName: map<Name, Member>, ms: seq<Member>) {
    forall x :: ByName(ms, x) == if x in byName then Some(byName[x]) else None
  }

  lemma IndexOneMore(byName: map<Name, Member>, ms: seq<Member>, m: Member)
    requires IndexesMembers(byName, ms)
    ensures IndexesMembers(byName[m.name := m], ms + [m])
  {
    forall x ensures ByName(ms + [m], x) == if m.name == x then Some(m) else ByName(ms, x) { ByNameAppend(ms, m, x); }
  }

  /** currentByName: later members of a name overwrite earlier ones. */
  method IndexMembers(ms: seq<Member>) returns (byName: map<Name, Member>)
    ensures IndexesMembers(byName, ms)
  {
    byName := map[];
    for i := 0 to |ms|
      invariant IndexesMembers(byName, ms[..i])
    {
      IndexOneMore(byName, ms[..i], ms[i]);
      assert ms[..i + 1] == ms[..i] + [ms[i]];
      byName := byName[ms[i].name := ms[i]];
    }
    assert ms[..|ms|] == ms;
  }

  method WantedNameSet(want: seq<Wanted>) returns (names: set<Name>)
    ensures forall x :: x in names <==> IsWanted(want, x)
  {
    names := {};
    for i := 0 to |want|
      invariant forall x :: x in names <==> exists j :: 0 <= j < i && want[j].name == x
    {
      names := names + {want[i].name};
    }
    forall x ensures x in names <==> IsWanted(want, x) {
      if IsWanted(want, x) {
        var w :| w in want && w.name == x;
        var j :| 0 <= j < |want| && want[j] == w;
      }
    }
  }

  /** getOwnedServerIDs. */
  method GetOwnedServerIds(machines: seq<Machine>) returns (ids: set<Id>)
    ensures ids == OwnedServers(machines)
  {
    ids := {};
    for i := 0 to |machines|
      invariant ids + OwnedServers(machines[i..]) == OwnedServers(machines)
    {
      assert machines[i..][0] == machines[i] && machines[i..][1..] == machines[i + 1..];
      if machines[i].serverId != NO_ID { ids := ids + {machines[i].serverId}; }
    }
    assert machines[|machines|..] == [];
  }

  /** The two flags of the inner loop. */
  method ClassifyServers(g: ServerGroup, owned: set<Id>) returns (mine: bool, foreign: bool)
    ensures mine <==> HoldsOwned(g, owned)
    ensures foreign <==> exists x | x in g.servers :: x !in owned
    ensures !mine && !foreign <==> g.servers == []
  {
    mine, foreign := false, false;
    for i := 0 to |g.servers|
      invariant mine <==> exists j :: 0 <= j < i && g.servers[j] in owned
      invariant foreign <==> exists j :: 0 <= j < i && g.servers[j] !in owned
    {
      if g.servers[i] in owned { mine := true; } else { foreign := true; }
    }
    if g.servers != [] { assert g.servers[0] in g.servers; }
  }
}
