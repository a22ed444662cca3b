/**
 What teardown leaves alone. Over every sequence of delete passes, from any status, the only ids
 it asks the API to delete or detach are those status records as CAPCS's own, what sits on the
 attachment of a pending entry and, as long as one is pending, ids not handed out yet; module
 TeardownReads says which of these. Server groups go only when they were seen without a server.
 */
module TeardownTargets {
  import opened Types
  import opened Cloud
  import opened History
  import opened Networks
  import opened Routers
  import opened LoadBalancer
  import opened FloatingIps
  import opened ServerGroups
  import opened Controller
  import opened Ownership
  import opened AtMostOne
  import opened Teardown

  // ----------------------------------------------------------- what may be touched

  /** The interface sits on the attachment, or does not exist yet. */
  ghost predicate SeenOn(w: World, iface: Id, a: Attachment) {
    (iface in w.ifaces && w.ifaces[iface] == a) || w.next <= iface
  }

  /** Status has the id itself. */
  ghost predicate OnBooks(s: State, x: Id) {
    exists item: Item :: !item.AnAttached? && Recorded(s.spec, s.st, item) && item.id == x
  }

  ghost predicate Allowed(s: State, x: Id) {
    || OnBooks(s, x)
    || (exists a :: Pending(s.st, a) && SeenOn(s.w, x, a))
  }

  /** Going from `s` to `t` only allowed ids were targeted, and no more are allowed afterwards. */
  ghost predicate Confined(s: State, t: State) {
    && Later(s.w, t.w)
    && (forall x | x in t.w.targets :: x in s.w.targets || Allowed(s, x))
    && (forall x | Allowed(t, x) :: Allowed(s, x))
  }

  lemma ConfinedTransitive(s: State, t: State, u: State)
    requires Confined(s, t) && Confined(t, u)
    ensures Confined(s, u)
  {
    LaterTransitive(s.w, t.w, u.w);
  }

  lemma SeenEarlier(w: World, v: World, x: Id, a: Attachment)
    requires Later(w, v) && SeenOn(v, x, a)
    ensures SeenOn(w, x, a)
  {
  }

  /** Fewer entries and a later cloud allow no more. */
  lemma AllowedShrinks(s: State, t: State)
    requires Later(s.w, t.w)
    requires forall item | Recorded(t.spec, t.st, item) :: Recorded(s.spec, s.st, item)
    requires forall a | Pending(t.st, a) :: Pending(s.st, a)
    ensures forall x | Allowed(t, x) :: Allowed(s, x)
  {
    forall x | Allowed(t, x) ensures Allowed(s, x) {
      if exists a :: Pending(t.st, a) && SeenOn(t.w, x, a) {
        var a :| Pending(t.st, a) && SeenOn(t.w, x, a);
        SeenEarlier(s.w, t.w, x, a);
      }
    }
  }

  lemma DeleteTargets(s: State, f: Fates, kind: Kind, id: Id)
    ensures var c := Delete(s, f, kind, id); c.s.w.targets == s.w.targets + {id}
  {
    TicksTargetNothing(s, f);
  }

  lemma OutsidersTargetNothing(w: World, spec: Spec, acts: seq<Act>)
    ensures OutsideAll(w, spec, acts).targets == w.targets
    ensures OutsideAll(w, spec, acts).disbanded == w.disbanded && OutsideAll(w, spec, acts).made == w.made
    decreases acts
  {
    if acts != [] { OutsidersTargetNothing(Outside(w, spec, acts[0]), spec, acts[1..]); }
  }

  lemma TicksTargetNothing(s: State, f: Fates)
    ensures Tick(s, f).w.targets == s.w.targets && Tick(s, f).w.disbanded == s.w.disbanded && Tick(s, f).w.made == s.w.made
  {
    OutsidersTargetNothing(s.w, s.spec, f(s.clock).outside);
  }

  lemma FipConfined(s: State, f: Fates)
    ensures Confined(s, DeleteFloatingIp(s, f).s)
  {
    var e := DeleteFloatingIp(s, f);
    if OwnsFip(s.spec) && s.st.fip != NO_ID {
      DeleteLater(s, f, FloatingIp, s.st.fip);
      DeleteTargets(s, f, FloatingIp, s.st.fip);
      assert Recorded(s.spec, s.st, AFloatingIp(s.st.fip));
    }
    AllowedShrinks(s, e.s);
  }

  lemma LbConfined(s: State, f: Fates)
    ensures Confined(s, DeleteLoadBalancer(s, f).s)
  {
    var e := DeleteLoadBalancer(s, f);
    if LbEnabled(s.spec) && s.st.lbId != NO_ID {
      DeleteLater(s, f, LoadBalancer, s.st.lbId);
      DeleteTargets(s, f, LoadBalancer, s.st.lbId);
      assert Recorded(s.spec, s.st, ALoadBalancer(s.st.lbId));
    }
    AllowedShrinks(s, e.s);
  }

  // ------------------------------------------------------------------- interfaces

  /** What the interface entries of one router allow. */
  ghost predicate EntriesAllow(nets: seq<NetworkStatus>, w: World, router: Id, es: seq<InterfaceStatus>, x: Id) {
    || (x != NO_ID && Lists(es, x))
    || (exists e, a :: e in es && IsPending(nets, router, e, a) && SeenOn(w, x, a))
  }

  /** The interface an entry stands for is one the entry allows. */
  lemma ResolvedIsAllowed(s: State, w0: World, router: Id, e: InterfaceStatus)
    requires CloudOk(w0) && e.managed
    ensures var id := Resolve(s, Interfaces(w0, router), e);
            id in Interfaces(w0, router) ==> id != NO_ID && EntriesAllow(s.st.networks, w0, router, [e], id)
  {
    var live := Interfaces(w0, router);
    var id := Resolve(s, live, e);
    if id in live {
      assert e in [e];
      if e.interfaceId == NO_ID {
        var a := Attachment(router, NetworkIdOf(s.st.networks, e.network));
        assert IsPending(s.st.networks, router, e, a);
      } else {
        assert Lists([e], id);
      }
    }
  }

  lemma DetachOneConfined(s: State, f: Fates, w0: World, router: Id, e: InterfaceStatus, x: Id)
    requires CloudOk(w0) && Later(w0, s.w)
    ensures var one := DetachOne(s, f, router, Interfaces(w0, router), e);
            && (x in one.s.w.targets && x !in s.w.targets ==> EntriesAllow(s.st.networks, w0, router, [e], x))
            && (EntriesAllow(s.st.networks, w0, router, one.kept, x) ==> EntriesAllow(s.st.networks, w0, router, [e], x))
  {
    var live := Interfaces(w0, router);
    var one, id := DetachOne(s, f, router, live, e), Resolve(s, live, e);
    TicksTargetNothing(s, f);
    if e.managed {
      ResolvedIsAllowed(s, w0, router, e);
      if one.kept != [] {
        assert one.kept == [e.(interfaceId := id)];
        assert EntriesAllow(s.st.networks, w0, router, one.kept, x) ==> x == id;
      }
    }
  }

  lemma {:induction false} EntriesAllowMore(
    nets: seq<NetworkStatus>, w: World, router: Id, few: seq<InterfaceStatus>, more: seq<InterfaceStatus>, x: Id)
    requires forall e | e in few :: e in more
    ensures EntriesAllow(nets, w, router, few, x) ==> EntriesAllow(nets, w, router, more, x)
  {
  }

  lemma EntriesAllowSplit(
    nets: seq<NetworkStatus>, w: World, router: Id, a: seq<InterfaceStatus>, b: seq<InterfaceStatus>, x: Id)
    ensures EntriesAllow(nets, w, router, a + b, x) <==> EntriesAllow(nets, w, router, a, x) || EntriesAllow(nets, w, router, b, x)
  {
    EntriesAllowMore(nets, w, router, a, a + b, x);
    EntriesAllowMore(nets, w, router, b, a + b, x);
  }

  lemma {:induction false} DetachConfined(
    s: State, f: Fates, w0: World, rs: RouterStatus, k: nat, remaining: seq<InterfaceStatus>, err: bool, x: Id)
    requires CloudOk(w0) && Later(w0, s.w) && k <= |rs.interfaces|
    ensures var d := DetachFrom(s, f, rs, Interfaces(w0, rs.routerId), k, remaining, err);
            var es := remaining + rs.interfaces[k..];
            && (x in d.s.w.targets && x !in s.w.targets ==> EntriesAllow(s.st.networks, w0, rs.routerId, es, x))
            && (EntriesAllow(s.st.networks, w0, rs.routerId, d.kept, x) ==> EntriesAllow(s.st.networks, w0, rs.routerId, es, x))
    decreases |rs.interfaces| - k
  {
    var nets, router := s.st.networks, rs.routerId;
    var live := Interfaces(w0, router);
    if k == |rs.interfaces| {
      assert remaining + rs.interfaces[k..] == remaining;
    } else {
      var e, rest := rs.interfaces[k], rs.interfaces[k + 1..];
      var one := DetachOne(s, f, router, live, e);
      assert remaining + rs.interfaces[k..] == remaining + ([e] + rest);
      DetachOneConfined(s, f, w0, router, e, x);
      DetachOneLater(s, f, live, router, e);
      LaterTransitive(w0, s.w, one.s.w);
      DetachConfined(one.s, f, w0, rs, k + 1, remaining + one.kept, err || one.err, x);
      EntriesAllowSplit(nets, w0, router, remaining + one.kept, rest, x);
      EntriesAllowSplit(nets, w0, router, remaining, one.kept, x);
      EntriesAllowSplit(nets, w0, router, remaining, [e] + rest, x);
      EntriesAllowSplit(nets, w0, router, [e], rest, x);
    }
  }

  lemma InterfacesConfined(s: State, f: Fates, rs: RouterStatus, x: Id)
    requires Lawful(s.w)
    ensures var d := DeleteInterfaces(s, f, rs);
            && (x in d.s.w.targets && x !in s.w.targets ==> EntriesAllow(s.st.networks, s.w, rs.routerId, rs.interfaces, x))
            && (EntriesAllow(s.st.networks, d.s.w, rs.routerId, d.kept, x) ==>
                  EntriesAllow(s.st.networks, s.w, rs.routerId, rs.interfaces, x))
  {
    var g, d := Get(s, f, Router, rs.routerId), DeleteInterfaces(s, f, rs);
    TicksTargetNothing(s, f);
    TickLater(s, f);
    TickIsLawful(s, f);
    if g.reply.Done? {
      assert [] + rs.interfaces[0..] == rs.interfaces;
      DetachConfined(g.s, f, g.s.w, rs, 0, [], false, x);
      EntriesEarlier(s.st.networks, s.w, g.s.w, rs.routerId, rs.interfaces, x);
      DetachLater(g.s, f, Interfaces(g.s.w, rs.routerId), rs, 0, [], false);
    }
    InterfacesLater(s, f, rs);
    EntriesEarlier(s.st.networks, s.w, d.s.w, rs.routerId, d.kept, x);
    if HasManaged(rs.interfaces) && g.reply.Done? { EntriesEarlier(s.st.networks, g.s.w, d.s.w, rs.routerId, d.kept, x); }
  }

  lemma EntriesEarlier(nets: seq<NetworkStatus>, w: World, v: World, router: Id, es: seq<InterfaceStatus>, x: Id)
    requires Later(w, v)
    ensures EntriesAllow(nets, v, router, es, x) ==> EntriesAllow(nets, w, router, es, x)
  {
    if exists e, a :: e in es && IsPending(nets, router, e, a) && SeenOn(v, x, a) {
      var e, a :| e in es && IsPending(nets, router, e, a) && SeenOn(v, x, a);
      SeenEarlier(w, v, x, a);
    }
  }

  // ---------------------------------------------------------------------- routers

  ghost predicate RouterAllows(nets: seq<NetworkStatus>, w: World, r: RouterStatus, x: Id) {
    || (x != NO_ID && r.managed && r.routerId == x)
    || (x != NO_ID && r.routerId != NO_ID && Lists(r.interfaces, x))
    || (exists e, a :: e in r.interfaces && IsPending(nets, r.routerId, e, a) && SeenOn(w, x, a))
  }

  /** What is allowed whatever the router list says. */
  ghost predicate Beside(s: State, x: Id) {
    exists item: Item :: !OnRouters(item) && Recorded(s.spec, s.st, item) && item.id == x
  }

  lemma AllowedByEntry(s: State, rss: seq<RouterStatus>, x: Id)
    ensures Allowed(WithRouters(s, rss), x) <==> Beside(s, x) || exists r | r in rss :: RouterAllows(s.st.networks, s.w, r, x)
  {
    var t := WithRouters(s, rss);
    if OnBooks(t, x) {
      var item: Item :| !item.AnAttached? && Recorded(t.spec, t.st, item) && item.id == x;
      if OnRouters(item) {
        RecordedByEntry(s, rss, item);
      } else {
        assert Recorded(s.spec, s.st, item);
      }
    }
    forall r | r in rss && RouterAllows(s.st.networks, s.w, r, x) ensures Allowed(t, x) {
      EntryIsAllowed(s, rss, r, x);
    }
    if Beside(s, x) {
      var item: Item :| !OnRouters(item) && Recorded(s.spec, s.st, item) && item.id == x;
      assert Recorded(t.spec, t.st, item);
    }
  }

  lemma EntryIsAllowed(s: State, rss: seq<RouterStatus>, r: RouterStatus, x: Id)
    requires r in rss && RouterAllows(s.st.networks, s.w, r, x)
    ensures Allowed(WithRouters(s, rss), x)
  {
    var t := WithRouters(s, rss);
    if x != NO_ID && r.managed && r.routerId == x {
      assert Recorded(t.spec, t.st, ARouter(x));
    } else if x != NO_ID && r.routerId != NO_ID && Lists(r.interfaces, x) {
      assert Recorded(t.spec, t.st, AnInterface(r.routerId, x));
    } else {
      var e, a :| e in r.interfaces && IsPending(s.st.networks, r.routerId, e, a) && SeenOn(s.w, x, a);
      assert Pending(t.st, a);
    }
  }

  lemma RouterConfined(s: State, f: Fates, rs: RouterStatus, x: Id)
    requires Lawful(s.w)
    ensures var one := DeleteRouter(s, f, rs);
            && (x in one.s.w.targets && x !in s.w.targets ==> RouterAllows(s.st.networks, s.w, rs, x))
            && (forall r | r in one.kept && RouterAllows(s.st.networks, one.s.w, r, x) :: RouterAllows(s.st.networks, s.w, rs, x))
  {
    if rs.routerId != NO_ID {
      var d, one := DeleteInterfaces(s, f, rs), DeleteRouter(s, f, rs);
      InterfacesConfined(s, f, rs, x);
      DeleteTargets(d.s, f, Router, rs.routerId);
      DeleteLater(d.s, f, Router, rs.routerId);
      EntriesEarlier(s.st.networks, d.s.w, one.s.w, rs.routerId, d.kept, x);
    }
  }

  lemma RouterListConfined(s: State, f: Fates, pre: seq<RouterStatus>, rs: RouterStatus, post: seq<RouterStatus>)
    requires Lawful(s.w)
    ensures var one := DeleteRouter(s, f, rs);
            Confined(WithRouters(s, pre + [rs] + post), WithRouters(one.s, pre + one.kept + post))
  {
    var one := DeleteRouter(s, f, rs);
    var all := pre + [rs] + post;
    var was, now := WithRouters(s, all), WithRouters(one.s, pre + one.kept + post);
    RouterLater(s, f, rs);
    assert rs in all;
    forall x ensures (x in now.w.targets ==> x in was.w.targets || Allowed(was, x)) && (Allowed(now, x) ==> Allowed(was, x)) {
      RouterConfined(s, f, rs, x);
      AllowedByEntry(s, all, x);
      AllowedByEntry(one.s, pre + one.kept + post, x);
      forall r | r in pre + one.kept + post && RouterAllows(s.st.networks, one.s.w, r, x)
        ensures exists q | q in all :: RouterAllows(s.st.networks, s.w, q, x)
      {
        if r !in one.kept {
          assert r in pre || r in post;
          assert r in all;
          RouterAllowsEarlier(s.st.networks, s.w, one.s.w, r, x);
        }
      }
    }
  }

  lemma RouterAllowsEarlier(nets: seq<NetworkStatus>, w: World, v: World, r: RouterStatus, x: Id)
    requires Later(w, v) && RouterAllows(nets, v, r, x)
    ensures RouterAllows(nets, w, r, x)
  {
    if exists e, a :: e in r.interfaces && IsPending(nets, r.routerId, e, a) && SeenOn(v, x, a) {
      var e, a :| e in r.interfaces && IsPending(nets, r.routerId, e, a) && SeenOn(v, x, a);
      SeenEarlier(w, v, x, a);
    }
  }

  lemma {:induction false} RoutersConfined(
    s: State, f: Fates, rss: seq<RouterStatus>, k: nat, remaining: seq<RouterStatus>, err: bool)
    requires Lawful(s.w) && k <= |rss|
    ensures Confined(WithRouters(s, remaining + rss[k..]), DeleteRoutersFrom(s, f, rss, k, remaining, err).s)
    decreases |rss| - k
  {
    var e := DeleteRoutersFrom(s, f, rss, k, remaining, err);
    if k == |rss| {
      assert remaining + rss[k..] == remaining;
      assert WithRouters(s, remaining) == e.s;
    } else {
      var rest, one := rss[k + 1..], DeleteRouter(s, f, rss[k]);
      assert remaining + rss[k..] == remaining + [rss[k]] + rest;
      RouterListConfined(s, f, remaining, rss[k], rest);
      DeleteRouterIsLawful(s, f, rss[k]);
      RoutersConfined(one.s, f, rss, k + 1, remaining + one.kept, err || one.err);
      ConfinedTransitive(
        WithRouters(s, remaining + [rss[k]] + rest), WithRouters(one.s, remaining + one.kept + rest), e.s);
    }
  }

  // --------------------------------------------------------------------- networks

  /** Once the router list is cleared nothing is pending, so dropping networks allows no more. */
  lemma NetworkListConfined(s: State, t: State, few: seq<NetworkStatus>, all: seq<NetworkStatus>)
    requires Cleared(s.st.routers) && t.st == s.st && t.spec == s.spec && Later(s.w, t.w)
    requires forall n | n in few :: n in all
    requires forall x | x in t.w.targets :: x in s.w.targets || Allowed(WithNetworks(s, all), x)
    ensures Confined(WithNetworks(s, all), WithNetworks(t, few))
  {
    AllowedShrinks(WithNetworks(s, all), WithNetworks(t, few));
  }

  lemma NetworkTargetAllowed(s: State, all: seq<NetworkStatus>, n: NetworkStatus)
    requires n in all && n.managed && n.networkId != NO_ID
    ensures Allowed(WithNetworks(s, all), n.networkId)
  {
    assert Recorded(s.spec, WithNetworks(s, all).st, ANetwork(n.networkId));
  }

  lemma {:induction false} NetworksConfined(
    s: State, f: Fates, ns: seq<NetworkStatus>, k: nat, remaining: seq<NetworkStatus>, err: bool)
    requires k <= |ns| && Cleared(s.st.routers) && (forall n | n in remaining + ns[k..] :: n in s.st.networks)
    ensures Confined(s, DeleteNetworksFrom(s, f, ns, k, remaining, err).s)
    decreases |ns| - k
  {
    var e, all := DeleteNetworksFrom(s, f, ns, k, remaining, err), s.st.networks;
    assert WithNetworks(s, all) == s;
    if k == |ns| {
      assert remaining + ns[k..] == remaining;
      NetworkListConfined(s, s, remaining, all);
    } else {
      var n, rest := ns[k], ns[k + 1..];
      assert remaining + ns[k..] == remaining + [n] + rest;
      if !n.managed {
        NetworksConfined(s, f, ns, k + 1, remaining + [n], err);
      } else if n.networkId == NO_ID {
        NetworksConfined(s, f, ns, k + 1, remaining, err);
      } else {
        var c := Delete(s, f, Network, n.networkId);
        DeleteLater(s, f, Network, n.networkId);
        DeleteTargets(s, f, Network, n.networkId);
        NetworkTargetAllowed(s, all, n);
        NetworkListConfined(s, c.s, all, all);
        assert WithNetworks(c.s, all) == c.s;
        if c.reply.Done? || c.reply.Missing? {
          NetworksConfined(c.s, f, ns, k + 1, remaining, err);
          ConfinedTransitive(s, c.s, e.s);
        } else if !c.reply.Refused? {
          NetworksConfined(c.s, f, ns, k + 1, remaining + [n], true);
          ConfinedTransitive(s, c.s, e.s);
        }
      }
    }
  }

  // ---------------------------------------------------------------- server groups

  lemma DeleteGroupDisbands(s: State, f: Fates, id: Id)
    ensures var c := DeleteGroup(s, f, id);
            c.s.w.disbanded == s.w.disbanded + {id} && c.s.w.targets == s.w.targets && Later(s.w, c.s.w)
  {
    TicksTargetNothing(s, f);
    TickLater(s, f);
    var c := DeleteGroup(s, f, id);
    AsideLater(Tick(s, f).w, c.s.w);
    LaterTransitive(s.w, Tick(s, f).w, c.s.w);
  }

  lemma GroupsDisband(s: State, f: Fates, owned: set<Id>, groups: seq<ServerGroup>, k: nat)
    requires k <= |groups|
    ensures var e := DeleteGroupsFrom(s, f, owned, groups, k);
            && e.s.w.targets == s.w.targets && Later(s.w, e.s.w)
            && (forall x | x in e.s.w.disbanded && x !in s.w.disbanded :: exists g | g in groups :: g.id == x && g.servers == [])
    decreases |groups| - k
  {
    if k < |groups| && !HoldsOwned(groups[k], owned) {
      if groups[k].servers != [] {
        GroupsDisband(s, f, owned, groups, k + 1);
      } else {
        DeleteGroupDisbands(s, f, groups[k].id);
        var c := DeleteGroup(s, f, groups[k].id);
        if c.reply.Done? || c.reply.Missing? {
          GroupsDisband(c.s, f, owned, groups, k + 1);
          LaterTransitive(s.w, c.s.w, DeleteGroupsFrom(c.s, f, owned, groups, k + 1).s.w);
        }
      }
    }
  }

  lemma OwnedGroupsIn(gs: seq<ServerGroup>, g: ServerGroup)
    ensures g in OwnedGroups(gs) <==> g in gs && g.owned
  {
  }

  /** The cloud as the group listing shows it. */
  ghost function Listing(s: State, f: Fates): World {
    Tick(Tick(s, f), f).w
  }

  /** A group is deleted only when it is the cluster's and was listed without a server. */
  lemma OnlyEmptyGroupsAreDeleted(s: State, f: Fates, machines: seq<Machine>, x: Id)
    requires var e := DeleteServerGroups(s, f, machines); x in e.s.w.disbanded && x !in s.w.disbanded
    ensures exists g | g in Listing(s, f).groups :: g.id == x && g.owned && g.servers == []
  {
    TicksTargetNothing(s, f);
    var t := Tick(s, f);
    TicksTargetNothing(t, f);
    var u := Tick(t, f);
    var groups := OwnedGroups(u.w.groups);
    GroupsDisband(u, f, OwnedServers(machines), groups, 0);
    var g :| g in groups && g.id == x && g.servers == [];
    OwnedGroupsIn(u.w.groups, g);
  }

  lemma OutsidersMakeNoGroups(w: World, spec: Spec, acts: seq<Act>, id: Id)
    ensures HasGroup(OutsideAll(w, spec, acts).groups, id) ==> HasGroup(w.groups, id)
    decreases acts
  {
    if acts != [] {
      if acts[0].Crew? { SameGroups(w.groups, acts[0].group, acts[0].servers, id); }
      OutsidersMakeNoGroups(Outside(w, spec, acts[0]), spec, acts[1..], id);
    }
  }

  lemma SameGroups(gs: seq<ServerGroup>, group: Id, servers: seq<Id>, id: Id)
    ensures HasGroup(WithServers(gs, group, servers), id) ==> HasGroup(gs, id)
  {
    if gs != [] {
      var now := WithServers(gs, group, servers);
      SameGroups(gs[1..], group, servers, id);
      if HasGroup(now, id) {
        var g :| g in now && g.id == id;
        if g == now[0] {
          assert gs[0].id == id;
        } else {
          assert g in WithServers(gs[1..], group, servers);
          assert HasGroup(WithServers(gs[1..], group, servers), id);
        }
      }
    }
  }

  lemma WithoutGroupIn(gs: seq<ServerGroup>, id: Id, g: ServerGroup)
    ensures g in WithoutGroup(gs, id) <==> g in gs && g.id != id
  {
  }

  lemma DeletedGroupIsGone(s: State, f: Fates, id: Id, x: Id)
    ensures var c := DeleteGroup(s, f, id);
            && (HasGroup(c.s.w.groups, x) ==> HasGroup(s.w.groups, x))
            && (c.reply.Done? || c.reply.Missing? ==> !HasGroup(c.s.w.groups, id))
  {
    OutsidersMakeNoGroups(s.w, s.spec, f(s.clock).outside, x);
    var t := Tick(s, f);
    forall g ensures g in WithoutGroup(t.w.groups, id) <==> g in t.w.groups && g.id != id {
      WithoutGroupIn(t.w.groups, id, g);
    }
  }

  lemma GroupsGo(s: State, f: Fates, owned: set<Id>, groups: seq<ServerGroup>, k: nat, x: Id)
    requires k <= |groups|
    ensures var e := DeleteGroupsFrom(s, f, owned, groups, k);
            && (HasGroup(e.s.w.groups, x) ==> HasGroup(s.w.groups, x))
            && (e.flow == Proceed ==> forall j | k <= j < |groups| ::
                  !HoldsOwned(groups[j], owned) && (groups[j].servers == [] && groups[j].id == x ==> !HasGroup(e.s.w.groups, x)))
    decreases |groups| - k
  {
    if k < |groups| && !HoldsOwned(groups[k], owned) {
      if groups[k].servers != [] {
        GroupsGo(s, f, owned, groups, k + 1, x);
      } else {
        DeletedGroupIsGone(s, f, groups[k].id, x);
        var c := DeleteGroup(s, f, groups[k].id);
        if c.reply.Done? || c.reply.Missing? { GroupsGo(c.s, f, owned, groups, k + 1, x); }
      }
    }
  }

  /** The stage passes only when no group of the cluster held one of its servers and the empty ones are gone. */
  lemma GroupStagePasses(s: State, f: Fates, machines: seq<Machine>, g: ServerGroup)
    requires DeleteServerGroups(s, f, machines).flow == Proceed && g in Listing(s, f).groups && g.owned
    ensures !HoldsOwned(g, OwnedServers(machines))
    ensures g.servers == [] ==> !HasGroup(DeleteServerGroups(s, f, machines).s.w.groups, g.id)
  {
    var u := Tick(Tick(s, f), f);
    var groups := OwnedGroups(u.w.groups);
    OwnedGroupsIn(u.w.groups, g);
    var j :| 0 <= j < |groups| && groups[j] == g;
    GroupsGo(u, f, OwnedServers(machines), groups, 0, g.id);
  }

  // ------------------------------------------------------------------- whole passes

  lemma ServerGroupsConfined(s: State, f: Fates, machines: seq<Machine>)
    ensures Confined(s, DeleteServerGroups(s, f, machines).s)
  {
    TicksTargetNothing(s, f);
    TickLater(s, f);
    var t := Tick(s, f);
    TicksTargetNothing(t, f);
    TickLater(t, f);
    var u := Tick(t, f);
    LaterTransitive(s.w, t.w, u.w);
    GroupsDisband(u, f, OwnedServers(machines), OwnedGroups(u.w.groups), 0);
    LaterTransitive(s.w, u.w, DeleteGroupsFrom(u, f, OwnedServers(machines), OwnedGroups(u.w.groups), 0).s.w);
    AllowedShrinks(s, DeleteServerGroups(s, f, machines).s);
  }

  /** Whatever is no part of the records and the cloud does not matter. */
  lemma ConfinedAside(s: State, t: State)
    requires t.w == s.w && t.st == s.st && t.spec == s.spec
    ensures Confined(s, t)
  {
    AllowedShrinks(s, t);
  }

  lemma ConfinedFromRouters(r: Stage, f: Fates)
    requires r.flow == Proceed ==> Cleared(r.s.st.routers)
    ensures Confined(r.s, DeleteAfterRouters(r, f).s)
  {
    if r.flow != Proceed {
      ConfinedAside(r.s, r.s);
    } else {
      assert [] + r.s.st.networks[0..] == r.s.st.networks;
      NetworksConfined(r.s, f, r.s.st.networks, 0, [], false);
      var n := DeleteNetworks(r.s, f);
      ConfinedAside(n.s, n.s.(finalizer := false));
      ConfinedTransitive(r.s, n.s, n.s.(finalizer := false));
    }
  }

  lemma ConfinedFromGroups(g: Stage, f: Fates)
    requires Fit(g.s)
    ensures Confined(g.s, DeleteAfterGroups(g, f).s)
  {
    if g.flow == Proceed {
      var rss := g.s.st.routers;
      assert [] + rss[0..] == rss;
      assert WithRouters(g.s, rss) == g.s;
      RoutersConfined(g.s, f, rss, 0, [], false);
      RoutersCarry(g.s, f, rss, 0, [], false);
      var r := DeleteRouters(g.s, f);
      ConfinedFromRouters(r, f);
      ConfinedTransitive(g.s, r.s, DeleteAfterRouters(r, f).s);
    }
  }

  lemma ConfinedFromLb(lb: Stage, f: Fates, kube: Kube)
    requires Fit(lb.s)
    ensures Confined(lb.s, DeleteAfterLb(lb, f, kube).s)
  {
    if lb.flow == Proceed {
      ServerGroupsConfined(lb.s, f, kube.machines);
      ServerGroupsCarry(lb.s, f, kube.machines);
      ServerGroupsAreLawful(lb.s, f, kube.machines);
      var g := DeleteServerGroups(lb.s, f, kube.machines);
      ConfinedFromGroups(g, f);
      ConfinedTransitive(lb.s, g.s, DeleteAfterGroups(g, f).s);
    }
  }

  lemma ConfinedFromFip(p: Stage, f: Fates, kube: Kube)
    requires Fit(p.s)
    ensures Confined(p.s, DeleteAfterFip(p, f, kube).s)
  {
    if p.flow != Proceed {
      ConfinedAside(p.s, p.s);
    } else {
      LbConfined(p.s, f);
      LbCarries(p.s, f);
      DeleteIsLawful(p.s, f, LoadBalancer, p.s.st.lbId);
      var lb := DeleteLoadBalancer(p.s, f);
      ConfinedFromLb(lb, f, kube);
      ConfinedTransitive(p.s, lb.s, DeleteAfterLb(lb, f, kube).s);
    }
  }

  lemma DeletePassConfined(s: State, f: Fates, kube: Kube)
    requires Fit(s)
    ensures Confined(s, ReconcileDelete(s, f, kube).s)
  {
    FipConfined(s, f);
    FipCarries(s, f);
    DeleteIsLawful(s, f, FloatingIp, s.st.fip);
    var p := DeleteFloatingIp(s, f);
    ConfinedFromFip(p, f, kube);
    ConfinedTransitive(s, p.s, DeleteAfterFip(p, f, kube).s);
  }

  /** Everything status does not record as CAPCS's own is left alone, over any number of delete passes. */
  lemma {:induction false} TeardownIsConfined(s: State, passes: seq<Attempt>)
    requires Fit(s) && s.deleting
    ensures Confined(s, Attempts(s, passes))
    decreases |passes|
  {
    if passes != [] {
      var k := |passes| - 1;
      TeardownIsConfined(s, passes[..k]);
      AttemptsCarry(s, passes[..k]);
      var t, a := Attempts(s, passes[..k]), passes[k];
      var u := t.(clock := 0);
      AllowedShrinks(t, u);
      DeletePassConfined(u, a.f, a.kube);
      ConfinedTransitive(t, u, ReconcileDelete(u, a.f, a.kube).s);
      ConfinedTransitive(s, t, ReconcileDelete(u, a.f, a.kube).s);
    }
  }
}
