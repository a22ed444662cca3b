/**
 What each delete pass goes by. An id it newly targets is one status has, or an interface that the
 read of its router showed where a pending entry says it attached. A server group it deletes
 was listed as the cluster's and empty.
 */
module TeardownReads {
  import opened Types
  import opened Cloud
  import opened Networks
  import opened Routers
  import opened LoadBalancer
  import opened FloatingIps
  import opened ServerGroups
  import opened Controller
  import opened Ownership
  import opened Teardown
  import opened TeardownTargets

  ghost predicate NewTarget(s: State, t: State, x: Id) {
    x in t.w.targets && x !in s.w.targets
  }

  // ------------------------------------------------------------------- interfaces

  /** The read that deleting the entry begins with shows the interface where a pending entry says it attached. */
  ghost predicate ReadShows(s: State, f: Fates, rs: RouterStatus, x: Id) {
    var w := Get(s, f, Router, rs.routerId).s.w;
    x in w.ifaces && exists e | e in rs.interfaces :: IsPending(s.st.networks, rs.routerId, e, w.ifaces[x])
  }

  lemma DetachOneTargets(s: State, f: Fates, router: Id, live: map<Id, Id>, e: InterfaceStatus, x: Id)
    ensures var one := DetachOne(s, f, router, live, e);
            && one.s.w.disbanded == s.w.disbanded
            && (NewTarget(s, one.s, x) ==> e.managed && x in live && x == Resolve(s, live, e))
  {
    TicksTargetNothing(s, f);
  }

  lemma {:induction false} DetachTargets(
    s: State, f: Fates, rs: RouterStatus, live: map<Id, Id>, k: nat, remaining: seq<InterfaceStatus>, err: bool, x: Id)
    requires k <= |rs.interfaces|
    ensures var d := DetachFrom(s, f, rs, live, k, remaining, err);
            && d.s.w.disbanded == s.w.disbanded
            && (NewTarget(s, d.s, x) ==> x in live && exists e | e in rs.interfaces :: e.managed && x == Resolve(s, live, e))
    decreases |rs.interfaces| - k
  {
    if k < |rs.interfaces| {
      var e := rs.interfaces[k];
      DetachOneTargets(s, f, rs.routerId, live, e, x);
      var one := DetachOne(s, f, rs.routerId, live, e);
      DetachTargets(one.s, f, rs, live, k + 1, remaining + one.kept, err || one.err, x);
      ResolveAlike(s, one.s, live, rs.interfaces, x);
    }
  }

  lemma ResolveAlike(s: State, t: State, live: map<Id, Id>, es: seq<InterfaceStatus>, x: Id)
    requires t.st.networks == s.st.networks
    ensures (exists e | e in es :: e.managed && x == Resolve(t, live, e)) ==> exists e | e in es :: e.managed && x == Resolve(s, live, e)
  {
    if exists e | e in es :: e.managed && x == Resolve(t, live, e) {
      var e :| e in es && e.managed && x == Resolve(t, live, e);
      assert Resolve(s, live, e) == x;
    }
  }

  lemma InterfacesTarget(s: State, f: Fates, rs: RouterStatus, x: Id)
    ensures var d := DeleteInterfaces(s, f, rs);
            && d.s.w.disbanded == s.w.disbanded
            && (NewTarget(s, d.s, x) ==> Lists(rs.interfaces, x) || ReadShows(s, f, rs, x))
  {
    TicksTargetNothing(s, f);
    var g, d := Get(s, f, Router, rs.routerId), DeleteInterfaces(s, f, rs);
    var live := Interfaces(g.s.w, rs.routerId);
    if HasManaged(rs.interfaces) && g.reply.Done? {
      DetachTargets(g.s, f, rs, live, 0, [], false, x);
      if NewTarget(g.s, d.s, x) {
        var e :| e in rs.interfaces && e.managed && x == Resolve(g.s, live, e);
        ResolvedIs(g.s, rs.routerId, e, x);
      }
    }
  }

  lemma ResolvedIs(s: State, router: Id, e: InterfaceStatus, x: Id)
    requires e.managed && x in Interfaces(s.w, router) && x == Resolve(s, Interfaces(s.w, router), e)
    ensures e.interfaceId == x || IsPending(s.st.networks, router, e, s.w.ifaces[x])
  {
  }

  // ---------------------------------------------------------------------- routers

  /** The entry has the id: its router's, when that is managed, or one of its interfaces'. */
  ghost predicate HasId(r: RouterStatus, x: Id) {
    r.routerId != NO_ID && x != NO_ID && ((r.managed && r.routerId == x) || Lists(r.interfaces, x))
  }

  lemma RouterTargets(s: State, f: Fates, rs: RouterStatus, x: Id)
    requires x != NO_ID
    ensures var one := DeleteRouter(s, f, rs);
            && one.s.w.disbanded == s.w.disbanded
            && (NewTarget(s, one.s, x) ==> HasId(rs, x) || ReadShows(s, f, rs, x))
  {
    InterfacesTarget(s, f, rs, x);
    var d := DeleteInterfaces(s, f, rs);
    DeleteTargets(d.s, f, Router, rs.routerId);
    TicksTargetNothing(d.s, f);
  }

  /** Some entry's read shows it, each read made when the loop gets there. */
  ghost predicate SomeReadShows(s: State, f: Fates, rss: seq<RouterStatus>, k: nat, x: Id)
    requires k <= |rss|
    decreases |rss| - k
  {
    k < |rss| && (ReadShows(s, f, rss[k], x) || SomeReadShows(DeleteRouter(s, f, rss[k]).s, f, rss, k + 1, x))
  }

  lemma {:induction false} RoutersTarget(
    s: State, f: Fates, rss: seq<RouterStatus>, k: nat, remaining: seq<RouterStatus>, err: bool, x: Id)
    requires k <= |rss| && x != NO_ID
    ensures var e := DeleteRoutersFrom(s, f, rss, k, remaining, err);
            && e.s.w.disbanded == s.w.disbanded
            && (NewTarget(s, e.s, x) ==> (exists r | r in rss :: HasId(r, x)) || SomeReadShows(s, f, rss, k, x))
    decreases |rss| - k
  {
    if k < |rss| {
      RouterTargets(s, f, rss[k], x);
      var one := DeleteRouter(s, f, rss[k]);
      RoutersTarget(one.s, f, rss, k + 1, remaining + one.kept, err || one.err, x);
      assert rss[k] in rss;
    }
  }

  // --------------------------------------------------------------------- networks

  ghost predicate HasNetwork(ns: seq<NetworkStatus>, x: Id) {
    exists n | n in ns :: n.managed && n.networkId == x
  }

  lemma {:induction false} NetworksTarget(
    s: State, f: Fates, ns: seq<NetworkStatus>, k: nat, remaining: seq<NetworkStatus>, err: bool, x: Id)
    requires k <= |ns|
    ensures var e := DeleteNetworksFrom(s, f, ns, k, remaining, err);
            e.s.w.disbanded == s.w.disbanded && (NewTarget(s, e.s, x) ==> HasNetwork(ns, x))
    decreases |ns| - k
  {
    if k < |ns| {
      if !ns[k].managed {
        NetworksTarget(s, f, ns, k + 1, remaining + [ns[k]], err, x);
      } else if ns[k].networkId == NO_ID {
        NetworksTarget(s, f, ns, k + 1, remaining, err, x);
      } else {
        NetworkTargets(s, f, ns, k, x);
        var c := Delete(s, f, Network, ns[k].networkId);
        NetworksTarget(c.s, f, ns, k + 1, remaining, err, x);
        NetworksTarget(c.s, f, ns, k + 1, remaining + [ns[k]], true, x);
      }
    }
  }

  lemma NetworkTargets(s: State, f: Fates, ns: seq<NetworkStatus>, k: nat, x: Id)
    requires k < |ns| && ns[k].managed
    ensures var c := Delete(s, f, Network, ns[k].networkId);
            c.s.w.disbanded == s.w.disbanded && (NewTarget(s, c.s, x) ==> HasNetwork(ns, x))
  {
    DeleteTargets(s, f, Network, ns[k].networkId);
    DeleteDisbandsNothing(s, f, Network, ns[k].networkId);
    assert ns[k] in ns;
  }

  lemma DeleteDisbandsNothing(s: State, f: Fates, kind: Kind, id: Id)
    ensures Delete(s, f, kind, id).s.w.disbanded == s.w.disbanded
  {
    TicksTargetNothing(s, f);
  }

  // ------------------------------------------------------------------- whole passes

  /** Where the group stage of a delete pass begins, and where the router stage does. */
  ghost function AtGroups(s: State, f: Fates): State {
    DeleteLoadBalancer(DeleteFloatingIp(s, f).s, f).s
  }

  ghost function AtRouters(s: State, f: Fates, kube: Kube): State {
    DeleteServerGroups(AtGroups(s, f), f, kube.machines).s
  }

  /** The reason to target an id. */
  ghost predicate Grounds(s: State, f: Fates, kube: Kube, x: Id) {
    OnBooks(s, x) || SomeReadShows(AtRouters(s, f, kube), f, s.st.routers, 0, x)
  }

  lemma HasIdIsNamed(s: State, r: RouterStatus, x: Id)
    requires r in s.st.routers && HasId(r, x)
    ensures OnBooks(s, x)
  {
    if r.managed && r.routerId == x {
      assert Recorded(s.spec, s.st, ARouter(x));
    } else {
      assert Recorded(s.spec, s.st, AnInterface(r.routerId, x));
    }
  }

  lemma NetworkIsNamed(s: State, x: Id)
    requires HasNetwork(s.st.networks, x) && x != NO_ID
    ensures OnBooks(s, x)
  {
    assert Recorded(s.spec, s.st, ANetwork(x));
  }

  lemma AfterGroupsTargets(s: State, g: Stage, f: Fates, x: Id)
    requires x != NO_ID && s.st.routers == g.s.st.routers && s.st.networks == g.s.st.networks
    ensures var t := DeleteAfterGroups(g, f).s;
            && t.w.disbanded == g.s.w.disbanded
            && (NewTarget(g.s, t, x) ==> OnBooks(s, x) || SomeReadShows(g.s, f, s.st.routers, 0, x))
  {
    if g.flow == Proceed {
      var rss := g.s.st.routers;
      RoutersTarget(g.s, f, rss, 0, [], false, x);
      var r := DeleteRouters(g.s, f);
      NetworksTarget(r.s, f, r.s.st.networks, 0, [], false, x);
      if NewTarget(g.s, r.s, x) && !SomeReadShows(g.s, f, rss, 0, x) {
        var q :| q in rss && HasId(q, x);
        HasIdIsNamed(s, q, x);
      }
      if HasNetwork(s.st.networks, x) { NetworkIsNamed(s, x); }
    }
  }

  /** Up to the router stage: the floating IP and the load balancer status has, and listed groups. */
  lemma FipTargets(s: State, f: Fates, x: Id)
    ensures var t := DeleteFloatingIp(s, f).s; t.w.disbanded == s.w.disbanded && (NewTarget(s, t, x) ==> OnBooks(s, x))
  {
    DeleteTargets(s, f, FloatingIp, s.st.fip);
    DeleteDisbandsNothing(s, f, FloatingIp, s.st.fip);
    if OwnsFip(s.spec) && s.st.fip != NO_ID { assert Recorded(s.spec, s.st, AFloatingIp(s.st.fip)); }
  }

  lemma LbTargets(s: State, f: Fates, x: Id)
    ensures var t := DeleteLoadBalancer(s, f).s; t.w.disbanded == s.w.disbanded && (NewTarget(s, t, x) ==> OnBooks(s, x))
  {
    DeleteTargets(s, f, LoadBalancer, s.st.lbId);
    DeleteDisbandsNothing(s, f, LoadBalancer, s.st.lbId);
    if LbEnabled(s.spec) && s.st.lbId != NO_ID { assert Recorded(s.spec, s.st, ALoadBalancer(s.st.lbId)); }
  }

  lemma GroupsTargetNothing(s: State, f: Fates, machines: seq<Machine>)
    ensures DeleteServerGroups(s, f, machines).s.w.targets == s.w.targets
  {
    TicksTargetNothing(s, f);
    var t := Tick(s, f);
    TicksTargetNothing(t, f);
    var u := Tick(t, f);
    GroupsDisband(u, f, OwnedServers(machines), OwnedGroups(u.w.groups), 0);
  }

  /** The cleared floating IP leaves nothing on the books that was not there. */
  lemma LaterBooks(s: State, t: State, x: Id)
    requires t.spec == s.spec && (t.st == s.st || t.st == s.st.(fip := NO_ID)) && OnBooks(t, x)
    ensures OnBooks(s, x)
  {
    var item: Item :| !item.AnAttached? && Recorded(t.spec, t.st, item) && item.id == x;
    assert Recorded(s.spec, s.st, item);
  }

  lemma AfterLbTargets(s: State, lb: Stage, f: Fates, kube: Kube, x: Id)
    requires x != NO_ID && s.st.routers == lb.s.st.routers && s.st.networks == lb.s.st.networks
    ensures var t := DeleteAfterLb(lb, f, kube).s;
            NewTarget(lb.s, t, x) ==>
              OnBooks(s, x) || SomeReadShows(DeleteServerGroups(lb.s, f, kube.machines).s, f, s.st.routers, 0, x)
  {
    GroupsTargetNothing(lb.s, f, kube.machines);
    AfterGroupsTargets(s, DeleteServerGroups(lb.s, f, kube.machines), f, x);
  }

  /** An id a delete pass newly targets is one status has, or one a router read showed on a pending attachment. */
  lemma PassHasGrounds(s: State, f: Fates, kube: Kube, x: Id)
    requires x != NO_ID && NewTarget(s, ReconcileDelete(s, f, kube).s, x)
    ensures Grounds(s, f, kube, x)
  {
    FipTargets(s, f, x);
    var p := DeleteFloatingIp(s, f);
    if p.flow == Proceed {
      LbTargets(p.s, f, x);
      if OnBooks(p.s, x) { LaterBooks(s, p.s, x); }
      AfterLbTargets(s, DeleteLoadBalancer(p.s, f), f, kube, x);
    }
  }

  // ---------------------------------------------------------------- many passes

  /** The object as the j-th delete pass finds it. */
  ghost function Before(s: State, passes: seq<Attempt>, j: nat): State
    requires j <= |passes|
  {
    Attempts(s, passes[..j]).(clock := 0)
  }

  ghost predicate TargetedIn(s: State, passes: seq<Attempt>, j: nat, x: Id) {
    j < |passes| && Grounds(Before(s, passes, j), passes[j].f, passes[j].kube, x)
  }

  lemma TargetedEarlier(s: State, passes: seq<Attempt>, k: nat, j: nat, x: Id)
    requires k <= |passes| && TargetedIn(s, passes[..k], j, x)
    ensures TargetedIn(s, passes, j, x)
  {
    assert passes[..k][..j] == passes[..j] && passes[..k][j] == passes[j];
  }

  lemma LastPassTargets(s: State, passes: seq<Attempt>, k: nat, x: Id)
    requires s.deleting && x != NO_ID && |passes| == k + 1
    requires NewTarget(Attempts(s, passes[..k]), Attempts(s, passes), x)
    ensures TargetedIn(s, passes, k, x)
  {
    AttemptsKeepDeleting(s, passes[..k]);
    PassHasGrounds(Before(s, passes, k), passes[k].f, passes[k].kube, x);
  }

  /** Over any number of passes, whatever was targeted was targeted on these grounds. */
  lemma {:induction false} EveryTargetHasGrounds(s: State, passes: seq<Attempt>, x: Id)
    requires s.deleting && x != NO_ID && NewTarget(s, Attempts(s, passes), x)
    ensures exists j :: TargetedIn(s, passes, j, x)
    decreases |passes|
  {
    if passes != [] {
      var k := |passes| - 1;
      if NewTarget(s, Attempts(s, passes[..k]), x) {
        EveryTargetHasGrounds(s, passes[..k], x);
        var j :| TargetedIn(s, passes[..k], j, x);
        TargetedEarlier(s, passes, k, j, x);
      } else {
        LastPassTargets(s, passes, k, x);
      }
    }
  }

  /** Listed, when the groups are, as the cluster's and empty. */
  ghost predicate ListedEmpty(s: State, f: Fates, x: Id) {
    exists g | g in Listing(AtGroups(s, f), f).groups :: g.id == x && g.owned && g.servers == []
  }

  lemma PassDisbands(s: State, f: Fates, kube: Kube, x: Id)
    requires x in ReconcileDelete(s, f, kube).s.w.disbanded && x !in s.w.disbanded
    ensures ListedEmpty(s, f, x)
  {
    FipTargets(s, f, x);
    var p := DeleteFloatingIp(s, f);
    LbTargets(p.s, f, x);
    var lb := DeleteLoadBalancer(p.s, f);
    if p.flow == Proceed && lb.flow == Proceed {
      var g := DeleteServerGroups(lb.s, f, kube.machines);
      AfterGroupsTargets(g.s, g, f, 1);
      OnlyEmptyGroupsAreDeleted(lb.s, f, kube.machines, x);
    }
  }

  ghost predicate ListedIn(s: State, passes: seq<Attempt>, j: nat, x: Id) {
    j < |passes| && ListedEmpty(Before(s, passes, j), passes[j].f, x)
  }

  lemma ListedEarlier(s: State, passes: seq<Attempt>, k: nat, j: nat, x: Id)
    requires k <= |passes| && ListedIn(s, passes[..k], j, x)
    ensures ListedIn(s, passes, j, x)
  {
    assert passes[..k][..j] == passes[..j] && passes[..k][j] == passes[j];
  }

  lemma LastPassDisbands(s: State, passes: seq<Attempt>, k: nat, x: Id)
    requires s.deleting && |passes| == k + 1
    requires x in Attempts(s, passes).w.disbanded && x !in Attempts(s, passes[..k]).w.disbanded
    ensures ListedIn(s, passes, k, x)
  {
    AttemptsKeepDeleting(s, passes[..k]);
    PassDisbands(Before(s, passes, k), passes[k].f, passes[k].kube, x);
  }

  /** Over any number of passes, only groups that a pass listed as the cluster's and empty are deleted. */
  lemma {:induction false} EveryDisbandedWasListedEmpty(s: State, passes: seq<Attempt>, x: Id)
    requires s.deleting && x in Attempts(s, passes).w.disbanded && x !in s.w.disbanded
    ensures exists j :: ListedIn(s, passes, j, x)
    decreases |passes|
  {
    if passes != [] {
      var k := |passes| - 1;
      if x in Attempts(s, passes[..k]).w.disbanded {
        EveryDisbandedWasListedEmpty(s, passes[..k], x);
        var j :| ListedIn(s, passes[..k], j, x);
        ListedEarlier(s, passes, k, j, x);
      } else {
        LastPassDisbands(s, passes, k, x);
      }
    }
  }

  lemma {:induction false} AttemptsKeepDeleting(s: State, passes: seq<Attempt>)
    requires s.deleting
    ensures Attempts(s, passes).deleting
    decreases |passes|
  {
    if passes != [] {
      var k := |passes| - 1;
      AttemptsKeepDeleting(s, passes[..k]);
      var t := Attempts(s, passes[..k]);
      FinalizerGoesWithTheLastEntry(t.(clock := 0), passes[k].f, passes[k].kube);
    }
  }
}
