/** A delete pass attaches nothing: where CAPCS has no interface it has none afterwards either. */
module Unattached {
  import opened Types
  import opened Cloud
  import opened Networks
  import opened Routers
  import opened LoadBalancer
  import opened FloatingIps
  import opened ServerGroups
  import opened Controller

  ghost predicate NoneAttached(w: World) {
    forall i | i in w.ifaces :: i !in w.made
  }

  ghost predicate Bare(w: World) {
    NoneAttached(w) && forall i | i in w.made :: i < w.next
  }

  lemma OutsidersLeaveBare(w: World, spec: Spec, acts: seq<Act>)
    requires Bare(w)
    ensures Bare(OutsideAll(w, spec, acts))
    decreases acts
  {
    if acts != [] { OutsidersLeaveBare(Outside(w, spec, acts[0]), spec, acts[1..]); }
  }

  lemma TickLeavesBare(s: State, f: Fates)
    requires Bare(s.w)
    ensures Bare(Tick(s, f).w)
  {
    OutsidersLeaveBare(s.w, s.spec, f(s.clock).outside);
  }

  lemma DeleteLeavesBare(s: State, f: Fates, kind: Kind, id: Id)
    requires Bare(s.w)
    ensures Bare(Delete(s, f, kind, id).s.w)
  {
    TickLeavesBare(s, f);
  }

  lemma DetachOneLeavesBare(s: State, f: Fates, router: Id, live: map<Id, Id>, e: InterfaceStatus)
    requires Bare(s.w)
    ensures Bare(DetachOne(s, f, router, live, e).s.w)
  {
    TickLeavesBare(s, f);
  }

  lemma DetachLeavesBare(
    s: State, f: Fates, rs: RouterStatus, live: map<Id, Id>, k: nat, remaining: seq<InterfaceStatus>, err: bool)
    requires Bare(s.w) && k <= |rs.interfaces|
    ensures Bare(DetachFrom(s, f, rs, live, k, remaining, err).s.w)
    decreases |rs.interfaces| - k
  {
    if k < |rs.interfaces| {
      DetachOneLeavesBare(s, f, rs.routerId, live, rs.interfaces[k]);
      var one := DetachOne(s, f, rs.routerId, live, rs.interfaces[k]);
      DetachLeavesBare(one.s, f, rs, live, k + 1, remaining + one.kept, err || one.err);
    }
  }

  lemma RouterLeavesBare(s: State, f: Fates, rs: RouterStatus)
    requires Bare(s.w)
    ensures Bare(DeleteRouter(s, f, rs).s.w)
  {
    TickLeavesBare(s, f);
    var g := Get(s, f, Router, rs.routerId);
    DetachLeavesBare(g.s, f, rs, Interfaces(g.s.w, rs.routerId), 0, [], false);
    DeleteLeavesBare(DeleteInterfaces(s, f, rs).s, f, Router, rs.routerId);
  }

  lemma RoutersLeaveBare(s: State, f: Fates, rss: seq<RouterStatus>, k: nat, remaining: seq<RouterStatus>, err: bool)
    requires Bare(s.w) && k <= |rss|
    ensures Bare(DeleteRoutersFrom(s, f, rss, k, remaining, err).s.w)
    decreases |rss| - k
  {
    if k < |rss| {
      RouterLeavesBare(s, f, rss[k]);
      var one := DeleteRouter(s, f, rss[k]);
      RoutersLeaveBare(one.s, f, rss, k + 1, remaining + one.kept, err || one.err);
    }
  }

  lemma NetworksLeaveBare(s: State, f: Fates, ns: seq<NetworkStatus>, k: nat, remaining: seq<NetworkStatus>, err: bool)
    requires Bare(s.w) && k <= |ns|
    ensures Bare(DeleteNetworksFrom(s, f, ns, k, remaining, err).s.w)
    decreases |ns| - k
  {
    if k < |ns| {
      if !ns[k].managed {
        NetworksLeaveBare(s, f, ns, k + 1, remaining + [ns[k]], err);
      } else if ns[k].networkId == NO_ID {
        NetworksLeaveBare(s, f, ns, k + 1, remaining, err);
      } else {
        DeleteLeavesBare(s, f, Network, ns[k].networkId);
        var c := Delete(s, f, Network, ns[k].networkId);
        NetworksLeaveBare(c.s, f, ns, k + 1, remaining, err);
        NetworksLeaveBare(c.s, f, ns, k + 1, remaining + [ns[k]], true);
      }
    }
  }

  lemma GroupsLeaveBare(s: State, f: Fates, owned: set<Id>, groups: seq<ServerGroup>, k: nat)
    requires Bare(s.w) && k <= |groups|
    ensures Bare(DeleteGroupsFrom(s, f, owned, groups, k).s.w)
    decreases |groups| - k
  {
    if k < |groups| && !HoldsOwned(groups[k], owned) {
      TickLeavesBare(s, f);
      GroupsLeaveBare(s, f, owned, groups, k + 1);
      GroupsLeaveBare(DeleteGroup(s, f, groups[k].id).s, f, owned, groups, k + 1);
    }
  }

  lemma AfterLbLeavesBare(lb: Stage, f: Fates, kube: Kube)
    requires Bare(lb.s.w)
    ensures Bare(DeleteAfterLb(lb, f, kube).s.w)
  {
    TickLeavesBare(lb.s, f);
    var t := Tick(lb.s, f);
    TickLeavesBare(t, f);
    var u := Tick(t, f);
    GroupsLeaveBare(u, f, OwnedServers(kube.machines), OwnedGroups(u.w.groups), 0);
    var g := DeleteServerGroups(lb.s, f, kube.machines);
    RoutersLeaveBare(g.s, f, g.s.st.routers, 0, [], false);
    var r := DeleteRouters(g.s, f);
    NetworksLeaveBare(r.s, f, r.s.st.networks, 0, [], false);
  }

  lemma DeletePassLeavesBare(s: State, f: Fates, kube: Kube)
    requires Bare(s.w)
    ensures Bare(ReconcileDelete(s, f, kube).s.w)
  {
    DeleteLeavesBare(s, f, FloatingIp, s.st.fip);
    var p := DeleteFloatingIp(s, f);
    DeleteLeavesBare(p.s, f, LoadBalancer, p.s.st.lbId);
    AfterLbLeavesBare(DeleteLoadBalancer(p.s, f), f, kube);
  }
}
