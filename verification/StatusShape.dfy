/**
 The shape of status, in every run whatever others do: one entry per name, each for an entry of the
 spec, and managed exactly when that one has no uuid. Nothing here depends on the cloud.
 */
module StatusShape {
  import opened Types
  import opened Keys
  import opened Cloud
  import opened Networks
  import opened Routers
  import opened LoadBalancer
  import opened FloatingIps
  import opened ServerGroups
  import opened Controller
  import opened Admission
  import opened Ownership
  import opened OwnershipTeardown
  import opened OwnershipRuns
  import opened Runs

  ghost predicate UniqueEntries(st: Status) {
    && (forall j, k | 0 <= j < k < |st.networks| :: st.networks[j].name != st.networks[k].name)
    && (forall j, k | 0 <= j < k < |st.routers| :: st.routers[j].name != st.routers[k].name)
    && (forall r | r in st.routers :: UniqueInterfaces(r.interfaces))
  }

  ghost predicate UniqueInterfaces(es: seq<InterfaceStatus>) {
    forall j, k | 0 <= j < k < |es| :: es[j].network != es[k].network
  }

  /** Each entry belongs to a spec entry, and is managed exactly when that one has no uuid. */
  ghost predicate FlagsFollowSpec(spec: Spec, st: Status) {
    NetworkFlags(spec.networks, st.networks) && RouterFlags(spec.routers, st.routers)
  }

  ghost predicate NetworkFlags(specs: seq<NetworkSpec>, ns: seq<NetworkStatus>) {
    forall n | n in ns :: exists m | m in specs :: m.name == n.name && n.managed == (m.uuid == NO_ID)
  }

  ghost predicate RouterFlags(specs: seq<RouterSpec>, rss: seq<RouterStatus>) {
    forall r | r in rss :: exists q | q in specs :: OneRouterFlags(q, r)
  }

  ghost predicate OneRouterFlags(q: RouterSpec, r: RouterStatus) {
    q.name == r.name && r.managed == (q.uuid == NO_ID) && InterfaceFlags(q.interfaces, r.interfaces)
  }

  ghost predicate InterfaceFlags(specs: seq<InterfaceSpec>, es: seq<InterfaceStatus>) {
    forall e | e in es :: exists d | d in specs :: d.network == e.network && e.managed == (d.uuid == NO_ID)
  }

  ghost predicate Shaped(s: State) {
    SpecOk(s.spec) && Keyed(s.st) && FlagsFollowSpec(s.spec, s.st)
  }

  // --------------------------------------------------------------- keyed is unique

  lemma KeyedNetworksFound(ns: seq<NetworkStatus>, k: nat)
    requires KeyedNetworks(ns) && k < |ns|
    ensures FindNetwork(ns, ns[k].name) == Some(ns[k])
    ensures forall j | k < j < |ns| :: ns[j].name != ns[k].name
    decreases k
  {
    if k == 0 {
      forall j | 0 < j < |ns| ensures ns[j].name != ns[0].name { AbsentNetwork(ns[1..], ns[0].name, j - 1); }
    } else {
      KeyedNetworksFound(ns[1..], k - 1);
      AbsentNetwork(ns[1..], ns[0].name, k - 1);
      forall j | k < j < |ns| ensures ns[j].name != ns[k].name { assert ns[j] == ns[1..][j - 1]; }
    }
  }

  lemma AbsentNetwork(ns: seq<NetworkStatus>, name: Name, k: nat)
    requires FindNetwork(ns, name).None? && k < |ns|
    ensures ns[k].name != name
  {
    if k > 0 { AbsentNetwork(ns[1..], name, k - 1); }
  }

  lemma AbsentRouter(rs: seq<RouterStatus>, name: Name, k: nat)
    requires FindRouter(rs, name).None? && k < |rs|
    ensures rs[k].name != name
  {
    if k > 0 { AbsentRouter(rs[1..], name, k - 1); }
  }

  lemma AbsentInterface(es: seq<InterfaceStatus>, a: Name, k: nat)
    requires FindInterface(es, a).None? && k < |es|
    ensures es[k].network != a
  {
    if k > 0 { AbsentInterface(es[1..], a, k - 1); }
  }

  lemma KeyedRoutersFound(rs: seq<RouterStatus>, k: nat)
    requires KeyedRouters(rs) && k < |rs|
    ensures FindRouter(rs, rs[k].name) == Some(rs[k]) && KeyedInterfaces(rs[k].interfaces)
    ensures forall j | k < j < |rs| :: rs[j].name != rs[k].name
    decreases k
  {
    if k == 0 {
      forall j | 0 < j < |rs| ensures rs[j].name != rs[0].name { AbsentRouter(rs[1..], rs[0].name, j - 1); }
    } else {
      KeyedRoutersFound(rs[1..], k - 1);
      AbsentRouter(rs[1..], rs[0].name, k - 1);
      forall j | k < j < |rs| ensures rs[j].name != rs[k].name { assert rs[j] == rs[1..][j - 1]; }
    }
  }

  lemma KeyedInterfacesFound(es: seq<InterfaceStatus>, k: nat)
    requires KeyedInterfaces(es) && k < |es|
    ensures FindInterface(es, es[k].network) == Some(es[k])
    ensures forall j | k < j < |es| :: es[j].network != es[k].network
    decreases k
  {
    if k == 0 {
      forall j | 0 < j < |es| ensures es[j].network != es[0].network { AbsentInterface(es[1..], es[0].network, j - 1); }
    } else {
      KeyedInterfacesFound(es[1..], k - 1);
      AbsentInterface(es[1..], es[0].network, k - 1);
      forall j | k < j < |es| ensures es[j].network != es[k].network { assert es[j] == es[1..][j - 1]; }
    }
  }

  lemma KeyedIsUnique(st: Status)
    requires Keyed(st)
    ensures UniqueEntries(st)
  {
    forall j, k | 0 <= j < k < |st.networks| ensures st.networks[j].name != st.networks[k].name {
      KeyedNetworksFound(st.networks, j);
    }
    forall j, k | 0 <= j < k < |st.routers| ensures st.routers[j].name != st.routers[k].name {
      KeyedRoutersFound(st.routers, j);
    }
    forall r | r in st.routers ensures UniqueInterfaces(r.interfaces) {
      var i :| 0 <= i < |st.routers| && st.routers[i] == r;
      KeyedRoutersFound(st.routers, i);
      forall j, k | 0 <= j < k < |r.interfaces| ensures r.interfaces[j].network != r.interfaces[k].network {
        KeyedInterfacesFound(r.interfaces, j);
      }
    }
  }

  // -------------------------------------------------------------------- networks

  lemma FoundNetworkIn(ns: seq<NetworkStatus>, name: Name)
    requires FindNetwork(ns, name).Some?
    ensures FindNetwork(ns, name).value in ns && FindNetwork(ns, name).value.name == name
  {
  }

  lemma PutNetworkFlags(specs: seq<NetworkSpec>, ns: seq<NetworkStatus>, n: NetworkSpec, m: NetworkStatus)
    requires NetworkFlags(specs, ns) && n in specs && m.name == n.name && m.managed == (n.uuid == NO_ID)
    ensures NetworkFlags(specs, PutNetwork(ns, m))
  {
    forall x | x in PutNetwork(ns, m) ensures x == m || x in ns { PutNetworkElements(ns, m, x); }
  }

  lemma PutNetworkElements(ns: seq<NetworkStatus>, m: NetworkStatus, x: NetworkStatus)
    ensures x in PutNetwork(ns, m) ==> x == m || x in ns
  {
    if ns != [] && ns[0].name != m.name { PutNetworkElements(ns[1..], m, x); }
  }

  lemma NetworkKeepsShape(s: State, f: Fates, n: NetworkSpec)
    requires Shaped(s) && n in s.spec.networks
    ensures Shaped(ReconcileNetwork(s, f, n).s)
  {
    NetworkStaysKeyed(s, f, n);
    forall m: NetworkStatus | m.name == n.name && m.managed == (n.uuid == NO_ID)
      ensures NetworkFlags(s.spec.networks, PutNetwork(s.st.networks, m))
    {
      PutNetworkFlags(s.spec.networks, s.st.networks, n, m);
    }
  }

  lemma NetworksKeepShape(s: State, f: Fates, k: nat)
    requires Shaped(s) && k <= |s.spec.networks|
    ensures Shaped(NetworksFrom(s, f, s.spec.networks, k).s)
    decreases |s.spec.networks| - k
  {
    if k < |s.spec.networks| {
      NetworkKeepsShape(s, f, s.spec.networks[k]);
      var one := ReconcileNetwork(s, f, s.spec.networks[k]);
      if one.flow == Proceed { NetworksKeepShape(one.s, f, k + 1); }
    }
  }

  // --------------------------------------------------------------------- routers

  lemma SameRouterSpec(specs: seq<RouterSpec>, q: RouterSpec, r: RouterSpec)
    requires DistinctRouters(specs) && q in specs && r in specs && q.name == r.name
    ensures q == r
  {
    var j :| 0 <= j < |specs| && specs[j] == q;
    var k :| 0 <= k < |specs| && specs[k] == r;
  }

  /** The flags of the entry of a router of the spec are those of that router. */
  lemma FlagsOfRouter(specs: seq<RouterSpec>, rss: seq<RouterStatus>, r: RouterSpec, x: RouterStatus)
    requires DistinctRouters(specs) && RouterFlags(specs, rss) && r in specs && x in rss && x.name == r.name
    ensures OneRouterFlags(r, x)
  {
    var q :| q in specs && OneRouterFlags(q, x);
    SameRouterSpec(specs, q, r);
  }

  lemma PutRouterElements(rss: seq<RouterStatus>, name: Name, id: Id, managed: bool, x: RouterStatus)
    requires x in PutRouter(rss, name, id, managed) && x !in rss
    ensures x == RouterStatus(name, id, managed, []) ||
            exists y | y in rss :: y.name == name && x == y.(routerId := id, managed := managed)
  {
    if rss != [] {
      if rss[0].name == name {
        assert rss[0] in rss;
      } else {
        PutRouterElements(rss[1..], name, id, managed, x);
      }
    }
  }

  lemma SetRouterKeepsShape(s: State, r: RouterSpec, id: Id)
    requires Shaped(s) && r in s.spec.routers
    ensures Shaped(SetRouter(s, r, id))
  {
    var rss, managed := s.st.routers, r.uuid == NO_ID;
    PutRouterKeyed(rss, r.name, id, managed);
    forall x | x in PutRouter(rss, r.name, id, managed) ensures exists q | q in s.spec.routers :: OneRouterFlags(q, x) {
      if x !in rss {
        PutRouterElements(rss, r.name, id, managed, x);
        if x != RouterStatus(r.name, id, managed, []) {
          var y :| y in rss && y.name == r.name && x == y.(routerId := id, managed := managed);
          FlagsOfRouter(s.spec.routers, rss, r, y);
        }
        assert OneRouterFlags(r, x);
      }
    }
  }

  lemma WithInterfacesElements(rss: seq<RouterStatus>, name: Name, es: seq<InterfaceStatus>, x: RouterStatus)
    requires x in WithInterfaces(rss, name, es) && x !in rss
    ensures exists y | y in rss :: y.name == name && x == y.(interfaces := es)
  {
    if rss != [] {
      if rss[0].name == name {
        assert rss[0] in rss;
      } else {
        WithInterfacesElements(rss[1..], name, es, x);
      }
    }
  }

  lemma PutInterfaceElements(es: seq<InterfaceStatus>, e: InterfaceStatus, x: InterfaceStatus)
    ensures x in PutInterface(es, e) ==> x == e || x in es
  {
    if es != [] && es[0].network != e.network { PutInterfaceElements(es[1..], e, x); }
  }

  lemma PutInterfaceFlags(specs: seq<InterfaceSpec>, es: seq<InterfaceStatus>, d: InterfaceSpec, e: InterfaceStatus)
    requires InterfaceFlags(specs, es) && d in specs && d.network == e.network && e.managed == (d.uuid == NO_ID)
    ensures InterfaceFlags(specs, PutInterface(es, e))
  {
    forall x | x in PutInterface(es, e) ensures x == e || x in es { PutInterfaceElements(es, e, x); }
  }

  lemma SetInterfaceKeepsShape(s: State, r: RouterSpec, d: InterfaceSpec, e: InterfaceStatus)
    requires Shaped(s) && r in s.spec.routers && d in r.interfaces && d.network == e.network && e.managed == (d.uuid == NO_ID)
    ensures Shaped(SetInterface(s, r.name, e))
  {
    SetInterfaceKeyed(s, r.name, e);
    var rss, rs := s.st.routers, FindRouter(s.st.routers, r.name);
    if rs.Some? {
      FoundRouterIn(rss, r.name);
      FlagsOfRouter(s.spec.routers, rss, r, rs.value);
      var es := PutInterface(rs.value.interfaces, e);
      PutInterfaceFlags(r.interfaces, rs.value.interfaces, d, e);
      forall x | x in WithInterfaces(rss, r.name, es) ensures exists q | q in s.spec.routers :: OneRouterFlags(q, x) {
        if x !in rss {
          WithInterfacesElements(rss, r.name, es, x);
          var y :| y in rss && y.name == r.name && x == y.(interfaces := es);
          FlagsOfRouter(s.spec.routers, rss, r, y);
          assert OneRouterFlags(r, x);
        }
      }
    }
  }

  lemma InterfaceKeepsShape(s: State, f: Fates, r: RouterSpec, id: Id, live: map<Id, Id>, d: InterfaceSpec)
    requires Shaped(s) && r in s.spec.routers && d in r.interfaces
    ensures Shaped(ReconcileInterface(s, f, r, id, live, d).s)
  {
    forall e: InterfaceStatus | e.network == d.network && e.managed == (d.uuid == NO_ID)
      ensures Shaped(SetInterface(s, r.name, e))
    {
      SetInterfaceKeepsShape(s, r, d, e);
    }
    if d.uuid == NO_ID && FindNetwork(s.st.networks, d.network).Some? {
      AttachKeepsShape(s, f, r, id, d, FindNetwork(s.st.networks, d.network).value.networkId);
    }
  }

  lemma AttachKeepsShape(s: State, f: Fates, r: RouterSpec, id: Id, d: InterfaceSpec, network: Id)
    requires Shaped(s) && r in s.spec.routers && d in r.interfaces && d.uuid == NO_ID
    ensures Shaped(AttachInterface(s, f, r, id, d, network).s)
  {
    var t := SetInterface(s, r.name, InterfaceStatus(d.network, NO_ID, true));
    SetInterfaceKeepsShape(s, r, d, InterfaceStatus(d.network, NO_ID, true));
    var c := CreateInterface(t, f, id, network);
    if c.reply.Done? { SetInterfaceKeepsShape(c.s, r, d, InterfaceStatus(d.network, c.reply.id, true)); }
  }

  lemma InterfacesKeepShape(s: State, f: Fates, r: RouterSpec, id: Id, live: map<Id, Id>, k: nat)
    requires Shaped(s) && r in s.spec.routers && k <= |r.interfaces|
    ensures Shaped(InterfacesFrom(s, f, r, id, live, k).s)
    decreases |r.interfaces| - k
  {
    if k < |r.interfaces| {
      InterfaceKeepsShape(s, f, r, id, live, r.interfaces[k]);
      var one := ReconcileInterface(s, f, r, id, live, r.interfaces[k]);
      if one.flow == Proceed { InterfacesKeepShape(one.s, f, r, id, live, k + 1); }
    }
  }

  lemma SettleKeepsShape(s: State, f: Fates, r: RouterSpec, id: Id)
    requires Shaped(s) && r in s.spec.routers
    ensures Shaped(Settle(s, f, r, id).s)
  {
    SetRouterKeepsShape(s, r, id);
    InterfacesKeepShape(SetRouter(s, r, id), f, r, id, Interfaces(s.w, id), 0);
  }

  lemma RouterKeepsShape(s: State, f: Fates, r: RouterSpec)
    requires Shaped(s) && r in s.spec.routers
    ensures Shaped(ReconcileRouter(s, f, r).s)
  {
    forall t: State, id | SameRecords(s, t) ensures Shaped(Settle(t, f, r, id).s) { SettleKeepsShape(t, f, r, id); }
  }

  lemma RoutersKeepShape(s: State, f: Fates, k: nat, acc: Flow)
    requires Shaped(s) && k <= |s.spec.routers|
    ensures Shaped(RoutersFrom(s, f, s.spec.routers, k, acc).s)
    decreases |s.spec.routers| - k
  {
    if k < |s.spec.routers| {
      RouterKeepsShape(s, f, s.spec.routers[k]);
      var one := ReconcileRouter(s, f, s.spec.routers[k]);
      if one.flow != Error { RoutersKeepShape(one.s, f, k + 1, Join(acc, one.flow)); }
    }
  }

  /** The later stages write neither list, and of the spec at most the endpoint. */
  ghost predicate ListsKept(s: State, t: State) {
    && t.st.networks == s.st.networks && t.st.routers == s.st.routers
    && t.spec.networks == s.spec.networks && t.spec.routers == s.spec.routers
  }

  lemma AfterRoutersKeepsLists(r: Stage, f: Fates, kube: Kube)
    ensures ListsKept(r.s, AfterRouters(r, f, kube).s)
  {
    var lb := ReconcileLoadBalancer(r.s, f, kube.machines);
    assert ListsKept(r.s, lb.s);
    AfterLoadBalancerKeepsLists(lb, f, kube);
  }

  lemma AfterLoadBalancerKeepsLists(lb: LbStage, f: Fates, kube: Kube)
    ensures ListsKept(lb.s, AfterLoadBalancer(lb, f, kube).s)
  {
    assert ListsKept(lb.s, ReconcileFloatingIp(lb.s, f, kube.machines).s);
  }

  lemma NormalPassKeepsShape(s: State, f: Fates, kube: Kube)
    requires Shaped(s)
    ensures Shaped(ReconcileNormal(s, f, kube).s)
  {
    NetworksKeepShape(s, f, 0);
    var n := ReconcileNetworks(s, f);
    if n.flow == Proceed {
      RoutersKeepShape(n.s, f, 0, Proceed);
      AfterRoutersKeepsLists(ReconcileRouters(n.s, f), f, kube);
    }
  }

  // -------------------------------------------------------------------- teardown

  ghost predicate ShapedInterfaces(specs: seq<InterfaceSpec>, es: seq<InterfaceStatus>) {
    KeyedInterfaces(es) && InterfaceFlags(specs, es)
  }

  lemma {:induction false} DetachKeepsShape(
    specs: seq<InterfaceSpec>, s: State, f: Fates, rs: RouterStatus, live: map<Id, Id>, k: nat, remaining: seq<InterfaceStatus>, err: bool)
    requires k <= |rs.interfaces| && ShapedInterfaces(specs, remaining + rs.interfaces[k..])
    ensures ShapedInterfaces(specs, DetachFrom(s, f, rs, live, k, remaining, err).kept)
    decreases |rs.interfaces| - k
  {
    if k == |rs.interfaces| {
      assert remaining + rs.interfaces[k..] == remaining;
    } else {
      var e, rest := rs.interfaces[k], rs.interfaces[k + 1..];
      var one := DetachOne(s, f, rs.routerId, live, e);
      assert remaining + rs.interfaces[k..] == remaining + [e] + rest;
      ReplaceInterface(remaining, e, one.kept, rest);
      assert e in remaining + [e] + rest;
      DetachKeepsShape(specs, one.s, f, rs, live, k + 1, remaining + one.kept, err || one.err);
    }
  }

  lemma DeleteInterfacesKeepsShape(s: State, f: Fates, specs: seq<InterfaceSpec>, rs: RouterStatus)
    requires ShapedInterfaces(specs, rs.interfaces)
    ensures ShapedInterfaces(specs, DeleteInterfaces(s, f, rs).kept)
  {
    var g := Get(s, f, Router, rs.routerId);
    if HasManaged(rs.interfaces) && g.reply.Done? {
      assert [] + rs.interfaces[0..] == rs.interfaces;
      DetachKeepsShape(specs, g.s, f, rs, Interfaces(g.s.w, rs.routerId), 0, [], false);
    }
  }

  lemma DeleteRouterKeepsShape(s: State, f: Fates, q: RouterSpec, rs: RouterStatus)
    requires OneRouterFlags(q, rs) && KeyedInterfaces(rs.interfaces)
    ensures var one := DeleteRouter(s, f, rs);
            one.kept == [] || (|one.kept| == 1 && OneRouterFlags(q, one.kept[0]) && KeyedInterfaces(one.kept[0].interfaces))
  {
    DeleteInterfacesKeepsShape(s, f, q.interfaces, rs);
    var d := DeleteInterfaces(s, f, rs);
    assert OneRouterFlags(q, rs.(interfaces := d.kept));
  }

  ghost predicate ShapedRouters(specs: seq<RouterSpec>, rss: seq<RouterStatus>) {
    KeyedRouters(rss) && RouterFlags(specs, rss)
  }

  lemma RoutersReplace(
    specs: seq<RouterSpec>, q: RouterSpec, pre: seq<RouterStatus>, rs: RouterStatus, kept: seq<RouterStatus>, post: seq<RouterStatus>)
    requires ShapedRouters(specs, pre + [rs] + post) && q in specs && q.name == rs.name
    requires kept == [] || (|kept| == 1 && OneRouterFlags(q, kept[0]) && KeyedInterfaces(kept[0].interfaces))
    ensures ShapedRouters(specs, pre + kept + post)
  {
    ReplaceRouter(pre, rs, kept, post);
    forall r | r in pre + kept + post ensures exists q | q in specs :: OneRouterFlags(q, r) {
      if r !in kept { assert r in pre + [rs] + post; }
    }
  }

  lemma DeleteOneKeepsShape(specs: seq<RouterSpec>, s: State, f: Fates, pre: seq<RouterStatus>, rs: RouterStatus, post: seq<RouterStatus>)
    requires ShapedRouters(specs, pre + [rs] + post)
    ensures ShapedRouters(specs, pre + DeleteRouter(s, f, rs).kept + post)
  {
    KeyedMiddle(pre, rs, post);
    assert rs in pre + [rs] + post;
    var q :| q in specs && OneRouterFlags(q, rs);
    DeleteRouterKeepsShape(s, f, q, rs);
    RoutersReplace(specs, q, pre, rs, DeleteRouter(s, f, rs).kept, post);
  }

  lemma {:induction false} DeleteRoutersKeepsShape(
    specs: seq<RouterSpec>, s: State, f: Fates, rss: seq<RouterStatus>, k: nat, remaining: seq<RouterStatus>, err: bool)
    requires k <= |rss| && ShapedRouters(specs, remaining + rss[k..])
    ensures ShapedRouters(specs, DeleteRoutersFrom(s, f, rss, k, remaining, err).s.st.routers)
    decreases |rss| - k
  {
    if k == |rss| {
      assert remaining + rss[k..] == remaining;
    } else {
      var rs, rest := rss[k], rss[k + 1..];
      assert remaining + rss[k..] == remaining + [rs] + rest;
      DeleteOneKeepsShape(specs, s, f, remaining, rs, rest);
      var one := DeleteRouter(s, f, rs);
      DeleteRoutersKeepsShape(specs, one.s, f, rss, k + 1, remaining + one.kept, err || one.err);
    }
  }

  ghost predicate ShapedNetworks(specs: seq<NetworkSpec>, ns: seq<NetworkStatus>) {
    KeyedNetworks(ns) && NetworkFlags(specs, ns)
  }

  lemma NetworksReplace(specs: seq<NetworkSpec>, pre: seq<NetworkStatus>, n: NetworkStatus, post: seq<NetworkStatus>)
    requires ShapedNetworks(specs, pre + ([n] + post))
    ensures ShapedNetworks(specs, pre + post) && ShapedNetworks(specs, pre + [n] + post)
  {
    assert pre + [n] + post == pre + ([n] + post);
    DropNetwork(pre, n, post);
    forall m | m in pre + post ensures m in pre + [n] + post {
    }
  }

  lemma {:induction false} DeleteNetworksKeepsShape(
    specs: seq<NetworkSpec>, s: State, f: Fates, ns: seq<NetworkStatus>, k: nat, remaining: seq<NetworkStatus>, err: bool)
    requires ShapedNetworks(specs, s.st.networks) && k <= |ns| && ShapedNetworks(specs, remaining + ns[k..])
    ensures ShapedNetworks(specs, DeleteNetworksFrom(s, f, ns, k, remaining, err).s.st.networks)
    decreases |ns| - k
  {
    if k == |ns| {
      assert remaining + ns[k..] == remaining;
    } else {
      var n, rest := ns[k], ns[k + 1..];
      assert ns[k..] == [n] + rest;
      NetworksReplace(specs, remaining, n, rest);
      if !n.managed {
        DeleteNetworksKeepsShape(specs, s, f, ns, k + 1, remaining + [n], err);
      } else if n.networkId == NO_ID {
        DeleteNetworksKeepsShape(specs, s, f, ns, k + 1, remaining, err);
      } else {
        var c := Delete(s, f, Network, n.networkId);
        DeleteNetworksKeepsShape(specs, c.s, f, ns, k + 1, remaining, err);
        DeleteNetworksKeepsShape(specs, c.s, f, ns, k + 1, remaining + [n], true);
      }
    }
  }

  lemma DeleteAfterGroupsKeepsShape(g: Stage, f: Fates)
    requires Shaped(g.s)
    ensures Shaped(DeleteAfterGroups(g, f).s)
  {
    if g.flow == Proceed {
      RouterStageKeepsShape(g.s, f);
      NetworkStageKeepsShape(DeleteRouters(g.s, f).s, f);
    }
  }

  lemma RouterStageKeepsShape(s: State, f: Fates)
    requires Shaped(s)
    ensures Shaped(DeleteRouters(s, f).s)
  {
    var rss := s.st.routers;
    assert [] + rss[0..] == rss;
    DeleteRoutersKeepsShape(s.spec.routers, s, f, rss, 0, [], false);
  }

  lemma NetworkStageKeepsShape(s: State, f: Fates)
    requires Shaped(s)
    ensures Shaped(DeleteNetworks(s, f).s)
  {
    var ns := s.st.networks;
    assert [] + ns[0..] == ns;
    DeleteNetworksKeepsShape(s.spec.networks, s, f, ns, 0, [], false);
  }

  lemma DeletePassKeepsShape(s: State, f: Fates, kube: Kube)
    requires Shaped(s)
    ensures Shaped(ReconcileDelete(s, f, kube).s)
  {
    var p := DeleteFloatingIp(s, f);
    var lb := DeleteLoadBalancer(p.s, f);
    DeleteAfterGroupsKeepsShape(DeleteServerGroups(lb.s, f, kube.machines), f);
  }

  // ------------------------------------------------------------------- whole runs

  lemma KeptFlags(was: Spec, now: Spec, st: Status)
    requires UpdateValid(was, now) && FlagsFollowSpec(was, st)
    ensures FlagsFollowSpec(now, st)
  {
    forall n | n in st.networks
      ensures exists m | m in now.networks :: m.name == n.name && n.managed == (m.uuid == NO_ID)
    {
      var m :| m in was.networks && m.name == n.name && n.managed == (m.uuid == NO_ID);
      var k :| 0 <= k < |now.networks| && SameNetwork(m, now.networks[k]);
      assert now.networks[k] in now.networks;
    }
    forall r | r in st.routers ensures exists q | q in now.routers :: OneRouterFlags(q, r) {
      var q :| q in was.routers && OneRouterFlags(q, r);
      var k :| 0 <= k < |now.routers| && RouterKept(q, now.routers[k]);
      KeptInterfaceFlags(q.interfaces, now.routers[k].interfaces, r.interfaces);
      assert now.routers[k] in now.routers;
    }
  }

  lemma KeptInterfaceFlags(was: seq<InterfaceSpec>, now: seq<InterfaceSpec>, es: seq<InterfaceStatus>)
    requires InterfacesKept(was, now) && InterfaceFlags(was, es)
    ensures InterfaceFlags(now, es)
  {
    forall e | e in es ensures exists d | d in now :: d.network == e.network && e.managed == (d.uuid == NO_ID) {
      var d :| d in was && d.network == e.network && e.managed == (d.uuid == NO_ID);
      var k :| 0 <= k < |now| && SameInterface(d, now[k]);
      assert now[k] in now;
    }
  }

  lemma StepKeepsShape(env: Env, s: State, e: Event)
    requires Shaped(s)
    ensures Shaped(Step(env, s, e))
  {
    match e
    case Wake(f, kube) =>
      var t := s.(clock := 0);
      NormalPassKeepsShape(t.(finalizer := true), f, kube);
      DeletePassKeepsShape(t, f, kube);
    case Update(wish) =>
      var now := Admit(env, s.spec, wish);
      if now != s.spec {
        AdmittedUpdateExtends(s.spec, now);
        KeptFlags(s.spec, now, s.st);
      }
    case _ =>
  }

  lemma {:induction false} RunKeepsShape(env: Env, trace: seq<State>, es: seq<Event>, k: nat)
    requires IsRun(env, trace, es) && k <= |es|
    ensures Shaped(trace[k])
    decreases k
  {
    if k == 0 {
      CreatedIsSafe(env, trace[0]);
    } else {
      RunKeepsShape(env, trace, es, k - 1);
      StepKeepsShape(env, trace[k - 1], es[k - 1]);
      assert Follows(env, trace[k - 1], es[k - 1], trace[k - 1 + 1]);
    }
  }

  /** Status well-formedness at every point of every run, whatever others do to the cloud. */
  lemma StatusIsWellFormed(env: Env, trace: seq<State>, es: seq<Event>, k: nat)
    requires IsRun(env, trace, es) && k <= |es|
    ensures UniqueEntries(trace[k].st) && FlagsFollowSpec(trace[k].spec, trace[k].st)
  {
    RunKeepsShape(env, trace, es, k);
    KeyedIsUnique(trace[k].st);
  }
}
