/**
 When teardown ends. A pass whose calls all succeed, with nobody else at work, removes the
 finalizer exactly when no group of the cluster holds one of its servers and each managed router
 and network is, when its turn comes, free of interfaces. Two such passes do exactly when no
 managed router or network carries an interface that no managed entry names.
 */
module TeardownEnds {
  import opened Types
  import opened Cloud
  import opened Networks
  import opened Routers
  import opened ServerGroups
  import opened Ownership
  import opened AtMostOne

  /** Every call succeeds, and nobody else does anything. */
  ghost predicate Undisturbed(f: Fates) {
    forall k: nat :: f(k).outcome == Ok && f(k).outside == []
  }

  lemma TickOnly(s: State, f: Fates)
    requires Undisturbed(f)
    ensures Tick(s, f) == s.(clock := s.clock + 1) && f(s.clock).outcome == Ok
  {
  }

  /** Groups have ids of their own. */
  ghost predicate DistinctGroups(gs: seq<ServerGroup>) {
    forall g, h | g in gs && h in gs && g.id == h.id :: g == h
  }

  // ------------------------------------------------------------------- who names what

  /** The entry of that router stands for the interface on that attachment. */
  predicate EntryNames(nets: seq<NetworkStatus>, router: Id, e: InterfaceStatus, a: Attachment, i: Id) {
    && e.managed && a.router == router
    && (e.interfaceId == i || (e.interfaceId == NO_ID && a.network == NetworkIdOf(nets, e.network)))
  }

  predicate AnyNames(nets: seq<NetworkStatus>, router: Id, es: seq<InterfaceStatus>, a: Attachment, i: Id) {
    exists e | e in es :: EntryNames(nets, router, e, a, i)
  }

  predicate NamedIn(nets: seq<NetworkStatus>, rss: seq<RouterStatus>, a: Attachment, i: Id) {
    exists r | r in rss :: AnyNames(nets, r.routerId, r.interfaces, a, i)
  }

  type Wiring = map<Id, Attachment>

  ghost function WithoutNamed(m: Wiring, nets: seq<NetworkStatus>, router: Id, es: seq<InterfaceStatus>): Wiring {
    map i | i in m && !AnyNames(nets, router, es, m[i], i) :: m[i]
  }

  ghost function Unnamed(m: Wiring, nets: seq<NetworkStatus>, rss: seq<RouterStatus>): Wiring {
    map i | i in m && !NamedIn(nets, rss, m[i], i) :: m[i]
  }

  lemma AnyNamesSplit(nets: seq<NetworkStatus>, router: Id, e: InterfaceStatus, rest: seq<InterfaceStatus>, a: Attachment, i: Id)
    ensures AnyNames(nets, router, [e] + rest, a, i) <==> EntryNames(nets, router, e, a, i) || AnyNames(nets, router, rest, a, i)
  {
    if EntryNames(nets, router, e, a, i) { assert e in [e] + rest; }
    if AnyNames(nets, router, rest, a, i) {
      var d :| d in rest && EntryNames(nets, router, d, a, i);
      assert d in [e] + rest;
    }
  }

  lemma WithoutFirst(m: Wiring, nets: seq<NetworkStatus>, router: Id, e: InterfaceStatus, rest: seq<InterfaceStatus>)
    ensures WithoutNamed(m, nets, router, [e] + rest) == WithoutNamed(WithoutNamed(m, nets, router, [e]), nets, router, rest)
  {
    forall i | i in m
      ensures AnyNames(nets, router, [e] + rest, m[i], i) <==>
              AnyNames(nets, router, [e], m[i], i) || AnyNames(nets, router, rest, m[i], i)
    {
      AnyNamesSplit(nets, router, e, rest, m[i], i);
    }
  }

  lemma NamedSplit(nets: seq<NetworkStatus>, rss: seq<RouterStatus>, k: nat, a: Attachment, i: Id)
    requires k < |rss|
    ensures NamedIn(nets, rss[..k + 1], a, i) <==>
            NamedIn(nets, rss[..k], a, i) || AnyNames(nets, rss[k].routerId, rss[k].interfaces, a, i)
  {
    assert rss[..k + 1] == rss[..k] + [rss[k]];
  }

  lemma OneMoreRouter(m: Wiring, nets: seq<NetworkStatus>, rss: seq<RouterStatus>, k: nat)
    requires k < |rss|
    ensures Unnamed(m, nets, rss[..k + 1]) == WithoutNamed(Unnamed(m, nets, rss[..k]), nets, rss[k].routerId, rss[k].interfaces)
  {
    forall i | i in m
      ensures NamedIn(nets, rss[..k + 1], m[i], i) <==>
              NamedIn(nets, rss[..k], m[i], i) || AnyNames(nets, rss[k].routerId, rss[k].interfaces, m[i], i)
    {
      NamedSplit(nets, rss, k, m[i], i);
    }
  }

  // --------------------------------------------------------------------- detaching

  /** Apart from interfaces only the history of targets moved on. */
  ghost predicate SameBut(w: World, v: World, ifaces: Wiring) {
    v == w.(ifaces := ifaces, targets := v.targets)
  }

  /** Nothing was made, and interfaces that went were targeted. */
  ghost predicate Took(w: World, v: World) {
    && v.made == w.made && w.targets <= v.targets
    && forall i | i in w.ifaces && i !in v.ifaces :: i in v.targets
  }

  lemma TookTransitive(u: World, v: World, w: World)
    requires Took(u, v) && Took(v, w)
    ensures Took(u, w)
  {
  }

  /** The interfaces left are among those the read showed. */
  ghost predicate Among(m: Wiring, n: Wiring) {
    forall i | i in m :: i in n && m[i] == n[i]
  }

  /** What a managed entry resolves to is what it names. */
  lemma ResolveIsNaming(s: State, w0: World, router: Id, e: InterfaceStatus, i: Id)
    requires CloudOk(w0) && i in w0.ifaces && e.managed
    ensures var live := Interfaces(w0, router);
            (i in live && Resolve(s, live, e) == i) <==> EntryNames(s.st.networks, router, e, w0.ifaces[i], i)
  {
    var live, network := Interfaces(w0, router), NetworkIdOf(s.st.networks, e.network);
    if e.interfaceId == NO_ID && w0.ifaces[i] == Attachment(router, network) {
      assert i in live && live[i] == network;
      var j := LiveOn(live, network);
      assert w0.ifaces[j] == w0.ifaces[i];
    }
  }

  lemma NamedByOne(s: State, w0: World, router: Id, e: InterfaceStatus)
    requires CloudOk(w0) && Among(s.w.ifaces, w0.ifaces)
    ensures var live, m := Interfaces(w0, router), s.w.ifaces;
            var id := Resolve(s, live, e);
            WithoutNamed(m, s.st.networks, router, [e]) == if e.managed && id in live then m - {id} else m
  {
    var live, m := Interfaces(w0, router), s.w.ifaces;
    forall i | i in m
      ensures AnyNames(s.st.networks, router, [e], m[i], i) <==> e.managed && i in live && Resolve(s, live, e) == i
    {
      assert e in [e];
      if e.managed { ResolveIsNaming(s, w0, router, e, i); }
    }
  }

  lemma DetachOneCleanly(s: State, f: Fates, w0: World, router: Id, e: InterfaceStatus)
    requires CloudOk(w0) && Undisturbed(f) && Among(s.w.ifaces, w0.ifaces)
    ensures var one := DetachOne(s, f, router, Interfaces(w0, router), e);
            && !one.err && !HasManaged(one.kept)
            && SameBut(s.w, one.s.w, WithoutNamed(s.w.ifaces, s.st.networks, router, [e])) && Took(s.w, one.s.w)
  {
    NamedByOne(s, w0, router, e);
    var live := Interfaces(w0, router);
    var id := Resolve(s, live, e);
    if e.managed && id in live { DetachSucceeds(s, f, router, id, w0); }
  }

  lemma DetachSucceeds(s: State, f: Fates, router: Id, id: Id, w0: World)
    requires Undisturbed(f) && Among(s.w.ifaces, w0.ifaces) && id in Interfaces(w0, router)
    ensures var c := DeleteInterface(s, f, router, id);
            (c.reply.Done? || c.reply.Missing?) && SameBut(s.w, c.s.w, s.w.ifaces - {id}) && Took(s.w, c.s.w)
  {
    TickOnly(s, f);
    if id !in s.w.ifaces { assert s.w.ifaces - {id} == s.w.ifaces; }
  }

  lemma {:induction false} DetachCleanly(
    s: State, f: Fates, w0: World, rs: RouterStatus, k: nat, remaining: seq<InterfaceStatus>)
    requires CloudOk(w0) && Undisturbed(f) && Among(s.w.ifaces, w0.ifaces) && k <= |rs.interfaces| && !HasManaged(remaining)
    ensures var d := DetachFrom(s, f, rs, Interfaces(w0, rs.routerId), k, remaining, false);
            && !d.err && !HasManaged(d.kept)
            && SameBut(s.w, d.s.w, WithoutNamed(s.w.ifaces, s.st.networks, rs.routerId, rs.interfaces[k..])) && Took(s.w, d.s.w)
    decreases |rs.interfaces| - k
  {
    if k == |rs.interfaces| {
      assert WithoutNamed(s.w.ifaces, s.st.networks, rs.routerId, []) == s.w.ifaces;
    } else {
      var e, rest := rs.interfaces[k], rs.interfaces[k + 1..];
      DetachOneCleanly(s, f, w0, rs.routerId, e);
      var one := DetachOne(s, f, rs.routerId, Interfaces(w0, rs.routerId), e);
      assert rs.interfaces[k..] == [e] + rest;
      WithoutFirst(s.w.ifaces, s.st.networks, rs.routerId, e, rest);
      DetachCleanly(one.s, f, w0, rs, k + 1, remaining + one.kept);
      TookTransitive(s.w, one.s.w, DetachFrom(s, f, rs, Interfaces(w0, rs.routerId), k, remaining, false).s.w);
    }
  }

  lemma InterfacesGoCleanly(s: State, f: Fates, rs: RouterStatus)
    requires Lawful(s.w) && Undisturbed(f)
    ensures var d := DeleteInterfaces(s, f, rs);
            && !d.err && !HasManaged(d.kept)
            && SameBut(s.w, d.s.w, WithoutNamed(s.w.ifaces, s.st.networks, rs.routerId, rs.interfaces)) && Took(s.w, d.s.w)
  {
    TickOnly(s, f);
    var g := Get(s, f, Router, rs.routerId);
    if HasManaged(rs.interfaces) && g.reply.Done? {
      assert rs.interfaces[0..] == rs.interfaces;
      DetachCleanly(g.s, f, g.s.w, rs, 0, []);
    } else {
      assert WithoutNamed(s.w.ifaces, s.st.networks, rs.routerId, rs.interfaces) == s.w.ifaces;
    }
  }

  // ----------------------------------------------------------------------- routers

  predicate OnRouter(m: Wiring, id: Id) {
    exists i | i in m :: m[i].router == id
  }

  predicate OnNetwork(m: Wiring, id: Id) {
    exists i | i in m :: m[i].network == id
  }

  lemma DeleteSucceeds(s: State, f: Fates, kind: Kind, id: Id)
    requires Lawful(s.w) && Undisturbed(f) && id != NO_ID
    ensures var c := Delete(s, f, kind, id);
            && c.s.w.ifaces == s.w.ifaces && c.s.w.groups == s.w.groups && !c.reply.Refused? && Took(s.w, c.s.w)
            && (c.reply.Done? || c.reply.Missing? <==>
                  !(kind.Router? && OnRouter(s.w.ifaces, id)) && !(kind.Network? && OnNetwork(s.w.ifaces, id)))
  {
    TickOnly(s, f);
  }

  lemma RouterGoesCleanly(s: State, f: Fates, rs: RouterStatus)
    requires Lawful(s.w) && Undisturbed(f)
    ensures var one, left := DeleteRouter(s, f, rs), WithoutNamed(s.w.ifaces, s.st.networks, rs.routerId, rs.interfaces);
            && one.s.w.ifaces == left && one.s.w.groups == s.w.groups && Took(s.w, one.s.w)
            && (one.err <==> rs.managed && OnRouter(left, rs.routerId))
            && (forall r | r in one.kept :: !HasManaged(r.interfaces) && r.routerId == rs.routerId && r.managed == rs.managed)
            && (one.err ==> one.kept != [])
  {
    if rs.routerId == NO_ID {
      assert WithoutNamed(s.w.ifaces, s.st.networks, rs.routerId, rs.interfaces) == s.w.ifaces;
    } else {
      InterfacesGoCleanly(s, f, rs);
      var d := DeleteInterfaces(s, f, rs);
      DeleteInterfacesIsLawful(s, f, rs);
      DeleteSucceeds(d.s, f, Router, rs.routerId);
      TookTransitive(s.w, d.s.w, DeleteRouter(s, f, rs).s.w);
    }
  }

  lemma DeleteInterfacesIsLawful(s: State, f: Fates, rs: RouterStatus)
    requires Lawful(s.w)
    ensures Lawful(DeleteInterfaces(s, f, rs).s.w)
  {
    TickIsLawful(s, f);
    var g := Get(s, f, Router, rs.routerId);
    DetachesAreLawful(g.s, f, rs, Interfaces(g.s.w, rs.routerId), 0, [], false);
  }

  /** When the loop gets to a managed router, the entries up to there name all its interfaces. */
  ghost predicate RouterClear(m: Wiring, nets: seq<NetworkStatus>, rss: seq<RouterStatus>, k: nat)
    requires k < |rss|
  {
    rss[k].managed ==> !OnRouter(Unnamed(m, nets, rss[..k + 1]), rss[k].routerId)
  }

  /** Nothing managed is named any more, and only routers that were recorded are. */
  ghost predicate LeftOver(remaining: seq<RouterStatus>, rss: seq<RouterStatus>) {
    forall r | r in remaining ::
      !HasManaged(r.interfaces) && exists q | q in rss :: q.routerId == r.routerId && q.managed == r.managed
  }

  /** A router that is not clear keeps its entry. */
  ghost predicate Stays(remaining: seq<RouterStatus>, m: Wiring, nets: seq<NetworkStatus>, rss: seq<RouterStatus>, k: nat)
    requires k <= |rss|
  {
    forall j | 0 <= j < k && !RouterClear(m, nets, rss, j) :: exists r | r in remaining :: r.managed && r.routerId == rss[j].routerId
  }

  lemma {:induction false} RoutersGoCleanly(
    s: State, f: Fates, m: Wiring, rss: seq<RouterStatus>, k: nat, remaining: seq<RouterStatus>, err: bool)
    requires Lawful(s.w) && Undisturbed(f) && k <= |rss| && s.w.ifaces == Unnamed(m, s.st.networks, rss[..k])
    requires LeftOver(remaining, rss) && Stays(remaining, m, s.st.networks, rss, k)
    ensures var e := DeleteRoutersFrom(s, f, rss, k, remaining, err);
            && Lawful(e.s.w) && e.s.w.ifaces == Unnamed(m, s.st.networks, rss) && e.s.w.groups == s.w.groups && Took(s.w, e.s.w)
            && (e.flow == Proceed <==> !err && forall j | k <= j < |rss| :: RouterClear(m, s.st.networks, rss, j))
            && LeftOver(e.s.st.routers, rss) && Stays(e.s.st.routers, m, s.st.networks, rss, |rss|)
    decreases |rss| - k
  {
    if k == |rss| {
      assert rss[..k] == rss;
    } else {
      var one, nets := DeleteRouter(s, f, rss[k]), s.st.networks;
      RouterGoesCleanly(s, f, rss[k]);
      OneMoreRouter(m, nets, rss, k);
      DeleteRouterIsLawful(s, f, rss[k]);
      assert one.err <==> !RouterClear(m, nets, rss, k);
      RemainingGrows(m, nets, rss, k, remaining, one.kept);
      RoutersGoCleanly(one.s, f, m, rss, k + 1, remaining + one.kept, err || one.err);
      TookTransitive(s.w, one.s.w, DeleteRoutersFrom(s, f, rss, k, remaining, err).s.w);
    }
  }

  lemma RemainingGrows(
    m: Wiring, nets: seq<NetworkStatus>, rss: seq<RouterStatus>, k: nat, remaining: seq<RouterStatus>, kept: seq<RouterStatus>)
    requires k < |rss| && LeftOver(remaining, rss) && Stays(remaining, m, nets, rss, k)
    requires forall r | r in kept :: !HasManaged(r.interfaces) && r.routerId == rss[k].routerId && r.managed == rss[k].managed
    requires !RouterClear(m, nets, rss, k) ==> kept != []
    ensures LeftOver(remaining + kept, rss) && Stays(remaining + kept, m, nets, rss, k + 1)
  {
    assert rss[k] in rss;
    forall j | 0 <= j < k + 1 && !RouterClear(m, nets, rss, j)
      ensures exists r | r in remaining + kept :: r.managed && r.routerId == rss[j].routerId
    {
      if j == k {
        assert kept[0] in kept && kept[0] in remaining + kept;
      } else {
        var r :| r in remaining && r.managed && r.routerId == rss[j].routerId;
        assert r in remaining + kept;
      }
    }
  }

  // ---------------------------------------------------------------------- networks

  ghost predicate NetworkClear(m: Wiring, n: NetworkStatus) {
    n.managed ==> !OnNetwork(m, n.networkId)
  }

  /** What is left so far: all of it was recorded, and what was not clear is among it. */
  ghost predicate NetworksKeep(remaining: seq<NetworkStatus>, m: Wiring, ns: seq<NetworkStatus>, k: nat)
    requires k <= |ns|
  {
    && (forall n | n in remaining :: n in ns)
    && (forall j | 0 <= j < k && !NetworkClear(m, ns[j]) :: ns[j] in remaining)
  }

  ghost predicate AllClear(m: Wiring, ns: seq<NetworkStatus>, k: nat)
    requires k <= |ns|
  {
    forall j | k <= j < |ns| :: NetworkClear(m, ns[j])
  }

  lemma OneNetworkMore(remaining: seq<NetworkStatus>, m: Wiring, ns: seq<NetworkStatus>, k: nat)
    requires k < |ns| && NetworksKeep(remaining, m, ns, k)
    ensures NetworksKeep(remaining + [ns[k]], m, ns, k + 1)
    ensures NetworkClear(m, ns[k]) ==> NetworksKeep(remaining, m, ns, k + 1)
    ensures AllClear(m, ns, k) <==> NetworkClear(m, ns[k]) && AllClear(m, ns, k + 1)
  {
    assert ns[k] in remaining + [ns[k]];
  }

  lemma NoIdIsClear(w: World, n: NetworkStatus)
    requires CloudOk(w) && n.networkId == NO_ID
    ensures NetworkClear(w.ifaces, n)
  {
  }

  /** How the network loop ends in an undisturbed pass. */
  ghost predicate NetworksEnd(s: State, ns: seq<NetworkStatus>, k: nat, err: bool, e: Stage)
    requires k <= |ns|
  {
    && Lawful(e.s.w) && e.s.w.ifaces == s.w.ifaces && e.s.w.groups == s.w.groups && Took(s.w, e.s.w)
    && (e.flow == Proceed <==> !err && AllClear(s.w.ifaces, ns, k))
    && NetworksKeep(e.s.st.networks, s.w.ifaces, ns, |ns|)
  }

  lemma {:induction false} NetworksGoCleanly(
    s: State, f: Fates, ns: seq<NetworkStatus>, k: nat, remaining: seq<NetworkStatus>, err: bool)
    requires Lawful(s.w) && Undisturbed(f) && k <= |ns| && NetworksKeep(remaining, s.w.ifaces, ns, k)
    ensures NetworksEnd(s, ns, k, err, DeleteNetworksFrom(s, f, ns, k, remaining, err))
    decreases |ns| - k, 1
  {
    if k == |ns| {
    } else if !ns[k].managed || ns[k].networkId == NO_ID {
      SkipCleanly(s, f, ns, k, remaining, err);
    } else {
      NetworkGoesCleanly(s, f, ns, k, remaining, err);
    }
  }

  lemma {:induction false} SkipCleanly(
    s: State, f: Fates, ns: seq<NetworkStatus>, k: nat, remaining: seq<NetworkStatus>, err: bool)
    requires Lawful(s.w) && Undisturbed(f) && k < |ns| && NetworksKeep(remaining, s.w.ifaces, ns, k)
    requires !ns[k].managed || ns[k].networkId == NO_ID
    ensures NetworksEnd(s, ns, k, err, DeleteNetworksFrom(s, f, ns, k, remaining, err))
    decreases |ns| - k, 0
  {
    Skipped(s, f, ns, k, remaining, err);
    OneNetworkMore(remaining, s.w.ifaces, ns, k);
    if ns[k].managed { NoIdIsClear(s.w, ns[k]); }
    NetworksGoCleanly(s, f, ns, k + 1, if ns[k].managed then remaining else remaining + [ns[k]], err);
  }

  lemma Skipped(s: State, f: Fates, ns: seq<NetworkStatus>, k: nat, remaining: seq<NetworkStatus>, err: bool)
    requires k < |ns| && (!ns[k].managed || ns[k].networkId == NO_ID)
    ensures DeleteNetworksFrom(s, f, ns, k, remaining, err) ==
            DeleteNetworksFrom(s, f, ns, k + 1, if ns[k].managed then remaining else remaining + [ns[k]], err)
  {
  }

  lemma {:induction false} NetworkGoesCleanly(
    s: State, f: Fates, ns: seq<NetworkStatus>, k: nat, remaining: seq<NetworkStatus>, err: bool)
    requires Lawful(s.w) && Undisturbed(f) && k < |ns| && NetworksKeep(remaining, s.w.ifaces, ns, k)
    requires ns[k].managed && ns[k].networkId != NO_ID
    ensures NetworksEnd(s, ns, k, err, DeleteNetworksFrom(s, f, ns, k, remaining, err))
    decreases |ns| - k, 0
  {
    var n := ns[k];
    OneNetworkMore(remaining, s.w.ifaces, ns, k);
    DeleteSucceeds(s, f, Network, n.networkId);
    DeleteIsLawful(s, f, Network, n.networkId);
    var c := Delete(s, f, Network, n.networkId);
    if NetworkClear(s.w.ifaces, n) {
      NetworksGoCleanly(c.s, f, ns, k + 1, remaining, err);
    } else {
      NetworksGoCleanly(c.s, f, ns, k + 1, remaining + [n], true);
    }
  }

  // ----------------------------------------------------------------- server groups

  /** No group of the cluster holds one of its servers. */
  ghost predicate NoServers(w: World, machines: seq<Machine>) {
    forall g | g in w.groups && g.owned :: !HoldsOwned(g, OwnedServers(machines))
  }

  lemma WithoutGroupKeeps(gs: seq<ServerGroup>, id: Id, g: ServerGroup)
    ensures g in WithoutGroup(gs, id) <==> g in gs && g.id != id
  {
  }

  /** Of these groups, all that hold a server are still there. */
  ghost predicate GroupsLeft(now: seq<ServerGroup>, was: seq<ServerGroup>) {
    && (forall g | g in now :: g in was)
    && (forall g | g in was && g.servers != [] :: g in now)
  }

  lemma GroupGoes(s: State, f: Fates, was: seq<ServerGroup>, g: ServerGroup)
    requires Undisturbed(f) && DistinctGroups(was) && GroupsLeft(s.w.groups, was) && g in was && g.servers == []
    ensures var c := DeleteGroup(s, f, g.id);
            && (c.reply.Done? || c.reply.Missing?) && GroupsLeft(c.s.w.groups, was)
            && c.s.w.ifaces == s.w.ifaces && Took(s.w, c.s.w)
  {
    TickOnly(s, f);
    assert Empty(s.w.groups, g.id);
    forall h ensures h in WithoutGroup(s.w.groups, g.id) <==> h in s.w.groups && h.id != g.id {
      WithoutGroupKeeps(s.w.groups, g.id, h);
    }
  }

  lemma {:induction false} GroupsGoCleanly(
    s: State, f: Fates, owned: set<Id>, was: seq<ServerGroup>, groups: seq<ServerGroup>, k: nat)
    requires Undisturbed(f) && DistinctGroups(was) && GroupsLeft(s.w.groups, was) && k <= |groups|
    requires forall g | g in groups :: g in was
    ensures var e := DeleteGroupsFrom(s, f, owned, groups, k);
            && e.s.w.ifaces == s.w.ifaces && Took(s.w, e.s.w) && GroupsLeft(e.s.w.groups, was)
            && (e.flow == Proceed <==> forall j | k <= j < |groups| :: !HoldsOwned(groups[j], owned))
    decreases |groups| - k
  {
    if k < |groups| && !HoldsOwned(groups[k], owned) {
      if groups[k].servers != [] {
        GroupsGoCleanly(s, f, owned, was, groups, k + 1);
      } else {
        GroupGoes(s, f, was, groups[k]);
        GroupsGoCleanly(DeleteGroup(s, f, groups[k].id).s, f, owned, was, groups, k + 1);
      }
    }
  }

  lemma OwnedGroupsAre(gs: seq<ServerGroup>, g: ServerGroup)
    ensures g in OwnedGroups(gs) <==> g in gs && g.owned
  {
  }

  lemma ServerGroupsGoCleanly(s: State, f: Fates, machines: seq<Machine>)
    requires Undisturbed(f) && DistinctGroups(s.w.groups)
    ensures var e := DeleteServerGroups(s, f, machines);
            && e.s.w.ifaces == s.w.ifaces && Took(s.w, e.s.w) && GroupsLeft(e.s.w.groups, s.w.groups)
            && (e.flow == Proceed <==> NoServers(s.w, machines))
  {
    TickOnly(s, f);
    var t := Tick(s, f);
    TickOnly(t, f);
    var u, groups := Tick(t, f), OwnedGroups(s.w.groups);
    forall g ensures g in groups <==> g in s.w.groups && g.owned { OwnedGroupsAre(s.w.groups, g); }
    GroupsGoCleanly(u, f, OwnedServers(machines), s.w.groups, groups, 0);
  }
}
