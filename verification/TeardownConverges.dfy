/** Whole undisturbed delete passes, one and several, from any status and from the states of peaceful runs. */
module TeardownConverges {
  import opened Types
  import opened Cloud
  import opened Networks
  import opened Routers
  import opened LoadBalancer
  import opened FloatingIps
  import opened ServerGroups
  import opened Controller
  import opened Ownership
  import opened Runs
  import opened AtMostOne
  import opened Safety
  import opened StatusShape
  import opened Teardown
  import opened FamilyRuns
  import opened TeardownEnds

  // --------------------------------------------------------------------- one pass

  ghost predicate RoutersClear(s: State) {
    forall k | 0 <= k < |s.st.routers| :: RouterClear(s.w.ifaces, s.st.networks, s.st.routers, k)
  }

  /** The interfaces no entry names: what an undisturbed pass leaves. */
  ghost function Strays(s: State): Wiring {
    Unnamed(s.w.ifaces, s.st.networks, s.st.routers)
  }

  ghost predicate NetworksClear(s: State) {
    AllClear(Strays(s), s.st.networks, 0)
  }

  /** How an undisturbed pass ends, and what it leaves. */
  ghost predicate PassEnds(s: State, machines: seq<Machine>, e: Stage) {
    && Lawful(e.s.w) && Took(s.w, e.s.w) && GroupsLeft(e.s.w.groups, s.w.groups)
    && (e.flow == Proceed <==> NoServers(s.w, machines) && RoutersClear(s) && NetworksClear(s))
    && (NoServers(s.w, machines) ==> Emptied(s, e.s))
  }

  ghost predicate Emptied(s: State, t: State) {
    && t.w.ifaces == Strays(s) && LeftOver(t.st.routers, s.st.routers)
    && Stays(t.st.routers, s.w.ifaces, s.st.networks, s.st.routers, |s.st.routers|)
    && NetworksKeep(t.st.networks, Strays(s), s.st.networks, |s.st.networks|)
  }

  /** The lists, interfaces and groups are as they were. */
  ghost predicate SameLists(s: State, t: State) {
    && t.st.routers == s.st.routers && t.st.networks == s.st.networks
    && t.w.ifaces == s.w.ifaces && t.w.groups == s.w.groups
  }

  lemma FipGoesCleanly(s: State, f: Fates)
    requires Lawful(s.w) && Undisturbed(f)
    ensures var e := DeleteFloatingIp(s, f); e.flow == Proceed && Lawful(e.s.w) && Took(s.w, e.s.w) && SameLists(s, e.s)
  {
    if s.st.fip != NO_ID { DeleteSucceeds(s, f, FloatingIp, s.st.fip); }
    DeleteIsLawful(s, f, FloatingIp, s.st.fip);
  }

  lemma LbGoesCleanly(s: State, f: Fates)
    requires Lawful(s.w) && Undisturbed(f)
    ensures var e := DeleteLoadBalancer(s, f); e.flow == Proceed && Lawful(e.s.w) && Took(s.w, e.s.w) && SameLists(s, e.s)
  {
    if s.st.lbId != NO_ID { DeleteSucceeds(s, f, LoadBalancer, s.st.lbId); }
    DeleteIsLawful(s, f, LoadBalancer, s.st.lbId);
  }

  lemma AllRoutersGo(s: State, f: Fates)
    requires Lawful(s.w) && Undisturbed(f)
    ensures var e := DeleteRouters(s, f);
            && Lawful(e.s.w) && Took(s.w, e.s.w) && e.s.w.ifaces == Strays(s) && e.s.w.groups == s.w.groups
            && (e.flow == Proceed <==> RoutersClear(s))
            && LeftOver(e.s.st.routers, s.st.routers)
            && Stays(e.s.st.routers, s.w.ifaces, s.st.networks, s.st.routers, |s.st.routers|)
  {
    assert Unnamed(s.w.ifaces, s.st.networks, s.st.routers[..0]) == s.w.ifaces;
    RoutersGoCleanly(s, f, s.w.ifaces, s.st.routers, 0, [], false);
  }

  lemma AfterGroupsEnds(s: State, f: Fates)
    requires Lawful(s.w) && Undisturbed(f)
    ensures var e := DeleteAfterGroups(Stage(s, Proceed), f);
            && Lawful(e.s.w) && Took(s.w, e.s.w) && e.s.w.groups == s.w.groups && Emptied(s, e.s)
            && (e.flow == Proceed <==> RoutersClear(s) && NetworksClear(s))
  {
    AllRoutersGo(s, f);
    var r := DeleteRouters(s, f);
    if r.flow == Proceed {
      NetworksGoCleanly(r.s, f, r.s.st.networks, 0, [], false);
      TookTransitive(s.w, r.s.w, DeleteNetworks(r.s, f).s.w);
    }
  }

  lemma AfterLbEnds(s: State, f: Fates, kube: Kube)
    requires Lawful(s.w) && Undisturbed(f) && DistinctGroups(s.w.groups)
    ensures PassEnds(s, kube.machines, DeleteAfterLb(Stage(s, Proceed), f, kube))
  {
    ServerGroupsGoCleanly(s, f, kube.machines);
    ServerGroupsAreLawful(s, f, kube.machines);
    var g := DeleteServerGroups(s, f, kube.machines);
    if g.flow == Proceed {
      AfterGroupsEnds(g.s, f);
      TookTransitive(s.w, g.s.w, DeleteAfterGroups(g, f).s.w);
    }
  }

  lemma SameEnds(s: State, t: State, machines: seq<Machine>, e: Stage)
    requires SameLists(s, t) && Took(s.w, t.w) && PassEnds(t, machines, e)
    ensures PassEnds(s, machines, e)
  {
    TookTransitive(s.w, t.w, e.s.w);
  }

  lemma PassEndsSo(s: State, f: Fates, kube: Kube)
    requires Lawful(s.w) && Undisturbed(f) && DistinctGroups(s.w.groups)
    ensures PassEnds(s, kube.machines, ReconcileDelete(s, f, kube))
  {
    FipGoesCleanly(s, f);
    var p := DeleteFloatingIp(s, f);
    LbGoesCleanly(p.s, f);
    var lb := DeleteLoadBalancer(p.s, f);
    AfterLbEnds(lb.s, f, kube);
    assert lb == Stage(lb.s, Proceed);
    TookTransitive(s.w, p.s.w, lb.s.w);
    SameEnds(s, lb.s, kube.machines, ReconcileDelete(s, f, kube));
  }

  /** An undisturbed pass removes the finalizer exactly when servers, managed routers and managed networks let it. */
  lemma OnePassFinishesIff(s: State, f: Fates, kube: Kube)
    requires Lawful(s.w) && DistinctGroups(s.w.groups) && Undisturbed(f) && s.finalizer
    ensures !ReconcileDelete(s, f, kube).s.finalizer <==>
            NoServers(s.w, kube.machines) && RoutersClear(s) && NetworksClear(s)
  {
    PassEndsSo(s, f, kube);
    FinalizerGoesWithTheLastEntry(s, f, kube);
  }

  // --------------------------------------------------------------- several passes

  /** No managed router or network carries an interface that no managed entry names. */
  ghost predicate AllNamed(s: State) {
    (forall r | r in s.st.routers && r.managed :: !OnRouter(Strays(s), r.routerId)) && NetworksClear(s)
  }

  ghost predicate Stuck(s: State, machines: seq<Machine>) {
    !NoServers(s.w, machines) || !AllNamed(s)
  }

  ghost predicate Open(s: State, machines: seq<Machine>) {
    NoServers(s.w, machines) && RoutersClear(s) && NetworksClear(s)
  }

  lemma FewerOnRouter(m: Wiring, nets: seq<NetworkStatus>, rss: seq<RouterStatus>, k: nat, id: Id)
    requires k <= |rss| && OnRouter(Unnamed(m, nets, rss), id)
    ensures OnRouter(Unnamed(m, nets, rss[..k]), id)
  {
    var i :| i in Unnamed(m, nets, rss) && m[i].router == id;
    assert !NamedIn(nets, rss[..k], m[i], i);
    assert i in Unnamed(m, nets, rss[..k]);
  }

  /** A managed router with a stray on it is not clear when its turn comes. */
  lemma StrayIsNotClear(s: State, k: nat)
    requires k < |s.st.routers| && s.st.routers[k].managed && OnRouter(Strays(s), s.st.routers[k].routerId)
    ensures !RouterClear(s.w.ifaces, s.st.networks, s.st.routers, k)
  {
    FewerOnRouter(s.w.ifaces, s.st.networks, s.st.routers, k + 1, s.st.routers[k].routerId);
  }

  lemma StuckIsNotOpen(s: State, machines: seq<Machine>)
    requires Stuck(s, machines)
    ensures !Open(s, machines)
  {
    if exists r :: r in s.st.routers && r.managed && OnRouter(Strays(s), r.routerId) {
      var r :| r in s.st.routers && r.managed && OnRouter(Strays(s), r.routerId);
      var k :| 0 <= k < |s.st.routers| && s.st.routers[k] == r;
      StrayIsNotClear(s, k);
    }
  }

  lemma ServersStay(s: State, t: State, machines: seq<Machine>)
    requires GroupsLeft(t.w.groups, s.w.groups)
    ensures NoServers(t.w, machines) <==> NoServers(s.w, machines)
  {
    if !NoServers(s.w, machines) {
      var g :| g in s.w.groups && g.owned && HoldsOwned(g, OwnedServers(machines));
      assert g in t.w.groups;
    }
  }

  /** Once no entry is managed nothing is named, so what is there is stray. */
  lemma AllAreStrays(s: State, t: State)
    requires Emptied(s, t)
    ensures Strays(t) == Strays(s)
  {
    forall i | i in t.w.ifaces ensures !NamedIn(t.st.networks, t.st.routers, t.w.ifaces[i], i) {
      forall r | r in t.st.routers ensures !AnyNames(t.st.networks, r.routerId, r.interfaces, t.w.ifaces[i], i) {
        assert !HasManaged(r.interfaces);
      }
    }
  }

  lemma StrayStays(s: State, t: State)
    requires Emptied(s, t) && !AllNamed(s)
    ensures !AllNamed(t)
  {
    AllAreStrays(s, t);
    if exists r :: r in s.st.routers && r.managed && OnRouter(Strays(s), r.routerId) {
      var r :| r in s.st.routers && r.managed && OnRouter(Strays(s), r.routerId);
      var k :| 0 <= k < |s.st.routers| && s.st.routers[k] == r;
      StrayIsNotClear(s, k);
      var q :| q in t.st.routers && q.managed && q.routerId == s.st.routers[k].routerId;
    } else {
      var j :| 0 <= j < |s.st.networks| && !NetworkClear(Strays(s), s.st.networks[j]);
      var n := s.st.networks[j];
      assert n in t.st.networks;
      var l :| 0 <= l < |t.st.networks| && t.st.networks[l] == n;
    }
  }

  lemma NamedIsOpenNext(s: State, t: State)
    requires Emptied(s, t) && AllNamed(s)
    ensures RoutersClear(t) && NetworksClear(t)
  {
    AllAreStrays(s, t);
    forall k | 0 <= k < |t.st.routers| ensures RouterClear(t.w.ifaces, t.st.networks, t.st.routers, k) {
      var r := t.st.routers[k];
      assert r in t.st.routers;
      var q :| q in s.st.routers && q.routerId == r.routerId && q.managed == r.managed;
      if r.managed { assert !OnRouter(t.w.ifaces, r.routerId); }
    }
    forall l | 0 <= l < |t.st.networks| ensures NetworkClear(Strays(t), t.st.networks[l]) {
      assert t.st.networks[l] in s.st.networks;
      var j :| 0 <= j < |s.st.networks| && s.st.networks[j] == t.st.networks[l];
    }
  }

  ghost predicate UndisturbedPasses(passes: seq<Attempt>, machines: seq<Machine>) {
    forall k | 0 <= k < |passes| :: Undisturbed(passes[k].f) && passes[k].kube.machines == machines
  }

  /** What every undisturbed pass keeps. */
  ghost predicate Steadfast(s: State) {
    Lawful(s.w) && DistinctGroups(s.w.groups) && s.deleting
  }

  lemma StuckStays(s: State, machines: seq<Machine>, e: Stage)
    requires PassEnds(s, machines, e) && Stuck(s, machines)
    ensures Stuck(e.s, machines) && e.flow != Proceed
  {
    StuckIsNotOpen(s, machines);
    ServersStay(s, e.s, machines);
    if NoServers(s.w, machines) { StrayStays(s, e.s); }
  }

  lemma StuckDelete(s: State, f: Fates, kube: Kube)
    requires Steadfast(s) && Undisturbed(f) && Stuck(s, kube.machines)
    ensures var t := ReconcileDelete(s, f, kube).s; Steadfast(t) && Stuck(t, kube.machines) && t.finalizer == s.finalizer
  {
    PassEndsSo(s, f, kube);
    FinalizerGoesWithTheLastEntry(s, f, kube);
    StuckStays(s, kube.machines, ReconcileDelete(s, f, kube));
  }

  lemma StuckPass(s: State, a: Attempt)
    requires Steadfast(s) && Undisturbed(a.f) && Stuck(s, a.kube.machines)
    ensures var t := Reconcile(s, a.f, a.kube);
            Steadfast(t) && Stuck(t, a.kube.machines) && t.finalizer == s.finalizer
  {
    SameStrays(s, s.(clock := 0));
    StuckDelete(s.(clock := 0), a.f, a.kube);
  }

  lemma SameStrays(s: State, t: State)
    requires t.w == s.w && t.st == s.st
    ensures Strays(t) == Strays(s) && (AllNamed(t) <==> AllNamed(s))
  {
  }

  /** On the way out: the finalizer is gone, or the next pass will remove it. */
  ghost predicate Leaving(s: State, machines: seq<Machine>) {
    s.finalizer ==> Open(s, machines)
  }

  lemma FreePass(s: State, a: Attempt)
    requires Steadfast(s) && Undisturbed(a.f) && !Stuck(s, a.kube.machines)
    ensures var t := Reconcile(s, a.f, a.kube);
            && Steadfast(t) && !Stuck(t, a.kube.machines) && Leaving(t, a.kube.machines)
            && (Leaving(s, a.kube.machines) ==> !t.finalizer)
  {
    var u := s.(clock := 0);
    var e := ReconcileDelete(u, a.f, a.kube);
    PassEndsSo(u, a.f, a.kube);
    FinalizerGoesWithTheLastEntry(u, a.f, a.kube);
    ServersStay(u, e.s, a.kube.machines);
    NamedIsOpenNext(u, e.s);
    if Stuck(e.s, a.kube.machines) { StuckIsNotOpen(e.s, a.kube.machines); }
  }

  lemma {:induction false} StuckForGood(s: State, passes: seq<Attempt>, machines: seq<Machine>)
    requires Steadfast(s) && UndisturbedPasses(passes, machines) && Stuck(s, machines)
    ensures var t := Attempts(s, passes); Steadfast(t) && Stuck(t, machines) && t.finalizer == s.finalizer
    decreases |passes|
  {
    if passes != [] {
      var k := |passes| - 1;
      StuckForGood(s, passes[..k], machines);
      StuckPass(Attempts(s, passes[..k]), passes[k]);
    }
  }

  lemma {:induction false} FreeSoon(s: State, passes: seq<Attempt>, machines: seq<Machine>)
    requires Steadfast(s) && UndisturbedPasses(passes, machines) && !Stuck(s, machines)
    ensures var t := Attempts(s, passes);
            && Steadfast(t) && !Stuck(t, machines)
            && (|passes| >= 1 ==> Leaving(t, machines)) && (|passes| >= 2 ==> !t.finalizer)
    decreases |passes|
  {
    if passes != [] {
      var k := |passes| - 1;
      FreeSoon(s, passes[..k], machines);
      FreePass(Attempts(s, passes[..k]), passes[k]);
    }
  }

  /**
   From any status: two or more undisturbed passes remove the finalizer exactly when no group of the
   cluster holds one of its servers and each interface on a managed router or network is named.
   */
  lemma TwoPassesFinishIff(s: State, passes: seq<Attempt>, machines: seq<Machine>)
    requires Lawful(s.w) && DistinctGroups(s.w.groups) && s.finalizer && s.deleting
    requires UndisturbedPasses(passes, machines) && |passes| >= 2
    ensures !Attempts(s, passes).finalizer <==> NoServers(s.w, machines) && AllNamed(s)
  {
    if Stuck(s, machines) {
      StuckForGood(s, passes, machines);
    } else {
      FreeSoon(s, passes, machines);
    }
  }

  // ---------------------------------------------------------------- peaceful runs

  lemma MadeIsNoStray(env: Env, s: State, i: Id)
    requires Reachable(env, s) && i in s.w.ifaces && i in s.w.made
    ensures i !in Strays(s)
  {
    EveryInterfaceIsNamed(env, s, i);
    var r, e :| Names(s.st, s.w, r, e, i);
    assert EntryNames(s.st.networks, r.routerId, e, s.w.ifaces[i], i);
    assert AnyNames(s.st.networks, r.routerId, r.interfaces, s.w.ifaces[i], i);
  }

  lemma ManagedRouterIsMade(s: State, r: RouterStatus)
    requires Safe(s) && r in s.st.routers && r.managed
    ensures r.routerId in s.w.made
  {
    var k :| 0 <= k < |s.st.routers| && s.st.routers[k] == r;
    KeyedRoutersFound(s.st.routers, k);
    assert RouterOk(ViewOf(s), r.name);
  }

  lemma ManagedNetworkIsMade(s: State, n: NetworkStatus)
    requires Safe(s) && n in s.st.networks && n.managed
    ensures n.networkId in s.w.made
  {
    var k :| 0 <= k < |s.st.networks| && s.st.networks[k] == n;
    KeyedNetworksFound(s.st.networks, k);
    assert NetworkOk(ViewOf(s), n.name);
  }

  /** In a peaceful run every interface on a managed router or network is named. */
  lemma ReachableIsNamed(env: Env, s: State)
    requires Reachable(env, s)
    ensures AllNamed(s)
  {
    ReachableIsSafe(env, s);
    forall i | i in Strays(s) ensures i !in s.w.made {
      if i in s.w.made { MadeIsNoStray(env, s, i); }
    }
    forall r | r in s.st.routers && r.managed ensures !OnRouter(Strays(s), r.routerId) { ManagedRouterIsMade(s, r); }
    forall j | 0 <= j < |s.st.networks| ensures NetworkClear(Strays(s), s.st.networks[j]) {
      if s.st.networks[j].managed { ManagedNetworkIsMade(s, s.st.networks[j]); }
    }
  }

  /** After a peaceful run two undisturbed passes remove the finalizer exactly when the servers are gone. */
  lemma PeacefulTeardownEndsIff(
    env: Env, trace: seq<State>, es: seq<Event>, passes: seq<Attempt>, machines: seq<Machine>)
    requires IsRun(env, trace, es) && PeacefulRun(es) && ProperRun(es)
    requires var s := trace[|es|]; s.finalizer && s.deleting && DistinctGroups(s.w.groups)
    requires UndisturbedPasses(passes, machines) && |passes| >= 2
    ensures !Attempts(trace[|es|], passes).finalizer <==> NoServers(trace[|es|].w, machines)
  {
    var s := trace[|es|];
    assert Reachable(env, s);
    ReachableIsNamed(env, s);
    RunIsFit(env, trace, es, |es|);
    TwoPassesFinishIff(s, passes, machines);
  }
}
