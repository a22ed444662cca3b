/**
 A load balancer that status records while the spec disables it: teardown does not touch it. So a
 recorded load balancer goes with the finalizer exactly when it is enabled.
 */
module DisabledLb {
  import opened Types
  import opened Cloud
  import opened Networks
  import opened Routers
  import opened FloatingIps
  import opened ServerGroups
  import opened Controller
  import opened Intrusion
  import opened AtMostOne
  import opened Teardown
  import opened TeardownTargets
  import opened FamilyRuns

  /** Nobody else deletes resources. */
  ghost predicate Sparing(acts: seq<Act>) {
    forall k | 0 <= k < |acts| :: !acts[k].Vanish?
  }

  ghost predicate SparingFates(f: Fates) {
    forall k: nat :: Sparing(f(k).outside)
  }

  ghost predicate SparingPasses(passes: seq<Attempt>) {
    forall k | 0 <= k < |passes| :: SparingFates(passes[k].f)
  }

  /** The load balancer, if it was there, still is. */
  ghost predicate Spares(w: World, v: World, lb: Id) {
    Lawful(v) && (IsKind(w.res, lb, LoadBalancer) ==> IsKind(v.res, lb, LoadBalancer))
  }

  // ---------------------------------------------------------------- single calls

  lemma OutsidersSpare(w: World, spec: Spec, acts: seq<Act>, lb: Id)
    requires Lawful(w) && Sparing(acts)
    ensures Spares(w, OutsideAll(w, spec, acts), lb)
    decreases acts
  {
    if acts != [] {
      ActIsLawful(w, spec, acts[0]);
      assert Spares(w, Outside(w, spec, acts[0]), lb);
      OutsidersSpare(Outside(w, spec, acts[0]), spec, acts[1..], lb);
    }
  }

  lemma TickSpares(s: State, f: Fates, lb: Id)
    requires Lawful(s.w) && SparingFates(f)
    ensures Spares(s.w, Tick(s, f).w, lb)
  {
    OutsidersSpare(s.w, s.spec, f(s.clock).outside, lb);
  }

  /** Nothing is above a load balancer, so only its own deletion removes it. */
  lemma RemoveSpares(w: World, id: Id, lb: Id)
    requires Lawful(w) && !IsKind(w.res, id, LoadBalancer) && IsKind(w.res, lb, LoadBalancer)
    ensures IsKind(Remove(w, id).res, lb, LoadBalancer)
  {
    assert ParentOk(w.res, LoadBalancer, w.res[lb].parent);
  }

  lemma DeleteSpares(s: State, f: Fates, kind: Kind, id: Id, lb: Id)
    requires Lawful(s.w) && SparingFates(f) && kind != LoadBalancer
    ensures Spares(s.w, Delete(s, f, kind, id).s.w, lb)
  {
    TickSpares(s, f, lb);
    DeleteIsLawful(s, f, kind, id);
    var t := Tick(s, f);
    var w := t.w.(targets := t.w.targets + {id});
    if IsKind(t.w.res, id, kind) && IsKind(t.w.res, lb, LoadBalancer) { RemoveSpares(w, id, lb); }
  }

  lemma DeleteInterfaceSpares(s: State, f: Fates, router: Id, iface: Id, lb: Id)
    requires Lawful(s.w) && SparingFates(f)
    ensures Spares(s.w, DeleteInterface(s, f, router, iface).s.w, lb)
  {
    TickSpares(s, f, lb);
    DeleteInterfaceIsLawful(s, f, router, iface);
  }

  lemma DetachSpares(
    s: State, f: Fates, rs: RouterStatus, live: map<Id, Id>, k: nat, remaining: seq<InterfaceStatus>, err: bool, lb: Id)
    requires Lawful(s.w) && SparingFates(f) && k <= |rs.interfaces|
    ensures Spares(s.w, DetachFrom(s, f, rs, live, k, remaining, err).s.w, lb)
    decreases |rs.interfaces| - k
  {
    if k < |rs.interfaces| {
      var e := rs.interfaces[k];
      DeleteInterfaceSpares(s, f, rs.routerId, Resolve(s, live, e), lb);
      var one := DetachOne(s, f, rs.routerId, live, e);
      DetachSpares(one.s, f, rs, live, k + 1, remaining + one.kept, err || one.err, lb);
    }
  }

  // ---------------------------------------------------------------------- stages

  lemma InterfacesSpare(s: State, f: Fates, rs: RouterStatus, lb: Id)
    requires Lawful(s.w) && SparingFates(f)
    ensures Spares(s.w, DeleteInterfaces(s, f, rs).s.w, lb)
  {
    TickSpares(s, f, lb);
    var g := Get(s, f, Router, rs.routerId);
    DetachSpares(g.s, f, rs, Interfaces(g.s.w, rs.routerId), 0, [], false, lb);
  }

  lemma RouterSpares(s: State, f: Fates, rs: RouterStatus, lb: Id)
    requires Lawful(s.w) && SparingFates(f)
    ensures Spares(s.w, DeleteRouter(s, f, rs).s.w, lb)
  {
    InterfacesSpare(s, f, rs, lb);
    DeleteSpares(DeleteInterfaces(s, f, rs).s, f, Router, rs.routerId, lb);
  }

  lemma RoutersSpare(s: State, f: Fates, rss: seq<RouterStatus>, k: nat, remaining: seq<RouterStatus>, err: bool, lb: Id)
    requires Lawful(s.w) && SparingFates(f) && k <= |rss|
    ensures Spares(s.w, DeleteRoutersFrom(s, f, rss, k, remaining, err).s.w, lb)
    decreases |rss| - k
  {
    if k < |rss| {
      RouterSpares(s, f, rss[k], lb);
      var one := DeleteRouter(s, f, rss[k]);
      RoutersSpare(one.s, f, rss, k + 1, remaining + one.kept, err || one.err, lb);
    }
  }

  lemma NetworksSpare(s: State, f: Fates, ns: seq<NetworkStatus>, k: nat, remaining: seq<NetworkStatus>, err: bool, lb: Id)
    requires Lawful(s.w) && SparingFates(f) && k <= |ns|
    ensures Spares(s.w, DeleteNetworksFrom(s, f, ns, k, remaining, err).s.w, lb)
    decreases |ns| - k
  {
    if k < |ns| {
      if !ns[k].managed {
        NetworksSpare(s, f, ns, k + 1, remaining + [ns[k]], err, lb);
      } else if ns[k].networkId == NO_ID {
        NetworksSpare(s, f, ns, k + 1, remaining, err, lb);
      } else {
        DeleteSpares(s, f, Network, ns[k].networkId, lb);
        var c := Delete(s, f, Network, ns[k].networkId);
        NetworksSpare(c.s, f, ns, k + 1, remaining, err, lb);
        NetworksSpare(c.s, f, ns, k + 1, remaining + [ns[k]], true, lb);
      }
    }
  }

  lemma DeleteGroupSpares(s: State, f: Fates, id: Id, lb: Id)
    requires Lawful(s.w) && SparingFates(f)
    ensures Spares(s.w, DeleteGroup(s, f, id).s.w, lb)
  {
    TickSpares(s, f, lb);
    AsideIsLawful(Tick(s, f).w, DeleteGroup(s, f, id).s.w);
  }

  lemma GroupsSpare(s: State, f: Fates, owned: set<Id>, groups: seq<ServerGroup>, k: nat, lb: Id)
    requires Lawful(s.w) && SparingFates(f) && k <= |groups|
    ensures Spares(s.w, DeleteGroupsFrom(s, f, owned, groups, k).s.w, lb)
    decreases |groups| - k
  {
    if k < |groups| && !HoldsOwned(groups[k], owned) {
      if groups[k].servers != [] {
        GroupsSpare(s, f, owned, groups, k + 1, lb);
      } else {
        DeleteGroupSpares(s, f, groups[k].id, lb);
        var c := DeleteGroup(s, f, groups[k].id);
        GroupsSpare(c.s, f, owned, groups, k + 1, lb);
      }
    }
  }

  lemma ServerGroupsSpare(s: State, f: Fates, machines: seq<Machine>, lb: Id)
    requires Lawful(s.w) && SparingFates(f)
    ensures Spares(s.w, DeleteServerGroups(s, f, machines).s.w, lb)
  {
    TickSpares(s, f, lb);
    var t := Tick(s, f);
    TickSpares(t, f, lb);
    var u := Tick(t, f);
    GroupsSpare(u, f, OwnedServers(machines), OwnedGroups(u.w.groups), 0, lb);
  }

  lemma AfterGroupsSpares(g: Stage, f: Fates, lb: Id)
    requires Lawful(g.s.w) && SparingFates(f)
    ensures Spares(g.s.w, DeleteAfterGroups(g, f).s.w, lb)
  {
    if g.flow == Proceed {
      RoutersSpare(g.s, f, g.s.st.routers, 0, [], false, lb);
      var r := DeleteRouters(g.s, f);
      NetworksSpare(r.s, f, r.s.st.networks, 0, [], false, lb);
    }
  }

  lemma AfterFipSpares(p: Stage, f: Fates, kube: Kube, lb: Id)
    requires Lawful(p.s.w) && SparingFates(f) && !LbEnabled(p.s.spec)
    ensures Spares(p.s.w, DeleteAfterFip(p, f, kube).s.w, lb)
  {
    if p.flow == Proceed {
      ServerGroupsSpare(p.s, f, kube.machines, lb);
      AfterGroupsSpares(DeleteServerGroups(p.s, f, kube.machines), f, lb);
    }
  }

  // ---------------------------------------------------------------- whole passes

  lemma DeletePassSpares(s: State, f: Fates, kube: Kube, lb: Id)
    requires Lawful(s.w) && SparingFates(f) && !LbEnabled(s.spec)
    ensures Spares(s.w, ReconcileDelete(s, f, kube).s.w, lb)
  {
    DeleteSpares(s, f, FloatingIp, s.st.fip, lb);
    AfterFipSpares(DeleteFloatingIp(s, f), f, kube, lb);
  }

  lemma {:induction false} PassesKeepIds(s: State, passes: seq<Attempt>)
    requires Fit(s) && s.deleting && !LbEnabled(s.spec)
    ensures SameParts(s.st, Attempts(s, passes).st)
    decreases |passes|
  {
    if passes != [] {
      var k := |passes| - 1;
      PassesKeepIds(s, passes[..k]);
      AttemptsCarry(s, passes[..k]);
      var t := Attempts(s, passes[..k]);
      DeletePassKeepsIds(t.(clock := 0), passes[k].f, passes[k].kube);
    }
  }

  lemma {:induction false} PassesSpare(s: State, passes: seq<Attempt>, lb: Id)
    requires Fit(s) && s.deleting && SparingPasses(passes) && !LbEnabled(s.spec)
    ensures Spares(s.w, Attempts(s, passes).w, lb)
    decreases |passes|
  {
    if passes != [] {
      var k := |passes| - 1;
      PassesSpare(s, passes[..k], lb);
      AttemptsCarry(s, passes[..k]);
      var t := Attempts(s, passes[..k]);
      DeletePassSpares(t.(clock := 0), passes[k].f, passes[k].kube, lb);
    }
  }

  /** Unless others delete it, a recorded load balancer goes with the finalizer exactly when it is enabled. */
  lemma LoadBalancerGoesIff(s: State, passes: seq<Attempt>)
    requires Fit(s) && s.finalizer && s.deleting && SparingPasses(passes) && !Attempts(s, passes).finalizer
    requires IsKind(s.w.res, s.st.lbId, LoadBalancer)
    ensures !IsKind(Attempts(s, passes).w.res, s.st.lbId, LoadBalancer) <==> LbEnabled(s.spec)
  {
    if LbEnabled(s.spec) {
      assert Recorded(s.spec, s.st, ALoadBalancer(s.st.lbId));
      NothingRecordedSurvives(s, passes, ALoadBalancer(s.st.lbId));
    } else {
      PassesSpare(s, passes, s.st.lbId);
    }
  }

  /** Disabled, it is never cleared from status and, unless status has its id elsewhere too, never targeted. */
  lemma DisabledIsLeft(s: State, passes: seq<Attempt>)
    requires Fit(s) && s.deleting && !LbEnabled(s.spec)
    ensures var t := Attempts(s, passes);
            SameParts(s.st, t.st) && (s.st.lbId in t.w.targets ==> s.st.lbId in s.w.targets || Allowed(s, s.st.lbId))
  {
    PassesKeepIds(s, passes);
    TeardownIsConfined(s, passes);
  }

  // --------------------------------------------------------------------- a witness

  const STRAY: Id := 1

  /** The load balancer was recorded, and the spec now disables it. No run leads here. */
  function Stray(a: Name): State {
    State(World(map[STRAY := Resource(LoadBalancer, Some(Owned), NO_ID)], map[], [], [], map[], 2, {STRAY}, {}, {}),
          EMPTY_STATUS.(lbId := STRAY), SharedSpec(a), 0, true, true)
  }

  lemma OneQuietPass(a: Name)
    ensures !Reconcile(Stray(a), Quiet, NOBODY).finalizer
  {
    var s := Stray(a);
    assert OutsideAll(s.w, s.spec, []) == s.w;
    assert DeleteServerGroups(s, Quiet, []) == Stage(s.(clock := 2), Proceed);
    var u := s.(clock := 2);
    assert DeleteRouters(u, Quiet) == Stage(u, Proceed);
    assert DeleteNetworks(u, Quiet) == Stage(u, Proceed);
  }

  /** One undisturbed pass takes the finalizer off and leaves the load balancer. */
  lemma StrayIsLeft(a: Name)
    ensures var t := Attempts(Stray(a), [Attempt(Quiet, NOBODY)]); !t.finalizer && IsKind(t.w.res, STRAY, LoadBalancer)
  {
    var s, passes := Stray(a), [Attempt(Quiet, NOBODY)];
    OneQuietPass(a);
    assert passes[..0] == [];
    assert Attempts(s, passes) == Reconcile(Attempts(s, passes[..0]), Quiet, NOBODY);
    assert SparingFates(Quiet);
    LoadBalancerGoesIff(s, passes);
  }
}
