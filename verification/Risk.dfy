/**
 What others can do to the ownership protocol at worst. Whatever they do, attaching where they
 should not included, the only foreign ids a run ever targets are interfaces that a managed
 interface entry stands for. A spec that lets CAPCS attach nothing has no such entry.
 */
module Risk {
  import opened Types
  import opened Cloud
  import opened Ensure
  import opened Networks
  import opened Routers
  import opened LoadBalancer
  import opened FloatingIps
  import opened Controller
  import opened Admission
  import opened Runs
  import opened AtMostOne
  import opened StatusShape
  import opened Teardown
  import opened TeardownTargets
  import opened TeardownReads
  import opened Family
  import opened FamilyRuns

  // ------------------------------------------------- normal passes delete nothing

  /** Nothing more was targeted, and nothing made was forgotten. */
  ghost predicate Untargeting(s: State, t: State) {
    t.w.targets == s.w.targets && s.w.made <= t.w.made
  }

  lemma EnsureTargetsNothing(s: State, f: Fates, current: Id, kind: Kind, tag: Tag)
    ensures Untargeting(s, EnsureResource(s, f, current, kind, tag).s)
  {
    TicksTargetNothing(s, f);
    TicksTargetNothing(Tick(s, f), f);
  }

  lemma CreateMissingTargetsNothing(e: Ensured, f: Fates, kind: Kind, tag: Tag, parent: Id)
    ensures Untargeting(e.s, CreateMissing(e, f, kind, tag, parent).s)
  {
    TicksTargetNothing(e.s, f);
  }

  lemma ObtainTargetsNothing(s: State, f: Fates, current: Id, kind: Kind, tag: Tag, parent: Id)
    ensures Untargeting(s, Obtain(s, f, current, kind, tag, parent).s)
  {
    EnsureTargetsNothing(s, f, current, kind, tag);
    CreateMissingTargetsNothing(EnsureResource(s, f, current, kind, tag), f, kind, tag, parent);
  }

  lemma NetworkTargetsNothing(s: State, f: Fates, n: NetworkSpec)
    ensures Untargeting(s, ReconcileNetwork(s, f, n).s)
  {
    TicksTargetNothing(s, f);
    var e := FindNetwork(s.st.networks, n.name);
    var networkId := if e.Some? then e.value.networkId else NO_ID;
    var subnetId := if e.Some? then e.value.subnetId else NO_ID;
    ObtainTargetsNothing(s, f, networkId, Network, Named(n.name), NO_ID);
    var net := Obtain(s, f, networkId, Network, Named(n.name), NO_ID);
    ObtainTargetsNothing(net.s, f, subnetId, Subnet, Named(n.name), net.id);
  }

  lemma NetworksTargetNothing(s: State, f: Fates, specs: seq<NetworkSpec>, k: nat)
    requires k <= |specs|
    ensures Untargeting(s, NetworksFrom(s, f, specs, k).s)
    decreases |specs| - k
  {
    if k < |specs| {
      NetworkTargetsNothing(s, f, specs[k]);
      var one := ReconcileNetwork(s, f, specs[k]);
      if one.flow == Proceed { NetworksTargetNothing(one.s, f, specs, k + 1); }
    }
  }

  lemma InterfaceTargetsNothing(s: State, f: Fates, r: RouterSpec, id: Id, live: map<Id, Id>, e: InterfaceSpec)
    ensures Untargeting(s, ReconcileInterface(s, f, r, id, live, e).s)
  {
    TicksTargetNothing(SetInterface(s, r.name, InterfaceStatus(e.network, NO_ID, true)), f);
  }

  lemma InterfacesTargetNothing(s: State, f: Fates, r: RouterSpec, id: Id, live: map<Id, Id>, k: nat)
    requires k <= |r.interfaces|
    ensures Untargeting(s, InterfacesFrom(s, f, r, id, live, k).s)
    decreases |r.interfaces| - k
  {
    if k < |r.interfaces| {
      InterfaceTargetsNothing(s, f, r, id, live, r.interfaces[k]);
      var one := ReconcileInterface(s, f, r, id, live, r.interfaces[k]);
      if one.flow == Proceed { InterfacesTargetNothing(one.s, f, r, id, live, k + 1); }
    }
  }

  lemma RouterTargetsNothing(s: State, f: Fates, r: RouterSpec)
    ensures Untargeting(s, ReconcileRouter(s, f, r).s)
  {
    TicksTargetNothing(s, f);
    ObtainTargetsNothing(s, f, RouterIdOf(s.st.routers, r.name), Router, Named(r.name), NO_ID);
    forall t: State, id ensures Untargeting(t, Settle(t, f, r, id).s) {
      InterfacesTargetNothing(SetRouter(t, r, id), f, r, id, Interfaces(t.w, id), 0);
    }
  }

  lemma RoutersTargetNothing(s: State, f: Fates, specs: seq<RouterSpec>, k: nat, acc: Flow)
    requires k <= |specs|
    ensures Untargeting(s, RoutersFrom(s, f, specs, k, acc).s)
    decreases |specs| - k
  {
    if k < |specs| {
      RouterTargetsNothing(s, f, specs[k]);
      var one := ReconcileRouter(s, f, specs[k]);
      if one.flow != Error { RoutersTargetNothing(one.s, f, specs, k + 1, Join(acc, one.flow)); }
    }
  }

  lemma UpsertTargetsNothing(s: State, f: Fates, current: seq<Member>, w: Wanted)
    ensures Untargeting(s, Upsert(s, f, current, w).s)
  {
    TicksTargetNothing(s, f);
  }

  lemma UpsertsTargetNothing(s: State, f: Fates, current: seq<Member>, want: seq<Wanted>, k: nat)
    requires k <= |want|
    ensures Untargeting(s, UpsertFrom(s, f, current, want, k).s)
    decreases |want| - k
  {
    if k < |want| {
      UpsertTargetsNothing(s, f, current, want[k]);
      var one := Upsert(s, f, current, want[k]);
      if one.flow == Proceed { UpsertsTargetNothing(one.s, f, current, want, k + 1); }
    }
  }

  lemma PrunesTargetNothing(s: State, f: Fates, current: seq<Member>, want: seq<Wanted>, k: nat)
    requires k <= |current|
    ensures Untargeting(s, PruneFrom(s, f, current, want, k).s)
    decreases |current| - k
  {
    if k < |current| {
      if IsWanted(want, current[k].name) {
        PrunesTargetNothing(s, f, current, want, k + 1);
      } else {
        TicksTargetNothing(s, f);
        var c := DeleteMember(s, f, current[k].id);
        var t := c.s.(st := c.s.st.(memberIds := DropId(c.s.st.memberIds, current[k].id)));
        PrunesTargetNothing(t, f, current, want, k + 1);
      }
    }
  }

  lemma MembersTargetNothing(s: State, f: Fates, machines: seq<Machine>)
    ensures Untargeting(s, ReconcileMembers(s, f, machines).s)
  {
    TicksTargetNothing(s, f);
    var l, want := ListMembers(s, f), DesiredMembers(s.spec, s.st.networks, machines);
    if l.ok && want.Some? {
      UpsertsTargetNothing(l.s, f, l.members, want.value, 0);
      PrunesTargetNothing(UpsertFrom(l.s, f, l.members, want.value, 0).s, f, l.members, want.value, 0);
    }
  }

  lemma PartTargetsNothing(s: State, f: Fates, kind: Kind, parent: Id)
    requires IsPart(kind)
    ensures Untargeting(s, ReconcilePart(s, f, kind, parent).s)
  {
    ObtainTargetsNothing(s, f, PartId(s.st, kind), kind, Owned, parent);
  }

  lemma PopulateTargetsNothing(s: State, f: Fates, machines: seq<Machine>)
    ensures Untargeting(s, Populate(s, f, machines).s)
  {
    PartTargetsNothing(s, f, Pool, s.st.lbId);
    var p := ReconcilePart(s, f, Pool, s.st.lbId);
    PartTargetsNothing(p.s, f, Listener, p.s.st.poolId);
    var l := ReconcilePart(p.s, f, Listener, p.s.st.poolId);
    PartTargetsNothing(l.s, f, Monitor, l.s.st.poolId);
    MembersTargetNothing(ReconcileParts(s, f).s, f, machines);
  }

  lemma AfterLbTargetsNothing(lb: Stage, f: Fates, machines: seq<Machine>)
    ensures Untargeting(lb.s, AfterLb(lb, f, machines).s)
  {
    TicksTargetNothing(lb.s, f);
    PopulateTargetsNothing(Get(lb.s, f, LoadBalancer, lb.s.st.lbId).s, f, machines);
  }

  lemma LoadBalancerTargetsNothing(s: State, f: Fates, machines: seq<Machine>)
    ensures Untargeting(s, ReconcileLoadBalancer(s, f, machines).s)
  {
    EnsureTargetsNothing(s, f, s.st.lbId, LoadBalancer, Owned);
    PartTargetsNothing(s, f, LoadBalancer, NO_ID);
    AfterLbTargetsNothing(ReconcileLb(s, f), f, machines);
  }

  lemma FloatingIpTargetsNothing(s: State, f: Fates, machines: seq<Machine>)
    ensures Untargeting(s, ReconcileFloatingIp(s, f, machines).s)
  {
    TicksTargetNothing(s, f);
    EnsureTargetsNothing(s, f, s.st.fip, FloatingIp, Owned);
    forall t: State ensures Untargeting(t, Assign(t, f, machines).s) { TicksTargetNothing(t, f); }
    forall t: State, target: Id ensures Untargeting(t, CreateFip(t, f, target).s) { TicksTargetNothing(t, f); }
  }

  lemma AfterRoutersTargetsNothing(r: Stage, f: Fates, kube: Kube)
    ensures Untargeting(r.s, AfterRouters(r, f, kube).s)
  {
    LoadBalancerTargetsNothing(r.s, f, kube.machines);
    FloatingIpTargetsNothing(ReconcileLoadBalancer(r.s, f, kube.machines).s, f, kube.machines);
  }

  /** A normal pass never asks for the deletion of a resource or the detach of an interface. */
  lemma NormalPassTargetsNothing(s: State, f: Fates, kube: Kube)
    ensures Untargeting(s, ReconcileNormal(s, f, kube).s)
  {
    NetworksTargetNothing(s, f, s.spec.networks, 0);
    var n := ReconcileNetworks(s, f);
    RoutersTargetNothing(n.s, f, n.s.spec.routers, 0, Proceed);
    AfterRoutersTargetsNothing(ReconcileRouters(n.s, f), f, kube);
  }

  // ---------------------------------------------------------------- what is at risk

  /** The pass detaches it for a managed interface entry that has its id or stands for its attachment. */
  ghost predicate AsInterface(s: State, f: Fates, kube: Kube, x: Id) {
    || (exists r | r in s.st.routers :: Lists(r.interfaces, x))
    || SomeReadShows(AtRouters(s, f, kube), f, s.st.routers, 0, x)
  }

  lemma BooksAreMine(s: State, x: Id)
    requires Related(s) && OnBooks(s, x)
    ensures x in s.w.made || exists r | r in s.st.routers :: Lists(r.interfaces, x)
  {
    var item: Item :| !item.AnAttached? && Recorded(s.spec, s.st, item) && item.id == x;
    match item
    case ANetwork(id) =>
      var n :| n in s.st.networks && n.managed && n.networkId == id;
      assert NetworkHangs(s.w, n);
    case _ =>
  }

  lemma NothingIsNotTargeted(s: State, f: Fates, kube: Kube)
    requires Fit(s) && NO_ID !in s.w.targets
    ensures NO_ID !in ReconcileDelete(s, f, kube).s.w.targets
  {
    DeletePassConfined(s, f, kube);
  }

  /** What a delete pass newly targets CAPCS made, or an interface entry stands for. */
  lemma DeletePassRisks(s: State, f: Fates, kube: Kube, x: Id)
    requires Related(s) && NO_ID !in s.w.targets && NewTarget(s, ReconcileDelete(s, f, kube).s, x)
    ensures x in s.w.made || AsInterface(s, f, kube, x)
  {
    FamilyIsFit(s);
    NothingIsNotTargeted(s, f, kube);
    PassHasGrounds(s, f, kube, x);
    if OnBooks(s, x) { BooksAreMine(s, x); }
  }

  // ------------------------------------------------------------------- whole runs

  ghost predicate RiskedBy(s: State, e: Event, x: Id) {
    e.Wake? && AsInterface(s.(clock := 0), e.f, e.kube, x)
  }

  lemma StepRisks(env: Env, s: State, e: Event, x: Id)
    requires Related(s) && NO_ID !in s.w.targets
    ensures var t := Step(env, s, e);
            && NO_ID !in t.w.targets && s.w.made <= t.w.made
            && (NewTarget(s, t, x) ==> x in s.w.made || RiskedBy(s, e, x))
  {
    match e
    case Wake(f, kube) =>
      var u := s.(clock := 0);
      NormalPassTargetsNothing(u.(finalizer := true), f, kube);
      if s.deleting {
        FamilyIsFit(u);
        NothingIsNotTargeted(u, f, kube);
        DeletePassConfined(u, f, kube);
        if NewTarget(u, ReconcileDelete(u, f, kube).s, x) { DeletePassRisks(u, f, kube, x); }
      }
    case Elsewhere(acts) => OutsidersTargetNothing(s.w, s.spec, acts);
    case _ =>
  }

  /** In every run, whatever others do: a targeted id is CAPCS's, or a pass took it for an interface of CAPCS's. */
  lemma {:induction false} OnlyInterfacesAreAtRisk(env: Env, trace: seq<State>, es: seq<Event>, k: nat, x: Id)
    requires IsRun(env, trace, es) && ProperRun(es) && k <= |es|
    ensures NO_ID !in trace[k].w.targets
    ensures x in trace[k].w.targets ==> x in trace[k].w.made || exists j :: 0 <= j < k && RiskedBy(trace[j], es[j], x)
    decreases k
  {
    if k > 0 {
      OnlyInterfacesAreAtRisk(env, trace, es, k - 1, x);
      RunKeepsKin(env, trace, es, k - 1);
      StepRisks(env, trace[k - 1], es[k - 1], x);
      assert Follows(env, trace[k - 1], es[k - 1], trace[k - 1 + 1]);
    }
  }

  // ------------------------------------------------------- nothing for CAPCS to attach

  /** Every interface of the spec is an existing one. */
  ghost predicate AttachesNone(spec: Spec) {
    forall r | r in spec.routers :: forall d | d in r.interfaces :: d.uuid != NO_ID
  }

  lemma NoManagedEntries(s: State, r: RouterStatus)
    requires Shaped(s) && AttachesNone(s.spec) && r in s.st.routers
    ensures !HasManaged(r.interfaces)
  {
    var q :| q in s.spec.routers && OneRouterFlags(q, r);
    assert forall e | e in r.interfaces :: !e.managed;
  }

  lemma {:induction false} NoReadShows(s: State, f: Fates, rss: seq<RouterStatus>, k: nat, x: Id)
    requires k <= |rss| && forall r | r in rss :: !HasManaged(r.interfaces)
    ensures !SomeReadShows(s, f, rss, k, x)
    decreases |rss| - k
  {
    if k < |rss| {
      assert rss[k] in rss;
      NoReadShows(DeleteRouter(s, f, rss[k]).s, f, rss, k + 1, x);
    }
  }

  lemma NothingIsRisked(s: State, e: Event, x: Id)
    requires Shaped(s) && AttachesNone(s.spec)
    ensures !RiskedBy(s, e, x)
  {
    if e.Wake? {
      var u := s.(clock := 0);
      forall r | r in u.st.routers ensures !HasManaged(r.interfaces) { NoManagedEntries(s, r); }
      NoReadShows(AtRouters(u, e.f, e.kube), e.f, u.st.routers, 0, x);
    }
  }

  /** Updates only add interfaces, so there were none for CAPCS to attach before either. */
  lemma AttachedNoneBefore(env: Env, s: State, e: Event)
    requires AttachesNone(Step(env, s, e).spec)
    ensures AttachesNone(s.spec)
  {
    match e
    case Wake(f, kube) => PassKeepsRouters(s, f, kube);
    case Update(wish) =>
      var now := Admit(env, s.spec, wish);
      if now != s.spec {
        forall r | r in s.spec.routers ensures forall d | d in r.interfaces :: d.uuid != NO_ID {
          var k :| 0 <= k < |now.routers| && RouterKept(r, now.routers[k]);
          assert now.routers[k] in now.routers;
          forall d | d in r.interfaces ensures d.uuid != NO_ID {
            var j :| 0 <= j < |now.routers[k].interfaces| && SameInterface(d, now.routers[k].interfaces[j]);
            assert now.routers[k].interfaces[j] in now.routers[k].interfaces;
          }
        }
      }
    case _ =>
  }

  lemma PassKeepsRouters(s: State, f: Fates, kube: Kube)
    ensures Reconcile(s, f, kube).spec.routers == s.spec.routers
  {
    var t := s.(clock := 0);
    DeletePassKeepsSpec(t, f, kube);
    var n := ReconcileNetworks(t.(finalizer := true), f);
    AfterRoutersKeepsLists(ReconcileRouters(n.s, f), f, kube);
  }

  lemma {:induction false} AttachedNoneEver(env: Env, trace: seq<State>, es: seq<Event>, j: nat, k: nat)
    requires IsRun(env, trace, es) && j <= k <= |es| && AttachesNone(trace[k].spec)
    ensures AttachesNone(trace[j].spec)
    decreases k
  {
    if j < k {
      assert Follows(env, trace[k - 1], es[k - 1], trace[k - 1 + 1]);
      AttachedNoneBefore(env, trace[k - 1], es[k - 1]);
      AttachedNoneEver(env, trace, es, j, k - 1);
    }
  }

  /** With no interface for CAPCS to attach, only its own work is targeted even if others attach anywhere. */
  lemma SafeWithoutAttaching(env: Env, trace: seq<State>, es: seq<Event>, k: nat)
    requires IsRun(env, trace, es) && ProperRun(es) && k <= |es| && AttachesNone(trace[k].spec)
    ensures trace[k].w.targets <= trace[k].w.made
  {
    forall x | x in trace[k].w.targets ensures x in trace[k].w.made {
      OnlyInterfacesAreAtRisk(env, trace, es, k, x);
      forall j | 0 <= j < k ensures !RiskedBy(trace[j], es[j], x) {
        AttachedNoneEver(env, trace, es, j, k);
        RunKeepsShape(env, trace, es, j);
        NothingIsRisked(trace[j], es[j], x);
      }
    }
  }
}
