/**
 Runs of the cluster controller: any sequence of reconciles, admitted spec updates, a deletion
 request and outside changes, each API call of each pass meeting any fate.
 */
module Runs {
  import opened Types
  import opened Keys
  import opened Cloud
  import opened Regions
  import opened Admission
  import opened Networks
  import opened Routers
  import opened LoadBalancer
  import opened FloatingIps
  import opened ServerGroups
  import opened Controller
  import opened Ownership
  import opened OwnershipSteps
  import opened OwnershipRouters
  import opened OwnershipTeardown
  import opened OwnershipRuns
  import opened Unattached

  datatype Env = Env(regions: RegionInfo, clusterName: Name)

  datatype Event =
    | Wake(f: Fates, kube: Kube)
    | RequestDeletion
    | Update(spec: Spec)
    | Elsewhere(acts: seq<Act>)

  /** A spec write goes through defaulting, the schema and the webhook, and is dropped when refused. */
  ghost function Admit(env: Env, was: Spec, wish: Spec): Spec {
    var now := Default(env.regions, env.clusterName, wish);
    if DistinctRouters(now.routers) && UpdateValid(was, now) then now else was
  }

  ghost function Step(env: Env, s: State, e: Event): State {
    match e
    case Wake(f, kube) => Reconcile(s, f, kube)
    case RequestDeletion => s.(deleting := true)
    case Update(wish) => s.(spec := Admit(env, s.spec, wish))
    case Elsewhere(acts) => s.(w := OutsideAll(s.w, s.spec, acts))
  }

  /** A cluster as it is created: an admitted spec, an empty status, a cloud CAPCS has not touched. */
  ghost predicate Created(env: Env, s: State) {
    && s.st == EMPTY_STATUS && !s.finalizer && !s.deleting
    && Default(env.regions, env.clusterName, s.spec) == s.spec
    && CreateValid(env.regions, s.spec) && DistinctRouters(s.spec.routers)
    && CloudOk(s.w) && s.w.members == [] && s.w.made == {} && s.w.targets == {} && s.w.disbanded == {}
    && forall i | i in s.w.res :: s.w.res[i].tag.None?
  }

  /** The states a cluster goes through, from its creation on. */
  ghost predicate IsRun(env: Env, trace: seq<State>, es: seq<Event>) {
    && |trace| == |es| + 1 && Created(env, trace[0])
    && forall k | 0 <= k < |es| :: Follows(env, trace[k], es[k], trace[k + 1])
  }

  ghost predicate Follows(env: Env, s: State, e: Event, t: State) {
    t == Step(env, s, e)
  }

  lemma LongerRun(env: Env, trace: seq<State>, es: seq<Event>, e: Event, t: State)
    requires IsRun(env, trace, es) && Follows(env, trace[|es|], e, t)
    ensures IsRun(env, trace + [t], es + [e])
  {
    var longer, more := trace + [t], es + [e];
    forall k | 0 <= k < |more| ensures Follows(env, longer[k], more[k], longer[k + 1]) {
      if k < |es| {
        assert Follows(env, trace[k], es[k], trace[k + 1]);
        assert longer[k + 1] == trace[k + 1] && longer[k] == trace[k] && more[k] == es[k];
      }
    }
  }

  /** Some run leads here. */
  ghost predicate Led(env: Env, t: State) {
    exists trace, es :: IsRun(env, trace, es) && t == trace[|es|]
  }

  lemma CreatedIsLed(env: Env, s: State)
    requires Created(env, s)
    ensures Led(env, s)
  {
    var es: seq<Event> := [];
    assert IsRun(env, [s], es) && s == [s][|es|];
  }

  lemma StepIsLed(env: Env, s: State, e: Event, t: State)
    requires Led(env, s) && Follows(env, s, e, t)
    ensures Led(env, t)
  {
    var trace, es :| IsRun(env, trace, es) && s == trace[|es|];
    LongerRun(env, trace, es, e, t);
    EndsIn(env, trace + [t], es + [e], t);
  }

  lemma EndsIn(env: Env, trace: seq<State>, es: seq<Event>, t: State)
    requires IsRun(env, trace, es) && t == trace[|es|]
    ensures Led(env, t)
  {
  }

  /** Nobody else attaches to CAPCS's routers and networks, nor where the spec asks CAPCS to. */
  ghost predicate PeacefulEvent(e: Event) {
    match e
    case Wake(f, _) => PeacefulFates(f)
    case Elsewhere(acts) => Peaceful(acts)
    case _ => true
  }

  ghost predicate PeacefulRun(es: seq<Event>) {
    forall k | 0 <= k < |es| :: PeacefulEvent(es[k])
  }

  ghost predicate Safe(s: State) {
    && Good(ViewOf(s)) && Keyed(s.st)
    && (!s.finalizer ==> NoneAttached(s.w))
  }

  // ---------------------------------------------------------------- spec changes

  /** What the invariant needs of a new spec: every old entry is still there with its uuid. */
  ghost predicate Extends(was: Spec, now: Spec) {
    && SpecOk(now) && OwnsFip(was) == OwnsFip(now)
    && (forall a | SpecNetwork(was.networks, a).Some? ::
          && SpecNetwork(now.networks, a).Some?
          && SpecNetwork(now.networks, a).value.uuid == SpecNetwork(was.networks, a).value.uuid)
    && (forall r | SpecRouter(was.routers, r).Some? ::
          && SpecRouter(now.routers, r).Some?
          && SpecRouter(now.routers, r).value.uuid == SpecRouter(was.routers, r).value.uuid)
    && (forall r, a | SpecSlot(was, r, a).Some? ::
          SpecSlot(now, r, a).Some? && SpecSlot(now, r, a).value.uuid == SpecSlot(was, r, a).value.uuid)
  }

  lemma ExtendKeepsGood(v: View, spec: Spec)
    requires Good(v) && Extends(v.spec, spec)
    ensures Good(v.(spec := spec))
  {
    var t := v.(spec := spec);
    forall r | FindRouter(t.rtrs, r).Some? ensures RouterOk(t, r) { assert RouterOk(v, r); }
    forall a | FindNetwork(t.nets, a).Some? ensures NetworkOk(t, a) { assert NetworkOk(v, a); }
    forall r, a | Slot(t.rtrs, r, a).Some? ensures SlotOk(t, r, a) { assert SlotOk(v, r, a); }
    forall i | i in t.w.ifaces && i in t.w.made ensures Covered(t, i) {
      var r, a :| Covers(v, r, a, i);
      assert Covers(t, r, a, i);
    }
  }

  lemma KeptNetwork(was: seq<NetworkSpec>, now: seq<NetworkSpec>, a: Name)
    requires NetworksKept(was, now) && DistinctNetworks(now) && SpecNetwork(was, a).Some?
    ensures SpecNetwork(now, a).Some? && SpecNetwork(now, a).value.uuid == SpecNetwork(was, a).value.uuid
  {
    SpecNetworkIn(was, a);
    var n := SpecNetwork(was, a).value;
    var k :| 0 <= k < |now| && SameNetwork(n, now[k]);
    SpecNetworkAt(now, k);
  }

  lemma KeptInterface(was: seq<InterfaceSpec>, now: seq<InterfaceSpec>, a: Name)
    requires InterfacesKept(was, now) && DistinctInterfaces(now) && SpecInterface(was, a).Some?
    ensures SpecInterface(now, a).Some? && SpecInterface(now, a).value.uuid == SpecInterface(was, a).value.uuid
  {
    SpecInterfaceIn(was, a);
    var e := SpecInterface(was, a).value;
    var k :| 0 <= k < |now| && SameInterface(e, now[k]);
    SpecInterfaceAt(now, k);
  }

  lemma KeptRouter(was: seq<RouterSpec>, now: seq<RouterSpec>, r: Name)
    requires RoutersKept(was, now) && DistinctRouters(now) && SpecRouter(was, r).Some?
    ensures SpecRouter(now, r).Some? && RouterKept(SpecRouter(was, r).value, SpecRouter(now, r).value)
    ensures DistinctInterfaces(SpecRouter(now, r).value.interfaces)
  {
    SpecRouterIn(was, r);
    var q := SpecRouter(was, r).value;
    var k :| 0 <= k < |now| && RouterKept(q, now[k]);
    SpecRouterAt(now, k);
  }

  /** The update rules are what keeps every ownership decision of an earlier pass valid. */
  lemma AdmittedUpdateExtends(was: Spec, now: Spec)
    requires UpdateValid(was, now) && DistinctRouters(now.routers)
    ensures Extends(was, now)
  {
    forall a | SpecNetwork(was.networks, a).Some?
      ensures SpecNetwork(now.networks, a).Some? && SpecNetwork(now.networks, a).value.uuid == SpecNetwork(was.networks, a).value.uuid
    {
      KeptNetwork(was.networks, now.networks, a);
    }
    forall r | SpecRouter(was.routers, r).Some?
      ensures SpecRouter(now.routers, r).Some? && SpecRouter(now.routers, r).value.uuid == SpecRouter(was.routers, r).value.uuid
    {
      KeptRouter(was.routers, now.routers, r);
    }
    forall r, a | SpecSlot(was, r, a).Some?
      ensures SpecSlot(now, r, a).Some? && SpecSlot(now, r, a).value.uuid == SpecSlot(was, r, a).value.uuid
    {
      KeptRouter(was.routers, now.routers, r);
      KeptInterface(SpecRouter(was.routers, r).value.interfaces, SpecRouter(now.routers, r).value.interfaces, a);
    }
  }

  // ---------------------------------------------------------------- normal passes

  ghost predicate Sound(s: State) {
    Good(ViewOf(s)) && Keyed(s.st)
  }

  lemma ConcludeKeepsSound(s: State, vip: Id)
    requires Sound(s)
    ensures Sound(Conclude(s, vip)) && Conclude(s, vip).finalizer == s.finalizer
  {
    var t := SetEndpoint(s, vip);
    ExtendKeepsGood(ViewOf(s), t.spec);
    assert ViewOf(Conclude(s, vip)) == ViewOf(s).(spec := t.spec);
  }

  lemma AfterLoadBalancerKeepsSound(lb: LbStage, f: Fates, kube: Kube)
    requires Sound(lb.s) && PeacefulFates(f)
    ensures var t := AfterLoadBalancer(lb, f, kube).s; Sound(t) && t.finalizer == lb.s.finalizer
  {
    if lb.flow == Proceed {
      FloatingIpKeepsGood(lb.s, f, kube.machines);
      ConcludeKeepsSound(ReconcileFloatingIp(lb.s, f, kube.machines).s, lb.vip);
    }
  }

  lemma AfterRoutersKeepsSound(r: Stage, f: Fates, kube: Kube)
    requires Sound(r.s) && PeacefulFates(f)
    ensures var t := AfterRouters(r, f, kube).s; Sound(t) && t.finalizer == r.s.finalizer
  {
    if r.flow == Proceed {
      LoadBalancerKeepsGood(r.s, f, kube.machines);
      AfterLoadBalancerKeepsSound(ReconcileLoadBalancer(r.s, f, kube.machines), f, kube);
    }
  }

  lemma AfterNetworksKeepsSound(n: Stage, f: Fates, kube: Kube)
    requires Sound(n.s) && PeacefulFates(f)
    ensures var t := AfterNetworks(n, f, kube).s; Sound(t) && t.finalizer == n.s.finalizer
  {
    if n.flow == Proceed {
      RoutersKeepGood(n.s, f, 0, Proceed);
      RoutersStayKeyed(n.s, f, n.s.spec.routers, 0, Proceed);
      AfterRoutersKeepsSound(ReconcileRouters(n.s, f), f, kube);
    }
  }

  lemma NormalPassKeepsSound(s: State, f: Fates, kube: Kube)
    requires Sound(s) && PeacefulFates(f)
    ensures var t := ReconcileNormal(s, f, kube).s; Sound(t) && t.finalizer == s.finalizer
  {
    NetworksKeepGood(s, f, 0);
    NetworksStayKeyed(s, f, s.spec.networks, 0);
    AfterNetworksKeepsSound(ReconcileNetworks(s, f), f, kube);
  }

  // ---------------------------------------------------------------- delete passes

  /** No managed entry is left, so by coverage no interface of CAPCS's is left either. */
  lemma NoneManagedNoneAttached(v: View)
    requires Good(v) && NoneManaged(v.rtrs)
    ensures NoneAttached(v.w)
  {
    forall i | i in v.w.ifaces && i in v.w.made ensures false {
      var r, a :| Covers(v, r, a, i);
      FoundRouterIn(v.rtrs, r);
      NoManagedNoCover(FindRouter(v.rtrs, r).value.interfaces, a);
    }
  }

  /** Interface coverage, as teardown uses it: deleteRouters without an error leaves no interface of ours. */
  lemma DeleteRoutersLeavesNone(s: State, f: Fates)
    requires Sound(s) && PeacefulFates(f)
    ensures var e := DeleteRouters(s, f);
            Sound(e.s) && (e.flow == Proceed ==> NoneManaged(e.s.st.routers) && NoneAttached(e.s.w))
  {
    var rss := s.st.routers;
    assert [] + rss[0..] == rss;
    DeleteRoutersKeepsGood(s, f, rss, 0, [], false);
    var e := DeleteRouters(s, f);
    if e.flow == Proceed { NoneManagedNoneAttached(ViewOf(e.s)); }
  }

  /** The invariant stands, and the finalizer, if it was there, goes only with the last interface of CAPCS's. */
  ghost predicate FinalizerHolds(s: State, t: State) {
    Sound(t) && (s.finalizer && !t.finalizer ==> NoneAttached(t.w))
  }

  lemma DeleteAfterRoutersKeepsSafe(r: Stage, f: Fates)
    requires Sound(r.s) && PeacefulFates(f)
    requires r.flow == Proceed ==> NoneManaged(r.s.st.routers)
    ensures FinalizerHolds(r.s, DeleteAfterRouters(r, f).s)
  {
    if r.flow == Proceed {
      assert [] + r.s.st.networks[0..] == r.s.st.networks;
      assert ViewOf(r.s).(nets := r.s.st.networks) == ViewOf(r.s);
      DeleteNetworksKeepsGood(r.s, f, r.s.st.networks, 0, [], false);
      var n := DeleteNetworks(r.s, f);
      assert ViewOf(n.s).(nets := n.s.st.networks) == ViewOf(n.s);
      NoneManagedNoneAttached(ViewOf(n.s));
      assert ViewOf(n.s.(finalizer := false)) == ViewOf(n.s);
    }
  }

  lemma DeleteAfterLbKeepsSafe(lb: Stage, f: Fates, kube: Kube)
    requires Sound(lb.s) && PeacefulFates(f)
    ensures FinalizerHolds(lb.s, DeleteAfterLb(lb, f, kube).s)
  {
    if lb.flow == Proceed {
      ServerGroupsKeepGood(lb.s, f, kube.machines);
      var g := DeleteServerGroups(lb.s, f, kube.machines);
      if g.flow == Proceed {
        DeleteRoutersLeavesNone(g.s, f);
        DeleteAfterRoutersKeepsSafe(DeleteRouters(g.s, f), f);
      }
    }
  }

  lemma DeletePassKeepsSafe(s: State, f: Fates, kube: Kube)
    requires Safe(s) && PeacefulFates(f)
    ensures Safe(ReconcileDelete(s, f, kube).s)
  {
    DeleteFipKeepsGood(s, f);
    var p := DeleteFloatingIp(s, f);
    if p.flow == Proceed {
      DeleteLbKeepsGood(p.s, f);
      DeleteAfterLbKeepsSafe(DeleteLoadBalancer(p.s, f), f, kube);
    }
    if !s.finalizer { DeletePassLeavesBare(s, f, kube); }
  }

  // ------------------------------------------------------------------- whole runs

  lemma CreatedIsSafe(env: Env, s: State)
    requires Created(env, s)
    ensures Safe(s)
  {
  }

  lemma StepKeepsSafe(env: Env, s: State, e: Event)
    requires Safe(s) && PeacefulEvent(e)
    ensures Safe(Step(env, s, e))
  {
    match e
    case Wake(f, kube) =>
      var t := s.(clock := 0);
      assert ViewOf(t) == ViewOf(s) == ViewOf(t.(finalizer := true));
      if !s.deleting {
        NormalPassKeepsSound(t.(finalizer := true), f, kube);
      } else {
        DeletePassKeepsSafe(t, f, kube);
      }
    case RequestDeletion =>
      assert ViewOf(s.(deleting := true)) == ViewOf(s);
    case Update(wish) =>
      var now := Admit(env, s.spec, wish);
      if now != s.spec {
        AdmittedUpdateExtends(s.spec, now);
        ExtendKeepsGood(ViewOf(s), now);
        assert ViewOf(s.(spec := now)) == ViewOf(s).(spec := now);
      }
    case Elsewhere(acts) =>
      OutsideAllDrifts(s.w, s.spec, acts);
      DriftKeepsGood(ViewOf(s), OutsideAll(s.w, s.spec, acts));
  }

  lemma {:induction false} RunIsSafe(env: Env, trace: seq<State>, es: seq<Event>, k: nat)
    requires IsRun(env, trace, es) && PeacefulRun(es) && k <= |es|
    ensures Safe(trace[k])
    decreases k
  {
    if k == 0 {
      CreatedIsSafe(env, trace[0]);
    } else {
      RunIsSafe(env, trace, es, k - 1);
      StepKeepsSafe(env, trace[k - 1], es[k - 1]);
      assert Follows(env, trace[k - 1], es[k - 1], trace[k - 1 + 1]);
    }
  }

  /** Some peaceful run leads here. */
  ghost predicate Reachable(env: Env, t: State) {
    exists trace, es :: IsRun(env, trace, es) && PeacefulRun(es) && t == trace[|es|]
  }

  lemma ReachableIsSafe(env: Env, t: State)
    requires Reachable(env, t)
    ensures Safe(t)
  {
    var trace, es :| IsRun(env, trace, es) && PeacefulRun(es) && t == trace[|es|];
    RunIsSafe(env, trace, es, |es|);
  }
}
