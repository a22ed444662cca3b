/**
 The family over whole runs, and what it means at teardown: with the finalizer also every pool,
 listener, health monitor and subnet that status recorded is gone. A load balancer that is
 disabled is never recorded; if it were, teardown would leave it.
 */
module FamilyRuns {
  import opened Types
  import opened Cloud
  import opened History
  import opened Networks
  import opened Routers
  import opened LoadBalancer
  import opened Members
  import opened FloatingIps
  import opened ServerGroups
  import opened Controller
  import opened Runs
  import opened AtMostOne
  import opened StatusShape
  import opened Teardown
  import opened TeardownTargets
  import opened Family

  // --------------------------------------------------------------- delete passes

  ghost predicate SameParts(a: Status, b: Status) {
    a.lbId == b.lbId && a.poolId == b.poolId && a.listenerId == b.listenerId && a.monitorId == b.monitorId
  }

  ghost predicate NoParts(st: Status) {
    st.lbId == NO_ID && st.poolId == NO_ID && st.listenerId == NO_ID && st.monitorId == NO_ID
  }

  /** The ids of the load balancer and its parts are cleared together, once the load balancer is gone. */
  ghost predicate PartsGo(s: State, t: State) {
    SameParts(s.st, t.st) || (NoParts(t.st) && Gone(t.w, LoadBalancer, s.st.lbId))
  }

  lemma LbStageParts(s: State, f: Fates)
    requires Lawful(s.w) && s.st.lbId < s.w.next
    ensures PartsGo(s, DeleteLoadBalancer(s, f).s)
  {
    if s.st.lbId != NO_ID { DeletedIsGone(s, f, LoadBalancer, s.st.lbId); }
  }

  lemma {:induction false} NetworksLeft(s: State, f: Fates, ns: seq<NetworkStatus>, k: nat, remaining: seq<NetworkStatus>, err: bool)
    requires k <= |ns| && (forall n | n in ns || n in remaining :: n in s.st.networks)
    ensures forall n | n in DeleteNetworksFrom(s, f, ns, k, remaining, err).s.st.networks :: n in s.st.networks
    decreases |ns| - k
  {
    if k < |ns| {
      if !ns[k].managed {
        NetworksLeft(s, f, ns, k + 1, remaining + [ns[k]], err);
      } else if ns[k].networkId == NO_ID {
        NetworksLeft(s, f, ns, k + 1, remaining, err);
      } else {
        var c := Delete(s, f, Network, ns[k].networkId);
        NetworksLeft(c.s, f, ns, k + 1, remaining, err);
        NetworksLeft(c.s, f, ns, k + 1, remaining + [ns[k]], true);
      }
    }
  }

  /** Each entry of one list is, but for its interfaces, one of the other. */
  ghost predicate EntriesFrom(now: seq<RouterStatus>, was: seq<RouterStatus>) {
    forall r | r in now :: exists q | q in was :: r.routerId == q.routerId && r.managed == q.managed
  }

  lemma {:induction false} RoutersLeft(s: State, f: Fates, rss: seq<RouterStatus>, k: nat, remaining: seq<RouterStatus>, err: bool)
    requires k <= |rss| && EntriesFrom(remaining, rss)
    ensures EntriesFrom(DeleteRoutersFrom(s, f, rss, k, remaining, err).s.st.routers, rss)
    decreases |rss| - k
  {
    if k < |rss| {
      var one := DeleteRouter(s, f, rss[k]);
      forall r | r in one.kept ensures r.routerId == rss[k].routerId && r.managed == rss[k].managed {
      }
      assert rss[k] in rss;
      RoutersLeft(one.s, f, rss, k + 1, remaining + one.kept, err || one.err);
    }
  }

  /** What is left of status. */
  ghost predicate Leaves(s: State, t: State) {
    && EntriesFrom(t.st.routers, s.st.routers) && (t.st.fip == s.st.fip || t.st.fip == NO_ID)
    && forall n | n in t.st.networks :: n in s.st.networks
  }

  lemma AfterGroupsLeaves(g: Stage, f: Fates)
    ensures var t := DeleteAfterGroups(g, f).s; SameParts(g.s.st, t.st) && Leaves(g.s, t)
  {
    if g.flow == Proceed {
      RoutersLeft(g.s, f, g.s.st.routers, 0, [], false);
      var r := DeleteRouters(g.s, f);
      NetworksLeft(r.s, f, r.s.st.networks, 0, [], false);
    }
  }

  lemma AfterLbLeaves(lb: Stage, f: Fates, kube: Kube)
    ensures var t := DeleteAfterLb(lb, f, kube).s;
            SameParts(lb.s.st, t.st) && Leaves(lb.s, t)
  {
    AfterGroupsLeaves(DeleteServerGroups(lb.s, f, kube.machines), f);
  }

  lemma AfterFipLeaves(p: Stage, f: Fates, kube: Kube)
    requires Fit(p.s)
    ensures var t := DeleteAfterFip(p, f, kube).s;
            PartsGo(p.s, t) && Leaves(p.s, t)
  {
    if p.flow == Proceed {
      LbCarries(p.s, f);
      DeleteIsLawful(p.s, f, LoadBalancer, p.s.st.lbId);
      LbStageParts(p.s, f);
      var lb := DeleteLoadBalancer(p.s, f);
      AfterLbLeaves(lb, f, kube);
      ConfinedFromLb(lb, f, kube);
    }
  }

  lemma DeletePassLeaves(s: State, f: Fates, kube: Kube)
    requires Fit(s)
    ensures var t := ReconcileDelete(s, f, kube).s;
            PartsGo(s, t) && Leaves(s, t)
  {
    FipCarries(s, f);
    DeleteIsLawful(s, f, FloatingIp, s.st.fip);
    AfterFipLeaves(DeleteFloatingIp(s, f), f, kube);
  }

  lemma ParentIsThere(w: World, i: Id)
    requires Lawful(w)
    ensures i in w.res ==> ParentOk(w.res, w.res[i].kind, w.res[i].parent)
  {
  }

  lemma PartsGoHang(w: World, v: World, st: Status, now: Status)
    requires PartsHang(w, st) && Later(w, v) && Lawful(v)
    requires SameParts(st, now) || (NoParts(now) && Gone(v, LoadBalancer, st.lbId))
    ensures PartsHang(v, now)
  {
    PartsLater(w, v, st);
    if !SameParts(st, now) {
      NoneLeft(v.res, Pool, LoadBalancer, st.lbId, NO_ID);
      ParentIsThere(v, st.poolId);
      NoneLeft(v.res, Listener, Pool, st.poolId, NO_ID);
      NoneLeft(v.res, Monitor, Pool, st.poolId, NO_ID);
    }
  }

  lemma LeftIsRelated(s: State, t: State)
    requires Related(s) && Later(s.w, t.w) && Lawful(t.w) && t.spec == s.spec && PartsGo(s, t) && Leaves(s, t)
    ensures Related(t)
  {
    PartsGoHang(s.w, t.w, s.st, t.st);
    SubnetsLater(s.w, t.w);
    NetworksNewer(s.w, t.w, s.st.networks);
    forall r | r in t.st.routers ensures r.routerId < t.w.next && (r.managed ==> Mine(t.w, r.routerId)) {
      var q :| q in s.st.routers && r.routerId == q.routerId && r.managed == q.managed;
    }
  }

  lemma DeletePassKeepsFamily(s: State, f: Fates, kube: Kube)
    requires Related(s)
    ensures Related(ReconcileDelete(s, f, kube).s)
  {
    FamilyIsFit(s);
    DeletePassTearsDown(s, f, kube);
    DeletePassLeaves(s, f, kube);
    LeftIsRelated(s, ReconcileDelete(s, f, kube).s);
  }

  lemma FamilyIsFit(s: State)
    requires Related(s)
    ensures Fit(s)
  {
    forall n | n in s.st.networks ensures n.networkId < s.w.next { assert NetworkHangs(s.w, n); }
  }

  // --------------------------------------------------------------- normal passes

  lemma AfterRoutersKeepsFamily(r: Stage, f: Fates, kube: Kube)
    requires Related(r.s) && DistinctMachines(kube.machines)
    ensures Related(AfterRouters(r, f, kube).s)
  {
    LoadBalancerKeepsFamily(r.s, f, kube.machines);
    var lb := ReconcileLoadBalancer(r.s, f, kube.machines);
    FloatingIpKeepsFamily(lb.s, f, kube.machines);
    ConcludeKeepsFamily(ReconcileFloatingIp(lb.s, f, kube.machines).s, lb.vip);
  }

  lemma ConcludeKeepsFamily(s: State, vip: Id)
    requires Related(s)
    ensures Related(Conclude(s, vip))
  {
  }

  lemma NormalPassKeepsFamily(s: State, f: Fates, kube: Kube)
    requires Related(s) && Shaped(s) && DistinctMachines(kube.machines)
    ensures Related(ReconcileNormal(s, f, kube).s)
  {
    NetworksKeepFamily(s, f, 0);
    NetworksKeepShape(s, f, 0);
    var n := ReconcileNetworks(s, f);
    RoutersKeepFamily(n.s, f);
    AfterRoutersKeepsFamily(ReconcileRouters(n.s, f), f, kube);
  }

  // ------------------------------------------------------------------- whole runs

  /** A disabled load balancer is not recorded. */
  ghost predicate Unrecorded(s: State) {
    !LbEnabled(s.spec) ==> NoParts(s.st)
  }

  lemma NormalPassRecordsNone(s: State, f: Fates, kube: Kube)
    requires Unrecorded(s)
    ensures Unrecorded(ReconcileNormal(s, f, kube).s)
  {
    var n := ReconcileNetworks(s, f);
    AfterRoutersRecordsNone(ReconcileRouters(n.s, f), f, kube);
  }

  lemma AfterRoutersRecordsNone(r: Stage, f: Fates, kube: Kube)
    requires Unrecorded(r.s)
    ensures Unrecorded(AfterRouters(r, f, kube).s)
  {
  }

  /** With the load balancer disabled the pass keeps the ids. */
  lemma DeletePassKeepsIds(s: State, f: Fates, kube: Kube)
    requires !LbEnabled(s.spec)
    ensures SameParts(s.st, ReconcileDelete(s, f, kube).s.st)
  {
    var p := DeleteFloatingIp(s, f);
    AfterLbLeaves(DeleteLoadBalancer(p.s, f), f, kube);
  }

  lemma DeletePassKeepsSpec(s: State, f: Fates, kube: Kube)
    ensures ReconcileDelete(s, f, kube).s.spec == s.spec
  {
    var p := DeleteFloatingIp(s, f);
    var lb := DeleteLoadBalancer(p.s, f);
    var g := DeleteServerGroups(lb.s, f, kube.machines);
    var r := DeleteRouters(g.s, f);
  }

  lemma StepRecordsNone(env: Env, s: State, e: Event)
    requires Unrecorded(s)
    ensures Unrecorded(Step(env, s, e))
  {
    if e.Wake? {
      var t := s.(clock := 0);
      NormalPassRecordsNone(t.(finalizer := true), e.f, e.kube);
      DeletePassKeepsSpec(t, e.f, e.kube);
      if !LbEnabled(s.spec) { DeletePassKeepsIds(t, e.f, e.kube); }
    }
  }

  /** In no run is a disabled load balancer, or a part of one, recorded. */
  lemma {:induction false} DisabledIsNeverRecorded(env: Env, trace: seq<State>, es: seq<Event>, k: nat)
    requires IsRun(env, trace, es) && k <= |es|
    ensures Unrecorded(trace[k])
    decreases k
  {
    if k > 0 {
      DisabledIsNeverRecorded(env, trace, es, k - 1);
      StepRecordsNone(env, trace[k - 1], es[k - 1]);
      assert Follows(env, trace[k - 1], es[k - 1], trace[k - 1 + 1]);
    }
  }

  ghost predicate Kin(s: State) {
    Related(s) && Shaped(s)
  }

  lemma PassKeepsKin(s: State, f: Fates, kube: Kube)
    requires Kin(s) && DistinctMachines(kube.machines)
    ensures Kin(Reconcile(s, f, kube))
  {
    var t := s.(clock := 0);
    if !s.deleting {
      var u := t.(finalizer := true);
      NormalPassKeepsFamily(u, f, kube);
      NormalPassKeepsShape(u, f, kube);
    } else {
      DeletePassKeepsFamily(t, f, kube);
      DeletePassKeepsShape(t, f, kube);
    }
  }

  lemma StepKeepsKin(env: Env, s: State, e: Event)
    requires Kin(s) && ProperEvent(e)
    ensures Kin(Step(env, s, e))
  {
    match e
    case Wake(f, kube) => PassKeepsKin(s, f, kube);
    case Update(wish) => StepKeepsShape(env, s, e);
    case Elsewhere(acts) =>
      OutsideLater(s.w, s.spec, acts);
      OutsideIsLawful(s.w, s.spec, acts);
      FamilyLater(s, Step(env, s, e));
    case _ =>
  }

  lemma CreatedIsKin(env: Env, s: State)
    requires Created(env, s)
    ensures Kin(s)
  {
    CreatedIsSafe(env, s);
  }

  lemma {:induction false} RunKeepsKin(env: Env, trace: seq<State>, es: seq<Event>, k: nat)
    requires IsRun(env, trace, es) && ProperRun(es) && k <= |es|
    ensures Kin(trace[k])
    decreases k
  {
    if k == 0 {
      CreatedIsKin(env, trace[0]);
    } else {
      RunKeepsKin(env, trace, es, k - 1);
      StepKeepsKin(env, trace[k - 1], es[k - 1]);
      assert Follows(env, trace[k - 1], es[k - 1], trace[k - 1 + 1]);
    }
  }

  // --------------------------------------------------------------------- teardown

  /** Whatever a run recorded, the teardown theorems apply to it. */
  lemma RunIsFit(env: Env, trace: seq<State>, es: seq<Event>, k: nat)
    requires IsRun(env, trace, es) && ProperRun(es) && k <= |es|
    ensures Fit(trace[k])
  {
    RunKeepsKin(env, trace, es, k);
    FamilyIsFit(trace[k]);
  }

  /** Every pool, listener, monitor and managed subnet status records is below a recorded parent, or gone. */
  lemma ChildrenAreBelow(env: Env, trace: seq<State>, es: seq<Event>, k: nat)
    requires IsRun(env, trace, es) && ProperRun(es) && k <= |es|
    ensures var s := trace[k];
            && (forall i | i in {s.st.poolId, s.st.listenerId, s.st.monitorId} && i in s.w.res :: Below(s.w.res, i, s.st.lbId))
            && (forall n | n in s.st.networks && n.managed && n.subnetId in s.w.res :: Below(s.w.res, n.subnetId, n.networkId))
  {
    RunKeepsKin(env, trace, es, k);
    var s := trace[k];
    forall i | i in {s.st.poolId, s.st.listenerId, s.st.monitorId} && i in s.w.res ensures Below(s.w.res, i, s.st.lbId) {
      assert ParentOk(s.w.res, s.w.res[i].kind, s.w.res[i].parent);
    }
    forall n | n in s.st.networks && n.managed && n.subnetId in s.w.res ensures Below(s.w.res, n.subnetId, n.networkId) {
      assert NetworkHangs(s.w, n);
    }
  }

  lemma PartsDie(w: World, v: World, st: Status)
    requires Lawful(v) && Later(w, v) && PartsHang(w, st) && !IsKind(v.res, st.lbId, LoadBalancer)
    ensures st.poolId !in v.res && st.listenerId !in v.res && st.monitorId !in v.res
  {
    PartsLater(w, v, st);
    ParentIsThere(v, st.poolId);
    ParentIsThere(v, st.listenerId);
    ParentIsThere(v, st.monitorId);
  }

  lemma SubnetDies(w: World, v: World, n: NetworkStatus)
    requires Lawful(v) && Newer(w, v) && NetworkHangs(w, n) && n.managed && !IsKind(v.res, n.networkId, Network)
    ensures n.subnetId !in v.res
  {
    ParentIsThere(v, n.subnetId);
  }

  /** When the finalizer is gone, so is every child status recorded when deletion began. */
  lemma NoRecordedChildSurvives(env: Env, trace: seq<State>, es: seq<Event>, passes: seq<Attempt>)
    requires IsRun(env, trace, es) && ProperRun(es)
    requires var s := trace[|es|]; s.finalizer && s.deleting && !Attempts(s, passes).finalizer
    ensures var s := trace[|es|]; var v := Attempts(s, passes).w;
            && s.st.poolId !in v.res && s.st.listenerId !in v.res && s.st.monitorId !in v.res
            && forall n | n in s.st.networks && n.managed :: n.subnetId !in v.res
  {
    var s := trace[|es|];
    RunKeepsKin(env, trace, es, |es|);
    DisabledIsNeverRecorded(env, trace, es, |es|);
    NoChildSurvives(s, passes);
  }

  lemma NoChildSurvives(s: State, passes: seq<Attempt>)
    requires Related(s) && Unrecorded(s) && s.finalizer && s.deleting && !Attempts(s, passes).finalizer
    ensures var v := Attempts(s, passes).w;
            && s.st.poolId !in v.res && s.st.listenerId !in v.res && s.st.monitorId !in v.res
            && forall n | n in s.st.networks && n.managed :: n.subnetId !in v.res
  {
    FamilyIsFit(s);
    AttemptsCarry(s, passes);
    var v := Attempts(s, passes).w;
    if s.st.lbId != NO_ID {
      assert Recorded(s.spec, s.st, ALoadBalancer(s.st.lbId));
      NothingRecordedSurvives(s, passes, ALoadBalancer(s.st.lbId));
    }
    PartsDie(s.w, v, s.st);
    forall n | n in s.st.networks && n.managed ensures n.subnetId !in v.res {
      assert NetworkHangs(s.w, n);
      if n.networkId != NO_ID {
        assert Recorded(s.spec, s.st, ANetwork(n.networkId));
        NothingRecordedSurvives(s, passes, ANetwork(n.networkId));
      }
      SubnetDies(s.w, v, n);
    }
  }
}
