/**
 The bound on the number of passes that stop on a timed-out create, while the spec is updated and
 machines join: at most as many as the last spec and machine list ask for resources.
 */
module ProgressBound {
  import opened Types
  import opened Cloud
  import opened LoadBalancer
  import opened Members
  import opened Controller
  import opened Admission
  import opened Ownership
  import opened OwnershipSteps
  import opened MemberConvergence
  import opened Runs
  import opened AdmissionChains
  import opened Progress
  import opened ProgressRuns

  // --------------------------------------------------------------- larger specs

  /** Every network, router and interface is still there as it was; the rest that matters is fixed. */
  ghost predicate Enlarges(was: Spec, now: Spec) {
    && SpecOk(now) && NetworksKept(was.networks, now.networks) && RoutersKept(was.routers, now.routers)
    && LbKept(was, now) && now.fip == was.fip
  }

  lemma EnlargesTransitive(a: Spec, b: Spec, c: Spec)
    requires Enlarges(a, b) && Enlarges(b, c)
    ensures Enlarges(a, c)
  {
    NetworksKeptTransitive(a.networks, b.networks, c.networks);
    RoutersKeptTransitive(a.routers, b.routers, c.routers);
  }

  /** The endpoint does not count. */
  lemma SameWishEnlarges(was: Spec, now: Spec)
    requires SpecOk(was) && SameWish(was, now)
    ensures Enlarges(was, now)
  {
    NetworksKeptReflexive(was.networks);
    RoutersKeptReflexive(was);
  }

  /** The spec after a number of writes, each admitted or dropped. */
  ghost function AdmitAll(env: Env, was: Spec, wishes: seq<Spec>): Spec
    decreases |wishes|
  {
    if wishes == [] then was else AdmitAll(env, Admit(env, was, wishes[0]), wishes[1..])
  }

  lemma AdmitEnlarges(env: Env, was: Spec, wish: Spec)
    requires SpecOk(was)
    ensures Enlarges(was, Admit(env, was, wish))
  {
    if Admit(env, was, wish) == was {
      SameWishEnlarges(was, was);
    } else {
      AdmittedUpdateExtends(was, Admit(env, was, wish));
    }
  }

  lemma {:induction false} AdmitAllEnlarges(env: Env, was: Spec, wishes: seq<Spec>)
    requires SpecOk(was)
    ensures Enlarges(was, AdmitAll(env, was, wishes))
    decreases |wishes|
  {
    if wishes == [] {
      SameWishEnlarges(was, was);
    } else {
      var next := Admit(env, was, wishes[0]);
      AdmitEnlarges(env, was, wishes[0]);
      AdmitAllEnlarges(env, next, wishes[1..]);
      EnlargesTransitive(was, next, AdmitAll(env, was, wishes));
    }
  }

  lemma KeptAsIs(was: seq<NetworkSpec>, now: seq<NetworkSpec>, a: Name)
    requires NetworksKept(was, now) && DistinctNetworks(now) && SpecNetwork(was, a).Some?
    ensures SpecNetwork(now, a).Some? && SameNetwork(SpecNetwork(was, a).value, SpecNetwork(now, a).value)
  {
    SpecNetworkIn(was, a);
    var n := SpecNetwork(was, a).value;
    var k :| 0 <= k < |now| && SameNetwork(n, now[k]);
    SpecNetworkAt(now, k);
  }

  lemma StillNetwork(was: Spec, now: Spec, w: World, a: Name, id: Id)
    requires Enlarges(was, now) && IsNetwork(was, w, a, id)
    ensures IsNetwork(now, w, a, id)
  {
    KeptAsIs(was.networks, now.networks, a);
  }

  lemma StillRouter(was: Spec, now: Spec, w: World, r: Name, id: Id)
    requires Enlarges(was, now) && IsRouter(was, w, r, id)
    ensures IsRouter(now, w, r, id)
  {
    KeptRouter(was.routers, now.routers, r);
  }

  lemma AmendedIsSteady(s: State, now: Spec)
    requires Steady(s) && Enlarges(s.spec, now)
    ensures Steady(s.(spec := now))
  {
    var t := s.(spec := now);
    forall a | FindNetwork(t.st.networks, a).Some? ensures NetworkTrue(now, t.w, FindNetwork(t.st.networks, a).value) {
      var n := FindNetwork(s.st.networks, a).value;
      assert NetworkTrue(s.spec, s.w, n);
      KeptAsIs(s.spec.networks, now.networks, n.name);
      StillNetwork(s.spec, now, s.w, n.name, n.networkId);
    }
    forall r | FindRouter(t.st.routers, r).Some? ensures IsRouter(now, t.w, r, FindRouter(t.st.routers, r).value.routerId) {
      StillRouter(s.spec, now, s.w, r, FindRouter(s.st.routers, r).value.routerId);
    }
  }

  lemma AmendedIsPresent(s: State, now: Spec, machines: seq<Machine>, k: Key)
    requires Enlarges(s.spec, now) && Present(s, machines, k)
    ensures Present(s.(spec := now), machines, k)
  {
    match k
    case AJoint(r, a) =>
      var i :| i in s.w.ifaces && IsRouter(s.spec, s.w, r, s.w.ifaces[i].router) && IsNetwork(s.spec, s.w, a, s.w.ifaces[i].network);
      StillRouter(s.spec, now, s.w, r, s.w.ifaces[i].router);
      StillNetwork(s.spec, now, s.w, a, s.w.ifaces[i].network);
    case AMember(x) =>
      assert DesiredMembers(now, s.st.networks, machines) == DesiredMembers(s.spec, s.st.networks, machines) by {
        assert now.lb.(enabled := None) == s.spec.lb.(enabled := None);
      }
    case _ =>
  }

  lemma LargerKeys(was: Spec, now: Spec, machines: seq<Machine>)
    requires Enlarges(was, now)
    ensures WantedKeys(was, machines) <= WantedKeys(now, machines)
  {
    forall n | n in was.networks ensures exists m | m in now.networks :: m.name == n.name && m.uuid == n.uuid {
      var k :| 0 <= k < |now.networks| && SameNetwork(n, now.networks[k]);
      assert now.networks[k] in now.networks;
    }
    forall r | r in was.routers ensures exists q | q in now.routers :: RouterKept(r, q) {
      var k :| 0 <= k < |now.routers| && RouterKept(r, now.routers[k]);
      assert now.routers[k] in now.routers;
    }
    forall r, e | r in was.routers && e in r.interfaces && e.uuid == NO_ID
      ensures AJoint(r.name, e.network) in WantedKeys(now, machines)
    {
      var q :| q in now.routers && RouterKept(r, q);
      var k :| 0 <= k < |q.interfaces| && SameInterface(e, q.interfaces[k]);
      assert q.interfaces[k] in q.interfaces;
    }
  }

  /** A larger spec has achieved no less. */
  lemma AmendedIsAchieved(s: State, now: Spec, machines: seq<Machine>)
    requires Enlarges(s.spec, now)
    ensures |Achieved(s, machines)| <= |Achieved(s.(spec := now), machines)|
  {
    LargerKeys(s.spec, now, machines);
    forall k | k in Achieved(s, machines) ensures k in Achieved(s.(spec := now), machines) {
      AmendedIsPresent(s, now, machines, k);
    }
    SubsetSize(Achieved(s, machines), Achieved(s.(spec := now), machines));
  }

  // -------------------------------------------------------------- more machines

  /** Machines stay, under their names, and keep the addresses they have. */
  ghost predicate Outgrows(now: Machine, was: Machine) {
    now.name == was.name && (was.controlPlane ==> now.controlPlane) && forall a | a in was.addresses :: a in now.addresses
  }

  ghost predicate MoreMachines(was: seq<Machine>, now: seq<Machine>) {
    forall m | m in was :: exists n | n in now :: Outgrows(n, m)
  }

  lemma MoreAreWanted(was: seq<Machine>, now: seq<Machine>, subnet: Id, cidr: Cidr, port: int, x: Name)
    requires MoreMachines(was, now) && IsWanted(WantedFrom(was, subnet, cidr, port), x)
    ensures IsWanted(WantedFrom(now, subnet, cidr, port), x)
  {
    var w :| w in WantedFrom(was, subnet, cidr, port) && w.name == x;
    WantedExplained(was, subnet, cidr, port, w);
    var m :| m in was && Explains(m, w, cidr);
    var n :| n in now && Outgrows(n, m);
    var k :| 0 <= k < |m.addresses| && Usable(m.addresses[k], cidr);
    assert m.addresses[k] in n.addresses;
    var j :| 0 <= j < |n.addresses| && n.addresses[j] == m.addresses[k];
    MemberAddressIsFirst(n.addresses, cidr);
    assert Usable(n.addresses[j], cidr);
    UsableIsWanted(now, subnet, cidr, port, n, MemberAddress(n.addresses, cidr).value);
    assert Wanted(n.name, subnet, MemberAddress(n.addresses, cidr).value, port).name == x;
  }

  lemma MoreWants(s: State, was: seq<Machine>, now: seq<Machine>, x: Name)
    requires MoreMachines(was, now) && Wants(s, was, x)
    ensures Wants(s, now, x)
  {
    var subnet := PoolMemberSubnet(s.spec, s.st.networks);
    var cidr := MemberSubnetCidr(s.st.networks, subnet.value);
    MoreAreWanted(was, now, subnet.value, cidr.value, s.spec.lb.port, x);
  }

  lemma MoreKeys(spec: Spec, was: seq<Machine>, now: seq<Machine>)
    requires MoreMachines(was, now)
    ensures WantedKeys(spec, was) <= WantedKeys(spec, now)
  {
    forall k | k in LbKeys(was) ensures k in LbKeys(now) {
      if k.AMember? {
        var m :| m in was && m.controlPlane && k == AMember(m.name);
        var n :| n in now && Outgrows(n, m);
        assert AMember(n.name) in LbKeys(now);
      }
    }
  }

  /** With more machines no less is achieved. */
  lemma MoreIsAchieved(s: State, was: seq<Machine>, now: seq<Machine>)
    requires MoreMachines(was, now)
    ensures |Achieved(s, was)| <= |Achieved(s, now)|
  {
    MoreKeys(s.spec, was, now);
    forall k | k in Achieved(s, was) ensures k in Achieved(s, now) {
      if k.AMember? { MoreWants(s, was, now, k.name); }
    }
    SubsetSize(Achieved(s, was), Achieved(s, now));
  }

  lemma MoreTransitive(a: seq<Machine>, b: seq<Machine>, c: seq<Machine>)
    requires MoreMachines(a, b) && MoreMachines(b, c)
    ensures MoreMachines(a, c)
  {
    forall m | m in a ensures exists o | o in c :: Outgrows(o, m) {
      var n :| n in b && Outgrows(n, m);
      var o :| o in c && Outgrows(o, n);
      assert Outgrows(o, m);
    }
  }

  // ---------------------------------------------------------------------- turns

  /** A number of spec writes, then a pass. */
  datatype Turn = Turn(wishes: seq<Spec>, f: Fates, kube: Kube)

  /** One pass of a live cluster, with the call counter at its start. */
  ghost function PassFrom(s: State, f: Fates, kube: Kube): Pass {
    ReconcileNormal(s.(clock := 0, finalizer := true), f, kube)
  }

  /** Turns one after another: the states between them, and how each pass ended. */
  ghost predicate IsSeries(env: Env, trace: seq<State>, flows: seq<Flow>, turns: seq<Turn>) {
    && |trace| == |turns| + 1 && |flows| == |turns|
    && forall k | 0 <= k < |turns| :: Ends(env, trace[k], turns[k], trace[k + 1], flows[k])
  }

  ghost predicate Ends(env: Env, s: State, a: Turn, t: State, flow: Flow) {
    var p := PassFrom(s.(spec := AdmitAll(env, s.spec, a.wishes)), a.f, a.kube);
    p.s == t && p.flow == flow
  }

  /** How many of the passes stop on a timed-out create. */
  ghost function Stalls(flows: seq<Flow>): nat {
    if flows == [] then 0 else Stalls(flows[..|flows| - 1]) + if flows[|flows| - 1] == Stalled then 1 else 0
  }

  /** The machine list may grow from pass to pass. */
  ghost predicate GentleTurns(turns: seq<Turn>) {
    && (forall k | 0 <= k < |turns| :: GentleFates(turns[k].f) && DistinctMachines(turns[k].kube.machines))
    && (forall k | 0 < k < |turns| :: MoreMachines(turns[k - 1].kube.machines, turns[k].kube.machines))
  }

  lemma {:induction false} MachinesGrow(turns: seq<Turn>, k: nat)
    requires GentleTurns(turns) && k < |turns|
    ensures MoreMachines(turns[0].kube.machines, turns[k].kube.machines)
    decreases k
  {
    if k == 0 {
      forall m | m in turns[0].kube.machines ensures Outgrows(m, m) {
      }
    } else {
      MachinesGrow(turns, k - 1);
      MoreTransitive(turns[0].kube.machines, turns[k - 1].kube.machines, turns[k].kube.machines);
    }
  }

  // ------------------------------------------------------------------- counting

  lemma SubsetSize(a: set<Key>, b: set<Key>)
    requires a <= b
    ensures |a| <= |b| && (a != b ==> |a| < |b|)
  {
    var rest := b - a;
    assert b == a + rest && a !! rest;
    assert rest == {} ==> a == b;
  }

  /** Going forward never loses what was done, and something new is one more. */
  lemma AchievedGrows(s: State, t: State, flow: Flow, machines: seq<Machine>)
    requires Goes(s, t, flow, machines)
    ensures |Achieved(s, machines)| + (if flow == Stalled then 1 else 0) <= |Achieved(t, machines)|
  {
    SameKeys(s.spec, t.spec, machines);
    forall k | k in Achieved(s, machines) ensures k in Achieved(t, machines) { PresentStays(s, t, machines, k); }
    SubsetSize(Achieved(s, machines), Achieved(t, machines));
    if flow == Stalled {
      var k :| k in WantedKeys(s.spec, machines) && !Present(s, machines, k) && Present(t, machines, k);
      assert k in Achieved(t, machines) && k !in Achieved(s, machines);
    }
  }

  /** From `s` to `t` at least `count` things of the spec were brought about. */
  ghost predicate Ahead(s: State, was: seq<Machine>, t: State, now: seq<Machine>, count: nat) {
    Steady(t) && Enlarges(s.spec, t.spec) && count + |Achieved(s, was)| <= |Achieved(t, now)|
  }

  lemma AheadTransitive(
    s: State, a: seq<Machine>, t: State, b: seq<Machine>, u: State, c: seq<Machine>, i: nat, j: nat)
    requires Ahead(s, a, t, b, i) && Ahead(t, c, u, c, j) && MoreMachines(b, c)
    ensures Ahead(s, a, u, c, i + j)
  {
    EnlargesTransitive(s.spec, t.spec, u.spec);
    MoreIsAchieved(t, b, c);
  }

  lemma PassIsAhead(s: State, f: Fates, kube: Kube)
    requires Steady(s) && GentleFates(f) && DistinctMachines(kube.machines)
    ensures var p := PassFrom(s, f, kube); Ahead(s, kube.machines, p.s, kube.machines, if p.flow == Stalled then 1 else 0)
  {
    var u, p, machines := s.(clock := 0, finalizer := true), PassFrom(s, f, kube), kube.machines;
    PartEditGoes(s, u, machines);
    NormalPassGoes(u, f, kube);
    GoesOn(s, u, p.s, p.flow, machines);
    AchievedGrows(s, p.s, p.flow, machines);
    SameWishEnlarges(s.spec, p.s.spec);
  }

  lemma TurnIsAhead(env: Env, s: State, a: Turn, t: State, flow: Flow)
    requires Steady(s) && GentleFates(a.f) && DistinctMachines(a.kube.machines) && Ends(env, s, a, t, flow)
    ensures Ahead(s, a.kube.machines, t, a.kube.machines, if flow == Stalled then 1 else 0)
  {
    var now := AdmitAll(env, s.spec, a.wishes);
    AdmitAllEnlarges(env, s.spec, a.wishes);
    AmendedIsSteady(s, now);
    AmendedIsAchieved(s, now, a.kube.machines);
    PassIsAhead(s.(spec := now), a.f, a.kube);
    EnlargesTransitive(s.spec, now, t.spec);
  }

  lemma OneMorePass(flows: seq<Flow>, k: nat)
    requires 0 < k <= |flows|
    ensures Stalls(flows[..k]) == Stalls(flows[..k - 1]) + if flows[k - 1] == Stalled then 1 else 0
  {
    assert flows[..k][..k - 1] == flows[..k - 1];
  }

  /** Each pass that stalls leaves one thing less to do. */
  lemma {:induction false} StallsAdvance(env: Env, trace: seq<State>, flows: seq<Flow>, turns: seq<Turn>, k: nat)
    requires IsSeries(env, trace, flows, turns) && GentleTurns(turns) && Steady(trace[0]) && 0 < k <= |turns|
    ensures Ahead(trace[0], turns[0].kube.machines, trace[k], turns[k - 1].kube.machines, Stalls(flows[..k]))
    decreases k
  {
    var j := k - 1;
    assert Ends(env, trace[j], turns[j], trace[j + 1], flows[j]);
    OneMorePass(flows, k);
    var more := if flows[j] == Stalled then 1 else 0;
    if j == 0 {
      TurnIsAhead(env, trace[0], turns[0], trace[1], flows[0]);
    } else {
      StallsAdvance(env, trace, flows, turns, j);
      TurnIsAhead(env, trace[j], turns[j], trace[k], flows[j]);
      AheadTransitive(
        trace[0], turns[0].kube.machines, trace[j], turns[j - 1].kube.machines, trace[k], turns[j].kube.machines,
        Stalls(flows[..j]), more);
    }
  }

  lemma Budget(count: nat, all: set<Key>, was: set<Key>, now: set<Key>)
    requires count + |was| <= |now| && was <= all && now <= all
    ensures count <= |all - was|
  {
    SubsetSize(now, all);
    assert all == was + (all - was);
  }

  /** At most as many passes stall as things of the last spec, with the last machine list, were not there at first. */
  lemma StallsAreBounded(env: Env, trace: seq<State>, flows: seq<Flow>, turns: seq<Turn>)
    requires IsSeries(env, trace, flows, turns) && GentleTurns(turns) && Steady(trace[0]) && turns != []
    ensures var n := |turns|; var first, last := turns[0].kube.machines, turns[n - 1].kube.machines;
            Stalls(flows) <= |WantedKeys(trace[n].spec, last) - Achieved(trace[0], first)|
  {
    var s, t, n := trace[0], trace[|turns|], |turns|;
    var first, last := turns[0].kube.machines, turns[n - 1].kube.machines;
    StallsAdvance(env, trace, flows, turns, n);
    assert flows[..n] == flows;
    MachinesGrow(turns, n - 1);
    MoreKeys(s.spec, first, last);
    LargerKeys(s.spec, t.spec, last);
    Budget(Stalls(flows), WantedKeys(t.spec, last), Achieved(s, first), Achieved(t, last));
  }

  lemma CreatedIsSteady(env: Env, s: State)
    requires Created(env, s)
    ensures Steady(s)
  {
  }

  /** From creation on: no more stalled passes than the last spec asks for resources. */
  lemma StallsFromCreation(env: Env, trace: seq<State>, flows: seq<Flow>, turns: seq<Turn>)
    requires IsSeries(env, trace, flows, turns) && GentleTurns(turns) && Created(env, trace[0]) && turns != []
    ensures Stalls(flows) <= |WantedKeys(trace[|turns|].spec, turns[|turns| - 1].kube.machines)|
  {
    var keys := WantedKeys(trace[|turns|].spec, turns[|turns| - 1].kube.machines);
    CreatedIsSteady(env, trace[0]);
    StallsAreBounded(env, trace, flows, turns);
    SubsetSize(keys - Achieved(trace[0], turns[0].kube.machines), keys);
  }
}
