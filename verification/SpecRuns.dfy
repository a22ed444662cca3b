/**
 The spec over whole runs: whoever writes it, user or controller, a run's specs are a chain of
 admitted updates, so what such chains keep is kept in every run.
 */
module SpecRuns {
  import opened Types
  import opened Cloud
  import opened Networks
  import opened Routers
  import opened FloatingIps
  import opened Controller
  import opened Admission
  import opened Runs
  import opened AdmissionChains
  import opened StatusShape
  import opened FamilyRuns
  import LB = LoadBalancer

  // ------------------------------------------------------------------ single steps

  ghost predicate Proper(spec: Spec) {
    WellFormed(spec) && DistinctRouters(spec.routers)
  }

  /** The controller fills in the endpoint or leaves the spec alone. */
  ghost predicate Endpointed(was: Spec, now: Spec) {
    now == was || (was.host == NO_ID && now == was.(host := now.host, port := was.lb.port))
  }

  lemma AfterRoutersEndpoints(r: Stage, f: Fates, kube: Kube)
    ensures Endpointed(r.s.spec, AfterRouters(r, f, kube).s.spec)
  {
    var lb := LB.ReconcileLoadBalancer(r.s, f, kube.machines);
    assert lb.s.spec == r.s.spec;
    assert ReconcileFloatingIp(lb.s, f, kube.machines).s.spec == r.s.spec;
  }

  lemma PassEndpoints(s: State, f: Fates, kube: Kube)
    ensures Endpointed(s.spec, Reconcile(s, f, kube).spec)
  {
    var t := s.(clock := 0);
    DeletePassKeepsSpec(t, f, kube);
    var n := ReconcileNetworks(t.(finalizer := true), f);
    AfterRoutersEndpoints(ReconcileRouters(n.s, f), f, kube);
  }

  lemma EndpointIsUpdate(was: Spec, now: Spec)
    requires Proper(was) && Endpointed(was, now)
    ensures UpdateValid(was, now) && Proper(now)
  {
    NetworksKeptReflexive(was.networks);
    RoutersKeptReflexive(was);
  }

  /** Whatever happens, the spec afterwards is an admitted update of the one before. */
  lemma StepIsUpdate(env: Env, s: State, e: Event)
    requires Proper(s.spec)
    ensures UpdateValid(s.spec, Step(env, s, e).spec) && Proper(Step(env, s, e).spec)
  {
    EndpointIsUpdate(s.spec, s.spec);
    if e.Wake? {
      PassEndpoints(s, e.f, e.kube);
      EndpointIsUpdate(s.spec, Reconcile(s, e.f, e.kube).spec);
    }
  }

  // -------------------------------------------------------------------- whole runs

  ghost function Specs(trace: seq<State>): (specs: seq<Spec>)
    ensures |specs| == |trace| && forall k | 0 <= k < |trace| :: specs[k] == trace[k].spec
  {
    seq(|trace|, k requires 0 <= k < |trace| => trace[k].spec)
  }

  lemma {:induction false} RunStaysProper(env: Env, trace: seq<State>, es: seq<Event>, k: nat)
    requires IsRun(env, trace, es) && k <= |es|
    ensures Proper(trace[k].spec)
    decreases k
  {
    if k > 0 {
      RunStaysProper(env, trace, es, k - 1);
      assert Follows(env, trace[k - 1], es[k - 1], trace[k - 1 + 1]);
      StepIsUpdate(env, trace[k - 1], es[k - 1]);
    }
  }

  /** The specs of a run are a chain of admitted updates. */
  lemma RunIsChain(env: Env, trace: seq<State>, es: seq<Event>)
    requires IsRun(env, trace, es)
    ensures Chain(Specs(trace)) && CreateValid(env.regions, trace[0].spec)
    ensures forall k | 0 <= k < |trace| :: DistinctRouters(Specs(trace)[k].routers)
  {
    forall k | 0 <= k < |trace| ensures DistinctRouters(Specs(trace)[k].routers) {
      RunStaysProper(env, trace, es, k);
    }
    forall k | 0 <= k < |trace| - 1 ensures UpdateValid(Specs(trace)[k], Specs(trace)[k + 1]) {
      RunStaysProper(env, trace, es, k);
      assert Follows(env, trace[k], es[k], trace[k + 1]);
      StepIsUpdate(env, trace[k], es[k]);
    }
  }

  lemma ShapedIsStatusOf(s: State)
    requires Shaped(s)
    ensures StatusOf(s.spec, s.st.networks)
  {
    forall n | n in s.st.networks ensures Defined(n.name, s.spec.networks) {
    }
  }

  /** With the load balancer enabled, members are on one and the same network whenever they are placed at all. */
  lemma MembersStayOnTheirNetwork(env: Env, trace: seq<State>, es: seq<Event>, j: nat, k: nat)
    requires IsRun(env, trace, es) && j <= k <= |es| && LbEnabled(trace[j].spec)
    requires LB.PoolMemberSubnet(trace[j].spec, trace[j].st.networks).Some?
    requires LB.PoolMemberSubnet(trace[k].spec, trace[k].st.networks).Some?
    ensures var a := LB.MemberNetwork(trace[j].spec, trace[j].st.networks);
            && a.Some? && LB.MemberNetwork(trace[k].spec, trace[k].st.networks) == a
            && forall i | i in {j, k} ::
                 var n := FindNetwork(trace[i].st.networks, a.value);
                 n.Some? && LB.PoolMemberSubnet(trace[i].spec, trace[i].st.networks) == Some(n.value.subnetId)
  {
    var s, t := trace[j], trace[k];
    RunKeepsShape(env, trace, es, j);
    RunKeepsShape(env, trace, es, k);
    ShapedIsStatusOf(s);
    ShapedIsStatusOf(t);
    MemberSubnetIsOfMemberNetwork(s.spec, s.st.networks);
    MemberSubnetIsOfMemberNetwork(t.spec, t.st.networks);
    RunIsChain(env, trace, es);
    MemberNetworkFixed(env.regions, Specs(trace), j, k, s.st.networks, t.st.networks);
  }
}
