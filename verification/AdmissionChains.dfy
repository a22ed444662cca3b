/** What defaulting and every chain of accepted updates keep. */
module AdmissionChains {
  import opened Types
  import opened Regions
  import opened Admission
  import LB = LoadBalancer

  /** One spec after another, each admitted as an update of the one before. */
  ghost predicate Chain(specs: seq<Spec>) {
    forall i | 0 <= i < |specs| - 1 :: UpdateValid(specs[i], specs[i + 1])
  }

  lemma UpdateKeepsCreateValid(ri: RegionInfo, was: Spec, now: Spec)
    requires CreateValid(ri, was) && UpdateValid(was, now)
    ensures CreateValid(ri, now)
  {
  }

  // --------------------------------------------------------- nothing ever leaves

  lemma NetworksKeptTransitive(a: seq<NetworkSpec>, b: seq<NetworkSpec>, c: seq<NetworkSpec>)
    requires NetworksKept(a, b) && NetworksKept(b, c)
    ensures NetworksKept(a, c)
  {
    forall n | n in a
      ensures exists k :: 0 <= k < |c| && SameNetwork(n, c[k]) && forall j | k < j < |c| :: c[j].name != n.name
    {
      var k :| 0 <= k < |b| && SameNetwork(n, b[k]);
      assert b[k] in b;
    }
  }

  lemma InterfacesKeptTransitive(a: seq<InterfaceSpec>, b: seq<InterfaceSpec>, c: seq<InterfaceSpec>)
    requires InterfacesKept(a, b) && InterfacesKept(b, c)
    ensures InterfacesKept(a, c)
  {
    forall e | e in a
      ensures exists k :: 0 <= k < |c| && SameInterface(e, c[k]) && forall j | k < j < |c| :: c[j].network != e.network
    {
      var k :| 0 <= k < |b| && SameInterface(e, b[k]);
      assert b[k] in b;
    }
  }

  lemma RoutersKeptTransitive(a: seq<RouterSpec>, b: seq<RouterSpec>, c: seq<RouterSpec>)
    requires RoutersKept(a, b) && RoutersKept(b, c)
    ensures RoutersKept(a, c)
  {
    forall r | r in a
      ensures exists k :: 0 <= k < |c| && RouterKept(r, c[k]) && forall j | k < j < |c| :: c[j].name != r.name
    {
      var k :| 0 <= k < |b| && RouterKept(r, b[k]);
      assert b[k] in b;
      var l :| 0 <= l < |c| && RouterKept(b[k], c[l]) && forall j | l < j < |c| :: c[j].name != b[k].name;
      InterfacesKeptTransitive(r.interfaces, b[k].interfaces, c[l].interfaces);
    }
  }

  lemma NetworksKeptReflexive(ns: seq<NetworkSpec>)
    requires DistinctNetworks(ns)
    ensures NetworksKept(ns, ns)
  {
    forall n | n in ns
      ensures exists k :: 0 <= k < |ns| && SameNetwork(n, ns[k]) && forall j | k < j < |ns| :: ns[j].name != n.name
    {
      var k :| 0 <= k < |ns| && ns[k] == n;
      assert SameNetwork(n, ns[k]);
    }
  }

  lemma RoutersKeptReflexive(spec: Spec)
    requires DistinctRouters(spec.routers)
    ensures RoutersKept(spec.routers, spec.routers)
  {
    var rs := spec.routers;
    forall r | r in rs
      ensures exists k :: 0 <= k < |rs| && RouterKept(r, rs[k]) && forall j | k < j < |rs| :: rs[j].name != r.name
    {
      forall e | e in r.interfaces
        ensures exists k :: 0 <= k < |r.interfaces| && SameInterface(e, r.interfaces[k]) &&
                            forall j | k < j < |r.interfaces| :: r.interfaces[j].network != e.network
      {
        var k :| 0 <= k < |r.interfaces| && r.interfaces[k] == e;
        assert SameInterface(e, r.interfaces[k]);
      }
      var k :| 0 <= k < |rs| && rs[k] == r;
      assert RouterKept(r, rs[k]);
    }
  }

  /** Along a chain every spec stays create-valid, and every earlier network, router and interface is there unchanged. */
  lemma {:induction false} ChainKeeps(ri: RegionInfo, specs: seq<Spec>, i: nat, j: nat)
    requires Chain(specs) && i <= j < |specs| && CreateValid(ri, specs[0])
    requires forall k | 0 <= k < |specs| :: DistinctRouters(specs[k].routers)
    ensures CreateValid(ri, specs[j])
    ensures NetworksKept(specs[i].networks, specs[j].networks)
    ensures RoutersKept(specs[i].routers, specs[j].routers)
    ensures LbKept(specs[i], specs[j]) && EndpointKept(specs[i], specs[j]) && specs[i].fip == specs[j].fip
    decreases j
  {
    if i < j {
      ChainKeeps(ri, specs, i, j - 1);
      UpdateKeepsCreateValid(ri, specs[j - 1], specs[j]);
      NetworksKeptTransitive(specs[i].networks, specs[j - 1].networks, specs[j].networks);
      RoutersKeptTransitive(specs[i].routers, specs[j - 1].routers, specs[j].routers);
    } else {
      if j > 0 {
        ChainKeeps(ri, specs, j - 1, j - 1);
        UpdateKeepsCreateValid(ri, specs[j - 1], specs[j]);
      }
      NetworksKeptReflexive(specs[i].networks);
      RoutersKeptReflexive(specs[i]);
    }
  }

  // ------------------------------------------------------------------ defaulting

  lemma DefaultIdempotent(ri: RegionInfo, name: Name, spec: Spec)
    ensures Default(ri, name, Default(ri, name, spec)) == Default(ri, name, spec)
  {
  }

  /** The controller's own write of the endpoint survives defaulting and is admitted. */
  lemma EndpointWriteAdmitted(ri: RegionInfo, name: Name, spec: Spec, host: Id)
    requires Default(ri, name, spec) == spec && WellFormed(spec) && DistinctRouters(spec.routers) && spec.host == NO_ID
    ensures var now := spec.(host := host, port := spec.lb.port);
            Default(ri, name, now) == now && UpdateValid(spec, now)
  {
    NetworksKeptReflexive(spec.networks);
    RoutersKeptReflexive(spec);
  }

  // ---------------------------------------------------------- the member network

  /** Status only has entries for networks of the spec. */
  ghost predicate StatusOf(spec: Spec, ns: seq<NetworkStatus>) {
    forall n | n in ns :: Defined(n.name, spec.networks)
  }

  /**
   With the load balancer enabled, the network pool members live on never changes over a chain
   of admitted updates of defaulted specs, whatever status looked like at either end.
   */
  lemma MemberNetworkFixed(
    ri: RegionInfo, specs: seq<Spec>, i: nat, j: nat, before: seq<NetworkStatus>, after: seq<NetworkStatus>)
    requires Chain(specs) && i <= j < |specs| && CreateValid(ri, specs[0]) && LbEnabled(specs[i])
    requires forall k | 0 <= k < |specs| :: DistinctRouters(specs[k].routers)
    requires StatusOf(specs[i], before) && StatusOf(specs[j], after) && before != [] && after != []
    ensures LB.MemberNetwork(specs[i], before) == LB.MemberNetwork(specs[j], after)
  {
    ChainKeeps(ri, specs, i, i);
    ChainKeeps(ri, specs, i, j);
    if specs[i].lb.poolMemberNetwork.None? && specs[i].lb.network.None? {
      assert before[0] in before && after[0] in after;
      assert |specs[i].networks| == 1 && |specs[j].networks| == 1;
      assert specs[i].networks[0] in specs[i].networks;
    }
  }

  /** The subnet members are registered on is the one status records for that network. */
  lemma MemberSubnetIsOfMemberNetwork(spec: Spec, ns: seq<NetworkStatus>)
    requires LB.PoolMemberSubnet(spec, ns).Some?
    ensures var a := LB.MemberNetwork(spec, ns);
            && a.Some? && FindNetwork(ns, a.value).Some?
            && FindNetwork(ns, a.value).value.subnetId == LB.PoolMemberSubnet(spec, ns).value != NO_ID
  {
  }
}
