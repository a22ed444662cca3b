/**
 cloudscalecluster_webhook.go: defaulting, the create rules and the update diff.

 The rules are stated as predicates; the methods are the webhook's validators, each proved
 to report an error exactly when its rule is broken.
 */
module Admission {
  import opened Types
  import opened Ip
  import opened Regions

  // ----------------------------------------------------------------- defaulting

  const DEFAULT_CIDR := Cidr(V4, 2886860800, 24)  // 172.18.0.0/24

  function DefaultMonitor(m: HealthMonitorSpec): HealthMonitorSpec {
    HealthMonitorSpec(
      if m.delay == 0 then 5 else m.delay,
      if m.timeout == 0 then 3 else m.timeout,
      if m.up == 0 then 2 else m.up,
      if m.down == 0 then 3 else m.down)
  }

  function DefaultLb(lb: LoadBalancerSpec): LoadBalancerSpec {
    lb.(enabled := if lb.enabled.None? then Some(true) else lb.enabled,
        algorithm := if lb.algorithm == "" then "round_robin" else lb.algorithm,
        flavor := if lb.flavor == "" then "lb-standard" else lb.flavor,
        port := if lb.port == 0 then 6443 else lb.port,
        monitor := DefaultMonitor(lb.monitor))
  }

  function DefaultFip(fip: Option<FloatingIpSpec>): Option<FloatingIpSpec> {
    if fip.Some? && fip.value.ipFamily.None? && fip.value.address == NO_ID
    then Some(fip.value.(ipFamily := Some(V4))) else fip
  }

  function Default(ri: RegionInfo, clusterName: Name, spec: Spec): Spec {
    spec.(zone := if spec.zone.None? then DefaultZone(ri, spec.region) else spec.zone,
          networks := if spec.networks == [] then [NetworkSpec(clusterName, NO_ID, Some(DEFAULT_CIDR), 0, None)] else spec.networks,
          lb := DefaultLb(spec.lb),
          fip := DefaultFip(spec.fip))
  }

  /** The object a defaulting webhook works on: its spec is filled in in place. */
  class ClusterObject {
    const name: Name
    var spec: Spec

    constructor (name: Name, spec: Spec)
      ensures this.name == name && this.spec == spec
    {
      this.name, this.spec := name, spec;
    }

    method ApplyDefaults(ri: RegionInfo)
      modifies this
      ensures spec == Default(ri, name, old(spec))
    {
      if spec.zone.None? { spec := spec.(zone := DefaultZone(ri, spec.region)); }
      if spec.networks == [] {
        spec := spec.(networks := [NetworkSpec(name, NO_ID, Some(DEFAULT_CIDR), 0, None)]);
      }
      DefaultLoadBalancer();
      if spec.fip.Some? && spec.fip.value.ipFamily.None? && spec.fip.value.address == NO_ID {
        spec := spec.(fip := Some(spec.fip.value.(ipFamily := Some(V4))));
      }
    }

    method DefaultLoadBalancer()
      modifies this
      ensures spec == old(spec).(lb := DefaultLb(old(spec).lb))
    {
      var lb := spec.lb;
      if lb.enabled.None? { lb := lb.(enabled := Some(true)); }
      if lb.algorithm == "" { lb := lb.(algorithm := "round_robin"); }
      if lb.flavor == "" { lb := lb.(flavor := "lb-standard"); }
      if lb.port == 0 { lb := lb.(port := 6443); }
      var m := lb.monitor;
      if m.delay == 0 { m := m.(delay := 5); }
      if m.timeout == 0 { m := m.(timeout := 3); }
      if m.up == 0 { m := m.(up := 2); }
      if m.down == 0 { m := m.(down := 3); }
      spec := spec.(lb := lb.(monitor := m));
    }
  }

  // --------------------------------------------------------------- create rules

  /** A CIDR that does not parse is reported elsewhere. */
  predicate AddressInCidr(c: Cidr, a: Addr) {
    c.BadCidr? || Contains(c, a)
  }

  /** Exactly one of uuid and cidr; a gateway needs a cidr it lies in. */
  predicate NetworkValid(n: NetworkSpec) {
    && (n.uuid != NO_ID) != n.cidr.Some?
    && (n.cidr.Some? ==> n.cidr.value.Cidr?)
    && (n.gateway.Some? ==> n.cidr.Some? && AddressInCidr(n.cidr.value, n.gateway.value))
  }

  ghost predicate NetworksValid(ns: seq<NetworkSpec>) {
    DistinctNetworks(ns) && forall k | 0 <= k < |ns| :: NetworkValid(ns[k])
  }

  predicate Defined(name: Name, ns: seq<NetworkSpec>) {
    exists n | n in ns :: n.name == name
  }

  /** indexNetworks: a name stands for the last network that carries it. */
  ghost predicate IndexesNetworks(byName: map<Name, NetworkSpec>, ns: seq<NetworkSpec>) {
    && (forall a :: a in byName <==> Defined(a, ns))
    && (forall a | a in byName :: exists k :: 0 <= k < |ns| && ns[k] == byName[a] && ns[k].name == a &&
                                              forall j | k < j < |ns| :: ns[j].name != a)
  }

  /** An adopted interface has no address of its own; any other needs one, inside a managed network's CIDR. */
  predicate InterfaceValid(e: InterfaceSpec, network: NetworkSpec, adopted: bool) {
    if e.uuid != NO_ID then adopted && e.address.None?
    else e.address.Some? && (network.cidr.Some? ==> AddressInCidr(network.cidr.value, e.address.value))
  }

  /** The rule applied to the network the interface names. */
  ghost predicate InterfaceOk(e: InterfaceSpec, ns: seq<NetworkSpec>, adopted: bool) {
    exists k :: 0 <= k < |ns| && ns[k].name == e.network && (forall j | k < j < |ns| :: ns[j].name != e.network) &&
                InterfaceValid(e, ns[k], adopted)
  }

  ghost predicate InterfacesOk(es: seq<InterfaceSpec>, ns: seq<NetworkSpec>, adopted: bool) {
    forall e | e in es :: InterfaceOk(e, ns, adopted)
  }

  ghost predicate RouterValid(r: RouterSpec, ns: seq<NetworkSpec>) {
    && !(r.uuid != NO_ID && r.internetGateway)
    && InterfacesOk(r.interfaces, ns, r.uuid != NO_ID)
  }

  ghost predicate RoutersValid(rs: seq<RouterSpec>, ns: seq<NetworkSpec>) {
    forall r | r in rs :: RouterValid(r, ns)
  }

  predicate ReferencesDefined(spec: Spec) {
    && (spec.lb.network.Some? ==> Defined(spec.lb.network.value, spec.networks))
    && (spec.lb.poolMemberNetwork.Some? ==> Defined(spec.lb.poolMemberNetwork.value, spec.networks))
  }

  predicate FipValid(spec: Spec) {
    spec.fip.Some? ==>
      && spec.fip.value.ipFamily.Some? != (spec.fip.value.address != NO_ID)
      && (spec.fip.value.address != NO_ID ==> spec.fip.value.parses)
      && (spec.fip.value.address == NO_ID ==> LbEnabled(spec))
      && (LbEnabled(spec) ==> spec.lb.network.None?)
  }

  /** Without a named network the members' network must be unambiguous. */
  predicate MemberNetworkResolvable(spec: Spec) {
    LbEnabled(spec) && spec.lb.network.None? && spec.lb.poolMemberNetwork.None? ==> |spec.networks| <= 1
  }

  /** What the create rules and the update rules both demand of a spec. */
  ghost predicate WellFormed(spec: Spec) {
    && NetworksValid(spec.networks) && RoutersValid(spec.routers, spec.networks)
    && ReferencesDefined(spec) && FipValid(spec) && MemberNetworkResolvable(spec)
  }

  ghost predicate CreateValid(ri: RegionInfo, spec: Spec) {
    WellFormed(spec) && (spec.zone.Some? ==> ZoneBelongsToRegion(ri, spec.zone.value, spec.region))
  }

  // ---------------------------------------------------------------- update rules

  predicate SameNetwork(was: NetworkSpec, now: NetworkSpec) {
    was.name == now.name && was.cidr == now.cidr && was.uuid == now.uuid && was.mtu == now.mtu && was.gateway == now.gateway
  }

  ghost predicate NetworksKept(was: seq<NetworkSpec>, now: seq<NetworkSpec>) {
    forall n | n in was :: exists k :: 0 <= k < |now| && SameNetwork(n, now[k]) && forall j | k < j < |now| :: now[j].name != n.name
  }

  predicate SameInterface(was: InterfaceSpec, now: InterfaceSpec) {
    was.network == now.network && was.address == now.address && was.uuid == now.uuid
  }

  ghost predicate InterfacesKept(was: seq<InterfaceSpec>, now: seq<InterfaceSpec>) {
    forall e | e in was :: exists k :: 0 <= k < |now| && SameInterface(e, now[k]) && forall j | k < j < |now| :: now[j].network != e.network
  }

  ghost predicate RouterKept(was: RouterSpec, now: RouterSpec) {
    && was.name == now.name && was.uuid == now.uuid && was.internetGateway == now.internetGateway
    && InterfacesKept(was.interfaces, now.interfaces)
  }

  ghost predicate RoutersKept(was: seq<RouterSpec>, now: seq<RouterSpec>) {
    forall r | r in was :: exists k :: 0 <= k < |now| && RouterKept(r, now[k]) && forall j | k < j < |now| :: now[j].name != r.name
  }

  /** enabled, network, algorithm, flavor, port, member network and health monitor are all fixed. */
  predicate LbKept(was: Spec, now: Spec) {
    LbEnabled(was) == LbEnabled(now) && now.lb.(enabled := None) == was.lb.(enabled := None)
  }

  predicate EndpointKept(was: Spec, now: Spec) {
    was.host != NO_ID ==> now.host == was.host && now.port == was.port
  }

  ghost predicate UpdateValid(was: Spec, now: Spec) {
    && now.region == was.region && now.zone == was.zone
    && NetworksKept(was.networks, now.networks) && RoutersKept(was.routers, now.routers)
    && LbKept(was, now) && EndpointKept(was, now) && now.fip == was.fip
    && WellFormed(now)
  }

  // ------------------------------------------------------------------ validators

  /** The field a rule complains about. */
  datatype FieldError = FieldError(path: string, index: nat)

  function Complaint(broken: bool, path: string, index: nat): seq<FieldError> {
    if broken then [FieldError(path, index)] else []
  }

  method ValidateNetworks(ns: seq<NetworkSpec>) returns (errs: seq<FieldError>)
    ensures errs == [] <==> NetworksValid(ns)
  {
    errs := [];
    var names: set<Name> := {};
    for i := 0 to |ns|
      invariant forall a :: a in names <==> exists j :: 0 <= j < i && ns[j].name == a
      invariant errs == [] <==> NetworksValid(ns[..i])
    {
      var n := ns[i];
      errs := errs + Complaint(n.name in names, "name", i);
      names := names + {n.name};
      errs := errs + Complaint((n.uuid != NO_ID) == n.cidr.Some?, "uuid", i);
      errs := errs + Complaint(n.cidr.Some? && n.cidr.value.BadCidr?, "cidr", i);
      errs := errs + Complaint(n.gateway.Some? && n.cidr.None?, "gatewayAddress", i);
      if n.gateway.Some? && n.cidr.Some? {
        errs := errs + Complaint(!AddressInCidr(n.cidr.value, n.gateway.value), "gatewayAddress", i);
      }
      NetworksValidExtend(ns, i);
    }
    assert ns[..|ns|] == ns;
  }

  lemma NetworksValidExtend(ns: seq<NetworkSpec>, i: nat)
    requires i < |ns|
    ensures NetworksValid(ns[..i + 1]) <==>
            NetworksValid(ns[..i]) && NetworkValid(ns[i]) && forall j | 0 <= j < i :: ns[j].name != ns[i].name
  {
    var now := ns[..i + 1];
    assert forall j | 0 <= j < i :: now[j] == ns[j] == ns[..i][j];
    assert now[i] == ns[i];
  }

  method ValidateNetworkReference(name: Name, ns: seq<NetworkSpec>, path: string) returns (errs: seq<FieldError>)
    ensures errs == [] <==> Defined(name, ns)
  {
    for i := 0 to |ns|
      invariant !Defined(name, ns[..i])
    {
      if ns[i].name == name { return []; }
    }
    assert ns[..|ns|] == ns;
    return [FieldError(path, 0)];
  }

  method IndexNetworks(ns: seq<NetworkSpec>) returns (byName: map<Name, NetworkSpec>)
    ensures IndexesNetworks(byName, ns)
  {
    byName := map[];
    for i := 0 to |ns|
      invariant IndexesNetworks(byName, ns[..i])
    {
      ghost var was := byName;
      byName := byName[ns[i].name := ns[i]];
      IndexExtends(was, ns, i);
    }
    assert ns[..|ns|] == ns;
  }

  lemma IndexExtends(byName: map<Name, NetworkSpec>, ns: seq<NetworkSpec>, i: nat)
    requires i < |ns| && IndexesNetworks(byName, ns[..i])
    ensures IndexesNetworks(byName[ns[i].name := ns[i]], ns[..i + 1])
  {
    var pre, all, now := ns[..i], ns[..i + 1], byName[ns[i].name := ns[i]];
    assert all == pre + [ns[i]];
    forall a | a in now
      ensures exists k :: 0 <= k < |all| && all[k] == now[a] && all[k].name == a && forall j | k < j < |all| :: all[j].name != a
    {
      if a == ns[i].name {
        assert all[i] == now[a];
      } else {
        var k :| 0 <= k < |pre| && pre[k] == byName[a] && pre[k].name == a && forall j | k < j < |pre| :: pre[j].name != a;
        assert all[k] == now[a];
      }
    }
  }

  method ValidateRouters(rs: seq<RouterSpec>, ns: seq<NetworkSpec>) returns (errs: seq<FieldError>)
    ensures errs == [] <==> RoutersValid(rs, ns)
  {
    var byName := IndexNetworks(ns);
    errs := [];
    for i := 0 to |rs|
      invariant errs == [] <==> forall r | r in rs[..i] :: RouterValid(r, ns)
    {
      var more := ValidateSingleRouter(rs[i], byName, ns);
      errs := errs + more;
      assert rs[..i + 1] == rs[..i] + [rs[i]];
    }
    assert rs[..|rs|] == rs;
  }

  method ValidateSingleRouter(r: RouterSpec, byName: map<Name, NetworkSpec>, ns: seq<NetworkSpec>)
    returns (errs: seq<FieldError>)
    requires IndexesNetworks(byName, ns)
    ensures errs == [] <==> RouterValid(r, ns)
  {
    errs := Complaint(r.uuid != NO_ID && r.internetGateway, "router", 0);
    var es := r.interfaces;
    for i := 0 to |es|
      invariant errs == [] <==> !(r.uuid != NO_ID && r.internetGateway) && InterfacesOk(es[..i], ns, r.uuid != NO_ID)
    {
      var more := ValidateRouterInterface(es[i], byName, r.uuid != NO_ID, i, ns);
      errs := errs + more;
      assert es[..i + 1] == es[..i] + [es[i]];
    }
    assert es[..|es|] == es;
  }

  lemma IndexedNetworkDecides(byName: map<Name, NetworkSpec>, ns: seq<NetworkSpec>, e: InterfaceSpec, adopted: bool)
    requires IndexesNetworks(byName, ns)
    ensures InterfaceOk(e, ns, adopted) <==> e.network in byName && InterfaceValid(e, byName[e.network], adopted)
  {
    if e.network in byName {
      var k :| 0 <= k < |ns| && ns[k] == byName[e.network] && ns[k].name == e.network &&
               forall j | k < j < |ns| :: ns[j].name != e.network;
    }
  }

  method ValidateRouterInterface(
    e: InterfaceSpec, byName: map<Name, NetworkSpec>, adopted: bool, index: nat, ns: seq<NetworkSpec>)
    returns (errs: seq<FieldError>)
    requires IndexesNetworks(byName, ns)
    ensures errs == [] <==> InterfaceOk(e, ns, adopted)
  {
    IndexedNetworkDecides(byName, ns, e, adopted);
    if e.network !in byName { return [FieldError("network", index)]; }
    var network := byName[e.network];
    if e.uuid != NO_ID {
      return Complaint(!adopted, "uuid", index) + Complaint(e.address.Some?, "address", index);
    }
    if e.address.None? { return [FieldError("address", index)]; }
    if network.cidr.None? { return []; }
    return Complaint(!AddressInCidr(network.cidr.value, e.address.value), "address", index);
  }

  method ValidateNetworkImmutability(was: seq<NetworkSpec>, now: seq<NetworkSpec>) returns (errs: seq<FieldError>)
    ensures errs == [] <==> NetworksKept(was, now)
  {
    var newByName := IndexNetworks(now);
    errs := [];
    for i := 0 to |was|
      invariant errs == [] <==> NetworksKept(was[..i], now)
    {
      var n := was[i];
      if n.name !in newByName {
        errs := errs + [FieldError("networks", i)];
      } else {
        var m := newByName[n.name];
        errs := errs + Complaint(m.cidr != n.cidr, "cidr", i) + Complaint(m.uuid != n.uuid, "uuid", i)
        + Complaint(m.mtu != n.mtu, "mtu", i) + Complaint(m.gateway != n.gateway, "gatewayAddress", i);
      }
      assert was[..i + 1] == was[..i] + [n];
    }
    assert was[..|was|] == was;
  }

  method ValidateRouterDiff(was: seq<RouterSpec>, now: seq<RouterSpec>) returns (errs: seq<FieldError>)
    ensures errs == [] <==> RoutersKept(was, now)
  {
    var newByName: map<Name, RouterSpec> := map[];
    for i := 0 to |now|
      invariant IndexesRouters(newByName, now[..i])
    {
      ghost var before := newByName;
      newByName := newByName[now[i].name := now[i]];
      RouterIndexExtends(before, now, i);
    }
    assert now[..|now|] == now;
    errs := [];
    for i := 0 to |was|
      invariant errs == [] <==> RoutersKept(was[..i], now)
    {
      var r := was[i];
      if r.name !in newByName {
        errs := errs + [FieldError("routers", i)];
      } else {
        var q := newByName[r.name];
        var lost := ValidateInterfaceDiff(r.interfaces, q.interfaces);
        errs := errs + Complaint(q.uuid != r.uuid, "uuid", i)
        + Complaint(q.internetGateway != r.internetGateway, "internetGateway", i) + lost;
      }
      assert was[..i + 1] == was[..i] + [r];
    }
    assert was[..|was|] == was;
  }

  ghost predicate IndexesRouters(byName: map<Name, RouterSpec>, rs: seq<RouterSpec>) {
    && (forall r | r in rs :: r.name in byName)
    && (forall a | a in byName :: exists k :: 0 <= k < |rs| && rs[k] == byName[a] && rs[k].name == a &&
                                              forall j | k < j < |rs| :: rs[j].name != a)
  }

  lemma RouterIndexExtends(byName: map<Name, RouterSpec>, rs: seq<RouterSpec>, i: nat)
    requires i < |rs| && IndexesRouters(byName, rs[..i])
    ensures IndexesRouters(byName[rs[i].name := rs[i]], rs[..i + 1])
  {
    var pre, all, now := rs[..i], rs[..i + 1], byName[rs[i].name := rs[i]];
    assert all == pre + [rs[i]];
    forall a | a in now
      ensures exists k :: 0 <= k < |all| && all[k] == now[a] && all[k].name == a && forall j | k < j < |all| :: all[j].name != a
    {
      if a == rs[i].name {
        assert all[i] == now[a];
      } else {
        var k :| 0 <= k < |pre| && pre[k] == byName[a] && pre[k].name == a && forall j | k < j < |pre| :: pre[j].name != a;
        assert all[k] == now[a];
      }
    }
  }

  ghost predicate IndexesInterfaces(byNetwork: map<Name, InterfaceSpec>, es: seq<InterfaceSpec>) {
    && (forall e | e in es :: e.network in byNetwork)
    && (forall a | a in byNetwork :: exists k :: 0 <= k < |es| && es[k] == byNetwork[a] && es[k].network == a &&
                                                 forall j | k < j < |es| :: es[j].network != a)
  }

  lemma InterfaceIndexExtends(byNetwork: map<Name, InterfaceSpec>, es: seq<InterfaceSpec>, i: nat)
    requires i < |es| && IndexesInterfaces(byNetwork, es[..i])
    ensures IndexesInterfaces(byNetwork[es[i].network := es[i]], es[..i + 1])
  {
    var pre, all, now := es[..i], es[..i + 1], byNetwork[es[i].network := es[i]];
    assert all == pre + [es[i]];
    forall a | a in now
      ensures exists k :: 0 <= k < |all| && all[k] == now[a] && all[k].network == a && forall j | k < j < |all| :: all[j].network != a
    {
      if a == es[i].network {
        assert all[i] == now[a];
      } else {
        var k :| 0 <= k < |pre| && pre[k] == byNetwork[a] && pre[k].network == a && forall j | k < j < |pre| :: pre[j].network != a;
        assert all[k] == now[a];
      }
    }
  }

  /** The interface half of the router diff. */
  method ValidateInterfaceDiff(was: seq<InterfaceSpec>, now: seq<InterfaceSpec>) returns (errs: seq<FieldError>)
    ensures errs == [] <==> InterfacesKept(was, now)
  {
    var byNetwork: map<Name, InterfaceSpec> := map[];
    for i := 0 to |now|
      invariant IndexesInterfaces(byNetwork, now[..i])
    {
      ghost var before := byNetwork;
      byNetwork := byNetwork[now[i].network := now[i]];
      InterfaceIndexExtends(before, now, i);
    }
    assert now[..|now|] == now;
    errs := [];
    for i := 0 to |was|
      invariant errs == [] <==> InterfacesKept(was[..i], now)
    {
      var e := was[i];
      if e.network !in byNetwork {
        errs := errs + [FieldError("interfaces", i)];
      } else {
        var d := byNetwork[e.network];
        errs := errs + Complaint(d.address != e.address, "interfaces", i) + Complaint(d.uuid != e.uuid, "interfaces", i);
      }
      assert was[..i + 1] == was[..i] + [e];
    }
    assert was[..|was|] == was;
  }

  /** Floating IP, member network and network references: the rules both webhooks end with. */
  method ValidateRest(spec: Spec) returns (errs: seq<FieldError>)
    ensures errs == [] <==> ReferencesDefined(spec) && FipValid(spec) && MemberNetworkResolvable(spec)
  {
    errs := [];
    if spec.lb.network.Some? {
      errs := ValidateNetworkReference(spec.lb.network.value, spec.networks, "network");
    }
    if spec.lb.poolMemberNetwork.Some? {
      var more := ValidateNetworkReference(spec.lb.poolMemberNetwork.value, spec.networks, "poolMemberNetwork");
      errs := errs + more;
    }
    if spec.fip.Some? {
      var fip := spec.fip.value;
      errs := errs + Complaint(fip.ipFamily.Some? == (fip.address != NO_ID), "floatingIP", 0)
      + Complaint(fip.address != NO_ID && !fip.parses, "ip", 0)
      + Complaint(fip.address == NO_ID && !LbEnabled(spec), "floatingIP", 0)
      + Complaint(LbEnabled(spec) && spec.lb.network.Some?, "floatingIP", 0);
    }
    if LbEnabled(spec) && spec.lb.network.None? && spec.lb.poolMemberNetwork.None? && |spec.networks| > 1 {
      errs := errs + [FieldError("controlPlaneLoadBalancer", 0)];
    }
  }

  method ValidateCreate(ri: RegionInfo, spec: Spec) returns (errs: seq<FieldError>)
    ensures errs == [] <==> CreateValid(ri, spec)
  {
    errs := Complaint(spec.zone.Some? && !ZoneBelongsToRegion(ri, spec.zone.value, spec.region), "zone", 0);
    var networks := ValidateNetworks(spec.networks);
    var routers := ValidateRouters(spec.routers, spec.networks);
    var rest := ValidateRest(spec);
    errs := errs + networks + routers + rest;
  }

  method ValidateUpdate(was: Spec, now: Spec) returns (errs: seq<FieldError>)
    ensures errs == [] <==> UpdateValid(was, now)
  {
    errs := Complaint(now.region != was.region, "region", 0) + Complaint(now.zone != was.zone, "zone", 0);
    var kept := ValidateNetworkImmutability(was.networks, now.networks);
    var networks := ValidateNetworks(now.networks);
    var routers := ValidateRouters(now.routers, now.networks);
    var diff := ValidateRouterDiff(was.routers, now.routers);
    errs := errs + kept + networks + routers + diff;
    errs := errs + ValidateLbImmutability(was, now);
    if was.host != NO_ID {
      errs := errs + Complaint(now.host != was.host, "host", 0) + Complaint(now.port != was.port, "port", 0);
    }
    errs := errs + Complaint(now.fip != was.fip, "floatingIP", 0);
    var rest := ValidateRest(now);
    errs := errs + rest;
  }

  function ValidateLbImmutability(was: Spec, now: Spec): (errs: seq<FieldError>)
    ensures errs == [] <==> LbKept(was, now)
  {
    var o, n := was.lb, now.lb;
    Complaint(LbEnabled(now) != LbEnabled(was), "enabled", 0)
    + Complaint(n.network != o.network, "network", 0)
    + Complaint(n.algorithm != o.algorithm, "algorithm", 0)
    + Complaint(n.flavor != o.flavor, "flavor", 0)
    + Complaint(n.port != o.port, "apiServerPort", 0)
    + Complaint(n.poolMemberNetwork != o.poolMemberNetwork, "poolMemberNetwork", 0)
    + Complaint(n.monitor.delay != o.monitor.delay, "delayS", 0)
    + Complaint(n.monitor.timeout != o.monitor.timeout, "timeoutS", 0)
    + Complaint(n.monitor.up != o.monitor.up, "upThreshold", 0)
    + Complaint(n.monitor.down != o.monitor.down, "downThreshold", 0)
  }
}
