/**
 The records of api/v1beta2: the cluster spec a user writes and the status the
 controllers keep, with the lookups and upserts every stage goes through.

 Names are only ever compared, so `Name` is an arbitrary type. UUIDs and addresses that
 the API hands out are `Id`s; `NO_ID` is the empty string the source uses for "not set".
 */
module Types {
  type Name(==, !new)

  type Id = nat

  const NO_ID: Id := 0

  datatype Option<+T> = None | Some(value: T)

  // ---------------------------------------------------------------- addresses

  datatype Family = V4 | V6

  /** A parsed address, or text that does not parse. */
  datatype Addr = BadAddr(text: string) | Addr(family: Family, value: nat)

  /** A parsed prefix, or text that does not parse. */
  datatype Cidr = BadCidr(text: string) | Cidr(family: Family, base: nat, bits: nat)

  // --------------------------------------------------------------------- spec

  datatype NetworkSpec = NetworkSpec(name: Name, uuid: Id, cidr: Option<Cidr>, mtu: int, gateway: Option<Addr>)

  datatype InterfaceSpec = InterfaceSpec(network: Name, uuid: Id, address: Option<Addr>)

  datatype RouterSpec = RouterSpec(name: Name, uuid: Id, internetGateway: bool, interfaces: seq<InterfaceSpec>)

  datatype HealthMonitorSpec = HealthMonitorSpec(delay: int, timeout: int, up: int, down: int)

  datatype LoadBalancerSpec = LoadBalancerSpec(
    enabled: Option<bool>, algorithm: string, flavor: string, port: int,
    network: Option<Name>, poolMemberNetwork: Option<Name>, monitor: HealthMonitorSpec)

  /** `address` is NO_ID for a managed floating IP; `parses` tells that its text is an IP address. */
  datatype FloatingIpSpec = FloatingIpSpec(ipFamily: Option<Family>, address: Id, parses: bool)

  datatype Spec = Spec(
    region: Name, zone: Option<Name>, networks: seq<NetworkSpec>, routers: seq<RouterSpec>,
    lb: LoadBalancerSpec, fip: Option<FloatingIpSpec>, host: Id, port: int)

  /** Names are unique: admission checks networks, the CRD schema routers and interfaces. */
  ghost predicate DistinctNetworks(ns: seq<NetworkSpec>) {
    forall j, k | 0 <= j < k < |ns| :: ns[j].name != ns[k].name
  }

  ghost predicate DistinctInterfaces(es: seq<InterfaceSpec>) {
    forall j, k | 0 <= j < k < |es| :: es[j].network != es[k].network
  }

  ghost predicate DistinctRouters(rs: seq<RouterSpec>) {
    && (forall j, k | 0 <= j < k < |rs| :: rs[j].name != rs[k].name)
    && (forall j | 0 <= j < |rs| :: DistinctInterfaces(rs[j].interfaces))
  }

  /** ptr.Deref(Enabled, true). */
  predicate LbEnabled(spec: Spec) {
    spec.lb.enabled.Some? ==> spec.lb.enabled.value
  }

  // ------------------------------------------------------------------- status

  datatype NetworkStatus = NetworkStatus(name: Name, networkId: Id, subnetId: Id, cidr: Option<Cidr>, managed: bool)

  datatype InterfaceStatus = InterfaceStatus(network: Name, interfaceId: Id, managed: bool)

  datatype RouterStatus = RouterStatus(name: Name, routerId: Id, managed: bool, interfaces: seq<InterfaceStatus>)

  datatype Status = Status(
    networks: seq<NetworkStatus>, routers: seq<RouterStatus>,
    lbId: Id, poolId: Id, listenerId: Id, monitorId: Id, memberIds: seq<Id>,
    fip: Id, provisioned: bool)

  const EMPTY_STATUS := Status([], [], NO_ID, NO_ID, NO_ID, NO_ID, [], NO_ID, false)

  /** A control-plane machine as the cluster controller sees it. */
  datatype MachineAddress = MachineAddress(internal: bool, address: Addr)

  datatype Machine = Machine(name: Name, serverId: Id, controlPlane: bool, addresses: seq<MachineAddress>)

  // ------------------------------------------------------- lookups and upserts

  function FindNetwork(ns: seq<NetworkStatus>, name: Name): Option<NetworkStatus> {
    if ns == [] then None else if ns[0].name == name then Some(ns[0]) else FindNetwork(ns[1..], name)
  }

  function FindRouter(rs: seq<RouterStatus>, name: Name): Option<RouterStatus> {
    if rs == [] then None else if rs[0].name == name then Some(rs[0]) else FindRouter(rs[1..], name)
  }

  function FindInterface(es: seq<InterfaceStatus>, network: Name): Option<InterfaceStatus> {
    if es == [] then None else if es[0].network == network then Some(es[0]) else FindInterface(es[1..], network)
  }

  /** setNetworkStatus: overwrite the entry of that name, or append it. */
  function PutNetwork(ns: seq<NetworkStatus>, n: NetworkStatus): seq<NetworkStatus> {
    if ns == [] then [n] else if ns[0].name == n.name then [n] + ns[1..] else [ns[0]] + PutNetwork(ns[1..], n)
  }

  /** setRouterStatus: overwrite id and flag of the entry of that name, or append a bare entry. */
  function PutRouter(rs: seq<RouterStatus>, name: Name, id: Id, managed: bool): seq<RouterStatus> {
    if rs == [] then [RouterStatus(name, id, managed, [])]
    else if rs[0].name == name then [rs[0].(routerId := id, managed := managed)] + rs[1..]
    else [rs[0]] + PutRouter(rs[1..], name, id, managed)
  }

  function PutInterface(es: seq<InterfaceStatus>, e: InterfaceStatus): seq<InterfaceStatus> {
    if es == [] then [e] else if es[0].network == e.network then [e] + es[1..] else [es[0]] + PutInterface(es[1..], e)
  }

  /** Writes the interface list of the first router entry of that name. */
  function WithInterfaces(rs: seq<RouterStatus>, name: Name, es: seq<InterfaceStatus>): seq<RouterStatus> {
    if rs == [] then []
    else if rs[0].name == name then [rs[0].(interfaces := es)] + rs[1..]
    else [rs[0]] + WithInterfaces(rs[1..], name, es)
  }

  /** The network UUID a network name stands for in status, NO_ID when it has no entry. */
  function NetworkIdOf(ns: seq<NetworkStatus>, name: Name): Id {
    var n := FindNetwork(ns, name);
    if n.Some? then n.value.networkId else NO_ID
  }

  lemma FindPutNetwork(ns: seq<NetworkStatus>, n: NetworkStatus, name: Name)
    ensures FindNetwork(PutNetwork(ns, n), name) == if name == n.name then Some(n) else FindNetwork(ns, name)
  {
  }

  lemma FindPutRouter(rs: seq<RouterStatus>, name: Name, id: Id, managed: bool, other: Name)
    ensures FindRouter(PutRouter(rs, name, id, managed), other) ==
            if other != name then FindRouter(rs, other)
            else if FindRouter(rs, name).Some?
            then Some(FindRouter(rs, name).value.(routerId := id, managed := managed))
            else Some(RouterStatus(name, id, managed, []))
  {
  }

  lemma FindPutInterface(es: seq<InterfaceStatus>, e: InterfaceStatus, network: Name)
    ensures FindInterface(PutInterface(es, e), network) == if network == e.network then Some(e) else FindInterface(es, network)
  {
  }

  lemma FindWithInterfaces(rs: seq<RouterStatus>, name: Name, es: seq<InterfaceStatus>, other: Name)
    ensures FindRouter(WithInterfaces(rs, name, es), other) ==
            if other == name && FindRouter(rs, name).Some?
            then Some(FindRouter(rs, name).value.(interfaces := es))
            else FindRouter(rs, other)
  {
  }
}
