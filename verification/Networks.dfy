/** cloudscalecluster_network.go as functions of the state and the fates of its calls. */
module Networks {
  import opened Types
  import opened Cloud
  import opened Ensure

  function ReconcileNetworks(s: State, f: Fates): Stage {
    if s.spec.networks == [] then Stage(s, Error) else NetworksFrom(s, f, s.spec.networks, 0)
  }

  function NetworksFrom(s: State, f: Fates, specs: seq<NetworkSpec>, k: nat): (e: Stage)
    requires k <= |specs|
    ensures EditsNetworks(s, e.s)
    decreases |specs| - k
  {
    if k == |specs| then Stage(s, Proceed) else
    var one := ReconcileNetwork(s, f, specs[k]);
    if one.flow == Proceed then NetworksFrom(one.s, f, specs, k + 1) else one
  }

  function ReconcileNetwork(s: State, f: Fates, n: NetworkSpec): (e: Stage)
    ensures EditsNetworks(s, e.s)
  {
    if n.uuid != NO_ID then PreExistingNetwork(s, f, n) else ManagedNetwork(s, f, n)
  }

  /** The stage writes the network list and nothing else of the records. */
  ghost predicate EditsNetworks(s: State, t: State) {
    t == s.(w := t.w, clock := t.clock, st := s.st.(networks := t.st.networks))
  }

  function SetNetwork(s: State, n: NetworkStatus): State {
    s.(st := s.st.(networks := PutNetwork(s.st.networks, n)))
  }

  /** The network is read once; its first subnet is cached in status. */
  function PreExistingNetwork(s: State, f: Fates, n: NetworkSpec): Stage {
    var e := FindNetwork(s.st.networks, n.name);
    if e.Some? && e.value.networkId != NO_ID && e.value.subnetId != NO_ID && e.value.cidr.Some?
    then Stage(s, Proceed)
    else
      var g := Get(s, f, Network, n.uuid);
      var fate := f(s.clock);
      if !g.reply.Done? || !fate.inZone then Stage(g.s, Error)
      else if !(IsKind(g.s.w.res, fate.value, Subnet) && g.s.w.res[fate.value].parent == n.uuid && fate.value != NO_ID)
      then Stage(g.s, Error)
      else Stage(SetNetwork(g.s, NetworkStatus(n.name, n.uuid, fate.value, Some(fate.cidr), false)), Proceed)
  }

  function ManagedNetwork(s: State, f: Fates, n: NetworkSpec): Stage {
    var e := FindNetwork(s.st.networks, n.name);
    var networkId := if e.Some? then e.value.networkId else NO_ID;
    var subnetId := if e.Some? then e.value.subnetId else NO_ID;
    var net := Obtain(s, f, networkId, Network, Named(n.name), NO_ID);
    if net.flow != Proceed then Stage(net.s, net.flow) else
    var sub := Obtain(net.s, f, subnetId, Subnet, Named(n.name), net.id);
    if sub.flow != Proceed then Stage(sub.s, sub.flow) else
    Stage(SetNetwork(sub.s, NetworkStatus(n.name, net.id, sub.id, n.cidr, true)), Proceed)
  }

  /** Busy ends the loop at once and leaves the status list as it was. */
  function DeleteNetworks(s: State, f: Fates): Stage {
    DeleteNetworksFrom(s, f, s.st.networks, 0, [], false)
  }

  function DeleteNetworksFrom(
    s: State, f: Fates, ns: seq<NetworkStatus>, k: nat, remaining: seq<NetworkStatus>, err: bool): (e: Stage)
    requires k <= |ns|
    ensures EditsNetworks(s, e.s)
    decreases |ns| - k
  {
    if k == |ns| then Stage(s.(st := s.st.(networks := remaining)), if err then Error else Proceed)
    else if !ns[k].managed then DeleteNetworksFrom(s, f, ns, k + 1, remaining + [ns[k]], err)
    else if ns[k].networkId == NO_ID then DeleteNetworksFrom(s, f, ns, k + 1, remaining, err)
    else
      var c := Delete(s, f, Network, ns[k].networkId);
      match c.reply
      case Refused => Stage(c.s, Requeue)
      case Done(_) => DeleteNetworksFrom(c.s, f, ns, k + 1, remaining, err)
      case Missing => DeleteNetworksFrom(c.s, f, ns, k + 1, remaining, err)
      case _ => DeleteNetworksFrom(c.s, f, ns, k + 1, remaining + [ns[k]], true)
  }
}
