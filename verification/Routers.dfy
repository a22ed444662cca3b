/** cloudscalecluster_router.go as functions of the state and the fates of its calls. */
module Routers {
  import opened Types
  import opened Cloud
  import opened Ensure

  /** The stages here write the router list and nothing else of the records. */
  ghost predicate EditsRouters(s: State, t: State) {
    t == s.(w := t.w, clock := t.clock, st := s.st.(routers := t.st.routers))
  }

  /** All routers are worked on in one pass; a requeue of one does not hold back the others. */
  ghost function ReconcileRouters(s: State, f: Fates): Stage {
    RoutersFrom(s, f, s.spec.routers, 0, Proceed)
  }

  function Join(a: Flow, b: Flow): Flow {
    if a.Error? || b.Error? then Error
    else if a.Stalled? || b.Stalled? then Stalled
    else if a.Requeue? || b.Requeue? then Requeue
    else Proceed
  }

  ghost function RoutersFrom(s: State, f: Fates, specs: seq<RouterSpec>, k: nat, acc: Flow): (e: Stage)
    requires k <= |specs|
    ensures EditsRouters(s, e.s)
    decreases |specs| - k
  {
    if k == |specs| then Stage(s, acc) else
    var one := ReconcileRouter(s, f, specs[k]);
    if one.flow == Error then one else RoutersFrom(one.s, f, specs, k + 1, Join(acc, one.flow))
  }

  function RouterIdOf(rs: seq<RouterStatus>, name: Name): Id {
    var r := FindRouter(rs, name);
    if r.Some? then r.value.routerId else NO_ID
  }

  ghost function ReconcileRouter(s: State, f: Fates, r: RouterSpec): (e: Stage)
    ensures EditsRouters(s, e.s)
  {
    if r.uuid != NO_ID then
      var g := Get(s, f, Router, r.uuid);
      if !g.reply.Done? || !f(s.clock).inZone then Stage(g.s, Error) else Settle(g.s, f, r, r.uuid)
    else
      var o := Obtain(s, f, RouterIdOf(s.st.routers, r.name), Router, Named(r.name), NO_ID);
      if o.flow != Proceed then Stage(o.s, o.flow) else Settle(o.s, f, r, o.id)
  }

  function SetRouter(s: State, r: RouterSpec, id: Id): State {
    s.(st := s.st.(routers := PutRouter(s.st.routers, r.name, id, r.uuid == NO_ID)))
  }

  /** setRouterInterfaceStatus: upsert one interface entry of the named router. */
  function SetInterface(s: State, router: Name, e: InterfaceStatus): State {
    var rs := FindRouter(s.st.routers, router);
    if rs.None? then s else
    s.(st := s.st.(routers := WithInterfaces(s.st.routers, router, PutInterface(rs.value.interfaces, e))))
  }

  lemma SetInterfaceFinds(s: State, router: Name, e: InterfaceStatus, q: Name)
    requires FindRouter(s.st.routers, router).Some?
    ensures var now, was := FindRouter(SetInterface(s, router, e).st.routers, q), FindRouter(s.st.routers, q);
            if q != router then now == was
            else now == Some(was.value.(interfaces := PutInterface(was.value.interfaces, e)))
  {
    FindWithInterfaces(s.st.routers, router, PutInterface(FindRouter(s.st.routers, router).value.interfaces, e), q);
  }

  lemma SetRouterFinds(s: State, r: RouterSpec, id: Id)
    ensures var t := SetRouter(s, r, id);
            && FindRouter(t.st.routers, r.name).Some? && FindRouter(t.st.routers, r.name).value.routerId == id
            && forall q | q != r.name :: FindRouter(t.st.routers, q) == FindRouter(s.st.routers, q)
  {
    forall q ensures q != r.name ==> FindRouter(SetRouter(s, r, id).st.routers, q) == FindRouter(s.st.routers, q) {
      FindPutRouter(s.st.routers, r.name, id, r.uuid == NO_ID, q);
    }
    FindPutRouter(s.st.routers, r.name, id, r.uuid == NO_ID, r.name);
  }

  /** Record the router; attach its interfaces once it is active. The read was the last call. */
  ghost function Settle(s: State, f: Fates, r: RouterSpec, id: Id): (e: Stage)
    ensures EditsRouters(s, e.s)
  {
    var t := SetRouter(s, r, id);
    if !Last(s, f).active then Stage(t, Requeue) else InterfacesFrom(t, f, r, id, Interfaces(s.w, id), 0)
  }

  ghost function InterfacesFrom(s: State, f: Fates, r: RouterSpec, id: Id, live: map<Id, Id>, k: nat): (e: Stage)
    requires k <= |r.interfaces|
    ensures EditsRouters(s, e.s)
    decreases |r.interfaces| - k
  {
    if k == |r.interfaces| then Stage(s, Proceed) else
    var one := ReconcileInterface(s, f, r, id, live, r.interfaces[k]);
    if one.flow == Proceed then InterfacesFrom(one.s, f, r, id, live, k + 1) else one
  }

  /** liveByNetwork: the interface a read showed on the network. */
  ghost function LiveOn(live: map<Id, Id>, network: Id): (i: Id)
    requires exists i :: i in live && live[i] == network
    ensures i in live && live[i] == network
  {
    var i :| i in live && live[i] == network;
    i
  }

  ghost function ReconcileInterface(s: State, f: Fates, r: RouterSpec, id: Id, live: map<Id, Id>, e: InterfaceSpec): (t: Stage)
    ensures EditsRouters(s, t.s)
  {
    var n := FindNetwork(s.st.networks, e.network);
    if n.None? then Stage(s, Error)
    else if e.uuid != NO_ID then AdoptInterface(s, r, live, e, n.value.networkId)
    else if exists i :: i in live && live[i] == n.value.networkId
    then ClaimInterface(s, r, e, LiveOn(live, n.value.networkId))
    else AttachInterface(s, f, r, id, e, n.value.networkId)
  }

  function AdoptInterface(s: State, r: RouterSpec, live: map<Id, Id>, e: InterfaceSpec, network: Id): Stage {
    if !(e.uuid in live) || live[e.uuid] != network then Stage(s, Error)
    else Stage(SetInterface(s, r.name, InterfaceStatus(e.network, e.uuid, false)), Proceed)
  }

  /** An interface that is there already is ours on our router, or when status has an entry for it. */
  function ClaimInterface(s: State, r: RouterSpec, e: InterfaceSpec, iface: Id): Stage {
    var rs := FindRouter(s.st.routers, r.name);
    if rs.None? || (FindInterface(rs.value.interfaces, e.network).None? && !rs.value.managed) then Stage(s, Error)
    else Stage(SetInterface(s, r.name, InterfaceStatus(e.network, iface, true)), Proceed)
  }

  /** The entry is written before the call, so that a lost answer still leaves a trace. */
  function AttachInterface(s: State, f: Fates, r: RouterSpec, id: Id, e: InterfaceSpec, network: Id): Stage {
    var t := SetInterface(s, r.name, InterfaceStatus(e.network, NO_ID, true));
    var c := CreateInterface(t, f, id, network);
    match c.reply
    case Done(iface) => Stage(SetInterface(c.s, r.name, InterfaceStatus(e.network, iface, true)), Proceed)
    case TimedOut => Stage(c.s, Stalled)
    case _ => Stage(c.s, Error)
  }

  // ------------------------------------------------------------------- teardown

  ghost function DeleteRouters(s: State, f: Fates): Stage {
    DeleteRoutersFrom(s, f, s.st.routers, 0, [], false)
  }

  /** Status is replaced by `remaining` at the end; nothing in between reads the router list. */
  ghost function DeleteRoutersFrom(
    s: State, f: Fates, rss: seq<RouterStatus>, k: nat, remaining: seq<RouterStatus>, err: bool): (e: Stage)
    requires k <= |rss|
    ensures EditsRouters(s, e.s) && (e.flow == Proceed || e.flow == Error)
    decreases |rss| - k
  {
    if k == |rss| then Stage(s.(st := s.st.(routers := remaining)), if err then Error else Proceed) else
    var one := DeleteRouter(s, f, rss[k]);
    DeleteRoutersFrom(one.s, f, rss, k + 1, remaining + one.kept, err || one.err)
  }

  /** What became of one status entry: gone (kept == []) or kept for the next attempt. */
  datatype Handled<T> = Handled(s: State, kept: seq<T>, err: bool)

  ghost function DeleteRouter(s: State, f: Fates, rs: RouterStatus): (d: Handled<RouterStatus>)
    ensures SameRecords(s, d.s)
  {
    if rs.routerId == NO_ID then Handled(s, [], false) else
    var d := DeleteInterfaces(s, f, rs);
    var pruned := rs.(interfaces := d.kept);
    if d.err then Handled(d.s, [pruned], true)
    else if !rs.managed then Handled(d.s, [pruned], false)
    else
      var c := Delete(d.s, f, Router, rs.routerId);
      if c.reply.Done? || c.reply.Missing? then Handled(c.s, [], false) else Handled(c.s, [pruned], true)
  }

  predicate HasManaged(es: seq<InterfaceStatus>) {
    exists e | e in es :: e.managed
  }

  ghost function DeleteInterfaces(s: State, f: Fates, rs: RouterStatus): (d: Handled<InterfaceStatus>)
    ensures SameRecords(s, d.s)
  {
    if !HasManaged(rs.interfaces) then Handled(s, rs.interfaces, false) else
    var g := Get(s, f, Router, rs.routerId);
    match g.reply
    case Missing => Handled(g.s, [], false)
    case Done(_) => DetachFrom(g.s, f, rs, Interfaces(g.s.w, rs.routerId), 0, [], false)
    case _ => Handled(g.s, rs.interfaces, true)
  }

  ghost function DetachFrom(
    s: State, f: Fates, rs: RouterStatus, live: map<Id, Id>, k: nat, remaining: seq<InterfaceStatus>, err: bool)
    : (d: Handled<InterfaceStatus>)
    requires k <= |rs.interfaces|
    ensures SameRecords(s, d.s)
    decreases |rs.interfaces| - k
  {
    if k == |rs.interfaces| then Handled(s, remaining, err) else
    var one := DetachOne(s, f, rs.routerId, live, rs.interfaces[k]);
    DetachFrom(one.s, f, rs, live, k + 1, remaining + one.kept, err || one.err)
  }

  /** A pending entry stands for whatever the read showed on its network. */
  ghost function Resolve(s: State, live: map<Id, Id>, e: InterfaceStatus): Id {
    var network := NetworkIdOf(s.st.networks, e.network);
    if e.interfaceId != NO_ID then e.interfaceId
    else if exists i :: i in live && live[i] == network then LiveOn(live, network)
    else NO_ID
  }

  ghost function DetachOne(s: State, f: Fates, router: Id, live: map<Id, Id>, e: InterfaceStatus): (d: Handled<InterfaceStatus>)
    ensures SameRecords(s, d.s)
  {
    if !e.managed then Handled(s, [e], false) else
    var id := Resolve(s, live, e);
    if id !in live then Handled(s, [], false) else
    var c := DeleteInterface(s, f, router, id);
    if c.reply.Done? || c.reply.Missing? then Handled(c.s, [], false)
    else Handled(c.s, [e.(interfaceId := id)], true)
  }
}
