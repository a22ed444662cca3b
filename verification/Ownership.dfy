/**
 What CAPCS may touch: the invariant behind the router ownership protocol.
 */
module Ownership {
  import opened Types
  import opened Cloud
  import opened Routers

  // ---------------------------------------------------------------- spec lookups

  ghost function SpecNetwork(ns: seq<NetworkSpec>, name: Name): Option<NetworkSpec> {
    if ns == [] then None else if ns[0].name == name then Some(ns[0]) else SpecNetwork(ns[1..], name)
  }

  ghost function SpecRouter(rs: seq<RouterSpec>, name: Name): Option<RouterSpec> {
    if rs == [] then None else if rs[0].name == name then Some(rs[0]) else SpecRouter(rs[1..], name)
  }

  ghost function SpecInterface(es: seq<InterfaceSpec>, network: Name): Option<InterfaceSpec> {
    if es == [] then None else if es[0].network == network then Some(es[0]) else SpecInterface(es[1..], network)
  }

  ghost function SpecSlot(spec: Spec, router: Name, network: Name): Option<InterfaceSpec> {
    var r := SpecRouter(spec.routers, router);
    if r.None? then None else SpecInterface(r.value.interfaces, network)
  }

  ghost predicate SpecOk(spec: Spec) {
    DistinctNetworks(spec.networks) && DistinctRouters(spec.routers)
  }

  /** The part of the state ownership is about; `parts` are the other ids teardown deletes. */
  datatype View = View(w: World, spec: Spec, nets: seq<NetworkStatus>, rtrs: seq<RouterStatus>, parts: set<Id>)

  ghost function ViewOf(s: State): View {
    View(s.w, s.spec, s.st.networks, s.st.routers, Parts(s.spec, s.st))
  }

  predicate OwnsFip(spec: Spec) {
    spec.fip.Some? && spec.fip.value.address == NO_ID
  }

  /** The load balancer with its children, and a floating IP of CAPCS's own. */
  ghost function Parts(spec: Spec, st: Status): set<Id> {
    {st.lbId, st.poolId, st.listenerId, st.monitorId} + (if OwnsFip(spec) then {st.fip} else {}) - {NO_ID}
  }

  /** The interface entry status holds for a router and a network, by name. */
  ghost function Slot(rtrs: seq<RouterStatus>, router: Name, network: Name): Option<InterfaceStatus> {
    var r := FindRouter(rtrs, router);
    if r.None? then None else FindInterface(r.value.interfaces, network)
  }

  // ------------------------------------------------------------------- invariant

  /** What the API guarantees: sound ids and parents, and at most one interface per router and network. */
  ghost predicate FabricOk(res: Resources, ifaces: map<Id, Attachment>, next: Id) {
    && 0 < next
    && (forall i | i in res :: 0 < i < next)
    && (forall i | i in res :: ParentOk(res, res[i].kind, res[i].parent))
    && (forall i | i in ifaces :: 0 < i < next)
    && (forall i | i in ifaces :: IsKind(res, ifaces[i].router, Router) && IsKind(res, ifaces[i].network, Network))
    && (forall i, j | i in ifaces && j in ifaces && ifaces[i] == ifaces[j] :: i == j)
  }

  ghost predicate CloudOk(w: World) {
    FabricOk(w.res, w.ifaces, w.next)
  }

  /** Tags, and interfaces on CAPCS's routers and networks, are CAPCS's work. */
  ghost predicate Provenance(w: World) {
    && (forall i | i in w.made :: 0 < i < w.next)
    && (forall i | i in w.res && w.res[i].tag.Some? :: i in w.made)
    && (forall i | i in w.ifaces && (w.ifaces[i].router in w.made || w.ifaces[i].network in w.made) :: i in w.made)
  }

  ghost predicate NetworkOk(v: View, name: Name)
    requires FindNetwork(v.nets, name).Some?
  {
    var n, spec := FindNetwork(v.nets, name).value, SpecNetwork(v.spec.networks, name);
    && spec.Some? && n.managed == (spec.value.uuid == NO_ID)
    && (if n.managed then n.networkId in v.w.made else n.networkId == spec.value.uuid)
  }

  ghost predicate RouterOk(v: View, name: Name)
    requires FindRouter(v.rtrs, name).Some?
  {
    var r, spec := FindRouter(v.rtrs, name).value, SpecRouter(v.spec.routers, name);
    && spec.Some? && r.managed == (spec.value.uuid == NO_ID)
    && (if r.managed then r.routerId in v.w.made else r.routerId == spec.value.uuid)
  }

  /** A managed entry only ever stands for an interface CAPCS made. */
  ghost predicate SlotOk(v: View, router: Name, network: Name)
    requires Slot(v.rtrs, router, network).Some?
  {
    var e, spec := Slot(v.rtrs, router, network).value, SpecSlot(v.spec, router, network);
    && spec.Some? && e.managed == (spec.value.uuid == NO_ID)
    && (e.managed ==>
          && FindNetwork(v.nets, network).Some?
          && OnlyOurs(v.w, RouterIdOf(v.rtrs, router), NetworkIdOf(v.nets, network), e.interfaceId))
  }

  /** Whatever sits on the attachment is CAPCS's, and the recorded interface sits nowhere else. */
  ghost predicate OnlyOurs(w: World, router: Id, network: Id, iface: Id) {
    && (iface != NO_ID ==> iface in w.made)
    && (forall i | i in w.ifaces && w.ifaces[i] == Attachment(router, network) :: i in w.made)
    && (iface in w.ifaces ==> w.ifaces[iface] == Attachment(router, network))
  }

  /** The entry names the live interface: by UUID, or by the network of a pending attach. */
  ghost predicate Covers(v: View, router: Name, network: Name, iface: Id) {
    var e := Slot(v.rtrs, router, network);
    && e.Some? && e.value.managed && iface in v.w.ifaces
    && v.w.ifaces[iface].router == RouterIdOf(v.rtrs, router)
    && (e.value.interfaceId == iface ||
        (e.value.interfaceId == NO_ID && v.w.ifaces[iface].network == NetworkIdOf(v.nets, network)))
  }

  ghost predicate Covered(v: View, iface: Id) {
    exists r, a :: Covers(v, r, a, iface)
  }

  ghost predicate NetworksOk(v: View) {
    forall a | FindNetwork(v.nets, a).Some? :: NetworkOk(v, a)
  }

  ghost predicate RoutersOk(v: View) {
    forall r | FindRouter(v.rtrs, r).Some? :: RouterOk(v, r)
  }

  ghost predicate SlotsOk(v: View) {
    forall r, a | Slot(v.rtrs, r, a).Some? :: SlotOk(v, r, a)
  }

  ghost predicate Coverage(v: View) {
    forall i | i in v.w.ifaces && i in v.w.made :: Covered(v, i)
  }

  ghost predicate Sane(v: View) {
    SpecOk(v.spec) && CloudOk(v.w) && Provenance(v.w) && v.w.targets <= v.w.made && v.parts <= v.w.made
  }

  ghost predicate Good(v: View) {
    Sane(v) && NetworksOk(v) && RoutersOk(v) && SlotsOk(v) && Coverage(v)
  }

  // ------------------------------------------------------------------- outsiders

  ghost predicate Peaceful(acts: seq<Act>) {
    forall k | 0 <= k < |acts| :: !acts[k].Intrude?
  }

  ghost predicate PeacefulFates(f: Fates) {
    forall k: nat :: Peaceful(f(k).outside)
  }

  /** What outsiders can do to interfaces: remove them, or add some where they may. */
  ghost predicate Drift(spec: Spec, w: World, v: World) {
    && v.made == w.made && v.targets == w.targets && w.next <= v.next
    && (forall i | i in v.ifaces ::
          (i in w.ifaces && v.ifaces[i] == w.ifaces[i]) ||
          (w.next <= i && MayAttach(w, spec, v.ifaces[i].router, v.ifaces[i].network)))
    && (forall i | i in v.res :: (i in w.res && v.res[i] == w.res[i]) || (w.next <= i && v.res[i].tag.None?))
  }

  lemma RemoveKeepsCloud(w: World, id: Id)
    requires CloudOk(w)
    ensures CloudOk(Remove(w, id))
  {
    var v := Remove(w, id);
    forall i | i in v.res ensures ParentOk(v.res, v.res[i].kind, v.res[i].parent) {
      assert ParentOk(w.res, w.res[i].kind, w.res[i].parent);
      if w.res[i].parent in w.res {
        assert ParentOk(w.res, w.res[w.res[i].parent].kind, w.res[w.res[i].parent].parent);
      }
    }
    forall i | i in v.ifaces
      ensures IsKind(v.res, v.ifaces[i].router, Router) && IsKind(v.res, v.ifaces[i].network, Network)
    {
      var a := w.ifaces[i];
      assert ParentOk(w.res, w.res[a.router].kind, w.res[a.router].parent);
      assert ParentOk(w.res, w.res[a.network].kind, w.res[a.network].parent);
    }
  }

  lemma AppearKeepsFabric(res: Resources, ifaces: map<Id, Attachment>, next: Id, r: Resource)
    requires FabricOk(res, ifaces, next) && ParentOk(res, r.kind, r.parent)
    ensures FabricOk(res[next := r], ifaces, next + 1)
  {
    var now := res[next := r];
    forall i | i in now ensures ParentOk(now, now[i].kind, now[i].parent) {
      assert i in res && i != next ==> ParentOk(res, res[i].kind, res[i].parent);
    }
  }

  lemma OutsideKeepsCloud(w: World, spec: Spec, act: Act)
    requires CloudOk(w)
    ensures CloudOk(Outside(w, spec, act))
  {
    if act.Appear? && ParentOk(w.res, act.kind, act.parent) {
      AppearKeepsFabric(w.res, w.ifaces, w.next, Resource(act.kind, None, act.parent));
    } else if act.Vanish? {
      RemoveKeepsCloud(w, act.id);
    }
  }

  lemma OutsideDrifts(w: World, spec: Spec, act: Act)
    requires CloudOk(w) && Provenance(w) && !act.Intrude?
    ensures var v := Outside(w, spec, act); Provenance(v) && Drift(spec, w, v)
  {
  }

  lemma OutsideAllDrifts(w: World, spec: Spec, acts: seq<Act>)
    requires CloudOk(w) && Provenance(w) && Peaceful(acts)
    ensures var v := OutsideAll(w, spec, acts); CloudOk(v) && Provenance(v) && Drift(spec, w, v)
    decreases acts
  {
    if acts != [] {
      OutsideKeepsCloud(w, spec, acts[0]);
      OutsideDrifts(w, spec, acts[0]);
      OutsideAllDrifts(Outside(w, spec, acts[0]), spec, acts[1..]);
    }
  }

  lemma SpecNetworkIn(ns: seq<NetworkSpec>, name: Name)
    requires SpecNetwork(ns, name).Some?
    ensures SpecNetwork(ns, name).value in ns && SpecNetwork(ns, name).value.name == name
  {
  }

  lemma SpecRouterIn(rs: seq<RouterSpec>, name: Name)
    requires SpecRouter(rs, name).Some?
    ensures SpecRouter(rs, name).value in rs && SpecRouter(rs, name).value.name == name
  {
  }

  lemma SpecInterfaceIn(es: seq<InterfaceSpec>, name: Name)
    requires SpecInterface(es, name).Some?
    ensures SpecInterface(es, name).value in es && SpecInterface(es, name).value.network == name
  {
  }

  /** A managed entry on a router and a network that are not CAPCS's own: the spec asks for it. */
  lemma ManagedSlotIsAsked(v: View, r: Name, a: Name)
    requires NetworksOk(v) && RoutersOk(v)
    requires Slot(v.rtrs, r, a).Some? && SlotOk(v, r, a) && Slot(v.rtrs, r, a).value.managed
    requires RouterIdOf(v.rtrs, r) !in v.w.made && NetworkIdOf(v.nets, a) !in v.w.made
    ensures Asked(v.spec, RouterIdOf(v.rtrs, r), NetworkIdOf(v.nets, a))
  {
    assert RouterOk(v, r) && NetworkOk(v, a);
    SpecRouterIn(v.spec.routers, r);
    SpecNetworkIn(v.spec.networks, a);
    SpecInterfaceIn(SpecRouter(v.spec.routers, r).value.interfaces, a);
  }

  lemma DriftKeepsSlot(v: View, w: World, r: Name, a: Name)
    requires NetworksOk(v) && RoutersOk(v)
    requires CloudOk(v.w) && Provenance(v.w) && Drift(v.spec, v.w, w)
    requires Slot(v.rtrs, r, a).Some? && SlotOk(v, r, a)
    ensures SlotOk(v.(w := w), r, a)
  {
    if Slot(v.rtrs, r, a).value.managed && RouterIdOf(v.rtrs, r) !in v.w.made && NetworkIdOf(v.nets, a) !in v.w.made {
      ManagedSlotIsAsked(v, r, a);
    }
  }

  lemma DriftKeepsGood(v: View, w: World)
    requires Good(v) && CloudOk(w) && Provenance(w) && Drift(v.spec, v.w, w)
    ensures Good(v.(w := w))
  {
    var t := v.(w := w);
    forall r, a | Slot(t.rtrs, r, a).Some? ensures SlotOk(t, r, a) {
      DriftKeepsSlot(v, w, r, a);
    }
    forall i | i in w.ifaces && i in w.made ensures Covered(t, i) {
      var r, a :| Covers(v, r, a, i);
      assert Covers(t, r, a, i);
    }
    assert NetworksOk(t) by {
      forall a | FindNetwork(t.nets, a).Some? ensures NetworkOk(t, a) {
        assert NetworkOk(v, a);
      }
    }
    assert RoutersOk(t) by {
      forall r | FindRouter(t.rtrs, r).Some? ensures RouterOk(t, r) {
        assert RouterOk(v, r);
      }
    }
  }

  lemma TickKeepsGood(s: State, f: Fates)
    requires Good(ViewOf(s)) && PeacefulFates(f)
    ensures Good(ViewOf(Tick(s, f))) && Drift(s.spec, s.w, Tick(s, f).w)
  {
    var acts := f(s.clock).outside;
    OutsideAllDrifts(s.w, s.spec, acts);
    DriftKeepsGood(ViewOf(s), OutsideAll(s.w, s.spec, acts));
  }
}
