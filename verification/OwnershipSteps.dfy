/** Each call and each status edit of a normal pass keeps the ownership invariant. */
module OwnershipSteps {
  import opened Types
  import opened Cloud
  import opened Ensure
  import opened History
  import opened Networks
  import opened Routers
  import opened Ownership

  // ------------------------------------------------------ get, adopt or create

  lemma LandKeepsGood(v: View, kind: Kind, tag: Tag, parent: Id)
    requires Good(v) && ParentOk(v.w.res, kind, parent)
    ensures Good(v.(w := Land(v.w, kind, tag, parent)))
  {
    var t := v.(w := Land(v.w, kind, tag, parent));
    AppearKeepsFabric(v.w.res, v.w.ifaces, v.w.next, Resource(kind, Some(tag), parent));
    MadeGrows(v, t.w);
  }

  /** More things made, same interfaces: entries stay right. */
  lemma MadeGrows(v: View, w: World)
    requires Good(v) && CloudOk(w) && Provenance(w)
    requires w.ifaces == v.w.ifaces && v.w.made <= w.made && w.targets == v.w.targets
    requires forall i | i in w.ifaces && i in w.made :: i in v.w.made
    ensures Good(v.(w := w))
  {
    var t := v.(w := w);
    forall r, a | Slot(t.rtrs, r, a).Some? ensures SlotOk(t, r, a) {
      assert SlotOk(v, r, a);
    }
    forall i | i in w.ifaces && i in w.made ensures Covered(t, i) {
      var r, a :| Covers(v, r, a, i);
      assert Covers(t, r, a, i);
    }
    forall a | FindNetwork(t.nets, a).Some? ensures NetworkOk(t, a) {
      assert NetworkOk(v, a);
    }
    forall r | FindRouter(t.rtrs, r).Some? ensures RouterOk(t, r) {
      assert RouterOk(v, r);
    }
  }

  lemma GetKeepsGood(s: State, f: Fates, kind: Kind, id: Id)
    requires Good(ViewOf(s)) && PeacefulFates(f)
    ensures Good(ViewOf(Get(s, f, kind, id).s)) && Drift(s.spec, s.w, Get(s, f, kind, id).s.w)
  {
    TickKeepsGood(s, f);
  }

  lemma CreateKeepsGood(s: State, f: Fates, kind: Kind, tag: Tag, parent: Id)
    requires Good(ViewOf(s)) && PeacefulFates(f)
    ensures var c := Create(s, f, kind, tag, parent);
            && Good(ViewOf(c.s))
            && (c.reply.Done? ==> c.reply.id in c.s.w.made && c.reply.id != NO_ID)
  {
    TickKeepsGood(s, f);
    var t := Tick(s, f);
    if ParentOk(t.w.res, kind, parent) {
      LandKeepsGood(ViewOf(t), kind, tag, parent);
    }
  }

  lemma ByTagKeepsGood(s: State, f: Fates, kind: Kind, tag: Tag)
    requires Good(ViewOf(s)) && PeacefulFates(f)
    ensures var e := ByTag(s, f, kind, tag); Good(ViewOf(e.s)) && (e.id != NO_ID ==> e.id in e.s.w.made)
  {
    TickKeepsGood(s, f);
    var e := ByTag(s, f, kind, tag);
    assert e.id != NO_ID ==> e.id in Tagged(e.s.w, kind, tag);
  }

  lemma EnsureKeepsGood(s: State, f: Fates, current: Id, kind: Kind, tag: Tag)
    requires Good(ViewOf(s)) && PeacefulFates(f)
    ensures var e := EnsureResource(s, f, current, kind, tag);
            && Good(ViewOf(e.s))
            && (current in s.w.made + {NO_ID} && e.id != NO_ID ==> e.id in e.s.w.made)
  {
    if current == NO_ID {
      ByTagKeepsGood(s, f, kind, tag);
    } else {
      TickKeepsGood(s, f);
      ByTagKeepsGood(Tick(s, f), f, kind, tag);
    }
  }

  lemma ObtainKeepsGood(s: State, f: Fates, current: Id, kind: Kind, tag: Tag, parent: Id)
    requires Good(ViewOf(s)) && PeacefulFates(f)
    ensures var o := Obtain(s, f, current, kind, tag, parent);
            && Good(ViewOf(o.s))
            && (current in s.w.made + {NO_ID} && o.flow == Proceed ==> o.id in o.s.w.made)
  {
    EnsureKeepsGood(s, f, current, kind, tag);
    var e := EnsureResource(s, f, current, kind, tag);
    CreateKeepsGood(e.s, f, kind, tag, parent);
  }

  // ------------------------------------------------------------- status upserts

  lemma SetNetworkKeepsGood(v: View, n: NetworkStatus)
    requires Good(v)
    requires SpecNetwork(v.spec.networks, n.name).Some?
    requires var spec := SpecNetwork(v.spec.networks, n.name).value;
             n.managed == (spec.uuid == NO_ID) && (if n.managed then n.networkId in v.w.made else n.networkId == spec.uuid)
    requires var was := NetworkIdOf(v.nets, n.name);
             was == n.networkId || FindNetwork(v.nets, n.name).None? || Gone(v.w, Network, was)
    ensures Good(v.(nets := PutNetwork(v.nets, n)))
  {
    var t := v.(nets := PutNetwork(v.nets, n));
    forall a ensures FindNetwork(t.nets, a) == if a == n.name then Some(n) else FindNetwork(v.nets, a) {
      FindPutNetwork(v.nets, n, a);
    }
    forall a | FindNetwork(t.nets, a).Some? ensures NetworkOk(t, a) {
      assert a != n.name ==> NetworkOk(v, a);
    }
    forall r | FindRouter(t.rtrs, r).Some? ensures RouterOk(t, r) {
      assert RouterOk(v, r);
    }
    forall r, a | Slot(t.rtrs, r, a).Some? ensures SlotOk(t, r, a) {
      assert SlotOk(v, r, a);
      if a == n.name && FindNetwork(v.nets, a).Some? { assert NetworkOk(v, a); }
    }
    forall i | i in t.w.ifaces && i in t.w.made ensures Covered(t, i) {
      var r, a :| Covers(v, r, a, i);
      assert SlotOk(v, r, a);
      assert Covers(t, r, a, i);
    }
  }

  lemma SetRouterKeepsGood(v: View, name: Name, id: Id, managed: bool)
    requires Good(v)
    requires SpecRouter(v.spec.routers, name).Some?
    requires var spec := SpecRouter(v.spec.routers, name).value;
             managed == (spec.uuid == NO_ID) && (if managed then id in v.w.made else id == spec.uuid)
    requires var was := RouterIdOf(v.rtrs, name);
             was == id || FindRouter(v.rtrs, name).None? || Gone(v.w, Router, was)
    ensures Good(v.(rtrs := PutRouter(v.rtrs, name, id, managed)))
  {
    var t := v.(rtrs := PutRouter(v.rtrs, name, id, managed));
    forall r, a
      ensures r != name ==> FindRouter(t.rtrs, r) == FindRouter(v.rtrs, r)
      ensures Slot(t.rtrs, r, a) == Slot(v.rtrs, r, a)
    {
      FindPutRouter(v.rtrs, name, id, managed, r);
    }
    FindPutRouter(v.rtrs, name, id, managed, name);
    forall r | FindRouter(t.rtrs, r).Some? ensures RouterOk(t, r) {
      FindPutRouter(v.rtrs, name, id, managed, r);
      assert r != name ==> RouterOk(v, r);
    }
    forall a | FindNetwork(t.nets, a).Some? ensures NetworkOk(t, a) {
      assert NetworkOk(v, a);
    }
    forall r, a | Slot(t.rtrs, r, a).Some? ensures SlotOk(t, r, a) {
      assert SlotOk(v, r, a);
      if r == name { assert RouterOk(v, r); }
    }
    forall i | i in t.w.ifaces && i in t.w.made ensures Covered(t, i) {
      var r, a :| Covers(v, r, a, i);
      assert Covers(t, r, a, i);
    }
  }

  /** The view after one interface entry has been upserted. */
  ghost function WithSlot(v: View, r: Name, e: InterfaceStatus): View
    requires FindRouter(v.rtrs, r).Some?
  {
    v.(rtrs := WithInterfaces(v.rtrs, r, PutInterface(FindRouter(v.rtrs, r).value.interfaces, e)))
  }

  /** `rtrs` with one interface entry written or dropped, whatever the list operation was. */
  ghost predicate Edited(was: seq<RouterStatus>, rtrs: seq<RouterStatus>, r: Name, a: Name, now: Option<InterfaceStatus>) {
    && (forall q :: SameRouter(FindRouter(was, q), FindRouter(rtrs, q)))
    && Slot(rtrs, r, a) == now
    && (forall q, b | q != r || b != a :: Slot(rtrs, q, b) == Slot(was, q, b))
  }

  ghost predicate SameRouter(a: Option<RouterStatus>, b: Option<RouterStatus>) {
    if a.Some? then b.Some? && b.value.(interfaces := a.value.interfaces) == a.value else b.None?
  }

  lemma EditKeepsGood(v: View, rtrs: seq<RouterStatus>, r: Name, a: Name, now: Option<InterfaceStatus>)
    requires Good(v) && Edited(v.rtrs, rtrs, r, a, now)
    requires now.Some? ==>
               && SpecSlot(v.spec, r, a).Some? && now.value.managed == (SpecSlot(v.spec, r, a).value.uuid == NO_ID)
               && (now.value.managed ==>
                     && FindNetwork(v.nets, a).Some?
                     && OnlyOurs(v.w, RouterIdOf(v.rtrs, r), NetworkIdOf(v.nets, a), now.value.interfaceId))
    requires now.None? || now.value.interfaceId != NO_ID ==>
               forall i | i in v.w.made && Covers(v, r, a, i) :: now.Some? && i == now.value.interfaceId && now.value.managed
    ensures Good(v.(rtrs := rtrs))
  {
    var t := v.(rtrs := rtrs);
    forall q | FindRouter(t.rtrs, q).Some? ensures RouterOk(t, q) {
      assert SameRouter(FindRouter(v.rtrs, q), FindRouter(rtrs, q));
      assert RouterOk(v, q);
    }
    forall b | FindNetwork(t.nets, b).Some? ensures NetworkOk(t, b) {
      assert NetworkOk(v, b);
    }
    forall q, b | Slot(t.rtrs, q, b).Some? ensures SlotOk(t, q, b) {
      assert SameRouter(FindRouter(v.rtrs, q), FindRouter(rtrs, q));
      if q != r || b != a { assert SlotOk(v, q, b); }
    }
    forall i | i in t.w.ifaces && i in t.w.made ensures Covered(t, i) {
      var q, b :| Covers(v, q, b, i);
      assert SameRouter(FindRouter(v.rtrs, q), FindRouter(rtrs, q));
      assert SlotOk(v, q, b);
      assert Covers(t, q, b, i);
    }
  }

  lemma WithSlotEdits(v: View, r: Name, e: InterfaceStatus)
    requires FindRouter(v.rtrs, r).Some?
    ensures Edited(v.rtrs, WithSlot(v, r, e).rtrs, r, e.network, Some(e))
  {
    var es := FindRouter(v.rtrs, r).value.interfaces;
    forall q ensures SameRouter(FindRouter(v.rtrs, q), FindRouter(WithSlot(v, r, e).rtrs, q)) {
      FindWithInterfaces(v.rtrs, r, PutInterface(es, e), q);
    }
    forall q, b
      ensures Slot(WithSlot(v, r, e).rtrs, q, b) == if q == r && b == e.network then Some(e) else Slot(v.rtrs, q, b)
    {
      FindWithInterfaces(v.rtrs, r, PutInterface(es, e), q);
      FindPutInterface(es, e, b);
    }
  }

  // ------------------------------------------------------------- network stage

  lemma SpecNetworkAt(ns: seq<NetworkSpec>, k: nat)
    requires k < |ns| && DistinctNetworks(ns)
    ensures SpecNetwork(ns, ns[k].name) == Some(ns[k])
  {
    if k > 0 {
      assert ns[0].name != ns[k].name;
      SpecNetworkAt(ns[1..], k - 1);
    }
  }

  lemma ReconcileNetworkKeepsGood(s: State, f: Fates, n: NetworkSpec)
    requires Good(ViewOf(s)) && PeacefulFates(f)
    requires SpecNetwork(s.spec.networks, n.name) == Some(n)
    ensures Good(ViewOf(ReconcileNetwork(s, f, n).s))
  {
    var e := FindNetwork(s.st.networks, n.name);
    if e.Some? { assert NetworkOk(ViewOf(s), n.name); }
    if n.uuid != NO_ID {
      TickKeepsGood(s, f);
      var g := Get(s, f, Network, n.uuid);
      SetNetworkKeepsGood(ViewOf(g.s), NetworkStatus(n.name, n.uuid, f(s.clock).value, Some(f(s.clock).cidr), false));
    } else {
      ManagedNetworkKeepsGood(s, f, n);
    }
  }

  lemma ManagedNetworkKeepsGood(s: State, f: Fates, n: NetworkSpec)
    requires Good(ViewOf(s)) && PeacefulFates(f)
    requires SpecNetwork(s.spec.networks, n.name) == Some(n) && n.uuid == NO_ID
    ensures Good(ViewOf(ManagedNetwork(s, f, n).s))
  {
    var e := FindNetwork(s.st.networks, n.name);
    if e.Some? { assert NetworkOk(ViewOf(s), n.name); }
    var networkId := if e.Some? then e.value.networkId else NO_ID;
    var subnetId := if e.Some? then e.value.subnetId else NO_ID;
    ObtainKeepsGood(s, f, networkId, Network, Named(n.name), NO_ID);
    var net := Obtain(s, f, networkId, Network, Named(n.name), NO_ID);
    if net.flow == Proceed {
      ObtainKeepsGood(net.s, f, subnetId, Subnet, Named(n.name), net.id);
      ObtainIsNewer(net.s, f, subnetId, Subnet, Named(n.name), net.id);
      var sub := Obtain(net.s, f, subnetId, Subnet, Named(n.name), net.id);
      if sub.flow == Proceed {
        if e.Some? && networkId != net.id {
          ReplacedIsGone(s, f, networkId, Network, Named(n.name), NO_ID);
          GoneStays(net.s.w, sub.s.w, Network, networkId);
        }
        SetNetworkKeepsGood(ViewOf(sub.s), NetworkStatus(n.name, net.id, sub.id, n.cidr, true));
      }
    }
  }

  lemma NetworksKeepGood(s: State, f: Fates, k: nat)
    requires Good(ViewOf(s)) && PeacefulFates(f) && k <= |s.spec.networks|
    ensures var e := NetworksFrom(s, f, s.spec.networks, k).s; Good(ViewOf(e))
    decreases |s.spec.networks| - k
  {
    if k < |s.spec.networks| {
      SpecNetworkAt(s.spec.networks, k);
      ReconcileNetworkKeepsGood(s, f, s.spec.networks[k]);
      var one := ReconcileNetwork(s, f, s.spec.networks[k]);
      if one.flow == Proceed { NetworksKeepGood(one.s, f, k + 1); }
    }
  }
}
