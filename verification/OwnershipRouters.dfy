/** Adopt, claim, attach: the router stage keeps the ownership invariant. */
module OwnershipRouters {
  import opened Types
  import opened Cloud
  import opened Ensure
  import opened History
  import opened Routers
  import opened Ownership
  import opened OwnershipSteps

  /**
   What a pass may rely on about the interfaces it read off router `x` at the start: outsiders
   may have removed some since, and CAPCS may have attached others on networks not in `live`.
   */
  ghost predicate Snapshot(v: View, r: Name, x: Id, live: map<Id, Id>) {
    && (forall i | i in live && i in v.w.ifaces :: v.w.ifaces[i] == Attachment(x, live[i]))
    && (forall i | i in live :: 0 < i < v.w.next && live[i] < v.w.next && x < v.w.next)
    && (forall i, j | i in live && j in live && live[i] == live[j] :: i == j)
    && (forall i | i in v.w.ifaces && v.w.ifaces[i].router == x && i !in live ::
          if i in v.w.made then v.w.ifaces[i].network !in live.Values
          else MayAttach(v.w, v.spec, x, v.w.ifaces[i].network))
    && (forall i | i in live && (x in v.w.made || live[i] in v.w.made) :: i in v.w.made)
    && OwnedByEntry(v, r, live)
  }

  ghost predicate OwnedByEntry(v: View, r: Name, live: map<Id, Id>) {
    forall a, i | i in live && Slot(v.rtrs, r, a).Some? && Slot(v.rtrs, r, a).value.managed &&
                  live[i] == NetworkIdOf(v.nets, a) :: i in v.w.made
  }

  lemma SnapshotTaken(v: View, r: Name, x: Id)
    requires Good(v) && RouterIdOf(v.rtrs, r) == x
    ensures Snapshot(v, r, x, Interfaces(v.w, x))
  {
    var live := Interfaces(v.w, x);
    forall a, i | i in live && Slot(v.rtrs, r, a).Some? && Slot(v.rtrs, r, a).value.managed &&
                  live[i] == NetworkIdOf(v.nets, a)
      ensures i in v.w.made
    {
      assert SlotOk(v, r, a);
    }
  }

  lemma DriftKeepsSnapshot(v: View, w: World, r: Name, x: Id, live: map<Id, Id>)
    requires CloudOk(v.w) && Provenance(v.w) && Snapshot(v, r, x, live) && Drift(v.spec, v.w, w)
    ensures Snapshot(v.(w := w), r, x, live)
  {
  }

  lemma EditKeepsSnapshot(v: View, rtrs: seq<RouterStatus>, r: Name, a: Name, now: Option<InterfaceStatus>, x: Id, live: map<Id, Id>)
    requires Snapshot(v, r, x, live) && Edited(v.rtrs, rtrs, r, a, now)
    requires now.Some? && now.value.managed ==> forall i | i in live && live[i] == NetworkIdOf(v.nets, a) :: i in v.w.made
    ensures Snapshot(v.(rtrs := rtrs), r, x, live)
  {
  }

  /** The setting of one interface step: router `r` is recorded as `x`, and the spec has entry `e`. */
  ghost predicate AtWork(s: State, r: RouterSpec, x: Id, live: map<Id, Id>) {
    && Good(ViewOf(s)) && Snapshot(ViewOf(s), r.name, x, live)
    && FindRouter(s.st.routers, r.name).Some? && RouterIdOf(s.st.routers, r.name) == x
    && SpecRouter(s.spec.routers, r.name) == Some(r)
  }

  /** Recording an entry is safe when it only names what is CAPCS's and loses no covered interface. */
  lemma RecordKeepsWork(s: State, r: RouterSpec, x: Id, live: map<Id, Id>, e: InterfaceStatus)
    requires AtWork(s, r, x, live) && SpecInterface(r.interfaces, e.network).Some?
    requires e.managed == (SpecInterface(r.interfaces, e.network).value.uuid == NO_ID)
    requires var n := NetworkIdOf(s.st.networks, e.network);
             e.managed ==>
               && FindNetwork(s.st.networks, e.network).Some? && OnlyOurs(s.w, x, n, e.interfaceId)
               && forall i | i in live && live[i] == n :: i in s.w.made
    requires e.interfaceId != NO_ID ==>
               forall i | i in s.w.made && Covers(ViewOf(s), r.name, e.network, i) :: i == e.interfaceId && e.managed
    ensures AtWork(SetInterface(s, r.name, e), r, x, live)
  {
    var v := ViewOf(s);
    var t := WithSlot(v, r.name, e);
    WithSlotEdits(v, r.name, e);
    EditKeepsGood(v, t.rtrs, r.name, e.network, Some(e));
    EditKeepsSnapshot(v, t.rtrs, r.name, e.network, Some(e), x, live);
    assert SameRouter(FindRouter(v.rtrs, r.name), FindRouter(t.rtrs, r.name));
  }

  lemma AdoptKeepsGood(s: State, r: RouterSpec, x: Id, live: map<Id, Id>, e: InterfaceSpec, network: Id)
    requires AtWork(s, r, x, live) && SpecInterface(r.interfaces, e.network) == Some(e) && e.uuid != NO_ID
    ensures AtWork(AdoptInterface(s, r, live, e, network).s, r, x, live)
  {
    var v, entry := ViewOf(s), InterfaceStatus(e.network, e.uuid, false);
    if Slot(v.rtrs, r.name, e.network).Some? { assert SlotOk(v, r.name, e.network); }
    RecordKeepsWork(s, r, x, live, entry);
  }

  lemma ClaimKeepsGood(s: State, r: RouterSpec, x: Id, live: map<Id, Id>, e: InterfaceSpec, iface: Id)
    requires AtWork(s, r, x, live) && SpecInterface(r.interfaces, e.network) == Some(e) && e.uuid == NO_ID
    requires FindNetwork(s.st.networks, e.network).Some?
    requires iface in live && live[iface] == NetworkIdOf(s.st.networks, e.network)
    ensures AtWork(ClaimInterface(s, r, e, iface).s, r, x, live)
  {
    var v, entry := ViewOf(s), InterfaceStatus(e.network, iface, true);
    var was := Slot(v.rtrs, r.name, e.network);
    assert RouterOk(v, r.name);
    if was.Some? { assert SlotOk(v, r.name, e.network); }
    if was.Some? || FindRouter(v.rtrs, r.name).value.managed {
      assert iface in v.w.made;
      assert OnlyOurs(v.w, x, live[iface], iface);
      RecordKeepsWork(s, r, x, live, entry);
    }
  }

  ghost function LandInterface(w: World, router: Id, network: Id): World {
    AttachNow(w, router, network).(made := w.made + {w.next})
  }

  /** An attach that lands is covered by the pending entry written before it. */
  lemma LandInterfaceKeepsGood(v: View, r: Name, a: Name, x: Id, network: Id)
    requires Good(v) && RouterIdOf(v.rtrs, r) == x && NetworkIdOf(v.nets, a) == network
    requires Slot(v.rtrs, r, a) == Some(InterfaceStatus(a, NO_ID, true))
    requires CanAttach(v.w, x, network)
    ensures Good(v.(w := LandInterface(v.w, x, network)))
  {
    var w := LandInterface(v.w, x, network);
    var t := v.(w := w);
    assert Provenance(w);
    assert NetworksOk(t) by {
      forall b | FindNetwork(t.nets, b).Some? ensures NetworkOk(t, b) { assert NetworkOk(v, b); }
    }
    assert RoutersOk(t) by {
      forall q | FindRouter(t.rtrs, q).Some? ensures RouterOk(t, q) { assert RouterOk(v, q); }
    }
    forall q, b | Slot(t.rtrs, q, b).Some? ensures SlotOk(t, q, b) {
      assert SlotOk(v, q, b);
    }
    forall i | i in w.ifaces && i in w.made ensures Covered(t, i) {
      if i == v.w.next {
        assert Covers(t, r, a, i);
      } else {
        var q, b :| Covers(v, q, b, i);
        assert Covers(t, q, b, i);
      }
    }
  }

  lemma LandInterfaceKeepsSnapshot(v: View, r: Name, x: Id, live: map<Id, Id>, network: Id)
    requires CloudOk(v.w) && Snapshot(v, r, x, live) && network !in live.Values
    ensures Snapshot(v.(w := LandInterface(v.w, x, network)), r, x, live)
  {
  }

  /** The write-ahead entry: nothing foreign can sit where the spec asks CAPCS to attach. */
  lemma PendingKeepsGood(s: State, r: RouterSpec, x: Id, live: map<Id, Id>, e: InterfaceSpec)
    requires AtWork(s, r, x, live) && SpecInterface(r.interfaces, e.network) == Some(e) && e.uuid == NO_ID
    requires FindNetwork(s.st.networks, e.network).Some?
    requires NetworkIdOf(s.st.networks, e.network) !in live.Values
    ensures AtWork(SetInterface(s, r.name, InterfaceStatus(e.network, NO_ID, true)), r, x, live)
  {
    var v, entry, n := ViewOf(s), InterfaceStatus(e.network, NO_ID, true), NetworkIdOf(s.st.networks, e.network);
    assert RouterOk(v, r.name) && NetworkOk(v, e.network);
    if Slot(v.rtrs, r.name, e.network).Some? {
      assert SlotOk(v, r.name, e.network);
    } else if x !in v.w.made && n !in v.w.made {
      SpecRouterIn(v.spec.routers, r.name);
      SpecNetworkIn(v.spec.networks, e.network);
      SpecInterfaceIn(r.interfaces, e.network);
      assert Asked(v.spec, x, n);
    }
    assert OnlyOurs(v.w, x, n, NO_ID);
    RecordKeepsWork(s, r, x, live, entry);
  }

  /** The answer arrived: the pending entry gets its UUID. */
  lemma ConfirmKeepsGood(s: State, r: RouterSpec, x: Id, live: map<Id, Id>, e: InterfaceSpec, iface: Id)
    requires AtWork(s, r, x, live) && SpecInterface(r.interfaces, e.network) == Some(e) && e.uuid == NO_ID
    requires Slot(s.st.routers, r.name, e.network) == Some(InterfaceStatus(e.network, NO_ID, true))
    requires NetworkIdOf(s.st.networks, e.network) !in live.Values
    requires iface in s.w.ifaces && iface in s.w.made
    requires s.w.ifaces[iface] == Attachment(x, NetworkIdOf(s.st.networks, e.network))
    ensures AtWork(SetInterface(s, r.name, InterfaceStatus(e.network, iface, true)), r, x, live)
  {
    var v, entry := ViewOf(s), InterfaceStatus(e.network, iface, true);
    assert SlotOk(v, r.name, e.network);
    RecordKeepsWork(s, r, x, live, entry);
  }

  lemma CreateInterfaceKeepsGood(p: State, f: Fates, r: RouterSpec, x: Id, live: map<Id, Id>, a: Name)
    requires PeacefulFates(f) && AtWork(p, r, x, live)
    requires Slot(p.st.routers, r.name, a) == Some(InterfaceStatus(a, NO_ID, true))
    requires NetworkIdOf(p.st.networks, a) !in live.Values
    ensures var c := CreateInterface(p, f, x, NetworkIdOf(p.st.networks, a)); AtWork(c.s, r, x, live)
  {
    var n := NetworkIdOf(p.st.networks, a);
    TickKeepsGood(p, f);
    var t := Tick(p, f);
    DriftKeepsSnapshot(ViewOf(p), t.w, r.name, x, live);
    if CanAttach(t.w, x, n) {
      LandInterfaceKeepsGood(ViewOf(t), r.name, a, x, n);
      LandInterfaceKeepsSnapshot(ViewOf(t), r.name, x, live, n);
    }
  }

  lemma CreatedInterface(p: State, f: Fates, router: Id, network: Id)
    ensures var c := CreateInterface(p, f, router, network);
            c.reply.Done? ==> c.reply.id in c.s.w.ifaces && c.reply.id in c.s.w.made &&
                              c.s.w.ifaces[c.reply.id] == Attachment(router, network)
  {
  }

  lemma AttachKeepsGood(s: State, f: Fates, r: RouterSpec, x: Id, live: map<Id, Id>, e: InterfaceSpec)
    requires PeacefulFates(f)
    requires AtWork(s, r, x, live) && SpecInterface(r.interfaces, e.network) == Some(e) && e.uuid == NO_ID
    requires FindNetwork(s.st.networks, e.network).Some?
    requires NetworkIdOf(s.st.networks, e.network) !in live.Values
    ensures AtWork(AttachInterface(s, f, r, x, e, NetworkIdOf(s.st.networks, e.network)).s, r, x, live)
  {
    var n := NetworkIdOf(s.st.networks, e.network);
    var p := SetInterface(s, r.name, InterfaceStatus(e.network, NO_ID, true));
    PendingKeepsGood(s, r, x, live, e);
    WithSlotEdits(ViewOf(s), r.name, InterfaceStatus(e.network, NO_ID, true));
    CreateInterfaceKeepsGood(p, f, r, x, live, e.network);
    CreatedInterface(p, f, x, n);
    var c := CreateInterface(p, f, x, n);
    if c.reply.Done? {
      ConfirmKeepsGood(c.s, r, x, live, e, c.reply.id);
    }
  }

  lemma InterfaceKeepsGood(s: State, f: Fates, r: RouterSpec, x: Id, live: map<Id, Id>, e: InterfaceSpec)
    requires PeacefulFates(f) && AtWork(s, r, x, live) && SpecInterface(r.interfaces, e.network) == Some(e)
    ensures AtWork(ReconcileInterface(s, f, r, x, live, e).s, r, x, live)
  {
    var n := FindNetwork(s.st.networks, e.network);
    if n.Some? {
      var network := n.value.networkId;
      if e.uuid != NO_ID {
        AdoptKeepsGood(s, r, x, live, e, network);
      } else if i :| i in live && live[i] == network {
        ClaimKeepsGood(s, r, x, live, e, LiveOn(live, network));
      } else {
        AttachKeepsGood(s, f, r, x, live, e);
      }
    }
  }

  // --------------------------------------------------------------- router stage

  lemma SpecInterfaceAt(es: seq<InterfaceSpec>, k: nat)
    requires k < |es| && DistinctInterfaces(es)
    ensures SpecInterface(es, es[k].network) == Some(es[k])
  {
    if k > 0 {
      assert es[0].network != es[k].network;
      SpecInterfaceAt(es[1..], k - 1);
    }
  }

  lemma SpecRouterAt(rs: seq<RouterSpec>, k: nat)
    requires k < |rs| && DistinctRouters(rs)
    ensures SpecRouter(rs, rs[k].name) == Some(rs[k])
  {
    if k > 0 {
      assert rs[0].name != rs[k].name;
      SpecRouterAt(rs[1..], k - 1);
    }
  }

  lemma InterfacesKeepGood(s: State, f: Fates, r: RouterSpec, x: Id, live: map<Id, Id>, k: nat)
    requires PeacefulFates(f) && AtWork(s, r, x, live) && k <= |r.interfaces| && DistinctInterfaces(r.interfaces)
    ensures Good(ViewOf(InterfacesFrom(s, f, r, x, live, k).s))
    decreases |r.interfaces| - k
  {
    if k < |r.interfaces| {
      SpecInterfaceAt(r.interfaces, k);
      InterfaceKeepsGood(s, f, r, x, live, r.interfaces[k]);
      var one := ReconcileInterface(s, f, r, x, live, r.interfaces[k]);
      if one.flow == Proceed { InterfacesKeepGood(one.s, f, r, x, live, k + 1); }
    }
  }

  lemma SettleKeepsGood(s: State, f: Fates, r: RouterSpec, id: Id)
    requires Good(ViewOf(s)) && PeacefulFates(f)
    requires SpecRouter(s.spec.routers, r.name) == Some(r) && DistinctInterfaces(r.interfaces)
    requires if r.uuid == NO_ID then id in s.w.made else id == r.uuid
    requires var was := RouterIdOf(s.st.routers, r.name);
             was == id || FindRouter(s.st.routers, r.name).None? || Gone(s.w, Router, was)
    ensures Good(ViewOf(Settle(s, f, r, id).s))
  {
    SetRouterKeepsGood(ViewOf(s), r.name, id, r.uuid == NO_ID);
    FindPutRouter(s.st.routers, r.name, id, r.uuid == NO_ID, r.name);
    var t := SetRouter(s, r, id);
    SnapshotTaken(ViewOf(t), r.name, id);
    InterfacesKeepGood(t, f, r, id, Interfaces(s.w, id), 0);
  }

  lemma RouterKeepsGood(s: State, f: Fates, r: RouterSpec)
    requires Good(ViewOf(s)) && PeacefulFates(f)
    requires SpecRouter(s.spec.routers, r.name) == Some(r) && DistinctInterfaces(r.interfaces)
    ensures Good(ViewOf(ReconcileRouter(s, f, r).s))
  {
    var was := RouterIdOf(s.st.routers, r.name);
    if FindRouter(s.st.routers, r.name).Some? { assert RouterOk(ViewOf(s), r.name); }
    if r.uuid != NO_ID {
      GetKeepsGood(s, f, Router, r.uuid);
      SettleKeepsGood(Get(s, f, Router, r.uuid).s, f, r, r.uuid);
    } else {
      ObtainKeepsGood(s, f, was, Router, Named(r.name), NO_ID);
      var o := Obtain(s, f, was, Router, Named(r.name), NO_ID);
      if o.flow == Proceed {
        if was != NO_ID { ReplacedIsGone(s, f, was, Router, Named(r.name), NO_ID); }
        SettleKeepsGood(o.s, f, r, o.id);
      }
    }
  }

  lemma RoutersKeepGood(s: State, f: Fates, k: nat, acc: Flow)
    requires Good(ViewOf(s)) && PeacefulFates(f) && k <= |s.spec.routers|
    ensures Good(ViewOf(RoutersFrom(s, f, s.spec.routers, k, acc).s))
    decreases |s.spec.routers| - k
  {
    if k < |s.spec.routers| {
      SpecRouterAt(s.spec.routers, k);
      RouterKeepsGood(s, f, s.spec.routers[k]);
      var one := ReconcileRouter(s, f, s.spec.routers[k]);
      if one.flow != Error { RoutersKeepGood(one.s, f, k + 1, Join(acc, one.flow)); }
    }
  }
}
