/** Detaching interfaces and deleting routers keeps the ownership invariant. */
module OwnershipTeardown {
  import opened Types
  import opened Keys
  import opened Cloud
  import opened Networks
  import opened Routers
  import opened Ownership
  import opened OwnershipSteps
  import opened OwnershipRouters

  /** The router list while entry `rs` is being worked on and has `es` left. */
  ghost function Virtual(pre: seq<RouterStatus>, rs: RouterStatus, es: seq<InterfaceStatus>, post: seq<RouterStatus>): seq<RouterStatus> {
    pre + [rs.(interfaces := es)] + post
  }

  lemma {:induction false} KeyedMiddle(pre: seq<RouterStatus>, rs: RouterStatus, post: seq<RouterStatus>)
    requires KeyedRouters(pre + [rs] + post)
    ensures KeyedInterfaces(rs.interfaces)
  {
    var all := pre + [rs] + post;
    if pre == [] {
      assert all[0] == rs;
    } else {
      assert all[1..] == pre[1..] + [rs] + post;
      KeyedMiddle(pre[1..], rs, post);
    }
  }

  lemma VirtualEdit(
    pre: seq<RouterStatus>, rs: RouterStatus, done: seq<InterfaceStatus>, e: InterfaceStatus,
    kept: seq<InterfaceStatus>, rest: seq<InterfaceStatus>, post: seq<RouterStatus>)
    requires KeyedRouters(Virtual(pre, rs, done + [e] + rest, post))
    requires kept == [] || (|kept| == 1 && kept[0].network == e.network)
    ensures KeyedRouters(Virtual(pre, rs, done + kept + rest, post))
    ensures Edited(Virtual(pre, rs, done + [e] + rest, post), Virtual(pre, rs, done + kept + rest, post),
                   rs.name, e.network, if kept == [] then None else Some(kept[0]))
    ensures Slot(Virtual(pre, rs, done + [e] + rest, post), rs.name, e.network) == Some(e)
  {
    var was, now := rs.(interfaces := done + [e] + rest), rs.(interfaces := done + kept + rest);
    KeyedMiddle(pre, was, post);
    ReplaceInterface(done, e, kept, rest);
    ReplaceRouter(pre, was, [now], post);
  }

  ghost predicate AllSeen(w: World, x: Id, live: map<Id, Id>) {
    forall i | i in w.ifaces && w.ifaces[i].router == x && i in w.made :: i in live
  }

  ghost function Midway(s: State, pre: seq<RouterStatus>, rs: RouterStatus, es: seq<InterfaceStatus>, post: seq<RouterStatus>): View {
    ViewOf(s).(rtrs := Virtual(pre, rs, es, post))
  }

  ghost predicate Detaching(s: State, pre: seq<RouterStatus>, rs: RouterStatus, es: seq<InterfaceStatus>, post: seq<RouterStatus>, live: map<Id, Id>) {
    var v := Midway(s, pre, rs, es, post);
    Watching(v, rs.name, rs.routerId, live) && KeyedRouters(v.rtrs) && RouterIdOf(v.rtrs, rs.name) == rs.routerId
  }

  /** What stays known about the router being emptied. */
  ghost predicate Watching(v: View, r: Name, x: Id, live: map<Id, Id>) {
    Good(v) && Snapshot(v, r, x, live) && AllSeen(v.w, x, live)
  }

  lemma TickKeepsWatching(s: State, f: Fates, v: View, r: Name, x: Id, live: map<Id, Id>)
    requires PeacefulFates(f) && v.w == s.w && v.spec == s.spec && Watching(v, r, x, live)
    ensures Watching(v.(w := Tick(s, f).w), r, x, live) && Tick(s, f).w.made == s.w.made
  {
    OutsideAllDrifts(s.w, s.spec, f(s.clock).outside);
    DriftKeepsGood(v, Tick(s, f).w);
    DriftKeepsSnapshot(v, Tick(s, f).w, r, x, live);
  }

  lemma DetachKeepsWatching(v: View, r: Name, x: Id, live: map<Id, Id>, id: Id)
    requires Watching(v, r, x, live) && id in v.w.made
    ensures Watching(v.(w := v.w.(targets := v.w.targets + {id})), r, x, live)
    ensures Watching(v.(w := v.w.(targets := v.w.targets + {id}, ifaces := v.w.ifaces - {id})), r, x, live)
  {
    DetachKeepsGood(v, id);
    LessKeepsSnapshot(v, v.w.(targets := v.w.targets + {id}), r, x, live);
    LessKeepsSnapshot(v, v.w.(targets := v.w.targets + {id}, ifaces := v.w.ifaces - {id}), r, x, live);
  }

  lemma LessKeepsSnapshot(v: View, w: World, r: Name, x: Id, live: map<Id, Id>)
    requires Snapshot(v, r, x, live) && w.made == v.w.made && w.next == v.w.next
    requires forall i | i in w.ifaces :: i in v.w.ifaces && w.ifaces[i] == v.w.ifaces[i]
    ensures Snapshot(v.(w := w), r, x, live)
    ensures AllSeen(v.w, x, live) ==> AllSeen(w, x, live)
  {
  }

  /** A detach call on an interface of ours keeps everything in order, whatever the answer. */
  lemma DeleteInterfaceKeepsWatching(s: State, f: Fates, v: View, r: Name, x: Id, live: map<Id, Id>, id: Id)
    requires PeacefulFates(f) && v.w == s.w && v.spec == s.spec && Watching(v, r, x, live) && id in s.w.made
    ensures Watching(v.(w := DeleteInterface(s, f, x, id).s.w), r, x, live)
  {
    TickKeepsWatching(s, f, v, r, x, live);
    DetachKeepsWatching(v.(w := Tick(s, f).w), r, x, live, id);
  }

  lemma DetachedIsGone(s: State, f: Fates, x: Id, id: Id)
    ensures var c := DeleteInterface(s, f, x, id);
            c.reply.Done? || c.reply.Missing? ==> !(id in c.s.w.ifaces && c.s.w.ifaces[id].router == x)
  {
  }

  lemma DetachKeepsGood(v: View, id: Id)
    requires Good(v) && id in v.w.made
    ensures Good(v.(w := v.w.(targets := v.w.targets + {id})))
    ensures Good(v.(w := v.w.(targets := v.w.targets + {id}, ifaces := v.w.ifaces - {id})))
  {
    var t := v.(w := v.w.(targets := v.w.targets + {id}, ifaces := v.w.ifaces - {id}));
    var u := v.(w := v.w.(targets := v.w.targets + {id}));
    LessKeepsGood(v, t.w);
    LessKeepsGood(v, u.w);
  }

  /** Fewer interfaces, same makers. */
  lemma LessKeepsGood(v: View, w: World)
    requires Good(v) && CloudOk(w) && Provenance(w) && w.made == v.w.made && w.targets <= w.made
    requires forall i | i in w.ifaces :: i in v.w.ifaces && w.ifaces[i] == v.w.ifaces[i]
    ensures Good(v.(w := w))
  {
    var t := v.(w := w);
    forall r, a | Slot(t.rtrs, r, a).Some? ensures SlotOk(t, r, a) {
      assert SlotOk(v, r, a);
    }
    forall i | i in w.ifaces && i in w.made ensures Covered(t, i) {
      var r, a :| Covers(v, r, a, i);
      assert Covers(t, r, a, i);
    }
    forall a | FindNetwork(t.nets, a).Some? ensures NetworkOk(t, a) { assert NetworkOk(v, a); }
    forall r | FindRouter(t.rtrs, r).Some? ensures RouterOk(t, r) { assert RouterOk(v, r); }
  }

  /** What a managed entry resolves to, if the read showed it, is CAPCS's. */
  lemma ResolvedIsOurs(s: State, v: View, r: Name, x: Id, live: map<Id, Id>, e: InterfaceStatus)
    requires Watching(v, r, x, live) && v.nets == s.st.networks && RouterIdOf(v.rtrs, r) == x
    requires Slot(v.rtrs, r, e.network) == Some(e) && e.managed
    ensures var id := Resolve(s, live, e);
            && (id in live ==> id in v.w.made)
            && (forall i | i in v.w.made && Covers(v, r, e.network, i) :: i == id && i in live)
  {
    assert SlotOk(v, r, e.network);
  }

  lemma DetachOneKeepsGood(
    s: State, f: Fates, pre: seq<RouterStatus>, rs: RouterStatus, done: seq<InterfaceStatus>,
    e: InterfaceStatus, rest: seq<InterfaceStatus>, post: seq<RouterStatus>, live: map<Id, Id>)
    requires PeacefulFates(f) && Detaching(s, pre, rs, done + [e] + rest, post, live)
    ensures var one := DetachOne(s, f, rs.routerId, live, e);
            Detaching(one.s, pre, rs, done + one.kept + rest, post, live)
  {
    var x, r, a := rs.routerId, rs.name, e.network;
    var v := Midway(s, pre, rs, done + [e] + rest, post);
    var one := DetachOne(s, f, x, live, e);
    VirtualEdit(pre, rs, done, e, one.kept, rest, post);
    var now := if one.kept == [] then None else Some(one.kept[0]);
    var rtrs := Virtual(pre, rs, done + one.kept + rest, post);
    if e.managed {
      ResolvedIsOurs(s, v, r, x, live, e);
      assert SlotOk(v, r, a);
      var id := Resolve(s, live, e);
      if id in live {
        DeleteInterfaceKeepsWatching(s, f, v, r, x, live, id);
        DetachedIsGone(s, f, x, id);
      }
      EditWatched(v.(w := one.s.w), rtrs, r, x, a, now, live);
    } else {
      assert one.kept == [e];
    }
  }

  lemma EditWatched(v: View, rtrs: seq<RouterStatus>, r: Name, x: Id, a: Name, now: Option<InterfaceStatus>, live: map<Id, Id>)
    requires Watching(v, r, x, live) && Edited(v.rtrs, rtrs, r, a, now) && RouterIdOf(v.rtrs, r) == x
    requires Slot(v.rtrs, r, a).Some? && Slot(v.rtrs, r, a).value.managed
    requires now.Some? ==> now.value.managed && now.value.interfaceId in live && now.value.interfaceId in v.w.made
    requires now.Some? ==> now.value.interfaceId == Slot(v.rtrs, r, a).value.interfaceId ||
                           live[now.value.interfaceId] == NetworkIdOf(v.nets, a)
    requires forall i | i in v.w.made && Covers(v, r, a, i) :: now.Some? && i == now.value.interfaceId
    ensures Watching(v.(rtrs := rtrs), r, x, live) && RouterIdOf(rtrs, r) == x
  {
    assert SlotOk(v, r, a);
    assert SameRouter(FindRouter(v.rtrs, r), FindRouter(rtrs, r));
    EditKeepsGood(v, rtrs, r, a, now);
    EditKeepsSnapshot(v, rtrs, r, a, now, x, live);
  }

  lemma UnmanagedTogether(a: seq<InterfaceStatus>, b: seq<InterfaceStatus>)
    ensures HasManaged(a + b) ==> HasManaged(a) || HasManaged(b)
  {
  }

  lemma DetachKeepsDetaching(
    s: State, f: Fates, pre: seq<RouterStatus>, rs: RouterStatus, post: seq<RouterStatus>,
    live: map<Id, Id>, k: nat, done: seq<InterfaceStatus>, err: bool)
    requires PeacefulFates(f) && k <= |rs.interfaces|
    requires Detaching(s, pre, rs, done + rs.interfaces[k..], post, live)
    requires !err ==> !HasManaged(done)
    ensures var d := DetachFrom(s, f, rs, live, k, done, err);
            && Detaching(d.s, pre, rs, d.kept, post, live)
            && (!d.err ==> !HasManaged(d.kept))
    decreases |rs.interfaces| - k
  {
    if k == |rs.interfaces| {
      assert done + rs.interfaces[k..] == done;
    } else {
      var e, rest := rs.interfaces[k], rs.interfaces[k + 1..];
      assert done + rs.interfaces[k..] == done + [e] + rest;
      DetachOneKeepsGood(s, f, pre, rs, done, e, rest, post, live);
      var one := DetachOne(s, f, rs.routerId, live, e);
      UnmanagedTogether(done, one.kept);
      DetachKeepsDetaching(one.s, f, pre, rs, post, live, k + 1, done + one.kept, err || one.err);
    }
  }

  // ------------------------------------------------------------- router entries

  /** Shortening or dropping one router entry is safe when nothing it covers is lost. */
  lemma RelistKeepsGood(v: View, rtrs: seq<RouterStatus>, r: Name)
    requires Good(v)
    requires forall q | q != r :: FindRouter(rtrs, q) == FindRouter(v.rtrs, q)
    requires FindRouter(rtrs, r).Some? ==> SameRouter(FindRouter(v.rtrs, r), FindRouter(rtrs, r))
    requires forall a :: Slot(rtrs, r, a).Some? ==> Slot(rtrs, r, a) == Slot(v.rtrs, r, a)
    requires forall a, i | i in v.w.made && Covers(v, r, a, i) :: Slot(rtrs, r, a) == Slot(v.rtrs, r, a)
    ensures Good(v.(rtrs := rtrs))
  {
    var t := v.(rtrs := rtrs);
    forall q | FindRouter(t.rtrs, q).Some? ensures RouterOk(t, q) { assert RouterOk(v, q); }
    forall a | FindNetwork(t.nets, a).Some? ensures NetworkOk(t, a) { assert NetworkOk(v, a); }
    forall q, a | Slot(t.rtrs, q, a).Some? ensures SlotOk(t, q, a) {
      assert Slot(v.rtrs, q, a) == Slot(t.rtrs, q, a);
      assert SlotOk(v, q, a);
    }
    forall i | i in t.w.ifaces && i in t.w.made ensures Covered(t, i) {
      var q, a :| Covers(v, q, a, i);
      assert Slot(t.rtrs, q, a) == Slot(v.rtrs, q, a);
      assert Covers(t, q, a, i);
    }
  }

  ghost predicate GoodList(s: State, rtrs: seq<RouterStatus>) {
    Good(ViewOf(s).(rtrs := rtrs)) && KeyedRouters(rtrs)
  }

  lemma NoManagedNoCover(es: seq<InterfaceStatus>, a: Name)
    requires !HasManaged(es)
    ensures FindInterface(es, a).Some? ==> !FindInterface(es, a).value.managed
  {
  }

  /** Dropping an entry whose router is nothing, gone, or has no managed interface entry left. */
  lemma DropKeepsGood(s: State, pre: seq<RouterStatus>, rs: RouterStatus, post: seq<RouterStatus>)
    requires GoodList(s, pre + [rs] + post)
    requires !IsKind(s.w.res, rs.routerId, Router) || !HasManaged(rs.interfaces)
    ensures GoodList(s, pre + post)
    ensures GoodList(s, pre + [rs.(interfaces := [])] + post)
  {
    var v := ViewOf(s).(rtrs := pre + [rs] + post);
    ReplaceRouter(pre, rs, [], post);
    ReplaceRouter(pre, rs, [rs.(interfaces := [])], post);
    assert pre + [] + post == pre + post;
    forall a ensures Slot(v.rtrs, rs.name, a) == FindInterface(rs.interfaces, a) {}
    forall a, i ensures !Covers(v, rs.name, a, i) {
      if !HasManaged(rs.interfaces) { NoManagedNoCover(rs.interfaces, a); }
    }
    RelistKeepsGood(v, pre + post, rs.name);
    RelistKeepsGood(v, pre + [rs.(interfaces := [])] + post, rs.name);
  }

  lemma DeleteInterfacesKeepsGood(s: State, f: Fates, pre: seq<RouterStatus>, rs: RouterStatus, post: seq<RouterStatus>)
    requires PeacefulFates(f) && GoodList(s, pre + [rs] + post)
    ensures var d := DeleteInterfaces(s, f, rs);
            && GoodList(d.s, pre + [rs.(interfaces := d.kept)] + post)
            && (!d.err ==> !HasManaged(d.kept))
  {
    assert rs.(interfaces := rs.interfaces) == rs;
    if HasManaged(rs.interfaces) {
      var v := ViewOf(s).(rtrs := pre + [rs] + post);
      OutsideAllDrifts(s.w, s.spec, f(s.clock).outside);
      var t := Tick(s, f);
      DriftKeepsGood(v, t.w);
      var g := Get(s, f, Router, rs.routerId);
      if g.reply.Missing? {
        DropKeepsGood(t, pre, rs, post);
      } else if g.reply.Done? {
        ReplaceRouter(pre, rs, [], post);
        SnapshotTaken(v.(w := t.w), rs.name, rs.routerId);
        assert [] + rs.interfaces[0..] == rs.interfaces;
        DetachKeepsDetaching(t, f, pre, rs, post, Interfaces(t.w, rs.routerId), 0, [], false);
      }
    }
  }

  lemma DeleteKeepsGood(s: State, f: Fates, v: View, kind: Kind, id: Id)
    requires PeacefulFates(f) && v.w == s.w && v.spec == s.spec && Good(v) && id in s.w.made
    ensures Good(v.(w := Delete(s, f, kind, id).s.w))
  {
    var w := Tick(s, f).w;
    OutsideAllDrifts(s.w, s.spec, f(s.clock).outside);
    DriftKeepsGood(v, w);
    RemoveKeepsGood(v.(w := w), id);
    DeleteWorlds(s, f, kind, id);
  }

  /** A delete call leaves the cloud as it is, but for the record of the call, or removes the resource. */
  lemma DeleteWorlds(s: State, f: Fates, kind: Kind, id: Id)
    ensures var w := Tick(s, f).w.(targets := Tick(s, f).w.targets + {id});
            var now := Delete(s, f, kind, id).s.w;
            now == w || now == Remove(w, id)
  {
  }

  lemma RemoveKeepsGood(v: View, id: Id)
    requires Good(v) && id in v.w.made
    ensures var w := v.w.(targets := v.w.targets + {id}); Good(v.(w := w)) && Good(v.(w := Remove(w, id)))
  {
    var u := v.(w := v.w.(targets := v.w.targets + {id}));
    DetachKeepsGood(v, id);
    RemoveKeepsCloud(u.w, id);
    LessKeepsGood(u, Remove(u.w, id));
  }

  lemma DeleteRouterKeepsGood(s: State, f: Fates, pre: seq<RouterStatus>, rs: RouterStatus, post: seq<RouterStatus>)
    requires PeacefulFates(f) && GoodList(s, pre + [rs] + post)
    ensures var one := DeleteRouter(s, f, rs);
            && GoodList(one.s, pre + one.kept + post)
            && (!one.err ==> forall r | r in one.kept :: !HasManaged(r.interfaces))
  {
    assert pre + [] + post == pre + post;
    if rs.routerId == NO_ID {
      DropKeepsGood(s, pre, rs, post);
    } else {
      DeleteInterfacesKeepsGood(s, f, pre, rs, post);
      var d := DeleteInterfaces(s, f, rs);
      var pruned := rs.(interfaces := d.kept);
      if !d.err && rs.managed {
        var v := ViewOf(d.s).(rtrs := pre + [pruned] + post);
        ReplaceRouter(pre, pruned, [], post);
        assert RouterOk(v, rs.name);
        DeleteKeepsGood(d.s, f, v, Router, rs.routerId);
        DropKeepsGood(Delete(d.s, f, Router, rs.routerId).s, pre, pruned, post);
      }
    }
  }

  ghost predicate NoneManaged(rtrs: seq<RouterStatus>) {
    forall r | r in rtrs :: !HasManaged(r.interfaces)
  }

  lemma DeleteRoutersKeepsGood(s: State, f: Fates, rss: seq<RouterStatus>, k: nat, remaining: seq<RouterStatus>, err: bool)
    requires PeacefulFates(f) && k <= |rss| && GoodList(s, remaining + rss[k..])
    requires !err ==> NoneManaged(remaining)
    ensures var e := DeleteRoutersFrom(s, f, rss, k, remaining, err);
            && Good(ViewOf(e.s)) && KeyedRouters(e.s.st.routers)
            && (e.flow == Proceed ==> NoneManaged(e.s.st.routers))
    decreases |rss| - k
  {
    if k == |rss| {
      assert remaining + rss[k..] == remaining;
    } else {
      var rest := rss[k + 1..];
      assert remaining + rss[k..] == remaining + [rss[k]] + rest;
      DeleteRouterKeepsGood(s, f, remaining, rss[k], rest);
      var one := DeleteRouter(s, f, rss[k]);
      DeleteRoutersKeepsGood(one.s, f, rss, k + 1, remaining + one.kept, err || one.err);
    }
  }

  // ------------------------------------------------------------ network entries

  lemma DropNetworkKeepsGood(v: View, pre: seq<NetworkStatus>, n: NetworkStatus, post: seq<NetworkStatus>)
    requires v.nets == pre + [n] + post && Good(v) && KeyedNetworks(v.nets) && NoneManaged(v.rtrs)
    ensures Good(v.(nets := pre + post)) && KeyedNetworks(pre + post)
  {
    var t := v.(nets := pre + post);
    DropNetwork(pre, n, post);
    forall r, a ensures Slot(v.rtrs, r, a).Some? ==> !Slot(v.rtrs, r, a).value.managed {
      if FindRouter(v.rtrs, r).Some? {
        FoundRouterIn(v.rtrs, r);
        NoManagedNoCover(FindRouter(v.rtrs, r).value.interfaces, a);
      }
    }
    forall r | FindRouter(t.rtrs, r).Some? ensures RouterOk(t, r) { assert RouterOk(v, r); }
    forall a | FindNetwork(t.nets, a).Some? ensures NetworkOk(t, a) { assert NetworkOk(v, a); }
    forall r, a | Slot(t.rtrs, r, a).Some? ensures SlotOk(t, r, a) { assert SlotOk(v, r, a); }
  }

  lemma FoundRouterIn(rs: seq<RouterStatus>, name: Name)
    requires FindRouter(rs, name).Some?
    ensures FindRouter(rs, name).value in rs && FindRouter(rs, name).value.name == name
  {
  }

  /** The network list a teardown is working towards. */
  ghost predicate GoodNets(s: State, nets: seq<NetworkStatus>) {
    Good(ViewOf(s).(nets := nets)) && KeyedNetworks(nets) && NoneManaged(s.st.routers)
  }

  lemma DropKeepsGoodNets(s: State, pre: seq<NetworkStatus>, n: NetworkStatus, post: seq<NetworkStatus>)
    requires GoodNets(s, pre + [n] + post)
    ensures GoodNets(s, pre + post)
  {
    DropNetworkKeepsGood(ViewOf(s).(nets := pre + [n] + post), pre, n, post);
  }

  lemma DeleteKeepsGoodNets(
    s: State, f: Fates, nets: seq<NetworkStatus>, pre: seq<NetworkStatus>, n: NetworkStatus, post: seq<NetworkStatus>)
    requires PeacefulFates(f) && GoodNets(s, nets) && GoodNets(s, pre + [n] + post) && n.managed && n.networkId != NO_ID
    ensures GoodNets(Delete(s, f, Network, n.networkId).s, nets)
  {
    DropNetwork(pre, n, post);
    assert NetworkOk(ViewOf(s).(nets := pre + [n] + post), n.name);
    DeleteKeepsGood(s, f, ViewOf(s).(nets := nets), Network, n.networkId);
  }

  lemma DeleteNetworksKeepsGood(s: State, f: Fates, ns: seq<NetworkStatus>, k: nat, remaining: seq<NetworkStatus>, err: bool)
    requires PeacefulFates(f) && k <= |ns| && GoodNets(s, s.st.networks) && GoodNets(s, remaining + ns[k..])
    ensures var e := DeleteNetworksFrom(s, f, ns, k, remaining, err).s; GoodNets(e, e.st.networks)
    decreases |ns| - k
  {
    if k == |ns| {
      assert remaining + ns[k..] == remaining;
    } else {
      var n, rest := ns[k], ns[k + 1..];
      assert remaining + ns[k..] == remaining + [n] + rest;
      if !n.managed {
        DeleteNetworksKeepsGood(s, f, ns, k + 1, remaining + [n], err);
      } else if n.networkId == NO_ID {
        DropKeepsGoodNets(s, remaining, n, rest);
        DeleteNetworksKeepsGood(s, f, ns, k + 1, remaining, err);
      } else {
        DeleteKeepsGoodNets(s, f, s.st.networks, remaining, n, rest);
        DeleteKeepsGoodNets(s, f, remaining + [n] + rest, remaining, n, rest);
        var c := Delete(s, f, Network, n.networkId);
        if c.reply.Done? || c.reply.Missing? {
          DropKeepsGoodNets(c.s, remaining, n, rest);
          DeleteNetworksKeepsGood(c.s, f, ns, k + 1, remaining, err);
        } else if !c.reply.Refused? {
          DeleteNetworksKeepsGood(c.s, f, ns, k + 1, remaining + [n], true);
        }
      }
    }
  }
}
