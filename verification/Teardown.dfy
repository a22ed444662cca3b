/**
 Teardown from any status: what a delete pass does to each entry status records, and what is
 left when the finalizer goes, over every sequence of delete passes and every pattern of failures.
 */
module Teardown {
  import opened Types
  import opened Cloud
  import opened History
  import opened Networks
  import opened Routers
  import opened LoadBalancer
  import opened FloatingIps
  import opened ServerGroups
  import opened Controller
  import opened Ownership
  import opened AtMostOne

  // ------------------------------------------------------------------- the ledger

  /** The interface is not on the router, and will not be again. */
  ghost predicate Detached(w: World, router: Id, iface: Id) {
    iface < w.next && !(iface in w.ifaces && w.ifaces[iface].router == router)
  }

  /** What status recorded as CAPCS's own: ids, and whatever sits where a pending entry says it attached. */
  datatype Item =
    | ANetwork(id: Id)
    | ARouter(id: Id)
    | AnInterface(router: Id, id: Id)
    | AnAttached(router: Id, network: Id, id: Id)
    | ALoadBalancer(id: Id)
    | AFloatingIp(id: Id)

  ghost predicate Recorded(spec: Spec, st: Status, item: Item) {
    match item
    case ANetwork(id) => id != NO_ID && exists n | n in st.networks :: n.managed && n.networkId == id
    case ARouter(id) => id != NO_ID && exists r | r in st.routers :: r.managed && r.routerId == id
    case AnInterface(router, id) =>
      router != NO_ID && id != NO_ID && exists r | r in st.routers :: r.routerId == router && Lists(r.interfaces, id)
    case AnAttached(router, network, id) =>
      router != NO_ID && id != NO_ID &&
      exists r | r in st.routers :: r.routerId == router && StandsFor(st.networks, r.interfaces, network, id)
    case ALoadBalancer(id) => id != NO_ID && LbEnabled(spec) && st.lbId == id
    case AFloatingIp(id) => id != NO_ID && OwnsFip(spec) && st.fip == id
  }

  ghost predicate Lists(es: seq<InterfaceStatus>, id: Id) {
    exists e | e in es :: e.managed && e.interfaceId == id
  }

  /** An entry that has the id, or is pending on the network. */
  ghost predicate StandsFor(nets: seq<NetworkStatus>, es: seq<InterfaceStatus>, network: Id, id: Id) {
    Lists(es, id) || Awaits(nets, es, network)
  }

  ghost predicate Awaits(nets: seq<NetworkStatus>, es: seq<InterfaceStatus>, network: Id) {
    exists e | e in es :: e.managed && e.interfaceId == NO_ID && NetworkIdOf(nets, e.network) == network
  }

  /** The interface is not on the attachment, and will not be again. */
  ghost predicate Off(w: World, router: Id, network: Id, iface: Id) {
    iface < w.next && !(iface in w.ifaces && w.ifaces[iface] == Attachment(router, network))
  }

  ghost predicate IsGone(w: World, item: Item) {
    match item
    case ANetwork(id) => Gone(w, Network, id)
    case ARouter(id) => Gone(w, Router, id)
    case AnInterface(router, id) => Detached(w, router, id)
    case AnAttached(router, network, id) => Off(w, router, network, id)
    case ALoadBalancer(id) => Gone(w, LoadBalancer, id)
    case AFloatingIp(id) => Gone(w, FloatingIp, id)
  }

  /** The entry is still on the books, or what it stood for is gone. */
  ghost predicate Accounted(s: State, item: Item) {
    Recorded(s.spec, s.st, item) || IsGone(s.w, item)
  }

  /** No entry falls off the books before what it stands for is gone. */
  ghost predicate Carries(s: State, t: State) {
    && t.spec == s.spec && Later(s.w, t.w)
    && forall item: Item | item.id < s.w.next && Accounted(s, item) :: Accounted(t, item)
  }

  lemma GoneForGood(w: World, v: World, item: Item)
    requires Later(w, v) && IsGone(w, item)
    ensures IsGone(v, item)
  {
  }

  lemma CarriesTransitive(s: State, t: State, u: State)
    requires Carries(s, t) && Carries(t, u)
    ensures Carries(s, u)
  {
    LaterTransitive(s.w, t.w, u.w);
    forall item: Item | item.id < s.w.next && Accounted(s, item) ensures Accounted(u, item) {
      assert Accounted(t, item);
    }
  }

  /** With status untouched, it is enough that time passes. */
  lemma CarriesAside(s: State, t: State)
    requires t.spec == s.spec && t.st == s.st && Later(s.w, t.w)
    ensures Carries(s, t)
  {
    forall item: Item | item.id < s.w.next && Accounted(s, item) ensures Accounted(t, item) {
      if IsGone(s.w, item) { GoneForGood(s.w, t.w, item); }
    }
  }

  /** A delete that is answered with done or not found means gone. */
  lemma DeletedIsGone(s: State, f: Fates, kind: Kind, id: Id)
    requires 0 < id < s.w.next
    ensures var c := Delete(s, f, kind, id); c.reply.Done? || c.reply.Missing? ==> Gone(c.s.w, kind, id)
  {
    TickLater(s, f);
  }

  // --------------------------------------------------- floating IP, load balancer

  lemma FipCarries(s: State, f: Fates)
    requires s.st.fip < s.w.next
    ensures var e := DeleteFloatingIp(s, f);
            Carries(s, e.s) && (e.flow == Proceed ==> forall id :: !Recorded(e.s.spec, e.s.st, AFloatingIp(id)))
  {
    var e := DeleteFloatingIp(s, f);
    if OwnsFip(s.spec) && s.st.fip != NO_ID {
      DeleteLater(s, f, FloatingIp, s.st.fip);
      DeletedIsGone(s, f, FloatingIp, s.st.fip);
      forall item: Item | item.id < s.w.next && Accounted(s, item) ensures Accounted(e.s, item) {
        if IsGone(s.w, item) { GoneForGood(s.w, e.s.w, item); }
      }
    } else {
      CarriesAside(s, e.s);
    }
  }

  lemma LbCarries(s: State, f: Fates)
    requires s.st.lbId < s.w.next
    ensures var e := DeleteLoadBalancer(s, f);
            Carries(s, e.s) && (e.flow == Proceed ==> forall id :: !Recorded(e.s.spec, e.s.st, ALoadBalancer(id)))
  {
    var e := DeleteLoadBalancer(s, f);
    if LbEnabled(s.spec) && s.st.lbId != NO_ID {
      DeleteLater(s, f, LoadBalancer, s.st.lbId);
      DeletedIsGone(s, f, LoadBalancer, s.st.lbId);
    }
    forall item: Item | item.id < s.w.next && Accounted(s, item) ensures Accounted(e.s, item) {
      if IsGone(s.w, item) { GoneForGood(s.w, e.s.w, item); }
    }
  }

  // ------------------------------------------------------------------- interfaces

  /** What a detach loop works on: the entries kept so far and those still to come. */
  lemma ListsSplit(a: seq<InterfaceStatus>, e: InterfaceStatus, b: seq<InterfaceStatus>, id: Id)
    ensures Lists(a + [e] + b, id) <==> Lists(a, id) || (e.managed && e.interfaceId == id) || Lists(b, id)
  {
    var all := a + [e] + b;
    if Lists(a, id) {
      var x :| x in a && x.managed && x.interfaceId == id;
      assert x in all;
    }
    if Lists(b, id) {
      var x :| x in b && x.managed && x.interfaceId == id;
      assert x in all;
    }
    assert e in all;
  }

  lemma DetachOneAccounts(s: State, f: Fates, w0: World, router: Id, e: InterfaceStatus)
    requires Later(w0, s.w) && 0 < e.interfaceId < w0.next && e.managed
    ensures var one := DetachOne(s, f, router, Interfaces(w0, router), e);
            one.kept == [e] || (one.kept == [] && Detached(one.s.w, router, e.interfaceId))
  {
    DeleteInterfaceLater(s, f, router, e.interfaceId);
    TickLater(s, f);
  }

  lemma DetachOneLater(s: State, f: Fates, live: map<Id, Id>, router: Id, e: InterfaceStatus)
    ensures Later(s.w, DetachOne(s, f, router, live, e).s.w)
  {
    if e.managed { DeleteInterfaceLater(s, f, router, Resolve(s, live, e)); }
  }

  lemma {:induction false} DetachAccounts(
    s: State, f: Fates, w0: World, rs: RouterStatus, k: nat, remaining: seq<InterfaceStatus>, err: bool, id: Id)
    requires Later(w0, s.w) && 0 < id < w0.next && k <= |rs.interfaces|
    requires Lists(remaining + rs.interfaces[k..], id) || Detached(s.w, rs.routerId, id)
    ensures var d := DetachFrom(s, f, rs, Interfaces(w0, rs.routerId), k, remaining, err);
            Lists(d.kept, id) || Detached(d.s.w, rs.routerId, id)
    decreases |rs.interfaces| - k
  {
    if k == |rs.interfaces| {
      assert remaining + rs.interfaces[k..] == remaining;
    } else {
      var live, e, rest := Interfaces(w0, rs.routerId), rs.interfaces[k], rs.interfaces[k + 1..];
      assert remaining + rs.interfaces[k..] == remaining + [e] + rest;
      var one := DetachOne(s, f, rs.routerId, live, e);
      ListsSplit(remaining, e, rest, id);
      DetachOneLater(s, f, live, rs.routerId, e);
      LaterTransitive(w0, s.w, one.s.w);
      if e.managed && e.interfaceId == id { DetachOneAccounts(s, f, w0, rs.routerId, e); }
      KeptStillLists(remaining, one.kept, rest, id);
      DetachAccounts(one.s, f, w0, rs, k + 1, remaining + one.kept, err || one.err, id);
    }
  }

  lemma KeptStillLists(a: seq<InterfaceStatus>, kept: seq<InterfaceStatus>, b: seq<InterfaceStatus>, id: Id)
    ensures Lists(a, id) || Lists(kept, id) || Lists(b, id) ==> Lists(a + kept + b, id)
  {
    forall x | x in a || x in kept || x in b ensures x in a + kept + b {
    }
  }

  lemma StandsSplit(nets: seq<NetworkStatus>, a: seq<InterfaceStatus>, b: seq<InterfaceStatus>, network: Id, id: Id)
    ensures StandsFor(nets, a + b, network, id) <==> StandsFor(nets, a, network, id) || StandsFor(nets, b, network, id)
  {
    forall e | e in a || e in b ensures e in a + b {
    }
  }

  /** A pending entry resolves to the one interface the read showed on its network. */
  lemma PendingResolves(s: State, w0: World, router: Id, e: InterfaceStatus, id: Id)
    requires Lawful(w0) && e.interfaceId == NO_ID && id in w0.ifaces
    requires w0.ifaces[id] == Attachment(router, NetworkIdOf(s.st.networks, e.network))
    ensures Resolve(s, Interfaces(w0, router), e) == id && id in Interfaces(w0, router)
  {
    var live, network := Interfaces(w0, router), NetworkIdOf(s.st.networks, e.network);
    assert id in live && live[id] == network;
    var i := LiveOn(live, network);
    assert w0.ifaces[i] == w0.ifaces[id];
  }

  lemma DetachOneStands(s: State, f: Fates, w0: World, router: Id, e: InterfaceStatus, network: Id, id: Id)
    requires Lawful(w0) && Later(w0, s.w) && 0 < id < w0.next && StandsFor(s.st.networks, [e], network, id)
    ensures var one := DetachOne(s, f, router, Interfaces(w0, router), e);
            StandsFor(s.st.networks, one.kept, network, id) || Off(one.s.w, router, network, id)
  {
    var live := Interfaces(w0, router);
    var one := DetachOne(s, f, router, live, e);
    DetachOneLater(s, f, live, router, e);
    LaterTransitive(w0, s.w, one.s.w);
    if Off(w0, router, network, id) {
    } else if e.interfaceId == id {
      DetachOneAccounts(s, f, w0, router, e);
    } else {
      PendingResolves(s, w0, router, e, id);
      ResolvedAccounts(s, f, live, router, e, id);
    }
  }

  lemma ResolvedAccounts(s: State, f: Fates, live: map<Id, Id>, router: Id, e: InterfaceStatus, id: Id)
    requires e.managed && Resolve(s, live, e) == id && id in live && 0 < id < s.w.next
    ensures var one := DetachOne(s, f, router, live, e); Lists(one.kept, id) || Detached(one.s.w, router, id)
  {
    TickLater(s, f);
    var one := DetachOne(s, f, router, live, e);
    if one.kept != [] { assert one.kept[0] in one.kept; }
  }

  lemma {:induction false} DetachStands(
    s: State, f: Fates, w0: World, rs: RouterStatus, k: nat, remaining: seq<InterfaceStatus>, err: bool, network: Id, id: Id)
    requires Lawful(w0) && Later(w0, s.w) && 0 < id < w0.next && k <= |rs.interfaces|
    requires StandsFor(s.st.networks, remaining + rs.interfaces[k..], network, id) || Off(s.w, rs.routerId, network, id)
    ensures var d := DetachFrom(s, f, rs, Interfaces(w0, rs.routerId), k, remaining, err);
            StandsFor(s.st.networks, d.kept, network, id) || Off(d.s.w, rs.routerId, network, id)
    decreases |rs.interfaces| - k
  {
    if k == |rs.interfaces| {
      assert remaining + rs.interfaces[k..] == remaining;
    } else {
      var nets, live, e, rest := s.st.networks, Interfaces(w0, rs.routerId), rs.interfaces[k], rs.interfaces[k + 1..];
      var one := DetachOne(s, f, rs.routerId, live, e);
      assert remaining + rs.interfaces[k..] == remaining + ([e] + rest);
      DetachOneLater(s, f, live, rs.routerId, e);
      LaterTransitive(w0, s.w, one.s.w);
      StandsSplit(nets, remaining, [e] + rest, network, id);
      StandsSplit(nets, [e], rest, network, id);
      if StandsFor(nets, [e], network, id) { DetachOneStands(s, f, w0, rs.routerId, e, network, id); }
      StandsSplit(nets, remaining + one.kept, rest, network, id);
      StandsSplit(nets, remaining, one.kept, network, id);
      DetachStands(one.s, f, w0, rs, k + 1, remaining + one.kept, err || one.err, network, id);
    }
  }

  lemma AttachedAccount(s: State, f: Fates, rs: RouterStatus, network: Id, id: Id)
    requires Lawful(s.w) && 0 < id < s.w.next && rs.routerId != NO_ID && StandsFor(s.st.networks, rs.interfaces, network, id)
    ensures var d := DeleteInterfaces(s, f, rs);
            StandsFor(s.st.networks, d.kept, network, id) || Off(d.s.w, rs.routerId, network, id)
  {
    var g := Get(s, f, Router, rs.routerId);
    TickLater(s, f);
    TickIsLawful(s, f);
    if g.reply.Done? {
      assert [] + rs.interfaces[0..] == rs.interfaces;
      DetachStands(g.s, f, g.s.w, rs, 0, [], false, network, id);
    }
  }

  lemma {:induction false} DetachLater(
    s: State, f: Fates, live: map<Id, Id>, rs: RouterStatus, k: nat, remaining: seq<InterfaceStatus>, err: bool)
    requires k <= |rs.interfaces|
    ensures Later(s.w, DetachFrom(s, f, rs, live, k, remaining, err).s.w)
    decreases |rs.interfaces| - k
  {
    if k < |rs.interfaces| {
      DetachOneLater(s, f, live, rs.routerId, rs.interfaces[k]);
      var one := DetachOne(s, f, rs.routerId, live, rs.interfaces[k]);
      DetachLater(one.s, f, live, rs, k + 1, remaining + one.kept, err || one.err);
      LaterTransitive(s.w, one.s.w, DetachFrom(one.s, f, rs, live, k + 1, remaining + one.kept, err || one.err).s.w);
    }
  }

  /** Without an error every managed entry was dropped. */
  lemma {:induction false} DetachClears(
    s: State, f: Fates, live: map<Id, Id>, rs: RouterStatus, k: nat, remaining: seq<InterfaceStatus>, err: bool)
    requires k <= |rs.interfaces| && (!err ==> !HasManaged(remaining))
    ensures var d := DetachFrom(s, f, rs, live, k, remaining, err); !d.err ==> !HasManaged(d.kept)
    decreases |rs.interfaces| - k
  {
    if k < |rs.interfaces| {
      var one := DetachOne(s, f, rs.routerId, live, rs.interfaces[k]);
      assert !one.err ==> !HasManaged(one.kept);
      DetachClears(one.s, f, live, rs, k + 1, remaining + one.kept, err || one.err);
    }
  }

  lemma MissingIsDetached(w: World, router: Id, id: Id)
    requires Lawful(w) && id < w.next && !IsKind(w.res, router, Router)
    ensures Detached(w, router, id)
  {
  }

  lemma LoopAccounts(s: State, f: Fates, rs: RouterStatus, id: Id)
    requires Lawful(s.w) && 0 < id < s.w.next && Lists(rs.interfaces, id)
    ensures var d := DetachFrom(s, f, rs, Interfaces(s.w, rs.routerId), 0, [], false);
            Lists(d.kept, id) || Detached(d.s.w, rs.routerId, id)
  {
    assert [] + rs.interfaces[0..] == rs.interfaces;
    DetachAccounts(s, f, s.w, rs, 0, [], false, id);
  }

  lemma InterfacesAccount(s: State, f: Fates, rs: RouterStatus, id: Id)
    requires Lawful(s.w) && 0 < id < s.w.next && rs.routerId != NO_ID && Lists(rs.interfaces, id)
    ensures var d := DeleteInterfaces(s, f, rs); Lists(d.kept, id) || Detached(d.s.w, rs.routerId, id)
  {
    var g := Get(s, f, Router, rs.routerId);
    TickLater(s, f);
    TickIsLawful(s, f);
    if g.reply.Done? {
      LoopAccounts(g.s, f, rs, id);
    } else if g.reply.Missing? {
      MissingIsDetached(g.s.w, rs.routerId, id);
    }
  }

  lemma InterfacesLater(s: State, f: Fates, rs: RouterStatus)
    ensures var d := DeleteInterfaces(s, f, rs); Later(s.w, d.s.w) && (!d.err ==> !HasManaged(d.kept))
  {
    var g := Get(s, f, Router, rs.routerId);
    TickLater(s, f);
    var live := Interfaces(g.s.w, rs.routerId);
    DetachLater(g.s, f, live, rs, 0, [], false);
    DetachClears(g.s, f, live, rs, 0, [], false);
    LaterTransitive(s.w, g.s.w, DetachFrom(g.s, f, rs, live, 0, [], false).s.w);
  }

  // ---------------------------------------------------------------------- routers

  /** The books while routers are being worked through. */
  ghost function WithRouters(s: State, rss: seq<RouterStatus>): State {
    s.(st := s.st.(routers := rss))
  }

  /** What one entry vouches for. */
  ghost predicate Vouches(nets: seq<NetworkStatus>, r: RouterStatus, item: Item) {
    match item
    case ARouter(id) => id != NO_ID && r.managed && r.routerId == id
    case AnInterface(router, id) => router != NO_ID && id != NO_ID && r.routerId == router && Lists(r.interfaces, id)
    case AnAttached(router, network, id) =>
      router != NO_ID && id != NO_ID && r.routerId == router && StandsFor(nets, r.interfaces, network, id)
    case _ => false
  }

  /** Items that router entries record. */
  predicate OnRouters(item: Item) {
    item.ARouter? || item.AnInterface? || item.AnAttached?
  }

  lemma RecordedByEntry(s: State, rss: seq<RouterStatus>, item: Item)
    requires OnRouters(item)
    ensures Recorded(s.spec, WithRouters(s, rss).st, item) <==> exists r | r in rss :: Vouches(s.st.networks, r, item)
  {
    var st := WithRouters(s, rss).st;
    if Recorded(s.spec, st, item) {
      match item
      case ARouter(id) =>
        var r :| r in rss && r.managed && r.routerId == id;
        assert Vouches(s.st.networks, r, item);
      case AnInterface(router, id) =>
        var r :| r in rss && r.routerId == router && Lists(r.interfaces, id);
        assert Vouches(s.st.networks, r, item);
      case AnAttached(router, network, id) =>
        var r :| r in rss && r.routerId == router && StandsFor(s.st.networks, r.interfaces, network, id);
        assert Vouches(s.st.networks, r, item);
    }
  }

  /** Once the interface is off, or no entry is left to stand for it, the entry owes nothing more. */
  lemma InterfaceItemAccounts(s: State, f: Fates, rs: RouterStatus, item: Item)
    requires Lawful(s.w) && 0 < item.id < s.w.next && Vouches(s.st.networks, rs, item) && !item.ARouter?
    ensures var d := DeleteInterfaces(s, f, rs);
            Vouches(s.st.networks, rs.(interfaces := d.kept), item) || IsGone(d.s.w, item)
  {
    if item.AnInterface? {
      InterfacesAccount(s, f, rs, item.id);
    } else {
      AttachedAccount(s, f, rs, item.network, item.id);
    }
  }

  lemma RouterEntryAccounts(s: State, f: Fates, rs: RouterStatus, item: Item)
    requires Lawful(s.w) && rs.routerId < s.w.next && 0 < item.id < s.w.next && Vouches(s.st.networks, rs, item)
    ensures var one := DeleteRouter(s, f, rs);
            (exists r | r in one.kept :: Vouches(s.st.networks, r, item)) || IsGone(one.s.w, item)
  {
    var d, one := DeleteInterfaces(s, f, rs), DeleteRouter(s, f, rs);
    InterfacesLater(s, f, rs);
    DeleteLater(d.s, f, Router, rs.routerId);
    DeletedIsGone(d.s, f, Router, rs.routerId);
    if item.ARouter? {
      if one.kept != [] { assert Vouches(s.st.networks, one.kept[0], item); }
    } else {
      InterfaceItemAccounts(s, f, rs, item);
      if IsGone(d.s.w, item) {
        GoneForGood(d.s.w, one.s.w, item);
      } else if one.kept != [] {
        assert one.kept[0] == rs.(interfaces := d.kept);
      } else {
        KeptEntryIsManaged(s.st.networks, rs.(interfaces := d.kept), item);
      }
    }
  }

  /** An entry without managed interfaces vouches for none. */
  lemma KeptEntryIsManaged(nets: seq<NetworkStatus>, r: RouterStatus, item: Item)
    requires Vouches(nets, r, item) && !item.ARouter?
    ensures HasManaged(r.interfaces)
  {
  }

  lemma RouterLater(s: State, f: Fates, rs: RouterStatus)
    ensures var one := DeleteRouter(s, f, rs);
            && Later(s.w, one.s.w) && |one.kept| <= 1
            && (!one.err ==> forall r | r in one.kept :: !r.managed && !HasManaged(r.interfaces))
            && (forall r | r in one.kept :: r.routerId == rs.routerId)
  {
    var d := DeleteInterfaces(s, f, rs);
    InterfacesLater(s, f, rs);
    DeleteLater(d.s, f, Router, rs.routerId);
    LaterTransitive(s.w, d.s.w, Delete(d.s, f, Router, rs.routerId).s.w);
  }

  /** One entry of the list: everything it vouched for stays accounted, and the other entries are not touched. */
  lemma RouterCarries(s: State, f: Fates, pre: seq<RouterStatus>, rs: RouterStatus, post: seq<RouterStatus>)
    requires Lawful(s.w) && rs.routerId < s.w.next
    ensures var one := DeleteRouter(s, f, rs);
            Carries(WithRouters(s, pre + [rs] + post), WithRouters(one.s, pre + one.kept + post))
  {
    var one := DeleteRouter(s, f, rs);
    var was, now := WithRouters(s, pre + [rs] + post), WithRouters(one.s, pre + one.kept + post);
    RouterLater(s, f, rs);
    forall item: Item | item.id < s.w.next && Accounted(was, item) ensures Accounted(now, item) {
      if IsGone(s.w, item) {
        GoneForGood(s.w, one.s.w, item);
      } else if OnRouters(item) {
        RecordedByEntry(s, pre + [rs] + post, item);
        var r :| r in pre + [rs] + post && Vouches(s.st.networks, r, item);
        if r == rs { RouterEntryAccounts(s, f, rs, item); }
        EntryMoves(s.st.networks, pre, rs, one.kept, post, r, item);
        RecordedByEntry(one.s, pre + one.kept + post, item);
      }
    }
  }

  lemma EntryMoves(
    nets: seq<NetworkStatus>, pre: seq<RouterStatus>, rs: RouterStatus, kept: seq<RouterStatus>, post: seq<RouterStatus>,
    r: RouterStatus, item: Item)
    requires r in pre + [rs] + post && Vouches(nets, r, item)
    ensures r != rs || (exists q | q in kept :: Vouches(nets, q, item)) ==> exists q | q in pre + kept + post :: Vouches(nets, q, item)
  {
    var now := pre + kept + post;
    if r != rs {
      assert r in pre || r in post;
      assert r in now;
    } else if exists q | q in kept :: Vouches(nets, q, item) {
      var q :| q in kept && Vouches(nets, q, item);
      assert q in now;
    }
  }

  /** Ids in status were handed out by the API at some time. */
  ghost predicate IssuedRouters(rss: seq<RouterStatus>, next: Id) {
    forall r | r in rss :: r.routerId < next
  }

  ghost predicate IssuedNetworks(ns: seq<NetworkStatus>, next: Id) {
    forall n | n in ns :: n.networkId < next
  }

  ghost predicate Issued(s: State) {
    && s.st.fip < s.w.next && s.st.lbId < s.w.next
    && IssuedRouters(s.st.routers, s.w.next) && IssuedNetworks(s.st.networks, s.w.next)
  }

  /** Nothing of CAPCS's own is on the router list any more. */
  ghost predicate Cleared(rss: seq<RouterStatus>) {
    forall r | r in rss :: !r.managed && !HasManaged(r.interfaces)
  }

  lemma ClearedRecordsNothing(s: State, item: Item)
    requires Cleared(s.st.routers) && OnRouters(item)
    ensures !Recorded(s.spec, s.st, item)
  {
  }

  lemma {:induction false} RoutersCarry(
    s: State, f: Fates, rss: seq<RouterStatus>, k: nat, remaining: seq<RouterStatus>, err: bool)
    requires Lawful(s.w) && k <= |rss| && IssuedRouters(rss, s.w.next) && IssuedRouters(remaining, s.w.next)
    requires !err ==> Cleared(remaining)
    ensures var e := DeleteRoutersFrom(s, f, rss, k, remaining, err);
            && Carries(WithRouters(s, remaining + rss[k..]), e.s) && IssuedRouters(e.s.st.routers, e.s.w.next)
            && (e.flow == Proceed ==> Cleared(e.s.st.routers))
    decreases |rss| - k
  {
    var e := DeleteRoutersFrom(s, f, rss, k, remaining, err);
    if k == |rss| {
      assert remaining + rss[k..] == remaining;
      CarriesAside(WithRouters(s, remaining), e.s);
    } else {
      var rest, one := rss[k + 1..], DeleteRouter(s, f, rss[k]);
      assert remaining + rss[k..] == remaining + [rss[k]] + rest;
      RouterCarries(s, f, remaining, rss[k], rest);
      RouterLater(s, f, rss[k]);
      DeleteRouterIsLawful(s, f, rss[k]);
      RoutersCarry(one.s, f, rss, k + 1, remaining + one.kept, err || one.err);
      CarriesTransitive(
        WithRouters(s, remaining + [rss[k]] + rest), WithRouters(one.s, remaining + one.kept + rest), e.s);
    }
  }

  // --------------------------------------------------------------------- networks

  ghost function WithNetworks(s: State, ns: seq<NetworkStatus>): State {
    s.(st := s.st.(networks := ns))
  }

  ghost predicate NoManagedNetwork(ns: seq<NetworkStatus>) {
    forall n | n in ns :: !n.managed
  }

  /** An entry leaves the list: it had no id, or the network is gone. */
  lemma DropCarries(s: State, t: State, pre: seq<NetworkStatus>, n: NetworkStatus, post: seq<NetworkStatus>)
    requires t.spec == s.spec && t.st == s.st && Later(s.w, t.w) && Cleared(s.st.routers)
    requires n.networkId == NO_ID || Gone(t.w, Network, n.networkId)
    ensures Carries(WithNetworks(s, pre + [n] + post), WithNetworks(t, pre + post))
  {
    var was, now := WithNetworks(s, pre + [n] + post), WithNetworks(t, pre + post);
    forall item: Item | item.id < s.w.next && Accounted(was, item) ensures Accounted(now, item) {
      if IsGone(s.w, item) {
        GoneForGood(s.w, t.w, item);
      } else if item.ANetwork? {
        var m :| m in pre + [n] + post && m.managed && m.networkId == item.id;
        if m != n { assert m in pre + post; }
      } else if OnRouters(item) {
        ClearedRecordsNothing(was, item);
      }
    }
  }

  lemma NetworksAside(s: State, t: State, ns: seq<NetworkStatus>)
    requires t.spec == s.spec && t.st == s.st && Later(s.w, t.w)
    ensures Carries(WithNetworks(s, ns), WithNetworks(t, ns))
  {
    CarriesAside(WithNetworks(s, ns), WithNetworks(t, ns));
  }

  lemma NetworkCarries(s: State, f: Fates, pre: seq<NetworkStatus>, n: NetworkStatus, post: seq<NetworkStatus>)
    requires 0 < n.networkId < s.w.next && Cleared(s.st.routers)
    ensures var c := Delete(s, f, Network, n.networkId);
            var was := WithNetworks(s, pre + [n] + post);
            && Later(s.w, c.s.w)
            && Carries(was, WithNetworks(c.s, pre + [n] + post))
            && (c.reply.Done? || c.reply.Missing? ==> Carries(was, WithNetworks(c.s, pre + post)))
  {
    var c := Delete(s, f, Network, n.networkId);
    DeleteLater(s, f, Network, n.networkId);
    DeletedIsGone(s, f, Network, n.networkId);
    NetworksAside(s, c.s, pre + [n] + post);
    if c.reply.Done? || c.reply.Missing? { DropCarries(s, c.s, pre, n, post); }
  }

  /** The pool-members exit leaves the list, and so the books, as they were. */
  lemma {:induction false} NetworksLater(
    s: State, f: Fates, ns: seq<NetworkStatus>, k: nat, remaining: seq<NetworkStatus>, err: bool)
    requires k <= |ns|
    ensures var e := DeleteNetworksFrom(s, f, ns, k, remaining, err);
            Later(s.w, e.s.w) && (e.flow == Requeue ==> e.s.st == s.st)
    decreases |ns| - k
  {
    var e := DeleteNetworksFrom(s, f, ns, k, remaining, err);
    if k == |ns| {
      AsideLater(s.w, e.s.w);
    } else if !ns[k].managed {
      NetworksLater(s, f, ns, k + 1, remaining + [ns[k]], err);
    } else if ns[k].networkId == NO_ID {
      NetworksLater(s, f, ns, k + 1, remaining, err);
    } else {
      var c := Delete(s, f, Network, ns[k].networkId);
      DeleteLater(s, f, Network, ns[k].networkId);
      NetworksLater(c.s, f, ns, k + 1, remaining, err);
      NetworksLater(c.s, f, ns, k + 1, remaining + [ns[k]], true);
      LaterTransitive(s.w, c.s.w, e.s.w);
    }
  }

  /** How the network loop ends, from any point on. */
  ghost predicate NetworksCarried(s: State, all: seq<NetworkStatus>, e: Stage) {
    && (e.flow != Requeue ==> Carries(WithNetworks(s, all), e.s) && IssuedNetworks(e.s.st.networks, e.s.w.next))
    && (e.flow == Proceed ==> NoManagedNetwork(e.s.st.networks))
  }

  lemma CarriedOn(s: State, all: seq<NetworkStatus>, t: State, left: seq<NetworkStatus>, e: Stage)
    requires Carries(WithNetworks(s, all), WithNetworks(t, left)) && NetworksCarried(t, left, e)
    ensures NetworksCarried(s, all, e)
  {
    if e.flow != Requeue { CarriesTransitive(WithNetworks(s, all), WithNetworks(t, left), e.s); }
  }

  lemma {:induction false} NetworksCarry(
    s: State, f: Fates, ns: seq<NetworkStatus>, k: nat, remaining: seq<NetworkStatus>, err: bool)
    requires k <= |ns| && IssuedNetworks(ns, s.w.next) && IssuedNetworks(remaining, s.w.next) && Cleared(s.st.routers)
    requires !err ==> NoManagedNetwork(remaining)
    ensures NetworksCarried(s, remaining + ns[k..], DeleteNetworksFrom(s, f, ns, k, remaining, err))
    decreases |ns| - k, 1
  {
    if k == |ns| {
      assert remaining + ns[k..] == remaining;
      CarriesAside(WithNetworks(s, remaining), DeleteNetworksFrom(s, f, ns, k, remaining, err).s);
    } else {
      var n, rest := ns[k], ns[k + 1..];
      assert remaining + ns[k..] == remaining + [n] + rest;
      if !n.managed {
        NetworksCarry(s, f, ns, k + 1, remaining + [n], err);
      } else if n.networkId == NO_ID {
        DropCarries(s, s, remaining, n, rest);
        NetworksCarry(s, f, ns, k + 1, remaining, err);
        CarriedOn(s, remaining + [n] + rest, s, remaining + rest, DeleteNetworksFrom(s, f, ns, k, remaining, err));
      } else {
        NetworkDeletionCarries(s, f, ns, k, remaining, err);
      }
    }
  }

  lemma {:induction false} NetworkDeletionCarries(
    s: State, f: Fates, ns: seq<NetworkStatus>, k: nat, remaining: seq<NetworkStatus>, err: bool)
    requires k < |ns| && IssuedNetworks(ns, s.w.next) && IssuedNetworks(remaining, s.w.next) && Cleared(s.st.routers)
    requires (!err ==> NoManagedNetwork(remaining)) && ns[k].managed && ns[k].networkId != NO_ID
    ensures NetworksCarried(s, remaining + [ns[k]] + ns[k + 1..], DeleteNetworksFrom(s, f, ns, k, remaining, err))
    decreases |ns| - k, 0
  {
    var n, rest, e := ns[k], ns[k + 1..], DeleteNetworksFrom(s, f, ns, k, remaining, err);
    NetworkCarries(s, f, remaining, n, rest);
    var c := Delete(s, f, Network, n.networkId);
    if c.reply.Done? || c.reply.Missing? {
      NetworksCarry(c.s, f, ns, k + 1, remaining, err);
      CarriedOn(s, remaining + [n] + rest, c.s, remaining + rest, e);
    } else if !c.reply.Refused? {
      NetworksCarry(c.s, f, ns, k + 1, remaining + [n], true);
      CarriedOn(s, remaining + [n] + rest, c.s, remaining + [n] + rest, e);
    }
  }

  lemma NetworkStageCarries(s: State, f: Fates)
    requires IssuedNetworks(s.st.networks, s.w.next) && Cleared(s.st.routers)
    ensures var e := DeleteNetworks(s, f);
            && Carries(s, e.s) && IssuedNetworks(e.s.st.networks, e.s.w.next)
            && (e.flow == Proceed ==> NoManagedNetwork(e.s.st.networks))
  {
    var ns := s.st.networks;
    assert [] + ns[0..] == ns;
    NetworksLater(s, f, ns, 0, [], false);
    NetworksCarry(s, f, ns, 0, [], false);
    assert WithNetworks(s, ns) == s;
    if DeleteNetworks(s, f).flow == Requeue { CarriesAside(s, DeleteNetworks(s, f).s); }
  }

  // ---------------------------------------------------------------- server groups

  lemma GroupsLater(s: State, f: Fates, owned: set<Id>, groups: seq<ServerGroup>, k: nat)
    requires k <= |groups|
    ensures Later(s.w, DeleteGroupsFrom(s, f, owned, groups, k).s.w)
    decreases |groups| - k
  {
    if k < |groups| && !HoldsOwned(groups[k], owned) {
      if groups[k].servers != [] {
        GroupsLater(s, f, owned, groups, k + 1);
      } else {
        TickLater(s, f);
        var c := DeleteGroup(s, f, groups[k].id);
        assert Later(s.w, c.s.w);
        if c.reply.Done? || c.reply.Missing? {
          GroupsLater(c.s, f, owned, groups, k + 1);
          LaterTransitive(s.w, c.s.w, DeleteGroupsFrom(c.s, f, owned, groups, k + 1).s.w);
        }
      }
    }
  }

  lemma ServerGroupsCarry(s: State, f: Fates, machines: seq<Machine>)
    ensures Carries(s, DeleteServerGroups(s, f, machines).s)
  {
    TickLater(s, f);
    var t := Tick(s, f);
    TickLater(t, f);
    var u := Tick(t, f);
    LaterTransitive(s.w, t.w, u.w);
    GroupsLater(u, f, OwnedServers(machines), OwnedGroups(u.w.groups), 0);
    LaterTransitive(s.w, u.w, DeleteGroupsFrom(u, f, OwnedServers(machines), OwnedGroups(u.w.groups), 0).s.w);
    CarriesAside(s, DeleteServerGroups(s, f, machines).s);
  }

  // ------------------------------------------------------------------- whole passes

  ghost predicate Fit(s: State) {
    Lawful(s.w) && Issued(s)
  }

  /** From `s` the teardown went on to `e` without losing track; at the end nothing is on the books. */
  ghost predicate TornDown(s: State, e: Stage) {
    && Carries(s, e.s) && Fit(e.s)
    && (e.flow == Proceed ==> forall item :: !Recorded(e.s.spec, e.s.st, item))
  }

  lemma TornDownLater(s: State, t: State, e: Stage)
    requires Carries(s, t) && TornDown(t, e)
    ensures TornDown(s, e)
  {
    CarriesTransitive(s, t, e.s);
  }

  lemma NothingRecorded(s: State)
    requires Cleared(s.st.routers) && NoManagedNetwork(s.st.networks)
    requires (LbEnabled(s.spec) ==> s.st.lbId == NO_ID) && (OwnsFip(s.spec) ==> s.st.fip == NO_ID)
    ensures forall item :: !Recorded(s.spec, s.st, item)
  {
    forall item ensures !Recorded(s.spec, s.st, item) {
      if OnRouters(item) { ClearedRecordsNothing(s, item); }
    }
  }

  lemma TornDownFromRouters(r: Stage, f: Fates)
    requires Fit(r.s)
    requires r.flow == Proceed ==>
               && Cleared(r.s.st.routers)
               && (LbEnabled(r.s.spec) ==> r.s.st.lbId == NO_ID) && (OwnsFip(r.s.spec) ==> r.s.st.fip == NO_ID)
    ensures TornDown(r.s, DeleteAfterRouters(r, f))
  {
    if r.flow != Proceed {
      CarriesAside(r.s, r.s);
    } else {
      NetworkStageCarries(r.s, f);
      DeleteNetworksIsLawful(r.s, f, r.s.st.networks, 0, [], false);
      var n := DeleteNetworks(r.s, f);
      if n.flow == Proceed {
        NothingRecorded(n.s);
        var t := n.s.(finalizer := false);
        CarriesAside(n.s, t);
        CarriesTransitive(r.s, n.s, t);
      }
    }
  }

  lemma TornDownFromGroups(g: Stage, f: Fates)
    requires Fit(g.s)
    requires g.flow == Proceed ==>
               (LbEnabled(g.s.spec) ==> g.s.st.lbId == NO_ID) && (OwnsFip(g.s.spec) ==> g.s.st.fip == NO_ID)
    ensures TornDown(g.s, DeleteAfterGroups(g, f))
  {
    if g.flow != Proceed {
      CarriesAside(g.s, g.s);
    } else {
      var rss := g.s.st.routers;
      assert [] + rss[0..] == rss;
      assert WithRouters(g.s, rss) == g.s;
      RoutersCarry(g.s, f, rss, 0, [], false);
      DeleteRoutersIsLawful(g.s, f, rss, 0, [], false);
      var r := DeleteRouters(g.s, f);
      TornDownFromRouters(r, f);
      TornDownLater(g.s, r.s, DeleteAfterRouters(r, f));
    }
  }

  lemma TornDownFromLb(lb: Stage, f: Fates, kube: Kube)
    requires Fit(lb.s)
    requires lb.flow == Proceed ==>
               (LbEnabled(lb.s.spec) ==> lb.s.st.lbId == NO_ID) && (OwnsFip(lb.s.spec) ==> lb.s.st.fip == NO_ID)
    ensures TornDown(lb.s, DeleteAfterLb(lb, f, kube))
  {
    if lb.flow != Proceed {
      CarriesAside(lb.s, lb.s);
    } else {
      ServerGroupsCarry(lb.s, f, kube.machines);
      ServerGroupsAreLawful(lb.s, f, kube.machines);
      var g := DeleteServerGroups(lb.s, f, kube.machines);
      TornDownFromGroups(g, f);
      TornDownLater(lb.s, g.s, DeleteAfterGroups(g, f));
    }
  }

  lemma TornDownFromFip(p: Stage, f: Fates, kube: Kube)
    requires Fit(p.s)
    requires p.flow == Proceed ==> OwnsFip(p.s.spec) ==> p.s.st.fip == NO_ID
    ensures TornDown(p.s, DeleteAfterFip(p, f, kube))
  {
    if p.flow != Proceed {
      CarriesAside(p.s, p.s);
    } else {
      LbCarries(p.s, f);
      DeleteIsLawful(p.s, f, LoadBalancer, p.s.st.lbId);
      var lb := DeleteLoadBalancer(p.s, f);
      assert lb.flow == Proceed && LbEnabled(lb.s.spec) ==> !Recorded(lb.s.spec, lb.s.st, ALoadBalancer(lb.s.st.lbId));
      TornDownFromLb(lb, f, kube);
      TornDownLater(p.s, lb.s, DeleteAfterLb(lb, f, kube));
    }
  }

  lemma DeletePassTearsDown(s: State, f: Fates, kube: Kube)
    requires Fit(s)
    ensures TornDown(s, ReconcileDelete(s, f, kube))
  {
    FipCarries(s, f);
    DeleteIsLawful(s, f, FloatingIp, s.st.fip);
    var p := DeleteFloatingIp(s, f);
    assert p.flow == Proceed && OwnsFip(p.s.spec) ==> !Recorded(p.s.spec, p.s.st, AFloatingIp(p.s.st.fip));
    TornDownFromFip(p, f, kube);
    TornDownLater(s, p.s, DeleteAfterFip(p, f, kube));
  }

  // ---------------------------------------------------------------- delete passes

  datatype Attempt = Attempt(f: Fates, kube: Kube)

  /** Reconciles of an object that is being deleted, one after another. */
  ghost function Attempts(s: State, passes: seq<Attempt>): State {
    if passes == [] then s else
    var k := |passes| - 1;
    Reconcile(Attempts(s, passes[..k]), passes[k].f, passes[k].kube)
  }

  /** The finalizer goes exactly with a pass that went through. */
  lemma FinalizerGoesWithTheLastEntry(s: State, f: Fates, kube: Kube)
    ensures var e := ReconcileDelete(s, f, kube); (!e.s.finalizer <==> e.flow == Proceed || !s.finalizer) && e.s.deleting == s.deleting
  {
    var p := DeleteFloatingIp(s, f);
    var lb := DeleteLoadBalancer(p.s, f);
    var g := DeleteServerGroups(lb.s, f, kube.machines);
    var r := DeleteRouters(g.s, f);
  }

  /** The finalizer went, if it was there, only when all that was recorded was gone. */
  ghost predicate Finished(s: State, t: State) {
    s.finalizer && !t.finalizer ==>
      forall item: Item | item.id < s.w.next && Recorded(s.spec, s.st, item) :: IsGone(t.w, item)
  }

  lemma {:induction false} AttemptsCarry(s: State, passes: seq<Attempt>)
    requires Fit(s) && s.deleting
    ensures var t := Attempts(s, passes); Carries(s, t) && Fit(t) && Finished(s, t) && t.deleting
    decreases |passes|
  {
    if passes == [] {
      CarriesAside(s, s);
    } else {
      var k := |passes| - 1;
      AttemptsCarry(s, passes[..k]);
      PassCarries(s, Attempts(s, passes[..k]), passes[k]);
    }
  }

  lemma PassCarries(s: State, t: State, a: Attempt)
    requires Carries(s, t) && Fit(t) && Finished(s, t) && t.deleting
    ensures var v := Reconcile(t, a.f, a.kube); Carries(s, v) && Fit(v) && Finished(s, v) && v.deleting
  {
    var u := t.(clock := 0);
    var e := ReconcileDelete(u, a.f, a.kube);
    CarriesAside(t, u);
    DeletePassTearsDown(u, a.f, a.kube);
    FinalizerGoesWithTheLastEntry(u, a.f, a.kube);
    CarriesTransitive(t, u, e.s);
    CarriesTransitive(s, t, e.s);
    NowFinished(s, t, e);
  }

  lemma NowFinished(s: State, t: State, e: Stage)
    requires Finished(s, t) && Later(t.w, e.s.w) && Carries(s, e.s)
    requires t.finalizer && !e.s.finalizer ==> forall item :: !Recorded(e.s.spec, e.s.st, item)
    ensures Finished(s, e.s)
  {
    if s.finalizer && !e.s.finalizer {
      forall item: Item | item.id < s.w.next && Recorded(s.spec, s.st, item) ensures IsGone(e.s.w, item) {
        if t.finalizer {
          assert Accounted(s, item);
        } else {
          GoneForGood(t.w, e.s.w, item);
        }
      }
    }
  }

  /** When the finalizer is gone, so is everything status recorded as CAPCS's own when deletion began. */
  lemma NothingRecordedSurvives(s: State, passes: seq<Attempt>, item: Item)
    requires Fit(s) && s.finalizer && s.deleting && !Attempts(s, passes).finalizer
    requires Recorded(s.spec, s.st, item) && item.id < s.w.next
    ensures IsGone(Attempts(s, passes).w, item)
  {
    AttemptsCarry(s, passes);
  }

  /** A managed entry without an interface id yet, and the attachment it stands for. */
  ghost predicate Pending(st: Status, a: Attachment) {
    exists r | r in st.routers :: exists e | e in r.interfaces :: IsPending(st.networks, r.routerId, e, a)
  }

  ghost predicate IsPending(nets: seq<NetworkStatus>, router: Id, e: InterfaceStatus, a: Attachment) {
    e.managed && e.interfaceId == NO_ID && a == Attachment(router, NetworkIdOf(nets, e.network))
  }

  /** An attach whose answer was lost: the interface on the attachment is off it when the finalizer is gone. */
  lemma NoPendingInterfaceSurvives(s: State, passes: seq<Attempt>, a: Attachment, iface: Id)
    requires Fit(s) && s.finalizer && s.deleting && !Attempts(s, passes).finalizer
    requires Pending(s.st, a) && iface in s.w.ifaces && s.w.ifaces[iface] == a
    ensures var w := Attempts(s, passes).w; !(iface in w.ifaces && w.ifaces[iface] == a)
  {
    assert Recorded(s.spec, s.st, AnAttached(a.router, a.network, iface));
    NothingRecordedSurvives(s, passes, AnAttached(a.router, a.network, iface));
  }

  /** With a load balancer its pool, listener and monitor are gone, and with a network its subnet. */
  lemma NothingBelowSurvives(s: State, t: State, id: Id, child: Id)
    requires Lawful(t.w) && Later(s.w, t.w) && Lawful(s.w) && id != NO_ID
    requires id in s.w.res && child in s.w.res && Below(s.w.res, child, id) && Gone(t.w, s.w.res[id].kind, id)
    ensures child !in t.w.res
  {
    var p := s.w.res[child].parent;
    assert child in t.w.res ==> ParentOk(t.w.res, t.w.res[child].kind, t.w.res[child].parent);
    assert p in t.w.res ==> ParentOk(t.w.res, t.w.res[p].kind, t.w.res[p].parent);
  }
}
