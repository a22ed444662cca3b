/**
 What hangs below what, in every run whatever others do to the cloud: a pool, listener or health
 monitor of CAPCS's is below the load balancer status records, a subnet below its network. With
 the recorded parents gone the children status records are gone as well.
 */
module Family {
  import opened Types
  import opened Cloud
  import opened Ensure
  import opened History
  import opened Networks
  import opened Routers
  import opened LoadBalancer
  import opened Members
  import opened FloatingIps
  import opened Ownership
  import opened OwnershipTeardown
  import opened AtMostOne
  import opened MemberConvergence
  import opened StatusShape

  /** Tagged resources of the kind all hang below `parent`. */
  ghost predicate Hang(res: Resources, kind: Kind, parent: Id) {
    forall i | i in res && res[i].kind == kind && res[i].tag.Some? :: res[i].parent == parent
  }

  /** Handed out, by a create of CAPCS's own if at all. */
  ghost predicate Mine(w: World, id: Id) {
    id < w.next && (id == NO_ID || id in w.made)
  }

  /** An id of CAPCS's own, and the tagged resource while that lives. */
  ghost predicate Own(w: World, id: Id, kind: Kind, tag: Tag) {
    Mine(w, id) && (id in w.res ==> w.res[id].kind == kind && w.res[id].tag == Some(tag))
  }

  ghost predicate PartsHang(w: World, st: Status) {
    && Mine(w, st.lbId) && Hang(w.res, Pool, st.lbId)
    && Hang(w.res, Listener, st.poolId) && Hang(w.res, Monitor, st.poolId)
    && Own(w, st.poolId, Pool, Owned) && Own(w, st.listenerId, Listener, Owned) && Own(w, st.monitorId, Monitor, Owned)
  }

  /** A tagged subnet is on the network of the same tag. */
  ghost predicate SubnetsHang(res: Resources) {
    forall i | i in res && res[i].kind == Subnet && res[i].tag.Some? ::
      res[i].parent in res && res[res[i].parent].tag == res[i].tag
  }

  ghost predicate NetworkHangs(w: World, n: NetworkStatus) {
    && n.networkId < w.next && n.subnetId < w.next
    && (n.managed ==>
          && Own(w, n.networkId, Network, Named(n.name)) && Own(w, n.subnetId, Subnet, Named(n.name))
          && (n.subnetId in w.res ==> w.res[n.subnetId].parent == n.networkId))
  }

  ghost predicate NetworksHang(w: World, ns: seq<NetworkStatus>) {
    forall n | n in ns :: NetworkHangs(w, n)
  }

  /** Tags are CAPCS's work. */
  ghost predicate Signed(w: World) {
    forall i | i in w.res && w.res[i].tag.Some? :: i in w.made
  }

  ghost predicate RoutersMine(w: World, rss: seq<RouterStatus>) {
    forall r | r in rss :: r.routerId < w.next && (r.managed ==> Mine(w, r.routerId))
  }

  ghost predicate FipMine(w: World, spec: Spec, fip: Id) {
    fip < w.next && (OwnsFip(spec) ==> Mine(w, fip))
  }

  ghost predicate Related(s: State) {
    && Lawful(s.w) && Signed(s.w) && PartsHang(s.w, s.st) && SubnetsHang(s.w.res) && NetworksHang(s.w, s.st.networks)
    && RoutersMine(s.w, s.st.routers) && FipMine(s.w, s.spec, s.st.fip)
  }

  // ---------------------------------------------------------------- time passes

  lemma NetworksNewer(w: World, v: World, ns: seq<NetworkStatus>)
    requires NetworksHang(w, ns) && Newer(w, v)
    ensures NetworksHang(v, ns)
  {
    forall n | n in ns ensures NetworkHangs(v, n) { assert NetworkHangs(w, n); }
  }

  lemma SubnetsLater(w: World, v: World)
    requires Lawful(w) && Lawful(v) && SubnetsHang(w.res) && Later(w, v)
    ensures SubnetsHang(v.res)
  {
    forall i | i in v.res && v.res[i].kind == Subnet && v.res[i].tag.Some?
      ensures v.res[i].parent in v.res && v.res[v.res[i].parent].tag == v.res[i].tag
    {
      assert w.res[i] == v.res[i];
      assert ParentOk(v.res, Subnet, v.res[i].parent);
    }
  }

  lemma PartsLater(w: World, v: World, st: Status)
    requires PartsHang(w, st) && Later(w, v)
    ensures PartsHang(v, st)
  {
  }

  /** Whatever does not create a child keeps the family together. */
  lemma FamilyLater(s: State, t: State)
    requires Related(s) && Later(s.w, t.w) && Lawful(t.w) && t.st == s.st && OwnsFip(t.spec) == OwnsFip(s.spec)
    ensures Related(t)
  {
    PartsLater(s.w, t.w, s.st);
    SubnetsLater(s.w, t.w);
    NetworksNewer(s.w, t.w, s.st.networks);
  }

  /** With the parent not there nothing hangs below it, and so everything below any other. */
  lemma NoneLeft(res: Resources, kind: Kind, above: Kind, parent: Id, other: Id)
    requires Hang(res, kind, parent) && !IsKind(res, parent, above)
    requires forall i | i in res :: ParentOk(res, res[i].kind, res[i].parent)
    requires (kind == Pool && above == LoadBalancer) || ((kind == Listener || kind == Monitor) && above == Pool)
    ensures Hang(res, kind, other)
  {
  }

  // ---------------------------------------------------------------- obtaining one

  /** Of tagged children only ones like this are new. */
  ghost predicate Bears(w: World, v: World, r: Resource) {
    Newer(w, v) && forall i | i in v.res && v.res[i].tag.Some? && IsChild(v.res[i].kind) ::
      (i in w.res && w.res[i] == v.res[i]) || v.res[i] == r
  }

  lemma CreateBears(s: State, f: Fates, kind: Kind, tag: Tag, parent: Id)
    ensures Bears(s.w, Create(s, f, kind, tag, parent).s.w, Resource(kind, Some(tag), parent))
  {
    CreateIsNewer(s, f, kind, tag, parent);
    TickLater(s, f);
  }

  lemma CreateMissingBears(e: Ensured, f: Fates, kind: Kind, tag: Tag, parent: Id)
    ensures Bears(e.s.w, CreateMissing(e, f, kind, tag, parent).s.w, Resource(kind, Some(tag), parent))
  {
    CreateBears(e.s, f, kind, tag, parent);
  }

  lemma ObtainBears(s: State, f: Fates, current: Id, kind: Kind, tag: Tag, parent: Id)
    ensures Bears(s.w, Obtain(s, f, current, kind, tag, parent).s.w, Resource(kind, Some(tag), parent))
  {
    EnsureLater(s, f, current, kind, tag);
    var e := EnsureResource(s, f, current, kind, tag);
    CreateMissingBears(e, f, kind, tag, parent);
    BearsAfter(s.w, e.s.w, CreateMissing(e, f, kind, tag, parent).s.w, Resource(kind, Some(tag), parent));
  }

  lemma BearsAfter(u: World, v: World, w: World, r: Resource)
    requires Later(u, v) && Bears(v, w, r)
    ensures Bears(u, w, r)
  {
    NewerTransitive(u, v, w);
  }

  /** What ensureResource hands out carries the tag. */
  lemma EnsuredIsTagged(s: State, f: Fates, current: Id, kind: Kind, tag: Tag)
    requires Lawful(s.w) && Own(s.w, current, kind, tag)
    ensures var e := EnsureResource(s, f, current, kind, tag);
            !e.err && e.id != NO_ID ==> Bearing(e.s.w, e.id, kind, tag)
  {
    TickLater(s, f);
    var e := EnsureResource(s, f, current, kind, tag);
    if !e.err && e.id != NO_ID && e.id != current { assert e.id in Tagged(e.s.w, kind, tag); }
  }

  ghost predicate Bearing(w: World, id: Id, kind: Kind, tag: Tag) {
    id in w.res && w.res[id].kind == kind && w.res[id].tag == Some(tag)
  }

  lemma CreatedBearing(s: State, f: Fates, kind: Kind, tag: Tag, parent: Id)
    ensures var c := Create(s, f, kind, tag, parent); c.reply.Done? ==> Bearing(c.s.w, c.reply.id, kind, tag)
  {
  }

  lemma SuppliedBearing(e: Ensured, f: Fates, kind: Kind, tag: Tag, parent: Id)
    requires !e.err && e.id != NO_ID ==> Bearing(e.s.w, e.id, kind, tag)
    ensures var o := CreateMissing(e, f, kind, tag, parent); o.flow == Proceed ==> Bearing(o.s.w, o.id, kind, tag)
  {
    CreatedBearing(e.s, f, kind, tag, parent);
  }

  lemma ObtainedBearing(s: State, f: Fates, current: Id, kind: Kind, tag: Tag, parent: Id)
    requires Lawful(s.w) && Own(s.w, current, kind, tag)
    ensures var o := Obtain(s, f, current, kind, tag, parent); o.flow == Proceed ==> Bearing(o.s.w, o.id, kind, tag)
  {
    EnsuredIsTagged(s, f, current, kind, tag);
    SuppliedBearing(EnsureResource(s, f, current, kind, tag), f, kind, tag, parent);
  }

  lemma ByTagLater(s: State, f: Fates, kind: Kind, tag: Tag)
    ensures Later(s.w, ByTag(s, f, kind, tag).s.w)
  {
    TickLater(s, f);
  }

  lemma MissingIsGone(s: State, f: Fates, current: Id, kind: Kind, tag: Tag)
    requires 0 < current < s.w.next
    ensures var e := EnsureResource(s, f, current, kind, tag);
            !e.err && e.id != current ==> Gone(e.s.w, kind, current)
  {
    TickLater(s, f);
    var g := Get(s, f, kind, current);
    if g.reply.Missing? {
      ByTagLater(g.s, f, kind, tag);
      GoneStays(g.s.w, ByTag(g.s, f, kind, tag).s.w, kind, current);
    }
  }

  /** When ensureResource does not hand out the recorded resource, that was gone. */
  lemma NotEnsuredIsGone(s: State, f: Fates, current: Id, kind: Kind, tag: Tag)
    requires Lawful(s.w) && current < s.w.next
    ensures var e := EnsureResource(s, f, current, kind, tag);
            !e.err && e.id != current ==> Gone(e.s.w, kind, current)
  {
    if current == NO_ID {
      EnsureIsLawful(s, f, current, kind, tag);
    } else {
      MissingIsGone(s, f, current, kind, tag);
    }
  }

  lemma StaysGone(e: Ensured, f: Fates, kind: Kind, tag: Tag, parent: Id, id: Id)
    requires Gone(e.s.w, kind, id)
    ensures Gone(CreateMissing(e, f, kind, tag, parent).s.w, kind, id)
  {
    CreateIsNewer(e.s, f, kind, tag, parent);
  }

  lemma NotObtainedIsGone(s: State, f: Fates, current: Id, kind: Kind, tag: Tag, parent: Id)
    requires Lawful(s.w) && current < s.w.next
    ensures var o := Obtain(s, f, current, kind, tag, parent); o.looked && o.id != current ==> Gone(o.s.w, kind, current)
  {
    NotEnsuredIsGone(s, f, current, kind, tag);
    ObtainIsLawful(s, f, current, kind, tag, parent);
    var e := EnsureResource(s, f, current, kind, tag);
    if Gone(e.s.w, kind, current) { StaysGone(e, f, kind, tag, parent, current); }
  }

  // -------------------------------------------------------------------- networks

  lemma SubnetsBear(w: World, v: World, tag: Tag, parent: Id)
    requires Lawful(w) && Lawful(v) && SubnetsHang(w.res) && Bears(w, v, Resource(Subnet, Some(tag), parent))
    requires Bearing(w, parent, Network, tag)
    ensures SubnetsHang(v.res)
  {
    forall i | i in v.res && v.res[i].kind == Subnet && v.res[i].tag.Some?
      ensures v.res[i].parent in v.res && v.res[v.res[i].parent].tag == v.res[i].tag
    {
      assert ParentOk(v.res, Subnet, v.res[i].parent);
      assert i in w.res && w.res[i] == v.res[i] ==> ParentOk(w.res, Subnet, v.res[i].parent);
    }
  }

  /** The subnet of that tag is on the network of that tag: one that was there as well as a new one. */
  lemma SubnetIsBelow(w: World, v: World, tag: Tag, parent: Id, id: Id)
    requires Lawful(w) && SubnetsHang(w.res) && Bears(w, v, Resource(Subnet, Some(tag), parent))
    requires Bearing(w, parent, Network, tag) && Bearing(v, id, Subnet, tag)
    ensures v.res[id].parent == parent
  {
    if id in w.res && w.res[id] == v.res[id] { assert ParentOk(w.res, Subnet, w.res[id].parent); }
  }

  lemma PartsBearSubnet(w: World, v: World, st: Status, tag: Tag, parent: Id)
    requires PartsHang(w, st) && Bears(w, v, Resource(Subnet, Some(tag), parent))
    ensures PartsHang(v, st)
  {
  }

  lemma SubnetKeepsFamily(s: State, f: Fates, current: Id, tag: Tag, parent: Id)
    requires Related(s) && Bearing(s.w, parent, Network, tag) && Own(s.w, current, Subnet, tag)
    ensures var o := Obtain(s, f, current, Subnet, tag, parent);
            && Related(o.s) && Newer(s.w, o.s.w)
            && (o.flow == Proceed ==> Bearing(o.s.w, o.id, Subnet, tag) && o.s.w.res[o.id].parent == parent)
  {
    var o := Obtain(s, f, current, Subnet, tag, parent);
    ObtainBears(s, f, current, Subnet, tag, parent);
    ObtainIsLawful(s, f, current, Subnet, tag, parent);
    ObtainedBearing(s, f, current, Subnet, tag, parent);
    SubnetsBear(s.w, o.s.w, tag, parent);
    PartsBearSubnet(s.w, o.s.w, s.st, tag, parent);
    NetworksNewer(s.w, o.s.w, s.st.networks);
    if o.flow == Proceed { SubnetIsBelow(s.w, o.s.w, tag, parent, o.id); }
  }

  lemma SetNetworkKeepsFamily(s: State, n: NetworkStatus)
    requires Related(s) && NetworkHangs(s.w, n)
    ensures Related(SetNetwork(s, n))
  {
    forall m | m in PutNetwork(s.st.networks, n) ensures NetworkHangs(s.w, m) {
      PutNetworkElements(s.st.networks, n, m);
    }
  }

  /** The ids a managed network starts from. */
  lemma StartingIds(s: State, n: NetworkSpec)
    requires Related(s) && Shaped(s) && n in s.spec.networks && n.uuid == NO_ID
    ensures var e := FindNetwork(s.st.networks, n.name);
            && Own(s.w, if e.Some? then e.value.networkId else NO_ID, Network, Named(n.name))
            && Own(s.w, if e.Some? then e.value.subnetId else NO_ID, Subnet, Named(n.name))
  {
    var e := FindNetwork(s.st.networks, n.name);
    if e.Some? {
      FoundNetworkIn(s.st.networks, n.name);
      assert NetworkHangs(s.w, e.value);
      var m :| m in s.spec.networks && m.name == e.value.name && e.value.managed == (m.uuid == NO_ID);
      var j :| 0 <= j < |s.spec.networks| && s.spec.networks[j] == m;
      var k :| 0 <= k < |s.spec.networks| && s.spec.networks[k] == n;
    }
  }

  lemma AfterNetworkKeepsFamily(s: State, f: Fates, n: NetworkSpec, network: Id, subnetId: Id)
    requires Related(s) && Bearing(s.w, network, Network, Named(n.name)) && Own(s.w, subnetId, Subnet, Named(n.name))
    ensures var sub := Obtain(s, f, subnetId, Subnet, Named(n.name), network);
            && Related(sub.s)
            && (sub.flow == Proceed ==> Related(SetNetwork(sub.s, NetworkStatus(n.name, network, sub.id, n.cidr, true))))
  {
    SubnetKeepsFamily(s, f, subnetId, Named(n.name), network);
    var sub := Obtain(s, f, subnetId, Subnet, Named(n.name), network);
    if sub.flow == Proceed { SetNetworkKeepsFamily(sub.s, NetworkStatus(n.name, network, sub.id, n.cidr, true)); }
  }

  lemma ManagedNetworkKeepsFamily(s: State, f: Fates, n: NetworkSpec)
    requires Related(s) && Shaped(s) && n in s.spec.networks && n.uuid == NO_ID
    ensures Related(ManagedNetwork(s, f, n).s)
  {
    StartingIds(s, n);
    var e := FindNetwork(s.st.networks, n.name);
    var networkId := if e.Some? then e.value.networkId else NO_ID;
    var subnetId := if e.Some? then e.value.subnetId else NO_ID;
    var net := Obtain(s, f, networkId, Network, Named(n.name), NO_ID);
    ObtainIsNewer(s, f, networkId, Network, Named(n.name), NO_ID);
    ObtainIsLawful(s, f, networkId, Network, Named(n.name), NO_ID);
    FamilyLater(s, net.s);
    if net.flow == Proceed {
      ObtainedBearing(s, f, networkId, Network, Named(n.name), NO_ID);
      AfterNetworkKeepsFamily(net.s, f, n, net.id, subnetId);
    }
  }

  lemma PreExistingKeepsFamily(s: State, f: Fates, n: NetworkSpec)
    requires Related(s)
    ensures Related(PreExistingNetwork(s, f, n).s)
  {
    TickLater(s, f);
    TickIsLawful(s, f);
    FamilyLater(s, Tick(s, f));
    var g := Get(s, f, Network, n.uuid);
    forall m | NetworkHangs(g.s.w, m) ensures Related(SetNetwork(g.s, m)) { SetNetworkKeepsFamily(g.s, m); }
  }

  lemma NetworksKeepFamily(s: State, f: Fates, k: nat)
    requires Related(s) && Shaped(s) && k <= |s.spec.networks|
    ensures Related(NetworksFrom(s, f, s.spec.networks, k).s)
    decreases |s.spec.networks| - k
  {
    if k < |s.spec.networks| {
      var n := s.spec.networks[k];
      NetworkKeepsShape(s, f, n);
      if n.uuid == NO_ID { ManagedNetworkKeepsFamily(s, f, n); } else { PreExistingKeepsFamily(s, f, n); }
      var one := ReconcileNetwork(s, f, n);
      if one.flow == Proceed { NetworksKeepFamily(one.s, f, k + 1); }
    }
  }

  // --------------------------------------------------------------------- routers

  /** What the router stage keeps: time passes, and the ids it records as managed are CAPCS's. */
  ghost predicate RoutersOn(s: State, t: State) {
    Later(s.w, t.w) && Lawful(t.w) && (RoutersMine(s.w, s.st.routers) ==> RoutersMine(t.w, t.st.routers))
  }

  lemma RoutersOnTransitive(s: State, t: State, u: State)
    requires RoutersOn(s, t) && RoutersOn(t, u)
    ensures RoutersOn(s, u)
  {
    LaterTransitive(s.w, t.w, u.w);
  }

  lemma SetInterfaceGoesOn(s: State, router: Name, e: InterfaceStatus)
    requires Lawful(s.w)
    ensures RoutersOn(s, SetInterface(s, router, e))
  {
    var rs := FindRouter(s.st.routers, router);
    if rs.Some? {
      var es := PutInterface(rs.value.interfaces, e);
      forall x | x in WithInterfaces(s.st.routers, router, es) && x !in s.st.routers
        ensures exists y | y in s.st.routers :: x.routerId == y.routerId && x.managed == y.managed
      {
        WithInterfacesElements(s.st.routers, router, es, x);
      }
    }
  }

  lemma SetRouterGoesOn(s: State, r: RouterSpec, id: Id)
    requires Lawful(s.w) && id < s.w.next && (r.uuid == NO_ID ==> Mine(s.w, id))
    ensures RoutersOn(s, SetRouter(s, r, id))
  {
    forall x | x in SetRouter(s, r, id).st.routers && x !in s.st.routers
      ensures x.routerId == id && x.managed == (r.uuid == NO_ID)
    {
      PutRouterElements(s.st.routers, r.name, id, r.uuid == NO_ID, x);
    }
  }

  lemma CreateInterfaceLater(s: State, f: Fates, router: Id, network: Id)
    ensures Later(s.w, CreateInterface(s, f, router, network).s.w)
  {
    TickLater(s, f);
  }

  lemma AttachGoesOn(s: State, f: Fates, r: RouterSpec, id: Id, e: InterfaceSpec, network: Id)
    requires Lawful(s.w)
    ensures RoutersOn(s, AttachInterface(s, f, r, id, e, network).s)
  {
    var t := SetInterface(s, r.name, InterfaceStatus(e.network, NO_ID, true));
    SetInterfaceGoesOn(s, r.name, InterfaceStatus(e.network, NO_ID, true));
    var c := CreateInterface(t, f, id, network);
    CreateInterfaceLater(t, f, id, network);
    CreateInterfaceIsLawful(t, f, id, network);
    RoutersOnTransitive(s, t, c.s);
    if c.reply.Done? {
      var done := InterfaceStatus(e.network, c.reply.id, true);
      SetInterfaceGoesOn(c.s, r.name, done);
      RoutersOnTransitive(s, c.s, SetInterface(c.s, r.name, done));
    }
  }

  lemma InterfaceGoesOn(s: State, f: Fates, r: RouterSpec, id: Id, live: map<Id, Id>, e: InterfaceSpec)
    requires Lawful(s.w)
    ensures RoutersOn(s, ReconcileInterface(s, f, r, id, live, e).s)
  {
    var n := FindNetwork(s.st.networks, e.network);
    if n.None? {
    } else if e.uuid != NO_ID {
      SetInterfaceGoesOn(s, r.name, InterfaceStatus(e.network, e.uuid, false));
    } else if exists i :: i in live && live[i] == n.value.networkId {
      SetInterfaceGoesOn(s, r.name, InterfaceStatus(e.network, LiveOn(live, n.value.networkId), true));
    } else {
      AttachGoesOn(s, f, r, id, e, n.value.networkId);
    }
  }

  lemma InterfacesGoOn(s: State, f: Fates, r: RouterSpec, id: Id, live: map<Id, Id>, k: nat)
    requires Lawful(s.w) && k <= |r.interfaces|
    ensures RoutersOn(s, InterfacesFrom(s, f, r, id, live, k).s)
    decreases |r.interfaces| - k
  {
    if k < |r.interfaces| {
      InterfaceGoesOn(s, f, r, id, live, r.interfaces[k]);
      var one := ReconcileInterface(s, f, r, id, live, r.interfaces[k]);
      if one.flow == Proceed {
        InterfacesGoOn(one.s, f, r, id, live, k + 1);
        RoutersOnTransitive(s, one.s, InterfacesFrom(one.s, f, r, id, live, k + 1).s);
      }
    }
  }

  lemma SettleGoesOn(s: State, f: Fates, r: RouterSpec, id: Id)
    requires Lawful(s.w) && id < s.w.next && (r.uuid == NO_ID ==> Mine(s.w, id))
    ensures RoutersOn(s, Settle(s, f, r, id).s)
  {
    SetRouterGoesOn(s, r, id);
    var t := SetRouter(s, r, id);
    InterfacesGoOn(t, f, r, id, Interfaces(s.w, id), 0);
    RoutersOnTransitive(s, t, InterfacesFrom(t, f, r, id, Interfaces(s.w, id), 0).s);
  }

  /** The entry the router starts from is a managed one if the router is. */
  ghost predicate FlaggedRouters(s: State, r: RouterSpec) {
    && RoutersMine(s.w, s.st.routers)
    && (r.uuid == NO_ID ==> forall x | x in s.st.routers && x.name == r.name :: x.managed)
  }

  lemma RouterGoesOn(s: State, f: Fates, r: RouterSpec)
    requires Lawful(s.w) && Signed(s.w) && FlaggedRouters(s, r)
    ensures RoutersOn(s, ReconcileRouter(s, f, r).s)
  {
    if r.uuid != NO_ID {
      TickLater(s, f);
      TickIsLawful(s, f);
      var g := Get(s, f, Router, r.uuid);
      if g.reply.Done? {
        SettleGoesOn(g.s, f, r, r.uuid);
        RoutersOnTransitive(s, g.s, Settle(g.s, f, r, r.uuid).s);
      }
    } else {
      ManagedRouterGoesOn(s, f, r);
    }
  }

  lemma ManagedRouterGoesOn(s: State, f: Fates, r: RouterSpec)
    requires Lawful(s.w) && Signed(s.w) && FlaggedRouters(s, r) && r.uuid == NO_ID
    ensures RoutersOn(s, ReconcileRouter(s, f, r).s)
  {
    var current := RouterIdOf(s.st.routers, r.name);
    if FindRouter(s.st.routers, r.name).Some? { FoundRouterIn(s.st.routers, r.name); }
    var o := Obtain(s, f, current, Router, Named(r.name), NO_ID);
    ObtainIsNewer(s, f, current, Router, Named(r.name), NO_ID);
    ObtainIsLawful(s, f, current, Router, Named(r.name), NO_ID);
    ObtainedIsMine(s, f, current, Router, Named(r.name), NO_ID);
    if o.flow == Proceed {
      SettleGoesOn(o.s, f, r, o.id);
      RoutersOnTransitive(s, o.s, Settle(o.s, f, r, o.id).s);
    }
  }

  lemma EnsuredIsMine(s: State, f: Fates, current: Id, kind: Kind, tag: Tag)
    requires Lawful(s.w) && Signed(s.w) && Mine(s.w, current)
    ensures var e := EnsureResource(s, f, current, kind, tag); Mine(e.s.w, e.id)
  {
    EnsureIsLawful(s, f, current, kind, tag);
    EnsureLater(s, f, current, kind, tag);
    var e := EnsureResource(s, f, current, kind, tag);
    if e.id != current && e.id != NO_ID { assert e.id in Tagged(e.s.w, kind, tag); }
  }

  lemma SuppliedIsMine(e: Ensured, f: Fates, kind: Kind, tag: Tag, parent: Id)
    requires Mine(e.s.w, e.id)
    ensures var o := CreateMissing(e, f, kind, tag, parent); Mine(o.s.w, o.id)
  {
    CreateIsNewer(e.s, f, kind, tag, parent);
  }

  lemma ObtainedIsMine(s: State, f: Fates, current: Id, kind: Kind, tag: Tag, parent: Id)
    requires Lawful(s.w) && Signed(s.w) && Mine(s.w, current)
    ensures var o := Obtain(s, f, current, kind, tag, parent); Mine(o.s.w, o.id)
  {
    EnsuredIsMine(s, f, current, kind, tag);
    SuppliedIsMine(EnsureResource(s, f, current, kind, tag), f, kind, tag, parent);
  }

  lemma RoutersGoOn(s: State, f: Fates, k: nat, acc: Flow)
    requires Lawful(s.w) && Signed(s.w) && Shaped(s) && RoutersMine(s.w, s.st.routers) && k <= |s.spec.routers|
    ensures RoutersOn(s, RoutersFrom(s, f, s.spec.routers, k, acc).s)
    decreases |s.spec.routers| - k
  {
    if k < |s.spec.routers| {
      var r := s.spec.routers[k];
      RouterKeepsShape(s, f, r);
      forall x | x in s.st.routers && x.name == r.name ensures x.managed == (r.uuid == NO_ID) {
        FlagsOfRouter(s.spec.routers, s.st.routers, r, x);
      }
      RouterGoesOn(s, f, r);
      var one := ReconcileRouter(s, f, r);
      if one.flow != Error {
        RoutersGoOn(one.s, f, k + 1, Join(acc, one.flow));
        RoutersOnTransitive(s, one.s, RoutersFrom(one.s, f, s.spec.routers, k + 1, Join(acc, one.flow)).s);
      }
    }
  }

  lemma RoutersKeepFamily(s: State, f: Fates)
    requires Related(s) && Shaped(s)
    ensures Related(ReconcileRouters(s, f).s)
  {
    RoutersGoOn(s, f, 0, Proceed);
    var e := ReconcileRouters(s, f);
    FamilyLater(s, s.(w := e.s.w));
  }

  // --------------------------------------------------------------- load balancer

  /** A part moves to another id only when the old one is gone, and then nothing hangs below the old one. */
  lemma PartMoves(w: World, st: Status, now: Status, kind: Kind)
    requires Lawful(w) && PartsHang(w, st) && IsPart(kind) && Mine(w, PartId(now, kind))
    requires forall k | IsPart(k) && k != kind :: PartId(now, k) == PartId(st, k)
    requires PartId(now, kind) == PartId(st, kind) || Gone(w, kind, PartId(st, kind))
    requires kind != LoadBalancer ==> Own(w, PartId(now, kind), kind, Owned)
    ensures PartsHang(w, now)
  {
    assert kind != LoadBalancer ==> PartId(now, LoadBalancer) == PartId(st, LoadBalancer);
    assert kind != Pool ==> PartId(now, Pool) == PartId(st, Pool);
    assert kind != Listener ==> PartId(now, Listener) == PartId(st, Listener);
    assert kind != Monitor ==> PartId(now, Monitor) == PartId(st, Monitor);
    if now.lbId != st.lbId { NoneLeft(w.res, Pool, LoadBalancer, st.lbId, now.lbId); }
    if now.poolId != st.poolId {
      NoneLeft(w.res, Listener, Pool, st.poolId, now.poolId);
      NoneLeft(w.res, Monitor, Pool, st.poolId, now.poolId);
    }
  }

  /** Where a part is created. */
  ghost function ParentOf(st: Status, kind: Kind): Id {
    match kind
    case Pool => st.lbId
    case Listener => st.poolId
    case Monitor => st.poolId
    case _ => NO_ID
  }

  lemma PartsBear(w: World, v: World, st: Status, kind: Kind)
    requires PartsHang(w, st) && Bears(w, v, Resource(kind, Some(Owned), ParentOf(st, kind))) && IsPart(kind)
    ensures PartsHang(v, st)
  {
  }

  lemma SubnetsBearPart(w: World, v: World, kind: Kind, parent: Id)
    requires Lawful(w) && Lawful(v) && SubnetsHang(w.res) && Bears(w, v, Resource(kind, Some(Owned), parent)) && IsPart(kind)
    ensures SubnetsHang(v.res)
  {
    forall i | i in v.res && v.res[i].kind == Subnet && v.res[i].tag.Some?
      ensures v.res[i].parent in v.res && v.res[v.res[i].parent].tag == v.res[i].tag
    {
      assert w.res[i] == v.res[i];
      assert ParentOk(v.res, Subnet, v.res[i].parent);
    }
  }

  lemma ObtainPartKeepsFamily(s: State, f: Fates, kind: Kind)
    requires Related(s) && IsPart(kind)
    ensures Related(Obtain(s, f, PartId(s.st, kind), kind, Owned, ParentOf(s.st, kind)).s)
  {
    var current, parent := PartId(s.st, kind), ParentOf(s.st, kind);
    var o := Obtain(s, f, current, kind, Owned, parent);
    ObtainIsLawful(s, f, current, kind, Owned, parent);
    ObtainBears(s, f, current, kind, Owned, parent);
    PartsBear(s.w, o.s.w, s.st, kind);
    SubnetsBearPart(s.w, o.s.w, kind, parent);
    NetworksNewer(s.w, o.s.w, s.st.networks);
  }

  lemma ObtainedIsOwn(s: State, f: Fates, current: Id, kind: Kind, tag: Tag, parent: Id)
    requires Lawful(s.w) && Signed(s.w) && Own(s.w, current, kind, tag)
    ensures var o := Obtain(s, f, current, kind, tag, parent); Own(o.s.w, o.id, kind, tag)
  {
    ObtainedIsMine(s, f, current, kind, tag, parent);
    ObtainedBearing(s, f, current, kind, tag, parent);
    ObtainIsLawful(s, f, current, kind, tag, parent);
    OnlyProceedHasId(EnsureResource(s, f, current, kind, tag), f, kind, tag, parent);
  }

  lemma SetPartKeepsFamily(s: State, kind: Kind, id: Id)
    requires Related(s) && IsPart(kind) && Mine(s.w, id) && (kind != LoadBalancer ==> Own(s.w, id, kind, Owned))
    requires id == PartId(s.st, kind) || Gone(s.w, kind, PartId(s.st, kind))
    ensures Related(SetPart(s, kind, id))
  {
    PartMoves(s.w, s.st, SetPart(s, kind, id).st, kind);
  }

  lemma PartKeepsFamily(s: State, f: Fates, kind: Kind)
    requires Related(s) && IsPart(kind)
    ensures Related(ReconcilePart(s, f, kind, ParentOf(s.st, kind)).s)
  {
    var current, parent := PartId(s.st, kind), ParentOf(s.st, kind);
    var o := Obtain(s, f, current, kind, Owned, parent);
    ObtainPartKeepsFamily(s, f, kind);
    NotObtainedIsGone(s, f, current, kind, Owned, parent);
    ObtainedIsMine(s, f, current, kind, Owned, parent);
    if kind != LoadBalancer { ObtainedIsOwn(s, f, current, kind, Owned, parent); }
    if o.looked { SetPartKeepsFamily(o.s, kind, o.id); }
  }

  lemma LbKeepsFamily(s: State, f: Fates)
    requires Related(s)
    ensures Related(ReconcileLb(s, f).s)
  {
    PartKeepsFamily(s, f, LoadBalancer);
    var e := EnsureResource(s, f, s.st.lbId, LoadBalancer, Owned);
    EnsureIsLawful(s, f, s.st.lbId, LoadBalancer, Owned);
    EnsureLater(s, f, s.st.lbId, LoadBalancer, Owned);
    NotEnsuredIsGone(s, f, s.st.lbId, LoadBalancer, Owned);
    FamilyLater(s, e.s);
    if !e.err && e.id == NO_ID { SetPartKeepsFamily(e.s, LoadBalancer, NO_ID); }
  }

  lemma PartsKeepFamily(s: State, f: Fates)
    requires Related(s)
    ensures Related(ReconcileParts(s, f).s)
  {
    PartKeepsFamily(s, f, Pool);
    var p := ReconcilePart(s, f, Pool, s.st.lbId);
    PartKeepsFamily(p.s, f, Listener);
    var l := ReconcilePart(p.s, f, Listener, p.s.st.poolId);
    PartKeepsFamily(l.s, f, Monitor);
  }

  lemma MembersKeepFamily(s: State, f: Fates, machines: seq<Machine>)
    requires Related(s) && DistinctMachines(machines)
    ensures Related(ReconcileMembers(s, f, machines).s)
  {
    MembersPassLater(s, f, machines);
    MembersAreLawful(s, f, machines);
    var e := ReconcileMembers(s, f, machines);
    FamilyLater(s, s.(w := e.s.w));
  }

  lemma PopulateKeepsFamily(s: State, f: Fates, machines: seq<Machine>)
    requires Related(s) && DistinctMachines(machines)
    ensures Related(Populate(s, f, machines).s)
  {
    PartsKeepFamily(s, f);
    MembersKeepFamily(ReconcileParts(s, f).s, f, machines);
  }

  lemma AfterLbKeepsFamily(lb: Stage, f: Fates, machines: seq<Machine>)
    requires Related(lb.s) && DistinctMachines(machines)
    ensures Related(AfterLb(lb, f, machines).s)
  {
    TickLater(lb.s, f);
    TickIsLawful(lb.s, f);
    var g := Get(lb.s, f, LoadBalancer, lb.s.st.lbId);
    FamilyLater(lb.s, g.s);
    PopulateKeepsFamily(g.s, f, machines);
  }

  lemma LoadBalancerKeepsFamily(s: State, f: Fates, machines: seq<Machine>)
    requires Related(s) && DistinctMachines(machines)
    ensures Related(ReconcileLoadBalancer(s, f, machines).s)
  {
    LbKeepsFamily(s, f);
    AfterLbKeepsFamily(ReconcileLb(s, f), f, machines);
  }

  // ----------------------------------------------------------------- floating IP

  lemma AssignLater(s: State, f: Fates, machines: seq<Machine>)
    ensures Later(s.w, Assign(s, f, machines).s.w)
  {
    TickLater(s, f);
  }

  lemma CreateFipLater(s: State, f: Fates, target: Id)
    ensures var c := CreateFip(s, f, target); Later(s.w, c.s.w) && (c.reply.Done? ==> Mine(c.s.w, c.reply.id))
  {
    CreateIsNewer(s, f, FloatingIp, Owned, NO_ID);
  }

  ghost predicate FipOn(s: State, t: State) {
    Later(s.w, t.w) && FipMine(t.w, t.spec, t.st.fip)
  }

  lemma AssignGoesOn(s: State, t: State, f: Fates, machines: seq<Machine>)
    requires FipOn(s, t)
    ensures FipOn(s, Assign(t, f, machines).s)
  {
    AssignLater(t, f, machines);
    LaterTransitive(s.w, t.w, Assign(t, f, machines).s.w);
  }

  lemma PreExistingFipGoesOn(s: State, f: Fates, machines: seq<Machine>, ip: Id)
    requires Lawful(s.w) && FipMine(s.w, s.spec, s.st.fip) && !OwnsFip(s.spec)
    ensures FipOn(s, PreExistingFip(s, f, machines, ip).s)
  {
    TickLater(s, f);
    TickIsLawful(s, f);
    var g := Get(s, f, FloatingIp, ip);
    if g.reply.Done? { AssignGoesOn(s, SetFip(g.s, ip), f, machines); }
  }

  lemma ManagedFipGoesOn(s: State, f: Fates, machines: seq<Machine>)
    requires Lawful(s.w) && Signed(s.w) && Mine(s.w, s.st.fip)
    ensures FipOn(s, ManagedFip(s, f, machines).s)
  {
    EnsureLater(s, f, s.st.fip, FloatingIp, Owned);
    EnsuredIsMine(s, f, s.st.fip, FloatingIp, Owned);
    var e := EnsureResource(s, f, s.st.fip, FloatingIp, Owned);
    var t := SetFip(e.s, NO_ID);
    AssignGoesOn(s, SetFip(e.s, e.id), f, machines);
    CreateFipLater(t, f, Target(s, machines));
    LaterTransitive(s.w, e.s.w, CreateFip(t, f, Target(s, machines)).s.w);
  }

  lemma FipKeepsFamily(s: State, t: State)
    requires Related(s) && FipOn(s, t) && Lawful(t.w) && EditsFip(s, t)
    ensures Related(t)
  {
    FamilyLater(s, s.(w := t.w));
  }

  lemma FloatingIpKeepsFamily(s: State, f: Fates, machines: seq<Machine>)
    requires Related(s)
    ensures Related(ReconcileFloatingIp(s, f, machines).s)
  {
    FloatingIpIsLawful(s, f, machines);
    if s.spec.fip.Some? {
      if OwnsFip(s.spec) {
        ManagedFipGoesOn(s, f, machines);
      } else {
        PreExistingFipGoesOn(s, f, machines, s.spec.fip.value.address);
      }
    }
    FipKeepsFamily(s, ReconcileFloatingIp(s, f, machines).s);
  }
}
