/**
 When unruly outsiders can make CAPCS target what is not its own, for specs without uuids: exactly
 when some router asks for an interface. The run that shows it: a stranger is forever trying to
 attach the first such router to the network of its first interface.
 */
module RiskExact {
  import opened Types
  import opened Cloud
  import opened Ensure
  import opened Admission
  import opened Networks
  import opened OwnershipTeardown
  import opened Routers
  import opened Controller
  import opened Intrusion
  import opened Runs
  import opened AtMostOne
  import opened FamilyRuns
  import opened Risk
  import opened TeardownEnds
  import opened TeardownConverges

  // ------------------------------------------------------------------- the stranger

  /** Every call succeeds; before each the stranger tries to attach. */
  function Pestered(router: Id, network: Id): Fates {
    (k: nat) => QUIET.(outside := [Intrude(router, network)])
  }

  /** As long as the router is not there, the stranger achieves nothing. */
  lemma InVain(s: State, router: Id, network: Id)
    requires !IsKind(s.w.res, router, Router)
    ensures Tick(s, Pestered(router, network)) == s.(clock := s.clock + 1)
  {
    var acts := Pestered(router, network)(s.clock).outside;
    assert acts == [Intrude(router, network)] && acts[1..] == [];
    assert OutsideAll(s.w, s.spec, acts) == OutsideAll(Outside(s.w, s.spec, acts[0]), s.spec, acts[1..]);
  }

  /** Once it is, and nothing is attached yet, the stranger is first. */
  lemma Succeeds(s: State, router: Id, network: Id)
    requires IsKind(s.w.res, router, Router) && IsKind(s.w.res, network, Network) && s.w.ifaces == map[]
    ensures Tick(s, Pestered(router, network)) == s.(w := AttachNow(s.w, router, network), clock := s.clock + 1)
  {
    var acts := Pestered(router, network)(s.clock).outside;
    assert acts == [Intrude(router, network)] && acts[1..] == [];
    assert CanAttach(s.w, router, network);
    assert OutsideAll(s.w, s.spec, acts) == OutsideAll(Outside(s.w, s.spec, acts[0]), s.spec, acts[1..]);
  }

  lemma NotFound(s: State, f: Fates, kind: Kind, tag: Tag)
    requires Tagged(s.w, kind, tag) == {} && Tick(s, f) == s.(clock := s.clock + 1) && f(s.clock).outcome == Ok
    ensures EnsureResource(s, f, NO_ID, kind, tag) == Ensured(s.(clock := s.clock + 1), NO_ID, false)
  {
    assert List(s, f, kind, tag).ids == {};
  }

  lemma IsCreated(s: State, f: Fates, kind: Kind, tag: Tag, parent: Id)
    requires ParentOk(s.w.res, kind, parent) && Tick(s, f) == s.(clock := s.clock + 1) && f(s.clock).outcome == Ok
    ensures CreateMissing(Ensured(s, NO_ID, false), f, kind, tag, parent) ==
            Obtained(s.(w := Land(s.w, kind, tag, parent), clock := s.clock + 1), s.w.next, Proceed, true)
  {
  }

  /** A resource nobody has yet is created in two calls. */
  lemma ObtainsInVain(s: State, router: Id, network: Id, kind: Kind, tag: Tag, parent: Id)
    requires !IsKind(s.w.res, router, Router) && Tagged(s.w, kind, tag) == {} && ParentOk(s.w.res, kind, parent)
    ensures Obtain(s, Pestered(router, network), NO_ID, kind, tag, parent) ==
            Obtained(s.(w := Land(s.w, kind, tag, parent), clock := s.clock + 2), s.w.next, Proceed, true)
  {
    var f, t := Pestered(router, network), s.(clock := s.clock + 1);
    InVain(s, router, network);
    InVain(t, router, network);
    NotFound(s, f, kind, tag);
    IsCreated(t, f, kind, tag, parent);
  }

  // ---------------------------------------------------------------------- networks

  ghost predicate NoUuids(spec: Spec) {
    && (forall n | n in spec.networks :: n.uuid == NO_ID)
    && (forall r | r in spec.routers :: r.uuid == NO_ID)
  }

  /** All there is CAPCS made, and nothing is attached. */
  ghost predicate Own(w: World) {
    && 0 < w.next && w.ifaces == map[] && w.groups == [] && w.targets == {}
    && (forall i | i in w.made :: i < w.next) && (forall i | i in w.res :: i < w.next)
  }

  /** The first `k` networks are there, under the ids they were handed out. */
  ghost predicate NetworksThere(w: World, k: nat) {
    w.next >= 2 * k + 1 && forall j | 0 <= j < k :: IsKind(w.res, 2 * j + 1, Network)
  }

  /** No router is there, and nothing tagged for networks from `k` on. */
  ghost predicate Free(w: World, nets: seq<NetworkSpec>, k: nat) {
    forall i | i in w.res ::
      !w.res[i].kind.Router? && forall j | k <= j < |nets| :: w.res[i].tag != Some(Named(nets[j].name))
  }

  ghost predicate Entries(ns: seq<NetworkStatus>, nets: seq<NetworkSpec>, k: nat)
    requires k <= |nets|
  {
    && (forall j | 0 <= j < k :: FindNetwork(ns, nets[j].name).Some? && NetworkIdOf(ns, nets[j].name) == 2 * j + 1)
    && (forall j | k <= j < |nets| :: FindNetwork(ns, nets[j].name).None?)
  }

  ghost predicate AtNetwork(s: State, k: nat) {
    && k <= |s.spec.networks| && DistinctNetworks(s.spec.networks) && NoUuids(s.spec)
    && Own(s.w) && s.w.next == 2 * k + 1 && s.st.routers == []
    && NetworksThere(s.w, k) && Free(s.w, s.spec.networks, k) && Entries(s.st.networks, s.spec.networks, k)
  }

  /** The state after one more network. */
  ghost function Networked(s: State, n: NetworkSpec): State {
    var w := Land(Land(s.w, Network, Named(n.name), NO_ID), Subnet, Named(n.name), s.w.next);
    SetNetwork(s.(w := w, clock := s.clock + 4), NetworkStatus(n.name, s.w.next, s.w.next + 1, n.cidr, true))
  }

  lemma OtherKindStaysFree(w: World, kind: Kind, other: Kind, tag: Tag, parent: Id)
    requires Tagged(w, kind, tag) == {} && other != kind
    ensures Tagged(Land(w, other, tag, parent), kind, tag) == {}
  {
    assert forall i | i in w.res && w.res[i].kind == kind && w.res[i].tag == Some(tag) :: i in Tagged(w, kind, tag);
  }

  lemma SubnetIsMade(s: State, n: NetworkSpec, router: Id, network: Id)
    requires !IsKind(s.w.res, router, Router) && router != s.w.next && Tagged(s.w, Subnet, Named(n.name)) == {}
    ensures var w := Land(s.w, Network, Named(n.name), NO_ID);
            Obtain(s.(w := w, clock := s.clock + 2), Pestered(router, network), NO_ID, Subnet, Named(n.name), s.w.next) ==
            Obtained(s.(w := Land(w, Subnet, Named(n.name), s.w.next), clock := s.clock + 4), s.w.next + 1, Proceed, true)
  {
    OtherKindStaysFree(s.w, Subnet, Network, Named(n.name), NO_ID);
    var w := Land(s.w, Network, Named(n.name), NO_ID);
    ObtainsInVain(s.(w := w, clock := s.clock + 2), router, network, Subnet, Named(n.name), s.w.next);
  }

  /** Network and subnet, both new. */
  lemma PairIsMade(s: State, n: NetworkSpec, router: Id, network: Id)
    requires !IsKind(s.w.res, router, Router) && router != s.w.next
    requires Tagged(s.w, Network, Named(n.name)) == {} && Tagged(s.w, Subnet, Named(n.name)) == {}
    requires FindNetwork(s.st.networks, n.name).None?
    ensures ManagedNetwork(s, Pestered(router, network), n) == Stage(Networked(s, n), Proceed)
  {
    ObtainsInVain(s, router, network, Network, Named(n.name), NO_ID);
    SubnetIsMade(s, n, router, network);
  }

  lemma NetworkIsMade(s: State, k: nat, router: Id, network: Id)
    requires AtNetwork(s, k) && k < |s.spec.networks| && router > 2 * k + 1
    ensures ReconcileNetwork(s, Pestered(router, network), s.spec.networks[k]) == Stage(Networked(s, s.spec.networks[k]), Proceed)
  {
    var n := s.spec.networks[k];
    assert n in s.spec.networks;
    FreeTag(s, k, Network);
    FreeTag(s, k, Subnet);
    PairIsMade(s, n, router, network);
  }

  lemma FreeTag(s: State, k: nat, kind: Kind)
    requires AtNetwork(s, k) && k < |s.spec.networks|
    ensures Tagged(s.w, kind, Named(s.spec.networks[k].name)) == {}
  {
  }

  lemma LandStaysFree(w: World, nets: seq<NetworkSpec>, k: nat, kind: Kind, parent: Id)
    requires k < |nets| && DistinctNetworks(nets) && Free(w, nets, k + 1) && !kind.Router?
    ensures Free(Land(w, kind, Named(nets[k].name), parent), nets, k + 1)
  {
    forall j | k + 1 <= j < |nets| ensures nets[j].name != nets[k].name {
    }
  }

  lemma LandStaysOwn(w: World, kind: Kind, tag: Tag, parent: Id)
    requires Own(w)
    ensures Own(Land(w, kind, tag, parent))
  {
  }

  lemma LandKeepsNetworks(w: World, k: nat, kind: Kind, tag: Tag, parent: Id)
    requires NetworksThere(w, k)
    ensures NetworksThere(Land(w, kind, tag, parent), k)
  {
  }

  lemma NextEntries(ns: seq<NetworkStatus>, nets: seq<NetworkSpec>, k: nat, m: NetworkStatus)
    requires k < |nets| && DistinctNetworks(nets) && Entries(ns, nets, k) && m.name == nets[k].name && m.networkId == 2 * k + 1
    ensures Entries(PutNetwork(ns, m), nets, k + 1)
  {
    forall j | 0 <= j < |nets|
      ensures FindNetwork(PutNetwork(ns, m), nets[j].name) == if j == k then Some(m) else FindNetwork(ns, nets[j].name)
    {
      FindPutNetwork(ns, m, nets[j].name);
    }
  }

  lemma NextNetwork(s: State, k: nat)
    requires AtNetwork(s, k) && k < |s.spec.networks|
    ensures AtNetwork(Networked(s, s.spec.networks[k]), k + 1)
  {
    var nets := s.spec.networks;
    var n, tag, w := nets[k], Named(nets[k].name), Land(s.w, Network, Named(nets[k].name), NO_ID);
    assert Free(s.w, nets, k + 1);
    LandStaysFree(s.w, nets, k, Network, NO_ID);
    LandStaysFree(w, nets, k, Subnet, s.w.next);
    LandStaysOwn(s.w, Network, tag, NO_ID);
    LandStaysOwn(w, Subnet, tag, s.w.next);
    LandKeepsNetworks(s.w, k, Network, tag, NO_ID);
    LandKeepsNetworks(w, k, Subnet, tag, s.w.next);
    assert IsKind(Land(w, Subnet, tag, s.w.next).res, 2 * k + 1, Network);
    NextEntries(s.st.networks, nets, k, NetworkStatus(n.name, s.w.next, s.w.next + 1, n.cidr, true));
  }

  lemma {:induction false} NetworkStagePasses(s: State, k: nat, router: Id, network: Id)
    requires AtNetwork(s, k) && router > 2 * |s.spec.networks|
    ensures var e := NetworksFrom(s, Pestered(router, network), s.spec.networks, k);
            e.flow == Proceed && AtNetwork(e.s, |s.spec.networks|)
    decreases |s.spec.networks| - k
  {
    if k < |s.spec.networks| {
      NetworkIsMade(s, k, router, network);
      NextNetwork(s, k);
      NetworkStagePasses(Networked(s, s.spec.networks[k]), k + 1, router, network);
    }
  }

  // ----------------------------------------------------------------------- routers

  /** No router tagged for a router from `k` on is there, and none has an entry. */
  ghost predicate NoRouters(s: State, k: nat) {
    && (forall i, j | i in s.w.res && s.w.res[i].kind.Router? && k <= j < |s.spec.routers| ::
          s.w.res[i].tag != Some(Named(s.spec.routers[j].name)))
    && (forall j | k <= j < |s.spec.routers| :: FindRouter(s.st.routers, s.spec.routers[j].name).None?)
  }

  ghost predicate AtRouter(s: State, k: nat) {
    var nets := s.spec.networks;
    && k <= |s.spec.routers| && DistinctRouters(s.spec.routers) && NoUuids(s.spec)
    && Own(s.w) && s.w.next == 2 * |nets| + 1 + k && NetworksThere(s.w, |nets|) && Entries(s.st.networks, nets, |nets|)
    && NoRouters(s, k)
  }

  ghost function WithRouter(s: State, r: RouterSpec): State {
    SetRouter(s.(w := Land(s.w, Router, Named(r.name), NO_ID), clock := s.clock + 2), r, s.w.next)
  }

  lemma SettlesAtOnce(s: State, f: Fates, r: RouterSpec, id: Id)
    requires s.w.ifaces == map[] && Last(s, f).active
    ensures Settle(s, f, r, id) == InterfacesFrom(SetRouter(s, r, id), f, r, id, map[], 0)
  {
    assert Interfaces(s.w, id) == map[];
  }

  /** The router is new; its interfaces come next. */
  lemma RouterIsNew(s: State, k: nat, router: Id, network: Id)
    requires AtRouter(s, k) && k < |s.spec.routers| && router >= s.w.next
    ensures var r, f := s.spec.routers[k], Pestered(router, network);
            ReconcileRouter(s, f, r) == InterfacesFrom(WithRouter(s, r), f, r, s.w.next, map[], 0)
  {
    var r, f := s.spec.routers[k], Pestered(router, network);
    assert r in s.spec.routers;
    FreeRouterTag(s, k);
    ObtainsInVain(s, router, network, Router, Named(r.name), NO_ID);
    SettlesAtOnce(s.(w := Land(s.w, Router, Named(r.name), NO_ID), clock := s.clock + 2), f, r, s.w.next);
  }

  lemma FreeRouterTag(s: State, k: nat)
    requires AtRouter(s, k) && k < |s.spec.routers|
    ensures Tagged(s.w, Router, Named(s.spec.routers[k].name)) == {}
  {
  }

  lemma NextRouter(s: State, k: nat)
    requires AtRouter(s, k) && k < |s.spec.routers|
    ensures AtRouter(WithRouter(s, s.spec.routers[k]), k + 1)
  {
    var r, n := s.spec.routers[k], |s.spec.networks|;
    LandStaysOwn(s.w, Router, Named(r.name), NO_ID);
    LandKeepsNetworks(s.w, n, Router, Named(r.name), NO_ID);
    forall j | k + 1 <= j < |s.spec.routers| ensures s.spec.routers[j].name != r.name {
    }
    SetRouterFinds(s.(w := Land(s.w, Router, Named(r.name), NO_ID), clock := s.clock + 2), r, s.w.next);
  }

  /** The first router that asks for an interface. */
  ghost predicate FirstAsking(routers: seq<RouterSpec>, k: nat) {
    k < |routers| && routers[k].interfaces != [] && forall j | 0 <= j < k :: routers[j].interfaces == []
  }

  lemma {:induction false} FindFirst(routers: seq<RouterSpec>, r: RouterSpec) returns (k: nat)
    requires r in routers && r.interfaces != []
    ensures FirstAsking(routers, k)
  {
    if routers[0].interfaces != [] {
      k := 0;
    } else {
      assert r in routers[1..];
      var j := FindFirst(routers[1..], r);
      assert forall i | 0 < i < j + 1 :: routers[i] == routers[1..][i - 1];
      k := j + 1;
    }
  }

  /** What the pass leaves: the stranger's interface, and the pending entry that stands for it. */
  ghost predicate Trapped(s: State, router: Id, network: Id) {
    && s.w.groups == [] && s.w.targets == {} && router + 1 !in s.w.made
    && router + 1 in s.w.ifaces && s.w.ifaces[router + 1] == Attachment(router, network)
    && exists r, e | r in s.st.routers && e in r.interfaces ::
         r.routerId == router && e.managed && e.interfaceId == NO_ID && NetworkIdOf(s.st.networks, e.network) == network
  }

  lemma AttachIsBeaten(s: State, r: RouterSpec, router: Id, network: Id)
    requires IsKind(s.w.res, router, Router) && IsKind(s.w.res, network, Network) && Own(s.w) && s.w.next == router + 1
    requires r.interfaces != [] && NetworkIdOf(s.st.networks, r.interfaces[0].network) == network
    requires FindRouter(s.st.routers, r.name) == Some(RouterStatus(r.name, router, true, []))
    ensures var t := AttachInterface(s, Pestered(router, network), r, router, r.interfaces[0], network);
            t.flow == Error && Trapped(t.s, router, network)
  {
    var f, pending := Pestered(router, network), InterfaceStatus(r.interfaces[0].network, NO_ID, true);
    var p := SetInterface(s, r.name, pending);
    SetInterfaceFinds(s, r.name, pending, r.name);
    var q := RouterStatus(r.name, router, true, PutInterface([], pending));
    assert FindRouter(p.st.routers, r.name) == Some(q);
    FoundRouterIn(p.st.routers, r.name);
    assert q.interfaces == [pending] && pending in q.interfaces;
    Succeeds(p, router, network);
    var w := AttachNow(s.w, router, network);
    assert w.ifaces[router + 1] == Attachment(router, network);
    assert Attached(w, router, network);
  }

  /** Router `k` is the first to ask for an interface, and the network of that one is there. */
  ghost predicate Baited(s: State, k: nat, network: Id) {
    && FirstAsking(s.spec.routers, k) && s.spec.routers[k].interfaces[0].uuid == NO_ID
    && FindNetwork(s.st.networks, s.spec.routers[k].interfaces[0].network).Some?
    && NetworkIdOf(s.st.networks, s.spec.routers[k].interfaces[0].network) == network && IsKind(s.w.res, network, Network)
  }

  lemma TrapCloses(s: State, k: nat, network: Id)
    requires AtRouter(s, k) && Baited(s, k, network)
    ensures var e := ReconcileRouter(s, Pestered(s.w.next, network), s.spec.routers[k]);
            EndsTrapped(e, s.w.next, network)
  {
    var r, router := s.spec.routers[k], s.w.next;
    RouterIsNew(s, k, router, network);
    var t, f := WithRouter(s, r), Pestered(router, network);
    LandStaysOwn(s.w, Router, Named(r.name), NO_ID);
    assert r in s.spec.routers;
    FindPutRouter(s.st.routers, r.name, router, true, r.name);
    AttachIsBeaten(t, r, router, network);
    var one := ReconcileInterface(t, f, r, router, map[], r.interfaces[0]);
    assert one == AttachInterface(t, f, r, router, r.interfaces[0], network);
  }

  lemma PlainRouter(s: State, j: nat, k: nat, router: Id, network: Id)
    requires AtRouter(s, j) && j < k && Baited(s, k, network) && router >= s.w.next
    ensures var r := s.spec.routers[j];
            && ReconcileRouter(s, Pestered(router, network), r) == Stage(WithRouter(s, r), Proceed)
            && Baited(WithRouter(s, r), k, network)
  {
    RouterIsNew(s, j, router, network);
    assert s.spec.routers[j].interfaces == [];
  }

  ghost predicate Moves(s: State, f: Fates, r: RouterSpec, t: State) {
    ReconcileRouter(s, f, r) == Stage(t, Proceed)
  }

  /** From here the loop ends so. */
  ghost predicate Yields(s: State, f: Fates, specs: seq<RouterSpec>, k: nat, e: Stage) {
    k <= |specs| && RoutersFrom(s, f, specs, k, Proceed) == e
  }

  lemma YieldsBefore(s: State, f: Fates, specs: seq<RouterSpec>, k: nat, t: State, e: Stage)
    requires k < |specs| && Moves(s, f, specs[k], t) && Yields(t, f, specs, k + 1, e)
    ensures Yields(s, f, specs, k, e)
  {
  }

  lemma LoopStops(s: State, f: Fates, specs: seq<RouterSpec>, k: nat)
    requires k < |specs| && ReconcileRouter(s, f, specs[k]).flow == Error
    ensures Yields(s, f, specs, k, ReconcileRouter(s, f, specs[k]))
  {
  }

  ghost predicate EndsTrapped(e: Stage, router: Id, network: Id) {
    e.flow == Error && Trapped(e.s, router, network)
  }

  lemma NextStep(s: State, j: nat, k: nat, router: Id, network: Id) returns (t: State)
    requires AtRouter(s, j) && j < k && Baited(s, k, network) && router == 2 * |s.spec.networks| + 1 + k
    ensures t.spec == s.spec && AtRouter(t, j + 1) && Baited(t, k, network)
    ensures Moves(s, Pestered(router, network), s.spec.routers[j], t)
  {
    t := WithRouter(s, s.spec.routers[j]);
    PlainRouter(s, j, k, router, network);
    NextRouter(s, j);
  }

  lemma AskingTraps(s: State, k: nat, router: Id, network: Id) returns (e: Stage)
    requires AtRouter(s, k) && Baited(s, k, network) && router == s.w.next
    ensures Yields(s, Pestered(router, network), s.spec.routers, k, e) && EndsTrapped(e, router, network)
  {
    TrapCloses(s, k, network);
    e := ReconcileRouter(s, Pestered(router, network), s.spec.routers[k]);
    LoopStops(s, Pestered(router, network), s.spec.routers, k);
  }

  /** All routers before the first asking one are made, and then the trap closes. */
  lemma {:induction false} RouterStageTraps(s: State, j: nat, k: nat, router: Id, network: Id) returns (e: Stage)
    requires AtRouter(s, j) && j <= k && Baited(s, k, network) && router == 2 * |s.spec.networks| + 1 + k
    ensures Yields(s, Pestered(router, network), s.spec.routers, j, e) && EndsTrapped(e, router, network)
    decreases k - j
  {
    if j == k {
      e := AskingTraps(s, k, router, network);
    } else {
      var t := NextStep(s, j, k, router, network);
      e := RouterStageTraps(t, j + 1, k, router, network);
      YieldsBefore(s, Pestered(router, network), s.spec.routers, j, t, e);
    }
  }

  // ------------------------------------------------------------------- the whole run

  ghost predicate Admitted(env: Env, spec: Spec) {
    && Default(env.regions, env.clusterName, spec) == spec && CreateValid(env.regions, spec) && DistinctRouters(spec.routers)
  }

  const NOTHING := World(map[], map[], [], [], map[], 1, {}, {}, {})

  function Blank(spec: Spec): State {
    State(NOTHING, EMPTY_STATUS, spec, 0, false, false)
  }

  lemma BlankIsCreated(env: Env, spec: Spec)
    requires Admitted(env, spec)
    ensures Runs.Created(env, Blank(spec)) && Lawful(NOTHING)
  {
  }

  /** Without uuids no interface has one either, and its network is one of the spec. */
  lemma FirstInterface(env: Env, spec: Spec, k: nat) returns (j: nat)
    requires Admitted(env, spec) && NoUuids(spec) && FirstAsking(spec.routers, k)
    ensures Asks(spec, k, j)
  {
    var r := spec.routers[k];
    assert r in spec.routers && RouterValid(r, spec.networks);
    var e := r.interfaces[0];
    assert e in r.interfaces && InterfaceOk(e, spec.networks, false);
    j :| 0 <= j < |spec.networks| && spec.networks[j].name == e.network && InterfaceValid(e, spec.networks[j], false);
  }

  /** The network stage of a first pass, up to the routers. */
  lemma NetworksFirst(env: Env, spec: Spec, router: Id, network: Id)
    requires Admitted(env, spec) && NoUuids(spec) && spec.networks != [] && router > 2 * |spec.networks|
    ensures var n := ReconcileNetworks(Blank(spec).(finalizer := true), Pestered(router, network));
            && n.flow == Proceed && AtNetwork(n.s, |spec.networks|) && AtRouter(n.s, 0)
            && n.s.spec == spec && n.s.finalizer && !n.s.deleting
  {
    var s := Blank(spec).(finalizer := true);
    assert AtNetwork(s, 0);
    NetworkStagePasses(s, 0, router, network);
  }

  lemma RoutersThen(s: State, f: Fates, k: nat, router: Id, network: Id)
    requires AtRouter(s, 0) && Baited(s, k, network) && router == 2 * |s.spec.networks| + 1 + k && f == Pestered(router, network)
    ensures var e := ReconcileRouters(s, f);
            EndsTrapped(e, router, network) && e.s.spec == s.spec && e.s.finalizer == s.finalizer && e.s.deleting == s.deleting
  {
    var e := RouterStageTraps(s, 0, k, router, network);
    assert ReconcileRouters(s, f) == e;
  }

  lemma BaitIsSet(s: State, k: nat, j: nat)
    requires AtNetwork(s, |s.spec.networks|) && FirstAsking(s.spec.routers, k) && j < |s.spec.networks|
    requires s.spec.networks[j].name == s.spec.routers[k].interfaces[0].network && s.spec.routers[k].interfaces[0].uuid == NO_ID
    ensures Baited(s, k, 2 * j + 1)
  {
  }

  /** The spec as it was, a live object, and the trap. */
  ghost predicate Caught(t: State, spec: Spec, router: Id, network: Id) {
    Trapped(t, router, network) && t.spec == spec && t.finalizer && !t.deleting
  }

  /** The first interface asked for is on the `j`-th network. */
  ghost predicate Asks(spec: Spec, k: nat, j: nat) {
    && FirstAsking(spec.routers, k) && j < |spec.networks|
    && spec.networks[j].name == spec.routers[k].interfaces[0].network && spec.routers[k].interfaces[0].uuid == NO_ID
  }

  lemma AfterNetworksTraps(n: Stage, spec: Spec, k: nat, j: nat, router: Id)
    requires n.flow == Proceed && AtNetwork(n.s, |spec.networks|) && AtRouter(n.s, 0)
    requires n.s.spec == spec && n.s.finalizer && !n.s.deleting && Asks(spec, k, j) && router == 2 * |spec.networks| + 1 + k
    ensures Caught(AfterNetworks(n, Pestered(router, 2 * j + 1), NOBODY).s, spec, router, 2 * j + 1)
  {
    BaitIsSet(n.s, k, j);
    RoutersThen(n.s, Pestered(router, 2 * j + 1), k, router, 2 * j + 1);
  }

  /** A first pass ends with the stranger's interface in the place of CAPCS's. */
  lemma FirstPassTraps(env: Env, spec: Spec, k: nat, j: nat, router: Id)
    requires Admitted(env, spec) && NoUuids(spec) && Asks(spec, k, j) && router == 2 * |spec.networks| + 1 + k
    ensures Caught(Reconcile(Blank(spec), Pestered(router, 2 * j + 1), NOBODY), spec, router, 2 * j + 1)
  {
    NetworksFirst(env, spec, router, 2 * j + 1);
    AfterNetworksTraps(
      ReconcileNetworks(Blank(spec).(finalizer := true), Pestered(router, 2 * j + 1)), spec, k, j, router);
  }

  /** Deletion then detaches it. */
  lemma TrappedIsTargeted(s: State, router: Id, network: Id)
    requires Trapped(s, router, network) && Lawful(s.w)
    ensures var t := ReconcileDelete(s, Quiet, NOBODY).s; router + 1 in t.w.targets && router + 1 !in t.w.made
  {
    assert Undisturbed(Quiet);
    PassEndsSo(s, Quiet, NOBODY);
    var r, e :| r in s.st.routers && e in r.interfaces &&
                r.routerId == router && e.managed && e.interfaceId == NO_ID && NetworkIdOf(s.st.networks, e.network) == network;
    var a := Attachment(router, network);
    assert EntryNames(s.st.networks, router, e, a, router + 1);
    assert AnyNames(s.st.networks, r.routerId, r.interfaces, a, router + 1);
    assert router + 1 !in Strays(s);
    assert NoServers(s.w, NOBODY.machines);
  }

  /** Every run that ends with the spec has only ever targeted CAPCS's own work. */
  ghost predicate SafeUnderAll(env: Env, spec: Spec) {
    forall trace: seq<State>, es: seq<Event> | IsRun(env, trace, es) && ProperRun(es) && trace[|es|].spec == spec ::
      trace[|es|].w.targets <= trace[|es|].w.made
  }

  lemma OneStep(env: Env, s: State, a: Event, t: State)
    requires Runs.Created(env, s) && Follows(env, s, a, t)
    ensures IsRun(env, [s, t], [a])
  {
  }

  lemma ThreeSteps(env: Env, s: State, a: Event, t: State, b: Event, u: State, c: Event, v: State)
    requires Runs.Created(env, s) && Follows(env, s, a, t) && Follows(env, t, b, u) && Follows(env, u, c, v)
    requires ProperEvent(a) && ProperEvent(b) && ProperEvent(c)
    ensures IsRun(env, [s, t, u, v], [a, b, c]) && ProperRun([a, b, c])
  {
    OneStep(env, s, a, t);
    LongerRun(env, [s, t], [a], b, u);
    LongerRun(env, [s, t] + [u], [a] + [b], c, v);
    assert [s, t] + [u] + [v] == [s, t, u, v] && [a] + [b] + [c] == [a, b, c];
  }

  lemma CaughtIsLawful(spec: Spec, f: Fates)
    ensures Lawful(Reconcile(Blank(spec), f, NOBODY).w)
  {
    NormalPassIsLawful(Blank(spec).(finalizer := true), f, NOBODY);
  }

  lemma OneRunIsEnough(env: Env, spec: Spec, trace: seq<State>, es: seq<Event>)
    requires IsRun(env, trace, es) && ProperRun(es) && trace[|es|].spec == spec
    requires !(trace[|es|].w.targets <= trace[|es|].w.made)
    ensures !SafeUnderAll(env, spec)
  {
  }

  lemma CaughtIsTargeted(t: State, spec: Spec, router: Id, network: Id)
    requires Caught(t, spec, router, network) && Lawful(t.w)
    ensures var v := Reconcile(t.(deleting := true), Quiet, NOBODY);
            v.spec == spec && !(v.w.targets <= v.w.made)
  {
    var u := t.(deleting := true, clock := 0);
    TrappedIsTargeted(u, router, network);
    DeletePassKeepsSpec(u, Quiet, NOBODY);
  }

  lemma DeletionGivesAway(env: Env, s: State, f: Fates, t: State, router: Id, network: Id)
    requires Runs.Created(env, s) && Follows(env, s, Wake(f, NOBODY), t)
    requires Lawful(t.w) && Caught(t, s.spec, router, network)
    ensures !SafeUnderAll(env, s.spec)
  {
    var u := t.(deleting := true);
    var v := Reconcile(u, Quiet, NOBODY);
    CaughtIsTargeted(t, s.spec, router, network);
    ThreeSteps(env, s, Wake(f, NOBODY), t, RequestDeletion, u, Wake(Quiet, NOBODY), v);
    OneRunIsEnough(env, s.spec, [s, t, u, v], [Wake(f, NOBODY), RequestDeletion, Wake(Quiet, NOBODY)]);
  }

  /**
   For an admitted spec without uuids: whatever others do, only CAPCS's own work is ever targeted,
   if and only if no router asks for an interface.
   */
  lemma SafeIffNothingToAttach(env: Env, spec: Spec)
    requires Admitted(env, spec) && NoUuids(spec)
    ensures SafeUnderAll(env, spec) <==> forall r | r in spec.routers :: r.interfaces == []
  {
    if forall r | r in spec.routers :: r.interfaces == [] {
      forall trace: seq<State>, es: seq<Event> | IsRun(env, trace, es) && ProperRun(es) && trace[|es|].spec == spec
        ensures trace[|es|].w.targets <= trace[|es|].w.made
      {
        SafeWithoutAttaching(env, trace, es, |es|);
      }
    } else {
      var r :| r in spec.routers && r.interfaces != [];
      var k := FindFirst(spec.routers, r);
      var j := FirstInterface(env, spec, k);
      var router := 2 * |spec.networks| + 1 + k;
      var f := Pestered(router, 2 * j + 1);
      FirstPassTraps(env, spec, k, j, router);
      BlankIsCreated(env, spec);
      CaughtIsLawful(spec, f);
      DeletionGivesAway(env, Blank(spec), f, Reconcile(Blank(spec), f, NOBODY), router, 2 * j + 1);
    }
  }
}
