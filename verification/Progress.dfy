/**
 Progress: if timed-out creates land and nothing is removed from outside, each pass that stops on a
 timed-out create brings the cloud one resource closer to the spec, so there are at most as many
 such passes as the spec asks for resources.
 */
module Progress {
  import opened Types
  import opened Cloud
  import opened Ensure
  import opened Networks
  import opened Routers
  import opened LoadBalancer
  import opened Members
  import opened Ownership
  import opened OwnershipSteps
  import opened OwnershipRouters
  import opened AtMostOne

  // ------------------------------------------------------------------ assumptions

  /** Others may add, never remove. */
  ghost predicate Gentle(acts: seq<Act>) {
    forall k | 0 <= k < |acts| :: !acts[k].Vanish? && !acts[k].Detach?
  }

  /** A write whose answer is lost has landed. Any other failure may or may not have. */
  ghost predicate GentleFates(f: Fates) {
    forall k: nat :: Gentle(f(k).outside) && (f(k).outcome.Timeout? ==> f(k).outcome.landed)
  }

  // ------------------------------------------------------------ what the spec asks for

  datatype Key = AResource(kind: Kind, tag: Tag) | AJoint(router: Name, network: Name) | AMember(name: Name)

  ghost function WantedKeys(spec: Spec, machines: seq<Machine>): set<Key> {
    (set n | n in spec.networks && n.uuid == NO_ID :: AResource(Network, Named(n.name)))
    + (set n | n in spec.networks && n.uuid == NO_ID :: AResource(Subnet, Named(n.name)))
    + (set r | r in spec.routers && r.uuid == NO_ID :: AResource(Router, Named(r.name)))
    + (set r, e | r in spec.routers && e in r.interfaces && e.uuid == NO_ID :: AJoint(r.name, e.network))
    + (if LbEnabled(spec) then LbKeys(machines) else {})
    + (if OwnsFip(spec) then {AResource(FloatingIp, Owned)} else {})
  }

  ghost function LbKeys(machines: seq<Machine>): set<Key> {
    {AResource(LoadBalancer, Owned), AResource(Pool, Owned), AResource(Listener, Owned), AResource(Monitor, Owned)}
    + (set m | m in machines && m.controlPlane :: AMember(m.name))
  }

  /** The id a spec network or router stands for: its uuid, or whatever carries its tag. */
  ghost predicate IsNetwork(spec: Spec, w: World, a: Name, id: Id) {
    var n := SpecNetwork(spec.networks, a);
    n.Some? && if n.value.uuid != NO_ID then id == n.value.uuid else id in Tagged(w, Network, Named(a))
  }

  ghost predicate IsRouter(spec: Spec, w: World, r: Name, id: Id) {
    var q := SpecRouter(spec.routers, r);
    q.Some? && if q.value.uuid != NO_ID then id == q.value.uuid else id in Tagged(w, Router, Named(r))
  }

  ghost predicate Wants(s: State, machines: seq<Machine>, x: Name) {
    var want := DesiredMembers(s.spec, s.st.networks, machines);
    want.Some? && IsWanted(want.value, x)
  }

  ghost predicate Joined(spec: Spec, w: World, r: Name, a: Name) {
    exists i | i in w.ifaces :: IsRouter(spec, w, r, w.ifaces[i].router) && IsNetwork(spec, w, a, w.ifaces[i].network)
  }

  ghost predicate InThePool(w: World, x: Name) {
    exists p | p in Tagged(w, Pool, Owned) :: At(w.members, p, x).Some?
  }

  ghost predicate Present(s: State, machines: seq<Machine>, k: Key) {
    match k
    case AResource(kind, tag) => Tagged(s.w, kind, tag) != {}
    case AJoint(r, a) => Joined(s.spec, s.w, r, a)
    case AMember(x) => Wants(s, machines, x) && InThePool(s.w, x)
  }

  /** How far the cloud has come. */
  ghost function Achieved(s: State, machines: seq<Machine>): set<Key> {
    set k | k in WantedKeys(s.spec, machines) && Present(s, machines, k)
  }

  // --------------------------------------------------------------- moving forward

  ghost predicate Grown(w: World, v: World) {
    && (forall i | i in w.res :: i in v.res && v.res[i] == w.res[i])
    && (forall i | i in w.ifaces :: i in v.ifaces && v.ifaces[i] == w.ifaces[i])
  }

  /** The endpoint may be filled in; nothing else of the spec changes. */
  ghost predicate SameWish(a: Spec, b: Spec) {
    b == a.(host := b.host, port := b.port)
  }

  ghost predicate KeepsMembers(s: State, t: State, machines: seq<Machine>) {
    forall p, x | Wants(s, machines, x) && At(s.w.members, p, x).Some? :: At(t.w.members, p, x).Some?
  }

  ghost predicate Forward(s: State, t: State, machines: seq<Machine>) {
    && SameWish(s.spec, t.spec) && Grown(s.w, t.w)
    && s.st.networks <= t.st.networks && KeepsMembers(s, t, machines)
  }

  /** A resource of the spec is there that was not there before. */
  ghost predicate New(s: State, t: State, machines: seq<Machine>) {
    exists k :: k in WantedKeys(s.spec, machines) && !Present(s, machines, k) && Present(t, machines, k)
  }

  lemma TaggedGrows(w: World, v: World, kind: Kind, tag: Tag)
    requires Grown(w, v)
    ensures Tagged(w, kind, tag) <= Tagged(v, kind, tag)
  {
  }

  lemma {:induction false} FindInPrefix(a: seq<NetworkStatus>, b: seq<NetworkStatus>, name: Name)
    requires a <= b && FindNetwork(a, name).Some?
    ensures FindNetwork(b, name) == FindNetwork(a, name)
  {
    if a[0].name != name {
      assert a[1..] <= b[1..];
      FindInPrefix(a[1..], b[1..], name);
    }
  }

  lemma {:induction false} CidrInPrefix(a: seq<NetworkStatus>, b: seq<NetworkStatus>, subnet: Id)
    requires a <= b && MemberSubnetCidr(a, subnet).Some?
    ensures MemberSubnetCidr(b, subnet) == MemberSubnetCidr(a, subnet)
  {
    if !(a[0].subnetId == subnet && a[0].cidr.Some?) {
      assert a[1..] <= b[1..];
      CidrInPrefix(a[1..], b[1..], subnet);
    }
  }

  /** More entries do not change what is desired once something is. */
  lemma DesiredStays(spec: Spec, a: seq<NetworkStatus>, b: seq<NetworkStatus>, machines: seq<Machine>)
    requires a <= b && DesiredMembers(spec, a, machines).Some?
    ensures DesiredMembers(spec, b, machines) == DesiredMembers(spec, a, machines)
  {
    if spec.lb.poolMemberNetwork.Some? {
      FindInPrefix(a, b, spec.lb.poolMemberNetwork.value);
    } else if spec.lb.network.Some? {
      FindInPrefix(a, b, spec.lb.network.value);
    } else {
      assert b[0] == a[0];
    }
    CidrInPrefix(a, b, PoolMemberSubnet(spec, a).value);
  }

  lemma StillWants(s: State, t: State, machines: seq<Machine>, x: Name)
    requires SameWish(s.spec, t.spec) && s.st.networks <= t.st.networks && Wants(s, machines, x)
    ensures Wants(t, machines, x)
  {
    DesiredStays(s.spec, s.st.networks, t.st.networks, machines);
    assert DesiredMembers(t.spec, t.st.networks, machines) == DesiredMembers(s.spec, t.st.networks, machines);
  }

  lemma JoinedStays(s: State, t: State, r: Name, a: Name)
    requires SameWish(s.spec, t.spec) && Grown(s.w, t.w) && Joined(s.spec, s.w, r, a)
    ensures Joined(t.spec, t.w, r, a)
  {
    TaggedGrows(s.w, t.w, Router, Named(r));
    TaggedGrows(s.w, t.w, Network, Named(a));
    var i :| i in s.w.ifaces && IsRouter(s.spec, s.w, r, s.w.ifaces[i].router) && IsNetwork(s.spec, s.w, a, s.w.ifaces[i].network);
    assert i in t.w.ifaces;
  }

  lemma MemberStays(s: State, t: State, machines: seq<Machine>, x: Name)
    requires Forward(s, t, machines) && Wants(s, machines, x) && InThePool(s.w, x)
    ensures Wants(t, machines, x) && InThePool(t.w, x)
  {
    TaggedGrows(s.w, t.w, Pool, Owned);
    StillWants(s, t, machines, x);
    var p :| p in Tagged(s.w, Pool, Owned) && At(s.w.members, p, x).Some?;
    assert p in Tagged(t.w, Pool, Owned) && At(t.w.members, p, x).Some?;
  }

  lemma PresentStays(s: State, t: State, machines: seq<Machine>, k: Key)
    requires Forward(s, t, machines) && Present(s, machines, k)
    ensures Present(t, machines, k)
  {
    match k
    case AResource(kind, tag) => TaggedGrows(s.w, t.w, kind, tag);
    case AJoint(r, a) => JoinedStays(s, t, r, a);
    case AMember(x) => MemberStays(s, t, machines, x);
  }

  lemma ForwardTransitive(s: State, t: State, u: State, machines: seq<Machine>)
    requires Forward(s, t, machines) && Forward(t, u, machines)
    ensures Forward(s, u, machines)
  {
    forall p, x | Wants(s, machines, x) && At(s.w.members, p, x).Some? ensures At(u.w.members, p, x).Some? {
      StillWants(s, t, machines, x);
    }
  }

  /** How a stage may end: forward, and with something new when it stalled on a timed-out create. */
  ghost predicate Goes(s: State, t: State, flow: Flow, machines: seq<Machine>) {
    Forward(s, t, machines) && (flow == Stalled ==> New(s, t, machines))
  }

  lemma SameKeys(a: Spec, b: Spec, machines: seq<Machine>)
    requires SameWish(a, b)
    ensures WantedKeys(a, machines) == WantedKeys(b, machines)
  {
  }

  lemma GoesOn(s: State, t: State, u: State, flow: Flow, machines: seq<Machine>)
    requires Forward(s, t, machines) && Goes(t, u, flow, machines)
    ensures Goes(s, u, flow, machines)
  {
    ForwardTransitive(s, t, u, machines);
    if flow == Stalled {
      var k :| k in WantedKeys(t.spec, machines) && !Present(t, machines, k) && Present(u, machines, k);
      SameKeys(s.spec, t.spec, machines);
      if Present(s, machines, k) { PresentStays(s, t, machines, k); }
    }
  }

  lemma StaysNew(s: State, t: State, u: State, machines: seq<Machine>)
    requires New(s, t, machines) && Forward(t, u, machines)
    ensures New(s, u, machines)
  {
    var k :| k in WantedKeys(s.spec, machines) && !Present(s, machines, k) && Present(t, machines, k);
    PresentStays(t, u, machines, k);
  }

  // --------------------------------------------------------------- what status says

  /** Recorded ids are the ones the tags, or the spec, point to. */
  ghost predicate NetworkTrue(spec: Spec, w: World, n: NetworkStatus) {
    var m := SpecNetwork(spec.networks, n.name);
    && m.Some? && n.managed == (m.value.uuid == NO_ID)
    && IsNetwork(spec, w, n.name, n.networkId) && n.subnetId != NO_ID
    && (if n.managed then n.subnetId in Tagged(w, Subnet, Named(n.name)) && n.cidr == m.value.cidr else n.cidr.Some?)
  }

  ghost predicate NetworksTrue(s: State) {
    forall a | FindNetwork(s.st.networks, a).Some? ::
      FindNetwork(s.st.networks, a).value.name == a && NetworkTrue(s.spec, s.w, FindNetwork(s.st.networks, a).value)
  }

  ghost predicate RoutersTrue(s: State) {
    forall r | FindRouter(s.st.routers, r).Some? :: IsRouter(s.spec, s.w, r, FindRouter(s.st.routers, r).value.routerId)
  }

  ghost predicate PoolTrue(s: State) {
    s.st.poolId != NO_ID ==> s.st.poolId in Tagged(s.w, Pool, Owned)
  }

  ghost predicate Steady(s: State) {
    Lawful(s.w) && SpecOk(s.spec) && NetworksTrue(s) && RoutersTrue(s) && PoolTrue(s)
  }

  lemma NetworkStaysTrue(spec: Spec, w: World, v: World, n: NetworkStatus)
    requires NetworkTrue(spec, w, n) && Grown(w, v)
    ensures NetworkTrue(spec, v, n)
  {
    TaggedGrows(w, v, Network, Named(n.name));
    TaggedGrows(w, v, Subnet, Named(n.name));
  }

  /** With status untouched, a growing cloud keeps it true. */
  lemma SteadyGrows(s: State, t: State)
    requires Steady(s) && t.st == s.st && t.spec == s.spec && Grown(s.w, t.w) && Lawful(t.w)
    ensures Steady(t)
  {
    forall a | FindNetwork(t.st.networks, a).Some? ensures NetworkTrue(t.spec, t.w, FindNetwork(t.st.networks, a).value) {
      NetworkStaysTrue(s.spec, s.w, t.w, FindNetwork(s.st.networks, a).value);
    }
    forall r | FindRouter(t.st.routers, r).Some? ensures IsRouter(t.spec, t.w, r, FindRouter(t.st.routers, r).value.routerId) {
      TaggedGrows(s.w, t.w, Router, Named(r));
    }
    TaggedGrows(s.w, t.w, Pool, Owned);
  }

  // ------------------------------------------------------------------ single calls

  lemma ActGrows(w: World, spec: Spec, act: Act)
    requires !act.Vanish? && !act.Detach? && CloudOk(w)
    ensures var v := Outside(w, spec, act); Grown(w, v) && v.members == w.members && CloudOk(v)
  {
    OutsideKeepsCloud(w, spec, act);
  }

  lemma GrownTransitive(u: World, v: World, w: World)
    requires Grown(u, v) && Grown(v, w)
    ensures Grown(u, w)
  {
  }

  lemma OutsideGrows(w: World, spec: Spec, acts: seq<Act>)
    requires Gentle(acts) && CloudOk(w)
    ensures var v := OutsideAll(w, spec, acts); Grown(w, v) && v.members == w.members
    decreases acts
  {
    if acts != [] {
      ActGrows(w, spec, acts[0]);
      var u := Outside(w, spec, acts[0]);
      OutsideGrows(u, spec, acts[1..]);
      GrownTransitive(w, u, OutsideAll(u, spec, acts[1..]));
    }
  }

  lemma TickGrows(s: State, f: Fates)
    requires Lawful(s.w) && GentleFates(f)
    ensures var t := Tick(s, f); Lawful(t.w) && Grown(s.w, t.w) && t.w.members == s.w.members
  {
    OutsideGrows(s.w, s.spec, f(s.clock).outside);
    TickIsLawful(s, f);
  }

  /** Steady before, steady after, and forward in between. */
  ghost predicate Onward(s: State, t: State, machines: seq<Machine>) {
    Steady(t) && Forward(s, t, machines)
  }

  lemma OnwardTransitive(s: State, t: State, u: State, machines: seq<Machine>)
    requires Onward(s, t, machines) && Onward(t, u, machines)
    ensures Onward(s, u, machines)
  {
    ForwardTransitive(s, t, u, machines);
  }

  /** Only the cloud changed, and only by additions. */
  lemma GrowthGoes(s: State, t: State, machines: seq<Machine>)
    requires Steady(s) && SameRecords(s, t) && Grown(s.w, t.w) && Lawful(t.w)
    requires forall p, x | At(s.w.members, p, x).Some? :: At(t.w.members, p, x).Some?
    ensures Onward(s, t, machines)
  {
    SteadyGrows(s, t);
  }

  lemma TickGoes(s: State, f: Fates, machines: seq<Machine>)
    requires Steady(s) && GentleFates(f)
    ensures Onward(s, Tick(s, f), machines)
  {
    TickGrows(s, f);
    GrowthGoes(s, Tick(s, f), machines);
  }

  lemma CreateGrows(s: State, f: Fates, kind: Kind, tag: Tag, parent: Id)
    requires Lawful(s.w) && GentleFates(f) && Tagged(s.w, kind, tag) == {}
    ensures var c := Create(s, f, kind, tag, parent); Lawful(c.s.w) && Grown(s.w, c.s.w) && c.s.w.members == s.w.members
  {
    TickGrows(s, f);
    CreateIsLawful(s, f, kind, tag, parent);
    var t, c := Tick(s, f), Create(s, f, kind, tag, parent);
    LandGrows(t.w, kind, tag, parent);
    GrownTransitive(s.w, t.w, c.s.w);
  }

  lemma LandGrows(w: World, kind: Kind, tag: Tag, parent: Id)
    requires Lawful(w)
    ensures Grown(w, Land(w, kind, tag, parent))
  {
  }

  /** A create whose answer is lost: its tag is there now. */
  lemma CreateFinds(s: State, f: Fates, kind: Kind, tag: Tag, parent: Id)
    requires GentleFates(f)
    ensures var c := Create(s, f, kind, tag, parent);
            && (c.reply.TimedOut? ==> Tagged(c.s.w, kind, tag) != {})
            && (c.reply.Done? ==> c.reply.id in Tagged(c.s.w, kind, tag))
  {
    var t, c := Tick(s, f), Create(s, f, kind, tag, parent);
    assert c.s.w != t.w ==> t.w.next in Tagged(c.s.w, kind, tag);
  }

  /** ensureResource makes one call or two, and both only read. */
  lemma EnsureOnlyReads(s: State, f: Fates, current: Id, kind: Kind, tag: Tag)
    ensures var e := EnsureResource(s, f, current, kind, tag); e.s == Tick(s, f) || e.s == Tick(Tick(s, f), f)
  {
  }

  lemma EnsureGrows(s: State, f: Fates, current: Id, kind: Kind, tag: Tag)
    requires Lawful(s.w) && GentleFates(f)
    ensures var e := EnsureResource(s, f, current, kind, tag);
            Lawful(e.s.w) && Grown(s.w, e.s.w) && e.s.w.members == s.w.members
  {
    EnsureOnlyReads(s, f, current, kind, tag);
    TickGrows(s, f);
    var t := Tick(s, f);
    TickGrows(t, f);
    GrownTransitive(s.w, t.w, Tick(t, f).w);
  }

  lemma ByTagFinds(s: State, f: Fates, kind: Kind, tag: Tag)
    requires Lawful(s.w)
    ensures var e := ByTag(s, f, kind, tag); !e.err && e.id != NO_ID ==> e.id in Tagged(e.s.w, kind, tag)
  {
    var l := List(s, f, kind, tag);
    if |l.ids| == 1 { assert Only(l.ids) in l.ids; }
  }

  lemma EnsureFinds(s: State, f: Fates, current: Id, kind: Kind, tag: Tag)
    requires Lawful(s.w) && GentleFates(f) && (current == NO_ID || current in Tagged(s.w, kind, tag))
    ensures var e := EnsureResource(s, f, current, kind, tag);
            !e.err ==> if current != NO_ID then e.id == current else e.id != NO_ID ==> e.id in Tagged(e.s.w, kind, tag)
  {
    TickGrows(s, f);
    var t := Tick(s, f);
    TaggedGrows(s.w, t.w, kind, tag);
    ByTagFinds(s, f, kind, tag);
  }

  lemma ObtainGrows(s: State, f: Fates, current: Id, kind: Kind, tag: Tag, parent: Id)
    requires Lawful(s.w) && GentleFates(f)
    ensures var o := Obtain(s, f, current, kind, tag, parent);
            && Lawful(o.s.w) && Grown(s.w, o.s.w) && o.s.w.members == s.w.members
            && (o.flow == Stalled ==> Tagged(s.w, kind, tag) == {} && Tagged(o.s.w, kind, tag) != {})
  {
    EnsureGrows(s, f, current, kind, tag);
    EnsureIsLawful(s, f, current, kind, tag);
    var e := EnsureResource(s, f, current, kind, tag);
    if !e.err && e.id == NO_ID {
      CreateGrows(e.s, f, kind, tag, parent);
      CreateFinds(e.s, f, kind, tag, parent);
      GrownTransitive(s.w, e.s.w, Create(e.s, f, kind, tag, parent).s.w);
      TaggedGrows(s.w, e.s.w, kind, tag);
    }
  }

  /** What is obtained carries the tag, and is what was recorded if something was. */
  lemma ObtainFinds(s: State, f: Fates, current: Id, kind: Kind, tag: Tag, parent: Id)
    requires Lawful(s.w) && GentleFates(f) && (current == NO_ID || current in Tagged(s.w, kind, tag))
    ensures var o := Obtain(s, f, current, kind, tag, parent);
            o.flow == Proceed ==> o.id in Tagged(o.s.w, kind, tag) && (current != NO_ID ==> o.id == current)
  {
    EnsureFinds(s, f, current, kind, tag);
    EnsureGrows(s, f, current, kind, tag);
    var e := EnsureResource(s, f, current, kind, tag);
    TaggedGrows(s.w, e.s.w, kind, tag);
    CreateFinds(e.s, f, kind, tag, parent);
  }

  lemma ObtainGoes(s: State, f: Fates, current: Id, kind: Kind, tag: Tag, parent: Id, machines: seq<Machine>)
    requires Steady(s) && GentleFates(f)
    ensures Onward(s, Obtain(s, f, current, kind, tag, parent).s, machines)
  {
    ObtainGrows(s, f, current, kind, tag, parent);
    GrowthGoes(s, Obtain(s, f, current, kind, tag, parent).s, machines);
  }

  /** A tag the spec asks for that was free and no longer is. */
  lemma TagIsNew(s: State, t: State, kind: Kind, tag: Tag, machines: seq<Machine>)
    requires Tagged(s.w, kind, tag) == {} && Tagged(t.w, kind, tag) != {}
    requires AResource(kind, tag) in WantedKeys(s.spec, machines)
    ensures New(s, t, machines)
  {
    assert !Present(s, machines, AResource(kind, tag)) && Present(t, machines, AResource(kind, tag));
  }

  // ---------------------------------------------------------------------- networks

  lemma PutSameNetwork(ns: seq<NetworkStatus>, n: NetworkStatus)
    requires FindNetwork(ns, n.name) == Some(n)
    ensures PutNetwork(ns, n) == ns
  {
  }

  lemma PutNewNetwork(ns: seq<NetworkStatus>, n: NetworkStatus)
    requires FindNetwork(ns, n.name).None?
    ensures PutNetwork(ns, n) == ns + [n]
  {
  }

  /** Writing a true entry keeps status true; if it was there already nothing changes. */
  lemma SetNetworkGoes(s: State, n: NetworkStatus, machines: seq<Machine>)
    requires Steady(s) && NetworkTrue(s.spec, s.w, n)
    requires FindNetwork(s.st.networks, n.name).Some? ==> FindNetwork(s.st.networks, n.name) == Some(n)
    ensures Onward(s, SetNetwork(s, n), machines)
  {
    if FindNetwork(s.st.networks, n.name).Some? { PutSameNetwork(s.st.networks, n); } else { PutNewNetwork(s.st.networks, n); }
    var t := SetNetwork(s, n);
    forall a ensures FindNetwork(t.st.networks, a) == if a == n.name then Some(n) else FindNetwork(s.st.networks, a) {
      FindPutNetwork(s.st.networks, n, a);
    }
  }

  lemma PreExistingNetworkGoes(s: State, f: Fates, n: NetworkSpec, machines: seq<Machine>)
    requires Steady(s) && GentleFates(f) && n.uuid != NO_ID && SpecNetwork(s.spec.networks, n.name) == Some(n)
    ensures var e := PreExistingNetwork(s, f, n);
            Onward(s, e.s, machines) && e.flow != Stalled
  {
    var e := FindNetwork(s.st.networks, n.name);
    TickGoes(s, f, machines);
    var t, fate := Tick(s, f), f(s.clock);
    var m := NetworkStatus(n.name, n.uuid, fate.value, Some(fate.cidr), false);
    if e.None? && fate.value != NO_ID {
      SetNetworkGoes(t, m, machines);
      OnwardTransitive(s, t, SetNetwork(t, m), machines);
    }
  }

  lemma ManagedNetworkIsWanted(spec: Spec, n: NetworkSpec, machines: seq<Machine>)
    requires n in spec.networks && n.uuid == NO_ID
    ensures AResource(Network, Named(n.name)) in WantedKeys(spec, machines)
    ensures AResource(Subnet, Named(n.name)) in WantedKeys(spec, machines)
  {
  }

  /** Network and subnet are there; the entry written for them is the one that was there, if any. */
  lemma RecordNetworkGoes(s: State, n: NetworkSpec, net: Id, sub: Id, machines: seq<Machine>)
    requires Steady(s) && n.uuid == NO_ID && SpecNetwork(s.spec.networks, n.name) == Some(n)
    requires net in Tagged(s.w, Network, Named(n.name)) && sub in Tagged(s.w, Subnet, Named(n.name))
    ensures var t := SetNetwork(s, NetworkStatus(n.name, net, sub, n.cidr, true));
            Onward(s, t, machines)
  {
    var m := NetworkStatus(n.name, net, sub, n.cidr, true);
    assert NetworkTrue(s.spec, s.w, m);
    SetNetworkGoes(s, m, machines);
  }

  lemma ManagedNetworkGoes(s: State, f: Fates, n: NetworkSpec, machines: seq<Machine>)
    requires Steady(s) && GentleFates(f) && n.uuid == NO_ID && SpecNetwork(s.spec.networks, n.name) == Some(n)
    ensures var e := ManagedNetwork(s, f, n);
            Onward(s, e.s, machines) && (e.flow == Stalled ==> New(s, e.s, machines))
  {
    var e := FindNetwork(s.st.networks, n.name);
    var networkId := if e.Some? then e.value.networkId else NO_ID;
    var subnetId := if e.Some? then e.value.subnetId else NO_ID;
    SpecNetworkIn(s.spec.networks, n.name);
    ManagedNetworkIsWanted(s.spec, n, machines);
    var tag := Named(n.name);
    ObtainGoes(s, f, networkId, Network, tag, NO_ID, machines);
    ObtainGrows(s, f, networkId, Network, tag, NO_ID);
    var net := Obtain(s, f, networkId, Network, tag, NO_ID);
    if net.flow == Stalled {
      TagIsNew(s, net.s, Network, tag, machines);
    } else if net.flow == Proceed {
      ObtainFinds(s, f, networkId, Network, tag, NO_ID);
      SubnetGoes(net.s, f, n, subnetId, net.id, machines);
      var r := ManagedNetwork(s, f, n);
      OnwardTransitive(s, net.s, r.s, machines);
      GoesOn(s, net.s, r.s, r.flow, machines);
    }
  }

  lemma SubnetGoes(s: State, f: Fates, n: NetworkSpec, subnetId: Id, net: Id, machines: seq<Machine>)
    requires Steady(s) && GentleFates(f) && n.uuid == NO_ID && SpecNetwork(s.spec.networks, n.name) == Some(n)
    requires subnetId == NO_ID || subnetId in Tagged(s.w, Subnet, Named(n.name))
    requires net in Tagged(s.w, Network, Named(n.name))
    ensures var sub := Obtain(s, f, subnetId, Subnet, Named(n.name), net);
            if sub.flow != Proceed then Onward(s, sub.s, machines) && Goes(s, sub.s, sub.flow, machines)
            else var t := SetNetwork(sub.s, NetworkStatus(n.name, net, sub.id, n.cidr, true));
                 Onward(s, t, machines)
  {
    var tag := Named(n.name);
    SpecNetworkIn(s.spec.networks, n.name);
    ManagedNetworkIsWanted(s.spec, n, machines);
    ObtainGoes(s, f, subnetId, Subnet, tag, net, machines);
    ObtainGrows(s, f, subnetId, Subnet, tag, net);
    var sub := Obtain(s, f, subnetId, Subnet, tag, net);
    if sub.flow == Stalled {
      TagIsNew(s, sub.s, Subnet, tag, machines);
    } else if sub.flow == Proceed {
      ObtainFinds(s, f, subnetId, Subnet, tag, net);
      TaggedGrows(s.w, sub.s.w, Network, tag);
      RecordNetworkGoes(sub.s, n, net, sub.id, machines);
      OnwardTransitive(s, sub.s, SetNetwork(sub.s, NetworkStatus(n.name, net, sub.id, n.cidr, true)), machines);
    }
  }

  lemma NetworksGo(s: State, f: Fates, k: nat, machines: seq<Machine>)
    requires Steady(s) && GentleFates(f) && k <= |s.spec.networks|
    ensures var e := NetworksFrom(s, f, s.spec.networks, k); Onward(s, e.s, machines) && Goes(s, e.s, e.flow, machines)
    decreases |s.spec.networks| - k
  {
    if k < |s.spec.networks| {
      var n := s.spec.networks[k];
      SpecNetworkAt(s.spec.networks, k);
      if n.uuid != NO_ID { PreExistingNetworkGoes(s, f, n, machines); } else { ManagedNetworkGoes(s, f, n, machines); }
      var one := ReconcileNetwork(s, f, n);
      if one.flow == Proceed {
        NetworksGo(one.s, f, k + 1, machines);
        var e := NetworksFrom(one.s, f, s.spec.networks, k + 1);
        OnwardTransitive(s, one.s, e.s, machines);
        GoesOn(s, one.s, e.s, e.flow, machines);
      }
    }
  }

  // ----------------------------------------------------------------------- routers

  lemma RouterEditGoes(s: State, t: State, machines: seq<Machine>)
    requires Steady(s) && t == s.(st := s.st.(routers := t.st.routers)) && RoutersTrue(t)
    ensures Onward(s, t, machines)
  {
  }

  lemma SetInterfaceGoes(s: State, r: Name, e: InterfaceStatus, machines: seq<Machine>)
    requires Steady(s)
    ensures Onward(s, SetInterface(s, r, e), machines)
  {
    var t := SetInterface(s, r, e);
    if FindRouter(s.st.routers, r).Some? {
      forall q | FindRouter(t.st.routers, q).Some? ensures IsRouter(t.spec, t.w, q, FindRouter(t.st.routers, q).value.routerId) {
        SetInterfaceFinds(s, r, e, q);
      }
    }
    RouterEditGoes(s, t, machines);
  }

  lemma SetRouterGoes(s: State, r: RouterSpec, id: Id, machines: seq<Machine>)
    requires Steady(s) && IsRouter(s.spec, s.w, r.name, id)
    ensures Onward(s, SetRouter(s, r, id), machines)
  {
    SetRouterFinds(s, r, id);
    RouterEditGoes(s, SetRouter(s, r, id), machines);
  }

  /** A spec entry stands for one id only. */
  lemma OneRouter(spec: Spec, w: World, r: Name, x: Id, y: Id)
    requires Lawful(w) && IsRouter(spec, w, r, x) && IsRouter(spec, w, r, y)
    ensures x == y
  {
  }

  lemma OneNetwork(spec: Spec, w: World, a: Name, x: Id, y: Id)
    requires Lawful(w) && IsNetwork(spec, w, a, x) && IsNetwork(spec, w, a, y)
    ensures x == y
  {
  }

  lemma AttachableIsNotJoined(spec: Spec, w: World, r: Name, a: Name, router: Id, network: Id)
    requires Lawful(w) && IsRouter(spec, w, r, router) && IsNetwork(spec, w, a, network) && CanAttach(w, router, network)
    ensures !Joined(spec, w, r, a)
  {
    forall i | i in w.ifaces ensures !(IsRouter(spec, w, r, w.ifaces[i].router) && IsNetwork(spec, w, a, w.ifaces[i].network)) {
      assert w.ifaces[i] != Attachment(router, network);
      if IsRouter(spec, w, r, w.ifaces[i].router) && IsNetwork(spec, w, a, w.ifaces[i].network) {
        OneRouter(spec, w, r, router, w.ifaces[i].router);
        OneNetwork(spec, w, a, network, w.ifaces[i].network);
      }
    }
  }

  lemma CreateInterfaceGrows(s: State, f: Fates, router: Id, network: Id)
    requires Lawful(s.w) && GentleFates(f)
    ensures var t, c := Tick(s, f), CreateInterface(s, f, router, network);
            Lawful(t.w) && Grown(s.w, t.w) && Lawful(c.s.w) && Grown(t.w, c.s.w) && c.s.w.members == s.w.members
  {
    TickGrows(s, f);
    CreateInterfaceIsLawful(s, f, router, network);
    AttachGrows(Tick(s, f).w, router, network);
  }

  lemma AttachGrows(w: World, router: Id, network: Id)
    requires Lawful(w)
    ensures forall made :: Grown(w, AttachNow(w, router, network).(made := made))
  {
  }

  /** When the answer to an attach is lost, the interface is there. */
  lemma LostAttachLanded(s: State, f: Fates, router: Id, network: Id)
    requires GentleFates(f) && CreateInterface(s, f, router, network).reply.TimedOut?
    ensures var t, c := Tick(s, f), CreateInterface(s, f, router, network);
            CanAttach(t.w, router, network) && Attached(c.s.w, router, network) && c.s.w.res == t.w.res
  {
    var t, c := Tick(s, f), CreateInterface(s, f, router, network);
    assert t.w.next in c.s.w.ifaces && c.s.w.ifaces[t.w.next] == Attachment(router, network);
  }

  lemma LandedAttachIsNew(s: State, t: State, r: Name, a: Name, router: Id, network: Id, machines: seq<Machine>)
    requires Lawful(s.w) && t.spec == s.spec && CanAttach(s.w, router, network) && Attached(t.w, router, network)
    requires t.w.res == s.w.res && IsRouter(s.spec, s.w, r, router) && IsNetwork(s.spec, s.w, a, network)
    requires AJoint(r, a) in WantedKeys(s.spec, machines)
    ensures New(s, t, machines)
  {
    AttachableIsNotJoined(s.spec, s.w, r, a, router, network);
    var i :| i in t.w.ifaces && t.w.ifaces[i] == Attachment(router, network);
    assert IsRouter(t.spec, t.w, r, t.w.ifaces[i].router) && IsNetwork(t.spec, t.w, a, t.w.ifaces[i].network);
    assert !Present(s, machines, AJoint(r, a)) && Present(t, machines, AJoint(r, a));
  }

  /** The create call itself. */
  lemma CreateInterfaceGoes(s: State, f: Fates, r: Name, a: Name, router: Id, network: Id, machines: seq<Machine>)
    requires Steady(s) && GentleFates(f) && IsRouter(s.spec, s.w, r, router) && IsNetwork(s.spec, s.w, a, network)
    requires AJoint(r, a) in WantedKeys(s.spec, machines)
    ensures var c := CreateInterface(s, f, router, network);
            Onward(s, c.s, machines) && (c.reply.TimedOut? ==> New(s, c.s, machines))
  {
    CreateInterfaceGrows(s, f, router, network);
    var t, c := Tick(s, f), CreateInterface(s, f, router, network);
    GrowthGoes(s, t, machines);
    GrowthGoes(t, c.s, machines);
    OnwardTransitive(s, t, c.s, machines);
    if c.reply.TimedOut? {
      LostAttachLanded(s, f, router, network);
      TaggedGrows(s.w, t.w, Router, Named(r));
      TaggedGrows(s.w, t.w, Network, Named(a));
      LandedAttachIsNew(t, c.s, r, a, router, network, machines);
      GoesOn(s, t, c.s, Stalled, machines);
    }
  }

  lemma AttachGoes(s: State, f: Fates, r: RouterSpec, router: Id, e: InterfaceSpec, network: Id, machines: seq<Machine>)
    requires Steady(s) && GentleFates(f) && r in s.spec.routers && e in r.interfaces && e.uuid == NO_ID
    requires IsRouter(s.spec, s.w, r.name, router) && IsNetwork(s.spec, s.w, e.network, network)
    ensures var t := AttachInterface(s, f, r, router, e, network); Onward(s, t.s, machines) && Goes(s, t.s, t.flow, machines)
  {
    var pending := InterfaceStatus(e.network, NO_ID, true);
    SetInterfaceGoes(s, r.name, pending, machines);
    var p := SetInterface(s, r.name, pending);
    assert AJoint(r.name, e.network) in WantedKeys(s.spec, machines);
    CreateInterfaceGoes(p, f, r.name, e.network, router, network, machines);
    AttachAnswered(s, p, CreateInterface(p, f, router, network), r.name, e.network, machines);
  }

  lemma AttachAnswered(s: State, p: State, c: Called, router: Name, network: Name, machines: seq<Machine>)
    requires Onward(s, p, machines) && Onward(p, c.s, machines) && (c.reply.TimedOut? ==> New(p, c.s, machines))
    ensures Onward(s, c.s, machines) && (c.reply.TimedOut? ==> New(s, c.s, machines))
    ensures c.reply.Done? ==> Onward(s, SetInterface(c.s, router, InterfaceStatus(network, c.reply.id, true)), machines)
  {
    OnwardTransitive(s, p, c.s, machines);
    if c.reply.Done? {
      var done := InterfaceStatus(network, c.reply.id, true);
      SetInterfaceGoes(c.s, router, done, machines);
      OnwardTransitive(s, c.s, SetInterface(c.s, router, done), machines);
    } else if c.reply.TimedOut? {
      GoesOn(s, p, c.s, Stalled, machines);
    }
  }

  /** Adopting and claiming only write status. */
  lemma RecordInterfaceGoes(s: State, r: RouterSpec, live: map<Id, Id>, e: InterfaceSpec, network: Id, iface: Id, machines: seq<Machine>)
    requires Steady(s)
    ensures var t := AdoptInterface(s, r, live, e, network); Onward(s, t.s, machines) && Goes(s, t.s, t.flow, machines)
    ensures var t := ClaimInterface(s, r, e, iface); Onward(s, t.s, machines) && Goes(s, t.s, t.flow, machines)
  {
    RouterEditGoes(s, s, machines);
    SetInterfaceGoes(s, r.name, InterfaceStatus(e.network, e.uuid, false), machines);
    SetInterfaceGoes(s, r.name, InterfaceStatus(e.network, iface, true), machines);
  }

  lemma InterfaceGoes(s: State, f: Fates, r: RouterSpec, router: Id, live: map<Id, Id>, e: InterfaceSpec, machines: seq<Machine>)
    requires Steady(s) && GentleFates(f) && r in s.spec.routers && e in r.interfaces && IsRouter(s.spec, s.w, r.name, router)
    ensures var t := ReconcileInterface(s, f, r, router, live, e); Onward(s, t.s, machines) && Goes(s, t.s, t.flow, machines)
  {
    var n := FindNetwork(s.st.networks, e.network);
    if n.None? {
      RouterEditGoes(s, s, machines);
    } else if e.uuid != NO_ID {
      RecordInterfaceGoes(s, r, live, e, n.value.networkId, NO_ID, machines);
    } else if exists i :: i in live && live[i] == n.value.networkId {
      RecordInterfaceGoes(s, r, live, e, n.value.networkId, LiveOn(live, n.value.networkId), machines);
    } else {
      AttachGoes(s, f, r, router, e, n.value.networkId, machines);
    }
  }

  lemma InterfacesGo(s: State, f: Fates, r: RouterSpec, router: Id, live: map<Id, Id>, k: nat, machines: seq<Machine>)
    requires Steady(s) && GentleFates(f) && r in s.spec.routers && k <= |r.interfaces| && IsRouter(s.spec, s.w, r.name, router)
    ensures var t := InterfacesFrom(s, f, r, router, live, k); Onward(s, t.s, machines) && Goes(s, t.s, t.flow, machines)
    decreases |r.interfaces| - k
  {
    RouterEditGoes(s, s, machines);
    if k < |r.interfaces| {
      InterfaceGoes(s, f, r, router, live, r.interfaces[k], machines);
      var one := ReconcileInterface(s, f, r, router, live, r.interfaces[k]);
      if one.flow == Proceed {
        TaggedGrows(s.w, one.s.w, Router, Named(r.name));
        InterfacesGo(one.s, f, r, router, live, k + 1, machines);
        var t := InterfacesFrom(one.s, f, r, router, live, k + 1);
        OnwardTransitive(s, one.s, t.s, machines);
        GoesOn(s, one.s, t.s, t.flow, machines);
      }
    }
  }

  lemma SettleGoes(s: State, f: Fates, r: RouterSpec, router: Id, machines: seq<Machine>)
    requires Steady(s) && GentleFates(f) && r in s.spec.routers && IsRouter(s.spec, s.w, r.name, router)
    ensures var t := Settle(s, f, r, router); Onward(s, t.s, machines) && Goes(s, t.s, t.flow, machines)
  {
    SetRouterGoes(s, r, router, machines);
    var p := SetRouter(s, r, router);
    InterfacesGo(p, f, r, router, Interfaces(s.w, router), 0, machines);
    var t := InterfacesFrom(p, f, r, router, Interfaces(s.w, router), 0);
    OnwardTransitive(s, p, t.s, machines);
    GoesOn(s, p, t.s, t.flow, machines);
  }

  lemma RouterGoes(s: State, f: Fates, r: RouterSpec, machines: seq<Machine>)
    requires Steady(s) && GentleFates(f) && SpecRouter(s.spec.routers, r.name) == Some(r)
    ensures var t := ReconcileRouter(s, f, r); Onward(s, t.s, machines) && Goes(s, t.s, t.flow, machines)
  {
    SpecRouterIn(s.spec.routers, r.name);
    var t := ReconcileRouter(s, f, r);
    if r.uuid != NO_ID {
      TickGoes(s, f, machines);
      var g := Get(s, f, Router, r.uuid);
      SettleGoes(g.s, f, r, r.uuid, machines);
      OnwardTransitive(s, g.s, Settle(g.s, f, r, r.uuid).s, machines);
      GoesOn(s, g.s, t.s, t.flow, machines);
    } else {
      ManagedRouterGoes(s, f, r, machines);
    }
  }

  lemma ManagedRouterGoes(s: State, f: Fates, r: RouterSpec, machines: seq<Machine>)
    requires Steady(s) && GentleFates(f) && SpecRouter(s.spec.routers, r.name) == Some(r) && r in s.spec.routers && r.uuid == NO_ID
    ensures var t := ReconcileRouter(s, f, r); Onward(s, t.s, machines) && Goes(s, t.s, t.flow, machines)
  {
    var current, tag := RouterIdOf(s.st.routers, r.name), Named(r.name);
    ObtainGoes(s, f, current, Router, tag, NO_ID, machines);
    ObtainGrows(s, f, current, Router, tag, NO_ID);
    var o := Obtain(s, f, current, Router, tag, NO_ID);
    if o.flow == Stalled {
      assert AResource(Router, tag) in WantedKeys(s.spec, machines);
      TagIsNew(s, o.s, Router, tag, machines);
    } else if o.flow == Proceed {
      ObtainFinds(s, f, current, Router, tag, NO_ID);
      SettleGoes(o.s, f, r, o.id, machines);
      var t := Settle(o.s, f, r, o.id);
      OnwardTransitive(s, o.s, t.s, machines);
      GoesOn(s, o.s, t.s, t.flow, machines);
    }
  }

  /** All routers are worked on in one pass; one that stalled is enough for the pass to have brought something new. */
  lemma OneRouterOn(start: State, s: State, one: Stage, acc: Flow, machines: seq<Machine>)
    requires Forward(start, s, machines) && (acc == Stalled ==> New(start, s, machines)) && Goes(s, one.s, one.flow, machines)
    ensures Goes(start, one.s, one.flow, machines) && Goes(start, one.s, Join(acc, one.flow), machines)
  {
    GoesOn(start, s, one.s, one.flow, machines);
    if acc == Stalled { StaysNew(start, s, one.s, machines); }
  }

  lemma RoutersGo(s: State, f: Fates, k: nat, acc: Flow, machines: seq<Machine>, start: State)
    requires Steady(s) && GentleFates(f) && k <= |s.spec.routers| && Forward(start, s, machines)
    requires acc == Stalled ==> New(start, s, machines)
    ensures var e := RoutersFrom(s, f, s.spec.routers, k, acc); Onward(s, e.s, machines) && Goes(start, e.s, e.flow, machines)
    decreases |s.spec.routers| - k
  {
    RouterEditGoes(s, s, machines);
    if k < |s.spec.routers| {
      SpecRouterAt(s.spec.routers, k);
      RouterGoes(s, f, s.spec.routers[k], machines);
      var one := ReconcileRouter(s, f, s.spec.routers[k]);
      OneRouterOn(start, s, one, acc, machines);
      if one.flow != Error {
        RoutersGo(one.s, f, k + 1, Join(acc, one.flow), machines, start);
        OnwardTransitive(s, one.s, RoutersFrom(one.s, f, s.spec.routers, k + 1, Join(acc, one.flow)).s, machines);
      }
    }
  }
}
