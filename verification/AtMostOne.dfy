/**
 At most one of each: no run ever leaves two resources with the same ownership tag, nor two
 interfaces of one router on one network, whatever status a pass starts from.
 */
module AtMostOne {
  import opened Types
  import opened Cloud
  import opened Ensure
  import opened Networks
  import opened Routers
  import opened LoadBalancer
  import opened Members
  import opened FloatingIps
  import opened ServerGroups
  import opened Controller
  import opened Ownership
  import opened Runs

  /** A tag marks at most one resource of a kind. */
  ghost predicate Sole(res: Resources) {
    forall i, j | i in res && j in res && res[i].tag.Some? && res[i].kind == res[j].kind && res[i].tag == res[j].tag :: i == j
  }

  ghost predicate Lawful(w: World) {
    CloudOk(w) && Sole(w.res) && MembersOk(w.members, w.next) && Housed(w.members, w.res)
  }

  /** Tags are not put on, or moved, from outside. */
  ghost predicate NoNewTags(w: World, v: World) {
    forall i | i in v.res && v.res[i].tag.Some? :: i in w.res && w.res[i] == v.res[i]
  }

  // ----------------------------------------------------------------- single calls

  lemma ActIsLawful(w: World, spec: Spec, act: Act)
    requires Lawful(w)
    ensures var v := Outside(w, spec, act); Lawful(v) && NoNewTags(w, v)
  {
    OutsideKeepsCloud(w, spec, act);
    OutsideActMembers(w, spec, act);
    var v := Outside(w, spec, act);
    assert NoNewTags(w, v);
    assert Sole(v.res);
  }

  lemma OutsideIsLawful(w: World, spec: Spec, acts: seq<Act>)
    requires Lawful(w)
    ensures var v := OutsideAll(w, spec, acts); Lawful(v) && NoNewTags(w, v)
    decreases acts
  {
    if acts != [] {
      ActIsLawful(w, spec, acts[0]);
      OutsideIsLawful(Outside(w, spec, acts[0]), spec, acts[1..]);
    }
  }

  lemma TickIsLawful(s: State, f: Fates)
    requires Lawful(s.w)
    ensures Lawful(Tick(s, f).w) && NoNewTags(s.w, Tick(s, f).w)
  {
    OutsideIsLawful(s.w, s.spec, f(s.clock).outside);
  }

  lemma LandIsLawful(w: World, kind: Kind, tag: Tag, parent: Id)
    requires Lawful(w) && Tagged(w, kind, tag) == {} && ParentOk(w.res, kind, parent)
    ensures Lawful(Land(w, kind, tag, parent))
  {
    AppearKeepsFabric(w.res, w.ifaces, w.next, Resource(kind, Some(tag), parent));
    assert forall i | i in w.res && w.res[i].kind == kind && w.res[i].tag == Some(tag) :: i in Tagged(w, kind, tag);
  }

  lemma FreeTagStaysFree(w: World, v: World, kind: Kind, tag: Tag)
    requires NoNewTags(w, v) && Tagged(w, kind, tag) == {}
    ensures Tagged(v, kind, tag) == {}
  {
    assert forall i | i in Tagged(v, kind, tag) :: i in Tagged(w, kind, tag);
  }

  /** A create is lawful when the tag was free just before. */
  lemma CreateIsLawful(s: State, f: Fates, kind: Kind, tag: Tag, parent: Id)
    requires Lawful(s.w) && Tagged(s.w, kind, tag) == {}
    ensures Lawful(Create(s, f, kind, tag, parent).s.w)
  {
    TickIsLawful(s, f);
    var t := Tick(s, f);
    FreeTagStaysFree(s.w, t.w, kind, tag);
    if ParentOk(t.w.res, kind, parent) { LandIsLawful(t.w, kind, tag, parent); }
  }

  lemma ByTagIsLawful(s: State, f: Fates, kind: Kind, tag: Tag)
    requires Lawful(s.w)
    ensures var e := ByTag(s, f, kind, tag);
            Lawful(e.s.w) && (!e.err && e.id == NO_ID ==> Tagged(e.s.w, kind, tag) == {})
  {
    TickIsLawful(s, f);
    var l := List(s, f, kind, tag);
    if |l.ids| == 1 { assert Only(l.ids) in l.ids; }
  }

  /** ensureResource lets the caller create only when no resource carries the tag. */
  lemma EnsureIsLawful(s: State, f: Fates, current: Id, kind: Kind, tag: Tag)
    requires Lawful(s.w)
    ensures var e := EnsureResource(s, f, current, kind, tag);
            Lawful(e.s.w) && (!e.err && e.id == NO_ID ==> Tagged(e.s.w, kind, tag) == {})
  {
    if current == NO_ID {
      ByTagIsLawful(s, f, kind, tag);
    } else {
      TickIsLawful(s, f);
      ByTagIsLawful(Get(s, f, kind, current).s, f, kind, tag);
    }
  }

  lemma ObtainIsLawful(s: State, f: Fates, current: Id, kind: Kind, tag: Tag, parent: Id)
    requires Lawful(s.w)
    ensures Lawful(Obtain(s, f, current, kind, tag, parent).s.w)
  {
    EnsureIsLawful(s, f, current, kind, tag);
    var e := EnsureResource(s, f, current, kind, tag);
    if !e.err && e.id == NO_ID { CreateIsLawful(e.s, f, kind, tag, parent); }
  }

  lemma RemoveIsLawful(w: World, id: Id)
    requires Lawful(w)
    ensures Lawful(Remove(w, id))
  {
    RemoveKeepsCloud(w, id);
    RemoveKeepsMembers(w, id);
  }

  lemma DeleteIsLawful(s: State, f: Fates, kind: Kind, id: Id)
    requires Lawful(s.w)
    ensures Lawful(Delete(s, f, kind, id).s.w)
  {
    TickIsLawful(s, f);
    var w := Tick(s, f).w;
    var v := w.(targets := w.targets + {id});
    AsideIsLawful(w, v);
    RemoveIsLawful(v, id);
  }

  /** The API refuses a second interface of a router on a network. */
  lemma AttachIsLawful(w: World, router: Id, network: Id, made: set<Id>)
    requires Lawful(w) && CanAttach(w, router, network)
    ensures Lawful(AttachNow(w, router, network).(made := made))
  {
  }

  lemma CreateInterfaceIsLawful(s: State, f: Fates, router: Id, network: Id)
    requires Lawful(s.w)
    ensures Lawful(CreateInterface(s, f, router, network).s.w)
  {
    TickIsLawful(s, f);
    var w := Tick(s, f).w;
    if CanAttach(w, router, network) { AttachIsLawful(w, router, network, w.made + {w.next}); }
  }

  lemma DeleteInterfaceIsLawful(s: State, f: Fates, router: Id, iface: Id)
    requires Lawful(s.w)
    ensures Lawful(DeleteInterface(s, f, router, iface).s.w)
  {
    TickIsLawful(s, f);
    FewerIsLawful(Tick(s, f).w, DeleteInterface(s, f, router, iface).s.w);
  }

  lemma FewerIsLawful(w: World, v: World)
    requires Lawful(w) && v.res == w.res && v.members == w.members && v.next == w.next
    requires forall i | i in v.ifaces :: i in w.ifaces && v.ifaces[i] == w.ifaces[i]
    ensures Lawful(v)
  {
  }

  // ---------------------------------------------------------------- normal stages

  lemma NetworksAreLawful(s: State, f: Fates, specs: seq<NetworkSpec>, k: nat)
    requires Lawful(s.w) && k <= |specs|
    ensures Lawful(NetworksFrom(s, f, specs, k).s.w)
    decreases |specs| - k
  {
    if k < |specs| {
      NetworkIsLawful(s, f, specs[k]);
      var one := ReconcileNetwork(s, f, specs[k]);
      if one.flow == Proceed { NetworksAreLawful(one.s, f, specs, k + 1); }
    }
  }

  lemma NetworkIsLawful(s: State, f: Fates, n: NetworkSpec)
    requires Lawful(s.w)
    ensures Lawful(ReconcileNetwork(s, f, n).s.w)
  {
    if n.uuid != NO_ID {
      TickIsLawful(s, f);
    } else {
      var e := FindNetwork(s.st.networks, n.name);
      var networkId := if e.Some? then e.value.networkId else NO_ID;
      var subnetId := if e.Some? then e.value.subnetId else NO_ID;
      ObtainIsLawful(s, f, networkId, Network, Named(n.name), NO_ID);
      var net := Obtain(s, f, networkId, Network, Named(n.name), NO_ID);
      ObtainIsLawful(net.s, f, subnetId, Subnet, Named(n.name), net.id);
    }
  }

  lemma InterfaceIsLawful(s: State, f: Fates, r: RouterSpec, id: Id, live: map<Id, Id>, e: InterfaceSpec)
    requires Lawful(s.w)
    ensures Lawful(ReconcileInterface(s, f, r, id, live, e).s.w)
  {
    var n := FindNetwork(s.st.networks, e.network);
    if n.Some? && e.uuid == NO_ID && !(exists i :: i in live && live[i] == n.value.networkId) {
      AttachInterfaceIsLawful(s, f, r, id, e, n.value.networkId);
    }
  }

  lemma AttachInterfaceIsLawful(s: State, f: Fates, r: RouterSpec, id: Id, e: InterfaceSpec, network: Id)
    requires Lawful(s.w)
    ensures Lawful(AttachInterface(s, f, r, id, e, network).s.w)
  {
    CreateInterfaceIsLawful(SetInterface(s, r.name, InterfaceStatus(e.network, NO_ID, true)), f, id, network);
  }

  lemma InterfacesAreLawful(s: State, f: Fates, r: RouterSpec, id: Id, live: map<Id, Id>, k: nat)
    requires Lawful(s.w) && k <= |r.interfaces|
    ensures Lawful(InterfacesFrom(s, f, r, id, live, k).s.w)
    decreases |r.interfaces| - k
  {
    if k < |r.interfaces| {
      InterfaceIsLawful(s, f, r, id, live, r.interfaces[k]);
      var one := ReconcileInterface(s, f, r, id, live, r.interfaces[k]);
      if one.flow == Proceed { InterfacesAreLawful(one.s, f, r, id, live, k + 1); }
    }
  }

  lemma RouterIsLawful(s: State, f: Fates, r: RouterSpec)
    requires Lawful(s.w)
    ensures Lawful(ReconcileRouter(s, f, r).s.w)
  {
    TickIsLawful(s, f);
    ObtainIsLawful(s, f, RouterIdOf(s.st.routers, r.name), Router, Named(r.name), NO_ID);
    forall t: State, id | Lawful(t.w) ensures Lawful(Settle(t, f, r, id).s.w) {
      InterfacesAreLawful(SetRouter(t, r, id), f, r, id, Interfaces(t.w, id), 0);
    }
  }

  lemma RoutersAreLawful(s: State, f: Fates, specs: seq<RouterSpec>, k: nat, acc: Flow)
    requires Lawful(s.w) && k <= |specs|
    ensures Lawful(RoutersFrom(s, f, specs, k, acc).s.w)
    decreases |specs| - k
  {
    if k < |specs| {
      RouterIsLawful(s, f, specs[k]);
      var one := ReconcileRouter(s, f, specs[k]);
      if one.flow != Error { RoutersAreLawful(one.s, f, specs, k + 1, Join(acc, one.flow)); }
    }
  }

  lemma PartIsLawful(s: State, f: Fates, kind: Kind, parent: Id)
    requires Lawful(s.w) && IsPart(kind)
    ensures Lawful(ReconcilePart(s, f, kind, parent).s.w)
  {
    ObtainIsLawful(s, f, PartId(s.st, kind), kind, Owned, parent);
  }

  lemma AsideIsLawful(w: World, v: World)
    requires Lawful(w) && v.res == w.res && v.ifaces == w.ifaces && w.next <= v.next
    requires MembersOk(v.members, v.next) && Housed(v.members, v.res)
    ensures Lawful(v)
  {
  }

  /** The names still to be upserted are either in the list the pass works from, or nowhere in the pool. */
  ghost predicate Unlisted(s: State, current: seq<Member>, want: seq<Wanted>, k: nat) {
    forall j | k <= j < |want| && ByName(current, want[j].name).None? :: At(s.w.members, s.st.poolId, want[j].name).None?
  }

  lemma CreateMemberIsLawful(s: State, f: Fates, w: Wanted)
    requires Lawful(s.w) && At(s.w.members, s.st.poolId, w.name).None?
    ensures Lawful(CreateMember(s, f, w).s.w)
    ensures forall p, x | x != w.name && At(s.w.members, p, x).None? :: At(CreateMember(s, f, w).s.w.members, p, x).None?
  {
    TickIsLawful(s, f);
    OutsideMembers(s.w, s.spec, f(s.clock).outside);
    var t, c := Tick(s, f), CreateMember(s, f, w);
    var m := Member(t.w.next, s.st.poolId, w.name, w.address);
    if c.s.w != t.w {
      AppendKeyed(t.w.members, m);
      AsideIsLawful(t.w, c.s.w);
      forall p, x ensures At(c.s.w.members, p, x) == if At(t.w.members, p, x).Some? then At(t.w.members, p, x)
                           else if m.pool == p && m.name == x then Some(m) else None {
        AppendAt(t.w.members, m, p, x);
      }
    }
  }

  lemma UpdateMemberIsLawful(s: State, f: Fates, id: Id, a: Addr)
    requires Lawful(s.w)
    ensures Lawful(UpdateMember(s, f, id, a).s.w)
    ensures forall p, x | At(s.w.members, p, x).None? :: At(UpdateMember(s, f, id, a).s.w.members, p, x).None?
  {
    TickIsLawful(s, f);
    OutsideMembers(s.w, s.spec, f(s.clock).outside);
    var t, c := Tick(s, f), UpdateMember(s, f, id, a);
    if c.s.w != t.w {
      WithAddressKeyed(t.w.members, id, a);
      WithAddressBound(t.w.members, id, a, t.w.next);
      WithAddressHoused(t.w.members, id, a, t.w.res);
      AsideIsLawful(t.w, c.s.w);
      forall p, x | At(t.w.members, p, x).None? ensures At(c.s.w.members, p, x).None? {
        WithAddressAt(t.w.members, id, a, p, x);
      }
    }
  }

  lemma DeleteMemberIsLawful(s: State, f: Fates, id: Id)
    requires Lawful(s.w)
    ensures Lawful(DeleteMember(s, f, id).s.w)
  {
    TickIsLawful(s, f);
    var t, c := Tick(s, f), DeleteMember(s, f, id);
    if c.s.w != t.w {
      WithoutKeyed(t.w.members, id);
      forall m | m in c.s.w.members ensures m in t.w.members { WithoutIn(t.w.members, id, m); }
      AsideIsLawful(t.w, c.s.w);
    }
  }

  lemma UpsertKeepsLaw(s: State, f: Fates, current: seq<Member>, w: Wanted)
    requires Lawful(s.w) && (ByName(current, w.name).None? ==> At(s.w.members, s.st.poolId, w.name).None?)
    ensures Lawful(Upsert(s, f, current, w).s.w)
  {
    var m := ByName(current, w.name);
    if m.None? {
      CreateMemberIsLawful(s, f, w);
    } else if m.value.address != w.address {
      UpdateMemberIsLawful(s, f, m.value.id, w.address);
    }
  }

  /** Only the name that is worked on can newly appear in the pool. */
  lemma UpsertAddsOnlyItsName(s: State, f: Fates, current: seq<Member>, w: Wanted, x: Name)
    requires Lawful(s.w) && (ByName(current, w.name).None? ==> At(s.w.members, s.st.poolId, w.name).None?)
    requires x != w.name && At(s.w.members, s.st.poolId, x).None?
    ensures At(Upsert(s, f, current, w).s.w.members, s.st.poolId, x).None?
  {
    var m := ByName(current, w.name);
    if m.None? {
      CreateMemberIsLawful(s, f, w);
    } else if m.value.address != w.address {
      UpdateMemberIsLawful(s, f, m.value.id, w.address);
    }
  }

  lemma UpsertIsLawful(s: State, f: Fates, current: seq<Member>, want: seq<Wanted>, k: nat)
    requires Lawful(s.w) && k < |want| && DistinctWanted(want) && Unlisted(s, current, want, k)
    ensures var one := Upsert(s, f, current, want[k]); Lawful(one.s.w) && Unlisted(one.s, current, want, k + 1)
  {
    UpsertKeepsLaw(s, f, current, want[k]);
    var one := Upsert(s, f, current, want[k]);
    forall j | k + 1 <= j < |want| && ByName(current, want[j].name).None?
      ensures At(one.s.w.members, s.st.poolId, want[j].name).None?
    {
      UpsertAddsOnlyItsName(s, f, current, want[k], want[j].name);
    }
  }

  lemma UpsertsAreLawful(s: State, f: Fates, current: seq<Member>, want: seq<Wanted>, k: nat)
    requires Lawful(s.w) && k <= |want| && DistinctWanted(want) && Unlisted(s, current, want, k)
    ensures Lawful(UpsertFrom(s, f, current, want, k).s.w)
    decreases |want| - k
  {
    if k < |want| {
      UpsertIsLawful(s, f, current, want, k);
      var one := Upsert(s, f, current, want[k]);
      if one.flow == Proceed { UpsertsAreLawful(one.s, f, current, want, k + 1); }
    }
  }

  lemma PrunesAreLawful(s: State, f: Fates, current: seq<Member>, want: seq<Wanted>, k: nat)
    requires Lawful(s.w) && k <= |current|
    ensures Lawful(PruneFrom(s, f, current, want, k).s.w)
    decreases |current| - k
  {
    if k < |current| {
      if IsWanted(want, current[k].name) {
        PrunesAreLawful(s, f, current, want, k + 1);
      } else {
        DeleteMemberIsLawful(s, f, current[k].id);
        var c := DeleteMember(s, f, current[k].id);
        if c.reply.Done? {
          PrunesAreLawful(c.s.(st := c.s.st.(memberIds := DropId(c.s.st.memberIds, current[k].id))), f, current, want, k + 1);
        }
      }
    }
  }

  lemma PopulateIsLawful(s: State, f: Fates, machines: seq<Machine>)
    requires Lawful(s.w) && DistinctMachines(machines)
    ensures Lawful(Populate(s, f, machines).s.w)
  {
    PartIsLawful(s, f, Pool, s.st.lbId);
    var p := ReconcilePart(s, f, Pool, s.st.lbId);
    PartIsLawful(p.s, f, Listener, p.s.st.poolId);
    var l := ReconcilePart(p.s, f, Listener, p.s.st.poolId);
    PartIsLawful(l.s, f, Monitor, l.s.st.poolId);
    MembersAreLawful(ReconcileParts(s, f).s, f, machines);
  }

  lemma MembersAreLawful(s: State, f: Fates, machines: seq<Machine>)
    requires Lawful(s.w) && DistinctMachines(machines)
    ensures Lawful(ReconcileMembers(s, f, machines).s.w)
  {
    TickIsLawful(s, f);
    var l, want := ListMembers(s, f), DesiredMembers(s.spec, s.st.networks, machines);
    if want.Some? {
      var cidr := MemberSubnetCidr(s.st.networks, PoolMemberSubnet(s.spec, s.st.networks).value).value;
      WantedIsDistinct(machines, PoolMemberSubnet(s.spec, s.st.networks).value, cidr, s.spec.lb.port);
      forall x ensures ByName(l.members, x) == At(l.s.w.members, s.st.poolId, x) {
        ByNameIsAt(l.s.w.members, s.st.poolId, x);
      }
      UpsertsAreLawful(l.s, f, l.members, want.value, 0);
      PrunesAreLawful(UpsertFrom(l.s, f, l.members, want.value, 0).s, f, l.members, want.value, 0);
    }
  }

  lemma LoadBalancerIsLawful(s: State, f: Fates, machines: seq<Machine>)
    requires Lawful(s.w) && DistinctMachines(machines)
    ensures Lawful(ReconcileLoadBalancer(s, f, machines).s.w)
  {
    EnsureIsLawful(s, f, s.st.lbId, LoadBalancer, Owned);
    PartIsLawful(s, f, LoadBalancer, NO_ID);
    AfterLbIsLawful(ReconcileLb(s, f), f, machines);
  }

  lemma AfterLbIsLawful(lb: Stage, f: Fates, machines: seq<Machine>)
    requires Lawful(lb.s.w) && DistinctMachines(machines)
    ensures Lawful(AfterLb(lb, f, machines).s.w)
  {
    TickIsLawful(lb.s, f);
    PopulateIsLawful(Get(lb.s, f, LoadBalancer, lb.s.st.lbId).s, f, machines);
  }

  lemma AssignIsLawful(s: State, f: Fates, machines: seq<Machine>)
    requires Lawful(s.w)
    ensures Lawful(Assign(s, f, machines).s.w)
  {
    TickIsLawful(s, f);
    var e := Assign(s, f, machines);
    if e.s.clock != s.clock { AsideIsLawful(Tick(s, f).w, e.s.w); }
  }

  lemma FloatingIpIsLawful(s: State, f: Fates, machines: seq<Machine>)
    requires Lawful(s.w)
    ensures Lawful(ReconcileFloatingIp(s, f, machines).s.w)
  {
    if s.spec.fip.Some? {
      PreExistingFipIsLawful(s, f, machines, s.spec.fip.value.address);
      ManagedFipIsLawful(s, f, machines);
    }
  }

  lemma PreExistingFipIsLawful(s: State, f: Fates, machines: seq<Machine>, ip: Id)
    requires Lawful(s.w)
    ensures Lawful(PreExistingFip(s, f, machines, ip).s.w)
  {
    TickIsLawful(s, f);
    AssignIsLawful(SetFip(Get(s, f, FloatingIp, ip).s, ip), f, machines);
  }

  lemma ManagedFipIsLawful(s: State, f: Fates, machines: seq<Machine>)
    requires Lawful(s.w)
    ensures Lawful(ManagedFip(s, f, machines).s.w)
  {
    EnsureIsLawful(s, f, s.st.fip, FloatingIp, Owned);
    var e := EnsureResource(s, f, s.st.fip, FloatingIp, Owned);
    AssignIsLawful(SetFip(e.s, e.id), f, machines);
    if !e.err && e.id == NO_ID {
      var t := SetFip(e.s, NO_ID);
      CreateIsLawful(t, f, FloatingIp, Owned, NO_ID);
      AsideIsLawful(Create(t, f, FloatingIp, Owned, NO_ID).s.w, CreateFip(t, f, Target(s, machines)).s.w);
    }
  }

  lemma NormalPassIsLawful(s: State, f: Fates, kube: Kube)
    requires Lawful(s.w) && DistinctMachines(kube.machines)
    ensures Lawful(ReconcileNormal(s, f, kube).s.w)
  {
    NetworksAreLawful(s, f, s.spec.networks, 0);
    var n := ReconcileNetworks(s, f);
    RoutersAreLawful(n.s, f, n.s.spec.routers, 0, Proceed);
    AfterRoutersIsLawful(ReconcileRouters(n.s, f), f, kube);
  }

  lemma AfterRoutersIsLawful(r: Stage, f: Fates, kube: Kube)
    requires Lawful(r.s.w) && DistinctMachines(kube.machines)
    ensures Lawful(AfterRouters(r, f, kube).s.w)
  {
    LoadBalancerIsLawful(r.s, f, kube.machines);
    FloatingIpIsLawful(ReconcileLoadBalancer(r.s, f, kube.machines).s, f, kube.machines);
  }

  // ---------------------------------------------------------------- delete stages

  lemma DetachesAreLawful(s: State, f: Fates, rs: RouterStatus, live: map<Id, Id>, k: nat, remaining: seq<InterfaceStatus>, err: bool)
    requires Lawful(s.w) && k <= |rs.interfaces|
    ensures Lawful(DetachFrom(s, f, rs, live, k, remaining, err).s.w)
    decreases |rs.interfaces| - k
  {
    if k < |rs.interfaces| {
      DeleteInterfaceIsLawful(s, f, rs.routerId, Resolve(s, live, rs.interfaces[k]));
      var one := DetachOne(s, f, rs.routerId, live, rs.interfaces[k]);
      DetachesAreLawful(one.s, f, rs, live, k + 1, remaining + one.kept, err || one.err);
    }
  }

  lemma DeleteRouterIsLawful(s: State, f: Fates, rs: RouterStatus)
    requires Lawful(s.w)
    ensures Lawful(DeleteRouter(s, f, rs).s.w)
  {
    TickIsLawful(s, f);
    var g := Get(s, f, Router, rs.routerId);
    DetachesAreLawful(g.s, f, rs, Interfaces(g.s.w, rs.routerId), 0, [], false);
    var d := DeleteInterfaces(s, f, rs);
    DeleteIsLawful(d.s, f, Router, rs.routerId);
  }

  lemma DeleteRoutersIsLawful(s: State, f: Fates, rss: seq<RouterStatus>, k: nat, remaining: seq<RouterStatus>, err: bool)
    requires Lawful(s.w) && k <= |rss|
    ensures Lawful(DeleteRoutersFrom(s, f, rss, k, remaining, err).s.w)
    decreases |rss| - k
  {
    if k < |rss| {
      DeleteRouterIsLawful(s, f, rss[k]);
      var one := DeleteRouter(s, f, rss[k]);
      DeleteRoutersIsLawful(one.s, f, rss, k + 1, remaining + one.kept, err || one.err);
    }
  }

  lemma DeleteNetworksIsLawful(s: State, f: Fates, ns: seq<NetworkStatus>, k: nat, remaining: seq<NetworkStatus>, err: bool)
    requires Lawful(s.w) && k <= |ns|
    ensures Lawful(DeleteNetworksFrom(s, f, ns, k, remaining, err).s.w)
    decreases |ns| - k
  {
    if k < |ns| {
      if !ns[k].managed {
        DeleteNetworksIsLawful(s, f, ns, k + 1, remaining + [ns[k]], err);
      } else if ns[k].networkId == NO_ID {
        DeleteNetworksIsLawful(s, f, ns, k + 1, remaining, err);
      } else {
        DeleteIsLawful(s, f, Network, ns[k].networkId);
        var c := Delete(s, f, Network, ns[k].networkId);
        if c.reply.Done? || c.reply.Missing? {
          DeleteNetworksIsLawful(c.s, f, ns, k + 1, remaining, err);
        } else if !c.reply.Refused? {
          DeleteNetworksIsLawful(c.s, f, ns, k + 1, remaining + [ns[k]], true);
        }
      }
    }
  }

  lemma GroupsAreLawful(s: State, f: Fates, owned: set<Id>, groups: seq<ServerGroup>, k: nat)
    requires Lawful(s.w) && k <= |groups|
    ensures Lawful(DeleteGroupsFrom(s, f, owned, groups, k).s.w)
    decreases |groups| - k
  {
    if k < |groups| && !HoldsOwned(groups[k], owned) {
      if groups[k].servers != [] {
        GroupsAreLawful(s, f, owned, groups, k + 1);
      } else {
        TickIsLawful(s, f);
        var c := DeleteGroup(s, f, groups[k].id);
        AsideIsLawful(Tick(s, f).w, c.s.w);
        if c.reply.Done? || c.reply.Missing? { GroupsAreLawful(c.s, f, owned, groups, k + 1); }
      }
    }
  }

  lemma ServerGroupsAreLawful(s: State, f: Fates, machines: seq<Machine>)
    requires Lawful(s.w)
    ensures Lawful(DeleteServerGroups(s, f, machines).s.w)
  {
    TickIsLawful(s, f);
    var t := Tick(s, f);
    TickIsLawful(t, f);
    var u := Tick(t, f);
    GroupsAreLawful(u, f, OwnedServers(machines), OwnedGroups(u.w.groups), 0);
  }

  lemma DeleteAfterLbIsLawful(lb: Stage, f: Fates, kube: Kube)
    requires Lawful(lb.s.w)
    ensures Lawful(DeleteAfterLb(lb, f, kube).s.w)
  {
    ServerGroupsAreLawful(lb.s, f, kube.machines);
    var g := DeleteServerGroups(lb.s, f, kube.machines);
    DeleteRoutersIsLawful(g.s, f, g.s.st.routers, 0, [], false);
    var r := DeleteRouters(g.s, f);
    DeleteNetworksIsLawful(r.s, f, r.s.st.networks, 0, [], false);
  }

  lemma DeletePassIsLawful(s: State, f: Fates, kube: Kube)
    requires Lawful(s.w)
    ensures Lawful(ReconcileDelete(s, f, kube).s.w)
  {
    DeleteIsLawful(s, f, FloatingIp, s.st.fip);
    var p := DeleteFloatingIp(s, f);
    DeleteIsLawful(p.s, f, LoadBalancer, p.s.st.lbId);
    DeleteAfterLbIsLawful(DeleteLoadBalancer(p.s, f), f, kube);
  }

  // ------------------------------------------------------------------- whole runs

  /** Besides the events of a run, a pass may start from any status at all, such as an older saved one. */
  datatype Happening = Usual(e: Event) | Restore(st: Status)

  ghost function Happen(env: Env, s: State, h: Happening): State {
    match h
    case Usual(e) => Step(env, s, e)
    case Restore(st) => s.(st := st)
  }

  /** Machines are objects of one namespace, so their names are distinct. */
  ghost predicate ProperEvent(e: Event) {
    e.Wake? ==> DistinctMachines(e.kube.machines)
  }

  /** Machines have distinct names; nothing is asked of what others do. */
  ghost predicate ProperRun(es: seq<Event>) {
    forall k | 0 <= k < |es| :: ProperEvent(es[k])
  }

  lemma StepIsLawful(env: Env, s: State, e: Event)
    requires Lawful(s.w) && ProperEvent(e)
    ensures Lawful(Step(env, s, e).w)
  {
    match e
    case Wake(f, kube) =>
      NormalPassIsLawful(s.(clock := 0).(finalizer := true), f, kube);
      DeletePassIsLawful(s.(clock := 0), f, kube);
    case Elsewhere(acts) => OutsideIsLawful(s.w, s.spec, acts);
    case _ =>
  }

  /** Unruly outsiders included: they can attach, but not forge tags. */
  lemma {:induction false} NeverTwoOfAKind(env: Env, trace: seq<State>, hs: seq<Happening>, k: nat)
    requires |trace| == |hs| + 1 && k <= |hs| && Lawful(trace[0].w)
    requires forall j | 0 <= j < |hs| :: trace[j + 1] == Happen(env, trace[j], hs[j])
    requires forall j | 0 <= j < |hs| && hs[j].Usual? :: ProperEvent(hs[j].e)
    ensures Lawful(trace[k].w)
    decreases k
  {
    if k > 0 {
      NeverTwoOfAKind(env, trace, hs, k - 1);
      if hs[k - 1].Usual? { StepIsLawful(env, trace[k - 1], hs[k - 1].e); }
      assert trace[k - 1 + 1] == Happen(env, trace[k - 1], hs[k - 1]);
    }
  }
}
