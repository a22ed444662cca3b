/** Whole passes and whole runs keep the ownership invariant. */
module OwnershipRuns {
  import opened Types
  import opened Keys
  import opened Cloud
  import opened Ensure
  import opened History
  import opened Networks
  import opened Routers
  import opened LoadBalancer
  import opened FloatingIps
  import opened ServerGroups
  import opened Ownership
  import opened OwnershipSteps
  import opened OwnershipTeardown

  // ------------------------------------------------------- load balancer stage

  lemma PartKeepsGood(s: State, f: Fates, kind: Kind, parent: Id)
    requires Good(ViewOf(s)) && PeacefulFates(f) && IsPart(kind)
    ensures Good(ViewOf(ReconcilePart(s, f, kind, parent).s))
  {
    ObtainKeepsGood(s, f, PartId(s.st, kind), kind, Owned, parent);
    ObtainIsNewer(s, f, PartId(s.st, kind), kind, Owned, parent);
    var o := Obtain(s, f, PartId(s.st, kind), kind, Owned, parent);
    if o.looked && o.flow == Proceed {
      assert PartId(s.st, kind) in s.w.made + {NO_ID};
    }
    PartsChange(o.s, ReconcilePart(s, f, kind, parent).s);
  }

  /** Recording or clearing ids beside the lists is fine as long as they are CAPCS's. */
  lemma PartsChange(s: State, t: State)
    requires Good(ViewOf(s)) && Parts(t.spec, t.st) <= t.w.made
    requires ViewOf(t) == ViewOf(s).(parts := Parts(t.spec, t.st))
    ensures Good(ViewOf(t))
  {
    var v, u := ViewOf(s), ViewOf(t);
    forall r | FindRouter(u.rtrs, r).Some? ensures RouterOk(u, r) { assert RouterOk(v, r); }
    forall a | FindNetwork(u.nets, a).Some? ensures NetworkOk(u, a) { assert NetworkOk(v, a); }
    forall r, a | Slot(u.rtrs, r, a).Some? ensures SlotOk(u, r, a) { assert SlotOk(v, r, a); }
    forall i | i in u.w.ifaces && i in u.w.made ensures Covered(u, i) {
      var r, a :| Covers(v, r, a, i);
      assert Covers(u, r, a, i);
    }
  }

  lemma LbKeepsGood(s: State, f: Fates)
    requires Good(ViewOf(s)) && PeacefulFates(f)
    ensures Good(ViewOf(ReconcileLb(s, f).s))
  {
    EnsureKeepsGood(s, f, s.st.lbId, LoadBalancer, Owned);
    EnsureLater(s, f, s.st.lbId, LoadBalancer, Owned);
    PartKeepsGood(s, f, LoadBalancer, NO_ID);
    var e := EnsureResource(s, f, s.st.lbId, LoadBalancer, Owned);
    PartsChange(e.s, SetPart(e.s, LoadBalancer, NO_ID));
  }

  lemma PartsKeepGood(s: State, f: Fates)
    requires Good(ViewOf(s)) && PeacefulFates(f)
    ensures Good(ViewOf(ReconcileParts(s, f).s))
  {
    PartKeepsGood(s, f, Pool, s.st.lbId);
    var p := ReconcilePart(s, f, Pool, s.st.lbId);
    PartKeepsGood(p.s, f, Listener, p.s.st.poolId);
    var l := ReconcilePart(p.s, f, Listener, p.s.st.poolId);
    PartKeepsGood(l.s, f, Monitor, l.s.st.poolId);
  }

  /** Pool members, assignments and server groups are beside the point here. */
  lemma AsideKeepsGood(v: View, w: World)
    requires Good(v)
    requires w.res == v.w.res && w.ifaces == v.w.ifaces && w.targets == v.w.targets
    requires (w.next == v.w.next && w.made == v.w.made) || (w.next == v.w.next + 1 && w.made == v.w.made + {v.w.next})
    ensures Good(v.(w := w))
  {
    MadeGrows(v, w);
  }

  lemma UpsertKeepsGood(s: State, f: Fates, current: seq<Member>, want: seq<Wanted>, k: nat)
    requires Good(ViewOf(s)) && PeacefulFates(f) && k <= |want|
    ensures Good(ViewOf(UpsertFrom(s, f, current, want, k).s))
    decreases |want| - k
  {
    if k < |want| {
      UpsertOneKeepsGood(s, f, current, want[k]);
      var one := Upsert(s, f, current, want[k]);
      if one.flow == Proceed { UpsertKeepsGood(one.s, f, current, want, k + 1); }
    }
  }

  lemma CreateMemberKeepsGood(s: State, f: Fates, w: Wanted)
    requires Good(ViewOf(s)) && PeacefulFates(f)
    ensures Good(ViewOf(CreateMember(s, f, w).s))
  {
    TickKeepsGood(s, f);
    AsideKeepsGood(ViewOf(Tick(s, f)), CreateMember(s, f, w).s.w);
  }

  lemma UpdateMemberKeepsGood(s: State, f: Fates, id: Id, address: Addr)
    requires Good(ViewOf(s)) && PeacefulFates(f)
    ensures Good(ViewOf(UpdateMember(s, f, id, address).s))
  {
    TickKeepsGood(s, f);
    AsideKeepsGood(ViewOf(Tick(s, f)), UpdateMember(s, f, id, address).s.w);
  }

  lemma DeleteMemberKeepsGood(s: State, f: Fates, id: Id)
    requires Good(ViewOf(s)) && PeacefulFates(f)
    ensures Good(ViewOf(DeleteMember(s, f, id).s))
  {
    TickKeepsGood(s, f);
    AsideKeepsGood(ViewOf(Tick(s, f)), DeleteMember(s, f, id).s.w);
  }

  lemma UpsertOneKeepsGood(s: State, f: Fates, current: seq<Member>, w: Wanted)
    requires Good(ViewOf(s)) && PeacefulFates(f)
    ensures Good(ViewOf(Upsert(s, f, current, w).s))
  {
    var m := ByName(current, w.name);
    if m.None? { CreateMemberKeepsGood(s, f, w); } else { UpdateMemberKeepsGood(s, f, m.value.id, w.address); }
  }

  lemma PruneKeepsGood(s: State, f: Fates, current: seq<Member>, want: seq<Wanted>, k: nat)
    requires Good(ViewOf(s)) && PeacefulFates(f) && k <= |current|
    ensures Good(ViewOf(PruneFrom(s, f, current, want, k).s))
    decreases |current| - k
  {
    if k < |current| {
      if IsWanted(want, current[k].name) {
        PruneKeepsGood(s, f, current, want, k + 1);
      } else {
        DeleteMemberKeepsGood(s, f, current[k].id);
        var c := DeleteMember(s, f, current[k].id);
        if c.reply.Done? {
          PruneKeepsGood(c.s.(st := c.s.st.(memberIds := DropId(c.s.st.memberIds, current[k].id))), f, current, want, k + 1);
        }
      }
    }
  }

  lemma MembersKeepGood(s: State, f: Fates, machines: seq<Machine>)
    requires Good(ViewOf(s)) && PeacefulFates(f)
    ensures Good(ViewOf(ReconcileMembers(s, f, machines).s))
  {
    TickKeepsGood(s, f);
    var l, want := ListMembers(s, f), DesiredMembers(s.spec, s.st.networks, machines);
    if want.Some? {
      UpsertKeepsGood(l.s, f, l.members, want.value, 0);
      PruneKeepsGood(UpsertFrom(l.s, f, l.members, want.value, 0).s, f, l.members, want.value, 0);
    }
  }

  lemma PopulateKeepsGood(s: State, f: Fates, machines: seq<Machine>)
    requires Good(ViewOf(s)) && PeacefulFates(f)
    ensures Good(ViewOf(Populate(s, f, machines).s))
  {
    PartsKeepGood(s, f);
    MembersKeepGood(ReconcileParts(s, f).s, f, machines);
  }

  lemma AfterLbKeepsGood(lb: Stage, f: Fates, machines: seq<Machine>)
    requires Good(ViewOf(lb.s)) && PeacefulFates(f)
    ensures Good(ViewOf(AfterLb(lb, f, machines).s))
  {
    GetKeepsGood(lb.s, f, LoadBalancer, lb.s.st.lbId);
    PopulateKeepsGood(Get(lb.s, f, LoadBalancer, lb.s.st.lbId).s, f, machines);
  }

  lemma LoadBalancerKeepsGood(s: State, f: Fates, machines: seq<Machine>)
    requires Good(ViewOf(s)) && PeacefulFates(f)
    ensures Good(ViewOf(ReconcileLoadBalancer(s, f, machines).s))
  {
    LbKeepsGood(s, f);
    AfterLbKeepsGood(ReconcileLb(s, f), f, machines);
  }

  // ------------------------------------------------------------ floating IP stage

  lemma AssignKeepsGood(s: State, f: Fates, machines: seq<Machine>)
    requires Good(ViewOf(s)) && PeacefulFates(f)
    ensures Good(ViewOf(Assign(s, f, machines).s))
  {
    TickKeepsGood(s, f);
    var t := Tick(s, f);
    AsideKeepsGood(ViewOf(t), t.w.(serves := t.w.serves[s.st.fip := Target(s, machines)]));
  }

  lemma CreateFipKeepsGood(s: State, f: Fates, target: Id)
    requires Good(ViewOf(s)) && PeacefulFates(f)
    ensures var c := CreateFip(s, f, target); Good(ViewOf(c.s)) && (c.reply.Done? ==> c.reply.id in c.s.w.made)
  {
    CreateKeepsGood(s, f, FloatingIp, Owned, NO_ID);
    AsideKeepsGood(ViewOf(Create(s, f, FloatingIp, Owned, NO_ID).s), CreateFip(s, f, target).s.w);
  }

  lemma ManagedFipKeepsGood(s: State, f: Fates, machines: seq<Machine>)
    requires Good(ViewOf(s)) && PeacefulFates(f) && OwnsFip(s.spec)
    ensures Good(ViewOf(ManagedFip(s, f, machines).s))
  {
    EnsureKeepsGood(s, f, s.st.fip, FloatingIp, Owned);
    EnsureLater(s, f, s.st.fip, FloatingIp, Owned);
    var e := EnsureResource(s, f, s.st.fip, FloatingIp, Owned);
    PartsChange(e.s, SetFip(e.s, e.id));
    AssignKeepsGood(SetFip(e.s, e.id), f, machines);
    var t := SetFip(e.s, NO_ID);
    if e.id == NO_ID {
      CreateFipKeepsGood(t, f, Target(s, machines));
      var c := CreateFip(t, f, Target(s, machines));
      if c.reply.Done? { PartsChange(c.s, SetFip(c.s, c.reply.id)); }
    }
  }

  lemma FloatingIpKeepsGood(s: State, f: Fates, machines: seq<Machine>)
    requires Good(ViewOf(s)) && PeacefulFates(f)
    ensures Good(ViewOf(ReconcileFloatingIp(s, f, machines).s))
  {
    if OwnsFip(s.spec) {
      ManagedFipKeepsGood(s, f, machines);
    } else if s.spec.fip.Some? {
      var ip := s.spec.fip.value.address;
      GetKeepsGood(s, f, FloatingIp, ip);
      AssignKeepsGood(SetFip(Get(s, f, FloatingIp, ip).s, ip), f, machines);
    }
  }

  // --------------------------------------------------------------------- teardown

  lemma GroupsKeepGood(s: State, f: Fates, owned: set<Id>, groups: seq<ServerGroup>, k: nat)
    requires Good(ViewOf(s)) && PeacefulFates(f) && k <= |groups|
    ensures Good(ViewOf(DeleteGroupsFrom(s, f, owned, groups, k).s))
    decreases |groups| - k
  {
    if k < |groups| && !HoldsOwned(groups[k], owned) {
      if groups[k].servers != [] {
        GroupsKeepGood(s, f, owned, groups, k + 1);
      } else {
        var c := DeleteGroup(s, f, groups[k].id);
        TickKeepsGood(s, f);
        AsideKeepsGood(ViewOf(Tick(s, f)), c.s.w);
        if c.reply.Done? || c.reply.Missing? { GroupsKeepGood(c.s, f, owned, groups, k + 1); }
      }
    }
  }

  lemma ServerGroupsKeepGood(s: State, f: Fates, machines: seq<Machine>)
    requires Good(ViewOf(s)) && PeacefulFates(f)
    ensures Good(ViewOf(DeleteServerGroups(s, f, machines).s))
  {
    TickKeepsGood(s, f);
    var t := Tick(s, f);
    TickKeepsGood(t, f);
    var u := Tick(t, f);
    GroupsKeepGood(u, f, OwnedServers(machines), OwnedGroups(u.w.groups), 0);
  }

  lemma DeleteFipKeepsGood(s: State, f: Fates)
    requires Good(ViewOf(s)) && PeacefulFates(f)
    ensures Good(ViewOf(DeleteFloatingIp(s, f).s))
  {
    if OwnsFip(s.spec) && s.st.fip != NO_ID {
      DeleteKeepsGood(s, f, ViewOf(s), FloatingIp, s.st.fip);
      var c := Delete(s, f, FloatingIp, s.st.fip);
      PartsChange(c.s, SetFip(c.s, NO_ID));
    }
  }

  lemma DeleteLbKeepsGood(s: State, f: Fates)
    requires Good(ViewOf(s)) && PeacefulFates(f)
    ensures Good(ViewOf(DeleteLoadBalancer(s, f).s))
  {
    PartsChange(s, ClearParts(s));
    if s.st.lbId != NO_ID {
      DeleteKeepsGood(s, f, ViewOf(s), LoadBalancer, s.st.lbId);
      var c := Delete(s, f, LoadBalancer, s.st.lbId);
      PartsChange(c.s, ClearParts(c.s));
    }
  }

  // -------------------------------------------------------------- keys of status

  lemma NetworksStayKeyed(s: State, f: Fates, specs: seq<NetworkSpec>, k: nat)
    requires KeyedNetworks(s.st.networks) && k <= |specs|
    ensures KeyedNetworks(NetworksFrom(s, f, specs, k).s.st.networks)
    decreases |specs| - k
  {
    if k < |specs| {
      var one := ReconcileNetwork(s, f, specs[k]);
      NetworkStaysKeyed(s, f, specs[k]);
      if one.flow == Proceed { NetworksStayKeyed(one.s, f, specs, k + 1); }
    }
  }

  lemma NetworkStaysKeyed(s: State, f: Fates, n: NetworkSpec)
    requires KeyedNetworks(s.st.networks)
    ensures KeyedNetworks(ReconcileNetwork(s, f, n).s.st.networks)
  {
    forall m ensures KeyedNetworks(PutNetwork(s.st.networks, m)) { PutNetworkKeyed(s.st.networks, m); }
  }

  lemma FoundRouterKeyed(rs: seq<RouterStatus>, name: Name)
    requires KeyedRouters(rs) && FindRouter(rs, name).Some?
    ensures KeyedInterfaces(FindRouter(rs, name).value.interfaces)
  {
  }

  lemma SetInterfaceKeyed(s: State, r: Name, e: InterfaceStatus)
    requires KeyedRouters(s.st.routers)
    ensures KeyedRouters(SetInterface(s, r, e).st.routers)
  {
    var rs := FindRouter(s.st.routers, r);
    if rs.Some? {
      FoundRouterKeyed(s.st.routers, r);
      PutInterfaceKeyed(rs.value.interfaces, e);
      WithInterfacesKeyed(s.st.routers, r, PutInterface(rs.value.interfaces, e));
    }
  }

  lemma InterfaceStaysKeyed(s: State, f: Fates, r: RouterSpec, x: Id, live: map<Id, Id>, e: InterfaceSpec)
    requires KeyedRouters(s.st.routers)
    ensures KeyedRouters(ReconcileInterface(s, f, r, x, live, e).s.st.routers)
  {
    forall i ensures KeyedRouters(SetInterface(s, r.name, i).st.routers) { SetInterfaceKeyed(s, r.name, i); }
    var n := FindNetwork(s.st.networks, e.network);
    if n.Some? {
      var p := SetInterface(s, r.name, InterfaceStatus(e.network, NO_ID, true));
      var c := CreateInterface(p, f, x, n.value.networkId);
      forall i ensures KeyedRouters(SetInterface(c.s, r.name, i).st.routers) { SetInterfaceKeyed(c.s, r.name, i); }
    }
  }

  lemma InterfacesStayKeyed(s: State, f: Fates, r: RouterSpec, x: Id, live: map<Id, Id>, k: nat)
    requires KeyedRouters(s.st.routers) && k <= |r.interfaces|
    ensures KeyedRouters(InterfacesFrom(s, f, r, x, live, k).s.st.routers)
    decreases |r.interfaces| - k
  {
    if k < |r.interfaces| {
      InterfaceStaysKeyed(s, f, r, x, live, r.interfaces[k]);
      var one := ReconcileInterface(s, f, r, x, live, r.interfaces[k]);
      if one.flow == Proceed { InterfacesStayKeyed(one.s, f, r, x, live, k + 1); }
    }
  }

  lemma RouterStaysKeyed(s: State, f: Fates, r: RouterSpec)
    requires KeyedRouters(s.st.routers)
    ensures KeyedRouters(ReconcileRouter(s, f, r).s.st.routers)
  {
    forall t: State, id | t.st.routers == s.st.routers ensures KeyedRouters(Settle(t, f, r, id).s.st.routers) {
      PutRouterKeyed(t.st.routers, r.name, id, r.uuid == NO_ID);
      InterfacesStayKeyed(SetRouter(t, r, id), f, r, id, Interfaces(t.w, id), 0);
    }
  }

  lemma RoutersStayKeyed(s: State, f: Fates, specs: seq<RouterSpec>, k: nat, acc: Flow)
    requires KeyedRouters(s.st.routers) && k <= |specs|
    ensures KeyedRouters(RoutersFrom(s, f, specs, k, acc).s.st.routers)
    decreases |specs| - k
  {
    if k < |specs| {
      RouterStaysKeyed(s, f, specs[k]);
      var one := ReconcileRouter(s, f, specs[k]);
      if one.flow != Error { RoutersStayKeyed(one.s, f, specs, k + 1, Join(acc, one.flow)); }
    }
  }
}
