/** The remaining stages, and the bound on the number of passes that stop on a timed-out create. */
module ProgressRuns {
  import opened Types
  import opened Cloud
  import opened Ensure
  import opened History
  import opened Networks
  import opened Routers
  import opened LoadBalancer
  import opened Members
  import opened FloatingIps
  import opened Controller
  import opened Ownership
  import opened AtMostOne
  import opened MemberConvergence
  import opened Progress

  // ------------------------------------------------------- load balancer and parts

  /** Writing ids beside the network and router lists is fine as long as the pool's is true. */
  lemma PartEditGoes(s: State, t: State, machines: seq<Machine>)
    requires Steady(s) && t.w == s.w && t.spec == s.spec && PoolTrue(t)
    requires t.st.networks == s.st.networks && t.st.routers == s.st.routers
    ensures Onward(s, t, machines)
  {
  }

  lemma LbKeysWanted(spec: Spec, kind: Kind, machines: seq<Machine>)
    requires LbEnabled(spec) && IsPart(kind)
    ensures AResource(kind, Owned) in WantedKeys(spec, machines)
  {
  }

  /** The id that is written down is true: the pool carries the tag, or there is none. */
  lemma PartIsTrue(s: State, f: Fates, kind: Kind, parent: Id)
    requires Steady(s) && GentleFates(f) && IsPart(kind)
    ensures var e := ReconcilePart(s, f, kind, parent);
            && PoolTrue(e.s) && (kind != Pool ==> e.s.st.poolId == s.st.poolId)
            && (e.flow == Proceed && kind == Pool ==> e.s.st.poolId in Tagged(e.s.w, Pool, Owned))
  {
    var current := PartId(s.st, kind);
    if kind == Pool {
      PoolIsTrue(s, f, parent);
    } else {
      ObtainGrows(s, f, current, kind, Owned, parent);
      TaggedGrows(s.w, Obtain(s, f, current, kind, Owned, parent).s.w, Pool, Owned);
    }
  }

  lemma PoolIsTrue(s: State, f: Fates, parent: Id)
    requires Steady(s) && GentleFates(f)
    ensures var e := ReconcilePart(s, f, Pool, parent);
            PoolTrue(e.s) && (e.flow == Proceed ==> e.s.st.poolId in Tagged(e.s.w, Pool, Owned))
  {
    ObtainGrows(s, f, s.st.poolId, Pool, Owned, parent);
    ObtainFinds(s, f, s.st.poolId, Pool, Owned, parent);
    OnlyProceedHasId(EnsureResource(s, f, s.st.poolId, Pool, Owned), f, Pool, Owned, parent);
    TaggedGrows(s.w, Obtain(s, f, s.st.poolId, Pool, Owned, parent).s.w, Pool, Owned);
  }

  lemma PartGoes(s: State, f: Fates, kind: Kind, parent: Id, machines: seq<Machine>)
    requires Steady(s) && GentleFates(f) && IsPart(kind) && LbEnabled(s.spec)
    ensures var e := ReconcilePart(s, f, kind, parent);
            && Onward(s, e.s, machines) && Goes(s, e.s, e.flow, machines)
            && (e.flow == Proceed && kind == Pool ==> e.s.st.poolId in Tagged(e.s.w, Pool, Owned))
            && (kind != Pool ==> e.s.st.poolId == s.st.poolId)
  {
    var current, e := PartId(s.st, kind), ReconcilePart(s, f, kind, parent);
    ObtainGoes(s, f, current, kind, Owned, parent, machines);
    PartIsTrue(s, f, kind, parent);
    var o := Obtain(s, f, current, kind, Owned, parent);
    assert e.s.w == o.s.w && e.s.st.networks == o.s.st.networks && e.s.st.routers == o.s.st.routers;
    PartEditGoes(o.s, e.s, machines);
    OnwardTransitive(s, o.s, e.s, machines);
    if o.flow == Stalled {
      ObtainGrows(s, f, current, kind, Owned, parent);
      LbKeysWanted(s.spec, kind, machines);
      TagIsNew(s, e.s, kind, Owned, machines);
    }
  }

  lemma LbGoes(s: State, f: Fates, machines: seq<Machine>)
    requires Steady(s) && GentleFates(f) && LbEnabled(s.spec)
    ensures var e := ReconcileLb(s, f); Onward(s, e.s, machines) && Goes(s, e.s, e.flow, machines)
  {
    EnsureGrows(s, f, s.st.lbId, LoadBalancer, Owned);
    var e := EnsureResource(s, f, s.st.lbId, LoadBalancer, Owned);
    if !e.err && e.id == NO_ID && !VipReady(s) {
      GrowthGoes(s, e.s, machines);
      PartEditGoes(e.s, SetPart(e.s, LoadBalancer, NO_ID), machines);
      OnwardTransitive(s, e.s, SetPart(e.s, LoadBalancer, NO_ID), machines);
    } else {
      PartGoes(s, f, LoadBalancer, NO_ID, machines);
    }
  }

  lemma PartsGo(s: State, f: Fates, machines: seq<Machine>)
    requires Steady(s) && GentleFates(f) && LbEnabled(s.spec)
    ensures var e := ReconcileParts(s, f);
            && Onward(s, e.s, machines) && Goes(s, e.s, e.flow, machines)
            && (e.flow == Proceed ==> e.s.st.poolId in Tagged(e.s.w, Pool, Owned))
  {
    PartGoes(s, f, Pool, s.st.lbId, machines);
    var p := ReconcilePart(s, f, Pool, s.st.lbId);
    if p.flow == Proceed {
      BelowPoolGoes(p.s, f, machines);
      var e := ReconcileParts(s, f);
      OnwardTransitive(s, p.s, e.s, machines);
      GoesOn(s, p.s, e.s, e.flow, machines);
      TaggedGrows(p.s.w, e.s.w, Pool, Owned);
    }
  }

  /** Listener, then health monitor. */
  lemma BelowPoolGoes(s: State, f: Fates, machines: seq<Machine>)
    requires Steady(s) && GentleFates(f) && LbEnabled(s.spec)
    ensures var l := ReconcilePart(s, f, Listener, s.st.poolId);
            var e := if l.flow != Proceed then l else ReconcilePart(l.s, f, Monitor, l.s.st.poolId);
            Onward(s, e.s, machines) && Goes(s, e.s, e.flow, machines) && e.s.st.poolId == s.st.poolId
  {
    PartGoes(s, f, Listener, s.st.poolId, machines);
    var l := ReconcilePart(s, f, Listener, s.st.poolId);
    if l.flow == Proceed {
      PartGoes(l.s, f, Monitor, l.s.st.poolId, machines);
      var m := ReconcilePart(l.s, f, Monitor, l.s.st.poolId);
      OnwardTransitive(s, l.s, m.s, machines);
      GoesOn(s, l.s, m.s, m.flow, machines);
    }
  }

  // ----------------------------------------------------------------------- members

  /** What the member loops run on: the pool is the one, and these are the members wanted. */
  ghost predicate AtMembers(s: State, want: seq<Wanted>, machines: seq<Machine>) {
    && Steady(s) && s.st.poolId in Tagged(s.w, Pool, Owned)
    && DesiredMembers(s.spec, s.st.networks, machines) == Some(want) && DistinctWanted(want)
  }

  lemma StillAtMembers(s: State, t: State, want: seq<Wanted>, machines: seq<Machine>)
    requires AtMembers(s, want, machines) && Onward(s, t, machines) && EditsMembers(s, t)
    ensures AtMembers(t, want, machines)
  {
    TaggedGrows(s.w, t.w, Pool, Owned);
  }

  lemma MemberIsWanted(s: State, want: seq<Wanted>, k: nat, machines: seq<Machine>)
    requires AtMembers(s, want, machines) && k < |want| && LbEnabled(s.spec)
    ensures AMember(want[k].name) in WantedKeys(s.spec, machines) && Wants(s, machines, want[k].name)
  {
    var subnet := PoolMemberSubnet(s.spec, s.st.networks).value;
    var cidr := MemberSubnetCidr(s.st.networks, subnet).value;
    WantedExplained(machines, subnet, cidr, s.spec.lb.port, want[k]);
    var m :| m in machines && Explains(m, want[k], cidr);
    assert AMember(m.name) in LbKeys(machines);
  }

  lemma MemberCreateGrows(s: State, f: Fates, w: Wanted)
    requires Lawful(s.w) && GentleFates(f) && At(s.w.members, s.st.poolId, w.name).None?
    ensures var c := CreateMember(s, f, w);
            && Lawful(c.s.w) && Grown(s.w, c.s.w)
            && (forall p, x | At(s.w.members, p, x).Some? :: At(c.s.w.members, p, x).Some?)
            && (c.reply.TimedOut? ==> At(c.s.w.members, s.st.poolId, w.name).Some?)
  {
    TickGrows(s, f);
    CreateMemberIsLawful(s, f, w);
    var t := Tick(s, f);
    var m := Member(t.w.next, s.st.poolId, w.name, w.address);
    forall p, x ensures At(t.w.members + [m], p, x) == if At(t.w.members, p, x).Some? then At(t.w.members, p, x)
                          else if m.pool == p && m.name == x then Some(m) else None {
      AppendAt(t.w.members, m, p, x);
    }
  }

  lemma MemberCreateGoes(s: State, f: Fates, want: seq<Wanted>, k: nat, machines: seq<Machine>)
    requires AtMembers(s, want, machines) && GentleFates(f) && k < |want| && LbEnabled(s.spec)
    requires At(s.w.members, s.st.poolId, want[k].name).None?
    ensures var c := CreateMember(s, f, want[k]);
            Onward(s, c.s, machines) && (c.reply.TimedOut? ==> New(s, c.s, machines))
  {
    var c, x := CreateMember(s, f, want[k]), want[k].name;
    MemberCreateGrows(s, f, want[k]);
    GrowthGoes(s, c.s, machines);
    if c.reply.TimedOut? {
      MemberIsWanted(s, want, k, machines);
      StillWants(s, c.s, machines, x);
      TaggedGrows(s.w, c.s.w, Pool, Owned);
      assert InThePool(c.s.w, x);
      assert !InThePool(s.w, x) by {
        forall p | p in Tagged(s.w, Pool, Owned) ensures At(s.w.members, p, x).None? { assert p == s.st.poolId; }
      }
      assert !Present(s, machines, AMember(x)) && Present(c.s, machines, AMember(x));
    }
  }

  lemma MemberUpdateGrows(s: State, f: Fates, id: Id, a: Addr)
    requires Lawful(s.w) && GentleFates(f)
    ensures var c := UpdateMember(s, f, id, a);
            && Lawful(c.s.w) && Grown(s.w, c.s.w)
            && (forall p, x | At(s.w.members, p, x).Some? :: At(c.s.w.members, p, x).Some?)
  {
    TickGrows(s, f);
    UpdateMemberIsLawful(s, f, id, a);
    var t := Tick(s, f);
    forall p, x | At(t.w.members, p, x).Some? ensures At(WithAddress(t.w.members, id, a), p, x).Some? {
      WithAddressAt(t.w.members, id, a, p, x);
    }
  }

  lemma MemberIdsGo(s: State, ids: seq<Id>, machines: seq<Machine>)
    requires Steady(s)
    ensures Onward(s, s.(st := s.st.(memberIds := ids)), machines)
  {
    PartEditGoes(s, s.(st := s.st.(memberIds := ids)), machines);
  }

  lemma UpsertCreateGoes(s: State, f: Fates, current: seq<Member>, want: seq<Wanted>, k: nat, machines: seq<Machine>)
    requires AtMembers(s, want, machines) && GentleFates(f) && k < |want| && LbEnabled(s.spec) && Unlisted(s, current, want, k)
    requires ByName(current, want[k].name).None?
    ensures var e := Upsert(s, f, current, want[k]); Onward(s, e.s, machines) && Goes(s, e.s, e.flow, machines)
  {
    MemberCreateGoes(s, f, want, k, machines);
    var c := CreateMember(s, f, want[k]);
    if c.reply.Done? {
      MemberIdsGo(c.s, c.s.st.memberIds + [c.reply.id], machines);
      OnwardTransitive(s, c.s, Upsert(s, f, current, want[k]).s, machines);
    }
  }

  lemma UpsertGoes(s: State, f: Fates, current: seq<Member>, want: seq<Wanted>, k: nat, machines: seq<Machine>)
    requires AtMembers(s, want, machines) && GentleFates(f) && k < |want| && LbEnabled(s.spec) && Unlisted(s, current, want, k)
    ensures var e := Upsert(s, f, current, want[k]); Onward(s, e.s, machines) && Goes(s, e.s, e.flow, machines)
  {
    var m := ByName(current, want[k].name);
    MemberIdsGo(s, s.st.memberIds, machines);
    if m.None? {
      UpsertCreateGoes(s, f, current, want, k, machines);
    } else if m.value.address != want[k].address {
      MemberUpdateGrows(s, f, m.value.id, want[k].address);
      GrowthGoes(s, UpdateMember(s, f, m.value.id, want[k].address).s, machines);
    }
  }

  lemma UpsertsGo(s: State, f: Fates, current: seq<Member>, want: seq<Wanted>, k: nat, machines: seq<Machine>)
    requires AtMembers(s, want, machines) && GentleFates(f) && k <= |want| && LbEnabled(s.spec) && Unlisted(s, current, want, k)
    ensures var e := UpsertFrom(s, f, current, want, k); Onward(s, e.s, machines) && Goes(s, e.s, e.flow, machines)
    decreases |want| - k
  {
    MemberIdsGo(s, s.st.memberIds, machines);
    if k < |want| {
      UpsertGoes(s, f, current, want, k, machines);
      UpsertIsLawful(s, f, current, want, k);
      var one := Upsert(s, f, current, want[k]);
      if one.flow == Proceed {
        StillAtMembers(s, one.s, want, machines);
        UpsertsGo(one.s, f, current, want, k + 1, machines);
        var e := UpsertFrom(one.s, f, current, want, k + 1);
        OnwardTransitive(s, one.s, e.s, machines);
        GoesOn(s, one.s, e.s, e.flow, machines);
      }
    }
  }

  /** A listed id keeps its name for the rest of the pass. */
  ghost predicate NamesKept(ms: seq<Member>, next: Id, current: seq<Member>) {
    && (forall c | c in current :: c.id < next)
    && (forall m, c | m in ms && c in current && m.id == c.id :: m.name == c.name)
  }

  lemma ListedNamesKept(w: World, pool: Id)
    requires Lawful(w)
    ensures NamesKept(w.members, w.next, InPool(w.members, pool))
  {
    forall c | c in InPool(w.members, pool) ensures c in w.members { InPoolIn(w.members, pool, c); }
    forall m, c | m in w.members && c in InPool(w.members, pool) && m.id == c.id ensures m.name == c.name {
      SameIdSameMember(w.members, m, c);
    }
  }

  lemma WithAddressNames(ms: seq<Member>, id: Id, a: Addr, m: Member)
    requires m in WithAddress(ms, id, a)
    ensures exists o | o in ms :: o.id == m.id && o.name == m.name
  {
    if m == WithAddress(ms, id, a)[0] { assert ms[0] in ms; } else { WithAddressNames(ms[1..], id, a, m); }
  }

  lemma TickKeepsNames(s: State, f: Fates, current: seq<Member>)
    requires Lawful(s.w) && GentleFates(f) && NamesKept(s.w.members, s.w.next, current)
    ensures var v := Tick(s, f).w; NamesKept(v.members, v.next, current)
  {
    TickGrows(s, f);
    TickLater(s, f);
  }

  lemma CreateKeepsNames(s: State, f: Fates, current: seq<Member>, w: Wanted)
    requires Lawful(s.w) && GentleFates(f) && NamesKept(s.w.members, s.w.next, current)
    ensures var v := CreateMember(s, f, w).s.w; NamesKept(v.members, v.next, current)
  {
    TickKeepsNames(s, f, current);
    var v := Tick(s, f).w;
    AppendKeepsNames(v.members, v.next, Member(v.next, s.st.poolId, w.name, w.address), current);
  }

  lemma UpdateKeepsNames(s: State, f: Fates, current: seq<Member>, id: Id, a: Addr)
    requires Lawful(s.w) && GentleFates(f) && NamesKept(s.w.members, s.w.next, current)
    ensures var v := UpdateMember(s, f, id, a).s.w; NamesKept(v.members, v.next, current)
  {
    TickKeepsNames(s, f, current);
    var v := Tick(s, f).w;
    AddressKeepsNames(v.members, v.next, id, a, current);
  }

  lemma UpsertKeepsNames(s: State, f: Fates, current: seq<Member>, w: Wanted)
    requires Lawful(s.w) && GentleFates(f) && NamesKept(s.w.members, s.w.next, current)
    ensures var v := Upsert(s, f, current, w).s.w; NamesKept(v.members, v.next, current)
  {
    var m := ByName(current, w.name);
    if m.None? { CreateKeepsNames(s, f, current, w); } else { UpdateKeepsNames(s, f, current, m.value.id, w.address); }
  }

  lemma AppendKeepsNames(ms: seq<Member>, next: Id, m: Member, current: seq<Member>)
    requires NamesKept(ms, next, current) && m.id == next
    ensures NamesKept(ms + [m], next + 1, current)
  {
  }

  lemma AddressKeepsNames(ms: seq<Member>, next: Id, id: Id, a: Addr, current: seq<Member>)
    requires NamesKept(ms, next, current)
    ensures NamesKept(WithAddress(ms, id, a), next, current)
  {
    forall m | m in WithAddress(ms, id, a) ensures exists o | o in ms :: o.id == m.id && o.name == m.name {
      WithAddressNames(ms, id, a, m);
    }
  }

  lemma UpsertsKeepNames(s: State, f: Fates, current: seq<Member>, want: seq<Wanted>, k: nat)
    requires Lawful(s.w) && GentleFates(f) && NamesKept(s.w.members, s.w.next, current) && k <= |want| && DistinctWanted(want) && Unlisted(s, current, want, k)
    ensures var v := UpsertFrom(s, f, current, want, k).s.w; NamesKept(v.members, v.next, current)
    decreases |want| - k
  {
    if k < |want| {
      UpsertKeepsNames(s, f, current, want[k]);
      UpsertIsLawful(s, f, current, want, k);
      var one := Upsert(s, f, current, want[k]);
      if one.flow == Proceed { UpsertsKeepNames(one.s, f, current, want, k + 1); }
    }
  }

  /** Deleting an unwanted member takes no wanted one away. */
  lemma PruneOneGrows(s: State, f: Fates, c: Member, want: seq<Wanted>)
    requires Lawful(s.w) && GentleFates(f) && NamesKept(s.w.members, s.w.next, [c]) && !IsWanted(want, c.name)
    ensures var d := DeleteMember(s, f, c.id);
            && Lawful(d.s.w) && Grown(s.w, d.s.w)
            && (forall p, x | IsWanted(want, x) && At(s.w.members, p, x).Some? :: At(d.s.w.members, p, x).Some?)
  {
    TickGrows(s, f);
    DeleteMemberIsLawful(s, f, c.id);
    var t := Tick(s, f);
    assert c in [c];
    forall p, x | IsWanted(want, x) && At(t.w.members, p, x).Some? ensures At(Without(t.w.members, c.id), p, x).Some? {
      WithoutAt(t.w.members, c.id, p, x);
      AtIn(t.w.members, p, x);
    }
  }

  lemma DeleteKeepsNames(s: State, f: Fates, id: Id, current: seq<Member>)
    requires Lawful(s.w) && GentleFates(f) && NamesKept(s.w.members, s.w.next, current)
    ensures var v := DeleteMember(s, f, id).s.w; NamesKept(v.members, v.next, current)
  {
    TickGrows(s, f);
    TickLater(s, f);
    var t := Tick(s, f);
    forall m | m in Without(t.w.members, id) ensures m in t.w.members { WithoutIn(t.w.members, id, m); }
  }

  lemma PruneOneGoes(s: State, f: Fates, c: Member, want: seq<Wanted>, machines: seq<Machine>)
    requires AtMembers(s, want, machines) && GentleFates(f) && NamesKept(s.w.members, s.w.next, [c]) && !IsWanted(want, c.name)
    ensures var d := DeleteMember(s, f, c.id);
            Onward(s, d.s, machines) && Onward(s, d.s.(st := d.s.st.(memberIds := DropId(d.s.st.memberIds, c.id))), machines)
  {
    var d := DeleteMember(s, f, c.id);
    PruneOneGrows(s, f, c, want);
    SteadyGrows(s, d.s);
    assert Onward(s, d.s, machines);
    MemberIdsGo(d.s, DropId(d.s.st.memberIds, c.id), machines);
    OnwardTransitive(s, d.s, d.s.(st := d.s.st.(memberIds := DropId(d.s.st.memberIds, c.id))), machines);
  }

  lemma PrunesGo(s: State, f: Fates, current: seq<Member>, want: seq<Wanted>, k: nat, machines: seq<Machine>)
    requires AtMembers(s, want, machines) && GentleFates(f) && k <= |current| && NamesKept(s.w.members, s.w.next, current)
    ensures var e := PruneFrom(s, f, current, want, k); Onward(s, e.s, machines) && e.flow != Stalled
    decreases |current| - k
  {
    MemberIdsGo(s, s.st.memberIds, machines);
    if k < |current| {
      if IsWanted(want, current[k].name) {
        PrunesGo(s, f, current, want, k + 1, machines);
      } else {
        PruneOneGoes(s, f, current[k], want, machines);
        DeleteKeepsNames(s, f, current[k].id, current);
        var d := DeleteMember(s, f, current[k].id);
        if d.reply.Done? {
          var t := d.s.(st := d.s.st.(memberIds := DropId(d.s.st.memberIds, current[k].id)));
          StillAtMembers(s, t, want, machines);
          PrunesGo(t, f, current, want, k + 1, machines);
          OnwardTransitive(s, t, PruneFrom(t, f, current, want, k + 1).s, machines);
        }
      }
    }
  }

  /** The member diff, from the state in which the members were listed. */
  lemma DiffGoes(s: State, f: Fates, want: seq<Wanted>, machines: seq<Machine>)
    requires AtMembers(s, want, machines) && GentleFates(f) && LbEnabled(s.spec)
    requires Unlisted(s, InPool(s.w.members, s.st.poolId), want, 0)
    ensures var current := InPool(s.w.members, s.st.poolId);
            var up := UpsertFrom(s, f, current, want, 0);
            var e := if up.flow != Proceed then up else PruneFrom(up.s, f, current, want, 0);
            Onward(s, e.s, machines) && Goes(s, e.s, e.flow, machines)
  {
    var current := InPool(s.w.members, s.st.poolId);
    UpsertsGo(s, f, current, want, 0, machines);
    ListedNamesKept(s.w, s.st.poolId);
    UpsertsKeepNames(s, f, current, want, 0);
    var up := UpsertFrom(s, f, current, want, 0);
    if up.flow == Proceed {
      StillAtMembers(s, up.s, want, machines);
      PrunesGo(up.s, f, current, want, 0, machines);
      OnwardTransitive(s, up.s, PruneFrom(up.s, f, current, want, 0).s, machines);
    }
  }

  lemma MembersGo(s: State, f: Fates, machines: seq<Machine>)
    requires Steady(s) && GentleFates(f) && LbEnabled(s.spec) && DistinctMachines(machines)
    requires s.st.poolId in Tagged(s.w, Pool, Owned)
    ensures var e := ReconcileMembers(s, f, machines); Onward(s, e.s, machines) && Goes(s, e.s, e.flow, machines)
  {
    var l, want := ListMembers(s, f), DesiredMembers(s.spec, s.st.networks, machines);
    TickGoes(s, f, machines);
    if l.ok && want.Some? {
      WantIsDistinct(s.spec, s.st.networks, machines);
      ListIsUnlisted(s, f, want.value);
      TaggedGrows(s.w, l.s.w, Pool, Owned);
      DiffGoes(l.s, f, want.value, machines);
      var e := ReconcileMembers(s, f, machines);
      OnwardTransitive(s, l.s, e.s, machines);
      GoesOn(s, l.s, e.s, e.flow, machines);
    }
  }

  lemma PopulateGoes(s: State, f: Fates, machines: seq<Machine>)
    requires Steady(s) && GentleFates(f) && LbEnabled(s.spec) && DistinctMachines(machines)
    ensures var e := Populate(s, f, machines); Onward(s, e.s, machines) && Goes(s, e.s, e.flow, machines)
  {
    PartsGo(s, f, machines);
    var p := ReconcileParts(s, f);
    if p.flow == Proceed {
      MembersGo(p.s, f, machines);
      var e := ReconcileMembers(p.s, f, machines);
      OnwardTransitive(s, p.s, e.s, machines);
      GoesOn(s, p.s, e.s, e.flow, machines);
    }
  }

  lemma AfterLbGoes(lb: Stage, f: Fates, machines: seq<Machine>)
    requires Steady(lb.s) && GentleFates(f) && LbEnabled(lb.s.spec) && DistinctMachines(machines)
    requires lb.flow == Proceed
    ensures var e := AfterLb(lb, f, machines); Onward(lb.s, e.s, machines) && Goes(lb.s, e.s, e.flow, machines)
  {
    TickGoes(lb.s, f, machines);
    var g := Get(lb.s, f, LoadBalancer, lb.s.st.lbId);
    PopulateGoes(g.s, f, machines);
    var p := Populate(g.s, f, machines);
    OnwardTransitive(lb.s, g.s, p.s, machines);
    GoesOn(lb.s, g.s, p.s, p.flow, machines);
  }

  lemma LoadBalancerGoes(s: State, f: Fates, machines: seq<Machine>)
    requires Steady(s) && GentleFates(f) && DistinctMachines(machines)
    ensures var e := ReconcileLoadBalancer(s, f, machines); Onward(s, e.s, machines) && Goes(s, e.s, e.flow, machines)
  {
    MemberIdsGo(s, s.st.memberIds, machines);
    if LbEnabled(s.spec) {
      LbGoes(s, f, machines);
      var lb := ReconcileLb(s, f);
      if lb.flow == Proceed {
        AfterLbGoes(lb, f, machines);
        var e := AfterLb(lb, f, machines);
        OnwardTransitive(s, lb.s, e.s, machines);
        GoesOn(s, lb.s, e.s, e.flow, machines);
      }
    }
  }

  // ------------------------------------------------------------------- floating IP

  lemma FipEditGoes(s: State, id: Id, machines: seq<Machine>)
    requires Steady(s)
    ensures Onward(s, SetFip(s, id), machines)
  {
    PartEditGoes(s, SetFip(s, id), machines);
  }

  lemma AssignGoes(s: State, f: Fates, m: seq<Machine>, machines: seq<Machine>)
    requires Steady(s) && GentleFates(f)
    ensures var e := Assign(s, f, m); Onward(s, e.s, machines) && e.flow != Stalled
  {
    TickGrows(s, f);
    MemberIdsGo(s, s.st.memberIds, machines);
    var e := Assign(s, f, m);
    if e.s.clock != s.clock {
      AsideIsLawful(Tick(s, f).w, e.s.w);
      GrowthGoes(s, e.s, machines);
    }
  }

  lemma CreateFipGoes(s: State, f: Fates, target: Id, machines: seq<Machine>)
    requires Steady(s) && GentleFates(f) && Tagged(s.w, FloatingIp, Owned) == {} && OwnsFip(s.spec)
    ensures var c := CreateFip(s, f, target); Onward(s, c.s, machines) && (c.reply.TimedOut? ==> New(s, c.s, machines))
  {
    var made, c := Create(s, f, FloatingIp, Owned, NO_ID), CreateFip(s, f, target);
    CreateGrows(s, f, FloatingIp, Owned, NO_ID);
    CreateFinds(s, f, FloatingIp, Owned, NO_ID);
    AsideIsLawful(made.s.w, c.s.w);
    GrowthGoes(s, c.s, machines);
    if c.reply.TimedOut? {
      assert Tagged(c.s.w, FloatingIp, Owned) == Tagged(made.s.w, FloatingIp, Owned);
      TagIsNew(s, c.s, FloatingIp, Owned, machines);
    }
  }

  lemma ManagedFipGoes(s: State, f: Fates, m: seq<Machine>, machines: seq<Machine>)
    requires Steady(s) && GentleFates(f) && OwnsFip(s.spec)
    ensures var e := ManagedFip(s, f, m); Onward(s, e.s, machines) && Goes(s, e.s, e.flow, machines)
  {
    EnsureGrows(s, f, s.st.fip, FloatingIp, Owned);
    EnsureIsLawful(s, f, s.st.fip, FloatingIp, Owned);
    var e := EnsureResource(s, f, s.st.fip, FloatingIp, Owned);
    GrowthGoes(s, e.s, machines);
    if !e.err {
      var t := SetFip(e.s, e.id);
      FipEditGoes(e.s, e.id, machines);
      OnwardTransitive(s, e.s, t, machines);
      if e.id != NO_ID {
        AssignGoes(t, f, m, machines);
        OnwardTransitive(s, t, Assign(t, f, m).s, machines);
      } else {
        NewFipGoes(t, f, Target(s, m), machines);
        var r := ManagedFip(s, f, m);
        OnwardTransitive(s, t, r.s, machines);
        GoesOn(s, t, r.s, r.flow, machines);
      }
    }
  }

  lemma NewFipGoes(s: State, f: Fates, target: Id, machines: seq<Machine>)
    requires Steady(s) && GentleFates(f) && Tagged(s.w, FloatingIp, Owned) == {} && OwnsFip(s.spec)
    ensures var c := CreateFip(s, f, target);
            && Onward(s, c.s, machines) && (c.reply.TimedOut? ==> Goes(s, c.s, Stalled, machines))
            && (c.reply.Done? ==> Onward(s, SetFip(c.s, c.reply.id), machines))
  {
    CreateFipGoes(s, f, target, machines);
    var c := CreateFip(s, f, target);
    if c.reply.Done? {
      FipEditGoes(c.s, c.reply.id, machines);
      OnwardTransitive(s, c.s, SetFip(c.s, c.reply.id), machines);
    }
  }

  lemma FloatingIpGoes(s: State, f: Fates, m: seq<Machine>, machines: seq<Machine>)
    requires Steady(s) && GentleFates(f)
    ensures var e := ReconcileFloatingIp(s, f, m); Onward(s, e.s, machines) && Goes(s, e.s, e.flow, machines)
  {
    if s.spec.fip.None? {
      MemberIdsGo(s, s.st.memberIds, machines);
    } else if s.spec.fip.value.address != NO_ID {
      var ip := s.spec.fip.value.address;
      TickGoes(s, f, machines);
      var t := Tick(s, f);
      FipEditGoes(t, ip, machines);
      OnwardTransitive(s, t, SetFip(t, ip), machines);
      AssignGoes(SetFip(t, ip), f, m, machines);
      OnwardTransitive(s, SetFip(t, ip), Assign(SetFip(t, ip), f, m).s, machines);
    } else {
      ManagedFipGoes(s, f, m, machines);
    }
  }

  // ------------------------------------------------------------------- whole passes

  lemma ConcludeGoes(s: State, vip: Id, machines: seq<Machine>)
    requires Steady(s)
    ensures Onward(s, Conclude(s, vip), machines)
  {
    var t := Conclude(s, vip);
    assert SameWish(s.spec, t.spec) && t.st.networks == s.st.networks && t.st.routers == s.st.routers;
  }

  lemma AfterLoadBalancerGoes(lb: LbStage, f: Fates, kube: Kube)
    requires Steady(lb.s) && GentleFates(f) && lb.flow == Proceed
    ensures var p := AfterLoadBalancer(lb, f, kube);
            Onward(lb.s, p.s, kube.machines) && Goes(lb.s, p.s, p.flow, kube.machines)
  {
    FloatingIpGoes(lb.s, f, kube.machines, kube.machines);
    var e := ReconcileFloatingIp(lb.s, f, kube.machines);
    if e.flow == Proceed {
      ConcludeGoes(e.s, lb.vip, kube.machines);
      OnwardTransitive(lb.s, e.s, Conclude(e.s, lb.vip), kube.machines);
    }
  }

  lemma AfterRoutersGoes(r: Stage, f: Fates, kube: Kube)
    requires Steady(r.s) && GentleFates(f) && DistinctMachines(kube.machines) && r.flow == Proceed
    ensures var p := AfterRouters(r, f, kube); Onward(r.s, p.s, kube.machines) && Goes(r.s, p.s, p.flow, kube.machines)
  {
    LoadBalancerGoes(r.s, f, kube.machines);
    var lb := ReconcileLoadBalancer(r.s, f, kube.machines);
    if lb.flow == Proceed {
      AfterLoadBalancerGoes(lb, f, kube);
      var p := AfterLoadBalancer(lb, f, kube);
      OnwardTransitive(r.s, lb.s, p.s, kube.machines);
      GoesOn(r.s, lb.s, p.s, p.flow, kube.machines);
    }
  }

  lemma AfterNetworksGoes(n: Stage, f: Fates, kube: Kube)
    requires Steady(n.s) && GentleFates(f) && DistinctMachines(kube.machines) && n.flow == Proceed
    ensures var p := AfterNetworks(n, f, kube); Onward(n.s, p.s, kube.machines) && Goes(n.s, p.s, p.flow, kube.machines)
  {
    MemberIdsGo(n.s, n.s.st.memberIds, kube.machines);
    RoutersGo(n.s, f, 0, Proceed, kube.machines, n.s);
    var r := ReconcileRouters(n.s, f);
    if r.flow == Proceed {
      AfterRoutersGoes(r, f, kube);
      var p := AfterRouters(r, f, kube);
      OnwardTransitive(n.s, r.s, p.s, kube.machines);
      GoesOn(n.s, r.s, p.s, p.flow, kube.machines);
    }
  }

  /** A normal pass goes forward, and when it stops on a timed-out create something of the spec is newly there. */
  lemma NormalPassGoes(s: State, f: Fates, kube: Kube)
    requires Steady(s) && GentleFates(f) && DistinctMachines(kube.machines)
    ensures var p := ReconcileNormal(s, f, kube); Onward(s, p.s, kube.machines) && Goes(s, p.s, p.flow, kube.machines)
  {
    MemberIdsGo(s, s.st.memberIds, kube.machines);
    if s.spec.networks != [] {
      NetworksGo(s, f, 0, kube.machines);
      var n := ReconcileNetworks(s, f);
      if n.flow == Proceed {
        AfterNetworksGoes(n, f, kube);
        var p := AfterNetworks(n, f, kube);
        OnwardTransitive(s, n.s, p.s, kube.machines);
        GoesOn(s, n.s, p.s, p.flow, kube.machines);
      }
    }
  }
}
