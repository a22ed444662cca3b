/** The three-way member diff makes the pool equal to what is desired, and then stays quiet. */
module MemberConvergence {
  import opened Types
  import opened Cloud
  import opened Ip
  import opened LoadBalancer
  import opened History
  import opened Members
  import opened AtMostOne

  /** The pool as a map from names to addresses. */
  ghost function PoolAddress(ms: seq<Member>, pool: Id, name: Name): Option<Addr> {
    var m := At(ms, pool, name);
    if m.Some? then Some(m.value.address) else None
  }

  ghost function DesiredAddress(want: seq<Wanted>, name: Name): Option<Addr> {
    if want == [] then None
    else if want[0].name == name then Some(want[0].address)
    else DesiredAddress(want[1..], name)
  }

  ghost predicate Converged(ms: seq<Member>, pool: Id, want: seq<Wanted>) {
    forall x :: PoolAddress(ms, pool, x) == DesiredAddress(want, x)
  }

  lemma DesiredAt(want: seq<Wanted>, k: nat)
    requires DistinctWanted(want) && k < |want|
    ensures DesiredAddress(want, want[k].name) == Some(want[k].address)
  {
    if k > 0 {
      assert want[0].name != want[k].name;
      DesiredAt(want[1..], k - 1);
    }
  }

  lemma DesiredNone(want: seq<Wanted>, name: Name)
    ensures DesiredAddress(want, name).None? <==> !IsWanted(want, name)
  {
    if want != [] {
      DesiredNone(want[1..], name);
      if IsWanted(want, name) {
        var w :| w in want && w.name == name;
        assert w == want[0] || w in want[1..];
      }
    }
  }

  // ------------------------------------------------------------- creates, updates

  ghost predicate Treated(want: seq<Wanted>, k: nat, name: Name)
    requires k <= |want|
  {
    exists j :: 0 <= j < k && want[j].name == name
  }

  /** After k upserts the first k names are right, and the others as listed. */
  ghost predicate Upserted(s: State, base: seq<Member>, want: seq<Wanted>, k: nat)
    requires k <= |want|
  {
    forall x ::
      if Treated(want, k, x) then PoolAddress(s.w.members, s.st.poolId, x) == DesiredAddress(want, x)
      else At(s.w.members, s.st.poolId, x) == At(base, s.st.poolId, x)
  }

  lemma CreateMemberEffect(s: State, f: Fates, w: Wanted)
    requires Lawful(s.w) && At(s.w.members, s.st.poolId, w.name).None?
    ensures var c := CreateMember(s, f, w);
            (c.reply.Done? && s.st.poolId in c.s.w.res && s.st.poolId < s.w.next ==>
                  && PoolAddress(c.s.w.members, s.st.poolId, w.name) == Some(w.address)
                  && forall x | x != w.name :: At(c.s.w.members, s.st.poolId, x) == At(s.w.members, s.st.poolId, x))
  {
    OutsideMembers(s.w, s.spec, f(s.clock).outside);
    var t := Tick(s, f);
    var m := Member(t.w.next, s.st.poolId, w.name, w.address);
    forall x ensures At(t.w.members + [m], s.st.poolId, x) ==
                     if At(t.w.members, s.st.poolId, x).Some? then At(t.w.members, s.st.poolId, x)
                     else if m.name == x then Some(m) else None {
      AppendAt(t.w.members, m, s.st.poolId, x);
    }
  }

  lemma UpdateMemberEffect(s: State, f: Fates, m: Member, a: Addr)
    requires Lawful(s.w) && At(s.w.members, s.st.poolId, m.name) == Some(m)
    ensures var c := UpdateMember(s, f, m.id, a);
            (c.reply.Done? && s.st.poolId in c.s.w.res && s.st.poolId < s.w.next ==>
                  && PoolAddress(c.s.w.members, s.st.poolId, m.name) == Some(a)
                  && forall x | x != m.name :: At(c.s.w.members, s.st.poolId, x) == At(s.w.members, s.st.poolId, x))
  {
    OutsideMembers(s.w, s.spec, f(s.clock).outside);
    var t, p := Tick(s, f), s.st.poolId;
    if p in t.w.res && p < s.w.next {
      OthersHaveOtherIds(t.w.members, p, m);
      forall x ensures var was := At(t.w.members, p, x);
                       At(WithAddress(t.w.members, m.id, a), p, x) ==
                       if was.Some? && was.value.id == m.id then Some(was.value.(address := a)) else was {
        WithAddressAt(t.w.members, m.id, a, p, x);
      }
    }
  }

  lemma OthersHaveOtherIds(ms: seq<Member>, pool: Id, m: Member)
    requires KeyedMembers(ms) && At(ms, pool, m.name) == Some(m)
    ensures forall x | x != m.name && At(ms, pool, x).Some? :: At(ms, pool, x).value.id != m.id
  {
    forall x | x != m.name && At(ms, pool, x).Some? ensures At(ms, pool, x).value.id != m.id {
      AtIn(ms, pool, m.name);
      AtIn(ms, pool, x);
      if At(ms, pool, x).value.id == m.id { SameIdSameMember(ms, m, At(ms, pool, x).value); }
    }
  }

  lemma OneMoreTreated(want: seq<Wanted>, k: nat)
    requires k < |want| && DistinctWanted(want)
    ensures !Treated(want, k, want[k].name)
    ensures forall x :: Treated(want, k + 1, x) <==> Treated(want, k, x) || x == want[k].name
  {
    forall x ensures Treated(want, k + 1, x) <==> Treated(want, k, x) || x == want[k].name {
      if x == want[k].name { assert want[k].name == x; }
    }
  }

  /** One name becomes right and the rest stays: what an upsert has to achieve. */
  lemma UpsertedExtends(s: State, t: State, base: seq<Member>, want: seq<Wanted>, k: nat)
    requires k < |want| && DistinctWanted(want) && Upserted(s, base, want, k) && t.st.poolId == s.st.poolId
    requires PoolAddress(t.w.members, s.st.poolId, want[k].name) == Some(want[k].address)
    requires forall x | x != want[k].name :: At(t.w.members, s.st.poolId, x) == At(s.w.members, s.st.poolId, x)
    ensures Upserted(t, base, want, k + 1)
  {
    DesiredAt(want, k);
    OneMoreTreated(want, k);
  }

  lemma UpsertStep(s: State, f: Fates, base: seq<Member>, want: seq<Wanted>, k: nat)
    requires Lawful(s.w) && KeyedMembers(base) && k < |want| && DistinctWanted(want) && Upserted(s, base, want, k)
    ensures var one := Upsert(s, f, InPool(base, s.st.poolId), want[k]);
            one.flow == Proceed && s.st.poolId in one.s.w.res && s.st.poolId < s.w.next ==>
              Upserted(one.s, base, want, k + 1)
  {
    var p, w := s.st.poolId, want[k];
    ByNameIsAt(base, p, w.name);
    OneMoreTreated(want, k);
    var m, one := At(base, p, w.name), Upsert(s, f, InPool(base, p), w);
    assert At(s.w.members, p, w.name) == m;
    if one.flow == Proceed && p in one.s.w.res && p < s.w.next {
      if m.None? {
        CreateMemberEffect(s, f, w);
      } else {
        AtIn(base, p, w.name);
        UpdateMemberEffect(s, f, m.value, w.address);
      }
      UpsertedExtends(s, one.s, base, want, k);
    }
  }

  lemma UpsertLater(s: State, f: Fates, current: seq<Member>, w: Wanted)
    ensures Later(s.w, Upsert(s, f, current, w).s.w)
  {
    TickLater(s, f);
    var t, v := Tick(s, f).w, Upsert(s, f, current, w).s.w;
    if v == s.w {
      AsideLater(s.w, v);
    } else {
      AsideLater(t, v);
      LaterTransitive(s.w, t, v);
    }
  }

  lemma UpsertsLater(s: State, f: Fates, current: seq<Member>, want: seq<Wanted>, k: nat)
    requires k <= |want|
    ensures Later(s.w, UpsertFrom(s, f, current, want, k).s.w)
    decreases |want| - k
  {
    if k < |want| {
      UpsertLater(s, f, current, want[k]);
      var one := Upsert(s, f, current, want[k]);
      if one.flow == Proceed {
        UpsertsLater(one.s, f, current, want, k + 1);
        LaterTransitive(s.w, one.s.w, UpsertFrom(one.s, f, current, want, k + 1).s.w);
      }
    }
  }

  lemma UpsertsConverge(s: State, f: Fates, base: seq<Member>, want: seq<Wanted>, k: nat)
    requires Lawful(s.w) && KeyedMembers(base) && k <= |want| && DistinctWanted(want) && Upserted(s, base, want, k)
    requires Unlisted(s, InPool(base, s.st.poolId), want, k) && s.st.poolId < s.w.next
    ensures var up := UpsertFrom(s, f, InPool(base, s.st.poolId), want, k);
            up.flow == Proceed && s.st.poolId in up.s.w.res ==> Upserted(up.s, base, want, |want|)
    decreases |want| - k
  {
    var current := InPool(base, s.st.poolId);
    if k < |want| {
      UpsertStep(s, f, base, want, k);
      UpsertIsLawful(s, f, current, want, k);
      UpsertLater(s, f, current, want[k]);
      var one := Upsert(s, f, current, want[k]);
      if one.flow == Proceed {
        UpsertsLater(one.s, f, current, want, k + 1);
        if s.st.poolId in one.s.w.res { UpsertsConverge(one.s, f, base, want, k + 1); }
      }
    }
  }

  // --------------------------------------------------------------------- deletes

  ghost predicate Passed(current: seq<Member>, k: nat, name: Name)
    requires k <= |current|
  {
    exists j :: 0 <= j < k && current[j].name == name
  }

  /** After k list entries, wanted names are right and unwanted ones are gone or still to come. */
  ghost predicate Pruned(s: State, base: seq<Member>, current: seq<Member>, want: seq<Wanted>, k: nat)
    requires k <= |current|
  {
    forall x ::
      if IsWanted(want, x) then PoolAddress(s.w.members, s.st.poolId, x) == DesiredAddress(want, x)
      else if Passed(current, k, x) then At(s.w.members, s.st.poolId, x).None?
      else At(s.w.members, s.st.poolId, x) == At(base, s.st.poolId, x)
  }

  lemma OneMorePassed(current: seq<Member>, k: nat)
    requires k < |current|
    ensures forall x :: Passed(current, k + 1, x) <==> Passed(current, k, x) || x == current[k].name
  {
    forall x ensures Passed(current, k + 1, x) <==> Passed(current, k, x) || x == current[k].name {
      if x == current[k].name { assert current[k].name == x; }
    }
  }

  lemma DeleteMemberEffect(s: State, f: Fates, m: Member)
    requires Lawful(s.w) && s.st.poolId < s.w.next && At(s.w.members, s.st.poolId, m.name) == Some(m)
    ensures var c := DeleteMember(s, f, m.id);
            c.reply.Done? && s.st.poolId in c.s.w.res ==>
              && At(c.s.w.members, s.st.poolId, m.name).None?
              && forall x | x != m.name :: At(c.s.w.members, s.st.poolId, x) == At(s.w.members, s.st.poolId, x)
  {
    OutsideMembers(s.w, s.spec, f(s.clock).outside);
    var t, p := Tick(s, f), s.st.poolId;
    if p in t.w.res {
      OthersHaveOtherIds(t.w.members, p, m);
      forall x ensures var was := At(t.w.members, p, x);
                       At(Without(t.w.members, m.id), p, x) == if was.Some? && was.value.id == m.id then None else was {
        WithoutAt(t.w.members, m.id, p, x);
      }
    }
  }

  lemma PrunesLater(s: State, f: Fates, current: seq<Member>, want: seq<Wanted>, k: nat)
    requires k <= |current|
    ensures Later(s.w, PruneFrom(s, f, current, want, k).s.w)
    decreases |current| - k
  {
    if k < |current| {
      if IsWanted(want, current[k].name) {
        PrunesLater(s, f, current, want, k + 1);
      } else {
        TickLater(s, f);
        var c := DeleteMember(s, f, current[k].id);
        assert Later(s.w, c.s.w);
        if c.reply.Done? {
          var t := c.s.(st := c.s.st.(memberIds := DropId(c.s.st.memberIds, current[k].id)));
          PrunesLater(t, f, current, want, k + 1);
          LaterTransitive(s.w, c.s.w, PruneFrom(t, f, current, want, k + 1).s.w);
        }
      }
    }
  }

  /** An unwanted entry of the list: it is deleted, or met for the second time never. */
  lemma PruneStep(s: State, f: Fates, base: seq<Member>, want: seq<Wanted>, k: nat)
    requires Lawful(s.w) && KeyedMembers(base) && s.st.poolId < s.w.next
    requires var current := InPool(base, s.st.poolId);
             && k < |current| && Pruned(s, base, current, want, k)
             && !IsWanted(want, current[k].name) && !Passed(current, k, current[k].name)
    ensures var current := InPool(base, s.st.poolId);
            var c := DeleteMember(s, f, current[k].id);
            c.reply.Done? && s.st.poolId in c.s.w.res ==> Pruned(c.s, base, current, want, k + 1)
  {
    var p, current := s.st.poolId, InPool(base, s.st.poolId);
    var m := current[k];
    InPoolIn(base, p, m);
    InAt(base, m);
    DeleteMemberEffect(s, f, m);
    OneMorePassed(current, k);
  }

  lemma ListedOnce(base: seq<Member>, pool: Id, k: nat)
    requires KeyedMembers(base) && k < |InPool(base, pool)|
    ensures !Passed(InPool(base, pool), k, InPool(base, pool)[k].name)
  {
    var rest := InPool(base[1..], pool);
    if base[0].pool == pool {
      assert InPool(base, pool) == [base[0]] + rest;
      if k > 0 {
        ListedOnce(base[1..], pool, k - 1);
        var m := rest[k - 1];
        InPoolIn(base[1..], pool, m);
        InAt(base[1..], m);
        assert base[0].name != m.name;
        forall j | 0 <= j < k ensures InPool(base, pool)[j].name != m.name {
          if j > 0 { assert InPool(base, pool)[j] == rest[j - 1]; }
        }
      }
    } else {
      assert InPool(base, pool) == rest;
      ListedOnce(base[1..], pool, k);
    }
  }

  lemma SkipWanted(s: State, base: seq<Member>, current: seq<Member>, want: seq<Wanted>, k: nat)
    requires k < |current| && Pruned(s, base, current, want, k) && IsWanted(want, current[k].name)
    ensures Pruned(s, base, current, want, k + 1)
  {
    OneMorePassed(current, k);
  }

  lemma PrunesConverge(s: State, f: Fates, base: seq<Member>, current: seq<Member>, want: seq<Wanted>, k: nat)
    requires Lawful(s.w) && KeyedMembers(base) && s.st.poolId < s.w.next && current == InPool(base, s.st.poolId)
    requires k <= |current| && Pruned(s, base, current, want, k)
    ensures var e := PruneFrom(s, f, current, want, k);
            e.flow == Proceed && s.st.poolId in e.s.w.res ==> Pruned(e.s, base, current, want, |current|)
    decreases |current| - k
  {
    if k < |current| {
      if IsWanted(want, current[k].name) {
        SkipWanted(s, base, current, want, k);
        PrunesConverge(s, f, base, current, want, k + 1);
      } else {
        var c := DeleteMember(s, f, current[k].id);
        if c.reply.Done? {
          var t := c.s.(st := c.s.st.(memberIds := DropId(c.s.st.memberIds, current[k].id)));
          PrunesLater(t, f, current, want, k + 1);
          TickLater(s, f);
          if s.st.poolId in c.s.w.res {
            ListedOnce(base, s.st.poolId, k);
            PruneStep(s, f, base, want, k);
            assert Pruned(t, base, current, want, k + 1);
            DeleteMemberIsLawful(s, f, current[k].id);
            PrunesConverge(t, f, base, current, want, k + 1);
          }
        }
      }
    }
  }

  // ------------------------------------------------------------------ whole passes

  lemma AllTreated(want: seq<Wanted>, x: Name)
    ensures Treated(want, |want|, x) <==> IsWanted(want, x)
  {
    if IsWanted(want, x) {
      var w :| w in want && w.name == x;
      var j :| 0 <= j < |want| && want[j] == w;
    }
  }

  /** Between the two loops: what the upserts leave is where the deletes start. */
  lemma UpsertedThenPruned(s: State, base: seq<Member>, current: seq<Member>, want: seq<Wanted>)
    requires Upserted(s, base, want, |want|)
    ensures Pruned(s, base, current, want, 0)
  {
    forall x ensures Treated(want, |want|, x) <==> IsWanted(want, x) { AllTreated(want, x); }
  }

  lemma PrunedIsConverged(s: State, base: seq<Member>, current: seq<Member>, want: seq<Wanted>)
    requires current == InPool(base, s.st.poolId) && Pruned(s, base, current, want, |current|)
    ensures Converged(s.w.members, s.st.poolId, want)
  {
    forall x ensures PoolAddress(s.w.members, s.st.poolId, x) == DesiredAddress(want, x) {
      DesiredNone(want, x);
      if !IsWanted(want, x) && At(base, s.st.poolId, x).Some? {
        AtIn(base, s.st.poolId, x);
        InPoolIn(base, s.st.poolId, At(base, s.st.poolId, x).value);
        var j :| 0 <= j < |current| && current[j] == At(base, s.st.poolId, x).value;
        assert Passed(current, |current|, x);
      }
    }
  }

  lemma WantIsDistinct(spec: Spec, ns: seq<NetworkStatus>, machines: seq<Machine>)
    requires DistinctMachines(machines) && DesiredMembers(spec, ns, machines).Some?
    ensures DistinctWanted(DesiredMembers(spec, ns, machines).value)
  {
    var subnet := PoolMemberSubnet(spec, ns).value;
    WantedIsDistinct(machines, subnet, MemberSubnetCidr(ns, subnet).value, spec.lb.port);
  }

  lemma ListIsUnlisted(s: State, f: Fates, want: seq<Wanted>)
    requires Lawful(s.w)
    ensures var l := ListMembers(s, f); Lawful(l.s.w) && Unlisted(l.s, l.members, want, 0)
    ensures var l := ListMembers(s, f); Upserted(l.s, l.s.w.members, want, 0)
  {
    TickIsLawful(s, f);
    var l := ListMembers(s, f);
    forall x ensures ByName(l.members, x) == At(l.s.w.members, s.st.poolId, x) {
      ByNameIsAt(l.s.w.members, s.st.poolId, x);
    }
  }

  /** The diff proper, from the state in which the members were listed. */
  lemma DiffConverges(s: State, f: Fates, want: seq<Wanted>)
    requires Lawful(s.w) && s.st.poolId < s.w.next && DistinctWanted(want)
    requires Upserted(s, s.w.members, want, 0) && Unlisted(s, InPool(s.w.members, s.st.poolId), want, 0)
    ensures var current := InPool(s.w.members, s.st.poolId);
            var up := UpsertFrom(s, f, current, want, 0);
            var e := PruneFrom(up.s, f, current, want, 0);
            up.flow == Proceed && e.flow == Proceed && s.st.poolId in e.s.w.res ==>
              Converged(e.s.w.members, s.st.poolId, want)
  {
    var current := InPool(s.w.members, s.st.poolId);
    UpsertsLater(s, f, current, want, 0);
    UpsertsConverge(s, f, s.w.members, want, 0);
    UpsertsAreLawful(s, f, current, want, 0);
    var up := UpsertFrom(s, f, current, want, 0);
    PrunesLater(up.s, f, current, want, 0);
    var e := PruneFrom(up.s, f, current, want, 0);
    if up.flow == Proceed && e.flow == Proceed && s.st.poolId in e.s.w.res {
      UpsertedThenPruned(up.s, s.w.members, current, want);
      PrunesConverge(up.s, f, s.w.members, current, want, 0);
      PrunedIsConverged(e.s, s.w.members, current, want);
    }
  }

  /** A pool that is gone holds nobody. */
  lemma GonePoolIsEmpty(w: World, pool: Id, want: seq<Wanted>)
    requires Lawful(w) && pool !in w.res
    ensures Converged(w.members, pool, want) <==> want == []
  {
    forall x ensures At(w.members, pool, x).None? {
      if At(w.members, pool, x).Some? { AtIn(w.members, pool, x); }
    }
    if want != [] { assert DesiredAddress(want, want[0].name).Some? && PoolAddress(w.members, pool, want[0].name).None?; }
  }

  /**
   A member pass that ends without error or requeue leaves the pool equal to the desired members,
   unless somebody deleted the pool under it: then exactly when nobody is desired.
   */
  lemma MembersConverge(s: State, f: Fates, machines: seq<Machine>)
    requires Lawful(s.w) && s.st.poolId < s.w.next && DistinctMachines(machines)
    ensures var e, want := ReconcileMembers(s, f, machines), DesiredMembers(s.spec, s.st.networks, machines);
            e.flow == Proceed ==>
              want.Some? && (Converged(e.s.w.members, s.st.poolId, want.value) <==> s.st.poolId in e.s.w.res || want.value == [])
  {
    var l, want := ListMembers(s, f), DesiredMembers(s.spec, s.st.networks, machines);
    if l.ok && want.Some? {
      WantIsDistinct(s.spec, s.st.networks, machines);
      ListIsUnlisted(s, f, want.value);
      TickLater(s, f);
      DiffConverges(l.s, f, want.value);
      MembersAreLawful(s, f, machines);
      var e := ReconcileMembers(s, f, machines);
      if s.st.poolId !in e.s.w.res { GonePoolIsEmpty(e.s.w, s.st.poolId, want.value); }
    }
  }

  // --------------------------------------------------------------- quiet afterwards

  lemma NothingToUpsert(s: State, f: Fates, want: seq<Wanted>, k: nat)
    requires KeyedMembers(s.w.members) && k <= |want| && DistinctWanted(want)
    requires Converged(s.w.members, s.st.poolId, want)
    ensures UpsertFrom(s, f, InPool(s.w.members, s.st.poolId), want, k) == Stage(s, Proceed)
    decreases |want| - k
  {
    if k < |want| {
      DesiredAt(want, k);
      ByNameIsAt(s.w.members, s.st.poolId, want[k].name);
      assert PoolAddress(s.w.members, s.st.poolId, want[k].name) == Some(want[k].address);
      NothingToUpsert(s, f, want, k + 1);
    }
  }

  lemma NothingToPrune(s: State, f: Fates, current: seq<Member>, want: seq<Wanted>, k: nat)
    requires KeyedMembers(s.w.members) && current == InPool(s.w.members, s.st.poolId) && k <= |current|
    requires Converged(s.w.members, s.st.poolId, want)
    ensures PruneFrom(s, f, current, want, k) == Stage(s, Proceed)
    decreases |current| - k
  {
    if k < |current| {
      var m := current[k];
      InPoolIn(s.w.members, s.st.poolId, m);
      InAt(s.w.members, m);
      DesiredNone(want, m.name);
      assert PoolAddress(s.w.members, s.st.poolId, m.name) == Some(m.address);
      NothingToPrune(s, f, current, want, k + 1);
    }
  }

  /** On a converged pool a member pass lists the members and makes no other call. */
  lemma ConvergedPassOnlyLists(s: State, f: Fates, machines: seq<Machine>)
    requires Lawful(s.w) && DistinctMachines(machines) && f(s.clock).outcome.Ok?
    requires var want := DesiredMembers(s.spec, s.st.networks, machines);
             want.Some? && Converged(Tick(s, f).w.members, s.st.poolId, want.value)
    ensures ReconcileMembers(s, f, machines) == Stage(Tick(s, f), Proceed)
  {
    TickIsLawful(s, f);
    WantIsDistinct(s.spec, s.st.networks, machines);
    var want := DesiredMembers(s.spec, s.st.networks, machines).value;
    var l := ListMembers(s, f);
    NothingToUpsert(l.s, f, want, 0);
    NothingToPrune(l.s, f, l.members, want, 0);
  }

  /** An immediate second pass makes no write call, unless the pool goes away first. */
  lemma SecondPassIsQuiet(s: State, f: Fates, g: Fates, machines: seq<Machine>)
    requires Lawful(s.w) && s.st.poolId < s.w.next && DistinctMachines(machines)
    requires var e := ReconcileMembers(s, f, machines);
             e.flow == Proceed && g(e.s.clock).outcome.Ok? && s.st.poolId in Tick(e.s, g).w.res
    ensures var e := ReconcileMembers(s, f, machines);
            ReconcileMembers(e.s, g, machines) == Stage(Tick(e.s, g), Proceed)
  {
    MembersConverge(s, f, machines);
    MembersAreLawful(s, f, machines);
    MembersPassLater(s, f, machines);
    var e := ReconcileMembers(s, f, machines);
    StaysConverged(e.s, g, DesiredMembers(s.spec, s.st.networks, machines).value);
    ConvergedPassOnlyLists(e.s, g, machines);
  }

  lemma StaysConverged(s: State, f: Fates, want: seq<Wanted>)
    requires Lawful(s.w) && s.st.poolId < s.w.next && s.st.poolId in Tick(s, f).w.res
    requires s.st.poolId in s.w.res ==> Converged(s.w.members, s.st.poolId, want)
    ensures s.st.poolId in s.w.res && Converged(Tick(s, f).w.members, s.st.poolId, want)
  {
    TickLater(s, f);
    OutsideMembers(s.w, s.spec, f(s.clock).outside);
  }

  lemma MembersPassLater(s: State, f: Fates, machines: seq<Machine>)
    ensures Later(s.w, ReconcileMembers(s, f, machines).s.w)
  {
    TickLater(s, f);
    var l, want := ListMembers(s, f), DesiredMembers(s.spec, s.st.networks, machines);
    if want.Some? {
      UpsertsLater(l.s, f, l.members, want.value, 0);
      var up := UpsertFrom(l.s, f, l.members, want.value, 0);
      LaterTransitive(s.w, l.s.w, up.s.w);
      PrunesLater(up.s, f, l.members, want.value, 0);
      LaterTransitive(s.w, up.s.w, PruneFrom(up.s, f, l.members, want.value, 0).s.w);
    }
  }

  // --------------------------------------------------------------- desired members

  predicate Usable(a: MachineAddress, cidr: Cidr) {
    a.internal && Contains(cidr, a.address)
  }

  /** The machine's first internal address inside the CIDR. */
  ghost predicate FirstUsable(addresses: seq<MachineAddress>, cidr: Cidr, a: Addr) {
    exists k :: 0 <= k < |addresses| && Usable(addresses[k], cidr) && addresses[k].address == a &&
                forall j | 0 <= j < k :: !Usable(addresses[j], cidr)
  }

  lemma MemberAddressIsFirst(addresses: seq<MachineAddress>, cidr: Cidr)
    ensures var a := MemberAddress(addresses, cidr);
            && (a.Some? <==> exists k :: 0 <= k < |addresses| && Usable(addresses[k], cidr))
            && (a.Some? ==> FirstUsable(addresses, cidr, a.value))
  {
    if addresses != [] {
      var a, rest := MemberAddress(addresses, cidr), addresses[1..];
      MemberAddressIsFirst(rest, cidr);
      if Usable(addresses[0], cidr) {
        assert FirstUsable(addresses, cidr, a.value);
      } else if a.Some? {
        var k :| 0 <= k < |rest| && Usable(rest[k], cidr) && rest[k].address == a.value &&
                 forall j | 0 <= j < k :: !Usable(rest[j], cidr);
        assert addresses[k + 1] == rest[k];
        forall j | 0 <= j < k + 1 ensures !Usable(addresses[j], cidr) { if j > 0 { assert addresses[j] == rest[j - 1]; } }
      }
    }
  }

  /** The machine behind a desired member. */
  ghost predicate Explains(m: Machine, w: Wanted, cidr: Cidr) {
    m.controlPlane && m.name == w.name && FirstUsable(m.addresses, cidr, w.address)
  }

  lemma WantedExplained(machines: seq<Machine>, subnet: Id, cidr: Cidr, port: int, w: Wanted)
    requires w in WantedFrom(machines, subnet, cidr, port)
    ensures w.subnet == subnet && w.port == port && exists m | m in machines :: Explains(m, w, cidr)
  {
    MemberAddressIsFirst(machines[0].addresses, cidr);
    if w in WantedFrom(machines[1..], subnet, cidr, port) {
      WantedExplained(machines[1..], subnet, cidr, port, w);
    } else {
      assert Explains(machines[0], w, cidr);
    }
  }

  lemma UsableIsWanted(machines: seq<Machine>, subnet: Id, cidr: Cidr, port: int, m: Machine, a: Addr)
    requires m in machines && m.controlPlane && MemberAddress(m.addresses, cidr) == Some(a)
    ensures Wanted(m.name, subnet, a, port) in WantedFrom(machines, subnet, cidr, port)
  {
    if machines[0] != m { UsableIsWanted(machines[1..], subnet, cidr, port, m, a); }
  }

  lemma CidrIsOfSubnet(ns: seq<NetworkStatus>, subnet: Id)
    requires MemberSubnetCidr(ns, subnet).Some?
    ensures exists n | n in ns :: n.subnetId == subnet && n.cidr == MemberSubnetCidr(ns, subnet)
  {
    if !(ns[0].subnetId == subnet && ns[0].cidr.Some?) { CidrIsOfSubnet(ns[1..], subnet); }
  }

  /**
   Each desired member carries its machine's first internal address inside the CIDR of the network
   whose subnet it names; a control-plane machine is left out exactly when it has none.
   */
  lemma DesiredMembersExact(spec: Spec, ns: seq<NetworkStatus>, machines: seq<Machine>)
    requires DesiredMembers(spec, ns, machines).Some? && DistinctMachines(machines)
    ensures exists n | n in ns && n.cidr.Some? ::
              && PoolMemberSubnet(spec, ns) == Some(n.subnetId)
              && Exact(DesiredMembers(spec, ns, machines).value, machines, n.subnetId, n.cidr.value, spec.lb.port)
  {
    var subnet := PoolMemberSubnet(spec, ns).value;
    var cidr := MemberSubnetCidr(ns, subnet).value;
    CidrIsOfSubnet(ns, subnet);
    WantedIsExact(machines, subnet, cidr, spec.lb.port);
  }

  ghost predicate Exact(want: seq<Wanted>, machines: seq<Machine>, subnet: Id, cidr: Cidr, port: int) {
    && (forall w | w in want :: w.subnet == subnet && w.port == port && exists m | m in machines :: Explains(m, w, cidr))
    && (forall m | m in machines && m.controlPlane ::
          IsWanted(want, m.name) <==> exists k :: 0 <= k < |m.addresses| && Usable(m.addresses[k], cidr))
  }

  lemma WantedIsExact(machines: seq<Machine>, subnet: Id, cidr: Cidr, port: int)
    requires DistinctMachines(machines)
    ensures Exact(WantedFrom(machines, subnet, cidr, port), machines, subnet, cidr, port)
  {
    var want := WantedFrom(machines, subnet, cidr, port);
    forall w | w in want ensures w.subnet == subnet && w.port == port && exists m | m in machines :: Explains(m, w, cidr) {
      WantedExplained(machines, subnet, cidr, port, w);
    }
    forall m | m in machines && m.controlPlane
      ensures IsWanted(want, m.name) <==> exists k :: 0 <= k < |m.addresses| && Usable(m.addresses[k], cidr)
    {
      MemberAddressIsFirst(m.addresses, cidr);
      var a := MemberAddress(m.addresses, cidr);
      if a.Some? { UsableIsWanted(machines, subnet, cidr, port, m, a.value); }
      if IsWanted(want, m.name) {
        var w :| w in want && w.name == m.name;
        WantedExplained(machines, subnet, cidr, port, w);
        var o :| o in machines && Explains(o, w, cidr);
        SameNameSameMachine(machines, m, o);
      }
    }
  }

  lemma SameNameSameMachine(machines: seq<Machine>, m: Machine, o: Machine)
    requires DistinctMachines(machines) && m in machines && o in machines && m.name == o.name
    ensures m == o
  {
  }
}
