/** Pool members as a map: lookups by pool and name, and what each edit does to them. */
module Members {
  import opened Types
  import opened Cloud
  import opened LoadBalancer

  function At(ms: seq<Member>, pool: Id, name: Name): Option<Member> {
    if ms == [] then None
    else if ms[0].pool == pool && ms[0].name == name then Some(ms[0])
    else At(ms[1..], pool, name)
  }

  /** Names are unique within a pool, ids everywhere. */
  ghost predicate KeyedMembers(ms: seq<Member>) {
    ms != [] ==>
      At(ms[1..], ms[0].pool, ms[0].name).None? && !HasMember(ms[1..], ms[0].id) && KeyedMembers(ms[1..])
  }

  ghost predicate MembersOk(ms: seq<Member>, next: Id) {
    KeyedMembers(ms) && forall m | m in ms :: m.id < next
  }

  /** Members go with their pool, so every member's pool exists. */
  ghost predicate Housed(ms: seq<Member>, res: Resources) {
    forall m | m in ms :: m.pool in res
  }

  lemma AtIn(ms: seq<Member>, pool: Id, name: Name)
    requires At(ms, pool, name).Some?
    ensures var m := At(ms, pool, name).value; m in ms && m.pool == pool && m.name == name
  {
  }

  lemma InAt(ms: seq<Member>, m: Member)
    requires KeyedMembers(ms) && m in ms
    ensures At(ms, m.pool, m.name) == Some(m)
  {
    if ms[0] != m {
      InAt(ms[1..], m);
    }
  }

  lemma SameIdSameMember(ms: seq<Member>, m: Member, n: Member)
    requires KeyedMembers(ms) && m in ms && n in ms && m.id == n.id
    ensures m == n
  {
    if ms[0] != m && ms[0] != n { SameIdSameMember(ms[1..], m, n); }
  }

  // ------------------------------------------------------------------ listing

  lemma InPoolIn(ms: seq<Member>, pool: Id, m: Member)
    ensures m in InPool(ms, pool) <==> m in ms && m.pool == pool
  {
  }

  /** The list by name, where the last entry of a name wins, against the pool. */
  lemma ByNameIsAt(ms: seq<Member>, pool: Id, name: Name)
    requires KeyedMembers(ms)
    ensures ByName(InPool(ms, pool), name) == At(ms, pool, name)
  {
    if ms != [] {
      ByNameIsAt(ms[1..], pool, name);
      var rest := InPool(ms[1..], pool);
      if ms[0].pool == pool {
        assert InPool(ms, pool) == [ms[0]] + rest;
        assert InPool(ms, pool)[1..] == rest;
      } else {
        assert InPool(ms, pool) == rest;
      }
    }
  }

  // -------------------------------------------------------------------- edits

  /** Members go away with their pool; a pool that is still there keeps all of its own. */
  lemma KeepMembersAt(ms: seq<Member>, res: Resources, pool: Id, name: Name)
    ensures At(KeepMembers(ms, res), pool, name) == if pool in res then At(ms, pool, name) else None
  {
    if ms != [] {
      KeepMembersAt(ms[1..], res, pool, name);
      var rest := KeepMembers(ms[1..], res);
      if ms[0].pool in res {
        assert KeepMembers(ms, res) == [ms[0]] + rest;
        assert KeepMembers(ms, res)[1..] == rest;
      } else {
        assert KeepMembers(ms, res) == rest;
      }
    }
  }

  lemma KeepMembersIn(ms: seq<Member>, res: Resources, m: Member)
    ensures m in KeepMembers(ms, res) <==> m in ms && m.pool in res
  {
  }

  lemma KeepMembersKeyed(ms: seq<Member>, res: Resources)
    requires KeyedMembers(ms)
    ensures KeyedMembers(KeepMembers(ms, res))
  {
    if ms != [] {
      KeepMembersKeyed(ms[1..], res);
      KeepMembersAt(ms[1..], res, ms[0].pool, ms[0].name);
      var rest := KeepMembers(ms[1..], res);
      forall m | m in rest ensures m.id != ms[0].id { KeepMembersIn(ms[1..], res, m); }
      if ms[0].pool in res {
        assert KeepMembers(ms, res) == [ms[0]] + rest;
        assert KeepMembers(ms, res)[1..] == rest;
      } else {
        assert KeepMembers(ms, res) == rest;
      }
    }
  }

  lemma {:induction false} AppendAt(ms: seq<Member>, m: Member, pool: Id, name: Name)
    ensures At(ms + [m], pool, name) ==
            if At(ms, pool, name).Some? then At(ms, pool, name)
            else if m.pool == pool && m.name == name then Some(m) else None
  {
    var all := ms + [m];
    if ms == [] {
      assert all[0] == m && all[1..] == [];
    } else {
      assert all[0] == ms[0] && all[1..] == ms[1..] + [m];
      AppendAt(ms[1..], m, pool, name);
    }
  }

  lemma {:induction false} AppendKeyed(ms: seq<Member>, m: Member)
    requires KeyedMembers(ms) && At(ms, m.pool, m.name).None? && !HasMember(ms, m.id)
    ensures KeyedMembers(ms + [m])
  {
    var all := ms + [m];
    if ms == [] {
      assert all[0] == m && all[1..] == [];
    } else {
      assert all[0] == ms[0] && all[1..] == ms[1..] + [m];
      AppendKeyed(ms[1..], m);
      AppendAt(ms[1..], m, ms[0].pool, ms[0].name);
    }
  }

  lemma {:induction false} WithAddressAt(ms: seq<Member>, id: Id, a: Addr, pool: Id, name: Name)
    ensures var was, now := At(ms, pool, name), At(WithAddress(ms, id, a), pool, name);
            now == if was.Some? && was.value.id == id then Some(was.value.(address := a)) else was
  {
    if ms != [] {
      var now := WithAddress(ms, id, a);
      assert now[1..] == WithAddress(ms[1..], id, a);
      WithAddressAt(ms[1..], id, a, pool, name);
    }
  }

  lemma {:induction false} WithAddressIds(ms: seq<Member>, id: Id, a: Addr, x: Id)
    ensures HasMember(WithAddress(ms, id, a), x) <==> HasMember(ms, x)
  {
    if ms != [] {
      var now := WithAddress(ms, id, a);
      assert now[1..] == WithAddress(ms[1..], id, a);
      WithAddressIds(ms[1..], id, a, x);
      assert HasMember(ms, x) <==> ms[0].id == x || HasMember(ms[1..], x) by { HeadOrTail(ms, x); }
      assert HasMember(now, x) <==> now[0].id == x || HasMember(now[1..], x) by { HeadOrTail(now, x); }
    }
  }

  lemma HeadOrTail(ms: seq<Member>, x: Id)
    requires ms != []
    ensures HasMember(ms, x) <==> ms[0].id == x || HasMember(ms[1..], x)
  {
    if HasMember(ms, x) {
      var m :| m in ms && m.id == x;
      assert m == ms[0] || m in ms[1..];
    }
  }

  lemma {:induction false} WithAddressKeyed(ms: seq<Member>, id: Id, a: Addr)
    requires KeyedMembers(ms)
    ensures KeyedMembers(WithAddress(ms, id, a))
  {
    if ms != [] {
      var now := WithAddress(ms, id, a);
      assert now[1..] == WithAddress(ms[1..], id, a);
      WithAddressKeyed(ms[1..], id, a);
      WithAddressAt(ms[1..], id, a, ms[0].pool, ms[0].name);
      WithAddressIds(ms[1..], id, a, ms[0].id);
    }
  }

  lemma WithoutIn(ms: seq<Member>, id: Id, m: Member)
    ensures m in Without(ms, id) <==> m in ms && m.id != id
  {
  }

  lemma {:induction false} WithoutAt(ms: seq<Member>, id: Id, pool: Id, name: Name)
    requires KeyedMembers(ms)
    ensures var was := At(ms, pool, name);
            At(Without(ms, id), pool, name) == if was.Some? && was.value.id == id then None else was
  {
    if ms != [] {
      WithoutAt(ms[1..], id, pool, name);
      var rest := Without(ms[1..], id);
      if ms[0].id == id {
        assert Without(ms, id) == rest;
        if At(ms[1..], pool, name).Some? { AtIn(ms[1..], pool, name); }
      } else {
        assert Without(ms, id) == [ms[0]] + rest;
        assert Without(ms, id)[1..] == rest;
      }
    }
  }

  lemma {:induction false} WithoutKeyed(ms: seq<Member>, id: Id)
    requires KeyedMembers(ms)
    ensures KeyedMembers(Without(ms, id))
  {
    if ms != [] {
      WithoutKeyed(ms[1..], id);
      WithoutAt(ms[1..], id, ms[0].pool, ms[0].name);
      var rest := Without(ms[1..], id);
      forall m | m in rest ensures m.id != ms[0].id { WithoutIn(ms[1..], id, m); }
      if ms[0].id == id {
        assert Without(ms, id) == rest;
      } else {
        assert Without(ms, id) == [ms[0]] + rest;
        assert Without(ms, id)[1..] == rest;
      }
    }
  }

  lemma WithAddressBound(ms: seq<Member>, id: Id, a: Addr, next: Id)
    requires forall m | m in ms :: m.id < next
    ensures forall m | m in WithAddress(ms, id, a) :: m.id < next
  {
  }

  lemma WithAddressHoused(ms: seq<Member>, id: Id, a: Addr, res: Resources)
    requires Housed(ms, res)
    ensures Housed(WithAddress(ms, id, a), res)
  {
    if ms != [] {
      assert Housed(ms[1..], res);
      assert ms[0] in ms;
    }
  }

  // ----------------------------------------------------------- effect on a world

  lemma RemoveKeepsMembers(w: World, id: Id)
    requires MembersOk(w.members, w.next)
    ensures MembersOk(Remove(w, id).members, w.next)
    ensures Housed(w.members, w.res) ==> Housed(Remove(w, id).members, Remove(w, id).res)
  {
    var v := Remove(w, id);
    if v != w {
      KeepMembersKeyed(w.members, v.res);
      forall m | m in v.members ensures m.id < w.next && m.pool in v.res { KeepMembersIn(w.members, v.res, m); }
    }
  }

  /** Outsiders can make members go only by making their pool go. */
  lemma OutsideMembers(w: World, spec: Spec, acts: seq<Act>)
    requires MembersOk(w.members, w.next)
    ensures var v := OutsideAll(w, spec, acts); MembersOk(v.members, v.next) && Spared(w, v)
    decreases acts
  {
    if acts != [] {
      var u := Outside(w, spec, acts[0]);
      OutsideActMembers(w, spec, acts[0]);
      OutsideMembers(u, spec, acts[1..]);
      SparedTransitive(w, u, OutsideAll(w, spec, acts));
    }
  }

  ghost predicate Spared(w: World, v: World) {
    && w.next <= v.next && (forall i | i in v.res && i < w.next :: i in w.res)
    && (forall p, x :: At(v.members, p, x).None? || At(v.members, p, x) == At(w.members, p, x))
    && (forall p, x | p in v.res && p < w.next :: At(v.members, p, x) == At(w.members, p, x))
  }

  lemma SparedTransitive(w: World, u: World, v: World)
    requires Spared(w, u) && Spared(u, v)
    ensures Spared(w, v)
  {
  }

  lemma OutsideActMembers(w: World, spec: Spec, act: Act)
    requires MembersOk(w.members, w.next)
    ensures var v := Outside(w, spec, act); MembersOk(v.members, v.next) && Spared(w, v)
    ensures Housed(w.members, w.res) ==> Housed(Outside(w, spec, act).members, Outside(w, spec, act).res)
  {
    if act.Vanish? {
      RemoveKeepsMembers(w, act.id);
      var v := Remove(w, act.id);
      if v != w {
        forall p, x ensures At(v.members, p, x) == if p in v.res then At(w.members, p, x) else None {
          KeepMembersAt(w.members, v.res, p, x);
        }
      }
    }
  }

  // ------------------------------------------------------------- desired members

  ghost predicate DistinctMachines(ms: seq<Machine>) {
    forall j, k | 0 <= j < k < |ms| :: ms[j].name != ms[k].name
  }

  ghost predicate DistinctWanted(ws: seq<Wanted>) {
    forall j, k | 0 <= j < k < |ws| :: ws[j].name != ws[k].name
  }

  lemma WantedNames(ms: seq<Machine>, subnet: Id, cidr: Cidr, port: int, w: Wanted)
    requires w in WantedFrom(ms, subnet, cidr, port)
    ensures exists m | m in ms :: m.name == w.name
  {
    var rest := WantedFrom(ms[1..], subnet, cidr, port);
    if w in rest { WantedNames(ms[1..], subnet, cidr, port, w); } else { assert ms[0].name == w.name; }
  }

  lemma WantedIsDistinct(ms: seq<Machine>, subnet: Id, cidr: Cidr, port: int)
    requires DistinctMachines(ms)
    ensures DistinctWanted(WantedFrom(ms, subnet, cidr, port))
  {
    if ms != [] {
      WantedIsDistinct(ms[1..], subnet, cidr, port);
      var all, rest := WantedFrom(ms, subnet, cidr, port), WantedFrom(ms[1..], subnet, cidr, port);
      if all != rest {
        assert all == [all[0]] + rest;
        forall k | 0 < k < |all| ensures all[0].name != all[k].name {
          assert all[k] == rest[k - 1];
          WantedNames(ms[1..], subnet, cidr, port, all[k]);
        }
      }
    }
  }
}
