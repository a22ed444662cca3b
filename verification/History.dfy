/** What no call and no outsider can undo: ids are not handed out twice, history only grows. */
module History {
  import opened Types
  import opened Cloud
  import opened Ensure

  ghost predicate Newer(w: World, v: World) {
    && w.next <= v.next && w.made <= v.made && w.targets <= v.targets
    && (forall i | i in v.res && i < w.next :: i in w.res && v.res[i] == w.res[i])
    && (forall i | i in v.ifaces && i < w.next :: i in w.ifaces && v.ifaces[i] == w.ifaces[i])
    && (forall i | i in v.res && v.res[i].tag.Some? :: (i in w.res && w.res[i] == v.res[i]) || i in v.made)
  }

  predicate IsChild(kind: Kind) {
    kind.Subnet? || kind.Pool? || kind.Listener? || kind.Monitor?
  }

  /** The same, and nothing was created with a tag below another resource. */
  ghost predicate Later(w: World, v: World) {
    Newer(w, v) && forall i | i in v.res && v.res[i].tag.Some? && IsChild(v.res[i].kind) :: i in w.res && w.res[i] == v.res[i]
  }

  /** An id that is not of the kind never becomes so. */
  ghost predicate Gone(w: World, kind: Kind, id: Id) {
    id < w.next && !IsKind(w.res, id, kind)
  }

  lemma LaterTransitive(u: World, v: World, w: World)
    requires Later(u, v) && Later(v, w)
    ensures Later(u, w)
  {
  }

  /** Resources and interfaces untouched, history growing. */
  lemma AsideLater(w: World, v: World)
    requires v.res == w.res && v.ifaces == w.ifaces && w.next <= v.next && w.made <= v.made && w.targets <= v.targets
    ensures Later(w, v)
  {
  }

  lemma GoneStays(w: World, v: World, kind: Kind, id: Id)
    requires Newer(w, v) && Gone(w, kind, id)
    ensures Gone(v, kind, id)
  {
  }

  lemma NewerTransitive(u: World, v: World, w: World)
    requires Newer(u, v) && Newer(v, w)
    ensures Newer(u, w)
  {
  }

  lemma OutsideLater(w: World, spec: Spec, acts: seq<Act>)
    ensures Later(w, OutsideAll(w, spec, acts))
    decreases acts
  {
    if acts != [] {
      var v := Outside(w, spec, acts[0]);
      assert Later(w, v);
      OutsideLater(v, spec, acts[1..]);
      LaterTransitive(w, v, OutsideAll(w, spec, acts));
    }
  }

  lemma TickLater(s: State, f: Fates)
    ensures Later(s.w, Tick(s, f).w)
  {
    OutsideLater(s.w, s.spec, f(s.clock).outside);
  }

  lemma CreateIsNewer(s: State, f: Fates, kind: Kind, tag: Tag, parent: Id)
    ensures Newer(s.w, Create(s, f, kind, tag, parent).s.w)
    ensures !IsChild(kind) ==> Later(s.w, Create(s, f, kind, tag, parent).s.w)
  {
    TickLater(s, f);
  }

  lemma RemoveLater(w: World, id: Id)
    ensures Later(w, Remove(w, id))
  {
  }

  lemma DeleteLater(s: State, f: Fates, kind: Kind, id: Id)
    ensures Later(s.w, Delete(s, f, kind, id).s.w)
  {
    TickLater(s, f);
    var w := Tick(s, f).w;
    var v := w.(targets := w.targets + {id});
    assert Later(w, v);
    RemoveLater(v, id);
    LaterTransitive(s.w, w, v);
    LaterTransitive(s.w, v, Remove(v, id));
  }

  lemma DeleteInterfaceLater(s: State, f: Fates, router: Id, iface: Id)
    ensures Later(s.w, DeleteInterface(s, f, router, iface).s.w)
  {
    TickLater(s, f);
  }

  lemma EnsureLater(s: State, f: Fates, current: Id, kind: Kind, tag: Tag)
    ensures Later(s.w, EnsureResource(s, f, current, kind, tag).s.w)
  {
    TickLater(s, f);
    var t := Tick(s, f);
    TickLater(t, f);
    LaterTransitive(s.w, t.w, Tick(t, f).w);
  }

  lemma CreateMissingIsNewer(e: Ensured, f: Fates, kind: Kind, tag: Tag, parent: Id)
    ensures Newer(e.s.w, CreateMissing(e, f, kind, tag, parent).s.w)
    ensures !IsChild(kind) ==> Later(e.s.w, CreateMissing(e, f, kind, tag, parent).s.w)
  {
    CreateIsNewer(e.s, f, kind, tag, parent);
    AsideLater(e.s.w, e.s.w);
  }

  lemma ObtainIsNewer(s: State, f: Fates, current: Id, kind: Kind, tag: Tag, parent: Id)
    ensures Newer(s.w, Obtain(s, f, current, kind, tag, parent).s.w)
    ensures !IsChild(kind) ==> Later(s.w, Obtain(s, f, current, kind, tag, parent).s.w)
  {
    EnsureLater(s, f, current, kind, tag);
    var e := EnsureResource(s, f, current, kind, tag);
    CreateMissingIsNewer(e, f, kind, tag, parent);
    var o := CreateMissing(e, f, kind, tag, parent);
    NewerTransitive(s.w, e.s.w, o.s.w);
    if !IsChild(kind) { LaterTransitive(s.w, e.s.w, o.s.w); }
  }

  /** When the recorded resource is replaced, it was gone. */
  lemma ReplacedIsGone(s: State, f: Fates, current: Id, kind: Kind, tag: Tag, parent: Id)
    requires 0 < current < s.w.next
    ensures var o := Obtain(s, f, current, kind, tag, parent);
            o.flow == Proceed && o.id != current ==> Gone(o.s.w, kind, current)
  {
    var o := Obtain(s, f, current, kind, tag, parent);
    var g := Get(s, f, kind, current);
    TickLater(s, f);
    if g.reply.Missing? {
      assert Gone(g.s.w, kind, current);
      EnsureLater(g.s, f, NO_ID, kind, tag);
      var e := EnsureResource(g.s, f, NO_ID, kind, tag);
      assert EnsureResource(s, f, current, kind, tag) == e;
      CreateIsNewer(e.s, f, kind, tag, parent);
      NewerTransitive(g.s.w, e.s.w, Create(e.s, f, kind, tag, parent).s.w);
      GoneStays(g.s.w, o.s.w, kind, current);
    }
  }
}
