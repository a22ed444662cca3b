/** cloudscale_services.go: get by status id, else adopt by tag, else let the caller create. */
module Ensure {
  import opened Types
  import opened Cloud

  /** The result triple of ensureResource; NO_ID without an error means "create it". */
  datatype Ensured = Ensured(s: State, id: Id, err: bool)

  function EnsureResource(s: State, f: Fates, current: Id, kind: Kind, tag: Tag): (e: Ensured)
    ensures SameRecords(s, e.s)
  {
    if current == NO_ID then ByTag(s, f, kind, tag) else
    var g := Get(s, f, kind, current);
    match g.reply
    case Done(_) => Ensured(g.s, current, false)
    case Missing => ByTag(g.s, f, kind, tag)
    case _ => Ensured(g.s, NO_ID, true)
  }

  function ByTag(s: State, f: Fates, kind: Kind, tag: Tag): (e: Ensured)
    ensures SameRecords(s, e.s)
  {
    var l := List(s, f, kind, tag);
    if !l.ok || |l.ids| > 1 then Ensured(l.s, NO_ID, true)
    else if |l.ids| == 1 then Ensured(l.s, Only(l.ids), false)
    else Ensured(l.s, NO_ID, false)
  }

  /** `looked` tells that ensureResource answered, so a caller may record `id`, even NO_ID. */
  datatype Obtained = Obtained(s: State, id: Id, flow: Flow, looked: bool)

  /** What every managed resource goes through: ensureResource, then a create if there is none. */
  function Obtain(s: State, f: Fates, current: Id, kind: Kind, tag: Tag, parent: Id): (o: Obtained)
    ensures SameRecords(s, o.s)
  {
    CreateMissing(EnsureResource(s, f, current, kind, tag), f, kind, tag, parent)
  }

  function CreateMissing(e: Ensured, f: Fates, kind: Kind, tag: Tag, parent: Id): (o: Obtained)
    ensures SameRecords(e.s, o.s)
  {
    if e.err then Obtained(e.s, NO_ID, Error, false)
    else if e.id != NO_ID then Obtained(e.s, e.id, Proceed, true)
    else
      var c := Create(e.s, f, kind, tag, parent);
      match c.reply
      case Done(id) => Obtained(c.s, id, Proceed, true)
      case TimedOut => Obtained(c.s, NO_ID, Stalled, true)
      case _ => Obtained(c.s, NO_ID, Error, true)
  }

  lemma OnlyProceedHasId(e: Ensured, f: Fates, kind: Kind, tag: Tag, parent: Id)
    ensures var o := CreateMissing(e, f, kind, tag, parent); o.flow != Proceed ==> o.id == NO_ID
  {
  }
}
