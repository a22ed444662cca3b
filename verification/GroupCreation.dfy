/**
 cloudscalemachine_servergroup.go: many machine workers create server groups, one mutex around
 list-then-create. Every API call and every lock operation is a step of its own; a run is any
 sequence of steps of any number of workers.
 */
module GroupCreation {
  import opened Types

  /** Groups of one cluster; the tag filter hides all others. */
  datatype GroupKey = GroupKey(name: Name, zone: Name)

  datatype Pc = Idle | Waiting | Listing | Creating | Finished

  /** `status` is the ServerGroupID of the machine the worker reconciles. */
  datatype Worker = Worker(key: GroupKey, status: Id, pc: Pc)

  /** A create that timed out and has not landed yet, and the worker that sent it. */
  datatype Delayed = Delayed(sender: nat, key: GroupKey)

  datatype Fleet = Fleet(
    groups: map<Id, GroupKey>, next: Id, lock: Option<nat>, workers: seq<Worker>, late: seq<Delayed>)

  datatype Move =
    | Begin(w: nat, failed: bool)
    | Acquire(w: nat)
    | List(w: nat, failed: bool)
    | Create(w: nat, answered: bool, landed: bool)
    | CreateLate(w: nat)
    | Land(k: nat)
    | Rest(w: nat)
    | Vanish(id: Id)

  predicate Exists(groups: map<Id, GroupKey>, key: GroupKey) {
    exists i | i in groups :: groups[i] == key
  }

  /** The group the listing loop stops at. */
  ghost function Match(groups: map<Id, GroupKey>, key: GroupKey): (i: Id)
    requires Exists(groups, key)
    ensures i in groups && groups[i] == key
  {
    var i :| i in groups && groups[i] == key;
    i
  }

  function WithWorker(s: Fleet, w: nat, status: Id, pc: Pc): Fleet
    requires w < |s.workers|
  {
    s.(workers := s.workers[w := s.workers[w].(status := status, pc := pc)])
  }

  function WithGroup(s: Fleet, key: GroupKey): Fleet {
    s.(groups := s.groups[s.next := key], next := s.next + 1)
  }

  /** One step. A move that is not enabled changes nothing. */
  ghost function Apply(s: Fleet, m: Move): Fleet {
    match m
    case Begin(w, failed) =>
      if !(w < |s.workers| && s.workers[w].pc == Idle) then s else
      var status := s.workers[w].status;
      if status == NO_ID then WithWorker(s, w, NO_ID, Waiting)
      else if failed then s
      else if status in s.groups then WithWorker(s, w, status, Finished)
      else WithWorker(s, w, NO_ID, Waiting)
    case Acquire(w) =>
      if !(w < |s.workers| && s.workers[w].pc == Waiting && s.lock.None?) then s
      else WithWorker(s, w, s.workers[w].status, Listing).(lock := Some(w))
    case List(w, failed) =>
      if !(w < |s.workers| && s.workers[w].pc == Listing) then s
      else if failed then WithWorker(s, w, s.workers[w].status, Idle).(lock := None)
      else if Exists(s.groups, s.workers[w].key)
      then WithWorker(s, w, Match(s.groups, s.workers[w].key), Finished).(lock := None)
      else WithWorker(s, w, s.workers[w].status, Creating)
    case Create(w, answered, landed) =>
      if !(w < |s.workers| && s.workers[w].pc == Creating) then s else
      var t := if answered || landed then WithGroup(s, s.workers[w].key) else s;
      if answered then WithWorker(t, w, s.next, Finished).(lock := None)
      else WithWorker(t, w, s.workers[w].status, Idle).(lock := None)
    case CreateLate(w) =>
      if !(w < |s.workers| && s.workers[w].pc == Creating) then s
      else WithWorker(s, w, s.workers[w].status, Idle).(lock := None, late := s.late + [Delayed(w, s.workers[w].key)])
    case Land(k) =>
      if !(k < |s.late|) then s else WithGroup(s, s.late[k].key).(late := s.late[..k] + s.late[k + 1..])
    case Rest(w) =>
      if !(w < |s.workers| && s.workers[w].pc == Finished) then s else WithWorker(s, w, s.workers[w].status, Idle)
    case Vanish(id) => s.(groups := s.groups - {id})
  }

  /** No group of the cluster yet, nobody at work, all statuses empty. */
  ghost predicate Fresh(s: Fleet) {
    && s.groups == map[] && 0 < s.next && s.lock.None? && s.late == []
    && forall w | 0 <= w < |s.workers| :: s.workers[w].pc == Idle && s.workers[w].status == NO_ID
  }

  /** Any interleaving of the workers' steps, with the states in between. */
  ghost predicate IsInterleaving(trace: seq<Fleet>, ms: seq<Move>) {
    && |trace| == |ms| + 1 && Fresh(trace[0])
    && forall k | 0 <= k < |ms| :: trace[k + 1] == Apply(trace[k], ms[k])
  }

  /** No create for the key is still on its way. */
  ghost predicate Settled(late: seq<Delayed>, key: GroupKey) {
    forall d | d in late :: d.key != key
  }

  /** Nobody lists for a group while a create of it is on its way. */
  ghost predicate Patient(trace: seq<Fleet>, ms: seq<Move>)
    requires |trace| == |ms| + 1
  {
    forall k | 0 <= k < |ms| :: ListsSettled(trace[k], ms[k])
  }

  ghost predicate ListsSettled(s: Fleet, m: Move) {
    m.List? && m.w < |s.workers| ==> Settled(s.late, s.workers[m.w].key)
  }

  ghost predicate Undisturbed(ms: seq<Move>) {
    forall k | 0 <= k < |ms| :: !ms[k].Vanish?
  }

  ghost predicate OnePerKey(groups: map<Id, GroupKey>) {
    forall i, j | i in groups && j in groups && groups[i] == groups[j] :: i == j
  }

  // ------------------------------------------------------------------- at most one

  /** The lock is held from listing to the end of creating, and then nobody else has created the group or will. */
  ghost predicate Guarded(s: Fleet, w: nat)
    requires w < |s.workers|
  {
    var x := s.workers[w];
    && (x.pc == Listing || x.pc == Creating <==> s.lock == Some(w))
    && (x.pc == Creating ==> !Exists(s.groups, x.key) && Settled(s.late, x.key))
  }

  /** Creates on their way are for different groups, none of which exists. */
  ghost predicate LateOk(s: Fleet) {
    && (forall i, j | 0 <= i < j < |s.late| :: s.late[i].key != s.late[j].key)
    && (forall i | 0 <= i < |s.late| :: !Exists(s.groups, s.late[i].key))
  }

  ghost predicate Exclusive(s: Fleet) {
    && OnePerKey(s.groups) && LateOk(s) && 0 < s.next
    && (forall i | i in s.groups :: 0 < i < s.next)
    && (s.lock.Some? ==> s.lock.value < |s.workers|)
    && (forall w | 0 <= w < |s.workers| :: Guarded(s, w))
  }

  lemma NewGroup(groups: map<Id, GroupKey>, id: Id, key: GroupKey)
    requires !Exists(groups, key) && OnePerKey(groups)
    ensures OnePerKey(groups[id := key])
    ensures forall other | other != key && !Exists(groups, other) :: !Exists(groups[id := key], other)
  {
  }

  lemma CreateStaysExclusive(s: Fleet, w: nat, answered: bool, landed: bool)
    requires Exclusive(s)
    ensures Exclusive(Apply(s, Create(w, answered, landed)))
  {
    var t := Apply(s, Create(w, answered, landed));
    if w < |s.workers| && s.workers[w].pc == Creating {
      assert Guarded(s, w);
      NewGroup(s.groups, s.next, s.workers[w].key);
      forall i | 0 <= i < |s.late| ensures !Exists(t.groups, t.late[i].key) { assert s.late[i] in s.late; }
      forall v | 0 <= v < |t.workers| ensures Guarded(t, v) { assert Guarded(s, v); }
    }
  }

  lemma CreateLateStaysExclusive(s: Fleet, w: nat)
    requires Exclusive(s)
    ensures Exclusive(Apply(s, CreateLate(w)))
  {
    var t := Apply(s, CreateLate(w));
    if w < |s.workers| && s.workers[w].pc == Creating {
      assert Guarded(s, w);
      forall i | 0 <= i < |s.late| ensures s.late[i].key != s.workers[w].key { assert s.late[i] in s.late; }
      forall v | 0 <= v < |t.workers| ensures Guarded(t, v) { assert Guarded(s, v); }
    }
  }

  lemma LandStaysExclusive(s: Fleet, k: nat)
    requires Exclusive(s)
    ensures Exclusive(Apply(s, Land(k)))
  {
    var t := Apply(s, Land(k));
    if k < |s.late| {
      var d := s.late[k];
      NewGroup(s.groups, s.next, d.key);
      forall i | 0 <= i < |t.late| ensures t.late[i].key != d.key && t.late[i] in s.late {
        assert t.late[i] == s.late[if i < k then i else i + 1];
      }
      forall v | 0 <= v < |t.workers| ensures Guarded(t, v) {
        assert Guarded(s, v);
        assert d in s.late;
      }
    }
  }

  lemma LockStaysExclusive(s: Fleet, w: nat, failed: bool)
    requires Exclusive(s)
    ensures Exclusive(Apply(s, Acquire(w)))
    ensures ListsSettled(s, List(w, failed)) ==> Exclusive(Apply(s, List(w, failed)))
  {
    if s.lock.Some? { assert Guarded(s, s.lock.value); }
    if w < |s.workers| { assert Guarded(s, w); }
    forall v | 0 <= v < |s.workers|
      ensures Guarded(Apply(s, Acquire(w)), v)
      ensures ListsSettled(s, List(w, failed)) ==> Guarded(Apply(s, List(w, failed)), v)
    {
      assert Guarded(s, v);
    }
  }

  lemma MoveStaysExclusive(s: Fleet, m: Move)
    requires Exclusive(s) && ListsSettled(s, m)
    ensures Exclusive(Apply(s, m))
  {
    match m
    case Acquire(w) => LockStaysExclusive(s, w, false);
    case List(w, failed) => LockStaysExclusive(s, w, failed);
    case Create(w, answered, landed) => CreateStaysExclusive(s, w, answered, landed);
    case CreateLate(w) => CreateLateStaysExclusive(s, w);
    case Land(k) => LandStaysExclusive(s, k);
    case _ =>
      var t := Apply(s, m);
      forall w | 0 <= w < |t.workers| ensures Guarded(t, w) { assert Guarded(s, w); }
  }

  lemma FreshIsExclusive(s: Fleet)
    requires Fresh(s)
    ensures Exclusive(s) && RecordsOwn(s)
  {
    forall w | 0 <= w < |s.workers| ensures Guarded(s, w) {
    }
  }

  /** For any number of workers in any interleaving, at most one group per name and zone exists. */
  lemma {:induction false} AtMostOneGroup(trace: seq<Fleet>, ms: seq<Move>, k: nat)
    requires IsInterleaving(trace, ms) && Patient(trace, ms) && k <= |ms|
    ensures Exclusive(trace[k])
    decreases k
  {
    if k == 0 {
      FreshIsExclusive(trace[0]);
    } else {
      AtMostOneGroup(trace, ms, k - 1);
      MoveStaysExclusive(trace[k - 1], ms[k - 1]);
      assert trace[k - 1 + 1] == Apply(trace[k - 1], ms[k - 1]);
    }
  }

  // --------------------------------------------------------------------- same group

  /** A recorded id is that of the group the machine asks for. */
  ghost predicate RecordsOwn(s: Fleet) {
    forall w | 0 <= w < |s.workers| ::
      && (s.workers[w].status != NO_ID ==> s.workers[w].status in s.groups && s.groups[s.workers[w].status] == s.workers[w].key)
      && (s.workers[w].pc == Finished ==> s.workers[w].status != NO_ID)
  }

  lemma MoveStaysTrue(s: Fleet, m: Move)
    requires Exclusive(s) && RecordsOwn(s) && !m.Vanish?
    ensures RecordsOwn(Apply(s, m))
  {
    if (m.List? || m.Begin? || m.Create?) && m.w < |s.workers| {
      assert s.workers[m.w].status != NO_ID ==> s.workers[m.w].status in s.groups;
    }
  }

  lemma {:induction false} RunRecordsOwn(trace: seq<Fleet>, ms: seq<Move>, k: nat)
    requires IsInterleaving(trace, ms) && Patient(trace, ms) && Undisturbed(ms) && k <= |ms|
    ensures RecordsOwn(trace[k])
    decreases k
  {
    if k == 0 {
      FreshIsExclusive(trace[0]);
    } else {
      RunRecordsOwn(trace, ms, k - 1);
      AtMostOneGroup(trace, ms, k - 1);
      MoveStaysTrue(trace[k - 1], ms[k - 1]);
      assert trace[k - 1 + 1] == Apply(trace[k - 1], ms[k - 1]);
    }
  }

  /** With no outside deletion, all workers that finish for a name and zone hold the same, existing group. */
  lemma FinishedWorkersAgree(trace: seq<Fleet>, ms: seq<Move>, k: nat, v: nat, w: nat)
    requires IsInterleaving(trace, ms) && Patient(trace, ms) && Undisturbed(ms) && k <= |ms|
    requires v < |trace[k].workers| && w < |trace[k].workers| && trace[k].workers[v].key == trace[k].workers[w].key
    requires trace[k].workers[v].pc == Finished && trace[k].workers[w].pc == Finished
    ensures var id := trace[k].workers[v].status;
            trace[k].workers[w].status == id && id in trace[k].groups && trace[k].groups[id] == trace[k].workers[v].key
  {
    AtMostOneGroup(trace, ms, k);
    RunRecordsOwn(trace, ms, k);
  }

  // --------------------------------------------------------------------- late creates

  /** A create that timed out has landed when the worker that sent it lists again; the requeue waits for that. */
  ghost predicate Timely(trace: seq<Fleet>, ms: seq<Move>)
    requires |trace| == |ms| + 1
  {
    forall k | 0 <= k < |ms| :: ListsTimely(trace[k], ms[k])
  }

  ghost predicate ListsTimely(s: Fleet, m: Move) {
    m.List? ==> forall d | d in s.late :: d.sender != m.w
  }

  ghost predicate DistinctKeys(workers: seq<Worker>) {
    forall v, w | 0 <= v < w < |workers| :: workers[v].key != workers[w].key
  }

  /** The workers keep their keys, and a create on its way is for its sender's. */
  ghost predicate SendersOk(s: Fleet, t: Fleet) {
    && |t.workers| == |s.workers| && (forall w | 0 <= w < |s.workers| :: t.workers[w].key == s.workers[w].key)
    && (forall d | d in t.late :: d.sender < |t.workers| && d.key == t.workers[d.sender].key)
  }

  lemma MoveKeepsSenders(s: Fleet, t: Fleet, m: Move)
    requires SendersOk(s, t)
    ensures SendersOk(s, Apply(t, m))
  {
  }

  lemma {:induction false} RunKeepsSenders(trace: seq<Fleet>, ms: seq<Move>, k: nat)
    requires IsInterleaving(trace, ms) && k <= |ms|
    ensures SendersOk(trace[0], trace[k])
    decreases k
  {
    if k > 0 {
      RunKeepsSenders(trace, ms, k - 1);
      MoveKeepsSenders(trace[0], trace[k - 1], ms[k - 1]);
      assert trace[k - 1 + 1] == Apply(trace[k - 1], ms[k - 1]);
    }
  }

  /** With one worker per group, waiting for one's own creates is waiting for all of the group. */
  lemma TimelyIsPatient(trace: seq<Fleet>, ms: seq<Move>)
    requires IsInterleaving(trace, ms) && Timely(trace, ms) && DistinctKeys(trace[0].workers)
    ensures Patient(trace, ms)
  {
    forall k | 0 <= k < |ms| ensures ListsSettled(trace[k], ms[k]) {
      RunKeepsSenders(trace, ms, k);
      assert ListsTimely(trace[k], ms[k]);
    }
  }

  /** Begins, takes the lock, lists, and times out on its create. */
  lemma FirstIsDelayed(s: Fleet, v: nat)
    requires Fresh(s) && v < |s.workers|
    ensures var a := Apply(s, Begin(v, false)); var b := Apply(a, Acquire(v)); var c := Apply(b, List(v, false));
            b.late == [] && Apply(c, CreateLate(v)) == s.(late := [Delayed(v, s.workers[v].key)])
  {
    var a := Apply(s, Begin(v, false));
    var b := Apply(a, Acquire(v));
    assert !Exists(s.groups, s.workers[v].key);
    var d := Apply(Apply(b, List(v, false)), CreateLate(v));
    assert d.workers == s.workers;
  }

  /** A second worker for the group lists in between, and creates. */
  lemma SecondCreates(s: Fleet, w: nat, d: Delayed)
    requires Fresh(s) && w < |s.workers| && d.key == s.workers[w].key
    ensures var a := Apply(s.(late := [d]), Begin(w, false)); var b := Apply(a, Acquire(w)); var c := Apply(b, List(w, false));
            b.late == [d] && !OnePerKey(Apply(Apply(c, Create(w, true, true)), Land(0)).groups)
  {
    var a := Apply(s.(late := [d]), Begin(w, false));
    var b := Apply(a, Acquire(w));
    assert !Exists(s.groups, s.workers[w].key);
    var c := Apply(b, List(w, false));
    var e := Apply(Apply(c, Create(w, true, true)), Land(0));
    assert e.groups == map[s.next := d.key, s.next + 1 := d.key];
    assert s.next in e.groups && s.next + 1 in e.groups;
  }

  /** A timely interleaving leads from one fleet to the other. */
  ghost predicate Leads(s: Fleet, t: Fleet) {
    exists trace: seq<Fleet>, ms: seq<Move> :: IsInterleaving(trace, ms) && trace[0] == s && Timely(trace, ms) && t == trace[|ms|]
  }

  lemma LeadsNowhere(s: Fleet)
    requires Fresh(s)
    ensures Leads(s, s)
  {
    var ms: seq<Move> := [];
    assert IsInterleaving([s], ms) && Timely([s], ms) && s == [s][|ms|];
  }

  lemma LeadsFurther(s: Fleet, t: Fleet, m: Move)
    requires Leads(s, t) && ListsTimely(t, m)
    ensures Leads(s, Apply(t, m))
  {
    var trace: seq<Fleet>, ms :| IsInterleaving(trace, ms) && trace[0] == s && Timely(trace, ms) && t == trace[|ms|];
    var longer, more := trace + [Apply(t, m)], ms + [m];
    forall k | 0 <= k < |more| ensures longer[k + 1] == Apply(longer[k], more[k]) && ListsTimely(longer[k], more[k]) {
      if k < |ms| {
        assert longer[k + 1] == trace[k + 1] && longer[k] == trace[k] && more[k] == ms[k];
        assert ListsTimely(trace[k], ms[k]);
      }
    }
    assert IsInterleaving(longer, more) && Timely(longer, more) && Apply(t, m) == longer[|more|];
  }

  lemma FirstLeads(s: Fleet, v: nat)
    requires Fresh(s) && v < |s.workers|
    ensures Leads(s, s.(late := [Delayed(v, s.workers[v].key)]))
  {
    FirstIsDelayed(s, v);
    var a := Apply(s, Begin(v, false));
    var b := Apply(a, Acquire(v));
    LeadsNowhere(s);
    LeadsFurther(s, s, Begin(v, false));
    LeadsFurther(s, a, Acquire(v));
    LeadsFurther(s, b, List(v, false));
    LeadsFurther(s, Apply(b, List(v, false)), CreateLate(v));
  }

  lemma SharedKeyMakesTwo(s: Fleet, v: nat, w: nat)
    requires Fresh(s) && v < w < |s.workers| && s.workers[v].key == s.workers[w].key
    ensures exists t :: Leads(s, t) && !OnePerKey(t.groups)
  {
    var d := Delayed(v, s.workers[v].key);
    FirstLeads(s, v);
    SecondCreates(s, w, d);
    var a := Apply(s.(late := [d]), Begin(w, false));
    var b := Apply(a, Acquire(w));
    var c := Apply(b, List(w, false));
    LeadsFurther(s, s.(late := [d]), Begin(w, false));
    LeadsFurther(s, a, Acquire(w));
    LeadsFurther(s, b, List(w, false));
    LeadsFurther(s, c, Create(w, true, true));
    LeadsFurther(s, Apply(c, Create(w, true, true)), Land(0));
  }

  /**
   The wait after a timed-out create, which lets it land before its own worker lists again, keeps
   one group per name and zone exactly when no two workers are after the same one.
   */
  lemma DelaysAreHarmlessIff(s: Fleet)
    requires Fresh(s)
    ensures (forall t | Leads(s, t) :: OnePerKey(t.groups)) <==> DistinctKeys(s.workers)
  {
    if DistinctKeys(s.workers) {
      forall t | Leads(s, t) ensures OnePerKey(t.groups) {
        var trace: seq<Fleet>, ms :| IsInterleaving(trace, ms) && trace[0] == s && Timely(trace, ms) && t == trace[|ms|];
        TimelyIsPatient(trace, ms);
        AtMostOneGroup(trace, ms, |ms|);
      }
    } else {
      var v, w :| 0 <= v < w < |s.workers| && s.workers[v].key == s.workers[w].key;
      SharedKeyMakesTwo(s, v, w);
    }
  }

  /** Not waiting is fatal in any state: a worker that lists while a create of its group is on its way can make two. */
  lemma ListingTooEarlyMakesTwo(s: Fleet, w: nat, k: nat)
    requires w < |s.workers| && s.workers[w].pc == Listing && k < |s.late| && s.late[k].key == s.workers[w].key
    requires forall i | i in s.groups :: i < s.next
    ensures !OnePerKey(Apply(Apply(Apply(s, List(w, false)), Create(w, true, true)), Land(k)).groups)
  {
    var key := s.workers[w].key;
    var a := Apply(s, List(w, false));
    var b := Apply(a, Create(w, true, true));
    var c := Apply(b, Land(k));
    if Exists(s.groups, key) {
      var i := Match(s.groups, key);
      assert b == a && c.groups == s.groups[s.next := key];
      assert i in c.groups && s.next in c.groups;
    } else {
      assert c.groups == s.groups[s.next := key][s.next + 1 := key];
      assert s.next in c.groups && s.next + 1 in c.groups;
    }
  }

  // ------------------------------------------------------------------------- listing

  datatype Listed = Listed(id: Id, name: Name, zone: Name)

  /** The loop over the listed groups: the first one of the name in the zone, or none. */
  method FindGroup(groups: seq<Listed>, name: Name, zone: Name) returns (found: Option<Id>)
    ensures found.None? <==> forall g | g in groups :: !(g.name == name && g.zone == zone)
    ensures found.Some? ==>
              exists k :: 0 <= k < |groups| && groups[k] == Listed(found.value, name, zone) &&
                          forall j | 0 <= j < k :: !(groups[j].name == name && groups[j].zone == zone)
  {
    for i := 0 to |groups|
      invariant forall j | 0 <= j < i :: !(groups[j].name == name && groups[j].zone == zone)
    {
      if groups[i].name == name && groups[i].zone == zone {
        assert groups[i] == Listed(groups[i].id, name, zone);
        return Some(groups[i].id);
      }
    }
    return None;
  }
}
