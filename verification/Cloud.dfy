/**
 The cloudscale.ch API as the reconcilers see it.

 A `World` is what exists in the account. A reconcile pass is a sequence of API calls; the
 k-th call of a pass meets the fate `f(k)`: whether it succeeds, fails or times out, and in
 the last two cases whether it landed anyway; what outsiders did since the previous call;
 and the attributes a read reports. A theorem for all `f` covers every pattern of failures.
 */
module Cloud {
  import opened Types

  datatype Kind = Network | Subnet | Router | LoadBalancer | Pool | Listener | Monitor | FloatingIp

  /** The value of the capcs-cluster-<cluster> tag: a spec entry's name, or "owned". */
  datatype Tag = Named(name: Name) | Owned

  datatype Resource = Resource(kind: Kind, tag: Option<Tag>, parent: Id)

  datatype Attachment = Attachment(router: Id, network: Id)

  datatype Member = Member(id: Id, pool: Id, name: Name, address: Addr)

  datatype ServerGroup = ServerGroup(id: Id, owned: bool, servers: seq<Id>)

  /**
   `made`, `targets` and `disbanded` are history: every id CAPCS ever created, every resource
   or interface CAPCS ever asked the API to delete or detach, whatever the answer was, and
   the same for server groups. `serves` maps a floating IP to what it is assigned to.
   */
  datatype World = World(
    res: Resources,
    ifaces: map<Id, Attachment>,
    members: seq<Member>,
    groups: seq<ServerGroup>,
    serves: map<Id, Id>,
    next: Id,
    made: set<Id>,
    targets: set<Id>,
    disbanded: set<Id>)

  datatype State = State(w: World, st: Status, spec: Spec, clock: nat, finalizer: bool, deleting: bool)

  // ------------------------------------------------------------------ outsiders

  /** Things others do to the account. `Intrude` is an attach no rule holds back. */
  datatype Act =
    | Appear(kind: Kind, parent: Id)
    | Vanish(id: Id)
    | Detach(iface: Id)
    | Attach(router: Id, network: Id)
    | Intrude(router: Id, network: Id)
    | Crew(group: Id, servers: seq<Id>)

  /** The spec asks CAPCS to attach the adopted router to the pre-existing network itself. */
  predicate Asked(spec: Spec, router: Id, network: Id) {
    exists r | r in spec.routers :: exists e | e in r.interfaces :: exists n | n in spec.networks ::
      r.uuid == router && e.uuid == NO_ID && e.network == n.name && n.uuid == network
  }

  /** Outsiders keep off CAPCS's own routers and networks, and off attachments the spec asks for. */
  predicate MayAttach(w: World, spec: Spec, router: Id, network: Id) {
    router !in w.made && network !in w.made && !Asked(spec, router, network)
  }

  type Resources = map<Id, Resource>

  predicate IsKind(res: Resources, id: Id, kind: Kind) {
    id in res && res[id].kind == kind
  }

  predicate Attached(w: World, router: Id, network: Id) {
    exists i | i in w.ifaces :: w.ifaces[i] == Attachment(router, network)
  }

  /** A router holds at most one interface per network. */
  predicate CanAttach(w: World, router: Id, network: Id) {
    IsKind(w.res, router, Router) && IsKind(w.res, network, Network) && !Attached(w, router, network)
  }

  predicate InUse(w: World, id: Id) {
    exists i | i in w.ifaces :: w.ifaces[i].router == id || w.ifaces[i].network == id
  }

  predicate ParentOk(res: Resources, kind: Kind, parent: Id) {
    match kind
    case Subnet => IsKind(res, parent, Network)
    case Pool => IsKind(res, parent, LoadBalancer)
    case Listener => IsKind(res, parent, Pool)
    case Monitor => IsKind(res, parent, Pool)
    case _ => parent == NO_ID
  }

  /** `i` is `id`, or hangs below it: subnets below networks, LB children below the LB. */
  predicate Below(res: Resources, i: Id, id: Id)
    requires i in res
  {
    || i == id
    || res[i].parent == id
    || (res[i].parent in res && res[res[i].parent].parent == id)
  }

  /** Deleting cascades to children. A router or network with an interface on it is refused. */
  function Remove(w: World, id: Id): World {
    if id !in w.res || id == NO_ID || InUse(w, id) then w else
    var res := map i | i in w.res && !Below(w.res, i, id) :: w.res[i];
    w.(res := res, members := KeepMembers(w.members, res))
  }

  function KeepMembers(ms: seq<Member>, res: Resources): seq<Member> {
    if ms == [] then []
    else (if ms[0].pool in res then [ms[0]] else []) + KeepMembers(ms[1..], res)
  }

  function WithServers(gs: seq<ServerGroup>, group: Id, servers: seq<Id>): seq<ServerGroup> {
    if gs == [] then []
    else [if gs[0].id == group then gs[0].(servers := servers) else gs[0]] + WithServers(gs[1..], group, servers)
  }

  function AttachNow(w: World, router: Id, network: Id): World {
    w.(ifaces := w.ifaces[w.next := Attachment(router, network)], next := w.next + 1)
  }

  function Outside(w: World, spec: Spec, act: Act): World {
    match act
    case Appear(kind, parent) =>
      if ParentOk(w.res, kind, parent)
      then w.(res := w.res[w.next := Resource(kind, None, parent)], next := w.next + 1) else w
    case Vanish(id) => Remove(w, id)
    case Detach(iface) => w.(ifaces := w.ifaces - {iface})
    case Attach(router, network) =>
      if CanAttach(w, router, network) && MayAttach(w, spec, router, network)
      then AttachNow(w, router, network) else w
    case Intrude(router, network) =>
      if CanAttach(w, router, network) then AttachNow(w, router, network) else w
    case Crew(group, servers) => w.(groups := WithServers(w.groups, group, servers))
  }

  function OutsideAll(w: World, spec: Spec, acts: seq<Act>): World
    decreases acts
  {
    if acts == [] then w else OutsideAll(Outside(w, spec, acts[0]), spec, acts[1..])
  }

  // ---------------------------------------------------------------------- calls

  /** `Busy` is the API's refusal to delete a network that still has LB pool members. */
  datatype Outcome = Ok | Fail(landed: bool) | Timeout(landed: bool) | Busy

  datatype LbState = Running | Changing | OtherState

  /**
   What the k-th call of a pass meets. The last five fields stand for attributes a read
   reports: whether the resource lies in the spec's zone or region, whether a router is
   active, an LB's status, a first subnet or VIP, and that subnet's CIDR.
   */
  datatype Fate = Fate(
    outcome: Outcome, outside: seq<Act>,
    inZone: bool, active: bool, lbState: LbState, value: Id, cidr: Cidr)

  type Fates = nat -> Fate

  datatype Reply = Done(id: Id) | Missing | TimedOut | Failed | Refused

  datatype Called = Called(s: State, reply: Reply)

  datatype Listed = Listed(s: State, ok: bool, ids: set<Id>)

  /** How a stage ends: go on, requeue, requeue because a create timed out, or an error. */
  datatype Flow = Proceed | Requeue | Stalled | Error

  datatype Stage = Stage(s: State, flow: Flow)

  /** The fate of the call that was made last. */
  function Last(s: State, f: Fates): Fate {
    if s.clock == 0 then f(0) else f(s.clock - 1)
  }

  /** A call touches the cloud, never status or spec. */
  ghost predicate SameRecords(s: State, t: State) {
    t == s.(w := t.w, clock := t.clock)
  }

  /** Time passes until the next call. */
  function Tick(s: State, f: Fates): State {
    s.(w := OutsideAll(s.w, s.spec, f(s.clock).outside), clock := s.clock + 1)
  }

  predicate Lands(o: Outcome) {
    o.Ok? || (o.Fail? && o.landed) || (o.Timeout? && o.landed)
  }

  /** The answer to a write that the API accepts. */
  function Answer(o: Outcome, id: Id): Reply {
    match o
    case Ok => Done(id)
    case Fail(_) => Failed
    case Timeout(_) => TimedOut
    case Busy => Failed
  }

  /** The answer to a write that the API turns down. It cannot land, so a `Timeout(true)` is answered. */
  function Rejection(o: Outcome, why: Reply): Reply {
    match o
    case Ok => why
    case Fail(_) => Failed
    case Timeout(landed) => if landed then why else TimedOut
    case Busy => Failed
  }

  function Get(s: State, f: Fates, kind: Kind, id: Id): (c: Called)
    ensures SameRecords(s, c.s)
  {
    var t := Tick(s, f);
    Called(t, if !f(s.clock).outcome.Ok? then Failed else if IsKind(t.w.res, id, kind) then Done(id) else Missing)
  }

  function Tagged(w: World, kind: Kind, tag: Tag): set<Id> {
    set i | i in w.res && w.res[i].kind == kind && w.res[i].tag == Some(tag)
  }

  function List(s: State, f: Fates, kind: Kind, tag: Tag): (l: Listed)
    ensures SameRecords(s, l.s)
  {
    var t := Tick(s, f);
    Listed(t, f(s.clock).outcome.Ok?, Tagged(t.w, kind, tag))
  }

  function Land(w: World, kind: Kind, tag: Tag, parent: Id): World {
    w.(res := w.res[w.next := Resource(kind, Some(tag), parent)], made := w.made + {w.next}, next := w.next + 1)
  }

  function Create(s: State, f: Fates, kind: Kind, tag: Tag, parent: Id): (c: Called)
    ensures SameRecords(s, c.s)
  {
    var t, o := Tick(s, f), f(s.clock).outcome;
    if ParentOk(t.w.res, kind, parent)
    then Called(if Lands(o) then t.(w := Land(t.w, kind, tag, parent)) else t, Answer(o, t.w.next))
    else Called(t, Rejection(o, Failed))
  }

  /** Every delete call is recorded as a target, answered or not. */
  function Delete(s: State, f: Fates, kind: Kind, id: Id): (c: Called)
    ensures SameRecords(s, c.s)
  {
    var t0, o := Tick(s, f), f(s.clock).outcome;
    var t := t0.(w := t0.w.(targets := t0.w.targets + {id}));
    if o.Busy? then Called(t, Refused)
    else if !IsKind(t.w.res, id, kind) then Called(t, Rejection(o, Missing))
    else if InUse(t.w, id) then Called(t, Rejection(o, Failed))
    else Called(if Lands(o) then t.(w := Remove(t.w, id)) else t, Answer(o, id))
  }

  function CreateInterface(s: State, f: Fates, router: Id, network: Id): (c: Called)
    ensures SameRecords(s, c.s)
  {
    var t, o := Tick(s, f), f(s.clock).outcome;
    if CanAttach(t.w, router, network)
    then Called(
           if Lands(o) then t.(w := AttachNow(t.w, router, network).(made := t.w.made + {t.w.next})) else t,
           Answer(o, t.w.next))
    else Called(t, Rejection(o, Failed))
  }

  function DeleteInterface(s: State, f: Fates, router: Id, iface: Id): (c: Called)
    ensures SameRecords(s, c.s)
  {
    var t0, o := Tick(s, f), f(s.clock).outcome;
    var t := t0.(w := t0.w.(targets := t0.w.targets + {iface}));
    if !(iface in t.w.ifaces && t.w.ifaces[iface].router == router) then Called(t, Rejection(o, Missing))
    else Called(if Lands(o) then t.(w := t.w.(ifaces := t.w.ifaces - {iface})) else t, Answer(o, iface))
  }

  /** A router's interfaces as a read reports them: interface UUID to network UUID. */
  function Interfaces(w: World, router: Id): map<Id, Id> {
    map i | i in w.ifaces && w.ifaces[i].router == router :: w.ifaces[i].network
  }

  /** `set` of size one, as the `len(items) == 1` branch takes it apart. */
  function Only(ids: set<Id>): (x: Id)
    requires |ids| == 1
    ensures ids == {x}
  {
    OnlyIsUnique(ids);
    var x :| x in ids;
    x
  }

  lemma OnlyIsUnique(ids: set<Id>)
    requires |ids| == 1
    ensures forall x, y :: x in ids && y in ids ==> x == y
    ensures forall x :: x in ids ==> ids == {x}
  {
    forall x | x in ids ensures ids == {x} {
      assert |ids - {x}| == 0;
    }
  }
}
