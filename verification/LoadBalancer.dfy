/** cloudscalecluster_loadbalancer.go as functions of the state and the fates of its calls. */
module LoadBalancer {
  import opened Types
  import opened Cloud
  import opened Ensure
  import opened Ip

  // ---------------------------------------------------- load balancer and parts

  predicate IsPart(kind: Kind) {
    kind.LoadBalancer? || kind.Pool? || kind.Listener? || kind.Monitor?
  }

  function PartId(st: Status, kind: Kind): Id
    requires IsPart(kind)
  {
    match kind
    case LoadBalancer => st.lbId
    case Pool => st.poolId
    case Listener => st.listenerId
    case Monitor => st.monitorId
  }

  function SetPart(s: State, kind: Kind, id: Id): State
    requires IsPart(kind)
  {
    match kind
    case LoadBalancer => s.(st := s.st.(lbId := id))
    case Pool => s.(st := s.st.(poolId := id))
    case Listener => s.(st := s.st.(listenerId := id))
    case Monitor => s.(st := s.st.(monitorId := id))
  }

  /** The id found or created is recorded; a create that failed leaves the id cleared. */
  function ReconcilePart(s: State, f: Fates, kind: Kind, parent: Id): (e: Stage)
    requires IsPart(kind)
    ensures EditsParts(s, e.s)
  {
    var o := Obtain(s, f, PartId(s.st, kind), kind, Owned, parent);
    Stage(if o.looked then SetPart(o.s, kind, o.id) else o.s, o.flow)
  }

  /** The stage writes LB ids and member ids, nothing else of the records. */
  ghost predicate EditsParts(s: State, t: State) {
    t == s.(w := t.w, clock := t.clock,
            st := s.st.(lbId := t.st.lbId, poolId := t.st.poolId, listenerId := t.st.listenerId,
                        monitorId := t.st.monitorId, memberIds := t.st.memberIds))
  }

  /** A private VIP needs the subnet of its network before the LB can be created. */
  predicate VipReady(s: State) {
    s.spec.lb.network.Some? ==> SafeUseSubnet(s.st.networks, s.spec.lb.network.value).Some?
  }

  function ReconcileLb(s: State, f: Fates): (e: Stage)
    ensures EditsParts(s, e.s)
  {
    var e := EnsureResource(s, f, s.st.lbId, LoadBalancer, Owned);
    if !e.err && e.id == NO_ID && !VipReady(s)
    then Stage(SetPart(e.s, LoadBalancer, NO_ID), Error)
    else ReconcilePart(s, f, LoadBalancer, NO_ID)
  }

  /** The load balancer stage's result: how it ended, the VIP it saw, and whether the LB runs. */
  datatype LbStage = LbStage(s: State, flow: Flow, vip: Id, ready: bool)

  function ReconcileLoadBalancer(s: State, f: Fates, machines: seq<Machine>): (e: LbStage)
    ensures EditsParts(s, e.s)
  {
    if !LbEnabled(s.spec) then LbStage(s, Proceed, NO_ID, true) else AfterLb(ReconcileLb(s, f), f, machines)
  }

  /** Once the LB is there: wait while it changes, then reconcile what hangs below it. */
  function AfterLb(lb: Stage, f: Fates, machines: seq<Machine>): (e: LbStage)
    ensures EditsParts(lb.s, e.s)
  {
    if lb.flow != Proceed then LbStage(lb.s, lb.flow, NO_ID, false) else
    var g := Get(lb.s, f, LoadBalancer, lb.s.st.lbId);
    if !g.reply.Done? then LbStage(g.s, Error, NO_ID, false) else
    var fate := f(lb.s.clock);
    if fate.lbState == Changing then LbStage(g.s, Requeue, NO_ID, false) else
    var p := Populate(g.s, f, machines);
    if p.flow != Proceed then LbStage(p.s, p.flow, NO_ID, false)
    else LbStage(p.s, Proceed, fate.value, fate.lbState == Running)
  }

  function Populate(s: State, f: Fates, machines: seq<Machine>): (e: Stage)
    ensures EditsParts(s, e.s)
  {
    var parts := ReconcileParts(s, f);
    if parts.flow != Proceed then parts else ReconcileMembers(parts.s, f, machines)
  }

  /** Pool, listener and health monitor, in this order. */
  function ReconcileParts(s: State, f: Fates): (e: Stage)
    ensures EditsParts(s, e.s)
  {
    var p := ReconcilePart(s, f, Pool, s.st.lbId);
    if p.flow != Proceed then p else
    var l := ReconcilePart(p.s, f, Listener, p.s.st.poolId);
    if l.flow != Proceed then l else
    ReconcilePart(l.s, f, Monitor, l.s.st.poolId)
  }

  // ------------------------------------------------------------ desired members

  function SafeUseSubnet(ns: seq<NetworkStatus>, name: Name): Option<Id> {
    var n := FindNetwork(ns, name);
    if n.None? || n.value.subnetId == NO_ID then None else Some(n.value.subnetId)
  }

  /** The name of the network pool members are registered on. */
  function MemberNetwork(spec: Spec, ns: seq<NetworkStatus>): Option<Name> {
    if spec.lb.poolMemberNetwork.Some? then spec.lb.poolMemberNetwork
    else if spec.lb.network.Some? then spec.lb.network
    else if ns == [] then None
    else Some(ns[0].name)
  }

  function PoolMemberSubnet(spec: Spec, ns: seq<NetworkStatus>): Option<Id> {
    if spec.lb.poolMemberNetwork.Some? then SafeUseSubnet(ns, spec.lb.poolMemberNetwork.value)
    else if spec.lb.network.Some? then SafeUseSubnet(ns, spec.lb.network.value)
    else if ns == [] || ns[0].subnetId == NO_ID then None
    else Some(ns[0].subnetId)
  }

  /** The cached CIDR of the first status network with that subnet. */
  function MemberSubnetCidr(ns: seq<NetworkStatus>, subnet: Id): Option<Cidr> {
    if ns == [] then None
    else if ns[0].subnetId == subnet && ns[0].cidr.Some? then ns[0].cidr
    else MemberSubnetCidr(ns[1..], subnet)
  }

  datatype Wanted = Wanted(name: Name, subnet: Id, address: Addr, port: int)

  /** A machine's first internal address on the member subnet. */
  function MemberAddress(addresses: seq<MachineAddress>, cidr: Cidr): Option<Addr> {
    if addresses == [] then None
    else if addresses[0].internal && Contains(cidr, addresses[0].address) then Some(addresses[0].address)
    else MemberAddress(addresses[1..], cidr)
  }

  function WantedFrom(machines: seq<Machine>, subnet: Id, cidr: Cidr, port: int): seq<Wanted> {
    if machines == [] then [] else
    var a, rest := MemberAddress(machines[0].addresses, cidr), WantedFrom(machines[1..], subnet, cidr, port);
    if machines[0].controlPlane && a.Some? then [Wanted(machines[0].name, subnet, a.value, port)] + rest else rest
  }

  /** None when no subnet or no usable CIDR is known yet. */
  function DesiredMembers(spec: Spec, ns: seq<NetworkStatus>, machines: seq<Machine>): Option<seq<Wanted>> {
    var subnet := PoolMemberSubnet(spec, ns);
    if subnet.None? then None else
    var cidr := MemberSubnetCidr(ns, subnet.value);
    if cidr.None? || cidr.value.BadCidr? then None
    else Some(WantedFrom(machines, subnet.value, cidr.value, spec.lb.port))
  }

  // ------------------------------------------------------------- pool members

  datatype MemberList = MemberList(s: State, ok: bool, members: seq<Member>)

  function InPool(ms: seq<Member>, pool: Id): seq<Member> {
    if ms == [] then []
    else (if ms[0].pool == pool then [ms[0]] else []) + InPool(ms[1..], pool)
  }

  function ListMembers(s: State, f: Fates): (l: MemberList)
    ensures SameRecords(s, l.s)
  {
    var t := Tick(s, f);
    MemberList(t, f(s.clock).outcome.Ok?, InPool(t.w.members, s.st.poolId))
  }

  function CreateMember(s: State, f: Fates, m: Wanted): (c: Called)
    ensures SameRecords(s, c.s)
  {
    var t, o := Tick(s, f), f(s.clock).outcome;
    var member := Member(t.w.next, s.st.poolId, m.name, m.address);
    if !IsKind(t.w.res, s.st.poolId, Pool) then Called(t, Rejection(o, Failed))
    else Called(
        if Lands(o)
        then t.(w := t.w.(members := t.w.members + [member], made := t.w.made + {t.w.next}, next := t.w.next + 1))
        else t,
        Answer(o, t.w.next))
  }

  function WithAddress(ms: seq<Member>, id: Id, address: Addr): seq<Member> {
    if ms == [] then []
    else [if ms[0].id == id then ms[0].(address := address) else ms[0]] + WithAddress(ms[1..], id, address)
  }

  function Without(ms: seq<Member>, id: Id): seq<Member> {
    if ms == [] then [] else (if ms[0].id == id then [] else [ms[0]]) + Without(ms[1..], id)
  }

  predicate HasMember(ms: seq<Member>, id: Id) {
    exists m | m in ms :: m.id == id
  }

  function UpdateMember(s: State, f: Fates, id: Id, address: Addr): (c: Called)
    ensures SameRecords(s, c.s)
  {
    var t, o := Tick(s, f), f(s.clock).outcome;
    if !HasMember(t.w.members, id) then Called(t, Rejection(o, Missing))
    else Called(
        if Lands(o) then t.(w := t.w.(members := WithAddress(t.w.members, id, address))) else t, Answer(o, id))
  }

  function DeleteMember(s: State, f: Fates, id: Id): (c: Called)
    ensures SameRecords(s, c.s)
  {
    var t, o := Tick(s, f), f(s.clock).outcome;
    if !HasMember(t.w.members, id) then Called(t, Rejection(o, Missing))
    else Called(if Lands(o) then t.(w := t.w.(members := Without(t.w.members, id))) else t, Answer(o, id))
  }

  /** currentByName: the member of that name, the last one if the pool holds several. */
  function ByName(ms: seq<Member>, name: Name): Option<Member> {
    if ms == [] then None else
    var rest := ByName(ms[1..], name);
    if rest.Some? then rest else if ms[0].name == name then Some(ms[0]) else None
  }

  predicate IsWanted(ws: seq<Wanted>, name: Name) {
    exists w | w in ws :: w.name == name
  }

  /** The member stage writes the member ids, nothing else of the records. */
  ghost predicate EditsMembers(s: State, t: State) {
    t == s.(w := t.w, clock := t.clock, st := s.st.(memberIds := t.st.memberIds))
  }

  /** Three-way diff by name: create what is missing, fix changed addresses, delete the rest. */
  function ReconcileMembers(s: State, f: Fates, machines: seq<Machine>): (e: Stage)
    ensures EditsMembers(s, e.s)
  {
    var l := ListMembers(s, f);
    if !l.ok then Stage(l.s, Error) else
    var want := DesiredMembers(s.spec, s.st.networks, machines);
    if want.None? then Stage(l.s, Error) else
    var up := UpsertFrom(l.s, f, l.members, want.value, 0);
    if up.flow != Proceed then up else PruneFrom(up.s, f, l.members, want.value, 0)
  }

  function UpsertFrom(s: State, f: Fates, current: seq<Member>, want: seq<Wanted>, k: nat): (e: Stage)
    requires k <= |want|
    ensures EditsMembers(s, e.s)
    decreases |want| - k
  {
    if k == |want| then Stage(s, Proceed) else
    var one := Upsert(s, f, current, want[k]);
    if one.flow != Proceed then one else UpsertFrom(one.s, f, current, want, k + 1)
  }

  function Upsert(s: State, f: Fates, current: seq<Member>, w: Wanted): (e: Stage)
    ensures EditsMembers(s, e.s)
  {
    var m := ByName(current, w.name);
    if m.None? then
      var c := CreateMember(s, f, w);
      match c.reply
      case Done(id) => Stage(c.s.(st := c.s.st.(memberIds := c.s.st.memberIds + [id])), Proceed)
      case TimedOut => Stage(c.s, Stalled)
      case _ => Stage(c.s, Error)
    else if m.value.address == w.address then Stage(s, Proceed)
    else
      var c := UpdateMember(s, f, m.value.id, w.address);
      Stage(c.s, if c.reply.Done? then Proceed else Error)
  }

  function DropId(ids: seq<Id>, id: Id): seq<Id> {
    if ids == [] then [] else (if ids[0] == id then [] else [ids[0]]) + DropId(ids[1..], id)
  }

  function PruneFrom(s: State, f: Fates, current: seq<Member>, want: seq<Wanted>, k: nat): (e: Stage)
    requires k <= |current|
    ensures EditsMembers(s, e.s)
    decreases |current| - k
  {
    if k == |current| then Stage(s, Proceed)
    else if IsWanted(want, current[k].name) then PruneFrom(s, f, current, want, k + 1)
    else
      var c := DeleteMember(s, f, current[k].id);
      if !c.reply.Done? then Stage(c.s, Error)
      else PruneFrom(c.s.(st := c.s.st.(memberIds := DropId(c.s.st.memberIds, current[k].id))), f, current, want, k + 1)
  }

  // ------------------------------------------------------------------- teardown

  function DeleteLoadBalancer(s: State, f: Fates): (e: Stage)
    ensures EditsParts(s, e.s)
  {
    if !LbEnabled(s.spec) then Stage(s, Proceed)
    else if s.st.lbId == NO_ID then Stage(ClearParts(s), Proceed)
    else
      var c := Delete(s, f, LoadBalancer, s.st.lbId);
      if c.reply.Done? || c.reply.Missing? then Stage(ClearParts(c.s), Proceed) else Stage(c.s, Error)
  }

  function ClearParts(s: State): State {
    s.(st := s.st.(lbId := NO_ID, poolId := NO_ID, listenerId := NO_ID, monitorId := NO_ID, memberIds := []))
  }
}
