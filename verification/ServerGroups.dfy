/** cloudscalecluster_servergroup.go: deleting the cluster's server groups. */
module ServerGroups {
  import opened Types
  import opened Cloud

  function OwnedServers(machines: seq<Machine>): set<Id> {
    if machines == [] then {}
    else (if machines[0].serverId != NO_ID then {machines[0].serverId} else {}) + OwnedServers(machines[1..])
  }

  function OwnedGroups(gs: seq<ServerGroup>): seq<ServerGroup> {
    if gs == [] then [] else (if gs[0].owned then [gs[0]] else []) + OwnedGroups(gs[1..])
  }

  function WithoutGroup(gs: seq<ServerGroup>, id: Id): seq<ServerGroup> {
    if gs == [] then [] else (if gs[0].id == id then [] else [gs[0]]) + WithoutGroup(gs[1..], id)
  }

  predicate Empty(gs: seq<ServerGroup>, id: Id) {
    forall g | g in gs && g.id == id :: g.servers == []
  }

  predicate HasGroup(gs: seq<ServerGroup>, id: Id) {
    exists g | g in gs :: g.id == id
  }

  /** The API turns down deleting a group that holds a server. */
  function DeleteGroup(s: State, f: Fates, id: Id): (c: Called)
    ensures SameRecords(s, c.s)
  {
    var t0, o := Tick(s, f), f(s.clock).outcome;
    var t := t0.(w := t0.w.(disbanded := t0.w.disbanded + {id}));
    if !HasGroup(t.w.groups, id) then Called(t, Rejection(o, Missing))
    else if !Empty(t.w.groups, id) then Called(t, Rejection(o, Failed))
    else Called(if Lands(o) then t.(w := t.w.(groups := WithoutGroup(t.w.groups, id))) else t, Answer(o, id))
  }

  /** Lists the machines, then the groups. */
  function DeleteServerGroups(s: State, f: Fates, machines: seq<Machine>): (e: Stage)
    ensures SameRecords(s, e.s)
  {
    var t := Tick(s, f);
    if !f(s.clock).outcome.Ok? then Stage(t, Error) else
    var u := Tick(t, f);
    if !f(t.clock).outcome.Ok? then Stage(u, Error) else
    DeleteGroupsFrom(u, f, OwnedServers(machines), OwnedGroups(u.w.groups), 0)
  }

  predicate HoldsOwned(g: ServerGroup, owned: set<Id>) {
    exists x | x in g.servers :: x in owned
  }

  function DeleteGroupsFrom(s: State, f: Fates, owned: set<Id>, groups: seq<ServerGroup>, k: nat): (e: Stage)
    requires k <= |groups|
    ensures SameRecords(s, e.s)
    decreases |groups| - k
  {
    if k == |groups| then Stage(s, Proceed)
    else if HoldsOwned(groups[k], owned) then Stage(s, Requeue)
    else if groups[k].servers != [] then DeleteGroupsFrom(s, f, owned, groups, k + 1)
    else
      var c := DeleteGroup(s, f, groups[k].id);
      if c.reply.Done? || c.reply.Missing? then DeleteGroupsFrom(c.s, f, owned, groups, k + 1)
      else Stage(c.s, Error)
  }
}
