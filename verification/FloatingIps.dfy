/** cloudscalecluster_floatingip.go as functions of the state and the fates of its calls. */
module FloatingIps {
  import opened Types
  import opened Cloud
  import opened Ensure

  /** The stage writes the floating IP and nothing else of the records. */
  ghost predicate EditsFip(s: State, t: State) {
    t == s.(w := t.w, clock := t.clock, st := s.st.(fip := t.st.fip))
  }

  function SetFip(s: State, id: Id): State {
    s.(st := s.st.(fip := id))
  }

  function FirstServer(machines: seq<Machine>): Id {
    if machines == [] then NO_ID
    else if machines[0].controlPlane && machines[0].serverId != NO_ID then machines[0].serverId
    else FirstServer(machines[1..])
  }

  /** The load balancer, or without one the first control-plane server; NO_ID while there is none. */
  function Target(s: State, machines: seq<Machine>): Id {
    if LbEnabled(s.spec) then s.st.lbId else FirstServer(machines)
  }

  function ReconcileFloatingIp(s: State, f: Fates, machines: seq<Machine>): (e: Stage)
    ensures EditsFip(s, e.s)
  {
    if s.spec.fip.None? then Stage(s, Proceed)
    else if s.spec.fip.value.address != NO_ID then PreExistingFip(s, f, machines, s.spec.fip.value.address)
    else ManagedFip(s, f, machines)
  }

  function PreExistingFip(s: State, f: Fates, machines: seq<Machine>, ip: Id): (e: Stage)
    ensures EditsFip(s, e.s)
  {
    var g := Get(s, f, FloatingIp, ip);
    if !g.reply.Done? || !f(s.clock).inZone then Stage(g.s, Error) else Assign(SetFip(g.s, ip), f, machines)
  }

  function ManagedFip(s: State, f: Fates, machines: seq<Machine>): (e: Stage)
    ensures EditsFip(s, e.s)
  {
    var e := EnsureResource(s, f, s.st.fip, FloatingIp, Owned);
    if e.err then Stage(e.s, Error)
    else if e.id != NO_ID then Assign(SetFip(e.s, e.id), f, machines)
    else
      var c := CreateFip(SetFip(e.s, NO_ID), f, Target(s, machines));
      match c.reply
      case Done(id) => Stage(SetFip(c.s, id), Proceed)
      case TimedOut => Stage(c.s, Stalled)
      case _ => Stage(c.s, Error)
  }

  /** A floating IP is created assigned when its target is known. */
  function CreateFip(s: State, f: Fates, target: Id): (c: Called)
    ensures SameRecords(s, c.s)
  {
    var c := Create(s, f, FloatingIp, Owned, NO_ID);
    if target != NO_ID && Lands(f(s.clock).outcome)
    then Called(c.s.(w := c.s.w.(serves := c.s.w.serves[Tick(s, f).w.next := target])), c.reply)
    else c
  }

  function Assign(s: State, f: Fates, machines: seq<Machine>): (e: Stage)
    ensures SameRecords(s, e.s)
  {
    var target := Target(s, machines);
    if target == NO_ID || (s.st.fip in s.w.serves && s.w.serves[s.st.fip] == target) then Stage(s, Proceed)
    else
      var t, o := Tick(s, f), f(s.clock).outcome;
      Stage(if Lands(o) then t.(w := t.w.(serves := t.w.serves[s.st.fip := target])) else t,
            if o.Ok? then Proceed else Error)
  }

  /** The floating IP in status is assigned to where it should point. */
  ghost predicate Serves(s: State, machines: seq<Machine>) {
    s.st.fip in s.w.serves && s.w.serves[s.st.fip] == Target(s, machines)
  }

  lemma AssignServes(s: State, f: Fates, machines: seq<Machine>)
    requires Target(s, machines) != NO_ID
    ensures var e := Assign(s, f, machines); e.flow == Proceed ==> Serves(e.s, machines)
  {
  }

  lemma CreatedServes(s: State, f: Fates, machines: seq<Machine>)
    requires Target(s, machines) != NO_ID
    ensures var c := CreateFip(s, f, Target(s, machines));
            c.reply.Done? ==> Serves(SetFip(c.s, c.reply.id), machines)
  {
  }

  lemma ManagedServes(s: State, f: Fates, machines: seq<Machine>)
    requires Target(s, machines) != NO_ID
    ensures var e := ManagedFip(s, f, machines); e.flow == Proceed ==> Serves(e.s, machines)
  {
    var e := EnsureResource(s, f, s.st.fip, FloatingIp, Owned);
    AssignServes(SetFip(e.s, e.id), f, machines);
    CreatedServes(SetFip(e.s, NO_ID), f, machines);
  }

  /** Once the stage proceeds a known target is served, whether the floating IP was there, found or created. */
  lemma FloatingIpServesTarget(s: State, f: Fates, machines: seq<Machine>)
    requires s.spec.fip.Some? && Target(s, machines) != NO_ID
    ensures var e := ReconcileFloatingIp(s, f, machines); e.flow == Proceed ==> Serves(e.s, machines)
  {
    if s.spec.fip.value.address != NO_ID {
      var ip := s.spec.fip.value.address;
      AssignServes(SetFip(Get(s, f, FloatingIp, ip).s, ip), f, machines);
    } else {
      ManagedServes(s, f, machines);
    }
  }

  function DeleteFloatingIp(s: State, f: Fates): (e: Stage)
    ensures EditsFip(s, e.s)
  {
    if s.spec.fip.None? || s.spec.fip.value.address != NO_ID || s.st.fip == NO_ID then Stage(s, Proceed)
    else
      var c := Delete(s, f, FloatingIp, s.st.fip);
      if c.reply.Done? || c.reply.Missing? then Stage(SetFip(c.s, NO_ID), Proceed) else Stage(c.s, Error)
  }
}
