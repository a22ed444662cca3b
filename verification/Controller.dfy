/** cloudscalecluster_controller.go: one reconcile, normal or delete, and runs of them. */
module Controller {
  import opened Types
  import opened Cloud
  import opened Networks
  import opened Routers
  import opened LoadBalancer
  import opened FloatingIps
  import opened ServerGroups

  /** What a pass reads from Kubernetes: the cluster's machines, and whether its control plane is up. */
  datatype Kube = Kube(machines: seq<Machine>, initialized: bool)

  /** `through` tells that the pass got through all four stages. */
  datatype Pass = Pass(s: State, flow: Flow, through: bool)

  /** Networks, routers, load balancer, floating IP: the first stage that does not finish ends the pass. */
  ghost function ReconcileNormal(s: State, f: Fates, kube: Kube): Pass {
    AfterNetworks(ReconcileNetworks(s, f), f, kube)
  }

  ghost function AfterNetworks(n: Stage, f: Fates, kube: Kube): Pass {
    if n.flow != Proceed then Pass(n.s, n.flow, false) else AfterRouters(ReconcileRouters(n.s, f), f, kube)
  }

  function AfterRouters(r: Stage, f: Fates, kube: Kube): Pass {
    if r.flow != Proceed then Pass(r.s, r.flow, false)
    else AfterLoadBalancer(ReconcileLoadBalancer(r.s, f, kube.machines), f, kube)
  }

  function AfterLoadBalancer(lb: LbStage, f: Fates, kube: Kube): Pass {
    if lb.flow != Proceed then Pass(lb.s, lb.flow, false)
    else AfterFloatingIp(ReconcileFloatingIp(lb.s, f, kube.machines), lb.vip, lb.ready && kube.initialized)
  }

  function AfterFloatingIp(p: Stage, vip: Id, settled: bool): Pass {
    if p.flow != Proceed then Pass(p.s, p.flow, false)
    else Pass(Conclude(p.s, vip), if settled then Proceed else Requeue, true)
  }

  /** The endpoint is filled in at most once; Provisioned is decided afterwards. */
  function Conclude(s: State, vip: Id): State {
    var t := SetEndpoint(s, vip);
    t.(st := t.st.(provisioned := IsProvisioned(t.spec, t.st)))
  }

  function SetEndpoint(s: State, vip: Id): State {
    if s.spec.host != NO_ID then s else
    var host := if s.spec.fip.Some? then s.st.fip else if LbEnabled(s.spec) then vip else NO_ID;
    if host == NO_ID then s else s.(spec := s.spec.(host := host, port := s.spec.lb.port))
  }

  predicate InterfacesAttached(r: RouterSpec, rs: RouterStatus) {
    forall e | e in r.interfaces ::
      FindInterface(rs.interfaces, e.network).Some? && FindInterface(rs.interfaces, e.network).value.interfaceId != NO_ID
  }

  predicate RouterProvisioned(r: RouterSpec, rs: Option<RouterStatus>) {
    rs.Some? && rs.value.routerId != NO_ID && InterfacesAttached(r, rs.value)
  }

  predicate IsProvisioned(spec: Spec, st: Status) {
    && st.networks != []
    && (forall n | n in st.networks :: n.networkId != NO_ID && n.subnetId != NO_ID)
    && (forall r | r in spec.routers :: RouterProvisioned(r, FindRouter(st.routers, r.name)))
    && (LbEnabled(spec) ==> st.lbId != NO_ID && st.poolId != NO_ID && st.listenerId != NO_ID)
    && (spec.fip.Some? ==> st.fip != NO_ID)
    && spec.host != NO_ID
  }

  /** Reverse order of creation; the finalizer goes last. */
  ghost function ReconcileDelete(s: State, f: Fates, kube: Kube): Stage {
    DeleteAfterFip(DeleteFloatingIp(s, f), f, kube)
  }

  ghost function DeleteAfterFip(p: Stage, f: Fates, kube: Kube): Stage {
    if p.flow != Proceed then p else DeleteAfterLb(DeleteLoadBalancer(p.s, f), f, kube)
  }

  ghost function DeleteAfterLb(lb: Stage, f: Fates, kube: Kube): Stage {
    if lb.flow != Proceed then lb else DeleteAfterGroups(DeleteServerGroups(lb.s, f, kube.machines), f)
  }

  ghost function DeleteAfterGroups(g: Stage, f: Fates): Stage {
    if g.flow != Proceed then g else DeleteAfterRouters(DeleteRouters(g.s, f), f)
  }

  function DeleteAfterRouters(r: Stage, f: Fates): Stage {
    if r.flow != Proceed then r else
    var n := DeleteNetworks(r.s, f);
    if n.flow != Proceed then n else Stage(n.s.(finalizer := false), Proceed)
  }

  /** One reconcile of the object, as long as it exists. Status is saved however the pass ends. */
  ghost function Reconcile(s: State, f: Fates, kube: Kube): State {
    var t := s.(clock := 0);
    if !s.deleting then ReconcileNormal(t.(finalizer := true), f, kube).s
    else ReconcileDelete(t, f, kube).s
  }
}
