/** What the ownership invariant means for a cluster, over every run from its creation. */
module Safety {
  import opened Types
  import opened Cloud
  import opened Ownership
  import opened OwnershipTeardown
  import opened Unattached
  import opened Runs

  /**
   Ownership safety: whatever fails, times out or lands late, every resource and every interface
   the controller ever asks the API to delete or detach is one it created itself.
   */
  lemma OnlyOwnWorkIsTargeted(env: Env, t: State)
    requires Reachable(env, t)
    ensures t.w.targets <= t.w.made
  {
    ReachableIsSafe(env, t);
  }

  /** The status entry that names a live interface, by its id or as a pending attach to its network. */
  ghost predicate Names(st: Status, w: World, r: RouterStatus, e: InterfaceStatus, iface: Id) {
    && r in st.routers && e in r.interfaces && e.managed
    && iface in w.ifaces && w.ifaces[iface].router == r.routerId
    && (e.interfaceId == iface ||
        (e.interfaceId == NO_ID && w.ifaces[iface].network == NetworkIdOf(st.networks, e.network)))
  }

  lemma FoundInterface(es: seq<InterfaceStatus>, a: Name)
    requires FindInterface(es, a).Some?
    ensures FindInterface(es, a).value in es && FindInterface(es, a).value.network == a
  {
  }

  /** Interface coverage: every live interface CAPCS made is named by a managed entry of its router. */
  lemma EveryInterfaceIsNamed(env: Env, t: State, iface: Id)
    requires Reachable(env, t)
    requires iface in t.w.ifaces && iface in t.w.made
    ensures exists r, e :: Names(t.st, t.w, r, e, iface)
  {
    ReachableIsSafe(env, t);
    var r, a :| Covers(ViewOf(t), r, a, iface);
    FoundRouterIn(t.st.routers, r);
    var rs := FindRouter(t.st.routers, r).value;
    FoundInterface(rs.interfaces, a);
    assert Names(t.st, t.w, rs, FindInterface(rs.interfaces, a).value, iface);
  }

  /** Once the finalizer is gone, no interface CAPCS made is attached to anything. */
  lemma NoInterfaceOutlivesTheCluster(env: Env, t: State)
    requires Reachable(env, t) && !t.finalizer
    ensures NoneAttached(t.w)
  {
    ReachableIsSafe(env, t);
  }
}
