/** Status lists are maps: entries are unique by name, and every edit keeps them so. */
module Keys {
  import opened Types

  ghost predicate KeyedNetworks(ns: seq<NetworkStatus>) {
    ns != [] ==> FindNetwork(ns[1..], ns[0].name).None? && KeyedNetworks(ns[1..])
  }

  ghost predicate KeyedInterfaces(es: seq<InterfaceStatus>) {
    es != [] ==> FindInterface(es[1..], es[0].network).None? && KeyedInterfaces(es[1..])
  }

  ghost predicate KeyedRouters(rs: seq<RouterStatus>) {
    rs != [] ==> FindRouter(rs[1..], rs[0].name).None? && KeyedInterfaces(rs[0].interfaces) && KeyedRouters(rs[1..])
  }

  ghost predicate Keyed(st: Status) {
    KeyedNetworks(st.networks) && KeyedRouters(st.routers)
  }

  lemma PutNetworkKeyed(ns: seq<NetworkStatus>, n: NetworkStatus)
    requires KeyedNetworks(ns)
    ensures KeyedNetworks(PutNetwork(ns, n))
  {
    if ns != [] { FindPutNetwork(ns[1..], n, ns[0].name); }
  }

  lemma PutRouterKeyed(rs: seq<RouterStatus>, name: Name, id: Id, managed: bool)
    requires KeyedRouters(rs)
    ensures KeyedRouters(PutRouter(rs, name, id, managed))
  {
    if rs != [] { FindPutRouter(rs[1..], name, id, managed, rs[0].name); }
  }

  lemma PutInterfaceKeyed(es: seq<InterfaceStatus>, e: InterfaceStatus)
    requires KeyedInterfaces(es)
    ensures KeyedInterfaces(PutInterface(es, e))
  {
    if es != [] { FindPutInterface(es[1..], e, es[0].network); }
  }

  lemma WithInterfacesKeyed(rs: seq<RouterStatus>, name: Name, es: seq<InterfaceStatus>)
    requires KeyedRouters(rs) && KeyedInterfaces(es)
    ensures KeyedRouters(WithInterfaces(rs, name, es))
  {
    if rs != [] { FindWithInterfaces(rs[1..], name, es, rs[0].name); }
  }

  // ------------------------------------------------------- replacing one entry

  /** `kept` is the entry, edited, or nothing. */
  lemma {:induction false} ReplaceRouter(pre: seq<RouterStatus>, rs: RouterStatus, kept: seq<RouterStatus>, post: seq<RouterStatus>)
    requires KeyedRouters(pre + [rs] + post)
    requires kept == [] || (|kept| == 1 && kept[0].name == rs.name && KeyedInterfaces(kept[0].interfaces))
    ensures KeyedRouters(pre + kept + post)
    ensures FindRouter(pre + [rs] + post, rs.name) == Some(rs)
    ensures FindRouter(pre + kept + post, rs.name) == if kept == [] then None else Some(kept[0])
    ensures forall q | q != rs.name :: FindRouter(pre + kept + post, q) == FindRouter(pre + [rs] + post, q)
  {
    var was, now := pre + [rs] + post, pre + kept + post;
    if pre == [] {
      assert was[0] == rs && was[1..] == post;
      if kept == [] { assert now == post; } else { assert now[0] == kept[0] && now[1..] == post; }
    } else {
      assert was[0] == pre[0] && was[1..] == pre[1..] + [rs] + post;
      assert now[0] == pre[0] && now[1..] == pre[1..] + kept + post;
      ReplaceRouter(pre[1..], rs, kept, post);
    }
  }

  lemma {:induction false} ReplaceInterface(pre: seq<InterfaceStatus>, e: InterfaceStatus, kept: seq<InterfaceStatus>, post: seq<InterfaceStatus>)
    requires KeyedInterfaces(pre + [e] + post)
    requires kept == [] || (|kept| == 1 && kept[0].network == e.network)
    ensures KeyedInterfaces(pre + kept + post)
    ensures FindInterface(pre + [e] + post, e.network) == Some(e)
    ensures FindInterface(pre + kept + post, e.network) == if kept == [] then None else Some(kept[0])
    ensures forall a | a != e.network :: FindInterface(pre + kept + post, a) == FindInterface(pre + [e] + post, a)
  {
    var was, now := pre + [e] + post, pre + kept + post;
    if pre == [] {
      assert was[0] == e && was[1..] == post;
      if kept == [] { assert now == post; } else { assert now[0] == kept[0] && now[1..] == post; }
    } else {
      assert was[0] == pre[0] && was[1..] == pre[1..] + [e] + post;
      assert now[0] == pre[0] && now[1..] == pre[1..] + kept + post;
      ReplaceInterface(pre[1..], e, kept, post);
    }
  }

  lemma {:induction false} DropNetwork(pre: seq<NetworkStatus>, n: NetworkStatus, post: seq<NetworkStatus>)
    requires KeyedNetworks(pre + [n] + post)
    ensures KeyedNetworks(pre + post)
    ensures FindNetwork(pre + [n] + post, n.name) == Some(n)
    ensures FindNetwork(pre + post, n.name) == None
    ensures forall q | q != n.name :: FindNetwork(pre + post, q) == FindNetwork(pre + [n] + post, q)
  {
    var was, now := pre + [n] + post, pre + post;
    if pre == [] {
      assert was[0] == n && was[1..] == post && now == post;
    } else {
      assert was[0] == pre[0] && was[1..] == pre[1..] + [n] + post;
      assert now[0] == pre[0] && now[1..] == pre[1..] + post;
      DropNetwork(pre[1..], n, post);
    }
  }
}
