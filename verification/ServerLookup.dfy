/**
 cloudscalemachine_server.go: a machine's server carries a lookup tag, by which a later pass
 finds it when its id never made it into status.
 */
module ServerLookup {
  import opened Types

  type Tags = map<string, string>

  const RESERVED := "capcs-"
  const OWNED := "capcs-cluster-"

  /** Kubernetes names: no slash in any of the three. */
  datatype MachineName = MachineName(ns: string, cluster: string, name: string)

  ghost predicate Slashless(m: MachineName) {
    '/' !in m.ns && '/' !in m.cluster && '/' !in m.name
  }

  function TagKey(cluster: string): string {
    OWNED + cluster
  }

  function TagValue(m: MachineName): string {
    m.ns + "/" + m.cluster + "/" + m.name
  }

  function LookupTag(m: MachineName): Tags {
    map[TagKey(m.cluster) := TagValue(m)]
  }

  /** User tags are copied over the lookup tag. */
  function CreateTags(m: MachineName, user: Tags): Tags {
    LookupTag(m) + user
  }

  /** The base tags with all user tags but those of `keys` copied over them. */
  ghost function CopiedBut(base: Tags, user: Tags, keys: set<string>): Tags {
    base + (user - keys)
  }

  lemma CopyOne(base: Tags, user: Tags, keys: set<string>, k: string)
    requires k in keys && k in user
    ensures CopiedBut(base, user, keys)[k := user[k]] == CopiedBut(base, user, keys - {k})
  {
    var was, now := CopiedBut(base, user, keys)[k := user[k]], CopiedBut(base, user, keys - {k});
    assert was.Keys == now.Keys;
  }

  lemma CopyAll(base: Tags, user: Tags)
    ensures CopiedBut(base, user, {}) == base + user && CopiedBut(base, user, user.Keys) == base
  {
    assert user - {} == user;
  }

  method MachineCreateTags(m: MachineName, user: Tags) returns (tags: Tags)
    ensures tags == CreateTags(m, user)
  {
    tags := LookupTag(m);
    CopyAll(tags, user);
    var keys := user.Keys;
    while keys != {}
      invariant keys <= user.Keys
      invariant tags == CopiedBut(LookupTag(m), user, keys)
      decreases |keys|
    {
      var k :| k in keys;
      CopyOne(LookupTag(m), user, keys, k);
      tags := tags[k := user[k]];
      keys := keys - {k};
    }
    CopyAll(LookupTag(m), user);
  }

  /** The API's tag filter. */
  predicate Matches(filter: Tags, tags: Tags) {
    forall k | k in filter :: k in tags && tags[k] == filter[k]
  }

  predicate HasPrefix(s: string, prefix: string) {
    |prefix| <= |s| && s[..|prefix|] == prefix
  }

  ghost predicate Unreserved(tags: Tags) {
    forall k | k in tags :: !HasPrefix(k, RESERVED)
  }

  /** validateTags. */
  method ValidateTags(tags: Tags) returns (errs: set<string>)
    ensures errs == {} <==> Unreserved(tags)
    ensures forall k :: k in errs <==> k in tags && HasPrefix(k, RESERVED)
  {
    errs := {};
    var keys := tags.Keys;
    while keys != {}
      invariant keys <= tags.Keys
      invariant forall k :: k in errs <==> k in tags && k !in keys && HasPrefix(k, RESERVED)
      decreases |keys|
    {
      var k :| k in keys;
      if HasPrefix(k, RESERVED) { errs := errs + {k}; }
      keys := keys - {k};
    }
    if Unreserved(tags) { assert forall k :: k !in errs; }
  }

  // ------------------------------------------------------------------- the round trip

  lemma TagKeyIsReserved(cluster: string)
    ensures HasPrefix(TagKey(cluster), RESERVED)
  {
    assert OWNED == RESERVED + "cluster-";
    assert TagKey(cluster)[..|RESERVED|] == RESERVED;
  }

  lemma TagKeyInjective(a: string, b: string)
    requires TagKey(a) == TagKey(b)
    ensures a == b
  {
    assert TagKey(a)[|OWNED|..] == a && TagKey(b)[|OWNED|..] == b;
  }

  ghost function FirstSlash(s: string): nat {
    if s == "" || s[0] == '/' then 0 else 1 + FirstSlash(s[1..])
  }

  lemma {:induction false} FirstSlashEndsHead(a: string, x: string)
    requires '/' !in a
    ensures FirstSlash(a + "/" + x) == |a|
  {
    var s := a + "/" + x;
    if a == "" {
      assert s[0] == '/';
    } else {
      assert s[0] == a[0] && s[1..] == a[1..] + "/" + x;
      FirstSlashEndsHead(a[1..], x);
    }
  }

  /** A slash-free head and what follows the first slash are determined by the whole. */
  lemma SplitAtSlash(a: string, x: string, b: string, y: string)
    requires '/' !in a && '/' !in b && a + "/" + x == b + "/" + y
    ensures a == b && x == y
  {
    var s := a + "/" + x;
    FirstSlashEndsHead(a, x);
    FirstSlashEndsHead(b, y);
    assert a == s[..|a|] && b == s[..|b|];
    assert x == s[|a| + 1..] && y == s[|b| + 1..];
  }

  lemma TagValueInjective(m: MachineName, n: MachineName)
    requires Slashless(m) && Slashless(n) && TagValue(m) == TagValue(n)
    ensures m == n
  {
    assert TagValue(m) == m.ns + "/" + (m.cluster + "/" + m.name);
    assert TagValue(n) == n.ns + "/" + (n.cluster + "/" + n.name);
    SplitAtSlash(m.ns, m.cluster + "/" + m.name, n.ns, n.cluster + "/" + n.name);
    SplitAtSlash(m.cluster, m.name, n.cluster, n.name);
  }

  /** With accepted user tags, a server matches the lookup of exactly the machine it was created for. */
  lemma LookupFindsExactlyOwn(m: MachineName, user: Tags, n: MachineName)
    requires Slashless(m) && Slashless(n) && Unreserved(user)
    ensures Matches(LookupTag(n), CreateTags(m, user)) <==> m == n
  {
    var key := TagKey(n.cluster);
    TagKeyIsReserved(n.cluster);
    assert key in LookupTag(n);
    if key in CreateTags(m, user) {
      TagKeyInjective(n.cluster, m.cluster);
      if LookupTag(n)[key] == CreateTags(m, user)[key] { TagValueInjective(m, n); }
    }
  }

  /** Why the reserved prefix is refused: exactly a user tag on the key that differs hides the server. */
  lemma OverriddenTagHidesServer(m: MachineName, user: Tags)
    ensures Matches(LookupTag(m), CreateTags(m, user)) <==>
            (TagKey(m.cluster) in user ==> user[TagKey(m.cluster)] == TagValue(m))
  {
    assert TagKey(m.cluster) in LookupTag(m);
  }

  // ----------------------------------------------------------------- servers of machines

  /** The account's servers, and the ServerID in each machine's status. */
  datatype Fleet = Fleet(servers: map<Id, Tags>, next: Id, status: map<MachineName, Id>)

  datatype Event =
    | Reconcile(m: MachineName, user: Tags, read: bool, prepared: bool, answered: bool, landed: bool)
    | Delete(m: MachineName, answered: bool, landed: bool)
    | Foreign(tags: Tags)
    | Vanish(id: Id)

  function StatusOf(s: Fleet, m: MachineName): Id {
    if m in s.status then s.status[m] else NO_ID
  }

  function Found(s: Fleet, m: MachineName): set<Id> {
    set i | i in s.servers && Matches(LookupTag(m), s.servers[i])
  }

  /**
   reconcileServer: `read` tells that the get or list call succeeded, `prepared` that bootstrap
   data and interfaces were available. A server that was deleted outside is not replaced.
   */
  ghost function ReconcileServer(s: Fleet, m: MachineName, user: Tags, read: bool, prepared: bool, answered: bool, landed: bool): Fleet {
    if StatusOf(s, m) != NO_ID || !read || |Found(s, m)| > 1 then s
    else if |Found(s, m)| == 1 then
      var i :| i in Found(s, m);
      s.(status := s.status[m := i])
    else if !prepared then s
    else
      var t := if answered || landed then s.(servers := s.servers[s.next := CreateTags(m, user)], next := s.next + 1) else s;
      if answered then t.(status := t.status[m := s.next]) else t
  }

  /** deleteServer: the status is cleared once the server is deleted or not found. */
  function DeleteServer(s: Fleet, m: MachineName, answered: bool, landed: bool): Fleet {
    var id := StatusOf(s, m);
    if id == NO_ID then s else
    var t := if answered || landed then s.(servers := s.servers - {id}) else s;
    if answered then t.(status := t.status[m := NO_ID]) else t
  }

  ghost function Step(s: Fleet, e: Event): Fleet {
    match e
    case Reconcile(m, user, read, prepared, answered, landed) => ReconcileServer(s, m, user, read, prepared, answered, landed)
    case Delete(m, answered, landed) => DeleteServer(s, m, answered, landed)
    case Foreign(tags) => s.(servers := s.servers[s.next := tags], next := s.next + 1)
    case Vanish(id) => s.(servers := s.servers - {id})
  }

  /** Machine specs passed validation, names are Kubernetes names, and nobody else uses the reserved prefix. */
  ghost predicate Accepted(e: Event) {
    match e
    case Reconcile(m, user, _, _, _, _) => Slashless(m) && Unreserved(user)
    case Delete(m, _, _) => Slashless(m)
    case Foreign(tags) => Unreserved(tags)
    case Vanish(_) => true
  }

  /** The server was created for the machine. */
  ghost predicate CreatedFor(tags: Tags, m: MachineName) {
    Slashless(m) && exists user :: Unreserved(user) && tags == CreateTags(m, user)
  }

  ghost predicate Orderly(s: Fleet) {
    && 0 < s.next && (forall i | i in s.servers :: 0 < i < s.next)
    && (forall i | i in s.servers :: Unreserved(s.servers[i]) || exists m :: CreatedFor(s.servers[i], m))
    && (forall i, j, m | i in s.servers && j in s.servers && CreatedFor(s.servers[i], m) && CreatedFor(s.servers[j], m) :: i == j)
    && (forall m | m in s.status && s.status[m] != NO_ID ::
          && Slashless(m) && 0 < s.status[m] < s.next
          && (s.status[m] in s.servers ==> CreatedFor(s.servers[s.status[m]], m)))
  }

  lemma FoundIsOwn(s: Fleet, m: MachineName, i: Id)
    requires Orderly(s) && Slashless(m) && i in s.servers
    ensures i in Found(s, m) <==> CreatedFor(s.servers[i], m)
  {
    if CreatedFor(s.servers[i], m) {
      var user :| Unreserved(user) && s.servers[i] == CreateTags(m, user);
      LookupFindsExactlyOwn(m, user, m);
    }
    if i in Found(s, m) {
      TagKeyIsReserved(m.cluster);
      assert TagKey(m.cluster) in LookupTag(m);
      assert !Unreserved(s.servers[i]);
      var o :| CreatedFor(s.servers[i], o);
      var user :| Unreserved(user) && s.servers[i] == CreateTags(o, user);
      LookupFindsExactlyOwn(o, user, m);
    }
  }

  /** A new server's tags name one machine only. */
  lemma CreatedForOne(m: MachineName, user: Tags, n: MachineName)
    requires Slashless(m) && Unreserved(user)
    ensures CreatedFor(CreateTags(m, user), m)
    ensures CreatedFor(CreateTags(m, user), n) ==> n == m
  {
    if CreatedFor(CreateTags(m, user), n) {
      var other :| Unreserved(other) && CreateTags(m, user) == CreateTags(n, other);
      LookupFindsExactlyOwn(n, other, n);
      LookupFindsExactlyOwn(m, user, n);
    }
  }

  lemma UnreservedForNone(tags: Tags, m: MachineName)
    requires Unreserved(tags)
    ensures !CreatedFor(tags, m)
  {
    TagKeyIsReserved(m.cluster);
    assert forall user :: TagKey(m.cluster) in CreateTags(m, user);
  }

  lemma CreateStaysOrderly(s: Fleet, m: MachineName, user: Tags)
    requires Orderly(s) && Slashless(m) && Unreserved(user) && Found(s, m) == {}
    ensures Orderly(s.(servers := s.servers[s.next := CreateTags(m, user)], next := s.next + 1))
  {
    var t := s.(servers := s.servers[s.next := CreateTags(m, user)], next := s.next + 1);
    CreatedForOne(m, user, m);
    forall i, j, n | i in t.servers && j in t.servers && CreatedFor(t.servers[i], n) && CreatedFor(t.servers[j], n)
      ensures i == j
    {
      CreatedForOne(m, user, n);
      if i in s.servers { FoundIsOwn(s, m, i); }
      if j in s.servers { FoundIsOwn(s, m, j); }
    }
  }

  lemma ForeignStaysOrderly(s: Fleet, tags: Tags)
    requires Orderly(s) && Unreserved(tags)
    ensures Orderly(s.(servers := s.servers[s.next := tags], next := s.next + 1))
  {
    forall n ensures !CreatedFor(tags, n) { UnreservedForNone(tags, n); }
  }

  lemma ReconcileStaysOrderly(s: Fleet, m: MachineName, user: Tags, read: bool, prepared: bool, answered: bool, landed: bool)
    requires Orderly(s) && Slashless(m) && Unreserved(user)
    ensures Orderly(ReconcileServer(s, m, user, read, prepared, answered, landed))
  {
    forall i | i in s.servers ensures i in Found(s, m) <==> CreatedFor(s.servers[i], m) { FoundIsOwn(s, m, i); }
    if StatusOf(s, m) == NO_ID && read && |Found(s, m)| == 0 {
      CreateStaysOrderly(s, m, user);
      CreatedForOne(m, user, m);
    }
  }

  lemma StepStaysOrderly(s: Fleet, e: Event)
    requires Orderly(s) && Accepted(e)
    ensures Orderly(Step(s, e))
  {
    match e
    case Reconcile(m, user, read, prepared, answered, landed) =>
      ReconcileStaysOrderly(s, m, user, read, prepared, answered, landed);
    case Foreign(tags) => ForeignStaysOrderly(s, tags);
    case _ =>
  }

  ghost predicate IsRun(trace: seq<Fleet>, es: seq<Event>) {
    && |trace| == |es| + 1 && trace[0] == Fleet(map[], 1, map[])
    && (forall k | 0 <= k < |es| :: Accepted(es[k]))
    && forall k | 0 <= k < |es| :: trace[k + 1] == Step(trace[k], es[k])
  }

  lemma {:induction false} RunIsOrderly(trace: seq<Fleet>, es: seq<Event>, k: nat)
    requires IsRun(trace, es) && k <= |es|
    ensures Orderly(trace[k])
    decreases k
  {
    if k > 0 {
      RunIsOrderly(trace, es, k - 1);
      StepStaysOrderly(trace[k - 1], es[k - 1]);
      assert trace[k - 1 + 1] == Step(trace[k - 1], es[k - 1]);
    }
  }

  /** In every run a machine never has two servers, and none it records was made for another. */
  lemma NeverTwoServersNeverAnothers(trace: seq<Fleet>, es: seq<Event>, k: nat, m: MachineName, n: MachineName)
    requires IsRun(trace, es) && k <= |es| && Slashless(m) && Slashless(n)
    ensures |Found(trace[k], m)| <= 1
    ensures m != n ==> Found(trace[k], m) !! Found(trace[k], n)
    ensures var id := StatusOf(trace[k], m); id != NO_ID && id in trace[k].servers ==> Found(trace[k], m) == {id}
  {
    var s := trace[k];
    RunIsOrderly(trace, es, k);
    forall i | i in s.servers
      ensures i in Found(s, m) <==> CreatedFor(s.servers[i], m)
      ensures i in Found(s, n) <==> CreatedFor(s.servers[i], n)
    {
      FoundIsOwn(s, m, i);
      FoundIsOwn(s, n, i);
    }
    AtMostOneElement(Found(s, m));
    forall i | i in s.servers && CreatedFor(s.servers[i], m) && CreatedFor(s.servers[i], n) ensures m == n {
      var user :| Unreserved(user) && s.servers[i] == CreateTags(m, user);
      CreatedForOne(m, user, n);
    }
  }

  lemma AtMostOneElement(ids: set<Id>)
    requires forall i, j | i in ids && j in ids :: i == j
    ensures |ids| <= 1
  {
    if ids != {} {
      var i :| i in ids;
      assert ids == {i};
    }
  }
}
