/** What the delete loops leave in status when some of their calls fail, entry by entry. */
module PartialFailure {
  import opened Types
  import opened Cloud
  import opened Networks
  import opened Routers

  // --------------------------------------------------------------------- networks

  /** The answer each entry's delete call got; None where no call was made. A refusal ends the loop. */
  ghost function Answers(s: State, f: Fates, ns: seq<NetworkStatus>): seq<Option<Reply>>
    ensures |Answers(s, f, ns)| <= |ns|
    decreases ns
  {
    if ns == [] then []
    else if !ns[0].managed || ns[0].networkId == NO_ID then [None] + Answers(s, f, ns[1..])
    else
      var c := Delete(s, f, Network, ns[0].networkId);
      if c.reply.Refused? then [Some(c.reply)] else [Some(c.reply)] + Answers(c.s, f, ns[1..])
  }

  /** Deleted and not found both mean the entry is dealt with. */
  predicate Settles(r: Reply) {
    r.Done? || r.Missing?
  }

  predicate Stays(n: NetworkStatus, answer: Option<Reply>) {
    !n.managed || (answer.Some? && !Settles(answer.value))
  }

  /** The in-order sublist of the entries that stay. */
  ghost function Remaining(ns: seq<NetworkStatus>, answers: seq<Option<Reply>>): seq<NetworkStatus>
    requires |answers| == |ns|
    decreases ns
  {
    if ns == [] then []
    else (if Stays(ns[0], answers[0]) then [ns[0]] else []) + Remaining(ns[1..], answers[1..])
  }

  ghost predicate AnyFailed(answers: seq<Option<Reply>>) {
    exists a | a in answers :: a.Some? && !Settles(a.value)
  }

  ghost predicate AnyRefused(answers: seq<Option<Reply>>) {
    Some(Refused) in answers
  }

  lemma AnsweredOn(ns: seq<NetworkStatus>, a: Option<Reply>, rest: seq<Option<Reply>>)
    requires ns != [] && |rest| == |ns| - 1
    ensures Remaining(ns, [a] + rest) == (if Stays(ns[0], a) then [ns[0]] else []) + Remaining(ns[1..], rest)
    ensures AnyFailed([a] + rest) <==> (a.Some? && !Settles(a.value)) || AnyFailed(rest)
    ensures AnyRefused([a] + rest) <==> a == Some(Refused) || AnyRefused(rest)
  {
    assert ([a] + rest)[1..] == rest;
    FailedSplit(a, rest);
  }

  /** The loop's result in terms of the answers, from any point on. */
  ghost predicate Leaves(s: State, e: Stage, before: seq<NetworkStatus>, err: bool, ns: seq<NetworkStatus>, answers: seq<Option<Reply>>) {
    if AnyRefused(answers) then e.flow == Requeue && e.s.st == s.st
    else
      && |answers| == |ns| && e.s.st == s.st.(networks := before + Remaining(ns, answers))
      && e.flow == if err || AnyFailed(answers) then Error else Proceed
  }

  lemma {:induction false} DeleteNetworksLeaves(
    s: State, f: Fates, ns: seq<NetworkStatus>, k: nat, remaining: seq<NetworkStatus>, err: bool)
    requires k <= |ns|
    ensures Leaves(s, DeleteNetworksFrom(s, f, ns, k, remaining, err), remaining, err, ns[k..], Answers(s, f, ns[k..]))
    decreases |ns| - k
  {
    var here := ns[k..];
    if k == |ns| {
      assert remaining + Remaining([], []) == remaining;
    } else {
      var n, rest := ns[k], ns[k + 1..];
      assert here[0] == n && here[1..] == rest;
      if !n.managed || n.networkId == NO_ID {
        var kept := if n.managed then remaining else remaining + [n];
        DeleteNetworksLeaves(s, f, ns, k + 1, kept, err);
        LeavesStep(s, DeleteNetworksFrom(s, f, ns, k, remaining, err), s, remaining, err, err, here, None, Answers(s, f, rest));
      } else {
        var c := Delete(s, f, Network, n.networkId);
        if !c.reply.Refused? {
          var ok := Settles(c.reply);
          var kept := if ok then remaining else remaining + [n];
          DeleteNetworksLeaves(c.s, f, ns, k + 1, kept, err || !ok);
          LeavesStep(s, DeleteNetworksFrom(s, f, ns, k, remaining, err), c.s, remaining, err, err || !ok, here, Some(c.reply), Answers(c.s, f, rest));
        } else {
          assert Answers(s, f, here)[0] == Some(Refused);
        }
      }
    }
  }

  lemma LeavesStep(
    s: State, e: Stage, t: State, before: seq<NetworkStatus>, err: bool, err2: bool, ns: seq<NetworkStatus>,
    a: Option<Reply>, rest: seq<Option<Reply>>)
    requires ns != [] && t.st == s.st && a != Some(Refused) && err2 == (err || (a.Some? && !Settles(a.value)))
    requires Leaves(t, e, if Stays(ns[0], a) then before + [ns[0]] else before, err2, ns[1..], rest)
    ensures Leaves(s, e, before, err, ns, [a] + rest)
  {
    if |rest| == |ns| - 1 {
      AnsweredOn(ns, a, rest);
      assert before + ([ns[0]] + Remaining(ns[1..], rest)) == before + [ns[0]] + Remaining(ns[1..], rest);
      assert before + ([] + Remaining(ns[1..], rest)) == before + Remaining(ns[1..], rest);
    } else {
      assert Some(Refused) in rest;
      assert Some(Refused) in [a] + rest;
    }
  }

  /**
   deleteNetwork leaves exactly the unmanaged entries and the managed ones whose delete failed
   otherwise than with 404, in order, and an error iff one failed; on a refusal because of pool
   members it stops and leaves the list untouched.
   */
  lemma DeleteNetworksExactly(s: State, f: Fates)
    ensures var e, answers := DeleteNetworks(s, f), Answers(s, f, s.st.networks);
            if AnyRefused(answers) then e.flow == Requeue && e.s.st == s.st
            else && |answers| == |s.st.networks|
                 && e.s.st == s.st.(networks := Remaining(s.st.networks, answers))
                 && (e.flow == Error <==> AnyFailed(answers)) && (e.flow == Proceed <==> !AnyFailed(answers))
  {
    var ns := s.st.networks;
    DeleteNetworksLeaves(s, f, ns, 0, [], false);
    assert ns[0..] == ns;
    var answers := Answers(s, f, ns);
    if !AnyRefused(answers) { assert [] + Remaining(ns, answers) == Remaining(ns, answers); }
  }

  // ------------------------------------------------------------------- interfaces

  /** The answer an entry's detach call got; None where no call was made, as for foreign or absent interfaces. */
  ghost function DetachAnswer(s: State, f: Fates, router: Id, live: map<Id, Id>, e: InterfaceStatus): Option<Reply> {
    if !e.managed || Resolve(s, live, e) !in live then None
    else Some(DeleteInterface(s, f, router, Resolve(s, live, e)).reply)
  }

  ghost function AfterEntry(s: State, f: Fates, router: Id, live: map<Id, Id>, e: InterfaceStatus): State {
    if !e.managed || Resolve(s, live, e) !in live then s else DeleteInterface(s, f, router, Resolve(s, live, e)).s
  }

  ghost function DetachAnswers(s: State, f: Fates, router: Id, live: map<Id, Id>, es: seq<InterfaceStatus>): (answers: seq<Option<Reply>>)
    ensures |answers| == |es|
    decreases es
  {
    if es == [] then []
    else [DetachAnswer(s, f, router, live, es[0])]
         + DetachAnswers(AfterEntry(s, f, router, live, es[0]), f, router, live, es[1..])
  }

  /** The state after those calls. */
  ghost function AfterDetach(s: State, f: Fates, router: Id, live: map<Id, Id>, es: seq<InterfaceStatus>): State
    decreases es
  {
    if es == [] then s else AfterDetach(AfterEntry(s, f, router, live, es[0]), f, router, live, es[1..])
  }

  /** A foreign entry stays as it is, a managed one whose detach failed with the id it stands for. */
  ghost function LeftOfEntry(s: State, live: map<Id, Id>, e: InterfaceStatus, answer: Option<Reply>): seq<InterfaceStatus> {
    if !e.managed then [e]
    else if answer.Some? && !Settles(answer.value) then [e.(interfaceId := Resolve(s, live, e))]
    else []
  }

  ghost function RemainingInterfaces(s: State, live: map<Id, Id>, es: seq<InterfaceStatus>, answers: seq<Option<Reply>>): seq<InterfaceStatus>
    requires |answers| == |es|
    decreases es
  {
    if es == [] then []
    else LeftOfEntry(s, live, es[0], answers[0]) + RemainingInterfaces(s, live, es[1..], answers[1..])
  }

  lemma DetachOneExactly(s: State, f: Fates, router: Id, live: map<Id, Id>, e: InterfaceStatus, s0: State)
    requires s0.st == s.st
    ensures var one, a := DetachOne(s, f, router, live, e), DetachAnswer(s, f, router, live, e);
            && one.kept == LeftOfEntry(s0, live, e, a) && one.s == AfterEntry(s, f, router, live, e)
            && one.err == (a.Some? && !Settles(a.value))
  {
  }

  /** What the detach loop adds to the lists, from any point on. */
  lemma {:induction false} DetachLeaves(
    s: State, f: Fates, rs: RouterStatus, live: map<Id, Id>, k: nat, remaining: seq<InterfaceStatus>, err: bool, s0: State)
    requires k <= |rs.interfaces| && s0.st == s.st
    ensures var d, here := DetachFrom(s, f, rs, live, k, remaining, err), rs.interfaces[k..];
            var answers := DetachAnswers(s, f, rs.routerId, live, here);
            && d.kept == remaining + RemainingInterfaces(s0, live, here, answers)
            && d.err == (err || AnyFailed(answers)) && d.s == AfterDetach(s, f, rs.routerId, live, here)
    decreases |rs.interfaces| - k
  {
    var here := rs.interfaces[k..];
    if k < |rs.interfaces| {
      var e, one := rs.interfaces[k], DetachOne(s, f, rs.routerId, live, rs.interfaces[k]);
      assert here[0] == e && here[1..] == rs.interfaces[k + 1..];
      DetachOneExactly(s, f, rs.routerId, live, e, s0);
      DetachLeaves(one.s, f, rs, live, k + 1, remaining + one.kept, err || one.err, s0);
      var a, rest := DetachAnswer(s, f, rs.routerId, live, e), DetachAnswers(one.s, f, rs.routerId, live, here[1..]);
      LeftSplit(s0, live, here, a, rest, remaining);
      FailedSplit(a, rest);
    }
  }

  lemma LeftSplit(
    s: State, live: map<Id, Id>, es: seq<InterfaceStatus>, a: Option<Reply>, rest: seq<Option<Reply>>, before: seq<InterfaceStatus>)
    requires es != [] && |rest| == |es| - 1
    ensures before + RemainingInterfaces(s, live, es, [a] + rest) ==
            before + LeftOfEntry(s, live, es[0], a) + RemainingInterfaces(s, live, es[1..], rest)
  {
    assert ([a] + rest)[1..] == rest;
  }

  lemma FailedSplit(a: Option<Reply>, rest: seq<Option<Reply>>)
    ensures AnyFailed([a] + rest) <==> (a.Some? && !Settles(a.value)) || AnyFailed(rest)
  {
    if AnyFailed(rest) {
      var x :| x in rest && x.Some? && !Settles(x.value);
      assert x in [a] + rest;
    }
    if a.Some? && !Settles(a.value) { assert a in [a] + rest; }
  }

  /** What is left of a router's interface entries, whether that is an error, and the state the calls leave. */
  datatype InterfacesLeft = InterfacesLeft(entries: seq<InterfaceStatus>, failed: bool, s: State)

  /** By the answers alone: nothing managed, no call; router gone, nothing left; router unreadable, all left. */
  ghost function LeftOfInterfaces(s: State, f: Fates, rs: RouterStatus): InterfacesLeft {
    var g := Get(s, f, Router, rs.routerId);
    if forall e | e in rs.interfaces :: !e.managed then InterfacesLeft(rs.interfaces, false, s)
    else if g.reply.Missing? then InterfacesLeft([], false, g.s)
    else if !g.reply.Done? then InterfacesLeft(rs.interfaces, true, g.s)
    else
      var live := Interfaces(g.s.w, rs.routerId);
      var answers := DetachAnswers(g.s, f, rs.routerId, live, rs.interfaces);
      InterfacesLeft(RemainingInterfaces(g.s, live, rs.interfaces, answers), AnyFailed(answers),
                     AfterDetach(g.s, f, rs.routerId, live, rs.interfaces))
  }

  lemma DeleteInterfacesExactly(s: State, f: Fates, rs: RouterStatus)
    ensures var d, left := DeleteInterfaces(s, f, rs), LeftOfInterfaces(s, f, rs);
            d.kept == left.entries && d.err == left.failed && d.s == left.s
  {
    var g := Get(s, f, Router, rs.routerId);
    if HasManaged(rs.interfaces) && g.reply.Done? {
      var live := Interfaces(g.s.w, rs.routerId);
      DetachLeaves(g.s, f, rs, live, 0, [], false, g.s);
      assert rs.interfaces[0..] == rs.interfaces;
      var answers := DetachAnswers(g.s, f, rs.routerId, live, rs.interfaces);
      assert [] + RemainingInterfaces(g.s, live, rs.interfaces, answers) == RemainingInterfaces(g.s, live, rs.interfaces, answers);
    }
  }

  // ---------------------------------------------------------------------- routers

  /** What one router entry met: its interfaces, and the answer to the router's own delete if that was called. */
  datatype RouterAnswer = RouterAnswer(left: InterfacesLeft, deleted: Option<Reply>)

  ghost function RouterAnswerOf(s: State, f: Fates, rs: RouterStatus): RouterAnswer {
    if rs.routerId == NO_ID then RouterAnswer(InterfacesLeft([], false, s), None) else
    var left := LeftOfInterfaces(s, f, rs);
    if left.failed || !rs.managed then RouterAnswer(left, None)
    else RouterAnswer(left, Some(Delete(left.s, f, Router, rs.routerId).reply))
  }

  ghost function AfterRouter(s: State, f: Fates, rs: RouterStatus): State {
    var a := RouterAnswerOf(s, f, rs);
    if a.deleted.Some? then Delete(a.left.s, f, Router, rs.routerId).s else a.left.s
  }

  ghost function RouterAnswers(s: State, f: Fates, rss: seq<RouterStatus>): (answers: seq<RouterAnswer>)
    ensures |answers| == |rss|
    decreases rss
  {
    if rss == [] then [] else [RouterAnswerOf(s, f, rss[0])] + RouterAnswers(AfterRouter(s, f, rss[0]), f, rss[1..])
  }

  predicate RouterFailed(a: RouterAnswer) {
    a.left.failed || (a.deleted.Some? && !Settles(a.deleted.value))
  }

  /** An entry stays if it has an id and is foreign or failed. */
  predicate RouterStays(rs: RouterStatus, a: RouterAnswer) {
    rs.routerId != NO_ID && (!rs.managed || RouterFailed(a))
  }

  ghost function RemainingRouters(rss: seq<RouterStatus>, answers: seq<RouterAnswer>): seq<RouterStatus>
    requires |answers| == |rss|
    decreases rss
  {
    if rss == [] then []
    else (if RouterStays(rss[0], answers[0]) then [rss[0].(interfaces := answers[0].left.entries)] else [])
         + RemainingRouters(rss[1..], answers[1..])
  }

  ghost predicate AnyRouterFailed(answers: seq<RouterAnswer>) {
    exists a | a in answers :: RouterFailed(a)
  }

  /** One entry: dropped, or left with exactly the interfaces that are left. */
  lemma DeleteRouterExactly(s: State, f: Fates, rs: RouterStatus)
    ensures var one, a := DeleteRouter(s, f, rs), RouterAnswerOf(s, f, rs);
            && one.kept == (if RouterStays(rs, a) then [rs.(interfaces := a.left.entries)] else [])
            && one.err == RouterFailed(a) && one.s == AfterRouter(s, f, rs)
  {
    DeleteInterfacesExactly(s, f, rs);
  }

  lemma {:induction false} DeleteRoutersLeaves(
    s: State, f: Fates, rss: seq<RouterStatus>, k: nat, remaining: seq<RouterStatus>, err: bool)
    requires k <= |rss|
    ensures var e, answers := DeleteRoutersFrom(s, f, rss, k, remaining, err), RouterAnswers(s, f, rss[k..]);
            && e.s.st == s.st.(routers := remaining + RemainingRouters(rss[k..], answers))
            && e.flow == if err || AnyRouterFailed(answers) then Error else Proceed
    decreases |rss| - k
  {
    if k == |rss| {
      assert remaining + RemainingRouters([], []) == remaining;
    } else {
      var one, a, here := DeleteRouter(s, f, rss[k]), RouterAnswerOf(s, f, rss[k]), rss[k..];
      DeleteRouterExactly(s, f, rss[k]);
      assert here[0] == rss[k] && here[1..] == rss[k + 1..];
      DeleteRoutersLeaves(one.s, f, rss, k + 1, remaining + one.kept, err || one.err);
      var rest := RouterAnswers(one.s, f, here[1..]);
      assert RouterAnswers(s, f, here) == [a] + rest && ([a] + rest)[1..] == rest;
      assert remaining + one.kept + RemainingRouters(here[1..], rest) == remaining + (one.kept + RemainingRouters(here[1..], rest));
      RouterFailedSplit(a, rest);
    }
  }

  lemma RouterFailedSplit(a: RouterAnswer, rest: seq<RouterAnswer>)
    ensures AnyRouterFailed([a] + rest) <==> RouterFailed(a) || AnyRouterFailed(rest)
  {
    if AnyRouterFailed(rest) {
      var x :| x in rest && RouterFailed(x);
      assert x in [a] + rest;
    }
    if RouterFailed(a) { assert a in [a] + rest; }
  }

  /**
   deleteRouters leaves, in order, the entries with an id that are foreign or failed, each with
   exactly the interfaces that are left, and an error iff one failed.
   */
  lemma DeleteRoutersExactly(s: State, f: Fates)
    ensures var e, answers := DeleteRouters(s, f), RouterAnswers(s, f, s.st.routers);
            && e.s.st == s.st.(routers := RemainingRouters(s.st.routers, answers))
            && (e.flow == Error <==> AnyRouterFailed(answers)) && (e.flow == Proceed <==> !AnyRouterFailed(answers))
  {
    var rss := s.st.routers;
    DeleteRoutersLeaves(s, f, rss, 0, [], false);
    assert rss[0..] == rss;
    assert [] + RemainingRouters(rss, RouterAnswers(s, f, rss)) == RemainingRouters(rss, RouterAnswers(s, f, rss));
  }
}
