/**
  What `RouterGroup.Apply` and `RestRouterGroup.Apply` promise, stated
  about the functions of module Gimlet that the methods are proved to
  follow.

  The reference point is `Endpoints(g, parent)`: the set of every route of
  the tree `g`, each with the absolute path and the handler chain it should
  be registered with. It is defined by structure alone, with no iteration
  order, no hooks and no early exit. The build registers only such
  endpoints (`GroupSound`), registers all of them when it succeeds
  (`GroupComplete`), succeeds exactly when no hook fails and no route lacks
  a handler (`GroupSucceeds`), and otherwise stops with an error that one of
  them produced (`GroupErrorOrigin`).
*/
module GimletProps {
  import opened Wrappers
  import opened Gin
  import opened Gimlet

  /** The registration a route with a handler gets on `group` under method `m`. */
  function Endpoint(group: Scope, m: string, r: Route, middlewares: seq<Id>): Registration
    requires r.Handler.Some?
  {
    Handled(group, m, r.Path, middlewares + r.Middlewares + [r.Handler.value])
  }

  /** The routes with a handler in `routes`, registered under method `m`. */
  function RouteEndpoints(routes: seq<Route>, group: Scope, m: string, middlewares: seq<Id>): set<Registration>
  {
    set r | r in routes && r.Handler.Some? :: Endpoint(group, m, r, middlewares)
  }

  /** The routes with a handler in a Routes map, whatever the order of its methods. */
  function OwnEndpoints(routes: map<string, seq<Route>>, group: Scope, middlewares: seq<Id>): set<Registration>
  {
    set m, r | m in routes && r in routes[m] && r.Handler.Some? :: Endpoint(group, m, r, middlewares)
  }

  /** Every route of the tree `g` mounted under `parent`, as it is registered. */
  function Endpoints(g: RouterGroup, parent: Scope): set<Registration>
    decreases g, 1
  {
    var group := Mount(parent, g);
    OwnEndpoints(g.Routes, group, g.Middlewares) + SubEndpoints(g, group)
  }

  /** Every route of the subgroups of `g`, each mounted under `group`. */
  function SubEndpoints(g: RouterGroup, group: Scope): set<Registration>
    decreases g, 0
  {
    set k, e | 0 <= k < |g.SubGroups| && e in Endpoints(g.SubGroups[k], group) :: e
  }

  /**
    Every endpoint of a tree lives below the tree's mounted prefix and
    its chain starts with the inherited chain and PersistentMiddlewares.
  */
  lemma {:induction false} EndpointsBelow(g: RouterGroup, parent: Scope)
    ensures forall e :: e in Endpoints(g, parent) ==>
      Join(parent.prefix, g.BasePath) <= e.path && parent.chain + g.PersistentMiddlewares <= e.chain
    decreases g, 1
  {
    var group := Mount(parent, g);
    forall e | e in OwnEndpoints(g.Routes, group, g.Middlewares)
      ensures group.prefix <= e.path && group.chain <= e.chain
    {
      var m: string, r: Route :| m in g.Routes && r in g.Routes[m] && r.Handler.Some? && e == Endpoint(group, m, r, g.Middlewares);
      JoinExtends(group.prefix, r.Path);
    }
    SubEndpointsBelow(g, group);
  }

  lemma {:induction false} SubEndpointsBelow(g: RouterGroup, group: Scope)
    ensures forall e :: e in SubEndpoints(g, group) ==> group.prefix <= e.path && group.chain <= e.chain
    decreases g, 0
  {
    forall e | e in SubEndpoints(g, group)
      ensures group.prefix <= e.path && group.chain <= e.chain
    {
      var k :| 0 <= k < |g.SubGroups| && e in Endpoints(g.SubGroups[k], group);
      EndpointsBelow(g.SubGroups[k], group);
      JoinExtends(group.prefix, g.SubGroups[k].BasePath);
    }
  }

  /** The tree builds without error: no hook fails and every route has a handler. */
  predicate Buildable(g: RouterGroup)
    decreases g
  {
    !g.PreFunc.Fails? && !g.PostFunc.Fails? &&
    (forall m, r :: m in g.Routes && r in g.Routes[m] ==> r.Handler.Some?) &&
    (forall sub :: sub in g.SubGroups ==> Buildable(sub))
  }

  /** The errors of routes without a handler in a Routes map. */
  function MissingHandlers(routes: map<string, seq<Route>>): set<Error>
  {
    set m, r | m in routes && r in routes[m] && r.Handler.None? :: MissingHandler(r.Path)
  }

  /** Every error some part of the tree `g` can stop the build with. */
  function Failures(g: RouterGroup): set<Error>
    decreases g
  {
    (if g.PreFunc.Fails? then {g.PreFunc.error} else {}) +
    (if g.PostFunc.Fails? then {g.PostFunc.error} else {}) +
    MissingHandlers(g.Routes) +
    (set k, x | 0 <= k < |g.SubGroups| && x in Failures(g.SubGroups[k]) :: x)
  }

  // ---------------------------------------------------------------------
  // The loops over the routes of one method and over the methods
  // ---------------------------------------------------------------------

  /** The route loop registers only endpoints of its routes. */
  lemma {:induction false} RoutesSound(routes: seq<Route>, n: nat, group: Scope, m: string, middlewares: seq<Id>)
    requires n <= |routes|
    ensures forall e :: e in RoutesOutcome(routes, n, group, m, middlewares).regs ==> e in RouteEndpoints(routes, group, m, middlewares)
  {
    if n > 0 {
      RoutesSound(routes, n - 1, group, m, middlewares);
    }
  }

  /** The route loop fails exactly when one of the routes it reaches has no handler. */
  lemma {:induction false} RoutesSucceed(routes: seq<Route>, n: nat, group: Scope, m: string, middlewares: seq<Id>)
    requires n <= |routes|
    ensures RoutesOutcome(routes, n, group, m, middlewares).err.None? <==> forall i :: 0 <= i < n ==> routes[i].Handler.Some?
  {
    if n > 0 {
      RoutesSucceed(routes, n - 1, group, m, middlewares);
    }
  }

  /** A route loop that succeeds has registered every route it visited. */
  lemma {:induction false} RoutesComplete(routes: seq<Route>, n: nat, group: Scope, m: string, middlewares: seq<Id>)
    requires n <= |routes|
    requires RoutesOutcome(routes, n, group, m, middlewares).err.None?
    ensures forall i :: 0 <= i < n ==> routes[i].Handler.Some? && Endpoint(group, m, routes[i], middlewares) in RoutesOutcome(routes, n, group, m, middlewares).regs
  {
    if n > 0 {
      RoutesComplete(routes, n - 1, group, m, middlewares);
    }
  }

  /** A route loop that fails names the path of a route without handler. */
  lemma {:induction false} RoutesError(routes: seq<Route>, n: nat, group: Scope, m: string, middlewares: seq<Id>)
    requires n <= |routes|
    requires RoutesOutcome(routes, n, group, m, middlewares).err.Some?
    ensures exists i :: 0 <= i < n && routes[i].Handler.None? && RoutesOutcome(routes, n, group, m, middlewares).err.value == MissingHandler(routes[i].Path)
  {
    if RoutesOutcome(routes, n - 1, group, m, middlewares).err.Some? {
      RoutesError(routes, n - 1, group, m, middlewares);
    }
  }

  /** The method loop registers only endpoints of the Routes map. */
  lemma {:induction false} MethodsSound(routes: map<string, seq<Route>>, order: seq<string>, n: nat, group: Scope, middlewares: seq<Id>)
    requires n <= |order|
    requires forall m :: m in order ==> m in routes
    ensures forall e :: e in MethodsOutcome(routes, order, n, group, middlewares).regs ==> e in OwnEndpoints(routes, group, middlewares)
  {
    if n > 0 {
      MethodsSound(routes, order, n - 1, group, middlewares);
      var m := order[n - 1];
      RoutesSound(routes[m], |routes[m]|, group, m, middlewares);
      var o := RoutesOutcome(routes[m], |routes[m]|, group, m, middlewares);
      forall e | e in o.regs
        ensures e in OwnEndpoints(routes, group, middlewares)
      {
        var r :| r in routes[m] && r.Handler.Some? && e == Endpoint(group, m, r, middlewares);
      }
    }
  }

  /** The method loop fails exactly when a route of a method it reaches has no handler. */
  lemma {:induction false} MethodsSucceed(routes: map<string, seq<Route>>, order: seq<string>, n: nat, group: Scope, middlewares: seq<Id>)
    requires n <= |order|
    requires forall m :: m in order ==> m in routes
    ensures MethodsOutcome(routes, order, n, group, middlewares).err.None? <==>
      forall i, r :: 0 <= i < n && r in routes[order[i]] ==> r.Handler.Some?
  {
    if n > 0 {
      MethodsSucceed(routes, order, n - 1, group, middlewares);
      var m := order[n - 1];
      RoutesSucceed(routes[m], |routes[m]|, group, m, middlewares);
      var o := RoutesOutcome(routes[m], |routes[m]|, group, m, middlewares);
      assert o.err.None? <==> forall r :: r in routes[m] ==> r.Handler.Some? by {
        if o.err.None? {
          forall r | r in routes[m]
            ensures r.Handler.Some?
          {
            var i :| 0 <= i < |routes[m]| && routes[m][i] == r;
          }
        }
      }
    }
  }

  /** A method loop that succeeds has registered every route of the methods it visited. */
  lemma {:induction false} MethodsComplete(routes: map<string, seq<Route>>, order: seq<string>, n: nat, group: Scope, middlewares: seq<Id>)
    requires n <= |order|
    requires forall m :: m in order ==> m in routes
    requires MethodsOutcome(routes, order, n, group, middlewares).err.None?
    ensures forall i, r :: 0 <= i < n && r in routes[order[i]] ==>
      r.Handler.Some? && Endpoint(group, order[i], r, middlewares) in MethodsOutcome(routes, order, n, group, middlewares).regs
  {
    if n > 0 {
      var m := order[n - 1];
      var prev := MethodsOutcome(routes, order, n - 1, group, middlewares);
      var o := RoutesOutcome(routes[m], |routes[m]|, group, m, middlewares);
      assert MethodsOutcome(routes, order, n, group, middlewares) == Outcome(prev.regs + o.regs, o.err);
      MethodsComplete(routes, order, n - 1, group, middlewares);
      RoutesComplete(routes[m], |routes[m]|, group, m, middlewares);
      forall r | r in routes[m]
        ensures r.Handler.Some? && Endpoint(group, m, r, middlewares) in o.regs
      {
        var i :| 0 <= i < |routes[m]| && routes[m][i] == r;
      }
      forall i, r | 0 <= i < n && r in routes[order[i]]
        ensures r.Handler.Some? && Endpoint(group, order[i], r, middlewares) in MethodsOutcome(routes, order, n, group, middlewares).regs
      {
        if i < n - 1 {
          assert Endpoint(group, order[i], r, middlewares) in prev.regs;
        }
      }
    }
  }

  /** A method loop that fails names the path of a route without handler. */
  lemma {:induction false} MethodsError(routes: map<string, seq<Route>>, order: seq<string>, n: nat, group: Scope, middlewares: seq<Id>)
    requires n <= |order|
    requires forall m :: m in order ==> m in routes
    requires MethodsOutcome(routes, order, n, group, middlewares).err.Some?
    ensures MethodsOutcome(routes, order, n, group, middlewares).err.value in MissingHandlers(routes)
  {
    if MethodsOutcome(routes, order, n - 1, group, middlewares).err.Some? {
      MethodsError(routes, order, n - 1, group, middlewares);
    } else {
      var m := order[n - 1];
      RoutesError(routes[m], |routes[m]|, group, m, middlewares);
    }
  }

  /** A group's own Routes, iterated in any order that lists each method once. */
  lemma OwnFacts(g: RouterGroup, order: seq<string>, group: Scope)
    requires Enumerates(order, g.Routes.Keys)
    ensures var o := MethodsOutcome(g.Routes, order, |order|, group, g.Middlewares);
      (forall e :: e in o.regs ==> e in OwnEndpoints(g.Routes, group, g.Middlewares)) &&
      (o.err.None? <==> forall m, r :: m in g.Routes && r in g.Routes[m] ==> r.Handler.Some?) &&
      (o.err.None? ==> forall e :: e in OwnEndpoints(g.Routes, group, g.Middlewares) ==> e in o.regs) &&
      (o.err.Some? ==> o.err.value in MissingHandlers(g.Routes))
  {
    var o := MethodsOutcome(g.Routes, order, |order|, group, g.Middlewares);
    MethodsSound(g.Routes, order, |order|, group, g.Middlewares);
    MethodsSucceed(g.Routes, order, |order|, group, g.Middlewares);
    if o.err.None? {
      MethodsComplete(g.Routes, order, |order|, group, g.Middlewares);
    } else {
      MethodsError(g.Routes, order, |order|, group, g.Middlewares);
    }
    forall m, r | m in g.Routes && r in g.Routes[m]
      ensures o.err.None? ==> r.Handler.Some? && Endpoint(group, m, r, g.Middlewares) in o.regs
    {
      var i :| 0 <= i < |order| && order[i] == m;
    }
  }

  // ---------------------------------------------------------------------
  // Whole groups
  // ---------------------------------------------------------------------

  /** The build registers nothing but endpoints of the tree, even when it fails half-way. */
  lemma {:induction false} GroupSound(g: RouterGroup, parent: Scope, sched: Schedule)
    requires Fits(g, sched)
    ensures forall e :: e in GroupOutcome(g, parent, sched).regs ==> e in Endpoints(g, parent)
    decreases g, 1
  {
    var group := Mount(parent, g);
    GroupSteps(g, parent, sched);
    OwnFacts(g, sched.methods, group);
    SubsSound(g, sched, group, |g.SubGroups|);
  }

  lemma {:induction false} SubsSound(g: RouterGroup, sched: Schedule, group: Scope, n: nat)
    requires Fits(g, sched) && n <= |g.SubGroups|
    ensures forall e :: e in SubsOutcome(g, sched, group, n).regs ==> e in SubEndpoints(g, group)
    decreases g, 0, n
  {
    if n > 0 {
      SubsSound(g, sched, group, n - 1);
      GroupSound(g.SubGroups[n - 1], group, sched.subs[n - 1]);
    }
  }

  /** A build that succeeds has registered every endpoint of the tree. */
  lemma {:induction false} GroupComplete(g: RouterGroup, parent: Scope, sched: Schedule)
    requires Fits(g, sched)
    requires GroupOutcome(g, parent, sched).err.None?
    ensures forall e :: e in Endpoints(g, parent) ==> e in GroupOutcome(g, parent, sched).regs
    decreases g, 1
  {
    var group := Mount(parent, g);
    GroupSteps(g, parent, sched);
    OwnFacts(g, sched.methods, group);
    SubsComplete(g, sched, group, |g.SubGroups|);
  }

  lemma {:induction false} SubsComplete(g: RouterGroup, sched: Schedule, group: Scope, n: nat)
    requires Fits(g, sched) && n <= |g.SubGroups|
    requires SubsOutcome(g, sched, group, n).err.None?
    ensures forall k, e :: 0 <= k < n && e in Endpoints(g.SubGroups[k], group) ==> e in SubsOutcome(g, sched, group, n).regs
    decreases g, 0, n
  {
    if n > 0 {
      var prev := SubsOutcome(g, sched, group, n - 1);
      var last := GroupOutcome(g.SubGroups[n - 1], group, sched.subs[n - 1]);
      assert SubsOutcome(g, sched, group, n) == Outcome(prev.regs + last.regs, last.err);
      SubsComplete(g, sched, group, n - 1);
      GroupComplete(g.SubGroups[n - 1], group, sched.subs[n - 1]);
    }
  }

  /** The build succeeds exactly when no hook of the tree fails and every route has a handler. */
  lemma {:induction false} GroupSucceeds(g: RouterGroup, parent: Scope, sched: Schedule)
    requires Fits(g, sched)
    ensures GroupOutcome(g, parent, sched).err.None? <==> Buildable(g)
    decreases g, 1
  {
    var group := Mount(parent, g);
    GroupSteps(g, parent, sched);
    OwnFacts(g, sched.methods, group);
    SubsSucceeds(g, sched, group, |g.SubGroups|);
  }

  lemma {:induction false} SubsSucceeds(g: RouterGroup, sched: Schedule, group: Scope, n: nat)
    requires Fits(g, sched) && n <= |g.SubGroups|
    ensures SubsOutcome(g, sched, group, n).err.None? <==> forall k :: 0 <= k < n ==> Buildable(g.SubGroups[k])
    decreases g, 0, n
  {
    if n > 0 {
      SubsSucceeds(g, sched, group, n - 1);
      GroupSucceeds(g.SubGroups[n - 1], group, sched.subs[n - 1]);
    }
  }

  /** A failed build reports, unchanged, the error of a failing hook or the path of a route without handler. */
  lemma {:induction false} GroupErrorOrigin(g: RouterGroup, parent: Scope, sched: Schedule)
    requires Fits(g, sched)
    ensures GroupOutcome(g, parent, sched).err.Some? ==> GroupOutcome(g, parent, sched).err.value in Failures(g)
    decreases g, 1
  {
    var group := Mount(parent, g);
    GroupSteps(g, parent, sched);
    OwnFacts(g, sched.methods, group);
    SubsErrorOrigin(g, sched, group, |g.SubGroups|);
  }

  lemma {:induction false} SubsErrorOrigin(g: RouterGroup, sched: Schedule, group: Scope, n: nat)
    requires Fits(g, sched) && n <= |g.SubGroups|
    ensures SubsOutcome(g, sched, group, n).err.Some? ==>
      exists k :: 0 <= k < n && SubsOutcome(g, sched, group, n).err.value in Failures(g.SubGroups[k])
    decreases g, 0, n
  {
    if n > 0 {
      SubsErrorOrigin(g, sched, group, n - 1);
      GroupErrorOrigin(g.SubGroups[n - 1], group, sched.subs[n - 1]);
    }
  }

  // ---------------------------------------------------------------------
  // Consequences: paths, chains, order, hooks
  // ---------------------------------------------------------------------

  /**
    After a successful build, each route of the group is registered at the
    parent prefix joined with BasePath and the route path, with the chain
    parent, PersistentMiddlewares, Middlewares, route middlewares, handler.
  */
  lemma OwnRouteRegistered(g: RouterGroup, parent: Scope, sched: Schedule, m: string, r: Route)
    requires Fits(g, sched)
    requires GroupOutcome(g, parent, sched).err.None?
    requires m in g.Routes && r in g.Routes[m]
    ensures r.Handler.Some?
    ensures Registration(m, Join(Join(parent.prefix, g.BasePath), r.Path),
      parent.chain + g.PersistentMiddlewares + g.Middlewares + r.Middlewares + [r.Handler.value])
      in GroupOutcome(g, parent, sched).regs
  {
    GroupSucceeds(g, parent, sched);
    GroupComplete(g, parent, sched);
    var group := Mount(parent, g);
    assert Endpoint(group, m, r, g.Middlewares) in Endpoints(g, parent);
    assert group.chain + (g.Middlewares + r.Middlewares + [r.Handler.value]) ==
      parent.chain + g.PersistentMiddlewares + g.Middlewares + r.Middlewares + [r.Handler.value];
  }

  /**
    After a successful build, a route of the `k`-th subgroup is registered
    below the group's prefix with the group's PersistentMiddlewares but
    without its plain Middlewares.
  */
  lemma SubGroupRouteRegistered(g: RouterGroup, parent: Scope, sched: Schedule, k: nat, m: string, r: Route)
    requires Fits(g, sched)
    requires GroupOutcome(g, parent, sched).err.None?
    requires k < |g.SubGroups| && m in g.SubGroups[k].Routes && r in g.SubGroups[k].Routes[m]
    ensures r.Handler.Some?
    ensures var sub := g.SubGroups[k];
      Registration(m, Join(Join(Join(parent.prefix, g.BasePath), sub.BasePath), r.Path),
        parent.chain + g.PersistentMiddlewares + sub.PersistentMiddlewares + sub.Middlewares + r.Middlewares + [r.Handler.value])
      in GroupOutcome(g, parent, sched).regs
  {
    var sub := g.SubGroups[k];
    var group := Mount(parent, g);
    var inner := Mount(group, sub);
    GroupSucceeds(g, parent, sched);
    assert sub in g.SubGroups;
    assert r.Handler.Some?;
    GroupComplete(g, parent, sched);
    var e := Endpoint(inner, m, r, sub.Middlewares);
    assert e in Endpoints(sub, group);
    assert e in SubEndpoints(g, group);
    assert inner.chain + (sub.Middlewares + r.Middlewares + [r.Handler.value]) ==
      parent.chain + g.PersistentMiddlewares + sub.PersistentMiddlewares + sub.Middlewares + r.Middlewares + [r.Handler.value];
  }

  /**
    Go's map iteration order does not matter: whichever order the methods
    are visited in, the build succeeds or fails alike and, on success,
    registers the same set of routes.
  */
  lemma OrderIndependent(g: RouterGroup, parent: Scope, sched1: Schedule, sched2: Schedule)
    requires Fits(g, sched1) && Fits(g, sched2)
    ensures GroupOutcome(g, parent, sched1).err.None? <==> GroupOutcome(g, parent, sched2).err.None?
    ensures GroupOutcome(g, parent, sched1).err.None? ==>
      forall e :: e in GroupOutcome(g, parent, sched1).regs <==> e in GroupOutcome(g, parent, sched2).regs
  {
    GroupSucceeds(g, parent, sched1);
    GroupSucceeds(g, parent, sched2);
    GroupSound(g, parent, sched1);
    GroupSound(g, parent, sched2);
    if GroupOutcome(g, parent, sched1).err.None? {
      GroupComplete(g, parent, sched1);
      GroupComplete(g, parent, sched2);
    }
  }

  /** A failing PreFunc stops the build before anything is registered. */
  lemma PreFuncStops(g: RouterGroup, parent: Scope, sched: Schedule)
    requires Fits(g, sched) && g.PreFunc.Fails?
    ensures GroupOutcome(g, parent, sched) == Outcome([], Some(g.PreFunc.error))
  {
    GroupSteps(g, parent, sched);
  }

  /**
    The PostFunc runs last: when everything else succeeds and it fails, its
    error is returned and every route of the tree stays registered.
  */
  lemma PostFuncFailureKeepsRoutes(g: RouterGroup, parent: Scope, sched: Schedule)
    requires Fits(g, sched)
    requires !g.PreFunc.Fails? && g.PostFunc.Fails?
    requires forall m, r :: m in g.Routes && r in g.Routes[m] ==> r.Handler.Some?
    requires forall sub :: sub in g.SubGroups ==> Buildable(sub)
    ensures GroupOutcome(g, parent, sched).err == Some(g.PostFunc.error)
    ensures forall e :: e in Endpoints(g, parent) ==> e in GroupOutcome(g, parent, sched).regs
  {
    var group := Mount(parent, g);
    GroupSteps(g, parent, sched);
    OwnFacts(g, sched.methods, group);
    SubsSucceeds(g, sched, group, |g.SubGroups|);
    SubsComplete(g, sched, group, |g.SubGroups|);
  }

  /**
    The first subgroup that fails ends the subgroup loop with its error:
    the routes registered before it stay and the later subgroups are not
    applied (`GroupSteps` then returns that error from the group).
  */
  lemma SubGroupFailureStops(g: RouterGroup, sched: Schedule, group: Scope, k: nat)
    requires Fits(g, sched) && k < |g.SubGroups|
    requires SubsOutcome(g, sched, group, k).err.None?
    requires GroupOutcome(g.SubGroups[k], group, sched.subs[k]).err.Some?
    ensures var failed := GroupOutcome(g.SubGroups[k], group, sched.subs[k]);
      SubsOutcome(g, sched, group, |g.SubGroups|) == Outcome(SubsOutcome(g, sched, group, k).regs + failed.regs, failed.err)
  {
    var before := SubsOutcome(g, sched, group, k);
    var failed := GroupOutcome(g.SubGroups[k], group, sched.subs[k]);
    assert SubsOutcome(g, sched, group, k + 1) == Outcome(before.regs + failed.regs, failed.err);
    SubsStop(g, sched, group, k + 1, |g.SubGroups|);
  }

  /**
    The first route of a method without a handler ends the route loop with
    its path; the routes before it stay registered, the ones after it are
    not reached.
  */
  lemma RouteFailureStops(routes: seq<Route>, i: nat, group: Scope, m: string, middlewares: seq<Id>)
    requires i < |routes|
    requires forall j :: 0 <= j < i ==> routes[j].Handler.Some?
    requires routes[i].Handler.None?
    ensures RoutesOutcome(routes, |routes|, group, m, middlewares)
      == Outcome(RoutesOutcome(routes, i, group, m, middlewares).regs, Some(MissingHandler(routes[i].Path)))
  {
    var before := RoutesOutcome(routes, i, group, m, middlewares);
    RoutesSucceed(routes, i, group, m, middlewares);
    assert RoutesOutcome(routes, i + 1, group, m, middlewares) == Outcome(before.regs + [], Some(MissingHandler(routes[i].Path)));
    assert before.regs + [] == before.regs;
    RoutesStop(routes, i + 1, |routes|, group, m, middlewares);
  }

  // ---------------------------------------------------------------------
  // REST groups
  // ---------------------------------------------------------------------

  /**
    The Routes a REST group is rebuilt with never lack a handler, and they
    yield exactly one endpoint per slot that has a handler, under that
    slot's method.
  */
  lemma RestEndpoints(slots: map<string, Route>, group: Scope, middlewares: seq<Id>)
    ensures MissingHandlers(RestRoutes(slots)) == {}
    ensures OwnEndpoints(RestRoutes(slots), group, middlewares) ==
      set m | m in slots && slots[m].Handler.Some? :: Endpoint(group, m, slots[m], middlewares)
  {
  }
}
