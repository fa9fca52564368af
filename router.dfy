/**
  router.go: the declarative route tree (`Route`, `RouterGroup`,
  `RestRouterGroup`) and the traversal that registers it on a gin router.

  The traversal is given twice: as the methods `Route.Apply`,
  `RouterGroup.Apply` and `RestRouterGroup.Apply`, which loop and register
  routes by side effect the way the Go code does, and as the functions
  `RouteOutcome`, `RoutesOutcome`, `MethodsOutcome`, `SubsOutcome` and
  `GroupOutcome`, which say what registrations a call makes and which error
  it stops with. Each method is proved to do what its function says; the
  properties of the functions are proved in module GimletProps.
*/
module Gimlet {
  import opened Wrappers
  import opened Gin

  /** The errors the build returns. */
  datatype Error =
    | MissingHandler(path: string)  // "handler is nil for route <path>"
    | HookFailure(reason: nat)      // whatever a PreFunc or PostFunc returned

  /** A Go `(value, error)` pair where exactly one side is meaningful. */
  datatype Result<+T> = Ok(value: T) | Err(error: Error)

  /**
    A `PreFunc` or `PostFunc` slot: nil, or the outcome of its one call
    during the build (the function body itself is not modelled).
  */
  datatype Hook = Absent | Succeeds | Fails(error: Error)

  /** A single route; a `None` handler is Go's nil function. */
  datatype Route = Route(Path: string, Handler: Option<Id>, Middlewares: seq<Id>)
  {
    /** `Route.apply`: registers this route on `group` or reports its missing handler. */
    method Apply(router: Router, group: Scope, httpMethod: string, middlewares: seq<Id>) returns (err: Option<Error>)
      modifies router`registrations
      ensures err == RouteOutcome(this, group, httpMethod, middlewares).err
      ensures router.registrations == old(router.registrations) + RouteOutcome(this, group, httpMethod, middlewares).regs
      ensures Handler.None? ==> err == Some(MissingHandler(Path)) && router.registrations == old(router.registrations)
      ensures Handler.Some? ==>
        err == None &&
        router.registrations == old(router.registrations) +
          [Registration(httpMethod, Join(group.prefix, Path), group.chain + middlewares + Middlewares + [Handler.value])]
    {
      if Handler.None? {
        return Some(MissingHandler(Path));
      }
      var chain := middlewares;
      if Middlewares != [] {
        chain := chain + Middlewares;
      }
      assert chain == middlewares + Middlewares;
      router.Handle(group, httpMethod, Path, chain + [Handler.value]);
      assert group.chain + (chain + [Handler.value]) == group.chain + middlewares + Middlewares + [Handler.value];
      return None;
    }
  }

  /** A group of routes sharing a base path and middlewares, with nested groups. */
  datatype RouterGroup = RouterGroup(
    BasePath: string,
    Middlewares: seq<Id>,
    PersistentMiddlewares: seq<Id>,
    Routes: map<string, seq<Route>>,
    PreFunc: Hook,
    PostFunc: Hook,
    SubGroups: seq<RouterGroup>)
  {
    /**
      `RouterGroup.Apply`: mounts the group under `parent`, registers its
      routes (methods in the order `sched` gives for Go's map iteration),
      then its subgroups, running the hooks around them.
    */
    method Apply(router: Router, parent: Scope, sched: Schedule) returns (res: Result<Scope>)
      requires Fits(this, sched)
      modifies router`registrations
      decreases this, 2
      ensures router.registrations == old(router.registrations) + GroupOutcome(this, parent, sched).regs
      ensures res == AsResult(GroupOutcome(this, parent, sched), Mount(parent, this))
    {
      if PreFunc.Fails? {
        return Err(PreFunc.error);
      }
      var group := Group(parent, BasePath);
      group := Use(group, PersistentMiddlewares);

      var err := ApplyContents(router, group, sched);
      if err.Some? {
        return Err(err.value);
      }

      if PostFunc.Fails? {
        return Err(PostFunc.error);
      }
      return Ok(group);
    }

    /** The middle of `Apply`: the group's own routes, then its subgroups, stopping at the first error. */
    method ApplyContents(router: Router, group: Scope, sched: Schedule) returns (err: Option<Error>)
      requires Fits(this, sched)
      modifies router`registrations
      decreases this, 1
      ensures router.registrations == old(router.registrations) + Contents(this, sched, group).regs
      ensures err == Contents(this, sched, group).err
    {
      ghost var own := MethodsOutcome(Routes, sched.methods, |sched.methods|, group, Middlewares);
      ghost var subs := SubsOutcome(this, sched, group, |SubGroups|);
      err := RegisterRoutes(router, group, sched.methods);
      if err.Some? {
        return;
      }
      err := ApplySubGroups(router, group, sched);
      AppendAssoc(old(router.registrations), own.regs, subs.regs);
    }

    /** The loop over `Routes` in `Apply`, visiting the methods in `order`. */
    method RegisterRoutes(router: Router, group: Scope, order: seq<string>) returns (err: Option<Error>)
      requires forall m :: m in order ==> m in Routes
      modifies router`registrations
      ensures router.registrations == old(router.registrations) + MethodsOutcome(Routes, order, |order|, group, Middlewares).regs
      ensures err == MethodsOutcome(Routes, order, |order|, group, Middlewares).err
    {
      var i := 0;
      while i < |order|
        invariant 0 <= i <= |order|
        invariant router.registrations == old(router.registrations) + MethodsOutcome(Routes, order, i, group, Middlewares).regs
        invariant MethodsOutcome(Routes, order, i, group, Middlewares).err.None?
      {
        ghost var done := MethodsOutcome(Routes, order, i, group, Middlewares);
        ghost var next := RoutesOutcome(Routes[order[i]], |Routes[order[i]]|, group, order[i], Middlewares);
        assert MethodsOutcome(Routes, order, i + 1, group, Middlewares) == Outcome(done.regs + next.regs, next.err);
        err := RegisterMethod(router, group, order[i], Routes[order[i]]);
        AppendAssoc(old(router.registrations), done.regs, next.regs);
        if err.Some? {
          MethodsStop(Routes, order, i + 1, |order|, group, Middlewares);
          return;
        }
        i := i + 1;
      }
      return None;
    }

    /** The inner loop of `Apply` over the routes of one method, stopping at the first error. */
    method RegisterMethod(router: Router, group: Scope, httpMethod: string, routes: seq<Route>) returns (err: Option<Error>)
      modifies router`registrations
      ensures router.registrations == old(router.registrations) + RoutesOutcome(routes, |routes|, group, httpMethod, Middlewares).regs
      ensures err == RoutesOutcome(routes, |routes|, group, httpMethod, Middlewares).err
    {
      var j := 0;
      while j < |routes|
        invariant 0 <= j <= |routes|
        invariant router.registrations == old(router.registrations) + RoutesOutcome(routes, j, group, httpMethod, Middlewares).regs
        invariant RoutesOutcome(routes, j, group, httpMethod, Middlewares).err.None?
      {
        ghost var done := RoutesOutcome(routes, j, group, httpMethod, Middlewares);
        ghost var next := RouteOutcome(routes[j], group, httpMethod, Middlewares);
        assert RoutesOutcome(routes, j + 1, group, httpMethod, Middlewares) == Outcome(done.regs + next.regs, next.err);
        err := routes[j].Apply(router, group, httpMethod, Middlewares);
        AppendAssoc(old(router.registrations), done.regs, next.regs);
        if err.Some? {
          RoutesStop(routes, j + 1, |routes|, group, httpMethod, Middlewares);
          return;
        }
        j := j + 1;
      }
      return None;
    }

    /** The loop over `SubGroups` in `Apply`: each is applied to `group`, stopping at the first error. */
    method ApplySubGroups(router: Router, group: Scope, sched: Schedule) returns (err: Option<Error>)
      requires Fits(this, sched)
      modifies router`registrations
      decreases this, 0
      ensures router.registrations == old(router.registrations) + SubsOutcome(this, sched, group, |SubGroups|).regs
      ensures err == SubsOutcome(this, sched, group, |SubGroups|).err
    {
      var k := 0;
      while k < |SubGroups|
        invariant 0 <= k <= |SubGroups|
        invariant router.registrations == old(router.registrations) + SubsOutcome(this, sched, group, k).regs
        invariant SubsOutcome(this, sched, group, k).err.None?
      {
        ghost var done := SubsOutcome(this, sched, group, k);
        ghost var next := GroupOutcome(SubGroups[k], group, sched.subs[k]);
        assert SubsOutcome(this, sched, group, k + 1) == Outcome(done.regs + next.regs, next.err);
        var r := SubGroups[k].Apply(router, group, sched.subs[k]);
        AppendAssoc(old(router.registrations), done.regs, next.regs);
        if r.Err? {
          SubsStop(this, sched, group, k + 1, |SubGroups|);
          return Some(r.error);
        }
        k := k + 1;
      }
      return None;
    }
  }

  /**
    One possible run of Go's randomised map iteration: for each group of
    the tree, the order in which `range rg.Routes` visits the methods.
  */
  datatype Schedule = Schedule(methods: seq<string>, subs: seq<Schedule>)

  /** `order` lists every key exactly once. */
  predicate Enumerates(order: seq<string>, keys: set<string>)
  {
    (forall i, j :: 0 <= i < j < |order| ==> order[i] != order[j]) &&
    (forall k :: k in order ==> k in keys) &&
    (forall k :: k in keys ==> k in order)
  }

  /** `sched` is an iteration order the Go runtime may pick for the tree `g`. */
  predicate Fits(g: RouterGroup, sched: Schedule)
    decreases g
  {
    Enumerates(sched.methods, g.Routes.Keys) &&
    |sched.subs| == |g.SubGroups| &&
    forall k {:trigger Fits(g.SubGroups[k], sched.subs[k])} :: 0 <= k < |g.SubGroups| ==> Fits(g.SubGroups[k], sched.subs[k])
  }

  /** What (part of) a build did: the routes it registered, in order, and the error it stopped at. */
  datatype Outcome = Outcome(regs: seq<Registration>, err: Option<Error>)

  const Done := Outcome([], None)

  /** Runs `next` only if `first` did not fail; nothing is rolled back. */
  function Then(first: Outcome, next: Outcome): Outcome
  {
    if first.err.Some? then first else Outcome(first.regs + next.regs, next.err)
  }

  function HookOutcome(h: Hook): Outcome
  {
    if h.Fails? then Outcome([], Some(h.error)) else Done
  }

  /** The Go return value of an `Apply` that mounted `group` and ended with `o`. */
  function AsResult(o: Outcome, group: Scope): Result<Scope>
  {
    if o.err.Some? then Err(o.err.value) else Ok(group)
  }

  /** The scope a group's routes and subgroups are registered on: `parent.Group(BasePath)` after `Use(PersistentMiddlewares...)`. */
  function Mount(parent: Scope, g: RouterGroup): Scope
  {
    Use(Group(parent, g.BasePath), g.PersistentMiddlewares)
  }

  /** `r.apply(group, httpMethod, middlewares)` (router.go:54-63). */
  function RouteOutcome(r: Route, group: Scope, httpMethod: string, middlewares: seq<Id>): Outcome
  {
    if r.Handler.None? then Outcome([], Some(MissingHandler(r.Path)))
    else Outcome([Handled(group, httpMethod, r.Path, middlewares + r.Middlewares + [r.Handler.value])], None)
  }

  /** The first `n` iterations of the loop over the routes of one method. */
  function RoutesOutcome(routes: seq<Route>, n: nat, group: Scope, httpMethod: string, middlewares: seq<Id>): Outcome
    requires n <= |routes|
  {
    if n == 0 then Done
    else Then(RoutesOutcome(routes, n - 1, group, httpMethod, middlewares),
              RouteOutcome(routes[n - 1], group, httpMethod, middlewares))
  }

  /** The first `n` iterations of the loop over the methods of a Routes map, in the order `order`. */
  function MethodsOutcome(routes: map<string, seq<Route>>, order: seq<string>, n: nat, group: Scope, middlewares: seq<Id>): Outcome
    requires n <= |order|
    requires forall m :: m in order ==> m in routes
  {
    if n == 0 then Done
    else Then(MethodsOutcome(routes, order, n - 1, group, middlewares),
              RoutesOutcome(routes[order[n - 1]], |routes[order[n - 1]]|, group, order[n - 1], middlewares))
  }

  /** `RouterGroup.Apply(parent)` as a whole (router.go:66-95). */
  function GroupOutcome(g: RouterGroup, parent: Scope, sched: Schedule): Outcome
    requires Fits(g, sched)
    decreases g, 2, 0
  {
    Then(HookOutcome(g.PreFunc), Then(Contents(g, sched, Mount(parent, g)), HookOutcome(g.PostFunc)))
  }

  /** The routes of `g` and then its subgroups, registered on the mounted scope `group`. */
  function Contents(g: RouterGroup, sched: Schedule, group: Scope): Outcome
    requires Fits(g, sched)
    decreases g, 1, 0
  {
    Then(MethodsOutcome(g.Routes, sched.methods, |sched.methods|, group, g.Middlewares),
      SubsOutcome(g, sched, group, |g.SubGroups|))
  }

  /** The first `n` iterations of the loop over `g.SubGroups`, each applied to `group`. */
  function SubsOutcome(g: RouterGroup, sched: Schedule, group: Scope, n: nat): Outcome
    requires Fits(g, sched) && n <= |g.SubGroups|
    decreases g, 0, n
  {
    if n == 0 then Done
    else Then(SubsOutcome(g, sched, group, n - 1),
              GroupOutcome(g.SubGroups[n - 1], group, sched.subs[n - 1]))
  }

  /** Once a step of the route loop has failed, later iterations change nothing. */
  lemma {:induction false} RoutesStop(routes: seq<Route>, j: nat, n: nat, group: Scope, httpMethod: string, middlewares: seq<Id>)
    requires j <= n <= |routes|
    requires RoutesOutcome(routes, j, group, httpMethod, middlewares).err.Some?
    ensures RoutesOutcome(routes, n, group, httpMethod, middlewares) == RoutesOutcome(routes, j, group, httpMethod, middlewares)
    decreases n
  {
    if n > j {
      RoutesStop(routes, j, n - 1, group, httpMethod, middlewares);
    }
  }

  /** Once a step of the method loop has failed, later iterations change nothing. */
  lemma {:induction false} MethodsStop(routes: map<string, seq<Route>>, order: seq<string>, j: nat, n: nat, group: Scope, middlewares: seq<Id>)
    requires j <= n <= |order|
    requires forall m :: m in order ==> m in routes
    requires MethodsOutcome(routes, order, j, group, middlewares).err.Some?
    ensures MethodsOutcome(routes, order, n, group, middlewares) == MethodsOutcome(routes, order, j, group, middlewares)
    decreases n
  {
    if n > j {
      MethodsStop(routes, order, j, n - 1, group, middlewares);
    }
  }

  /** Once a subgroup has failed, the later subgroups are not applied. */
  lemma {:induction false} SubsStop(g: RouterGroup, sched: Schedule, group: Scope, j: nat, n: nat)
    requires Fits(g, sched) && j <= n <= |g.SubGroups|
    requires SubsOutcome(g, sched, group, j).err.Some?
    ensures SubsOutcome(g, sched, group, n) == SubsOutcome(g, sched, group, j)
    decreases n
  {
    if n > j {
      SubsStop(g, sched, group, j, n - 1);
    }
  }

  /** `GroupOutcome` as the sequence of early exits the Go code takes. */
  lemma GroupSteps(g: RouterGroup, parent: Scope, sched: Schedule)
    requires Fits(g, sched)
    ensures var own := MethodsOutcome(g.Routes, sched.methods, |sched.methods|, Mount(parent, g), g.Middlewares);
            var subs := SubsOutcome(g, sched, Mount(parent, g), |g.SubGroups|);
            var o := GroupOutcome(g, parent, sched);
            if g.PreFunc.Fails? then o == Outcome([], Some(g.PreFunc.error))
            else if own.err.Some? then o == own
            else if subs.err.Some? then o == Outcome(own.regs + subs.regs, subs.err)
            else if g.PostFunc.Fails? then o == Outcome(own.regs + subs.regs, Some(g.PostFunc.error))
            else o == Outcome(own.regs + subs.regs, None)
  {
  }

  lemma AppendAssoc<T>(a: seq<T>, b: seq<T>, c: seq<T>)
    ensures a + (b + c) == (a + b) + c
  {
  }

  /** The Routes map a REST group is rebuilt with: one singleton entry per slot that has a handler (router.go:99-112). */
  function RestRoutes(slots: map<string, Route>): map<string, seq<Route>>
  {
    map m | m in slots && slots[m].Handler.Some? :: [slots[m]]
  }

  /** The part of `RestRoutes(slots)` built after visiting the methods in `visited`. */
  function RestRoutesVisited(slots: map<string, Route>, visited: seq<string>): map<string, seq<Route>>
  {
    map m | m in visited && m in slots && slots[m].Handler.Some? :: [slots[m]]
  }

  lemma RestRoutesVisitedStep(slots: map<string, Route>, visited: seq<string>, m: string)
    requires m in slots
    ensures RestRoutesVisited(slots, visited + [m]) ==
      if slots[m].Handler.Some? then RestRoutesVisited(slots, visited)[m := [slots[m]]]
      else RestRoutesVisited(slots, visited)
  {
  }

  lemma RestRoutesVisitedAll(slots: map<string, Route>, order: seq<string>)
    requires forall m :: m in slots ==> m in order
    ensures RestRoutesVisited(slots, order) == RestRoutes(slots)
  {
  }

  /** A REST group: five named route slots over an embedded RouterGroup. */
  class RestRouterGroup {
    var GetRoute: Route
    var PostRoute: Route
    var PatchRoute: Route
    var PutRoute: Route
    var DeleteRoute: Route
    var Base: RouterGroup

    constructor (get: Route, post: Route, patch: Route, put: Route, delete: Route, base: RouterGroup)
      ensures GetRoute == get && PostRoute == post && PatchRoute == patch
      ensures PutRoute == put && DeleteRoute == delete && Base == base
    {
      GetRoute, PostRoute, PatchRoute, PutRoute, DeleteRoute := get, post, patch, put, delete;
      Base := base;
    }

    /** The method-to-slot map of router.go:100-106. */
    function Slots(): (slots: map<string, Route>)
      reads this`GetRoute, this`PostRoute, this`PatchRoute, this`PutRoute, this`DeleteRoute
    {
      map["GET" := GetRoute, "POST" := PostRoute, "PATCH" := PatchRoute, "PUT" := PutRoute, "DELETE" := DeleteRoute]
    }

    /**
      `RestRouterGroup.Apply`: rebuilds the embedded group's Routes from the
      slots (visiting the five methods in `order`, Go's map iteration order), then
      applies the embedded group.
    */
    method Apply(router: Router, parent: Scope, order: seq<string>, sched: Schedule) returns (res: Result<Scope>)
      requires Enumerates(order, Slots().Keys)
      requires Fits(Base.(Routes := RestRoutes(Slots())), sched)
      modifies this`Base, router`registrations
      ensures Base == old(Base).(Routes := RestRoutes(Slots()))
      ensures router.registrations == old(router.registrations) + GroupOutcome(Base, parent, sched).regs
      ensures res == AsResult(GroupOutcome(Base, parent, sched), Mount(parent, Base))
    {
      RebuildRoutes(order);
      res := Base.Apply(router, parent, sched);
    }

    /** The first half of `Apply`: replaces Routes with the slots that have a handler. */
    method RebuildRoutes(order: seq<string>)
      requires forall m :: m in order ==> m in Slots()
      requires forall m :: m in Slots() ==> m in order
      modifies this`Base
      ensures Base == old(Base).(Routes := RestRoutes(Slots()))
    {
      var routes := Slots();
      assert RestRoutesVisited(routes, []) == map[];
      Base := Base.(Routes := map[]);
      var i := 0;
      while i < |order|
        invariant 0 <= i <= |order|
        invariant Base == old(Base).(Routes := RestRoutesVisited(routes, order[..i]))
      {
        var httpMethod := order[i];
        var route := routes[httpMethod];
        RestRoutesVisitedStep(routes, order[..i], httpMethod);
        assert order[..i + 1] == order[..i] + [httpMethod];
        if route.Handler.Some? {
          Base := Base.(Routes := Base.Routes[httpMethod := [route]]);
        }
        i := i + 1;
      }
      assert order[..i] == order;
      RestRoutesVisitedAll(routes, order);
    }
  }
}
