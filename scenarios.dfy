/**
  The situations exercised by router_test.go and engine_test.go, stated as
  facts about the build functions: which routes end up registered, with
  which paths and chains, and which error is returned. `global` stands for
  the middlewares of the gin engine the tests start from.
*/
module GimletScenarios {
  import opened Wrappers
  import opened Gin
  import opened Gimlet
  import opened GimletProps
  import opened GimletEngine

  /** A map with no keys can only be iterated as the empty order. */
  lemma EnumeratesNone(order: seq<string>)
    requires Enumerates(order, {})
    ensures order == []
  {
    if order != [] {
      Member(order, 0);
      assert false;
    }
  }

  /** An element read at an index of a sequence is one of its members. */
  lemma Member(order: seq<string>, i: nat)
    requires i < |order|
    ensures order[i] in order
  {
  }

  /** A map with a single key can only be iterated as that key alone. */
  lemma EnumeratesOne(order: seq<string>, key: string)
    requires Enumerates(order, {key})
    ensures order == [key]
  {
    assert key in order;
    Member(order, 0);
    if |order| > 1 {
      Member(order, 1);
      assert false;
    }
  }

  /** The loop over a Routes map with no methods registers nothing. */
  lemma NoMethods(g: RouterGroup, sched: Schedule, group: Scope)
    requires Fits(g, sched) && g.Routes == map[]
    ensures MethodsOutcome(g.Routes, sched.methods, |sched.methods|, group, g.Middlewares) == Done
  {
    assert g.Routes.Keys == {};
    EnumeratesNone(sched.methods);
  }

  /** The loop over a Routes map with one method and one route is that route's `apply`. */
  lemma OneMethod(g: RouterGroup, sched: Schedule, group: Scope, m: string, r: Route)
    requires Fits(g, sched) && g.Routes == map[m := [r]]
    ensures MethodsOutcome(g.Routes, sched.methods, |sched.methods|, group, g.Middlewares) == RouteOutcome(r, group, m, g.Middlewares)
  {
    assert g.Routes.Keys == {m};
    EnumeratesOne(sched.methods, m);
    assert RoutesOutcome([r], 1, group, m, g.Middlewares) == Then(Done, RouteOutcome(r, group, m, g.Middlewares));
  }

  /** The loop over a single subgroup is that subgroup's `Apply`. */
  lemma OneSub(g: RouterGroup, sched: Schedule, group: Scope)
    requires Fits(g, sched) && |g.SubGroups| == 1
    ensures SubsOutcome(g, sched, group, 1) == GroupOutcome(g.SubGroups[0], group, sched.subs[0])
  {
    assert Fits(g.SubGroups[0], sched.subs[0]);
    assert SubsOutcome(g, sched, group, 0) == Done;
  }

  /** A group without hooks is its routes followed by its subgroups. */
  lemma NoHooks(g: RouterGroup, parent: Scope, sched: Schedule)
    requires Fits(g, sched) && g.PreFunc == Absent && g.PostFunc == Absent
    ensures GroupOutcome(g, parent, sched) == Contents(g, sched, Mount(parent, g))
  {
  }

  /** The root group the router tests apply their groups to: `router.Group("")`. */
  function TestRoot(global: seq<Id>): Scope
  {
    Group(Scope("/", global), "")
  }

  /** A group with nothing but routes. */
  function Plain(basePath: string, routes: map<string, seq<Route>>, subGroups: seq<RouterGroup>): RouterGroup
  {
    RouterGroup(basePath, [], [], routes, Absent, Absent, subGroups)
  }

  /** The "/nested" group of router_test.go:46-61: one GET route with handler `h`. */
  function Nested(h: Id): RouterGroup
  {
    Plain("/nested", map["GET" := [Route("", Some(h), [])]], [])
  }

  /** The "/nested" group applied below "/test" registers its GET route at "/test/nested". */
  lemma NestedGroupScenario(global: seq<Id>, h: Id, sched: Schedule)
    requires Fits(Nested(h), sched)
    ensures GroupOutcome(Nested(h), Scope("/test", global), sched)
      == Outcome([Registration("GET", "/test/nested", global + [h])], None)
  {
    var sub := Nested(h);
    var parent := Scope("/test", global);
    var inner := Mount(parent, sub);
    assert Join("/test", "/nested") == "/test/nested";
    assert inner == Scope("/test/nested", global + []);
    assert global + [] == global;
    NoHooks(sub, parent, sched);
    OneMethod(sub, sched, inner, "GET", Route("", Some(h), []));
    assert global + ([] + [] + [h]) == global + [h];
    assert Contents(sub, sched, inner)
      == Then(RouteOutcome(Route("", Some(h), []), inner, "GET", []), SubsOutcome(sub, sched, inner, 0));
  }

  /** router_test.go:46-61: a GET route in "/nested" below "/test" is served at "/test/nested". */
  lemma NestedScenario(global: seq<Id>, h: Id, sched: Schedule)
    requires Fits(Plain("/test", map[], [Nested(h)]), sched)
    ensures GroupOutcome(Plain("/test", map[], [Nested(h)]), TestRoot(global), sched)
      == Outcome([Registration("GET", "/test/nested", global + [h])], None)
  {
    var g := Plain("/test", map[], [Nested(h)]);
    var root := TestRoot(global);
    assert root == Scope("/", global);
    var group := Mount(root, g);
    assert Join("/", "/test") == "/test";
    assert group == Scope("/test", global + []);
    assert global + [] == global;
    NoHooks(g, root, sched);
    NoMethods(g, sched, group);
    OneSub(g, sched, group);
    assert Fits(Nested(h), sched.subs[0]);
    NestedGroupScenario(global, h, sched.subs[0]);
    assert Contents(g, sched, group) == Then(Done, SubsOutcome(g, sched, group, 1));
  }

  /** router_test.go:101-124: a route's own middleware runs after the inherited chain and before its handler. */
  lemma MiddlewareScenario(global: seq<Id>, h: Id, mw: Id, sched: Schedule)
    requires Fits(Plain("", map["GET" := [Route("", Some(h), [mw])]], []), sched)
    ensures GroupOutcome(Plain("", map["GET" := [Route("", Some(h), [mw])]], []), TestRoot(global), sched)
      == Outcome([Registration("GET", "/", global + [mw, h])], None)
  {
    var g := Plain("", map["GET" := [Route("", Some(h), [mw])]], []);
    var group := Mount(TestRoot(global), g);
    assert group == Scope("/", global);
    NoHooks(g, TestRoot(global), sched);
    OneMethod(g, sched, group, "GET", Route("", Some(h), [mw]));
    assert global + ([] + [mw] + [h]) == global + [mw, h];
  }

  /** router_test.go:35-44: a route without a handler is an error naming its path. */
  lemma NilHandlerScenario(global: seq<Id>, sched: Schedule)
    requires Fits(Plain("", map["GET" := [Route("", None, [])]], []), sched)
    ensures GroupOutcome(Plain("", map["GET" := [Route("", None, [])]], []), TestRoot(global), sched)
      == Outcome([], Some(MissingHandler("")))
  {
    var g := Plain("", map["GET" := [Route("", None, [])]], []);
    NoHooks(g, TestRoot(global), sched);
    OneMethod(g, sched, Mount(TestRoot(global), g), "GET", Route("", None, []));
  }

  /** router_test.go:64-77: the PreFunc error of a subgroup is the error of the whole group. */
  lemma SubGroupPreFuncScenario(global: seq<Id>, reason: nat, sched: Schedule)
    requires Fits(Plain("", map[], [RouterGroup("", [], [], map[], Fails(HookFailure(reason)), Absent, [])]), sched)
    ensures GroupOutcome(Plain("", map[], [RouterGroup("", [], [], map[], Fails(HookFailure(reason)), Absent, [])]), TestRoot(global), sched)
      == Outcome([], Some(HookFailure(reason)))
  {
    var sub := RouterGroup("", [], [], map[], Fails(HookFailure(reason)), Absent, []);
    var g := Plain("", map[], [sub]);
    var group := Mount(TestRoot(global), g);
    NoHooks(g, TestRoot(global), sched);
    NoMethods(g, sched, group);
    OneSub(g, sched, group);
  }

  /** The group of router_test.go:18-26: GET, POST, PATCH and DELETE on "/test", all with handler `h`. */
  function FourMethods(h: Id): RouterGroup
  {
    var r := Route("", Some(h), []);
    Plain("/test", map["GET" := [r], "POST" := [r], "PATCH" := [r], "DELETE" := [r]], [])
  }

  /** The endpoints of that group: the four methods at "/test", each with chain `global + [h]`. */
  lemma FourMethodsEndpoints(global: seq<Id>, h: Id)
    ensures forall x :: x in Endpoints(FourMethods(h), TestRoot(global)) <==>
      x.path == "/test" && x.chain == global + [h] && x.httpMethod in {"GET", "POST", "PATCH", "DELETE"}
  {
    var r := Route("", Some(h), []);
    var g := FourMethods(h);
    var group := Mount(TestRoot(global), g);
    assert group.chain == global;
    assert group == Scope("/test", global);
    var es := Endpoints(g, TestRoot(global));
    assert SubEndpoints(g, group) == {};
    assert es == OwnEndpoints(g.Routes, group, []);
    assert global + ([] + [] + [h]) == global + [h];
    forall x | x in es
      ensures x.path == "/test" && x.chain == global + [h] && x.httpMethod in {"GET", "POST", "PATCH", "DELETE"}
    {
      var m: string, q: Route :| m in g.Routes && q in g.Routes[m] && q.Handler.Some? && x == Endpoint(group, m, q, []);
      assert q == r;
    }
    forall x: Registration | x.path == "/test" && x.chain == global + [h] && x.httpMethod in {"GET", "POST", "PATCH", "DELETE"}
      ensures x in es
    {
      assert r in g.Routes[x.httpMethod];
      assert Endpoint(group, x.httpMethod, r, []) == x;
    }
  }

  /**
    router_test.go:12-33: whatever order the map is iterated in, the build
    succeeds and registers exactly the four routes.
  */
  lemma FourMethodsScenario(global: seq<Id>, h: Id, sched: Schedule)
    requires Fits(FourMethods(h), sched)
    ensures GroupOutcome(FourMethods(h), TestRoot(global), sched).err.None?
    ensures forall x :: x in GroupOutcome(FourMethods(h), TestRoot(global), sched).regs <==>
      x.path == "/test" && x.chain == global + [h] && x.httpMethod in {"GET", "POST", "PATCH", "DELETE"}
  {
    var g := FourMethods(h);
    assert Buildable(g);
    GroupSucceeds(g, TestRoot(global), sched);
    GroupSound(g, TestRoot(global), sched);
    GroupComplete(g, TestRoot(global), sched);
    FourMethodsEndpoints(global, h);
  }

  /** The slots of the REST test: only GET has a handler. */
  lemma OnlyGetSlot(get: Route, none: Route)
    requires get.Handler.Some? && none.Handler.None?
    ensures RestRoutes(map["GET" := get, "POST" := none, "PATCH" := none, "PUT" := none, "DELETE" := none]) == map["GET" := [get]]
  {
  }

  /**
    router_test.go:127-140: a REST group with only a GET slot registers
    that one route and nothing for the four empty slots.
  */
  method RestScenario(router: Router, h: Id, order: seq<string>) returns (res: Result<Scope>)
    requires Enumerates(order, {"GET", "POST", "PATCH", "PUT", "DELETE"})
    modifies router`registrations
    ensures res.Ok?
    ensures router.registrations == old(router.registrations) + [Registration("GET", "/test", router.global + [h])]
  {
    var get := Route("/test", Some(h), []);
    var none := Route("", None, []);
    var rest := new RestRouterGroup(get, none, none, none, none, Plain("", map[], []));
    assert rest.Slots() == map["GET" := get, "POST" := none, "PATCH" := none, "PUT" := none, "DELETE" := none];
    OnlyGetSlot(get, none);
    var sched := Schedule(["GET"], []);
    var parent := Group(router.Root(), "");
    RestGetOutcome(router.global, h, parent, sched);
    res := rest.Apply(router, parent, order, sched);
  }

  /** The group a REST group with only a GET slot applies, once its Routes are rebuilt. */
  lemma RestGetOutcome(global: seq<Id>, h: Id, parent: Scope, sched: Schedule)
    requires parent == Group(Scope("/", global), "") && sched == Schedule(["GET"], [])
    ensures Fits(Plain("", map["GET" := [Route("/test", Some(h), [])]], []), sched)
    ensures GroupOutcome(Plain("", map["GET" := [Route("/test", Some(h), [])]], []), parent, sched)
      == Outcome([Registration("GET", "/test", global + [h])], None)
  {
    var get := Route("/test", Some(h), []);
    var base := Plain("", map["GET" := [get]], []);
    assert base.Routes.Keys == {"GET"};
    assert Fits(base, sched);
    var group := Mount(parent, base);
    assert group.chain == global;
    assert group == Scope("/", global);
    NoHooks(base, parent, sched);
    OneMethod(base, sched, group, "GET", get);
    assert Join("/", "/test") == "/test";
    assert global + ([] + [] + [h]) == global + [h];
  }

  /** engine_test.go:22-65: the three groups of the engine test. */
  function EngineTest(global: Id, get: Id, post: Id, patch: Id): Engine
  {
    Engine([global],
      [Plain("", map["GET" := [Route("", Some(get), [])]], []),
       Plain("/test", map["POST" := [Route("", Some(post), [])]],
         [Plain("", map["PATCH" := [Route("/patch", Some(patch), [])]], [])])],
      Absent, Absent)
  }

  /**
    engine_test.go:63-65: `New` registers GET "/", POST "/test" and PATCH
    "/test/patch", in that order, each behind the global middleware.
  */
  lemma EngineScenario(global: Id, get: Id, post: Id, patch: Id, scheds: seq<Schedule>)
    requires FitsAll(EngineTest(global, get, post, patch).RouterGroups, scheds)
    ensures EngineOutcome(EngineTest(global, get, post, patch), scheds) == Outcome([
      Registration("GET", "/", [global, get]),
      Registration("POST", "/test", [global, post]),
      Registration("PATCH", "/test/patch", [global, patch])], None)
  {
    var e := EngineTest(global, get, post, patch);
    var g1 := e.RouterGroups[0];
    var g2 := e.RouterGroups[1];
    var root := Controller(e);
    assert root == Scope("/", [global]);
    assert Fits(e.RouterGroups[0], scheds[0]) && Fits(e.RouterGroups[1], scheds[1]);
    var getReg := GroupOutcome(g1, root, scheds[0]);
    var postRegs := GroupOutcome(g2, root, scheds[1]);
    LeafScenario(g1, root, scheds[0], "GET", Route("", Some(get), []));
    assert Mount(root, g1).chain == [global];
    assert Mount(root, g1) == root;
    assert [global] + ([] + [] + [get]) == [global, get];
    assert getReg == Outcome([Registration("GET", "/", [global, get])], None);
    TestGroupScenario(g2, root, scheds[1], global, post, patch);
    assert GroupsOutcome(e.RouterGroups, scheds, root, 1) == getReg;
    assert GroupsOutcome(e.RouterGroups, scheds, root, 2) == Outcome(getReg.regs + postRegs.regs, None);
  }

  /** A group with one route, no subgroups and no hooks registers just that route. */
  lemma LeafScenario(g: RouterGroup, parent: Scope, sched: Schedule, m: string, r: Route)
    requires Fits(g, sched) && g.Routes == map[m := [r]] && g.SubGroups == []
    requires g.PreFunc == Absent && g.PostFunc == Absent
    ensures GroupOutcome(g, parent, sched) == RouteOutcome(r, Mount(parent, g), m, g.Middlewares)
  {
    NoHooks(g, parent, sched);
    OneMethod(g, sched, Mount(parent, g), m, r);
  }

  /** engine_test.go:39-58: the "/test" group with its POST route and its PATCH subgroup. */
  lemma TestGroupScenario(g: RouterGroup, root: Scope, sched: Schedule, global: Id, post: Id, patch: Id)
    requires g == Plain("/test", map["POST" := [Route("", Some(post), [])]],
      [Plain("", map["PATCH" := [Route("/patch", Some(patch), [])]], [])])
    requires root == Scope("/", [global])
    requires Fits(g, sched)
    ensures GroupOutcome(g, root, sched) == Outcome([
      Registration("POST", "/test", [global, post]),
      Registration("PATCH", "/test/patch", [global, patch])], None)
  {
    var group := Mount(root, g);
    assert group.chain == [global];
    assert group == Scope("/test", [global]);
    NoHooks(g, root, sched);
    PostMethodScenario(g, sched, group, global, post);
    OneSub(g, sched, group);
    PatchGroupScenario(g.SubGroups[0], group, sched.subs[0], global, patch);
    var postReg := Registration("POST", "/test", [global, post]);
    var patchReg := Registration("PATCH", "/test/patch", [global, patch]);
    assert [postReg] + [patchReg] == [postReg, patchReg];
  }

  /** engine_test.go:41-45: the POST route of "/test". */
  lemma PostMethodScenario(g: RouterGroup, sched: Schedule, group: Scope, global: Id, post: Id)
    requires Fits(g, sched) && g.Routes == map["POST" := [Route("", Some(post), [])]] && g.Middlewares == []
    requires group == Scope("/test", [global])
    ensures MethodsOutcome(g.Routes, sched.methods, |sched.methods|, group, g.Middlewares)
      == Outcome([Registration("POST", "/test", [global, post])], None)
  {
    OneMethod(g, sched, group, "POST", Route("", Some(post), []));
    assert [global] + ([] + [] + [post]) == [global, post];
  }

  /** engine_test.go:47-56: the subgroup of "/test" with its PATCH route at "/patch". */
  lemma PatchGroupScenario(sub: RouterGroup, group: Scope, sched: Schedule, global: Id, patch: Id)
    requires sub == Plain("", map["PATCH" := [Route("/patch", Some(patch), [])]], [])
    requires group == Scope("/test", [global])
    requires Fits(sub, sched)
    ensures GroupOutcome(sub, group, sched) == Outcome([Registration("PATCH", "/test/patch", [global, patch])], None)
  {
    LeafScenario(sub, group, sched, "PATCH", Route("/patch", Some(patch), []));
    assert Mount(group, sub).chain == [global];
    assert Mount(group, sub) == group;
    assert Join("/test", "/patch") == "/test/patch";
    assert [global] + ([] + [] + [patch]) == [global, patch];
  }
}
