# gimlet route-tree build, modelled in Dafny

gimlet (Go package `gimlet`) lets a program describe its HTTP routes for
the gin web framework as a tree. A `RouterGroup` has a base path, two
middleware lists (`PersistentMiddlewares`, which subgroups inherit, and
`Middlewares`, which only the group's own routes get), a map from HTTP
method to a list of `Route`s, optional `PreFunc`/`PostFunc` hooks and
nested `SubGroups`. A `RestRouterGroup` has five named route slots (GET,
POST, PATCH, PUT, DELETE) over an embedded group. `Engine.New` creates a
gin engine with global middlewares and applies a list of top-level groups
to its root group. These three `Apply`/`New` operations walk the tree once
and register every route on gin. The first error stops the whole build,
and nothing registered before it is undone.

This project models that build and proves what it registers:

- **Gin abstraction** (`gin.dfy`, module `Gin`). A scope (`Scope`) is a
  group's absolute prefix plus the handler chain it passes on. `Group`,
  `Use` and `Handled` are gin's `Group`, `Use` and `Handle` on scopes. The
  class `Router` stands for a gin engine. It keeps its global middlewares
  and the sequence of `(method, absolute path, chain)` registrations it
  has received. Its root group (`Root`) is the scope "/" carrying the
  global middlewares, as gin's engine is. Handlers and middlewares are
  opaque identifiers (`Id`).
- **router.go** (`router.dfy`, module `Gimlet`). `Route.Apply`,
  `RouterGroup.Apply` and `RestRouterGroup.Apply` are imperative methods
  with the source's loops and early returns. Each is proved equal to a
  specification function. `RouteOutcome`, `RoutesOutcome`,
  `MethodsOutcome`, `SubsOutcome` and `GroupOutcome` fold the loops into
  an `Outcome`: the registrations made, in order, and the error the build
  stopped at. `Then` chains two steps: it short-circuits on error and
  keeps what was already registered. A hook is an oracle result
  (`Absent`, `Succeeds` or `Fails(error)`). Go's random map iteration
  order is an explicit parameter. A `Schedule` gives, for every group of
  the tree, the order in which `range rg.Routes` visits the methods, and
  `RestRouterGroup.Apply` takes the order of its five-entry map.
- **Properties of router.go** (`router_props.dfy`, module `GimletProps`).
  `Endpoints(g, parent)` is the set of every route of a tree, with the path
  and chain it should get. It is defined by structure alone, with no
  iteration order, hooks or early exit. The build registers only such
  endpoints, even when it fails half-way. A successful build registers all
  of them. The build succeeds exactly when no hook fails and every route
  has a handler, and a failure reports the error of a hook or of a route
  without handler. From these follow the explicit path and chain of every
  route and subgroup route, order independence, and the hook and
  subgroup-failure rules.
- **engine.go** (`engine.dfy`, module `GimletEngine`). `Engine.New` is
  proved against `EngineOutcome`. Lemmas show that it registers exactly the
  endpoints of its groups on the root scope, that every chain starts with
  the global middlewares, and that it succeeds exactly when no hook fails
  and every route has a handler.
- **Test scenarios** (`scenarios.dfy`, module `GimletScenarios`). The
  expectations of router_test.go and engine_test.go, proved as exact
  outcomes of the functions above.

Paths are joined by `Join`. It merges the slash at the seam and leaves the
path unchanged for an empty segment. gin's root group is mounted at "/",
so `r.Group("")` is the scope "/", and the engine test's routes come out
as "/", "/test" and "/test/patch".

Points of the code the model keeps:

- `PreFunc` runs before the group's scope is created, and hooks take no
  arguments (router.go:67-73).
- `Engine.New` applies a list of groups, with global middlewares and its
  own hooks (engine.go:18-40).
- `SubGroups` and `Engine.RouterGroups` are `[]RouterGroup`
  (router.go:24, engine.go:10). A `RestRouterGroup` therefore appears only
  as a top-level entry point. engine_test.go is written against a
  different API (`BaseRoute`), so only its expectations are used, as a
  scenario.
- Methods are visited in Go's map order, which is unspecified, so every
  method order is allowed (`Schedule`), and order independence is proved.
- The specification functions follow the source spans named in their
  doc comments: `RouteOutcome` router.go:54-63, `GroupOutcome`
  router.go:66-95, `RestRoutes` and `RestRouterGroup.Slots`
  router.go:99-112, `EngineOutcome` engine.go:18-40, and `Join` the simple
  case of gin's `joinPaths` used at router.go:61 and router.go:72.
- A REST slot with a nil handler is skipped silently (router.go:109). A
  route with a nil handler in `Routes` is an error (router.go:55-57).

## Model

| member | source | states |
|---|---|---|
| Gin.JoinExtends | router.go:72 | a group's absolute path begins with its parent's prefix |
| Gin.Router.constructor | engine.go:25 | a new gin engine has no global middlewares and no routes |
| Gin.Router.Use | engine.go:26 | `r.Use` appends to the global middlewares and registers no route |
| Gin.Router.Handle | router.go:61 | `Handle` appends exactly one registration: the method, the scope prefix joined with the path, and the scope chain followed by the given handlers |
| Gimlet.Route.Apply | router.go:54-63 | a nil handler gives `MissingHandler(Path)` and registers nothing; otherwise exactly one registration under the method at the joined path, with chain group chain, then the passed middlewares, then the route's middlewares, then the handler |
| Gimlet.RouterGroup.Apply | router.go:66-95 | registrations grow by exactly the routes `GroupOutcome` lists; the result is the mounted scope (parent joined with BasePath, plus PersistentMiddlewares) or the first error |
| Gimlet.RouterGroup.ApplyContents | router.go:75-87 | own routes, then the subgroups, stopping at the first error, with nothing rolled back |
| Gimlet.RouterGroup.RegisterRoutes | router.go:75-81 | the loop over the methods in the given order registers the routes `MethodsOutcome` lists and returns its error |
| Gimlet.RouterGroup.RegisterMethod | router.go:76-80 | the loop over one method's routes registers them in list order up to the first route without a handler, and returns that error |
| Gimlet.RouterGroup.ApplySubGroups | router.go:83-87 | the subgroups are applied in list order to the group's scope, up to the first that fails, and that error is returned |
| Gimlet.RoutesStop | router.go:77-79 | after a route fails, later routes of the method change nothing |
| Gimlet.MethodsStop | router.go:75-81 | after a method's routes fail, later methods change nothing |
| Gimlet.SubsStop | router.go:83-87 | after a subgroup fails, later subgroups are not applied |
| Gimlet.GroupSteps | router.go:66-95 | the early exits of `Apply`: a failing PreFunc registers nothing; a route failure keeps the routes registered before it; a subgroup failure keeps own routes and earlier subgroups; a failing PostFunc keeps everything |
| Gimlet.RestRouterGroup.constructor | router.go:27-42 | the five slots and the embedded group are as given |
| Gimlet.RestRouterGroup.Apply | router.go:98-115 | the embedded group's Routes become exactly one singleton list per slot with a handler, and its other fields are unchanged; then the group is applied as `RouterGroup.Apply` |
| Gimlet.RestRouterGroup.RebuildRoutes | router.go:99-112 | whatever the visiting order, the old Routes are discarded and replaced by `RestRoutes(Slots())`, so rebuilding again gives the same map |
| GimletProps.EndpointsBelow | router.go:72-73 | every endpoint of a tree lies below the parent prefix joined with BasePath, and its chain starts with the inherited chain and PersistentMiddlewares |
| GimletProps.SubEndpointsBelow | router.go:83-85 | every subgroup endpoint lies below the group's scope and starts with its chain |
| GimletProps.RoutesSound | router.go:76-80 | the route loop registers only endpoints of its routes |
| GimletProps.RoutesSucceed | router.go:55-57 | the route loop fails exactly when a route it reaches has no handler |
| GimletProps.RoutesComplete | router.go:76-80 | a route loop that succeeds has registered every route it visited |
| GimletProps.RoutesError | router.go:55-57 | a failed route loop names the path of a route without handler |
| GimletProps.MethodsSound | router.go:75-81 | the method loop registers only endpoints of the Routes map |
| GimletProps.MethodsSucceed | router.go:75-81 | the method loop fails exactly when a route of a visited method has no handler |
| GimletProps.MethodsComplete | router.go:75-81 | a method loop that succeeds has registered every route of the visited methods |
| GimletProps.MethodsError | router.go:75-81 | a failed method loop reports a missing handler of the map |
| GimletProps.OwnFacts | router.go:75-81 | in any order that lists each method once, the loop registers exactly the own endpoints on success, succeeds iff every route has a handler, and otherwise reports a missing handler |
| GimletProps.GroupSound | router.go:66-95 | even a failed build registers only endpoints of the tree |
| GimletProps.SubsSound | router.go:83-87 | the subgroup loop registers only subgroup endpoints |
| GimletProps.GroupComplete | router.go:66-95 | a successful build has registered every endpoint of the tree |
| GimletProps.SubsComplete | router.go:83-87 | a successful subgroup loop has registered every endpoint of the subgroups it applied |
| GimletProps.GroupSucceeds | router.go:66-95 | the build succeeds exactly when no hook of the tree fails and every route has a handler |
| GimletProps.SubsSucceeds | router.go:83-87 | the subgroup loop succeeds exactly when every subgroup it reaches is buildable |
| GimletProps.GroupErrorOrigin | router.go:66-95 | the error of a failed build is, unchanged, a hook's error or the missing-handler error of some route of the tree |
| GimletProps.SubsErrorOrigin | router.go:83-87 | the error of the subgroup loop comes from one of the subgroups |
| GimletProps.OwnRouteRegistered | router.go:72-81 | after success, each own route is at Join(Join(parent, BasePath), Path) with chain parent chain, PersistentMiddlewares, Middlewares, route middlewares, handler |
| GimletProps.SubGroupRouteRegistered | router.go:72-87 | after success, a subgroup route is below the group's prefix, keeps the group's PersistentMiddlewares and does not get its plain Middlewares |
| GimletProps.OrderIndependent | router.go:75 | any two method iteration orders succeed or fail alike and, on success, register the same set of routes |
| GimletProps.PreFuncStops | router.go:67-71 | a failing PreFunc returns its error and registers nothing |
| GimletProps.PostFuncFailureKeepsRoutes | router.go:89-93 | when only the PostFunc fails, its error is returned and every route of the tree stays registered |
| GimletProps.RouteFailureStops | router.go:55-80 | the first route without handler ends the route loop with `MissingHandler` of its path; the routes before it stay registered and the ones after it are not reached |
| GimletProps.SubGroupFailureStops | router.go:83-87 | the first failing subgroup ends the loop with its error; earlier registrations stay, later subgroups are not applied |
| GimletProps.RestEndpoints | router.go:108-112 | a rebuilt REST Routes map never lacks a handler and yields exactly one endpoint per slot with a handler |
| GimletEngine.Engine.New | engine.go:18-40 | a failing PreFunc returns its error before any engine exists; otherwise success iff `EngineOutcome` succeeds, and a new engine whose global middlewares are `Middlewares` and whose routes are `EngineOutcome`'s |
| GimletEngine.Engine.ApplyGroups | engine.go:28-32 | the groups are applied in list order to the root scope up to the first error, which is returned |
| GimletEngine.GroupsStop | engine.go:28-32 | after a group fails, later groups are not applied |
| GimletEngine.GroupsSound | engine.go:28-32 | the group loop registers only endpoints of the groups |
| GimletEngine.GroupsComplete | engine.go:28-32 | a successful group loop has registered every endpoint of every group |
| GimletEngine.GroupsSucceed | engine.go:28-32 | the group loop succeeds exactly when every group is buildable |
| GimletEngine.EngineSucceeds | engine.go:18-40 | `New` succeeds exactly when neither engine hook fails and every group is buildable |
| GimletEngine.EngineRegistersExactly | engine.go:25-32 | a successful `New` registers exactly the union of the groups' endpoints on the root scope "/" |
| GimletEngine.EngineGlobalFirst | engine.go:26-27 | every registered chain starts with the global middlewares and every path with "/" |
| GimletEngine.GroupFailureStops | engine.go:29-31 | the first failing group ends the loop with its error; the earlier groups' routes stay |
| GimletScenarios.NestedGroupScenario | router_test.go:50-58 | the "/nested" group applied below "/test" registers exactly GET "/test/nested" behind the inherited chain |
| GimletScenarios.NestedScenario | router_test.go:46-61 | a GET route in "/nested" under "/test" is registered at "/test/nested" and nothing else is |
| GimletScenarios.MiddlewareScenario | router_test.go:101-124 | a route's own middleware comes after the inherited chain and before its handler |
| GimletScenarios.NilHandlerScenario | router_test.go:35-44 | a route without handler fails with its path and registers nothing |
| GimletScenarios.SubGroupPreFuncScenario | router_test.go:64-77 | a subgroup's PreFunc error is the error of the whole group |
| GimletScenarios.FourMethodsEndpoints | router_test.go:17-26 | the four routes of the test group are exactly GET, POST, PATCH and DELETE at "/test" |
| GimletScenarios.FourMethodsScenario | router_test.go:12-33 | whatever the map order, the test group builds and registers exactly those four routes |
| GimletScenarios.OnlyGetSlot | router_test.go:127-136 | with only the GET slot set, the rebuilt Routes hold just GET |
| GimletScenarios.RestScenario | router_test.go:127-140 | applying that REST group registers only GET "/test" |
| GimletScenarios.RestGetOutcome | router_test.go:127-140 | the rebuilt group builds to the single GET "/test" registration |
| GimletScenarios.EngineScenario | engine_test.go:22-65 | `New` registers GET "/", POST "/test" and PATCH "/test/patch", in that order, each behind the global middleware |
| GimletScenarios.TestGroupScenario | engine_test.go:39-58 | the "/test" group registers its POST route, then its subgroup's PATCH route |
| GimletScenarios.PostMethodScenario | engine_test.go:41-45 | the POST route of "/test" is registered at "/test" behind the global middleware |
| GimletScenarios.PatchGroupScenario | engine_test.go:47-56 | the subgroup of "/test" registers PATCH "/test/patch" |

## Left out

- HTTP serving is not modelled: request matching, 404/405 handling, `gin.Context`, and the bodies of handlers and middlewares (such as the DELETE-rejecting middleware at engine_test.go:24-30). Handlers and middlewares are opaque identifiers.
- Hook bodies and their side effects are not modelled. A hook is the result it returns (`Hook`), and each hook is called at most once per application of its group (a PostFunc is not called after an earlier failure). The result is fixed per group value, so a group listed twice in `SubGroups` gets the same hook result both times.
- gin's `joinPaths` also cleans paths with `path.Clean` and keeps a trailing slash. That code is not part of this model. `Join` only merges the slash at the seam and is the identity for an empty segment, which covers every path in the tests.
- Gin.JoinExtends, GimletProps.EndpointsBelow, GimletProps.SubEndpointsBelow: "every path lies below the parent's prefix" is proved for `Join`. In gin it holds only for path segments without ".", ".." or repeated slashes; gin's `path.Join` registers a route "../b" in group "/a" at "/b", where the model gives "/a/../b".
- gin panics when a method and path are registered twice, when a path does not start with '/', when a method does not match `^[A-Z]+$`, and when a chain holds 63 or more handlers. This is library behaviour outside gimlet and is not modelled. Duplicate registrations simply appear twice in the sequence.
- `gin.New` internals and gin's default middlewares are not modelled. The engine of the router tests is represented by its list of global middlewares.
- Go's randomised map iteration is not modelled as randomness. The order is an input (`Schedule`, `order`), and the properties hold for every order.
- Go slice aliasing from `append` on `rg.Middlewares` (router.go:59, 61) is not modelled. Chains are immutable sequences, and gin copies the chain on `Handle`.
- The loops of `RouterGroup.Apply` (router.go:66-95) are split into the helper methods `ApplyContents`, `RegisterRoutes`, `RegisterMethod` and `ApplySubGroups`, with the same order of effects.
- GimletEngine.Engine.New: the loop of engine.go:28-32 is the helper method `ApplyGroups`. On an error, the half-populated engine is discarded as in the source (`nil` is returned), so its registrations are not stated.
- The error messages' text (`fmt.Errorf`) is not modelled. An error is `MissingHandler(path)` or the hook's own error value.
