/** Optional values: a nil handler, a hook that returned no error. */
module Wrappers {
  datatype Option<+T> = None | Some(value: T)
}

/**
  The part of the gin HTTP library that the route-tree build touches:
  route groups (scopes), `Group`, `Use` and `Handle`. Handlers and
  middlewares are opaque identifiers; the engine is reduced to the
  sequence of (method, absolute path, handler chain) registrations it
  has received.
*/
module Gin {

  /** An opaque handler or middleware function. */
  type Id = nat

  /** A gin router group: its absolute base path and the handlers bound to it. */
  datatype Scope = Scope(prefix: string, chain: seq<Id>)

  /** One call to gin's `Handle` as the engine records it. */
  datatype Registration = Registration(httpMethod: string, path: string, chain: seq<Id>)

  /**
    Joins a group's absolute path with a relative segment, with exactly
    one '/' at the seam. An empty segment leaves the path as it is. This is
    the simple case of gin's `joinPaths`, used by `Group` and `Handle`
    (router.go:72, router.go:61); gin's `path.Clean` step is not modelled,
    see JoinExtends.
  */
  function Join(absolute: string, relative: string): string
  {
    if relative == "" then absolute
    else if absolute == "" then relative
    else if absolute[|absolute| - 1] == '/' && relative[0] == '/' then absolute + relative[1..]
    else if absolute[|absolute| - 1] == '/' || relative[0] == '/' then absolute + relative
    else absolute + "/" + relative
  }

  /**
    A joined path starts with the path it extends. This holds for `Join`;
    in gin it holds only for segments free of ".", ".." and repeated slashes,
    which `path.Clean` would remove.
  */
  lemma JoinExtends(absolute: string, relative: string)
    ensures absolute <= Join(absolute, relative)
  {
  }

  /** `group.Group(relativePath)`: a child scope that copies the parent's handlers. */
  function Group(s: Scope, relative: string): Scope
  {
    Scope(Join(s.prefix, relative), s.chain)
  }

  /** `group.Use(middlewares...)`: appends middlewares to the group's own handlers. */
  function Use(s: Scope, middlewares: seq<Id>): Scope
  {
    Scope(s.prefix, s.chain + middlewares)
  }

  /** The registration that `Handle(httpMethod, relative, handlers...)` on scope `s` records. */
  function Handled(s: Scope, httpMethod: string, relative: string, handlers: seq<Id>): Registration
  {
    Registration(httpMethod, Join(s.prefix, relative), s.chain + handlers)
  }

  /**
    A gin engine: the handlers of its root group (added with `Use`) and
    the routes registered so far.
  */
  class Router {
    var global: seq<Id>
    var registrations: seq<Registration>

    /** `gin.New()`: no global handlers, no routes. */
    constructor ()
      ensures global == [] && registrations == []
    {
      global := [];
      registrations := [];
    }

    /** The engine's root group: mounted at "/", carrying the global handlers. */
    function Root(): Scope
      reads this
    {
      Scope("/", global)
    }

    /** `engine.Use(middlewares...)`: appends to the root group's handlers. */
    method Use(middlewares: seq<Id>)
      modifies this`global
      ensures global == old(global) + middlewares
      ensures registrations == old(registrations)
    {
      global := global + middlewares;
    }

    /** `group.Handle(httpMethod, relative, handlers...)`: records one route, copying the chain. */
    method Handle(s: Scope, httpMethod: string, relative: string, handlers: seq<Id>)
      modifies this`registrations
      ensures registrations == old(registrations) + [Registration(httpMethod, Join(s.prefix, relative), s.chain + handlers)]
      ensures global == old(global)
    {
      registrations := registrations + [Handled(s, httpMethod, relative, handlers)];
    }
  }
}
