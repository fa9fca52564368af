/**
  engine.go: `Engine.New` builds a gin engine from a list of top-level
  route groups, with global middlewares and engine-level hooks.

  As in module Gimlet, the method `Engine.New` is proved to follow the
  function `EngineOutcome`, and the lemmas below state what that function
  promises: a successful build registers exactly the endpoints of its
  groups, every chain starts with the global middlewares, and the build
  succeeds exactly when no hook fails and every route has a handler.
*/
module GimletEngine {
  import opened Wrappers
  import opened Gin
  import opened Gimlet
  import opened GimletProps

  /** The description of a whole engine. */
  datatype Engine = Engine(
    Middlewares: seq<Id>,
    RouterGroups: seq<RouterGroup>,
    PreFunc: Hook,
    PostFunc: Hook)
  {
    /**
      `Engine.New`: runs the PreFunc, creates a gin engine with the global
      middlewares, applies the groups in list order to its root group and
      runs the PostFunc. `scheds[k]` is the map iteration order inside the
      `k`-th group.
    */
    method New(scheds: seq<Schedule>) returns (res: Result<Router>)
      requires FitsAll(RouterGroups, scheds)
      ensures res.Ok? <==> EngineOutcome(this, scheds).err.None?
      ensures res.Err? ==> res.error == EngineOutcome(this, scheds).err.value
      ensures PreFunc.Fails? ==> res == Err(PreFunc.error)
      ensures res.Ok? ==> fresh(res.value) && res.value.global == Middlewares
      ensures res.Ok? ==> res.value.registrations == EngineOutcome(this, scheds).regs
    {
      if PreFunc.Fails? {
        return Err(PreFunc.error);
      }

      var r := new Router();
      r.Use(Middlewares);
      var controller := Group(r.Root(), "");
      assert controller == Controller(this);
      var err := ApplyGroups(r, controller, scheds);
      if err.Some? {
        return Err(err.value);
      }

      if PostFunc.Fails? {
        return Err(PostFunc.error);
      }
      return Ok(r);
    }

    /** The loop of `New` over `RouterGroups`, in list order, stopping at the first error. */
    method ApplyGroups(r: Router, controller: Scope, scheds: seq<Schedule>) returns (err: Option<Error>)
      requires FitsAll(RouterGroups, scheds)
      modifies r`registrations
      ensures r.registrations == old(r.registrations) + GroupsOutcome(RouterGroups, scheds, controller, |RouterGroups|).regs
      ensures err == GroupsOutcome(RouterGroups, scheds, controller, |RouterGroups|).err
    {
      var k := 0;
      while k < |RouterGroups|
        invariant 0 <= k <= |RouterGroups|
        invariant r.registrations == old(r.registrations) + GroupsOutcome(RouterGroups, scheds, controller, k).regs
        invariant GroupsOutcome(RouterGroups, scheds, controller, k).err.None?
      {
        ghost var done := GroupsOutcome(RouterGroups, scheds, controller, k);
        ghost var next := GroupOutcome(RouterGroups[k], controller, scheds[k]);
        assert GroupsOutcome(RouterGroups, scheds, controller, k + 1) == Outcome(done.regs + next.regs, next.err);
        var applied := RouterGroups[k].Apply(r, controller, scheds[k]);
        AppendAssoc(old(r.registrations), done.regs, next.regs);
        if applied.Err? {
          GroupsStop(RouterGroups, scheds, controller, k + 1, |RouterGroups|);
          return Some(applied.error);
        }
        k := k + 1;
      }
      return None;
    }
  }

  /** Each group has a schedule for its map iterations. */
  predicate FitsAll(gs: seq<RouterGroup>, scheds: seq<Schedule>)
  {
    |scheds| == |gs| &&
    forall k {:trigger Fits(gs[k], scheds[k])} :: 0 <= k < |gs| ==> Fits(gs[k], scheds[k])
  }

  /** `r.Group("")` after `r.Use(e.Middlewares...)` on a fresh engine rooted at "/". */
  function Controller(e: Engine): Scope
  {
    Group(Scope("/", e.Middlewares), "")
  }

  /** The first `n` iterations of the loop over `RouterGroups`, each applied to `scope`. */
  function GroupsOutcome(gs: seq<RouterGroup>, scheds: seq<Schedule>, scope: Scope, n: nat): Outcome
    requires FitsAll(gs, scheds) && n <= |gs|
  {
    if n == 0 then Done
    else Then(GroupsOutcome(gs, scheds, scope, n - 1), GroupOutcome(gs[n - 1], scope, scheds[n - 1]))
  }

  /** `Engine.New` as a whole (engine.go:18-40); on success `regs` are the routes of the returned engine. */
  function EngineOutcome(e: Engine, scheds: seq<Schedule>): Outcome
    requires FitsAll(e.RouterGroups, scheds)
  {
    Then(HookOutcome(e.PreFunc),
      Then(GroupsOutcome(e.RouterGroups, scheds, Controller(e), |e.RouterGroups|), HookOutcome(e.PostFunc)))
  }

  /** Once a group has failed, the later groups are not applied. */
  lemma {:induction false} GroupsStop(gs: seq<RouterGroup>, scheds: seq<Schedule>, scope: Scope, j: nat, n: nat)
    requires FitsAll(gs, scheds) && j <= n <= |gs|
    requires GroupsOutcome(gs, scheds, scope, j).err.Some?
    ensures GroupsOutcome(gs, scheds, scope, n) == GroupsOutcome(gs, scheds, scope, j)
    decreases n
  {
    if n > j {
      GroupsStop(gs, scheds, scope, j, n - 1);
    }
  }

  /** The group loop registers only endpoints of the groups. */
  lemma {:induction false} GroupsSound(gs: seq<RouterGroup>, scheds: seq<Schedule>, scope: Scope, n: nat)
    requires FitsAll(gs, scheds) && n <= |gs|
    ensures forall e :: e in GroupsOutcome(gs, scheds, scope, n).regs ==>
      exists k :: 0 <= k < n && e in Endpoints(gs[k], scope)
  {
    if n > 0 {
      GroupsSound(gs, scheds, scope, n - 1);
      GroupSound(gs[n - 1], scope, scheds[n - 1]);
    }
  }

  /** A group loop that succeeds has registered every endpoint of every group. */
  lemma {:induction false} GroupsComplete(gs: seq<RouterGroup>, scheds: seq<Schedule>, scope: Scope, n: nat)
    requires FitsAll(gs, scheds) && n <= |gs|
    requires GroupsOutcome(gs, scheds, scope, n).err.None?
    ensures forall k, e :: 0 <= k < n && e in Endpoints(gs[k], scope) ==> e in GroupsOutcome(gs, scheds, scope, n).regs
  {
    if n > 0 {
      var prev := GroupsOutcome(gs, scheds, scope, n - 1);
      var last := GroupOutcome(gs[n - 1], scope, scheds[n - 1]);
      assert GroupsOutcome(gs, scheds, scope, n) == Outcome(prev.regs + last.regs, last.err);
      GroupsComplete(gs, scheds, scope, n - 1);
      GroupComplete(gs[n - 1], scope, scheds[n - 1]);
    }
  }

  /** The group loop succeeds exactly when every group it reaches is buildable. */
  lemma {:induction false} GroupsSucceed(gs: seq<RouterGroup>, scheds: seq<Schedule>, scope: Scope, n: nat)
    requires FitsAll(gs, scheds) && n <= |gs|
    ensures GroupsOutcome(gs, scheds, scope, n).err.None? <==> forall k :: 0 <= k < n ==> Buildable(gs[k])
  {
    if n > 0 {
      GroupsSucceed(gs, scheds, scope, n - 1);
      GroupSucceeds(gs[n - 1], scope, scheds[n - 1]);
    }
  }

  /** `New` succeeds exactly when neither engine hook fails and every group is buildable. */
  lemma EngineSucceeds(e: Engine, scheds: seq<Schedule>)
    requires FitsAll(e.RouterGroups, scheds)
    ensures EngineOutcome(e, scheds).err.None? <==>
      !e.PreFunc.Fails? && !e.PostFunc.Fails? && forall g :: g in e.RouterGroups ==> Buildable(g)
  {
    GroupsSucceed(e.RouterGroups, scheds, Controller(e), |e.RouterGroups|);
    assert (forall g :: g in e.RouterGroups ==> Buildable(g)) <==>
      (forall k :: 0 <= k < |e.RouterGroups| ==> Buildable(e.RouterGroups[k]));
  }

  /**
    A successful `New` returns an engine whose routes are exactly the
    endpoints of its groups, each mounted on the root group.
  */
  lemma EngineRegistersExactly(e: Engine, scheds: seq<Schedule>)
    requires FitsAll(e.RouterGroups, scheds)
    requires EngineOutcome(e, scheds).err.None?
    ensures forall x :: x in EngineOutcome(e, scheds).regs <==>
      exists k :: 0 <= k < |e.RouterGroups| && x in Endpoints(e.RouterGroups[k], Controller(e))
  {
    var groups := GroupsOutcome(e.RouterGroups, scheds, Controller(e), |e.RouterGroups|);
    assert EngineOutcome(e, scheds).regs == groups.regs;
    GroupsSound(e.RouterGroups, scheds, Controller(e), |e.RouterGroups|);
    GroupsComplete(e.RouterGroups, scheds, Controller(e), |e.RouterGroups|);
  }

  /**
    Every route the engine registers starts with the global middlewares
    and lives below "/", because the root group is taken after `r.Use`.
  */
  lemma EngineGlobalFirst(e: Engine, scheds: seq<Schedule>)
    requires FitsAll(e.RouterGroups, scheds)
    ensures forall x :: x in EngineOutcome(e, scheds).regs ==> e.Middlewares <= x.chain && "/" <= x.path
  {
    var scope := Controller(e);
    assert scope == Scope("/", e.Middlewares);
    GroupsSound(e.RouterGroups, scheds, scope, |e.RouterGroups|);
    forall x | x in EngineOutcome(e, scheds).regs
      ensures e.Middlewares <= x.chain && "/" <= x.path
    {
      var k :| 0 <= k < |e.RouterGroups| && x in Endpoints(e.RouterGroups[k], scope);
      var g := e.RouterGroups[k];
      EndpointsBelow(g, scope);
      JoinExtends("/", g.BasePath);
      assert e.Middlewares <= e.Middlewares + g.PersistentMiddlewares <= x.chain;
    }
  }

  /** The first group that fails ends the loop with its error; the earlier groups' routes stay. */
  lemma GroupFailureStops(gs: seq<RouterGroup>, scheds: seq<Schedule>, scope: Scope, k: nat)
    requires FitsAll(gs, scheds) && k < |gs|
    requires GroupsOutcome(gs, scheds, scope, k).err.None?
    requires GroupOutcome(gs[k], scope, scheds[k]).err.Some?
    ensures var failed := GroupOutcome(gs[k], scope, scheds[k]);
      GroupsOutcome(gs, scheds, scope, |gs|) == Outcome(GroupsOutcome(gs, scheds, scope, k).regs + failed.regs, failed.err)
  {
    var before := GroupsOutcome(gs, scheds, scope, k);
    var failed := GroupOutcome(gs[k], scope, scheds[k]);
    assert GroupsOutcome(gs, scheds, scope, k + 1) == Outcome(before.regs + failed.regs, failed.err);
    GroupsStop(gs, scheds, scope, k + 1, |gs|);
  }
}
