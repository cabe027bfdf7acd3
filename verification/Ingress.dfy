/** Route selection and request processing: from a validated catalog to the calls on the wire. */
module Ingress {
  import opened Prelude
  import opened Catalog
  import Circuit
  import CircuitActs
  import ExecutorModel
  import opened ExecutorProofs
  import opened Executor

  datatype IngressError =
    | InvalidRequest(reason: string)
    | RequestOrchestrationFailed
    | ExecutionFailed(error: ExecutorModel.ExecutorError)

  const UNKNOWN_ROUTE := InvalidRequest("Unknown route")
  const TOO_MANY_TOKENS := InvalidRequest("max_tokens exceeds the cap")

  datatype Resolution<+T> = Resolved(value: T) | Rejected(error: IngressError)

  datatype ResolvedRoute = ResolvedRoute(routeId: string, targetId: string, maxOutputTokens: nat, plan: ExecutorModel.RoutePlan)

  // ----- routing -----------------------------------------------------------------------

  predicate IsConfiguredRoute(c: Catalog, name: string) {
    name != "" && Trim(name) == name && name in c.routes
  }

  function LookUp(c: Catalog, id: string): Resolution<Target> {
    if id in c.targets then Resolved(c.targets[id]) else Rejected(RequestOrchestrationFailed)
  }

  function PlanForTarget(id: string, target: Target, fallbacks: seq<ExecutorModel.RoutePlan>): ExecutorModel.RoutePlan {
    ExecutorModel.RoutePlan(target.vendor, id, target.model, target.maxOutputTokens, fallbacks)
  }

  /** Plans for the fallbacks in order; the first unknown target fails them all. */
  function PlanFallbacks(c: Catalog, ids: seq<string>): Resolution<seq<ExecutorModel.RoutePlan>> {
    if ids == [] then Resolved([])
    else
      match LookUp(c, ids[0])
      case Rejected(error) => Rejected(error)
      case Resolved(target) =>
        match PlanFallbacks(c, ids[1..])
        case Rejected(error) => Rejected(error)
        case Resolved(rest) => Resolved([PlanForTarget(ids[0], target, [])] + rest)
  }

  /** Fallbacks are used unless the request opts out. */
  function FallbackIds(route: Route, allowFallback: Option<bool>): seq<string> {
    if allowFallback == Some(false) then [] else route.fallbacks
  }

  function ResolveRoute(c: Catalog, requested: Option<string>, allowFallback: Option<bool>): Resolution<ResolvedRoute> {
    if requested.Some? && !IsConfiguredRoute(c, requested.value) then Rejected(UNKNOWN_ROUTE)
    else
      var routeId := if requested.Some? then requested.value else c.defaultRoute;
      if routeId !in c.routes then Rejected(RequestOrchestrationFailed)
      else
        var route := c.routes[routeId];
        match LookUp(c, route.primary)
        case Rejected(error) => Rejected(error)
        case Resolved(primary) =>
          match PlanFallbacks(c, FallbackIds(route, allowFallback))
          case Rejected(error) => Rejected(error)
          case Resolved(fallbacks) =>
            Resolved(ResolvedRoute(routeId, route.primary, primary.maxOutputTokens, PlanForTarget(route.primary, primary, fallbacks)))
  }

  /** The plan of one chain position is the catalog's target of that name, and flat. */
  predicate PlansTarget(c: Catalog, id: string, plan: ExecutorModel.RoutePlan) {
    && id in c.targets && plan.targetId == id
    && plan.vendorId == c.targets[id].vendor && plan.modelId == c.targets[id].model
    && plan.maxOutputTokens == c.targets[id].maxOutputTokens
  }

  lemma {:induction false} FallbacksPlanned(c: Catalog, ids: seq<string>)
    requires forall i :: 0 <= i < |ids| ==> ids[i] in c.targets
    ensures var plans := PlanFallbacks(c, ids);
            && plans.Resolved? && |plans.value| == |ids|
            && forall i :: 0 <= i < |ids| ==> PlansTarget(c, ids[i], plans.value[i]) && plans.value[i].fallbackPlans == []
  {
    if ids != [] {
      FallbacksPlanned(c, ids[1..]);
    }
  }

  /** The targets a request may use, in catalog order. */
  function AllowedTargets(route: Route, allowFallback: Option<bool>): seq<string> {
    [route.primary] + FallbackIds(route, allowFallback)
  }

  /** The plan is the route's chain, target by target, flat and free of duplicates. */
  ghost predicate PlansRoute(c: Catalog, route: Route, allowFallback: Option<bool>, plan: ExecutorModel.RoutePlan) {
    var chain, ids := ExecutorModel.Chain(plan), AllowedTargets(route, allowFallback);
    && |chain| == |ids|
    && (forall i :: 0 <= i < |ids| ==> PlansTarget(c, ids[i], chain[i]))
    && (forall i :: 1 <= i < |chain| ==> chain[i].fallbackPlans == [])
    && DistinctChain(plan)
  }

  lemma FallbacksKnown(targets: set<string>, route: Route)
    requires ValidRoute(targets, route)
    ensures route.primary in targets && route.primary !in route.fallbacks
    ensures forall i :: 0 <= i < |route.fallbacks| ==> route.fallbacks[i] in targets
    ensures Distinct(route.fallbacks)
  {
    var all := Targets(route);
    assert all[0] == route.primary;
    assert forall i :: 0 <= i < |route.fallbacks| ==> all[i + 1] == route.fallbacks[i];
  }

  lemma {:induction false} RoutePlanned(c: Catalog, route: Route, allowFallback: Option<bool>)
    requires ValidRoute(c.targets.Keys, route)
    ensures route.primary in c.targets
    ensures var plans := PlanFallbacks(c, FallbackIds(route, allowFallback));
            && plans.Resolved?
            && PlansRoute(c, route, allowFallback, PlanForTarget(route.primary, c.targets[route.primary], plans.value))
  {
    hide ValidRoute, PlanFallbacks;
    FallbacksKnown(c.targets.Keys, route);
    var fallbacks := FallbackIds(route, allowFallback);
    FallbacksPlanned(c, fallbacks);
    var plan := PlanForTarget(route.primary, c.targets[route.primary], PlanFallbacks(c, fallbacks).value);
    var chain, ids := ExecutorModel.Chain(plan), AllowedTargets(route, allowFallback);
    forall i | 0 <= i < |ids|
      ensures PlansTarget(c, ids[i], chain[i]) && (i > 0 ==> chain[i].fallbackPlans == [] && chain[i].targetId == fallbacks[i - 1])
    {
      if i > 0 {
        assert chain[i] == plan.fallbackPlans[i - 1] && ids[i] == fallbacks[i - 1];
      }
    }
    assert DistinctChain(plan);
  }

  lemma PlanLength(c: Catalog, route: Route, allowFallback: Option<bool>, plan: ExecutorModel.RoutePlan)
    requires PlansRoute(c, route, allowFallback, plan)
    ensures |plan.fallbackPlans| == (if allowFallback == Some(false) then 0 else |route.fallbacks|)
  {
  }

  /** The plan over fields: at each position the catalog's own target, fallbacks in the route's order. */
  lemma {:induction false} PlanSpelled(c: Catalog, route: Route, allowFallback: Option<bool>, plan: ExecutorModel.RoutePlan, i: nat)
    requires PlansRoute(c, route, allowFallback, plan) && i < |plan.fallbackPlans|
    ensures allowFallback != Some(false) && |plan.fallbackPlans| == |route.fallbacks|
    ensures var p, id := plan.fallbackPlans[i], route.fallbacks[i];
            && p.targetId == id && id in c.targets && p.fallbackPlans == []
            && p.vendorId == c.targets[id].vendor && p.modelId == c.targets[id].model && p.maxOutputTokens == c.targets[id].maxOutputTokens
    ensures plan.targetId == route.primary && route.primary in c.targets
    ensures plan.vendorId == c.targets[route.primary].vendor && plan.modelId == c.targets[route.primary].model
    ensures plan.maxOutputTokens == c.targets[route.primary].maxOutputTokens
  {
    var ids, chain := AllowedTargets(route, allowFallback), ExecutorModel.Chain(plan);
    assert ids[0] == route.primary && PlansTarget(c, ids[0], chain[0]);
    assert chain[i + 1] == plan.fallbackPlans[i] && ids[i + 1] == route.fallbacks[i];
    assert PlansTarget(c, ids[i + 1], chain[i + 1]);
  }

  /** On a validated catalog a request is resolved to the flat, duplicate-free chain of its route,
      or its route is unknown; nothing else can go wrong. */
  lemma {:induction false} ResolvesOrUnknown(c: Catalog, requested: Option<string>, allowFallback: Option<bool>)
    requires ValidCatalog(c)
    ensures var resolution := ResolveRoute(c, requested, allowFallback);
            var routeId := if requested.Some? then requested.value else c.defaultRoute;
            if routeId in c.routes then
              && resolution.Resolved? && resolution.value.routeId == routeId
              && resolution.value.targetId == c.routes[routeId].primary == resolution.value.plan.targetId
              && resolution.value.maxOutputTokens == resolution.value.plan.maxOutputTokens
              && PlansRoute(c, c.routes[routeId], allowFallback, resolution.value.plan)
              && |resolution.value.plan.fallbackPlans| == (if allowFallback == Some(false) then 0 else |c.routes[routeId].fallbacks|)
            else
              requested.Some? && resolution == Rejected(UNKNOWN_ROUTE)
  {
    hide ValidRoute, PlansRoute, IsIdentifier, Trim, PlanFallbacks;
    if requested.Some? {
      TrimmedExactly(requested.value);
    }
    var routeId := if requested.Some? then requested.value else c.defaultRoute;
    if routeId in c.routes {
      RoutePlanned(c, c.routes[routeId], allowFallback);
      PlanLength(c, c.routes[routeId], allowFallback, ResolveRoute(c, requested, allowFallback).value.plan);
    }
  }

  // ----- requests ----------------------------------------------------------------------

  datatype Request = Request(prompt: string, route: Option<string>, allowFallback: Option<bool>, maxTokens: Option<nat>)

  datatype Reply = Replied(response: string) | Failed(error: IngressError) | Abandoned

  function RouteOf(c: Catalog, request: Request): string {
    if request.route.Some? then request.route.value else c.defaultRoute
  }

  /** The requested tokens exceed what the route's primary target can produce. */
  predicate Exceeds(c: Catalog, request: Request) {
    && RouteOf(c, request) in c.routes && c.routes[RouteOf(c, request)].primary in c.targets
    && request.maxTokens.Some? && c.targets[c.routes[RouteOf(c, request)].primary].maxOutputTokens < request.maxTokens.value
  }

  /** The run executes the request: the plan of its route, its prompt, and its own tokens or else
      the primary's cap. */
  ghost predicate Executes(c: Catalog, request: Request, run: Run) {
    && RouteOf(c, request) in c.routes
    && PlansRoute(c, c.routes[RouteOf(c, request)], request.allowFallback, run.plan)
    && run.payload.messages == Some(request.prompt)
    && run.payload.maxTokens.Some?
    && run.payload.maxTokens.value == (if request.maxTokens.Some? then request.maxTokens.value else run.plan.maxOutputTokens)
    && run.payload.maxTokens.value <= run.plan.maxOutputTokens
  }

  function ReplyTo(exit: ExecutorModel.Exit): Reply {
    match exit
    case Ok(response) => Replied(response)
    case Err(error) => Failed(ExecutionFailed(error))
    case Cancelled => Abandoned
  }

  class IngressService {
    const catalog: Catalog
    const executor: ExecutorService

    constructor (catalog: Catalog, executor: ExecutorService)
      ensures this.catalog == catalog && this.executor == executor
    {
      this.catalog := catalog;
      this.executor := executor;
    }

    /** `process_request`: routing and the cap check come before any provider access. */
    method ProcessRequest(request: Request, deadline: nat) returns (reply: Reply, ghost run: Option<Run>)
      requires ValidCatalog(catalog) && executor.log == ExecutorModel.NO_HISTORY
      requires executor.Sound() && executor.Live() == {}
      modifies executor`clock, executor`log, executor`earlier, executor.registry
      ensures old(executor.clock) <= executor.clock && executor.Sound() && executor.Live() == {}
      ensures run.Some? ==>
                && Legal(run.value) && run.value.log == executor.log && run.value.clock == executor.clock
                && run.value.deadline == deadline && run.value.config == executor.config
                && Executes(catalog, request, run.value)
                && (match run.value.exit
                    case Ok(response) => reply == Replied(response)
                    case Err(error) => reply == Failed(ExecutionFailed(error))
                    case Cancelled => reply == Abandoned)
      ensures run.None? ==>
                && executor.log == ExecutorModel.NO_HISTORY
                && (|| (reply == Failed(ExecutionFailed(ExecutorModel.DeadlineExceeded)) && deadline <= executor.clock)
                    || (reply == Failed(UNKNOWN_ROUTE) && request.route.Some? && request.route.value !in catalog.routes)
                    || (&& reply == Failed(TOO_MANY_TOKENS) && RouteOf(catalog, request) in catalog.routes
                        && var primary := catalog.routes[RouteOf(catalog, request)].primary;
                           && primary in catalog.targets && request.maxTokens.Some?
                           && catalog.targets[primary].maxOutputTokens < request.maxTokens.value))
    {
      hide Legal, ExecutorModel.RunOK, CircuitActs.ActsBy, CircuitActs.OwnLive, Circuit.ValidRun, Circuit.Exec, ValidRoute, IsIdentifier, ResolveRoute, DistinctChain;
      var expired := executor.IsExpired(deadline);
      if expired {
        return Failed(ExecutionFailed(ExecutorModel.DeadlineExceeded)), None;
      }
      ResolvesOrUnknown(catalog, request.route, request.allowFallback);
      var resolution := ResolveRoute(catalog, request.route, request.allowFallback);
      if resolution.Rejected? {
        return Failed(resolution.error), None;
      }
      var resolved := resolution.value;
      FallbacksKnown(catalog.targets.Keys, catalog.routes[resolved.routeId]);
      assert AllowedTargets(catalog.routes[resolved.routeId], request.allowFallback)[0] == resolved.targetId;
      assert ExecutorModel.Chain(resolved.plan)[0] == resolved.plan;
      if request.maxTokens.Some? && request.maxTokens.value > resolved.maxOutputTokens {
        return Failed(TOO_MANY_TOKENS), None;
      }
      var maxTokens := if request.maxTokens.Some? then request.maxTokens.value else resolved.maxOutputTokens;
      var payload := ExecutorModel.Payload(Some(request.prompt), Some(maxTokens));
      var exit := executor.Execute(resolved.plan, payload, deadline);
      ghost var finished := Run(executor.config, resolved.plan, payload, deadline, executor.log, exit, executor.clock);
      assert Legal(finished) by {
        RunIsLegal(finished);
      }
      return ReplyTo(exit), Some(finished);
    }
  }

  lemma RunIsLegal(r: Run)
    requires ExecutorModel.RunOK(r.config, r.plan, r.payload, r.deadline, r.log, r.exit, r.clock)
    ensures Legal(r)
  {
  }

  /** Every request on the wire goes to a target of the requested route, a fallback only if the client
      allows it, with the catalog's vendor and model, the client's prompt, and the client's token limit
      or else the primary's cap, which that target can serve. */
  lemma {:induction false} EveryCallServes(c: Catalog, request: Request, run: Run, k: nat)
    requires ValidCatalog(c) && Legal(run) && Executes(c, request, run) && k < |run.log.calls|
    ensures k < |run.log.exchanges|
    ensures var routeId := if request.route.Some? then request.route.value else c.defaultRoute;
            routeId in c.routes &&
            var x, route := run.log.exchanges[k], c.routes[routeId];
            var id := x.plan.targetId;
            && (id == route.primary || (request.allowFallback != Some(false) && id in route.fallbacks))
            && id in c.targets && x.plan.vendorId == c.targets[id].vendor && x.plan.modelId == c.targets[id].model
            && x.messages == request.prompt
            && x.sent.Some? && x.sent.value <= c.targets[id].maxOutputTokens
            && (request.maxTokens.Some? ==> x.sent.value == request.maxTokens.value)
            && (request.maxTokens.None? ==> x.sent.value == c.targets[route.primary].maxOutputTokens)
  {
    hide Legal, ValidRoute, DistinctChain;
    CalledTargetsServe(run, k);
    var route := c.routes[RouteOf(c, request)];
    var ids, chain := AllowedTargets(route, request.allowFallback), ExecutorModel.Chain(run.plan);
    assert ids[0] == route.primary && chain[0] == run.plan && chain == [run.plan] + run.plan.fallbackPlans;
    var p :| 0 <= p < |chain| && chain[p].targetId == run.log.calls[k].target
          && (p > 0 && run.payload.maxTokens.Some? ==> run.payload.maxTokens.value <= Min(chain[p].maxOutputTokens, U32_MAX));
    assert PlansTarget(c, ids[p], chain[p]);
    var q :| 0 <= q < |chain| && chain[q] == run.log.exchanges[k].plan;
    assert PlansTarget(c, ids[q], chain[q]);
  }
}
