/**
 * The gateway's router (services/gateway/src/routes/proxy.ts): the stack of
 * handlers built at start-up (root, health, one mount per enabled service in
 * definition order, 404, error handler) and Express's walk over that stack
 * for one request. Normal handlers are skipped while an error is being
 * passed on, the error handler is skipped otherwise, and the walk stops at
 * the first handler that neither calls `next` nor throws.
 */
module ProxyRouter {

  import opened Wrappers
  import opened Json
  import opened Express
  import opened Services
  import opened Proxy

  /** An entry of `SERVICE_DEFINITIONS`. */
  datatype ServiceDefinition = ServiceDefinition(key: string, proxyPath: string, servicePath: string)

  /** `ProxyOptions`. */
  datatype ProxyOptions = ProxyOptions(serviceName: string, pathPrefix: string, pathRewrite: string)

  /** `serviceRoutes`: one route per definition, in definition order. */
  function ServiceRoutes(defs: seq<ServiceDefinition>): (routes: seq<ProxyOptions>)
    ensures |routes| == |defs|
    ensures forall i :: 0 <= i < |defs| ==>
      routes[i] == ProxyOptions(defs[i].key, defs[i].proxyPath, defs[i].servicePath)
  {
    if defs == [] then []
    else [ProxyOptions(defs[0].key, defs[0].proxyPath, defs[0].servicePath)] + ServiceRoutes(defs[1..])
  }

  /** `serviceRoutes.map(s => s.pathPrefix)`. */
  function Prefixes(routes: seq<ProxyOptions>): (ps: seq<string>)
    ensures |ps| == |routes|
    ensures forall i :: 0 <= i < |routes| ==> ps[i] == routes[i].pathPrefix
  {
    if routes == [] then [] else [routes[0].pathPrefix] + Prefixes(routes[1..])
  }

  /** One entry of the router's stack. A service mount holds the timer and the proxy. */
  datatype Layer =
    | RootLayer
    | HealthLayer
    | ServiceLayer(prefix: string, config: ServiceConfig, rule: RewriteRule)
    | NotFoundLayer(routes: seq<string>)
    | ErrorLayer

  /**
   * What registerServiceProxy adds for one route: nothing for an unknown
   * service, an inherited `Object.prototype` member, or a falsy `enabled`
   * (false or unset), else the mount.
   */
  function Registration(reg: Registry, route: ProxyOptions): (ls: seq<Layer>)
    ensures ls == [] <==>
      GetServiceConfig(reg, route.serviceName).None? || GetServiceConfig(reg, route.serviceName).value.Inherited? ||
      GetServiceConfig(reg, route.serviceName).value.config.enabled != Some(true)
    ensures ls != [] ==>
      ls == [ServiceLayer(route.pathPrefix, GetServiceConfig(reg, route.serviceName).value.config,
                          RewriteRule(route.pathPrefix, route.pathRewrite))]
  {
    var p := GetServiceConfig(reg, route.serviceName);
    if p.None? || p.value.Inherited? || p.value.config.enabled != Some(true) then []
    else [ServiceLayer(route.pathPrefix, p.value.config, RewriteRule(route.pathPrefix, route.pathRewrite))]
  }

  /** `serviceRoutes.forEach(registerServiceProxy)`. */
  function Registered(reg: Registry, routes: seq<ProxyOptions>): (ls: seq<Layer>)
    ensures |ls| <= |routes|
    ensures EnabledMounts(ls)
  {
    if routes == [] then []
    else
      var head, tail := Registration(reg, routes[0]), Registered(reg, routes[1..]);
      EnabledMountsAppend(head, tail);
      head + tail
  }

  /** Every layer is a mount of an enabled service. */
  predicate EnabledMounts(ls: seq<Layer>) {
    forall k :: 0 <= k < |ls| ==> ls[k].ServiceLayer? && ls[k].config.enabled == Some(true)
  }

  lemma EnabledMountsAppend(a: seq<Layer>, b: seq<Layer>)
    requires EnabledMounts(a) && EnabledMounts(b)
    ensures EnabledMounts(a + b)
  {
    assert forall k :: |a| <= k < |a + b| ==> (a + b)[k] == b[k - |a|];
  }

  /** Registration keeps definition order: the mounts of a concatenation are concatenated. */
  lemma {:induction false} RegisteredAppend(reg: Registry, a: seq<ProxyOptions>, b: seq<ProxyOptions>)
    ensures Registered(reg, a + b) == Registered(reg, a) + Registered(reg, b)
  {
    if a != [] {
      assert (a + b)[0] == a[0];
      assert (a + b)[1..] == a[1..] + b;
      var h := Registration(reg, a[0]);
      calc {
        Registered(reg, a + b);
        h + Registered(reg, a[1..] + b);
        { RegisteredAppend(reg, a[1..], b); }
        h + (Registered(reg, a[1..]) + Registered(reg, b));
        (h + Registered(reg, a[1..])) + Registered(reg, b);
        Registered(reg, a) + Registered(reg, b);
      }
    } else {
      assert a + b == b;
    }
  }

  /** The stack the module builds: root, health, the mounts, 404 listing every prefix, error handler. */
  function GatewayStack(reg: Registry, defs: seq<ServiceDefinition>): seq<Layer> {
    var routes := ServiceRoutes(defs);
    [RootLayer, HealthLayer] + Registered(reg, routes) + [NotFoundLayer(Prefixes(routes)), ErrorLayer]
  }

  /** The order of the stack; the 404 list names disabled and unknown services too. */
  lemma GatewayStackShape(reg: Registry, defs: seq<ServiceDefinition>)
    ensures var st := GatewayStack(reg, defs);
      var ms := Registered(reg, ServiceRoutes(defs));
      && |st| == |ms| + 4
      && st[0] == RootLayer && st[1] == HealthLayer
      && st[2..|st| - 2] == ms
      && st[|st| - 2] == NotFoundLayer(Prefixes(ServiceRoutes(defs)))
      && st[|st| - 1] == ErrorLayer
      && (forall i :: 0 <= i < |defs| ==> st[|st| - 2].routes[i] == defs[i].proxyPath)
  {
    var st := GatewayStack(reg, defs);
    var ms := Registered(reg, ServiceRoutes(defs));
    assert st[2..|st| - 2] == ms;
  }

  /** The router, whose stack `router.use` extends. */
  class Router {
    var stack: seq<Layer>

    constructor ()
      ensures stack == []
    {
      stack := [];
    }

    /** `router.use(layer)`. */
    method Use(layer: Layer)
      modifies this
      ensures stack == old(stack) + [layer]
    {
      stack := stack + [layer];
    }

    /** registerServiceProxy. */
    method RegisterServiceProxy(reg: Registry, route: ProxyOptions)
      modifies this
      ensures stack == old(stack) + Registration(reg, route)
    {
      var serviceConfig := GetServiceConfig(reg, route.serviceName);
      if serviceConfig.None? {
        return;
      }
      // An inherited member is truthy but has no `enabled`, so it is skipped here.
      if serviceConfig.value.Inherited? || serviceConfig.value.config.enabled != Some(true) {
        return;
      }
      var rewriteRule := RewriteRule(route.pathPrefix, route.pathRewrite);
      Use(ServiceLayer(route.pathPrefix, serviceConfig.value.config, rewriteRule));
    }
  }

  /** Registering one more route appends what that route registers. */
  lemma RegisteredOne(reg: Registry, routes: seq<ProxyOptions>, route: ProxyOptions)
    ensures Registered(reg, routes + [route]) == Registered(reg, routes) + Registration(reg, route)
  {
    RegisteredAppend(reg, routes, [route]);
    assert [route][1..] == [];
    assert Registered(reg, [route]) == Registration(reg, route) + [];
  }

  lemma RegisteredPrefix(reg: Registry, routes: seq<ProxyOptions>, i: nat)
    requires i < |routes|
    ensures Registered(reg, routes[..i + 1]) == Registered(reg, routes[..i]) + Registration(reg, routes[i])
  {
    assert routes[..i + 1] == routes[..i] + [routes[i]];
    RegisteredOne(reg, routes[..i], routes[i]);
  }

  /** One forEach step keeps the stack equal to the start plus the routes registered so far. */
  lemma RegisteredStep(reg: Registry, routes: seq<ProxyOptions>, i: nat, start: seq<Layer>, before: seq<Layer>, after: seq<Layer>)
    requires i < |routes|
    requires before == start + Registered(reg, routes[..i])
    requires after == before + Registration(reg, routes[i])
    ensures after == start + Registered(reg, routes[..i + 1])
  {
    RegisteredPrefix(reg, routes, i);
  }

  /** `serviceRoutes.forEach(registerServiceProxy)` on a router. */
  method RegisterAll(router: Router, reg: Registry, routes: seq<ProxyOptions>)
    modifies router
    ensures router.stack == old(router.stack) + Registered(reg, routes)
  {
    ghost var start := router.stack;
    var i := 0;
    while i < |routes|
      invariant 0 <= i <= |routes|
      invariant router.stack == start + Registered(reg, routes[..i])
    {
      ghost var before := router.stack;
      router.RegisterServiceProxy(reg, routes[i]);
      RegisteredStep(reg, routes, i, start, before, router.stack);
      i := i + 1;
    }
    assert routes[..i] == routes;
  }

  /** The module's start-up: the router with its whole stack. */
  method BuildRouter(reg: Registry, defs: seq<ServiceDefinition>) returns (router: Router)
    ensures fresh(router)
    ensures router.stack == GatewayStack(reg, defs)
  {
    router := new Router();
    router.Use(RootLayer);
    router.Use(HealthLayer);
    var serviceRoutes := ServiceRoutes(defs);
    RegisterAll(router, reg, serviceRoutes);
    ghost var head := router.stack;
    router.Use(NotFoundLayer(Prefixes(serviceRoutes)));
    router.Use(ErrorLayer);
    StackAssembly(reg, defs, head, router.stack);
  }

  /** Root, health, the mounts, then the 404 and error layers make up the gateway stack. */
  lemma StackAssembly(reg: Registry, defs: seq<ServiceDefinition>, head: seq<Layer>, stack: seq<Layer>)
    requires head == [] + [RootLayer] + [HealthLayer] + Registered(reg, ServiceRoutes(defs))
    requires stack == head + [NotFoundLayer(Prefixes(ServiceRoutes(defs)))] + [ErrorLayer]
    ensures stack == GatewayStack(reg, defs)
  {
    assert [] + [RootLayer] + [HealthLayer] == [RootLayer, HealthLayer];
    assert head + [NotFoundLayer(Prefixes(ServiceRoutes(defs)))] + [ErrorLayer]
        == head + [NotFoundLayer(Prefixes(ServiceRoutes(defs))), ErrorLayer];
  }

  // ---------------------------------------------------------------------
  // Dispatch
  // ---------------------------------------------------------------------

  /**
   * Everything outside the router a request depends on: configuration,
   * the registry, process uptime, the clock readings of the timer and of
   * the upstream reply, one ISO 8601 timestamp, the backends and
   * `JSON.stringify`.
   */
  datatype Context = Context(
    env: GatewayEnv,
    registry: Registry,
    uptimeSeconds: nat,
    timestamp: string,
    timerNow: int,
    replyNow: int,
    backend: Outgoing -> Upstream,
    stringify: Json -> string)

  /** Where a request stands between two handlers. */
  datatype State = State(reply: Option<Reply>, startTime: Option<int>, flow: Flow)

  /** One handler run while no error is being passed on. */
  function LayerStep(layer: Layer, req: Incoming, s: State, ctx: Context): State {
    match layer
    case RootLayer =>
      var st := RootStep(req.path, s.reply, ctx.env, ctx.timestamp);
      State(st.reply, s.startTime, st.flow)
    case HealthLayer =>
      var st := HealthStep(req.path, s.reply, ctx.registry, ctx.env, ctx.uptimeSeconds, ctx.timestamp);
      State(st.reply, s.startTime, st.flow)
    case ServiceLayer(prefix, config, rule) =>
      if !MountMatches(prefix, req.path) then s
      else
        var st := ProxyStep(req, s.reply, Some(ctx.timerNow), config, rule, ctx.backend, ctx.stringify, ctx.replyNow, ctx.timestamp);
        State(st.reply, Some(ctx.timerNow), st.flow)
    case NotFoundLayer(routes) =>
      var st := NotFoundStep(req.originalUrl, s.reply, routes, ctx.timestamp);
      State(st.reply, s.startTime, st.flow)
    case ErrorLayer => s
  }

  /** One handler as Express calls it: the error handler only with an error, the others only without. */
  function Advance(layer: Layer, req: Incoming, s: State, ctx: Context): State {
    if s.flow.NextError? then
      if layer.ErrorLayer? then
        var st := GlobalErrorStep(s.flow.err, s.reply, ctx.env.nodeEnv, ctx.timestamp);
        State(st.reply, s.startTime, st.flow)
      else s
    else LayerStep(layer, req, s, ctx)
  }

  /** Express's walk over a stack from state `s`; the result's flow is how the router ends. */
  function Run(stack: seq<Layer>, req: Incoming, s: State, ctx: Context): State
    decreases |stack|
  {
    if stack == [] || s.flow.Done? then s
    else Run(stack[1..], req, Advance(stack[0], req, s, ctx), ctx)
  }

  /** Runs a request through the router, calling each handler's method in turn. */
  method Dispatch(router: Router, req: Request, res: Response, ctx: Context) returns (flow: Flow)
    modifies req, res
    ensures State(res.reply, req.startTime, flow)
         == Run(router.stack, View(req), State(old(res.reply), old(req.startTime), Next), ctx)
  {
    var stack := router.stack;
    flow := Next;
    var i := 0;
    while i < |stack| && !flow.Done?
      invariant 0 <= i <= |stack|
      invariant Run(stack[i..], View(req), State(res.reply, req.startTime, flow), ctx)
             == Run(stack, View(req), State(old(res.reply), old(req.startTime), Next), ctx)
    {
      var layer := stack[i];
      assert stack[i..][0] == layer && stack[i..][1..] == stack[i + 1..];
      if flow.NextError? {
        if layer.ErrorLayer? {
          flow := GlobalErrorHandler(flow.err, res, ctx.env.nodeEnv, ctx.timestamp);
        }
      } else {
        match layer {
          case RootLayer =>
            flow := RootMiddleware(req, res, ctx.env, ctx.timestamp);
          case HealthLayer =>
            flow := HealthMiddleware(req, res, ctx.registry, ctx.env, ctx.uptimeSeconds, ctx.timestamp);
          case ServiceLayer(prefix, config, rule) =>
            if MountMatches(prefix, req.path) {
              flow := RequestTimer(req, ctx.timerNow);
              flow := ServiceProxy(req, res, config, rule, ctx.backend, ctx.stringify, ctx.replyNow, ctx.timestamp);
            }
          case NotFoundLayer(routes) =>
            flow := NotFoundHandler(req, res, routes, ctx.timestamp);
          case ErrorLayer =>
        }
      }
      i := i + 1;
    }
  }

  // ---------------------------------------------------------------------
  // Properties of the walk
  // ---------------------------------------------------------------------

  /** The walk over a concatenation is the walk over the second part from where the first left off. */
  lemma {:induction false} RunAppend(a: seq<Layer>, b: seq<Layer>, req: Incoming, s: State, ctx: Context)
    ensures Run(a + b, req, s, ctx) == Run(b, req, Run(a, req, s, ctx), ctx)
    decreases |a|
  {
    if a == [] {
      assert a + b == b;
    } else if !s.flow.Done? {
      assert (a + b)[0] == a[0];
      assert (a + b)[1..] == a[1..] + b;
      RunAppend(a[1..], b, req, Advance(a[0], req, s, ctx), ctx);
    }
  }

  /** A one-handler stack is one step. */
  lemma RunOne(layer: Layer, req: Incoming, s: State, ctx: Context)
    requires !s.flow.Done?
    ensures Run([layer], req, s, ctx) == Advance(layer, req, s, ctx)
  {
    assert [layer][1..] == [];
  }

  /** No handler replaces a reply that has already gone out. */
  lemma AdvanceKeepsSentReply(layer: Layer, req: Incoming, s: State, ctx: Context)
    requires s.reply.Some?
    ensures Advance(layer, req, s, ctx).reply == s.reply
  {
    StepsKeepSentReply(req, s.reply.value, ctx.registry, ctx.env, ctx.uptimeSeconds, Some(ctx.timerNow),
      if layer.ServiceLayer? then layer.config else ServiceConfig("", "", "", 0, 0, None, None, None),
      if layer.ServiceLayer? then layer.rule else RewriteRule("", ""),
      ctx.backend, ctx.stringify, ctx.replyNow, ctx.timestamp,
      if layer.NotFoundLayer? then layer.routes else [],
      if s.flow.NextError? then s.flow.err else HeadersSentError);
  }

  /** First write wins: once a reply has gone out, no handler of any stack replaces it. */
  lemma {:induction false} RunKeepsSentReply(stack: seq<Layer>, req: Incoming, s: State, ctx: Context)
    requires s.reply.Some?
    ensures Run(stack, req, s, ctx).reply == s.reply
    decreases |stack|
  {
    if stack != [] && !s.flow.Done? {
      AdvanceKeepsSentReply(stack[0], req, s, ctx);
      RunKeepsSentReply(stack[1..], req, Advance(stack[0], req, s, ctx), ctx);
    }
  }

  /** Mounts that do not match the path pass the request on untouched. */
  lemma {:induction false} RunPastOtherMounts(ms: seq<Layer>, req: Incoming, s: State, ctx: Context)
    requires s.flow == Next
    requires forall k :: 0 <= k < |ms| ==> ms[k].ServiceLayer? && !MountMatches(ms[k].prefix, req.path)
    ensures Run(ms, req, s, ctx) == s
    decreases |ms|
  {
    if ms != [] {
      assert Advance(ms[0], req, s, ctx) == s;
      RunPastOtherMounts(ms[1..], req, s, ctx);
    }
  }

  /** The state a request starts in. */
  const Initial: State := State(None, None, Next)

  /** The stack split where the mounts begin and where they end. */
  lemma StackParts(reg: Registry, defs: seq<ServiceDefinition>)
    ensures GatewayStack(reg, defs)
         == [RootLayer] + ([HealthLayer] + (Registered(reg, ServiceRoutes(defs)) + [NotFoundLayer(Prefixes(ServiceRoutes(defs)))] + [ErrorLayer]))
  {
    var ms := Registered(reg, ServiceRoutes(defs));
    var nf := NotFoundLayer(Prefixes(ServiceRoutes(defs)));
    SplitLayers(ms, nf);
  }

  lemma SplitLayers(ms: seq<Layer>, nf: Layer)
    ensures [RootLayer, HealthLayer] + ms + [nf, ErrorLayer] == [RootLayer] + ([HealthLayer] + (ms + [nf] + [ErrorLayer]))
  {
  }

  /** Root and health pass on a request for another path untouched. */
  lemma PastRootAndHealth(req: Incoming, ctx: Context, rest: seq<Layer>)
    requires req.path != "/" && req.path != "/health"
    ensures Run([RootLayer] + ([HealthLayer] + rest), req, Initial, ctx) == Run(rest, req, Initial, ctx)
  {
    RunAppend([RootLayer], [HealthLayer] + rest, req, Initial, ctx);
    RunOne(RootLayer, req, Initial, ctx);
    RunAppend([HealthLayer], rest, req, Initial, ctx);
    RunOne(HealthLayer, req, Initial, ctx);
  }

  /** `/` is answered with the welcome document whatever the services are. */
  lemma RootAnswersWelcome(defs: seq<ServiceDefinition>, req: Incoming, ctx: Context)
    requires req.path == "/"
    ensures Run(GatewayStack(ctx.registry, defs), req, Initial, ctx).reply
         == Some(WelcomeReply(ctx.env, ctx.timestamp))
  {
    var routes := ServiceRoutes(defs);
    StackParts(ctx.registry, defs);
    var rest := [HealthLayer] + (Registered(ctx.registry, routes) + [NotFoundLayer(Prefixes(routes))] + [ErrorLayer]);
    RunAppend([RootLayer], rest, req, Initial, ctx);
    RunOne(RootLayer, req, Initial, ctx);
    var after := Advance(RootLayer, req, Initial, ctx);
    assert after.reply == Some(WelcomeReply(ctx.env, ctx.timestamp));
    RunKeepsSentReply(rest, req, after, ctx);
  }

  /** `/health` is answered with the health document whatever the services are. */
  lemma HealthAnswersReport(defs: seq<ServiceDefinition>, req: Incoming, ctx: Context)
    requires req.path == "/health"
    ensures Run(GatewayStack(ctx.registry, defs), req, Initial, ctx).reply
         == Some(HealthReply(ctx.registry, ctx.env, ctx.uptimeSeconds, ctx.timestamp))
  {
    var routes := ServiceRoutes(defs);
    StackParts(ctx.registry, defs);
    var rest := Registered(ctx.registry, routes) + [NotFoundLayer(Prefixes(routes))] + [ErrorLayer];
    RunAppend([RootLayer], [HealthLayer] + rest, req, Initial, ctx);
    RunOne(RootLayer, req, Initial, ctx);
    assert Advance(RootLayer, req, Initial, ctx) == Initial;
    RunAppend([HealthLayer], rest, req, Initial, ctx);
    RunOne(HealthLayer, req, Initial, ctx);
    var after := Advance(HealthLayer, req, Initial, ctx);
    assert after.reply == Some(HealthReply(ctx.registry, ctx.env, ctx.uptimeSeconds, ctx.timestamp));
    RunKeepsSentReply(rest, req, after, ctx);
  }

  /** Among mounts, the first one whose prefix matches the path decides, and ends the walk. */
  lemma {:induction false} FirstMatchAmongMounts(ms: seq<Layer>, rest: seq<Layer>, req: Incoming, ctx: Context, i: nat)
    requires forall k :: 0 <= k < |ms| ==> ms[k].ServiceLayer?
    requires i < |ms| && MountMatches(ms[i].prefix, req.path)
    requires forall k :: 0 <= k < i ==> !MountMatches(ms[k].prefix, req.path)
    ensures Run(ms + rest, req, Initial, ctx).reply
         == ProxyStep(req, None, Some(ctx.timerNow), ms[i].config, ms[i].rule, ctx.backend, ctx.stringify, ctx.replyNow, ctx.timestamp).reply
  {
    var m := ms[i];
    assert ms + rest == ms[..i] + ([m] + (ms[i + 1..] + rest));
    RunAppend(ms[..i], [m] + (ms[i + 1..] + rest), req, Initial, ctx);
    RunPastOtherMounts(ms[..i], req, Initial, ctx);
    RunAppend([m], ms[i + 1..] + rest, req, Initial, ctx);
    RunOne(m, req, Initial, ctx);
  }

  /**
   * For any other path the first mount, in definition order, whose prefix
   * matches decides the reply: the relayed upstream reply or the proxy
   * error reply.
   */
  lemma FirstMatchingMountDecides(defs: seq<ServiceDefinition>, req: Incoming, ctx: Context, i: nat)
    requires req.path != "/" && req.path != "/health"
    requires var ms := Registered(ctx.registry, ServiceRoutes(defs));
      i < |ms| && MountMatches(ms[i].prefix, req.path)
      && forall k :: 0 <= k < i ==> !MountMatches(ms[k].prefix, req.path)
    ensures var m := Registered(ctx.registry, ServiceRoutes(defs))[i];
      Run(GatewayStack(ctx.registry, defs), req, Initial, ctx).reply
      == ProxyStep(req, None, Some(ctx.timerNow), m.config, m.rule, ctx.backend, ctx.stringify, ctx.replyNow, ctx.timestamp).reply
  {
    var routes := ServiceRoutes(defs);
    StackParts(ctx.registry, defs);
    var ms := Registered(ctx.registry, routes);
    var tail := [NotFoundLayer(Prefixes(routes))] + [ErrorLayer];
    assert ms + [NotFoundLayer(Prefixes(routes))] + [ErrorLayer] == ms + tail;
    PastRootAndHealth(req, ctx, ms + tail);
    FirstMatchAmongMounts(ms, tail, req, ctx, i);
  }

  /** Past mounts that all decline, the 404 handler answers and the error handler is skipped. */
  lemma NoMatchAmongMounts(ms: seq<Layer>, routes: seq<string>, req: Incoming, ctx: Context)
    requires forall k :: 0 <= k < |ms| ==> ms[k].ServiceLayer? && !MountMatches(ms[k].prefix, req.path)
    ensures Run(ms + [NotFoundLayer(routes)] + [ErrorLayer], req, Initial, ctx)
         == State(Some(NotFoundReply(req.originalUrl, routes, ctx.timestamp)), None, Done)
  {
    var nf := NotFoundLayer(routes);
    RunAppend(ms + [nf], [ErrorLayer], req, Initial, ctx);
    RunAppend(ms, [nf], req, Initial, ctx);
    RunPastOtherMounts(ms, req, Initial, ctx);
    RunOne(nf, req, Initial, ctx);
  }

  /** A path no handler claims gets the 404 document, and the router ends there. */
  lemma UnclaimedPathIsNotFound(defs: seq<ServiceDefinition>, req: Incoming, ctx: Context)
    requires req.path != "/" && req.path != "/health"
    requires var ms := Registered(ctx.registry, ServiceRoutes(defs));
      forall k :: 0 <= k < |ms| ==> !MountMatches(ms[k].prefix, req.path)
    ensures var out := Run(GatewayStack(ctx.registry, defs), req, Initial, ctx);
      && out.reply == Some(NotFoundReply(req.originalUrl, Prefixes(ServiceRoutes(defs)), ctx.timestamp))
      && out.flow == Done
  {
    var routes := ServiceRoutes(defs);
    StackParts(ctx.registry, defs);
    var ms := Registered(ctx.registry, routes);
    PastRootAndHealth(req, ctx, ms + [NotFoundLayer(Prefixes(routes))] + [ErrorLayer]);
    NoMatchAmongMounts(ms, Prefixes(routes), req, ctx);
  }
}
