/**
 * The API gateway application: an ordered table of middleware and routes, built by
 * registration calls, and the dispatch that runs a request through it — every matching
 * middleware in order, then the first matching handler.
 *
 * Patterns follow the router's rules: a plain path matches itself only, a prefix followed by a
 * wildcard segment matches the prefix and everything below `prefix/`, and a lone wildcard
 * matches every path. A HEAD request is matched as GET. The CORS middleware answers every OPTIONS request itself (a preflight).
 */
module Gateway {
  import opened Prelude
  import opened JsStrings
  import opened SharedTypes
  import opened Http
  import Auth
  import Proxy
  import Unified
  import Integrations

  // ---------------------------------------------------------------------------
  // The route table

  datatype Pattern = Exact(path: string) | Under(prefix: string) | AnyPath

  /** The registered middleware: the request logger and CORS with its allowed origin and credentials flag. */
  datatype Middleware = Logger | Cors(origin: string, credentials: bool)

  /** The handlers the gateway registers. */
  datatype Endpoint =
    | Health
    | AuthHandler
    | DashboardStats
    | ActivityFeed
    | Search
    | ContactToClient
    | DealToInvoice
    | TicketToActivity
    | ModuleProxy(target: ModuleName)

  /** A registered middleware, or a handler, possibly behind `requireAuth`. */
  datatype Action = Use(middleware: Middleware) | Handle(endpoint: Endpoint, requiresAuth: bool)

  /** One registration: the method it is restricted to (`None`: every method), its pattern and action. */
  datatype Route = Route(verb: Option<string>, pattern: Pattern, action: Action)

  predicate PatternMatches(p: Pattern, path: string) {
    match p
    case Exact(q) => path == q
    case Under(prefix) => path == prefix || StartsWith(path, prefix + "/")
    case AnyPath => true
  }

  /** The method routes are matched with: HEAD is served by the GET routes. */
  function MatchVerb(verb: string): string {
    if verb == "HEAD" then "GET" else verb
  }

  predicate Matches(r: Route, req: Request) {
    (r.verb.None? || r.verb.value == MatchVerb(req.verb)) && PatternMatches(r.pattern, req.path)
  }

  /** A sub-router's route mounted under `prefix`. */
  function Mounted(prefix: string, r: Route): Route {
    var pattern := match r.pattern
      case Exact(q) => Exact(prefix + q)
      case Under(q) => Under(prefix + q)
      case AnyPath => Under(prefix);
    Route(r.verb, pattern, r.action)
  }

  /** A sub-router's routes, in order, mounted under `prefix`. */
  function MountAll(prefix: string, sub: seq<Route>): (rs: seq<Route>)
    ensures |rs| == |sub| && forall k :: 0 <= k < |sub| ==> rs[k] == Mounted(prefix, sub[k])
  {
    if sub == [] then [] else MountAll(prefix, sub[..|sub| - 1]) + [Mounted(prefix, sub[|sub| - 1])]
  }

  /** An application under construction: its routes in registration order. */
  class App {
    var routes: seq<Route>

    constructor ()
      ensures routes == []
    {
      routes := [];
    }

    /** `app.use(pattern, middleware)`. */
    method Use(pattern: Pattern, m: Middleware)
      modifies this
      ensures routes == old(routes) + [Route(None, pattern, Action.Use(m))]
    {
      routes := routes + [Route(None, pattern, Action.Use(m))];
    }

    /** `app.get(path, handler)`, with `requireAuth` in front when `guarded`. */
    method Get(path: string, e: Endpoint, guarded: bool)
      modifies this
      ensures routes == old(routes) + [Route(Some("GET"), Exact(path), Handle(e, guarded))]
    {
      routes := routes + [Route(Some("GET"), Exact(path), Handle(e, guarded))];
    }

    /** `app.post(path, handler)`, with `requireAuth` in front when `guarded`. */
    method Post(path: string, e: Endpoint, guarded: bool)
      modifies this
      ensures routes == old(routes) + [Route(Some("POST"), Exact(path), Handle(e, guarded))]
    {
      routes := routes + [Route(Some("POST"), Exact(path), Handle(e, guarded))];
    }

    /** `app.all(pattern, handler)`: every method. */
    method All(pattern: Pattern, e: Endpoint)
      modifies this
      ensures routes == old(routes) + [Route(None, pattern, Handle(e, false))]
    {
      routes := routes + [Route(None, pattern, Handle(e, false))];
    }

    /** `app.route(prefix, sub)`: each of the sub-router's routes, in order, under `prefix`. */
    method Mount(prefix: string, sub: seq<Route>)
      modifies this
      ensures routes == old(routes) + MountAll(prefix, sub)
    {
      var i := 0;
      while i < |sub|
        invariant 0 <= i <= |sub|
        invariant routes == old(routes) + MountAll(prefix, sub[..i])
      {
        assert sub[..i + 1][..i] == sub[..i];
        routes := routes + [Mounted(prefix, sub[i])];
        i := i + 1;
      }
      assert sub[..|sub|] == sub;
    }
  }

  /** The unified router's routes (unified.ts): three guarded GET endpoints. */
  function UnifiedRoutes(): seq<Route> {
    [Route(Some("GET"), Exact("/dashboard/stats"), Handle(DashboardStats, true)),
     Route(Some("GET"), Exact("/activity"), Handle(ActivityFeed, true)),
     Route(Some("GET"), Exact("/search"), Handle(Search, true))]
  }

  /** The integrations router's routes (integrations.ts): three guarded POST endpoints. */
  function IntegrationRoutes(): seq<Route> {
    [Route(Some("POST"), Exact("/crm-to-invoicing/contact-to-client"), Handle(ContactToClient, true)),
     Route(Some("POST"), Exact("/crm-to-invoicing/deal-to-invoice"), Handle(DealToInvoice, true)),
     Route(Some("POST"), Exact("/helpdesk-to-crm/ticket-to-activity"), Handle(TicketToActivity, true))]
  }

  method CreateUnifiedRouter() returns (router: App)
    ensures fresh(router) && router.routes == UnifiedRoutes()
  {
    router := new App();
    router.Get("/dashboard/stats", DashboardStats, true);
    router.Get("/activity", ActivityFeed, true);
    router.Get("/search", Search, true);
  }

  method CreateIntegrationsRouter() returns (router: App)
    ensures fresh(router) && router.routes == IntegrationRoutes()
  {
    router := new App();
    router.Post("/crm-to-invoicing/contact-to-client", ContactToClient, true);
    router.Post("/crm-to-invoicing/deal-to-invoice", DealToInvoice, true);
    router.Post("/helpdesk-to-crm/ticket-to-activity", TicketToActivity, true);
  }

  /** The CORS origin: `env.VITE_PUBLIC_SITE_URL || "*"`. */
  function CorsOrigin(siteUrl: Option<string>): string {
    StringOr(siteUrl, "*")
  }

  /** The path each module's proxy is mounted on. */
  function ModuleMount(m: ModuleName): (path: string)
    ensures path == "/api/" + ModuleId(m)
  {
    match m
    case Projects => "/api/projects"
    case Crm => "/api/crm"
    case Invoicing => "/api/invoicing"
    case Helpdesk => "/api/helpdesk"
    case Queue => "/api/queue"
  }

  function ModuleRoute(m: ModuleName): Route {
    Route(None, Under(ModuleMount(m)), Handle(ModuleProxy(m), false))
  }

  /** The modules whose proxies are registered, in registration order. */
  function ModuleAt(i: nat): ModuleName
    requires i < 5
  {
    if i == 0 then Projects else if i == 1 then Crm else if i == 2 then Invoicing else if i == 3 then Helpdesk else Queue
  }

  /** The position of a module's proxy in the gateway's table. */
  function ModuleIndex(m: ModuleName): (k: nat)
    ensures 10 <= k < 15 && ModuleAt(k - 10) == m
  {
    match m
    case Projects => 10
    case Crm => 11
    case Invoicing => 12
    case Helpdesk => 13
    case Queue => 14
  }

  /** The `k`-th registration of the gateway, with the two sub-routers mounted at 4..6 and 7..9. */
  function GatewayRoute(siteUrl: Option<string>, k: nat): Route
    requires k < 15
  {
    if k == 0 then Route(None, AnyPath, Action.Use(Logger))
    else if k == 1 then Route(None, AnyPath, Action.Use(Cors(CorsOrigin(siteUrl), true)))
    else if k == 2 then Route(Some("GET"), Exact("/health"), Handle(Health, false))
    else if k == 3 then Route(None, Under("/api/auth"), Handle(AuthHandler, false))
    else if k < 7 then Mounted("/api/unified", UnifiedRoutes()[k - 4])
    else if k < 10 then Mounted("/api/integrations", IntegrationRoutes()[k - 7])
    else ModuleRoute(ModuleAt(k - 10))
  }

  /**
   * The gateway's table, in registration order. The ensures only unfolds the comprehension, so
   * that the verifier can index the table without instantiating it.
   */
  function GatewayRoutes(siteUrl: Option<string>): (rs: seq<Route>)
    ensures |rs| == 15 && forall k :: 0 <= k < 15 ==> rs[k] == GatewayRoute(siteUrl, k)
  {
    seq(15, k requires 0 <= k < 15 => GatewayRoute(siteUrl, k))
  }

  /** index.ts:29-62 — create the app and register everything, in this order. */
  method CreateApp(siteUrl: Option<string>) returns (app: App)
    ensures fresh(app) && app.routes == GatewayRoutes(siteUrl)
  {
    app := new App();
    RegisterMiddleware(app, siteUrl);
    app.Get("/health", Health, false);
    app.All(Under("/api/auth"), AuthHandler);
    var unified := CreateUnifiedRouter();
    app.Mount("/api/unified", unified.routes);
    var integrations := CreateIntegrationsRouter();
    app.Mount("/api/integrations", integrations.routes);
    RegisterProxies(app);
    RegistrationOrder(siteUrl);
  }

  /** index.ts:31-39 — the logger, then CORS, for every path. */
  method RegisterMiddleware(app: App, siteUrl: Option<string>)
    modifies app
    ensures app.routes == old(app.routes) +
      [Route(None, AnyPath, Action.Use(Logger)), Route(None, AnyPath, Action.Use(Cors(CorsOrigin(siteUrl), true)))]
  {
    app.Use(AnyPath, Logger);
    app.Use(AnyPath, Cors(CorsOrigin(siteUrl), true));
  }

  /** index.ts:58-62 — one proxy per module, for every method, under the module's prefix. */
  method RegisterProxies(app: App)
    modifies app
    ensures app.routes == old(app.routes) +
      [ModuleRoute(Projects), ModuleRoute(Crm), ModuleRoute(Invoicing), ModuleRoute(Helpdesk), ModuleRoute(Queue)]
  {
    app.All(Under(ModuleMount(Projects)), ModuleProxy(Projects));
    app.All(Under(ModuleMount(Crm)), ModuleProxy(Crm));
    app.All(Under(ModuleMount(Invoicing)), ModuleProxy(Invoicing));
    app.All(Under(ModuleMount(Helpdesk)), ModuleProxy(Helpdesk));
    app.All(Under(ModuleMount(Queue)), ModuleProxy(Queue));
  }

  /** The registrations of `CreateApp`, appended in order, are the gateway's table. */
  lemma RegistrationOrder(siteUrl: Option<string>)
    ensures GatewayRoutes(siteUrl) ==
      [Route(None, AnyPath, Action.Use(Logger)),
       Route(None, AnyPath, Action.Use(Cors(CorsOrigin(siteUrl), true))),
       Route(Some("GET"), Exact("/health"), Handle(Health, false)),
       Route(None, Under("/api/auth"), Handle(AuthHandler, false))]
      + MountAll("/api/unified", UnifiedRoutes())
      + MountAll("/api/integrations", IntegrationRoutes())
      + [ModuleRoute(Projects), ModuleRoute(Crm), ModuleRoute(Invoicing), ModuleRoute(Helpdesk), ModuleRoute(Queue)]
  {
    var head := [Route(None, AnyPath, Action.Use(Logger)),
       Route(None, AnyPath, Action.Use(Cors(CorsOrigin(siteUrl), true))),
       Route(Some("GET"), Exact("/health"), Handle(Health, false)),
       Route(None, Under("/api/auth"), Handle(AuthHandler, false))];
    var unified := MountAll("/api/unified", UnifiedRoutes());
    var integrations := MountAll("/api/integrations", IntegrationRoutes());
    var modules := [ModuleRoute(Projects), ModuleRoute(Crm), ModuleRoute(Invoicing), ModuleRoute(Helpdesk), ModuleRoute(Queue)];
    var built := head + unified + integrations + modules;
    forall k | 0 <= k < 15
      ensures built[k] == GatewayRoute(siteUrl, k)
    {
      if k < 4 {
        assert built[k] == head[k];
      } else if k < 7 {
        assert built[k] == unified[k - 4];
      } else if k < 10 {
        assert built[k] == integrations[k - 7];
      } else {
        assert built[k] == modules[k - 10];
      }
    }
  }

  // ---------------------------------------------------------------------------
  // Dispatch

  /** Where a request ends up: a CORS preflight answer, a handler, or no route at all. */
  datatype Decision = PreflightAnswer(origin: string, credentials: bool) | ToHandler(endpoint: Endpoint, requiresAuth: bool) | NoRoute

  /** A route that hands the request on: it does not match, or it is middleware that calls `next`. */
  predicate Passes(r: Route, req: Request) {
    !Matches(r, req) || r.action == Action.Use(Logger) || (r.action.Use? && r.action.middleware.Cors? && req.verb != "OPTIONS")
  }

  /**
   * What a route that does not hand the request on decides. The logger always hands the request
   * on (`Passes` holds for it), so its case is never reached from dispatch; it is there to make
   * `Stop` total.
   */
  function Stop(r: Route): Decision {
    match r.action
    case Use(Cors(o, c)) => PreflightAnswer(o, c)
    case Use(Logger) => NoRoute
    case Handle(e, g) => ToHandler(e, g)
  }

  /** Run the request through `routes` from index `i` on. */
  function DispatchFrom(routes: seq<Route>, req: Request, i: nat): Decision
    requires i <= |routes|
    decreases |routes| - i
  {
    if i == |routes| then NoRoute
    else if !Matches(routes[i], req) then DispatchFrom(routes, req, i + 1)
    else
      match routes[i].action
      case Use(Logger) => DispatchFrom(routes, req, i + 1)
      case Use(Cors(o, c)) => if req.verb == "OPTIONS" then PreflightAnswer(o, c) else DispatchFrom(routes, req, i + 1)
      case Handle(e, g) => ToHandler(e, g)
  }

  /**
   * No route is found exactly when every route hands the request on. A handler is chosen only
   * from a route that matches the request and registers that handler, and a preflight answer
   * only for an OPTIONS request matched by a CORS registration.
   */
  function Dispatch(routes: seq<Route>, req: Request): (d: Decision)
    ensures d.NoRoute? <==> forall k :: 0 <= k < |routes| ==> Passes(routes[k], req)
    ensures d.ToHandler? ==>
      exists k :: 0 <= k < |routes| && Matches(routes[k], req) && routes[k].action == Handle(d.endpoint, d.requiresAuth)
    ensures d.PreflightAnswer? ==> req.verb == "OPTIONS"
    ensures d.PreflightAnswer? ==>
      exists k :: 0 <= k < |routes| && Matches(routes[k], req) && routes[k].action == Action.Use(Cors(d.origin, d.credentials))
  {
    var d := DispatchFrom(routes, req, 0);
    DispatchIsFirstStop(routes, req, 0, 0);
    if d.NoRoute? then d
    else
      var k := FirstStop(routes, req, 0);
      assert Matches(routes[k], req) && d == Stop(routes[k]);
      d
  }

  /**
   * Dispatch decides by the FIRST route that does not hand the request on, and finds no route
   * when every route hands it on.
   */
  lemma {:induction false} DispatchIsFirstStop(routes: seq<Route>, req: Request, i: nat, k: nat)
    requires i <= |routes|
    decreases |routes| - i
    ensures (forall j :: i <= j < |routes| ==> Passes(routes[j], req)) <==> DispatchFrom(routes, req, i) == NoRoute
    ensures i <= k < |routes| && !Passes(routes[k], req) && (forall j :: i <= j < k ==> Passes(routes[j], req))
      ==> DispatchFrom(routes, req, i) == Stop(routes[k])
  {
    if i < |routes| {
      DispatchIsFirstStop(routes, req, i + 1, k);
    }
  }

  /** The route at `k` decides when every route before it hands the request on. */
  lemma DecidedAt(routes: seq<Route>, req: Request, k: nat)
    requires k < |routes| && !Passes(routes[k], req)
    requires forall j :: 0 <= j < k ==> Passes(routes[j], req)
    ensures Dispatch(routes, req) == Stop(routes[k])
  {
    DispatchIsFirstStop(routes, req, 0, k);
  }

  /** A request with every needed outcome: module URLs, the transport, the session lookup, the auth library. */
  datatype World = World(
    urls: ModuleUrls,
    send: Outbound -> FetchOutcome,
    session: Auth.SessionLookup,
    authHandler: Request -> Response)

  /**
   * What each endpoint does with the request. Health, auth, activity and search make no call of
   * their own; the statistics make five; an integration handler at most two; a proxy at most one.
   */
  function Invoke(e: Endpoint, req: Request, w: World): (run: Run)
    ensures e.Health? || e.AuthHandler? || e.ActivityFeed? || e.Search? ==> run.calls == []
    ensures e.DashboardStats? ==> |run.calls| == 5 && run.response.status == 200
    ensures e.ContactToClient? || e.DealToInvoice? || e.TicketToActivity? ==> |run.calls| <= 2
    ensures e.ModuleProxy? ==> |run.calls| <= 1
  {
    match e
    case Health => Run([], Response(200, HealthBody("ok", "business-suite-api")))
    case AuthHandler => Run([], w.authHandler(req))
    case DashboardStats => Unified.DashboardStats(w.urls, w.send)
    case ActivityFeed => Run([], Unified.Activity(req.query))
    case Search => Run([], Unified.Search(req.query))
    case ContactToClient => Integrations.ContactToClient(w.urls, req, w.send)
    case DealToInvoice => Integrations.DealToInvoice(w.urls, req, w.send)
    case TicketToActivity => Integrations.TicketToActivity(w.urls, req, w.send)
    case ModuleProxy(m) =>
      var run := Proxy.ModuleProxy(w.urls, m, req, w.send);
      Run(if run.forwarded.Some? then [run.forwarded.value] else [], run.response)
  }

  /** A handler behind `requireAuth` runs only when the gate lets the request through. */
  function Guarded(e: Endpoint, requiresAuth: bool, req: Request, w: World): (run: Run)
    ensures !requiresAuth || Auth.HasUser(w.session) ==> run == Invoke(e, req, w)
    ensures requiresAuth && !Auth.HasUser(w.session) ==>
      run.calls == [] && run.response.status == 401 && run.response == Auth.RequireAuthVerdict(w.session).value
  {
    if requiresAuth then
      match Auth.RequireAuthVerdict(w.session)
      case Some(rejection) => Run([], rejection)
      case None => Invoke(e, req, w)
    else Invoke(e, req, w)
  }

  /**
   * The whole application applied to one request: no call leaves the gateway unless a handler is
   * reached and, when it is guarded, the gate admits the request.
   */
  function Serve(routes: seq<Route>, req: Request, w: World): (run: Run)
    ensures Dispatch(routes, req).NoRoute? ==> run.calls == [] && run.response.status == 404
    ensures Dispatch(routes, req).PreflightAnswer? ==> run.calls == [] && run.response.status == 204
    ensures Dispatch(routes, req).ToHandler? && Dispatch(routes, req).requiresAuth && !Auth.HasUser(w.session) ==>
      run.calls == [] && run.response.status == 401
    ensures |run.calls| <= 5
  {
    match Dispatch(routes, req)
    case NoRoute => Run([], Response(404, Text("404 Not Found")))
    case PreflightAnswer(o, c) => Run([], Response(204, Preflight(o, c)))
    case ToHandler(e, g) => Guarded(e, g, req, w)
  }

  // ---------------------------------------------------------------------------
  // Properties of the gateway's table

  /**
   * Logger and CORS come first and apply to every path and method; CORS allows the site URL or
   * "*", with credentials. No other middleware is registered: everything after them is a handler.
   */
  lemma MiddlewareFirst(siteUrl: Option<string>)
    ensures var rs := GatewayRoutes(siteUrl);
      && |rs| == 15
      && rs[0] == Route(None, AnyPath, Action.Use(Logger))
      && rs[1] == Route(None, AnyPath, Action.Use(Cors(StringOr(siteUrl, "*"), true)))
      && forall k :: 2 <= k < |rs| ==> rs[k].action.Handle?
  {
  }

  /**
   * `requireAuth` sits in front of exactly the six unified and integration routes; `/health`,
   * auth and the five proxies are open. Module `m`'s proxy is registered for every method under
   * `/api/{m}`.
   */
  lemma GuardsAndProxies(siteUrl: Option<string>)
    ensures var rs := GatewayRoutes(siteUrl);
      forall k :: 2 <= k < 15 ==> rs[k].action.Handle? && (rs[k].action.requiresAuth <==> 4 <= k < 10)
    ensures forall m ::
      GatewayRoutes(siteUrl)[ModuleIndex(m)] == Route(None, Under("/api/" + ModuleId(m)), Handle(ModuleProxy(m), false))
  {
    var rs := GatewayRoutes(siteUrl);
    forall k | 2 <= k < 15
      ensures rs[k].action.Handle? && (rs[k].action.requiresAuth <==> 4 <= k < 10)
    {
      if 4 <= k < 7 {
        assert UnifiedRoutes()[k - 4].action == Handle(UnifiedRoutes()[k - 4].action.endpoint, true);
      } else if 7 <= k < 10 {
        assert IntegrationRoutes()[k - 7].action == Handle(IntegrationRoutes()[k - 7].action.endpoint, true);
      }
    }
  }

  /** The table a registration run builds is the gateway's table. */
  method BuiltTableIsGatewayTable(siteUrl: Option<string>) returns (table: seq<Route>)
    ensures table == GatewayRoutes(siteUrl)
    ensures |table| == 15 && table[14] == ModuleRoute(Queue)
  {
    var app := CreateApp(siteUrl);
    table := app.routes;
  }

  /** Every OPTIONS request is answered by CORS before any route sees it. */
  lemma PreflightAnsweredFirst(siteUrl: Option<string>, req: Request, w: World)
    requires req.verb == "OPTIONS"
    ensures Serve(GatewayRoutes(siteUrl), req, w) == Run([], Response(204, Preflight(StringOr(siteUrl, "*"), true)))
  {
    DecidedAt(GatewayRoutes(siteUrl), req, 1);
  }

  /** `GET /health` (or HEAD) is the constant status, with no downstream call and no session lookup. */
  lemma HealthIsConstant(siteUrl: Option<string>, req: Request, w: World)
    requires req.path == "/health" && MatchVerb(req.verb) == "GET"
    ensures Serve(GatewayRoutes(siteUrl), req, w) == Run([], Response(200, HealthBody("ok", "business-suite-api")))
  {
    DecidedAt(GatewayRoutes(siteUrl), req, 2);
  }

  /** A request dispatched to a handler is served by that handler behind its gate. */
  lemma ServesHandler(routes: seq<Route>, req: Request, w: World, e: Endpoint, g: bool)
    requires Dispatch(routes, req) == ToHandler(e, g)
    ensures Serve(routes, req, w) == Guarded(e, g, req, w)
  {
  }

  /** Two distinct characters at the same index keep a path under one prefix off another. */
  lemma Diverges(path: string, p: string, q: string, i: nat)
    requires StartsWith(path, p) && i < |p| && i < |q| && p[i] != q[i]
    ensures path != q && !StartsWith(path, q) && !StartsWith(path, q + "/")
  {
    assert path[i] == p[i];
    assert (q + "/")[i] == q[i];
  }

  /** A path matched by the wildcard below `prefix` starts with `prefix`. */
  lemma UnderStartsWith(path: string, prefix: string)
    requires PatternMatches(Under(prefix), path)
    ensures StartsWith(path, prefix)
  {
    if path != prefix {
      assert (prefix + "/")[..|prefix|] == prefix;
      assert path[..|prefix|] == path[..|prefix + "/"|][..|prefix|];
    }
  }

  /** `p + rest` starts with `p`. */
  lemma StartsWithConcat(p: string, rest: string)
    ensures StartsWith(p + rest, p)
  {
    assert (p + rest)[..|p|] == p;
  }

  /** Two paths under the same mount point are equal only when their remainders are. */
  lemma ConcatCancel(p: string, a: string, b: string)
    requires p + a == p + b
    ensures a == b
  {
    assert a == (p + a)[|p|..];
    assert b == (p + b)[|p|..];
  }

  /** A path under `p` is taken by no route of a sub-router mounted where `p` differs at index `i`. */
  lemma OffMounted(path: string, p: string, prefix: string, sub: seq<Route>, i: nat)
    requires StartsWith(path, p) && i < |p| && i < |prefix| && p[i] != prefix[i]
    ensures forall j :: 0 <= j < |sub| ==> !PatternMatches(Mounted(prefix, sub[j]).pattern, path)
  {
    forall j | 0 <= j < |sub|
      ensures !PatternMatches(Mounted(prefix, sub[j]).pattern, path)
    {
      match sub[j].pattern
      case Exact(q) => Diverges(path, p, prefix + q, i);
      case Under(q) => Diverges(path, p, prefix + q, i);
      case AnyPath => Diverges(path, p, prefix, i);
    }
  }

  /** Every method on `/api/auth` and below except OPTIONS goes to the auth library with the raw request. */
  lemma AuthDelegated(siteUrl: Option<string>, req: Request, w: World)
    requires PatternMatches(Under("/api/auth"), req.path) && req.verb != "OPTIONS"
    ensures Serve(GatewayRoutes(siteUrl), req, w) == Run([], w.authHandler(req))
  {
    var rs := GatewayRoutes(siteUrl);
    UnderStartsWith(req.path, "/api/auth");
    Diverges(req.path, "/api/auth", "/health", 1);
    assert Passes(rs[2], req);
    DecidedAt(rs, req, 3);
  }

  /** No route before the `k`-th unified route takes a request for that route's full path. */
  lemma UnifiedEarlierPass(siteUrl: Option<string>, req: Request, k: nat)
    requires k < 3 && MatchVerb(req.verb) == "GET"
    requires req.path == "/api/unified" + UnifiedRoutes()[k].pattern.path
    ensures forall j :: 0 <= j < 4 + k ==> Passes(GatewayRoutes(siteUrl)[j], req)
  {
    var rs := GatewayRoutes(siteUrl);
    var sub := UnifiedRoutes();
    var p := "/api/unified";
    StartsWithConcat(p, sub[k].pattern.path);
    Diverges(req.path, p, "/health", 1);
    Diverges(req.path, p, "/api/auth", 5);
    assert Passes(rs[2], req) && Passes(rs[3], req);
    forall i | 4 <= i < 4 + k
      ensures Passes(rs[i], req)
    {
      if p + sub[i - 4].pattern.path == req.path {
        ConcatCancel(p, sub[i - 4].pattern.path, sub[k].pattern.path);
      }
    }
  }

  /**
   * Each of the unified router's three routes, mounted under `/api/unified`, is reached by GET
   * (or HEAD) on its full path and runs its handler behind the gate.
   */
  lemma UnifiedRouted(siteUrl: Option<string>, req: Request, w: World, k: nat)
    requires k < 3 && MatchVerb(req.verb) == "GET"
    requires req.path == "/api/unified" + UnifiedRoutes()[k].pattern.path
    ensures Dispatch(GatewayRoutes(siteUrl), req) == ToHandler(UnifiedRoutes()[k].action.endpoint, true)
    ensures Serve(GatewayRoutes(siteUrl), req, w) == Guarded(UnifiedRoutes()[k].action.endpoint, true, req, w)
  {
    UnifiedEarlierPass(siteUrl, req, k);
    DecidedAt(GatewayRoutes(siteUrl), req, 4 + k);
    ServesHandler(GatewayRoutes(siteUrl), req, w, UnifiedRoutes()[k].action.endpoint, true);
  }

  /** No route before the `k`-th integration route takes a request for that route's full path. */
  lemma IntegrationsEarlierPass(siteUrl: Option<string>, req: Request, k: nat)
    requires k < 3 && req.verb == "POST"
    requires req.path == "/api/integrations" + IntegrationRoutes()[k].pattern.path
    ensures forall j :: 0 <= j < 7 ==> Passes(GatewayRoutes(siteUrl)[j], req)
    ensures forall j :: 7 <= j < 7 + k ==> Passes(GatewayRoutes(siteUrl)[j], req)
  {
    var rs := GatewayRoutes(siteUrl);
    var sub := IntegrationRoutes();
    var p := "/api/integrations";
    StartsWithConcat(p, sub[k].pattern.path);
    Diverges(req.path, p, "/health", 1);
    Diverges(req.path, p, "/api/auth", 5);
    assert Passes(rs[2], req) && Passes(rs[3], req);
    OffMounted(req.path, p, "/api/unified", UnifiedRoutes(), 5);
    assert Passes(rs[4], req) && Passes(rs[5], req) && Passes(rs[6], req);
    IntegrationsPassEachOther(siteUrl, req, k);
  }

  /** The integration routes before the `k`-th do not take a request for the `k`-th's full path. */
  lemma IntegrationsPassEachOther(siteUrl: Option<string>, req: Request, k: nat)
    requires k < 3
    requires req.path == "/api/integrations" + IntegrationRoutes()[k].pattern.path
    ensures forall j :: 7 <= j < 7 + k ==> Passes(GatewayRoutes(siteUrl)[j], req)
  {
    var rs := GatewayRoutes(siteUrl);
    var sub := IntegrationRoutes();
    var p := "/api/integrations";
    assert sub[0].pattern.path[1] != sub[2].pattern.path[1];
    forall i | 7 <= i < 7 + k
      ensures Passes(rs[i], req)
    {
      if p + sub[i - 7].pattern.path == req.path {
        ConcatCancel(p, sub[i - 7].pattern.path, sub[k].pattern.path);
      }
    }
  }

  /**
   * Each of the integrations router's three routes, mounted under `/api/integrations`, is reached
   * by POST on its full path and runs its handler behind the gate.
   */
  lemma IntegrationsRouted(siteUrl: Option<string>, req: Request, w: World, k: nat)
    requires k < 3 && req.verb == "POST"
    requires req.path == "/api/integrations" + IntegrationRoutes()[k].pattern.path
    ensures Dispatch(GatewayRoutes(siteUrl), req) == ToHandler(IntegrationRoutes()[k].action.endpoint, true)
    ensures Serve(GatewayRoutes(siteUrl), req, w) == Guarded(IntegrationRoutes()[k].action.endpoint, true, req, w)
  {
    IntegrationsEarlierPass(siteUrl, req, k);
    DecidedAt(GatewayRoutes(siteUrl), req, 7 + k);
    ServesHandler(GatewayRoutes(siteUrl), req, w, IntegrationRoutes()[k].action.endpoint, true);
  }

  /** No route before the module proxies takes a request under a module's prefix. */
  lemma FixedRoutesPass(siteUrl: Option<string>, req: Request, m: ModuleName)
    requires StartsWith(req.path, ModuleMount(m)) && req.verb != "OPTIONS"
    ensures forall j :: 0 <= j < 10 ==> Passes(GatewayRoutes(siteUrl)[j], req)
  {
    var rs := GatewayRoutes(siteUrl);
    var p := ModuleMount(m);
    Diverges(req.path, p, "/health", 1);
    Diverges(req.path, p, "/api/auth", 5);
    OffMounted(req.path, p, "/api/unified", UnifiedRoutes(), 5);
    OffMounted(req.path, p, "/api/integrations", IntegrationRoutes(), if m == Invoicing then 7 else 5);
    assert Passes(rs[2], req) && Passes(rs[3], req);
  }

  /** The proxies of the modules registered before `m` do not take a request under `m`'s prefix. */
  lemma EarlierProxiesPass(siteUrl: Option<string>, req: Request, m: ModuleName)
    requires StartsWith(req.path, ModuleMount(m))
    ensures forall j :: 10 <= j < ModuleIndex(m) ==> Passes(GatewayRoutes(siteUrl)[j], req)
  {
    var rs := GatewayRoutes(siteUrl);
    forall j | 10 <= j < ModuleIndex(m)
      ensures Passes(rs[j], req)
    {
      Diverges(req.path, ModuleMount(m), ModuleMount(ModuleAt(j - 10)), 5);
    }
  }

  /** No route before a module's proxy takes a request under that module's prefix. */
  lemma EarlierRoutesPass(siteUrl: Option<string>, req: Request, m: ModuleName)
    requires StartsWith(req.path, ModuleMount(m)) && req.verb != "OPTIONS"
    ensures GatewayRoutes(siteUrl)[ModuleIndex(m)] == ModuleRoute(m)
    ensures forall j :: 0 <= j < ModuleIndex(m) ==> Passes(GatewayRoutes(siteUrl)[j], req)
  {
    FixedRoutesPass(siteUrl, req, m);
    EarlierProxiesPass(siteUrl, req, m);
  }

  /** Every method on `/api/{m}` and below except OPTIONS goes to the proxy of module `m` itself. */
  lemma ModuleRouted(siteUrl: Option<string>, req: Request, w: World, m: ModuleName)
    requires PatternMatches(Under(ModuleMount(m)), req.path) && req.verb != "OPTIONS"
    ensures Dispatch(GatewayRoutes(siteUrl), req) == ToHandler(ModuleProxy(m), false)
    ensures Serve(GatewayRoutes(siteUrl), req, w).response == Proxy.ModuleProxy(w.urls, m, req, w.send).response
  {
    UnderStartsWith(req.path, ModuleMount(m));
    EarlierRoutesPass(siteUrl, req, m);
    DispatchIsFirstStop(GatewayRoutes(siteUrl), req, 0, ModuleIndex(m));
  }

  /**
   * The proxy of module `m` is only ever reached with a path that begins with `/api/{m}`, so the
   * text it strips is always there, at the start: the forwarded path is the rest of the path.
   */
  lemma ProxyOnlySeesItsPrefix(siteUrl: Option<string>, req: Request, m: ModuleName)
    requires Dispatch(GatewayRoutes(siteUrl), req) == ToHandler(ModuleProxy(m), false)
    ensures StartsWith(req.path, Proxy.ModulePrefix(m))
    ensures Proxy.ForwardPath(m, req.path) == req.path[|Proxy.ModulePrefix(m)|..]
  {
    var rs := GatewayRoutes(siteUrl);
    var k := FirstStop(rs, req, 0);
    ProxyEntry(siteUrl, k, m);
    assert Matches(ModuleRoute(m), req);
    var p := Proxy.ModulePrefix(m);
    UnderStartsWith(req.path, p);
    assert req.path == p + req.path[|p|..];
    ReplacePrefix(p, req.path[|p|..]);
  }

  /** The only entry of the gateway's table that registers module `m`'s proxy is `m`'s own route. */
  lemma ProxyEntry(siteUrl: Option<string>, k: nat, m: ModuleName)
    requires k < 15 && GatewayRoutes(siteUrl)[k].action == Handle(ModuleProxy(m), false)
    ensures GatewayRoutes(siteUrl)[k] == ModuleRoute(m)
  {
    assert GatewayRoutes(siteUrl)[k] == GatewayRoute(siteUrl, k);
  }

  /** The index of the route that decided, when some route did. */
  function FirstStop(routes: seq<Route>, req: Request, i: nat): (k: nat)
    requires i <= |routes|
    requires DispatchFrom(routes, req, i) != NoRoute
    decreases |routes| - i
    ensures i <= k < |routes| && !Passes(routes[k], req) && Matches(routes[k], req)
    ensures forall j :: i <= j < k ==> Passes(routes[j], req)
    ensures DispatchFrom(routes, req, i) == Stop(routes[k])
  {
    if !Passes(routes[i], req) then i else FirstStop(routes, req, i + 1)
  }
}
