/**
 * The web worker's entry point: a request whose path begins with `/api` goes to the API
 * application with the platform's `env` and `ctx`; every other request goes to the
 * server-side rendering handler, which receives them wrapped as its Cloudflare context.
 */
module WebServer {
  import opened Prelude
  import opened JsStrings
  import SharedTypes
  import opened JsValues
  import opened Http
  import Gateway

  /** The request context handed to the rendering handler: `{cloudflare: {env, ctx}}`. */
  datatype CloudflareContext = CloudflareContext(env: JsValue, ctx: JsValue)

  /** Which handler a request is passed to, and with what. */
  datatype Destination =
    | Api(request: Request, env: JsValue, ctx: JsValue)
    | Ssr(request: Request, context: CloudflareContext)

  /** server.ts:22-39 — the worker's `fetch`. */
  function Fetch(req: Request, env: JsValue, ctx: JsValue): (d: Destination)
    ensures d.Api? <==> StartsWith(req.path, "/api")
    ensures d.request == req
    ensures d.Api? ==> d.env == env && d.ctx == ctx
    ensures d.Ssr? ==> d.context == CloudflareContext(env, ctx)
  {
    if StartsWith(req.path, "/api") then Api(req, env, ctx) else Ssr(req, CloudflareContext(env, ctx))
  }

  /** Only the path decides: two requests with the same path, whatever their queries, go the same way. */
  lemma QueryNeverDecides(a: Request, b: Request, env: JsValue, ctx: JsValue)
    requires a.path == b.path
    ensures Fetch(a, env, ctx).Api? == Fetch(b, env, ctx).Api?
    ensures Fetch(a, env, ctx).Api? ==> Fetch(b, env, ctx) == Api(b, env, ctx)
  {
  }

  /** The prefix test is on characters, not path segments: `/apiary` goes to the API as well. */
  lemma ApiaryGoesToApi(req: Request, env: JsValue, ctx: JsValue)
    requires req.path == "/apiary"
    ensures Fetch(req, env, ctx) == Api(req, env, ctx)
  {
    assert req.path[..4] == "/api";
  }

  /** A path that starts with a text starting with `/api` starts with `/api`. */
  lemma ApiPrefixCarries(path: string, t: string)
    requires StartsWith(path, t) && StartsWith(t, "/api")
    ensures StartsWith(path, "/api")
  {
    assert path[..4] == path[..|t|][..4];
  }

  /** A path matched by a route mounted below a prefix under `/api` is under `/api`. */
  lemma MountedUnderApi(path: string, prefix: string, sub: Gateway.Route)
    requires StartsWith(prefix, "/api") && sub.pattern.Exact?
    requires Gateway.PatternMatches(Gateway.Mounted(prefix, sub).pattern, path)
    ensures StartsWith(path, "/api")
  {
    Gateway.StartsWithConcat(prefix, sub.pattern.path);
    ApiPrefixCarries(path, prefix);
  }

  /** A path matched by a module's proxy route is under `/api`. */
  lemma ModuleUnderApi(path: string, m: SharedTypes.ModuleName)
    requires Gateway.PatternMatches(Gateway.ModuleRoute(m).pattern, path)
    ensures StartsWith(path, "/api")
  {
    Gateway.UnderStartsWith(path, Gateway.ModuleMount(m));
    Gateway.StartsWithConcat("/api", "/" + SharedTypes.ModuleId(m));
    assert Gateway.ModuleMount(m) == "/api" + ("/" + SharedTypes.ModuleId(m));
    ApiPrefixCarries(path, Gateway.ModuleMount(m));
  }

  /**
   * Every route the API registers after `/health` — auth, the two routers and the five module
   * proxies — lies under `/api`, so the worker hands every request those routes match to the API.
   */
  lemma ApiRoutesReachable(siteUrl: Option<string>, req: Request, env: JsValue, ctx: JsValue, k: nat)
    requires 3 <= k < 15 && Gateway.PatternMatches(Gateway.GatewayRoutes(siteUrl)[k].pattern, req.path)
    ensures Fetch(req, env, ctx).Api?
  {
    if k == 3 {
      Gateway.UnderStartsWith(req.path, "/api/auth");
      ApiPrefixCarries(req.path, "/api/auth");
    } else if k < 7 {
      MountedUnderApi(req.path, "/api/unified", Gateway.UnifiedRoutes()[k - 4]);
    } else if k < 10 {
      MountedUnderApi(req.path, "/api/integrations", Gateway.IntegrationRoutes()[k - 7]);
    } else {
      ModuleUnderApi(req.path, Gateway.ModuleAt(k - 10));
    }
  }

  /** The API's own `/health` route is not under `/api`: through the worker it reaches the renderer. */
  lemma HealthGoesToRenderer(req: Request, env: JsValue, ctx: JsValue)
    requires req.path == "/health"
    ensures Fetch(req, env, ctx) == Ssr(req, CloudflareContext(env, ctx))
  {
    assert req.path[1] != "/api"[1];
  }
}
