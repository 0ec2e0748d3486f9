# business-suite gateway, modelled in Dafny

The business suite runs one API gateway in front of five stand-alone module APIs: projects,
CRM, invoicing, helpdesk and queue. A Cloudflare worker serves the web front end. It hands every
request under `/api` to the gateway and renders every other page on the server. This project
models the gateway's request-handling decisions and proves what they guarantee.

The model covers:

- the route table the gateway registers, and how a request goes through it. The request logger
  and CORS run first. Then the first matching route handles the request, possibly behind the
  authentication gate.
- the module reverse proxy. It fails closed with 503, strips `/api/{module}` and builds the
  upstream URL. It copies the headers, overwrites `x-forwarded-for` and attaches the raw body for
  methods other than GET and HEAD. It passes the reply back or answers 502.
- the unified router: the dashboard statistics merged from five settled requests, the paged
  activity feed and the search validation.
- the three cross-module integration handlers, with their payload builders and their
  404/500/200 outcomes.
- `requireAuth` and `optionalAuth` over a per-request context object.
- the worker's `fetch` dispatcher.
- the shared display-name lookup and relative-time formatter.
- the Redis client (real or no-op) and the cache-aside helpers over it. The TypeScript source
  and its compiled JavaScript twin behave the same and share one model.

All network traffic goes through a transport parameter, `send: Outbound -> FetchOutcome`. A
handler's result is a `Run`: the list of requests it sent, in order, and the response it gave.
The session lookup, the auth library's handler, the module URLs, the current time and the date
formatter are parameters too.

Modules:

- `Prelude`, `JsStrings`, `JsNumbers` and `JsValues` give the JavaScript semantics the code
  relies on: `startsWith`, `includes`, `replace` of the first occurrence, `parseInt`, number to
  text, `Array.prototype.slice`, truthiness, `||` and `?.`.
- `SharedTypes` holds the module names and the statistics record.
- `Http` holds requests, outbound requests, replies and responses.
- `Proxy`, `Unified`, `Integrations`, `Auth`, `Gateway`, `WebServer`, `SharedUtils` and
  `RedisCache` each follow one source file (or the TS/JS pair for Redis).

The stateful parts are classes with `modifies` clauses:

- `Gateway.App`, whose registration calls append to an ordered route list;
- `Auth.RequestContext`, whose `set` and `next` change the per-request context;
- `RedisCache.RedisClient`, whose `set`, `delete` and `deleteMany` change the store and record
  the commands sent.

The proxy's header copy is a loop over the inbound headers.

## Model

| member | source | states |
|---|---|---|
| Proxy.ModuleProxy | apps/api/src/middleware/proxy.ts:19-64 | At most one request leaves, and it leaves exactly when the module has a URL. Without one the answer is 503. The request sent is the forwarded request. The answer's status is the upstream status when the reply can be rebuilt, and 502 otherwise. NotConfiguredFailsClosed, ForwardedRequestSpec, ReplyPassesThrough and FailureIsBadGateway give the details. |
| Proxy.ModuleUrl | apps/api/src/middleware/proxy.ts:21-23 | No URL exactly when the registry has no entry for the module or the entry is empty; otherwise the entry itself. |
| Proxy.NotConfiguredFailsClosed | apps/api/src/middleware/proxy.ts:21-28 | Nothing is forwarded exactly when the module's URL is unset or empty, and then the answer is 503 "Module {m} not configured". |
| Proxy.ForwardPathCutsFirstOccurrence | apps/api/src/middleware/proxy.ts:31 | The forwarded path is the inbound path with the first occurrence of `/api/{m}` cut out, wherever it occurs; without an occurrence the path is unchanged. |
| Proxy.CrmContactsPath | apps/api/src/middleware/proxy.ts:31 | `/api/crm/contacts` is forwarded as `/contacts`. |
| Proxy.UrlHasQuestionMark | apps/api/src/middleware/proxy.ts:32 | The inbound URL contains `?` exactly when the request has a query part. |
| Proxy.QueryStringDropped | apps/api/src/middleware/proxy.ts:32 | The upstream URL is base, stripped path, then a lone `?` when the inbound URL had no query, and nothing when it had one. |
| Proxy.QueryStringDroppedExample | apps/api/src/middleware/proxy.ts:32 | `GET /api/crm/contacts?page=2` is forwarded to `{crm}/contacts`, without `page=2`. |
| Proxy.CopyHeaders | apps/api/src/middleware/proxy.ts:36-40 | The header set built one inbound header at a time, then overwritten at `x-forwarded-for`, is the forwarded header map. |
| Proxy.ForwardedHeadersSpec | apps/api/src/middleware/proxy.ts:36-40 | `x-forwarded-for` is the last `cf-connecting-ip` value, or "" without one, whatever the client sent under that name. Every other name is present exactly when the client sent it, with the value the inbound header list gives it (one entry per name, see Left out). |
| Proxy.ForwardedRequestSpec | apps/api/src/middleware/proxy.ts:42-48 | A configured module gets one request with the inbound method, the forwarded URL (the base URL followed by the stripped path and the query suffix) and the forwarded headers. It carries the raw inbound bytes exactly when the method is neither GET nor HEAD, and no body otherwise. |
| Proxy.ReplyPassesThrough | apps/api/src/middleware/proxy.ts:51-55 | An upstream reply whose status may carry a body goes back unchanged: status, headers and bytes, error statuses included. |
| Proxy.FailureIsBadGateway | apps/api/src/middleware/proxy.ts:56-62 | A transport failure, or a failure rebuilding the reply, is answered 502 "Failed to connect to {m} module". |
| Proxy.NoContentBecomesBadGateway | apps/api/src/middleware/proxy.ts:51-62 | An upstream 204 reaches the client as 502. |
| Proxy.IntendedForwardUrl | apps/api/src/middleware/proxy.ts:32 | Corrected URL: base and stripped path, followed by `?` and the inbound query text exactly when there is one. |
| Proxy.IntendedUpstreamResponse | apps/api/src/middleware/proxy.ts:51-55 | Corrected passthrough: every status from 200 to 599 goes back as it came, a null-body status without a body. |
| Proxy.IntendedModuleProxy | apps/api/src/middleware/proxy.ts:19-64 | Corrected proxy: the same 503 and 502 answers. It forwards the corrected URL with the forwarded headers and body, and every reply status from 200 to 599 reaches the client. |
| Unified.DashboardStats | apps/api/src/routers/unified.ts:19-114 | Exactly five requests and a 200 with a statistics record, whatever the modules answer. DashboardStatsSpec ties each sub-record to its own module. |
| Unified.Settle | apps/api/src/routers/unified.ts:22-37 | A module's statistics settle as fulfilled exactly when the transport replied with a JSON body, whatever the status, and the value is that body. |
| Unified.FieldMapping | apps/api/src/routers/unified.ts:54-110 | Each field of each sub-record is read from the key of the renaming table: contacts from totalContacts, deals from activeDeals, invoices, tickets and tokens from total, every other field from its own name. |
| Unified.RejectedModuleIsZero | apps/api/src/routers/unified.ts:39-112 | A rejected module has every field of its sub-record at 0. |
| Unified.FulfilledFieldIsTruthyOrZero | apps/api/src/routers/unified.ts:41-110 | A fulfilled module's field is the module's value when that is truthy, and 0 when it is missing, null, false, 0 or "". |
| Unified.SubRecordsIndependent | apps/api/src/routers/unified.ts:22-112 | A module's sub-record depends on that module's own settlement only. |
| Unified.DashboardStatsSpec | apps/api/src/routers/unified.ts:19-114 | Exactly five requests, one per module in order, and a 200 with the statistics record whatever the modules answer. Each sub-record is built from its own module's request. |
| Unified.ErrorStatusStillCounts | apps/api/src/routers/unified.ts:24-36 | A module answering an error status with a JSON body counts as fulfilled. |
| Unified.AbsentParam | apps/api/src/routers/unified.ts:126-127 | A parameter missing from the query reads as `parseInt` of its default. |
| Unified.DefaultParams | apps/api/src/routers/unified.ts:126-127 | Without `limit` and `offset`, the two read as 20 and 0. |
| Unified.PageIsWindow | apps/api/src/routers/unified.ts:137-140 | For non-negative offset and limit, the page is at most `limit` long. It is empty past the end, exactly the window `[offset, offset+limit)` inside the feed, and the tail when the window runs off the end. The total is the feed's length. |
| Unified.ActivityDefaults | apps/api/src/routers/unified.ts:126-140 | With neither parameter, the page is the one at offset 0 with limit 20. |
| Unified.DefaultPage | apps/api/src/routers/unified.ts:138-139 | The default page is the first 20 entries, or the whole feed when shorter. |
| Unified.ActivityWindow | apps/api/src/routers/unified.ts:126-138 | Decimal `limit` and `offset` parameters select the window of `limit` entries at `offset`. |
| Unified.Activity | apps/api/src/routers/unified.ts:125-140 | `/activity` always answers 200 with an empty page and total 0, whatever the parameters. |
| Unified.Search | apps/api/src/routers/unified.ts:150-169 | 400 "Query parameter 'q' is required" exactly when `q` is missing or empty; otherwise 200 with one empty list per module. |
| Integrations.RequiredString | apps/api/src/routers/integrations.ts:24-25 | The identifier is found exactly when the body is a JSON object with a string under the key, and it is that string. |
| Integrations.MalformedBodyIsInternalError | apps/api/src/routers/integrations.ts:24-25 | A body that is no JSON or lacks the identifier gives the framework's 500 in all three handlers, before any call. |
| Integrations.Create | apps/api/src/routers/integrations.ts:64-78 | The creating call is appended to the calls made so far, and the handler ends with 200 or 500. |
| Integrations.CreateOutcomes | apps/api/src/routers/integrations.ts:64-78 | The creating call is one more call. A refusal is 500 with the handler's message, and a transport failure is 500 "Integration failed". The answer is 200 exactly when the call was accepted with a JSON body, which is returned. |
| Integrations.ContactToClient | apps/api/src/routers/integrations.ts:20-80 | No call exactly when the body lacks a string `contactId`; at most two calls, the first being the CRM lookup of that contact. ContactToClientSpec gives each stage. |
| Integrations.ClientPayloadSpec | apps/api/src/routers/integrations.ts:55-60 | The client's name is first name, one space, last name; email, phone and address are copied as they are; a null contact throws. |
| Integrations.ContactToClientSpec | apps/api/src/routers/integrations.ts:29-78 | The first call is the CRM lookup; a refused lookup is 404 "Contact not found" with no Invoicing call. A second call is made exactly when the lookup gave a contact, and it creates the client built from that contact. A lookup accepted without a JSON body, or with a null contact, is 500 "Integration failed", as is a transport failure. Every run without a second call ends after one call and not with 200. |
| Integrations.DealToInvoice | apps/api/src/routers/integrations.ts:85-172 | No call exactly when the body lacks a string `dealId`; at most two calls, the first being the CRM lookup of that deal, so the conversion call is never made. |
| Integrations.DealConversionNeverRuns | apps/api/src/routers/integrations.ts:108-154 | At most two calls and never the conversion. A refused lookup is 404 "Deal not found". A transport failure, or a lookup accepted without a JSON body or with a null deal, is 500 "Integration failed". A second call is made exactly when the lookup gave a deal, and the invoice's customer is the deal's `contactId` itself. Every run without a second call ends after one call and not with 200. |
| Integrations.InvoicePayloadSpec | apps/api/src/routers/integrations.ts:142-151 | The invoice has the deal's `contactId` as customer, exactly one line (the deal's name at quantity 1) and the note "Invoice created from deal: {name}". |
| Integrations.TicketToActivity | apps/api/src/routers/integrations.ts:177-237 | No call exactly when the body lacks a string `ticketId`; at most two calls, the first being the Helpdesk lookup of that ticket. TicketToActivitySpec gives each stage. |
| Integrations.ActivityPayloadSpec | apps/api/src/routers/integrations.ts:212-217 | The activity has type "support_ticket", subject "Support Ticket: {subject}", the ticket's description, and is related to the requester's email; a null ticket throws. |
| Integrations.TicketToActivitySpec | apps/api/src/routers/integrations.ts:186-235 | The first call is the Helpdesk lookup; a refused lookup is 404 "Ticket not found" with no CRM call. A second call is made exactly when the lookup gave a ticket, and it creates the activity built from it. A lookup accepted without a JSON body, or with a null ticket, is 500 "Integration failed", as is a transport failure. Every run without a second call ends after one call and not with 200. |
| Integrations.CreateCredentialed | apps/api/src/routers/integrations.ts:50-53 | Appending a credentialed creating call keeps every call credentialed. |
| Integrations.ContactToClientCredentialed | apps/api/src/routers/integrations.ts:29-62 | Every call contact-to-client makes carries `authorization` and `x-organization-id` from the inbound request, each "" when absent. |
| Integrations.DealToInvoiceCredentialed | apps/api/src/routers/integrations.ts:94-154 | Every call deal-to-invoice makes carries both credentials of the inbound request, each "" when absent. |
| Integrations.TicketToActivityCredentialed | apps/api/src/routers/integrations.ts:186-219 | Every call ticket-to-activity makes carries both credentials of the inbound request, each "" when absent. |
| Integrations.ContactToClientEnds | apps/api/src/routers/integrations.ts:39-78 | contact-to-client ends with 200 (exactly when it returns the created record), with 404 after one call, or with 500. |
| Integrations.DealToInvoiceEnds | apps/api/src/routers/integrations.ts:104-170 | deal-to-invoice ends with 200 (exactly when it returns the created record), with 404 after one call, or with 500. |
| Integrations.TicketToActivityEnds | apps/api/src/routers/integrations.ts:196-235 | ticket-to-activity ends with 200 (exactly when it returns the created record), with 404 after one call, or with 500. |
| Auth.RequireAuthVerdict | apps/api/src/middleware/auth.ts:9-28 | No rejection exactly when the lookup returned a user; a lookup that threw gives 401 "Authentication failed", no user gives 401 "Unauthorized". |
| Auth.RequestContext.constructor | apps/api/src/middleware/auth.ts:9 | A fresh context has no variables and `next` not yet called. |
| Auth.RequestContext.Set | apps/api/src/middleware/auth.ts:20-21 | `c.set` changes that one variable and nothing else. |
| Auth.RequestContext.Next | apps/api/src/middleware/auth.ts:23 | `next()` is counted once; the variables are unchanged. |
| Auth.RequireAuth | apps/api/src/middleware/auth.ts:9-28 | The rejection is the verdict. On either rejection the context is unchanged and `next` is not called; with a user, `user` and `session` are set from the lookup and `next` is called once. |
| Auth.OptionalAuth | apps/api/src/middleware/auth.ts:30-46 | `next` is called exactly once on every path; `user` and `session` are set only when the lookup returned a user, and the context is untouched otherwise. |
| Auth.GuardFreshContext | apps/api/src/middleware/auth.ts:15-23 | After `requireAuth` on a fresh context, `user` is set exactly when the request was admitted, and it is the lookup's user. |
| Gateway.MountAll | apps/api/src/index.ts:52-55 | Mounting keeps the sub-router's routes in order, one for one, each under the prefix. |
| Gateway.App.constructor | apps/api/src/index.ts:29 | A new application has no routes. |
| Gateway.App.Use | apps/api/src/index.ts:32-39 | `app.use` appends one middleware entry for every method. |
| Gateway.App.Get | apps/api/src/index.ts:42-44 | `app.get` appends one GET route on an exact path. |
| Gateway.App.Post | apps/api/src/routers/integrations.ts:20-23 | `router.post` appends one POST route on an exact path. |
| Gateway.App.All | apps/api/src/index.ts:47-49 | `app.all` appends one route for every method. |
| Gateway.App.Mount | apps/api/src/index.ts:52-55 | `app.route(prefix, router)` appends the router's routes, in order, under the prefix. |
| Gateway.CreateUnifiedRouter | apps/api/src/routers/unified.ts:19-150 | The unified router is three guarded GET routes: `/dashboard/stats`, `/activity`, `/search`. |
| Gateway.CreateIntegrationsRouter | apps/api/src/routers/integrations.ts:20-180 | The integrations router is three guarded POST routes, one per handler. |
| Gateway.ModuleMount | apps/api/src/index.ts:58-62 | Module `m`'s proxy is mounted at `/api/{m}`. |
| Gateway.ModuleIndex | apps/api/src/index.ts:58-62 | Each module's proxy sits at one of positions 10 to 14, in registration order. |
| Gateway.RegisterMiddleware | apps/api/src/index.ts:31-39 | Registers the logger, then CORS with the site URL or "*" and credentials, for every path. |
| Gateway.RegisterProxies | apps/api/src/index.ts:58-62 | Registers the five module proxies, in order, for every method under their prefixes. |
| Gateway.CreateApp | apps/api/src/index.ts:29-62 | The registrations build exactly the gateway's table. |
| Gateway.RegistrationOrder | apps/api/src/index.ts:29-62 | The table is the two middleware entries, `/health`, auth, the mounted unified router, the mounted integrations router, then the five proxies. |
| Gateway.BuiltTableIsGatewayTable | apps/api/src/index.ts:29-64 | The table the registration run builds is the gateway's table, and it ends with the queue proxy. |
| Gateway.MiddlewareFirst | apps/api/src/index.ts:31-62 | Logger and CORS come first for every path and method, and CORS allows the site URL or "*" with credentials. Every later entry is a handler, so no rate limiter or other middleware is registered. |
| Gateway.Dispatch | apps/api/src/index.ts:29-62 | No route is found exactly when every route hands the request on. A handler is chosen only from a route that matches the request and registers that handler. A preflight answer is given only to an OPTIONS request matched by a CORS registration. |
| Gateway.Invoke | apps/api/src/index.ts:42-62 | Health, auth, activity and search make no downstream call. The statistics make five and answer 200. An integration handler makes at most two calls and a module proxy at most one. |
| Gateway.Serve | apps/api/src/index.ts:29-64 | No route gives 404 and a preflight gives 204, neither with a call. A guarded handler whose gate rejects gives 401 with no call. No request causes more than five downstream calls. |
| Gateway.GuardsAndProxies | apps/api/src/index.ts:47-62 | `requireAuth` guards exactly the six unified and integration routes; `/health`, auth and the five proxies are open. Module `m`'s proxy takes every method under `/api/{m}`. |
| Gateway.DispatchIsFirstStop | apps/api/src/index.ts:29-62 | The route that decides is the first one that does not hand the request on; no route at all exactly when every one hands it on. |
| Gateway.DecidedAt | apps/api/src/index.ts:29-62 | The route at `k` decides when every route before it hands the request on. |
| Gateway.FirstStop | apps/api/src/index.ts:29-62 | When some route decides, it is the first matching route that does not hand the request on. |
| Gateway.Guarded | apps/api/src/routers/unified.ts:19 | A guarded handler runs only when the gate admits; otherwise the gate's 401 is the answer and no call is made. |
| Gateway.PreflightAnsweredFirst | apps/api/src/index.ts:33-39 | Every OPTIONS request is answered 204 by CORS, before any route sees it. |
| Gateway.HealthIsConstant | apps/api/src/index.ts:42-44 | `GET /health` (and HEAD) answers `{status: "ok", service: "business-suite-api"}` with no call and no session lookup. |
| Gateway.AuthDelegated | apps/api/src/index.ts:47-49 | Every method except OPTIONS on `/api/auth` and below goes to the auth library with the raw request. |
| Gateway.UnifiedRouted | apps/api/src/index.ts:52 | Each unified route is reached by GET (or HEAD) on `/api/unified` plus its path and runs its handler behind the gate. |
| Gateway.IntegrationsRouted | apps/api/src/index.ts:55 | Each integration route is reached by POST on `/api/integrations` plus its path and runs its handler behind the gate. |
| Gateway.EarlierRoutesPass | apps/api/src/index.ts:29-62 | No route before module `m`'s proxy takes a request under `/api/{m}`. |
| Gateway.ModuleRouted | apps/api/src/index.ts:58-62 | Every method except OPTIONS on `/api/{m}` and below reaches module `m`'s own proxy, and the answer is that proxy's answer. |
| Gateway.ProxyOnlySeesItsPrefix | apps/api/src/index.ts:58-62 | The proxy of `m` only ever sees paths that begin with `/api/{m}`, so it strips that prefix and forwards the rest of the path. |
| WebServer.Fetch | apps/web/src/server.ts:22-39 | A path starting with `/api` goes to the API unchanged with `env` and `ctx`; every other request goes to the renderer with `{cloudflare: {env, ctx}}`. |
| WebServer.QueryNeverDecides | apps/web/src/server.ts:28-30 | Only the path decides: two requests with the same path go the same way whatever their queries. |
| WebServer.ApiaryGoesToApi | apps/web/src/server.ts:30 | The test is on characters, not segments: `/apiary` goes to the API. |
| WebServer.ApiRoutesReachable | apps/web/src/server.ts:30-31 | Every request matched by an API route after `/health` is handed to the API. |
| WebServer.HealthGoesToRenderer | apps/web/src/server.ts:30-37 | The API's `/health` is not under `/api`: through the worker it reaches the renderer. |
| SharedUtils.OwnName | packages/shared/src/utils.js:8-14 | The table has an entry exactly for the five module names. |
| SharedUtils.GetModuleDisplayName | packages/shared/src/utils.js:7-16 | The lookup yields an inherited member exactly for the names `Object.prototype` provides. Every other result is the text the corrected lookup gives: a module's display name, or the input itself. |
| SharedUtils.ModuleDisplayNames | packages/shared/src/utils.js:8-15 | The five modules are named "Projects", "CRM", "Invoicing", "Helpdesk" and "Queue". |
| SharedUtils.UnknownNameUnchanged | packages/shared/src/utils.js:15 | A name that is neither a module nor an inherited member is returned unchanged. |
| SharedUtils.InheritedNameLeaks | packages/shared/src/utils.js:15 | `getModuleDisplayName("toString")` yields the inherited member, not a name. |
| SharedUtils.OwnDisplayName | packages/shared/src/utils.js:7-16 | Corrected lookup: a module's display name for the five modules, the input itself for every other name. |
| SharedUtils.OwnDisplayNameAgrees | packages/shared/src/utils.js:7-16 | The corrected lookup agrees with the written one wherever that yields a text. |
| SharedUtils.FormatRelativeTime | packages/shared/src/utils.js:40-56 | Less than a minute elapsed, the future included, gives "just now"; seven days or more gives the formatted date. RelativeTimeCases gives the three ranges between. |
| SharedUtils.RelativeTimeCases | packages/shared/src/utils.js:43-55 | Five exclusive and exhaustive cases by elapsed time. Under a minute, the future included, is "just now". Then come whole minutes (1 to 59, never plural), whole hours (1 to 23) and whole days (1 to 6), the last two plural beyond one. From seven days on it is the formatted date. |
| SharedUtils.FutureIsJustNow | packages/shared/src/utils.js:47-48 | A moment not in the past is "just now". |
| SharedUtils.RelativeCountReadsBack | packages/shared/src/utils.js:49-54 | The number leading a minutes, hours or days text parses back as the count of whole units elapsed. |
| RedisCache.ExpiryOf | packages/storage/src/redis/index.ts:24-28 | An expiry is attached exactly when the TTL is truthy, and it is that TTL. |
| RedisCache.StoredReadsBack | packages/storage/src/redis/index.ts:23-29 | After a write the key reads back the value with the chosen expiry; every other key reads as before. |
| RedisCache.RemovedReadsNull | packages/storage/src/redis/index.ts:30-37 | After a delete the deleted keys read null; every other key and its entry are unchanged. |
| RedisCache.RedisClient.constructor | packages/storage/src/redis/index.ts:8-16 | The client is real exactly when URL and token are both non-empty, and the no-op one otherwise (index.js:6-12 makes the same choice). |
| RedisCache.RedisClient.Get | packages/storage/src/redis/index.ts:20-22 | The stored value or null, with one GET sent; the no-op client answers null and sends nothing. |
| RedisCache.RedisClient.Set | packages/storage/src/redis/index.ts:23-29 | The key now holds the value, with an expiry exactly when the TTL is truthy, and one SET is sent; the no-op client changes nothing (index.js:18-25 alike). |
| RedisCache.RedisClient.Delete | packages/storage/src/redis/index.ts:30-32 | The key is removed with one DEL; the no-op client changes nothing. |
| RedisCache.RedisClient.DeleteMany | packages/storage/src/redis/index.ts:33-37 | All the keys are removed with one DEL, and nothing is sent for an empty list; the no-op client changes nothing (index.js:29-33 alike). |
| RedisCache.CacheTtl | packages/storage/src/redis/index.ts:64 | The TTL is the argument, or 3600 seconds when it is left out. |
| RedisCache.GetOrCache | packages/storage/src/redis/index.ts:61-73 | A hit returns the cached value without calling the fetcher or writing. A miss calls the fetcher once, stores its value with the TTL and returns it. The no-op client always fetches and stores nothing. The compiled twin, index.js:54-62, is the same. |
| RedisCache.InvalidateCache | packages/storage/src/redis/index.ts:75-77 | After invalidation the key reads as a miss. |
| RedisCache.InvalidateThenFetch | packages/storage/src/redis/index.ts:61-77 | After `invalidateCache(k)` the next `getOrCache(k)` calls the fetcher and returns its value (index.js:63-65 alike). |
| RedisCache.MissThenHit | packages/storage/src/redis/index.js:54-62 | After a miss that fetched a non-null value, the next lookup of the key is a hit that does not call the fetcher again. The TypeScript source, index.ts:66-72, is the same. |
| RedisCache.StoredNullRefetches | packages/storage/src/redis/index.js:56 | A stored null cannot be told from a missing key: the fetcher runs again. The TypeScript source, index.ts:67, is the same. |

## Left out

- The network, the session store, the auth library and the module APIs are parameters: a
  transport function, a session-lookup outcome, a handler for `/api/auth`, and the module URLs.
  A call never has side effects the model sees. With a module's URL unset, the handlers'
  calls go to a URL beginning `undefined/`, which the platform's `fetch` rejects before
  anything is sent; the model leaves that outcome to the transport parameter, which may
  answer such a call.
- Proxy.CopyHeaders: copies the inbound header list into a map. The header object
  `c.req.header()` returns, and whether it can be enumerated with `forEach`, belong to the
  framework, which is not part of this model.
- Proxy.ForwardedHeadersSpec: the inbound headers are taken to have one entry per name. The
  platform's `Headers` joins repeated names with ", ", so two `accept` lines reach the module as
  one combined value. The model forwards the last one.
- Proxy.SerializeQuery: `URLSearchParams` percent-encoding is not modelled; pairs are joined as
  `k=v` with `&`.
- Proxy.ReplyPassesThrough: the reply headers are passed on as an opaque value. Hop-by-hop
  headers and content-encoding changes made by the platform are not modelled.
- Proxy.ModuleProxy: `console.error` logging and the request clone are not modelled.
- JSON parsing and the zod validation of request bodies are reduced to their outcome: a parsed
  value or none, and a string under the key or none.
- Numbers are integers (`JsValue.Num` holds an `int`). Fractional values and NaN are not
  represented, including the dashboard's `revenue` fields read at apps/api/src/routers/unified.ts:64 and 81.
- `parseFloat(deal.value) || 0` is not modelled: the invoice line's unit price is carried as
  the deal's raw `value`.
- Unified.DashboardStats: `Promise.allSettled` runs the five requests concurrently. The model
  takes five settled outcomes, so no interleaving is modelled.
- The logger middleware's output and the CORS response headers are not modelled. CORS is
  modelled only by the preflight answer and its origin and credentials settings.
- Gateway.Serve: a HEAD request is served by the GET route. The router then strips the body
  from that response, and the model does not show that step.
- `formatCurrency`, `formatDate` and the `Intl` machinery are left out. `formatDate` is a
  parameter of the relative-time formatter.
- SharedUtils.FormatRelativeTime: a date given as a string is not parsed. The moment arrives as
  milliseconds since the epoch, and the current time is a parameter.
- RedisCache.RedisClient: expiry is recorded on the entry and never simulated; no key
  disappears with time. An error thrown by Redis or by the fetcher is not modelled.
- The web renderer, the UI components, Sentry, Datadog, Stripe, the AI helpers, id generation,
  the database and the environment loading are outside the gateway's decisions and are not part
  of this model.

## Findings

| source | as written | input that shows it | evidently intended | confidence | as-written member | corrected member |
|---|---|---|---|---|---|---|
| apps/api/src/middleware/proxy.ts:51-55 | The upstream reply is rebuilt with `new Response(bytes, {status})`, which throws for the null-body statuses 101, 103, 204, 205 and 304; the catch turns that into 502. | A module answers a DELETE with 204 No Content: the client gets 502 "Failed to connect to … module". | Pass every upstream status back, without a body where the status forbids one. | high; not executed | Proxy.NoContentBecomesBadGateway | Proxy.IntendedModuleProxy |
| apps/api/src/middleware/proxy.ts:32 | The suffix is empty when the inbound URL contains `?`, and `?` plus the serialised query otherwise; the query is forwarded only when there is none. | `GET /api/crm/contacts?page=2` is forwarded to `{crm}/contacts`; `page=2` is lost. | Forward the inbound query after `?` when there is one, and nothing otherwise. | high; not executed | Proxy.QueryStringDroppedExample | Proxy.IntendedForwardUrl |
| packages/shared/src/utils.js:15 | `names[module] \|\| module` indexes an object literal, which also finds the members inherited from `Object.prototype`. | `getModuleDisplayName("toString")` returns the `toString` function instead of the text "toString". | Look up the table's own entries only, returning the input for every other name. | medium; not executed | SharedUtils.InheritedNameLeaks | SharedUtils.OwnDisplayName |
