/**
 * The module reverse proxy: `moduleProxy(module)` forwards a request under `/api/{module}` to
 * the module's base URL and passes the reply back, answering 503 when the module has no URL
 * and 502 when forwarding throws. `ModuleProxy` follows the code as written; the two
 * `Intended…` functions beside it state what the code evidently meant where it differs.
 */
module Proxy {
  import opened Prelude
  import opened JsStrings
  import opened SharedTypes
  import opened Http

  /** `MODULE_URLS[module]` read through `!moduleUrl`: an unset or empty URL means "not configured". */
  function ModuleUrl(urls: ModuleUrls, m: ModuleName): (r: Option<string>)
    ensures r.None? <==> m !in urls || urls[m] == ""
    ensures r.Some? ==> r.value == urls[m] && r.value != ""
  {
    if m in urls && urls[m] != "" then Some(urls[m]) else None
  }

  /** The text the proxy removes from the path: `/api/{module}`. */
  function ModulePrefix(m: ModuleName): string {
    "/api/" + ModuleId(m)
  }

  /** `c.req.path.replace(`/api/${module}`, "")`. */
  function ForwardPath(m: ModuleName, path: string): string {
    ReplaceFirst(path, ModulePrefix(m), "")
  }

  /** `new URLSearchParams(params).toString()` without percent-encoding: `k=v` pairs joined by `&`. */
  function SerializeQuery(params: seq<(string, string)>): string {
    if params == [] then ""
    else
      var pair := params[0].0 + "=" + params[0].1;
      if |params| == 1 then pair else pair + "&" + SerializeQuery(params[1..])
  }

  /**
   * The suffix proxy.ts appends to the path: nothing when the inbound URL contains `?`,
   * otherwise `?` and the serialised query (`c.req.query()` is an object, hence always truthy).
   */
  function QuerySuffix(req: Request): string {
    if Includes(Url(req), "?") then "" else "?" + SerializeQuery(req.query)
  }

  /** The URL the request is forwarded to. */
  function ForwardUrl(base: string, m: ModuleName, req: Request): string {
    base + ForwardPath(m, req.path) + QuerySuffix(req)
  }

  /** The header the proxy trusts for the client address: `c.req.header("cf-connecting-ip") || ""`. */
  function ConnectingIp(hs: HeaderList): string {
    var inbound := HeaderMap(hs);
    StringOr(if "cf-connecting-ip" in inbound then Some(inbound["cf-connecting-ip"]) else None, "")
  }

  /** The forwarded headers: every inbound header, then `x-forwarded-for` overwritten. */
  function ForwardHeaders(hs: HeaderList): map<string, string> {
    HeaderMap(hs)["x-forwarded-for" := ConnectingIp(hs)]
  }

  /**
   * proxy.ts:36-40 — build a fresh header set, copy every inbound header into it one `set` at a
   * time, then set `x-forwarded-for`.
   */
  method CopyHeaders(hs: HeaderList) returns (headers: map<string, string>)
    ensures headers == ForwardHeaders(hs)
  {
    headers := map[];
    var i := 0;
    while i < |hs|
      invariant 0 <= i <= |hs|
      invariant headers == HeaderMap(hs[..i])
    {
      assert hs[..i + 1][..i] == hs[..i];
      headers := headers[hs[i].0 := hs[i].1];
      i := i + 1;
    }
    assert hs[..|hs|] == hs;
    var ip := if "cf-connecting-ip" in headers then headers["cf-connecting-ip"] else "";
    headers := headers["x-forwarded-for" := ip];
  }

  /** The forwarded body: the raw inbound bytes, except for GET and HEAD, which carry none. */
  function ForwardBody(req: Request): OutBody {
    if req.verb != "GET" && req.verb != "HEAD" then Bytes(req.body) else NoBody
  }

  /** The one request the proxy sends. */
  function ForwardRequest(base: string, m: ModuleName, req: Request): Outbound {
    Outbound(req.verb, ForwardUrl(base, m, req), ForwardHeaders(req.headers), ForwardBody(req))
  }

  /** The statuses for which the Fetch Standard forbids a response body: 101, 103, 204, 205, 304. */
  predicate NullBodyStatus(status: int) {
    status == 101 || status == 103 || status == 204 || status == 205 || status == 304
  }

  /**
   * `new Response(data, {status, headers})` with `data` the reply's bytes (an ArrayBuffer, hence
   * a non-null body even when empty). The constructor throws (`None`) for a status outside
   * 200..599 and for a null-body status.
   */
  function UpstreamResponse(r: Reply): Option<Response> {
    if r.status < 200 || r.status > 599 || NullBodyStatus(r.status) then None
    else Some(Response(r.status, Upstream(r.headers, r.body)))
  }

  function BadGateway(m: ModuleName): Response {
    JsonError(502, "Failed to connect to " + ModuleId(m) + " module")
  }

  /** A proxy run: the request forwarded upstream, if any, and the response. */
  datatype ProxyRun = ProxyRun(forwarded: Option<Outbound>, response: Response)

  /** `moduleProxy(m)` applied to one request, with `send` standing for `fetch`. */
  function ModuleProxy(urls: ModuleUrls, m: ModuleName, req: Request, send: Outbound -> FetchOutcome): (run: ProxyRun)
    ensures run.forwarded.None? <==> ModuleUrl(urls, m).None?
    ensures run.forwarded.None? ==> run.response.status == 503
    ensures run.forwarded.Some? ==> run.forwarded.value == ForwardRequest(urls[m], m, req)
    ensures run.forwarded.Some? ==>
      var o := send(run.forwarded.value);
      run.response.status == (if o.Replied? && UpstreamResponse(o.reply).Some? then o.reply.status else 502)
  {
    match ModuleUrl(urls, m)
    case None => ProxyRun(None, JsonError(503, "Module " + ModuleId(m) + " not configured"))
    case Some(base) =>
      var out := ForwardRequest(base, m, req);
      match send(out)
      case NetworkError => ProxyRun(Some(out), BadGateway(m))
      case Replied(r) =>
        match UpstreamResponse(r)
        case None => ProxyRun(Some(out), BadGateway(m))
        case Some(resp) => ProxyRun(Some(out), resp)
  }

  // ---------------------------------------------------------------------------
  // Properties

  /** An unset or empty module URL fails closed: 503 naming the module, and nothing is sent. */
  lemma NotConfiguredFailsClosed(urls: ModuleUrls, m: ModuleName, req: Request, send: Outbound -> FetchOutcome)
    ensures var run := ModuleProxy(urls, m, req, send);
      (run.forwarded.None? <==> m !in urls || urls[m] == "")
      && (run.forwarded.None? ==> run.response == JsonError(503, "Module " + ModuleId(m) + " not configured"))
  {
  }

  /**
   * The forwarded path is the inbound path with the FIRST occurrence of `/api/{module}` cut
   * out, wherever it occurs; without an occurrence the path is forwarded unchanged.
   */
  lemma ForwardPathCutsFirstOccurrence(m: ModuleName, path: string, i: nat)
    ensures (forall j: nat :: !OccursAt(path, ModulePrefix(m), j)) ==> ForwardPath(m, path) == path
    ensures OccursAt(path, ModulePrefix(m), i) && (forall j: nat :: j < i ==> !OccursAt(path, ModulePrefix(m), j))
      ==> ForwardPath(m, path) == path[..i] + path[i + |ModulePrefix(m)|..]
  {
    var p := ModulePrefix(m);
    if OccursAt(path, p, i) && (forall j: nat :: j < i ==> !OccursAt(path, p, j)) {
      var k := IndexOf(path, p);
      assert k.Some?;
      assert !(k.value < i) && !(i < k.value);
    }
  }

  /** The inbound URL contains `?` exactly when the request has a query part. */
  lemma UrlHasQuestionMark(req: Request)
    requires WellFormed(req)
    ensures Includes(Url(req), "?") <==> req.rawQuery.Some?
  {
    var u := Url(req);
    IncludesChar(u, '?');
    if req.rawQuery.Some? {
      assert u[|req.origin + req.path|] == '?';
    } else {
      assert u == req.origin + req.path;
    }
  }

  /**
   * The URL as written: base, stripped path, then `?` alone when the inbound URL had no query,
   * and nothing when it had one, so an inbound query string is never forwarded.
   */
  lemma QueryStringDropped(base: string, m: ModuleName, req: Request)
    requires WellFormed(req)
    ensures ForwardUrl(base, m, req) ==
      base + ForwardPath(m, req.path) + (if req.rawQuery.None? then "?" else "")
  {
    UrlHasQuestionMark(req);
  }

  /** `/api/crm/contacts` is forwarded as `/contacts`. */
  lemma CrmContactsPath()
    ensures ForwardPath(Crm, "/api/crm/contacts") == "/contacts"
  {
    assert ModulePrefix(Crm) == "/api/crm";
    assert "/api/crm" + "/contacts" == "/api/crm/contacts";
    ReplacePrefix("/api/crm", "/contacts");
  }

  /** A concrete case: `GET /api/crm/contacts?page=2` is forwarded to `{crm}/contacts`, without `page=2`. */
  lemma QueryStringDroppedExample(base: string, req: Request)
    requires req.origin == "https://suite.example" && req.path == "/api/crm/contacts"
    requires req.rawQuery == Some("page=2") && req.query == [("page", "2")]
    ensures ForwardUrl(base, Crm, req) == base + "/contacts"
  {
    assert WellFormed(req);
    QueryStringDropped(base, Crm, req);
    CrmContactsPath();
  }

  /**
   * The headers sent upstream: `x-forwarded-for` is the `cf-connecting-ip` value or "", whatever
   * the client sent under that name; every other inbound header is copied, with the last value
   * given for a name.
   */
  lemma ForwardedHeadersSpec(hs: HeaderList, name: string)
    ensures (forall i :: 0 <= i < |hs| ==> hs[i].0 != "cf-connecting-ip") ==>
      ForwardHeaders(hs)["x-forwarded-for"] == ""
    ensures (exists i :: 0 <= i < |hs| && hs[i].0 == "cf-connecting-ip") ==> exists i ::
      && 0 <= i < |hs| && hs[i].0 == "cf-connecting-ip" && ForwardHeaders(hs)["x-forwarded-for"] == hs[i].1
      && forall j :: i < j < |hs| ==> hs[j].0 != "cf-connecting-ip"
    ensures name != "x-forwarded-for" ==>
      (name in ForwardHeaders(hs) <==> exists i :: 0 <= i < |hs| && hs[i].0 == name)
    ensures name != "x-forwarded-for" && name in ForwardHeaders(hs) ==> exists i ::
      && 0 <= i < |hs| && hs[i].0 == name && ForwardHeaders(hs)[name] == hs[i].1
      && forall j :: i < j < |hs| ==> hs[j].0 != name
  {
    HeaderMapLookup(hs, "cf-connecting-ip");
    HeaderMapLookup(hs, name);
  }

  /**
   * What is forwarded: the same method, the raw body exactly when the method is neither GET nor
   * HEAD, to the base URL followed by the rewritten path.
   */
  lemma ForwardedRequestSpec(urls: ModuleUrls, m: ModuleName, req: Request, send: Outbound -> FetchOutcome)
    requires m in urls && urls[m] != ""
    ensures var run := ModuleProxy(urls, m, req, send);
      && run.forwarded.Some?
      && run.forwarded.value.verb == req.verb
      && run.forwarded.value.url == ForwardUrl(urls[m], m, req)
      && StartsWith(run.forwarded.value.url, urls[m] + ForwardPath(m, req.path))
      && run.forwarded.value.headers == ForwardHeaders(req.headers)
      && (run.forwarded.value.body.Bytes? <==> req.verb != "GET" && req.verb != "HEAD")
      && (run.forwarded.value.body.Bytes? ==> run.forwarded.value.body.bytes == req.body)
      && (run.forwarded.value.body.NoBody? <==> req.verb == "GET" || req.verb == "HEAD")
  {
    var u := ForwardUrl(urls[m], m, req);
    assert u[..|urls[m] + ForwardPath(m, req.path)|] == urls[m] + ForwardPath(m, req.path);
  }

  /**
   * Upstream replies pass through with their status, headers and bytes, errors included — for
   * every status the Response constructor accepts with a body.
   */
  lemma ReplyPassesThrough(urls: ModuleUrls, m: ModuleName, req: Request, send: Outbound -> FetchOutcome)
    requires m in urls && urls[m] != ""
    requires var out := ForwardRequest(urls[m], m, req);
      send(out).Replied? && 200 <= send(out).reply.status <= 599 && !NullBodyStatus(send(out).reply.status)
    ensures var r := send(ForwardRequest(urls[m], m, req)).reply;
      ModuleProxy(urls, m, req, send).response == Response(r.status, Upstream(r.headers, r.body))
  {
  }

  /** Any exception while forwarding — from the transport or from rebuilding the response — is a 502. */
  lemma FailureIsBadGateway(urls: ModuleUrls, m: ModuleName, req: Request, send: Outbound -> FetchOutcome)
    requires m in urls && urls[m] != ""
    requires var out := ForwardRequest(urls[m], m, req);
      send(out).NetworkError? || UpstreamResponse(send(out).reply).None?
    ensures ModuleProxy(urls, m, req, send).response == JsonError(502, "Failed to connect to " + ModuleId(m) + " module")
  {
  }

  /** A concrete case: a module answering 204 No Content (a typical DELETE) reaches the client as 502. */
  lemma NoContentBecomesBadGateway(urls: ModuleUrls, m: ModuleName, req: Request, send: Outbound -> FetchOutcome)
    requires m in urls && urls[m] != ""
    requires var out := ForwardRequest(urls[m], m, req);
      send(out).Replied? && send(out).reply.status == 204
    ensures ModuleProxy(urls, m, req, send).response.status == 502
  {
  }

  // ---------------------------------------------------------------------------
  // What the code evidently meant

  /**
   * The query handling evidently intended: forward the inbound query text after `?` when there
   * is one, and append nothing otherwise.
   */
  function IntendedForwardUrl(base: string, m: ModuleName, req: Request): (url: string)
    requires WellFormed(req)
    ensures req.rawQuery.None? ==> url == base + ForwardPath(m, req.path)
    ensures req.rawQuery.Some? ==> url == base + ForwardPath(m, req.path) + "?" + req.rawQuery.value
  {
    UrlHasQuestionMark(req);
    var u := Url(req);
    base + ForwardPath(m, req.path) + (if Includes(u, "?") then "?" + req.rawQuery.value else "")
  }

  /**
   * The passthrough evidently intended: every status the Fetch Standard allows goes back
   * unchanged, a null-body status without a body.
   */
  function IntendedUpstreamResponse(r: Reply): (resp: Option<Response>)
    ensures 200 <= r.status <= 599 ==> resp.Some? && resp.value.status == r.status
    ensures 200 <= r.status <= 599 && !NullBodyStatus(r.status) ==>
      resp.value.body == Upstream(r.headers, r.body)
    ensures 200 <= r.status <= 599 && NullBodyStatus(r.status) ==>
      resp.value.body == Upstream(r.headers, [])
  {
    if r.status < 200 || r.status > 599 then None
    else if NullBodyStatus(r.status) then Some(Response(r.status, Upstream(r.headers, [])))
    else Some(Response(r.status, Upstream(r.headers, r.body)))
  }

  /**
   * The proxy with both corrections: the inbound query forwarded as it came, and every status the
   * Fetch Standard allows passed back. The 503 and 502 answers are those of `ModuleProxy`.
   */
  function IntendedModuleProxy(urls: ModuleUrls, m: ModuleName, req: Request, send: Outbound -> FetchOutcome): (run: ProxyRun)
    requires WellFormed(req)
    ensures ModuleUrl(urls, m).None? ==> run == ModuleProxy(urls, m, req, send)
    ensures ModuleUrl(urls, m).Some? ==>
      run.forwarded == Some(Outbound(req.verb, IntendedForwardUrl(urls[m], m, req), ForwardHeaders(req.headers), ForwardBody(req)))
    ensures ModuleUrl(urls, m).Some? ==>
      var out := Outbound(req.verb, IntendedForwardUrl(urls[m], m, req), ForwardHeaders(req.headers), ForwardBody(req));
      && (send(out).Replied? && 200 <= send(out).reply.status <= 599 ==> run.response.status == send(out).reply.status)
      && (send(out).NetworkError? ==> run.response == BadGateway(m))
  {
    match ModuleUrl(urls, m)
    case None => ProxyRun(None, JsonError(503, "Module " + ModuleId(m) + " not configured"))
    case Some(base) =>
      var out := Outbound(req.verb, IntendedForwardUrl(base, m, req), ForwardHeaders(req.headers), ForwardBody(req));
      match send(out)
      case NetworkError => ProxyRun(Some(out), BadGateway(m))
      case Replied(r) =>
        match IntendedUpstreamResponse(r)
        case None => ProxyRun(Some(out), BadGateway(m))
        case Some(resp) => ProxyRun(Some(out), resp)
  }
}
