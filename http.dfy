/**
 * The HTTP vocabulary of the gateway with the network taken out: an inbound request, the
 * outbound requests the gateway issues, the outcome of issuing one (a reply, or an exception
 * from the transport), and the response the gateway produces.
 *
 * A handler is modelled as a function of a transport `send: Outbound -> FetchOutcome`: it
 * returns the outbound requests it issued, in order, together with its response.
 */
module Http {
  import opened Prelude
  import opened JsValues
  import opened SharedTypes

  /** Header names are lower-case, as `Headers` and Hono's `c.req.header()` present them. */
  type HeaderList = seq<(string, string)>

  /**
   * An inbound request. `rawQuery` is the text after `?` in the URL (`None` when the URL has
   * no `?`); `query` holds the decoded parameters in URL order; `json` is what `c.req.json()`
   * yields for `body` (`None` when the body is not JSON).
   */
  datatype Request = Request(
    verb: string,
    origin: string,
    path: string,
    rawQuery: Option<string>,
    query: seq<(string, string)>,
    headers: HeaderList,
    body: seq<byte>,
    json: Option<JsValue>)

  /** `c.req.url`: origin, path and, when present, `?` and the query text. */
  function Url(req: Request): string {
    req.origin + req.path + (if req.rawQuery.Some? then "?" + req.rawQuery.value else "")
  }

  /** A request whose parts look as a URL parser would leave them: no `?` outside the query. */
  predicate WellFormed(req: Request) {
    '?' !in req.origin && '?' !in req.path && (req.rawQuery.None? ==> req.query == [])
  }

  /** The map that setting each header of `hs` in turn produces: a later value for a name wins. */
  function HeaderMap(hs: HeaderList): map<string, string> {
    if hs == [] then map[] else HeaderMap(hs[..|hs| - 1])[hs[|hs| - 1].0 := hs[|hs| - 1].1]
  }

  /** A name is in the header map iff some pair carries it, and its value is that of the LAST such pair. */
  lemma {:induction false} HeaderMapLookup(hs: HeaderList, name: string)
    ensures name in HeaderMap(hs) <==> exists i :: 0 <= i < |hs| && hs[i].0 == name
    ensures name in HeaderMap(hs) ==> exists i ::
      && 0 <= i < |hs| && hs[i].0 == name && HeaderMap(hs)[name] == hs[i].1
      && forall j :: i < j < |hs| ==> hs[j].0 != name
  {
    if hs != [] {
      var init := hs[..|hs| - 1];
      var last := |hs| - 1;
      HeaderMapLookup(init, name);
      if hs[last].0 == name {
        assert HeaderMap(hs)[name] == hs[last].1;
      } else if name in HeaderMap(hs) {
        var i :| 0 <= i < |init| && init[i].0 == name && HeaderMap(init)[name] == init[i].1
          && forall j :: i < j < |init| ==> init[j].0 != name;
        assert hs[i] == init[i];
        forall j | i < j < |hs| ensures hs[j].0 != name {
          if j < last { assert hs[j] == init[j]; }
        }
      }
      if exists i :: 0 <= i < |hs| && hs[i].0 == name {
        var i :| 0 <= i < |hs| && hs[i].0 == name;
        if i < last { assert init[i] == hs[i]; }
      }
    }
  }

  /** `c.req.header(name)`. */
  function Header(req: Request, name: string): Option<string> {
    var m := HeaderMap(req.headers);
    if name in m then Some(m[name]) else None
  }

  /** `c.req.query(name)`: the first value given for `name`. */
  function QueryParam(query: seq<(string, string)>, name: string): (r: Option<string>)
    ensures r.Some? <==> exists i :: 0 <= i < |query| && query[i].0 == name
  {
    if query == [] then None
    else if query[0].0 == name then Some(query[0].1)
    else QueryParam(query[1..], name)
  }

  /** One line of an invoice as the gateway sends it; `unitPriceOf` is the value `parseFloat(…) || 0` is applied to. */
  datatype InvoiceItem = InvoiceItem(description: JsValue, quantity: int, unitPriceOf: JsValue)

  /** The JSON bodies the integration handlers send downstream. */
  datatype Payload =
    | ClientPayload(name: string, email: JsValue, phone: JsValue, address: JsValue)
    | ConvertPayload(contactId: JsValue)
    | InvoicePayload(customerId: JsValue, items: seq<InvoiceItem>, notes: string)
    | ActivityPayload(kind: string, subject: string, description: JsValue, relatedTo: JsValue)

  datatype OutBody = NoBody | Bytes(bytes: seq<byte>) | Json(payload: Payload)

  /** A request the gateway issues with `fetch`. */
  datatype Outbound = Outbound(verb: string, url: string, headers: map<string, string>, body: OutBody)

  /** What came back: status, headers, body bytes, and what `response.json()` yields (`None`: it throws). */
  datatype Reply = Reply(status: int, headers: map<string, string>, body: seq<byte>, json: Option<JsValue>)

  /** `response.ok`. */
  predicate IsOk(r: Reply) {
    200 <= r.status <= 299
  }

  /** The outcome of one `fetch`: a reply, or an exception (DNS, refused connection, invalid URL, …). */
  datatype FetchOutcome = NetworkError | Replied(reply: Reply)

  /** The bodies of the gateway's own responses. */
  datatype Body =
    | ErrorBody(error: string)
    | HealthBody(status: string, service: string)
    | StatsBody(stats: SuiteStats)
    | ActivityBody(activities: seq<UnifiedActivity>, total: int)
    | SearchBody(projects: seq<JsValue>, crm: seq<JsValue>, invoicing: seq<JsValue>, helpdesk: seq<JsValue>, queue: seq<JsValue>)
    | SuccessBody(key: string, value: JsValue, message: string)
    | Upstream(headers: map<string, string>, bytes: seq<byte>)
    | Text(text: string)
    | Preflight(allowOrigin: string, allowCredentials: bool)

  datatype Response = Response(status: int, body: Body)

  /** `c.json({error: message}, status)`. */
  function JsonError(status: int, message: string): Response {
    Response(status, ErrorBody(message))
  }

  /** What the framework answers when a handler lets an exception escape. */
  function InternalServerError(): Response {
    Response(500, Text("Internal Server Error"))
  }

  /** The module base URLs read from the environment; a module without an entry has its variable unset. */
  type ModuleUrls = map<ModuleName, string>

  /** `${env.X_API_URL}` in a template literal: the URL, or the text "undefined" when it is unset. */
  function UrlText(urls: ModuleUrls, m: ModuleName): string {
    if m in urls then urls[m] else "undefined"
  }

  /** A handler's run: the requests it issued, in order, and its response. */
  datatype Run = Run(calls: seq<Outbound>, response: Response)
}
