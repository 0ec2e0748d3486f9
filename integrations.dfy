/**
 * The cross-module integration handlers. Each reads an identifier from the JSON body, looks
 * the record up in one module, builds a payload from it and creates a record in another
 * module, answering 404 when the lookup is refused, 500 when the creation is refused, and 500
 * "Integration failed" when anything inside the guarded block throws. All three sit behind the
 * authentication gate, which the gateway model applies before these run.
 */
module Integrations {
  import opened Prelude
  import opened JsValues
  import opened SharedTypes
  import opened Http

  /** A value whose properties can be read without a TypeError: neither null nor undefined. */
  predicate Present(v: JsValue) {
    v != Null && v != Undefined
  }

  /** `c.json({error: "Integration failed"}, 500)`, the answer to any exception inside `try`. */
  function IntegrationFailed(): Response {
    JsonError(500, "Integration failed")
  }

  /** The credentials every downstream call carries, each `c.req.header(name) || ""`. */
  function AuthHeaders(req: Request): map<string, string> {
    map["authorization" := StringOr(Header(req, "authorization"), ""),
        "x-organization-id" := StringOr(Header(req, "x-organization-id"), "")]
  }

  /** The headers of a call that sends a JSON body. */
  function JsonHeaders(req: Request): map<string, string> {
    AuthHeaders(req)["content-type" := "application/json"]
  }

  /**
   * `z.object({ key: z.string() }).parse(await c.req.json())`: the string under `key` of a JSON
   * object body; `None` when the body is no JSON, no object, or lacks a string under `key`
   * (both failures throw outside the guarded block).
   */
  function RequiredString(json: Option<JsValue>, key: string): (r: Option<string>)
    ensures r.Some? <==> json.Some? && json.value.Obj? && key in json.value.props && json.value.props[key].Str?
    ensures r.Some? ==> r.value == json.value.props[key].s
  {
    match json
    case Some(Obj(props)) => if key in props && props[key].Str? then Some(props[key].s) else None
    case _ => None
  }

  /**
   * The final step the three handlers share: send `create`; a refusal is a 500 with `failure`,
   * an accepted reply's JSON is returned under `key` with the `success` message.
   */
  function Create(prior: seq<Outbound>, create: Outbound, send: Outbound -> FetchOutcome,
                  failure: string, key: string, success: string): (run: Run)
    ensures run.calls == prior + [create]
    ensures run.response.status == 200 || run.response.status == 500
  {
    var calls := prior + [create];
    match send(create)
    case NetworkError => Run(calls, IntegrationFailed())
    case Replied(r) =>
      if !IsOk(r) then Run(calls, JsonError(500, failure))
      else
        match r.json
        case None => Run(calls, IntegrationFailed())
        case Some(v) => Run(calls, Response(200, SuccessBody(key, v, success)))
  }

  /**
   * The outcomes of the creating call: one more call; a refused creation is a 500 with the
   * handler's own message; an accepted one returns its JSON; an exception is "Integration failed".
   */
  lemma CreateOutcomes(prior: seq<Outbound>, create: Outbound, send: Outbound -> FetchOutcome,
                       failure: string, key: string, success: string)
    ensures var run := Create(prior, create, send, failure, key, success);
      && run.calls == prior + [create]
      && (send(create).NetworkError? ==> run.response == IntegrationFailed())
      && (send(create).Replied? && !IsOk(send(create).reply) ==> run.response == JsonError(500, failure))
      && (send(create).Replied? && IsOk(send(create).reply) ==>
            run.response == (match send(create).reply.json
                             case None => IntegrationFailed()
                             case Some(v) => Response(200, SuccessBody(key, v, success))))
      && (run.response.status == 200 <==> send(create).Replied? && IsOk(send(create).reply) && send(create).reply.json.Some?)
  {
  }

  // ---------------------------------------------------------------------------
  // POST /crm-to-invoicing/contact-to-client

  function ContactLookup(urls: ModuleUrls, req: Request, contactId: string): Outbound {
    Outbound("GET", UrlText(urls, Crm) + "/api/contacts/" + contactId, AuthHeaders(req), NoBody)
  }

  /**
   * The client built from a contact: `${firstName} ${lastName}` and the three contact fields as
   * they are. `None`: the contact is null, so reading its fields throws.
   */
  function ClientPayloadOf(contact: JsValue): Option<Payload> {
    match (Get(contact, "firstName"), Get(contact, "lastName"))
    case (Some(first), Some(last)) =>
      Some(ClientPayload(ToText(first) + " " + ToText(last),
                         OptionalGet(contact, "email"), OptionalGet(contact, "phone"), OptionalGet(contact, "address")))
    case _ => None
  }

  function ClientCreate(urls: ModuleUrls, req: Request, payload: Payload): Outbound {
    Outbound("POST", UrlText(urls, Invoicing) + "/api/clients", JsonHeaders(req), Json(payload))
  }

  function ContactToClient(urls: ModuleUrls, req: Request, send: Outbound -> FetchOutcome): (run: Run)
    ensures run.calls == [] <==> RequiredString(req.json, "contactId").None?
    ensures |run.calls| <= 2
    ensures run.calls != [] ==> run.calls[0] == ContactLookup(urls, req, RequiredString(req.json, "contactId").value)
  {
    match RequiredString(req.json, "contactId")
    case None => Run([], InternalServerError())
    case Some(contactId) =>
      var lookup := ContactLookup(urls, req, contactId);
      match send(lookup)
      case NetworkError => Run([lookup], IntegrationFailed())
      case Replied(r) =>
        if !IsOk(r) then Run([lookup], JsonError(404, "Contact not found"))
        else
          match r.json
          case None => Run([lookup], IntegrationFailed())
          case Some(contact) =>
            match ClientPayloadOf(contact)
            case None => Run([lookup], IntegrationFailed())
            case Some(payload) =>
              Create([lookup], ClientCreate(urls, req, payload), send,
                     "Failed to create client", "client", "Contact converted to client successfully")
  }

  /** The client payload: the two names joined by one space, the other three fields copied. */
  lemma ClientPayloadSpec(contact: JsValue)
    requires contact.Obj?
    ensures ClientPayloadOf(contact) == Some(ClientPayload(
      ToText(OptionalGet(contact, "firstName")) + " " + ToText(OptionalGet(contact, "lastName")),
      OptionalGet(contact, "email"), OptionalGet(contact, "phone"), OptionalGet(contact, "address")))
    ensures ClientPayloadOf(Null).None?
  {
  }

  /**
   * contact-to-client, stage by stage: a refused lookup is a 404 and nothing reaches Invoicing;
   * otherwise the one further call creates the client built from the contact, and its outcome
   * decides the response.
   */
  lemma ContactToClientSpec(urls: ModuleUrls, req: Request, send: Outbound -> FetchOutcome, contactId: string)
    requires RequiredString(req.json, "contactId") == Some(contactId)
    ensures var run := ContactToClient(urls, req, send);
      var lookup := ContactLookup(urls, req, contactId);
      && run.calls[0] == lookup
      && (send(lookup).NetworkError? ==> run == Run([lookup], IntegrationFailed()))
      && (send(lookup).Replied? && !IsOk(send(lookup).reply) ==> run == Run([lookup], JsonError(404, "Contact not found")))
      && (send(lookup).Replied? && IsOk(send(lookup).reply)
          && (send(lookup).reply.json.None? || !Present(send(lookup).reply.json.value)) ==>
            run == Run([lookup], IntegrationFailed()))
      && (|run.calls| == 2 <==>
            send(lookup).Replied? && IsOk(send(lookup).reply) && send(lookup).reply.json.Some?
            && Present(send(lookup).reply.json.value))
      && (|run.calls| == 2 ==>
            var payload := ClientPayloadOf(send(lookup).reply.json.value).value;
            run == Create([lookup], ClientCreate(urls, req, payload), send,
                          "Failed to create client", "client", "Contact converted to client successfully"))
      && (|run.calls| != 2 ==> |run.calls| == 1 && run.response.status != 200)
  {
  }

  // ---------------------------------------------------------------------------
  // POST /crm-to-invoicing/deal-to-invoice

  function DealLookup(urls: ModuleUrls, req: Request, dealId: string): Outbound {
    Outbound("GET", UrlText(urls, Crm) + "/api/deals/" + dealId, AuthHeaders(req), NoBody)
  }

  /** The contact conversion the handler would request before creating the invoice. */
  function ConvertRequest(urls: ModuleUrls, req: Request, contactId: JsValue): Outbound {
    Outbound("POST", UrlText(urls, Invoicing) + "/api/integrations/crm-to-invoicing/contact-to-client",
             JsonHeaders(req), Json(ConvertPayload(contactId)))
  }

  /**
   * The client id after the conversion call: unchanged when the conversion is refused, otherwise
   * `(await r.json()).client.id`; `None` when any of that throws.
   */
  function ConvertedClientId(o: FetchOutcome, clientId: JsValue): Option<JsValue> {
    match o
    case NetworkError => None
    case Replied(r) =>
      if !IsOk(r) then Some(clientId)
      else
        match r.json
        case None => None
        case Some(body) =>
          match Get(body, "client")
          case None => None
          case Some(client) => Get(client, "id")
  }

  /** The invoice: one line for the deal at quantity 1, and a note naming the deal. */
  function InvoicePayloadOf(deal: JsValue, clientId: JsValue): Payload {
    var name := OptionalGet(deal, "name");
    InvoicePayload(clientId, [InvoiceItem(name, 1, OptionalGet(deal, "value"))],
                   "Invoice created from deal: " + ToText(name))
  }

  function InvoiceCreate(urls: ModuleUrls, req: Request, payload: Payload): Outbound {
    Outbound("POST", UrlText(urls, Invoicing) + "/api/invoices", JsonHeaders(req), Json(payload))
  }

  function DealToInvoice(urls: ModuleUrls, req: Request, send: Outbound -> FetchOutcome): (run: Run)
    ensures run.calls == [] <==> RequiredString(req.json, "dealId").None?
    ensures |run.calls| <= 2
    ensures run.calls != [] ==> run.calls[0] == DealLookup(urls, req, RequiredString(req.json, "dealId").value)
  {
    match RequiredString(req.json, "dealId")
    case None => Run([], InternalServerError())
    case Some(dealId) =>
      var lookup := DealLookup(urls, req, dealId);
      match send(lookup)
      case NetworkError => Run([lookup], IntegrationFailed())
      case Replied(r) =>
        if !IsOk(r) then Run([lookup], JsonError(404, "Deal not found"))
        else
          match r.json
          case None => Run([lookup], IntegrationFailed())
          case Some(deal) =>
            match Get(deal, "contactId")
            case None => Run([lookup], IntegrationFailed())
            case Some(clientId) =>
              if !Truthy(clientId) && Truthy(OptionalGet(deal, "contactId")) then
                var convert := ConvertRequest(urls, req, OptionalGet(deal, "contactId"));
                match ConvertedClientId(send(convert), clientId)
                case None => Run([lookup, convert], IntegrationFailed())
                case Some(id) =>
                  Create([lookup, convert], InvoiceCreate(urls, req, InvoicePayloadOf(deal, id)), send,
                         "Failed to create invoice", "invoice", "Invoice created from deal successfully")
              else
                Create([lookup], InvoiceCreate(urls, req, InvoicePayloadOf(deal, clientId)), send,
                       "Failed to create invoice", "invoice", "Invoice created from deal successfully")
  }

  /**
   * The conversion branch is dead: the client id starts as the deal's `contactId`, so "no client
   * id but a contact id" never holds. At most two calls are made, the conversion is never
   * requested, and the invoice's customer is the deal's `contactId` itself.
   */
  lemma DealConversionNeverRuns(urls: ModuleUrls, req: Request, send: Outbound -> FetchOutcome, dealId: string)
    requires RequiredString(req.json, "dealId") == Some(dealId)
    ensures var run := DealToInvoice(urls, req, send);
      var lookup := DealLookup(urls, req, dealId);
      && 1 <= |run.calls| <= 2
      && run.calls[0] == lookup
      && (send(lookup).NetworkError? ==> run == Run([lookup], IntegrationFailed()))
      && (send(lookup).Replied? && !IsOk(send(lookup).reply) ==> run == Run([lookup], JsonError(404, "Deal not found")))
      && (send(lookup).Replied? && IsOk(send(lookup).reply)
          && (send(lookup).reply.json.None? || !Present(send(lookup).reply.json.value)) ==>
            run == Run([lookup], IntegrationFailed()))
      && (|run.calls| == 2 <==>
            send(lookup).Replied? && IsOk(send(lookup).reply) && send(lookup).reply.json.Some?
            && Present(send(lookup).reply.json.value))
      && (|run.calls| == 2 ==>
            var deal := send(lookup).reply.json.value;
            run == Create([lookup], InvoiceCreate(urls, req, InvoicePayloadOf(deal, OptionalGet(deal, "contactId"))), send,
                          "Failed to create invoice", "invoice", "Invoice created from deal successfully"))
      && (|run.calls| != 2 ==> |run.calls| == 1 && run.response.status != 200)
  {
    var lookup := DealLookup(urls, req, dealId);
    var run := DealToInvoice(urls, req, send);
    match send(lookup) {
      case NetworkError =>
        assert run == Run([lookup], IntegrationFailed());
      case Replied(r) =>
        if !IsOk(r) {
          assert run == Run([lookup], JsonError(404, "Deal not found"));
        } else if r.json.None? {
          assert run == Run([lookup], IntegrationFailed());
        } else if !Present(r.json.value) {
          assert run == Run([lookup], IntegrationFailed());
        } else {
          var deal := r.json.value;
          var clientId := OptionalGet(deal, "contactId");
          assert Get(deal, "contactId") == Some(clientId);
          assert run == Create([lookup], InvoiceCreate(urls, req, InvoicePayloadOf(deal, clientId)), send,
                               "Failed to create invoice", "invoice", "Invoice created from deal successfully");
        }
    }
  }

  /** The invoice payload: the deal's `contactId` as customer, a single line and the note. */
  lemma InvoicePayloadSpec(deal: JsValue)
    ensures var p := InvoicePayloadOf(deal, OptionalGet(deal, "contactId"));
      && p.customerId == OptionalGet(deal, "contactId")
      && |p.items| == 1
      && p.items[0].description == OptionalGet(deal, "name")
      && p.items[0].quantity == 1
      && p.notes == "Invoice created from deal: " + ToText(OptionalGet(deal, "name"))
  {
  }

  // ---------------------------------------------------------------------------
  // POST /helpdesk-to-crm/ticket-to-activity

  function TicketLookup(urls: ModuleUrls, req: Request, ticketId: string): Outbound {
    Outbound("GET", UrlText(urls, Helpdesk) + "/api/tickets/" + ticketId, AuthHeaders(req), NoBody)
  }

  /** The CRM activity built from a ticket; `None`: the ticket is null, so reading its fields throws. */
  function ActivityPayloadOf(ticket: JsValue): Option<Payload> {
    match Get(ticket, "subject")
    case None => None
    case Some(subject) =>
      Some(ActivityPayload("support_ticket", "Support Ticket: " + ToText(subject),
                           OptionalGet(ticket, "description"), OptionalGet(ticket, "requesterEmail")))
  }

  function ActivityCreate(urls: ModuleUrls, req: Request, payload: Payload): Outbound {
    Outbound("POST", UrlText(urls, Crm) + "/api/activities", JsonHeaders(req), Json(payload))
  }

  function TicketToActivity(urls: ModuleUrls, req: Request, send: Outbound -> FetchOutcome): (run: Run)
    ensures run.calls == [] <==> RequiredString(req.json, "ticketId").None?
    ensures |run.calls| <= 2
    ensures run.calls != [] ==> run.calls[0] == TicketLookup(urls, req, RequiredString(req.json, "ticketId").value)
  {
    match RequiredString(req.json, "ticketId")
    case None => Run([], InternalServerError())
    case Some(ticketId) =>
      var lookup := TicketLookup(urls, req, ticketId);
      match send(lookup)
      case NetworkError => Run([lookup], IntegrationFailed())
      case Replied(r) =>
        if !IsOk(r) then Run([lookup], JsonError(404, "Ticket not found"))
        else
          match r.json
          case None => Run([lookup], IntegrationFailed())
          case Some(ticket) =>
            match ActivityPayloadOf(ticket)
            case None => Run([lookup], IntegrationFailed())
            case Some(payload) =>
              Create([lookup], ActivityCreate(urls, req, payload), send,
                     "Failed to create activity", "activity", "Activity created from ticket successfully")
  }

  /** The activity payload: fixed type, the subject behind "Support Ticket: ", related to the requester. */
  lemma ActivityPayloadSpec(ticket: JsValue)
    requires ticket.Obj?
    ensures ActivityPayloadOf(ticket) == Some(ActivityPayload("support_ticket",
      "Support Ticket: " + ToText(OptionalGet(ticket, "subject")),
      OptionalGet(ticket, "description"), OptionalGet(ticket, "requesterEmail")))
    ensures ActivityPayloadOf(Null).None?
  {
  }

  /**
   * ticket-to-activity, stage by stage: a refused lookup is a 404 and nothing reaches CRM;
   * otherwise the one further call creates the activity built from the ticket.
   */
  lemma TicketToActivitySpec(urls: ModuleUrls, req: Request, send: Outbound -> FetchOutcome, ticketId: string)
    requires RequiredString(req.json, "ticketId") == Some(ticketId)
    ensures var run := TicketToActivity(urls, req, send);
      var lookup := TicketLookup(urls, req, ticketId);
      && run.calls[0] == lookup
      && (send(lookup).NetworkError? ==> run == Run([lookup], IntegrationFailed()))
      && (send(lookup).Replied? && !IsOk(send(lookup).reply) ==> run == Run([lookup], JsonError(404, "Ticket not found")))
      && (send(lookup).Replied? && IsOk(send(lookup).reply)
          && (send(lookup).reply.json.None? || !Present(send(lookup).reply.json.value)) ==>
            run == Run([lookup], IntegrationFailed()))
      && (|run.calls| == 2 <==>
            send(lookup).Replied? && IsOk(send(lookup).reply) && send(lookup).reply.json.Some?
            && Present(send(lookup).reply.json.value))
      && (|run.calls| == 2 ==>
            var payload := ActivityPayloadOf(send(lookup).reply.json.value).value;
            run == Create([lookup], ActivityCreate(urls, req, payload), send,
                          "Failed to create activity", "activity", "Activity created from ticket successfully"))
      && (|run.calls| != 2 ==> |run.calls| == 1 && run.response.status != 200)
  {
  }

  // ---------------------------------------------------------------------------
  // Properties shared by the three handlers

  /** A body that is no JSON or lacks the identifier escapes the guarded block: a framework 500, no call made. */
  lemma MalformedBodyIsInternalError(urls: ModuleUrls, req: Request, send: Outbound -> FetchOutcome)
    ensures RequiredString(req.json, "contactId").None? ==> ContactToClient(urls, req, send) == Run([], InternalServerError())
    ensures RequiredString(req.json, "dealId").None? ==> DealToInvoice(urls, req, send) == Run([], InternalServerError())
    ensures RequiredString(req.json, "ticketId").None? ==> TicketToActivity(urls, req, send) == Run([], InternalServerError())
  {
  }

  /** Every call in `calls` forwards both credentials of `req`, each defaulting to "". */
  predicate Credentialed(req: Request, calls: seq<Outbound>) {
    forall k | 0 <= k < |calls| ::
      && "authorization" in calls[k].headers
      && calls[k].headers["authorization"] == StringOr(Header(req, "authorization"), "")
      && "x-organization-id" in calls[k].headers
      && calls[k].headers["x-organization-id"] == StringOr(Header(req, "x-organization-id"), "")
  }

  lemma CreateCredentialed(req: Request, prior: seq<Outbound>, create: Outbound, send: Outbound -> FetchOutcome,
                           failure: string, key: string, success: string)
    requires Credentialed(req, prior) && Credentialed(req, [create])
    ensures Credentialed(req, Create(prior, create, send, failure, key, success).calls)
  {
    CreateOutcomes(prior, create, send, failure, key, success);
    var calls := prior + [create];
    forall k | 0 <= k < |calls|
      ensures calls[k] == (if k < |prior| then prior[k] else create)
    {
    }
  }

  lemma ContactToClientCredentialed(urls: ModuleUrls, req: Request, send: Outbound -> FetchOutcome)
    ensures Credentialed(req, ContactToClient(urls, req, send).calls)
  {
    var c := RequiredString(req.json, "contactId");
    if c.Some? {
      ContactToClientSpec(urls, req, send, c.value);
      var lookup := ContactLookup(urls, req, c.value);
      if |ContactToClient(urls, req, send).calls| == 2 {
        var payload := ClientPayloadOf(send(lookup).reply.json.value).value;
        CreateCredentialed(req, [lookup], ClientCreate(urls, req, payload), send,
                           "Failed to create client", "client", "Contact converted to client successfully");
      }
    }
  }

  lemma DealToInvoiceCredentialed(urls: ModuleUrls, req: Request, send: Outbound -> FetchOutcome)
    ensures Credentialed(req, DealToInvoice(urls, req, send).calls)
  {
    var d := RequiredString(req.json, "dealId");
    if d.Some? {
      DealConversionNeverRuns(urls, req, send, d.value);
      var lookup := DealLookup(urls, req, d.value);
      if |DealToInvoice(urls, req, send).calls| == 2 {
        var deal := send(lookup).reply.json.value;
        CreateCredentialed(req, [lookup], InvoiceCreate(urls, req, InvoicePayloadOf(deal, OptionalGet(deal, "contactId"))), send,
                           "Failed to create invoice", "invoice", "Invoice created from deal successfully");
      }
    }
  }

  lemma TicketToActivityCredentialed(urls: ModuleUrls, req: Request, send: Outbound -> FetchOutcome)
    ensures Credentialed(req, TicketToActivity(urls, req, send).calls)
  {
    var t := RequiredString(req.json, "ticketId");
    if t.Some? {
      TicketToActivitySpec(urls, req, send, t.value);
      var lookup := TicketLookup(urls, req, t.value);
      if |TicketToActivity(urls, req, send).calls| == 2 {
        var payload := ActivityPayloadOf(send(lookup).reply.json.value).value;
        CreateCredentialed(req, [lookup], ActivityCreate(urls, req, payload), send,
                           "Failed to create activity", "activity", "Activity created from ticket successfully");
      }
    }
  }

  /** The statuses a handler run can end with: 200 with the created record, 404 after one call, or 500. */
  predicate WellEnded(run: Run) {
    && (run.response.status == 200 || run.response.status == 404 || run.response.status == 500)
    && (run.response.status == 200 <==> run.response.body.SuccessBody?)
    && (run.response.status == 404 ==> |run.calls| == 1)
  }

  lemma ContactToClientEnds(urls: ModuleUrls, req: Request, send: Outbound -> FetchOutcome)
    ensures WellEnded(ContactToClient(urls, req, send))
  {
    var c := RequiredString(req.json, "contactId");
    if c.Some? {
      ContactToClientSpec(urls, req, send, c.value);
      var lookup := ContactLookup(urls, req, c.value);
      if |ContactToClient(urls, req, send).calls| == 2 {
        var payload := ClientPayloadOf(send(lookup).reply.json.value).value;
        CreateOutcomes([lookup], ClientCreate(urls, req, payload), send,
                       "Failed to create client", "client", "Contact converted to client successfully");
      }
    }
  }

  lemma DealToInvoiceEnds(urls: ModuleUrls, req: Request, send: Outbound -> FetchOutcome)
    ensures WellEnded(DealToInvoice(urls, req, send))
  {
    var d := RequiredString(req.json, "dealId");
    if d.Some? {
      DealConversionNeverRuns(urls, req, send, d.value);
      var lookup := DealLookup(urls, req, d.value);
      if |DealToInvoice(urls, req, send).calls| == 2 {
        var deal := send(lookup).reply.json.value;
        CreateOutcomes([lookup], InvoiceCreate(urls, req, InvoicePayloadOf(deal, OptionalGet(deal, "contactId"))), send,
                       "Failed to create invoice", "invoice", "Invoice created from deal successfully");
      }
    }
  }

  lemma TicketToActivityEnds(urls: ModuleUrls, req: Request, send: Outbound -> FetchOutcome)
    ensures WellEnded(TicketToActivity(urls, req, send))
  {
    var t := RequiredString(req.json, "ticketId");
    if t.Some? {
      TicketToActivitySpec(urls, req, send, t.value);
      var lookup := TicketLookup(urls, req, t.value);
      if |TicketToActivity(urls, req, send).calls| == 2 {
        var payload := ActivityPayloadOf(send(lookup).reply.json.value).value;
        CreateOutcomes([lookup], ActivityCreate(urls, req, payload), send,
                       "Failed to create activity", "activity", "Activity created from ticket successfully");
      }
    }
  }
}
