/**
 * The unified router: `/dashboard/stats` merges the five modules' own statistics into one
 * record, `/activity` pages an activity feed, `/search` validates its query. All three sit
 * behind the authentication gate, which the gateway model applies before these run.
 */
module Unified {
  import opened Prelude
  import opened JsValues
  import opened JsNumbers
  import opened SharedTypes
  import opened Http

  // ---------------------------------------------------------------------------
  // /dashboard/stats

  /** One element of `Promise.allSettled`'s result for `fetch(url).then(r => r.json())`. */
  datatype Settled = Fulfilled(value: JsValue) | Rejected

  /**
   * The settlement of one statistics request: fulfilled with the parsed body whenever the
   * body parses as JSON, whatever the status; rejected when `fetch` or `json()` throws.
   */
  function Settle(o: FetchOutcome): (s: Settled)
    ensures s.Fulfilled? <==> o.Replied? && o.reply.json.Some?
    ensures s.Fulfilled? ==> s.value == o.reply.json.value
  {
    match o
    case NetworkError => Rejected
    case Replied(r) => if r.json.Some? then Fulfilled(r.json.value) else Rejected
  }

  /** `s.status === "fulfilled" ? s.value?.key || 0 : 0`. */
  function Field(s: Settled, key: string): JsValue {
    match s
    case Rejected => Num(0)
    case Fulfilled(v) => Or(OptionalGet(v, key), Num(0))
  }

  /** The object literal of unified.ts:39-112, over the five settlements. */
  function Aggregate(p: Settled, c: Settled, i: Settled, h: Settled, q: Settled): SuiteStats {
    SuiteStats(
      ProjectsStats(Field(p, "total"), Field(p, "active"), Field(p, "completed")),
      CrmStats(Field(c, "totalContacts"), Field(c, "activeDeals"), Field(c, "revenue")),
      InvoicingStats(Field(i, "total"), Field(i, "paid"), Field(i, "pending"), Field(i, "revenue")),
      HelpdeskStats(Field(h, "total"), Field(h, "open"), Field(h, "resolved")),
      QueueStats(Field(q, "total"), Field(q, "active"), Field(q, "completed")))
  }

  /** The settlement that belongs to module `m`. */
  function Pick(m: ModuleName, p: Settled, c: Settled, i: Settled, h: Settled, q: Settled): Settled {
    match m
    case Projects => p
    case Crm => c
    case Invoicing => i
    case Helpdesk => h
    case Queue => q
  }

  /** The sub-record of module `m`, as (field name, value) pairs in declaration order. */
  function SubRecord(st: SuiteStats, m: ModuleName): seq<(string, JsValue)> {
    match m
    case Projects => [("total", st.projects.total), ("active", st.projects.active), ("completed", st.projects.completed)]
    case Crm => [("contacts", st.crm.contacts), ("deals", st.crm.deals), ("revenue", st.crm.revenue)]
    case Invoicing => [("invoices", st.invoicing.invoices), ("paid", st.invoicing.paid),
                       ("pending", st.invoicing.pending), ("revenue", st.invoicing.revenue)]
    case Helpdesk => [("tickets", st.helpdesk.tickets), ("open", st.helpdesk.open), ("resolved", st.helpdesk.resolved)]
    case Queue => [("tokens", st.queue.tokens), ("active", st.queue.active), ("completed", st.queue.completed)]
  }

  /**
   * The renaming table: the key read from the module's own statistics for each field of its
   * sub-record. Only five fields are renamed; every other field keeps its own name.
   */
  function SourceKey(m: ModuleName, field: string): string {
    match (m, field)
    case (Crm, "contacts") => "totalContacts"
    case (Crm, "deals") => "activeDeals"
    case (Invoicing, "invoices") => "total"
    case (Helpdesk, "tickets") => "total"
    case (Queue, "tokens") => "total"
    case _ => field
  }

  /** Every field of every sub-record is read from the key the renaming table gives for it. */
  lemma FieldMapping(p: Settled, c: Settled, i: Settled, h: Settled, q: Settled, m: ModuleName, k: nat)
    requires k < |SubRecord(Aggregate(p, c, i, h, q), m)|
    ensures var entry := SubRecord(Aggregate(p, c, i, h, q), m)[k];
      entry.1 == Field(Pick(m, p, c, i, h, q), SourceKey(m, entry.0))
  {
  }

  /** A rejected module has every field of its sub-record at 0. */
  lemma RejectedModuleIsZero(p: Settled, c: Settled, i: Settled, h: Settled, q: Settled, m: ModuleName)
    requires Pick(m, p, c, i, h, q).Rejected?
    ensures forall e | e in SubRecord(Aggregate(p, c, i, h, q), m) :: e.1 == Num(0)
  {
  }

  /**
   * Each field of a fulfilled module is the module's own value when that value is truthy, and 0
   * when it is missing, null, false, 0 or "".
   */
  lemma FulfilledFieldIsTruthyOrZero(s: Settled, key: string)
    requires s.Fulfilled?
    ensures Truthy(OptionalGet(s.value, key)) ==> Field(s, key) == OptionalGet(s.value, key)
    ensures !Truthy(OptionalGet(s.value, key)) ==> Field(s, key) == Num(0)
    ensures Truthy(Field(s, key)) || Field(s, key) == Num(0)
  {
  }

  /** A module's sub-record depends on that module's settlement alone. */
  lemma SubRecordsIndependent(p: Settled, c: Settled, i: Settled, h: Settled, q: Settled,
                              p': Settled, c': Settled, i': Settled, h': Settled, q': Settled, m: ModuleName)
    requires Pick(m, p, c, i, h, q) == Pick(m, p', c', i', h', q')
    ensures SubRecord(Aggregate(p, c, i, h, q), m) == SubRecord(Aggregate(p', c', i', h', q'), m)
  {
  }

  /** The modules in the order their statistics are requested. */
  const StatsOrder: seq<ModuleName> := [Projects, Crm, Invoicing, Helpdesk, Queue]

  /** The statistics request for module `m`: a plain GET of `${env.X_API_URL}/api/dashboard/stats`. */
  function StatsRequest(urls: ModuleUrls, m: ModuleName): Outbound {
    Outbound("GET", UrlText(urls, m) + "/api/dashboard/stats", map[], NoBody)
  }

  /** `GET /dashboard/stats`: five requests, one per module, then the merged record. */
  function DashboardStats(urls: ModuleUrls, send: Outbound -> FetchOutcome): (run: Run)
    ensures |run.calls| == 5 && run.response.status == 200 && run.response.body.StatsBody?
  {
    var calls := seq(5, k requires 0 <= k < 5 => StatsRequest(urls, StatsOrder[k]));
    var s := seq(5, k requires 0 <= k < 5 => Settle(send(calls[k])));
    Run(calls, Response(200, StatsBody(Aggregate(s[0], s[1], s[2], s[3], s[4]))))
  }

  /**
   * The dashboard answers 200 whatever the modules do, after exactly one request per module, and
   * the sub-record of each module is built from the settlement of that module's own request.
   */
  lemma DashboardStatsSpec(urls: ModuleUrls, send: Outbound -> FetchOutcome, m: ModuleName)
    ensures var run := DashboardStats(urls, send);
      && run.response.status == 200
      && run.response.body.StatsBody?
      && |run.calls| == 5
      && (forall k :: 0 <= k < 5 ==> run.calls[k] == StatsRequest(urls, StatsOrder[k]))
      && var st := run.response.body.stats;
         forall k :: 0 <= k < |SubRecord(st, m)| ==>
           SubRecord(st, m)[k].1 == Field(Settle(send(StatsRequest(urls, m))), SourceKey(m, SubRecord(st, m)[k].0))
  {
    var run := DashboardStats(urls, send);
    var s := seq(5, k requires 0 <= k < 5 => Settle(send(run.calls[k])));
    var idx := match m case Projects => 0 case Crm => 1 case Invoicing => 2 case Helpdesk => 3 case Queue => 4;
    assert StatsOrder[idx] == m;
    assert Pick(m, s[0], s[1], s[2], s[3], s[4]) == s[idx];
    forall k | 0 <= k < |SubRecord(run.response.body.stats, m)|
      ensures SubRecord(run.response.body.stats, m)[k].1
        == Field(Settle(send(StatsRequest(urls, m))), SourceKey(m, SubRecord(run.response.body.stats, m)[k].0))
    {
      FieldMapping(s[0], s[1], s[2], s[3], s[4], m, k);
    }
  }

  /** A module that answers an error status with a JSON body still counts as fulfilled. */
  lemma ErrorStatusStillCounts(urls: ModuleUrls, send: Outbound -> FetchOutcome, m: ModuleName, v: JsValue)
    requires send(StatsRequest(urls, m)).Replied?
    requires send(StatsRequest(urls, m)).reply.json == Some(v)
    requires !IsOk(send(StatsRequest(urls, m)).reply)
    ensures Settle(send(StatsRequest(urls, m))) == Fulfilled(v)
  {
  }

  // ---------------------------------------------------------------------------
  // /activity

  /** `parseInt(c.req.query(name) || fallback)`. */
  function IntParam(query: seq<(string, string)>, name: string, fallback: string): Option<int> {
    ParseInt(StringOr(QueryParam(query, name), fallback))
  }

  /** `feed.slice(offset, offset + limit)` together with the feed's length. */
  function Page(feed: seq<UnifiedActivity>, offset: Option<int>, limit: Option<int>): Response {
    Response(200, ActivityBody(Slice(feed, offset, Add(offset, limit)), |feed|))
  }

  /**
   * The page of `feed` that `/activity` returns, with `limit` defaulting to "20" and `offset`
   * to "0" when absent or empty.
   */
  function ActivityPage(feed: seq<UnifiedActivity>, query: seq<(string, string)>): Response {
    Page(feed, IntParam(query, "offset", "0"), IntParam(query, "limit", "20"))
  }

  /** `GET /activity`: the feed is always empty, so the page is empty and the total 0. */
  function Activity(query: seq<(string, string)>): (r: Response)
    ensures r == Response(200, ActivityBody([], 0))
  {
    SliceBounded<UnifiedActivity>([], IntParam(query, "offset", "0"), Add(IntParam(query, "offset", "0"), IntParam(query, "limit", "20")));
    ActivityPage([], query)
  }

  /** A parameter that is absent reads as its default. */
  lemma AbsentParam(query: seq<(string, string)>, name: string, fallback: string)
    requires forall k :: 0 <= k < |query| ==> query[k].0 != name
    ensures IntParam(query, name, fallback) == ParseInt(fallback)
  {
    assert QueryParam(query, name).None?;
  }

  /** Without `limit` and `offset` parameters, the two read as 20 and 0. */
  lemma DefaultParams(query: seq<(string, string)>)
    requires forall k :: 0 <= k < |query| ==> query[k].0 != "limit" && query[k].0 != "offset"
    ensures IntParam(query, "limit", "20") == Some(20)
    ensures IntParam(query, "offset", "0") == Some(0)
  {
    AbsentParam(query, "limit", "20");
    AbsentParam(query, "offset", "0");
    ParseIntDefaults();
  }

  /** A non-negative `offset` and `limit` select the window of `limit` entries at `offset`. */
  lemma PageIsWindow(feed: seq<UnifiedActivity>, offset: nat, limit: nat)
    ensures var page := Page(feed, Some(offset), Some(limit)).body.activities;
      && |page| <= limit
      && (offset >= |feed| ==> page == [])
      && (offset + limit <= |feed| ==> page == feed[offset..offset + limit])
      && (offset < |feed| < offset + limit ==> page == feed[offset..])
    ensures Page(feed, Some(offset), Some(limit)).body.total == |feed|
  {
    SliceWindow(feed, offset, limit);
  }

  /** With neither parameter given, the page is the first 20 entries of the feed. */
  lemma ActivityDefaults(feed: seq<UnifiedActivity>, query: seq<(string, string)>)
    requires forall k :: 0 <= k < |query| ==> query[k].0 != "limit" && query[k].0 != "offset"
    ensures ActivityPage(feed, query) == Page(feed, Some(0), Some(20))
  {
    DefaultParams(query);
  }

  /** The default page is the first 20 entries of the feed, or all of it when shorter. */
  lemma DefaultPage(feed: seq<UnifiedActivity>)
    ensures Page(feed, Some(0), Some(20)).body.activities == (if |feed| <= 20 then feed else feed[..20])
    ensures Page(feed, Some(0), Some(20)).body.total == |feed|
  {
    PageIsWindow(feed, 0, 20);
    assert feed[0..] == feed;
  }

  /** With decimal parameters `limit` and `offset`, the page is the window of `limit` entries at `offset`. */
  lemma ActivityWindow(feed: seq<UnifiedActivity>, limit: nat, offset: nat, query: seq<(string, string)>)
    requires QueryParam(query, "limit") == Some(NatToDecimal(limit))
    requires QueryParam(query, "offset") == Some(NatToDecimal(offset))
    ensures ActivityPage(feed, query) == Page(feed, Some(offset), Some(limit))
  {
    assert NatToDecimal(limit) + "" == IntToString(limit);
    assert NatToDecimal(offset) + "" == IntToString(offset);
    ParseIntOfDecimal(limit, "");
    ParseIntOfDecimal(offset, "");
  }

  // ---------------------------------------------------------------------------
  // /search

  /** `GET /search`: 400 without a non-empty `q`, otherwise one empty result list per module. */
  function Search(query: seq<(string, string)>): (r: Response)
    ensures r.status == 400 <==> QueryParam(query, "q").None? || QueryParam(query, "q").value == ""
    ensures r.status == 400 ==> r == JsonError(400, "Query parameter 'q' is required")
    ensures r.status != 400 ==> r == Response(200, SearchBody([], [], [], [], []))
  {
    var q := QueryParam(query, "q");
    if q.None? || q.value == "" then JsonError(400, "Query parameter 'q' is required")
    else Response(200, SearchBody([], [], [], [], []))
  }
}
