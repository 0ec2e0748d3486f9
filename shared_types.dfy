/** The suite-wide types: the five module names, the dashboard statistics record, an activity entry. */
module SharedTypes {
  import opened JsValues

  /** The five independently deployed modules of the suite. */
  datatype ModuleName = Projects | Crm | Invoicing | Helpdesk | Queue

  /** The identifier of a module as it appears in paths and messages. */
  function ModuleId(m: ModuleName): (id: string)
    ensures |id| >= 3
  {
    match m
    case Projects => "projects"
    case Crm => "crm"
    case Invoicing => "invoicing"
    case Helpdesk => "helpdesk"
    case Queue => "queue"
  }

  /** Distinct modules have distinct identifiers, so an identifier names one module. */
  lemma ModuleIdInjective(m1: ModuleName, m2: ModuleName)
    ensures ModuleId(m1) == ModuleId(m2) <==> m1 == m2
  {
  }

  /**
   * The aggregated dashboard record: one sub-record per module with fixed field names.
   * Each field holds whatever value the aggregator put there (a number, or any truthy JSON value).
   */
  datatype ProjectsStats = ProjectsStats(total: JsValue, active: JsValue, completed: JsValue)
  datatype CrmStats = CrmStats(contacts: JsValue, deals: JsValue, revenue: JsValue)
  datatype InvoicingStats = InvoicingStats(invoices: JsValue, paid: JsValue, pending: JsValue, revenue: JsValue)
  datatype HelpdeskStats = HelpdeskStats(tickets: JsValue, open: JsValue, resolved: JsValue)
  datatype QueueStats = QueueStats(tokens: JsValue, active: JsValue, completed: JsValue)

  datatype SuiteStats = SuiteStats(
    projects: ProjectsStats,
    crm: CrmStats,
    invoicing: InvoicingStats,
    helpdesk: HelpdeskStats,
    queue: QueueStats)

  /** One entry of the unified activity feed; the time stamp is in milliseconds since the epoch. */
  datatype UnifiedActivity = UnifiedActivity(
    id: string,
    source: ModuleName,
    kind: string,
    title: string,
    description: string,
    timestampMs: int,
    userId: string)
}
