/** Report templates and saved reports: the report types and statuses, the
    generation task that dispatches on the template's type and records the
    outcome, the regenerate action, and who may see and change what
    (reports/models.py, reports/report_generators.py, reports/views.py). */
module Reports {
  import opened Common
  import opened Coa
  import opened Journal
  import opened Statements
  import opened GeneralLedger

  // ---------------------------------------------------------------------
  // Report types and statuses
  // ---------------------------------------------------------------------

  datatype ReportKind =
    | BalanceSheetKind
    | IncomeStatementKind
    | CashFlowKind
    | GeneralLedgerKind
    | TrialBalanceKind
    | CustomKind

  /** The value a template stores for each report type. */
  function KindCode(k: ReportKind): string
  {
    match k
    case BalanceSheetKind => "balance_sheet"
    case IncomeStatementKind => "income_statement"
    case CashFlowKind => "cash_flow"
    case GeneralLedgerKind => "general_ledger"
    case TrialBalanceKind => "trial_balance"
    case CustomKind => "custom"
  }

  /** The report-type choice a stored value names, if it names one. */
  function ParseKind(code: string): (r: Option<ReportKind>)
    ensures r.Some? ==> KindCode(r.value) == code
  {
    if code == "balance_sheet" then Some(BalanceSheetKind)
    else if code == "income_statement" then Some(IncomeStatementKind)
    else if code == "cash_flow" then Some(CashFlowKind)
    else if code == "general_ledger" then Some(GeneralLedgerKind)
    else if code == "trial_balance" then Some(TrialBalanceKind)
    else if code == "custom" then Some(CustomKind)
    else None
  }

  /** Every report type's stored value reads back as that type, so the six
      values are distinct. */
  lemma KindCodeRoundTrip(k: ReportKind)
    ensures ParseKind(KindCode(k)) == Some(k)
  {
    match k
    case BalanceSheetKind =>
    case IncomeStatementKind =>
      assert KindCode(k)[0] != "balance_sheet"[0];
    case CashFlowKind =>
      assert KindCode(k)[0] != "balance_sheet"[0];
      assert KindCode(k)[0] != "income_statement"[0];
    case GeneralLedgerKind =>
      assert KindCode(k)[0] != "balance_sheet"[0];
      assert KindCode(k)[0] != "income_statement"[0];
      assert KindCode(k)[0] != "cash_flow"[0];
    case TrialBalanceKind =>
      assert KindCode(k)[0] != "balance_sheet"[0];
      assert KindCode(k)[0] != "income_statement"[0];
      assert KindCode(k)[0] != "cash_flow"[0];
      assert KindCode(k)[0] != "general_ledger"[0];
    case CustomKind =>
      assert KindCode(k)[0] != "balance_sheet"[0];
      assert KindCode(k)[0] != "income_statement"[0];
      assert KindCode(k)[1] != "cash_flow"[1];
      assert KindCode(k)[0] != "general_ledger"[0];
      assert KindCode(k)[0] != "trial_balance"[0];
  }

  /** The generator the background job runs for a template's stored type: the five
      named types run their own generators and every other value, "custom"
      or not, runs the custom generator. */
  function Route(reportType: string): (r: ReportKind)
    ensures r != CustomKind ==> KindCode(r) == reportType
    ensures ParseKind(reportType).Some? ==> r == ParseKind(reportType).value
    ensures ParseKind(reportType).None? ==> r == CustomKind
  {
    match ParseKind(reportType)
    case Some(k) => k
    case None => CustomKind
  }

  datatype ReportStatus = Generating | Completed | Failed

  /** The value a saved report stores for each status. */
  function StatusCode(s: ReportStatus): (r: string)
    ensures r in {"generating", "completed", "failed"}
  {
    match s
    case Generating => "generating"
    case Completed => "completed"
    case Failed => "failed"
  }

  // ---------------------------------------------------------------------
  // Parameters and results
  // ---------------------------------------------------------------------

  /** A report's parameters; None marks a key the parameters leave out. */
  datatype Params = Params(asOfDate: Option<Date>, fromDate: Option<Date>, toDate: Option<Date>, accountId: Option<nat>)

  const CustomMessage := "Custom report generation not fully implemented"

  /** A report's result data; NoData is the empty mapping. */
  datatype ReportData =
    | NoData
    | BalanceSheetData(balanceSheet: BalanceSheet)
    | IncomeStatementData(incomeStatement: IncomeStatement)
    | CashFlowData(cashFlow: CashFlow)
    | GeneralLedgerData(generalLedger: GeneralLedgerReport)
    | TrialBalanceData(trialBalance: TrialBalance)
    | CustomData(kind: string, configuration: string, parameters: Params, message: string)

  /** generate_custom_report: the template's configuration (JSON text) and
      the parameters echoed beside a fixed message. */
  function CustomReportOf(configuration: string, parameters: Params): (r: ReportData)
    ensures r.CustomData? && r.kind == "custom" && r.message == CustomMessage
    ensures r.configuration == configuration && r.parameters == parameters
  {
    CustomData("custom", configuration, parameters, CustomMessage)
  }

  /** generate_report's dispatch: the result of the generator for kind, as
      each generator is written, with absent dates defaulting to today. */
  function Generate(kind: ReportKind, configuration: string, params: Params, chart: Chart, ledger: Ledger, today: Date): (r: ReportData)
    ensures r != NoData
    ensures r.BalanceSheetData? <==> kind == BalanceSheetKind
    ensures r.IncomeStatementData? <==> kind == IncomeStatementKind
    ensures r.CashFlowData? <==> kind == CashFlowKind
    ensures r.GeneralLedgerData? <==> kind == GeneralLedgerKind
    ensures r.TrialBalanceData? <==> kind == TrialBalanceKind
    ensures r.CustomData? <==> kind == CustomKind
    ensures r.BalanceSheetData? ==> r.balanceSheet == BalanceSheetOf(chart, ledger, params.asOfDate.GetOr(today))
    ensures r.TrialBalanceData? ==> r.trialBalance == TrialBalanceOf(chart, ledger, params.asOfDate.GetOr(today))
    ensures r.IncomeStatementData? ==> r.incomeStatement == IncomeStatementOf(chart, ledger, params.fromDate, params.toDate.GetOr(today))
    ensures r.CashFlowData? ==> r.cashFlow == CashFlowOf(chart, ledger, params.fromDate, params.toDate.GetOr(today))
    ensures r.GeneralLedgerData? ==>
      r.generalLedger == GeneralLedgerOf(chart, ledger, params.fromDate, params.toDate.GetOr(today), params.accountId)
    ensures r.CustomData? ==> r == CustomReportOf(configuration, params)
  {
    match kind
    case BalanceSheetKind => BalanceSheetData(BalanceSheetOf(chart, ledger, params.asOfDate.GetOr(today)))
    case IncomeStatementKind => IncomeStatementData(IncomeStatementOf(chart, ledger, params.fromDate, params.toDate.GetOr(today)))
    case CashFlowKind => CashFlowData(CashFlowOf(chart, ledger, params.fromDate, params.toDate.GetOr(today)))
    case GeneralLedgerKind =>
      GeneralLedgerData(GeneralLedgerOf(chart, ledger, params.fromDate, params.toDate.GetOr(today), params.accountId))
    case TrialBalanceKind => TrialBalanceData(TrialBalanceOf(chart, ledger, params.asOfDate.GetOr(today)))
    case CustomKind => CustomReportOf(configuration, params)
  }

  // ---------------------------------------------------------------------
  // Templates and saved reports
  // ---------------------------------------------------------------------

  datatype ReportTemplate = ReportTemplate(
    name: string,
    reportType: string,
    description: string,
    configuration: string,
    isSystem: bool,
    createdBy: Option<nat>)

  /** A template as created through the API: the request's name, type,
      description and configuration (None marks a field it leaves out, which
      takes the model default: an empty description, an empty configuration
      object), never a system template, and owned by the requesting user. */
  function NewTemplate(name: string, reportType: string, description: Option<string>, configuration: Option<string>, user: nat)
    : (t: ReportTemplate)
    ensures !t.isSystem && t.createdBy == Some(user)
    ensures t.name == name && t.reportType == reportType
    ensures t.description == (if description.Some? then description.value else "")
    ensures t.configuration == (if configuration.Some? then configuration.value else "{}")
  {
    ReportTemplate(name, reportType, description.GetOr(""), configuration.GetOr("{}"), false, Some(user))
  }

  datatype SavedReport = SavedReport(
    template: nat,
    name: string,
    parameters: Params,
    resultData: ReportData,
    status: ReportStatus,
    errorMessage: string,
    createdBy: Option<nat>)

  /** A saved report as created: generating, with no result and no error,
      owned by its creator. */
  function NewSavedReport(template: nat, name: string, parameters: Params, user: nat): (r: SavedReport)
    ensures r.status == Generating && r.resultData == NoData && r.errorMessage == ""
    ensures r.template == template && r.name == name && r.parameters == parameters && r.createdBy == Some(user)
  {
    SavedReport(template, name, parameters, NoData, Generating, "", Some(user))
  }

  /** The outcome of the generation task on one report: completed with the
      result, or failed with the exception's message and the earlier result
      left in place. */
  function AfterGeneration(report: SavedReport, outcome: Result<ReportData, string>): (r: SavedReport)
    ensures r.status == Completed <==> outcome.Ok?
    ensures r.status == Failed <==> outcome.Err?
    ensures outcome.Ok? ==> r.resultData == outcome.value && r.errorMessage == report.errorMessage
    ensures outcome.Err? ==> r.resultData == report.resultData && r.errorMessage == outcome.error
    ensures r.template == report.template && r.parameters == report.parameters && r.createdBy == report.createdBy
  {
    match outcome
    case Ok(data) => report.(resultData := data, status := Completed)
    case Err(message) => report.(status := Failed, errorMessage := message)
  }

  /** The state regenerate saves before dispatching: generating, with an
      empty result and an empty error message. */
  function ResetForRegeneration(report: SavedReport): (r: SavedReport)
    ensures r.status == Generating && r.resultData == NoData && r.errorMessage == ""
    ensures r.template == report.template && r.parameters == report.parameters && r.createdBy == report.createdBy
  {
    report.(status := Generating, resultData := NoData, errorMessage := "")
  }

  /** Regenerating and then generating successfully leaves a completed
      report with the new result and no stale error message, whatever state
      it was in before. */
  lemma RegenerateThenComplete(report: SavedReport, data: ReportData)
    ensures var r := AfterGeneration(ResetForRegeneration(report), Ok(data));
      r.status == Completed && r.resultData == data && r.errorMessage == ""
  {
  }

  /** Regenerating and then failing leaves a failed report with no result
      and exactly the new message. */
  lemma RegenerateThenFail(report: SavedReport, message: string)
    ensures var r := AfterGeneration(ResetForRegeneration(report), Err(message));
      r.status == Failed && r.resultData == NoData && r.errorMessage == message
  {
  }

  // ---------------------------------------------------------------------
  // Users, visibility and permissions
  // ---------------------------------------------------------------------

  /** A requesting user: id, the role attached to the account if any, and
      whether the request is authenticated. */
  datatype User = User(id: nat, role: Option<string>, authenticated: bool)

  /** Admins and accountants see every saved report. */
  predicate SeesAllReports(u: User)
  {
    u.role == Some("admin") || u.role == Some("accountant")
  }

  predicate ReportVisible(u: User, report: SavedReport)
  {
    SeesAllReports(u) || report.createdBy == Some(u.id)
  }

  /** The saved-report queryset: all reports for admins and accountants, and
      otherwise (any other role, or none) only the user's own. */
  function VisibleReports(u: User, reports: map<nat, SavedReport>): (r: map<nat, SavedReport>)
    ensures SeesAllReports(u) ==> r == reports
    ensures !SeesAllReports(u) ==> forall id :: id in r <==> id in reports && reports[id].createdBy == Some(u.id)
    ensures forall id :: id in r ==> r[id] == reports[id]
  {
    map id | id in reports && ReportVisible(u, reports[id]) :: reports[id]
  }

  /** The template queryset: system templates and the user's own. */
  function VisibleTemplates(u: User, templates: map<nat, ReportTemplate>): (r: map<nat, ReportTemplate>)
    ensures forall id :: id in r <==> id in templates && (templates[id].isSystem || templates[id].createdBy == Some(u.id))
    ensures forall id :: id in r ==> r[id] == templates[id]
  {
    map id | id in templates && (templates[id].isSystem || templates[id].createdBy == Some(u.id)) :: templates[id]
  }

  /** The accountant permission: an authenticated user whose role is
      accountant or admin. */
  predicate IsAccountant(u: User)
  {
    u.authenticated && (u.role == Some("accountant") || u.role == Some("admin"))
  }

  /** The template endpoint's permission check for an action. */
  predicate TemplateActionAllowed(u: User, action: string)
  {
    if action == "list" || action == "retrieve" then u.authenticated
    else u.authenticated && IsAccountant(u)
  }

  /** Reading needs only authentication, anything else needs the accountant
      permission; so whoever may change templates may also read them. */
  lemma TemplatePermissions(u: User, action: string)
    ensures action == "list" || action == "retrieve" ==> (TemplateActionAllowed(u, action) <==> u.authenticated)
    ensures action != "list" && action != "retrieve" ==> (TemplateActionAllowed(u, action) <==> IsAccountant(u))
    ensures TemplateActionAllowed(u, action) ==> TemplateActionAllowed(u, "list") && TemplateActionAllowed(u, "retrieve")
  {
  }

  // ---------------------------------------------------------------------
  // The store of templates and saved reports
  // ---------------------------------------------------------------------

  /** A reply of the regenerate action: HTTP status, body key and message. */
  datatype Reply = Reply(code: nat, key: string, message: string)

  const Started := Reply(200, "status", "Report generation started")
  const DispatchFailed := Reply(500, "error", "Failed to start report generation")
  const NotFound := Reply(404, "detail", "Not found.")
  const NotAuthenticated := Reply(401, "detail", "Authentication credentials were not provided.")

  /** The message the background job records when the report does not exist. */
  const NoSuchReport := "SavedReport matching query does not exist."

  class ReportStore {
    var templates: map<nat, ReportTemplate>
    /** Saved reports by id. */
    var reports: map<nat, SavedReport>
    /** Report ids handed to the background job queue, in order. */
    var dispatched: seq<nat>

    /** Every saved report's template exists (deleting a template deletes
        its reports). */
    ghost predicate Valid()
      reads this
    {
      forall id :: id in reports ==> reports[id].template in templates
    }

    constructor ()
      ensures Valid() && templates == map[] && reports == map[] && dispatched == []
    {
      templates, reports, dispatched := map[], map[], [];
    }

    /** generate_report: looks the report up, runs the generator its
        template's type routes to, and records the outcome. `fault` stands
        for an exception raised by the generator; it is recorded on the
        report and re-raised (returned as Err). A missing report changes
        nothing. */
    method GenerateReport(id: nat, chart: Chart, ledger: Ledger, today: Date, fault: Option<string>)
      returns (r: Result<(), string>)
      requires Valid()
      modifies this`reports
      ensures Valid()
      ensures id !in old(reports) ==> r == Err(NoSuchReport) && reports == old(reports)
      ensures id in old(reports) && fault.Some? ==>
        && r == Err(fault.value)
        && reports == old(reports)[id := AfterGeneration(old(reports)[id], Err(fault.value))]
      ensures id in old(reports) && fault.None? ==>
        var report := old(reports)[id];
        var template := templates[report.template];
        && r == Ok(())
        && reports == old(reports)[id := AfterGeneration(report,
             Ok(Generate(Route(template.reportType), template.configuration, report.parameters, chart, ledger, today)))]
    {
      if id !in reports {
        return Err(NoSuchReport);
      }
      var report := reports[id];
      var template := templates[report.template];
      if fault.Some? {
        reports := reports[id := AfterGeneration(report, Err(fault.value))];
        return Err(fault.value);
      }
      var result := Generate(Route(template.reportType), template.configuration, report.parameters, chart, ledger, today);
      reports := reports[id := AfterGeneration(report, Ok(result))];
      r := Ok(());
    }

    /** The regenerate action: an unauthenticated request is refused; a
        report the user cannot see is not found;
        otherwise it is reset and saved, then handed to the background job queue. When
        handing it over fails (`dispatchFault`), the report is marked failed
        with the message and the reply is a server error. */
    method Regenerate(user: User, id: nat, dispatchFault: Option<string>) returns (reply: Reply)
      requires Valid()
      modifies this`reports, this`dispatched
      ensures Valid()
      ensures !user.authenticated ==>
        reply == NotAuthenticated && reports == old(reports) && dispatched == old(dispatched)
      ensures user.authenticated && (id !in old(reports) || !ReportVisible(user, old(reports)[id])) ==>
        reply == NotFound && reports == old(reports) && dispatched == old(dispatched)
      ensures user.authenticated && id in old(reports) && ReportVisible(user, old(reports)[id]) && dispatchFault.None? ==>
        && reply == Started
        && reports == old(reports)[id := ResetForRegeneration(old(reports)[id])]
        && dispatched == old(dispatched) + [id]
      ensures user.authenticated && id in old(reports) && ReportVisible(user, old(reports)[id]) && dispatchFault.Some? ==>
        && reply == DispatchFailed
        && reports == old(reports)[id := AfterGeneration(ResetForRegeneration(old(reports)[id]), Err(dispatchFault.value))]
        && dispatched == old(dispatched)
    {
      if !user.authenticated {
        return NotAuthenticated;
      }
      if id !in reports || !ReportVisible(user, reports[id]) {
        return NotFound;
      }
      var report := ResetForRegeneration(reports[id]);
      reports := reports[id := report];
      if dispatchFault.None? {
        dispatched := dispatched + [id];
        return Started;
      }
      reports := reports[id := AfterGeneration(report, Err(dispatchFault.value))];
      reply := DispatchFailed;
    }
  }
}
