/**
 * `GET /api/dashboard`: the headline figures of the books (revenue,
 * spending, profit, receivables, cash), the five newest invoices and
 * expenses, the bank accounts, the open audit findings and the list sizes.
 * Every ledger read, and the findings query, degrades to an empty list when
 * it fails.
 */
module Dashboard {
  import opened Wrappers
  import opened Json
  import opened Seqs
  import opened Books
  import opened Dates
  import opened Http
  import opened SettingsHelper
  import Reports

  // ---------------------------------------------------------------- metrics

  /** Invoices still owed: sent, overdue or partially paid. */
  predicate IsOutstanding(inv: Json) {
    IsStatus(inv, "sent") || IsStatus(inv, "overdue") || IsStatus(inv, "partially_paid")
  }

  /** The outstanding invoices that are not overdue. */
  predicate IsSentOrPartial(inv: Json) {
    IsStatus(inv, "sent") || IsStatus(inv, "partially_paid")
  }

  /** The dashboard's metric block, in cents. */
  datatype Metrics = Metrics(
    totalRevenue: int, totalExpenses: int, netProfit: int, outstanding: int, overdueAmount: int,
    overdueCount: nat, cashInBank: int)

  /**
   * Lines 41-49 and 83-91. The reported `totalExpenses` adds the bill totals
   * to the expense totals, and the profit is revenue less both.
   */
  function MetricsOf(invoices: seq<Json>, bills: seq<Json>, expenses: seq<Json>, bankAccounts: seq<Json>)
    : (m: Metrics)
    ensures m.totalRevenue == Sum(invoices, TotalOf)
    ensures m.totalExpenses == Sum(expenses + bills, TotalOf)
    ensures m.netProfit == m.totalRevenue - m.totalExpenses
    ensures m.outstanding == Sum(Filter(invoices, IsOutstanding), BalanceOf)
    ensures m.overdueAmount == Sum(Filter(invoices, Reports.IsOverdue), BalanceOf)
    ensures m.overdueCount == Count(invoices, Reports.IsOverdue)
    ensures m.cashInBank == Sum(bankAccounts, BalanceOf)
  {
    var totalRevenue := Sum(invoices, TotalOf);
    var totalExpenses := Sum(expenses, TotalOf);
    var billsTotal := Sum(bills, TotalOf);
    var overdue := Filter(invoices, Reports.IsOverdue);
    SumConcat(expenses, bills, TotalOf);
    CountIsFilterLength(invoices, Reports.IsOverdue);
    Metrics(totalRevenue, totalExpenses + billsTotal, totalRevenue - totalExpenses - billsTotal,
            Sum(Filter(invoices, IsOutstanding), BalanceOf), Sum(overdue, BalanceOf), |overdue|,
            Sum(bankAccounts, BalanceOf))
  }

  /**
   * The outstanding figure is the overdue amount plus the balances of the
   * sent and partially paid invoices, and the overdue invoices are among
   * the outstanding ones; with no negative balance the overdue amount is at
   * most the outstanding figure.
   */
  lemma OverdueWithinOutstanding(invoices: seq<Json>, bills: seq<Json>, expenses: seq<Json>, bankAccounts: seq<Json>)
    ensures var m := MetricsOf(invoices, bills, expenses, bankAccounts);
      && m.outstanding == m.overdueAmount + Sum(Filter(invoices, IsSentOrPartial), BalanceOf)
      && m.overdueCount <= Count(invoices, IsOutstanding)
      && ((forall i :: 0 <= i < |invoices| ==> BalanceOf(invoices[i]) >= 0) ==> m.overdueAmount <= m.outstanding)
  {
    OutstandingSplit(invoices);
    if forall i :: 0 <= i < |invoices| ==> BalanceOf(invoices[i]) >= 0 {
      SumFilterMonotone(invoices, Reports.IsOverdue, IsOutstanding, BalanceOf);
    }
  }

  /** The outstanding invoices are the overdue ones and, apart from them, the sent and partially paid ones. */
  lemma OutstandingSplit(invoices: seq<Json>)
    ensures Sum(Filter(invoices, IsOutstanding), BalanceOf)
         == Sum(Filter(invoices, Reports.IsOverdue), BalanceOf) + Sum(Filter(invoices, IsSentOrPartial), BalanceOf)
    ensures Count(invoices, IsOutstanding) == Count(invoices, Reports.IsOverdue) + Count(invoices, IsSentOrPartial)
  {
    assert forall x :: !(Reports.IsOverdue(x) && IsSentOrPartial(x)) by {
      assert "overdue" != "sent" && "overdue" != "partially_paid";
    }
    SumFilterSplit(invoices, IsOutstanding, Reports.IsOverdue, IsSentOrPartial, BalanceOf);
  }

  /** An outstanding invoice is neither paid, void nor a draft. */
  lemma OutstandingIsUnpaid(inv: Json)
    ensures IsOutstanding(inv) ==> Reports.IsUnpaid(inv)
  {
    if IsOutstanding(inv) {
      var status := Get(inv, "status").s;
      assert |"sent"| == 4 && |"overdue"| == 7 && |"partially_paid"| == 14;
      assert |"paid"| == 4 && |"void"| == 4 && |"draft"| == 5;
      assert "sent"[0] == 's' && "paid"[0] == 'p' && "void"[0] == 'v';
    }
  }

  /**
   * Against the report's invoice section: with no negative balance, the
   * dashboard's outstanding figure is at most the report's, which counts
   * every invoice not paid, void or draft, and so is the number of invoices
   * behind it.
   */
  lemma OutstandingWithinReport(invoices: seq<Json>, bills: seq<Json>, expenses: seq<Json>, bankAccounts: seq<Json>)
    ensures Count(invoices, IsOutstanding) <= Count(invoices, Reports.IsUnpaid)
    ensures (forall i :: 0 <= i < |invoices| ==> BalanceOf(invoices[i]) >= 0) ==>
      MetricsOf(invoices, bills, expenses, bankAccounts).outstanding <= Sum(Filter(invoices, Reports.IsUnpaid), BalanceOf)
  {
    forall x
      ensures IsOutstanding(x) ==> Reports.IsUnpaid(x)
    {
      OutstandingIsUnpaid(x);
    }
    CountMonotone(invoices, IsOutstanding, Reports.IsUnpaid);
    if forall i :: 0 <= i < |invoices| ==> BalanceOf(invoices[i]) >= 0 {
      SumFilterMonotone(invoices, IsOutstanding, Reports.IsUnpaid, BalanceOf);
    }
  }

  // ------------------------------------------------------------ recent five

  const RecentCount: nat := 5

  function ByDate(parseDate: string -> Option<int>): Json -> real {
    record => TimeKey(Get(record, "date"), parseDate)
  }

  /** Lines 52-54 and 67-69: newest date first, the first five. */
  function Latest(records: seq<Json>, parseDate: string -> Option<int>): seq<Json> {
    Take(SortDesc(records, ByDate(parseDate)), RecentCount)
  }

  /**
   * At most five records, all of them fetched, newest first, and none left
   * out newer than one shown; with five or fewer records, all of them.
   */
  lemma LatestAreNewest(records: seq<Json>, parseDate: string -> Option<int>)
    ensures var recent := Latest(records, parseDate);
      && IsTop(recent, records, ByDate(parseDate), RecentCount)
      && (|records| <= RecentCount ==> multiset(recent) == multiset(records))
  {
    TopOfSorted(records, ByDate(parseDate), RecentCount);
  }

  /** `records.sort(newest first).slice(0, 5)`, the sort done in place on the fetched array. */
  method LatestFive(records: seq<Json>, parseDate: string -> Option<int>) returns (recent: seq<Json>)
    ensures recent == Latest(records, parseDate)
  {
    var sorted := SortedCopy(records, ByDate(parseDate));
    recent := Take(sorted, RecentCount);
  }

  /** Lines 55-64. */
  function InvoiceEntry(inv: Json): Json {
    JObj(map["id" := Get(inv, "invoice_id"), "number" := Get(inv, "invoice_number"),
             "customer" := Get(inv, "customer_name"), "amount" := Get(inv, "total"),
             "balance" := Get(inv, "balance"), "status" := Get(inv, "status"), "date" := Get(inv, "date"),
             "dueDate" := Get(inv, "due_date")])
  }

  /** Lines 70-77. */
  function ExpenseEntry(exp: Json): Json {
    JObj(map["id" := Get(exp, "expense_id"), "account" := Get(exp, "account_name"),
             "vendor" := Get(exp, "vendor_name"), "amount" := Get(exp, "total"), "date" := Get(exp, "date"),
             "status" := Get(exp, "status")])
  }

  /** Lines 100-105: an audit finding row as the dashboard lists it. */
  function FindingEntry(f: Json): Json {
    JObj(map["id" := Get(f, "id"), "title" := Get(f, "title"), "severity" := Get(f, "severity"),
             "type" := Get(f, "findingType")])
  }

  // ------------------------------------------------------------------ reply

  /** The four ledger lists the dashboard reads, a failed read counting as none. */
  datatype Lists = Lists(invoices: seq<Json>, bills: seq<Json>, expenses: seq<Json>, bankAccounts: seq<Json>)

  function Fetched(list: Lister): (b: Lists)
    ensures b.invoices == OrEmpty(list(Reports.FetchCall(Reports.Invoices)))
    ensures b.bills == OrEmpty(list(Reports.FetchCall(Reports.Bills)))
    ensures b.expenses == OrEmpty(list(Reports.FetchCall(Reports.Expenses)))
    ensures b.bankAccounts == OrEmpty(list(Reports.FetchCall(Reports.BankAccounts)))
  {
    Lists(Reports.Records(list, Reports.Invoices), Reports.Records(list, Reports.Bills),
          Reports.Records(list, Reports.Expenses), Reports.Records(list, Reports.BankAccounts))
  }

  /** The `data` block of a connected dashboard, lines 82-112. */
  datatype Data = Data(
    metrics: Metrics, recentInvoices: seq<Json>, recentExpenses: seq<Json>, bankAccounts: seq<Json>,
    auditFindings: seq<Json>, invoiceCount: nat, billCount: nat, expenseCount: nat, bankAccountCount: nat)

  /** What the dashboard shows: nothing, the 500 error, or the currency and the data. */
  datatype View = Hidden | Failed(message: string) | Shown(currency: Json, data: Data)

  /** The data block for the fetched lists, with the two recent lists as given. */
  function DataOf(b: Lists, recentInvoices: seq<Json>, recentExpenses: seq<Json>, findings: seq<Json>): Data {
    Data(MetricsOf(b.invoices, b.bills, b.expenses, b.bankAccounts), Map(recentInvoices, InvoiceEntry),
         Map(recentExpenses, ExpenseEntry), Map(b.bankAccounts, AccountEntry), Map(findings, FindingEntry),
         |b.invoices|, |b.bills|, |b.expenses|, |b.bankAccounts|)
  }

  /** Lines 10-18: the dashboard shows data only with a connected ledger and an organization id. */
  predicate Visible(settings: Option<SettingsRow>, connected: bool) {
    connected && Truthy(Column(settings, "zohoOrgId"))
  }

  /**
   * The dashboard as the route computes it. `settings` is the settings read,
   * whose failure falls into the 500 handler; `findings` is the open audit
   * findings query (the first five by severity), whose failure counts as no
   * findings; `parseDate` is the date parser.
   */
  function DashboardOf(settings: Result<Option<SettingsRow>, Thrown>, connected: bool, list: Lister,
                       findings: Result<seq<Json>, Thrown>, parseDate: string -> Option<int>): (v: View)
    ensures settings.Err? <==> v.Failed?
    ensures v.Failed? ==> v.message == settings.error.MessageOr("Failed to fetch")
    ensures v.Hidden? <==> settings.Ok? && !Visible(settings.value, connected)
    ensures v.Shown? ==> v.currency == Or(Column(settings.value, "currency"), JStr("CAD"))
  {
    match settings
    case Err(e) => Failed(e.MessageOr("Failed to fetch"))
    case Ok(row) =>
      if !Visible(row, connected) then Hidden
      else
        var b := Fetched(list);
        Shown(Or(Column(row, "currency"), JStr("CAD")),
              DataOf(b, Latest(b.invoices, parseDate), Latest(b.expenses, parseDate), OrEmpty(findings)))
  }

  /** The route itself: the fetched lists sorted in place for the recent entries. */
  method DashboardGet(settings: Result<Option<SettingsRow>, Thrown>, connected: bool, list: Lister,
                      findings: Result<seq<Json>, Thrown>, parseDate: string -> Option<int>) returns (v: View)
    ensures v == DashboardOf(settings, connected, list, findings, parseDate)
  {
    if settings.Err? {
      return Failed(settings.error.MessageOr("Failed to fetch"));
    }
    var row := settings.value;
    if !Visible(row, connected) {
      return Hidden;
    }
    var b := Fetched(list);
    var recentInvoices := LatestFive(b.invoices, parseDate);
    var recentExpenses := LatestFive(b.expenses, parseDate);
    v := Shown(Or(Column(row, "currency"), JStr("CAD")), DataOf(b, recentInvoices, recentExpenses, OrEmpty(findings)));
  }

  /**
   * The figures of a dashboard's data: the metrics of the fetched lists, at
   * most five recent invoices and expenses drawn from them, one entry per
   * bank account and per finding, and counts equal to the list lengths.
   */
  predicate Figures(b: Lists, findings: seq<Json>, d: Data) {
    && d.metrics == MetricsOf(b.invoices, b.bills, b.expenses, b.bankAccounts)
    && |d.recentInvoices| <= RecentCount && |d.recentExpenses| <= RecentCount
    && (forall e :: e in d.recentInvoices ==> exists inv :: inv in b.invoices && e == InvoiceEntry(inv))
    && (forall e :: e in d.recentExpenses ==> exists x :: x in b.expenses && e == ExpenseEntry(x))
    && d.bankAccounts == Map(b.bankAccounts, AccountEntry)
    && d.auditFindings == Map(findings, FindingEntry)
    && d.invoiceCount == |b.invoices| && d.billCount == |b.bills|
    && d.expenseCount == |b.expenses| && d.bankAccountCount == |b.bankAccounts|
  }

  /** A connected dashboard is shown, with the figures of the fetched lists. */
  lemma DashboardFigures(row: Option<SettingsRow>, list: Lister, findings: Result<seq<Json>, Thrown>,
                         parseDate: string -> Option<int>)
    requires Visible(row, true)
    ensures DashboardOf(Ok(row), true, list, findings, parseDate).Shown?
    ensures Figures(Fetched(list), OrEmpty(findings), DashboardOf(Ok(row), true, list, findings, parseDate).data)
  {
    var b := Fetched(list);
    DataFigures(b, OrEmpty(findings), parseDate);
  }

  /** The data block built from the fetched lists has their figures. */
  lemma DataFigures(b: Lists, findings: seq<Json>, parseDate: string -> Option<int>)
    ensures Figures(b, findings, DataOf(b, Latest(b.invoices, parseDate), Latest(b.expenses, parseDate), findings))
  {
    RecentEntries(b.invoices, parseDate, InvoiceEntry);
    RecentEntries(b.expenses, parseDate, ExpenseEntry);
  }

  /** Each recent entry is the entry of a fetched record. */
  lemma RecentEntries(records: seq<Json>, parseDate: string -> Option<int>, entry: Json -> Json)
    ensures |Map(Latest(records, parseDate), entry)| <= RecentCount
    ensures forall e :: e in Map(Latest(records, parseDate), entry) ==> exists x :: x in records && e == entry(x)
  {
    TakeSortedDesc(records, ByDate(parseDate), RecentCount);
    MapDrawnFrom(Latest(records, parseDate), entry, records);
  }

  /** A failed ledger read or findings query shows the same dashboard as an empty one. */
  lemma FailedReadsAreEmpty(settings: Result<Option<SettingsRow>, Thrown>, connected: bool, list: Lister,
                            findings: Result<seq<Json>, Thrown>, parseDate: string -> Option<int>)
    ensures DashboardOf(settings, connected, list, findings, parseDate)
         == DashboardOf(settings, connected, c => Ok(OrEmpty(list(c))), Ok(OrEmpty(findings)), parseDate)
  {
  }

  // ------------------------------------------------------------------ JSON

  function MetricsJson(m: Metrics): Json {
    JObj(map["totalRevenue" := JNum(m.totalRevenue), "totalExpenses" := JNum(m.totalExpenses),
             "netProfit" := JNum(m.netProfit), "outstanding" := JNum(m.outstanding),
             "overdueAmount" := JNum(m.overdueAmount), "overdueCount" := JNum(m.overdueCount),
             "cashInBank" := JNum(m.cashInBank)])
  }

  function DataJson(d: Data): Json {
    JObj(map[
      "metrics" := MetricsJson(d.metrics), "recentInvoices" := JArr(d.recentInvoices),
      "recentExpenses" := JArr(d.recentExpenses), "bankAccounts" := JArr(d.bankAccounts),
      "auditFindings" := JArr(d.auditFindings),
      "counts" := JObj(map["invoices" := JNum(d.invoiceCount), "bills" := JNum(d.billCount),
                           "expenses" := JNum(d.expenseCount), "bankAccounts" := JNum(d.bankAccountCount)])])
  }

  /** The response the route sends for a view. */
  function ReplyOf(v: View): Reply {
    match v
    case Hidden => NotConnected
    case Failed(message) => Failure(message)
    case Shown(currency, data) =>
      OkReply(map["connected" := JBool(true), "currency" := currency, "data" := DataJson(data)])
  }
}
