/**
 * `GET /api/transactions`: invoices, bills, expenses or the transactions of
 * one bank account, mapped to a single row shape, newest first, the first
 * 100 shown, with a money-in / money-out summary over all of them, the
 * latest flagged transactions and the bank accounts for the account picker.
 */
module Transactions {
  import opened Wrappers
  import opened Json
  import opened Seqs
  import opened ToolExecutor
  import opened Books
  import opened Dates
  import opened Http
  import opened SettingsHelper

  // ------------------------------------------------------------ the query

  /** The first value of each query-string parameter. */
  type Query = map<string, string>

  /** `searchParams.get(name) || fallback` */
  function Param(query: Query, name: string, fallback: string): (v: string)
    ensures name in query && query[name] != "" ==> v == query[name]
    ensures !(name in query && query[name] != "") ==> v == fallback
  {
    if name in query && query[name] != "" then query[name] else fallback
  }

  /** `status ? { status } : {}` */
  function StatusParams(status: string): (params: map<string, string>)
    ensures status != "" <==> "status" in params
    ensures "status" in params ==> params["status"] == status
    ensures params.Keys <= {"status"}
  {
    if status != "" then map["status" := status] else map[]
  }

  function InvoiceCall(status: string): LedgerCall {
    ListCall("listInvoices", StatusParams(status))
  }

  function BillCall(status: string): LedgerCall {
    ListCall("listBills", StatusParams(status))
  }

  /** `listExpenses()`: no filter at all. */
  const ExpenseCall: LedgerCall := ListCall("listExpenses", map[])

  /** `listBankTransactions(accountId)`: the account's transactions, no filter. */
  function BankCall(accountId: string): LedgerCall {
    LedgerCall("listBankTransactions", [Id(accountId), Params(map[])])
  }

  const AccountsCall: LedgerCall := ListCall("listBankAccounts", map[])

  // ------------------------------------------------------------------ rows

  datatype Direction = Inflow | Outflow

  /** One row of the unified list. */
  datatype Txn = Txn(
    id: Json, kind: string, date: Json, description: Json, reference: Json, amount: Json, balance: Json,
    status: Json, contactName: Json, accountName: Json, direction: Direction)

  /** Lines 28-40: an invoice is money in. */
  function FromInvoice(inv: Json): (t: Txn)
    ensures t.kind == "invoice" && t.direction == Inflow && t.amount == Get(inv, "total")
  {
    Txn(Get(inv, "invoice_id"), "invoice", Get(inv, "date"),
        JStr("Invoice " + ToJsString(Get(inv, "invoice_number")) + " - " + ToJsString(Get(inv, "customer_name"))),
        Get(inv, "invoice_number"), Get(inv, "total"), Get(inv, "balance"), Get(inv, "status"),
        Get(inv, "customer_name"), JStr("Accounts Receivable"), Inflow)
  }

  /** Lines 47-59: a bill is money out. */
  function FromBill(bill: Json): (t: Txn)
    ensures t.kind == "bill" && t.direction == Outflow && t.amount == Get(bill, "total")
  {
    Txn(Get(bill, "bill_id"), "bill", Get(bill, "date"),
        JStr("Bill " + ToJsString(Get(bill, "bill_number")) + " - " + ToJsString(Get(bill, "vendor_name"))),
        Get(bill, "bill_number"), Get(bill, "total"), Get(bill, "balance"), Get(bill, "status"),
        Get(bill, "vendor_name"), JStr("Accounts Payable"), Outflow)
  }

  /** Lines 66-78: an expense is money out, with its text fields defaulted. */
  function FromExpense(exp: Json): (t: Txn)
    ensures t.kind == "expense" && t.direction == Outflow && t.amount == Get(exp, "total")
    ensures Truthy(t.reference) || !Truthy(Get(exp, "expense_id"))
    ensures t.balance == JNum(0) && Truthy(t.status) && Truthy(t.accountName)
  {
    var what := Or(Or(Get(exp, "description"), Get(exp, "account_name")), JStr("Expense"));
    Txn(Get(exp, "expense_id"), "expense", Get(exp, "date"),
        JStr(ToJsString(what) + " - " + ToJsString(Or(Get(exp, "vendor_name"), JStr("Unknown")))),
        Or(Get(exp, "reference_number"), Get(exp, "expense_id")), Get(exp, "total"), JNum(0),
        Or(Get(exp, "status"), JStr("recorded")), Or(Get(exp, "vendor_name"), JStr("")),
        Or(Get(exp, "account_name"), JStr("Uncategorized")), Outflow)
  }

  /** Lines 84-96: a bank transaction is money in exactly when it is a credit. */
  function FromBank(txn: Json): (t: Txn)
    ensures t.kind == "bank_transaction" && t.amount == Get(txn, "amount")
    ensures t.direction == Inflow <==> Get(txn, "debit_or_credit") == JStr("credit")
    ensures t.balance == JNum(0) && Truthy(t.description) && Truthy(t.status)
  {
    Txn(Get(txn, "transaction_id"), "bank_transaction", Get(txn, "date"),
        Or(Or(Get(txn, "description"), Get(txn, "payee")), JStr("Bank Transaction")),
        Or(Get(txn, "reference_number"), JStr("")), Get(txn, "amount"), JNum(0),
        Or(Get(txn, "status"), JStr("categorized")), Or(Get(txn, "payee"), JStr("")),
        Or(Get(txn, "account_name"), JStr("")),
        if Get(txn, "debit_or_credit") == JStr("credit") then Inflow else Outflow)
  }

  // --------------------------------------------------------- the selection

  predicate Wants(kind: string, name: string) {
    kind == "all" || kind == name
  }

  predicate IsBankKind(kind: string, accountId: string) {
    kind == "bank" && accountId != ""
  }

  /**
   * Lines 23-97: the rows of each list the type asks for, in the order
   * invoices, bills, expenses; for "bank" with an account, that account's
   * transactions instead. A failed read counts as no rows.
   */
  function Unified(kind: string, accountId: string, status: string, list: Lister): seq<Txn> {
    if IsBankKind(kind, accountId) then Map(OrEmpty(list(BankCall(accountId))), FromBank)
    else
      (if Wants(kind, "invoices") then Map(OrEmpty(list(InvoiceCall(status))), FromInvoice) else [])
      + (if Wants(kind, "bills") then Map(OrEmpty(list(BillCall(status))), FromBill) else [])
      + (if Wants(kind, "expenses") then Map(OrEmpty(list(ExpenseCall)), FromExpense) else [])
  }

  /** Lines 23-97 as written: the list built by pushes, then replaced for a bank account. */
  method Collect(kind: string, accountId: string, status: string, list: Lister) returns (transactions: seq<Txn>)
    ensures transactions == Unified(kind, accountId, status, list)
  {
    ghost var invoices := if Wants(kind, "invoices") then Map(OrEmpty(list(InvoiceCall(status))), FromInvoice) else [];
    ghost var bills := if Wants(kind, "bills") then Map(OrEmpty(list(BillCall(status))), FromBill) else [];
    ghost var expenses := if Wants(kind, "expenses") then Map(OrEmpty(list(ExpenseCall)), FromExpense) else [];
    transactions := [];
    if kind == "all" || kind == "invoices" {
      transactions := transactions + Map(OrEmpty(list(InvoiceCall(status))), FromInvoice);
      AppendEmpty(invoices);
    }
    assert transactions == invoices;
    if kind == "all" || kind == "bills" {
      transactions := transactions + Map(OrEmpty(list(BillCall(status))), FromBill);
    } else {
      AppendEmpty(transactions);
    }
    assert transactions == invoices + bills;
    if kind == "all" || kind == "expenses" {
      transactions := transactions + Map(OrEmpty(list(ExpenseCall)), FromExpense);
    } else {
      AppendEmpty(transactions);
    }
    assert transactions == invoices + bills + expenses;
    if kind == "bank" && accountId != "" {
      transactions := Map(OrEmpty(list(BankCall(accountId))), FromBank);
    }
  }

  /**
   * Which rows each type gives: "all" the invoices, bills and expenses in
   * that order; a single kind its one list; "bank" with an account only its
   * transactions; "bank" without one, or any other type, nothing.
   */
  lemma KindSelectsLists(kind: string, accountId: string, status: string, list: Lister)
    ensures var invoices := Map(OrEmpty(list(InvoiceCall(status))), FromInvoice);
      var bills := Map(OrEmpty(list(BillCall(status))), FromBill);
      var expenses := Map(OrEmpty(list(ExpenseCall)), FromExpense);
      var ts := Unified(kind, accountId, status, list);
      && (kind == "all" ==> ts == invoices + bills + expenses)
      && (kind == "invoices" ==> ts == invoices)
      && (kind == "bills" ==> ts == bills)
      && (kind == "expenses" ==> ts == expenses)
      && (IsBankKind(kind, accountId) ==> ts == Map(OrEmpty(list(BankCall(accountId))), FromBank))
      && (kind !in {"all", "invoices", "bills", "expenses"} && !IsBankKind(kind, accountId) ==> ts == [])
  {
    var invoices := Map(OrEmpty(list(InvoiceCall(status))), FromInvoice);
    var bills := Map(OrEmpty(list(BillCall(status))), FromBill);
    var expenses := Map(OrEmpty(list(ExpenseCall)), FromExpense);
    assert invoices + [] + [] == invoices;
    assert [] + bills + [] == bills;
    assert [] + [] + expenses == expenses;
    assert |"all"| == 3 && |"invoices"| == 8 && |"bills"| == 5 && |"expenses"| == 8 && |"bank"| == 4;
    assert "invoices"[0] == 'i' && "expenses"[0] == 'e';
  }

  /** Rows that no status filter reaches. */
  predicate IsUnfiltered(t: Txn) {
    t.kind == "expense" || t.kind == "bank_transaction"
  }

  /** No invoice or bill row is one the status filter does not reach. */
  lemma StatusRowsFiltered(invoices: seq<Json>, bills: seq<Json>)
    ensures Filter(Map(invoices, FromInvoice), IsUnfiltered) == []
    ensures Filter(Map(bills, FromBill), IsUnfiltered) == []
  {
    assert |"invoice"| == 7 && |"bill"| == 4 && |"expense"| == 7 && |"bank_transaction"| == 16;
    assert "invoice"[0] == 'i' && "expense"[0] == 'e';
    FilterNone(Map(invoices, FromInvoice), IsUnfiltered);
    FilterNone(Map(bills, FromBill), IsUnfiltered);
  }

  /** Outside the bank case, the rows no status filter reaches are the expense rows. */
  lemma UnfilteredAreExpenses(kind: string, accountId: string, status: string, list: Lister)
    requires !IsBankKind(kind, accountId)
    ensures Filter(Unified(kind, accountId, status, list), IsUnfiltered)
         == if Wants(kind, "expenses") then Map(OrEmpty(list(ExpenseCall)), FromExpense) else []
  {
    var invoices := if Wants(kind, "invoices") then Map(OrEmpty(list(InvoiceCall(status))), FromInvoice) else [];
    var bills := if Wants(kind, "bills") then Map(OrEmpty(list(BillCall(status))), FromBill) else [];
    var expenses := if Wants(kind, "expenses") then Map(OrEmpty(list(ExpenseCall)), FromExpense) else [];
    StatusRowsFiltered(OrEmpty(list(InvoiceCall(status))), OrEmpty(list(BillCall(status))));
    assert Filter(invoices, IsUnfiltered) == [] && Filter(bills, IsUnfiltered) == [];
    FilterAll(expenses, IsUnfiltered);
    FilterConcat(invoices, bills, IsUnfiltered);
    FilterConcat(invoices + bills, expenses, IsUnfiltered);
  }

  /**
   * The status parameter narrows invoices and bills only: the expense and
   * bank rows are the same whatever status is asked for.
   */
  lemma StatusNarrowsInvoicesAndBills(kind: string, accountId: string, s1: string, s2: string, list: Lister)
    ensures Filter(Unified(kind, accountId, s1, list), IsUnfiltered) == Filter(Unified(kind, accountId, s2, list), IsUnfiltered)
  {
    if !IsBankKind(kind, accountId) {
      UnfilteredAreExpenses(kind, accountId, s1, list);
      UnfilteredAreExpenses(kind, accountId, s2, list);
    }
  }

  /** The ledger calls made for the rows, with a status filter only on the invoice and bill calls. */
  lemma StatusOnlyOnInvoicesAndBills(status: string, accountId: string)
    ensures InvoiceCall(status).args == [Params(StatusParams(status))]
    ensures BillCall(status).args == [Params(StatusParams(status))]
    ensures ExpenseCall.args == [Params(map[])]
    ensures BankCall(accountId).args == [Id(accountId), Params(map[])]
  {
  }

  // ------------------------------------------------------------- ordering

  function ByDate(parseDate: string -> Option<int>): Txn -> real {
    (t: Txn) => TimeKey(t.date, parseDate)
  }

  const PageSize: nat := 100

  // -------------------------------------------------------------- summary

  predicate IsInflow(t: Txn) {
    t.direction == Inflow
  }

  predicate IsOutflow(t: Txn) {
    t.direction == Outflow
  }

  /** `(t.amount as number) || 0` */
  function AmountOf(t: Txn): int {
    Num(t.amount)
  }

  datatype Summary = Summary(totalInflow: int, totalOutflow: int, net: int, inflowCount: nat, outflowCount: nat)

  /**
   * Lines 116-133. Every row is money in or money out, so the two counts
   * make up all rows and the two totals all amounts.
   */
  function SummaryOf(ts: seq<Txn>): (s: Summary)
    ensures s.net == s.totalInflow - s.totalOutflow
    ensures s.inflowCount + s.outflowCount == |ts|
    ensures s.totalInflow + s.totalOutflow == Sum(ts, AmountOf)
    ensures s.inflowCount == Count(ts, IsInflow) && s.outflowCount == Count(ts, IsOutflow)
  {
    var inflows := Filter(ts, IsInflow);
    var outflows := Filter(ts, IsOutflow);
    SumPartition(ts, IsInflow, IsOutflow, AmountOf);
    CountIsFilterLength(ts, IsInflow);
    CountIsFilterLength(ts, IsOutflow);
    var totalInflow := Sum(inflows, AmountOf);
    var totalOutflow := Sum(outflows, AmountOf);
    Summary(totalInflow, totalOutflow, totalInflow - totalOutflow, |inflows|, |outflows|)
  }

  /** The summary does not depend on the order of the rows, so sorting leaves it as it was. */
  lemma SummaryIgnoresOrder(ts: seq<Txn>, key: Txn -> real)
    ensures SummaryOf(SortDesc(ts, key)) == SummaryOf(ts)
  {
    SumFilterSortDesc(ts, key, IsInflow, AmountOf);
    SumFilterSortDesc(ts, key, IsOutflow, AmountOf);
    CountSortDesc(ts, key, IsInflow);
    CountSortDesc(ts, key, IsOutflow);
  }

  // ----------------------------------------------------------------- reply

  /** Lines 134-140: a flagged transaction row, `resolved` when its status is "resolved". */
  function FlagEntry(f: Json): Json {
    JObj(map["id" := Get(f, "id"), "transactionId" := Get(f, "zohoTransId"), "reason" := Get(f, "flagReason"),
             "severity" := Get(f, "severity"), "resolved" := JBool(Get(f, "status") == JStr("resolved"))])
  }

  /** The `data` block: the first rows, the full count, the summary, the flags and the accounts. */
  datatype Page = Page(
    currency: Json, transactions: seq<Txn>, totalCount: nat, summary: Summary, flagged: seq<Json>,
    bankAccounts: seq<Json>)

  datatype View = Hidden | Failed(message: string) | Shown(page: Page)

  /** The page for rows already sorted. */
  function PageOf(currency: Json, sorted: seq<Txn>, flagged: seq<Json>, list: Lister): Page {
    Page(currency, Take(sorted, PageSize), |sorted|, SummaryOf(sorted), Map(flagged, FlagEntry),
         Map(OrEmpty(list(AccountsCall)), AccountEntry))
  }

  /**
   * The route: a disconnected ledger shows nothing; then a failed settings
   * read or flagged-transactions query falls into the 500 handler, while a
   * failed ledger list counts as empty. `flagged` is that query (the 20
   * newest flags); `parseDate` is the date parser.
   */
  function TransactionsOf(connected: bool, query: Query, settings: Result<Option<SettingsRow>, Thrown>,
                          list: Lister, flagged: Result<seq<Json>, Thrown>, parseDate: string -> Option<int>)
    : (v: View)
    ensures !connected <==> v.Hidden?
    ensures v.Failed? <==> connected && (settings.Err? || flagged.Err?)
    ensures v.Failed? && settings.Err? ==> v.message == settings.error.MessageOr("Failed to fetch")
    ensures v.Failed? && settings.Ok? ==> v.message == flagged.error.MessageOr("Failed to fetch")
    ensures v.Shown? ==> v.page.currency == Or(Column(settings.value, "currency"), JStr("CAD"))
  {
    if !connected then Hidden
    else match settings
      case Err(e) => Failed(e.MessageOr("Failed to fetch"))
      case Ok(row) =>
        var ts := Unified(Param(query, "type", "all"), Param(query, "accountId", ""), Param(query, "status", ""), list);
        match flagged
        case Err(e) => Failed(e.MessageOr("Failed to fetch"))
        case Ok(flags) =>
          Shown(PageOf(Or(Column(row, "currency"), JStr("CAD")), SortDesc(ts, ByDate(parseDate)), flags, list))
  }

  /** The route as written: the rows collected, then sorted in place. */
  method TransactionsGet(connected: bool, query: Query, settings: Result<Option<SettingsRow>, Thrown>,
                         list: Lister, flagged: Result<seq<Json>, Thrown>, parseDate: string -> Option<int>)
    returns (v: View)
    ensures v == TransactionsOf(connected, query, settings, list, flagged, parseDate)
  {
    if !connected {
      return Hidden;
    }
    var accountId := Param(query, "accountId", "");
    var kind := Param(query, "type", "all");
    var status := Param(query, "status", "");
    if settings.Err? {
      return Failed(settings.error.MessageOr("Failed to fetch"));
    }
    var transactions := Collect(kind, accountId, status, list);
    transactions := SortedCopy(transactions, ByDate(parseDate));
    if flagged.Err? {
      return Failed(flagged.error.MessageOr("Failed to fetch"));
    }
    v := Shown(PageOf(Or(Column(settings.value, "currency"), JStr("CAD")), transactions, flagged.value, list));
  }

  /** The page for any rows: the first 100 of the sort, the full count and the order-free summary. */
  lemma PageOfSorted(currency: Json, ts: seq<Txn>, flags: seq<Json>, list: Lister, parseDate: string -> Option<int>)
    ensures var p := PageOf(currency, SortDesc(ts, ByDate(parseDate)), flags, list);
      && IsTop(p.transactions, ts, ByDate(parseDate), PageSize)
      && p.totalCount == |ts|
      && p.summary == SummaryOf(ts)
  {
    TopOfSorted(ts, ByDate(parseDate), PageSize);
    SummaryIgnoresOrder(ts, ByDate(parseDate));
  }

  /**
   * A shown page: at most 100 rows, newest first, drawn from the selected
   * rows, none left out newer than one shown; the count and the summary
   * cover all selected rows, in any order.
   */
  lemma PageCoversAll(query: Query, row: Option<SettingsRow>, list: Lister, flags: seq<Json>,
                      parseDate: string -> Option<int>)
    ensures var v := TransactionsOf(true, query, Ok(row), list, Ok(flags), parseDate);
      var ts := Unified(Param(query, "type", "all"), Param(query, "accountId", ""), Param(query, "status", ""), list);
      && v.Shown?
      && IsTop(v.page.transactions, ts, ByDate(parseDate), PageSize)
      && v.page.totalCount == |ts|
      && v.page.summary == SummaryOf(ts)
      && v.page.flagged == Map(flags, FlagEntry)
  {
    var ts := Unified(Param(query, "type", "all"), Param(query, "accountId", ""), Param(query, "status", ""), list);
    var currency := Or(Column(row, "currency"), JStr("CAD"));
    assert TransactionsOf(true, query, Ok(row), list, Ok(flags), parseDate)
        == Shown(PageOf(currency, SortDesc(ts, ByDate(parseDate)), flags, list));
    PageOfSorted(currency, ts, flags, list, parseDate);
  }

  // ------------------------------------------------------------------ JSON

  function TxnJson(t: Txn): Json {
    JObj(map["id" := t.id, "type" := JStr(t.kind), "date" := t.date, "description" := t.description,
             "reference" := t.reference, "amount" := t.amount, "balance" := t.balance, "status" := t.status,
             "contactName" := t.contactName, "accountName" := t.accountName,
             "direction" := JStr(if t.direction == Inflow then "inflow" else "outflow")])
  }

  function SummaryJson(s: Summary): Json {
    JObj(map["totalInflow" := JNum(s.totalInflow), "totalOutflow" := JNum(s.totalOutflow), "net" := JNum(s.net),
             "inflowCount" := JNum(s.inflowCount), "outflowCount" := JNum(s.outflowCount)])
  }

  /** The response the route sends for a view. */
  function ReplyOf(v: View): Reply {
    match v
    case Hidden => NotConnected
    case Failed(message) => Http.Failure(message)
    case Shown(p) =>
      OkReply(map["connected" := JBool(true), "currency" := p.currency,
                  "data" := JObj(map["transactions" := JArr(Map(p.transactions, TxnJson)),
                                     "totalCount" := JNum(p.totalCount), "summary" := SummaryJson(p.summary),
                                     "flagged" := JArr(p.flagged), "bankAccounts" := JArr(p.bankAccounts)])])
  }
}
