/**
 * Report generation (`POST /api/reports/generate`): which ledger lists a
 * report type reads, the date-range filter, the figures computed from the
 * lists (invoice partition, aging buckets, per-customer, per-category and
 * per-vendor totals, payments and cash), the summary text handed to the
 * model, the prompt, and the saved report.
 */
module Reports {
  import opened Wrappers
  import opened Strings
  import opened Json
  import opened Seqs
  import opened Grouping
  import opened Books
  import opened Llm
  import opened ToolExecutor
  import opened Dates
  import opened Http
  import opened SettingsHelper
  import opened Prompts

  // ------------------------------------------------------------ fetch plan

  /** The ledger lists a report can read. */
  datatype Dataset = Invoices | Bills | Expenses | Contacts | BankAccounts | CustomerPayments | VendorPayments

  /** `zoho.listX({}, true)`: all pages of a list; the flag only marks the call in the audit log. */
  function FetchCall(d: Dataset): LedgerCall {
    var fn := match d
      case Invoices => "listInvoices"
      case Bills => "listBills"
      case Expenses => "listExpenses"
      case Contacts => "listContacts"
      case BankAccounts => "listBankAccounts"
      case CustomerPayments => "listCustomerPayments"
      case VendorPayments => "listVendorPayments";
    ListCall(fn, map[])
  }

  predicate IsType(reportType: Json, name: string) {
    reportType == JStr(name)
  }

  /**
   * The lists fetched for a report type (lines 32-53). A list already
   * requested is not requested again, so each is read at most once.
   */
  function Fetches(reportType: Json): (fetched: set<Dataset>)
    ensures Invoices in fetched <==>
      IsType(reportType, "pnl") || IsType(reportType, "cashflow") || IsType(reportType, "custom")
      || IsType(reportType, "aging")
    ensures Bills in fetched <==>
      IsType(reportType, "pnl") || IsType(reportType, "cashflow") || IsType(reportType, "custom")
      || IsType(reportType, "expense") || IsType(reportType, "vendor")
    ensures Expenses in fetched <==> Bills in fetched
    ensures Contacts in fetched <==> IsType(reportType, "vendor")
    ensures BankAccounts in fetched <==> IsType(reportType, "cashflow")
    ensures CustomerPayments in fetched <==> IsType(reportType, "cashflow")
    ensures VendorPayments in fetched <==> IsType(reportType, "cashflow")
  {
    var allThree := IsType(reportType, "pnl") || IsType(reportType, "cashflow") || IsType(reportType, "custom");
    var spending := IsType(reportType, "expense") || IsType(reportType, "custom");
    (if allThree then {Invoices, Bills, Expenses} else {})
    + (if spending then {Expenses, Bills} else {})
    + (if IsType(reportType, "aging") then {Invoices} else {})
    + (if IsType(reportType, "vendor") then {Bills, Expenses, Contacts} else {})
    + (if IsType(reportType, "cashflow") then {BankAccounts, CustomerPayments, VendorPayments} else {})
  }

  /** The records of one list; a failed read counts as none. */
  function Records(list: Lister, d: Dataset): seq<Json> {
    OrEmpty(list(FetchCall(d)))
  }

  // ---------------------------------------------------------- date filter

  /** `!d || (!start || d >= start) && (!end || d <= end)` with string comparison. */
  function InRange(start: Json, end: Json): Json -> bool {
    item =>
      var d := Get(item, "date");
      !Truthy(d) ||
      ((!Truthy(start) || !LexLess(ToJsString(d), ToJsString(start)))
       && (!Truthy(end) || !LexLess(ToJsString(end), ToJsString(d))))
  }

  /** `filterByDate(items)`: every item when neither bound is set, else the items in range. */
  function FilterByDate(items: seq<Json>, dateRange: Json): (r: seq<Json>)
    ensures !Truthy(Get(dateRange, "start")) && !Truthy(Get(dateRange, "end")) ==> r == items
    ensures r == Filter(items, InRange(Get(dateRange, "start"), Get(dateRange, "end")))
  {
    var start, end := Get(dateRange, "start"), Get(dateRange, "end");
    if !Truthy(start) && !Truthy(end) then
      FilterAll(items, InRange(start, end));
      items
    else Filter(items, InRange(start, end))
  }

  /** The filter keeps the input's order and every undated item. */
  lemma FilterByDateKeeps(items: seq<Json>, dateRange: Json)
    ensures IsSubsequence(FilterByDate(items, dateRange), items)
    ensures forall i :: 0 <= i < |items| && !Truthy(Get(items[i], "date")) ==>
      items[i] in FilterByDate(items, dateRange)
  {
    FilterIsSubsequence(items, InRange(Get(dateRange, "start"), Get(dateRange, "end")));
  }

  /**
   * A dated item is kept only when its date is not before the start and not
   * after the end, each bound applying only when set.
   */
  lemma FilterByDateInRange(items: seq<Json>, dateRange: Json, x: Json)
    requires x in FilterByDate(items, dateRange) && Truthy(Get(x, "date"))
    ensures var d, start, end := ToJsString(Get(x, "date")), Get(dateRange, "start"), Get(dateRange, "end");
      (!Truthy(start) || !LexLess(d, ToJsString(start))) && (!Truthy(end) || !LexLess(ToJsString(end), d))
  {
    var r := FilterByDate(items, dateRange);
    var i :| 0 <= i < |r| && r[i] == x;
    assert InRange(Get(dateRange, "start"), Get(dateRange, "end"))(x);
  }

  // ------------------------------------------------------------- invoices

  /** `(record.amount as number) || 0` */
  function AmountOf(record: Json): int {
    Num(Get(record, "amount"))
  }

  predicate IsPaid(inv: Json) {
    IsStatus(inv, "paid")
  }

  /** Not paid, not void and not a draft. */
  predicate IsUnpaid(inv: Json) {
    !IsStatus(inv, "paid") && !IsStatus(inv, "void") && !IsStatus(inv, "draft")
  }

  predicate IsOverdue(inv: Json) {
    IsStatus(inv, "overdue")
  }

  lemma OverdueIsUnpaid(inv: Json)
    ensures IsOverdue(inv) ==> IsUnpaid(inv)
    ensures !(IsPaid(inv) && IsUnpaid(inv))
  {
    if IsOverdue(inv) {
      var status := Get(inv, "status");
      assert status.s == "overdue";
      assert |"paid"| == 4 && |"void"| == 4 && |"draft"| == 5 && |"overdue"| == 7;
    }
  }

  /** Overdue invoices are unpaid ones, and no invoice is both paid and unpaid (lines 84-86). */
  lemma InvoicePartition(invoices: seq<Json>)
    ensures forall x :: x in Filter(invoices, IsOverdue) ==> x in Filter(invoices, IsUnpaid)
    ensures forall x :: !(IsPaid(x) && IsUnpaid(x))
    ensures Count(invoices, IsOverdue) <= Count(invoices, IsUnpaid)
    ensures Count(invoices, IsPaid) + Count(invoices, IsUnpaid) <= |invoices|
  {
    var overdue := Filter(invoices, IsOverdue);
    forall x | x in overdue
      ensures x in Filter(invoices, IsUnpaid)
    {
      var i :| 0 <= i < |overdue| && overdue[i] == x;
      assert IsOverdue(x);
      OverdueIsUnpaid(x);
      assert x in multiset(overdue);
      assert x in multiset(invoices);
      var j :| 0 <= j < |invoices| && invoices[j] == x;
    }
    forall x ensures IsOverdue(x) ==> IsUnpaid(x) {
      OverdueIsUnpaid(x);
    }
    forall x ensures !(IsPaid(x) && IsUnpaid(x)) {
      OverdueIsUnpaid(x);
    }
    CountMonotone(invoices, IsOverdue, IsUnpaid);
    CountPaidUnpaid(invoices);
  }

  lemma {:induction false} CountPaidUnpaid(s: seq<Json>)
    ensures Count(s, IsPaid) + Count(s, IsUnpaid) <= |s|
    decreases |s|
  {
    if |s| > 0 {
      CountPaidUnpaid(s[1..]);
    }
  }

  /** `(inv.customer_name as string) || "Unknown"` */
  function CustomerName(inv: Json): string {
    StrOr(Get(inv, "customer_name"), "Unknown")
  }

  /** Per-customer revenue, largest first, at most ten (lines 95-100). */
  function TopCustomers(invoices: seq<Json>): seq<(string, int)> {
    Take(SortDesc(Totals(invoices, CustomerName, TotalOf), EntryKey), 10)
  }

  /**
   * At most ten customers, largest revenue first, each with the sum of its
   * invoices' totals; nobody left out outranks anybody kept, and with ten
   * customers or fewer their totals add up to the revenue.
   */
  lemma TopCustomersAreTop(invoices: seq<Json>)
    ensures var top := TopCustomers(invoices);
      && |top| <= 10 && SortedDesc(top, EntryKey)
      && (forall e :: e in top ==> e.1 == Sum(Group(invoices, CustomerName, e.0), TotalOf))
      && (forall e :: e in multiset(Totals(invoices, CustomerName, TotalOf)) - multiset(top) ==>
            forall i :: 0 <= i < |top| ==> e.1 <= top[i].1)
      && (|Keys(invoices, CustomerName)| <= 10 ==> Sum(top, EntryTotal) == Sum(invoices, TotalOf))
  {
    TopTotals(invoices, CustomerName, TotalOf, 10);
  }

  // ---------------------------------------------------------------- aging

  /** The aging bucket of a number of days past due: 0 current, 1-30, 31-60, 61-90, then over 90. */
  function BucketOf(days: Option<int>): (b: nat)
    ensures b < 5
    ensures days.Some? && days.value <= 0 ==> b == 0
    ensures days.Some? && 0 < days.value <= 30 ==> b == 1
    ensures days.Some? && 30 < days.value <= 60 ==> b == 2
    ensures days.Some? && 60 < days.value <= 90 ==> b == 3
    ensures days.None? || days.value > 90 <==> b == 4
  {
    match days
    case None => 4
    case Some(d) =>
      if d <= 0 then 0 else if d <= 30 then 1 else if d <= 60 then 2 else if d <= 90 then 3 else 4
  }

  /** The bucket an unpaid invoice falls in; an invalid due date (NaN) fails every comparison. */
  function BucketOfInvoice(inv: Json, now: int, parseDate: string -> Option<int>): nat {
    BucketOf(DaysPastDue(inv, now, parseDate))
  }

  function InBucket(now: int, parseDate: string -> Option<int>, b: nat): Json -> bool {
    inv => BucketOfInvoice(inv, now, parseDate) == b
  }

  function BalanceInBucket(now: int, parseDate: string -> Option<int>, b: nat): Json -> int {
    inv => if BucketOfInvoice(inv, now, parseDate) == b then BalanceOf(inv) else 0
  }

  /** The five buckets' balances and invoice counts. */
  datatype Aging = Aging(balances: seq<int>, counts: seq<nat>)

  /**
   * The aging analysis of the unpaid invoices (lines 109-124): five zero
   * buckets, then each invoice in turn adds its balance and one count to
   * its own bucket.
   */
  function AgingOf(unpaid: seq<Json>, now: int, parseDate: string -> Option<int>): (a: Aging)
    ensures |a.balances| == 5 && |a.counts| == 5
    decreases |unpaid|
  {
    if |unpaid| == 0 then Aging([0, 0, 0, 0, 0], [0, 0, 0, 0, 0])
    else
      var a := AgingOf(unpaid[..|unpaid| - 1], now, parseDate);
      var inv := unpaid[|unpaid| - 1];
      var b := BucketOfInvoice(inv, now, parseDate);
      Aging(a.balances[b := a.balances[b] + BalanceOf(inv)], a.counts[b := a.counts[b] + 1])
  }

  /** Each bucket holds the balance and the number of exactly the unpaid invoices that fall in it. */
  lemma {:induction false} AgingIsBuckets(unpaid: seq<Json>, now: int, parseDate: string -> Option<int>, b: nat)
    requires b < 5
    ensures AgingOf(unpaid, now, parseDate).balances[b] == Sum(unpaid, BalanceInBucket(now, parseDate, b))
    ensures AgingOf(unpaid, now, parseDate).counts[b] == Count(unpaid, InBucket(now, parseDate, b))
    decreases |unpaid|
  {
    if |unpaid| > 0 {
      var n := |unpaid| - 1;
      AgingIsBuckets(unpaid[..n], now, parseDate, b);
      AgingStep(unpaid, n, now, parseDate, b);
      assert unpaid[..n + 1] == unpaid;
    }
  }

  /** The buckets partition the unpaid invoices: counts add up to their number, balances to their balance. */
  lemma AgingPartition(unpaid: seq<Json>, now: int, parseDate: string -> Option<int>)
    ensures var a := AgingOf(unpaid, now, parseDate);
      && a.counts[0] + a.counts[1] + a.counts[2] + a.counts[3] + a.counts[4] == |unpaid|
      && a.balances[0] + a.balances[1] + a.balances[2] + a.balances[3] + a.balances[4] == Sum(unpaid, BalanceOf)
  {
    BucketsPartition(unpaid, now, parseDate);
    AgingIsBuckets(unpaid, now, parseDate, 0);
    AgingIsBuckets(unpaid, now, parseDate, 1);
    AgingIsBuckets(unpaid, now, parseDate, 2);
    AgingIsBuckets(unpaid, now, parseDate, 3);
    AgingIsBuckets(unpaid, now, parseDate, 4);
  }

  lemma {:induction false} BucketsPartition(s: seq<Json>, now: int, parseDate: string -> Option<int>)
    ensures Count(s, InBucket(now, parseDate, 0)) + Count(s, InBucket(now, parseDate, 1))
          + Count(s, InBucket(now, parseDate, 2)) + Count(s, InBucket(now, parseDate, 3))
          + Count(s, InBucket(now, parseDate, 4)) == |s|
    ensures Sum(s, BalanceInBucket(now, parseDate, 0)) + Sum(s, BalanceInBucket(now, parseDate, 1))
          + Sum(s, BalanceInBucket(now, parseDate, 2)) + Sum(s, BalanceInBucket(now, parseDate, 3))
          + Sum(s, BalanceInBucket(now, parseDate, 4)) == Sum(s, BalanceOf)
    decreases |s|
  {
    if |s| > 0 {
      BucketsPartition(s[1..], now, parseDate);
      var b := BucketOfInvoice(s[0], now, parseDate);
      assert b < 5;
    }
  }

  /** One invoice more adds to its own bucket only. */
  lemma AgingStep(s: seq<Json>, i: nat, now: int, parseDate: string -> Option<int>, b: nat)
    requires i < |s|
    ensures Count(s[..i + 1], InBucket(now, parseDate, b))
         == Count(s[..i], InBucket(now, parseDate, b)) + (if BucketOfInvoice(s[i], now, parseDate) == b then 1 else 0)
    ensures Sum(s[..i + 1], BalanceInBucket(now, parseDate, b))
         == Sum(s[..i], BalanceInBucket(now, parseDate, b))
            + (if BucketOfInvoice(s[i], now, parseDate) == b then BalanceOf(s[i]) else 0)
  {
    assert s[..i + 1] == s[..i] + [s[i]];
    CountConcat(s[..i], [s[i]], InBucket(now, parseDate, b));
    SumConcat(s[..i], [s[i]], BalanceInBucket(now, parseDate, b));
  }

  /** The aging loop: each unpaid invoice adds its balance and one count to its bucket. */
  method AgingBuckets(unpaid: seq<Json>, now: int, parseDate: string -> Option<int>) returns (aging: Aging)
    ensures aging == AgingOf(unpaid, now, parseDate)
  {
    var balances: seq<int> := [0, 0, 0, 0, 0];
    var counts: seq<nat> := [0, 0, 0, 0, 0];
    var i := 0;
    while i < |unpaid|
      invariant i <= |unpaid|
      invariant Aging(balances, counts) == AgingOf(unpaid[..i], now, parseDate)
    {
      var inv := unpaid[i];
      var b := BucketOfInvoice(inv, now, parseDate);
      assert unpaid[..i + 1][..i] == unpaid[..i];
      balances := balances[b := balances[b] + BalanceOf(inv)];
      counts := counts[b := counts[b] + 1];
      i := i + 1;
    }
    assert unpaid[..i] == unpaid;
    aging := Aging(balances, counts);
  }

  // ------------------------------------------------------ invoice section

  /** The invoice figures of a report. */
  datatype InvoiceSection = InvoiceSection(
    count: nat, revenue: int, paidCount: nat, paidTotal: int, unpaidCount: nat, outstanding: int,
    overdueCount: nat, overdueBalance: int, topCustomers: seq<(string, int)>, aging: Option<Aging>)

  /** Lines 82-124, on the date-filtered invoices; the aging analysis only for an aging report. */
  function InvoiceSectionOf(invoices: seq<Json>, withAging: bool, now: int, parseDate: string -> Option<int>)
    : (sec: InvoiceSection)
    ensures sec.count == |invoices| && sec.revenue == Sum(invoices, TotalOf)
    ensures sec.paidCount == Count(invoices, IsPaid) && sec.paidTotal == Sum(Filter(invoices, IsPaid), TotalOf)
    ensures sec.unpaidCount == Count(invoices, IsUnpaid)
    ensures sec.outstanding == Sum(Filter(invoices, IsUnpaid), BalanceOf)
    ensures sec.overdueCount == Count(invoices, IsOverdue)
    ensures sec.overdueBalance == Sum(Filter(invoices, IsOverdue), BalanceOf)
    ensures sec.overdueCount <= sec.unpaidCount && sec.paidCount + sec.unpaidCount <= sec.count
    ensures sec.topCustomers == TopCustomers(invoices)
    ensures sec.aging.Some? <==> withAging
    ensures withAging ==> sec.aging == Some(AgingOf(Filter(invoices, IsUnpaid), now, parseDate))
  {
    InvoicePartition(invoices);
    var paid, unpaid, overdue := Filter(invoices, IsPaid), Filter(invoices, IsUnpaid), Filter(invoices, IsOverdue);
    InvoiceSection(|invoices|, Sum(invoices, TotalOf), Count(invoices, IsPaid), Sum(paid, TotalOf),
                   Count(invoices, IsUnpaid), Sum(unpaid, BalanceOf), Count(invoices, IsOverdue),
                   Sum(overdue, BalanceOf), TopCustomers(invoices),
                   if withAging then Some(AgingOf(unpaid, now, parseDate)) else None)
  }

  // ------------------------------------------------------------- expenses

  /** `(exp.account_name as string) || "Uncategorized"` */
  function CategoryName(exp: Json): string {
    StrOr(Get(exp, "account_name"), "Uncategorized")
  }

  datatype ExpenseSection = ExpenseSection(count: nat, total: int, categories: seq<(string, int)>)

  /** Lines 137-149: the expense total and every category's total, largest first. */
  function ExpenseSectionOf(expenses: seq<Json>): (sec: ExpenseSection)
    ensures sec.count == |expenses| && sec.total == Sum(expenses, TotalOf)
    ensures sec.categories == SortDesc(Totals(expenses, CategoryName, TotalOf), EntryKey)
  {
    ExpenseSection(|expenses|, Sum(expenses, TotalOf), SortDesc(Totals(expenses, CategoryName, TotalOf), EntryKey))
  }

  /** The category totals are sorted and add up to the total expenses; every category is listed. */
  lemma CategoriesSumToTotal(expenses: seq<Json>)
    ensures var sec := ExpenseSectionOf(expenses);
      && SortedDesc(sec.categories, EntryKey)
      && Sum(sec.categories, EntryTotal) == sec.total
      && |sec.categories| == |Keys(expenses, CategoryName)|
      && (forall i :: 0 <= i < |expenses| ==>
            exists j :: 0 <= j < |sec.categories| && sec.categories[j].0 == CategoryName(expenses[i]))
  {
    var totals := Totals(expenses, CategoryName, TotalOf);
    var sorted := SortDesc(totals, EntryKey);
    SortDescSorted(totals, EntryKey);
    SumSortDesc(totals, EntryKey, EntryTotal);
    TotalsSumToTotal(expenses, CategoryName, TotalOf);
    KeysExactly(expenses, CategoryName);
    forall i | 0 <= i < |expenses|
      ensures exists j :: 0 <= j < |sorted| && sorted[j].0 == CategoryName(expenses[i])
    {
      var k := CategoryName(expenses[i]);
      var ks := Keys(expenses, CategoryName);
      assert k in ks;
      var m :| 0 <= m < |ks| && ks[m] == k;
      assert totals[m].0 == k;
      assert totals[m] in multiset(sorted);
      var j :| 0 <= j < |sorted| && sorted[j] == totals[m];
    }
  }

  // ---------------------------------------------------------------- bills

  /** `(bill.vendor_name as string) || "Unknown"` */
  function VendorName(bill: Json): string {
    StrOr(Get(bill, "vendor_name"), "Unknown")
  }

  /** A vendor's figures, `{ total, count, paid }`: total billed, bills, paid bills. */
  function StatsOf(bills: seq<Json>): (v: Tally)
    ensures v.count == |bills| && v.marked <= v.count
  {
    TallyOf(bills, TotalOf, IsPaid)
  }

  /** `Array.from(vendorTotals.entries())`: each vendor in order of first bill, with its figures. */
  function VendorTable(bills: seq<Json>): (r: seq<(string, Tally)>)
    ensures |r| == |Keys(bills, VendorName)|
    ensures forall i :: 0 <= i < |r| ==>
      r[i] == (Keys(bills, VendorName)[i], StatsOf(Group(bills, VendorName, Keys(bills, VendorName)[i])))
  {
    var ks := Keys(bills, VendorName);
    seq(|ks|, j requires 0 <= j < |ks| => (ks[j], StatsOf(Group(bills, VendorName, ks[j]))))
  }

  /** The vendor loop (lines 168-176) and `Array.from(vendorTotals.entries())` after it. */
  method VendorTotals(bills: seq<Json>) returns (entries: seq<(string, Tally)>)
    ensures entries == VendorTable(bills)
  {
    var keys, stats := TallyByKey(bills, VendorName, TotalOf, IsPaid);
    entries := seq(|keys|, j requires 0 <= j < |keys| => (keys[j], stats[keys[j]]));
  }

  function VendorKey(e: (string, Tally)): real {
    e.1.total as real
  }

  /** The top fifteen vendors by total billed (line 177). */
  function TopVendors(bills: seq<Json>): seq<(string, Tally)> {
    Take(SortDesc(VendorTable(bills), VendorKey), 15)
  }

  /** Each vendor of the table has at least one bill, and its figures are those of its bills. */
  lemma VendorTableEntries(bills: seq<Json>)
    ensures forall e :: e in VendorTable(bills) ==>
      e.1 == StatsOf(Group(bills, VendorName, e.0)) && 1 <= e.1.count && e.1.marked <= e.1.count
  {
    var table, ks := VendorTable(bills), Keys(bills, VendorName);
    forall e | e in table
      ensures e.1 == StatsOf(Group(bills, VendorName, e.0)) && 1 <= e.1.count
    {
      var m :| 0 <= m < |table| && table[m] == e;
      assert ks[m] in ks;
      GroupMembers(bills, VendorName, ks[m]);
    }
  }

  /**
   * At most fifteen vendors (all of them when there are fifteen or fewer),
   * largest total first, drawn from the table; no vendor left out has
   * billed more than one kept.
   */
  lemma TopVendorsAreTop(bills: seq<Json>)
    ensures IsTop(TopVendors(bills), VendorTable(bills), VendorKey, 15)
  {
    TopOfSorted(VendorTable(bills), VendorKey, 15);
  }

  /** Each vendor kept carries its own bills' figures, a count of at least one and no more paid bills than bills. */
  lemma TopVendorFigures(bills: seq<Json>)
    ensures forall e :: e in TopVendors(bills) ==>
      && e.1 == StatsOf(Group(bills, VendorName, e.0))
      && 1 <= e.1.count && e.1.marked <= e.1.count
  {
    TakeSortedDesc(VendorTable(bills), VendorKey, 15);
    VendorTableEntries(bills);
  }

  datatype BillSection = BillSection(count: nat, total: int, vendors: Option<seq<(string, Tally)>>)

  function BillSectionOf(bills: seq<Json>, withVendors: bool): (sec: BillSection)
    ensures sec.count == |bills| && sec.total == Sum(bills, TotalOf)
    ensures sec.vendors.Some? <==> withVendors
    ensures withVendors ==> sec.vendors == Some(TopVendors(bills))
  {
    BillSection(|bills|, Sum(bills, TotalOf), if withVendors then Some(TopVendors(bills)) else None)
  }

  // --------------------------------------------------- payments and cash

  datatype PaymentSection = PaymentSection(count: nat, total: int)

  function PaymentSectionOf(payments: seq<Json>): (sec: PaymentSection)
    ensures sec.count == |payments| && sec.total == Sum(payments, AmountOf)
  {
    PaymentSection(|payments|, Sum(payments, AmountOf))
  }

  datatype BankSection = BankSection(total: int, accounts: seq<(Json, int)>)

  /** Lines 205-211: the accounts are not date-filtered; each shows its name and balance. */
  function BankSectionOf(accounts: seq<Json>): (sec: BankSection)
    ensures sec.total == Sum(accounts, BalanceOf) && |sec.accounts| == |accounts|
    ensures forall i :: 0 <= i < |accounts| ==>
      sec.accounts[i] == (Get(accounts[i], "account_name"), BalanceOf(accounts[i]))
  {
    BankSection(Sum(accounts, BalanceOf),
                seq(|accounts|, i requires 0 <= i < |accounts| =>
                  (Get(accounts[i], "account_name"), BalanceOf(accounts[i]))))
  }

  // -------------------------------------------------------------- summary

  /** Everything the live-data text reports, one optional section per list. */
  datatype FinancialSummary = FinancialSummary(
    currency: string, start: Json, end: Json, invoices: Option<InvoiceSection>, expenses: Option<ExpenseSection>,
    bills: Option<BillSection>, customerPayments: Option<PaymentSection>, vendorPayments: Option<PaymentSection>,
    bank: Option<BankSection>)

  /**
   * Lines 27-213 without the text: a section for each list fetched, the
   * dated lists filtered by the range, the bank accounts not.
   */
  function Summarize(reportType: Json, dateRange: Json, currency: string, list: Lister, now: int,
                     parseDate: string -> Option<int>): (s: FinancialSummary)
    ensures s.currency == currency
    ensures s.invoices.Some? <==> Invoices in Fetches(reportType)
    ensures s.expenses.Some? <==> Expenses in Fetches(reportType)
    ensures s.bills.Some? <==> Bills in Fetches(reportType)
    ensures s.customerPayments.Some? <==> CustomerPayments in Fetches(reportType)
    ensures s.vendorPayments.Some? <==> VendorPayments in Fetches(reportType)
    ensures s.bank.Some? <==> BankAccounts in Fetches(reportType)
    ensures s.invoices.Some? ==>
      s.invoices.value == InvoiceSectionOf(FilterByDate(Records(list, Invoices), dateRange),
                                           IsType(reportType, "aging"), now, parseDate)
    ensures s.expenses.Some? ==> s.expenses.value == ExpenseSectionOf(FilterByDate(Records(list, Expenses), dateRange))
    ensures s.bills.Some? ==>
      s.bills.value == BillSectionOf(FilterByDate(Records(list, Bills), dateRange), IsType(reportType, "vendor"))
    ensures s.bank.Some? ==> s.bank.value == BankSectionOf(Records(list, BankAccounts))
  {
    var fetched := Fetches(reportType);
    FinancialSummary(
      currency, Get(dateRange, "start"), Get(dateRange, "end"),
      if Invoices in fetched then
        Some(InvoiceSectionOf(FilterByDate(Records(list, Invoices), dateRange), IsType(reportType, "aging"),
                              now, parseDate))
      else None,
      if Expenses in fetched then Some(ExpenseSectionOf(FilterByDate(Records(list, Expenses), dateRange))) else None,
      if Bills in fetched then
        Some(BillSectionOf(FilterByDate(Records(list, Bills), dateRange), IsType(reportType, "vendor")))
      else None,
      if CustomerPayments in fetched then
        Some(PaymentSectionOf(FilterByDate(Records(list, CustomerPayments), dateRange)))
      else None,
      if VendorPayments in fetched then
        Some(PaymentSectionOf(FilterByDate(Records(list, VendorPayments), dateRange)))
      else None,
      if BankAccounts in fetched then Some(BankSectionOf(Records(list, BankAccounts))) else None)
  }

  /** The contact list a vendor report fetches is never used: the summary does not depend on it. */
  lemma ContactsAreUnused(reportType: Json, dateRange: Json, currency: string, list1: Lister, list2: Lister,
                          now: int, parseDate: string -> Option<int>)
    requires forall d :: d != Contacts ==> list1(FetchCall(d)) == list2(FetchCall(d))
    ensures Summarize(reportType, dateRange, currency, list1, now, parseDate)
         == Summarize(reportType, dateRange, currency, list2, now, parseDate)
  {
    assert Records(list1, Invoices) == Records(list2, Invoices);
    assert Records(list1, Bills) == Records(list2, Bills);
    assert Records(list1, Expenses) == Records(list2, Expenses);
    assert Records(list1, BankAccounts) == Records(list2, BankAccounts);
    assert Records(list1, CustomerPayments) == Records(list2, CustomerPayments);
    assert Records(list1, VendorPayments) == Records(list2, VendorPayments);
  }

  /** The figures computed with the source's loops: aging buckets, key totals and in-place sorts. */
  method BuildSummary(reportType: Json, dateRange: Json, currency: string, list: Lister, now: int,
                      parseDate: string -> Option<int>) returns (s: FinancialSummary)
    ensures s == Summarize(reportType, dateRange, currency, list, now, parseDate)
  {
    var fetched := Fetches(reportType);
    var invoices: Option<InvoiceSection> := None;
    if Invoices in fetched {
      var sec := BuildInvoiceSection(FilterByDate(Records(list, Invoices), dateRange), IsType(reportType, "aging"),
                                     now, parseDate);
      invoices := Some(sec);
    }
    var expenses: Option<ExpenseSection> := None;
    if Expenses in fetched {
      var sec := BuildExpenseSection(FilterByDate(Records(list, Expenses), dateRange));
      expenses := Some(sec);
    }
    var bills: Option<BillSection> := None;
    if Bills in fetched {
      var sec := BuildBillSection(FilterByDate(Records(list, Bills), dateRange), IsType(reportType, "vendor"));
      bills := Some(sec);
    }
    var received := if CustomerPayments in fetched
      then Some(PaymentSectionOf(FilterByDate(Records(list, CustomerPayments), dateRange))) else None;
    var paidOut := if VendorPayments in fetched
      then Some(PaymentSectionOf(FilterByDate(Records(list, VendorPayments), dateRange))) else None;
    var bank := if BankAccounts in fetched then Some(BankSectionOf(Records(list, BankAccounts))) else None;
    s := FinancialSummary(currency, Get(dateRange, "start"), Get(dateRange, "end"), invoices, expenses, bills,
                          received, paidOut, bank);
  }

  /** Lines 81-134: the invoice figures, the customer totals sorted in place, and the aging buckets. */
  method BuildInvoiceSection(rows: seq<Json>, withAging: bool, now: int, parseDate: string -> Option<int>)
    returns (sec: InvoiceSection)
    ensures sec == InvoiceSectionOf(rows, withAging, now, parseDate)
  {
    var customers := TotalsBy(rows, CustomerName, TotalOf);
    var ranked := SortedCopy(customers, EntryKey);
    var aging: Option<Aging> := None;
    if withAging {
      var buckets := AgingBuckets(Filter(rows, IsUnpaid), now, parseDate);
      aging := Some(buckets);
    }
    var paid, unpaid, overdue := Filter(rows, IsPaid), Filter(rows, IsUnpaid), Filter(rows, IsOverdue);
    CountIsFilterLength(rows, IsPaid);
    CountIsFilterLength(rows, IsUnpaid);
    CountIsFilterLength(rows, IsOverdue);
    sec := InvoiceSection(|rows|, Sum(rows, TotalOf), |paid|, Sum(paid, TotalOf), |unpaid|,
                          Sum(unpaid, BalanceOf), |overdue|, Sum(overdue, BalanceOf), Take(ranked, 10), aging);
  }

  /** Lines 136-158: the expense figures and the category totals sorted in place. */
  method BuildExpenseSection(rows: seq<Json>) returns (sec: ExpenseSection)
    ensures sec == ExpenseSectionOf(rows)
  {
    var categories := TotalsBy(rows, CategoryName, TotalOf);
    var ranked := SortedCopy(categories, EntryKey);
    sec := ExpenseSection(|rows|, Sum(rows, TotalOf), ranked);
  }

  /** Lines 160-186: the bill figures and, for a vendor report, the vendor tallies sorted in place. */
  method BuildBillSection(rows: seq<Json>, withVendors: bool) returns (sec: BillSection)
    ensures sec == BillSectionOf(rows, withVendors)
  {
    var vendors: Option<seq<(string, Tally)>> := None;
    if withVendors {
      var table := VendorTotals(rows);
      var ranked := SortedCopy(table, VendorKey);
      vendors := Some(Take(ranked, 15));
    }
    sec := BillSection(|rows|, Sum(rows, TotalOf), vendors);
  }

  // ----------------------------------------------------------------- text

  /** `n.toLocaleString()` for an amount in cents; Intl formatting is not modelled. */
  type MoneyText = int -> string
  /** `((part / whole) * 100).toFixed(1)`; floating point is not modelled. */
  type PercentText = (int, int) -> string

  /** `${start || "all time"} to ${end || "present"}` */
  function PeriodText(start: Json, end: Json): string {
    StrOr(start, "all time") + " to " + StrOr(end, "present")
  }

  function RankedLines(top: seq<(string, int)>, money: MoneyText, from: nat): seq<string>
    decreases |top|
  {
    if |top| == 0 then []
    else ["  " + NatToString(from + 1) + ". " + top[0].0 + ": $" + money(top[0].1)]
         + RankedLines(top[1..], money, from + 1)
  }

  function AgingLines(a: Aging, money: MoneyText): seq<string>
    requires |a.balances| == 5 && |a.counts| == 5
  {
    ["\n=== AGING ANALYSIS ===",
     "Current (not yet due): $" + money(a.balances[0]) + " (" + NatToString(a.counts[0]) + " invoices)",
     "1-30 days: $" + money(a.balances[1]) + " (" + NatToString(a.counts[1]) + " invoices)",
     "31-60 days: $" + money(a.balances[2]) + " (" + NatToString(a.counts[2]) + " invoices)",
     "61-90 days: $" + money(a.balances[3]) + " (" + NatToString(a.counts[3]) + " invoices)",
     "Over 90 days: $" + money(a.balances[4]) + " (" + NatToString(a.counts[4]) + " invoices)"]
  }

  function InvoiceLines(sec: InvoiceSection, money: MoneyText): seq<string> {
    ["=== INVOICES (" + NatToString(sec.count) + " total) ===",
     "Total Revenue: $" + money(sec.revenue),
     "Paid: " + NatToString(sec.paidCount) + " ($" + money(sec.paidTotal) + ")",
     "Unpaid: " + NatToString(sec.unpaidCount) + " ($" + money(sec.outstanding) + " outstanding)",
     "Overdue: " + NatToString(sec.overdueCount) + " ($" + money(sec.overdueBalance) + ")"]
    + (if |sec.topCustomers| > 0 then ["\nTop Customers by Revenue:"] + RankedLines(sec.topCustomers, money, 0)
       else [])
    + (if sec.aging.Some? && |sec.aging.value.balances| == 5 && |sec.aging.value.counts| == 5
       then AgingLines(sec.aging.value, money) else [])
    + [""]
  }

  function CategoryLines(cats: seq<(string, int)>, total: int, money: MoneyText, percent: PercentText)
    : seq<string>
    decreases |cats|
  {
    if |cats| == 0 then []
    else ["  - " + cats[0].0 + ": $" + money(cats[0].1) + " ("
          + (if total > 0 then percent(cats[0].1, total) else "0") + "%)"]
         + CategoryLines(cats[1..], total, money, percent)
  }

  function ExpenseLines(sec: ExpenseSection, money: MoneyText, percent: PercentText): seq<string> {
    ["=== EXPENSES (" + NatToString(sec.count) + " total) ===", "Total Expenses: $" + money(sec.total)]
    + (if |sec.categories| > 0
       then ["\nExpenses by Category:"] + CategoryLines(sec.categories, sec.total, money, percent) else [])
    + [""]
  }

  function VendorLines(top: seq<(string, Tally)>, money: MoneyText, from: nat): seq<string>
    decreases |top|
  {
    if |top| == 0 then []
    else ["  " + NatToString(from + 1) + ". " + top[0].0 + ": $" + money(top[0].1.total) + " ("
          + NatToString(top[0].1.count) + " bills, " + NatToString(top[0].1.marked) + " paid)"]
         + VendorLines(top[1..], money, from + 1)
  }

  function BillLines(sec: BillSection, money: MoneyText): seq<string> {
    ["=== BILLS (" + NatToString(sec.count) + " total) ===", "Total Bills: $" + money(sec.total)]
    + (if sec.vendors.Some? && |sec.vendors.value| > 0
       then ["\nTop Vendors:"] + VendorLines(sec.vendors.value, money, 0) else [])
    + [""]
  }

  function AccountLines(accounts: seq<(Json, int)>, money: MoneyText): seq<string>
    decreases |accounts|
  {
    if |accounts| == 0 then []
    else ["  - " + ToJsString(accounts[0].0) + ": $" + money(accounts[0].1)] + AccountLines(accounts[1..], money)
  }

  function OptionalLines<S>(section: Option<S>, lines: S -> seq<string>): seq<string> {
    if section.Some? then lines(section.value) else []
  }

  /** `parts`: the header, then each present section in a fixed order. */
  function SummaryLines(s: FinancialSummary, money: MoneyText, percent: PercentText): (lines: seq<string>)
    ensures |lines| >= 3
    ensures lines[..3] == ["Currency: " + s.currency, "Report Period: " + PeriodText(s.start, s.end), ""]
  {
    ["Currency: " + s.currency, "Report Period: " + PeriodText(s.start, s.end), ""]
    + OptionalLines(s.invoices, sec => InvoiceLines(sec, money))
    + OptionalLines(s.expenses, sec => ExpenseLines(sec, money, percent))
    + OptionalLines(s.bills, sec => BillLines(sec, money))
    + OptionalLines(s.customerPayments, (sec: PaymentSection) =>
        ["=== CUSTOMER PAYMENTS ===",
         "Total Received: $" + money(sec.total) + " (" + NatToString(sec.count) + " payments)", ""])
    + OptionalLines(s.vendorPayments, (sec: PaymentSection) =>
        ["=== VENDOR PAYMENTS ===",
         "Total Paid Out: $" + money(sec.total) + " (" + NatToString(sec.count) + " payments)", ""])
    + OptionalLines(s.bank, (sec: BankSection) =>
        ["=== BANK ACCOUNTS ===", "Total Cash: $" + money(sec.total)] + AccountLines(sec.accounts, money) + [""])
  }

  lemma {:induction false} JoinStartsWithFirst(parts: seq<string>, sep: string)
    requires |parts| >= 2
    ensures IsPrefix(parts[0] + sep, Join(parts, sep))
  {
    assert Join(parts, sep) == parts[0] + sep + Join(parts[1..], sep);
  }

  /**
   * `financialData`: connected, the summary lines joined by newlines, which
   * begin with the currency line and so are never empty; disconnected, "".
   */
  function FinancialData(connected: bool, s: FinancialSummary, money: MoneyText, percent: PercentText)
    : (data: string)
    ensures !connected ==> data == ""
    ensures connected ==> data == Join(SummaryLines(s, money, percent), "\n")
    ensures connected ==> IsPrefix("Currency: " + s.currency + "\n", data) && data != ""
  {
    if connected then
      var lines := SummaryLines(s, money, percent);
      assert lines[0] == "Currency: " + s.currency;
      JoinStartsWithFirst(lines, "\n");
      Join(lines, "\n")
    else ""
  }

  // ------------------------------------------------------------- currency

  const NullSettingsMessage: string := "Cannot read properties of null (reading 'currency')"

  /**
   * Line 23 as written: `settings.currency || "CAD"` dereferences the row
   * even when there is none, which throws a TypeError.
   */
  function ReportCurrencyAsWritten(settings: Option<SettingsRow>): (r: Result<string, Thrown>)
    ensures settings.None? <==> r.Err?
    ensures settings.None? ==> r == Err(ErrorObject(NullSettingsMessage))
    ensures settings.Some? ==> r == Ok(StrOr(Column(settings, "currency"), "CAD"))
  {
    match settings
    case None => Err(ErrorObject(NullSettingsMessage))
    case Some(_) => Ok(StrOr(Column(settings, "currency"), "CAD"))
  }

  /**
   * With no settings row but a key in the environment, the key guard
   * passes and the currency read then throws: the report fails with 500
   * although the key is configured.
   */
  lemma NoSettingsRowFailsAsWritten(env: Env)
    requires Present(env.anthropicApiKey)
    ensures GetAnthropicApiKey(None, env).Some?
    ensures ReportCurrencyAsWritten(None).Err?
  {
  }

  /** `settings?.currency || "CAD"`, as the other settings reads are written: never fails. */
  function ReportCurrency(settings: Option<SettingsRow>): (c: string)
    ensures settings.None? ==> c == "CAD"
    ensures !Truthy(Column(settings, "currency")) ==> c == "CAD"
    ensures Column(settings, "currency").JStr? && Column(settings, "currency").s != "" ==>
      c == Column(settings, "currency").s
    ensures settings.Some? ==> ReportCurrencyAsWritten(settings) == Ok(c)
  {
    StrOr(Column(settings, "currency"), "CAD")
  }

  // -------------------------------------------------------------- request

  /** What `chatWithClaude` is given. */
  datatype ReportRequest = ReportRequest(
    apiKey: string, model: string, temperature: real, system: string, messages: seq<Message>, maxTokens: nat)

  type ReportModel = ReportRequest -> Result<Response, Thrown>

  const Temperature: real := 0.3
  const MaxTokens: nat := 4096

  const AnalystRole: string :=
    "You are a professional financial analyst and bookkeeper for Transway Group, a Canadian trucking company.\n"
    + "Generate thorough, professional financial reports based on the REAL financial data provided.\n"
  const LiveNote: string := "You have access to LIVE data from Zoho Books."
  const TemplateNote: string := "No live data available - generate a template report."
  const CurrencyRule: string := "\n\nIMPORTANT:\n- Use the actual numbers provided in the data\n- Format all currency as "
  const StyleRules: string :=
    " with $ symbol and thousands separators\n- Use markdown tables where appropriate\n"
    + "- Include executive summary, key metrics, detailed analysis, and recommendations\n"
    + "- Highlight concerning trends or anomalies\n"
    + "- Be specific with numbers - never use placeholder values when real data is provided\n"
    + "- Include percentage calculations and comparisons where relevant"

  /** The system prompt: the analyst's role, whether live data is given, and the currency to format in. */
  function SystemPrompt(connected: bool, currency: string): string {
    AnalystRole + (if connected then LiveNote else TemplateNote) + CurrencyRule + currency + StyleRules
  }

  const LiveDataHeading: string := "\n\nREAL FINANCIAL DATA FROM ZOHO BOOKS:\n"
  const NoLiveData: string := "\nNo live data available. Please generate a comprehensive template report."

  /** The user message: type, period, detail level, template, then the data or the no-data note. */
  function UserMessage(reportType: string, dateRange: Json, detailLevel: string, template: string, data: string)
    : (m: string)
    ensures data != "" ==> IsSuffix(LiveDataHeading + data, m)
    ensures data == "" ==> IsSuffix(NoLiveData, m)
  {
    "Generate a " + ToUpper(reportType) + " report for Transway Group.\nPeriod: "
    + PeriodText(Get(dateRange, "start"), Get(dateRange, "end")) + "\nDetail level: " + detailLevel
    + "\n\n" + template + "\n\n" + (if data != "" then LiveDataHeading + data else NoLiveData)
  }

  /**
   * The request for a report: the template of the type, or the pnl one for
   * any other type; the detail level defaulting to "detailed".
   */
  function RequestFor(apiKey: string, settings: Option<SettingsRow>, connected: bool, currency: string,
                      reportType: string, dateRange: Json, options: Json, templates: string -> string, data: string)
    : (req: ReportRequest)
    ensures req.apiKey == apiKey && req.model == GetAiModel(settings)
    ensures req.temperature == Temperature && req.maxTokens == MaxTokens
    ensures req.system == SystemPrompt(connected, currency)
    ensures req.messages == [Message(User, Plain(UserMessage(reportType, dateRange,
      StrOr(Get(options, "detailLevel"), "detailed"), templates(ReportTemplateKey(reportType)), data)))]
  {
    var template := templates(ReportTemplateKey(reportType));
    var detailLevel := StrOr(Get(options, "detailLevel"), "detailed");
    ReportRequest(apiKey, GetAiModel(settings), Temperature, SystemPrompt(connected, currency),
                  [Message(User, Plain(UserMessage(reportType, dateRange, detailLevel, template, data)))], MaxTokens)
  }

  /** A report of an unlisted type, "custom" included, is written from the profit-and-loss template. */
  lemma UnknownTypeUsesPnlTemplate(apiKey: string, settings: Option<SettingsRow>, connected: bool,
                                   currency: string, reportType: string, dateRange: Json, options: Json,
                                   templates: string -> string, data: string)
    requires reportType !in ReportPromptKeys
    ensures RequestFor(apiKey, settings, connected, currency, reportType, dateRange, options, templates, data)
         == RequestFor(apiKey, settings, connected, currency, reportType, dateRange, options,
                       t => templates("pnl"), data)
  {
  }

  // ---------------------------------------------------------------- saved

  /** The saved report row's data. */
  datatype SavedDraft = SavedDraft(title: string, reportType: string, dateRange: string, content: string,
                                   summary: string)

  /** What the store returns for the created row. */
  datatype SavedRow = SavedRow(id: string, createdAt: string)

  function DraftFor(reportType: string, dateRange: Json, content: string): (d: SavedDraft)
    ensures d.title == ToUpper(reportType) + " Report - " + StrOr(Get(dateRange, "start"), "Current") + " to "
                     + StrOr(Get(dateRange, "end"), "Current")
    ensures d.reportType == reportType && d.content == content
    ensures d.dateRange == StrOr(Get(dateRange, "start"), "") + " to " + StrOr(Get(dateRange, "end"), "")
    ensures |d.summary| == (if |content| < 200 then |content| else 200) && IsPrefix(d.summary, content)
  {
    var start, end := Get(dateRange, "start"), Get(dateRange, "end");
    SavedDraft(ToUpper(reportType) + " Report - " + StrOr(start, "Current") + " to " + StrOr(end, "Current"),
               reportType, StrOr(start, "") + " to " + StrOr(end, ""), content, Take(content, 200))
  }

  // ----------------------------------------------------------------- route

  const ReportFailure: string := "Failed to generate report"
  const NullBodyMessage: string := "Cannot destructure property 'reportType' of '(intermediate value)' as it is null."

  /** The TypeError `reportType.toUpperCase()` throws on a value that is not a string. */
  function TypeErrorMessage(reportType: Json): string {
    if reportType.JUndefined? || reportType.JNull? then
      "Cannot read properties of " + ToJsString(reportType) + " (reading 'toUpperCase')"
    else "reportType.toUpperCase is not a function"
  }

  /**
   * Lines 246-278: the model's text blocks joined by newlines, saved with
   * the title and first 200 characters, and returned with the row's id and
   * creation time; a failed model call gives 500.
   */
  function Respond(req: ReportRequest, reportType: string, dateRange: Json, connected: bool, model: ReportModel,
                   save: SavedDraft -> SavedRow): (reply: Reply)
    ensures model(req).Err? ==> reply == ErrorReply(500, model(req).error.MessageOr(ReportFailure))
    ensures model(req).Ok? ==>
      var content := Join(Texts(model(req).value.content), "\n");
      var draft := DraftFor(reportType, dateRange, content);
      && reply.status == 200
      && Get(reply.body, "id") == JStr(save(draft).id) && Get(reply.body, "title") == JStr(draft.title)
      && Get(reply.body, "reportType") == JStr(reportType) && Get(reply.body, "content") == JStr(content)
      && Get(reply.body, "liveData") == JBool(connected)
      && Get(reply.body, "createdAt") == JStr(save(draft).createdAt)
  {
    match model(req)
    case Err(e) => ErrorReply(500, e.MessageOr(ReportFailure))
    case Ok(response) =>
      var content := Join(Texts(response.content), "\n");
      var draft := DraftFor(reportType, dateRange, content);
      var saved := save(draft);
      var id, title, createdAt := JStr(saved.id), JStr(draft.title), JStr(saved.createdAt);
      OkReply(map["id" := id, "title" := title, "reportType" := JStr(reportType), "content" := JStr(content),
                  "liveData" := JBool(connected), "createdAt" := createdAt])
  }

  /**
   * `POST /api/reports/generate`. A missing key gives 400 before any read;
   * with a key but no settings row, the currency read throws and the answer
   * is 500. Connected, the lists of the type are read and summarised; the model
   * then writes the report, which is saved and returned. A report type that
   * is not a string fails at `toUpperCase` with 500.
   */
  function ReportPost(body: Result<Json, Thrown>, settings: Option<SettingsRow>, env: Env, connected: bool,
                      list: Lister, now: int, parseDate: string -> Option<int>, money: MoneyText,
                      percent: PercentText, templates: string -> string, model: ReportModel,
                      save: SavedDraft -> SavedRow): (reply: Reply)
    ensures body.Err? ==> reply == ErrorReply(500, body.error.MessageOr(ReportFailure))
    ensures body == Ok(JNull) ==> reply == ErrorReply(500, NullBodyMessage)
    ensures body.Ok? && body.value != JNull && GetAnthropicApiKey(settings, env).None? ==>
      reply == ErrorReply(400, NoKeyHelpMessage)
    ensures body.Ok? && body.value != JNull && GetAnthropicApiKey(settings, env).Some? && settings.None? ==>
      reply == ErrorReply(500, NullSettingsMessage)
  {
    match body
    case Err(e) => ErrorReply(500, e.MessageOr(ReportFailure))
    case Ok(request) =>
      if request == JNull then ErrorReply(500, NullBodyMessage)
      else
        var reportType, dateRange, options := Get(request, "reportType"), Get(request, "dateRange"),
                                              Get(request, "options");
        match GetAnthropicApiKey(settings, env)
        case None => ErrorReply(400, NoKeyHelpMessage)
        case Some(apiKey) =>
          match ReportCurrencyAsWritten(settings)
          case Err(e) => ErrorReply(500, e.MessageOr(ReportFailure))
          case Ok(currency) =>
            var data := LiveData(currency, connected, reportType, dateRange, list, now, parseDate, money, percent);
            Generate(apiKey, settings, connected, currency, reportType, dateRange, options, templates, data, model,
                     save)
  }

  /** Lines 22-213: the live-data text, "" when the ledger is not connected. */
  function LiveData(currency: string, connected: bool, reportType: Json, dateRange: Json, list: Lister,
                    now: int, parseDate: string -> Option<int>, money: MoneyText, percent: PercentText)
    : (data: string)
    ensures data != "" <==> connected
  {
    FinancialData(connected, Summarize(reportType, dateRange, currency, list, now, parseDate),
                  money, percent)
  }

  /** Lines 222-278 once the key is known: a report type that is not a string fails at `toUpperCase`. */
  function Generate(apiKey: string, settings: Option<SettingsRow>, connected: bool, currency: string,
                    reportType: Json, dateRange: Json, options: Json, templates: string -> string, data: string,
                    model: ReportModel, save: SavedDraft -> SavedRow): (reply: Reply)
    ensures !reportType.JStr? ==> reply == ErrorReply(500, TypeErrorMessage(reportType))
    ensures reportType.JStr? ==>
      reply == Respond(RequestFor(apiKey, settings, connected, currency, reportType.s, dateRange,
                                  options, templates, data), reportType.s, dateRange, connected, model, save)
  {
    if !reportType.JStr? then ErrorReply(500, TypeErrorMessage(reportType))
    else
      Respond(RequestFor(apiKey, settings, connected, currency, reportType.s, dateRange, options,
                         templates, data), reportType.s, dateRange, connected, model, save)
  }

  /** Without a key nothing is read, asked or saved: the answer does not depend on the ledger, model or store. */
  lemma NoKeyReadsNothing(request: Json, settings: Option<SettingsRow>, env: Env, connected: bool,
                          list1: Lister, list2: Lister, now: int, parseDate: string -> Option<int>,
                          money: MoneyText, percent: PercentText, templates: string -> string,
                          model1: ReportModel, model2: ReportModel,
                          save1: SavedDraft -> SavedRow, save2: SavedDraft -> SavedRow)
    requires GetAnthropicApiKey(settings, env).None?
    ensures ReportPost(Ok(request), settings, env, connected, list1, now, parseDate, money, percent, templates,
                       model1, save1)
         == ReportPost(Ok(request), settings, env, connected, list2, now, parseDate, money, percent, templates,
                       model2, save2)
  {
  }

  /** Once the key is known, a report type that is not a string fails with the TypeError's message. */
  lemma ReportTypeMustBeString(request: Json, settings: Option<SettingsRow>, env: Env, connected: bool,
                               list: Lister, now: int, parseDate: string -> Option<int>, money: MoneyText,
                               percent: PercentText, templates: string -> string, model: ReportModel,
                               save: SavedDraft -> SavedRow)
    requires request != JNull && GetAnthropicApiKey(settings, env).Some? && settings.Some?
    requires !Get(request, "reportType").JStr?
    ensures ReportPost(Ok(request), settings, env, connected, list, now, parseDate, money, percent, templates, model,
                       save) == ErrorReply(500, TypeErrorMessage(Get(request, "reportType")))
  {
  }

  /**
   * With a settings row, a generated report is the model's text for the
   * request built from the live-data text in the row's currency (CAD by
   * default), saved with its title and first 200 characters.
   */
  lemma GeneratedReportIsSaved(request: Json, settings: Option<SettingsRow>, env: Env, connected: bool,
                               list: Lister, now: int, parseDate: string -> Option<int>, money: MoneyText,
                               percent: PercentText, templates: string -> string, model: ReportModel,
                               save: SavedDraft -> SavedRow)
    requires request != JNull && Get(request, "reportType").JStr? && GetAnthropicApiKey(settings, env).Some?
    requires settings.Some?
    ensures var rt, dateRange := Get(request, "reportType"), Get(request, "dateRange");
      var data := LiveData(ReportCurrency(settings), connected, rt, dateRange, list, now, parseDate, money, percent);
      var req := RequestFor(GetAnthropicApiKey(settings, env).value, settings, connected, ReportCurrency(settings),
                            rt.s, dateRange, Get(request, "options"), templates, data);
      ReportPost(Ok(request), settings, env, connected, list, now, parseDate, money, percent, templates, model,
                 save) == Respond(req, rt.s, dateRange, connected, model, save)
  {
    var rt, dateRange := Get(request, "reportType"), Get(request, "dateRange");
    var currency := ReportCurrency(settings);
    var data := LiveData(currency, connected, rt, dateRange, list, now, parseDate, money, percent);
    assert ReportPost(Ok(request), settings, env, connected, list, now, parseDate, money, percent, templates, model,
                      save)
        == Generate(GetAnthropicApiKey(settings, env).value, settings, connected, currency, rt, dateRange,
                    Get(request, "options"), templates, data, model, save);
  }

  /**
   * The defect seen from the route: with the key only in the environment
   * and no settings row, every report request that gets past the key check
   * fails with 500, whatever the ledger, the model or the store would do.
   */
  lemma NoSettingsRowReportFails(request: Json, env: Env, connected: bool, list: Lister, now: int,
                                 parseDate: string -> Option<int>, money: MoneyText, percent: PercentText,
                                 templates: string -> string, model: ReportModel, save: SavedDraft -> SavedRow)
    requires request != JNull && Present(env.anthropicApiKey)
    ensures ReportPost(Ok(request), None, env, connected, list, now, parseDate, money, percent, templates, model,
                       save) == ErrorReply(500, NullSettingsMessage)
  {
    NoSettingsRowFailsAsWritten(env);
  }
}
