/**
 * The audit engine: five structural checks over the ledger's records
 * (overdue aging, duplicate grouping, payment mismatches, unusual amounts,
 * uncategorized expenses), an AI pass whose reply is mined for a JSON array
 * of further findings, and the store the findings are saved to. Money is in
 * integer cents, times in integer milliseconds.
 */
module AuditEngine {
  import opened Wrappers
  import opened Strings
  import opened Json
  import opened Seqs
  import opened Grouping
  import opened Stats
  import opened Books
  import opened Llm
  import opened Dates

  datatype Finding = Finding(
    findingType: string,
    severity: string,
    title: string,
    description: string,
    entityType: string,
    entityId: string,
    amount: int)

  // ---------------------------------------------------------------- overdue

  /** The invoice statuses the aging check looks at. */
  predicate Outstanding(inv: Json) {
    Get(inv, "status") == JStr("overdue") || Get(inv, "status") == JStr("partially_paid")
  }

  /** Lines 124-148: more than 90 days is critical, 31 to 90 a warning, anything else nothing. */
  function OverdueFinding(inv: Json, now: int, parseDate: string -> Option<int>): (f: Option<Finding>)
    ensures f.Some? <==> Aged(inv, now, parseDate)
    ensures f.Some? ==>
      && f.value.findingType == "overdue_invoice" && f.value.entityType == "invoice"
      && f.value.entityId == ToJsString(Get(inv, "invoice_id"))
      && f.value.amount == Num(Get(inv, "balance"))
      && (f.value.severity == "critical" <==> DaysPastDue(inv, now, parseDate).value > 90)
      && (f.value.severity == "critical" || f.value.severity == "warning")
  {
    if !Outstanding(inv) then None
    else match DaysPastDue(inv, now, parseDate)
      case None => None
      case Some(days) =>
        var number := ToJsString(Get(inv, "invoice_number"));
        var title := "Invoice " + number + " is " + IntToString(days) + " days overdue";
        var lead := "Invoice #" + number + " for " + ToJsString(Get(inv, "customer_name")) + " totaling $"
          + Dollars(Get(inv, "total")) + " has been overdue for " + IntToString(days) + " days.";
        var id := ToJsString(Get(inv, "invoice_id"));
        var amount := Num(Get(inv, "balance"));
        if days > 90 then
          Some(Finding("overdue_invoice", "critical", title,
                       lead + " Balance due: $" + Dollars(Get(inv, "balance")) + ".", "invoice", id, amount))
        else if days > 30 then
          Some(Finding("overdue_invoice", "warning", title, lead, "invoice", id, amount))
        else None
  }

  /** The invoices the aging check reports: outstanding and more than 30 days past due. */
  predicate Aged(inv: Json, now: int, parseDate: string -> Option<int>) {
    Outstanding(inv) && DaysPastDue(inv, now, parseDate).Some? && DaysPastDue(inv, now, parseDate).value > 30
  }

  function OverdueRule(now: int, parseDate: string -> Option<int>): Json -> Option<Finding> {
    inv => OverdueFinding(inv, now, parseDate)
  }

  /** `checkOverdueInvoices`: at most one finding per invoice, in invoice order. */
  method CheckOverdueInvoices(invoices: seq<Json>, now: int, parseDate: string -> Option<int>)
    returns (findings: seq<Finding>)
    ensures findings == Collect(invoices, OverdueRule(now, parseDate))
  {
    findings := [];
    var i := 0;
    while i < |invoices|
      invariant i <= |invoices|
      invariant findings == Collect(invoices[..i], OverdueRule(now, parseDate))
    {
      assert invoices[..i + 1][..i] == invoices[..i];
      var f := OverdueFinding(invoices[i], now, parseDate);
      if f.Some? {
        findings := findings + [f.value];
      }
      i := i + 1;
    }
    assert invoices[..i] == invoices;
  }

  /** Every overdue finding is critical or a warning, and comes from an outstanding invoice over 30 days past due. */
  lemma OverdueFindingsAreAged(invoices: seq<Json>, now: int, parseDate: string -> Option<int>, f: Finding)
    requires f in Collect(invoices, OverdueRule(now, parseDate))
    ensures f.severity == "critical" || f.severity == "warning"
    ensures exists i :: 0 <= i < |invoices| && Aged(invoices[i], now, parseDate)
  {
    CollectMember(invoices, OverdueRule(now, parseDate), f);
    var i :| 0 <= i < |invoices| && OverdueRule(now, parseDate)(invoices[i]) == Some(f);
    assert OverdueFinding(invoices[i], now, parseDate) == Some(f);
  }

  // ------------------------------------------------------------- duplicates

  datatype RecordKind = InvoiceRecords | BillRecords

  /** `${inv.customer_id}-${inv.date}-${inv.total}` */
  function InvoiceKey(inv: Json): string {
    ToJsString(Get(inv, "customer_id")) + "-" + ToJsString(Get(inv, "date")) + "-" + Dollars(Get(inv, "total"))
  }

  /** `${b.vendor_id}-${b.date}-${b.total}` */
  function BillKey(bill: Json): string {
    ToJsString(Get(bill, "vendor_id")) + "-" + ToJsString(Get(bill, "date")) + "-" + Dollars(Get(bill, "total"))
  }

  function KeyOf(kind: RecordKind): Json -> string {
    match kind
    case InvoiceRecords => InvoiceKey
    case BillRecords => BillKey
  }

  function IdField(kind: RecordKind): string {
    match kind
    case InvoiceRecords => "invoice_id"
    case BillRecords => "bill_id"
  }

  function NumberField(kind: RecordKind): string {
    match kind
    case InvoiceRecords => "invoice_number"
    case BillRecords => "bill_number"
  }

  /** How `Array.prototype.join` shows an element: undefined and null as "". */
  function Listed(v: Json): string {
    if v.JUndefined? || v.JNull? then "" else ToJsString(v)
  }

  /** The record numbers of a group, in group order. */
  function GroupNumbers(kind: RecordKind, group: seq<Json>): (numbers: seq<string>)
    ensures |numbers| == |group|
    ensures forall i :: 0 <= i < |group| ==> numbers[i] == Listed(Get(group[i], NumberField(kind)))
  {
    seq(|group|, i requires 0 <= i < |group| => Listed(Get(group[i], NumberField(kind))))
  }

  /** Lines 173-183 and 198-208: the warning for a group of two or more records. */
  function DuplicateFinding(kind: RecordKind, group: seq<Json>): (f: Finding)
    requires |group| > 1
    ensures f.severity == "warning"
    ensures f.entityId == ToJsString(Get(group[0], IdField(kind)))
    ensures f.amount == Num(Get(group[0], "total"))
    ensures f.title == (if kind == InvoiceRecords then "Possible duplicate invoices: " else "Possible duplicate bills: ")
                       + Join(GroupNumbers(kind, group), ", ")
  {
    var numbers := Join(GroupNumbers(kind, group), ", ");
    var total := Dollars(Get(group[0], "total"));
    var id := ToJsString(Get(group[0], IdField(kind)));
    var amount := Num(Get(group[0], "total"));
    match kind
    case InvoiceRecords =>
      Finding("duplicate_invoice", "warning", "Possible duplicate invoices: " + numbers,
              NatToString(|group|) + " invoices with same customer, date, and amount ($" + total
                + ") found. This may indicate duplicate entries.", "invoice", id, amount)
    case BillRecords =>
      Finding("duplicate_bill", "warning", "Possible duplicate bills: " + numbers,
              NatToString(|group|) + " bills with same vendor, date, and amount ($" + total + ") found.",
              "bill", id, amount)
  }

  /** The warning for the records sharing key `k`, if there are two or more of them. */
  function Raised(records: seq<Json>, kind: RecordKind, k: string): (r: seq<Finding>)
    ensures |r| <= 1
  {
    var group := Group(records, KeyOf(kind), k);
    if |group| > 1 then [DuplicateFinding(kind, group)] else []
  }

  /** The `forEach` over the groups, for the keys `keys` in turn. */
  function DuplicateGroups(keys: seq<string>, records: seq<Json>, kind: RecordKind): (r: seq<Finding>)
    ensures |r| <= |keys|
  {
    FlatMapLength(keys, k => Raised(records, kind, k));
    FlatMap(keys, k => Raised(records, kind, k))
  }

  /** One kind of record: one warning per group of two or more, in first-occurrence order of the keys. */
  function DuplicatesOf(records: seq<Json>, kind: RecordKind): seq<Finding> {
    DuplicateGroups(Keys(records, KeyOf(kind)), records, kind)
  }

  /**
   * `checkDuplicates`: the invoice warnings, then the bill warnings; a
   * finding is reported exactly when it is the warning of a key shared by
   * two or more invoices, or by two or more bills.
   */
  function Duplicates(invoices: seq<Json>, bills: seq<Json>): (r: seq<Finding>)
    ensures forall f :: f in r <==>
      (exists k :: RaisedFor(invoices, InvoiceRecords, k, f)) || (exists k :: RaisedFor(bills, BillRecords, k, f))
  {
    assert forall f :: f in DuplicatesOf(invoices, InvoiceRecords) <==>
        exists k :: RaisedFor(invoices, InvoiceRecords, k, f) by {
      forall f
        ensures f in DuplicatesOf(invoices, InvoiceRecords) <==> exists k :: RaisedFor(invoices, InvoiceRecords, k, f)
      {
        DuplicateWarningsAreGroups(invoices, InvoiceRecords, f);
      }
    }
    assert forall f :: f in DuplicatesOf(bills, BillRecords) <==> exists k :: RaisedFor(bills, BillRecords, k, f) by {
      forall f
        ensures f in DuplicatesOf(bills, BillRecords) <==> exists k :: RaisedFor(bills, BillRecords, k, f)
      {
        DuplicateWarningsAreGroups(bills, BillRecords, f);
      }
    }
    DuplicatesOf(invoices, InvoiceRecords) + DuplicatesOf(bills, BillRecords)
  }

  /** `f` is the warning raised for the records sharing key `k`. */
  predicate RaisedFor(records: seq<Json>, kind: RecordKind, k: string, f: Finding) {
    f in Raised(records, kind, k)
  }

  lemma DuplicateGroupsMember(keys: seq<string>, records: seq<Json>, kind: RecordKind, f: Finding)
    ensures f in DuplicateGroups(keys, records, kind) <==>
      exists j :: 0 <= j < |keys| && RaisedFor(records, kind, keys[j], f)
  {
    FlatMapMember(keys, k => Raised(records, kind, k), f);
  }

  /**
   * A warning is raised exactly for the keys shared by two or more records:
   * singletons give nothing, and each warning names its group's first record.
   */
  lemma DuplicateWarningsAreGroups(records: seq<Json>, kind: RecordKind, f: Finding)
    ensures f in DuplicatesOf(records, kind) <==> exists k :: RaisedFor(records, kind, k, f)
  {
    var keys := Keys(records, KeyOf(kind));
    DuplicateGroupsMember(keys, records, kind, f);
    if k :| RaisedFor(records, kind, k, f) {
      GroupMembers(records, KeyOf(kind), k);
      var j :| 0 <= j < |keys| && keys[j] == k;
    }
  }

  /** One more key adds its warning, if any, at the end. */
  lemma DuplicateGroupsStep(keys: seq<string>, j: nat, records: seq<Json>, kind: RecordKind)
    requires j < |keys|
    ensures var group := Group(records, KeyOf(kind), keys[j]);
      DuplicateGroups(keys[..j + 1], records, kind)
        == DuplicateGroups(keys[..j], records, kind) + (if |group| > 1 then [DuplicateFinding(kind, group)] else [])
  {
    assert keys[..j + 1][..j] == keys[..j];
  }

  /** Each key of `s` is grouped once: the grouping loop followed by the loop over the groups. */
  method DuplicateGroupFindings(records: seq<Json>, kind: RecordKind) returns (findings: seq<Finding>)
    ensures findings == DuplicatesOf(records, kind)
  {
    var keys, groups := GroupBy(records, KeyOf(kind));
    findings := [];
    var j := 0;
    while j < |keys|
      invariant j <= |keys|
      invariant findings == DuplicateGroups(keys[..j], records, kind)
    {
      var group := groups[keys[j]];
      if |group| > 1 {
        findings := findings + [DuplicateFinding(kind, group)];
      }
      DuplicateGroupsStep(keys, j, records, kind);
      j := j + 1;
    }
    assert keys[..j] == keys;
  }

  /** `checkDuplicates` */
  method CheckDuplicates(invoices: seq<Json>, bills: seq<Json>) returns (findings: seq<Finding>)
    ensures findings == Duplicates(invoices, bills)
  {
    var invoiceFindings := DuplicateGroupFindings(invoices, InvoiceRecords);
    var billFindings := DuplicateGroupFindings(bills, BillRecords);
    findings := invoiceFindings + billFindings;
  }

  // --------------------------------------------------------------- payments

  /** Lines 222-232: an invoice marked paid that still has a balance. */
  function MismatchFinding(inv: Json): (f: Option<Finding>)
    ensures f.Some? <==> Get(inv, "status") == JStr("paid") && Num(Get(inv, "balance")) > 0
    ensures f.Some? ==>
      && f.value.severity == "critical" && f.value.findingType == "payment_mismatch"
      && f.value.amount == Num(Get(inv, "balance"))
  {
    if Get(inv, "status") == JStr("paid") && Num(Get(inv, "balance")) > 0 then
      var number := ToJsString(Get(inv, "invoice_number"));
      Some(Finding("payment_mismatch", "critical", "Invoice " + number + " marked paid but has balance",
                   "Invoice #" + number + " status is \"paid\" but still has a balance of $"
                     + Dollars(Get(inv, "balance")) + ".",
                   "invoice", ToJsString(Get(inv, "invoice_id")), Num(Get(inv, "balance"))))
    else None
  }

  /** Lines 236-248: a customer payment with an unused amount. */
  function ExcessFinding(pay: Json): (f: Option<Finding>)
    ensures f.Some? <==> Num(Get(pay, "unused_amount")) > 0
    ensures f.Some? ==>
      && f.value.severity == "info" && f.value.findingType == "excess_payment"
      && f.value.amount == Num(Get(pay, "unused_amount"))
  {
    var unused := Num(Get(pay, "unused_amount"));
    if unused > 0 then
      Some(Finding("excess_payment", "info",
                   "Excess payment of $" + DollarText(unused) + " from " + ToJsString(Get(pay, "customer_name")),
                   "Payment #" + ToJsString(Get(pay, "payment_number")) + " has $" + DollarText(unused)
                     + " in unused/excess amount that should be applied or refunded.",
                   "payment", ToJsString(Get(pay, "payment_id")), unused))
    else None
  }

  /**
   * `checkPaymentMismatches`: the invoice findings, then the payment
   * findings; at most one per invoice or payment, and a finding is reported
   * exactly when some invoice or payment raises it.
   */
  function PaymentMismatches(invoices: seq<Json>, payments: seq<Json>): (r: seq<Finding>)
    ensures |r| <= |invoices| + |payments|
    ensures forall f :: f in r <==>
      (exists i :: 0 <= i < |invoices| && MismatchFinding(invoices[i]) == Some(f))
      || (exists j :: 0 <= j < |payments| && ExcessFinding(payments[j]) == Some(f))
  {
    var mismatches := Collect(invoices, MismatchFinding);
    var excess := Collect(payments, ExcessFinding);
    assert forall f :: f in mismatches <==> exists i :: 0 <= i < |invoices| && MismatchFinding(invoices[i]) == Some(f) by {
      forall f
        ensures f in mismatches <==> exists i :: 0 <= i < |invoices| && MismatchFinding(invoices[i]) == Some(f)
      {
        CollectMember(invoices, MismatchFinding, f);
      }
    }
    assert forall f :: f in excess <==> exists j :: 0 <= j < |payments| && ExcessFinding(payments[j]) == Some(f) by {
      forall f
        ensures f in excess <==> exists j :: 0 <= j < |payments| && ExcessFinding(payments[j]) == Some(f)
      {
        CollectMember(payments, ExcessFinding, f);
      }
    }
    assert forall f :: f in mismatches + excess <==> f in mismatches || f in excess;
    mismatches + excess
  }

  method CheckPaymentMismatches(invoices: seq<Json>, payments: seq<Json>) returns (findings: seq<Finding>)
    ensures findings == PaymentMismatches(invoices, payments)
  {
    var mismatches := CheckPaidInvoices(invoices);
    var excess := CheckExcessPayments(payments);
    findings := mismatches + excess;
  }

  /** The loop over the invoices of `checkPaymentMismatches`. */
  method CheckPaidInvoices(invoices: seq<Json>) returns (findings: seq<Finding>)
    ensures findings == Collect(invoices, MismatchFinding)
  {
    findings := [];
    var i := 0;
    while i < |invoices|
      invariant i <= |invoices|
      invariant findings == Collect(invoices[..i], MismatchFinding)
    {
      assert invoices[..i + 1][..i] == invoices[..i];
      var f := MismatchFinding(invoices[i]);
      if f.Some? {
        findings := findings + [f.value];
      }
      i := i + 1;
    }
    assert invoices[..i] == invoices;
  }

  /** The loop over the customer payments of `checkPaymentMismatches`. */
  method CheckExcessPayments(payments: seq<Json>) returns (findings: seq<Finding>)
    ensures findings == Collect(payments, ExcessFinding)
  {
    findings := [];
    var j := 0;
    while j < |payments|
      invariant j <= |payments|
      invariant findings == Collect(payments[..j], ExcessFinding)
    {
      assert payments[..j + 1][..j] == payments[..j];
      var f := ExcessFinding(payments[j]);
      if f.Some? {
        findings := findings + [f.value];
      }
      j := j + 1;
    }
    assert payments[..j] == payments;
  }

  // --------------------------------------------------------- unusual amounts

  /** `(exp.account_name as string) || "Unknown"` */
  function AccountKey(exp: Json): string {
    StrOr(Get(exp, "account_name"), "Unknown")
  }

  /** `(exp.total as number) || 0` for each expense of a group. */
  function Amounts(group: seq<Json>): (xs: seq<int>)
    ensures |xs| == |group|
    ensures forall i :: 0 <= i < |group| ==> xs[i] == Num(Get(group[i], "total"))
  {
    seq(|group|, i requires 0 <= i < |group| => Num(Get(group[i], "total")))
  }

  /** Over 100 dollars. */
  const UnusualFloor: int := 10000

  /** Line 284: z > 3 in its exact integer form, and over 100 dollars. */
  predicate IsOutlier(xs: seq<int>, i: nat)
    requires i < |xs|
  {
    |xs| * Deviations(xs)[i] * Deviations(xs)[i] > 9 * Spread(xs) && xs[i] > UnusualFloor
  }

  /**
   * What `toFixed` prints for a group of amounts: the z-score of the i-th to
   * one decimal, and the mean in dollars to two. Both are floating-point
   * results, so the texts are an oracle.
   */
  datatype Decimals = Decimals(zScore: (seq<int>, nat) -> string, mean: seq<int> -> string)

  /** Lines 286-293: the warning for the i-th expense of an account's group, with the amounts `xs`. */
  function UnusualFinding(account: string, exp: Json, xs: seq<int>, i: nat, decimals: Decimals): (f: Finding)
    requires i < |xs|
    ensures f.findingType == "unusual_amount" && f.severity == "warning" && f.entityType == "expense"
    ensures f.entityId == ToJsString(Get(exp, "expense_id")) && f.amount == xs[i]
    ensures f.description == "Expense on " + ToJsString(Get(exp, "date")) + " for $" + Fixed2(xs[i]) + " is "
      + decimals.zScore(xs, i) + " standard deviations from the mean ($" + decimals.mean(xs) + ") for "
      + account + ". This could be an error or unusual charge."
  {
    Finding("unusual_amount", "warning", "Unusual expense of $" + Fixed2(xs[i]) + " in " + account,
            "Expense on " + ToJsString(Get(exp, "date")) + " for $" + Fixed2(xs[i]) + " is "
              + decimals.zScore(xs, i) + " standard deviations from the mean ($" + decimals.mean(xs) + ") for "
              + account + ". This could be an error or unusual charge.",
            "expense", ToJsString(Get(exp, "expense_id")), xs[i])
  }

  /** The flagged expenses among the first `k` of a group. */
  function OutliersUpTo(account: string, group: seq<Json>, k: nat, decimals: Decimals): (r: seq<Finding>)
    requires k <= |group|
    ensures |r| <= k
    decreases k
  {
    if k == 0 then []
    else
      var xs := Amounts(group);
      OutliersUpTo(account, group, k - 1, decimals)
        + (if IsOutlier(xs, k - 1) then [UnusualFinding(account, group[k - 1], xs, k - 1, decimals)] else [])
  }

  /** Lines 272-296: groups under 3 expenses, or with zero spread, are skipped. */
  function GroupOutliers(account: string, group: seq<Json>, decimals: Decimals): (r: seq<Finding>)
    ensures |r| <= |group|
  {
    var xs := Amounts(group);
    if |xs| < 3 || Spread(xs) == 0 then [] else OutliersUpTo(account, group, |group|, decimals)
  }

  function UnusualFromKeys(keys: seq<string>, expenses: seq<Json>, decimals: Decimals): seq<Finding>
    decreases |keys|
  {
    if |keys| == 0 then []
    else
      var account := keys[|keys| - 1];
      UnusualFromKeys(keys[..|keys| - 1], expenses, decimals) + GroupOutliers(account, Group(expenses, AccountKey, account), decimals)
  }

  /**
   * `checkUnusualAmounts`: the outliers of each account, accounts in
   * first-occurrence order; every one is an unusual-amount warning about an
   * expense.
   */
  function UnusualAmounts(expenses: seq<Json>, decimals: Decimals): (r: seq<Finding>)
    ensures forall f :: f in r ==> IsUnusualWarning(f)
  {
    UnusualAreWarnings(Keys(expenses, AccountKey), expenses, decimals);
    UnusualFromKeys(Keys(expenses, AccountKey), expenses, decimals)
  }

  /** The kind of finding `checkUnusualAmounts` raises. */
  predicate IsUnusualWarning(f: Finding) {
    f.findingType == "unusual_amount" && f.severity == "warning" && f.entityType == "expense"
  }

  /** An account with at most ten expenses never has an outlier (Samuelson's inequality). */
  lemma {:induction false} SmallAccountsHaveNoOutliers(account: string, group: seq<Json>, k: nat, decimals: Decimals)
    requires k <= |group| <= 10
    ensures OutliersUpTo(account, group, k, decimals) == []
    decreases k
  {
    if k > 0 {
      SmallAccountsHaveNoOutliers(account, group, k - 1, decimals);
      SmallGroupNeverOutlier(Amounts(group), k - 1);
    }
  }

  /** So checkUnusualAmounts can only flag an expense of an account with more than ten expenses. */
  lemma SmallAccountGroupsAreQuiet(account: string, group: seq<Json>, decimals: Decimals)
    requires |group| <= 10
    ensures GroupOutliers(account, group, decimals) == []
  {
    SmallAccountsHaveNoOutliers(account, group, |group|, decimals);
  }

  /**
   * The flag is the source's test: for the mean (n*mean == sum) and the
   * population variance (n*variance == sum (x - mean)^2), an amount is
   * flagged exactly when the variance is not zero, (x - mean)^2 > 9 *
   * variance (that is, z > 3) and x is over 100 dollars.
   */
  lemma OutlierIsZTest(xs: seq<int>, i: nat, mean: real, variance: real)
    requires i < |xs|
    requires |xs| as real * mean == Total(xs) as real
    requires |xs| as real * variance == RealSquares(xs, mean)
    ensures (Spread(xs) != 0 && IsOutlier(xs, i)) <==>
      (variance != 0.0 && (xs[i] as real - mean) * (xs[i] as real - mean) > 9.0 * variance && xs[i] > UnusualFloor)
  {
    ZTestIntegerForm(xs, i, mean, variance);
  }

  /** The flags of one account's group, in group order. */
  method FlagOutliers(account: string, group: seq<Json>, decimals: Decimals) returns (findings: seq<Finding>)
    ensures findings == GroupOutliers(account, group, decimals)
  {
    var amounts := Amounts(group);
    findings := [];
    if |amounts| < 3 {
      return;
    }
    var n := |amounts|;
    var sum := Total(amounts);
    var spread := Spread(amounts);
    if spread == 0 {
      return;
    }
    findings := ScanOutliers(account, group, amounts, sum, spread, decimals);
  }

  /** The loop over a group that has a spread, testing each amount in turn. */
  method ScanOutliers(account: string, group: seq<Json>, amounts: seq<int>, sum: int, spread: int, decimals: Decimals)
    returns (findings: seq<Finding>)
    requires amounts == Amounts(group) && sum == Total(amounts) && spread == Spread(amounts)
    ensures findings == OutliersUpTo(account, group, |group|, decimals)
  {
    var n := |amounts|;
    findings := [];
    var i := 0;
    while i < n
      invariant i <= n
      invariant findings == OutliersUpTo(account, group, i, decimals)
    {
      var deviation := n * amounts[i] - sum;
      var flagged := n * deviation * deviation > 9 * spread && amounts[i] > UnusualFloor;
      OutlierTest(amounts, i, sum, spread, deviation);
      if flagged {
        findings := findings + [UnusualFinding(account, group[i], amounts, i, decimals)];
      }
      i := i + 1;
    }
  }

  /** The loop's test on one amount is the flag. */
  lemma OutlierTest(xs: seq<int>, i: nat, sum: int, spread: int, deviation: int)
    requires i < |xs| && sum == Total(xs) && spread == Spread(xs) && deviation == |xs| * xs[i] - sum
    ensures IsOutlier(xs, i) <==> |xs| * deviation * deviation > 9 * spread && xs[i] > UnusualFloor
  {
    assert deviation == Deviations(xs)[i];
  }

  method CheckUnusualAmounts(expenses: seq<Json>, decimals: Decimals) returns (findings: seq<Finding>)
    ensures findings == UnusualAmounts(expenses, decimals)
  {
    var keys, groups := GroupBy(expenses, AccountKey);
    findings := ScanAccounts(keys, groups, expenses, decimals);
  }

  /** The loop over the accounts in first-occurrence order, flagging each one's group. */
  method ScanAccounts(keys: seq<string>, groups: map<string, seq<Json>>, expenses: seq<Json>, decimals: Decimals)
    returns (findings: seq<Finding>)
    requires forall k :: k in keys ==> k in groups && groups[k] == Group(expenses, AccountKey, k)
    ensures findings == UnusualFromKeys(keys, expenses, decimals)
  {
    findings := [];
    var j := 0;
    while j < |keys|
      invariant j <= |keys|
      invariant findings == UnusualFromKeys(keys[..j], expenses, decimals)
    {
      var account := keys[j];
      assert keys[..j + 1][..j] == keys[..j] && keys[..j + 1][j] == account;
      assert account in groups;
      var group := groups[account];
      var flagged := FlagOutliers(account, group, decimals);
      assert UnusualFromKeys(keys[..j + 1], expenses, decimals)
          == UnusualFromKeys(keys[..j], expenses, decimals) + GroupOutliers(account, group, decimals);
      findings := findings + flagged;
      j := j + 1;
    }
    assert keys[..j] == keys;
  }

  // ---------------------------------------------------- uncategorized items

  /** Lines 308-314: an empty account name, or one naming an uncategorized or suspense account. */
  predicate Uncategorized(exp: Json) {
    var name := Books.Text(Get(exp, "account_name"));
    name == "" || Contains(ToLower(name), "uncategorized") || Contains(ToLower(name), "suspense")
      || Contains(ToLower(name), "ask my accountant")
  }

  /** The total an expense adds to the uncategorized sum. */
  function UncategorizedAmount(exp: Json): int {
    if Uncategorized(exp) then Num(Get(exp, "total")) else 0
  }

  function ExpenseTotal(exp: Json): int {
    Num(Get(exp, "total"))
  }

  /** The uncategorized sum is the sum of the totals of the uncategorized expenses. */
  lemma {:induction false} UncategorizedSumIsFilteredSum(expenses: seq<Json>)
    ensures Sum(expenses, UncategorizedAmount) == Sum(Filter(expenses, Uncategorized), ExpenseTotal)
    decreases |expenses|
  {
    if |expenses| > 0 {
      UncategorizedSumIsFilteredSum(expenses[1..]);
      if Uncategorized(expenses[0]) {
        var rest := Filter(expenses[1..], Uncategorized);
        assert ([expenses[0]] + rest)[1..] == rest;
      }
    }
  }

  function UncategorizedFinding(count: nat, total: int): (f: Finding) {
    var shown := Fixed2(total);
    Finding("uncategorized_expenses", if count > 10 then "critical" else "warning",
            NatToString(count) + " uncategorized expenses totaling $" + shown,
            "Found " + NatToString(count) + " expenses that are uncategorized or in suspense accounts. Total amount: $"
              + shown + ". These should be properly categorized for accurate reporting.",
            "expense", "", total)
  }

  /** `checkUncategorized`: nothing when no expense is uncategorized, else one finding for all of them. */
  function UncategorizedFindings(expenses: seq<Json>): (r: seq<Finding>)
    ensures |r| <= 1
    ensures |r| == 0 <==> forall i :: 0 <= i < |expenses| ==> !Uncategorized(expenses[i])
    ensures |r| == 1 ==>
      && r[0].amount == Sum(expenses, UncategorizedAmount)
      && (r[0].severity == "critical" <==> Count(expenses, Uncategorized) > 10)
      && (r[0].severity == "critical" || r[0].severity == "warning")
  {
    var count := Count(expenses, Uncategorized);
    if count > 0 then [UncategorizedFinding(count, Sum(expenses, UncategorizedAmount))] else []
  }

  method CheckUncategorized(expenses: seq<Json>) returns (findings: seq<Finding>)
    ensures findings == UncategorizedFindings(expenses)
  {
    var count, total := TallyUncategorized(expenses);
    findings := [];
    if count > 0 {
      findings := [UncategorizedFinding(count, total)];
    }
  }

  /** Lines 304-318, the loop of `checkUncategorized`: how many expenses are uncategorized, and their total. */
  method TallyUncategorized(expenses: seq<Json>) returns (count: nat, total: int)
    ensures count == Count(expenses, Uncategorized)
    ensures total == Sum(expenses, UncategorizedAmount)
  {
    count, total := 0, 0;
    var i := 0;
    while i < |expenses|
      invariant i <= |expenses|
      invariant count == Count(expenses[..i], Uncategorized)
      invariant total == Sum(expenses[..i], UncategorizedAmount)
    {
      var exp := expenses[i];
      CountSnoc(expenses, i, Uncategorized);
      SumSnoc(expenses, i, UncategorizedAmount);
      if Uncategorized(exp) {
        count := count + 1;
        total := total + Num(Get(exp, "total"));
      }
      i := i + 1;
    }
    assert expenses[..i] == expenses;
  }

  // ------------------------------------------------------------ AI analysis

  /** `JSON.parse` of the bracketed span: its elements, or the SyntaxError thrown. */
  type ParseArray = string -> Result<seq<Json>, Thrown>

  /** Reading `f.findingType` of a null element throws this TypeError. */
  const NullElement: Thrown := ErrorObject("Cannot read properties of null (reading 'findingType')")

  /** Lines 417-425: every field defaulted when falsy. */
  function Defaulted(f: Json): (d: Finding)
    ensures !Truthy(Get(f, "findingType")) ==> d.findingType == "ai_finding"
    ensures !Truthy(Get(f, "severity")) ==> d.severity == "info"
    ensures !Truthy(Get(f, "title")) ==> d.title == "AI Finding"
    ensures !Truthy(Get(f, "description")) ==> d.description == ""
    ensures !Truthy(Get(f, "entityType")) ==> d.entityType == "general"
    ensures !Truthy(Get(f, "entityId")) ==> d.entityId == ""
    ensures !Truthy(Get(f, "amount")) ==> d.amount == 0
    ensures Get(f, "severity").JStr? && Get(f, "severity").s != "" ==> d.severity == Get(f, "severity").s
    ensures Get(f, "amount").JNum? ==> d.amount == Get(f, "amount").n
  {
    Finding(StrOr(Get(f, "findingType"), "ai_finding"), StrOr(Get(f, "severity"), "info"),
            StrOr(Get(f, "title"), "AI Finding"), StrOr(Get(f, "description"), ""),
            StrOr(Get(f, "entityType"), "general"), StrOr(Get(f, "entityId"), ""), Num(Get(f, "amount")))
  }

  /** Lines 429-437: the single finding left by a failed AI pass. */
  function AiError(e: Thrown): (f: Finding)
    ensures f.findingType == "ai_error" && f.severity == "info" && f.amount == 0
  {
    Finding("ai_error", "info", "AI analysis could not complete",
            "The AI deep analysis encountered an error: " + e.MessageOr("Unknown error")
              + ". Structural checks were still performed successfully.",
            "general", "", 0)
  }

  /**
   * `runAIAnalysis` after the model call: the failure of the call or of the
   * parse gives one ai_error finding, no bracketed span gives none, and
   * otherwise each parsed element becomes one defaulted finding.
   */
  function AiFindings(reply: Result<Response, Thrown>, parse: ParseArray): (r: seq<Finding>)
    ensures reply.Err? ==> r == [AiError(reply.error)]
    ensures reply.Ok? && BracketSpan(ReplyText(reply.value)).None? ==> r == []
    ensures reply.Ok? && BracketSpan(ReplyText(reply.value)).Some? ==>
      var parsed := parse(BracketSpan(ReplyText(reply.value)).value);
      && (parsed.Err? ==> r == [AiError(parsed.error)])
      && (parsed.Ok? && JNull in parsed.value ==> r == [AiError(NullElement)])
      && (parsed.Ok? && JNull !in parsed.value ==>
            |r| == |parsed.value| && forall i :: 0 <= i < |r| ==> r[i] == Defaulted(parsed.value[i]))
  {
    match reply
    case Err(e) => [AiError(e)]
    case Ok(response) =>
      match BracketSpan(ReplyText(response))
      case None => []
      case Some(span) =>
        match parse(span)
        case Err(e) => [AiError(e)]
        case Ok(items) =>
          if JNull in items then [AiError(NullElement)]
          else seq(|items|, i requires 0 <= i < |items| => Defaulted(items[i]))
  }

  // ------------------------------------------------------------- full audit

  /** The eight lists the audit reads, in reading order. */
  datatype AuditData = AuditData(
    invoices: seq<Json>, bills: seq<Json>, expenses: seq<Json>, contacts: seq<Json>,
    customerPayments: seq<Json>, vendorPayments: seq<Json>, chartOfAccounts: seq<Json>,
    bankAccounts: seq<Json>)

  /** The prompt of the AI pass, built from the data and the structural findings. */
  type AuditPrompt = (AuditData, seq<Finding>) -> string

  /** The eight ledger lists the audit reads, in reading order. */
  const AuditLists: seq<string> := [
    "listInvoices", "listBills", "listExpenses", "listContacts", "listCustomerPayments", "listVendorPayments",
    "listChartOfAccounts", "listBankAccounts"]

  /** The `i`-th read of the audit, with no filters. */
  function AuditRead(list: Lister, i: nat): Result<seq<Json>, Thrown>
    requires i < |AuditLists|
  {
    list(ListCall(AuditLists[i], map[]))
  }

  /** The first `n` reads in order, stopping at the first that throws. */
  function ReadAll(list: Lister, n: nat): (r: Result<seq<seq<Json>>, Thrown>)
    requires n <= |AuditLists|
    ensures r.Ok? <==> forall i :: 0 <= i < n ==> AuditRead(list, i).Ok?
    ensures r.Ok? ==> |r.value| == n && forall i :: 0 <= i < n ==> r.value[i] == AuditRead(list, i).value
    ensures r.Err? ==>
      exists i :: (0 <= i < n && AuditRead(list, i).Err? && r.error == AuditRead(list, i).error
                   && forall j :: 0 <= j < i ==> AuditRead(list, j).Ok?)
  {
    if n == 0 then Ok([])
    else
      match ReadAll(list, n - 1)
      case Err(e) => Err(e)
      case Ok(prefix) =>
        match AuditRead(list, n - 1)
        case Err(e) => Err(e)
        case Ok(records) => Ok(prefix + [records])
  }

  /**
   * Lines 32-54: the eight reads in order; the audit has its data when all
   * of them return, and otherwise fails with the error of the first that
   * throws.
   */
  function FetchAuditData(list: Lister): (r: Result<AuditData, Thrown>)
    ensures r.Ok? <==> forall i :: 0 <= i < |AuditLists| ==> AuditRead(list, i).Ok?
    ensures r.Ok? ==>
      && r.value.invoices == AuditRead(list, 0).value && r.value.bills == AuditRead(list, 1).value
      && r.value.expenses == AuditRead(list, 2).value && r.value.customerPayments == AuditRead(list, 4).value
    ensures r.Err? ==>
      exists i :: (0 <= i < |AuditLists| && AuditRead(list, i).Err? && r.error == AuditRead(list, i).error
                   && forall j :: 0 <= j < i ==> AuditRead(list, j).Ok?)
  {
    match ReadAll(list, |AuditLists|)
    case Err(e) => Err(e)
    case Ok(rs) => Ok(AuditData(rs[0], rs[1], rs[2], rs[3], rs[4], rs[5], rs[6], rs[7]))
  }

  /**
   * Lines 59-75: the five checks in order. Every structural finding is
   * critical, a warning or info; only the AI pass can produce a finding of
   * another severity.
   */
  function StructuralFindings(data: AuditData, now: int, parseDate: string -> Option<int>, decimals: Decimals)
    : (r: seq<Finding>)
    ensures forall f :: f in r ==> KnownSeverity(f)
  {
    var overdue := Collect(data.invoices, OverdueRule(now, parseDate));
    var duplicates := Duplicates(data.invoices, data.bills);
    var payments := PaymentMismatches(data.invoices, data.customerPayments);
    var unusual := UnusualAmounts(data.expenses, decimals);
    var uncategorized := UncategorizedFindings(data.expenses);
    assert forall f :: f in overdue ==> KnownSeverity(f) by {
      OverdueSeveritiesKnown(data.invoices, now, parseDate);
    }
    assert forall f :: f in duplicates ==> KnownSeverity(f) by {
      DuplicateSeveritiesKnown(data.invoices, data.bills);
    }
    assert forall f :: f in payments ==> KnownSeverity(f) by {
      PaymentSeveritiesKnown(data.invoices, data.customerPayments);
    }
    assert forall f :: f in unusual ==> KnownSeverity(f);
    assert forall f :: f in uncategorized ==> KnownSeverity(f);
    overdue + duplicates + payments + unusual + uncategorized
  }

  /** The single user turn of the AI pass. */
  function AuditRequest(prompt: string): seq<Message> {
    [Message(User, Plain(prompt))]
  }

  /** `runFullAudit`'s result: the structural findings, then those of the AI pass. */
  function FullAudit(list: Lister, model: Model, prompt: AuditPrompt, parse: ParseArray,
                     now: int, parseDate: string -> Option<int>, decimals: Decimals): (r: Result<seq<Finding>, Thrown>)
    ensures r.Err? <==> FetchAuditData(list).Err?
    ensures r.Err? ==> r.error == FetchAuditData(list).error
  {
    match FetchAuditData(list)
    case Err(e) => Err(e)
    case Ok(data) =>
      var structural := StructuralFindings(data, now, parseDate, decimals);
      Ok(structural + AiFindings(model(AuditRequest(prompt(data, structural))), parse))
  }

  /**
   * The AI pass never drops structural findings: whatever the model or the
   * parser does, the structural findings come first and intact.
   */
  lemma AiPassKeepsStructuralFindings(list: Lister, model: Model, prompt: AuditPrompt, parse: ParseArray,
                                      now: int, parseDate: string -> Option<int>, decimals: Decimals)
    requires FetchAuditData(list).Ok?
    ensures var structural := StructuralFindings(FetchAuditData(list).value, now, parseDate, decimals);
      var r := FullAudit(list, model, prompt, parse, now, parseDate, decimals);
      r.Ok? && IsPrefixOf(structural, r.value) && |r.value| >= |structural|
  {
    var structural := StructuralFindings(FetchAuditData(list).value, now, parseDate, decimals);
    var r := FullAudit(list, model, prompt, parse, now, parseDate, decimals);
    assert r.value[..|structural|] == structural;
  }

  /** The three severities of the structural checks' result type. */
  predicate KnownSeverity(f: Finding) {
    f.severity == "critical" || f.severity == "warning" || f.severity == "info"
  }

  lemma {:induction false} OutliersAreWarnings(account: string, group: seq<Json>, k: nat, decimals: Decimals)
    requires k <= |group|
    ensures forall f :: f in OutliersUpTo(account, group, k, decimals) ==> IsUnusualWarning(f)
    decreases k
  {
    if k > 0 {
      OutliersAreWarnings(account, group, k - 1, decimals);
    }
  }

  lemma {:induction false} UnusualAreWarnings(keys: seq<string>, expenses: seq<Json>, decimals: Decimals)
    ensures forall f :: f in UnusualFromKeys(keys, expenses, decimals) ==> IsUnusualWarning(f)
    decreases |keys|
  {
    if |keys| > 0 {
      var account := keys[|keys| - 1];
      var group := Group(expenses, AccountKey, account);
      UnusualAreWarnings(keys[..|keys| - 1], expenses, decimals);
      OutliersAreWarnings(account, group, |group|, decimals);
    }
  }

  /**
   * Every structural finding is critical, a warning or info; only the AI
   * pass can produce a finding of another severity.
   */
  lemma OverdueSeveritiesKnown(invoices: seq<Json>, now: int, parseDate: string -> Option<int>)
    ensures forall f :: f in Collect(invoices, OverdueRule(now, parseDate)) ==> KnownSeverity(f)
  {
    forall f | f in Collect(invoices, OverdueRule(now, parseDate))
      ensures KnownSeverity(f)
    {
      OverdueFindingsAreAged(invoices, now, parseDate, f);
    }
  }

  lemma DuplicateSeveritiesKnown(invoices: seq<Json>, bills: seq<Json>)
    ensures forall f :: f in Duplicates(invoices, bills) ==> f.severity == "warning"
  {
    forall f | f in DuplicatesOf(invoices, InvoiceRecords)
      ensures f.severity == "warning"
    {
      DuplicateWarningsAreGroups(invoices, InvoiceRecords, f);
    }
    forall f | f in DuplicatesOf(bills, BillRecords)
      ensures f.severity == "warning"
    {
      DuplicateWarningsAreGroups(bills, BillRecords, f);
    }
  }

  lemma PaymentSeveritiesKnown(invoices: seq<Json>, payments: seq<Json>)
    ensures forall f :: f in PaymentMismatches(invoices, payments) ==> KnownSeverity(f)
  {
    forall f | f in Collect(invoices, MismatchFinding)
      ensures f.severity == "critical"
    {
      CollectMember(invoices, MismatchFinding, f);
    }
    forall f | f in Collect(payments, ExcessFinding)
      ensures f.severity == "info"
    {
      CollectMember(payments, ExcessFinding, f);
    }
  }

  // ------------------------------------------------------------------ store

  /** A saved finding (the `auditFinding` table). */
  datatype StoredFinding = StoredFinding(
    id: string, finding: Finding, status: string,
    resolution: Option<string>, resolvedAt: Option<string>, createdAt: string)

  /** Lines 99-110: the rows saved for `findings`, each "open". */
  function Persisted(findings: seq<Finding>, newId: nat -> string, createdAt: string): (rows: seq<StoredFinding>)
    ensures |rows| == |findings|
    ensures forall k :: 0 <= k < |rows| ==>
      rows[k] == StoredFinding(newId(k), findings[k], "open", None, None, createdAt)
  {
    seq(|findings|, k requires 0 <= k < |findings| => StoredFinding(newId(k), findings[k], "open", None, None, createdAt))
  }

  lemma PersistedSnoc(findings: seq<Finding>, k: nat, newId: nat -> string, createdAt: string)
    requires k < |findings|
    ensures Persisted(findings[..k + 1], newId, createdAt)
      == Persisted(findings[..k], newId, createdAt) + [StoredFinding(newId(k), findings[k], "open", None, None, createdAt)]
  {
  }

  /** The equality filters of `getAuditFindings`; None applies no filter. */
  datatype Filters = Filters(severity: Option<string>, status: Option<string>, findingType: Option<string>)

  predicate Matches(row: StoredFinding, filters: Filters) {
    && (filters.severity.Some? ==> row.finding.severity == filters.severity.value)
    && (filters.status.Some? ==> row.status == filters.status.value)
    && (filters.findingType.Some? ==> row.finding.findingType == filters.findingType.value)
  }

  /**
   * The rows satisfying every present filter, in store order: every
   * matching row and nothing else, each drawn from the store, in the
   * store's order.
   */
  function Select(rows: seq<StoredFinding>, filters: Filters): (r: seq<StoredFinding>)
    ensures |r| <= |rows|
    ensures forall i :: 0 <= i < |r| ==> Matches(r[i], filters)
    ensures forall i :: 0 <= i < |rows| && Matches(rows[i], filters) ==> rows[i] in r
    ensures multiset(r) <= multiset(rows)
    ensures IsSubsequence(r, rows)
  {
    FilterIsSubsequence(rows, row => Matches(row, filters));
    Filter(rows, row => Matches(row, filters))
  }

  /** With no filter present, every row is returned. */
  lemma {:induction false} SelectWithoutFilters(rows: seq<StoredFinding>)
    ensures Select(rows, Filters(None, None, None)) == rows
    decreases |rows|
  {
    if |rows| > 0 {
      SelectWithoutFilters(rows[1..]);
      assert [rows[0]] + rows[1..] == rows;
    }
  }

  /** The first row with the id. */
  function FindRow(rows: seq<StoredFinding>, id: string): (r: Option<nat>)
    ensures r.None? <==> forall i :: 0 <= i < |rows| ==> rows[i].id != id
    ensures r.Some? ==> r.value < |rows| && rows[r.value].id == id
    ensures r.Some? ==> forall i :: 0 <= i < r.value ==> rows[i].id != id
    decreases |rows|
  {
    if |rows| == 0 then None
    else if rows[0].id == id then Some(0)
    else match FindRow(rows[1..], id)
      case None => None
      case Some(i) => Some(i + 1)
  }

  /** The `auditFinding` table. */
  class FindingStore {
    var rows: seq<StoredFinding>

    constructor ()
      ensures rows == []
    {
      rows := [];
    }

    /** `prisma.auditFinding.create` */
    method Create(row: StoredFinding)
      modifies this
      ensures rows == old(rows) + [row]
    {
      rows := rows + [row];
    }

    /** Lines 99-110: one `create` per finding, in order, each "open". */
    method CreateAll(findings: seq<Finding>, newId: nat -> string, createdAt: string)
      modifies this
      ensures rows == old(rows) + Persisted(findings, newId, createdAt)
    {
      var k := 0;
      while k < |findings|
        invariant k <= |findings|
        invariant rows == old(rows) + Persisted(findings[..k], newId, createdAt)
      {
        var row := StoredFinding(newId(k), findings[k], "open", None, None, createdAt);
        PersistedSnoc(findings, k, newId, createdAt);
        Create(row);
        k := k + 1;
      }
      assert findings[..k] == findings;
    }

    /** `prisma.auditFinding.deleteMany({})`: every finding, open or resolved. */
    method DeleteAll()
      modifies this
      ensures rows == []
    {
      rows := [];
    }

    /** `getAuditFindings`: the rows matching the filters (the query's ordering is not modelled). */
    function Query(filters: Filters): (r: seq<StoredFinding>)
      reads this
      ensures r == Select(rows, filters)
    {
      Select(rows, filters)
    }

    /**
     * `resolveAuditFinding`: status "resolved", the resolution and its time
     * on the row with the id; the update throws `missing` when there is none.
     */
    method Resolve(id: string, resolution: string, resolvedAt: string, missing: Thrown)
      returns (r: Result<StoredFinding, Thrown>)
      modifies this
      ensures FindRow(old(rows), id).None? ==> r == Err(missing) && rows == old(rows)
      ensures FindRow(old(rows), id).Some? ==>
        var i := FindRow(old(rows), id).value;
        var updated := old(rows)[i].(status := "resolved", resolution := Some(resolution), resolvedAt := Some(resolvedAt));
        r == Ok(updated) && rows == old(rows)[i := updated]
    {
      var found := FindRow(rows, id);
      if found.None? {
        return Err(missing);
      }
      var updated := rows[found.value].(status := "resolved", resolution := Some(resolution), resolvedAt := Some(resolvedAt));
      rows := rows[found.value := updated];
      r := Ok(updated);
    }
  }

  /**
   * `runFullAudit`: read the ledger, run the five checks and the AI pass,
   * save every finding once as "open", and return them. `newId` and
   * `createdAt` are the ids and the time the store gives the saved rows.
   */
  method RunFullAudit(store: FindingStore, list: Lister, model: Model, prompt: AuditPrompt, parse: ParseArray,
                      now: int, parseDate: string -> Option<int>, decimals: Decimals, newId: nat -> string, createdAt: string)
    returns (r: Result<seq<Finding>, Thrown>)
    modifies store
    ensures r == FullAudit(list, model, prompt, parse, now, parseDate, decimals)
    ensures r.Err? ==> store.rows == old(store.rows)
    ensures r.Ok? ==> store.rows == old(store.rows) + Persisted(r.value, newId, createdAt)
  {
    var fetched := FetchAuditData(list);
    if fetched.Err? {
      return Err(fetched.error);
    }
    var data := fetched.value;
    var structural := RunStructuralChecks(data, now, parseDate, decimals);
    var reply := model(AuditRequest(prompt(data, structural)));
    var findings := structural + AiFindings(reply, parse);
    store.CreateAll(findings, newId, createdAt);
    r := Ok(findings);
  }

  /** Lines 59-75: the five checks, run in order. */
  method RunStructuralChecks(data: AuditData, now: int, parseDate: string -> Option<int>, decimals: Decimals)
    returns (findings: seq<Finding>)
    ensures findings == StructuralFindings(data, now, parseDate, decimals)
  {
    findings := CheckOverdueInvoices(data.invoices, now, parseDate);
    var duplicates := CheckDuplicates(data.invoices, data.bills);
    findings := findings + duplicates;
    var mismatches := CheckPaymentMismatches(data.invoices, data.customerPayments);
    findings := findings + mismatches;
    var unusual := CheckUnusualAmounts(data.expenses, decimals);
    findings := findings + unusual;
    var uncategorized := CheckUncategorized(data.expenses);
    findings := findings + uncategorized;
  }
}
