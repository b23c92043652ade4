/**
 * Reading the ledger's records: the list endpoints (every page of a list,
 * or the error thrown), and the field coercions the callers apply to the
 * loosely typed records they get back. Money is in integer cents.
 */
module Books {
  import opened Wrappers
  import opened Strings
  import opened Json
  import opened ToolExecutor

  /**
   * The list endpoints of the ledger client (`listInvoices`, `listBills`, …):
   * all records of the list, or the error thrown by any page.
   */
  type Lister = LedgerCall -> Result<seq<Json>, Thrown>

  /** A list call with the given query parameters. */
  function ListCall(fn: string, params: map<string, string>): LedgerCall {
    LedgerCall(fn, [Params(params)])
  }

  /** `promise.catch(() => [])`: a failed read counts as an empty list. */
  function OrEmpty(r: Result<seq<Json>, Thrown>): (records: seq<Json>)
    ensures r.Ok? ==> records == r.value
    ensures r.Err? ==> records == []
  {
    match r
    case Ok(records) => records
    case Err(_) => []
  }

  /** `(record.field as number) || 0` on a money field, in cents. */
  function Num(v: Json): int {
    if v.JNum? then v.n else 0
  }

  /** `(record.total as number) || 0` */
  function TotalOf(record: Json): int {
    Num(Get(record, "total"))
  }

  /** `(record.balance as number) || 0` */
  function BalanceOf(record: Json): int {
    Num(Get(record, "balance"))
  }

  /** `record.status === status` */
  predicate IsStatus(record: Json, status: string) {
    Get(record, "status") == JStr(status)
  }

  /** A bank account as the dashboard and the transactions page list it. */
  function AccountEntry(a: Json): (e: Json)
    ensures Get(e, "id") == Get(a, "account_id") && Get(e, "name") == Get(a, "account_name")
    ensures Get(e, "balance") == Get(a, "balance") && Get(e, "type") == Get(a, "account_type")
  {
    JObj(map["id" := Get(a, "account_id"), "name" := Get(a, "account_name"), "balance" := Get(a, "balance"),
             "type" := Get(a, "account_type")])
  }

  /** `(record.field as string) || ""` on a text field. */
  function Text(v: Json): string {
    if v.JStr? then v.s else ""
  }

  /** The fraction digits JavaScript prints for a number of cents below 100: none, one or two. */
  function CentsText(r: nat): string
    requires r < 100
  {
    if r == 0 then ""
    else if r % 10 == 0 then "." + [DigitChar(r / 10)]
    else "." + [DigitChar(r / 10), DigitChar(r % 10)]
  }

  /** `String(amount)` for an amount of dollars given in cents: 1050 reads "10.5". */
  function DollarText(cents: int): string {
    var a := if cents < 0 then -cents else cents;
    (if cents < 0 then "-" else "") + NatToString(a / 100) + CentsText(a % 100)
  }

  /** `amount.toFixed(2)` for an amount of dollars given in cents: 1050 reads "10.50". */
  function Fixed2(cents: int): string {
    var a := if cents < 0 then -cents else cents;
    (if cents < 0 then "-" else "") + NatToString(a / 100) + "." + [DigitChar(a % 100 / 10), DigitChar(a % 10)]
  }

  /** A money field interpolated into a template string: a number in dollars, anything else by `String()`. */
  function Dollars(v: Json): string {
    if v.JNum? then DollarText(v.n) else ToJsString(v)
  }
}
