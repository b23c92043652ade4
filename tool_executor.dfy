/**
 * `executeToolCall`: maps a tool name chosen by the model and its JSON input
 * to one ledger operation, runs it, and wraps the outcome in a
 * `{ success, data | error }` envelope. The ledger is an oracle; a thrown
 * error is one of its possible results.
 */
module ToolExecutor {
  import opened Wrappers
  import opened Json

  /** One argument handed to a ledger function. */
  datatype Arg =
    | Params(params: map<string, string>)
    | Id(id: string)
    | Payload(payload: Json)

  /** A call of the ledger client: its function name and its arguments, in order. */
  datatype LedgerCall = LedgerCall(fn: string, args: seq<Arg>)

  /** The ledger: answers a call with data, or throws. */
  type Ledger = LedgerCall -> Result<Json, Thrown>

  /** The tool-result envelope. */
  datatype ToolOutcome = Success(data: Json) | Failure(error: string)

  /** The names of the switch's list section. */
  const ListToolNames: set<string> := {
    "list_invoices", "list_bills", "list_expenses", "list_contacts", "list_bank_accounts",
    "list_bank_transactions", "list_chart_of_accounts", "list_journals",
    "list_customer_payments", "list_vendor_payments", "list_credit_notes", "list_items",
    "list_taxes"
  }

  /** The names of the single-record section. */
  const GetToolNames: set<string> := {
    "get_invoice", "get_bill", "get_expense", "get_contact", "get_bank_account", "get_organization"
  }

  /** The names of the create section. */
  const CreateToolNames: set<string> := {
    "create_invoice", "create_bill", "create_expense", "create_contact",
    "create_customer_payment", "create_vendor_payment", "create_journal_entry",
    "create_bank_transaction"
  }

  /** The names of the update section. */
  const UpdateToolNames: set<string> := {"update_invoice", "update_bill", "update_expense", "update_contact"}

  /** The names of the actions section. */
  const ActionToolNames: set<string> := {
    "send_invoice", "mark_invoice_sent", "categorize_transaction", "match_bank_transaction",
    "get_uncategorized_transactions", "get_matching_transactions"
  }

  /** The 37 names the dispatcher recognises. */
  const DispatchedTools: set<string> := {
    "list_invoices", "list_bills", "list_expenses", "list_contacts", "list_bank_accounts",
    "list_bank_transactions", "list_chart_of_accounts", "list_journals",
    "list_customer_payments", "list_vendor_payments", "list_credit_notes", "list_items",
    "list_taxes",
    "get_invoice", "get_bill", "get_expense", "get_contact", "get_bank_account",
    "get_organization",
    "create_invoice", "create_bill", "create_expense", "create_contact",
    "create_customer_payment", "create_vendor_payment", "create_journal_entry",
    "create_bank_transaction",
    "update_invoice", "update_bill", "update_expense", "update_contact",
    "send_invoice", "mark_invoice_sent", "categorize_transaction", "match_bank_transaction",
    "get_uncategorized_transactions", "get_matching_transactions"
  }

  /** The dispatched names are those of the switch's five sections. */
  lemma DispatchedBySection()
    ensures DispatchedTools == ListToolNames + GetToolNames + CreateToolNames + UpdateToolNames + ActionToolNames
  {
  }

  /**
   * `toStringParams`: the entries whose value is not undefined, null or an
   * object, each converted with `String()`.
   */
  function StringParams(input: map<string, Json>): (params: map<string, string>)
    ensures forall k :: k in params <==> k in input && IsPrimitive(input[k])
    ensures forall k :: k in params ==> params[k] == ToJsString(input[k])
  {
    map k | k in input && IsPrimitive(input[k]) :: ToJsString(input[k])
  }

  /** The loop of `toStringParams`, one entry of the input at a time. */
  method ToStringParams(input: map<string, Json>) returns (params: map<string, string>)
    ensures params == StringParams(input)
  {
    params := map[];
    var pending := input.Keys;
    while pending != {}
      invariant pending <= input.Keys
      invariant forall k :: k in params <==> k in input && k !in pending && IsPrimitive(input[k])
      invariant forall k :: k in params ==> params[k] == ToJsString(input[k])
      decreases |pending|
    {
      var key :| key in pending;
      var value := input[key];
      if value != JUndefined && value != JNull && !value.JArr? && !value.JObj? {
        params := params[key := ToJsString(value)];
      }
      pending := pending - {key};
    }
  }

  /** `String(input[key])`: a missing key becomes "undefined". */
  function IdOf(input: map<string, Json>, key: string): Arg {
    Id(ToJsString(Get(JObj(input), key)))
  }

  function PayloadOf(input: map<string, Json>, key: string): Arg {
    Payload(Get(JObj(input), key))
  }

  /** `input[key] || {}` */
  function PayloadOrEmpty(input: map<string, Json>, key: string): Arg {
    Payload(Or(Get(JObj(input), key), JObj(map[])))
  }

  /** The ledger call the switch of `executeToolCall` makes for a tool, if it knows the tool. */
  function Dispatch(name: string, input: map<string, Json>): (r: Option<LedgerCall>)
    ensures r.Some? <==> name in DispatchedTools
  {
    var p := Params(StringParams(input));
    match name
    case "list_invoices" => Some(LedgerCall("listInvoices", [p]))
    case "list_bills" => Some(LedgerCall("listBills", [p]))
    case "list_expenses" => Some(LedgerCall("listExpenses", [p]))
    case "list_contacts" => Some(LedgerCall("listContacts", [p]))
    case "list_bank_accounts" => Some(LedgerCall("listBankAccounts", [p]))
    case "list_bank_transactions" =>
      Some(LedgerCall("listBankTransactions",
        [Id(ToJsString(Or(Get(JObj(input), "account_id"), JStr("")))), p]))
    case "list_chart_of_accounts" => Some(LedgerCall("listChartOfAccounts", [p]))
    case "list_journals" => Some(LedgerCall("listJournals", [p]))
    case "list_customer_payments" => Some(LedgerCall("listCustomerPayments", [p]))
    case "list_vendor_payments" => Some(LedgerCall("listVendorPayments", [p]))
    case "list_credit_notes" => Some(LedgerCall("listCreditNotes", [p]))
    case "list_items" => Some(LedgerCall("listItems", [p]))
    case "list_taxes" => Some(LedgerCall("listTaxes", []))
    case "get_invoice" => Some(LedgerCall("getInvoice", [IdOf(input, "invoice_id")]))
    case "get_bill" => Some(LedgerCall("getBill", [IdOf(input, "bill_id")]))
    case "get_expense" => Some(LedgerCall("getExpense", [IdOf(input, "expense_id")]))
    case "get_contact" => Some(LedgerCall("getContact", [IdOf(input, "contact_id")]))
    case "get_bank_account" => Some(LedgerCall("getBankAccount", [IdOf(input, "account_id")]))
    case "get_organization" => Some(LedgerCall("getOrganization", []))
    case "create_invoice" => Some(LedgerCall("createInvoice", [PayloadOf(input, "invoice_data")]))
    case "create_bill" => Some(LedgerCall("createBill", [PayloadOf(input, "bill_data")]))
    case "create_expense" => Some(LedgerCall("createExpense", [PayloadOf(input, "expense_data")]))
    case "create_contact" => Some(LedgerCall("createContact", [PayloadOf(input, "contact_data")]))
    case "create_customer_payment" =>
      Some(LedgerCall("createCustomerPayment", [PayloadOf(input, "payment_data")]))
    case "create_vendor_payment" =>
      Some(LedgerCall("createVendorPayment", [PayloadOf(input, "payment_data")]))
    case "create_journal_entry" =>
      Some(LedgerCall("createJournalEntry", [PayloadOf(input, "journal_data")]))
    case "create_bank_transaction" =>
      Some(LedgerCall("createBankTransaction", [PayloadOf(input, "transaction_data")]))
    case "update_invoice" =>
      Some(LedgerCall("updateInvoice", [IdOf(input, "invoice_id"), PayloadOf(input, "invoice_data")]))
    case "update_bill" =>
      Some(LedgerCall("updateBill", [IdOf(input, "bill_id"), PayloadOf(input, "bill_data")]))
    case "update_expense" =>
      Some(LedgerCall("updateExpense", [IdOf(input, "expense_id"), PayloadOf(input, "expense_data")]))
    case "update_contact" =>
      Some(LedgerCall("updateContact", [IdOf(input, "contact_id"), PayloadOf(input, "contact_data")]))
    case "send_invoice" =>
      Some(LedgerCall("sendInvoice", [IdOf(input, "invoice_id"), PayloadOrEmpty(input, "email_data")]))
    case "mark_invoice_sent" => Some(LedgerCall("markInvoiceAsSent", [IdOf(input, "invoice_id")]))
    case "categorize_transaction" =>
      Some(LedgerCall("categorizeTransaction",
        [IdOf(input, "transaction_id"), IdOf(input, "account_id"), PayloadOrEmpty(input, "transaction_data")]))
    case "match_bank_transaction" =>
      Some(LedgerCall("matchBankTransaction", [IdOf(input, "transaction_id"), PayloadOf(input, "match_data")]))
    case "get_uncategorized_transactions" =>
      Some(LedgerCall("getUncategorizedTransactions", [IdOf(input, "account_id")]))
    case "get_matching_transactions" =>
      Some(LedgerCall("getMatchingTransactions", [IdOf(input, "transaction_id")]))
    case _ => None
  }

  /** The error text of the catch block: the message of an `Error`, or a generic one. */
  function FailureText(name: string, thrown: Thrown): string {
    thrown.MessageOr("Tool " + name + " failed")
  }

  /**
   * `executeToolCall`. It is total: an unknown name fails without a ledger
   * call; a known one succeeds with the ledger's data, or fails with the
   * message of what the ledger threw.
   */
  function ExecuteToolCall(ledger: Ledger, name: string, input: map<string, Json>): (o: ToolOutcome)
    ensures name !in DispatchedTools ==> o == Failure("Unknown tool: " + name)
    ensures name in DispatchedTools && ledger(Dispatch(name, input).value).Ok? ==>
      o == Success(ledger(Dispatch(name, input).value).value)
    ensures name in DispatchedTools && ledger(Dispatch(name, input).value).Err? ==>
      o == Failure(FailureText(name, ledger(Dispatch(name, input).value).error))
  {
    match Dispatch(name, input)
    case None => Failure("Unknown tool: " + name)
    case Some(call) =>
      match ledger(call)
      case Ok(data) => Success(data)
      case Err(thrown) => Failure(FailureText(name, thrown))
  }

  /** The envelope as the JSON object that is serialised for the model. */
  function OutcomeJson(o: ToolOutcome): (j: Json)
    ensures j.JObj? && "success" in j.fields && j.fields["success"] == JBool(o.Success?)
  {
    match o
    case Success(data) => JObj(map["success" := JBool(true), "data" := data])
    case Failure(error) => JObj(map["success" := JBool(false), "error" := JStr(error)])
  }

  /** An unknown tool never reaches the ledger: the result is the same whatever the ledger does. */
  lemma UnknownToolMakesNoCall(l1: Ledger, l2: Ledger, name: string, input: map<string, Json>)
    requires name !in DispatchedTools
    ensures ExecuteToolCall(l1, name, input) == ExecuteToolCall(l2, name, input)
    ensures ExecuteToolCall(l1, name, input).Failure?
  {
  }

  /** `list_bank_transactions` without an account id asks the ledger for account "". */
  lemma MissingAccountIdDefaultsToEmpty(input: map<string, Json>)
    requires "account_id" !in input
    ensures Dispatch("list_bank_transactions", input).value.args[0] == Id("")
  {
  }

  /** `get_*` tools coerce the id with `String()`, so a missing id is sent as "undefined". */
  lemma MissingIdBecomesUndefined(input: map<string, Json>)
    requires "invoice_id" !in input
    ensures Dispatch("get_invoice", input).value.args == [Id("undefined")]
  {
  }

  /** Missing `email_data` and `transaction_data` default to the empty object. */
  lemma MissingPayloadsDefaultToEmpty(input: map<string, Json>)
    requires "email_data" !in input && "transaction_data" !in input
    ensures Dispatch("send_invoice", input).value.args[1] == Payload(JObj(map[]))
    ensures Dispatch("categorize_transaction", input).value.args[2] == Payload(JObj(map[]))
  {
  }

  /** `list_taxes` ignores its input. */
  lemma ListTaxesIgnoresInput(a: map<string, Json>, b: map<string, Json>)
    ensures Dispatch("list_taxes", a) == Dispatch("list_taxes", b)
  {
  }
}
