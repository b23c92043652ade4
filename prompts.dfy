/**
 * The tool catalog offered to the model and the report prompt table, as
 * constant data. Tool descriptions and the prompt texts themselves are
 * left out; what is kept is what the dispatcher and the report route
 * depend on: names, input-schema property names, required names, and the
 * report keys.
 */
module Prompts {
  import opened ToolExecutor

  /** One entry of the catalog: `{ name, input_schema: { type, properties, required } }`. */
  datatype ToolSpec = ToolSpec(name: string, schemaType: string, properties: seq<string>, required: seq<string>)

  function Tool(name: string, properties: seq<string>, required: seq<string>): ToolSpec {
    ToolSpec(name, "object", properties, required)
  }

  /** The list section: every collection the ledger can read. */
  const ListTools: seq<ToolSpec> := [
    Tool("list_invoices", ["status", "date_start", "date_end", "customer_id", "sort_column"], []),
    Tool("list_bills", ["status", "date_start", "date_end", "vendor_id"], []),
    Tool("list_expenses", ["status", "date_start", "date_end", "account_name"], []),
    Tool("list_contacts", ["contact_type", "status"], []),
    Tool("list_bank_accounts", [], []),
    Tool("list_bank_transactions", ["account_id", "date_start", "date_end", "status"], ["account_id"]),
    Tool("list_chart_of_accounts", ["account_type"], []),
    Tool("list_journals", ["date_start", "date_end"], []),
    Tool("list_customer_payments", [], []),
    Tool("list_vendor_payments", [], []),
    Tool("list_credit_notes", [], []),
    Tool("list_items", [], []),
    Tool("list_taxes", [], [])
  ]

  /** The single-record section. */
  const GetTools: seq<ToolSpec> := [
    Tool("get_invoice", ["invoice_id"], ["invoice_id"]),
    Tool("get_bill", ["bill_id"], ["bill_id"]),
    Tool("get_expense", ["expense_id"], ["expense_id"]),
    Tool("get_contact", ["contact_id"], ["contact_id"]),
    Tool("get_bank_account", ["account_id"], ["account_id"]),
    Tool("get_organization", [], [])
  ]

  /** The create section. */
  const CreateTools: seq<ToolSpec> := [
    Tool("create_invoice", ["invoice_data"], ["invoice_data"]),
    Tool("create_bill", ["bill_data"], ["bill_data"]),
    Tool("create_expense", ["expense_data"], ["expense_data"]),
    Tool("create_customer_payment", ["payment_data"], ["payment_data"]),
    Tool("create_vendor_payment", ["payment_data"], ["payment_data"]),
    Tool("create_journal_entry", ["journal_data"], ["journal_data"]),
    Tool("create_contact", ["contact_data"], ["contact_data"])
  ]

  /** The update section. */
  const UpdateTools: seq<ToolSpec> := [
    Tool("update_invoice", ["invoice_id", "invoice_data"], ["invoice_id", "invoice_data"]),
    Tool("update_bill", ["bill_id", "bill_data"], ["bill_id", "bill_data"]),
    Tool("update_expense", ["expense_id", "expense_data"], ["expense_id", "expense_data"])
  ]

  /** The actions section. */
  const ActionTools: seq<ToolSpec> := [
    Tool("send_invoice", ["invoice_id", "email_data"], ["invoice_id"]),
    Tool("categorize_transaction", ["transaction_id", "account_id", "transaction_data"], ["transaction_id", "account_id"]),
    Tool("match_bank_transaction", ["transaction_id", "match_data"], ["transaction_id", "match_data"]),
    Tool("get_uncategorized_transactions", ["account_id"], ["account_id"]),
    Tool("get_matching_transactions", ["transaction_id"], ["transaction_id"])
  ]

  /** `BOOKKEEPER_TOOLS`, section by section. */
  const BookkeeperTools: seq<ToolSpec> := ListTools + GetTools + CreateTools + UpdateTools + ActionTools

  /** The names the catalog offers. */
  function CatalogNames(tools: seq<ToolSpec>): (names: set<string>)
    ensures forall i :: 0 <= i < |tools| ==> tools[i].name in names
    ensures forall n :: n in names ==> exists i :: 0 <= i < |tools| && tools[i].name == n
  {
    set i | 0 <= i < |tools| :: tools[i].name
  }

  predicate NamesDistinct(tools: seq<ToolSpec>) {
    forall i, j :: 0 <= i < j < |tools| ==> tools[i].name != tools[j].name
  }

  predicate SchemasWellFormed(tools: seq<ToolSpec>) {
    forall i :: 0 <= i < |tools| ==>
      tools[i].schemaType == "object" &&
      forall r :: r in tools[i].required ==> r in tools[i].properties
  }

  lemma NamesDistinctFrom0()
    ensures forall i, j :: 0 <= i < 6 && i < j < |BookkeeperTools| ==> BookkeeperTools[i].name != BookkeeperTools[j].name
  {
  }

  lemma NamesDistinctFrom6()
    ensures forall i, j :: 6 <= i < 12 && i < j < |BookkeeperTools| ==> BookkeeperTools[i].name != BookkeeperTools[j].name
  {
  }

  lemma NamesDistinctFrom12()
    ensures forall i, j :: 12 <= i < 18 && i < j < |BookkeeperTools| ==> BookkeeperTools[i].name != BookkeeperTools[j].name
  {
  }

  lemma NamesDistinctFrom18()
    ensures forall i, j :: 18 <= i < 24 && i < j < |BookkeeperTools| ==> BookkeeperTools[i].name != BookkeeperTools[j].name
  {
  }

  lemma NamesDistinctFrom24()
    ensures forall i, j :: 24 <= i < 30 && i < j < |BookkeeperTools| ==> BookkeeperTools[i].name != BookkeeperTools[j].name
  {
  }

  lemma NamesDistinctFrom30()
    ensures forall i, j :: 30 <= i < 33 && i < j < |BookkeeperTools| ==> BookkeeperTools[i].name != BookkeeperTools[j].name
  {
  }

  /** Every tool name in the catalog is distinct from every other. */
  lemma CatalogNamesDistinct()
    ensures |BookkeeperTools| == 34
    ensures NamesDistinct(BookkeeperTools)
  {
    NamesDistinctFrom0();
    NamesDistinctFrom6();
    NamesDistinctFrom12();
    NamesDistinctFrom18();
    NamesDistinctFrom24();
    NamesDistinctFrom30();
  }

  /** Every schema is an object schema and every required name is one of its properties. */
  lemma CatalogSchemasWellFormed()
    ensures SchemasWellFormed(BookkeeperTools)
  {
  }

  /** The three dispatched tools that the model is never offered. */
  const UncataloguedTools: set<string> := {"create_bank_transaction", "update_contact", "mark_invoice_sent"}

  /** The names of a concatenation are the names of its parts. */
  lemma CatalogNamesAppend(a: seq<ToolSpec>, b: seq<ToolSpec>)
    ensures CatalogNames(a + b) == CatalogNames(a) + CatalogNames(b)
  {
    var ab := a + b;
    forall n | n in CatalogNames(ab)
      ensures n in CatalogNames(a) + CatalogNames(b)
    {
      var i :| 0 <= i < |ab| && ab[i].name == n;
      if i < |a| {
        assert a[i].name == n;
      } else {
        assert b[i - |a|].name == n;
      }
    }
    forall n | n in CatalogNames(a)
      ensures n in CatalogNames(ab)
    {
      var i :| 0 <= i < |a| && a[i].name == n;
      assert ab[i].name == n;
    }
    forall n | n in CatalogNames(b)
      ensures n in CatalogNames(ab)
    {
      var i :| 0 <= i < |b| && b[i].name == n;
      assert ab[|a| + i].name == n;
    }
  }

  lemma ListSectionNames()
    ensures CatalogNames(ListTools) == ListToolNames
  {
    var names := CatalogNames(ListTools);
    assert forall i :: 0 <= i < |ListTools| ==> ListTools[i].name in ListToolNames;
    assert ListTools[0].name in names;
    assert ListTools[1].name in names;
    assert ListTools[2].name in names;
    assert ListTools[3].name in names;
    assert ListTools[4].name in names;
    assert ListTools[5].name in names;
    assert ListTools[6].name in names;
    assert ListTools[7].name in names;
    assert ListTools[8].name in names;
    assert ListTools[9].name in names;
    assert ListTools[10].name in names;
    assert ListTools[11].name in names;
    assert ListTools[12].name in names;
  }

  lemma GetSectionNames()
    ensures CatalogNames(GetTools) == GetToolNames
  {
    var names := CatalogNames(GetTools);
    assert forall i :: 0 <= i < |GetTools| ==> GetTools[i].name in GetToolNames;
    assert GetTools[0].name in names;
    assert GetTools[1].name in names;
    assert GetTools[2].name in names;
    assert GetTools[3].name in names;
    assert GetTools[4].name in names;
    assert GetTools[5].name in names;
  }

  lemma CreateSectionNames()
    ensures CatalogNames(CreateTools) == CreateToolNames - {"create_bank_transaction"}
  {
    var names := CatalogNames(CreateTools);
    assert forall i :: 0 <= i < |CreateTools| ==> CreateTools[i].name in CreateToolNames - {"create_bank_transaction"};
    assert CreateTools[0].name in names;
    assert CreateTools[1].name in names;
    assert CreateTools[2].name in names;
    assert CreateTools[3].name in names;
    assert CreateTools[4].name in names;
    assert CreateTools[5].name in names;
    assert CreateTools[6].name in names;
  }

  lemma UpdateSectionNames()
    ensures CatalogNames(UpdateTools) == UpdateToolNames - {"update_contact"}
  {
    var names := CatalogNames(UpdateTools);
    assert forall i :: 0 <= i < |UpdateTools| ==> UpdateTools[i].name in UpdateToolNames - {"update_contact"};
    assert UpdateTools[0].name in names;
    assert UpdateTools[1].name in names;
    assert UpdateTools[2].name in names;
  }

  lemma ActionSectionNames()
    ensures CatalogNames(ActionTools) == ActionToolNames - {"mark_invoice_sent"}
  {
    var names := CatalogNames(ActionTools);
    assert forall i :: 0 <= i < |ActionTools| ==> ActionTools[i].name in ActionToolNames - {"mark_invoice_sent"};
    assert ActionTools[0].name in names;
    assert ActionTools[1].name in names;
    assert ActionTools[2].name in names;
    assert ActionTools[3].name in names;
    assert ActionTools[4].name in names;
  }

  /** Taking one name out of three of five sections takes the three out of their union. */
  lemma SectionUnion(l: set<string>, g: set<string>, c: set<string>, u: set<string>, a: set<string>, x: string, y: string, z: string)
    requires x in c && y in u && z in a
    ensures l + g + (c - {x}) + (u - {y}) + (a - {z}) + {x, y, z} == l + g + c + u + a
  {
  }

  /** The catalog's names, section by section, as the dispatcher's sections without the three left out. */
  lemma CatalogNamesBySection()
    ensures CatalogNames(BookkeeperTools) == ListToolNames + GetToolNames + (CreateToolNames - {"create_bank_transaction"})
      + (UpdateToolNames - {"update_contact"}) + (ActionToolNames - {"mark_invoice_sent"})
    ensures CatalogNames(BookkeeperTools) + UncataloguedTools == DispatchedTools
  {
    CatalogNamesAppend(ListTools, GetTools);
    CatalogNamesAppend(ListTools + GetTools, CreateTools);
    CatalogNamesAppend(ListTools + GetTools + CreateTools, UpdateTools);
    CatalogNamesAppend(ListTools + GetTools + CreateTools + UpdateTools, ActionTools);
    ListSectionNames();
    GetSectionNames();
    CreateSectionNames();
    UpdateSectionNames();
    ActionSectionNames();
    DispatchedBySection();
    SectionUnion(ListToolNames, GetToolNames, CreateToolNames, UpdateToolNames, ActionToolNames,
      "create_bank_transaction", "update_contact", "mark_invoice_sent");
  }

  /** Each of the three left out belongs to one section of the dispatcher only. */
  lemma LeftOutSections()
    ensures "create_bank_transaction" !in ListToolNames && "create_bank_transaction" !in GetToolNames
    ensures "create_bank_transaction" !in UpdateToolNames && "create_bank_transaction" !in ActionToolNames
    ensures "update_contact" !in ListToolNames && "update_contact" !in GetToolNames
    ensures "update_contact" !in CreateToolNames && "update_contact" !in ActionToolNames
    ensures "mark_invoice_sent" !in ListToolNames && "mark_invoice_sent" !in GetToolNames
    ensures "mark_invoice_sent" !in CreateToolNames && "mark_invoice_sent" !in UpdateToolNames
  {
  }

  /** None of the three left out is offered by any section. */
  lemma UncataloguedNotOffered()
    ensures UncataloguedTools !! CatalogNames(BookkeeperTools)
  {
    CatalogNamesBySection();
    LeftOutSections();
    SectionsDisjoint(ListToolNames, GetToolNames, CreateToolNames, UpdateToolNames, ActionToolNames,
      "create_bank_transaction", "update_contact", "mark_invoice_sent");
  }

  /** Names that belong to one section each are not in the union of the sections without them. */
  lemma SectionsDisjoint(l: set<string>, g: set<string>, c: set<string>, u: set<string>, a: set<string>, x: string, y: string, z: string)
    requires x !in l && x !in g && x !in u && x !in a
    requires y !in l && y !in g && y !in c && y !in a
    requires z !in l && z !in g && z !in c && z !in u
    ensures {x, y, z} !! l + g + (c - {x}) + (u - {y}) + (a - {z})
  {
  }

  /** Every catalog tool is dispatched, and none is one of the three the catalog leaves out. */
  lemma CatalogToolsAreDispatched()
    ensures forall i :: 0 <= i < |BookkeeperTools| ==> BookkeeperTools[i].name in DispatchedTools
    ensures forall i :: 0 <= i < |BookkeeperTools| ==> BookkeeperTools[i].name !in UncataloguedTools
  {
    CatalogNamesBySection();
    UncataloguedNotOffered();
  }

  /**
   * The dispatcher handles every catalog tool, and handles three tools the
   * catalog never offers the model.
   */
  lemma CatalogAgreesWithDispatcher()
    ensures CatalogNames(BookkeeperTools) <= DispatchedTools
    ensures DispatchedTools - CatalogNames(BookkeeperTools) == UncataloguedTools
  {
    CatalogNamesBySection();
    UncataloguedNotOffered();
  }

  /** The keys of `REPORT_PROMPTS`; the prompt texts are not modelled. */
  const ReportPromptKeys: set<string> := {"pnl", "expense", "aging", "vendor", "cashflow"}

  /** `REPORT_PROMPTS[reportType] || REPORT_PROMPTS.pnl`: which template a report type gets. */
  function ReportTemplateKey(reportType: string): (k: string)
    ensures k in ReportPromptKeys
    ensures reportType in ReportPromptKeys ==> k == reportType
    ensures reportType !in ReportPromptKeys ==> k == "pnl"
  {
    if reportType in ReportPromptKeys then reportType else "pnl"
  }

  /** A custom report uses the profit-and-loss template: there is no "custom" key. */
  lemma CustomReportUsesPnl()
    ensures "custom" !in ReportPromptKeys
    ensures ReportTemplateKey("custom") == "pnl"
  {
  }
}
