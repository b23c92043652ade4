/**
 * Reconciliation suggestions for a bank account's uncategorized
 * transactions: an exact-amount pass over the first 20 transactions against
 * open bills (debits) or sent invoices (everything else), then the model for
 * up to 10 of those still unmatched, and finally a stable sort by
 * confidence, highest first. Amounts are integer cents, so the source's
 * 0.01 tolerance is equality.
 */
module Reconciliation {
  import opened Wrappers
  import opened Strings
  import opened Json
  import opened Seqs
  import opened Grouping
  import opened Books
  import opened Llm
  import opened ToolExecutor
  import opened Categorization

  /** One suggested match; the values the model wrote pass through unchecked. */
  datatype Match = Match(
    transactionId: Json, description: string, amount: int, date: string, matchType: Json,
    matchId: Json, matchDescription: Json, confidence: real, reasoning: Json)

  function ConfidenceOf(m: Match): real {
    m.confidence
  }

  const ExactWindow: nat := 20
  const AiWindow: nat := 10
  const PromptWindow: nat := 30
  const SingleMatchConfidence: real := 0.95
  const SeveralMatchesConfidence: real := 0.7
  const AiFloor: real := 0.5

  const SentInvoices: LedgerCall := ListCall("listInvoices", map["status" := "sent"])
  const OpenBills: LedgerCall := ListCall("listBills", map["status" := "open"])

  function Abs(n: int): (r: nat)
    ensures r == n || r == -n
  {
    if n < 0 then -n else n
  }

  /** `Math.abs((txn.amount as number) || 0)` */
  function AmountOf(txn: Json): nat {
    Abs(Num(Get(txn, "amount")))
  }

  predicate IsDebit(txn: Json) {
    Get(txn, "debit_or_credit") == JStr("debit")
  }

  /** A debit is matched against bills, anything else against invoices. */
  function KindOf(txn: Json): (kind: string)
    ensures kind == "bill" || kind == "invoice"
    ensures kind == "bill" <==> IsDebit(txn)
  {
    if IsDebit(txn) then "bill" else "invoice"
  }

  function Candidates(invoices: seq<Json>, bills: seq<Json>, txn: Json): (cs: seq<Json>)
    ensures IsDebit(txn) ==> cs == bills
    ensures !IsDebit(txn) ==> cs == invoices
  {
    if IsDebit(txn) then bills else invoices
  }

  /** The candidates whose total is the transaction's amount, in list order. */
  function ExactMatches(invoices: seq<Json>, bills: seq<Json>, txn: Json): (ms: seq<Json>)
    ensures forall i :: 0 <= i < |ms| ==> Get(ms[i], "total") == JNum(AmountOf(txn))
    ensures forall c :: c in Candidates(invoices, bills, txn) && Get(c, "total") == JNum(AmountOf(txn)) ==> c in ms
    ensures multiset(ms) <= multiset(Candidates(invoices, bills, txn))
  {
    var amount := AmountOf(txn);
    Filter(Candidates(invoices, bills, txn), c => Get(c, "total") == JNum(amount))
  }

  /** `${number} - ${customer_name || vendor_name} ($${total})` */
  function MatchDescription(kind: string, c: Json): string {
    ToJsString(Get(c, kind + "_number")) + " - " + ToJsString(Or(Get(c, "customer_name"), Get(c, "vendor_name")))
    + " ($" + Dollars(Get(c, "total")) + ")"
  }

  function ExactReasoning(n: nat): string {
    if n == 1 then "Exact amount match"
    else NatToString(n) + " exact amount matches found. Closest date selected."
  }

  /**
   * Lines 255-295: no candidate of the same amount gives nothing; otherwise
   * the first such candidate is suggested, at 0.95 when it is the only one
   * and at 0.7 when there are several (the dates are not compared).
   */
  function ExactMatch(invoices: seq<Json>, bills: seq<Json>, txn: Json): (r: Option<Match>)
    ensures r.None? <==> |ExactMatches(invoices, bills, txn)| == 0
    ensures r.Some? ==>
      var ms := ExactMatches(invoices, bills, txn);
      && ms[0] in Candidates(invoices, bills, txn) && Get(ms[0], "total") == JNum(AmountOf(txn))
      && r.value.matchId == Or(Get(ms[0], KindOf(txn) + "_id"), JStr(""))
      && r.value.confidence == (if |ms| == 1 then SingleMatchConfidence else SeveralMatchesConfidence)
    ensures r.Some? ==>
      && r.value.transactionId == Get(txn, "transaction_id") && r.value.amount == AmountOf(txn)
      && r.value.matchType == JStr(KindOf(txn))
  {
    var ms := ExactMatches(invoices, bills, txn);
    if |ms| == 0 then None
    else
      assert ms[0] in multiset(ms);
      var kind := KindOf(txn);
      var best := ms[0];
      Some(Match(Get(txn, "transaction_id"), DescriptionOf(txn), AmountOf(txn), StrOr(Get(txn, "date"), ""),
                 JStr(kind), Or(Get(best, kind + "_id"), JStr("")), JStr(MatchDescription(kind, best)),
                 if |ms| == 1 then SingleMatchConfidence else SeveralMatchesConfidence,
                 JStr(ExactReasoning(|ms|))))
  }

  function ExactRule(invoices: seq<Json>, bills: seq<Json>): Json -> Option<Match> {
    txn => ExactMatch(invoices, bills, txn)
  }

  /** The suggestions of the exact pass, in transaction order. */
  function ExactSuggestions(all: seq<Json>, invoices: seq<Json>, bills: seq<Json>): seq<Match> {
    Collect(Take(all, ExactWindow), ExactRule(invoices, bills))
  }

  /** Lines 251-296: the exact pass as a loop over the first 20 transactions. */
  method ExactPass(all: seq<Json>, invoices: seq<Json>, bills: seq<Json>) returns (suggestions: seq<Match>)
    ensures suggestions == ExactSuggestions(all, invoices, bills)
  {
    suggestions := CollectEach(Take(all, ExactWindow), ExactRule(invoices, bills));
  }

  /**
   * At most one suggestion per transaction of the window, each at 0.95 or
   * 0.7, and every transaction of the window with a candidate of its amount
   * gets one.
   */
  lemma ExactSuggestionsShape(all: seq<Json>, invoices: seq<Json>, bills: seq<Json>)
    ensures |ExactSuggestions(all, invoices, bills)| <= ExactWindow
    ensures forall m :: m in ExactSuggestions(all, invoices, bills) ==>
      m.confidence == SingleMatchConfidence || m.confidence == SeveralMatchesConfidence
    ensures forall i :: 0 <= i < |all| && i < ExactWindow && |ExactMatches(invoices, bills, all[i])| > 0 ==>
      ExactMatch(invoices, bills, all[i]).value in ExactSuggestions(all, invoices, bills)
  {
    forall m | m in ExactSuggestions(all, invoices, bills)
      ensures m.confidence == SingleMatchConfidence || m.confidence == SeveralMatchesConfidence
    {
      ExactSuggestionConfidence(all, invoices, bills, m);
    }
    forall i | 0 <= i < |all| && i < ExactWindow && |ExactMatches(invoices, bills, all[i])| > 0
      ensures ExactMatch(invoices, bills, all[i]).value in ExactSuggestions(all, invoices, bills)
    {
      ExactSuggestionFor(all, invoices, bills, i);
    }
  }

  lemma ExactSuggestionConfidence(all: seq<Json>, invoices: seq<Json>, bills: seq<Json>, m: Match)
    requires m in ExactSuggestions(all, invoices, bills)
    ensures m.confidence == SingleMatchConfidence || m.confidence == SeveralMatchesConfidence
  {
    var window := Take(all, ExactWindow);
    var rule := ExactRule(invoices, bills);
    CollectMember(window, rule, m);
    var i :| 0 <= i < |window| && rule(window[i]) == Some(m);
    assert ExactMatch(invoices, bills, window[i]) == Some(m);
  }

  lemma ExactSuggestionFor(all: seq<Json>, invoices: seq<Json>, bills: seq<Json>, i: nat)
    requires i < |all| && i < ExactWindow && |ExactMatches(invoices, bills, all[i])| > 0
    ensures ExactMatch(invoices, bills, all[i]).value in ExactSuggestions(all, invoices, bills)
  {
    var window := Take(all, ExactWindow);
    var rule := ExactRule(invoices, bills);
    assert window[i] == all[i];
    var m := ExactMatch(invoices, bills, all[i]);
    assert rule(window[i]) == Some(m.value);
    CollectMember(window, rule, m.value);
  }

  // ------------------------------------------------------------- the model

  /** One element of the model's array, its fields as read; a confidence that is not a number is not modelled. */
  datatype AiMatch = AiMatch(transactionId: Json, matchType: Json, matchId: Json, confidence: real, reasoning: Json)

  /** `JSON.parse` of the bracketed span, each element read field by field, None for a null element. */
  type ReadMatches = string -> Result<seq<Option<AiMatch>>, Thrown>

  /** The prompt of lines 311-348, from the unmatched transactions and the first 30 invoices and bills. */
  type MatchPrompt = (seq<Json>, seq<Json>, seq<Json>) -> string

  function SuggestedIds(ms: seq<Match>): (ids: set<Json>)
    ensures forall m :: m in ms ==> m.transactionId in ids
    ensures forall id :: id in ids ==> exists m :: m in ms && m.transactionId == id
  {
    set m | m in ms :: m.transactionId
  }

  /** A transaction that none of `exact` names: not in the set of suggested ids built at line 300. */
  function Unsuggested(exact: seq<Match>): Json -> bool {
    t => Get(t, "transaction_id") !in SuggestedIds(exact)
  }

  /**
   * Lines 300-303: the first 10 transactions, over the whole list, that no
   * suggestion names, in the order of the list; all of them when there are
   * 10 or fewer.
   */
  function Unmatched(all: seq<Json>, exact: seq<Match>): (r: seq<Json>)
    ensures |r| == if Count(all, Unsuggested(exact)) < AiWindow then Count(all, Unsuggested(exact)) else AiWindow
    ensures IsPrefixOf(r, Filter(all, Unsuggested(exact)))
    ensures forall i :: 0 <= i < |r| ==> r[i] in all
    ensures forall i :: 0 <= i < |r| ==> forall m :: m in exact ==> m.transactionId != Get(r[i], "transaction_id")
  {
    var open := Filter(all, Unsuggested(exact));
    CountIsFilterLength(all, Unsuggested(exact));
    var r := Take(open, AiWindow);
    assert forall i :: 0 <= i < |r| ==> r[i] == open[i];
    assert forall i :: 0 <= i < |r| ==> r[i] in all by {
      forall i | 0 <= i < |r|
        ensures r[i] in all
      {
        assert open[i] in multiset(open);
      }
    }
    r
  }

  function MatchRequest(prompt: MatchPrompt, unmatched: seq<Json>, invoices: seq<Json>, bills: seq<Json>)
    : seq<Message>
  {
    [Message(User, Plain(prompt(unmatched, Take(invoices, PromptWindow), Take(bills, PromptWindow))))]
  }

  /**
   * Lines 369-384 for one element: a confidence under 0.5 or a transaction
   * id that is not among the uncategorized transactions gives nothing;
   * otherwise the suggestion carries the transaction's own fields and the
   * model's reasoning as its description.
   */
  function AcceptAi(all: seq<Json>, item: AiMatch): (r: Option<Match>)
    ensures r.Some? <==> item.confidence >= AiFloor && FindTransaction(all, item.transactionId).Some?
    ensures r.Some? ==>
      var txn := all[FindTransaction(all, item.transactionId).value];
      && r.value.transactionId == item.transactionId && r.value.matchType == item.matchType
      && r.value.matchId == item.matchId && r.value.confidence == item.confidence
      && r.value.matchDescription == item.reasoning && r.value.reasoning == item.reasoning
      && r.value.amount == AmountOf(txn) && r.value.description == DescriptionOf(txn)
  {
    if item.confidence < AiFloor then None
    else match FindTransaction(all, item.transactionId)
      case None => None
      case Some(i) =>
        var txn := all[i];
        Some(Match(item.transactionId, DescriptionOf(txn), AmountOf(txn), StrOr(Get(txn, "date"), ""),
                   item.matchType, item.matchId, item.reasoning, item.confidence, item.reasoning))
  }

  /** A null element stops the loop with a TypeError, which is caught; what was pushed stays. */
  function AiRule(all: seq<Json>): Option<AiMatch> -> Option<Match> {
    (item: Option<AiMatch>) => if item.Some? then AcceptAi(all, item.value) else None
  }

  /** The number of elements before the first null one. */
  function NonNullPrefix(items: seq<Option<AiMatch>>): (n: nat)
    ensures n <= |items|
    ensures forall i :: 0 <= i < n ==> items[i].Some?
    ensures n < |items| ==> items[n].None?
    decreases |items|
  {
    if |items| == 0 || items[0].None? then 0 else 1 + NonNullPrefix(items[1..])
  }

  /** An element that is not null, reached before the first null one, is before it. */
  lemma NonNullBefore(items: seq<Option<AiMatch>>, i: nat)
    requires i <= NonNullPrefix(items) && i < |items| && items[i].Some?
    ensures i < NonNullPrefix(items)
  {
  }

  /** The loop stops at the first null element, or at the end when there is none. */
  lemma NonNullStop(items: seq<Option<AiMatch>>, i: nat)
    requires i <= NonNullPrefix(items) && (i >= |items| || items[i].None?)
    ensures i == NonNullPrefix(items)
  {
  }

  /** The suggestions kept from the model's array. */
  function Accepted(all: seq<Json>, items: seq<Option<AiMatch>>): seq<Match> {
    Collect(items[..NonNullPrefix(items)], AiRule(all))
  }

  /** Lines 369-385: the loop over the parsed array. */
  method AcceptAiMatches(all: seq<Json>, items: seq<Option<AiMatch>>) returns (accepted: seq<Match>)
    ensures accepted == Accepted(all, items)
  {
    accepted := [];
    var i := 0;
    while i < |items|
      invariant i <= NonNullPrefix(items)
      invariant accepted == Collect(items[..i], AiRule(all))
    {
      if items[i].None? {
        break;
      }
      NonNullBefore(items, i);
      var rule := AiRule(all);
      var m := rule(items[i]);
      CollectStep(items, i, rule);
      if m.Some? {
        accepted := accepted + [m.value];
      }
      i := i + 1;
    }
    NonNullStop(items, i);
  }

  /** Every accepted match clears the floor and names a known transaction; every element that does, before the first null, is accepted. */
  lemma AcceptedExactly(all: seq<Json>, items: seq<Option<AiMatch>>)
    ensures forall m :: m in Accepted(all, items) ==>
      m.confidence >= AiFloor && FindTransaction(all, m.transactionId).Some?
    ensures forall i :: 0 <= i < NonNullPrefix(items) && AcceptAi(all, items[i].value).Some? ==>
      AcceptAi(all, items[i].value).value in Accepted(all, items)
  {
    var front := items[..NonNullPrefix(items)];
    forall m | m in Accepted(all, items)
      ensures m.confidence >= AiFloor && FindTransaction(all, m.transactionId).Some?
    {
      CollectMember(front, AiRule(all), m);
      var i :| 0 <= i < |front| && AiRule(all)(front[i]) == Some(m);
    }
    forall i | 0 <= i < NonNullPrefix(items) && AcceptAi(all, items[i].value).Some?
      ensures AcceptAi(all, items[i].value).value in Accepted(all, items)
    {
      assert front[i] == items[i];
      CollectMember(front, AiRule(all), AcceptAi(all, items[i].value).value);
    }
  }

  /**
   * Lines 299-388: the model is asked only with a key, when some
   * transaction has no suggestion, and about at most 10 unmatched ones; a
   * failed call, a reply without a bracketed span or a parse failure adds
   * nothing.
   */
  function AiMatches(all: seq<Json>, exact: seq<Match>, invoices: seq<Json>, bills: seq<Json>, apiKey: string,
                     prompt: MatchPrompt, model: Model, read: ReadMatches): (r: seq<Match>)
    ensures apiKey == "" || |exact| >= |all| || |Unmatched(all, exact)| == 0 ==> r == []
    ensures forall m :: m in r ==> m.confidence >= AiFloor && FindTransaction(all, m.transactionId).Some?
  {
    if apiKey == "" || |exact| >= |all| then []
    else
      var unmatched := Unmatched(all, exact);
      if |unmatched| == 0 then []
      else match model(MatchRequest(prompt, unmatched, invoices, bills))
        case Err(_) => []
        case Ok(response) =>
          match BracketSpan(ReplyText(response))
          case None => []
          case Some(span) =>
            match read(span)
            case Err(_) => []
            case Ok(items) =>
              AcceptedExactly(all, items);
              Accepted(all, items)
  }

  /** Lines 299-388 as the source runs them, each step guarded by the one before. */
  method AiFallback(all: seq<Json>, exact: seq<Match>, invoices: seq<Json>, bills: seq<Json>, apiKey: string,
                    prompt: MatchPrompt, model: Model, read: ReadMatches) returns (found: seq<Match>)
    ensures found == AiMatches(all, exact, invoices, bills, apiKey, prompt, model, read)
  {
    found := [];
    if apiKey == "" || |exact| >= |all| {
      return;
    }
    var unmatched := Unmatched(all, exact);
    if |unmatched| == 0 {
      return;
    }
    var reply := model(MatchRequest(prompt, unmatched, invoices, bills));
    if reply.Err? {
      return;
    }
    var span := BracketSpan(ReplyText(reply.value));
    if span.None? {
      return;
    }
    var parsed := read(span.value);
    if parsed.Ok? {
      found := AcceptAiMatches(all, parsed.value);
    }
  }

  /** The exact suggestions followed by the model's, before sorting. */
  function Unsorted(all: seq<Json>, invoices: seq<Json>, bills: seq<Json>, apiKey: string,
                    prompt: MatchPrompt, model: Model, read: ReadMatches): seq<Match>
  {
    var exact := ExactSuggestions(all, invoices, bills);
    exact + AiMatches(all, exact, invoices, bills, apiKey, prompt, model, read)
  }

  /**
   * `getReconciliationSuggestions`: no uncategorized transaction gives no
   * suggestion without reading invoices or bills; a failed read throws
   * through; otherwise every suggestion of the two passes, highest
   * confidence first.
   */
  function ReconciliationSuggestions(accountId: string, apiKey: string, list: Lister, prompt: MatchPrompt,
                                     model: Model, read: ReadMatches): (r: Result<seq<Match>, Thrown>)
    ensures list(UncategorizedCall(accountId)) == Ok([]) ==> r == Ok([])
    ensures list(UncategorizedCall(accountId)).Err? ==> r == Err(list(UncategorizedCall(accountId)).error)
    ensures r.Ok? ==> SortedDesc(r.value, ConfidenceOf)
    ensures list(UncategorizedCall(accountId)).Ok? && |list(UncategorizedCall(accountId)).value| > 0 ==>
      && (list(SentInvoices).Err? ==> r == Err(list(SentInvoices).error))
      && (list(SentInvoices).Ok? && list(OpenBills).Err? ==> r == Err(list(OpenBills).error))
      && (list(SentInvoices).Ok? && list(OpenBills).Ok? ==>
            r.Ok? && multiset(r.value) == multiset(Unsorted(list(UncategorizedCall(accountId)).value,
                                                            list(SentInvoices).value, list(OpenBills).value,
                                                            apiKey, prompt, model, read)))
  {
    match list(UncategorizedCall(accountId))
    case Err(e) => Err(e)
    case Ok(all) =>
      if |all| == 0 then Ok([])
      else match list(SentInvoices)
        case Err(e) => Err(e)
        case Ok(invoices) =>
          match list(OpenBills)
          case Err(e) => Err(e)
          case Ok(bills) =>
            var unsorted := Unsorted(all, invoices, bills, apiKey, prompt, model, read);
            SortDescSorted(unsorted, ConfidenceOf);
            Ok(SortDesc(unsorted, ConfidenceOf))
  }

  /** The sort is stable: suggestions of equal confidence keep their order, exact ones before the model's. */
  lemma SuggestionsKeepOrderWithinConfidence(accountId: string, apiKey: string, list: Lister, prompt: MatchPrompt,
                                             model: Model, read: ReadMatches, k: real)
    requires list(UncategorizedCall(accountId)).Ok? && |list(UncategorizedCall(accountId)).value| > 0
    requires list(SentInvoices).Ok? && list(OpenBills).Ok?
    ensures var r := ReconciliationSuggestions(accountId, apiKey, list, prompt, model, read);
      var all := list(UncategorizedCall(accountId)).value;
      r.Ok? && KeyClass(r.value, ConfidenceOf, k) ==
        KeyClass(Unsorted(all, list(SentInvoices).value, list(OpenBills).value, apiKey, prompt, model, read),
                 ConfidenceOf, k)
  {
    var all := list(UncategorizedCall(accountId)).value;
    SortDescStable(Unsorted(all, list(SentInvoices).value, list(OpenBills).value, apiKey, prompt, model, read),
                   ConfidenceOf, k);
  }

  /** `getReconciliationSuggestions` as the source runs it: push, then sort in place. */
  method GetReconciliationSuggestions(accountId: string, apiKey: string, list: Lister, prompt: MatchPrompt,
                                      model: Model, read: ReadMatches)
    returns (r: Result<seq<Match>, Thrown>)
    ensures r == ReconciliationSuggestions(accountId, apiKey, list, prompt, model, read)
  {
    var fetched := list(UncategorizedCall(accountId));
    if fetched.Err? {
      return Err(fetched.error);
    }
    var all := fetched.value;
    if |all| == 0 {
      return Ok([]);
    }
    var invoices := list(SentInvoices);
    if invoices.Err? {
      return Err(invoices.error);
    }
    var bills := list(OpenBills);
    if bills.Err? {
      return Err(bills.error);
    }
    var exact := ExactPass(all, invoices.value, bills.value);
    var found := AiFallback(all, exact, invoices.value, bills.value, apiKey, prompt, model, read);
    var suggestions := exact + found;
    assert suggestions == Unsorted(all, invoices.value, bills.value, apiKey, prompt, model, read);
    var sorted := SortedCopy(suggestions, ConfidenceOf);
    r := Ok(sorted);
  }
}
