/**
 * Categorization of uncategorized bank transactions: learned rules first
 * (a rule is a lowercased description pattern mapped to an expense
 * account), the model for the rest, and learning a rule from each
 * categorization applied. Confidences are reals in [0, 1].
 */
module Categorization {
  import opened Wrappers
  import opened Strings
  import opened Json
  import opened Seqs
  import opened Grouping
  import opened Books
  import opened Llm
  import opened ToolExecutor

  /** A row of the `bookkeepingRule` table. */
  datatype Rule = Rule(
    id: string, ruleType: string, pattern: string, category: string,
    accountId: string, accountName: string, confidence: real, usageCount: nat)

  predicate IsCategorizationRule(r: Rule) {
    r.ruleType == "categorization"
  }

  function UsageKey(r: Rule): real {
    r.usageCount as real
  }

  const MaxRules: nat := 50

  /**
   * Lines 34-38: the categorization rules with the highest usage counts, at
   * most 50 (all of them when there are 50 or fewer), most used first, and
   * no rule left out used more often than one kept.
   */
  function TopRules(rules: seq<Rule>): (top: seq<Rule>)
    ensures IsTop(top, Filter(rules, IsCategorizationRule), UsageKey, MaxRules)
    ensures forall i :: 0 <= i < |top| ==> IsCategorizationRule(top[i]) && top[i] in rules
  {
    var candidates := Filter(rules, IsCategorizationRule);
    var top := Take(SortDesc(candidates, UsageKey), MaxRules);
    TopOfSorted(candidates, UsageKey, MaxRules);
    assert forall i :: 0 <= i < |top| ==> IsCategorizationRule(top[i]) && top[i] in rules by {
      forall i | 0 <= i < |top|
        ensures IsCategorizationRule(top[i]) && top[i] in rules
      {
        assert top[i] in top;
        FilterMember(rules, IsCategorizationRule, top[i]);
      }
    }
    top
  }

  /** `(txn.description as string) || (txn.payee as string) || ""` */
  function DescriptionOf(txn: Json): string {
    StrOr(Get(txn, "description"), StrOr(Get(txn, "payee"), ""))
  }

  /** The rule's lowercased pattern occurs in the lowercased description. */
  predicate RuleMatches(rule: Rule, description: string) {
    Contains(ToLower(description), ToLower(rule.pattern))
  }

  /** `rules.find(...)`: the first matching rule. */
  function FirstMatch(rules: seq<Rule>, description: string): (r: Option<nat>)
    ensures r.None? <==> forall i :: 0 <= i < |rules| ==> !RuleMatches(rules[i], description)
    ensures r.Some? ==> r.value < |rules| && RuleMatches(rules[r.value], description)
    ensures r.Some? ==> forall i :: 0 <= i < r.value ==> !RuleMatches(rules[i], description)
    decreases |rules|
  {
    if |rules| == 0 then None
    else if RuleMatches(rules[0], description) then Some(0)
    else match FirstMatch(rules[1..], description)
      case None => None
      case Some(i) => Some(i + 1)
  }

  /** A suggestion for one transaction; the AI values pass through unchecked. */
  datatype Suggestion = Suggestion(
    transactionId: Json, description: string, amount: int, date: string,
    accountId: Json, accountName: Json, confidence: real, reasoning: Json)

  const RuleThreshold: real := 0.8

  function RuleReasoning(rule: Rule): string {
    "Matched rule: \"" + rule.pattern + "\" -> " + rule.accountName + " (used " + NatToString(rule.usageCount) + " times)"
  }

  /**
   * Lines 45-61: the first matching rule decides. It gives a suggestion when
   * its confidence is at least 0.8; otherwise the transaction is left for the
   * model, even when a later rule would qualify.
   */
  function RuleSuggestion(rules: seq<Rule>, txn: Json): (s: Option<Suggestion>)
    ensures var m := FirstMatch(rules, DescriptionOf(txn));
      s.Some? <==> m.Some? && rules[m.value].confidence >= RuleThreshold
    ensures s.Some? ==>
      var rule := rules[FirstMatch(rules, DescriptionOf(txn)).value];
      && s.value.accountId == JStr(rule.accountId) && s.value.accountName == JStr(rule.accountName)
      && s.value.confidence == rule.confidence && s.value.transactionId == Get(txn, "transaction_id")
  {
    match FirstMatch(rules, DescriptionOf(txn))
    case None => None
    case Some(i) =>
      var rule := rules[i];
      if rule.confidence >= RuleThreshold then
        Some(Suggestion(Get(txn, "transaction_id"), DescriptionOf(txn), Num(Get(txn, "amount")),
                        StrOr(Get(txn, "date"), ""), JStr(rule.accountId), JStr(rule.accountName),
                        rule.confidence, JStr(RuleReasoning(rule))))
      else None
  }

  function RuleFor(rules: seq<Rule>): Json -> Option<Suggestion> {
    txn => RuleSuggestion(rules, txn)
  }

  /** Lines 44-62: one pass that sends each transaction to the rule suggestions or to the model's list. */
  method SplitByRules(txns: seq<Json>, rules: seq<Rule>) returns (suggestions: seq<Suggestion>, needsAI: seq<Json>)
    ensures suggestions == Collect(txns, RuleFor(rules))
    ensures needsAI == Rejected(txns, RuleFor(rules))
  {
    suggestions, needsAI := Partition(txns, RuleFor(rules));
  }

  /** Every transaction lands in exactly one of the two lists, and only rule-less ones reach the model. */
  lemma SplitIsPartition(txns: seq<Json>, rules: seq<Rule>)
    ensures |Collect(txns, RuleFor(rules))| + |Rejected(txns, RuleFor(rules))| == |txns|
    ensures forall i :: 0 <= i < |Rejected(txns, RuleFor(rules))| ==>
      RuleSuggestion(rules, Rejected(txns, RuleFor(rules))[i]).None?
  {
    CollectRejectedPartition(txns, RuleFor(rules));
    RejectedExactly(txns, RuleFor(rules));
  }

  // ------------------------------------------------------------- the model

  /** One element of the model's array, its fields as read; a confidence that is not a number is not modelled. */
  datatype AiCategory = AiCategory(
    transactionId: Json, accountId: Json, accountName: Json, confidence: real, reasoning: Json)

  /** `JSON.parse` of the bracketed span, each element read field by field, None for a null element. */
  type ReadCategories = string -> Result<seq<Option<AiCategory>>, Thrown>

  /** The prompt of lines 96-128, from the first 30 transactions and the chart of accounts. */
  type CategorizePrompt = (seq<Json>, seq<Json>) -> string

  const AiBatch: nat := 30

  /** `transactions.find((t) => t.transaction_id === id)` */
  function FindTransaction(txns: seq<Json>, id: Json): (r: Option<nat>)
    ensures r.None? <==> forall i :: 0 <= i < |txns| ==> Get(txns[i], "transaction_id") != id
    ensures r.Some? ==> r.value < |txns| && Get(txns[r.value], "transaction_id") == id
    ensures r.Some? ==> forall i :: 0 <= i < r.value ==> Get(txns[i], "transaction_id") != id
    decreases |txns|
  {
    if |txns| == 0 then None
    else if Get(txns[0], "transaction_id") == id then Some(0)
    else match FindTransaction(txns[1..], id)
      case None => None
      case Some(i) => Some(i + 1)
  }

  /** Lines 155-167: the model's answer, with the transaction's own fields when its id is known. */
  function AiSuggestion(txns: seq<Json>, c: AiCategory): (s: Suggestion)
    ensures s.transactionId == c.transactionId && s.accountId == c.accountId && s.confidence == c.confidence
    ensures FindTransaction(txns, c.transactionId).None? ==> s.description == "" && s.amount == 0 && s.date == ""
  {
    var txn := match FindTransaction(txns, c.transactionId) case Some(i) => txns[i] case None => JUndefined;
    Suggestion(c.transactionId, DescriptionOf(txn), Num(Get(txn, "amount")), StrOr(Get(txn, "date"), ""),
               c.accountId, c.accountName, c.confidence, c.reasoning)
  }

  /** The request of lines 131-138. */
  function CategorizeRequest(prompt: CategorizePrompt, txns: seq<Json>, chart: seq<Json>): seq<Message> {
    [Message(User, Plain(prompt(Take(txns, AiBatch), chart)))]
  }

  /**
   * `getAICategorizationSuggestions`: a failed call, a reply without a
   * bracketed span, a parse failure or a null element all give no
   * suggestions; otherwise one suggestion per element, in order.
   */
  function AiCategorization(txns: seq<Json>, chart: seq<Json>, prompt: CategorizePrompt, model: Model,
                            read: ReadCategories): (r: seq<Suggestion>)
    ensures var reply := model(CategorizeRequest(prompt, txns, chart));
      reply.Err? || BracketSpan(ReplyText(reply.value)).None? ==> r == []
    ensures var reply := model(CategorizeRequest(prompt, txns, chart));
      reply.Ok? && BracketSpan(ReplyText(reply.value)).Some? ==>
      var parsed := read(BracketSpan(ReplyText(reply.value)).value);
      && (parsed.Err? || None in parsed.value ==> r == [])
      && (parsed.Ok? && None !in parsed.value ==>
            |r| == |parsed.value| && forall i :: 0 <= i < |r| ==> r[i] == AiSuggestion(txns, parsed.value[i].value))
  {
    match model(CategorizeRequest(prompt, txns, chart))
    case Err(_) => []
    case Ok(response) =>
      match BracketSpan(ReplyText(response))
      case None => []
      case Some(span) =>
        match read(span)
        case Err(_) => []
        case Ok(items) =>
          if None in items then []
          else seq(|items|, i requires 0 <= i < |items| => AiSuggestion(txns, items[i].value))
  }

  /** The uncategorized transactions of a bank account. */
  function UncategorizedCall(accountId: string): LedgerCall {
    LedgerCall("getUncategorizedTransactions", [Id(accountId)])
  }

  const ExpenseAccounts: LedgerCall := ListCall("listChartOfAccounts", map["account_type" := "expense"])

  /**
   * `getCategorizationSuggestions`: the rule suggestions in transaction
   * order, then those of the model for the rest. No transactions gives no
   * suggestions without any further read; the ledger reads throw through.
   */
  function CategorizationSuggestions(rules: seq<Rule>, accountId: string, apiKey: string, list: Lister,
                                     prompt: CategorizePrompt, model: Model, read: ReadCategories)
    : (r: Result<seq<Suggestion>, Thrown>)
    ensures list(UncategorizedCall(accountId)) == Ok([]) ==> r == Ok([])
    ensures list(UncategorizedCall(accountId)).Err? ==> r == Err(list(UncategorizedCall(accountId)).error)
    ensures r.Ok? && list(UncategorizedCall(accountId)).Ok? ==>
      var txns := list(UncategorizedCall(accountId)).value;
      IsPrefixOf(Collect(txns, RuleFor(TopRules(rules))), r.value)
    ensures r.Ok? && apiKey == "" ==> r.value == Collect(OrEmpty(list(UncategorizedCall(accountId))), RuleFor(TopRules(rules)))
    ensures list(UncategorizedCall(accountId)).Ok? && |list(UncategorizedCall(accountId)).value| > 0 ==>
      (list(ExpenseAccounts).Err? ==> r == Err(list(ExpenseAccounts).error))
    ensures list(UncategorizedCall(accountId)).Ok? && |list(UncategorizedCall(accountId)).value| > 0 ==>
      list(ExpenseAccounts).Ok? ==>
      var txns := list(UncategorizedCall(accountId)).value;
      var rule := RuleFor(TopRules(rules));
      var rest := Rejected(txns, rule);
      r == Ok(Collect(txns, rule) + (if |rest| > 0 && apiKey != ""
                                     then AiCategorization(rest, list(ExpenseAccounts).value, prompt, model, read)
                                     else []))
  {
    match list(UncategorizedCall(accountId))
    case Err(e) => Err(e)
    case Ok(txns) =>
      if |txns| == 0 then Ok([])
      else match list(ExpenseAccounts)
        case Err(e) => Err(e)
        case Ok(chart) =>
          var top := TopRules(rules);
          var suggestions := Collect(txns, RuleFor(top));
          var needsAI := Rejected(txns, RuleFor(top));
          var fromModel := if |needsAI| > 0 && apiKey != "" then AiCategorization(needsAI, chart, prompt, model, read)
                           else [];
          assert (suggestions + fromModel)[..|suggestions|] == suggestions;
          assert apiKey == "" ==> suggestions + fromModel == suggestions;
          Ok(suggestions + fromModel)
  }

  // --------------------------------------------------------------- learning

  /** The pattern learned from a description: lowercased, then trimmed. */
  function Pattern(description: string): string {
    Trim(ToLower(description))
  }

  const NewRuleConfidence: real := 0.7
  const ConfidenceStep: real := 0.05

  /** `Math.min(1.0, c + 0.05)` */
  function Bump(c: real): (r: real)
    ensures r <= 1.0
    ensures c <= 1.0 ==> c <= r
    ensures r == c + ConfidenceStep || r == 1.0
    ensures r <= c + ConfidenceStep
  {
    if c + ConfidenceStep < 1.0 then c + ConfidenceStep else 1.0
  }

  /** `findFirst` on rule type and pattern. */
  function FindRule(rules: seq<Rule>, pattern: string): (r: Option<nat>)
    ensures r.None? <==> forall i :: 0 <= i < |rules| ==> !(IsCategorizationRule(rules[i]) && rules[i].pattern == pattern)
    ensures r.Some? ==> r.value < |rules| && IsCategorizationRule(rules[r.value]) && rules[r.value].pattern == pattern
    ensures r.Some? ==> forall k :: 0 <= k < r.value ==> !(IsCategorizationRule(rules[k]) && rules[k].pattern == pattern)
    decreases |rules|
  {
    if |rules| == 0 then None
    else if IsCategorizationRule(rules[0]) && rules[0].pattern == pattern then Some(0)
    else match FindRule(rules[1..], pattern)
      case None => None
      case Some(i) => Some(i + 1)
  }

  /**
   * Lines 186-215: the rule table after learning from a categorization. A
   * pattern of at most two characters teaches nothing; a known pattern gets
   * the new account, one more use and a higher confidence; a new one starts
   * at 0.7 with one use. `newId` is the id a created rule receives.
   */
  function Learned(rules: seq<Rule>, description: string, accountId: string, accountName: string, newId: string)
    : (r: seq<Rule>)
    ensures |Pattern(description)| <= 2 ==> r == rules
    ensures |Pattern(description)| > 2 && FindRule(rules, Pattern(description)).Some? ==>
      var i := FindRule(rules, Pattern(description)).value;
      r == rules[i := rules[i].(accountId := accountId, accountName := accountName,
                                usageCount := rules[i].usageCount + 1, confidence := Bump(rules[i].confidence))]
    ensures |Pattern(description)| > 2 && FindRule(rules, Pattern(description)).None? ==>
      r == rules + [Rule(newId, "categorization", Pattern(description), accountName, accountId, accountName,
                         NewRuleConfidence, 1)]
  {
    var pattern := Pattern(description);
    if |pattern| <= 2 then rules
    else match FindRule(rules, pattern)
      case Some(i) =>
        rules[i := rules[i].(accountId := accountId, accountName := accountName,
                             usageCount := rules[i].usageCount + 1, confidence := Bump(rules[i].confidence))]
      case None =>
        rules + [Rule(newId, "categorization", pattern, accountName, accountId, accountName, NewRuleConfidence, 1)]
  }

  predicate ConfidencesBounded(rules: seq<Rule>) {
    forall i :: 0 <= i < |rules| ==> 0.0 <= rules[i].confidence <= 1.0
  }

  /**
   * `after` keeps every confidence in [0, 1], has at most one rule more,
   * and keeps every existing rule's id and pattern without lowering its
   * confidence or its use count.
   */
  predicate GrowsFrom(rules: seq<Rule>, after: seq<Rule>) {
    && ConfidencesBounded(after)
    && |rules| <= |after| <= |rules| + 1
    && (forall i :: 0 <= i < |rules| ==>
          after[i].id == rules[i].id && after[i].pattern == rules[i].pattern &&
          after[i].confidence >= rules[i].confidence && after[i].usageCount >= rules[i].usageCount)
  }

  /** Learning keeps every confidence in [0, 1] and never lowers one, nor a use count. */
  lemma LearningIsMonotone(rules: seq<Rule>, description: string, accountId: string, accountName: string,
                           newId: string)
    requires ConfidencesBounded(rules)
    ensures GrowsFrom(rules, Learned(rules, description, accountId, accountName, newId))
  {
    var pattern := Pattern(description);
    var after := Learned(rules, description, accountId, accountName, newId);
    if |pattern| <= 2 {
      assert after == rules;
    } else {
      match FindRule(rules, pattern)
      case Some(i) =>
        BumpGrows(rules, i, accountId, accountName);
        assert after == rules[i := rules[i].(accountId := accountId, accountName := accountName,
                                             usageCount := rules[i].usageCount + 1,
                                             confidence := Bump(rules[i].confidence))];
      case None =>
        var rule := Rule(newId, "categorization", pattern, accountName, accountId, accountName, NewRuleConfidence, 1);
        AppendGrows(rules, rule);
        assert after == rules + [rule];
    }
  }

  /** Updating a known rule with the applied account grows the table. */
  lemma BumpGrows(rules: seq<Rule>, i: nat, accountId: string, accountName: string)
    requires ConfidencesBounded(rules) && i < |rules|
    ensures GrowsFrom(rules, rules[i := rules[i].(accountId := accountId, accountName := accountName,
                                                 usageCount := rules[i].usageCount + 1,
                                                 confidence := Bump(rules[i].confidence))])
  {
  }

  /** Appending a rule of bounded confidence grows the table. */
  lemma AppendGrows(rules: seq<Rule>, rule: Rule)
    requires ConfidencesBounded(rules) && 0.0 <= rule.confidence <= 1.0
    ensures GrowsFrom(rules, rules + [rule])
  {
  }

  /** After learning, the pattern's first rule maps it to the account just applied. */
  lemma LearnedRuleIsFound(rules: seq<Rule>, description: string, accountId: string, accountName: string,
                           newId: string)
    requires |Pattern(description)| > 2
    ensures var after := Learned(rules, description, accountId, accountName, newId);
      var found := FindRule(after, Pattern(description));
      found.Some? && after[found.value].accountId == accountId && after[found.value].accountName == accountName
  {
    var pattern := Pattern(description);
    var after := Learned(rules, description, accountId, accountName, newId);
    match FindRule(rules, pattern)
    case Some(i) =>
      FindRuleUnchangedBefore(rules, after, pattern, i);
    case None =>
      FindRuleUnchangedBefore(rules, after, pattern, |rules|);
  }

  /** A lookup that passes over the first `i` rules unchanged finds the same rule at `i`. */
  lemma {:induction false} FindRuleUnchangedBefore(rules: seq<Rule>, after: seq<Rule>, pattern: string, i: nat)
    requires i < |after| && i <= |rules|
    requires forall k :: 0 <= k < i ==> !(IsCategorizationRule(rules[k]) && rules[k].pattern == pattern)
    requires forall k :: 0 <= k < i ==> after[k] == rules[k]
    requires IsCategorizationRule(after[i]) && after[i].pattern == pattern
    ensures FindRule(after, pattern) == Some(i)
    decreases i
  {
    if i > 0 {
      FindRuleUnchangedBefore(rules[1..], after[1..], pattern, i - 1);
    }
  }

  /** The `bookkeepingRule` table. */
  class RuleTable {
    var rules: seq<Rule>

    constructor (initial: seq<Rule>)
      ensures rules == initial
    {
      rules := initial;
    }

    /** The find-or-create of lines 188-214. */
    method Learn(description: string, accountId: string, accountName: string, newId: string)
      modifies this
      ensures rules == Learned(old(rules), description, accountId, accountName, newId)
    {
      var pattern := Pattern(description);
      if |pattern| <= 2 {
        return;
      }
      var found := FindRule(rules, pattern);
      if found.Some? {
        var i := found.value;
        var existing := rules[i];
        rules := rules[i := existing.(accountId := accountId, accountName := accountName,
                                      usageCount := existing.usageCount + 1, confidence := Bump(existing.confidence))];
      } else {
        rules := rules + [Rule(newId, "categorization", pattern, accountName, accountId, accountName,
                               NewRuleConfidence, 1)];
      }
    }
  }

  /** The ledger call of line 183. */
  function CategorizeCall(transactionId: string, accountId: string): LedgerCall {
    LedgerCall("categorizeTransaction", [Id(transactionId), Id(accountId), Payload(JObj(map[]))])
  }

  /**
   * `applyCategorization`: categorize in the ledger first; a throw there
   * leaves the rules alone, and otherwise the table learns the mapping.
   */
  method ApplyCategorization(table: RuleTable, ledger: Ledger, transactionId: string, accountId: string,
                             accountName: string, description: string, newId: string)
    returns (r: Result<Json, Thrown>)
    modifies table
    ensures r == ledger(CategorizeCall(transactionId, accountId))
    ensures r.Err? ==> table.rules == old(table.rules)
    ensures r.Ok? ==> table.rules == Learned(old(table.rules), description, accountId, accountName, newId)
  {
    r := ledger(CategorizeCall(transactionId, accountId));
    if r.Ok? {
      table.Learn(description, accountId, accountName, newId);
    }
  }

  /** `getCategorizationSuggestions` against the rule table. */
  method GetCategorizationSuggestions(table: RuleTable, accountId: string, apiKey: string, list: Lister,
                                      prompt: CategorizePrompt, model: Model, read: ReadCategories)
    returns (r: Result<seq<Suggestion>, Thrown>)
    ensures r == CategorizationSuggestions(table.rules, accountId, apiKey, list, prompt, model, read)
  {
    var fetched := list(UncategorizedCall(accountId));
    if fetched.Err? {
      return Err(fetched.error);
    }
    var txns := fetched.value;
    if |txns| == 0 {
      return Ok([]);
    }
    var chart := list(ExpenseAccounts);
    if chart.Err? {
      return Err(chart.error);
    }
    var suggestions, needsAI := SplitByRules(txns, TopRules(table.rules));
    var fromModel := [];
    if |needsAI| > 0 && apiKey != "" {
      fromModel := AiCategorization(needsAI, chart.value, prompt, model, read);
    }
    r := Ok(suggestions + fromModel);
  }
}
