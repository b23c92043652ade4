/**
 * The reconciliation API: `POST /api/reconciliation/suggestions` checks its
 * guards in order and returns the matcher's suggestions with two counts;
 * `GET /api/reconciliation/accounts` lists the bank accounts with their
 * numbers masked to the last four characters.
 */
module ReconciliationRoutes {
  import opened Wrappers
  import opened Strings
  import opened Json
  import opened Seqs
  import opened Http
  import opened SettingsHelper
  import opened Books
  import opened Llm
  import opened Reconciliation

  const HighConfidence: real := 0.9
  const MissingAccountMessage: string := "bankAccountId is required"

  predicate IsHigh(m: Match) {
    m.confidence >= HighConfidence
  }

  /** The suggestions route's answer: a refusal or an error, or the suggestions with their counts. */
  datatype SuggestionsReply =
    | Refused(reply: Reply)
    | Suggested(bankAccountId: Json, suggestions: seq<Match>, totalSuggestions: nat, highConfidence: nat,
                generatedAt: string)

  /** `suggestions.filter((s) => s.confidence >= 0.9).length` */
  function HighCount(suggestions: seq<Match>): (n: nat)
    ensures n <= |suggestions|
    ensures n == 0 <==> forall i :: 0 <= i < |suggestions| ==> !IsHigh(suggestions[i])
  {
    Count(suggestions, IsHigh)
  }

  /**
   * `POST /api/reconciliation/suggestions`. A body that cannot be read, or
   * a null one, throws into the 500 handler before any guard; then a missing key, a
   * disconnected ledger and a falsy bankAccountId each give 400, in that
   * order, before any matching. The model oracle stands for the client built
   * from the key and the `getAiModel` name; `generatedAt` is the clock's
   * reading.
   */
  function SuggestionsPost(body: Result<Json, Thrown>, settings: Option<SettingsRow>, env: Env, connected: bool,
                           list: Lister, prompt: MatchPrompt, model: Model, read: ReadMatches, generatedAt: string)
    : (r: SuggestionsReply)
    ensures body.Err? ==> r == Refused(ErrorReply(500, body.error.MessageOr("Failed to generate suggestions")))
    ensures body == Ok(JNull) ==>
      r == Refused(ErrorReply(500, NullDestructureMessage("bankAccountId", "(intermediate value)")))
    ensures body.Ok? && body.value != JNull && GetAnthropicApiKey(settings, env).None? ==>
      r == Refused(ErrorReply(400, NoKeyMessage))
    ensures body.Ok? && body.value != JNull && GetAnthropicApiKey(settings, env).Some? && !connected ==>
      r == Refused(ErrorReply(400, NotConnectedMessage))
    ensures (body.Ok? && body.value != JNull && GetAnthropicApiKey(settings, env).Some? && connected
             && !Truthy(Get(body.value, "bankAccountId"))) ==>
      r == Refused(ErrorReply(400, MissingAccountMessage))
    ensures r.Suggested? ==>
      && body.Ok? && body.value != JNull && GetAnthropicApiKey(settings, env).Some? && connected
      && r.bankAccountId == Get(body.value, "bankAccountId") && Truthy(r.bankAccountId)
      && ReconciliationSuggestions(ToJsString(r.bankAccountId), GetAnthropicApiKey(settings, env).value,
                                   list, prompt, model, read) == Ok(r.suggestions)
      && r.totalSuggestions == |r.suggestions| && r.highConfidence <= r.totalSuggestions
      && r.generatedAt == generatedAt
  {
    match body
    case Err(e) => Refused(ErrorReply(500, e.MessageOr("Failed to generate suggestions")))
    case Ok(request) =>
      if request == JNull then
        Refused(ErrorReply(500, NullDestructureMessage("bankAccountId", "(intermediate value)")))
      else
        var bankAccountId := Get(request, "bankAccountId");
        match GetAnthropicApiKey(settings, env)
        case None => Refused(ErrorReply(400, NoKeyMessage))
        case Some(apiKey) =>
          if !connected then Refused(ErrorReply(400, NotConnectedMessage))
          else if !Truthy(bankAccountId) then Refused(ErrorReply(400, MissingAccountMessage))
          else match ReconciliationSuggestions(ToJsString(bankAccountId), apiKey, list, prompt, model, read)
            case Err(e) => Refused(ErrorReply(500, e.MessageOr("Failed to generate suggestions")))
            case Ok(suggestions) =>
              Suggested(bankAccountId, suggestions, |suggestions|, HighCount(suggestions), generatedAt)
  }

  /** With every guard passed, the route returns the matcher's suggestions, sorted, or its error. */
  lemma SuggestionsAreTheMatchersOwn(request: Json, settings: Option<SettingsRow>, env: Env, list: Lister,
                                     prompt: MatchPrompt, model: Model, read: ReadMatches, generatedAt: string)
    requires GetAnthropicApiKey(settings, env).Some? && Truthy(Get(request, "bankAccountId"))
    ensures var r := SuggestionsPost(Ok(request), settings, env, true, list, prompt, model, read, generatedAt);
      var m := ReconciliationSuggestions(ToJsString(Get(request, "bankAccountId")),
                                         GetAnthropicApiKey(settings, env).value, list, prompt, model, read);
      && (m.Ok? ==> r.Suggested? && r.suggestions == m.value && SortedDesc(r.suggestions, ConfidenceOf)
                    && r.highConfidence == Count(m.value, IsHigh))
      && (m.Err? ==> r == Refused(ErrorReply(500, m.error.MessageOr("Failed to generate suggestions"))))
  {
  }

  // --------------------------------------------------------------- accounts

  /** `s.slice(-4)`: the last four characters, or all of a shorter string. */
  function LastFour(s: string): (r: string)
    ensures |r| == if |s| < 4 then |s| else 4
    ensures IsSuffix(r, s)
  {
    if |s| <= 4 then s else s[|s| - 4..]
  }

  /** Line 27: "****" and the last four characters of a truthy account number, else "". */
  function MaskedNumber(number: Json): (masked: string)
    ensures !Truthy(number) ==> masked == ""
    ensures Truthy(number) ==>
      && |masked| == 4 + (if |ToJsString(number)| < 4 then |ToJsString(number)| else 4)
      && IsPrefix("****", masked) && IsSuffix(masked[4..], ToJsString(number))
      && masked == "****" + LastFour(ToJsString(number))
  {
    if Truthy(number) then "****" + LastFour(ToJsString(number)) else ""
  }

  /** One bank account as the route shows it. */
  datatype AccountView = AccountView(
    id: Json, name: Json, balance: Json, accountType: Json, bankName: Json, accountNumber: string,
    uncategorizedCount: Json)

  /** Lines 21-29: the fields passed through, the bank name defaulting to "" and the count to 0. */
  function ViewOf(a: Json): (v: AccountView)
    ensures v.id == Get(a, "account_id") && v.name == Get(a, "account_name")
    ensures v.balance == Get(a, "balance") && v.accountType == Get(a, "account_type")
    ensures !Truthy(Get(a, "bank_name")) ==> v.bankName == JStr("")
    ensures Truthy(Get(a, "bank_name")) ==> v.bankName == Get(a, "bank_name")
    ensures v.accountNumber == MaskedNumber(Get(a, "account_number"))
    ensures !Truthy(Get(a, "uncategorized_transactions")) ==> v.uncategorizedCount == JNum(0)
    ensures Truthy(Get(a, "uncategorized_transactions")) ==> v.uncategorizedCount == Get(a, "uncategorized_transactions")
  {
    AccountView(Get(a, "account_id"), Get(a, "account_name"), Get(a, "balance"), Get(a, "account_type"),
                Or(Get(a, "bank_name"), JStr("")), MaskedNumber(Get(a, "account_number")),
                Or(Get(a, "uncategorized_transactions"), JNum(0)))
  }

  function ViewJson(v: AccountView): Json {
    JObj(map["id" := v.id, "name" := v.name, "balance" := v.balance, "type" := v.accountType,
             "bankName" := v.bankName, "accountNumber" := JStr(v.accountNumber),
             "uncategorizedCount" := v.uncategorizedCount])
  }

  /** A masked number never shows more of the account number than its last four characters. */
  lemma MaskShowsAtMostFour(number: Json)
    ensures var masked := MaskedNumber(number);
      masked == "" || (masked[..4] == "****" && |masked| - 4 <= 4 && IsSuffix(masked[4..], ToJsString(number)))
  {
  }

  /**
   * `GET /api/reconciliation/accounts`: a disconnected ledger gives the
   * fallback body; a failed settings read gives 500; otherwise one entry per
   * bank account in list order, a failed account list counting as none,
   * and the currency defaulting to "CAD".
   */
  function AccountsGet(connected: bool, settings: Result<Option<SettingsRow>, Thrown>,
                       bankAccounts: Result<seq<Json>, Thrown>): (reply: Reply)
    ensures !connected ==> reply == NotConnected
    ensures connected && settings.Err? ==>
      reply == Failure(settings.error.MessageOr("Failed"))
    ensures connected && settings.Ok? ==>
      && reply.status == 200 && Get(reply.body, "connected") == JBool(true)
      && Get(reply.body, "currency") == Or(Column(settings.value, "currency"), JStr("CAD"))
      && var accounts := Get(reply.body, "accounts");
      && accounts.JArr? && |accounts.items| == |OrEmpty(bankAccounts)|
      && forall i :: 0 <= i < |accounts.items| ==> accounts.items[i] == ViewJson(ViewOf(OrEmpty(bankAccounts)[i]))
  {
    if !connected then NotConnected
    else match settings
      case Err(e) =>
        Failure(e.MessageOr("Failed"))
      case Ok(row) =>
        var records := OrEmpty(bankAccounts);
        OkReply(map["connected" := JBool(true), "currency" := Or(Column(row, "currency"), JStr("CAD")),
                    "accounts" := JArr(seq(|records|, i requires 0 <= i < |records| => ViewJson(ViewOf(records[i]))))])
  }
}
