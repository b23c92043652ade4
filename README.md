# zoho-books-ai bookkeeping core in Dafny

This project models the decision layer of zoho-books-ai, a Next.js bookkeeping assistant that sits in front
of a Zoho Books organisation, together with proofs about it. The layer is the part of the program that
decides what happens next. The ledger, the language model and the database are all outside it.

- **Audit engine** (`audit_engine.dfy`, `audit_routes.dfy`): five structural checks and an AI pass, stored
  as open findings, then queried and resolved. The five checks are:
  - overdue invoices;
  - duplicate invoices and bills;
  - payment mismatches;
  - unusual expense amounts (a population z-score above 3);
  - uncategorized expenses.

  The store is a class over a sequence of rows.
- **Categorization and reconciliation** (`categorization.dfy`, `reconciliation.dfy`,
  `reconciliation_routes.dfy`):
  - categorization uses the rule table first and the model's suggestions for the rest;
  - learning a rule from an applied categorization updates a class holding the rules;
  - reconciliation uses exact-amount matching against invoices and bills, an AI fallback and a stable
    sort by confidence.
- **Autonomous bookkeeper** (`bookkeeper.dfy`, `tasks_route.dfy`):
  - a task queue class with a guard against concurrent sweeps;
  - the daily task plan;
  - the bounded model/tool loop that runs one task.
- **Chat** (`chat_route.dfy`, `chat_history.dfy`, `tool_executor.dfy`, `prompts.dfy`):
  - the model/tool loop of the chat route and the truncation of tool results;
  - the dispatcher from tool names to ledger calls;
  - the tool catalog;
  - the paginated chat history.
- **Reports, dashboard and transactions** (`reports.dfy`, `dashboard.dfy`, `transactions.dfy`): which
  ledger lists each view reads, how they are filtered, grouped, summed, ranked and sorted, and what each
  route answers.
- **Sessions and settings** (`auth.dfy`, `login.dfy`, `middleware.dfy`, `settings_helper.dfy`,
  `settings_route.dfy`, `zoho_cache.dfy`):
  - the session token, which is base64 of `username:timestamp:secret`;
  - the login route and the request gate;
  - the settings API with its API-key masking;
  - the Zoho data cache, as a class over a map of entries.
- **Support modules** (`seqs.dfy`, `grouping.dfy`, `stats.dfy`, `strings.dfy`, `base64.dfy`, `utf8.dfy`,
  `json.dfy`, `llm.dfy`, `books.dfy`, `dates.dfy`, `http.dfy`, `wrappers.dfy`, `formatters.dfy`). These
  model the JavaScript the core relies on:
  - `filter`, `reduce` and a stable `sort`;
  - `Map`-based grouping;
  - `toLowerCase`, `trim`, `split` and `parseInt`;
  - base64 and UTF-8;
  - truthiness and `||` on JSON values;
  - the greedy bracket regular expression;
  - money in integer cents.

The ledger, the model, the database, the clock and the id generator are function parameters. A failed
call is a `Result` error. Code that updates state in place is a class with `modifies` clauses; the
proofs about those classes are on the functions that specify them.

Some properties this model shows hold of the program as written:
- A configured username that contains `:` can never log in, because the token's first piece ends at the
  colon (`Auth.ColonInUsernameNeverVerifies`).
- The session token carries the signing secret in clear base64 (`Auth.TokenRevealsSecret`).
- The gate matches public paths by prefix, so `/loginx` is public, and image suffixes pass even under
  `/api/` (`Middleware.PublicByPrefix`).
- `clearCache("")` clears every entry (`ZohoCache.Cleared`).
- With the Anthropic key only in the environment and no settings row, every report request fails with 500
  at the currency read (`Reports.NoSettingsRowReportFails`).
- An account with ten or fewer expenses can never raise an unusual-amount finding. This follows from
  Samuelson's inequality (`AuditEngine.SmallAccountGroupsAreQuiet`).

Other behaviour of the code that the model keeps:
- A truncated tool result is 50000 characters plus the marker, and an array result is not truncated.
- A population z-score over five values cannot exceed 2, so `[100, 105, 98, 102, 5000]` flags nothing.
- A new audit deletes every stored finding, not only the open ones.
- Several exact reconciliation matches give the first candidate, without comparing dates.

## Model

| member | source | states |
|---|---|---|
| AuditEngine.OverdueFinding | src/lib/audit-engine.ts:123-150 | an overdue or partially paid invoice more than 30 days past due gets exactly one finding, critical iff more than 90 days, else a warning, for the invoice's id and with its balance (0 when missing); any other invoice gets none |
| AuditEngine.CheckOverdueInvoices | src/lib/audit-engine.ts:119-153 | the loop returns exactly the per-invoice findings, in invoice order |
| AuditEngine.OverdueFindingsAreAged | src/lib/audit-engine.ts:119-153 | every overdue finding is critical or a warning and comes from an outstanding invoice more than 30 days past due |
| AuditEngine.GroupNumbers | src/lib/audit-engine.ts:177 | the title lists one number per group member, in input order, a missing number shown as empty |
| AuditEngine.DuplicateFinding | src/lib/audit-engine.ts:172-187 | a duplicate group's warning carries the first member's id and total and a title listing every member's number |
| AuditEngine.DuplicateGroupsMember | src/lib/audit-engine.ts:166-209 | a finding is produced for a list of keys iff it is the warning of one of those keys' groups of two or more |
| AuditEngine.DuplicateWarningsAreGroups | src/lib/audit-engine.ts:155-211 | a warning is raised iff some (party, date, total) key has a group of two or more records and the warning is that group's; singletons raise nothing |
| AuditEngine.DuplicateGroupFindings | src/lib/audit-engine.ts:164-187 | the grouping loop over one kind of record returns exactly the specified group warnings, in first-seen key order |
| AuditEngine.CheckDuplicates | src/lib/audit-engine.ts:155-211 | the invoice warnings come first, then the bill warnings |
| AuditEngine.Duplicates | src/lib/audit-engine.ts:155-211 | a finding is reported iff it is the warning of a (party, date, total) key shared by two or more invoices, or by two or more bills |
| AuditEngine.MismatchFinding | src/lib/audit-engine.ts:221-234 | a paid invoice gets a critical payment_mismatch finding iff its balance is positive, with the balance as amount |
| AuditEngine.ExcessFinding | src/lib/audit-engine.ts:236-249 | a payment gets an info excess_payment finding iff its unused amount is positive, with that amount |
| AuditEngine.CheckPaidInvoices | src/lib/audit-engine.ts:221-234 | the invoice loop returns exactly the per-invoice mismatch findings in order |
| AuditEngine.CheckExcessPayments | src/lib/audit-engine.ts:236-249 | the payment loop returns exactly the per-payment excess findings in order |
| AuditEngine.CheckPaymentMismatches | src/lib/audit-engine.ts:214-252 | invoice findings precede payment findings |
| AuditEngine.PaymentMismatches | src/lib/audit-engine.ts:214-252 | at most one finding per invoice or payment, and a finding is reported iff some invoice raises the paid-with-balance finding or some payment the excess finding |
| AuditEngine.Amounts | src/lib/audit-engine.ts:261-269 | one amount per expense of an account, in order, each the total or 0 |
| AuditEngine.GroupOutliers | src/lib/audit-engine.ts:271-297 | an account's expenses yield at most one finding each |
| AuditEngine.OutlierIsZTest | src/lib/audit-engine.ts:274-284 | for the mean (n*mean == sum) and population variance (n*variance == sum of squared deviations), the integer test used is exactly "standard deviation not 0, squared deviation above nine variances, and amount above 100 dollars" |
| AuditEngine.SmallAccountsHaveNoOutliers | src/lib/audit-engine.ts:271-297 | no expense among an account's first k is flagged when the account has at most ten expenses |
| AuditEngine.SmallAccountGroupsAreQuiet | src/lib/audit-engine.ts:271-297 | an account with ten or fewer expenses never raises an unusual-amount finding, because a population z-score cannot exceed the square root of n - 1 |
| AuditEngine.UnusualFinding | src/lib/audit-engine.ts:285-294 | an unusual_amount warning about the expense, with its id and amount, whose description names the expense's date, the amount, the z-score and the mean as `toFixed` prints them, and the account |
| AuditEngine.UnusualAmounts | src/lib/audit-engine.ts:254-300 | every finding of the check is an unusual_amount warning about an expense |
| AuditEngine.OutliersAreWarnings | src/lib/audit-engine.ts:286-294 | every unusual-amount finding of an account is an unusual_amount warning about an expense |
| AuditEngine.UnusualAreWarnings | src/lib/audit-engine.ts:271-297 | the same over all accounts |
| AuditEngine.FlagOutliers | src/lib/audit-engine.ts:272-296 | the per-account loop returns exactly the specified outliers, in expense order |
| AuditEngine.ScanOutliers | src/lib/audit-engine.ts:282-296 | the loop over a group with a spread returns the flags of its expenses, in expense order |
| AuditEngine.OutlierTest | src/lib/audit-engine.ts:283-284 | the loop's integer test on one amount is the outlier flag |
| AuditEngine.CheckUnusualAmounts | src/lib/audit-engine.ts:254-300 | the whole check returns the outliers of every account, accounts in first-seen order (account name, "Unknown" when empty) |
| AuditEngine.UncategorizedSumIsFilteredSum | src/lib/audit-engine.ts:307-318 | the running uncategorized total is the sum of the totals of exactly the uncategorized expenses |
| AuditEngine.UncategorizedFindings | src/lib/audit-engine.ts:302-333 | no finding iff no expense is uncategorized (empty name, or one containing uncategorized, suspense or ask my accountant in any case); otherwise one finding with the sum as amount, critical iff more than 10 |
| AuditEngine.CheckUncategorized | src/lib/audit-engine.ts:302-333 | the counting loop returns exactly that |
| AuditEngine.TallyUncategorized | src/lib/audit-engine.ts:304-318 | the loop counts exactly the uncategorized expenses and sums exactly their totals |
| AuditEngine.Defaulted | src/lib/audit-engine.ts:417-425 | each falsy field of an AI finding takes its default (ai_finding, info, AI Finding, "", general, "", 0); a non-empty string severity and a numeric amount are kept |
| AuditEngine.AiError | src/lib/audit-engine.ts:427-437 | a throw becomes one ai_error finding of severity info and amount 0 |
| AuditEngine.AiFindings | src/lib/audit-engine.ts:398-440 | a failing call, a failing parse or a null element gives exactly the one error finding; no bracketed span gives nothing; otherwise one defaulted finding per parsed element, in order |
| AuditEngine.ReadAll | src/lib/audit-engine.ts:32-54 | the first n reads all return, each list being its read's result, or the error is that of the first read that throws, every earlier read having returned |
| AuditEngine.FetchAuditData | src/lib/audit-engine.ts:32-54 | the audit has its data iff all eight reads return, the invoices, bills, expenses and customer payments being those reads' results; otherwise it fails with the error of the first read that throws |
| AuditEngine.FullAudit | src/lib/audit-engine.ts:24-93 | the audit fails exactly when reading the data fails, and with that error |
| AuditEngine.AiPassKeepsStructuralFindings | src/lib/audit-engine.ts:59-93 | once the data are fetched, the audit succeeds and its result starts with the structural findings, whatever the AI pass does |
| AuditEngine.OverdueSeveritiesKnown | src/lib/audit-engine.ts:119-153 | overdue findings have a known severity |
| AuditEngine.DuplicateSeveritiesKnown | src/lib/audit-engine.ts:155-211 | duplicate findings are warnings |
| AuditEngine.PaymentSeveritiesKnown | src/lib/audit-engine.ts:214-252 | payment findings have a known severity |
| AuditEngine.StructuralFindings | src/lib/audit-engine.ts:59-75 | every structural finding is critical, warning or info |
| AuditEngine.RunStructuralChecks | src/lib/audit-engine.ts:59-75 | the five checks run in order overdue, duplicates, payments, unusual amounts, uncategorized, and their findings are concatenated in that order |
| AuditEngine.Persisted | src/lib/audit-engine.ts:98-111 | one stored row per finding, in order, each with status "open" and no resolution |
| AuditEngine.FindingStore.Create | src/lib/audit-engine.ts:99-110 | creating a row appends exactly that row |
| AuditEngine.FindingStore.CreateAll | src/lib/audit-engine.ts:98-111 | the save loop appends exactly the persisted rows of the findings |
| AuditEngine.FindingStore.DeleteAll | src/app/api/audit/run/route.ts:29 | deleting all findings empties the store, open and resolved alike |
| AuditEngine.Select | src/lib/audit-engine.ts:443-457 | the rows returned are exactly the stored rows that satisfy every present filter, drawn from the store (no row more often than stored) and kept in store order |
| AuditEngine.SelectWithoutFilters | src/lib/audit-engine.ts:449-451 | with no filter present every row is returned, in store order |
| AuditEngine.FindingStore.Query | src/lib/audit-engine.ts:443-457 | a query returns the selected rows of the store |
| AuditEngine.FindRow | src/lib/audit-engine.ts:459-468 | finds the first row with the id, or reports that none has it |
| AuditEngine.FindingStore.Resolve | src/lib/audit-engine.ts:459-468 | an unknown id fails and changes nothing; otherwise exactly that row becomes resolved with the resolution and time, and is returned |
| AuditEngine.RunFullAudit | src/lib/audit-engine.ts:24-115 | the audit's result is the specified one; a failed fetch stores nothing; otherwise each finding is stored once, with status "open", in result order |
| AuditRoutes.SeverityCount | src/app/api/audit/run/route.ts:35-37 | a severity count is at most the number of findings, 0 iff no finding has it, and the total iff all have it |
| AuditRoutes.SeverityCountsPartition | src/app/api/audit/run/route.ts:33-38 | the critical, warning and info counts plus the findings of any other severity make up the total, and the three cover the total iff every severity is known |
| AuditRoutes.SummaryCoversKnownPrefix | src/app/api/audit/run/route.ts:33-38 | after findings of known severity, the three counts fall short of the total by exactly the unknown severities of what follows |
| AuditRoutes.RunSummaryCoversStructuralFindings | src/app/api/audit/run/route.ts:31-38 | for an audit's result, the three counts miss only AI findings whose defaulted severity is some other string |
| AuditRoutes.UnknownCountConcat | src/app/api/audit/run/route.ts:33-38 | findings of other severities add up over concatenation |
| AuditRoutes.FindingJson | src/app/api/audit/run/route.ts:40 | a finding's JSON carries its severity and type |
| AuditRoutes.FindingsJson | src/app/api/audit/run/route.ts:40 | the findings are returned one for one, in order |
| AuditRoutes.AuditRun | src/app/api/audit/run/route.ts:7-48 | no key gives 400 and then no connection gives 400, both leaving the store alone; otherwise all stored findings are deleted first, and a failed audit answers 500 with its message over an empty store, a successful one stores exactly its findings and answers the total, the three severity counts and the findings |
| AuditRoutes.QueryFilter | src/app/api/audit/results/route.ts:7-9 | an absent or empty parameter becomes no filter; any other value is kept |
| AuditRoutes.StoredJson | src/app/api/audit/results/route.ts:22 | a stored row's JSON carries its id and status |
| AuditRoutes.StoredFindings | src/app/api/audit/results/route.ts:13-20 | the findings of the stored rows, one for one |
| AuditRoutes.StatusCount | src/app/api/audit/results/route.ts:18-19 | a status count is at most the number of rows and is the total iff every row has that status |
| AuditRoutes.ResultsGet | src/app/api/audit/results/route.ts:4-30 | a GET answers 200 with the rows that satisfy every present filter and the summary of exactly those rows |
| AuditRoutes.FilteredSummaryIsTotal | src/app/api/audit/results/route.ts:7-20 | filtered by a severity or a status, that count equals the number of rows returned |
| AuditRoutes.ResultsPut | src/app/api/audit/results/route.ts:33-53 | a missing finding id or resolution answers 400 and changes nothing; an unknown id (or a body that throws) answers 500 and changes nothing; otherwise exactly that row is resolved and returned |
| Auth.CredentialsOf | src/lib/auth.ts:10-15 | the username is AUTH_USERNAME, or "admin" when unset or empty; the password is AUTH_PASSWORD, non-empty exactly when it is set and non-empty |
| Auth.Secret | src/lib/auth.ts:21-23 | the secret is AUTH_SECRET when set and non-empty, else the built-in default, so never empty |
| Auth.CreateSessionToken | src/lib/auth.ts:29-35 | the token is the base64 text of the UTF-8 bytes of username, timestamp and secret joined by ':', so its length is a multiple of 4 |
| Auth.VerifySessionToken | src/lib/auth.ts:40-61 | a token is valid iff its decoded text has at least three ':'-separated fields, the third and later rejoined equal the secret, and a numeric timestamp is at most seven days old (a non-numeric one never expires); the username returned is the first field, has no ':', and the text is username, timestamp and secret |
| Auth.JoinThree | src/lib/auth.ts:46-48 | three or more fields rejoin as the first, the second and the secret field |
| Auth.TokenDataParts | src/lib/auth.ts:43 | without a colon in username or timestamp, the token text splits into username, timestamp and the secret's own pieces |
| Auth.TokenDecodes | src/lib/auth.ts:33-42 | decoding a created token gives back exactly its text (base64 and UTF-8 round trips) |
| Auth.TokenRoundTrip | src/lib/auth.ts:29-61 | a token made for a username without ':' verifies as that username until it is seven days old |
| Auth.ColonInUsernameNeverVerifies | src/lib/auth.ts:46-51 | a token made for a username containing ':' never verifies, because the secret field then starts inside the username |
| Auth.ExpiredTokenRejected | src/lib/auth.ts:53-55 | a token older than seven days never verifies |
| Auth.ForeignSecretRejected | src/lib/auth.ts:50-51 | a token made under one secret does not verify under a different one |
| Auth.TokenRevealsSecret | src/lib/auth.ts:27-35 | any valid token carries the secret in the clear, and with it a valid token for any colon-free username can be made |
| Auth.ValidateCredentials | src/lib/auth.ts:66-73 | credentials are accepted iff a password is configured and both username and password are exactly the configured ones |
| Auth.CredentialsNeedPassword | src/lib/auth.ts:66-81 | with authentication off nothing is accepted; with AUTH_USERNAME unset only "admin" is; with it on, the configured credentials are accepted |
| Auth.IsRequestAuthenticated | src/lib/auth.ts:87-95 | true when authentication is off, false without a non-empty cookie, else exactly the verification result |
| Auth.SessionCookieConfig | src/lib/auth.ts:100-109 | the session cookie is named ai-bookkeeper-session, lives 604800 seconds, is httpOnly, lax, at path "/", and secure iff in production |
| Login.LoginOf | src/app/api/auth/login/route.ts:10-58 | auth disabled gives Disabled before the body is read; a body that fails to parse gives Crashed; a missing or empty username or password gives Missing; a wrong pair gives Rejected; otherwise LoggedIn as the configured username, exactly when the credentials validate |
| Login.LoginAcceptsExactlyTheCredentials | src/app/api/auth/login/route.ts:25-33 | with auth on, a login succeeds iff the body carries exactly the configured username and password |
| Login.ReplyOf | src/app/api/auth/login/route.ts:12-57 | each outcome's status and message: 200, 500, 400, 401, 200 |
| Login.LoginPost | src/app/api/auth/login/route.ts:10-58 | the reply's status per outcome, a cookie set exactly on a successful login, its value the session token for the configured username at that time and its options the session cookie configuration |
| Login.LoginCookieAuthenticates | src/app/api/auth/login/route.ts:33-48 | the login cookie authenticates later requests for seven days when the username has no ':', and never after; with a ':' in the username it never authenticates |
| Middleware.IsStatic | src/middleware.ts:21-30 | the /_next and /favicon prefixes and the .ico, .png, .svg and .jpg suffixes |
| Middleware.MiddlewareOf | src/middleware.ts:12-49 | a request passes iff its path is public by prefix, static, or it is authenticated; an unauthenticated /api/ path gets 401 and any other unauthenticated path a redirect to the login page carrying its path, so exactly one outcome each |
| Middleware.DisabledAuthPassesEverything | src/middleware.ts:12-49 | with no password configured, every path passes |
| Middleware.LoggedInPassesEverywhere | src/middleware.ts:33-48 | a fresh login cookie lets every path through when the username has no ':' |
| Middleware.PublicByPrefix | src/middleware.ts:5-30 | prefix matching makes /api/zoho/auth/callback and /loginx public, and the .png suffix lets /api/settings.png through, all without a session |
| SettingsHelper.Column | src/lib/settings-helper.ts:9 | a missing settings row reads every column as undefined |
| SettingsHelper.TextColumn | src/lib/settings-helper.ts:9 | a string column reads as its text; any other value as "", which is falsy |
| SettingsHelper.GetAnthropicApiKey | src/lib/settings-helper.ts:7-12 | the stored key when non-empty, else ANTHROPIC_API_KEY when non-empty, else null; never "" |
| SettingsHelper.GetAiModel | src/lib/settings-helper.ts:17-20 | the stored model when non-empty, else claude-sonnet-4-20250514; never "" |
| SettingsHelper.GetAppBaseUrl | src/lib/settings-helper.ts:26-30 | NEXT_PUBLIC_APP_URL, else "https://" and RAILWAY_PUBLIC_DOMAIN, else http://localhost:3001, empty values skipped |
| SettingsRoute.MaskAgreesWithKey | src/app/api/settings/route.ts:15 | the GET reports a key exactly when the key lookup would find one |
| SettingsRoute.ApiKeySource | src/app/api/settings/route.ts:16 | "database" iff the row holds a key, else "environment" iff the environment does, else "none" |
| SettingsRoute.ViewOf | src/app/api/settings/route.ts:15-23 | the reply shows the row, the mask "sk-ant-...configured" iff some key exists and "" otherwise, the key source only on GET, the base URL and the base URL followed by /api/zoho/auth |
| SettingsRoute.BodyMasksKey | src/app/api/settings/route.ts:18-24 | the body's anthropicApiKey is the mask or "", never the stored key, and its redirectUri is the base URL plus /api/zoho/auth |
| SettingsRoute.BodyShowsFields | src/app/api/settings/route.ts:18-19 | every other known field shows its stored value |
| SettingsRoute.FieldNames | src/app/api/settings/route.ts:35-44 | no copied field is one of the added reply fields |
| SettingsRoute.Created | src/app/api/settings/route.ts:9-11 | a created row has id "default" |
| SettingsRoute.SettingsGet | src/app/api/settings/route.ts:5-29 | a failing read fails; an existing row is shown unchanged; a missing one is created with id "default" and shown; the table gains at most that row |
| SettingsRoute.GetIsIdempotent | src/app/api/settings/route.ts:7-12 | a second GET sees the same row and changes nothing further |
| SettingsRoute.GetReply | src/app/api/settings/route.ts:18-28 | a failure answers 500 "Failed to fetch settings", a success 200 with the body |
| SettingsRoute.KeyUpdateOf | src/app/api/settings/route.ts:37-39 | an undefined key or a string containing "...configured" is skipped, any other string is written, an array is tested element-wise, and anything else throws |
| SettingsRoute.CopiedSnoc | src/app/api/settings/route.ts:35-44 | one more conditional assignment adds that field exactly when it is copied |
| SettingsRoute.CopyStep | src/app/api/settings/route.ts:35-44 | the same for the k-th known field |
| SettingsRoute.UpdateOf | src/app/api/settings/route.ts:35-44 | the update holds exactly the seven known fields that are defined in the body (the key only when written), with the body's values; a null body or a throwing key test fails the PUT |
| SettingsRoute.BuildUpdate | src/app/api/settings/route.ts:35-44 | the seven conditional assignments build exactly that update |
| SettingsRoute.Upsert | src/app/api/settings/route.ts:46-50 | the upsert touches only the default row and creates it when absent |
| SettingsRoute.SettingsPut | src/app/api/settings/route.ts:31-64 | a failing body, key test or store fails; otherwise the table is the upsert of the update and the reply shows the stored row masked, without a key source |
| SettingsRoute.PutReply | src/app/api/settings/route.ts:54-63 | a failure answers 500 "Failed to update settings", a success 200 with the body |
| SettingsRoute.PutChangesOnlyCopiedFields | src/app/api/settings/route.ts:35-50 | a field the PUT does not copy keeps its stored value |
| SettingsRoute.EchoedMaskKeepsKey | src/app/api/settings/route.ts:37-39 | sending back the mask the GET showed leaves the stored key as it was |
| SettingsRoute.OtherKeyReplaces | src/app/api/settings/route.ts:37-39 | any other string, "" included, replaces the stored key |
| SettingsRoute.ShownUpdateIsStored | src/app/api/settings/route.ts:18-44 | when a key exists, the update read from the GET's body holds only values already stored |
| SettingsRoute.PutOfShownIsNoChange | src/app/api/settings/route.ts:5-50 | the round trip: PUT of what the GET showed leaves the table unchanged when a key exists |
| ZohoCache.GetSettings | src/lib/zoho-mcp.ts:24-30 | throws the "not configured" error iff the row is missing or its zohoOrgId is falsy; otherwise returns the row |
| ZohoCache.Lookup | src/lib/zoho-mcp.ts:4-8 | a read finds the stored text iff the entry exists and expires strictly after now |
| ZohoCache.Read | src/lib/zoho-mcp.ts:4-13 | a read gives null on a miss, and otherwise the parse of the stored text, a parse that throws propagating |
| ZohoCache.AfterLookup | src/lib/zoho-mcp.ts:9-12 | an expired entry is removed by the read; otherwise the table is unchanged |
| ZohoCache.Stored | src/lib/zoho-mcp.ts:15-22 | the upsert stores the text with expiry now + minutes * 60000, keeps an existing entry's endpoint, and leaves every other key unchanged |
| ZohoCache.Cleared | src/lib/zoho-mcp.ts:48-56 | clearing an endpoint removes exactly its entries and keeps the rest; clearing with none (or "") removes everything |
| ZohoCache.CacheMinutes | src/lib/zoho-mcp.ts:40 | the configured minutes if a non-zero number, else 15; never 0 |
| ZohoCache.CacheKey | src/lib/zoho-mcp.ts:39 | the key starts with the endpoint and ':' |
| ZohoCache.Stringify | src/lib/zoho-mcp.ts:39 | `JSON.stringify` of a string record: the members in order, keys and values quoted and escaped, inside braces |
| ZohoCache.StoreThenLookup | src/lib/zoho-mcp.ts:4-22 | after a write, a read finds the text exactly until its expiry, and a later read removes it |
| ZohoCache.StoreKeepsOtherReads | src/lib/zoho-mcp.ts:15-22 | a write does not change what other keys read |
| ZohoCache.CacheRoundTrip | src/lib/zoho-mcp.ts:37-46 | data cached for an endpoint and parameters is read back, for the same ones and within the lifetime, as the parse of its serialisation, which is the data itself whenever parsing undoes serialising; afterwards the read gives null |
| ZohoCache.CachedNullIsMiss | src/lib/zoho-mcp.ts:7-12 | a live entry whose text parses to null reads exactly as a miss |
| ZohoCache.DefaultLifetime | src/lib/zoho-mcp.ts:40 | without a settings row, or with 0 minutes, an entry lives 15 minutes |
| ZohoCache.ClearThenLookup | src/lib/zoho-mcp.ts:48-56 | after clearing an endpoint none of its entries is found and other entries read as before |
| ZohoCache.Cache.GetCached | src/lib/zoho-mcp.ts:4-13 | the read returns the parse of the live entry's text, or null, and removes an expired entry |
| ZohoCache.Cache.SetCache | src/lib/zoho-mcp.ts:15-22 | a serialisation that throws writes nothing and returns its error; otherwise the serialised text is upserted as specified |
| ZohoCache.Cache.CacheZohoData | src/lib/zoho-mcp.ts:37-41 | writes the serialised data under the endpoint's key with the configured lifetime, or nothing when serialising throws |
| ZohoCache.Cache.GetCachedZohoData | src/lib/zoho-mcp.ts:43-46 | reads and parses under the endpoint's key |
| ZohoCache.Cache.ClearCache | src/lib/zoho-mcp.ts:48-56 | the table after clearing is as specified |
| Formatters.AgoOf | src/lib/formatters.ts:36-48 | a difference under a minute, including any future date, is "just now"; then minutes under an hour, hours under a day, days under a week, each count the floor of the difference and so within its range; an unparseable date or a week or more shows the formatted date |
| Formatters.AgoMonotone | src/lib/formatters.ts:40-47 | an older date never falls in a nearer bucket, nor shows a smaller count in the same one |
| Formatters.FormatRelativeTime | src/lib/formatters.ts:36-49 | the text for each bucket: "just now", "<n>m ago", "<n>h ago", "<n>d ago", or the formatted date |
| Formatters.PercentSign | src/lib/formatters.ts:32 | the sign is "+" iff the value is at least 0, and nothing otherwise |
| Formatters.FormatPercent | src/lib/formatters.ts:31-34 | the sign, then the fixed-point digits, then "%" |
| Formatters.ClassesOf | src/lib/formatters.ts:52-61 | every one of the eight statuses has classes starting with "bg-" |
| Formatters.StatusColorAsWritten | src/lib/formatters.ts:51-63 | as written: a listed status (in any case) gets its classes, but a status that lower-cases to an inherited member name yields that member |
| Formatters.ConstructorLeaks | src/lib/formatters.ts:62 | "Constructor" yields the inherited Object constructor, not a class string |
| Formatters.StatusColor | src/lib/formatters.ts:51-63 | corrected: the classes of the lower-cased status when listed, else bg-gray-100 text-gray-700 |
| Formatters.StatusColorIsClasses | src/lib/formatters.ts:51-63 | the corrected lookup ignores case, always yields "bg-" classes, and agrees with the code as written wherever that yields a class string |
| Formatters.LowerIdempotent | src/lib/formatters.ts:62 | lower-casing twice is lower-casing once |
| ChatHistory.Param | src/app/api/chat/history/route.ts:7-8 | a present, non-empty parameter is parsed; otherwise the default |
| ChatHistory.WindowOf | src/app/api/chat/history/route.ts:7-9 | page defaults to 1 and limit to 20, and skip is (page - 1) * limit whenever both parse |
| ChatHistory.DefaultWindow | src/app/api/chat/history/route.ts:7-9 | with no parameters: page 1, limit 20, skip 0 |
| ChatHistory.TotalPages | src/app/api/chat/history/route.ts:27 | no page count (JSON null) iff the limit is NaN or 0; for a positive limit the least number of pages holding every conversation, i.e. ceil(total / limit) |
| ChatHistory.Newest | src/app/api/chat/history/route.ts:15-20 | a conversation keeps its id, title and update time and at most one message, which it has iff it had any |
| ChatHistory.NewestIsNewest | src/app/api/chat/history/route.ts:16-19 | the message kept is one of the conversation's own and no dropped message is newer |
| ChatHistory.PageOf | src/app/api/chat/history/route.ts:11-21 | a page holds at most `limit` conversations |
| ChatHistory.EveryConversationOnItsPage | src/app/api/chat/history/route.ts:9-14 | with skip = (page - 1) * limit, the i-th conversation of the ordering is on page i / limit + 1 at position i mod limit |
| ChatHistory.PageIsOrdered | src/app/api/chat/history/route.ts:11-21 | a page is ordered by update time, newest first, and every row is a stored conversation reduced to its newest message |
| ChatHistory.HistoryGet | src/app/api/chat/history/route.ts:4-33 | a failing read fails the request; otherwise the page as read, the parsed page and limit, the total and the page count |
| ChatHistory.HistoryGetShowsPage | src/app/api/chat/history/route.ts:10-27 | when the page read is `findMany` over the parsed window and the count is that of all conversations, the reply holds at most `limit` rows, newest update first, row k being conversation skip + k of that order with its newest message, and the total of all conversations |
| Bookkeeper.Truncate | src/lib/autonomous-bookkeeper.ts:226-229 | text of at most 50000 characters is kept; longer text becomes its first 50000 characters followed by the 15-character "... [truncated]" |
| Bookkeeper.TaskResultBlock | src/lib/autonomous-bookkeeper.ts:223-244 | each tool result carries the id of its tool-use block |
| Bookkeeper.TaskResultContent | src/lib/autonomous-bookkeeper.ts:223-244 | a serialised outcome gives a non-error result with the truncated JSON; a serialisation that throws gives an is_error result carrying the error's JSON; a second failure escapes |
| Bookkeeper.TaskToolResults | src/lib/autonomous-bookkeeper.ts:222-244 | one result per tool-use block, each the block's own result |
| Bookkeeper.TaskToolResultsMatchIds | src/lib/autonomous-bookkeeper.ts:222-244 | the results turn has exactly one tool_result per tool-use block, in the same order and with the same id |
| Bookkeeper.TaskToolResultsStep | src/lib/autonomous-bookkeeper.ts:222-244 | one more block appends its result, or the first failure stands |
| Bookkeeper.TaskToolResultsErrExtends | src/lib/autonomous-bookkeeper.ts:222-244 | a failure part-way through is the failure of the whole turn |
| Bookkeeper.RunTaskTools | src/lib/autonomous-bookkeeper.ts:222-244 | the loop over the tool-use blocks builds exactly that results turn |
| Bookkeeper.Converse | src/lib/autonomous-bookkeeper.ts:192-246 | the loop never makes more than 10 model calls |
| Bookkeeper.ConverseStep | src/lib/autonomous-bookkeeper.ts:205-245 | a response that does not end the task is appended verbatim as the assistant turn, then its results turn, and the loop continues with the latest text |
| Bookkeeper.ConverseEnd | src/lib/autonomous-bookkeeper.ts:208-216 | a response without tool-use blocks, or with stop reason end_turn, ends the loop |
| Bookkeeper.ConverseModelFails | src/lib/autonomous-bookkeeper.ts:194-202 | a failing model call fails the run |
| Bookkeeper.ConverseToolsFail | src/lib/autonomous-bookkeeper.ts:222-244 | a failing results turn fails the run |
| Bookkeeper.LatestTextSnoc | src/lib/autonomous-bookkeeper.ts:208-212 | a response with text replaces the kept text by its text blocks joined with "\n"; one without keeps it |
| Bookkeeper.ConverseKeepsLatestText | src/lib/autonomous-bookkeeper.ts:190-246 | the text kept is that of the latest response that had text |
| Bookkeeper.ConverseStopsAtFirstEnd | src/lib/autonomous-bookkeeper.ts:192-246 | the loop stops at the first response that ends the task, or after 10 calls, and no earlier response ended it |
| Bookkeeper.TaskOutcomeNotEmpty | src/lib/autonomous-bookkeeper.ts:248 | a run's text is never empty: the latest text, or "Task completed but no summary was generated." |
| Bookkeeper.RunWithClaude | src/lib/autonomous-bookkeeper.ts:179-249 | the while loop returns exactly the specified run's text, or its failure |
| Bookkeeper.Instruction | src/lib/autonomous-bookkeeper.ts:123-144 | a custom or unknown task type runs its own description |
| Bookkeeper.FindTask | src/lib/autonomous-bookkeeper.ts:114 | the first task with the id, or none has it |
| Bookkeeper.Ids | src/lib/autonomous-bookkeeper.ts:162-171 | the ids of the tasks, in order |
| Bookkeeper.Finish | src/lib/autonomous-bookkeeper.ts:146-151 | a finished task is completed with the run's text and the time, or failed with the error's message ("Unknown error" without one), and keeps its id |
| Bookkeeper.Execute | src/lib/autonomous-bookkeeper.ts:113-154 | an unknown id, then a missing stored key, throws and changes nothing; otherwise exactly that task is finished, completed or failed, and a failing run never escapes |
| Bookkeeper.ExecuteKeepsIds | src/lib/autonomous-bookkeeper.ts:113-154 | executing a task never adds, removes or reorders tasks |
| Bookkeeper.ExecuteWithoutKeyChangesNothing | src/lib/autonomous-bookkeeper.ts:117-118 | without a stored key every execution throws and the queue is unchanged |
| Bookkeeper.Rank | src/lib/autonomous-bookkeeper.ts:163-166 | the comparator's order: high 0, medium 1, low 2; any other priority last (see Left out) |
| Bookkeeper.SweepOrder | src/lib/autonomous-bookkeeper.ts:162-167 | the specification of the sweep order: the pending tasks, stably sorted by rank |
| Bookkeeper.SweepOrderIsPrioritySorted | src/lib/autonomous-bookkeeper.ts:162-167 | the sweep runs exactly the pending tasks; when each has a known priority, high before medium before low, keeping queue order within a priority |
| Bookkeeper.SweepOrderIsSomeOrder | src/lib/autonomous-bookkeeper.ts:162-171 | the model's sweep order is a permutation of the pending tasks, so its sweep is one the engine's sort may produce |
| Bookkeeper.Sweep | src/lib/autonomous-bookkeeper.ts:169-171 | the specification of the loop: execute the listed ids in turn, the k-th finishing at the k-th time, and stop at the first throw |
| Bookkeeper.SweepFinishesListed | src/lib/autonomous-bookkeeper.ts:169-171 | with a key, running a list of queued ids finishes exactly those tasks and leaves the others as they were |
| Bookkeeper.SweepFinishesPending | src/lib/autonomous-bookkeeper.ts:157-175 | with a key, a sweep finishes every pending task and leaves every other task unchanged |
| Bookkeeper.ListedIsPending | src/lib/autonomous-bookkeeper.ts:162 | every task the sweep lists was pending |
| Bookkeeper.DailyDraftsArePlanned | src/lib/autonomous-bookkeeper.ts:65-109 | five built-in tasks, with priorities high, high, medium, medium, low |
| Bookkeeper.TaskQueue.GetTaskQueue | src/lib/autonomous-bookkeeper.ts:25-27 | the snapshot is the queue's contents |
| Bookkeeper.TaskQueue.AddTask | src/lib/autonomous-bookkeeper.ts:29-38 | exactly one new pending task is appended, everything else unchanged, and a fresh id keeps the ids distinct |
| Bookkeeper.TaskQueue.AnswerQuestion | src/lib/autonomous-bookkeeper.ts:40-48 | true iff the first task with the id awaits input, and then only that task becomes pending with the answer as result; otherwise nothing changes |
| Bookkeeper.TaskQueue.ClearCompletedTasks | src/lib/autonomous-bookkeeper.ts:50-52 | exactly the completed and failed tasks are removed, the rest keeping their order |
| Bookkeeper.TaskQueue.RemoveTask | src/lib/autonomous-bookkeeper.ts:54-61 | true iff a task has the id, and then only the first such task is removed; otherwise nothing changes |
| Bookkeeper.TaskQueue.GenerateDailyTasks | src/lib/autonomous-bookkeeper.ts:65-109 | appends the five daily tasks in order and returns them |
| Bookkeeper.TaskQueue.ExecuteTask | src/lib/autonomous-bookkeeper.ts:113-154 | the queue and result after `executeTask` are the specified ones |
| Bookkeeper.TaskQueue.ProcessAllTasks | src/lib/autonomous-bookkeeper.ts:157-175 | a sweep while one runs does nothing; otherwise the pending tasks are run in some order of them, exactly the sweep order when every pending priority is known, a throw aborts the rest, and the running flag is clear afterwards |
| Bookkeeper.TaskQueue.constructor | src/lib/autonomous-bookkeeper.ts:22-23 | the module starts with an empty queue and no sweep running |
| TasksRoute.ParsePriority | src/app/api/bookkeeper/tasks/route.ts:74 | a priority string is stored as given |
| TasksRoute.TaskJson | src/app/api/bookkeeper/tasks/route.ts:26 | a task's JSON carries its id and status name |
| TasksRoute.TasksJson | src/app/api/bookkeeper/tasks/route.ts:26 | one JSON task per queued task |
| TasksRoute.CountStatus | src/app/api/bookkeeper/tasks/route.ts:20-24 | a status count is at most the total and 0 iff no task has that status |
| TasksRoute.Summarize | src/app/api/bookkeeper/tasks/route.ts:18-25 | the summary's total is the queue length and each count the number of tasks in that status |
| TasksRoute.SummaryCountsAddUp | src/app/api/bookkeeper/tasks/route.ts:18-25 | the five status counts sum to the total |
| TasksRoute.TasksGet | src/app/api/bookkeeper/tasks/route.ts:15-33 | GET answers 200 with the tasks and their summary |
| TasksRoute.AddDraft | src/app/api/bookkeeper/tasks/route.ts:69-75 | an added task defaults to type custom, title "Custom task", description "" and priority medium |
| TasksRoute.TasksPost | src/app/api/bookkeeper/tasks/route.ts:36-100 | a disconnected ledger answers 400 before anything runs; a null body fails at the destructuring (500); "add" appends the defaulted task; "execute" without a task id answers 400, with a non-string id answers 500 "Task not found" and changes nothing, otherwise runs the task whatever its status and answers 500 on a throw; "execute_all" answers that processing started and leaves the queue as a sweep leaves it; "generate_daily" appends the five planned tasks; "clear_completed" clears; "answer" reports exactly what answering returns; any other action answers 400 "Unknown action: <action>" and changes nothing; every request leaves the running flag as it found it (a sweep raises it and lowers it again), so the next "execute_all" is not refused |
| TasksRoute.TasksDelete | src/app/api/bookkeeper/tasks/route.ts:103-117 | no task id answers 400 and changes nothing; otherwise success mirrors removing the first task with the id; the running flag is unchanged |
| ChatRoute.Summary | src/app/api/chat/route.ts:108-113 | the digest of an oversized array result: success, the record count, the first 50 records and the note naming the count |
| ChatRoute.ResultContent | src/app/api/chat/route.ts:102-119 | a serialised result of at most 50000 characters passes verbatim; a larger one with array data becomes the digest; any other larger one its first 50000 characters and "... [truncated]"; a serialisation that throws escapes |
| ChatRoute.ResultBlock | src/app/api/chat/route.ts:99-125 | each tool result carries its tool-use block's id and is never marked as an error |
| ChatRoute.ToolResults | src/app/api/chat/route.ts:95-126 | one result per tool-use block, each the block's own |
| ChatRoute.ToolResultsMatchIds | src/app/api/chat/route.ts:89-126 | a round has exactly one tool_result per tool-use block, in block order and with the block's id |
| ChatRoute.ToolResultsStep | src/app/api/chat/route.ts:95-126 | one more block appends its result, or the first failure stands |
| ChatRoute.ToolResultsErrExtends | src/app/api/chat/route.ts:95-126 | a failure part-way through fails the whole round |
| ChatRoute.RunToolUses | src/app/api/chat/route.ts:93-126 | the loop over a round's blocks builds exactly those results and records the tool names in block order |
| ChatRoute.ToolsUsedLength | src/app/api/chat/route.ts:81-96 | the tools-used list has one name per tool-use block processed |
| ChatRoute.Trace | src/app/api/chat/route.ts:72-140 | the specification of a run: response k answers the history plus the first k rounds, every round answers a tool_use response with the results of its blocks, and the conversation and the tool names are those of the rounds |
| ChatRoute.RoundsStep | src/app/api/chat/route.ts:86-140 | a round answered with results and a further model call extends the trace of the loop |
| ChatRoute.ToolsUsedStep | src/app/api/chat/route.ts:95-96 | a round adds its tool names, in order, to the list |
| ChatRoute.LoopStep | src/app/api/chat/route.ts:86-140 | one iteration keeps the loop invariant: the conversation is the history followed by the assistant turn and results turn of every round so far |
| ChatRoute.ToolLoop | src/app/api/chat/route.ts:72-140 | a run that returns follows the trace to a response that does not ask for tools, or stops after 15 rounds, so at most 16 model calls; each response answers the history plus the earlier rounds; each round appends the assistant content then its results; every executed tool name is recorded in order; a run fails only when the first model call, or a round of the traced run, throws, and with that error |
| ChatRoute.ToolRound | src/app/api/chat/route.ts:86-140 | one round extends the trace by exactly one round, or fails because serialising a tool result or the next model call threw, with that error |
| ChatRoute.FinalMessage | src/app/api/chat/route.ts:143-146 | the reply is taken from the last response only, and is empty when it has no text blocks |
| ChatRoute.History | src/app/api/chat/route.ts:61-66 | the model receives the stored messages in order followed by the new user message |
| ChatRoute.HistoryOfStoredConversation | src/app/api/chat/route.ts:38-66 | with the 50 oldest stored messages, the history holds at most 51 turns and starts with those messages as stored |
| ChatRoute.Continued | src/app/api/chat/route.ts:36-49 | a conversation is continued iff a non-empty string id names a stored one, and then with at most its 50 oldest messages, in order; otherwise one is created |
| ChatRoute.ChatFailure | src/app/api/chat/route.ts:176-191 | the ZOHO_NOT_CONNECTED error answers 400, every other error 500 |
| ChatRoute.ChatPost | src/app/api/chat/route.ts:9-192 | a body that throws or is null answers through the catch block; a missing, null or blank message answers 400; a message that is not a string fails at `trim` (500); then no key answers 400 and a disconnected ledger 400, all with nothing stored; a truthy conversation id that is not a string fails at the lookup; every other request runs the turn exactly as `ChatRoute.ChatTurn` states, so it answers 200 with the finished run whenever the tool loop does not throw |
| ChatRoute.ChatMessage | src/app/api/chat/route.ts:14-175 | after a non-blank string message: no key answers 400 and a disconnected ledger 400 with nothing stored, a truthy non-string conversation id fails at the lookup, and every other request runs the turn as `ChatRoute.ChatTurn` states |
| ChatRoute.ChatTurn | src/app/api/chat/route.ts:36-175 | the user message is always stored first; a conversation is created, titled with the first 80 characters, exactly when none is continued; a 200 reply carries the conversation id, the final message of a finished run over the stored history and the message, the tools used and the round count, and stores that answer; a first exchange is retitled; a thrown error answers 400 or 500 through the catch block with only the user message stored and nothing retitled |
| ChatRoute.RoundsAgree | src/app/api/chat/route.ts:72-140 | two runs over the same history agree round by round wherever both have run: the model and the tools are deterministic |
| ChatRoute.FailingRoundIsEarlier | src/app/api/chat/route.ts:86-140 | a round the loop is entitled to run comes before the round where a finished run stopped |
| ChatRoute.ShorterRunIsPrefix | src/app/api/chat/route.ts:72-140 | a run with fewer rounds over the same history is the start of a longer one: same responses, same results |
| ChatRoute.EarlierRoundSucceeds | src/app/api/chat/route.ts:86-140 | a round that a finished run completed cannot be the round that throws |
| ChatRoute.FinishedExcludesFails | src/app/api/chat/route.ts:72-140 | a tool loop that finishes never throws: finishing and failing exclude each other |
| ChatRoute.FinishedTurnAnswers | src/app/api/chat/route.ts:36-175 | a turn whose tool loop finishes answers 200, so the catch block answers exactly when the loop throws |
| ToolExecutor.StringParams | src/lib/tool-executor.ts:160-168 | the parameters keep exactly the entries whose value is not undefined, null or an object, each converted as `String()` does |
| ToolExecutor.ToStringParams | src/lib/tool-executor.ts:160-168 | the loop over the entries builds exactly those parameters |
| ToolExecutor.Dispatch | src/lib/tool-executor.ts:15-150 | the switch makes a ledger call exactly for the dispatched tool names |
| ToolExecutor.ExecuteToolCall | src/lib/tool-executor.ts:9-158 | never throws: an unknown tool gives a failure "Unknown tool: <name>"; a ledger call that returns gives success with its data; one that throws gives a failure with its message, or "Tool <name> failed" |
| ToolExecutor.OutcomeJson | src/lib/tool-executor.ts:3-7 | the envelope's success field tells success from failure |
| ToolExecutor.UnknownToolMakesNoCall | src/lib/tool-executor.ts:149-150 | an unknown tool's result does not depend on the ledger at all, and is a failure |
| ToolExecutor.MissingAccountIdDefaultsToEmpty | src/lib/tool-executor.ts:32-35 | list_bank_transactions without account_id asks for account "" |
| ToolExecutor.MissingIdBecomesUndefined | src/lib/tool-executor.ts:59-60 | get_invoice without invoice_id asks for the id "undefined" |
| ToolExecutor.MissingPayloadsDefaultToEmpty | src/lib/tool-executor.ts:116-130 | send_invoice and categorize_transaction without their payloads send {} |
| ToolExecutor.ListTaxesIgnoresInput | src/lib/tool-executor.ts:55-56 | list_taxes makes the same call whatever its input |
| Prompts.CatalogNames | src/lib/prompts.ts:49-418 | the set of the catalog's tool names |
| Prompts.NamesDistinctFrom0 | src/lib/prompts.ts:49-418 | no later tool repeats the name of the first six |
| Prompts.NamesDistinctFrom6 | src/lib/prompts.ts:49-418 | the same for tools 6 to 11 |
| Prompts.NamesDistinctFrom12 | src/lib/prompts.ts:49-418 | the same for tools 12 to 17 |
| Prompts.NamesDistinctFrom18 | src/lib/prompts.ts:49-418 | the same for tools 18 to 23 |
| Prompts.NamesDistinctFrom24 | src/lib/prompts.ts:49-418 | the same for tools 24 to 29 |
| Prompts.NamesDistinctFrom30 | src/lib/prompts.ts:49-418 | the same for the last tools |
| Prompts.CatalogNamesDistinct | src/lib/prompts.ts:49-418 | the catalog holds 34 tools with pairwise distinct names |
| Prompts.CatalogSchemasWellFormed | src/lib/prompts.ts:49-418 | every input schema is of type "object" and requires only properties it declares |
| ToolExecutor.DispatchedBySection | src/lib/tool-executor.ts:15-150 | the dispatched names are exactly those of the switch's list, get, create, update and actions sections |
| Prompts.CatalogNamesAppend | src/lib/prompts.ts:49-418 | the names of a catalog made of two parts are the names of the parts |
| Prompts.ListSectionNames | src/lib/prompts.ts:50-166 | the list section offers exactly the dispatcher's list tools |
| Prompts.GetSectionNames | src/lib/prompts.ts:168-218 | the get section offers exactly the dispatcher's single-record tools |
| Prompts.CreateSectionNames | src/lib/prompts.ts:220-318 | the create section offers the dispatcher's create tools except create_bank_transaction |
| Prompts.UpdateSectionNames | src/lib/prompts.ts:320-356 | the update section offers the dispatcher's update tools except update_contact |
| Prompts.ActionSectionNames | src/lib/prompts.ts:358-418 | the actions section offers the dispatcher's action tools except mark_invoice_sent |
| Prompts.CatalogNamesBySection | src/lib/prompts.ts:49-418 | the catalog's names are the sections' names, and with the three left out they are the dispatcher's names |
| Prompts.UncataloguedNotOffered | src/lib/prompts.ts:49-418 | none of create_bank_transaction, update_contact and mark_invoice_sent is offered |
| Prompts.CatalogToolsAreDispatched | src/lib/prompts.ts:49-418 | every catalog tool has a case in the dispatcher, and none of the three uncatalogued ones is in the catalog |
| Prompts.CatalogAgreesWithDispatcher | src/lib/tool-executor.ts:15-150 | the dispatcher handles every catalog tool plus exactly create_bank_transaction, update_contact and mark_invoice_sent |
| Prompts.ReportTemplateKey | src/app/api/reports/generate/route.ts:222 | a report type with a template uses it; any other type the pnl template |
| Prompts.CustomReportUsesPnl | src/lib/prompts.ts:420-461 | there is no "custom" template, so a custom report uses pnl's |
| Categorization.TopRules | src/lib/categorization-engine.ts:34-38 | the top 50 categorization rules by usage count: at most 50, all of them when there are 50 or fewer, highest usage first, drawn from the table, and no rule left out has a higher usage count than one kept |
| Categorization.FirstMatch | src/lib/categorization-engine.ts:45-46 | the first rule whose lower-cased pattern occurs in the lower-cased description (or payee), or none matches |
| Categorization.RuleSuggestion | src/lib/categorization-engine.ts:44-61 | a suggestion iff the first matching rule has confidence at least 0.8, carrying that rule's account and confidence and the transaction's id; a later qualifying rule is never used |
| Categorization.SplitByRules | src/lib/categorization-engine.ts:41-62 | the loop puts the rule suggestions in one list and every other transaction in the model's list, both in order |
| Grouping.Partition | src/lib/categorization-engine.ts:44-62 | one pass keeps exactly what the rule gives each element and sets aside exactly the elements it gives nothing, both in input order |
| Categorization.SplitIsPartition | src/lib/categorization-engine.ts:44-62 | every transaction lands in exactly one of the two lists, and none the model gets had a qualifying rule |
| Categorization.FindTransaction | src/lib/categorization-engine.ts:156 | the first transaction with the id, or none has it |
| Categorization.AiSuggestion | src/lib/categorization-engine.ts:155-166 | an AI suggestion keeps the model's id, account and confidence; for an unknown id the description, amount and date default to "", 0 and "" |
| Categorization.AiCategorization | src/lib/categorization-engine.ts:78-174 | a failing call, no bracketed span, a failing parse or a null element give no suggestions; otherwise one per parsed element, in order |
| Categorization.CategorizationSuggestions | src/lib/categorization-engine.ts:18-76 | no uncategorized transactions gives [] without further reads; a failing transaction or chart read throws through; otherwise the result is the rule suggestions in transaction order followed, when some transactions match no rule and a key is set, by the model's suggestions for exactly those transactions against the expense chart; without a key the rule suggestions are all there is |
| Categorization.GetCategorizationSuggestions | src/lib/categorization-engine.ts:18-76 | the method returns exactly those suggestions for the stored rules |
| Categorization.Bump | src/lib/categorization-engine.ts:199 | the bumped confidence is min(1, old + 0.05): never above 1, never more than 0.05 higher, and never lower than a confidence of at most 1 |
| Categorization.FindRule | src/lib/categorization-engine.ts:188-190 | the first categorization rule with the pattern, or none has it |
| Categorization.Learned | src/lib/categorization-engine.ts:185-215 | a trimmed lower-cased description of at most 2 characters learns nothing; an existing rule gets the account, usage + 1 and the bumped confidence; otherwise a new rule with confidence 0.7 and usage 1 is added |
| Categorization.LearningIsMonotone | src/lib/categorization-engine.ts:185-215 | learning keeps confidences within [0, 1], never lowers a confidence or a usage count, keeps every rule's id and pattern, and adds at most one rule |
| Categorization.LearnedRuleIsFound | src/lib/categorization-engine.ts:185-215 | after learning, the pattern's rule is found and maps to the account just applied |
| Categorization.FindRuleUnchangedBefore | src/lib/categorization-engine.ts:188-190 | a rule with the pattern at position i, with nothing earlier changed or matching, is the one found |
| Categorization.RuleTable.Learn | src/lib/categorization-engine.ts:185-215 | the table after learning is as specified |
| Categorization.ApplyCategorization | src/lib/categorization-engine.ts:176-216 | the ledger is called first; a throw there leaves the rules alone, otherwise the table learns the mapping |
| Reconciliation.Abs | src/lib/categorization-engine.ts:255 | the magnitude of the amount, never negative |
| Reconciliation.KindOf | src/lib/categorization-engine.ts:256-261 | a transaction is matched as a bill exactly when it is a debit, else as an invoice |
| Reconciliation.Candidates | src/lib/categorization-engine.ts:259 | a debit is matched against the open bills, anything else against the sent invoices |
| Reconciliation.ExactMatches | src/lib/categorization-engine.ts:264-266 | exactly the candidates whose total equals the transaction's amount, drawn from the candidates |
| Reconciliation.ExactMatch | src/lib/categorization-engine.ts:268-295 | no candidate of the same amount gives no suggestion; otherwise the first such candidate, at 0.95 when it is the only one and 0.7 when there are several, with the transaction's id, amount and kind |
| Reconciliation.ExactPass | src/lib/categorization-engine.ts:254-296 | the loop collects the exact suggestions of the first 20 transactions, in order |
| Reconciliation.ExactSuggestions | src/lib/categorization-engine.ts:254-296 | the specification of the exact pass: the exact match of each of the first 20 transactions that has one, in order (proved shape in ExactSuggestionsShape) |
| Reconciliation.ExactSuggestionsShape | src/lib/categorization-engine.ts:254-296 | at most 20 exact suggestions, each at 0.95 or 0.7, and every one of the first 20 transactions with a same-amount candidate has its suggestion |
| Reconciliation.SuggestedIds | src/lib/categorization-engine.ts:300 | the set holds exactly the transaction ids of the suggestions |
| Reconciliation.Unmatched | src/lib/categorization-engine.ts:300-303 | the first 10 transactions (all of them when fewer) that no exact suggestion names, in their order, each one of the uncategorized ones |
| Reconciliation.AcceptAi | src/lib/categorization-engine.ts:366-382 | a model match is kept iff its confidence is at least 0.5 and its transaction is found; it then keeps the model's fields and takes amount and description from the transaction |
| Reconciliation.NonNullPrefix | src/lib/categorization-engine.ts:366-367 | the parsed elements before the first null one, at which reading `confidence` throws |
| Reconciliation.AcceptAiMatches | src/lib/categorization-engine.ts:366-382 | the loop over the parsed array keeps exactly the accepted matches, in order |
| Reconciliation.Accepted | src/lib/categorization-engine.ts:366-382 | the specification of the AI pass: the accepted match of each parsed element before the first null, in order (proved in AcceptedExactly) |
| Reconciliation.AcceptedExactly | src/lib/categorization-engine.ts:366-382 | every accepted match clears the 0.5 floor and names a known transaction, and every acceptable element before the first null is accepted |
| Reconciliation.AiMatches | src/lib/categorization-engine.ts:299-387 | no key, every transaction already suggested or none left unmatched gives no AI matches; every AI match clears the floor and names a known transaction |
| Reconciliation.AiFallback | src/lib/categorization-engine.ts:299-387 | the method returns exactly those AI matches |
| Reconciliation.ReconciliationSuggestions | src/lib/categorization-engine.ts:218-391 | no uncategorized transactions gives []; a failing read throws its error; otherwise the exact and AI suggestions together, as a permutation, sorted by confidence, highest first |
| Reconciliation.SuggestionsKeepOrderWithinConfidence | src/lib/categorization-engine.ts:390 | the sort is stable: suggestions of equal confidence keep the order they were found in |
| Reconciliation.GetReconciliationSuggestions | src/lib/categorization-engine.ts:218-391 | the method returns exactly those suggestions |
| ReconciliationRoutes.HighCount | src/app/api/reconciliation/suggestions/route.ts:44 | the count of suggestions at confidence 0.9 or more: at most all of them, and zero exactly when none is that high |
| ReconciliationRoutes.SuggestionsPost | src/app/api/reconciliation/suggestions/route.ts:6-54 | a bad body is a 500; no key, no connection or no bank account each a 400 with its message, in that order; otherwise the matcher's suggestions with their counts and the time |
| ReconciliationRoutes.SuggestionsAreTheMatchersOwn | src/app/api/reconciliation/suggestions/route.ts:34-52 | the reply carries the matcher's suggestions unchanged, sorted, with the high-confidence count; a throw from the matcher becomes a 500 with its message |
| ReconciliationRoutes.LastFour | src/app/api/reconciliation/accounts/route.ts:27 | the last four characters of the text, or all of it when shorter |
| ReconciliationRoutes.MaskedNumber | src/app/api/reconciliation/accounts/route.ts:27 | a missing number shows ""; otherwise "****" followed by the last four characters of the number's text |
| ReconciliationRoutes.ViewOf | src/app/api/reconciliation/accounts/route.ts:21-29 | each account view copies id, name, balance and type, defaults the bank name to "" and the uncategorized count to 0, and masks the number |
| ReconciliationRoutes.MaskShowsAtMostFour | src/app/api/reconciliation/accounts/route.ts:27 | a masked number never shows more than four characters of the account number |
| ReconciliationRoutes.AccountsGet | src/app/api/reconciliation/accounts/route.ts:8-38 | not connected answers so; a failing settings read is a 500; otherwise the currency (CAD by default) and one view per bank account, in order, with a failed account list read as empty |
| Reports.Fetches | src/app/api/reports/generate/route.ts:32-53 | exactly the lists each report type reads: invoices for pnl, cashflow, custom and aging; bills and expenses for pnl, cashflow, custom, expense and vendor; contacts for vendor; bank accounts and payments for cashflow |
| Reports.FilterByDate | src/app/api/reports/generate/route.ts:64-73 | with neither bound every item is kept; otherwise exactly the items with no date or a date within the bounds |
| Reports.FilterByDateKeeps | src/app/api/reports/generate/route.ts:64-73 | the filter keeps items in order, drawn from the input, and never drops an undated item |
| Reports.FilterByDateInRange | src/app/api/reports/generate/route.ts:66-72 | a kept dated item is no earlier than a set start and no later than a set end, as strings compare |
| Reports.OverdueIsUnpaid | src/app/api/reports/generate/route.ts:84-86 | an overdue invoice counts as unpaid, and no invoice is both paid and unpaid |
| Reports.InvoicePartition | src/app/api/reports/generate/route.ts:84-92 | the overdue invoices are among the unpaid ones, and the paid and unpaid counts never exceed the invoice count |
| Reports.CountPaidUnpaid | src/app/api/reports/generate/route.ts:84-85 | the paid and unpaid counts of any list add to at most its length |
| Reports.TopCustomers | src/app/api/reports/generate/route.ts:94-100 | the specification of the ranking: the customer table sorted by revenue, highest first, cut at ten (proved in TopCustomersAreTop) |
| Reports.TopCustomersAreTop | src/app/api/reports/generate/route.ts:94-100 | at most ten customers, largest revenue first, each with the sum of its invoices; no customer left out outranks one kept, and with ten or fewer customers their totals add to the revenue |
| Reports.BucketOf | src/app/api/reports/generate/route.ts:119-123 | days past due at most 0, 1-30, 31-60, 61-90 and over 90 (or an unparsable date) fall in buckets 0 to 4 |
| Reports.AgingOf | src/app/api/reports/generate/route.ts:109-124 | five balances and five counts |
| Reports.AgingPartition | src/app/api/reports/generate/route.ts:114-124 | the five counts add to the number of unpaid invoices and the five balances to their total balance |
| Reports.BucketsPartition | src/app/api/reports/generate/route.ts:114-124 | every invoice lands in exactly one bucket, so counts and balances over the buckets add up |
| Reports.AgingStep | src/app/api/reports/generate/route.ts:114-124 | one more invoice adds one to its own bucket's count and its balance to that bucket's balance, and nothing elsewhere |
| Reports.AgingBuckets | src/app/api/reports/generate/route.ts:111-124 | the loop's balances and counts are the aging analysis |
| Reports.InvoiceSectionOf | src/app/api/reports/generate/route.ts:81-134 | the invoice count, revenue, paid, unpaid and overdue counts and sums, the top customers, and the aging only for an aging report |
| Reports.ExpenseSectionOf | src/app/api/reports/generate/route.ts:136-158 | the expense count and total, and every category's total, largest first |
| Reports.CategoriesSumToTotal | src/app/api/reports/generate/route.ts:143-155 | the categories are sorted, add to the expense total, one per category name, and every expense's category is listed |
| Reports.StatsOf | src/app/api/reports/generate/route.ts:169-176 | a vendor's count is its number of bills and its paid count at most that |
| Reports.VendorTable | src/app/api/reports/generate/route.ts:168-176 | one entry per vendor name, in first-seen order, with the figures of that vendor's bills |
| Reports.VendorTotals | src/app/api/reports/generate/route.ts:168-176 | the loop builds exactly that table |
| Reports.VendorTableEntries | src/app/api/reports/generate/route.ts:169-176 | every vendor has at least one bill, and its figures are those of its bills |
| Reports.TopVendors | src/app/api/reports/generate/route.ts:168-177 | the specification of the ranking: the vendor table sorted by total billed, highest first, cut at fifteen (proved in TopVendorsAreTop) |
| Reports.TopVendorsAreTop | src/app/api/reports/generate/route.ts:177 | at most fifteen vendors, all of them when there are fifteen or fewer, largest total billed first, drawn from the vendor table; nobody left out outranks anybody kept |
| Reports.TopVendorFigures | src/app/api/reports/generate/route.ts:168-177 | every vendor kept carries the total, count and paid count of its own bills, with at least one bill and no more paid bills than bills |
| Reports.BillSectionOf | src/app/api/reports/generate/route.ts:160-186 | the bill count and total, and the top vendors only for a vendor report |
| Reports.PaymentSectionOf | src/app/api/reports/generate/route.ts:188-202 | the payment count and the sum of the amounts |
| Reports.BankSectionOf | src/app/api/reports/generate/route.ts:204-213 | the total cash is the sum of the balances, with one line per account in order |
| Reports.Summarize | src/app/api/reports/generate/route.ts:27-213 | each section is present exactly when its list is read for the report type, and is computed from the date-filtered list (the bank accounts unfiltered) |
| Reports.ContactsAreUnused | src/app/api/reports/generate/route.ts:47 | the contacts a vendor report reads change nothing in the summary |
| Reports.BuildSummary | src/app/api/reports/generate/route.ts:56-213 | the method builds exactly that summary |
| Reports.BuildInvoiceSection | src/app/api/reports/generate/route.ts:81-134 | the invoice loops (customer totals, in-place sort, aging buckets) build exactly the invoice section |
| Reports.BuildExpenseSection | src/app/api/reports/generate/route.ts:136-158 | the category-total loop and in-place sort build exactly the expense section |
| Reports.BuildBillSection | src/app/api/reports/generate/route.ts:160-186 | the vendor-tally loop and in-place sort build exactly the bill section |
| Reports.SummaryLines | src/app/api/reports/generate/route.ts:76-79 | the data text starts with the currency, the period and a blank line |
| Reports.JoinStartsWithFirst | src/app/api/reports/generate/route.ts:215 | joining two or more parts starts with the first part and the separator |
| Reports.FinancialData | src/app/api/reports/generate/route.ts:26-215 | without a connection the data is empty; with one it is the joined lines and starts with the currency |
| Reports.ReportCurrencyAsWritten | src/app/api/reports/generate/route.ts:23 | as written, a missing settings row throws reading `currency`; a present row gives its currency or CAD |
| Reports.NoSettingsRowFailsAsWritten | src/app/api/reports/generate/route.ts:13-23 | with the key only in the environment and no settings row, the key check passes and the currency read throws |
| Reports.ReportCurrency | src/app/api/reports/generate/route.ts:23 | the currency, CAD when the row or its currency is missing, agreeing with the code as written wherever that does not throw |
| Reports.SystemPrompt | src/app/api/reports/generate/route.ts:225-236 | the analyst's role, the live-data note when connected or the template note otherwise, and the currency to format in |
| Reports.UserMessage | src/app/api/reports/generate/route.ts:238-244 | the message ends with the data under its heading, or with the no-data note when the data is empty |
| Reports.RequestFor | src/app/api/reports/generate/route.ts:222-253 | the model request carries the key, the configured model, temperature 0.3, 4096 tokens, the system prompt and one user message built from the template and the detail level (detailed by default) |
| Reports.UnknownTypeUsesPnlTemplate | src/app/api/reports/generate/route.ts:222 | an unknown report type is given the pnl template |
| Reports.DraftFor | src/app/api/reports/generate/route.ts:261-269 | the saved report's title, type, period text, content, and a summary of the first 200 characters of the content |
| Reports.Respond | src/app/api/reports/generate/route.ts:246-278 | a failed model call is a 500; otherwise the text blocks joined by newlines are saved and returned with the saved row's id and time |
| Reports.ReportPost | src/app/api/reports/generate/route.ts:9-286 | a bad body, a null body and a missing key give the 500, 500 and 400 replies; with a key but no settings row the currency read throws and the reply is 500 |
| Reports.LiveData | src/app/api/reports/generate/route.ts:26-215 | the data text is non-empty exactly when the ledger is connected |
| Reports.Generate | src/app/api/reports/generate/route.ts:222-278 | a report type that is not a string throws at `toUpperCase` (a 500); otherwise the reply is that of the request built with the given currency |
| Reports.NoKeyReadsNothing | src/app/api/reports/generate/route.ts:14-20 | without a key the reply does not depend on the ledger, the model or the database write |
| Reports.ReportTypeMustBeString | src/app/api/reports/generate/route.ts:238 | a request with a key, a settings row and a non-string report type is a 500 with the TypeError message |
| Reports.GeneratedReportIsSaved | src/app/api/reports/generate/route.ts:9-278 | with a key, a settings row and a string report type, the reply is the saved report for the request built from the live data in the row's currency (CAD by default) |
| Reports.NoSettingsRowReportFails | src/app/api/reports/generate/route.ts:13-23 | with the key only in the environment and no settings row, every request past the key check answers 500, whatever the ledger, the model or the store do |
| Dashboard.MetricsOf | src/app/api/dashboard/route.ts:40-49 | revenue is the invoice totals; expenses add the bill totals to the expense totals and profit is revenue less both; outstanding and overdue sum the balances of their invoices; cash is the sum of bank balances |
| Dashboard.OverdueWithinOutstanding | src/app/api/dashboard/route.ts:44-48 | the outstanding amount is the overdue amount plus the sent and partially paid balances; the overdue count is at most the outstanding count, and with no negative balance the overdue amount is at most the outstanding one |
| Dashboard.OutstandingSplit | src/app/api/dashboard/route.ts:44-48 | the outstanding invoices split into the overdue ones and the sent or partially paid ones, in balance and in number |
| Dashboard.OutstandingIsUnpaid | src/app/api/dashboard/route.ts:45 | an outstanding invoice is never paid, void or a draft |
| Dashboard.OutstandingWithinReport | src/app/api/dashboard/route.ts:44-46 | the dashboard's outstanding invoices are among the ones the reports count as unpaid, and with no negative balance their sum is at most the reports' |
| Dashboard.Latest | src/app/api/dashboard/route.ts:51-54 | the specification of the recent list: the records sorted newest first, cut at five (proved in LatestAreNewest) |
| Dashboard.LatestAreNewest | src/app/api/dashboard/route.ts:51-54 | at most five records, all fetched, newest first, none left out newer than one shown, and all of them when there are five or fewer |
| Dashboard.LatestFive | src/app/api/dashboard/route.ts:52-54 | the method returns exactly the latest five |
| Dashboard.RecentEntries | src/app/api/dashboard/route.ts:51-77 | the recent lists hold at most five entries, each made from a fetched record |
| Dashboard.Fetched | src/app/api/dashboard/route.ts:21-38 | each of the four ledger lists the dashboard reads, a failed read counting as empty |
| Dashboard.DashboardOf | src/app/api/dashboard/route.ts:8-121 | a failed settings read is the 500 reply with its message; no connection or no organisation id shows nothing; otherwise the data, with the currency (CAD by default) |
| Dashboard.DashboardGet | src/app/api/dashboard/route.ts:8-121 | the method computes exactly that view |
| Dashboard.DashboardFigures | src/app/api/dashboard/route.ts:79-113 | a visible dashboard shows the metrics of the fetched lists, at most five recent invoices and expenses made from fetched records, every bank account, the open findings and the four counts |
| Dashboard.FailedReadsAreEmpty | src/app/api/dashboard/route.ts:28-32 | a failed ledger read or findings query gives the same dashboard as an empty one |
| Transactions.Param | src/app/api/transactions/route.ts:16-18 | a present non-empty query value, else the default |
| Transactions.StatusParams | src/app/api/transactions/route.ts:26 | a status filter is sent exactly when the status is non-empty, and it is the only parameter |
| Transactions.FromInvoice | src/app/api/transactions/route.ts:28-40 | an invoice row is money in, of kind invoice, for the invoice total |
| Transactions.FromBill | src/app/api/transactions/route.ts:47-59 | a bill row is money out, of kind bill, for the bill total |
| Transactions.FromExpense | src/app/api/transactions/route.ts:66-78 | an expense row is money out for the expense total, with a zero balance and a status and account name that are never empty |
| Transactions.FromBank | src/app/api/transactions/route.ts:84-96 | a bank row carries the transaction amount, is money in exactly for a credit, and always has a description and a status |
| Transactions.Collect | src/app/api/transactions/route.ts:23-97 | the pushes and the bank replacement build exactly the unified rows |
| Transactions.Unified | src/app/api/transactions/route.ts:23-97 | the specification of the rows: each list the type asks for, in the order invoices, bills, expenses, or the account's bank transactions, a failed read counting as empty |
| Transactions.KindSelectsLists | src/app/api/transactions/route.ts:25-97 | "all" gives invoices, bills and expenses in that order; each single type gives its own list; "bank" with an account gives only its transactions; any other type gives nothing |
| Transactions.StatusRowsFiltered | src/app/api/transactions/route.ts:26-61 | no invoice or bill row is of a kind the status filter does not reach |
| Transactions.UnfilteredAreExpenses | src/app/api/transactions/route.ts:63-80 | outside the bank view, the rows the status filter does not reach are exactly the expense rows |
| Transactions.StatusNarrowsInvoicesAndBills | src/app/api/transactions/route.ts:26-83 | the status never changes the expense or bank rows |
| Transactions.StatusOnlyOnInvoicesAndBills | src/app/api/transactions/route.ts:26-83 | only the invoice and bill lists are asked with the status filter |
| Transactions.SummaryOf | src/app/api/transactions/route.ts:115-133 | the net is the inflow less the outflow, and the two counts make up all rows |
| Transactions.SummaryIgnoresOrder | src/app/api/transactions/route.ts:99-119 | sorting the rows does not change the summary |
| Transactions.TransactionsOf | src/app/api/transactions/route.ts:8-156 | not connected shows nothing; a failed settings read or flags query is the 500 reply; otherwise the page |
| Transactions.TransactionsGet | src/app/api/transactions/route.ts:8-156 | the method computes exactly that view |
| Transactions.PageOf | src/app/api/transactions/route.ts:106-148 | the specification of the page for sorted rows: the first 100, the count, the summary, the flags and the bank accounts |
| Transactions.PageOfSorted | src/app/api/transactions/route.ts:99-126 | the page shows at most 100 rows, newest first, drawn from the rows, none left out newer than one shown; the count and summary are over all rows |
| Transactions.PageCoversAll | src/app/api/transactions/route.ts:15-148 | a connected request shows that page of the unified rows for its query, with the flags |
| Seqs.Filter | src/app/api/reports/generate/route.ts:84-86 | `array.filter(p)`: only elements satisfying p, every such element kept, drawn from the input |
| Seqs.Count | src/app/api/reports/generate/route.ts:84-88 | the number of elements satisfying p, zero exactly when none does |
| Seqs.SumPartition | src/lib/audit-engine.ts:307-318 | summing over a predicate and its complement adds to the whole sum, and the two counts to the length |
| Seqs.SortDesc | src/app/api/reports/generate/route.ts:100 | `sort((a, b) => key(b) - key(a))` keeps the length and the elements (a permutation) |
| Seqs.SortDescSorted | src/app/api/reports/generate/route.ts:100 | the result is ordered by key, largest first |
| Seqs.SortDescStable | src/lib/categorization-engine.ts:390 | the sort is stable: elements with equal keys keep their input order |
| Seqs.SumSortDesc | src/app/api/transactions/route.ts:99-119 | sorting preserves every sum |
| Seqs.TakeSortedIsTop | src/app/api/reports/generate/route.ts:100 | no element left out of the first n of the sorted list has a larger key than one kept |
| Seqs.InsertAt | src/app/api/transactions/route.ts:100-104 | one insertion step puts a[i] in its place among the sorted tail and leaves the prefix alone |
| Seqs.SortDescInPlace | src/app/api/transactions/route.ts:100-104 | the array is sorted in place to exactly the stable descending order of its old contents |
| Seqs.SortedCopy | src/lib/categorization-engine.ts:390 | the sorted copy is exactly the stable descending order of the input |
| Grouping.KeysExactly | src/lib/audit-engine.ts:164-170 | the group keys are exactly the keys of some record |
| Grouping.KeysDistinct | src/lib/audit-engine.ts:164-170 | no key is listed twice |
| Grouping.GroupMembers | src/lib/audit-engine.ts:164-170 | a group holds only records with its key, and is non-empty exactly for a listed key |
| Grouping.GroupBy | src/lib/audit-engine.ts:164-170 | the loop over `Map.get(key) ... push` builds exactly the keys in first-seen order and each key's group in record order |
| Grouping.CollectMember | src/lib/categorization-engine.ts:44-62 | a value is collected exactly when the rule yields it for some element |
| Grouping.CollectRejectedPartition | src/lib/categorization-engine.ts:44-62 | every element is either collected or rejected, so the two lengths add to the input length |
| Grouping.RejectedExactly | src/lib/categorization-engine.ts:44-62 | the rejected elements are exactly those the rule declines |
| Grouping.TotalsSumToTotal | src/app/api/reports/generate/route.ts:95-99 | the per-key totals add up to the total over all records |
| Grouping.TopTotals | src/app/api/reports/generate/route.ts:100 | the first n per-key totals, largest first, each the sum of its group, none left out larger, and all the total when there are at most n keys |
| Grouping.SumByKey | src/app/api/reports/generate/route.ts:95-99 | the loop over `totals.set(k, (totals.get(k) \|\| 0) + f(x))` gives each key the sum over its group |
| Grouping.RunningKeys | src/app/api/reports/generate/route.ts:95-99 | the loop's key list after any prefix is the prefix's keys in first-seen order, which is the map's insertion order |
| Grouping.RunningDomain | src/app/api/reports/generate/route.ts:95-99 | after any prefix a key is in the map exactly when it is listed |
| Grouping.RunningSums | src/app/api/reports/generate/route.ts:95-99 | after any prefix each key's running total is the sum of the amounts of its group, and a key with no element has no entry |
| Grouping.TotalsBy | src/app/api/reports/generate/route.ts:95-100 | the loop's entries are exactly the per-key totals in first-seen order |
| Grouping.TallyOf | src/app/api/reports/generate/route.ts:169-176 | a group's tally counts every record and marks at most that many |
| Grouping.TallyByKey | src/app/api/reports/generate/route.ts:168-176 | the loop's tallies are each key's total, count and marked count |
| Stats.DeviationsTotalZero | src/lib/audit-engine.ts:274 | the scaled deviations from the mean add to zero |
| Stats.TotalSquaredBound | src/lib/audit-engine.ts:274-277 | the square of a sum is at most the length times the sum of squares (Cauchy-Schwarz) |
| Stats.Samuelson | src/lib/audit-engine.ts:274-284 | no value deviates from the mean by more than sqrt(n - 1) population standard deviations |
| Stats.SmallGroupNeverOutlier | src/lib/audit-engine.ts:271-284 | with ten values or fewer, no z-score exceeds three |
| Stats.ZTestArithmetic | src/lib/audit-engine.ts:275-284 | the zero-deviation test and "z-score above three" agree with their integer forms |
| Stats.ZTestIntegerForm | src/lib/audit-engine.ts:274-284 | for the real mean and population variance, given by n*mean == sum and n*variance == sum of squared deviations, the variance is 0 exactly when Q is, and the z-score test agrees with the integer test on the scaled deviations |
| Strings.ToLower | src/lib/categorization-engine.ts:45 | `toLowerCase` on each character, A-Z only, length kept |
| Strings.Trim | src/lib/categorization-engine.ts:186 | no JavaScript white space is left at either end |
| Strings.TrimEmptyIffAllSpace | src/app/api/chat/route.ts:13 | the trimmed text is empty exactly when every character is white space |
| Strings.Split | src/lib/auth.ts:43 | `split(c)`: at least one piece, no piece contains c, and joining by c gives the text back |
| Strings.SplitAt | src/lib/auth.ts:43-48 | at a separator, the first piece ends before it and the rest splits the remainder |
| Strings.SplitTailAfterTwo | src/lib/auth.ts:48 | with two separators there are three or more pieces, and the rejoined tail is no shorter than the text after the second |
| Strings.ParseIntNatToString | src/lib/auth.ts:30-47 | `parseInt` reads back a decimal timestamp exactly |
| Strings.IndexOf | src/lib/categorization-engine.ts:145 | the first position of the character, or none exists |
| Strings.LastIndexOf | src/lib/categorization-engine.ts:145 | the last position of the character, or none exists |
| Base64.Encode | src/lib/auth.ts:33 | the encoding is four characters per started group of three bytes |
| Base64.DecodeEncode | src/lib/auth.ts:33-42 | decoding an encoding gives back the bytes |
| Utf8.DecodeEncode | src/lib/auth.ts:33-42 | decoding the UTF-8 bytes of a text gives back the text |
| Utf8.EncodeConcat | src/lib/auth.ts:32-33 | encoding a concatenation is the concatenation of the encodings |
| Llm.BracketSpan | src/lib/categorization-engine.ts:145 | the greedy match of `/\[[\s\S]*\]/`: from the first '[' to the last ']', or none when no ']' follows a '[' |
| Llm.ToolUses | src/lib/autonomous-bookkeeper.ts:222 | the tool-use blocks of a reply, each of them and nothing else |
| Llm.Texts | src/lib/autonomous-bookkeeper.ts:248 | the text blocks of a reply, none exactly when the reply has no text block |
| Llm.ExchangeAt | src/app/api/chat/route.ts:93-126 | the k-th round adds the assistant's reply and then the user's tool results |
| Dates.TimeKey | src/app/api/dashboard/route.ts:53 | `new Date(d).getTime()` as a sort key, an unparsable date sorting as the epoch |
| Dates.DaysPastDue | src/lib/audit-engine.ts:125-126 | the whole days elapsed since the due date, rounded down, or none when the due date does not parse |
| Dates.LexLessTotal | src/app/api/reports/generate/route.ts:69-70 | string comparison is a strict total order |
| Books.OrEmpty | src/app/api/dashboard/route.ts:28-31 | `.catch(() => [])`: the list read, or empty when the read fails |
| Http.ErrorReply | src/app/api/dashboard/route.ts:116-119 | an error reply carries its status and message |
| Json.Or | src/app/api/dashboard/route.ts:81 | `v \|\| fallback`: the value when truthy, else the fallback |
| Json.StrOr | src/lib/categorization-engine.ts:272 | a string field or its fallback when falsy |

## Left out

- I/O and services: the Zoho Books API, the language model, the Prisma database, `fetch`, cookies and
  headers are not modelled here. Each is a parameter: a ledger or list function, a model function, a
  stored row or a read result, or a `Result` error for a throw.
- Clocks and ids: `Date.now()`, `new Date()`, `toISOString()` and random or database ids are inputs.
  The model does not vary them within one request.
- Concurrency: `Promise.all` is modelled as sequential calls. The fire-and-forget sweep of
  `execute_all` runs synchronously. Only the `isRunning` guard of `processAllTasks` is kept, not the
  interleaving of overlapping sweeps.
- Aliasing: `getTaskQueue` returns a shallow copy whose task objects stay shared with the queue. The
  model returns values, so a caller mutating a returned task is not captured.
- Floating point: money is in integer cents and ratios are exact reals. `toFixed`, `toLocaleString`,
  `Intl` and `toLocaleDateString` text is an input; the z-score and mean printed in an unusual-amount
  description are the `Decimals` parameter. NaN and infinite amounts are not modelled, except
  where a parse gives NaN (as `None`).
- JSON: `JSON.stringify` and `JSON.parse` are oracles (the `Stringify`, `Serialise` and `Deserialise`
  parameters and the readers), except for the cache key, where a string record is written out. The key order that `JSON.stringify` uses for
  objects is not modelled.
- Dates: `new Date(text)` is a parser parameter. A date that does not parse counts as NaN. For a sort
  key this is the epoch; for the days past due it is none.
- Tie order in Prisma: `orderBy` with a tie, the severity order of `getAuditFindings` and `take`/`skip`
  with negative or fractional numbers are not modelled. Pages use whole numbers.
- Auth.ForeignSecretRejected: stated only for usernames without a colon. A username containing a colon
  never verifies under any secret (`Auth.ColonInUsernameNeverVerifies`).
- Base64 and UTF-8: only `decode(encode(x)) == x` is modelled. Node's lenient decoding of malformed
  base64 and its replacement of invalid UTF-8 are approximated. Strings are sequences of Unicode scalar
  values: surrogate pairs and UTF-16 lengths are not modelled.
- Strings.ParseIntNatToString: `parseInt` accuracy above 2^53 is not modelled. The model reads back any
  natural number exactly.
- ZohoCache.CacheMinutes: a non-numeric `cacheMinutes` column is read as 15. JavaScript would instead
  multiply a string.
- Reconciliation.AcceptAi: only numeric confidences are modelled. A non-numeric confidence from the model
  would pass the `< 0.5` floor in JavaScript.
- Categorization.AiSuggestion: the same holds for the typed reader of this module.
- Prompts.ReportTemplateKey: own keys only. A report type naming an inherited `Object` member, such as
  `constructor`, would read that member instead of the pnl template.
- Reports.LiveData: the fallback note of the inner `catch` (src/app/api/reports/generate/route.ts:216-218)
  is not modelled. Every fetch there ends in `.catch(() => [])`, so the handler is reached only when a
  list holds a null record (`i.total` at line 83 throws) or a fetch resolves to something that is not an
  array (`filter` throws). The model excludes both: its ledger always returns a list, and a field of
  a null record reads as undefined (`Json.Get`) rather than throwing.
- TasksRoute.AddDraft: a truthy field that is not a string goes through `Json.StrOr` and is stored in its
  `String()` form, where the source stores the value itself in the task.
- TasksRoute.AnswerValue: an answer that is not a string is dropped (`None`), where the source stores any
  value as the task's result.
- ChatRoute.FinalMessage: states only the case where no text block is present. Otherwise it is the
  joined text.
- Bookkeeper.SweepOrder: for a pending task whose priority is not high, medium or low, the sort comparator
  returns NaN, and the order `sort` then gives is up to the JavaScript engine. The model ranks such a task
  last.
- Bookkeeper.SweepOrderIsPrioritySorted: the rank order is claimed only when every pending priority is
  known; otherwise only that the sweep order holds exactly the pending tasks.
- Bookkeeper.TaskQueue.ProcessAllTasks: the exact sweep is claimed only when every pending priority is
  known; otherwise the sweep is claimed to run the pending tasks in some order of them.
- ChatRoute.ChatPost: what Prisma throws for a conversation id that is not a string is the `idError`
  parameter. The TypeError texts for a null body and a non-string message are written out as Node prints
  them.
- ZohoCache.CacheRoundTrip: the data read back is the parse of its serialisation. It equals the data only
  where parsing undoes serialising. Undefined members vanish, and a cached null reads as a miss
  (`ZohoCache.CachedNullIsMiss`).
- Books.Num: `(x as number) || 0` keeps a truthy value that is not a number, such as the string "1500"
  in the model's JSON, and a later sum would concatenate it. The model reads any non-number as 0.
- AuditEngine.Defaulted: reads `amount` through `Books.Num` as above. Its text fields go through
  `Json.StrOr`, which gives a truthy non-string in its `String()` form where the source keeps the value
  itself.
- AuditEngine.CheckUnusualAmounts: expenses are grouped by `account_name` read through `Json.StrOr`, so a
  truthy non-string name such as the number 5 falls in the group of the string "5". The source's `Map`
  keys on the raw value (src/lib/audit-engine.ts:262), so there they are two groups, with separate
  means and deviations.
- AuditEngine.UncategorizedFindings: a truthy `account_name` that is not a string reads as "" and counts
  as uncategorized. The source calls `toLowerCase` on it (src/lib/audit-engine.ts:309-313), which throws
  and fails the whole audit. The model does not capture that throw.
- Categorization.FirstMatch: a truthy description (or payee) that is not a string is turned into its
  `String()` form and matched. The source calls `toLowerCase` on it (src/lib/categorization-engine.ts:45),
  which throws and fails the request.
- Reconciliation.ExactMatches: only a numeric `total` can match. The source subtracts with JavaScript
  coercion (src/lib/categorization-engine.ts:265): a null total counts as 0, a numeric string such as
  "100" as its number and `true` as 1, so such candidates can match there.
- Dates.DaysPastDue: a `due_date` that is not a string gives no due time, so the invoice is never
  overdue. In the source, `new Date(n)` on a number is a valid date n milliseconds after the epoch
  (src/lib/audit-engine.ts:125-126), and such an invoice can be flagged.
- Strings.ToLower: maps A-Z only, where `toLowerCase` maps all of Unicode. A rule pattern "CAFÉ" matches
  the description "café" in the source but not in `Categorization.FirstMatch`. The uncategorized-account
  check uses the same mapping.
- Strings.ToUpper: maps a-z only, where `toUpperCase` maps all of Unicode. It gives the report title.
- Middleware: URL-encoding of the `redirect` parameter, `config.matcher` and the Edge runtime are left
  out.
- Server logging (`console.error`) and the Next.js response objects are not modelled. Replies are a
  status and a JSON value.

## Findings

| source | as written | input that shows it | evidently intended | confidence | as-written member | corrected member |
|---|---|---|---|---|---|---|
| src/app/api/reports/generate/route.ts:23 | `settings.currency` is read without a null check, after the key check that also accepts the `ANTHROPIC_API_KEY` environment variable | no settings row and `ANTHROPIC_API_KEY` set: the read throws and the route answers 500 | `settings?.currency \|\| "CAD"`, as the other routes read it | not executed | Reports.ReportCurrencyAsWritten, Reports.NoSettingsRowReportFails | Reports.ReportCurrency |
| src/lib/formatters.ts:62 | `colors[status.toLowerCase()]` reads inherited members of the object literal | `getStatusColor("Constructor")` returns the `Object` function instead of class names | an own-property lookup, falling back to the default colour | not executed | Formatters.StatusColorAsWritten, Formatters.ConstructorLeaks | Formatters.StatusColor, Formatters.StatusColorIsClasses |
