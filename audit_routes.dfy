/**
 * The audit API: `POST /api/audit/run` clears the stored findings and runs a
 * full audit; `GET /api/audit/results` lists the stored findings under
 * optional filters with a summary; `PUT /api/audit/results` resolves one.
 */
module AuditRoutes {
  import opened Wrappers
  import opened Json
  import opened Strings
  import opened Http
  import opened SettingsHelper
  import opened Books
  import opened Llm
  import opened AuditEngine

  /** The number of findings of a severity (`filter(...).length`). */
  function SeverityCount(findings: seq<Finding>, severity: string): (n: nat)
    ensures n <= |findings|
    ensures n == 0 <==> forall i :: 0 <= i < |findings| ==> findings[i].severity != severity
    ensures n == |findings| <==> forall i :: 0 <= i < |findings| ==> findings[i].severity == severity
    decreases |findings|
  {
    if |findings| == 0 then 0
    else (if findings[0].severity == severity then 1 else 0) + SeverityCount(findings[1..], severity)
  }

  /** The number of findings of no severity among the three. */
  function UnknownCount(findings: seq<Finding>): nat
    decreases |findings|
  {
    if |findings| == 0 then 0
    else (if KnownSeverity(findings[0]) then 0 else 1) + UnknownCount(findings[1..])
  }

  /**
   * The three severity counts and the findings of other severities make up
   * the total, so the counts sum to the total exactly when every severity is
   * one of the three.
   */
  lemma {:induction false} SeverityCountsPartition(findings: seq<Finding>)
    ensures SeverityCount(findings, "critical") + SeverityCount(findings, "warning") + SeverityCount(findings, "info")
            + UnknownCount(findings) == |findings|
    ensures UnknownCount(findings) == 0 <==> forall i :: 0 <= i < |findings| ==> KnownSeverity(findings[i])
    decreases |findings|
  {
    if |findings| > 0 {
      SeverityCountsPartition(findings[1..]);
      if forall i :: 1 <= i < |findings| ==> KnownSeverity(findings[i]) {
        forall i | 0 <= i < |findings[1..]|
          ensures KnownSeverity(findings[1..][i])
        {
          assert findings[1..][i] == findings[i + 1];
        }
      }
      if forall i :: 0 <= i < |findings[1..]| ==> KnownSeverity(findings[1..][i]) {
        forall i | 1 <= i < |findings|
          ensures KnownSeverity(findings[i])
        {
          assert findings[i] == findings[1..][i - 1];
        }
      }
    }
  }

  function FindingJson(f: Finding): (j: Json)
    ensures Get(j, "severity") == JStr(f.severity) && Get(j, "findingType") == JStr(f.findingType)
  {
    JObj(map["findingType" := JStr(f.findingType), "severity" := JStr(f.severity), "title" := JStr(f.title),
             "description" := JStr(f.description), "entityType" := JStr(f.entityType),
             "entityId" := JStr(f.entityId), "amount" := JNum(f.amount)])
  }

  function FindingsJson(findings: seq<Finding>): (j: Json)
    ensures j.JArr? && |j.items| == |findings|
    ensures forall i :: 0 <= i < |findings| ==> j.items[i] == FindingJson(findings[i])
  {
    JArr(seq(|findings|, i requires 0 <= i < |findings| => FindingJson(findings[i])))
  }

  /** Lines 33-38 of the run route. */
  function RunSummary(findings: seq<Finding>): Json {
    JObj(map["totalFindings" := JNum(|findings|),
             "critical" := JNum(SeverityCount(findings, "critical")),
             "warning" := JNum(SeverityCount(findings, "warning")),
             "info" := JNum(SeverityCount(findings, "info"))])
  }

  /**
   * `POST /api/audit/run`: the key and connection guards leave the store
   * alone; otherwise every stored finding is deleted first, so a failed
   * audit leaves the store empty, and a successful one leaves exactly its
   * own findings, each "open". The model oracle stands for the client built
   * from the key and the `getAiModel` name.
   */
  method AuditRun(store: FindingStore, settings: Option<SettingsRow>, env: Env, zohoConnected: bool,
                  list: Lister, model: Model, prompt: AuditPrompt, parse: ParseArray,
                  now: int, parseDate: string -> Option<int>, decimals: Decimals, newId: nat -> string, createdAt: string)
    returns (reply: Reply)
    modifies store
    ensures GetAnthropicApiKey(settings, env).None? ==>
      reply == ErrorReply(400, NoKeyMessage) && store.rows == old(store.rows)
    ensures GetAnthropicApiKey(settings, env).Some? && !zohoConnected ==>
      reply == ErrorReply(400, NotConnectedMessage) && store.rows == old(store.rows)
    ensures GetAnthropicApiKey(settings, env).Some? && zohoConnected ==>
      var r := FullAudit(list, model, prompt, parse, now, parseDate, decimals);
      && (r.Err? ==> reply == ErrorReply(500, r.error.MessageOr("Audit failed")) && store.rows == [])
      && (r.Ok? ==>
            && store.rows == Persisted(r.value, newId, createdAt)
            && reply == OkReply(map["success" := JBool(true), "summary" := RunSummary(r.value),
                                   "findings" := FindingsJson(r.value)]))
  {
    if GetAnthropicApiKey(settings, env).None? {
      return ErrorReply(400, NoKeyMessage);
    }
    if !zohoConnected {
      return ErrorReply(400, NotConnectedMessage);
    }
    store.DeleteAll();
    var r := RunFullAudit(store, list, model, prompt, parse, now, parseDate, decimals, newId, createdAt);
    if r.Err? {
      return ErrorReply(500, r.error.MessageOr("Audit failed"));
    }
    var findings := r.value;
    reply := OkReply(map["success" := JBool(true), "summary" := RunSummary(findings),
                         "findings" := FindingsJson(findings)]);
  }

  /**
   * When the findings start with structural ones, the three severity counts
   * fall short of the total by exactly the findings after them whose
   * severity is none of the three.
   */
  lemma SummaryCoversKnownPrefix(structural: seq<Finding>, extra: seq<Finding>)
    requires forall f :: f in structural ==> KnownSeverity(f)
    ensures var findings := structural + extra;
      SeverityCount(findings, "critical") + SeverityCount(findings, "warning") + SeverityCount(findings, "info")
        == |findings| - UnknownCount(extra)
  {
    SeverityCountsPartition(structural);
    SeverityCountsPartition(structural + extra);
    UnknownCountConcat(structural, extra);
  }

  /**
   * In a successful run the three severity counts cover every structural
   * finding: together they fall short of the total by exactly the AI
   * findings whose severity is none of the three.
   */
  lemma RunSummaryCoversStructuralFindings(list: Lister, model: Model, prompt: AuditPrompt, parse: ParseArray,
                                           now: int, parseDate: string -> Option<int>, decimals: Decimals)
    requires FetchAuditData(list).Ok?
    ensures var data := FetchAuditData(list).value;
      var structural := StructuralFindings(data, now, parseDate, decimals);
      var findings := FullAudit(list, model, prompt, parse, now, parseDate, decimals).value;
      SeverityCount(findings, "critical") + SeverityCount(findings, "warning") + SeverityCount(findings, "info")
        == |findings| - UnknownCount(findings[|structural|..])
  {
    var data := FetchAuditData(list).value;
    var structural := StructuralFindings(data, now, parseDate, decimals);
    var ai := AiFindings(model(AuditRequest(prompt(data, structural))), parse);
    assert FullAudit(list, model, prompt, parse, now, parseDate, decimals).value == structural + ai;
    assert (structural + ai)[|structural|..] == ai;
    SummaryCoversKnownPrefix(structural, ai);
  }

  lemma {:induction false} UnknownCountConcat(a: seq<Finding>, b: seq<Finding>)
    ensures UnknownCount(a + b) == UnknownCount(a) + UnknownCount(b)
    decreases |a|
  {
    if |a| > 0 {
      UnknownCountConcat(a[1..], b);
      assert (a + b)[1..] == a[1..] + b;
    } else {
      assert a + b == b;
    }
  }

  // ---------------------------------------------------------------- results

  /** `searchParams.get(name) || undefined`: an absent or empty parameter applies no filter. */
  function QueryFilter(param: Option<string>): (f: Option<string>)
    ensures f.Some? <==> param.Some? && param.value != ""
    ensures f.Some? ==> f == param
  {
    if param.Some? && param.value != "" then param else None
  }

  function OptionJson(v: Option<string>): Json {
    if v.Some? then JStr(v.value) else JNull
  }

  function StoredJson(row: StoredFinding): (j: Json)
    ensures Get(j, "id") == JStr(row.id) && Get(j, "status") == JStr(row.status)
  {
    var f := row.finding;
    JObj(map["id" := JStr(row.id), "findingType" := JStr(f.findingType), "severity" := JStr(f.severity),
             "title" := JStr(f.title), "description" := JStr(f.description), "entityType" := JStr(f.entityType),
             "entityId" := JStr(f.entityId), "amount" := JNum(f.amount), "status" := JStr(row.status),
             "resolution" := OptionJson(row.resolution), "resolvedAt" := OptionJson(row.resolvedAt),
             "createdAt" := JStr(row.createdAt)])
  }

  function StoredFindings(rows: seq<StoredFinding>): (r: seq<Finding>)
    ensures |r| == |rows|
    ensures forall i :: 0 <= i < |rows| ==> r[i] == rows[i].finding
  {
    seq(|rows|, i requires 0 <= i < |rows| => rows[i].finding)
  }

  function StatusCount(rows: seq<StoredFinding>, status: string): (n: nat)
    ensures n <= |rows|
    ensures n == |rows| <==> forall i :: 0 <= i < |rows| ==> rows[i].status == status
    decreases |rows|
  {
    if |rows| == 0 then 0
    else (if rows[0].status == status then 1 else 0) + StatusCount(rows[1..], status)
  }

  /** Lines 13-20 of the results route. */
  function ResultsSummary(rows: seq<StoredFinding>): Json {
    var findings := StoredFindings(rows);
    JObj(map["total" := JNum(|rows|),
             "critical" := JNum(SeverityCount(findings, "critical")),
             "warning" := JNum(SeverityCount(findings, "warning")),
             "info" := JNum(SeverityCount(findings, "info")),
             "open" := JNum(StatusCount(rows, "open")),
             "resolved" := JNum(StatusCount(rows, "resolved"))])
  }

  /** The filters of a GET, from its query parameters. */
  function QueryFilters(severity: Option<string>, status: Option<string>, findingType: Option<string>): Filters {
    Filters(QueryFilter(severity), QueryFilter(status), QueryFilter(findingType))
  }

  /** `GET /api/audit/results`: the stored rows under the filters, and their summary. */
  function ResultsGet(rows: seq<StoredFinding>, severity: Option<string>, status: Option<string>,
                      findingType: Option<string>): (reply: Reply)
    ensures reply.status == 200
    ensures var selected := Select(rows, QueryFilters(severity, status, findingType));
      reply.body == JObj(map["findings" := JArr(seq(|selected|, i requires 0 <= i < |selected| => StoredJson(selected[i]))),
                             "summary" := ResultsSummary(selected)])
  {
    var selected := Select(rows, QueryFilters(severity, status, findingType));
    OkReply(map["findings" := JArr(seq(|selected|, i requires 0 <= i < |selected| => StoredJson(selected[i]))),
                "summary" := ResultsSummary(selected)])
  }

  /**
   * Filtering by a severity makes the summary's count of that severity the
   * total; filtering by a status does the same for the open or resolved count.
   */
  lemma FilteredSummaryIsTotal(rows: seq<StoredFinding>, severity: Option<string>, status: Option<string>,
                               findingType: Option<string>)
    ensures var selected := Select(rows, QueryFilters(severity, status, findingType));
      && (severity.Some? && severity.value != "" ==>
            SeverityCount(StoredFindings(selected), severity.value) == |selected|)
      && (status.Some? && status.value != "" ==> StatusCount(selected, status.value) == |selected|)
  {
  }

  // -------------------------------------------------------------------- PUT

  const ResolveRequired: string := "findingId and resolution are required"

  /**
   * `PUT /api/audit/results`. A body that is not JSON or is null, or an
   * update that throws, gives 500; a falsy `findingId` or `resolution` gives 400. The
   * update throws `missing` when no row has the id and `invalid` when either
   * value is not a string; `resolvedAt` is the time of the request.
   */
  method ResultsPut(store: FindingStore, body: Result<Json, Thrown>, resolvedAt: string,
                    missing: Thrown, invalid: Thrown)
    returns (reply: Reply)
    modifies store
    ensures body.Err? ==>
      reply == ErrorReply(500, body.error.MessageOr("Failed to resolve finding")) && store.rows == old(store.rows)
    ensures body == Ok(JNull) ==>
      reply == ErrorReply(500, NullDestructureMessage("findingId", "(intermediate value)")) && store.rows == old(store.rows)
    ensures body.Ok? && body.value != JNull && !(Truthy(Get(body.value, "findingId")) && Truthy(Get(body.value, "resolution"))) ==>
      reply == ErrorReply(400, ResolveRequired) && store.rows == old(store.rows)
    ensures body.Ok? && Truthy(Get(body.value, "findingId")) && Truthy(Get(body.value, "resolution")) ==>
      var id := Get(body.value, "findingId");
      var resolution := Get(body.value, "resolution");
      && (!(id.JStr? && resolution.JStr?) ==>
            reply == ErrorReply(500, invalid.MessageOr("Failed to resolve finding")) && store.rows == old(store.rows))
      && (id.JStr? && resolution.JStr? && FindRow(old(store.rows), id.s).None? ==>
            reply == ErrorReply(500, missing.MessageOr("Failed to resolve finding")) && store.rows == old(store.rows))
      && (id.JStr? && resolution.JStr? && FindRow(old(store.rows), id.s).Some? ==>
            var i := FindRow(old(store.rows), id.s).value;
            var updated := old(store.rows)[i].(status := "resolved", resolution := Some(resolution.s),
                                               resolvedAt := Some(resolvedAt));
            && store.rows == old(store.rows)[i := updated]
            && reply == OkReply(map["success" := JBool(true), "finding" := StoredJson(updated)]))
  {
    if body.Err? {
      return ErrorReply(500, body.error.MessageOr("Failed to resolve finding"));
    }
    if body.value == JNull {
      return ErrorReply(500, NullDestructureMessage("findingId", "(intermediate value)"));
    }
    var id := Get(body.value, "findingId");
    var resolution := Get(body.value, "resolution");
    if !Truthy(id) || !Truthy(resolution) {
      return ErrorReply(400, ResolveRequired);
    }
    if !id.JStr? || !resolution.JStr? {
      return ErrorReply(500, invalid.MessageOr("Failed to resolve finding"));
    }
    var r := store.Resolve(id.s, resolution.s, resolvedAt, missing);
    if r.Err? {
      return ErrorReply(500, r.error.MessageOr("Failed to resolve finding"));
    }
    reply := OkReply(map["success" := JBool(true), "finding" := StoredJson(r.value)]);
  }
}
