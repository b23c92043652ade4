/**
 * The settings route, GET and PUT /api/settings, over the settings table
 * (rows by id; the application uses the row "default"). GET creates the
 * default row when it is missing; both answer with the row, the stored
 * API key masked, and the OAuth redirect address. PUT copies the seven
 * editable fields the body defines, except an API key that is the mask
 * echoed back.
 */
module SettingsRoute {
  import opened Wrappers
  import opened Json
  import opened Strings
  import opened Http
  import opened SettingsHelper

  type Table = map<string, SettingsRow>

  const DefaultId: string := "default"
  const MaskedKey: string := "sk-ant-...configured"
  const ConfiguredMarker: string := "...configured"
  const RedirectPath: string := "/api/zoho/auth"

  /** The fields PUT may change. */
  const Fields: seq<string> :=
    ["zohoOrgId", "anthropicApiKey", "aiModel", "aiTemperature", "cacheMinutes", "currency", "fiscalYearStart"]

  /** A key is configured, in the row or the environment. */
  predicate HasApiKey(row: SettingsRow, env: Env) {
    TextColumn(Some(row), "anthropicApiKey") != "" || Present(env.anthropicApiKey)
  }

  /** The mask tells exactly whether the chat would find a key. */
  lemma MaskAgreesWithKey(row: SettingsRow, env: Env)
    ensures HasApiKey(row, env) <==> GetAnthropicApiKey(Some(row), env).Some?
  {
  }

  /** Where the key comes from: the row first, then the environment. */
  function ApiKeySource(row: SettingsRow, env: Env): (s: string)
    ensures s == "database" <==> TextColumn(Some(row), "anthropicApiKey") != ""
    ensures s == "environment" <==> TextColumn(Some(row), "anthropicApiKey") == "" && Present(env.anthropicApiKey)
    ensures s == "none" <==> !HasApiKey(row, env)
  {
    if TextColumn(Some(row), "anthropicApiKey") != "" then "database"
    else if Present(env.anthropicApiKey) then "environment"
    else "none"
  }

  /** What a response shows: the row and the values that replace or join its fields. */
  datatype View = View(
    row: SettingsRow,
    maskedKey: string,
    apiKeySource: Option<string>,
    appBaseUrl: string,
    redirectUri: string)

  /** The response for a row; GET adds the key's source, PUT does not. */
  function ViewOf(row: SettingsRow, env: Env, withSource: bool): (v: View)
    ensures v.row == row
    ensures v.maskedKey == (if HasApiKey(row, env) then MaskedKey else "")
    ensures v.apiKeySource.Some? <==> withSource
    ensures withSource ==> v.apiKeySource.value == ApiKeySource(row, env)
    ensures v.appBaseUrl == GetAppBaseUrl(env) && v.redirectUri == v.appBaseUrl + RedirectPath
  {
    View(
      row,
      if HasApiKey(row, env) then MaskedKey else "",
      if withSource then Some(ApiKeySource(row, env)) else None,
      GetAppBaseUrl(env),
      GetAppBaseUrl(env) + RedirectPath)
  }

  /** `{ ...settings, anthropicApiKey, apiKeySource?, appBaseUrl, redirectUri }` */
  function Body(v: View): Json {
    var extra := map["anthropicApiKey" := JStr(v.maskedKey), "appBaseUrl" := JStr(v.appBaseUrl),
                     "redirectUri" := JStr(v.redirectUri)];
    JObj(v.row + (if v.apiKeySource.Some? then extra["apiKeySource" := JStr(v.apiKeySource.value)] else extra))
  }

  /** The body never carries the stored key: only the mask or "". */
  lemma BodyMasksKey(row: SettingsRow, env: Env, withSource: bool)
    ensures var b := Body(ViewOf(row, env, withSource));
      && Get(b, "anthropicApiKey") == JStr(if HasApiKey(row, env) then MaskedKey else "")
      && Get(b, "redirectUri") == JStr(GetAppBaseUrl(env) + RedirectPath)
  {
  }

  /** The body shows every other editable field as stored. */
  lemma BodyShowsFields(row: SettingsRow, env: Env, withSource: bool, f: string)
    requires f in Fields && f != "anthropicApiKey"
    ensures Get(Body(ViewOf(row, env, withSource)), f) == (if f in row then row[f] else JUndefined)
  {
    assert f != "appBaseUrl" && f != "redirectUri" && f != "apiKeySource" by {
      FieldNames(f);
    }
  }

  /** The names of the fields differ from the names the response adds. */
  lemma FieldNames(f: string)
    requires f in Fields
    ensures f != "appBaseUrl" && f != "redirectUri" && f != "apiKeySource"
  {
    var i :| 0 <= i < |Fields| && Fields[i] == f;
    if i == 0 {
      assert f[0] == 'z';
    } else if i == 1 || i == 2 || i == 3 {
      assert f[1] != 'p';
    } else {
      assert f[0] == 'c' || f[0] == 'f';
    }
  }

  /** The row `create({ data: { id: "default" } })` returns: the table's defaults and the id. */
  function Created(defaults: SettingsRow): (row: SettingsRow)
    ensures "id" in row && row["id"] == JStr(DefaultId)
  {
    defaults["id" := JStr(DefaultId)]
  }

  datatype GetOutcome = GetFailed | Fetched(view: View, table: Table)

  /** `GET()`, given the table, or the error reading or writing it threw. */
  function SettingsGet(db: Result<Table, Thrown>, defaults: SettingsRow, env: Env): (o: GetOutcome)
    ensures o.GetFailed? <==> db.Err?
    ensures o.Fetched? ==> DefaultId in o.table && o.table.Keys == db.value.Keys + {DefaultId}
    ensures o.Fetched? && DefaultId in db.value ==> o.table == db.value && o.view.row == db.value[DefaultId]
    ensures o.Fetched? && DefaultId !in db.value ==>
      o.table == db.value[DefaultId := Created(defaults)] && o.view.row == Created(defaults)
    ensures o.Fetched? ==> o.view == ViewOf(o.table[DefaultId], env, true)
  {
    match db
    case Err(_) => GetFailed
    case Ok(table) =>
      var table' := if DefaultId in table then table else table[DefaultId := Created(defaults)];
      Fetched(ViewOf(table'[DefaultId], env, true), table')
  }

  /** A second GET changes nothing and shows the same. */
  lemma GetIsIdempotent(table: Table, defaults: SettingsRow, env: Env)
    ensures var first := SettingsGet(Ok(table), defaults, env);
      SettingsGet(Ok(first.table), defaults, env) == first
  {
  }

  function GetReply(o: GetOutcome): (r: Reply)
    ensures o.GetFailed? ==> r == ErrorReply(500, "Failed to fetch settings")
    ensures o.Fetched? ==> r == Reply(200, Body(o.view))
  {
    match o
    case GetFailed => ErrorReply(500, "Failed to fetch settings")
    case Fetched(view, _) => Reply(200, Body(view))
  }

  /** What the body's `anthropicApiKey` does: nothing, a write, or a throw from `.includes`. */
  datatype KeyUpdate = Skip | Write | Throws

  /**
   * `body.anthropicApiKey !== undefined && !body.anthropicApiKey.includes("...configured")`:
   * strings and arrays have `includes`; null and other values make it throw.
   */
  function KeyUpdateOf(v: Json): (u: KeyUpdate)
    ensures v == JUndefined ==> u == Skip
    ensures v.JStr? ==> (u == Skip <==> Contains(v.s, ConfiguredMarker)) && u != Throws
    ensures !(v.JUndefined? || v.JStr? || v.JArr?) ==> u == Throws
  {
    match v
    case JUndefined => Skip
    case JStr(s) => if Contains(s, ConfiguredMarker) then Skip else Write
    case JArr(items) => if JStr(ConfiguredMarker) in items then Skip else Write
    case _ => Throws
  }

  /** Whether PUT copies field `f` of the body. */
  predicate Copies(body: Json, f: string) {
    Get(body, f) != JUndefined && (f != "anthropicApiKey" || KeyUpdateOf(Get(body, f)) == Write)
  }

  /** The fields among `fs` PUT copies, with the body's values. */
  function Copied(body: Json, fs: seq<string>): map<string, Json> {
    map f | f in fs && Copies(body, f) :: Get(body, f)
  }

  lemma CopiedSnoc(body: Json, fs: seq<string>, x: string)
    ensures Copied(body, fs + [x]) ==
      if Copies(body, x) then Copied(body, fs)[x := Get(body, x)] else Copied(body, fs)
  {
  }

  /** One more field of the list: one more conditional assignment. */
  lemma CopyStep(body: Json, k: nat)
    requires k < |Fields|
    ensures Copied(body, Fields[..k + 1]) ==
      if Copies(body, Fields[k]) then Copied(body, Fields[..k])[Fields[k] := Get(body, Fields[k])]
      else Copied(body, Fields[..k])
  {
    assert Fields[..k + 1] == Fields[..k] + [Fields[k]];
    CopiedSnoc(body, Fields[..k], Fields[k]);
  }

  /** The update PUT writes, or None when reading the body throws. */
  function UpdateOf(body: Json): (data: Option<map<string, Json>>)
    ensures data.None? <==> body == JNull || body == JUndefined || KeyUpdateOf(Get(body, "anthropicApiKey")) == Throws
    ensures data.Some? ==> forall f :: f in data.value <==> f in Fields && Copies(body, f)
    ensures data.Some? ==> forall f :: f in data.value ==> data.value[f] == Get(body, f)
  {
    if body == JNull || body == JUndefined || KeyUpdateOf(Get(body, "anthropicApiKey")) == Throws then None
    else Some(Copied(body, Fields))
  }

  /** The route's own steps: one conditional assignment per field. */
  method BuildUpdate(body: Json) returns (data: Option<map<string, Json>>)
    ensures data == UpdateOf(body)
  {
    if body == JNull || body == JUndefined {
      return None;
    }
    var key := KeyUpdateOf(Get(body, "anthropicApiKey"));
    var d: map<string, Json> := map[];
    assert d == Copied(body, Fields[..0]);
    if Get(body, "zohoOrgId") != JUndefined {
      d := d["zohoOrgId" := Get(body, "zohoOrgId")];
    }
    CopyStep(body, 0);
    assert d == Copied(body, Fields[..1]);
    if key == Throws {
      return None;
    }
    if key == Write {
      d := d["anthropicApiKey" := Get(body, "anthropicApiKey")];
    }
    CopyStep(body, 1);
    assert d == Copied(body, Fields[..2]);
    if Get(body, "aiModel") != JUndefined {
      d := d["aiModel" := Get(body, "aiModel")];
    }
    CopyStep(body, 2);
    assert d == Copied(body, Fields[..3]);
    if Get(body, "aiTemperature") != JUndefined {
      d := d["aiTemperature" := Get(body, "aiTemperature")];
    }
    CopyStep(body, 3);
    assert d == Copied(body, Fields[..4]);
    if Get(body, "cacheMinutes") != JUndefined {
      d := d["cacheMinutes" := Get(body, "cacheMinutes")];
    }
    CopyStep(body, 4);
    assert d == Copied(body, Fields[..5]);
    if Get(body, "currency") != JUndefined {
      d := d["currency" := Get(body, "currency")];
    }
    CopyStep(body, 5);
    assert d == Copied(body, Fields[..6]);
    if Get(body, "fiscalYearStart") != JUndefined {
      d := d["fiscalYearStart" := Get(body, "fiscalYearStart")];
    }
    CopyStep(body, 6);
    assert d == Copied(body, Fields[..7]);
    assert Fields[..7] == Fields;
    data := Some(d);
  }

  /** `upsert`: the update over the existing row, or over a new default row. */
  function Upsert(table: Table, defaults: SettingsRow, data: map<string, Json>): (t: Table)
    ensures t.Keys == table.Keys + {DefaultId}
    ensures forall id :: id in table && id != DefaultId ==> t[id] == table[id]
  {
    table[DefaultId := (if DefaultId in table then table[DefaultId] else Created(defaults)) + data]
  }

  datatype PutOutcome = PutFailed | Saved(view: View, table: Table)

  /** `PUT(request)`, given the body (or what reading it threw) and the table. */
  function SettingsPut(body: Result<Json, Thrown>, db: Result<Table, Thrown>, defaults: SettingsRow, env: Env): (o: PutOutcome)
    ensures o.PutFailed? <==> body.Err? || UpdateOf(body.value).None? || db.Err?
    ensures o.Saved? ==> o.table == Upsert(db.value, defaults, UpdateOf(body.value).value)
    ensures o.Saved? ==> o.view == ViewOf(o.table[DefaultId], env, false)
  {
    if body.Err? then PutFailed
    else match UpdateOf(body.value)
      case None => PutFailed
      case Some(data) =>
        if db.Err? then PutFailed
        else
          var table := Upsert(db.value, defaults, data);
          Saved(ViewOf(table[DefaultId], env, false), table)
  }

  function PutReply(o: PutOutcome): (r: Reply)
    ensures o.PutFailed? ==> r == ErrorReply(500, "Failed to update settings")
    ensures o.Saved? ==> r == Reply(200, Body(o.view))
  {
    match o
    case PutFailed => ErrorReply(500, "Failed to update settings")
    case Saved(view, _) => Reply(200, Body(view))
  }

  /**
   * PUT changes only the fields it copies: every other column of the
   * default row, and every other row, stays as it was.
   */
  lemma PutChangesOnlyCopiedFields(body: Json, table: Table, defaults: SettingsRow, env: Env, f: string)
    requires UpdateOf(body).Some? && DefaultId in table && f in table[DefaultId]
    requires !(f in Fields && Copies(body, f))
    ensures var o := SettingsPut(Ok(body), Ok(table), defaults, env);
      f in o.table[DefaultId] && o.table[DefaultId][f] == table[DefaultId][f]
  {
  }

  /** Sending back the mask GET showed leaves the stored key as it was. */
  lemma EchoedMaskKeepsKey(body: Json, table: Table, defaults: SettingsRow, env: Env)
    requires body.JObj? && Get(body, "anthropicApiKey") == JStr(MaskedKey)
    requires DefaultId in table && "anthropicApiKey" in table[DefaultId]
    ensures var o := SettingsPut(Ok(body), Ok(table), defaults, env);
      && o.Saved?
      && o.table[DefaultId]["anthropicApiKey"] == table[DefaultId]["anthropicApiKey"]
  {
    assert MaskedKey[7..7 + |ConfiguredMarker|] == ConfiguredMarker;
    ContainsAt(MaskedKey, ConfiguredMarker, 7);
  }

  /** Any other string, "" included, replaces the stored key. */
  lemma OtherKeyReplaces(body: Json, key: string, table: Table, defaults: SettingsRow, env: Env)
    requires body.JObj? && Get(body, "anthropicApiKey") == JStr(key) && !Contains(key, ConfiguredMarker)
    ensures var o := SettingsPut(Ok(body), Ok(table), defaults, env);
      o.Saved? && o.table[DefaultId]["anthropicApiKey"] == JStr(key)
  {
    assert Fields[1] == "anthropicApiKey";
  }

  /** Every field PUT would copy from the body GET showed already holds that value. */
  lemma ShownUpdateIsStored(row: SettingsRow, env: Env)
    requires HasApiKey(row, env)
    ensures var data := UpdateOf(Body(ViewOf(row, env, true)));
      && data.Some?
      && forall f :: f in data.value ==> f in row && data.value[f] == row[f]
  {
    var shown := Body(ViewOf(row, env, true));
    BodyMasksKey(row, env, true);
    assert MaskedKey[7..7 + |ConfiguredMarker|] == ConfiguredMarker;
    ContainsAt(MaskedKey, ConfiguredMarker, 7);
    var data := UpdateOf(shown).value;
    forall f | f in data
      ensures f in row && data[f] == row[f]
    {
      BodyShowsFields(row, env, true, f);
    }
  }

  /**
   * Saving the body GET showed, while a key is configured, changes
   * nothing: every copied field already holds that value, and the mask
   * is skipped.
   */
  lemma PutOfShownIsNoChange(table: Table, defaults: SettingsRow, env: Env)
    requires DefaultId in table && HasApiKey(table[DefaultId], env)
    ensures var shown := Body(ViewOf(table[DefaultId], env, true));
      SettingsPut(Ok(shown), Ok(table), defaults, env).table == table
  {
    var row := table[DefaultId];
    ShownUpdateIsStored(row, env);
    var data := UpdateOf(Body(ViewOf(row, env, true))).value;
    assert row + data == row;
    assert table[DefaultId := row] == table;
  }
}
