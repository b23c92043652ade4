/**
 * Configuration priority chains: the stored settings row first, then the
 * process environment, then a built-in default. A value counts as present
 * only when it is truthy, so empty strings fall through to the next source.
 */
module SettingsHelper {
  import opened Wrappers
  import opened Json

  /** The single settings row (`id: "default"`), column name to stored value. */
  type SettingsRow = map<string, Json>

  /** The environment variables the core reads; `None` is an unset variable. */
  datatype Env = Env(
    anthropicApiKey: Option<string>,
    appUrl: Option<string>,
    railwayPublicDomain: Option<string>,
    production: bool)

  /** `settings?.[column]`: undefined when the row is missing or lacks the column. */
  function Column(settings: Option<SettingsRow>, column: string): (v: Json)
    ensures settings.None? ==> v == JUndefined
  {
    match settings
    case None => JUndefined
    case Some(row) => Get(JObj(row), column)
  }

  /**
   * A text column read for its truthiness: its string, with null, a missing
   * row and a missing column all reading as "" (text columns hold a string
   * or null).
   */
  function TextColumn(settings: Option<SettingsRow>, column: string): (s: string)
    ensures Column(settings, column).JStr? ==> s == Column(settings, column).s
    ensures !Column(settings, column).JStr? ==> s == ""
  {
    match Column(settings, column)
    case JStr(s) => s
    case _ => ""
  }

  /** A string variable that is set and not empty. */
  predicate Present(v: Option<string>) {
    v.Some? && v.value != ""
  }

  const DefaultModel: string := "claude-sonnet-4-20250514"
  const LocalBaseUrl: string := "http://localhost:3001"

  /** `getAnthropicApiKey`: the stored key, else the environment key, else null; never "". */
  function GetAnthropicApiKey(settings: Option<SettingsRow>, env: Env): (key: Option<string>)
    ensures key.Some? ==> key.value != ""
    ensures TextColumn(settings, "anthropicApiKey") != "" ==>
      key == Some(TextColumn(settings, "anthropicApiKey"))
    ensures TextColumn(settings, "anthropicApiKey") == "" ==>
      key == (if Present(env.anthropicApiKey) then env.anthropicApiKey else None)
  {
    var stored := TextColumn(settings, "anthropicApiKey");
    if stored != "" then Some(stored)
    else if Present(env.anthropicApiKey) then env.anthropicApiKey
    else None
  }

  /** `getAiModel`: the stored model name, or the default one; never "". */
  function GetAiModel(settings: Option<SettingsRow>): (model: string)
    ensures model != ""
    ensures TextColumn(settings, "aiModel") != "" ==> model == TextColumn(settings, "aiModel")
    ensures TextColumn(settings, "aiModel") == "" ==> model == DefaultModel
  {
    var stored := TextColumn(settings, "aiModel");
    if stored != "" then stored else DefaultModel
  }

  /** `getAppBaseUrl`: NEXT_PUBLIC_APP_URL, else https:// + RAILWAY_PUBLIC_DOMAIN, else localhost. */
  function GetAppBaseUrl(env: Env): (url: string)
    ensures url != ""
    ensures Present(env.appUrl) ==> url == env.appUrl.value
    ensures !Present(env.appUrl) && Present(env.railwayPublicDomain) ==>
      url == "https://" + env.railwayPublicDomain.value
    ensures !Present(env.appUrl) && !Present(env.railwayPublicDomain) ==> url == LocalBaseUrl
  {
    if Present(env.appUrl) then env.appUrl.value
    else if Present(env.railwayPublicDomain) then "https://" + env.railwayPublicDomain.value
    else LocalBaseUrl
  }
}
