/**
 * The Zoho data cache: a table of entries keyed by
 * `endpoint:JSON(params)`, each holding the endpoint, the data as JSON
 * text and an expiry time. A read parses live data and deletes an expired
 * entry; a write serialises the data and upserts it with a lifetime of
 * `cacheMinutes` (15 by default);
 * clearing removes one endpoint's entries or all of them. Also the
 * settings read that insists on a Zoho organisation id. Times are
 * milliseconds, given as parameters.
 */
module ZohoCache {
  import opened Wrappers
  import opened Json
  import opened Strings
  import opened SettingsHelper

  const DefaultCacheMinutes: int := 15
  const OrgIdMissing: string := "Zoho Organization ID not configured. Please set it in Settings."

  /** `getSettings()`: the row, or the error it throws when the row or its organisation id is missing. */
  function GetSettings(settings: Option<SettingsRow>): (r: Result<SettingsRow, string>)
    ensures r.Err? <==> settings.None? || !Truthy(Column(settings, "zohoOrgId"))
    ensures r.Err? ==> r.error == OrgIdMissing
    ensures r.Ok? ==> r.value == settings.value && Truthy(Get(JObj(r.value), "zohoOrgId"))
  {
    if settings.None? || !Truthy(Column(settings, "zohoOrgId")) then Err(OrgIdMissing)
    else Ok(settings.value)
  }

  /** A row of the `zohoCache` table: the endpoint, the data as JSON text, and the expiry time. */
  datatype Entry = Entry(endpoint: string, text: string, expiresAt: int)
  type Entries = map<string, Entry>

  /** `JSON.stringify`, which throws on values it cannot serialise. */
  type Serialise = Json -> Result<string, Thrown>

  /** `JSON.parse`, which throws on text that is not JSON. */
  type Deserialise = string -> Result<Json, Thrown>

  /** The JSON text stored under `key` that is still live at `now`. */
  function Lookup(entries: Entries, key: string, now: int): (r: Option<string>)
    ensures r.Some? <==> key in entries && entries[key].expiresAt > now
    ensures r.Some? ==> r.value == entries[key].text
  {
    if key in entries && entries[key].expiresAt > now then Some(entries[key].text) else None
  }

  /**
   * What `getCached(key)` returns at `now`: the parse of a live entry's
   * text (a parse that throws propagates), and null when there is none.
   */
  function Read(entries: Entries, key: string, now: int, parse: Deserialise): (r: Result<Json, Thrown>)
    ensures Lookup(entries, key, now).None? ==> r == Ok(JNull)
    ensures Lookup(entries, key, now).Some? ==> r == parse(entries[key].text)
  {
    match Lookup(entries, key, now)
    case None => Ok(JNull)
    case Some(text) => parse(text)
  }

  /** The table after reading `key` at `now`: an expired entry is gone, nothing else changes. */
  function AfterLookup(entries: Entries, key: string, now: int): (e: Entries)
    ensures key in entries && entries[key].expiresAt <= now ==> e == entries - {key}
    ensures !(key in entries && entries[key].expiresAt <= now) ==> e == entries
  {
    if key in entries && entries[key].expiresAt <= now then entries - {key} else entries
  }

  /**
   * The table after writing the text `text` under `key` for `minutes` from
   * `now`: an existing entry keeps its endpoint and gets the new text and
   * expiry.
   */
  function Stored(entries: Entries, key: string, endpoint: string, text: string, minutes: int, now: int): (e: Entries)
    ensures key in e && e[key].text == text && e[key].expiresAt == now + minutes * 60 * 1000
    ensures e[key].endpoint == (if key in entries then entries[key].endpoint else endpoint)
    ensures e.Keys == entries.Keys + {key}
    ensures forall k :: k in entries && k != key ==> e[k] == entries[k]
  {
    var expiresAt := now + minutes * 60 * 1000;
    entries[key := if key in entries then Entry(entries[key].endpoint, text, expiresAt) else Entry(endpoint, text, expiresAt)]
  }

  /** The table after `clearCache(endpoint)`: a non-empty endpoint removes its entries, else all go. */
  function Cleared(entries: Entries, endpoint: Option<string>): (e: Entries)
    ensures Present(endpoint) ==> forall k :: k in e <==> k in entries && entries[k].endpoint != endpoint.value
    ensures forall k :: k in e ==> k in entries && e[k] == entries[k]
    ensures !Present(endpoint) ==> e == map[]
  {
    if Present(endpoint) then map k | k in entries && entries[k].endpoint != endpoint.value :: entries[k]
    else map[]
  }

  /** `settings?.cacheMinutes || 15`; the column holds an integer. */
  function CacheMinutes(settings: Option<SettingsRow>): (m: int)
    ensures m != 0
    ensures Column(settings, "cacheMinutes").JNum? && Column(settings, "cacheMinutes").n != 0 ==>
      m == Column(settings, "cacheMinutes").n
    ensures settings.None? ==> m == DefaultCacheMinutes
  {
    match Or(Column(settings, "cacheMinutes"), JNum(DefaultCacheMinutes))
    case JNum(n) => n
    case _ => DefaultCacheMinutes
  }

  /** The hexadecimal digit for 0..15. */
  function HexDigit(n: int): char
    requires 0 <= n < 16
  {
    if n < 10 then ('0' as int + n) as char else ('a' as int + n - 10) as char
  }

  /** One character as `JSON.stringify` writes it inside a string. */
  function EscapeChar(c: char): string {
    if c == '"' then "\\\""
    else if c == '\\' then "\\\\"
    else if c == '\n' then "\\n"
    else if c == '\r' then "\\r"
    else if c == '\t' then "\\t"
    else if c == '\U{8}' then "\\b"
    else if c == '\U{C}' then "\\f"
    else if c < ' ' then "\\u00" + [HexDigit(c as int / 16), HexDigit(c as int % 16)]
    else [c]
  }

  /** `JSON.stringify(s)` for a string. */
  function Quote(s: string): string {
    "\"" + Escaped(s) + "\""
  }

  function Escaped(s: string): string
    decreases |s|
  {
    if |s| == 0 then "" else EscapeChar(s[0]) + Escaped(s[1..])
  }

  /** The members of a `Record<string, string>`, in their order. */
  function Members(params: seq<(string, string)>): string
    decreases |params|
  {
    if |params| == 0 then ""
    else
      var member := Quote(params[0].0) + ":" + Quote(params[0].1);
      if |params| == 1 then member else member + "," + Members(params[1..])
  }

  /** `JSON.stringify(params)` */
  function Stringify(params: seq<(string, string)>): string {
    "{" + Members(params) + "}"
  }

  /** `${endpoint}:${JSON.stringify(params)}` */
  function CacheKey(endpoint: string, params: seq<(string, string)>): (key: string)
    ensures IsPrefix(endpoint + ":", key)
  {
    endpoint + ":" + Stringify(params)
  }

  /** A read at `now` of an entry written at `t` finds its text exactly while `now` is before its expiry. */
  lemma StoreThenLookup(entries: Entries, key: string, endpoint: string, text: string, minutes: int, t: int, now: int)
    ensures Lookup(Stored(entries, key, endpoint, text, minutes, t), key, now) ==
      (if now < t + minutes * 60000 then Some(text) else None)
    ensures now >= t + minutes * 60000 ==>
      AfterLookup(Stored(entries, key, endpoint, text, minutes, t), key, now) == entries - {key}
  {
    var e := Stored(entries, key, endpoint, text, minutes, t);
    if now >= t + minutes * 60000 {
      assert e - {key} == entries - {key};
    }
  }

  /** A write leaves what other keys read unchanged. */
  lemma StoreKeepsOtherReads(entries: Entries, key: string, endpoint: string, text: string, minutes: int, t: int,
                             other: string, now: int, parse: Deserialise)
    requires other != key
    ensures Read(Stored(entries, key, endpoint, text, minutes, t), other, now, parse) == Read(entries, other, now, parse)
  {
  }

  /**
   * The round trip: data cached for an endpoint and parameters is read
   * back, for the same endpoint and parameters and until the configured
   * number of minutes (15 when unset or zero) has passed, as the parse of
   * its serialisation; that is the data itself whenever parsing undoes
   * serialising it. Afterwards the read gives null.
   */
  lemma CacheRoundTrip(entries: Entries, endpoint: string, params: seq<(string, string)>, data: Json,
                       settings: Option<SettingsRow>, t: int, now: int, stringify: Serialise, parse: Deserialise)
    requires stringify(data).Ok?
    ensures var key := CacheKey(endpoint, params);
      var e := Stored(entries, key, endpoint, stringify(data).value, CacheMinutes(settings), t);
      && (now < t + CacheMinutes(settings) * 60000 ==> Read(e, key, now, parse) == parse(stringify(data).value))
      && (now < t + CacheMinutes(settings) * 60000 && parse(stringify(data).value) == Ok(data) ==>
            Read(e, key, now, parse) == Ok(data))
      && (now >= t + CacheMinutes(settings) * 60000 ==> Read(e, key, now, parse) == Ok(JNull))
  {
    StoreThenLookup(entries, CacheKey(endpoint, params), endpoint, stringify(data).value, CacheMinutes(settings), t, now);
  }

  /**
   * A cached value whose text parses to null reads exactly as a miss does,
   * so a caller cannot tell the two apart.
   */
  lemma CachedNullIsMiss(entries: Entries, key: string, now: int, parse: Deserialise)
    requires Lookup(entries, key, now).Some? && parse(entries[key].text) == Ok(JNull)
    ensures Read(entries, key, now, parse) == Read(entries - {key}, key, now, parse)
  {
  }

  /** Without a settings row, or with zero minutes, an entry lives fifteen minutes. */
  lemma DefaultLifetime(entries: Entries, key: string, endpoint: string, text: string, t: int)
    ensures var e := Stored(entries, key, endpoint, text, CacheMinutes(None), t);
      e[key].expiresAt == t + 900000
    ensures CacheMinutes(Some(map["cacheMinutes" := JNum(0)])) == DefaultCacheMinutes
  {
    var row := map["cacheMinutes" := JNum(0)];
    assert Column(Some(row), "cacheMinutes") == JNum(0);
  }

  /** Clearing an endpoint, then reading, finds none of its entries, and the other entries as before. */
  lemma ClearThenLookup(entries: Entries, endpoint: string, key: string, now: int)
    requires endpoint != ""
    ensures key in entries && entries[key].endpoint == endpoint ==> Lookup(Cleared(entries, Some(endpoint)), key, now).None?
    ensures key in entries && entries[key].endpoint != endpoint ==>
      Lookup(Cleared(entries, Some(endpoint)), key, now) == Lookup(entries, key, now)
  {
  }

  /** The cache table. */
  class Cache {
    var entries: Entries

    constructor()
      ensures entries == map[]
    {
      entries := map[];
    }

    /** `getCached(cacheKey)` at `now`. */
    method GetCached(key: string, now: int, parse: Deserialise) returns (r: Result<Json, Thrown>)
      modifies this
      ensures r == Read(old(entries), key, now, parse)
      ensures entries == AfterLookup(old(entries), key, now)
    {
      if key in entries && entries[key].expiresAt > now {
        return parse(entries[key].text);
      }
      if key in entries {
        entries := entries - {key};
      }
      r := Ok(JNull);
    }

    /**
     * `setCache(cacheKey, endpoint, data, cacheMinutes)` at `now`: the data
     * is serialised first, so a serialisation that throws writes nothing.
     */
    method SetCache(key: string, endpoint: string, data: Json, minutes: int, now: int, stringify: Serialise)
      returns (r: Result<(), Thrown>)
      modifies this
      ensures stringify(data).Err? ==> r == Err(stringify(data).error) && entries == old(entries)
      ensures stringify(data).Ok? ==>
        r == Ok(()) && entries == Stored(old(entries), key, endpoint, stringify(data).value, minutes, now)
    {
      var expiresAt := now + minutes * 60 * 1000;
      var text := stringify(data);
      if text.Err? {
        return Err(text.error);
      }
      if key in entries {
        entries := entries[key := Entry(entries[key].endpoint, text.value, expiresAt)];
      } else {
        entries := entries[key := Entry(endpoint, text.value, expiresAt)];
      }
      r := Ok(());
    }

    /** `cacheZohoData(endpoint, params, data)` at `now`, given the settings row. */
    method CacheZohoData(endpoint: string, params: seq<(string, string)>, data: Json,
                         settings: Option<SettingsRow>, now: int, stringify: Serialise)
      returns (r: Result<(), Thrown>)
      modifies this
      ensures stringify(data).Err? ==> r == Err(stringify(data).error) && entries == old(entries)
      ensures stringify(data).Ok? ==>
        r == Ok(()) && entries == Stored(old(entries), CacheKey(endpoint, params), endpoint, stringify(data).value, CacheMinutes(settings), now)
    {
      var key := CacheKey(endpoint, params);
      r := SetCache(key, endpoint, data, CacheMinutes(settings), now, stringify);
    }

    /** `getCachedZohoData(endpoint, params)` at `now`. */
    method GetCachedZohoData(endpoint: string, params: seq<(string, string)>, now: int, parse: Deserialise)
      returns (r: Result<Json, Thrown>)
      modifies this
      ensures r == Read(old(entries), CacheKey(endpoint, params), now, parse)
      ensures entries == AfterLookup(old(entries), CacheKey(endpoint, params), now)
    {
      r := GetCached(CacheKey(endpoint, params), now, parse);
    }

    /** `clearCache(endpoint?)` */
    method ClearCache(endpoint: Option<string>)
      modifies this
      ensures entries == Cleared(old(entries), endpoint)
    {
      if Present(endpoint) {
        entries := map k | k in entries && entries[k].endpoint != endpoint.value :: entries[k];
      } else {
        entries := map[];
      }
    }
  }
}
