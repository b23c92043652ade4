/** Route responses: an HTTP status and a JSON body. */
module Http {
  import opened Json

  datatype Reply = Reply(status: int, body: Json)

  /** `NextResponse.json({ error: message }, { status })` */
  function ErrorReply(status: int, message: string): (r: Reply)
    ensures r.status == status && Get(r.body, "error") == JStr(message)
  {
    Reply(status, JObj(map["error" := JStr(message)]))
  }

  /** `NextResponse.json(body)`, status 200. */
  function OkReply(fields: map<string, Json>): (r: Reply)
    ensures r.status == 200 && r.body == JObj(fields)
  {
    Reply(200, JObj(fields))
  }

  /** The catch-all of the dashboard, transactions and accounts routes: status 500, disconnected, no data. */
  function Failure(message: string): (r: Reply)
    ensures r.status == 500 && Get(r.body, "error") == JStr(message)
    ensures Get(r.body, "connected") == JBool(false) && Get(r.body, "data") == JNull
  {
    Reply(500, JObj(map["connected" := JBool(false), "error" := JStr(message), "data" := JNull]))
  }

  /**
   * The TypeError a destructuring `const { property } = value` throws when
   * the value is null; `source` is how the engine names the value.
   */
  function NullDestructureMessage(property: string, source: string): string {
    "Cannot destructure property '" + property + "' of '" + source + "' as it is null."
  }

  /** The guard messages the routes share. */
  const NoKeyMessage: string := "Anthropic API key not configured."
  const NotConnectedMessage: string := "Zoho Books not connected. Please connect via Settings."
  const NoKeyHelpMessage: string :=
    "Anthropic API key not configured. Please set it in Settings or ANTHROPIC_API_KEY env var."

  /** The fallback body of the dashboard, transactions and accounts routes. */
  const NotConnected: Reply := OkReply(map["connected" := JBool(false), "data" := JNull])

  function Strs(s: seq<string>): (r: Json)
    ensures r.JArr? && |r.items| == |s|
    ensures forall i :: 0 <= i < |s| ==> r.items[i] == JStr(s[i])
  {
    JArr(seq(|s|, i requires 0 <= i < |s| => JStr(s[i])))
  }
}
