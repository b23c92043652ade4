/**
 * The conversation vocabulary shared by the two tool loops: content blocks,
 * messages, a model response with its stop reason, and the model itself as
 * an oracle from a message history to a response (or a thrown error).
 * JSON serialisation is an oracle too, since `JSON.stringify` can throw.
 */
module Llm {
  import opened Wrappers
  import opened Json
  import opened Strings

  datatype Role = User | Assistant

  datatype Block =
    | Text(text: string)
    | ToolUse(id: string, name: string, input: map<string, Json>)
    | ToolResult(toolUseId: string, content: string, isError: bool)

  /** A message body: a plain string, or a list of blocks. */
  datatype Content = Plain(text: string) | Parts(blocks: seq<Block>)

  datatype Message = Message(role: Role, content: Content)

  datatype StopReason = EndTurn | ToolUseRequested | MaxTokens | StopSequence

  datatype Response = Response(content: seq<Block>, stopReason: StopReason)

  /** The chat model: answers a message history, or throws. */
  type Model = seq<Message> -> Result<Response, Thrown>

  /** `JSON.stringify`, which throws on values it cannot serialise. */
  type Stringify = Json -> Result<string, Thrown>

  /** `content.filter(b => b.type === "tool_use")` */
  function ToolUses(content: seq<Block>): (r: seq<Block>)
    ensures |r| <= |content|
    ensures forall j :: 0 <= j < |r| ==> r[j].ToolUse?
    ensures forall j :: 0 <= j < |content| && content[j].ToolUse? ==> content[j] in r
  {
    if |content| == 0 then []
    else if content[0].ToolUse? then [content[0]] + ToolUses(content[1..])
    else ToolUses(content[1..])
  }

  /** The texts of `content.filter(b => b.type === "text")`, in order. */
  function Texts(content: seq<Block>): (r: seq<string>)
    ensures |r| <= |content|
    ensures |r| == 0 <==> forall j :: 0 <= j < |content| ==> !content[j].Text?
  {
    if |content| == 0 then []
    else if content[0].Text? then [content[0].text] + Texts(content[1..])
    else Texts(content[1..])
  }

  /** The tool names of a sequence of tool-use blocks, in order. */
  function Names(uses: seq<Block>): (r: seq<string>)
    requires forall j :: 0 <= j < |uses| ==> uses[j].ToolUse?
    ensures |r| == |uses|
    ensures forall j :: 0 <= j < |uses| ==> r[j] == uses[j].name
  {
    if |uses| == 0 then [] else [uses[0].name] + Names(uses[1..])
  }

  /** The names of one more block are the names so far and its name. */
  lemma NamesSnoc(uses: seq<Block>, i: nat)
    requires forall j :: 0 <= j < |uses| ==> uses[j].ToolUse?
    requires i < |uses|
    ensures Names(uses[..i + 1]) == Names(uses[..i]) + [uses[i].name]
  {
    assert uses[..i + 1][..i] == uses[..i];
  }

  /**
   * The messages a tool loop appends: for each round, the assistant's
   * content verbatim, then one user turn carrying that round's tool results.
   */
  function Exchange(responses: seq<Response>, results: seq<seq<Block>>): (r: seq<Message>)
    requires |responses| == |results|
    ensures |r| == 2 * |responses|
    decreases |responses|
  {
    if |responses| == 0 then []
    else
      var n := |responses| - 1;
      Exchange(responses[..n], results[..n]) +
        [Message(Assistant, Parts(responses[n].content)), Message(User, Parts(results[n]))]
  }

  lemma ExchangeSnoc(responses: seq<Response>, results: seq<seq<Block>>, resp: Response, res: seq<Block>)
    requires |responses| == |results|
    ensures Exchange(responses + [resp], results + [res])
         == Exchange(responses, results) + [Message(Assistant, Parts(resp.content)), Message(User, Parts(res))]
  {
    assert (responses + [resp])[..|responses|] == responses;
    assert (results + [res])[..|results|] == results;
  }

  /** Round k of an exchange is the assistant's content at 2k and its results at 2k+1. */
  lemma {:induction false} ExchangeAt(responses: seq<Response>, results: seq<seq<Block>>, k: nat)
    requires |responses| == |results| && k < |responses|
    ensures Exchange(responses, results)[2 * k] == Message(Assistant, Parts(responses[k].content))
    ensures Exchange(responses, results)[2 * k + 1] == Message(User, Parts(results[k]))
    decreases |responses|
  {
    var n := |responses| - 1;
    if k < n {
      ExchangeAt(responses[..n], results[..n], k);
      assert responses[..n][k] == responses[k] && results[..n][k] == results[k];
    }
  }

  /** The reply's text blocks joined with "". */
  function ReplyText(response: Response): string {
    Join(Texts(response.content), "")
  }

  /**
   * `text.match(/\[[\s\S]*\]/)[0]`: from the first '[' to the last ']'
   * after it, or nothing when no ']' follows a '['.
   */
  function BracketSpan(text: string): (r: Option<string>)
    ensures r.None? <==> forall a, b :: 0 <= a < b < |text| ==> !(text[a] == '[' && text[b] == ']')
    ensures r.Some? ==> |r.value| >= 2 && r.value[0] == '[' && r.value[|r.value| - 1] == ']' && Contains(text, r.value)
    ensures r.Some? ==>
      && IndexOf(text, '[').Some? && LastIndexOf(text, ']').Some?
      && r.value == text[IndexOf(text, '[').value..LastIndexOf(text, ']').value + 1]
  {
    match (IndexOf(text, '['), LastIndexOf(text, ']'))
    case (Some(i), Some(j)) =>
      if i < j then
        SpanBetween(text, i, j);
        Some(text[i..j + 1])
      else
        NoSpanBefore(text, i, j);
        None
    case (None, _) => None
    case (_, None) => None
  }

  /** The text from a '[' to a later ']' is a bracketed span of the text. */
  lemma SpanBetween(text: string, i: nat, j: nat)
    requires i < j < |text| && text[i] == '[' && text[j] == ']'
    ensures var span := text[i..j + 1];
      |span| >= 2 && span[0] == '[' && span[|span| - 1] == ']' && Contains(text, span)
  {
    ContainsAt(text, text[i..j + 1], i);
  }

  /** When the first '[' is not before the last ']', no ']' follows any '['. */
  lemma NoSpanBefore(text: string, i: nat, j: nat)
    requires IndexOf(text, '[') == Some(i) && LastIndexOf(text, ']') == Some(j) && j <= i
    ensures forall a, b :: 0 <= a < b < |text| ==> !(text[a] == '[' && text[b] == ']')
  {
    forall a, b | 0 <= a < b < |text| && text[a] == '['
      ensures text[b] != ']'
    {
      assert a >= i;
      if b > j {
        assert text[j + 1..][b - j - 1] == text[b];
      }
    }
  }
}
