/**
 * The interactive chat endpoint (`POST /api/chat`): guard checks, history
 * assembly, the tool-use loop that lets the model call ledger tools for at
 * most 15 rounds, truncation of large tool results, and extraction of the
 * final text.
 */
module ChatRoute {
  import opened Wrappers
  import opened Json
  import opened Strings
  import opened Seqs
  import opened Llm
  import opened ToolExecutor
  import opened Http
  import opened SettingsHelper

  const MaxToolLoops: nat := 15
  const ResultLimit: nat := 50000
  const TruncationMarker: string := "... [truncated]"

  function SummaryNote(n: nat): string {
    "Showing first 50 of " + NatToString(n) + " records. Ask for specific filters to narrow down."
  }

  /** The digest that replaces an oversized array result: the count, the first 50 records and a note. */
  function Summary(items: seq<Json>): (j: Json)
    ensures Get(j, "success") == JBool(true)
    ensures Get(j, "total_records") == JNum(|items|)
    ensures Get(j, "data") == JArr(Take(items, 50))
    ensures Get(j, "note") == JStr(SummaryNote(|items|))
  {
    JObj(map["success" := JBool(true), "total_records" := JNum(|items|),
             "data" := JArr(Take(items, 50)), "note" := JStr(SummaryNote(|items|))])
  }

  /**
   * The content sent back for one tool result. A serialisation of at most
   * 50000 characters passes verbatim; a longer one becomes the summary when
   * the data is an array, and otherwise its first 50000 characters followed
   * by the marker. Neither branch bounds the length by 50000.
   */
  function ResultContent(stringify: Stringify, outcome: ToolOutcome): (r: Result<string, Thrown>)
    ensures stringify(OutcomeJson(outcome)).Err? ==> r == stringify(OutcomeJson(outcome))
    ensures stringify(OutcomeJson(outcome)).Ok? ==>
      var s := stringify(OutcomeJson(outcome)).value;
      (|s| <= ResultLimit ==> r == Ok(s)) &&
      (|s| > ResultLimit && outcome.Success? && outcome.data.JArr? ==>
        r == stringify(Summary(outcome.data.items))) &&
      (|s| > ResultLimit && !(outcome.Success? && outcome.data.JArr?) ==>
        r.Ok? && |r.value| == ResultLimit + 15 &&
        r.value[..ResultLimit] == s[..ResultLimit] && r.value[ResultLimit..] == TruncationMarker)
  {
    match stringify(OutcomeJson(outcome))
    case Err(e) => Err(e)
    case Ok(s) =>
      if |s| > ResultLimit then
        if outcome.Success? && outcome.data.JArr? then stringify(Summary(outcome.data.items))
        else Ok(s[..ResultLimit] + TruncationMarker)
      else Ok(s)
  }

  /** The tool_result block answering one tool-use block. */
  function ResultBlock(ledger: Ledger, stringify: Stringify, u: Block): (r: Result<Block, Thrown>)
    requires u.ToolUse?
    ensures r.Ok? ==> r.value.ToolResult? && r.value.toolUseId == u.id && !r.value.isError
  {
    match ResultContent(stringify, ExecuteToolCall(ledger, u.name, u.input))
    case Err(e) => Err(e)
    case Ok(c) => Ok(ToolResult(u.id, c, false))
  }

  /** A way of answering a tool-use block with its tool_result block, or the error it throws. */
  type Runner = Block --> Result<Block, Thrown>

  /** The runner accepts every tool-use block. */
  ghost predicate RunsToolUses(run: Runner) {
    forall u: Block :: u.ToolUse? ==> run.requires(u)
  }

  /** The route's runner: execute the tool and serialise its envelope. */
  function RunBlock(ledger: Ledger, stringify: Stringify): (run: Runner)
    ensures RunsToolUses(run)
  {
    (u: Block) requires u.ToolUse? => ResultBlock(ledger, stringify, u)
  }

  /** The tool results of one round: one per tool-use block, in block order, carrying its id. */
  function ToolResults(run: Runner, uses: seq<Block>): (r: Result<seq<Block>, Thrown>)
    requires RunsToolUses(run) && forall j :: 0 <= j < |uses| ==> uses[j].ToolUse?
    ensures r.Ok? ==> |r.value| == |uses|
    ensures r.Ok? ==> forall j :: 0 <= j < |uses| ==> run(uses[j]) == Ok(r.value[j])
    decreases |uses|
  {
    if |uses| == 0 then Ok([])
    else
      match ToolResults(run, uses[..|uses| - 1])
      case Err(e) => Err(e)
      case Ok(done) =>
        match run(uses[|uses| - 1])
        case Err(e) => Err(e)
        case Ok(b) =>
          ResultsSnoc(run, uses, done, b);
          Ok(done + [b])
  }

  /** Appending the last block's result to the results of the blocks before it. */
  lemma ResultsSnoc(run: Runner, uses: seq<Block>, done: seq<Block>, b: Block)
    requires RunsToolUses(run) && |uses| > 0 && forall j :: 0 <= j < |uses| ==> uses[j].ToolUse?
    requires |done| == |uses| - 1
    requires forall j :: 0 <= j < |uses| - 1 ==> run(uses[..|uses| - 1][j]) == Ok(done[j])
    requires run(uses[|uses| - 1]) == Ok(b)
    ensures forall j :: 0 <= j < |uses| ==> run(uses[j]) == Ok((done + [b])[j])
  {
    forall j | 0 <= j < |uses| ensures run(uses[j]) == Ok((done + [b])[j]) {
      if j < |uses| - 1 {
        assert uses[..|uses| - 1][j] == uses[j];
      }
    }
  }

  /** The results of a round answer its tool-use blocks one to one, in order, by id. */
  lemma ToolResultsMatchIds(ledger: Ledger, stringify: Stringify, uses: seq<Block>)
    requires forall j :: 0 <= j < |uses| ==> uses[j].ToolUse?
    requires ToolResults(RunBlock(ledger, stringify), uses).Ok?
    ensures var rs := ToolResults(RunBlock(ledger, stringify), uses).value;
      |rs| == |uses| &&
      forall j :: 0 <= j < |uses| ==> rs[j].ToolResult? && rs[j].toolUseId == uses[j].id && !rs[j].isError
  {
    var rs := ToolResults(RunBlock(ledger, stringify), uses).value;
    forall j | 0 <= j < |uses|
      ensures rs[j].ToolResult? && rs[j].toolUseId == uses[j].id && !rs[j].isError
    {
      assert ResultBlock(ledger, stringify, uses[j]) == Ok(rs[j]);
    }
  }

  lemma ToolResultsStep(run: Runner, uses: seq<Block>, i: nat)
    requires RunsToolUses(run) && forall j :: 0 <= j < |uses| ==> uses[j].ToolUse?
    requires i < |uses|
    ensures ToolResults(run, uses[..i + 1]) ==
      match ToolResults(run, uses[..i])
      case Err(e) => Err(e)
      case Ok(done) =>
        match run(uses[i])
        case Err(e) => Err(e)
        case Ok(b) => Ok(done + [b])
  {
    assert uses[..i + 1][..i] == uses[..i];
    assert uses[..i + 1][i] == uses[i];
  }

  /** The inner `for` loop: run each tool-use block in order and collect its result. */
  method RunToolUses(run: Runner, uses: seq<Block>)
    returns (r: Result<seq<Block>, Thrown>, names: seq<string>)
    requires RunsToolUses(run) && forall j :: 0 <= j < |uses| ==> uses[j].ToolUse?
    ensures r == ToolResults(run, uses)
    ensures r.Ok? ==> names == Names(uses)
  {
    var results: seq<Block> := [];
    names := [];
    var i := 0;
    while i < |uses|
      invariant 0 <= i <= |uses|
      invariant ToolResults(run, uses[..i]) == Ok(results)
      invariant names == Names(uses[..i])
    {
      var u := uses[i];
      NamesSnoc(uses, i);
      names := names + [u.name];
      var block := run(u);
      ToolResultsStep(run, uses, i);
      if block.Err? {
        r := Err(block.error);
        ToolResultsErrExtends(run, uses, i + 1);
        return;
      }
      results := results + [block.value];
      i := i + 1;
    }
    assert uses[..|uses|] == uses;
    r := Ok(results);
  }

  /** A failure in a prefix of the blocks is the failure of the whole round. */
  lemma {:induction false} ToolResultsErrExtends(run: Runner, uses: seq<Block>, i: nat)
    requires RunsToolUses(run) && forall j :: 0 <= j < |uses| ==> uses[j].ToolUse?
    requires i <= |uses| && ToolResults(run, uses[..i]).Err?
    ensures ToolResults(run, uses) == ToolResults(run, uses[..i])
    decreases |uses| - i
  {
    if i < |uses| {
      ToolResultsStep(run, uses, i);
      ToolResultsErrExtends(run, uses, i + 1);
    } else {
      assert uses[..i] == uses;
    }
  }

  /** Every tool name executed over the given rounds, in execution order. */
  function ToolsUsed(rounds: seq<Response>): seq<string>
    decreases |rounds|
  {
    if |rounds| == 0 then []
    else ToolsUsed(rounds[..|rounds| - 1]) + Names(ToolUses(rounds[|rounds| - 1].content))
  }

  /** The number of tool-use blocks over the given rounds. */
  function ToolUseCount(rounds: seq<Response>): nat
    decreases |rounds|
  {
    if |rounds| == 0 then 0
    else ToolUseCount(rounds[..|rounds| - 1]) + |ToolUses(rounds[|rounds| - 1].content)|
  }

  /** `toolsUsed` holds one name per tool-use block processed. */
  lemma {:induction false} ToolsUsedLength(rounds: seq<Response>)
    ensures |ToolsUsed(rounds)| == ToolUseCount(rounds)
    decreases |rounds|
  {
    if |rounds| > 0 {
      ToolsUsedLength(rounds[..|rounds| - 1]);
    }
  }

  /** What the loop leaves behind: the conversation, every response, every round's results. */
  datatype LoopOutcome = LoopOutcome(
    messages: seq<Message>,
    responses: seq<Response>,
    results: seq<seq<Block>>,
    toolsUsed: seq<string>,
    loops: nat)

  /**
   * The rounds of a tool loop over `history`: response k answers the history
   * plus the first k rounds, and every response that was followed by a round
   * asked for tools and got the results of its tool-use blocks.
   */
  predicate Rounds(model: Model, run: Runner, history: seq<Message>,
                   responses: seq<Response>, results: seq<seq<Block>>)
    requires RunsToolUses(run)
  {
    |responses| == |results| + 1 &&
    (forall k :: 0 <= k < |responses| ==>
      model(history + Exchange(responses[..k], results[..k])) == Ok(responses[k])) &&
    (forall k :: 0 <= k < |results| ==>
      responses[k].stopReason == ToolUseRequested &&
      ToolResults(run, ToolUses(responses[k].content)) == Ok(results[k]))
  }

  /** The whole run: its rounds, the conversation it built, and the tools it used. */
  predicate Trace(model: Model, run: Runner, history: seq<Message>, o: LoopOutcome)
    requires RunsToolUses(run)
  {
    Rounds(model, run, history, o.responses, o.results) &&
    o.loops == |o.results| &&
    o.messages == history + Exchange(o.responses[..o.loops], o.results) &&
    o.toolsUsed == ToolsUsed(o.responses[..o.loops])
  }

  lemma RoundsStep(model: Model, run: Runner, history: seq<Message>,
                   responses: seq<Response>, results: seq<seq<Block>>, round: seq<Block>, next: Response)
    requires RunsToolUses(run)
    requires Rounds(model, run, history, responses, results)
    requires responses[|results|].stopReason == ToolUseRequested
    requires ToolResults(run, ToolUses(responses[|results|].content)) == Ok(round)
    requires model(history + Exchange(responses, results + [round])) == Ok(next)
    ensures Rounds(model, run, history, responses + [next], results + [round])
  {
    var rs, xs := responses + [next], results + [round];
    forall k | 0 <= k < |rs|
      ensures model(history + Exchange(rs[..k], xs[..k])) == Ok(rs[k])
    {
      PrefixOfSnoc(responses, next, results, round, k);
    }
    forall k | 0 <= k < |xs|
      ensures rs[k].stopReason == ToolUseRequested &&
        ToolResults(run, ToolUses(rs[k].content)) == Ok(xs[k])
    {
      assert rs[k] == responses[k];
    }
  }

  lemma PrefixOfSnoc(responses: seq<Response>, next: Response, results: seq<seq<Block>>, round: seq<Block>, k: nat)
    requires |responses| == |results| + 1 && k <= |responses|
    ensures k < |responses| ==>
      (responses + [next])[..k] == responses[..k] && (results + [round])[..k] == results[..k] &&
      (responses + [next])[k] == responses[k]
    ensures k == |responses| ==>
      (responses + [next])[..k] == responses && (results + [round])[..k] == results + [round] &&
      (responses + [next])[k] == next
  {
  }

  lemma ToolsUsedStep(responses: seq<Response>, n: nat)
    requires n < |responses|
    ensures ToolsUsed(responses[..n + 1]) == ToolsUsed(responses[..n]) + Names(ToolUses(responses[n].content))
  {
    assert responses[..n + 1][..n] == responses[..n];
  }

  /** The state of the loop after `loops` rounds, `response` being the latest answer. */
  predicate LoopState(model: Model, run: Runner, history: seq<Message>,
                      response: Response, o: LoopOutcome)
    requires RunsToolUses(run)
  {
    Trace(model, run, history, o) && o.loops <= MaxToolLoops && response == o.responses[o.loops]
  }

  /** The messages of a round's model call: the assistant turn with the response's blocks, then the tool results. */
  function RoundMessages(o: LoopOutcome, response: Response, round: seq<Block>): seq<Message> {
    o.messages + [Message(Assistant, Parts(response.content)), Message(User, Parts(round))]
  }

  /** The loop's state after a round that ran `round` and got `next` back. */
  function Advance(o: LoopOutcome, response: Response, round: seq<Block>, names: seq<string>, next: Response): LoopOutcome {
    LoopOutcome(RoundMessages(o, response, round), o.responses + [next], o.results + [round], o.toolsUsed + names, o.loops + 1)
  }

  /** One round of the loop keeps its state. */
  lemma LoopStep(model: Model, run: Runner, history: seq<Message>,
                 response: Response, o: LoopOutcome, round: seq<Block>, names: seq<string>, next: Response)
    requires RunsToolUses(run)
    requires LoopState(model, run, history, response, o)
    requires o.loops < MaxToolLoops && response.stopReason == ToolUseRequested
    requires ToolResults(run, ToolUses(response.content)) == Ok(round)
    requires names == Names(ToolUses(response.content))
    requires model(RoundMessages(o, response, round)) == Ok(next)
    ensures LoopState(model, run, history, next, Advance(o, response, round, names, next))
  {
    var n := o.loops;
    SplitLast(o.responses);
    ExchangeSnoc(o.responses[..n], o.results, response, round);
    AppendAssoc(history, Exchange(o.responses[..n], o.results),
                [Message(Assistant, Parts(response.content)), Message(User, Parts(round))]);
    ToolsUsedStep(o.responses, n);
    RoundsStep(model, run, history, o.responses, o.results, round, next);
    SnocPrefix(o.responses, next);
  }

  /** The loop has stopped: the model stopped asking for tools, or 15 rounds have run. */
  predicate Finished(model: Model, run: Runner, history: seq<Message>, o: LoopOutcome)
    requires RunsToolUses(run)
  {
    Trace(model, run, history, o) && o.loops <= MaxToolLoops &&
    (o.responses[o.loops].stopReason != ToolUseRequested || o.loops == MaxToolLoops)
  }

  /**
   * The round after the trace `o` throws `e`: a tool result cannot be
   * serialised, or the model call that follows the round throws.
   */
  predicate RoundFails(model: Model, run: Runner, o: LoopOutcome, e: Thrown)
    requires RunsToolUses(run) && o.loops < |o.responses|
  {
    var response := o.responses[o.loops];
    match ToolResults(run, ToolUses(response.content))
    case Err(e') => e' == e
    case Ok(round) =>
      model(RoundMessages(o, response, round)) == Err(e)
  }

  /**
   * The loop throws `e`: the first model call throws it, or a round the
   * loop was entitled to run (fewer than 15 before it, tools asked for)
   * throws it.
   */
  ghost predicate LoopFails(model: Model, run: Runner, history: seq<Message>, e: Thrown)
    requires RunsToolUses(run)
  {
    || model(history) == Err(e)
    || exists o :: Trace(model, run, history, o) && o.loops < MaxToolLoops &&
         o.responses[o.loops].stopReason == ToolUseRequested && RoundFails(model, run, o, e)
  }

  /** Response k of a run answers the history and the first k rounds. */
  lemma RoundResponse(model: Model, run: Runner, history: seq<Message>, rs: seq<Response>, xs: seq<seq<Block>>, k: nat)
    requires RunsToolUses(run) && Rounds(model, run, history, rs, xs) && k < |rs|
    ensures model(history + Exchange(rs[..k], xs[..k])) == Ok(rs[k])
  {
  }

  /** Round k of a run asked for tools and got the results of its tool-use blocks. */
  lemma RoundResults(model: Model, run: Runner, history: seq<Message>, rs: seq<Response>, xs: seq<seq<Block>>, k: nat)
    requires RunsToolUses(run) && Rounds(model, run, history, rs, xs) && k < |xs|
    ensures rs[k].stopReason == ToolUseRequested && ToolResults(run, ToolUses(rs[k].content)) == Ok(xs[k])
  {
  }

  /** Two traces over the same history agree on their common rounds: the model and the tools are functions. */
  lemma {:induction false} RoundsAgree(model: Model, run: Runner, history: seq<Message>,
                                       rs1: seq<Response>, xs1: seq<seq<Block>>, rs2: seq<Response>, xs2: seq<seq<Block>>,
                                       k: nat)
    requires RunsToolUses(run)
    requires Rounds(model, run, history, rs1, xs1) && Rounds(model, run, history, rs2, xs2)
    requires k <= |xs1| && k <= |xs2|
    ensures rs1[..k + 1] == rs2[..k + 1] && xs1[..k] == xs2[..k]
    decreases k
  {
    if k > 0 {
      var j := k - 1;
      RoundsAgree(model, run, history, rs1, xs1, rs2, xs2, j);
      PrefixesAgreeAt(rs1, rs2, k, j);
      RoundResults(model, run, history, rs1, xs1, j);
      RoundResults(model, run, history, rs2, xs2, j);
      PrefixesExtend(xs1, xs2, j);
    }
    assert rs1[..k] == rs2[..k];
    RoundResponse(model, run, history, rs1, xs1, k);
    RoundResponse(model, run, history, rs2, xs2, k);
    PrefixesExtend(rs1, rs2, k);
  }

  /** A round the loop was entitled to run lies strictly before the round where a finished loop stopped. */
  lemma FailingRoundIsEarlier(model: Model, run: Runner, history: seq<Message>, o: LoopOutcome, o': LoopOutcome)
    requires RunsToolUses(run)
    requires Finished(model, run, history, o)
    requires Trace(model, run, history, o') && o'.loops < MaxToolLoops &&
             o'.responses[o'.loops].stopReason == ToolUseRequested
    ensures o'.loops < o.loops
  {
    var n := o.loops;
    if n <= o'.loops {
      RoundsAgree(model, run, history, o.responses, o.results, o'.responses, o'.results, n);
      PrefixesAgreeAt(o.responses, o'.responses, n + 1, n);
    }
  }

  /** After round m of a run, the model answers the history, the earlier rounds and that round with response m + 1. */
  lemma NextRoundAnswered(model: Model, run: Runner, history: seq<Message>, rs: seq<Response>, xs: seq<seq<Block>>,
                          m: nat)
    requires RunsToolUses(run) && Rounds(model, run, history, rs, xs) && m < |xs|
    ensures model(history + Exchange(rs[..m], xs[..m]) +
                  [Message(Assistant, Parts(rs[m].content)), Message(User, Parts(xs[m]))]) == Ok(rs[m + 1])
  {
    RoundResponse(model, run, history, rs, xs, m + 1);
    SplitLast(rs[..m + 1]);
    SplitLast(xs[..m + 1]);
    assert rs[..m + 1][..m] == rs[..m] && xs[..m + 1][..m] == xs[..m];
    ExchangeSnoc(rs[..m], xs[..m], rs[m], xs[m]);
    AppendAssoc(history, Exchange(rs[..m], xs[..m]),
                [Message(Assistant, Parts(rs[m].content)), Message(User, Parts(xs[m]))]);
  }

  /** A run with fewer rounds is the start of a longer one over the same history. */
  lemma ShorterRunIsPrefix(model: Model, run: Runner, history: seq<Message>,
                           rs: seq<Response>, xs: seq<seq<Block>>, rs': seq<Response>, xs': seq<seq<Block>>)
    requires RunsToolUses(run)
    requires Rounds(model, run, history, rs, xs) && Rounds(model, run, history, rs', xs') && |xs'| < |xs|
    ensures rs'[..|xs'|] == rs[..|xs'|] && rs'[|xs'|] == rs[|xs'|] && xs' == xs[..|xs'|]
  {
    var m := |xs'|;
    RoundsAgree(model, run, history, rs, xs, rs', xs', m);
    PrefixesAgreeAt(rs, rs', m + 1, m);
    assert xs' == xs'[..m];
    assert rs'[..m] == rs'[..m + 1][..m] && rs[..m] == rs[..m + 1][..m];
  }

  /** A round that a finished loop ran succeeded, so no trace fails there. */
  lemma EarlierRoundSucceeds(model: Model, run: Runner, history: seq<Message>, o: LoopOutcome, o': LoopOutcome,
                             e: Thrown)
    requires RunsToolUses(run)
    requires Trace(model, run, history, o) && Trace(model, run, history, o') && o'.loops < o.loops
    ensures !RoundFails(model, run, o', e)
  {
    var m := o'.loops;
    var rs, xs := o.responses, o.results;
    ShorterRunIsPrefix(model, run, history, rs, xs, o'.responses, o'.results);
    RoundResults(model, run, history, rs, xs, m);
    NextRoundAnswered(model, run, history, rs, xs, m);
    assert o'.messages == history + Exchange(rs[..m], xs[..m]);
  }

  /** A loop that finishes never throws: finishing and failing exclude each other. */
  lemma FinishedExcludesFails(model: Model, run: Runner, history: seq<Message>, o: LoopOutcome, e: Thrown)
    requires RunsToolUses(run)
    requires Finished(model, run, history, o)
    ensures !LoopFails(model, run, history, e)
  {
    assert o.responses[..0] == [] && o.results[..0] == [] && history + [] == history;
    assert model(history + Exchange(o.responses[..0], o.results[..0])) == Ok(o.responses[0]);
    forall o': LoopOutcome | Trace(model, run, history, o') && o'.loops < MaxToolLoops &&
                             o'.responses[o'.loops].stopReason == ToolUseRequested
      ensures !RoundFails(model, run, o', e)
    {
      FailingRoundIsEarlier(model, run, history, o, o');
      EarlierRoundSucceeds(model, run, history, o, o', e);
    }
  }

  /**
   * Lines 72-140: call the model, then while it asks for tools and fewer
   * than 15 rounds have run, execute the tools, append the assistant turn
   * and the results turn, and call the model again. A thrown model call or
   * serialisation ends the request, and nothing else does.
   */
  method ToolLoop(model: Model, run: Runner, history: seq<Message>)
    returns (r: Result<LoopOutcome, Thrown>)
    requires RunsToolUses(run)
    ensures r.Ok? ==> Finished(model, run, history, r.value)
    ensures r.Ok? ==> |r.value.responses| <= MaxToolLoops + 1
    ensures r.Err? ==> LoopFails(model, run, history, r.error)
  {
    var first := model(history);
    if first.Err? {
      return Err(first.error);
    }
    var response := first.value;
    var o := LoopOutcome(history, [response], [], [], 0);
    assert o.responses[..0] == [] && o.results[..0] == [];
    assert Exchange([], []) == [] && history + [] == history;
    while response.stopReason == ToolUseRequested && o.loops < MaxToolLoops
      invariant LoopState(model, run, history, response, o)
      decreases MaxToolLoops - o.loops
    {
      var step := ToolRound(model, run, history, response, o);
      if step.Err? {
        return Err(step.error);
      }
      response, o := step.value.0, step.value.1;
    }
    LoopExit(model, run, history, response, o);
    r := Ok(o);
  }

  /**
   * Lines 86-139, one iteration: run the tools the latest response asks
   * for, append the assistant turn and the results turn, and call the
   * model again; a throw in either ends the request.
   */
  method ToolRound(model: Model, run: Runner, history: seq<Message>, response: Response, o: LoopOutcome)
    returns (r: Result<(Response, LoopOutcome), Thrown>)
    requires RunsToolUses(run)
    requires LoopState(model, run, history, response, o)
    requires o.loops < MaxToolLoops && response.stopReason == ToolUseRequested
    ensures r.Ok? ==> LoopState(model, run, history, r.value.0, r.value.1) && r.value.1.loops == o.loops + 1
    ensures r.Err? ==> RoundFails(model, run, o, r.error)
  {
    var round, names := RunToolUses(run, ToolUses(response.content));
    if round.Err? {
      r := Err(round.error);
    } else {
      var next := model(RoundMessages(o, response, round.value));
      if next.Err? {
        r := Err(next.error);
      } else {
        LoopStep(model, run, history, response, o, round.value, names, next.value);
        r := Ok((next.value, Advance(o, response, round.value, names, next.value)));
      }
    }
  }

  /** The state of the loop when it stops: its trace, within the bound, ending at the latest response. */
  lemma LoopExit(model: Model, run: Runner, history: seq<Message>, response: Response, o: LoopOutcome)
    requires RunsToolUses(run)
    requires LoopState(model, run, history, response, o)
    ensures Trace(model, run, history, o)
    ensures o.loops <= MaxToolLoops && |o.responses| <= MaxToolLoops + 1 && o.responses[o.loops] == response
  {
  }

  /** Lines 143-146: the "\n"-join of the text blocks of the last response only. */
  function FinalMessage(o: LoopOutcome): (text: string)
    requires o.loops < |o.responses|
    ensures Texts(o.responses[o.loops].content) == [] ==> text == ""
  {
    Join(Texts(o.responses[o.loops].content), "\n")
  }

  /** A stored chat message; its content is the plain text that was saved. */
  datatype StoredMessage = StoredMessage(role: Role, content: string)

  /** A conversation row with its messages in creation order. */
  datatype Conversation = Conversation(id: string, title: string, messages: seq<StoredMessage>)

  /** The model's input: the stored messages as given, then the new user message. */
  function History(stored: seq<StoredMessage>, message: string): (h: seq<Message>)
    ensures |h| == |stored| + 1
    ensures forall i :: 0 <= i < |stored| ==> h[i] == Message(stored[i].role, Plain(stored[i].content))
    ensures h[|stored|] == Message(User, Plain(message))
  {
    seq(|stored|, i requires 0 <= i < |stored| => Message(stored[i].role, Plain(stored[i].content)))
      + [Message(User, Plain(message))]
  }

  /** What the request wrote to the store. */
  datatype ChatWrites = ChatWrites(
    created: Option<Conversation>,
    saved: seq<StoredMessage>,
    retitled: Option<string>)

  const NoWrites: ChatWrites := ChatWrites(None, [], None)

  /** Lines 180-190: the error replies of the catch block. */
  function ChatFailure(e: Thrown): (reply: Reply)
    ensures e == ErrorObject("ZOHO_NOT_CONNECTED") ==> reply.status == 400
    ensures e != ErrorObject("ZOHO_NOT_CONNECTED") ==> reply.status == 500
  {
    if e == ErrorObject("ZOHO_NOT_CONNECTED") then
      ErrorReply(400, "Zoho Books not connected. Go to Settings and connect your Zoho account via OAuth.")
    else ErrorReply(500, e.MessageOr("Failed to process chat"))
  }

  /** The TypeError of the destructuring `const { conversationId, message } = await request.json()` on null. */
  const NullBody: Thrown := ErrorObject(NullDestructureMessage("conversationId", "(intermediate value)"))

  /** The TypeError `message?.trim()` throws on a value that is neither nullish nor a string. */
  const TrimNotAFunction: Thrown := ErrorObject("message?.trim is not a function")

  /** `!message?.trim()`: the message is absent, null, or a string that is blank. */
  predicate BlankMessage(message: Json) {
    message.JUndefined? || message.JNull? || (message.JStr? && Trim(message.s) == "")
  }

  /**
   * The conversation a request continues: the one a truthy string id names
   * when it exists, with its 50 oldest messages; otherwise none, and one is
   * created.
   */
  function Continued(conversationId: Option<string>, conversations: map<string, Conversation>): (c: Option<Conversation>)
    ensures c.Some? <==> conversationId.Some? && conversationId.value != "" && conversationId.value in conversations
    ensures c.Some? ==>
      |c.value.messages| <= 50 && IsPrefixOf(c.value.messages, conversations[conversationId.value].messages)
  {
    if conversationId.Some? && conversationId.value != "" && conversationId.value in conversations then
      var found := conversations[conversationId.value];
      Some(Conversation(found.id, found.title, Take(found.messages, 50)))
    else None
  }

  /** The conversation id of a request body, when it is a string. */
  function ConversationIdOf(body: Json): Option<string> {
    var id := Get(body, "conversationId");
    if id.JStr? then Some(id.s) else None
  }

  /**
   * A successful turn: the loop ran to its end over the stored history and
   * the new message; the reply and the stored answer are the final message
   * of its last response, with every tool it used and its round count.
   */
  ghost predicate Answered(model: Model, ledger: Ledger, stringify: Stringify, history: seq<Message>,
                           id: string, text: string, reply: Reply, saved: seq<StoredMessage>) {
    exists o :: Finished(model, RunBlock(ledger, stringify), history, o) &&
      saved == [StoredMessage(User, text), StoredMessage(Assistant, FinalMessage(o))] &&
      reply == OkReply(map[
        "conversationId" := JStr(id),
        "message" := JStr(FinalMessage(o)),
        "metadata" := JObj(map["toolsUsed" := Strs(o.toolsUsed), "toolLoops" := JNum(o.loops)])])
  }

  /** A failed turn: the loop threw, and the catch block answered that error. */
  ghost predicate Failed(model: Model, ledger: Ledger, stringify: Stringify, history: seq<Message>, reply: Reply) {
    exists e :: LoopFails(model, RunBlock(ledger, stringify), history, e) && reply == ChatFailure(e)
  }

  /**
   * A turn over an accepted request: the user message is stored first; a
   * conversation is created exactly when none is continued; the turn is
   * answered from a finished loop or fails with the loop's error, and a
   * conversation that had no messages is retitled only on success.
   */
  ghost predicate Turned(conversationId: Option<string>, text: string, conversations: map<string, Conversation>,
                         newId: string, model: Model, ledger: Ledger, stringify: Stringify,
                         reply: Reply, writes: ChatWrites) {
    var c := Continued(conversationId, conversations);
    var id := if c.Some? then c.value.id else newId;
    var history := History(if c.Some? then c.value.messages else [], text);
    && |writes.saved| >= 1 && writes.saved[0] == StoredMessage(User, text)
    && (c.Some? <==> writes.created.None?)
    && (writes.created.Some? ==> writes.created.value == Conversation(newId, Take(text, 80), []))
    && (reply.status == 200 || reply.status == 400 || reply.status == 500)
    && (reply.status == 200 ==>
          && Answered(model, ledger, stringify, history, id, text, reply, writes.saved)
          && writes.retitled == (if c.Some? && |c.value.messages| > 0 then None else Some(Take(text, 80))))
    && (reply.status != 200 ==>
          && Failed(model, ledger, stringify, history, reply)
          && writes.saved == [StoredMessage(User, text)]
          && writes.retitled.None?)
  }

  /**
   * A turn whose loop finishes answers 200: failing and finishing exclude
   * each other, so the catch path is taken exactly when the loop throws.
   */
  lemma FinishedTurnAnswers(conversationId: Option<string>, text: string, conversations: map<string, Conversation>,
                            newId: string, model: Model, ledger: Ledger, stringify: Stringify,
                            reply: Reply, writes: ChatWrites, o: LoopOutcome)
    requires Turned(conversationId, text, conversations, newId, model, ledger, stringify, reply, writes)
    requires var c := Continued(conversationId, conversations);
      Finished(model, RunBlock(ledger, stringify), History(if c.Some? then c.value.messages else [], text), o)
    ensures reply.status == 200
  {
    var c := Continued(conversationId, conversations);
    var history := History(if c.Some? then c.value.messages else [], text);
    forall e | true
      ensures !LoopFails(model, RunBlock(ledger, stringify), history, e)
    {
      FinishedExcludesFails(model, RunBlock(ledger, stringify), history, o, e);
    }
  }

  /**
   * `POST /api/chat`. `body` is what `request.json()` gives, `conversations`
   * the conversation table, `newId` the id a created conversation receives
   * and `idError` what Prisma throws for an id that is not a string; the
   * model, the ledger and the serialiser are oracles.
   */
  method ChatPost(
    body: Result<Json, Thrown>,
    settings: Option<SettingsRow>, env: Env, zohoConnected: bool,
    conversations: map<string, Conversation>, newId: string, idError: Thrown,
    model: Model, ledger: Ledger, stringify: Stringify)
    returns (reply: Reply, writes: ChatWrites)
    ensures body.Err? ==> reply == ChatFailure(body.error) && writes == NoWrites
    ensures body == Ok(JNull) ==> reply == ChatFailure(NullBody) && writes == NoWrites
    ensures body.Ok? && body.value != JNull && BlankMessage(Get(body.value, "message")) ==>
      reply == ErrorReply(400, "Message is required") && writes == NoWrites
    ensures body.Ok? && body.value != JNull && !BlankMessage(Get(body.value, "message")) &&
            !Get(body.value, "message").JStr? ==>
      reply == ChatFailure(TrimNotAFunction) && writes == NoWrites
    ensures body.Ok? && body.value != JNull && Get(body.value, "message").JStr? &&
            Trim(Get(body.value, "message").s) != "" && GetAnthropicApiKey(settings, env).None? ==>
      reply == ErrorReply(400, NoKeyHelpMessage) && writes == NoWrites
    ensures (body.Ok? && body.value != JNull && Get(body.value, "message").JStr? &&
             Trim(Get(body.value, "message").s) != "" && GetAnthropicApiKey(settings, env).Some? &&
             !zohoConnected) ==> reply.status == 400 && writes == NoWrites
    ensures (body.Ok? && body.value != JNull && Get(body.value, "message").JStr? &&
             Trim(Get(body.value, "message").s) != "" && GetAnthropicApiKey(settings, env).Some? &&
             zohoConnected && Truthy(Get(body.value, "conversationId")) &&
             !Get(body.value, "conversationId").JStr?) ==> reply == ChatFailure(idError) && writes == NoWrites
    ensures (body.Ok? && body.value != JNull && Get(body.value, "message").JStr? &&
             Trim(Get(body.value, "message").s) != "" && GetAnthropicApiKey(settings, env).Some? &&
             zohoConnected && !(Truthy(Get(body.value, "conversationId")) &&
             !Get(body.value, "conversationId").JStr?)) ==>
      Turned(ConversationIdOf(body.value), Get(body.value, "message").s, conversations, newId,
             model, ledger, stringify, reply, writes)
    ensures reply.status == 200 ==>
      body.Ok? && Get(body.value, "message").JStr? &&
      Turned(ConversationIdOf(body.value), Get(body.value, "message").s, conversations, newId,
             model, ledger, stringify, reply, writes)
  {
    if body.Err? {
      return ChatFailure(body.error), NoWrites;
    }
    if body.value == JNull {
      return ChatFailure(NullBody), NoWrites;
    }
    var message := Get(body.value, "message");
    if BlankMessage(message) {
      return ErrorReply(400, "Message is required"), NoWrites;
    }
    if !message.JStr? {
      return ChatFailure(TrimNotAFunction), NoWrites;
    }
    reply, writes := ChatMessage(body.value, message.s, settings, env, zohoConnected, conversations, newId, idError,
                                 model, ledger, stringify);
  }

  /** The guards after a non-blank string message: the key, the connection and the conversation id, then the turn. */
  method ChatMessage(
    request: Json, text: string,
    settings: Option<SettingsRow>, env: Env, zohoConnected: bool,
    conversations: map<string, Conversation>, newId: string, idError: Thrown,
    model: Model, ledger: Ledger, stringify: Stringify)
    returns (reply: Reply, writes: ChatWrites)
    ensures GetAnthropicApiKey(settings, env).None? ==> reply == ErrorReply(400, NoKeyHelpMessage) && writes == NoWrites
    ensures GetAnthropicApiKey(settings, env).Some? && !zohoConnected ==> reply.status == 400 && writes == NoWrites
    ensures (GetAnthropicApiKey(settings, env).Some? && zohoConnected && Truthy(Get(request, "conversationId")) &&
             !Get(request, "conversationId").JStr?) ==> reply == ChatFailure(idError) && writes == NoWrites
    ensures (GetAnthropicApiKey(settings, env).Some? && zohoConnected &&
             !(Truthy(Get(request, "conversationId")) && !Get(request, "conversationId").JStr?)) ==>
      Turned(ConversationIdOf(request), text, conversations, newId, model, ledger, stringify, reply, writes)
    ensures reply.status == 200 ==>
      Turned(ConversationIdOf(request), text, conversations, newId, model, ledger, stringify, reply, writes)
  {
    if GetAnthropicApiKey(settings, env).None? {
      return ErrorReply(400, NoKeyHelpMessage), NoWrites;
    }
    if !zohoConnected {
      return ErrorReply(400, "Zoho Books not connected. Please connect via Settings > Zoho OAuth."), NoWrites;
    }
    var conversationId := Get(request, "conversationId");
    if Truthy(conversationId) && !conversationId.JStr? {
      return ChatFailure(idError), NoWrites;
    }
    reply, writes := ChatTurn(ConversationIdOf(request), text, conversations, newId, model, ledger, stringify);
  }

  /**
   * The request after its guards: find the conversation or create one
   * titled with the first 80 characters, store the user message, run the
   * tool loop over the stored history and the message, then store the
   * answer and retitle a conversation that had no messages. A thrown error
   * stops at the step it reached and answers through the catch block.
   */
  method ChatTurn(conversationId: Option<string>, text: string, conversations: map<string, Conversation>, newId: string,
                  model: Model, ledger: Ledger, stringify: Stringify)
    returns (reply: Reply, writes: ChatWrites)
    ensures Turned(conversationId, text, conversations, newId, model, ledger, stringify, reply, writes)
  {
    var conversation: Conversation;
    var created: Option<Conversation> := None;
    var continued := Continued(conversationId, conversations);
    if continued.Some? {
      conversation := continued.value;
    } else {
      conversation := Conversation(newId, Take(text, 80), []);
      created := Some(conversation);
    }
    var saved := [StoredMessage(User, text)];
    var outcome := ToolLoop(model, RunBlock(ledger, stringify), History(conversation.messages, text));
    if outcome.Err? {
      return ChatFailure(outcome.error), ChatWrites(created, saved, None);
    }
    var answer := FinalMessage(outcome.value);
    saved := saved + [StoredMessage(Assistant, answer)];
    assert saved == [StoredMessage(User, text), StoredMessage(Assistant, answer)];
    var retitled := if |conversation.messages| == 0 then Some(Take(text, 80)) else None;
    reply := OkReply(map[
      "conversationId" := JStr(conversation.id),
      "message" := JStr(answer),
      "metadata" := JObj(map["toolsUsed" := Strs(outcome.value.toolsUsed),
                             "toolLoops" := JNum(outcome.value.loops)])]);
    writes := ChatWrites(created, saved, retitled);
  }

  /** The model sees at most the 50 oldest stored messages, in order, then the new message. */
  lemma HistoryOfStoredConversation(stored: seq<StoredMessage>, message: string)
    ensures |History(Take(stored, 50), message)| <= 51
    ensures History(Take(stored, 50), message)[..|Take(stored, 50)|]
         == History(stored, message)[..|Take(stored, 50)|]
  {
  }
}
