/**
 * The bounded model/tool orchestration loop of the course-material
 * assistant: `AIGenerator.generate_response`.
 *
 * The language-model endpoint is a scripted oracle: call number k (0-based)
 * of one query receives `script[k]`. The tool manager is an executor
 * function. `Respond` is the specification of one query; `GenerateResponse`
 * is the loop itself, proved to produce exactly the trace `Respond` gives.
 */
module AIGenerator {
  import opened Wrappers
  import opened Messages

  /** At most this many tool-enabled calls; one forced tool-less call may follow. */
  const MaxRounds: nat := 2
  const Temperature: int := 0
  const MaxTokens: int := 800
  /** The stop reason with which the model asks for tools. */
  const ToolUseStop: string := "tool_use"
  /** Separates the fixed instructions from the previous conversation. */
  const HistoryHeader: string := "\n\nPrevious conversation:\n"
  /** Prefix of the tool-result text that replaces a raised tool exception. */
  const ToolErrorPrefix: string := "Tool execution error: "
  /** What a call beyond the end of the script raises. */
  const ScriptExhausted: string := "no scripted response left"

  /**
   * The generator: the model id and the fixed instruction text, both set
   * once at construction. The instruction prose is left abstract.
   */
  datatype Generator = Generator(model: string, systemPrompt: string)

  /** What one endpoint call yields: a response, or the message of what it raised. */
  datatype Reply = Delivered(response: Response) | Raised(message: string)

  /** Why a query fails; none of these is a tool failure. */
  datatype Failure =
    | EndpointFailure(message: string)  // the endpoint call raised
    | NoContentBlocks                   // the answer's response has no content block
    | FirstBlockNotText                 // its first content block carries no text

  type Outcome = Result<string, Failure>

  /** The outcome of one tool execution: its text, or the message of what it raised. */
  type ToolOutcome = Result<string, string>

  /**
   * The tool manager's `execute_tool`: given the number of executions already
   * made in this query, a tool name and its input, it returns text or raises.
   */
  type ToolExecutor = (nat, string, ToolInput) -> ToolOutcome

  /** One `execute_tool` call: the tool name and its keyword arguments. */
  datatype Invocation = Invocation(name: string, input: ToolInput)

  /** Everything observable about one query: calls made, tools run, answer. */
  datatype Trace = Trace(requests: seq<Request>, executions: seq<Invocation>, outcome: Outcome)

  /** Python truthiness of the optional history string. */
  predicate HasHistory(history: Option<string>) {
    history.Some? && history.value != ""
  }

  /** Python truthiness of the optional tool list. */
  predicate HasTools(tools: Option<seq<ToolDescriptor>>) {
    tools.Some? && tools.value != []
  }

  /**
   * The system text of every call: the instructions alone, or followed by the
   * header and the history verbatim when there is a non-empty history.
   */
  function SystemContent(prompt: string, history: Option<string>): (s: string)
    ensures s == prompt <==> !HasHistory(history)
    ensures prompt <= s
    ensures HasHistory(history) ==>
      |s| == |prompt| + |HistoryHeader| + |history.value| &&
      s[|prompt|..|prompt| + |HistoryHeader|] == HistoryHeader &&
      s[|prompt| + |HistoryHeader|..] == history.value
  {
    if HasHistory(history) then prompt + HistoryHeader + history.value else prompt
  }

  /** The base parameters with the messages and system text, without tools. */
  function BaseRequest(gen: Generator, messages: seq<Message>, system: string): Request {
    Request(gen.model, Temperature, MaxTokens, messages, system, None, None)
  }

  /** A tool-enabled call: tools and the automatic choice mode when there are tools. */
  function ToolEnabledRequest(gen: Generator, messages: seq<Message>, system: string,
                              tools: Option<seq<ToolDescriptor>>): Request
  {
    var base := BaseRequest(gen, messages, system);
    if HasTools(tools) then base.(tools := tools, toolChoice := Some(Auto)) else base
  }

  /**
   * The answer of a response: the text of its first content block. An empty
   * content fails as an index error would, a first block without text as a
   * missing attribute would.
   */
  function FirstText(content: seq<Block>): (r: Outcome)
    ensures r.Ok? <==> |content| > 0 && content[0].Text?
    ensures r.Ok? ==> r.value == content[0].text
    ensures r == Err(NoContentBlocks) <==> |content| == 0
    ensures |content| > 0 && !content[0].Text? ==> r == Err(FirstBlockNotText)
  {
    if |content| == 0 then Err(NoContentBlocks)
    else if content[0].Text? then Ok(content[0].text)
    else Err(FirstBlockNotText)
  }

  /** The reply the endpoint gives to call number k. */
  function ReplyAt(script: seq<Reply>, k: nat): Reply {
    if k < |script| then script[k] else Raised(ScriptExhausted)
  }

  /** The outcome when a reply is the answer. */
  function ReplyOutcome(reply: Reply): Outcome {
    match reply
    case Raised(message) => Err(EndpointFailure(message))
    case Delivered(response) => FirstText(response.content)
  }

  /** The tool-result text of one execution; a raised exception becomes an error text. */
  function ResultContent(outcome: ToolOutcome): (r: string)
    ensures outcome.Ok? ==> r == outcome.value
    ensures outcome.Err? ==> ToolErrorPrefix <= r && r[|ToolErrorPrefix|..] == outcome.error
  {
    match outcome
    case Ok(text) => text
    case Err(message) => ToolErrorPrefix + message
  }

  /**
   * The tool results of one response, built block by block as the loop does:
   * each tool-use block is executed with the count of earlier executions,
   * `base` being the count before this response.
   */
  function ToolResults(blocks: seq<Block>, execute: ToolExecutor, base: nat): seq<ToolResult>
    decreases |blocks|
  {
    if blocks == [] then []
    else
      var earlier := ToolResults(blocks[..|blocks| - 1], execute, base);
      match blocks[|blocks| - 1]
      case ToolUse(id, name, input) =>
        earlier + [ToolResult(id, ResultContent(execute(base + |earlier|, name, input)))]
      case _ => earlier
  }

  /** The `execute_tool` calls one response causes, in block order. */
  function Invocations(blocks: seq<Block>): seq<Invocation>
    decreases |blocks|
  {
    if blocks == [] then []
    else
      var earlier := Invocations(blocks[..|blocks| - 1]);
      match blocks[|blocks| - 1]
      case ToolUse(_, name, input) => earlier + [Invocation(name, input)]
      case _ => earlier
  }

  /** The two messages a tool round appends: the assistant's content, then the results. */
  function TurnMessages(content: seq<Block>, execute: ToolExecutor, base: nat): seq<Message> {
    [AssistantBlocks(content), UserToolResults(ToolResults(content, execute, base))]
  }

  /**
   * The rest of a query from round `round`, with the conversation so far,
   * the executions so far and the requests sent so far. Rounds below
   * MaxRounds are tool-enabled calls; round MaxRounds is the forced call.
   */
  function Rounds(gen: Generator, system: string, tools: Option<seq<ToolDescriptor>>,
                  manager: Option<ToolExecutor>, script: seq<Reply>, round: nat,
                  messages: seq<Message>, executed: seq<Invocation>, sent: seq<Request>): Trace
    requires round <= MaxRounds
    decreases MaxRounds - round
  {
    if round == MaxRounds then
      Trace(sent + [BaseRequest(gen, messages, system)], executed, ReplyOutcome(ReplyAt(script, |sent|)))
    else
      var request := ToolEnabledRequest(gen, messages, system, tools);
      match ReplyAt(script, |sent|)
      case Raised(message) => Trace(sent + [request], executed, Err(EndpointFailure(message)))
      case Delivered(response) =>
        if response.stopReason != ToolUseStop || manager.None? then
          Trace(sent + [request], executed, FirstText(response.content))
        else
          Rounds(gen, system, tools, manager, script, round + 1,
                 messages + TurnMessages(response.content, manager.value, |executed|),
                 executed + Invocations(response.content), sent + [request])
  }

  /** One query: compose the system text and the first message, then run the rounds. */
  function Respond(gen: Generator, query: string, history: Option<string>,
                   tools: Option<seq<ToolDescriptor>>, manager: Option<ToolExecutor>,
                   script: seq<Reply>): Trace
  {
    Rounds(gen, SystemContent(gen.systemPrompt, history), tools, manager, script, 0,
           [UserText(query)], [], [])
  }

  /**
   * Runs every tool-use block of one response in block order, turning a raised
   * exception into an error text; `executed` holds the executions made earlier
   * in the query and comes back extended by this response's.
   */
  method ExecuteToolBlocks(content: seq<Block>, execute: ToolExecutor, executed: seq<Invocation>)
    returns (results: seq<ToolResult>, executedAfter: seq<Invocation>)
    ensures results == ToolResults(content, execute, |executed|)
    ensures executedAfter == executed + Invocations(content)
  {
    results, executedAfter := [], executed;
    for i := 0 to |content|
      invariant results == ToolResults(content[..i], execute, |executed|)
      invariant executedAfter == executed + Invocations(content[..i])
      invariant |executedAfter| == |executed| + |results|
    {
      var block := content[i];
      assert content[..i + 1][..i] == content[..i];
      if block.ToolUse? {
        var result := ResultContent(execute(|executedAfter|, block.name, block.input));
        executedAfter := executedAfter + [Invocation(block.name, block.input)];
        results := results + [ToolResult(block.id, result)];
      }
    }
    assert content[..|content|] == content;
  }

  /**
   * `generate_response`: returns the answer (or the failure that propagates),
   * the requests sent to the endpoint in order, and the tool executions in order.
   */
  method GenerateResponse(gen: Generator, query: string, history: Option<string>,
                          tools: Option<seq<ToolDescriptor>>, manager: Option<ToolExecutor>,
                          script: seq<Reply>)
    returns (answer: Outcome, sent: seq<Request>, executed: seq<Invocation>)
    ensures Trace(sent, executed, answer) == Respond(gen, query, history, tools, manager, script)
  {
    var system := SystemContent(gen.systemPrompt, history);
    var messages := [UserText(query)];
    var params := BaseRequest(gen, messages, system);
    if HasTools(tools) {
      params := params.(tools := tools, toolChoice := Some(Auto));
    }
    sent, executed := [], [];

    for round := 0 to MaxRounds
      invariant |sent| == round
      invariant params == ToolEnabledRequest(gen, messages, system, tools)
      invariant Rounds(gen, system, tools, manager, script, round, messages, executed, sent)
                == Respond(gen, query, history, tools, manager, script)
    {
      ghost var (priorMessages, priorExecuted) := (messages, executed);
      sent := sent + [params];
      var reply := ReplyAt(script, |sent| - 1);
      if reply.Raised? {
        answer := Err(EndpointFailure(reply.message));
        return;
      }
      var response := reply.response;
      if response.stopReason != ToolUseStop || manager.None? {
        answer := FirstText(response.content);
        return;
      }

      var results;
      results, executed := ExecuteToolBlocks(response.content, manager.value, executed);
      messages := messages + [AssistantBlocks(response.content)];
      messages := messages + [UserToolResults(results)];
      params := params.(messages := messages);
      assert messages == priorMessages + TurnMessages(response.content, manager.value, |priorExecuted|);
    }

    var finalParams := BaseRequest(gen, messages, system);
    sent := sent + [finalParams];
    answer := ReplyOutcome(ReplyAt(script, |sent| - 1));
  }
}
