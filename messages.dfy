/**
 * The data exchanged with the language-model endpoint: content blocks,
 * conversation messages, requests and responses.
 */
module Messages {
  import opened Wrappers

  /** One keyword-argument value of a tool invocation. */
  datatype ArgValue = Str(s: string) | Int(i: int)

  /** The structured input of a tool invocation: its keyword arguments. */
  type ToolInput = map<string, ArgValue>

  /** A content block of a model response. */
  datatype Block =
    | Text(text: string)
      /** A request to run tool `name` on `input`; `id` is unique within the conversation. */
    | ToolUse(id: string, name: string, input: ToolInput)
      /** Any block whose type is neither "text" nor "tool_use". */
    | OtherBlock(kind: string)

  /** A model response: its stop reason and its ordered content blocks. */
  datatype Response = Response(stopReason: string, content: seq<Block>)

  /** A "tool_result" block, answering the invocation whose id is `toolUseId`. */
  datatype ToolResult = ToolResult(toolUseId: string, content: string)

  datatype Role = User | Assistant

  /** A message of the conversation sent to the model. */
  datatype Message =
    | UserText(text: string)
      /** The assistant's turn, echoing a response's content blocks. */
    | AssistantBlocks(blocks: seq<Block>)
      /** A user turn carrying the results of the preceding turn's tool invocations. */
    | UserToolResults(results: seq<ToolResult>)
  {
    function Role(): Role {
      if AssistantBlocks? then Assistant else User
    }
  }

  /** A tool as declared to the model. */
  datatype ToolDescriptor = ToolDescriptor(name: string, description: string, inputSchema: string)

  /** The tool-choice mode; the orchestrator only ever sends `{"type": "auto"}`. */
  datatype ToolChoice = Auto

  /**
   * The keyword arguments of one endpoint call. `tools` and `toolChoice` are
   * `None` when the key is absent from the call.
   */
  datatype Request = Request(
    model: string,
    temperature: int,
    maxTokens: int,
    messages: seq<Message>,
    system: string,
    tools: Option<seq<ToolDescriptor>>,
    toolChoice: Option<ToolChoice>)
}
