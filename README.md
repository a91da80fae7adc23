# Bounded model/tool orchestration loop of the course-material assistant

This project models `AIGenerator.generate_response`, the loop that answers one
user question by talking to a language model which may ask for tools
(course-content search, course outline). The loop:

1. composes the system text (the fixed instructions, followed by
   `"\n\nPrevious conversation:\n"` and the history when the history is a
   non-empty string) and a conversation holding one user message, the question;
2. makes up to `MAX_ROUNDS = 2` tool-enabled calls, each carrying the tool list
   and `tool_choice = auto` when the tool list is non-empty;
3. after each call returns the text of the first content block when the stop
   reason is not `tool_use` or there is no tool manager; otherwise runs every
   `tool_use` block in emission order (a raised exception becomes the text
   `"Tool execution error: " + message`), appends the assistant's content and
   a user message of tool results (each carrying its invocation's id), and
   loops;
4. after two tool rounds makes one forced call without tools or tool choice and
   returns its first text.

Files:

- `wrappers.dfy` — `Option` and `Result`.
- `messages.dfy` — content blocks, messages (with their role), tool
  descriptors, requests and responses.
- `ai_generator.dfy` — module `AIGenerator`: the constants (`MaxRounds`,
  temperature 0, 800 tokens), the system-text composition, the request
  builders, the specification of one query (`Rounds`, `Respond`, returning a
  `Trace` of the requests sent, the tools executed and the outcome) and the
  loop itself as methods (`GenerateResponse` with its round loop,
  `ExecuteToolBlocks` with the per-block loop), proved to produce exactly the
  trace `Respond` specifies.
- `ai_generator_properties.dfy` — module `AIGeneratorProperties`: the loop
  invariant carried to the end of a query (`RoundsRequests` for the requests,
  `RoundsOutcome` for how the loop ends) and the properties of a query derived
  from it.

How the outside world is represented:

- The Anthropic client is a scripted oracle: call number k (0-based) of a query
  receives `script[k]`, either a delivered response or the message of what the
  call raised; a call beyond the script raises. An endpoint failure propagates
  as `Err(EndpointFailure(message))`.
- The tool manager is `Option<ToolExecutor>`; `execute_tool` is a function of
  the number of executions already made in the query, the tool name and its
  input, returning `Ok(text)` or `Err(message)` for an exception whose text is
  `message`.
- `response.content[0].text` fails with `NoContentBlocks` when the content is
  empty (an index error) and with `FirstBlockNotText` when the first block is
  not a text block (it has no `text` attribute); both propagate, as in the code.
- The generator (`Generator(model, systemPrompt)`) is a value: its fields are set
  once at construction and never updated. The instruction prose of
  `SYSTEM_PROMPT` is kept abstract as the `systemPrompt` field; every property
  holds for any prompt.
- Python truthiness is modelled explicitly: a history of `None` or `""` means no
  history; a tool list of `None` or `[]` means no tools; a tool manager of
  `None` means none.

Three behaviours of the code that the model keeps:

- Tools run in every tool round, the last tool-enabled one included, and their
  results are appended before the forced call, so the forced call carries five
  messages (backend/ai_generator.py:83-107).
- History is appended to the system text only when it is a non-empty string
  (backend/ai_generator.py:63-67).
- With no tool manager, the first text is returned even when the stop reason is
  `tool_use` (backend/ai_generator.py:87-88).

## Model

| member | source | states |
|---|---|---|
| `AIGenerator.SystemContent` | backend/ai_generator.py:63-67 | the system text equals the instructions exactly iff there is no (non-empty) history; otherwise it starts with the instructions, then the header, and the history is recoverable verbatim as its suffix |
| `AIGenerator.FirstText` | backend/ai_generator.py:88 | at the early return and at the forced call (line 116) the answer is text exactly when the content is non-empty and its first block is a text block, and then it is that block's text; an empty content fails with `NoContentBlocks` (the index error), a first block without text with `FirstBlockNotText` (the missing attribute) |
| `AIGenerator.ResultContent` | backend/ai_generator.py:94-97 | a successful execution's text is the result content unchanged; a raised exception's content starts with `"Tool execution error: "` and the exception's message is recoverable verbatim after it |
| `AIGenerator.ExecuteToolBlocks` | backend/ai_generator.py:90-102 | the per-block loop builds exactly the specified tool results (one per tool-use block, error text for a raised exception) and extends the executions by this response's invocations in block order |
| `AIGenerator.GenerateResponse` | backend/ai_generator.py:45-116 | the round loop returns exactly the answer, the sequence of requests sent and the sequence of tool executions that the query specification `Respond` gives |
| `AIGeneratorProperties.RoundsRequests` | backend/ai_generator.py:83-116 | from any state after `round` tool rounds: the requests already sent are kept, every later call has its shape (base parameters, same system text, 1 + 2k messages, tools exactly on tool-enabled calls), and consecutive calls are linked by a tool round appending its two messages |
| `AIGeneratorProperties.RoundsOutcome` | backend/ai_generator.py:83-116 | from any state after `round` tool rounds: every call but the last was a tool round, the loop stops at the first call that is not a tool round or after two, the executions are those of the tool rounds and the answer is the last call's reply |
| `AIGeneratorProperties.QueryFacts` | backend/ai_generator.py:62-116 | the same facts for a whole query from its composed first request, whose messages are the question alone |
| `AIGeneratorProperties.SameSystemTextOnEveryCall` | backend/ai_generator.py:72-76 | every call, the forced one (lines 110-114) included, carries the same system text and the base parameters: the model id, temperature 0, 800 max tokens |
| `AIGeneratorProperties.ToolsOnFirstRequest` | backend/ai_generator.py:78-81 | the first call carries the tool list, and `tool_choice = auto`, iff the tool list is non-empty; the two are present together |
| `AIGeneratorProperties.SingleCallPath` | backend/ai_generator.py:86-88 | if the first response's stop reason is not `tool_use`, or there is no tool manager, exactly one call is made, no tool runs, and the answer is the first content block's text |
| `AIGeneratorProperties.CallCountBound` | backend/ai_generator.py:83-116 | a query makes 1, 2 or 3 calls; 3 iff both tool-enabled calls were tool rounds, and then the third response's first text is the answer |
| `AIGeneratorProperties.CallCountDeterminedByToolRounds` | backend/ai_generator.py:83-88 | the number of calls is one more than the number of leading tool rounds, counting at most two |
| `AIGeneratorProperties.ToolUses` | backend/ai_generator.py:92-93 | the filter of the blocks the loop executes: every kept block is a tool-use block, and there are no more of them than blocks |
| `AIGeneratorProperties.ToolUsesKeepsExactlyToolUseBlocks` | backend/ai_generator.py:92-93 | both directions: a block is kept iff it is a tool-use block of the response, so no tool-use block is skipped and nothing else is executed |
| `AIGeneratorProperties.ToolResultsCorrelate` | backend/ai_generator.py:91-102 | one result per tool-use block, in emission order: result j carries the id of the j-th tool-use block and the text the tool manager gave for it (or the error text), execution j runs that block's tool with its input; other blocks produce nothing |
| `AIGeneratorProperties.ToolErrorText` | backend/ai_generator.py:94-97 | a raised tool exception's result is `"Tool execution error: "` followed by its message; a successful execution's text is passed on unchanged |
| `AIGeneratorProperties.ToolFailureContained` | backend/ai_generator.py:94-97 | whether tools succeed or raise changes only the result texts: with any two tool managers the number of calls, the tools run and the answer are the same |
| `AIGeneratorProperties.MessageAccumulation` | backend/ai_generator.py:104-107 | the first call's messages are the question alone, call k carries 1 + 2k messages, earlier calls' messages are prefixes of later ones', roles alternate user/assistant starting and ending with the user, and the forced call carries 5 |
| `AIGeneratorProperties.EarlierMessagesArePrefix` | backend/ai_generator.py:104-107 | the messages grow only by appending: an earlier call's messages are a prefix of every later call's |
| `AIGeneratorProperties.MessageRoleAlternates` | backend/ai_generator.py:69-107 | message i of any call is from the user when i is even and from the assistant when i is odd |
| `AIGeneratorProperties.ToolRoundMessages` | backend/ai_generator.py:98-107 | call k + 1 happens only after a `tool_use` response with a tool manager present; its messages are call k's followed by exactly two more, the response content as an assistant message and a user message with one result per tool-use block answering it by id, in order |
| `AIGeneratorProperties.ExecutionsAreToolRoundBlocks` | backend/ai_generator.py:83-107 | the tools run are the tool-use blocks of the tool rounds, in order, the last tool-enabled round included (two tool rounds run both responses' tools); with no tool manager nothing runs |
| `AIGeneratorProperties.ToolsDroppedOnlyOnForcedCall` | backend/ai_generator.py:109-115 | call k carries tools and tool choice iff it is a tool-enabled call (k < 2) of a query with a non-empty tool list: the second call keeps them, the forced call has neither |

## Left out

- The Anthropic client (`anthropic.Anthropic`, `client.messages.create`) and its API key: a network call, replaced by the scripted oracle; a real endpoint may answer differently depending on the request, which the script does not express.
- The prose of `SYSTEM_PROMPT`: kept abstract as the generator's `systemPrompt`.
- Aliasing of the `messages` list: the code passes one list object to every call and grows it in place, so a recorder that keeps references (a test mock's call arguments) later sees the grown list; the model records each request as the value sent at call time.
- Tool inputs are maps from argument names to strings or integers; inputs holding other JSON values (objects, lists, floats, booleans, null) cannot be represented. The loop never inspects an input and passes it through unchanged, so this does not change the loop's behaviour; only a non-mapping input, which raises inside the `try`, is covered, by the executor returning `Err`.
- Exceptions that are not `Exception` subclasses (`KeyboardInterrupt`, `SystemExit`) escape the `try` around tool execution in the code; the model has every tool failure caught.
- A tool manager object that is falsy without being `None` (one defining `__bool__` or `__len__`): the model only distinguishes present from absent.
- A non-string value returned by `execute_tool`: tool results are text in the model.
- Session history formatting, source collection and reset, the search tools, the vector store and the HTTP layer: their code is not part of this model.
