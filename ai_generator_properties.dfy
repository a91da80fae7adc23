/**
 * What one query of the orchestration loop guarantees, proved over every
 * script of endpoint replies and every tool executor.
 */
module AIGeneratorProperties {
  import opened Wrappers
  import opened Messages
  import opened AIGenerator

  /** The tool-use blocks of a response, in emission order (a reference filter). */
  function ToolUses(blocks: seq<Block>): (uses: seq<Block>)
    ensures |uses| <= |blocks|
    ensures forall j :: 0 <= j < |uses| ==> uses[j].ToolUse?
  {
    if blocks == [] then []
    else (if blocks[0].ToolUse? then [blocks[0]] else []) + ToolUses(blocks[1..])
  }

  /**
   * ToolUses keeps exactly the tool-use blocks: every block it keeps is a
   * tool-use block of the response, and every tool-use block is kept.
   */
  lemma {:induction false} ToolUsesKeepsExactlyToolUseBlocks(blocks: seq<Block>)
    ensures forall b :: b in ToolUses(blocks) <==> b in blocks && b.ToolUse?
    decreases |blocks|
  {
    if blocks != [] {
      ToolUsesKeepsExactlyToolUseBlocks(blocks[1..]);
      assert blocks == [blocks[0]] + blocks[1..];
    }
  }

  /** Call k asked for tools and there is a tool manager to run them. */
  predicate ToolRound(script: seq<Reply>, manager: Option<ToolExecutor>, k: nat) {
    && manager.Some?
    && ReplyAt(script, k).Delivered?
    && ReplyAt(script, k).response.stopReason == ToolUseStop
  }

  /** The content blocks of the reply to call k (none when it raised). */
  function ContentAt(script: seq<Reply>, k: nat): seq<Block> {
    match ReplyAt(script, k)
    case Delivered(response) => response.content
    case Raised(_) => []
  }

  /** The executions caused by the replies to the first n calls. */
  function ScriptInvocations(script: seq<Reply>, n: nat): seq<Invocation> {
    if n == 0 then [] else ScriptInvocations(script, n - 1) + Invocations(ContentAt(script, n - 1))
  }

  /**
   * What call k of a query looks like: the base parameters, the query's system
   * text, 1 + 2k messages, and tools with automatic choice exactly on the
   * tool-enabled calls of a query that has tools.
   */
  predicate CallShape(gen: Generator, system: string, tools: Option<seq<ToolDescriptor>>,
                      k: nat, request: Request)
  {
    && request.model == gen.model
    && request.temperature == Temperature
    && request.maxTokens == MaxTokens
    && request.system == system
    && |request.messages| == 1 + 2 * k
    && if k < MaxRounds && HasTools(tools)
       then request.tools == tools && request.toolChoice == Some(Auto)
       else request.tools == None && request.toolChoice == None
  }

  /** Call k was a tool round, and call k + 1 carries its two messages appended. */
  predicate FollowsToolRound(script: seq<Reply>, manager: Option<ToolExecutor>, k: nat,
                             before: Request, after: Request)
  {
    && ToolRound(script, manager, k)
    && after.messages == before.messages +
         TurnMessages(ContentAt(script, k), manager.value, |ScriptInvocations(script, k)|)
  }

  /**
   * The requests of the round loop, from a state reached after `round` tool
   * rounds: the requests sent so far are kept, every later call has its shape,
   * and consecutive calls are linked by a tool round appending its two messages.
   */
  lemma {:induction false} RoundsRequests(gen: Generator, system: string,
                                          tools: Option<seq<ToolDescriptor>>,
                                          manager: Option<ToolExecutor>, script: seq<Reply>,
                                          round: nat, messages: seq<Message>,
                                          executed: seq<Invocation>, sent: seq<Request>)
    requires round <= MaxRounds
    requires |sent| == round && |messages| == 1 + 2 * round
    requires executed == ScriptInvocations(script, round)
    ensures var tr := Rounds(gen, system, tools, manager, script, round, messages, executed, sent);
      && round < |tr.requests| <= MaxRounds + 1
      && tr.requests[..round] == sent
      && tr.requests[round].messages == messages
      && (forall k :: round <= k < |tr.requests| ==> CallShape(gen, system, tools, k, tr.requests[k]))
      && (forall k :: round <= k < |tr.requests| - 1 ==>
            FollowsToolRound(script, manager, k, tr.requests[k], tr.requests[k + 1]))
    decreases MaxRounds - round
  {
    var tr := Rounds(gen, system, tools, manager, script, round, messages, executed, sent);
    if round < MaxRounds && ToolRound(script, manager, round) {
      var content := ReplyAt(script, round).response.content;
      var request := ToolEnabledRequest(gen, messages, system, tools);
      var messages' := messages + TurnMessages(content, manager.value, |executed|);
      var executed' := executed + Invocations(content);
      assert executed' == ScriptInvocations(script, round + 1);
      assert tr == Rounds(gen, system, tools, manager, script, round + 1, messages', executed', sent + [request]);
      RoundsRequests(gen, system, tools, manager, script, round + 1, messages', executed', sent + [request]);
      assert tr.requests[..round + 1][..round] == sent;
      assert tr.requests[round] == request;
      assert CallShape(gen, system, tools, round, request);
      assert FollowsToolRound(script, manager, round, tr.requests[round], tr.requests[round + 1]);
    } else {
      var request := if round == MaxRounds then BaseRequest(gen, messages, system)
                     else ToolEnabledRequest(gen, messages, system, tools);
      assert tr.requests == sent + [request];
      assert CallShape(gen, system, tools, round, request);
    }
  }

  /**
   * How the round loop ends, from a state reached after `round` tool rounds:
   * every call but the last was a tool round, the loop stops at the first call
   * that is not one (or after MaxRounds of them), the executions are those of
   * the tool rounds and the answer is the reply to the last call.
   */
  lemma {:induction false} RoundsOutcome(gen: Generator, system: string,
                                         tools: Option<seq<ToolDescriptor>>,
                                         manager: Option<ToolExecutor>, script: seq<Reply>,
                                         round: nat, messages: seq<Message>,
                                         executed: seq<Invocation>, sent: seq<Request>)
    requires round <= MaxRounds
    requires |sent| == round
    requires forall k :: 0 <= k < round ==> ToolRound(script, manager, k)
    requires executed == ScriptInvocations(script, round)
    ensures var tr := Rounds(gen, system, tools, manager, script, round, messages, executed, sent);
      && round < |tr.requests| <= MaxRounds + 1
      && (forall k :: 0 <= k < |tr.requests| - 1 ==> ToolRound(script, manager, k))
      && (|tr.requests| - 1 < MaxRounds ==> !ToolRound(script, manager, |tr.requests| - 1))
      && tr.executions == ScriptInvocations(script, |tr.requests| - 1)
      && tr.outcome == ReplyOutcome(ReplyAt(script, |tr.requests| - 1))
    decreases MaxRounds - round
  {
    var tr := Rounds(gen, system, tools, manager, script, round, messages, executed, sent);
    if round < MaxRounds && ToolRound(script, manager, round) {
      var content := ReplyAt(script, round).response.content;
      var request := ToolEnabledRequest(gen, messages, system, tools);
      var messages' := messages + TurnMessages(content, manager.value, |executed|);
      var executed' := executed + Invocations(content);
      assert executed' == ScriptInvocations(script, round + 1);
      assert tr == Rounds(gen, system, tools, manager, script, round + 1, messages', executed', sent + [request]);
      RoundsOutcome(gen, system, tools, manager, script, round + 1, messages', executed', sent + [request]);
    } else {
      assert |tr.requests| == round + 1;
      assert tr.executions == executed;
    }
  }

  /** The facts of RoundsRequests and RoundsOutcome for a whole query, from its first call. */
  lemma QueryFacts(gen: Generator, query: string, history: Option<string>,
                   tools: Option<seq<ToolDescriptor>>, manager: Option<ToolExecutor>,
                   script: seq<Reply>)
    ensures var tr := Respond(gen, query, history, tools, manager, script);
      var system := SystemContent(gen.systemPrompt, history);
      && 1 <= |tr.requests| <= MaxRounds + 1
      && tr.requests[0].messages == [UserText(query)]
      && (forall k :: 0 <= k < |tr.requests| ==> CallShape(gen, system, tools, k, tr.requests[k]))
      && (forall k :: 0 <= k < |tr.requests| - 1 ==>
            FollowsToolRound(script, manager, k, tr.requests[k], tr.requests[k + 1]))
      && (|tr.requests| - 1 < MaxRounds ==> !ToolRound(script, manager, |tr.requests| - 1))
      && tr.executions == ScriptInvocations(script, |tr.requests| - 1)
      && tr.outcome == ReplyOutcome(ReplyAt(script, |tr.requests| - 1))
  {
    var system := SystemContent(gen.systemPrompt, history);
    RoundsRequests(gen, system, tools, manager, script, 0, [UserText(query)], [], []);
    RoundsOutcome(gen, system, tools, manager, script, 0, [UserText(query)], [], []);
  }

  /**
   * Every call of a query, the forced one included, carries the same system
   * text, and the base parameters (model, temperature 0, 800 tokens).
   */
  lemma SameSystemTextOnEveryCall(gen: Generator, query: string, history: Option<string>,
                                  tools: Option<seq<ToolDescriptor>>,
                                  manager: Option<ToolExecutor>, script: seq<Reply>)
    ensures var tr := Respond(gen, query, history, tools, manager, script);
      forall k :: 0 <= k < |tr.requests| ==>
        && tr.requests[k].system == SystemContent(gen.systemPrompt, history)
        && tr.requests[k].model == gen.model
        && tr.requests[k].temperature == 0
        && tr.requests[k].maxTokens == 800
  {
    QueryFacts(gen, query, history, tools, manager, script);
  }

  /** The first call carries the tools and automatic choice iff the tool list is non-empty. */
  lemma ToolsOnFirstRequest(gen: Generator, query: string, history: Option<string>,
                            tools: Option<seq<ToolDescriptor>>,
                            manager: Option<ToolExecutor>, script: seq<Reply>)
    ensures var first := Respond(gen, query, history, tools, manager, script).requests[0];
      && (first.tools.Some? <==> tools.Some? && tools.value != [])
      && (first.toolChoice == Some(Auto) <==> tools.Some? && tools.value != [])
      && (first.tools.Some? ==> first.tools == tools)
      && (first.toolChoice.None? <==> first.tools.None?)
  {
    QueryFacts(gen, query, history, tools, manager, script);
  }

  /**
   * When the first reply is a response that does not ask for tools, or there
   * is no tool manager, one call is made, no tool runs, and the answer is the
   * first content block's text.
   */
  lemma SingleCallPath(gen: Generator, query: string, history: Option<string>,
                       tools: Option<seq<ToolDescriptor>>, manager: Option<ToolExecutor>,
                       script: seq<Reply>)
    requires |script| > 0 && script[0].Delivered?
    requires script[0].response.stopReason != "tool_use" || manager.None?
    ensures var tr := Respond(gen, query, history, tools, manager, script);
      && |tr.requests| == 1
      && tr.executions == []
      && tr.outcome == FirstText(script[0].response.content)
  {
    QueryFacts(gen, query, history, tools, manager, script);
  }

  /**
   * A query makes one, two or three calls; three exactly when both
   * tool-enabled calls were tool rounds, and then the third reply is the answer.
   */
  lemma CallCountBound(gen: Generator, query: string, history: Option<string>,
                       tools: Option<seq<ToolDescriptor>>, manager: Option<ToolExecutor>,
                       script: seq<Reply>)
    ensures var tr := Respond(gen, query, history, tools, manager, script);
      && 1 <= |tr.requests| <= 3
      && (|tr.requests| == 3 <==> ToolRound(script, manager, 0) && ToolRound(script, manager, 1))
      && (|tr.requests| == 3 ==> tr.outcome == ReplyOutcome(ReplyAt(script, 2)))
  {
    QueryFacts(gen, query, history, tools, manager, script);
  }

  /**
   * The calls a query makes: one more than the number of leading tool rounds,
   * counting at most MaxRounds of them.
   */
  lemma CallCountDeterminedByToolRounds(gen: Generator, query: string, history: Option<string>,
                                        tools: Option<seq<ToolDescriptor>>,
                                        manager: Option<ToolExecutor>, script: seq<Reply>, n: nat)
    requires n <= MaxRounds
    requires forall k :: 0 <= k < n ==> ToolRound(script, manager, k)
    requires n < MaxRounds ==> !ToolRound(script, manager, n)
    ensures |Respond(gen, query, history, tools, manager, script).requests| == n + 1
  {
    RoundsOutcome(gen, SystemContent(gen.systemPrompt, history), tools, manager, script,
                  0, [UserText(query)], [], []);
  }

  /** ToolUses splits over a trailing block, as the loop meets the blocks. */
  lemma {:induction false} ToolUsesSnoc(blocks: seq<Block>, b: Block)
    ensures ToolUses(blocks + [b]) == ToolUses(blocks) + (if b.ToolUse? then [b] else [])
    decreases |blocks|
  {
    if blocks == [] {
      assert [b][1..] == [];
    } else {
      assert (blocks + [b])[1..] == blocks[1..] + [b];
      ToolUsesSnoc(blocks[1..], b);
    }
  }

  /**
   * One tool result per tool-use block, in emission order: result j answers
   * the j-th tool-use block by its id and carries the text the executor gave
   * it (or the error text), and the j-th execution runs that block's tool.
   * Blocks of any other kind produce nothing.
   */
  lemma {:induction false} ToolResultsCorrelate(blocks: seq<Block>, execute: ToolExecutor, base: nat)
    ensures var results := ToolResults(blocks, execute, base);
      var uses := ToolUses(blocks);
      && |results| == |uses|
      && |Invocations(blocks)| == |uses|
      && forall j :: 0 <= j < |uses| ==>
           && results[j].toolUseId == uses[j].id
           && results[j].content == ResultContent(execute(base + j, uses[j].name, uses[j].input))
           && Invocations(blocks)[j] == Invocation(uses[j].name, uses[j].input)
    decreases |blocks|
  {
    if blocks != [] {
      var init, last := blocks[..|blocks| - 1], blocks[|blocks| - 1];
      assert blocks == init + [last];
      ToolResultsCorrelate(init, execute, base);
      ToolUsesSnoc(init, last);
      var earlier, uses := ToolResults(init, execute, base), ToolUses(blocks);
      if last.ToolUse? {
        assert uses == ToolUses(init) + [last];
        assert ToolResults(blocks, execute, base) ==
          earlier + [ToolResult(last.id, ResultContent(execute(base + |earlier|, last.name, last.input)))];
        assert Invocations(blocks) == Invocations(init) + [Invocation(last.name, last.input)];
      } else {
        assert uses == ToolUses(init);
        assert ToolResults(blocks, execute, base) == earlier;
        assert Invocations(blocks) == Invocations(init);
      }
    }
  }

  /**
   * A raised tool exception is contained: its result text is the error prefix
   * followed by the exception's message, and a successful execution's text is
   * passed on unchanged.
   */
  lemma ToolErrorText(blocks: seq<Block>, execute: ToolExecutor, base: nat, j: nat)
    requires j < |ToolUses(blocks)|
    ensures var use := ToolUses(blocks)[j];
      var outcome := execute(base + j, use.name, use.input);
      && j < |ToolResults(blocks, execute, base)|
      && (outcome.Err? ==> ToolResults(blocks, execute, base)[j].content == "Tool execution error: " + outcome.error)
      && (outcome.Ok? ==> ToolResults(blocks, execute, base)[j].content == outcome.value)
  {
    ToolResultsCorrelate(blocks, execute, base);
  }

  /**
   * Whether tools succeed or raise changes only the tool-result texts: with any
   * two executors the same calls are made, the same tools run with the same
   * inputs, and the same answer comes back.
   */
  lemma ToolFailureContained(gen: Generator, query: string, history: Option<string>,
                             tools: Option<seq<ToolDescriptor>>, execute1: ToolExecutor,
                             execute2: ToolExecutor, script: seq<Reply>)
    ensures var tr1 := Respond(gen, query, history, tools, Some(execute1), script);
      var tr2 := Respond(gen, query, history, tools, Some(execute2), script);
      && |tr1.requests| == |tr2.requests|
      && tr1.executions == tr2.executions
      && tr1.outcome == tr2.outcome
  {
    var tr1 := Respond(gen, query, history, tools, Some(execute1), script);
    var tr2 := Respond(gen, query, history, tools, Some(execute2), script);
    var system := SystemContent(gen.systemPrompt, history);
    RoundsOutcome(gen, system, tools, Some(execute1), script, 0, [UserText(query)], [], []);
    var n := |tr1.requests| - 1;
    assert forall k :: 0 <= k < n ==> ToolRound(script, Some(execute1), k);
    assert forall k: nat :: ToolRound(script, Some(execute1), k) == ToolRound(script, Some(execute2), k);
    CallCountDeterminedByToolRounds(gen, query, history, tools, Some(execute2), script, n);
  }

  /** Call k of a query carries 1 + 2k messages. */
  lemma CallMessagesLength(gen: Generator, query: string, history: Option<string>,
                           tools: Option<seq<ToolDescriptor>>,
                           manager: Option<ToolExecutor>, script: seq<Reply>, k: nat)
    requires k < |Respond(gen, query, history, tools, manager, script).requests|
    ensures |Respond(gen, query, history, tools, manager, script).requests[k].messages| == 1 + 2 * k
  {
    var system := SystemContent(gen.systemPrompt, history);
    RoundsRequests(gen, system, tools, manager, script, 0, [UserText(query)], [], []);
    assert CallShape(gen, system, tools, k,
                     Respond(gen, query, history, tools, manager, script).requests[k]);
  }

  /** Call j + 1 of a query follows a tool round of call j, which carries 1 + 2j messages. */
  lemma CallFollowsToolRound(gen: Generator, query: string, history: Option<string>,
                             tools: Option<seq<ToolDescriptor>>,
                             manager: Option<ToolExecutor>, script: seq<Reply>, j: nat)
    requires j + 1 < |Respond(gen, query, history, tools, manager, script).requests|
    ensures var tr := Respond(gen, query, history, tools, manager, script);
      && FollowsToolRound(script, manager, j, tr.requests[j], tr.requests[j + 1])
      && |tr.requests[j].messages| == 1 + 2 * j
  {
    RoundsRequests(gen, SystemContent(gen.systemPrompt, history), tools, manager, script,
                   0, [UserText(query)], [], []);
    CallMessagesLength(gen, query, history, tools, manager, script, j);
  }

  /** Call j's messages are a prefix of call k's when j comes first. */
  lemma EarlierMessagesArePrefix(gen: Generator, query: string, history: Option<string>,
                                 tools: Option<seq<ToolDescriptor>>,
                                 manager: Option<ToolExecutor>, script: seq<Reply>, j: nat, k: nat)
    requires j <= k < |Respond(gen, query, history, tools, manager, script).requests|
    ensures var tr := Respond(gen, query, history, tools, manager, script);
      tr.requests[j].messages <= tr.requests[k].messages
  {
    var tr := Respond(gen, query, history, tools, manager, script);
    RoundsRequests(gen, SystemContent(gen.systemPrompt, history), tools, manager, script,
                   0, [UserText(query)], [], []);
    if j < k {
      assert FollowsToolRound(script, manager, j, tr.requests[j], tr.requests[j + 1]);
      if j + 1 < k {
        assert FollowsToolRound(script, manager, j + 1, tr.requests[j + 1], tr.requests[j + 2]);
      }
    }
  }

  /**
   * After 2j + 1 messages, a tool round's two messages sit at positions 2j + 1
   * (the assistant's) and 2j + 2 (the user's).
   */
  lemma TurnRoles(before: seq<Message>, content: seq<Block>, execute: ToolExecutor,
                  base: nat, i: nat)
    requires |before| % 2 == 1
    requires |before| <= i <= |before| + 1
    ensures (before + TurnMessages(content, execute, base))[i].Role() ==
            if i % 2 == 0 then User else Assistant
  {
    if i == |before| {
      assert (before + TurnMessages(content, execute, base))[i] == AssistantBlocks(content);
    } else {
      assert (before + TurnMessages(content, execute, base))[i]
          == UserToolResults(ToolResults(content, execute, base));
    }
  }

  /** Message i of call k is from the user at even positions, the assistant at odd ones. */
  lemma MessageRoleAlternates(gen: Generator, query: string, history: Option<string>,
                              tools: Option<seq<ToolDescriptor>>,
                              manager: Option<ToolExecutor>, script: seq<Reply>, k: nat, i: nat)
    requires k < |Respond(gen, query, history, tools, manager, script).requests|
    requires i < |Respond(gen, query, history, tools, manager, script).requests[k].messages|
    ensures var tr := Respond(gen, query, history, tools, manager, script);
      tr.requests[k].messages[i].Role() == if i % 2 == 0 then User else Assistant
  {
    var tr := Respond(gen, query, history, tools, manager, script);
    if i == 0 {
      RoundsRequests(gen, SystemContent(gen.systemPrompt, history), tools, manager, script,
                     0, [UserText(query)], [], []);
      EarlierMessagesArePrefix(gen, query, history, tools, manager, script, 0, k);
      assert tr.requests[k].messages[0] == UserText(query);
    } else {
      var j := (i - 1) / 2;
      CallMessagesLength(gen, query, history, tools, manager, script, k);
      assert j + 1 <= k;
      CallFollowsToolRound(gen, query, history, tools, manager, script, j);
      var next := tr.requests[j].messages +
        TurnMessages(ContentAt(script, j), manager.value, |ScriptInvocations(script, j)|);
      assert tr.requests[j + 1].messages == next;
      TurnRoles(tr.requests[j].messages, ContentAt(script, j), manager.value,
                |ScriptInvocations(script, j)|, i);
      EarlierMessagesArePrefix(gen, query, history, tools, manager, script, j + 1, k);
      assert tr.requests[k].messages[i] == next[i];
    }
  }

  /**
   * Each tool round appends two messages and changes none: the request of call
   * k has 1 + 2k messages, every earlier request's messages are a prefix of a
   * later one's, the first is the query alone, roles alternate starting and
   * ending with the user, and the forced call carries five messages.
   */
  lemma MessageAccumulation(gen: Generator, query: string, history: Option<string>,
                            tools: Option<seq<ToolDescriptor>>, manager: Option<ToolExecutor>,
                            script: seq<Reply>)
    ensures var tr := Respond(gen, query, history, tools, manager, script);
      && tr.requests[0].messages == [UserText(query)]
      && (forall k :: 0 <= k < |tr.requests| ==> |tr.requests[k].messages| == 1 + 2 * k)
      && (forall j, k :: 0 <= j <= k < |tr.requests| ==>
            tr.requests[j].messages <= tr.requests[k].messages)
      && (forall k, i :: 0 <= k < |tr.requests| && 0 <= i < |tr.requests[k].messages| ==>
            tr.requests[k].messages[i].Role() == if i % 2 == 0 then User else Assistant)
      && (|tr.requests| == 3 ==> |tr.requests[2].messages| == 5)
  {
    var tr := Respond(gen, query, history, tools, manager, script);
    QueryFacts(gen, query, history, tools, manager, script);
    forall j, k | 0 <= j <= k < |tr.requests|
      ensures tr.requests[j].messages <= tr.requests[k].messages
    {
      EarlierMessagesArePrefix(gen, query, history, tools, manager, script, j, k);
    }
    forall k, i | 0 <= k < |tr.requests| && 0 <= i < |tr.requests[k].messages|
      ensures tr.requests[k].messages[i].Role() == if i % 2 == 0 then User else Assistant
    {
      MessageRoleAlternates(gen, query, history, tools, manager, script, k, i);
    }
  }

  /**
   * The tool round of call k is echoed to call k + 1: its response's content as
   * an assistant message, then a user message with one result per tool-use
   * block, answering each by its id, in order.
   */
  lemma ToolRoundMessages(gen: Generator, query: string, history: Option<string>,
                          tools: Option<seq<ToolDescriptor>>, manager: Option<ToolExecutor>,
                          script: seq<Reply>, k: nat)
    requires k + 1 < |Respond(gen, query, history, tools, manager, script).requests|
    ensures var tr := Respond(gen, query, history, tools, manager, script);
      var content := ContentAt(script, k);
      var uses := ToolUses(content);
      var next := tr.requests[k + 1].messages;
      && manager.Some?
      && ReplyAt(script, k).Delivered? && ReplyAt(script, k).response.stopReason == "tool_use"
      && |next| == 2 * k + 3
      && next[..2 * k + 1] == tr.requests[k].messages
      && next[2 * k + 1] == AssistantBlocks(content)
      && next[2 * k + 2].UserToolResults?
      && |next[2 * k + 2].results| == |uses|
      && forall j :: 0 <= j < |uses| ==> next[2 * k + 2].results[j].toolUseId == uses[j].id
  {
    var tr := Respond(gen, query, history, tools, manager, script);
    QueryFacts(gen, query, history, tools, manager, script);
    assert FollowsToolRound(script, manager, k, tr.requests[k], tr.requests[k + 1]);
    ToolResultsCorrelate(ContentAt(script, k), manager.value, |ScriptInvocations(script, k)|);
  }

  /**
   * The tools run in a query are the tool-use blocks of the tool rounds'
   * responses, in order, with their inputs; tools run in the last tool-enabled
   * round as well, before the forced call.
   */
  lemma ExecutionsAreToolRoundBlocks(gen: Generator, query: string, history: Option<string>,
                                     tools: Option<seq<ToolDescriptor>>,
                                     manager: Option<ToolExecutor>, script: seq<Reply>)
    ensures var tr := Respond(gen, query, history, tools, manager, script);
      && tr.executions == ScriptInvocations(script, |tr.requests| - 1)
      && (|tr.requests| == 3 ==>
            tr.executions == Invocations(ContentAt(script, 0)) + Invocations(ContentAt(script, 1)))
      && (manager.None? ==> tr.executions == [])
  {
    QueryFacts(gen, query, history, tools, manager, script);
  }

  /**
   * Tools and tool choice are dropped only on the forced call: call k carries
   * them iff k is a tool-enabled call (k < MaxRounds) of a query with tools.
   */
  lemma ToolsDroppedOnlyOnForcedCall(gen: Generator, query: string, history: Option<string>,
                                     tools: Option<seq<ToolDescriptor>>,
                                     manager: Option<ToolExecutor>, script: seq<Reply>)
    ensures var tr := Respond(gen, query, history, tools, manager, script);
      forall k :: 0 <= k < |tr.requests| ==>
        && (tr.requests[k].tools.Some? <==> k < 2 && HasTools(tools))
        && (tr.requests[k].toolChoice.Some? <==> k < 2 && HasTools(tools))
  {
    QueryFacts(gen, query, history, tools, manager, script);
  }
}
