/** The SOC analyst agent: conversion of the discovered MCP tool catalog into the
    LLM's function-calling format, and the bounded agent loop of `run_soc_agent`.

    The LLM is an oracle: a function of the conversation so far (and of the tool
    catalog) that returns a reply or raises. The MCP `call_tool` request is an
    executor: a function of the conversation so far, the tool name and the
    arguments that returns content blocks or raises. `json.loads` is a partial
    parser. The conversation grows before every query and after every tool call,
    so any sequence of LLM replies and any sequence of tool results (a clock, the
    network, a tool that fails once and then succeeds) can come from such
    functions. */
module Agent {
  import opened Wrappers
  import opened Json

  // ---------------------------------------------------------------------------
  // Tool catalog conversion
  // ---------------------------------------------------------------------------

  /** A tool as MCP discovery describes it. */
  datatype McpTool = McpTool(name: string, description: Option<string>, inputSchema: Json)

  /** The `function` part of an LLM tool declaration. */
  datatype FunctionDecl = FunctionDecl(name: string, description: Option<string>, parameters: Json)

  /** An LLM tool declaration in the OpenAI-compatible format: `{"type", "function"}`. */
  datatype LlmTool = LlmTool(toolType: string, decl: FunctionDecl)

  /** `convert_mcp_tool_to_ollama_format`: a `"function"` declaration that carries
      the MCP tool's name, description and input schema unchanged, so that the
      MCP tool can be read back from it. */
  function ConvertTool(tool: McpTool): (r: LlmTool)
    ensures r.toolType == "function"
    ensures r.decl.name == tool.name
    ensures r.decl.description == tool.description
    ensures r.decl.parameters == tool.inputSchema
    ensures McpToolOf(r) == tool
  {
    LlmTool("function", FunctionDecl(tool.name, tool.description, tool.inputSchema))
  }

  /** The MCP tool an LLM declaration was made from. */
  function McpToolOf(tool: LlmTool): McpTool {
    McpTool(tool.decl.name, tool.decl.description, tool.decl.parameters)
  }

  /** The list comprehension that converts the whole discovered catalog. */
  function ConvertCatalog(tools: seq<McpTool>): (r: seq<LlmTool>)
    ensures |r| == |tools|
    ensures forall i | 0 <= i < |r| ::
      r[i].toolType == "function" && McpToolOf(r[i]) == tools[i]
  {
    seq(|tools|, i requires 0 <= i < |tools| => ConvertTool(tools[i]))
  }

  /** Conversion loses nothing: two catalogs convert to the same declarations only
      if they are the same catalog. */
  lemma ConvertCatalogInjective(a: seq<McpTool>, b: seq<McpTool>)
    requires ConvertCatalog(a) == ConvertCatalog(b)
    ensures a == b
  {
    var ca, cb := ConvertCatalog(a), ConvertCatalog(b);
    assert |a| == |b|;
    forall i | 0 <= i < |a| ensures a[i] == b[i] {
      assert McpToolOf(ca[i]) == a[i] && McpToolOf(cb[i]) == b[i];
    }
  }

  // ---------------------------------------------------------------------------
  // Conversation
  // ---------------------------------------------------------------------------

  /** One tool call requested by the LLM: `tc.function.name` and
      `tc.function.arguments`. The arguments are either a JSON object or a JSON
      string holding the object's text, depending on the LLM server's version. */
  datatype ToolCall = ToolCall(name: string, arguments: Json)

  /** The LLM's reply message: optional text and optional tool calls. */
  datatype LlmReply = LlmReply(content: Option<string>, toolCalls: Option<seq<ToolCall>>)

  /** One entry of the conversation list. The assistant entry records the LLM's
      text and its tool calls with their arguments as the LLM sent them. */
  datatype Message =
    | SystemMessage(content: string)
    | UserMessage(content: string)
    | AssistantMessage(content: string, toolCalls: seq<ToolCall>)
    | ToolMessage(content: string)

  /** The `"role"` key of each conversation entry. */
  function Role(m: Message): string {
    match m
    case SystemMessage(_) => "system"
    case UserMessage(_) => "user"
    case AssistantMessage(_, _) => "assistant"
    case ToolMessage(_) => "tool"
  }

  /** A content block of an MCP tool result. Only text blocks have a `text`
      attribute; `className` names the Python class of any other block. */
  datatype ContentBlock = TextContent(text: string) | OtherContent(className: string)

  /** The LLM chat call: conversation and tool declarations in, reply or exception
      message out. */
  type Oracle = (seq<Message>, seq<LlmTool>) -> Result<LlmReply, string>

  /** The MCP `call_tool` request: the conversation at the time of the call, tool
      name and arguments in, content blocks or exception message out. */
  type ToolExecutor = (seq<Message>, string, Json) -> Result<seq<ContentBlock>, string>

  /** `json.loads`: the parsed document, or `None` when it raises a decode error. */
  type JsonParser = string -> Option<Json>

  /** The conversation the loop starts from: the system prompt, then the user's query. */
  function InitialMessages(systemPrompt: string, userQuery: string): (m: seq<Message>)
    ensures |m| == 2 && Role(m[0]) == "system" && Role(m[1]) == "user"
    ensures m[0].content == systemPrompt && m[1].content == userQuery
  {
    [SystemMessage(systemPrompt), UserMessage(userQuery)]
  }

  /** `llm_message.content or ""`. */
  function ContentOrEmpty(content: Option<string>): (r: string)
    ensures content.Some? ==> r == content.value
    ensures content.None? ==> r == ""
  {
    match content
    case Some(text) => text
    case None => ""
  }

  /** `llm_message.tool_calls or []`. */
  function CallsOrEmpty(calls: Option<seq<ToolCall>>): (r: seq<ToolCall>)
    ensures calls.Some? ==> r == calls.value
    ensures calls.None? ==> r == []
  {
    match calls
    case Some(cs) => cs
    case None => []
  }

  /** The Python truth value of `llm_message.tool_calls`: present and non-empty. */
  predicate RequestsTools(reply: LlmReply)
    ensures RequestsTools(reply) <==> CallsOrEmpty(reply.toolCalls) != []
  {
    reply.toolCalls.Some? && reply.toolCalls.value != []
  }

  /** The assistant entry appended for a reply. */
  function AssistantEntry(reply: LlmReply): (m: Message)
    ensures m.AssistantMessage? && Role(m) == "assistant"
    ensures m.content == ContentOrEmpty(reply.content)
    ensures m.toolCalls == [] <==> !RequestsTools(reply)
    ensures RequestsTools(reply) ==> m.toolCalls == reply.toolCalls.value
  {
    AssistantMessage(ContentOrEmpty(reply.content), CallsOrEmpty(reply.toolCalls))
  }

  // ---------------------------------------------------------------------------
  // One tool call
  // ---------------------------------------------------------------------------

  /** Argument normalisation: a string is parsed as JSON and becomes `{}` when it
      does not parse; any other value is passed on unchanged. */
  function NormaliseArguments(args: Json, parse: JsonParser): (r: Json)
    ensures !args.JString? ==> r == args
    ensures args.JString? && parse(args.s).Some? ==> r == parse(args.s).value
    ensures args.JString? && parse(args.s).None? ==> r == EmptyObject
  {
    match args
    case JString(text) =>
      (match parse(text)
       case Some(parsed) => parsed
       case None => EmptyObject)
    case _ => args
  }

  const NoContentText := "Tool returned no content"
  const ToolErrorPrefix := "Tool execution error: "

  /** The message of the `AttributeError` raised by `.text` on a non-text block. */
  function MissingTextMessage(className: string): string {
    "'" + className + "' object has no attribute 'text'"
  }

  /** The text fed back to the LLM for one tool call: the first content block's
      text, a fixed note for empty content, or the error text of whatever the call
      raised (including reading `.text` from a non-text block). It never raises. */
  function ResultText(result: Result<seq<ContentBlock>, string>): (text: string)
    ensures result.Failure? ==> text == ToolErrorPrefix + result.error
    ensures result.Success? && result.value == [] ==> text == NoContentText
    ensures result.Success? && result.value != [] && result.value[0].TextContent? ==>
      text == result.value[0].text
    ensures result.Success? && result.value != [] && result.value[0].OtherContent? ==>
      text == ToolErrorPrefix + MissingTextMessage(result.value[0].className)
  {
    match result
    case Failure(message) => ToolErrorPrefix + message
    case Success(blocks) =>
      if blocks == [] then NoContentText
      else
        match blocks[0]
        case TextContent(text) => text
        case OtherContent(className) => ToolErrorPrefix + MissingTextMessage(className)
  }

  /** The tool entry appended for one call made when the conversation is
      `history`: normalise the arguments, call the tool, extract the text. */
  function ToolEntry(history: seq<Message>, call: ToolCall, callTool: ToolExecutor, parse: JsonParser): (m: Message)
    ensures m.ToolMessage? && Role(m) == "tool"
    ensures m.content == ResultText(callTool(history, call.name, NormaliseArguments(call.arguments, parse)))
  {
    ToolMessage(ResultText(callTool(history, call.name, NormaliseArguments(call.arguments, parse))))
  }

  /** The tool entries appended, after the conversation `history`, for a batch of
      calls: one `tool` entry per call, each made once the entries of the calls
      before it are in (`ToolMessagesAt`). */
  function ToolMessages(history: seq<Message>, calls: seq<ToolCall>, callTool: ToolExecutor, parse: JsonParser)
    : (ms: seq<Message>)
    ensures |ms| == |calls|
    decreases |calls|
  {
    if calls == [] then []
    else
      var earlier := ToolMessages(history, calls[..|calls| - 1], callTool, parse);
      earlier + [ToolEntry(history + earlier, calls[|calls| - 1], callTool, parse)]
  }

  /** The i-th tool entry of a batch is the result of the i-th call, made when the
      conversation is `history` followed by the entries of the calls before it. */
  lemma {:induction false} ToolMessagesAt(history: seq<Message>, calls: seq<ToolCall>, callTool: ToolExecutor,
                                          parse: JsonParser)
    ensures var ms := ToolMessages(history, calls, callTool, parse);
      forall i | 0 <= i < |calls| ::
        ms[i] == ToolEntry(history + ms[..i], calls[i], callTool, parse) && Role(ms[i]) == "tool"
    decreases |calls|
  {
    if calls != [] {
      var ms := ToolMessages(history, calls, callTool, parse);
      var earlier := ToolMessages(history, calls[..|calls| - 1], callTool, parse);
      ToolMessagesAt(history, calls[..|calls| - 1], callTool, parse);
      forall i | 0 <= i < |calls|
        ensures ms[i] == ToolEntry(history + ms[..i], calls[i], callTool, parse)
      {
        if i < |earlier| {
          assert ms[..i] == earlier[..i];
        } else {
          assert ms[..i] == earlier;
        }
      }
    }
  }

  // ---------------------------------------------------------------------------
  // The agent loop, as a specification
  // ---------------------------------------------------------------------------

  const MaxIterationsText := "Agent reached maximum iterations without completing analysis."

  /** The message of the `TypeError` raised by slicing a missing description. */
  const NoneSliceMessage := "'NoneType' object is not subscriptable"

  /** How a run ends: the LLM's final content (which may be `None`), the iteration
      cap, an exception raised by the LLM call, or the exception raised while
      listing a discovered tool that has no description. */
  datatype Outcome =
    | FinalAnswer(content: Option<string>)
    | MaxIterationsReached
    | OracleRaised(error: string)
    | ListingRaised(error: string)

  /** What `run_soc_agent` returns; a run that raises returns nothing. */
  function ReturnValue(outcome: Outcome): (r: Option<string>)
    requires outcome.FinalAnswer? || outcome.MaxIterationsReached?
    ensures outcome.MaxIterationsReached? ==> r == Some(MaxIterationsText)
    ensures outcome.FinalAnswer? ==> r == outcome.content
  {
    match outcome
    case FinalAnswer(content) => content
    case MaxIterationsReached => Some(MaxIterationsText)
  }

  /** The loop's variables at the top of an iteration, with the number of LLM
      queries and tool calls made so far. */
  datatype LoopState = LoopState(messages: seq<Message>, iteration: int, queries: nat, invocations: nat)

  /** The state after one iteration, and the outcome if the loop returns there. */
  datatype Step = Step(state: LoopState, stop: Option<Outcome>)

  /** One iteration of the loop body: count the iteration, query the LLM, and
      append its reply; return its content if it requests no tools; otherwise
      append one tool entry per call, in order. An exception from the LLM ends
      the loop. The conversation only grows, and the loop goes on exactly when
      the LLM answered with tool calls. */
  function Iterate(s: LoopState, tools: seq<LlmTool>, oracle: Oracle, callTool: ToolExecutor, parse: JsonParser)
    : (r: Step)
    ensures |s.messages| <= |r.state.messages| && r.state.messages[..|s.messages|] == s.messages
    ensures r.state.iteration == s.iteration + 1 && r.state.queries == s.queries + 1
    ensures r.stop.None? <==> oracle(s.messages, tools).Success? && RequestsTools(oracle(s.messages, tools).value)
  {
    var counted := LoopState(s.messages, s.iteration + 1, s.queries + 1, s.invocations);
    match oracle(s.messages, tools)
    case Failure(error) => Step(counted, Some(OracleRaised(error)))
    case Success(reply) =>
      var replied := counted.(messages := s.messages + [AssistantEntry(reply)]);
      if !RequestsTools(reply) then
        Step(replied, Some(FinalAnswer(reply.content)))
      else
        var calls := reply.toolCalls.value;
        Step(replied.(messages := replied.messages + ToolMessages(replied.messages, calls, callTool, parse),
                      invocations := s.invocations + |calls|),
             None)
  }

  /** How a run ends: its outcome, the final conversation, and how many LLM
      queries and tool calls it made. */
  datatype Run = Run(outcome: Outcome, messages: seq<Message>, queries: nat, invocations: nat)

  /** The agent loop from state `s`: iterate while `iteration < maxIterations`,
      until an iteration returns. */
  function Loop(s: LoopState, maxIterations: int, tools: seq<LlmTool>, oracle: Oracle,
                callTool: ToolExecutor, parse: JsonParser): Run
    decreases maxIterations - s.iteration
  {
    if maxIterations <= s.iteration then
      Run(MaxIterationsReached, s.messages, s.queries, s.invocations)
    else
      var step := Iterate(s, tools, oracle, callTool, parse);
      if step.stop.Some? then
        Run(step.stop.value, step.state.messages, step.state.queries, step.state.invocations)
      else
        Loop(step.state, maxIterations, tools, oracle, callTool, parse)
  }

  /** Every discovered tool has a description, so listing the catalog does not raise. */
  predicate Described(mcpTools: seq<McpTool>) {
    forall t <- mcpTools :: t.description.Some?
  }

  /** A whole run of `run_soc_agent` after connecting and discovering `mcpTools`:
      listing the catalog raises on a tool without a description, before the
      conversation exists; otherwise the loop runs from `[system, user]`. */
  function AgentRun(systemPrompt: string, userQuery: string, maxIterations: int, mcpTools: seq<McpTool>,
                    oracle: Oracle, callTool: ToolExecutor, parse: JsonParser): Run
  {
    if !Described(mcpTools) then Run(ListingRaised(NoneSliceMessage), [], 0, 0)
    else
      Loop(LoopState(InitialMessages(systemPrompt, userQuery), 0, 0, 0),
           maxIterations, ConvertCatalog(mcpTools), oracle, callTool, parse)
  }

  // ---------------------------------------------------------------------------
  // What one iteration does
  // ---------------------------------------------------------------------------

  /** Running one more call of a batch appends that call's entry, made after the
      entries of the calls before it. */
  lemma ToolMessagesSnoc(history: seq<Message>, calls: seq<ToolCall>, i: nat, callTool: ToolExecutor, parse: JsonParser)
    requires i < |calls|
    ensures var earlier := ToolMessages(history, calls[..i], callTool, parse);
      ToolMessages(history, calls[..i + 1], callTool, parse)
        == earlier + [ToolEntry(history + earlier, calls[i], callTool, parse)]
  {
    assert calls[..i + 1][..i] == calls[..i];
  }

  /** The entries one iteration appends to the conversation. */
  function Appended(s: LoopState, tools: seq<LlmTool>, oracle: Oracle, callTool: ToolExecutor, parse: JsonParser)
    : seq<Message>
  {
    Iterate(s, tools, oracle, callTool, parse).state.messages[|s.messages|..]
  }

  /** The number of assistant entries in `s`. */
  function Replies(s: seq<Message>): nat {
    if s == [] then 0
    else Replies(s[..|s| - 1]) + (if s[|s| - 1].AssistantMessage? then 1 else 0)
  }

  /** The number of tool entries in `s`. */
  function ToolResults(s: seq<Message>): nat {
    if s == [] then 0
    else ToolResults(s[..|s| - 1]) + (if s[|s| - 1].ToolMessage? then 1 else 0)
  }

  lemma {:induction false} CountsAppend(a: seq<Message>, b: seq<Message>)
    ensures Replies(a + b) == Replies(a) + Replies(b)
    ensures ToolResults(a + b) == ToolResults(a) + ToolResults(b)
    decreases |b|
  {
    if b != [] {
      assert (a + b)[..|a + b| - 1] == a + b[..|b| - 1];
      CountsAppend(a, b[..|b| - 1]);
    } else {
      assert a + b == a;
    }
  }

  /** A batch of tool entries holds one tool entry per call and no assistant entry. */
  lemma {:induction false} CountToolMessages(history: seq<Message>, calls: seq<ToolCall>,
                                             callTool: ToolExecutor, parse: JsonParser)
    ensures ToolResults(ToolMessages(history, calls, callTool, parse)) == |calls|
    ensures Replies(ToolMessages(history, calls, callTool, parse)) == 0
    decreases |calls|
  {
    if calls != [] {
      var ms := ToolMessages(history, calls, callTool, parse);
      assert ms[..|ms| - 1] == ToolMessages(history, calls[..|calls| - 1], callTool, parse);
      CountToolMessages(history, calls[..|calls| - 1], callTool, parse);
    }
  }

  /** Each iteration counts one tool call per tool entry it appends, and appends
      exactly one assistant entry unless the LLM raised, in which case it appends
      nothing and the loop ends with that exception. */
  lemma IterateAppends(s: LoopState, tools: seq<LlmTool>, oracle: Oracle, callTool: ToolExecutor, parse: JsonParser)
    ensures var step := Iterate(s, tools, oracle, callTool, parse);
      var added := Appended(s, tools, oracle, callTool, parse);
      && step.state.messages == s.messages + added
      && step.state.invocations == s.invocations + ToolResults(added)
      && (oracle(s.messages, tools).Failure? ==>
            added == [] && step.stop == Some(OracleRaised(oracle(s.messages, tools).error)))
      && (oracle(s.messages, tools).Success? ==> Replies(added) == 1)
  {
    var step := Iterate(s, tools, oracle, callTool, parse);
    var added := Appended(s, tools, oracle, callTool, parse);
    assert step.state.messages == s.messages + added;
    var response := oracle(s.messages, tools);
    if response.Success? {
      var reply := response.value;
      var calls := CallsOrEmpty(reply.toolCalls);
      var entry := AssistantEntry(reply);
      var tms := ToolMessages(s.messages + [entry], calls, callTool, parse);
      CountToolMessages(s.messages + [entry], calls, callTool, parse);
      CountsAppend([entry], tms);
      assert [entry][..0] == [];
      assert Replies([entry]) == 1 && ToolResults([entry]) == 0;
      if !RequestsTools(reply) {
        assert tms == [];
        assert added == [entry] == [entry] + tms;
      } else {
        assert added == [entry] + tms;
      }
    }
  }

  /** After the conversation `before`, `s` is a sequence of complete rounds: the
      assistant entry of the LLM's reply to the conversation so far, followed by the
      tool entries of exactly the calls it records, in the order recorded, each
      made after the ones before it. An assistant entry without tool calls ends the
      sequence. */
  ghost predicate Rounds(before: seq<Message>, s: seq<Message>, tools: seq<LlmTool>, oracle: Oracle,
                         callTool: ToolExecutor, parse: JsonParser)
    decreases |s|
  {
    s == [] ||
    (oracle(before, tools).Success? && s[0] == AssistantEntry(oracle(before, tools).value) &&
     var n := |s[0].toolCalls|;
     && n < |s|
     && (n == 0 ==> |s| == 1)
     && s[1..1 + n] == ToolMessages(before + [s[0]], s[0].toolCalls, callTool, parse)
     && Rounds(before + s[..1 + n], s[1 + n..], tools, oracle, callTool, parse))
  }

  /** The LLM's reply to `before`, followed by the tool entries of its calls, in
      order, and then by complete rounds, is a sequence of complete rounds,
      provided it requests tools or nothing follows it. */
  lemma RoundsCons(before: seq<Message>, tms: seq<Message>, rest: seq<Message>, tools: seq<LlmTool>, oracle: Oracle,
                   callTool: ToolExecutor, parse: JsonParser)
    requires oracle(before, tools).Success?
    requires var entry := AssistantEntry(oracle(before, tools).value);
      && (entry.toolCalls == [] ==> rest == [])
      && tms == ToolMessages(before + [entry], entry.toolCalls, callTool, parse)
      && Rounds(before + ([entry] + tms), rest, tools, oracle, callTool, parse)
    ensures Rounds(before, [AssistantEntry(oracle(before, tools).value)] + tms + rest, tools, oracle, callTool, parse)
  {
    var entry := AssistantEntry(oracle(before, tools).value);
    var round := [entry] + tms + rest;
    var n := |entry.toolCalls|;
    assert round[0] == entry;
    assert round[1..1 + n] == tms;
    assert round[..1 + n] == [entry] + tms;
    assert round[1 + n..] == rest;
  }

  /** What one iteration appends is a complete round (or nothing); a round that
      ends the loop is the last one. */
  lemma AppendedRound(s: LoopState, tools: seq<LlmTool>, oracle: Oracle, callTool: ToolExecutor, parse: JsonParser,
                      rest: seq<Message>)
    requires rest == [] || Iterate(s, tools, oracle, callTool, parse).stop.None?
    requires Rounds(s.messages + Appended(s, tools, oracle, callTool, parse), rest, tools, oracle, callTool, parse)
    ensures Rounds(s.messages, Appended(s, tools, oracle, callTool, parse) + rest, tools, oracle, callTool, parse)
  {
    var added := Appended(s, tools, oracle, callTool, parse);
    IterateAppends(s, tools, oracle, callTool, parse);
    var response := oracle(s.messages, tools);
    if response.Success? {
      var reply := response.value;
      var entry := AssistantEntry(reply);
      var tms := ToolMessages(s.messages + [entry], CallsOrEmpty(reply.toolCalls), callTool, parse);
      assert added == [entry] + tms;
      RoundsCons(s.messages, tms, rest, tools, oracle, callTool, parse);
    } else {
      assert added + rest == rest;
      assert s.messages + added == s.messages;
    }
  }

  /** Splitting a sequence after a prefix it starts with. */
  lemma SplitAfterPrefix(whole: seq<Message>, prefix: seq<Message>, added: seq<Message>)
    requires |prefix + added| <= |whole| && whole[..|prefix + added|] == prefix + added
    ensures whole[..|prefix|] == prefix
    ensures whole[|prefix|..] == added + whole[|prefix + added|..]
  {
    assert whole == prefix + added + whole[|prefix + added|..];
  }

  // ---------------------------------------------------------------------------
  // What the loop guarantees
  // ---------------------------------------------------------------------------

  /** The loop only appends to the conversation, and what it appends is a
      sequence of complete rounds, ending at the first reply without tool calls. */
  lemma {:induction false} LoopAppendsRounds(s: LoopState, maxIterations: int, tools: seq<LlmTool>, oracle: Oracle,
                                             callTool: ToolExecutor, parse: JsonParser)
    ensures var r := Loop(s, maxIterations, tools, oracle, callTool, parse);
      && |s.messages| <= |r.messages|
      && r.messages[..|s.messages|] == s.messages
      && Rounds(s.messages, r.messages[|s.messages|..], tools, oracle, callTool, parse)
    decreases maxIterations - s.iteration
  {
    var r := Loop(s, maxIterations, tools, oracle, callTool, parse);
    if s.iteration < maxIterations {
      var step := Iterate(s, tools, oracle, callTool, parse);
      var added := Appended(s, tools, oracle, callTool, parse);
      IterateAppends(s, tools, oracle, callTool, parse);
      if step.stop.Some? {
        assert r.messages == s.messages + added;
        assert Rounds(s.messages + added, [], tools, oracle, callTool, parse);
        AppendedRound(s, tools, oracle, callTool, parse, []);
        assert added + [] == added;
        SplitAfterPrefix(r.messages, s.messages, added);
      } else {
        assert r == Loop(step.state, maxIterations, tools, oracle, callTool, parse);
        LoopAppendsRounds(step.state, maxIterations, tools, oracle, callTool, parse);
        var rest := r.messages[|step.state.messages|..];
        AppendedRound(s, tools, oracle, callTool, parse, rest);
        SplitAfterPrefix(r.messages, s.messages, added);
      }
    } else {
      assert r.messages[|s.messages|..] == [];
    }
  }

  /** The loop queries the LLM once per assistant entry it appends, plus once more
      when the LLM raises, and calls a tool once per tool entry it appends. */
  lemma {:induction false} LoopCounts(s: LoopState, maxIterations: int, tools: seq<LlmTool>, oracle: Oracle,
                                      callTool: ToolExecutor, parse: JsonParser)
    ensures var r := Loop(s, maxIterations, tools, oracle, callTool, parse);
      && Replies(r.messages) + (if r.outcome.OracleRaised? then 1 else 0)
         == Replies(s.messages) + r.queries - s.queries
      && ToolResults(r.messages) == ToolResults(s.messages) + r.invocations - s.invocations
    decreases maxIterations - s.iteration
  {
    if s.iteration < maxIterations {
      var step := Iterate(s, tools, oracle, callTool, parse);
      IterateAppends(s, tools, oracle, callTool, parse);
      CountsAppend(s.messages, Appended(s, tools, oracle, callTool, parse));
      if step.stop.None? {
        LoopCounts(step.state, maxIterations, tools, oracle, callTool, parse);
      }
    }
  }

  /** The iteration cap bounds the number of LLM queries; with no iterations left
      the loop returns at once, without querying. */
  lemma {:induction false} LoopQueryBound(s: LoopState, maxIterations: int, tools: seq<LlmTool>, oracle: Oracle,
                                          callTool: ToolExecutor, parse: JsonParser)
    ensures var r := Loop(s, maxIterations, tools, oracle, callTool, parse);
      && s.queries <= r.queries
      && r.queries <= s.queries + (if s.iteration < maxIterations then maxIterations - s.iteration else 0)
    decreases maxIterations - s.iteration
  {
    if s.iteration < maxIterations {
      var step := Iterate(s, tools, oracle, callTool, parse);
      if step.stop.None? {
        LoopQueryBound(step.state, maxIterations, tools, oracle, callTool, parse);
      }
    }
  }

  /** The LLM never gives a final answer: every query succeeds and requests tools. */
  ghost predicate NeverConcludes(oracle: Oracle) {
    forall messages, tools :: oracle(messages, tools).Success? && RequestsTools(oracle(messages, tools).value)
  }

  /** An LLM that never concludes is queried once per remaining iteration, and the
      loop ends at the cap. */
  lemma {:induction false} LoopExhausts(s: LoopState, maxIterations: int, tools: seq<LlmTool>, oracle: Oracle,
                                        callTool: ToolExecutor, parse: JsonParser)
    requires NeverConcludes(oracle)
    ensures var r := Loop(s, maxIterations, tools, oracle, callTool, parse);
      && r.outcome == MaxIterationsReached
      && r.queries == s.queries + (if s.iteration < maxIterations then maxIterations - s.iteration else 0)
    decreases maxIterations - s.iteration
  {
    if s.iteration < maxIterations {
      var step := Iterate(s, tools, oracle, callTool, parse);
      assert oracle(s.messages, tools).Success? && RequestsTools(oracle(s.messages, tools).value);
      LoopExhausts(step.state, maxIterations, tools, oracle, callTool, parse);
    }
  }

  /** The converse: the loop ends at the cap only after a query in every remaining
      iteration. */
  lemma {:induction false} LoopCapUsesAllIterations(s: LoopState, maxIterations: int, tools: seq<LlmTool>,
                                                    oracle: Oracle, callTool: ToolExecutor, parse: JsonParser)
    ensures var r := Loop(s, maxIterations, tools, oracle, callTool, parse);
      r.outcome.MaxIterationsReached? ==>
        r.queries == s.queries + (if s.iteration < maxIterations then maxIterations - s.iteration else 0)
    decreases maxIterations - s.iteration
  {
    if s.iteration < maxIterations {
      var step := Iterate(s, tools, oracle, callTool, parse);
      if step.stop.None? {
        LoopCapUsesAllIterations(step.state, maxIterations, tools, oracle, callTool, parse);
      }
    }
  }

  /** `messages` ends with the assistant entry of a reply that requested no tools
      and whose content is `content`, given to the conversation before that entry. */
  ghost predicate EndsWithAnswer(messages: seq<Message>, tools: seq<LlmTool>, oracle: Oracle, content: Option<string>)
  {
    && 0 < |messages|
    && var before := messages[..|messages| - 1];
    && oracle(before, tools).Success?
    && !RequestsTools(oracle(before, tools).value)
    && oracle(before, tools).value.content == content
    && messages[|messages| - 1] == AssistantMessage(ContentOrEmpty(content), [])
  }

  /** How each outcome arises: a final answer is the content of a reply that
      requested no tools, whose assistant entry ends the conversation; an
      exception comes from querying the final conversation. */
  lemma {:induction false} LoopOutcome(s: LoopState, maxIterations: int, tools: seq<LlmTool>, oracle: Oracle,
                                       callTool: ToolExecutor, parse: JsonParser)
    ensures var r := Loop(s, maxIterations, tools, oracle, callTool, parse);
      && (r.outcome.FinalAnswer? ==>
            |s.messages| < |r.messages| && EndsWithAnswer(r.messages, tools, oracle, r.outcome.content))
      && (r.outcome.OracleRaised? ==> oracle(r.messages, tools) == Failure(r.outcome.error))
      && !r.outcome.ListingRaised?
    decreases maxIterations - s.iteration
  {
    if s.iteration < maxIterations {
      var step := Iterate(s, tools, oracle, callTool, parse);
      if step.stop.None? {
        LoopOutcome(step.state, maxIterations, tools, oracle, callTool, parse);
      } else if oracle(s.messages, tools).Success? {
        var reply := oracle(s.messages, tools).value;
        var m := s.messages + [AssistantEntry(reply)];
        assert step.state.messages == m;
        assert m[..|m| - 1] == s.messages;
      }
    }
  }

  /** The converse: a reply without tool calls ends the loop in the same
      iteration, with that reply's content and no tool call. */
  lemma LoopStopsOnAnswer(s: LoopState, maxIterations: int, tools: seq<LlmTool>, oracle: Oracle,
                          callTool: ToolExecutor, parse: JsonParser)
    requires s.iteration < maxIterations
    requires oracle(s.messages, tools).Success? && !RequestsTools(oracle(s.messages, tools).value)
    ensures var reply := oracle(s.messages, tools).value;
      Loop(s, maxIterations, tools, oracle, callTool, parse)
        == Run(FinalAnswer(reply.content), s.messages + [AssistantEntry(reply)], s.queries + 1, s.invocations)
  {
  }

  /** The conversation at the end of the loop starts with the one it began with. */
  lemma LoopExtends(s: LoopState, maxIterations: int, tools: seq<LlmTool>, oracle: Oracle,
                    callTool: ToolExecutor, parse: JsonParser)
    ensures var r := Loop(s, maxIterations, tools, oracle, callTool, parse);
      |s.messages| <= |r.messages| && r.messages[..|s.messages|] == s.messages
  {
    LoopAppendsRounds(s, maxIterations, tools, oracle, callTool, parse);
  }

  /** An iteration whose reply requests tools appends the assistant entry and the
      entries of its calls, counts the calls, and goes on. */
  lemma IterateToolRound(s: LoopState, tools: seq<LlmTool>, oracle: Oracle, callTool: ToolExecutor, parse: JsonParser)
    requires oracle(s.messages, tools).Success? && RequestsTools(oracle(s.messages, tools).value)
    ensures var reply := oracle(s.messages, tools).value;
      var replied := s.messages + [AssistantEntry(reply)];
      Iterate(s, tools, oracle, callTool, parse)
        == Step(LoopState(replied + ToolMessages(replied, reply.toolCalls.value, callTool, parse),
                          s.iteration + 1, s.queries + 1, s.invocations + |reply.toolCalls.value|), None)
  {
  }

  /** A round that requests tools is followed by its tool entries and, when the
      cap allows another iteration, by another query, whatever the tools returned. */
  lemma LoopContinuesAfterTools(s: LoopState, maxIterations: int, tools: seq<LlmTool>, oracle: Oracle,
                                callTool: ToolExecutor, parse: JsonParser)
    requires s.iteration + 1 < maxIterations
    requires oracle(s.messages, tools).Success? && RequestsTools(oracle(s.messages, tools).value)
    ensures var r := Loop(s, maxIterations, tools, oracle, callTool, parse);
      var reply := oracle(s.messages, tools).value;
      var calls := reply.toolCalls.value;
      && s.queries + 2 <= r.queries
      && |s.messages| + 1 + |calls| <= |r.messages|
      && r.messages[|s.messages|] == AssistantEntry(reply)
      && r.messages[|s.messages| + 1..|s.messages| + 1 + |calls|]
         == ToolMessages(s.messages + [AssistantEntry(reply)], calls, callTool, parse)
  {
    var reply := oracle(s.messages, tools).value;
    var calls := reply.toolCalls.value;
    var replied := s.messages + [AssistantEntry(reply)];
    var tms := ToolMessages(replied, calls, callTool, parse);
    IterateToolRound(s, tools, oracle, callTool, parse);
    var next := LoopState(replied + tms, s.iteration + 1, s.queries + 1, s.invocations + |calls|);
    var r := Loop(next, maxIterations, tools, oracle, callTool, parse);
    var step := Iterate(s, tools, oracle, callTool, parse);
    assert step == Step(next, None);
    assert Loop(s, maxIterations, tools, oracle, callTool, parse) == Loop(step.state, maxIterations, tools, oracle, callTool, parse);
    LoopExtends(next, maxIterations, tools, oracle, callTool, parse);
    ExtensionParts(r.messages, s.messages, AssistantEntry(reply), tms);
    LoopQueriesOnce(next, maxIterations, tools, oracle, callTool, parse);
  }

  /** A sequence that starts with `before + [entry] + after` holds `entry` right
      after `before`, and then `after`. */
  lemma ExtensionParts(whole: seq<Message>, before: seq<Message>, entry: Message, after: seq<Message>)
    requires |before + [entry] + after| <= |whole| && whole[..|before + [entry] + after|] == before + [entry] + after
    ensures |before| + 1 + |after| <= |whole|
    ensures whole[|before|] == entry
    ensures whole[|before| + 1..|before| + 1 + |after|] == after
  {
    var prefix := before + [entry] + after;
    assert whole[|before|] == prefix[|before|];
    assert whole[|before| + 1..|before| + 1 + |after|] == prefix[|before| + 1..];
  }

  /** With an iteration left, the loop queries the LLM at least once more. */
  lemma LoopQueriesOnce(s: LoopState, maxIterations: int, tools: seq<LlmTool>, oracle: Oracle,
                        callTool: ToolExecutor, parse: JsonParser)
    requires s.iteration < maxIterations
    ensures s.queries + 1 <= Loop(s, maxIterations, tools, oracle, callTool, parse).queries
  {
    var step := Iterate(s, tools, oracle, callTool, parse);
    if step.stop.None? {
      LoopQueryBound(step.state, maxIterations, tools, oracle, callTool, parse);
    }
  }

  // ---------------------------------------------------------------------------
  // The same guarantees for a whole run
  // ---------------------------------------------------------------------------

  /** Listing a catalog that holds a tool without a description raises before the
      conversation exists and before any query or tool call; a catalog whose
      tools all have descriptions never raises there. */
  lemma AgentListingRaises(systemPrompt: string, userQuery: string, maxIterations: int, mcpTools: seq<McpTool>,
                           oracle: Oracle, callTool: ToolExecutor, parse: JsonParser)
    ensures var r := AgentRun(systemPrompt, userQuery, maxIterations, mcpTools, oracle, callTool, parse);
      && (r.outcome.ListingRaised? <==> !Described(mcpTools))
      && (!Described(mcpTools) ==> r == Run(ListingRaised(NoneSliceMessage), [], 0, 0))
  {
    if Described(mcpTools) {
      LoopOutcome(LoopState(InitialMessages(systemPrompt, userQuery), 0, 0, 0),
                  maxIterations, ConvertCatalog(mcpTools), oracle, callTool, parse);
    }
  }

  /** At most `maxIterations` LLM queries; none at all, and the cap message, when
      `maxIterations` is zero or negative and the catalog can be listed. */
  lemma AgentQueryBound(systemPrompt: string, userQuery: string, maxIterations: int, mcpTools: seq<McpTool>,
                        oracle: Oracle, callTool: ToolExecutor, parse: JsonParser)
    ensures var r := AgentRun(systemPrompt, userQuery, maxIterations, mcpTools, oracle, callTool, parse);
      && r.queries <= (if maxIterations < 0 then 0 else maxIterations)
      && (Described(mcpTools) && maxIterations <= 0 ==>
            && r.queries == 0
            && r.messages == InitialMessages(systemPrompt, userQuery)
            && ReturnValue(r.outcome) == Some(MaxIterationsText))
  {
    LoopQueryBound(LoopState(InitialMessages(systemPrompt, userQuery), 0, 0, 0),
                   maxIterations, ConvertCatalog(mcpTools), oracle, callTool, parse);
  }

  /** An LLM that always requests tools is queried exactly `maxIterations` times,
      whatever the tools return, and the run ends with the cap message. */
  lemma AgentExhausts(systemPrompt: string, userQuery: string, maxIterations: int, mcpTools: seq<McpTool>,
                      oracle: Oracle, callTool: ToolExecutor, parse: JsonParser)
    requires NeverConcludes(oracle)
    ensures var r := AgentRun(systemPrompt, userQuery, maxIterations, mcpTools, oracle, callTool, parse);
      Described(mcpTools) ==>
        && r.outcome == MaxIterationsReached
        && ReturnValue(r.outcome) == Some(MaxIterationsText)
        && r.queries == (if maxIterations < 0 then 0 else maxIterations)
  {
    LoopExhausts(LoopState(InitialMessages(systemPrompt, userQuery), 0, 0, 0),
                 maxIterations, ConvertCatalog(mcpTools), oracle, callTool, parse);
  }

  /** A run that returns the cap message has queried the LLM in every one of its
      `MAX_ITERATIONS` iterations. */
  lemma AgentCapUsesAllIterations(systemPrompt: string, userQuery: string, maxIterations: int, mcpTools: seq<McpTool>,
                                  oracle: Oracle, callTool: ToolExecutor, parse: JsonParser)
    ensures var r := AgentRun(systemPrompt, userQuery, maxIterations, mcpTools, oracle, callTool, parse);
      r.outcome.MaxIterationsReached? ==> r.queries == (if maxIterations < 0 then 0 else maxIterations)
  {
    LoopCapUsesAllIterations(LoopState(InitialMessages(systemPrompt, userQuery), 0, 0, 0),
                             maxIterations, ConvertCatalog(mcpTools), oracle, callTool, parse);
  }

  /** The conversation starts as `[system, user]` and only grows by complete
      rounds: one assistant entry per successful query, each followed by one `tool`
      entry per call it records, in call order, and the first assistant entry
      without tool calls is the last entry; one tool entry per tool call made. */
  lemma AgentTranscript(systemPrompt: string, userQuery: string, maxIterations: int, mcpTools: seq<McpTool>,
                        oracle: Oracle, callTool: ToolExecutor, parse: JsonParser)
    ensures var r := AgentRun(systemPrompt, userQuery, maxIterations, mcpTools, oracle, callTool, parse);
      Described(mcpTools) ==>
        && |r.messages| >= 2
        && r.messages[..2] == InitialMessages(systemPrompt, userQuery)
        && Rounds(r.messages[..2], r.messages[2..], ConvertCatalog(mcpTools), oracle, callTool, parse)
        && Replies(r.messages) + (if r.outcome.OracleRaised? then 1 else 0) == r.queries
        && ToolResults(r.messages) == r.invocations
  {
    var s := LoopState(InitialMessages(systemPrompt, userQuery), 0, 0, 0);
    var tools := ConvertCatalog(mcpTools);
    LoopAppendsRounds(s, maxIterations, tools, oracle, callTool, parse);
    LoopCounts(s, maxIterations, tools, oracle, callTool, parse);
    var first := [SystemMessage(systemPrompt)];
    assert first[..0] == [];
    assert Replies(first) == 0 && ToolResults(first) == 0;
    assert s.messages[..1] == first;
    assert Replies(s.messages) == 0 && ToolResults(s.messages) == 0;
  }

  /** A final answer is the content of the LLM's last reply, which requested no
      tools: its assistant entry ends the conversation, so no tool runs after it. */
  lemma AgentFinalAnswer(systemPrompt: string, userQuery: string, maxIterations: int, mcpTools: seq<McpTool>,
                         oracle: Oracle, callTool: ToolExecutor, parse: JsonParser)
    ensures var r := AgentRun(systemPrompt, userQuery, maxIterations, mcpTools, oracle, callTool, parse);
      r.outcome.FinalAnswer? ==>
        && 2 < |r.messages|
        && EndsWithAnswer(r.messages, ConvertCatalog(mcpTools), oracle, ReturnValue(r.outcome))
  {
    LoopOutcome(LoopState(InitialMessages(systemPrompt, userQuery), 0, 0, 0),
                maxIterations, ConvertCatalog(mcpTools), oracle, callTool, parse);
  }

  /** A failing or empty tool result never ends the run: when the first reply
      requests tools and the cap allows a second iteration, the tool entries of the
      first round follow its assistant entry and the LLM is queried again. */
  lemma ToolFailuresDoNotStopLoop(systemPrompt: string, userQuery: string, maxIterations: int, mcpTools: seq<McpTool>,
                                  oracle: Oracle, callTool: ToolExecutor, parse: JsonParser)
    requires 2 <= maxIterations
    requires var first := oracle(InitialMessages(systemPrompt, userQuery), ConvertCatalog(mcpTools));
      first.Success? && RequestsTools(first.value)
    ensures var r := AgentRun(systemPrompt, userQuery, maxIterations, mcpTools, oracle, callTool, parse);
      var reply := oracle(InitialMessages(systemPrompt, userQuery), ConvertCatalog(mcpTools)).value;
      var calls := reply.toolCalls.value;
      Described(mcpTools) ==>
        && 2 <= r.queries
        && 3 + |calls| <= |r.messages|
        && r.messages[2] == AssistantEntry(reply)
        && r.messages[3..3 + |calls|]
           == ToolMessages(InitialMessages(systemPrompt, userQuery) + [AssistantEntry(reply)], calls, callTool, parse)
  {
    LoopContinuesAfterTools(LoopState(InitialMessages(systemPrompt, userQuery), 0, 0, 0),
                            maxIterations, ConvertCatalog(mcpTools), oracle, callTool, parse);
  }

  /** A three-turn investigation: the LLM requests one tool, then another, then
      answers. The run makes exactly three queries and two tool calls, and the
      conversation holds the two tool entries in request order before the answer. */
  lemma ThreeTurnInvestigation(systemPrompt: string, userQuery: string, maxIterations: int, mcpTools: seq<McpTool>,
                               oracle: Oracle, callTool: ToolExecutor, parse: JsonParser,
                               first: ToolCall, second: ToolCall, answer: string)
    requires 3 <= maxIterations
    requires var tools := ConvertCatalog(mcpTools);
      var c0 := InitialMessages(systemPrompt, userQuery);
      var a1 := c0 + [AssistantMessage("", [first])];
      var c1 := a1 + [ToolEntry(a1, first, callTool, parse)];
      var a2 := c1 + [AssistantMessage("", [second])];
      var c2 := a2 + [ToolEntry(a2, second, callTool, parse)];
      && oracle(c0, tools) == Success(LlmReply(None, Some([first])))
      && oracle(c1, tools) == Success(LlmReply(None, Some([second])))
      && oracle(c2, tools) == Success(LlmReply(Some(answer), None))
    ensures var r := AgentRun(systemPrompt, userQuery, maxIterations, mcpTools, oracle, callTool, parse);
      var c0 := InitialMessages(systemPrompt, userQuery);
      var a1 := c0 + [AssistantMessage("", [first])];
      var c1 := a1 + [ToolEntry(a1, first, callTool, parse)];
      var a2 := c1 + [AssistantMessage("", [second])];
      var c2 := a2 + [ToolEntry(a2, second, callTool, parse)];
      Described(mcpTools) ==>
        && r.outcome == FinalAnswer(Some(answer))
        && r.queries == 3
        && r.invocations == 2
        && r.messages == c2 + [AssistantMessage(answer, [])]
  {
    var tools := ConvertCatalog(mcpTools);
    var c0 := InitialMessages(systemPrompt, userQuery);
    var a1 := c0 + [AssistantMessage("", [first])];
    var c1 := a1 + [ToolEntry(a1, first, callTool, parse)];
    var a2 := c1 + [AssistantMessage("", [second])];
    var c2 := a2 + [ToolEntry(a2, second, callTool, parse)];
    var s0 := LoopState(c0, 0, 0, 0);
    var s1 := LoopState(c1, 1, 1, 1);
    var s2 := LoopState(c2, 2, 2, 2);
    IterateSingleCall(s0, tools, oracle, callTool, parse, first);
    IterateSingleCall(s1, tools, oracle, callTool, parse, second);
    assert Loop(s2, maxIterations, tools, oracle, callTool, parse)
        == Run(FinalAnswer(Some(answer)), c2 + [AssistantMessage(answer, [])], 3, 2);
    assert Loop(s1, maxIterations, tools, oracle, callTool, parse) == Loop(s2, maxIterations, tools, oracle, callTool, parse);
    assert Loop(s0, maxIterations, tools, oracle, callTool, parse) == Loop(s1, maxIterations, tools, oracle, callTool, parse);
  }

  /** An iteration whose reply, without content, requests the single call `call`
      appends its assistant entry and that call's tool entry, and goes on. */
  lemma IterateSingleCall(s: LoopState, tools: seq<LlmTool>, oracle: Oracle, callTool: ToolExecutor, parse: JsonParser,
                          call: ToolCall)
    requires oracle(s.messages, tools) == Success(LlmReply(None, Some([call])))
    ensures var asked := s.messages + [AssistantMessage("", [call])];
      Iterate(s, tools, oracle, callTool, parse)
        == Step(LoopState(asked + [ToolEntry(asked, call, callTool, parse)],
                          s.iteration + 1, s.queries + 1, s.invocations + 1), None)
  {
    var asked := s.messages + [AssistantMessage("", [call])];
    assert [call][..0] == [] && asked + [] == asked;
    assert ToolMessages(asked, [call], callTool, parse) == [ToolEntry(asked, call, callTool, parse)];
  }

  // ---------------------------------------------------------------------------
  // The agent loop, as the program runs it
  // ---------------------------------------------------------------------------

  /** The inner `for` loop of one round: each requested call in order, its
      arguments normalised, the tool called, and the result text appended as a
      `tool` entry. A failing call becomes an error text; the loop never stops
      early. */
  method RunToolCalls(messages: seq<Message>, calls: seq<ToolCall>, callTool: ToolExecutor, parse: JsonParser)
    returns (extended: seq<Message>)
    ensures extended == messages + ToolMessages(messages, calls, callTool, parse)
  {
    extended := messages;
    var i := 0;
    while i < |calls|
      invariant 0 <= i <= |calls|
      invariant extended == messages + ToolMessages(messages, calls[..i], callTool, parse)
    {
      var call := calls[i];
      var toolArgs := NormaliseArguments(call.arguments, parse);
      var result := callTool(extended, call.name, toolArgs);
      var text := ResultText(result);
      ToolMessagesSnoc(messages, calls, i, callTool, parse);
      extended := extended + [ToolMessage(text)];
      i := i + 1;
    }
    assert calls[..i] == calls;
  }

  /** `run_soc_agent` from the point where the session is initialised and the tool
      catalog discovered: the listing loop raises on a tool without a description;
      then the outer loop queries the LLM at most `maxIterations` times, and the
      inner loop runs the requested tool calls one after another. The ghost
      counters count LLM queries and tool calls. */
  method RunSocAgent(systemPrompt: string, userQuery: string, maxIterations: int, mcpTools: seq<McpTool>,
                     oracle: Oracle, callTool: ToolExecutor, parse: JsonParser)
    returns (outcome: Outcome, messages: seq<Message>, ghost queries: nat, ghost invocations: nat)
    ensures Run(outcome, messages, queries, invocations)
         == AgentRun(systemPrompt, userQuery, maxIterations, mcpTools, oracle, callTool, parse)
  {
    queries, invocations := 0, 0;
    var k := 0;
    while k < |mcpTools|
      invariant 0 <= k <= |mcpTools|
      invariant forall j | 0 <= j < k :: mcpTools[j].description.Some?
    {
      if mcpTools[k].description.None? {
        assert mcpTools[k] in mcpTools;
        outcome, messages := ListingRaised(NoneSliceMessage), [];
        return;
      }
      k := k + 1;
    }
    var tools := ConvertCatalog(mcpTools);
    messages := InitialMessages(systemPrompt, userQuery);
    var iteration := 0;
    ghost var run := AgentRun(systemPrompt, userQuery, maxIterations, mcpTools, oracle, callTool, parse);
    while iteration < maxIterations
      invariant Loop(LoopState(messages, iteration, queries, invocations), maxIterations, tools, oracle, callTool, parse) == run
      decreases maxIterations - iteration
    {
      ghost var step := Iterate(LoopState(messages, iteration, queries, invocations), tools, oracle, callTool, parse);
      iteration := iteration + 1;
      var response := oracle(messages, tools);
      queries := queries + 1;
      if response.Failure? {
        outcome := OracleRaised(response.error);
        assert step == Step(LoopState(messages, iteration, queries, invocations), Some(outcome));
        return;
      }
      var reply := response.value;
      messages := messages + [AssistantEntry(reply)];
      if !RequestsTools(reply) {
        outcome := FinalAnswer(reply.content);
        assert step == Step(LoopState(messages, iteration, queries, invocations), Some(outcome));
        return;
      }
      var calls := reply.toolCalls.value;
      messages := RunToolCalls(messages, calls, callTool, parse);
      invocations := invocations + |calls|;
      assert step == Step(LoopState(messages, iteration, queries, invocations), None);
    }
    outcome := MaxIterationsReached;
  }
}
