# SOC analyst agent and SOC tool server, modelled in Dafny

The repository is a small lab. An LLM agent plays a junior SOC analyst. It discovers
the tools of an MCP server, hands them to a local LLM, and runs a bounded agent
loop. In each round the LLM either requests tool calls, which the agent runs
through MCP and feeds back into the conversation, or gives its final assessment.
The server offers read-only tools over a simulated alert log and a
threat-intelligence table.

This project models two parts of that repository:

- `agent.dfy`, module `Agent`: `convert_mcp_tool_to_ollama_format` and the agent loop of
  `run_soc_agent`, from the point where the MCP session is initialised and the
  catalog discovered. The method `RunSocAgent` first walks the catalog as the listing
  loop does, which raises on a tool without a description. Then comes a `while` loop
  over the iteration counter, with the conversation as a `seq<Message>` variable, and an
  inner loop (the method `RunToolCalls`) over the requested tool calls. Ghost counters
  count LLM queries and tool calls. The method is proved equal to the specification
  function `AgentRun`. Its loop part is the tail-recursive function `Loop`, which
  repeats one iteration of the loop body, the function `Iterate`. The loop's
  guarantees are lemmas about `Loop`.
- `soc_tools.dfy`, module `SocTools`: the three data-only tools `get_recent_alerts`,
  `check_ip_reputation` and `get_alert_details`. Each takes its table as a parameter,
  so the cap of 10 and the lookup laws hold for any data. The server's own tables are
  the constants `SimulatedAlerts` and `KnownMaliciousIps`. The tools are functions,
  so none of them can modify a table.
- `wrappers.dfy` (`Option`, `Result`) and `json.dfy` (JSON values) are helper modules.

The things the code does not control are parameters:

- The LLM is an `Oracle`: a function of the conversation and the tool declarations
  that returns a reply or raises. The conversation grows at every query, so any
  sequence of replies can come from such an oracle.
- The MCP `call_tool` request is a `ToolExecutor`: a function of the conversation at
  the time of the call, the tool name and the arguments. It returns content blocks or
  raises. A tool entry is appended after every call, so each call sees a different
  conversation. Repeated identical calls can therefore return different results, as
  the clock, the network or a flaky tool make them do.
- `json.loads` is a `JsonParser` that may fail.
- The system prompt, the user query and `MAX_ITERATIONS` are parameters.

Facts about the source that the model keeps:

- `llm_message.tool_calls` counts as absent when it is `None` and when it is empty.
- The final answer is `llm_message.content`, which may itself be `None`.
- A string argument that is not valid JSON becomes `{}`. Any other argument is passed on unchanged.
- A parsed argument string may be any JSON value, not only an object.
- Listing the catalog slices each tool's description (`tool.description[:60]`). A tool
  without a description makes that slice raise `TypeError`, which the handler re-raises.
  The run then ends before the conversation exists, with no LLM query and no tool call
  (outcome `ListingRaised`, empty conversation).
- Reading `.text` from a first content block that is not a text block raises
  `AttributeError` inside the `try`. That becomes a `Tool execution error: ...` text.
- `get_recent_alerts` applies the cap with `min`, so a negative `limit` passes through
  unchanged. Python's slice `alerts[:limit]` then drops `-limit` alerts from the end.
  On a table with more than 11 alerts this returns more than the documented maximum
  of 10 (`NegativeLimitBypassesCap`).

## Model

| member | source | states |
|---|---|---|
| `Agent.ConvertTool` | agent/agent.py:70-92 | the declaration has type `"function"` and copies the tool's name, description and input schema unchanged; the MCP tool can be read back from it |
| `Agent.ConvertCatalog` | agent/agent.py:162 | one declaration per discovered tool, in catalog order, each a `"function"` declaration of that tool |
| `Agent.ConvertCatalogInjective` | agent/agent.py:162 | two different catalogs never convert to the same declarations |
| `Agent.Role` | agent/agent.py:195-196 | the `"role"` key of each entry: `system`, `user`, `assistant` or `tool` |
| `Agent.InitialMessages` | agent/agent.py:194-197 | the conversation starts with the system prompt as `system` entry, then the query as `user` entry |
| `Agent.ContentOrEmpty` | agent/agent.py:246 | `content or ""`: the content when present, the empty string otherwise |
| `Agent.CallsOrEmpty` | agent/agent.py:255 | `tool_calls or []`: the calls when present, the empty list otherwise |
| `Agent.RequestsTools` | agent/agent.py:263 | the truth value of `tool_calls`: true exactly when the calls, with `None` read as `[]`, are non-empty |
| `Agent.AssistantEntry` | agent/agent.py:244-257 | the assistant entry records `content or ""` and the reply's tool calls with their raw arguments, and an empty list exactly when the reply requests no tools |
| `Agent.NormaliseArguments` | agent/agent.py:277-283 | string arguments are parsed as JSON and become `{}` on a decode failure; non-string arguments pass unchanged |
| `Agent.ResultText` | agent/agent.py:292-306 | the first block's text; `Tool returned no content` for empty content; `Tool execution error: ` plus the message when the call raises or the first block has no text |
| `Agent.ToolMessages` | agent/agent.py:273-315 | one `tool` entry per requested call |
| `Agent.ToolEntry` | agent/agent.py:274-315 | a `tool` entry whose content is the result text of calling the tool with the normalised arguments |
| `Agent.RunToolCalls` | agent/agent.py:273-315 | the inner loop appends exactly the batch's tool entries, in call order, to the conversation |
| `Agent.ToolMessagesAt` | agent/agent.py:273-315 | the i-th entry of a batch is the result of the i-th call, made after the entries of the calls before it |
| `Agent.RunSocAgent` | agent/agent.py:157-319 | the outcome, final conversation and query and tool-call counts of the program (listing loop, outer loop, inner loop) are those of the specification `AgentRun` |
| `Agent.Iterate` | agent/agent.py:223-315 | one iteration counts itself and one query, only appends to the conversation, and lets the loop go on exactly when the LLM answered with tool calls |
| `Agent.IterateAppends` | agent/agent.py:223-315 | one iteration counts one tool call per tool entry it appends; it appends exactly one assistant entry when the LLM answers, and nothing when the LLM raises, which ends the loop with that exception |
| `Agent.LoopAppendsRounds` | agent/agent.py:228-315 | the loop only appends to the conversation, and what it appends is a sequence of complete rounds: the assistant entry of the LLM's reply to the whole conversation before it, followed by the tool entries of its calls, in order, each call made after the previous call's entry is in; an assistant entry without tool calls is the last entry |
| `Agent.LoopCounts` | agent/agent.py:233-315 | one assistant entry per successful LLM query, and one tool entry per tool call made |
| `Agent.LoopQueryBound` | agent/agent.py:221-224 | from any state, the LLM is queried at most once per remaining iteration, and never when none remains |
| `Agent.LoopExhausts` | agent/agent.py:221-319 | an LLM that always requests tools is queried exactly once per remaining iteration and the loop ends at the cap |
| `Agent.LoopCapUsesAllIterations` | agent/agent.py:221-224 | the converse: when the loop ends at the cap, it has queried the LLM once in every remaining iteration |
| `Agent.LoopOutcome` | agent/agent.py:259-266 | a final answer is the content of a reply to the conversation before its own assistant entry that requested no tools, and that entry is last; an exception comes from querying the final conversation |
| `Agent.LoopContinuesAfterTools` | agent/agent.py:292-315 | after a round that requests tools, its assistant entry is followed by the tool entries of its calls and, if the cap allows, the LLM is queried again, whatever the tools returned |
| `Agent.LoopStopsOnAnswer` | agent/agent.py:259-266 | a reply without tool calls ends the loop in the same iteration with its content, its assistant entry appended and no tool called |
| `Agent.ReturnValue` | agent/agent.py:266-319 | a final answer returns the reply's content, which may be `None`; the cap returns the fixed cap message |
| `Agent.Loop` | agent/agent.py:221-319 | specification of the loop: repeats `Iterate` while iterations remain, and ends with the cap outcome; its properties are the `Loop...` lemmas |
| `Agent.Described` | agent/agent.py:157-159 | listing the catalog does not raise: every tool has a description |
| `Agent.AgentRun` | agent/agent.py:157-319 | specification of a run: the listing error, or the loop from `[system, user]` over the converted catalog; its properties are the `Agent...` lemmas |
| `Agent.AgentListingRaises` | agent/agent.py:157-159 | the run raises at listing exactly when some tool has no description, and then before any conversation, query or tool call |
| `Agent.AgentQueryBound` | agent/agent.py:221-319 | at most `MAX_ITERATIONS` queries; when the catalog can be listed and `MAX_ITERATIONS <= 0`, no query, the conversation stays `[system, user]` and the cap message is returned |
| `Agent.AgentExhausts` | agent/agent.py:221-319 | when the catalog can be listed, an LLM that never concludes is queried exactly `MAX_ITERATIONS` times and the run returns the cap message |
| `Agent.AgentCapUsesAllIterations` | agent/agent.py:221-319 | a run that returns the cap message made exactly `max(MAX_ITERATIONS, 0)` LLM queries |
| `Agent.AgentTranscript` | agent/agent.py:194-315 | when the catalog can be listed, the conversation starts as `[system, user]`, then grows by complete rounds only, each assistant entry being the LLM's reply to the whole conversation before it and the first reply without tool calls being the last entry; assistant entries count the successful queries, tool entries count the tool calls |
| `Agent.AgentFinalAnswer` | agent/agent.py:259-266 | a final answer is the `content` of the last reply, which requested no tools; its assistant entry ends the conversation, so no tool runs after it |
| `Agent.ToolFailuresDoNotStopLoop` | agent/agent.py:292-315 | whatever the tools return or raise, a first round that requests tools is followed by its tool entries and a second query when the cap allows |
| `Agent.ThreeTurnInvestigation` | agent/agent.py:221-315 | tool call, tool call, answer: exactly three queries, two tool calls, and the two tool entries in request order before the answer |
| `SocTools.PrefixSlice` | mcp_server/server.py:133 | Python's `s[:stop]`: the prefix of `s` of length `min(stop, len(s))` for `stop >= 0`, and of length `max(len(s) + stop, 0)` for `stop < 0` |
| `SocTools.GetRecentAlerts` | mcp_server/server.py:120-139 | `alert_count` is the number of alerts returned; they are a prefix of the table; `min(limit, 10, len)` of them for `limit >= 0`; all but the last `-limit` for `limit < 0` |
| `SocTools.RecentAlertsMonotone` | mcp_server/server.py:131-133 | for non-negative limits at most 10 alerts come back, and a larger limit returns an extension of a smaller one's list |
| `SocTools.NegativeLimitBypassesCap` | mcp_server/server.py:127-133 | on a 12-alert table, `limit = -1` returns 11 alerts, more than the documented maximum of 10 |
| `SocTools.NegativeLimitOnSimulatedAlerts` | mcp_server/server.py:60-133 | on the server's table, `limit = -2` returns the first three alerts, `limit = -7` none, and a limit of 50 all five |
| `SocTools.CheckIpReputation` | mcp_server/server.py:189-221 | echoes the IP; malicious exactly when listed; a listed IP gets the table's threat and confidence and the BLOCK recommendation, an unlisted one `None detected`, 0 and the MONITOR recommendation |
| `SocTools.ReputationIsLocal` | mcp_server/server.py:202-221 | the verdict depends only on the table entry for that IP, and the recommendation tells the two shapes apart |
| `SocTools.SimulatedSourcesFlagged` | mcp_server/server.py:45-106 | on the server's tables, the sources of ALT-001 and ALT-003 are flagged with the listed confidence and threat, and the internal source of ALT-002 is not |
| `SocTools.FindAlert` | mcp_server/server.py:236-238 | the position of the first alert with the id, or none when no alert has it |
| `SocTools.NotFoundMessage` | mcp_server/server.py:240 | the error text `Alert <id> not found` |
| `SocTools.GetAlertDetails` | mcp_server/server.py:224-240 | found exactly when some alert has the id, and then the first such alert; otherwise the error `Alert <id> not found` |
| `SocTools.ListedAlertsResolve` | mcp_server/server.py:120-240 | with unique ids, every alert `get_recent_alerts` lists is returned unchanged by `get_alert_details` for its id |
| `SocTools.SimulatedAlertsUniqueIds` | mcp_server/server.py:60-106 | the server's alert ids are unique |

## Left out

- MCP transport and session: the SSE client, `ClientSession`, the handshake and `list_tools`. They are library calls. The model starts from the discovered catalog.
- `ollama.Client.chat` and `session.call_tool`: foreign calls, replaced by the oracle and executor parameters. An exception from the LLM ends the run as the outcome `OracleRaised`, and nothing is returned.
- Connection errors and `sys.exit`: process exit is not modelled.
- `lookup_ip_geolocation`: an HTTP request to an external service with a timeout. This is network I/O.
- The wall-clock fields `checked_at` and `queried_at`: they are nondeterministic, so they are dropped from the results.
- JSON serialisation with `json.dumps`: results are datatypes, not text. The real `json.loads` is an abstract parser.
- JSON numbers other than integers: the tools take only strings and integers.
- Console output (`print_section`, `print`) is not modelled, except that listing a tool without a description raises (`ListingRaised`).
- Configuration from environment variables: `MAX_ITERATIONS` is a parameter. The system prompt's text is a parameter too.
- `async`/`await`: nothing in the loop depends on concurrency, so the model is sequential.
- The server's startup and tool registration (`FastMCP`, `@mcp.tool()`, `mcp.run`), and the argument validation and the default `limit` of 5 that the framework applies before a tool runs: library plumbing.
- The `isError` flag of an MCP tool result: the agent ignores it and reads the first content block either way, and so does the model.
- agent/test_tools.py is not part of this model. It is a manual script against a live server.
