# CPT Inspector tool-calling core, in Dafny

CPT Inspector is a chatbot that answers questions with a local Ollama model.
The model can call tools served by Model Context Protocol (MCP) servers. This
project models the two pieces of that system that hold the logic:

- `MCPClient` (`mcp_client.dfy`) is the client for one MCP server. It opens
  its session lazily, keeping it in two nullable fields: `session` and the
  transport context `_client_context`. It cleans up when establishment
  fails, and it tears the session down on `close`. The class `MCPClient` has
  these two fields as `Option`s. Each method is proved against a pure
  function of the state before it: `GetSessionSpec` for `_get_session` and
  `CloseSpec` for `close`.
- `OllamaClient` and `LLMClientFactory` (`llm_client.dfy`) cover:
  - the enabled-server table the constructor builds from the configuration;
  - `list_tools`, which converts each server's tool descriptors into the
    model's function-tool shape;
  - `chat`, the loop that calls the model, dispatches each tool call that
    has a `function` and appends one `tool` message for it to the caller's
    `messages` (a call without a `function` is skipped, and with no server
    table the first call with a `function` raises out of `chat`);
  - `_call_mcp_tool`, which extracts the tool name and arguments and
    dispatches to the first enabled server;
  - the factory.

  The class `OllamaClient` has the fields `url`, `model` and `mcp_servers`.
  Its constructor and `list_tools` loops are proved against `BuildTable` and
  `CollectTools`. `chat` is proved against `Loop`, a function of the model's
  scripted replies. The per-response loop `CallTools` is proved against
  `Turn`.

`ordered_dict.dfy` gives Python's insertion-ordered `dict` as a sequence of
pairs. Assigning to a key that is present keeps its place. `values.dfy`
gives the dynamic values the code passes around, with Python truthiness,
`or` and `dict.get`.

The transport and model libraries are not modelled. They become inputs that
say what each call into them does:

- `Establish` says, for each step of `_get_session`, whether it succeeds or
  raises, and it gives the identities of the objects created.
- `Teardown` does the same for the two exits in `close`.
- The model backend is a finite script of replies.
- Tool servers answer through an oracle, indexed by the ordinal of the tool
  call within the chat.

A ghost trace of the calls made into the library lets the contracts say
which calls happen on each path.

The model follows the code as written; in particular:

- A tool call goes to the first enabled server, not to the server that
  advertised the tool.
- The chat loop has no iteration cap.
- Tool calls run one after another.
- A tool call made while `chat` has no server table (`mcp_servers` is None)
  raises out of `chat` rather than becoming a `tool` message.

## Model

| member | source | states |
|---|---|---|
| McpClient.MCPClient.constructor | src/mcp_client.py:19-23 | The URL is stored unchanged; `session` and `_client_context` start as None. |
| McpClient.GetSessionSpec | src/mcp_client.py:25-69 | An existing session is returned with no library call. Otherwise the probe comes first. Establishment fails exactly when entering the context, entering the session or initializing fails, and it re-raises that error. On failure the new context is exited last and `_client_context` is None. The session field is set exactly when the context was entered, even on failure. On success both fields hold the returned session and its context. |
| McpClient.MCPClient.GetSession | src/mcp_client.py:25-69 | The new state, the library calls made and the result are those of `GetSessionSpec` on the old state. |
| McpClient.ProbeOutcomeIrrelevant | src/mcp_client.py:32-38 | A failing reachability probe changes nothing: not the state, not the calls made, not the result. |
| McpClient.CleanupExitOutcomeIrrelevant | src/mcp_client.py:61-68 | An error from exiting the context during cleanup is swallowed; the original error is the one raised. |
| McpClient.FailedSessionIsReused | src/mcp_client.py:48-68 | When entering or initializing the session fails, the session stays assigned although its context was exited. The next `_get_session` returns that session without any library call. |
| McpClient.FailedContextIsRetried | src/mcp_client.py:41-68 | When entering the context fails, both fields end None, so the next `_get_session` starts over with the probe. |
| McpClient.StaleContextIsReplaced | src/mcp_client.py:41 | A context left over from a failed close is overwritten without being exited when a new session is opened. |
| McpClient.MCPClient.ListTools | src/mcp_client.py:71-85 | The method never raises. It returns the server's response, or `[]` when establishment or the request fails. The state is the one `_get_session` leaves. |
| McpClient.MCPClient.CallTool | src/mcp_client.py:87-96 | An establishment or request failure is re-raised; otherwise the server's result is returned. The request goes to the established session. |
| McpClient.DumpAll | src/mcp_client.py:104 | One dumped entry per resource, in the same order. |
| McpClient.MCPClient.ListResources | src/mcp_client.py:98-107 | The method never raises. It returns one dumped entry per resource, or `[]` on any failure. |
| McpClient.MCPClient.GetResource | src/mcp_client.py:109-118 | An establishment or request failure is re-raised; otherwise the resource read is returned. |
| McpClient.CloseSpec | src/mcp_client.py:120-136 | With nothing open, nothing is called or changed. Each field is cleared exactly when it was set and its own exit succeeded; otherwise it keeps its value. The session is exited before the context. |
| McpClient.MCPClient.Close | src/mcp_client.py:120-136 | The new state and the exits made are those of `CloseSpec` on the old state; close never raises. |
| McpClient.CloseTwiceIsNoop | src/mcp_client.py:120-136 | A close after a successful close calls nothing and changes nothing. |
| McpClient.CloseThenReconnect | src/mcp_client.py:120-136 | After a successful establishment, a successful close exits the session, then the context, and clears both fields. The next `_get_session` reconnects from the probe. |
| McpClient.MCPClient.Enter | src/mcp_client.py:138-141 | Establishes the session as `_get_session` does and returns the client itself, or re-raises. |
| McpClient.MCPClient.Exit | src/mcp_client.py:143-145 | Behaves as `close`. |
| OrderedDicts.Get | src/llm_client.py:39 | A dict lookup finds nothing exactly when the key is absent. |
| OrderedDicts.GetFindsEntry | src/llm_client.py:39 | When each key occurs once, a lookup returns the value stored with that key. |
| OrderedDicts.PutKeepsPlaces | src/llm_client.py:39 | Assigning to a present key keeps the length and every key in its place; a new key is appended at the end. |
| OrderedDicts.Put | src/llm_client.py:39 | After `d[k] = v`, `d[k]` reads `v`. |
| OrderedDicts.PutThenGetOther | src/llm_client.py:39 | After `d[k] = v`, every other key reads as before. |
| OrderedDicts.PutKeepsKeysUnique | src/llm_client.py:39 | Assignment keeps each key once. |
| LlmClient.OllamaClient.constructor | src/llm_client.py:29-39 | `url` and `model` default to "http://localhost:11434" and "llama3.2". The server table is the one `BuildTable` gives for the configured list, which defaults to empty. |
| LlmClient.BuildTableKeysUnique | src/llm_client.py:36-39 | Each server name occurs once in the table. |
| LlmClient.BuildTableKeys | src/llm_client.py:37-39 | The table has a key exactly for the names (default "unknown") of the entries whose `enabled` is truthy (missing counts as true). |
| LlmClient.BuildTableKeysSelected | src/llm_client.py:37-39 | Every key of the table is the name of an enabled entry. |
| LlmClient.SelectedNamesAreKeys | src/llm_client.py:37-39 | The name of every enabled entry is a key of the table. |
| LlmClient.BuildTableKeepsLast | src/llm_client.py:37-39 | Under each name the table holds the last enabled entry with that name. |
| LlmClient.ToFunctionTool | src/llm_client.py:47-53 | The function-tool shape of a descriptor reads back as that descriptor (name, description, `inputSchema` as parameters). |
| LlmClient.Listed | src/llm_client.py:46-57 | A server's listing yields descriptors exactly when it is an MCP client whose `list_tools()` returned a response (and then they are that response's tools); a configuration dictionary (no `list_tools`), the `[]` fallback (no `.tools`) and a raised exception yield none. |
| LlmClient.ConvertAll | src/llm_client.py:47-54 | One function tool per descriptor, same count, same order, each reading back as its descriptor. |
| LlmClient.OllamaClient.ListTools | src/llm_client.py:41-58 | The loop over the table computes `CollectTools` of the table. |
| LlmClient.LastListingWins | src/llm_client.py:43-58 | The result is the converted list of the last server whose listing succeeded; earlier lists are overwritten, not merged. |
| LlmClient.NoListingNoTools | src/llm_client.py:43-58 | With no successful listing, and in particular with no servers, the result is `[]`. |
| LlmClient.ExtractCall | src/llm_client.py:96-104 | A function object gives its own `name` and `arguments`; in a dictionary a truthy `tool` is the name and a truthy `args` the arguments. |
| LlmClient.ExtractCallFallbacks | src/llm_client.py:102-103 | For every dictionary: with `tool` absent or falsy the name is `get("name")` (None if absent); with `args` absent or falsy the arguments are `get("arguments", {})`. |
| LlmClient.EmptyArgsFallThroughToNone | src/llm_client.py:103 | `{"args": {}, "arguments": None}` gives None as the arguments. |
| LlmClient.MappingAgreesWithFunctionObject | src/llm_client.py:96-104 | A dictionary with `name` and `arguments` extracts like a function object with those attributes. |
| LlmClient.ToolAndArgsTakePrecedence | src/llm_client.py:102-103 | In the dictionary form, truthy `tool` and `args` win over `name` and `arguments`. |
| LlmClient.EmptyMappingDefaults | src/llm_client.py:102-103 | With neither spelling, the tool name is None and the arguments are `{}`. |
| LlmClient.FirstEnabled | src/llm_client.py:107-108 | The result is the position of the first server, in table order, whose `enabled` attribute is truthy or missing, or none when there is no such server. |
| LlmClient.CallOn | src/llm_client.py:109-114 | Calling a configuration dictionary gives the AttributeError text for `call_tool`; calling a server gives its result when it returns and `{"error": str(e)}` when it raises. |
| LlmClient.CallMcpTool | src/llm_client.py:91-115 | With no enabled server, the result is the "No enabled MCP server found" error for the extracted name. Otherwise the first enabled server is called, and its result, or `{"error": str(e)}` when it raises, is returned. |
| LlmClient.LaterServersIgnored | src/llm_client.py:106-115 | Servers after the first enabled one are never consulted; dispatch does not fall through. |
| LlmClient.TurnShape | src/llm_client.py:77-87 | With a server table, each tool call that has a `function` appends exactly one `tool` message and nothing raises. Without a table, nothing is appended, and the loop raises exactly when some call has a `function`. |
| LlmClient.TurnDispatchesInOrder | src/llm_client.py:77-85 | With a server table, the n-th appended message is the result of dispatching the n-th call that has a `function`. |
| LlmClient.CallTools | src/llm_client.py:77-87 | The loop over one response's tool calls appends exactly what `Turn` gives to the caller's `messages` and re-raises what escapes. |
| LlmClient.OllamaClient.Chat | src/llm_client.py:60-89 | The table becomes `mcp_servers or {}`, and the catalogue is computed once. The result, the final `messages` and the model calls made are those of `Loop` on the script, with `None` for an empty catalogue. |
| LlmClient.LoopOnlyAppendsToolMessages | src/llm_client.py:65-88 | `messages` is only extended: existing entries stay, and every new entry is a `tool` message. |
| LlmClient.LoopCallsShareCatalogue | src/llm_client.py:63-70 | Every model call passes the same model and the same catalogue; the first one sees the conversation as given. |
| LlmClient.LoopStopsAtFirstStop | src/llm_client.py:65-89 | With a server table, chat returns the content of the first response without tool calls, or re-raises the backend's exception. It makes one model call per response up to that one and appends one message per tool call with a `function` before it. |
| LlmClient.LoopExhaustsScript | src/llm_client.py:65-88 | With a server table and no stopping response, every scripted response is consumed with one model call each. |
| LlmClient.NoTableRaisesOnFirstFunctionCall | src/llm_client.py:83-107 | When `chat` is given no server table, a first response with a tool call raises AttributeError after one model call, with nothing appended. |
| LlmClient.CalculatorRoundTrip | src/llm_client.py:60-115 | A worked conversation: one `add` tool call answered 4, then the final answer "4", with exactly one tool message and two model calls. |
| LlmClient.CreateClient | src/llm_client.py:118-126 | Type "ollama" gives a new `OllamaClient` built from the configuration; any other type raises ValueError "Unsupported LLM client type: ...". |

## Left out

- Async/await, concurrency and the sharing of a client between requests: each call is one sequential step.
- Logging, `pprint` and traceback formatting: they only produce output.
- The transports (`streamablehttp_client`, `ClientSession`, `httpx.AsyncClient`, `ollama.AsyncClient`) are inputs that succeed or raise, not protocols. The wire formats of MCP results are opaque values.
- Creating the transport context (src/mcp_client.py:41) and the `ClientSession` object (src/mcp_client.py:48) are taken not to raise; only entering, initializing and exiting them can fail.
- The `AsyncClient` held in `self.client` is not a field of the model; the scripted replies stand in for it.
- The chat loop is bounded by the script of replies: running out of script is reported as `ScriptExhausted`, where the code would call the model again.
- Tool results are kept symbolic: `str(tool_result)` in the appended message is not rendered as text.
- The response content is a string; a missing or None `content` is not modelled.
- BuildTable: server names are compared structurally, not by Python's `==` and hash, so `True` and `1` are two keys here but one in the code, and a list- or dict-valued name, which raises TypeError (unhashable) in the code, is stored.
- A configuration whose `mcp_servers` is not a list of dictionaries, and the conversion of a descriptor that raises part-way through, are not modelled.
- Exceptions that are not `Exception`s (such as cancellation) are not modelled.
- main.py, the web layer that builds the configuration and calls these classes, is not part of this model.
