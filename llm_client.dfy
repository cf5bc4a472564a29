/**
 * The tool-calling chat client (`OllamaClient`) and its factory.
 *
 * The model backend is a finite script of replies: the n-th call to the
 * backend gets the n-th reply. The source loops until the backend answers
 * without tool calls; here the script is the loop's fuel, and running out of
 * script is reported as `ScriptExhausted` (the source would call the backend
 * once more). Tool servers answer `call_tool` through an oracle that is given
 * the ordinal of the tool call within the chat and the call itself.
 */
module LlmClient {
  import opened Wrappers
  import opened Values
  import opened OrderedDicts
  import McpClient

  const DefaultUrl: Value := Text("http://localhost:11434")
  const DefaultModel: Value := Text("llama3.2")
  const UnknownServerName: Value := Text("unknown")

  /** The settings the client reads; `None` is a key absent from the configuration. */
  datatype OllamaConfig = OllamaConfig(
    url: Option<Value>,
    model: Option<Value>,
    mcpServers: Option<seq<map<string, Value>>>)

  /**
   * A tool server as `chat` sees it: the `enabled` attribute it may carry,
   * and what its `list_tools()` gives (a reply, or an exception).
   */
  datatype ToolServer = ToolServer(enabled: Option<Value>, listing: Result<McpClient.ListToolsReply, Error>)

  /**
   * What the server table holds: the constructor stores configuration
   * dictionaries; `chat` replaces them by the server objects it is given.
   */
  datatype ServerHandle = ConfigEntry(fields: map<string, Value>) | Client(server: ToolServer)

  type ServerTable = Table<Value, ServerHandle>

  // ---------------------------------------------------------------------------
  // The server table built by the constructor

  /** `server.get("enabled", True)`, as a condition. */
  predicate EntryEnabled(e: map<string, Value>) {
    Truthy(GetOr(e, "enabled", Bool(true)))
  }

  /** `server.get("name", "unknown")`. */
  function EntryName(e: map<string, Value>): Value {
    GetOr(e, "name", UnknownServerName)
  }

  /** The table after the constructor's loop has seen the entries `es`. */
  function BuildTable(es: seq<map<string, Value>>): ServerTable
    decreases |es|
  {
    if es == [] then []
    else
      var t := BuildTable(es[..|es| - 1]);
      var e := es[|es| - 1];
      if EntryEnabled(e) then Put(t, EntryName(e), ConfigEntry(e)) else t
  }

  /** Each server name occurs once in the table. */
  lemma {:induction false} BuildTableKeysUnique(es: seq<map<string, Value>>)
    ensures UniqueKeys(BuildTable(es))
    decreases |es|
  {
    if es != [] {
      var init := es[..|es| - 1];
      var e := es[|es| - 1];
      BuildTableKeysUnique(init);
      PutKeepsKeysUnique(BuildTable(init), EntryName(e), ConfigEntry(e));
    }
  }

  ghost predicate Selects(es: seq<map<string, Value>>, i: int, key: Value) {
    0 <= i < |es| && EntryEnabled(es[i]) && EntryName(es[i]) == key
  }

  ghost predicate LastSelects(es: seq<map<string, Value>>, i: int, key: Value) {
    Selects(es, i, key) && forall j :: i < j < |es| ==> !Selects(es, j, key)
  }

  /** Every key of the table is the name of an enabled entry. */
  lemma {:induction false} BuildTableKeysSelected(es: seq<map<string, Value>>, key: Value)
    requires HasKey(BuildTable(es), key)
    ensures exists i :: Selects(es, i, key)
    decreases |es|
  {
    var n := |es| - 1;
    var init := es[..n];
    var e := es[n];
    var t := BuildTable(init);
    if EntryEnabled(e) && key == EntryName(e) {
      assert Selects(es, n, key);
    } else {
      if EntryEnabled(e) {
        PutThenGetOther(t, EntryName(e), ConfigEntry(e), key);
      }
      assert Get(BuildTable(es), key) == Get(t, key);
      BuildTableKeysSelected(init, key);
      var i :| Selects(init, i, key);
      assert init[i] == es[i];
      assert Selects(es, i, key);
    }
  }

  /** The name of every enabled entry is a key of the table. */
  lemma {:induction false} SelectedNamesAreKeys(es: seq<map<string, Value>>, key: Value, i: int)
    requires Selects(es, i, key)
    ensures HasKey(BuildTable(es), key)
    decreases |es|
  {
    var n := |es| - 1;
    var init := es[..n];
    var e := es[n];
    var t := BuildTable(init);
    if EntryEnabled(e) && key == EntryName(e) {
      assert Get(BuildTable(es), key) == Some(ConfigEntry(e));
    } else {
      assert i < n && init[i] == es[i];
      SelectedNamesAreKeys(init, key, i);
      if EntryEnabled(e) {
        PutThenGetOther(t, EntryName(e), ConfigEntry(e), key);
      }
      assert Get(BuildTable(es), key) == Get(t, key);
    }
  }

  /** The table has a key exactly for the names of the enabled entries. */
  lemma BuildTableKeys(es: seq<map<string, Value>>, key: Value)
    ensures HasKey(BuildTable(es), key) <==> exists i :: Selects(es, i, key)
  {
    if HasKey(BuildTable(es), key) {
      BuildTableKeysSelected(es, key);
    }
    if exists i :: Selects(es, i, key) {
      var i :| Selects(es, i, key);
      SelectedNamesAreKeys(es, key, i);
    }
  }

  /** Under a name the table holds the last enabled entry with that name. */
  lemma {:induction false} BuildTableKeepsLast(es: seq<map<string, Value>>, key: Value, i: int)
    requires LastSelects(es, i, key)
    ensures Get(BuildTable(es), key) == Some(ConfigEntry(es[i]))
    decreases |es|
  {
    var n := |es| - 1;
    var init := es[..n];
    var e := es[n];
    var t := BuildTable(init);
    if i == n {
      assert Get(BuildTable(es), key) == Some(ConfigEntry(e));
    } else {
      assert !Selects(es, n, key);
      if EntryEnabled(e) {
        PutThenGetOther(t, EntryName(e), ConfigEntry(e), key);
      }
      assert Get(BuildTable(es), key) == Get(t, key);
      assert LastSelects(init, i, key) by {
        assert init[i] == es[i];
        forall j | i < j < n ensures !Selects(init, j, key) {
          assert !Selects(es, j, key);
          assert init[j] == es[j];
        }
      }
      BuildTableKeepsLast(init, key, i);
    }
  }

  // ---------------------------------------------------------------------------
  // The tool catalogue

  /** A server descriptor in the model's function-tool shape. */
  function ToFunctionTool(t: McpClient.Tool): (v: Value)
    ensures ParseFunctionTool(v) == Some(t)
  {
    Dict(map[
      "type" := Text("function"),
      "function" := Dict(map[
        "name" := Text(t.name),
        "description" := t.description,
        "parameters" := t.inputSchema])])
  }

  /** Reads a server descriptor back out of the function-tool shape. */
  function ParseFunctionTool(v: Value): Option<McpClient.Tool> {
    if v.Dict? && "type" in v.fields && v.fields["type"] == Text("function")
       && "function" in v.fields && v.fields["function"].Dict?
    then
      var f := v.fields["function"].fields;
      if "name" in f && f["name"].Text? && "description" in f && "parameters" in f
      then Some(McpClient.Tool(f["name"].s, f["description"], f["parameters"]))
      else None
    else None
  }

  /** The comprehension over `server_tools.tools`: one function tool per descriptor, in order. */
  function ConvertAll(ts: seq<McpClient.Tool>): (vs: seq<Value>)
    ensures |vs| == |ts|
    ensures forall i :: 0 <= i < |ts| ==> ParseFunctionTool(vs[i]) == Some(ts[i])
  {
    if ts == [] then [] else [ToFunctionTool(ts[0])] + ConvertAll(ts[1..])
  }

  /**
   * The descriptors a table entry lists, if listing succeeds. A configuration
   * dictionary has no `list_tools`, and the `[]` an MCP client returns after
   * a failure has no `.tools`: both raise AttributeError, which is caught.
   */
  function Listed(h: ServerHandle): (r: Option<seq<McpClient.Tool>>)
    ensures r.Some? <==> h.Client? && h.server.listing.Success? && h.server.listing.value.ToolsResponse?
    ensures r.Some? ==> r.value == h.server.listing.value.tools
  {
    match h
    case ConfigEntry(_) => None
    case Client(s) =>
      if s.listing.Success? && s.listing.value.ToolsResponse? then Some(s.listing.value.tools) else None
  }

  /** `list_tools`: the accumulator after visiting the entries of `t` in order. */
  function CollectTools(t: ServerTable): seq<Value>
    decreases |t|
  {
    if t == [] then []
    else
      match Listed(t[|t| - 1].1)
      case Some(ts) => ConvertAll(ts)
      case None => CollectTools(t[..|t| - 1])
  }

  /** Each successful listing overwrites the previous one: the last one wins. */
  lemma {:induction false} LastListingWins(t: ServerTable, j: int)
    requires 0 <= j < |t| && Listed(t[j].1).Some?
    requires forall i :: j < i < |t| ==> Listed(t[i].1).None?
    ensures CollectTools(t) == ConvertAll(Listed(t[j].1).value)
    decreases |t|
  {
    if j < |t| - 1 {
      var init := t[..|t| - 1];
      assert init[j] == t[j];
      forall i | j < i < |init| ensures Listed(init[i].1).None? {
        assert init[i] == t[i];
      }
      LastListingWins(init, j);
    }
  }

  /** With no successful listing (in particular with no servers) the catalogue is empty. */
  lemma {:induction false} NoListingNoTools(t: ServerTable)
    requires forall i :: 0 <= i < |t| ==> Listed(t[i].1).None?
    ensures CollectTools(t) == []
    decreases |t|
  {
    if t != [] {
      var init := t[..|t| - 1];
      forall i | 0 <= i < |init| ensures Listed(init[i].1).None? {
        assert init[i] == t[i];
      }
      NoListingNoTools(init);
    }
  }

  /** `tools if tools else None`. */
  function Catalogue(tools: seq<Value>): Option<seq<Value>> {
    if tools == [] then None else Some(tools)
  }

  /** `mcp_servers or {}`. */
  function ServersOrEmpty(servers: Option<ServerTable>): ServerTable {
    if servers.None? then [] else servers.value
  }

  // ---------------------------------------------------------------------------
  // Argument extraction and dispatch

  /** The `function` of a tool call: an object with `name` and `arguments`, or a dictionary. */
  datatype CallSpec = FunctionObject(name: Value, arguments: Value) | Mapping(fields: map<string, Value>)

  datatype ExtractedCall = ExtractedCall(name: Value, args: Value)

  /**
   * The tool name and arguments of a call: a function object's own
   * attributes; for a dictionary, `tool` or else `name`, and `args` or else
   * `arguments` defaulting to `{}`.
   */
  function ExtractCall(f: CallSpec): (r: ExtractedCall)
    ensures f.FunctionObject? ==> r == ExtractedCall(f.name, f.arguments)
    ensures f.Mapping? && Truthy(GetOr(f.fields, "tool", Null)) ==> r.name == f.fields["tool"]
    ensures f.Mapping? && Truthy(GetOr(f.fields, "args", EmptyDict)) ==> r.args == f.fields["args"]
  {
    match f
    case FunctionObject(name, arguments) => ExtractedCall(name, arguments)
    case Mapping(m) =>
      ExtractedCall(
        Or(GetOr(m, "tool", Null), GetOr(m, "name", Null)),
        Or(GetOr(m, "args", EmptyDict), GetOr(m, "arguments", EmptyDict)))
  }

  /** A dictionary spelled with `name` and `arguments` extracts as the function object does. */
  lemma MappingAgreesWithFunctionObject(name: Value, arguments: Value)
    ensures ExtractCall(Mapping(map["name" := name, "arguments" := arguments]))
         == ExtractCall(FunctionObject(name, arguments))
  {
  }

  /** `tool` and `args` take precedence over `name` and `arguments` when they are truthy. */
  lemma ToolAndArgsTakePrecedence(m: map<string, Value>)
    requires "tool" in m && Truthy(m["tool"]) && "args" in m && Truthy(m["args"])
    ensures ExtractCall(Mapping(m)) == ExtractedCall(m["tool"], m["args"])
  {
  }

  /**
   * When `tool` is absent or falsy the name is `get("name")`, None if absent;
   * when `args` is absent or falsy the arguments are `get("arguments", {})`.
   */
  lemma ExtractCallFallbacks(m: map<string, Value>)
    ensures !Truthy(GetOr(m, "tool", Null)) ==> ExtractCall(Mapping(m)).name == GetOr(m, "name", Null)
    ensures !Truthy(GetOr(m, "args", EmptyDict)) ==> ExtractCall(Mapping(m)).args == GetOr(m, "arguments", EmptyDict)
  {
  }

  /** A falsy `args` falls through even to a None `arguments`. */
  lemma EmptyArgsFallThroughToNone()
    ensures ExtractCall(Mapping(map["args" := EmptyDict, "arguments" := Null])).args == Null
  {
  }

  /** With neither spelling present the name is None and the arguments `{}`. */
  lemma EmptyMappingDefaults()
    ensures ExtractCall(Mapping(map[])) == ExtractedCall(Null, EmptyDict)
  {
  }

  /** The call a tool server receives. */
  datatype ServerCall = ServerCall(serverName: Value, toolName: Value, args: Value)

  datatype ToolOutcome = Returns(value: Value) | Raises(error: Error)

  /** How tool servers answer: by the ordinal of the tool call in the chat and the call. */
  type ToolOracle = (nat, ServerCall) -> ToolOutcome

  /** What `_call_mcp_tool` returns: the server's result or an `{"error": ...}` dictionary. */
  datatype ToolResult = FromServer(value: Value) | ErrorDict(error: ErrorText)

  /** The text under `"error"`: `str(e)`, or the message naming the tool. */
  datatype ErrorText = ExceptionText(exception: Error) | NoEnabledServer(toolName: Value)

  const NoCallToolOnDict := Error("AttributeError", "'dict' object has no attribute 'call_tool'")
  const NoItemsOnNone := Error("AttributeError", "'NoneType' object has no attribute 'items'")

  /** `getattr(server, 'enabled', True)`, as a condition; dictionaries have no such attribute. */
  predicate HandleEnabled(h: ServerHandle) {
    match h
    case ConfigEntry(_) => true
    case Client(s) => s.enabled.None? || Truthy(s.enabled.value)
  }

  ghost predicate FirstEnabledAt(t: ServerTable, i: int) {
    0 <= i < |t| && HandleEnabled(t[i].1) && forall j :: 0 <= j < i ==> !HandleEnabled(t[j].1)
  }

  /** The position of the first enabled server in table order. */
  function FirstEnabled(t: ServerTable): (r: Option<nat>)
    ensures r.Some? ==> FirstEnabledAt(t, r.value)
    ensures r.None? ==> forall j :: 0 <= j < |t| ==> !HandleEnabled(t[j].1)
  {
    if t == [] then None
    else if HandleEnabled(t[0].1) then Some(0)
    else
      match FirstEnabled(t[1..])
      case None => None
      case Some(i) => Some(i + 1)
  }

  /** Calling `call_tool` on one table entry; every exception becomes an error dictionary. */
  function CallOn(entry: (Value, ServerHandle), call: ExtractedCall, replies: ToolOracle, n: nat): (r: ToolResult)
    ensures entry.1.ConfigEntry? ==> r == ErrorDict(ExceptionText(NoCallToolOnDict))
    ensures entry.1.Client? ==>
      var outcome := replies(n, ServerCall(entry.0, call.name, call.args));
      && (r.FromServer? <==> outcome.Returns?)
      && (outcome.Returns? ==> r.value == outcome.value)
      && (outcome.Raises? ==> r.error == ExceptionText(outcome.error))
  {
    match entry.1
    case ConfigEntry(_) => ErrorDict(ExceptionText(NoCallToolOnDict))
    case Client(_) =>
      match replies(n, ServerCall(entry.0, call.name, call.args))
      case Returns(v) => FromServer(v)
      case Raises(e) => ErrorDict(ExceptionText(e))
  }

  /**
   * `_call_mcp_tool`: extract the name and arguments, then call the first
   * enabled server, whichever server advertised the tool, and return what it
   * gives; never try a later server.
   */
  function CallMcpTool(servers: ServerTable, f: CallSpec, replies: ToolOracle, n: nat): (r: ToolResult)
    ensures (forall j :: 0 <= j < |servers| ==> !HandleEnabled(servers[j].1)) ==>
      r == ErrorDict(NoEnabledServer(ExtractCall(f).name))
    ensures forall i :: FirstEnabledAt(servers, i) ==> r == CallOn(servers[i], ExtractCall(f), replies, n)
  {
    match FirstEnabled(servers)
    case None => ErrorDict(NoEnabledServer(ExtractCall(f).name))
    case Some(i) => CallOn(servers[i], ExtractCall(f), replies, n)
  }

  /** Servers after the first enabled one are never consulted. */
  lemma {:induction false} LaterServersIgnored(servers: ServerTable, f: CallSpec, replies: ToolOracle, n: nat, i: int)
    requires FirstEnabledAt(servers, i)
    ensures CallMcpTool(servers, f, replies, n) == CallMcpTool(servers[..i + 1], f, replies, n)
  {
    assert FirstEnabledAt(servers[..i + 1], i);
  }

  // ---------------------------------------------------------------------------
  // The conversation and the backend script

  /** `str(tool_result)` is kept symbolic. */
  datatype Content = Literal(text: string) | Rendered(result: ToolResult)

  datatype Message = Message(role: string, content: Content)

  function ToolMessage(r: ToolResult): Message {
    Message("tool", Rendered(r))
  }

  /** An entry of `tool_calls`: it may lack the `function` attribute. */
  datatype ToolCall = ToolCall(func: Option<CallSpec>)

  /** `response['message']`: its content and its `tool_calls`, absent or None being `None`. */
  datatype Response = Response(content: string, toolCalls: Option<seq<ToolCall>>)

  datatype Reply = Responded(response: Response) | BackendRaised(error: Error)

  /** One call to the backend: the model, the conversation at that moment, the tools offered. */
  datatype ModelCall = ModelCall(model: Value, messages: seq<Message>, tools: Option<seq<Value>>)

  datatype ChatResult = Answer(content: string) | ChatRaised(error: Error) | ScriptExhausted

  predicate HasToolCalls(resp: Response) {
    resp.toolCalls.Some? && resp.toolCalls.value != []
  }

  /** A reply after which the loop makes no further backend call. */
  predicate Stops(reply: Reply) {
    reply.BackendRaised? || !HasToolCalls(reply.response)
  }

  function StopResult(reply: Reply): ChatResult
    requires Stops(reply)
  {
    if reply.BackendRaised? then ChatRaised(reply.error) else Answer(reply.response.content)
  }

  /** The `function`s of the tool calls that have one, in emission order. */
  function FunctionCalls(calls: seq<ToolCall>): seq<CallSpec> {
    if calls == [] then []
    else (if calls[0].func.Some? then [calls[0].func.value] else []) + FunctionCalls(calls[1..])
  }

  /** The number of tool calls with a `function` in one reply. */
  function CallsIn(reply: Reply): nat {
    if reply.Responded? && reply.response.toolCalls.Some? then |FunctionCalls(reply.response.toolCalls.value)| else 0
  }

  /** The number of tool calls with a `function` in the replies i up to (excluding) j. */
  function CallsBetween(rs: seq<Reply>, i: nat, j: nat): nat
    requires i <= j <= |rs|
    decreases j - i
  {
    if i == j then 0 else CallsIn(rs[i]) + CallsBetween(rs, i + 1, j)
  }

  /** The messages one response's tool calls append, the tool-call ordinal reached, and an escaping exception. */
  datatype TurnResult = TurnResult(added: seq<Message>, used: nat, raised: Option<Error>)

  /**
   * The `for tool_call in tool_calls` loop. With a server table, each call
   * with a `function` appends one tool message, in order; calls without one
   * append nothing. Without a table (`mcp_servers` is None) the first call
   * with a `function` raises AttributeError out of `_call_mcp_tool`.
   */
  function Turn(calls: seq<ToolCall>, servers: Option<ServerTable>, replies: ToolOracle, k: nat): TurnResult
    decreases |calls|
  {
    if calls == [] then TurnResult([], k, None)
    else
      match calls[0].func
      case None => Turn(calls[1..], servers, replies, k)
      case Some(f) =>
        if servers.None? then TurnResult([], k, Some(NoItemsOnNone))
        else
          var m := ToolMessage(CallMcpTool(servers.value, f, replies, k));
          var rest := Turn(calls[1..], servers, replies, k + 1);
          TurnResult([m] + rest.added, rest.used, rest.raised)
  }

  /**
   * Only tool messages are appended. With a table nothing escapes and each
   * call with a `function` appends one message and takes the next ordinal;
   * without one nothing is appended and the loop raises exactly when some
   * call has a `function`.
   */
  lemma {:induction false} TurnShape(calls: seq<ToolCall>, servers: Option<ServerTable>, replies: ToolOracle, k: nat)
    ensures var t := Turn(calls, servers, replies, k);
      && (forall n :: 0 <= n < |t.added| ==> t.added[n].role == "tool")
      && (servers.Some? ==> t.raised.None? && |t.added| == |FunctionCalls(calls)| && t.used == k + |t.added|)
      && (servers.None? ==> t.added == [] && (t.raised.Some? <==> FunctionCalls(calls) != []))
    decreases |calls|
  {
    if calls != [] {
      if calls[0].func.None? {
        TurnShape(calls[1..], servers, replies, k);
      } else if servers.Some? {
        TurnShape(calls[1..], servers, replies, k + 1);
        var t := Turn(calls, servers, replies, k);
        var rest := Turn(calls[1..], servers, replies, k + 1);
        forall n | 0 < n < |t.added| ensures t.added[n].role == "tool" {
          assert t.added[n] == rest.added[n - 1];
        }
      }
    }
  }

  /**
   * With a server table, the n-th message a response's tool calls append is
   * the result of dispatching the n-th call that has a `function`.
   */
  lemma {:induction false} TurnDispatchesInOrder(calls: seq<ToolCall>, servers: ServerTable, replies: ToolOracle, k: nat)
    ensures var t := Turn(calls, Some(servers), replies, k);
      |t.added| == |FunctionCalls(calls)| && forall n :: 0 <= n < |t.added| ==>
        t.added[n] == ToolMessage(CallMcpTool(servers, FunctionCalls(calls)[n], replies, k + n))
    decreases |calls|
  {
    TurnShape(calls, Some(servers), replies, k);
    if calls != [] {
      match calls[0].func
      case None =>
        TurnDispatchesInOrder(calls[1..], servers, replies, k);
      case Some(f) =>
        TurnDispatchesInOrder(calls[1..], servers, replies, k + 1);
        var t := Turn(calls, Some(servers), replies, k);
        var rest := Turn(calls[1..], Some(servers), replies, k + 1);
        assert t.added == [ToolMessage(CallMcpTool(servers, f, replies, k))] + rest.added;
        assert FunctionCalls(calls) == [f] + FunctionCalls(calls[1..]);
        forall n | 0 < n < |t.added|
          ensures t.added[n] == ToolMessage(CallMcpTool(servers, FunctionCalls(calls)[n], replies, k + n))
        {
          assert t.added[n] == rest.added[n - 1];
        }
    }
  }

  /** What the chat loop ends with: its result, the conversation, and the backend calls made. */
  datatype LoopResult = LoopResult(result: ChatResult, messages: seq<Message>, calls: seq<ModelCall>)

  /** The `while True` loop of `chat`, from the i-th reply of the script on. */
  function Loop(script: seq<Reply>, i: nat, msgs: seq<Message>, model: Value, tools: Option<seq<Value>>,
                servers: Option<ServerTable>, replies: ToolOracle, k: nat): LoopResult
    requires i <= |script|
    decreases |script| - i
  {
    if i == |script| then LoopResult(ScriptExhausted, msgs, [])
    else
      var call := ModelCall(model, msgs, tools);
      match script[i]
      case BackendRaised(e) => LoopResult(ChatRaised(e), msgs, [call])
      case Responded(resp) =>
        if !HasToolCalls(resp) then LoopResult(Answer(resp.content), msgs, [call])
        else
          var t := Turn(resp.toolCalls.value, servers, replies, k);
          if t.raised.Some? then LoopResult(ChatRaised(t.raised.value), msgs + t.added, [call])
          else
            var rest := Loop(script, i + 1, msgs + t.added, model, tools, servers, replies, t.used);
            LoopResult(rest.result, rest.messages, [call] + rest.calls)
  }

  // ---------------------------------------------------------------------------
  // Properties of the chat loop

  /** The conversation is only extended, and only by tool messages. */
  lemma {:induction false} LoopOnlyAppendsToolMessages(
    script: seq<Reply>, i: nat, msgs: seq<Message>, model: Value, tools: Option<seq<Value>>,
    servers: Option<ServerTable>, replies: ToolOracle, k: nat)
    requires i <= |script|
    ensures var lr := Loop(script, i, msgs, model, tools, servers, replies, k);
      && |msgs| <= |lr.messages| && lr.messages[..|msgs|] == msgs
      && forall n :: |msgs| <= n < |lr.messages| ==> lr.messages[n].role == "tool"
    decreases |script| - i
  {
    if i < |script| && script[i].Responded? && HasToolCalls(script[i].response) {
      var t := Turn(script[i].response.toolCalls.value, servers, replies, k);
      TurnShape(script[i].response.toolCalls.value, servers, replies, k);
      var mid := msgs + t.added;
      assert forall n :: |msgs| <= n < |mid| ==> mid[n] == t.added[n - |msgs|];
      if t.raised.None? {
        LoopOnlyAppendsToolMessages(script, i + 1, mid, model, tools, servers, replies, t.used);
        var lr := Loop(script, i + 1, mid, model, tools, servers, replies, t.used);
        assert lr.messages[..|mid|] == mid;
        assert lr.messages[..|msgs|] == mid[..|msgs|];
        forall n | |msgs| <= n < |lr.messages| ensures lr.messages[n].role == "tool" {
          if n < |mid| {
            assert lr.messages[n] == lr.messages[..|mid|][n];
          }
        }
      }
    }
  }

  /**
   * Every backend call passes the same model and the same tool catalogue,
   * computed once before the loop; the first call sees the conversation as
   * it was given.
   */
  lemma {:induction false} LoopCallsShareCatalogue(
    script: seq<Reply>, i: nat, msgs: seq<Message>, model: Value, tools: Option<seq<Value>>,
    servers: Option<ServerTable>, replies: ToolOracle, k: nat)
    requires i <= |script|
    ensures var lr := Loop(script, i, msgs, model, tools, servers, replies, k);
      && (forall n :: 0 <= n < |lr.calls| ==> lr.calls[n].model == model && lr.calls[n].tools == tools)
      && (i < |script| ==> |lr.calls| > 0 && lr.calls[0].messages == msgs)
    decreases |script| - i
  {
    if i < |script| && script[i].Responded? && HasToolCalls(script[i].response) {
      var t := Turn(script[i].response.toolCalls.value, servers, replies, k);
      if t.raised.None? {
        LoopCallsShareCatalogue(script, i + 1, msgs + t.added, model, tools, servers, replies, t.used);
      }
    }
  }

  /**
   * With a server table, the loop ends at the first reply that stops it: it
   * makes one backend call per reply up to and including that one, returns
   * that reply's content (or re-raises the backend's exception), and has
   * appended one tool message per tool call with a `function` before it.
   */
  lemma {:induction false} LoopStopsAtFirstStop(
    script: seq<Reply>, i: nat, j: nat, msgs: seq<Message>, model: Value, tools: Option<seq<Value>>,
    servers: Option<ServerTable>, replies: ToolOracle, k: nat)
    requires servers.Some?
    requires i <= j < |script| && Stops(script[j])
    requires forall n :: i <= n < j ==> !Stops(script[n])
    ensures var lr := Loop(script, i, msgs, model, tools, servers, replies, k);
      && lr.result == StopResult(script[j])
      && |lr.calls| == j - i + 1
      && |lr.messages| == |msgs| + CallsBetween(script, i, j)
    decreases j - i
  {
    if i < j {
      assert !Stops(script[i]);
      var calls := script[i].response.toolCalls.value;
      var t := Turn(calls, servers, replies, k);
      TurnShape(calls, servers, replies, k);
      LoopStopsAtFirstStop(script, i + 1, j, msgs + t.added, model, tools, servers, replies, t.used);
      var rest := Loop(script, i + 1, msgs + t.added, model, tools, servers, replies, t.used);
      assert Loop(script, i, msgs, model, tools, servers, replies, k)
          == LoopResult(rest.result, rest.messages, [ModelCall(model, msgs, tools)] + rest.calls);
    }
  }

  /** With a server table and no stopping reply, the whole script is consumed. */
  lemma {:induction false} LoopExhaustsScript(
    script: seq<Reply>, i: nat, msgs: seq<Message>, model: Value, tools: Option<seq<Value>>,
    servers: Option<ServerTable>, replies: ToolOracle, k: nat)
    requires servers.Some?
    requires i <= |script|
    requires forall n :: i <= n < |script| ==> !Stops(script[n])
    ensures var lr := Loop(script, i, msgs, model, tools, servers, replies, k);
      && lr.result == ScriptExhausted
      && |lr.calls| == |script| - i
      && |lr.messages| == |msgs| + CallsBetween(script, i, |script|)
    decreases |script| - i
  {
    if i < |script| {
      assert !Stops(script[i]);
      var t := Turn(script[i].response.toolCalls.value, servers, replies, k);
      TurnShape(script[i].response.toolCalls.value, servers, replies, k);
      LoopExhaustsScript(script, i + 1, msgs + t.added, model, tools, servers, replies, t.used);
      var rest := Loop(script, i + 1, msgs + t.added, model, tools, servers, replies, t.used);
      assert Loop(script, i, msgs, model, tools, servers, replies, k)
          == LoopResult(rest.result, rest.messages, [ModelCall(model, msgs, tools)] + rest.calls);
    }
  }

  /** A tool call on a chat given no server table raises before any message is appended. */
  lemma NoTableRaisesOnFirstFunctionCall(
    script: seq<Reply>, msgs: seq<Message>, model: Value, tools: Option<seq<Value>>, replies: ToolOracle,
    f: CallSpec, rest: seq<ToolCall>, content: string)
    requires |script| > 0 && script[0] == Responded(Response(content, Some([ToolCall(Some(f))] + rest)))
    ensures Loop(script, 0, msgs, model, tools, None, replies, 0)
         == LoopResult(ChatRaised(NoItemsOnNone), msgs, [ModelCall(model, msgs, tools)])
  {
    var calls := [ToolCall(Some(f))] + rest;
    assert calls[0].func == Some(f);
  }

  /** The question "What's 2+2": one tool round trip, then the final answer. */
  lemma CalculatorRoundTrip(msgs: seq<Message>, model: Value, tools: Option<seq<Value>>, server: ToolServer)
    requires server.enabled.None?
    ensures var add := FunctionObject(Text("add"), Dict(map["a" := Int(2), "b" := Int(2)]));
      var script := [Responded(Response("", Some([ToolCall(Some(add))]))), Responded(Response("4", None))];
      var servers := [(Text("calculator"), Client(server))];
      var replies: ToolOracle := (n, c) => Returns(Int(4));
      Loop(script, 0, msgs, model, tools, Some(servers), replies, 0)
      == LoopResult(Answer("4"), msgs + [ToolMessage(FromServer(Int(4)))],
                    [ModelCall(model, msgs, tools), ModelCall(model, msgs + [ToolMessage(FromServer(Int(4)))], tools)])
  {
    var add := FunctionObject(Text("add"), Dict(map["a" := Int(2), "b" := Int(2)]));
    var servers := [(Text("calculator"), Client(server))];
    var replies: ToolOracle := (n, c) => Returns(Int(4));
    var script := [Responded(Response("", Some([ToolCall(Some(add))]))), Responded(Response("4", None))];
    var m := ToolMessage(FromServer(Int(4)));
    assert FirstEnabledAt(servers, 0);
    assert CallMcpTool(servers, add, replies, 0) == FromServer(Int(4));
    assert [ToolCall(Some(add))][1..] == [];
    assert Turn([ToolCall(Some(add))], Some(servers), replies, 0) == TurnResult([m], 1, None);
    assert Loop(script, 1, msgs + [m], model, tools, Some(servers), replies, 1)
        == LoopResult(Answer("4"), msgs + [m], [ModelCall(model, msgs + [m], tools)]);
  }

  // ---------------------------------------------------------------------------
  // The client

  /** The caller's `messages` list, which `chat` appends to in place. */
  class Conversation {
    var items: seq<Message>

    constructor (items: seq<Message>)
      ensures this.items == items
    {
      this.items := items;
    }
  }

  function AfterCalls(trace: seq<ModelCall>, lr: LoopResult): LoopResult {
    LoopResult(lr.result, lr.messages, trace + lr.calls)
  }

  function AfterMessages(added: seq<Message>, t: TurnResult): TurnResult {
    TurnResult(added + t.added, t.used, t.raised)
  }

  /** One step of the `for tool_call in tool_calls` loop. */
  lemma TurnStep(calls: seq<ToolCall>, j: nat, servers: Option<ServerTable>, replies: ToolOracle, k: nat)
    requires j < |calls|
    ensures Turn(calls[j..], servers, replies, k) ==
      if calls[j].func.None? then Turn(calls[j + 1..], servers, replies, k)
      else if servers.None? then TurnResult([], k, Some(NoItemsOnNone))
      else AfterMessages([ToolMessage(CallMcpTool(servers.value, calls[j].func.value, replies, k))],
                         Turn(calls[j + 1..], servers, replies, k + 1))
  {
    assert calls[j..][0] == calls[j] && calls[j..][1..] == calls[j + 1..];
  }

  /** An iteration whose reply stops the loop: one more backend call, and the loop's result. */
  lemma LoopStops(trace: seq<ModelCall>, script: seq<Reply>, i: nat, msgs: seq<Message>, model: Value,
                  tools: Option<seq<Value>>, servers: Option<ServerTable>, replies: ToolOracle, k: nat)
    requires i < |script| && Stops(script[i])
    ensures AfterCalls(trace, Loop(script, i, msgs, model, tools, servers, replies, k))
         == LoopResult(StopResult(script[i]), msgs, trace + [ModelCall(model, msgs, tools)])
  {
  }

  /** An iteration whose tool calls raise: the exception escapes after the messages appended so far. */
  lemma LoopTurnRaises(trace: seq<ModelCall>, script: seq<Reply>, i: nat, msgs: seq<Message>, model: Value,
                       tools: Option<seq<Value>>, servers: Option<ServerTable>, replies: ToolOracle, k: nat)
    requires i < |script| && !Stops(script[i])
    requires Turn(script[i].response.toolCalls.value, servers, replies, k).raised.Some?
    ensures var t := Turn(script[i].response.toolCalls.value, servers, replies, k);
      AfterCalls(trace, Loop(script, i, msgs, model, tools, servers, replies, k))
      == LoopResult(ChatRaised(t.raised.value), msgs + t.added, trace + [ModelCall(model, msgs, tools)])
  {
  }

  /** One full iteration of the `while True` loop whose response has tool calls and raises nothing. */
  lemma LoopStep(trace: seq<ModelCall>, script: seq<Reply>, i: nat, msgs: seq<Message>, model: Value,
                 tools: Option<seq<Value>>, servers: Option<ServerTable>, replies: ToolOracle, k: nat)
    requires i < |script| && !Stops(script[i])
    requires Turn(script[i].response.toolCalls.value, servers, replies, k).raised.None?
    ensures var t := Turn(script[i].response.toolCalls.value, servers, replies, k);
      AfterCalls(trace, Loop(script, i, msgs, model, tools, servers, replies, k))
      == AfterCalls(trace + [ModelCall(model, msgs, tools)], Loop(script, i + 1, msgs + t.added, model, tools, servers, replies, t.used))
  {
    var t := Turn(script[i].response.toolCalls.value, servers, replies, k);
    var rest := Loop(script, i + 1, msgs + t.added, model, tools, servers, replies, t.used);
    assert trace + ([ModelCall(model, msgs, tools)] + rest.calls) == (trace + [ModelCall(model, msgs, tools)]) + rest.calls;
  }

  class OllamaClient {
    var url: Value
    var model: Value
    var mcpServers: ServerTable

    /** Reads the settings with their defaults and keeps the enabled servers by name. */
    constructor (config: OllamaConfig)
      ensures url == config.url.GetOr(DefaultUrl)
      ensures model == config.model.GetOr(DefaultModel)
      ensures mcpServers == BuildTable(config.mcpServers.GetOr([]))
    {
      url := config.url.GetOr(DefaultUrl);
      model := config.model.GetOr(DefaultModel);
      var entries := config.mcpServers.GetOr([]);
      var table: ServerTable := [];
      var i := 0;
      while i < |entries|
        invariant i <= |entries|
        invariant table == BuildTable(entries[..i])
      {
        var server := entries[i];
        if EntryEnabled(server) {
          table := Put(table, EntryName(server), ConfigEntry(server));
        }
        assert entries[..i + 1][..i] == entries[..i];
        i := i + 1;
      }
      assert entries[..i] == entries;
      mcpServers := table;
    }

    /** `list_tools`: the converted descriptors of the last server whose listing succeeded. */
    method ListTools() returns (tools: seq<Value>)
      ensures tools == CollectTools(mcpServers)
    {
      tools := [];
      var i := 0;
      while i < |mcpServers|
        invariant i <= |mcpServers|
        invariant tools == CollectTools(mcpServers[..i])
      {
        var (_, server) := mcpServers[i];
        match Listed(server) {
          case Some(serverTools) =>
            tools := ConvertAll(serverTools);
          case None =>
        }
        assert mcpServers[..i + 1][..i] == mcpServers[..i];
        i := i + 1;
      }
      assert mcpServers[..i] == mcpServers;
    }

    /**
     * `chat`: replace the server table by the one given, compute the tool
     * catalogue once, then call the backend until a reply has no tool calls,
     * appending one tool message per tool call with a `function`.
     */
    method Chat(messages: Conversation, mcpServersArg: Option<ServerTable>, script: seq<Reply>, replies: ToolOracle)
      returns (r: ChatResult, ghost trace: seq<ModelCall>)
      modifies this, messages
      ensures mcpServers == ServersOrEmpty(mcpServersArg)
      ensures url == old(url) && model == old(model)
      ensures LoopResult(r, messages.items, trace)
           == Loop(script, 0, old(messages.items), model, Catalogue(CollectTools(mcpServers)), mcpServersArg, replies, 0)
    {
      mcpServers := ServersOrEmpty(mcpServersArg);
      var tools := ListTools();
      var offered := Catalogue(tools);
      ghost var spec := Loop(script, 0, messages.items, model, offered, mcpServersArg, replies, 0);
      trace := [];
      var i, k := 0, 0;
      while i < |script|
        invariant i <= |script|
        invariant mcpServers == ServersOrEmpty(mcpServersArg) && url == old(url) && model == old(model)
        invariant spec == AfterCalls(trace, Loop(script, i, messages.items, model, offered, mcpServersArg, replies, k))
      {
        ghost var before, k0, trace0 := messages.items, k, trace;
        trace := trace + [ModelCall(model, messages.items, offered)];
        var reply := script[i];
        if Stops(reply) {
          // a backend exception propagates; a reply without tool calls ends the chat
          LoopStops(trace0, script, i, before, model, offered, mcpServersArg, replies, k0);
          r := if reply.BackendRaised? then ChatRaised(reply.error) else Answer(reply.response.content);
          return;
        }
        var raised;
        raised, k := CallTools(messages, reply.response.toolCalls.value, mcpServersArg, replies, k);
        if raised.Some? {
          LoopTurnRaises(trace0, script, i, before, model, offered, mcpServersArg, replies, k0);
          r := ChatRaised(raised.value);
          return;
        }
        LoopStep(trace0, script, i, before, model, offered, mcpServersArg, replies, k0);
        i := i + 1;
      }
      assert trace + [] == trace;
      r := ScriptExhausted;
    }
  }

  /**
   * The `for tool_call in tool_calls` loop of `chat`: append one tool message
   * per call with a `function`; `k` counts the tool calls of the chat so far.
   */
  method CallTools(messages: Conversation, calls: seq<ToolCall>, servers: Option<ServerTable>, replies: ToolOracle, k: nat)
    returns (raised: Option<Error>, used: nat)
    modifies messages
    ensures var t := Turn(calls, servers, replies, k);
      messages.items == old(messages.items) + t.added && used == t.used && raised == t.raised
  {
    ghost var added: seq<Message> := [];
    used := k;
    var j := 0;
    while j < |calls|
      invariant j <= |calls|
      invariant messages.items == old(messages.items) + added
      invariant servers.None? ==> added == []
      invariant Turn(calls, servers, replies, k) == AfterMessages(added, Turn(calls[j..], servers, replies, used))
    {
      var toolCall := calls[j];
      TurnStep(calls, j, servers, replies, used);
      if toolCall.func.Some? {
        if servers.None? {
          // `mcp_servers.items()` on None
          assert added == [];
          return Some(NoItemsOnNone), used;
        }
        var result := CallMcpTool(servers.value, toolCall.func.value, replies, used);
        ghost var rest := Turn(calls[j + 1..], servers, replies, used + 1);
        assert added + ([ToolMessage(result)] + rest.added) == (added + [ToolMessage(result)]) + rest.added;
        messages.items := messages.items + [ToolMessage(result)];
        added := added + [ToolMessage(result)];
        used := used + 1;
      }
      j := j + 1;
    }
    assert calls[j..] == [];
    assert added + [] == added;
    raised := None;
  }

  /** `LLMClientFactory.create_client`: only the "ollama" type is supported. */
  method CreateClient(clientType: string, config: OllamaConfig) returns (r: Result<OllamaClient, Error>)
    ensures r.Success? <==> clientType == "ollama"
    ensures r.Failure? ==> r.error == Error("ValueError", "Unsupported LLM client type: " + clientType)
    ensures r.Success? ==>
      && fresh(r.value)
      && r.value.url == config.url.GetOr(DefaultUrl)
      && r.value.model == config.model.GetOr(DefaultModel)
      && r.value.mcpServers == BuildTable(config.mcpServers.GetOr([]))
  {
    if clientType == "ollama" {
      var client := new OllamaClient(config);
      r := Success(client);
    } else {
      r := Failure(Error("ValueError", "Unsupported LLM client type: " + clientType));
    }
  }
}
