/**
 * The MCP session manager (`MCPClient`): a client for one Model Context
 * Protocol server that opens its session lazily, keeps it in two nullable
 * fields (`session` and `_client_context`) and tears it down on request.
 *
 * The transport library is not modelled. Each call into it (the HTTP
 * reachability probe, entering the streamable-HTTP context, entering and
 * initializing the `ClientSession`, the exits, the protocol requests) is an
 * input that says whether that call succeeds or raises. The objects the
 * library creates are handles whose identities are given by the same input.
 * Every method also returns, as a ghost trace, the calls it made into the
 * library, so that the contracts can say which calls happen on each path.
 */
module McpClient {
  import opened Wrappers
  import opened Values

  /** The context returned by `streamablehttp_client(url)`. */
  datatype ContextHandle = ContextHandle(id: nat, url: string)

  /** A `ClientSession` built on the streams of `context`. */
  datatype SessionHandle = SessionHandle(id: nat, context: ContextHandle)

  /** A tool descriptor as the server lists it. */
  datatype Tool = Tool(name: string, description: Value, inputSchema: Value)

  /** A resource descriptor as the server lists it. */
  datatype Resource = Resource(fields: map<string, Value>)

  /** What `list_tools` returns: the server's response, or `[]` after a failure. */
  datatype ListToolsReply = ToolsResponse(tools: seq<Tool>) | EmptyFallback

  /** The outcome of one call into the transport library that yields no value. */
  datatype Step = Done | Fails(error: Error)

  /** The behaviour of the library during one session establishment. */
  datatype Establish = Establish(
    probe: Step,            // the httpx GET on the server URL
    contextId: nat,         // identity of the context object created
    enterContext: Step,     // `_client_context.__aenter__()`
    sessionId: nat,         // identity of the ClientSession created
    enterSession: Step,     // `session.__aenter__()`
    initialize: Step,       // `session.initialize()`
    cleanupExit: Step)      // `_client_context.__aexit__` on the error path; its error is swallowed

  /** The behaviour of the library during `close`. */
  datatype Teardown = Teardown(exitSession: Step, exitContext: Step)

  /** A call into the transport library. */
  datatype Effect =
    | Probe(url: string)
    | OpenContext(context: ContextHandle)
    | EnterContext(context: ContextHandle)
    | EnterSession(session: SessionHandle)
    | Initialize(session: SessionHandle)
    | ExitSession(session: SessionHandle)
    | ExitContext(context: ContextHandle)
    | ListToolsRequest(session: SessionHandle)
    | CallToolRequest(session: SessionHandle, toolName: string, arguments: Value)
    | ListResourcesRequest(session: SessionHandle)
    | ReadResourceRequest(session: SessionHandle, resourceName: string)

  /** The two nullable fields of the client. */
  datatype Conn = Conn(session: Option<SessionHandle>, context: Option<ContextHandle>)

  /** The state, the library calls made, and the value returned or the exception raised. */
  datatype Established = Established(conn: Conn, effects: seq<Effect>, result: Result<SessionHandle, Error>)

  /** The first establishment step that raises, if any (the probe is not one of them). */
  function FirstFailure(w: Establish): Option<Error> {
    if w.enterContext.Fails? then Some(w.enterContext.error)
    else if w.enterSession.Fails? then Some(w.enterSession.error)
    else if w.initialize.Fails? then Some(w.initialize.error)
    else None
  }

  /**
   * `_get_session` as a function of the state before it: reuse the session
   * if there is one; otherwise probe, open and enter the context, create,
   * enter and initialize the session, and on an exception exit the context,
   * clear `_client_context` and re-raise. The session field is not cleared.
   */
  function GetSessionSpec(c: Conn, url: string, w: Establish): (g: Established)
    // an existing session is returned as it is, with no call into the library
    ensures c.session.Some? ==> g == Established(c, [], Success(c.session.value))
    // otherwise establishment always starts with the probe, whatever its outcome
    ensures c.session.None? ==> |g.effects| > 0 && g.effects[0] == Probe(url)
    // it fails exactly when a step after the probe fails, re-raising that step's error
    ensures c.session.None? ==> (g.result.Failure? <==> FirstFailure(w).Some?)
    ensures c.session.None? && g.result.Failure? ==> g.result.error == FirstFailure(w).value
    // on failure the context just opened is exited last and the field cleared
    ensures c.session.None? && g.result.Failure? ==>
      g.conn.context.None? && g.effects[|g.effects| - 1] == ExitContext(ContextHandle(w.contextId, url))
    // the session field is set exactly when the context was entered, failure or not
    ensures c.session.None? ==> (g.conn.session.Some? <==> w.enterContext.Done?)
    // on success the client holds the returned session and the context it was built on
    ensures g.result.Success? ==> g.conn.session == Some(g.result.value)
    ensures c.session.None? && g.result.Success? ==> g.conn.context == Some(g.result.value.context)
  {
    if c.session.Some? then Established(c, [], Success(c.session.value))
    else
      var ctx := ContextHandle(w.contextId, url);
      var s := SessionHandle(w.sessionId, ctx);
      var begun := [Probe(url), OpenContext(ctx), EnterContext(ctx)];
      if w.enterContext.Fails? then
        Established(Conn(None, None), begun + [ExitContext(ctx)], Failure(w.enterContext.error))
      else if w.enterSession.Fails? then
        Established(Conn(Some(s), None), begun + [EnterSession(s), ExitContext(ctx)], Failure(w.enterSession.error))
      else if w.initialize.Fails? then
        Established(Conn(Some(s), None), begun + [EnterSession(s), Initialize(s), ExitContext(ctx)],
                    Failure(w.initialize.error))
      else
        Established(Conn(Some(s), Some(ctx)), begun + [EnterSession(s), Initialize(s)], Success(s))
  }

  /**
   * `close`: exit the session if there is one and clear the field only if
   * that exit succeeded; then the same for the context. Never raises.
   */
  function CloseSpec(c: Conn, w: Teardown): (r: (Conn, seq<Effect>))
    // nothing open: nothing is called and nothing changes
    ensures c == Conn(None, None) ==> r == (c, [])
    // both exits succeed: both fields end cleared
    ensures w.exitSession.Done? && w.exitContext.Done? ==> r.0 == Conn(None, None)
    // a field is never set by close; it keeps its value exactly when its own exit failed
    ensures r.0.session.Some? <==> c.session.Some? && w.exitSession.Fails?
    ensures r.0.context.Some? <==> c.context.Some? && w.exitContext.Fails?
    ensures r.0.session.Some? ==> r.0.session == c.session
    ensures r.0.context.Some? ==> r.0.context == c.context
    // the session is exited before the context
    ensures c.session.Some? ==> |r.1| > 0 && r.1[0] == ExitSession(c.session.value)
    ensures c.context.Some? ==> |r.1| > 0 && r.1[|r.1| - 1] == ExitContext(c.context.value)
  {
    var session := if c.session.Some? && w.exitSession.Done? then None else c.session;
    var context := if c.context.Some? && w.exitContext.Done? then None else c.context;
    var exits :=
      (if c.session.Some? then [ExitSession(c.session.value)] else []) +
      (if c.context.Some? then [ExitContext(c.context.value)] else []);
    (Conn(session, context), exits)
  }

  /** `[resource.model_dump() for resource in resources]`. */
  function ModelDump(r: Resource): Value {
    Dict(r.fields)
  }

  function DumpAll(rs: seq<Resource>): (r: seq<Value>)
    ensures |r| == |rs|
    ensures forall i :: 0 <= i < |rs| ==> r[i] == ModelDump(rs[i])
  {
    if rs == [] then [] else [ModelDump(rs[0])] + DumpAll(rs[1..])
  }

  class MCPClient {
    const url: string
    var session: Option<SessionHandle>
    var clientContext: Option<ContextHandle>

    function State(): Conn
      reads this
    {
      Conn(session, clientContext)
    }

    constructor (url: string)
      ensures this.url == url
      ensures session.None? && clientContext.None?
    {
      this.url := url;
      session := None;
      clientContext := None;
    }

    /** `_get_session`. */
    method GetSession(w: Establish) returns (r: Result<SessionHandle, Error>, ghost effects: seq<Effect>)
      modifies this
      ensures Established(State(), effects, r) == GetSessionSpec(old(State()), url, w)
    {
      effects := [];
      if session.None? {
        // the probe's outcome is only logged
        effects := effects + [Probe(url)];
        var ctx := ContextHandle(w.contextId, url);
        clientContext := Some(ctx);
        effects := effects + [OpenContext(ctx), EnterContext(ctx)];
        var failure: Option<Error> := None;
        if w.enterContext.Fails? {
          failure := Some(w.enterContext.error);
        } else {
          var s := SessionHandle(w.sessionId, ctx);
          session := Some(s);
          effects := effects + [EnterSession(s)];
          if w.enterSession.Fails? {
            failure := Some(w.enterSession.error);
          } else {
            effects := effects + [Initialize(s)];
            if w.initialize.Fails? {
              failure := Some(w.initialize.error);
            }
          }
        }
        if failure.Some? {
          // clean up the context; an error from its exit is ignored
          if clientContext.Some? {
            effects := effects + [ExitContext(clientContext.value)];
            clientContext := None;
          }
          r := Failure(failure.value);
          return;
        }
      }
      r := Success(session.value);
    }

    /** `list_tools`: never raises; `[]` when establishment or the request fails. */
    method ListTools(w: Establish, reply: Result<seq<Tool>, Error>)
      returns (r: ListToolsReply, ghost effects: seq<Effect>)
      modifies this
      ensures var g := GetSessionSpec(old(State()), url, w);
        && State() == g.conn
        && r == (if g.result.Success? && reply.Success? then ToolsResponse(reply.value) else EmptyFallback)
        && effects == g.effects + (if g.result.Success? then [ListToolsRequest(g.result.value)] else [])
    {
      var s;
      s, effects := GetSession(w);
      if s.Failure? {
        return EmptyFallback, effects;
      }
      effects := effects + [ListToolsRequest(s.value)];
      r := if reply.Success? then ToolsResponse(reply.value) else EmptyFallback;
    }

    /** `call_tool`: re-raises an establishment or request failure. */
    method CallTool(toolName: string, arguments: Value, w: Establish, reply: Result<Value, Error>)
      returns (r: Result<Value, Error>, ghost effects: seq<Effect>)
      modifies this
      ensures var g := GetSessionSpec(old(State()), url, w);
        && State() == g.conn
        && r == (if g.result.Failure? then Failure(g.result.error) else reply)
        && effects == g.effects + (if g.result.Success? then [CallToolRequest(g.result.value, toolName, arguments)] else [])
    {
      var s;
      s, effects := GetSession(w);
      if s.Failure? {
        return Failure(s.error), effects;
      }
      effects := effects + [CallToolRequest(s.value, toolName, arguments)];
      r := reply;
    }

    /** `list_resources`: never raises; one dumped entry per resource, or `[]` on failure. */
    method ListResources(w: Establish, reply: Result<seq<Resource>, Error>)
      returns (r: seq<Value>, ghost effects: seq<Effect>)
      modifies this
      ensures var g := GetSessionSpec(old(State()), url, w);
        && State() == g.conn
        && r == (if g.result.Success? && reply.Success? then DumpAll(reply.value) else [])
        && effects == g.effects + (if g.result.Success? then [ListResourcesRequest(g.result.value)] else [])
    {
      var s;
      s, effects := GetSession(w);
      if s.Failure? {
        return [], effects;
      }
      effects := effects + [ListResourcesRequest(s.value)];
      r := if reply.Success? then DumpAll(reply.value) else [];
    }

    /** `get_resource`: re-raises an establishment or request failure. */
    method GetResource(resourceName: string, w: Establish, reply: Result<Value, Error>)
      returns (r: Result<Value, Error>, ghost effects: seq<Effect>)
      modifies this
      ensures var g := GetSessionSpec(old(State()), url, w);
        && State() == g.conn
        && r == (if g.result.Failure? then Failure(g.result.error) else reply)
        && effects == g.effects + (if g.result.Success? then [ReadResourceRequest(g.result.value, resourceName)] else [])
    {
      var s;
      s, effects := GetSession(w);
      if s.Failure? {
        return Failure(s.error), effects;
      }
      effects := effects + [ReadResourceRequest(s.value, resourceName)];
      r := reply;
    }

    /** `close`: never raises. */
    method Close(w: Teardown) returns (ghost effects: seq<Effect>)
      modifies this
      ensures (State(), effects) == CloseSpec(old(State()), w)
    {
      ghost var sessionExits: seq<Effect> := [];
      ghost var contextExits: seq<Effect> := [];
      if session.Some? {
        sessionExits := [ExitSession(session.value)];
        if w.exitSession.Done? {
          session := None;
        }
      }
      if clientContext.Some? {
        contextExits := [ExitContext(clientContext.value)];
        if w.exitContext.Done? {
          clientContext := None;
        }
      }
      effects := sessionExits + contextExits;
    }

    /** `__aenter__`: establish the session and return the client itself. */
    method Enter(w: Establish) returns (r: Result<MCPClient, Error>, ghost effects: seq<Effect>)
      modifies this
      ensures var g := GetSessionSpec(old(State()), url, w);
        && State() == g.conn && effects == g.effects
        && r == (if g.result.Success? then Success(this) else Failure(g.result.error))
    {
      var s;
      s, effects := GetSession(w);
      r := if s.Success? then Success(this) else Failure(s.error);
    }

    /** `__aexit__`: close. */
    method Exit(w: Teardown) returns (ghost effects: seq<Effect>)
      modifies this
      ensures (State(), effects) == CloseSpec(old(State()), w)
    {
      effects := Close(w);
    }
  }

  // ---------------------------------------------------------------------------
  // Properties of the session lifecycle across calls

  /** The probe's outcome changes nothing: not the state, the calls made or the result. */
  lemma ProbeOutcomeIrrelevant(c: Conn, url: string, w: Establish, probe: Step)
    ensures GetSessionSpec(c, url, w.(probe := probe)) == GetSessionSpec(c, url, w)
  {
  }

  /**
   * An error raised while exiting the context during cleanup is swallowed:
   * `GetSessionSpec` never reads `cleanupExit`, and this lemma records that
   * its outcome cannot reach the state, the calls made or the result.
   */
  lemma CleanupExitOutcomeIrrelevant(c: Conn, url: string, w: Establish, exit: Step)
    ensures GetSessionSpec(c, url, w.(cleanupExit := exit)) == GetSessionSpec(c, url, w)
  {
  }

  /**
   * A session that was assigned before entering or initializing it failed is
   * kept: the next `_get_session` returns it without any call into the
   * library, although the context its streams came from has been exited.
   */
  lemma FailedSessionIsReused(url: string, w: Establish, w2: Establish)
    requires w.enterContext.Done? && (w.enterSession.Fails? || w.initialize.Fails?)
    ensures var g := GetSessionSpec(Conn(None, None), url, w);
      && g.result.Failure?
      && g.conn == Conn(Some(SessionHandle(w.sessionId, ContextHandle(w.contextId, url))), None)
      && ExitContext(g.conn.session.value.context) in g.effects
      && GetSessionSpec(g.conn, url, w2) == Established(g.conn, [], Success(g.conn.session.value))
  {
    var g := GetSessionSpec(Conn(None, None), url, w);
    assert g.effects[|g.effects| - 1] == ExitContext(ContextHandle(w.contextId, url));
  }

  /** A failure before the session was assigned leaves nothing behind, so the next call reconnects. */
  lemma FailedContextIsRetried(url: string, w: Establish, w2: Establish)
    requires w.enterContext.Fails?
    ensures GetSessionSpec(Conn(None, None), url, w).conn == Conn(None, None)
    ensures GetSessionSpec(GetSessionSpec(Conn(None, None), url, w).conn, url, w2).effects[0] == Probe(url)
  {
  }

  /**
   * A context left behind by a close whose context exit failed is replaced,
   * without being exited, when the next `_get_session` opens a new one.
   */
  lemma StaleContextIsReplaced(old_: ContextHandle, url: string, w: Establish)
    requires old_ != ContextHandle(w.contextId, url)
    ensures var g := GetSessionSpec(Conn(None, Some(old_)), url, w);
      && ExitContext(old_) !in g.effects
      && g.conn.context != Some(old_)
  {
  }

  /** A second close after a successful one changes nothing and calls nothing. */
  lemma CloseTwiceIsNoop(c: Conn, w2: Teardown)
    ensures var first := CloseSpec(c, Teardown(Done, Done));
      CloseSpec(first.0, w2) == (first.0, [])
  {
  }

  /** After a successful establishment and a successful close, the next call reconnects from scratch. */
  lemma CloseThenReconnect(url: string, w: Establish, w2: Establish)
    requires FirstFailure(w).None?
    ensures var open := GetSessionSpec(Conn(None, None), url, w);
      var closed := CloseSpec(open.conn, Teardown(Done, Done));
      && closed == (Conn(None, None), [ExitSession(open.result.value), ExitContext(open.result.value.context)])
      && GetSessionSpec(closed.0, url, w2).effects[0] == Probe(url)
  {
    var open := GetSessionSpec(Conn(None, None), url, w);
    var s := SessionHandle(w.sessionId, ContextHandle(w.contextId, url));
    assert open.conn == Conn(Some(s), Some(s.context)) && open.result == Success(s);
    var closed := CloseSpec(open.conn, Teardown(Done, Done));
    assert closed.0 == Conn(None, None);
    assert closed.1 == [ExitSession(s), ExitContext(s.context)];
    assert GetSessionSpec(closed.0, url, w2).effects[0] == Probe(url);
  }
}
