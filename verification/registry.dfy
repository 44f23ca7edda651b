/** The multi-server session registry and the tool router of `BaseMCPClient`
    (`src/mcps/clients/base.py`). A connected server is reduced to its name
    and the tools it advertised; the transport handshake lies outside. */
module ServerRegistry {
  import opened Wrappers
  import opened Dict
  import opened Json
  import opened Mcp

  /** A live session with one server, as far as the client observes it. */
  datatype Session = Session(server: string, tools: seq<Tool>)

  /** `sessions`: server name to session; `toolToServer`: tool name to the
      name of the server that owns it. Both are insertion-ordered dicts. */
  datatype Registry = Registry(sessions: Dict<string, Session>, toolToServer: Dict<string, string>)

  /** A freshly constructed client. */
  function Empty(): Registry {
    Registry([], [])
  }

  /** Every tool routes to a server that has a session. */
  predicate RoutesResolve(reg: Registry) {
    forall t :: t in Keys(reg.toolToServer) ==> Get(reg.toolToServer, t).value in Keys(reg.sessions)
  }

  /** The shape every registry reachable from `Empty` keeps. */
  predicate Valid(reg: Registry) {
    && UniqueKeys(reg.sessions)
    && UniqueKeys(reg.toolToServer)
    && RoutesResolve(reg)
  }

  /** A freshly constructed client starts in that shape. */
  lemma EmptyValid()
    ensures Valid(Empty())
  {
  }

  /** The loop `for tool in tools: tool_to_server[tool.name] = server`. */
  function RouteTools(routing: Dict<string, string>, tools: seq<Tool>, server: string): (r: Dict<string, string>)
    ensures forall t :: t in ToolNames(tools) ==> Get(r, t) == Some(server)
    ensures forall t :: t !in ToolNames(tools) ==> Get(r, t) == Get(routing, t)
    ensures Keys(routing) <= Keys(r)
    ensures UniqueKeys(routing) ==> UniqueKeys(r)
    decreases |tools|
  {
    if tools == [] then routing
    else
      var routed := Put(routing, tools[0].name, server);
      PutKeepsOrder(routing, tools[0].name, server);
      PutUniqueKeys(routing, tools[0].name, server);
      assert ToolNames(tools) == [tools[0].name] + ToolNames(tools[1..]);
      RouteTools(routed, tools[1..], server)
  }

  /** The state effect of `add_server(name, ...)` once the server has answered
      its handshake and advertised `tools`. */
  function AddServer(reg: Registry, name: string, tools: seq<Tool>): (r: Registry)
    ensures Get(r.sessions, name) == Some(Session(name, tools))
    ensures forall n :: n != name ==> Get(r.sessions, n) == Get(reg.sessions, n)
    ensures Keys(reg.sessions) <= Keys(r.sessions)
    ensures forall t :: t in ToolNames(tools) ==> Get(r.toolToServer, t) == Some(name)
    ensures forall t :: t !in ToolNames(tools) ==> Get(r.toolToServer, t) == Get(reg.toolToServer, t)
    ensures Keys(reg.toolToServer) <= Keys(r.toolToServer)
  {
    var sessions := Put(reg.sessions, name, Session(name, tools));
    Registry(sessions, RouteTools(reg.toolToServer, tools, name))
  }

  /** Registration keeps the registry's shape: no repeated key, and every
      tool still routes to a server with a session. */
  lemma AddServerValid(reg: Registry, name: string, tools: seq<Tool>)
    requires Valid(reg)
    ensures Valid(AddServer(reg, name, tools))
  {
    var r := AddServer(reg, name, tools);
    PutUniqueKeys(reg.sessions, name, Session(name, tools));
    forall t | t in Keys(r.toolToServer)
      ensures Get(r.toolToServer, t).value in Keys(r.sessions)
    {
      if t in ToolNames(tools) {
        assert Get(r.sessions, name).Some?;
      } else {
        assert Get(reg.toolToServer, t) == Get(r.toolToServer, t);
        assert Get(reg.toolToServer, t).value in Keys(reg.sessions);
      }
    }
  }

  /** The state effect of an `add_server(name, ...)` whose handshake went
      through but whose tool listing raised: `sessions[name]` is already
      assigned, no route is touched. The session is taken to advertise no
      tools. */
  function OpenSession(reg: Registry, name: string): (r: Registry)
    ensures Get(r.sessions, name) == Some(Session(name, []))
    ensures forall n :: n != name ==> Get(r.sessions, n) == Get(reg.sessions, n)
    ensures Keys(reg.sessions) <= Keys(r.sessions)
    ensures r.toolToServer == reg.toolToServer
  {
    Registry(Put(reg.sessions, name, Session(name, [])), reg.toolToServer)
  }

  /** Opening a session keeps the registry's shape. */
  lemma OpenSessionValid(reg: Registry, name: string)
    ensures Valid(reg) ==> Valid(OpenSession(reg, name))
  {
    if Valid(reg) {
      PutUniqueKeys(reg.sessions, name, Session(name, []));
    }
  }

  /** After a failed listing, the tools an earlier registration under the same
      name had routed there are forwarded to the new session, which
      advertises none of them. */
  lemma OpenSessionReroutes(reg: Registry, name: string, serve: ToolServer, tool: string, args: Value)
    requires Get(reg.toolToServer, tool) == Some(name)
    ensures var r := CallTool(OpenSession(reg, name), serve, tool, args);
      && (serve(Session(name, []), tool, args).Ok? ==> r == Ok(serve(Session(name, []), tool, args).value))
      && (serve(Session(name, []), tool, args).Err? ==> r == Err(ServerFailed(serve(Session(name, []), tool, args).error)))
  {
  }

  /** The tools of a sequence of sessions, one session after another. */
  function SessionTools(sessions: seq<Session>): seq<Tool> {
    if sessions == [] then [] else sessions[0].tools + SessionTools(sessions[1..])
  }

  /** `get_all_tools`: every session's tools, sessions in insertion order. */
  function AllTools(reg: Registry): seq<Tool> {
    SessionTools(Values(reg.sessions))
  }

  /** The number of tools the sessions advertise between them. */
  function ToolCount(sessions: seq<Session>): nat {
    if sessions == [] then 0 else |sessions[0].tools| + ToolCount(sessions[1..])
  }

  lemma {:induction false} SessionToolsLength(sessions: seq<Session>)
    ensures |SessionTools(sessions)| == ToolCount(sessions)
  {
    if sessions != [] {
      SessionToolsLength(sessions[1..]);
    }
  }

  lemma {:induction false} SessionToolsAppend(a: seq<Session>, b: seq<Session>)
    ensures SessionTools(a + b) == SessionTools(a) + SessionTools(b)
  {
    if a == [] {
      assert a + b == b;
    } else {
      assert (a + b)[1..] == a[1..] + b;
      SessionToolsAppend(a[1..], b);
    }
  }

  /** `get_all_tools` returns as many tools as the sessions advertise. */
  lemma AllToolsCount(reg: Registry)
    ensures |AllTools(reg)| == ToolCount(Values(reg.sessions))
  {
    SessionToolsLength(Values(reg.sessions));
  }

  /** Registering a server under a new name appends its tools to the end of
      what `get_all_tools` returns. */
  lemma AllToolsAfterAddNew(reg: Registry, name: string, tools: seq<Tool>)
    requires name !in Keys(reg.sessions)
    ensures AllTools(AddServer(reg, name, tools)) == AllTools(reg) + tools
  {
    var s := Session(name, tools);
    PutAppends(reg.sessions, name, s);
    var sessions := AddServer(reg, name, tools).sessions;
    assert sessions == reg.sessions + [(name, s)];
    ValuesAppend(reg.sessions, [(name, s)]);
    assert Values(sessions) == Values(reg.sessions) + [s];
    SessionToolsAppend(Values(reg.sessions), [s]);
    SessionToolsSingle(s);
  }

  /** Re-registering the server at position `i` replaces its tools in place;
      the other sessions' tools keep their places. */
  lemma AllToolsAfterAddExisting(reg: Registry, name: string, tools: seq<Tool>, i: nat)
    requires UniqueKeys(reg.sessions)
    requires i < |reg.sessions| && reg.sessions[i].0 == name
    ensures AllTools(AddServer(reg, name, tools)) ==
      SessionTools(Values(reg.sessions[..i])) + tools + SessionTools(Values(reg.sessions[i + 1..]))
  {
    var s := Session(name, tools);
    forall j | 0 <= j < i ensures reg.sessions[j].0 != name {
      assert Keys(reg.sessions)[j] != Keys(reg.sessions)[i];
    }
    PutReplaces(reg.sessions, name, s, i);
    UpdateSplits(reg.sessions, i, (name, s));
    var sessions := AddServer(reg, name, tools).sessions;
    assert sessions == reg.sessions[..i] + [(name, s)] + reg.sessions[i + 1..];
    SessionToolsSplice(reg.sessions[..i], (name, s), reg.sessions[i + 1..]);
  }

  lemma UpdateSplits<E>(xs: seq<E>, i: nat, e: E)
    requires i < |xs|
    ensures xs[i := e] == xs[..i] + [e] + xs[i + 1..]
  {
  }

  lemma SessionToolsSplice(before: Dict<string, Session>, entry: (string, Session), after: Dict<string, Session>)
    ensures SessionTools(Values(before + [entry] + after)) ==
      SessionTools(Values(before)) + entry.1.tools + SessionTools(Values(after))
  {
    ValuesAppend(before + [entry], after);
    ValuesAppend(before, [entry]);
    assert Values(before + [entry] + after) == (Values(before) + [entry.1]) + Values(after);
    SessionToolsAppend(Values(before) + [entry.1], Values(after));
    SessionToolsAppend(Values(before), [entry.1]);
    SessionToolsSingle(entry.1);
  }

  lemma SessionToolsSingle(s: Session)
    ensures SessionTools([s]) == s.tools
  {
    assert [s][1..] == [];
  }

  lemma ValuesAppend<K, V>(a: Dict<K, V>, b: Dict<K, V>)
    ensures Values(a + b) == Values(a) + Values(b)
  {
  }

  /** A tool server's behaviour: what `session.call_tool(name, arguments)`
      returns, or the message of the exception it raises. */
  type ToolServer = (Session, string, Value) -> Result<ToolResult, string>

  /** Why a tool call produced no result. */
  datatype ToolError =
    | ToolNotFound(tool: string)     // the `ValueError` of `call_tool`
    | SessionMissing(server: string) // a `KeyError` on `sessions`; unreachable in a valid registry
    | ServerFailed(reason: string)   // the session's own exception, propagated as is

  /** `call_tool`: look the tool's owner up, then forward the same name and
      arguments to that owner's session. */
  function CallTool(reg: Registry, serve: ToolServer, tool: string, args: Value): (r: Result<ToolResult, ToolError>)
    ensures tool !in Keys(reg.toolToServer) ==> r == Err(ToolNotFound(tool))
    ensures Valid(reg) && tool in Keys(reg.toolToServer) ==>
      var server := Get(reg.toolToServer, tool).value;
      && server in Keys(reg.sessions)
      && var outcome := serve(Get(reg.sessions, server).value, tool, args);
         && (outcome.Ok? ==> r == Ok(outcome.value))
         && (outcome.Err? ==> r == Err(ServerFailed(outcome.error)))
  {
    match Get(reg.toolToServer, tool)
    case None => Err(ToolNotFound(tool))
    case Some(server) =>
      match Get(reg.sessions, server)
      case None => Err(SessionMissing(server))
      case Some(session) =>
        match serve(session, tool, args)
        case Ok(result) => Ok(result)
        case Err(reason) => Err(ServerFailed(reason))
  }

  /** A tool nobody owns fails the same way whatever the servers would do:
      no session is consulted. */
  lemma UnknownToolContactsNoServer(reg: Registry, serve1: ToolServer, serve2: ToolServer, tool: string, args: Value)
    requires tool !in Keys(reg.toolToServer)
    ensures CallTool(reg, serve1, tool, args) == CallTool(reg, serve2, tool, args) == Err(ToolNotFound(tool))
  {
  }

  /** What the tool-call log records: the call index, the tool, its
      arguments, and the result's content or the error. Timings are left out. */
  datatype AuditRecord = AuditRecord(index: int, tool: string, args: Value, outcome: Result<Value, ToolError>)

  datatype Executed = Executed(audit: AuditRecord, result: Result<ToolResult, ToolError>)

  /** `execute_tool` under its logging decorator: the result of `call_tool`
      is returned unchanged and an error is re-raised after being logged. */
  function ExecuteTool(reg: Registry, serve: ToolServer, index: int, tool: string, args: Value): (e: Executed)
    ensures e.result == CallTool(reg, serve, tool, args)
    ensures e.audit.index == index && e.audit.tool == tool && e.audit.args == args
    ensures e.result.Ok? <==> e.audit.outcome.Ok?
    ensures e.result.Ok? ==> e.audit.outcome.value == e.result.value.content
    ensures e.result.Err? ==> e.audit.outcome.error == e.result.error
  {
    var result := CallTool(reg, serve, tool, args);
    var outcome := match result
      case Ok(r) => Ok(r.content)
      case Err(err) => Err(err);
    Executed(AuditRecord(index, tool, args, outcome), result)
  }

  /** What a chat loop sees of `self.execute_tool(count, name, args)`: the
      result for a tool name and arguments. */
  type Executor = (string, Value) -> Result<ToolResult, ToolError>

  /** The executor of a client with registry `reg` whose servers behave as
      `serve`; the call index only labels the log record. */
  function Dispatch(reg: Registry, serve: ToolServer): (exec: Executor)
    ensures forall index: int, tool: string, args: Value ::
      exec(tool, args) == ExecuteTool(reg, serve, index, tool, args).result
  {
    (tool: string, args: Value) => CallTool(reg, serve, tool, args)
  }

  /** Of two registrations that both advertise tool `t`, the later one owns
      it; a tool only the earlier one advertises stays with the earlier. */
  lemma LaterRegistrationWins(reg: Registry, a: string, ta: seq<Tool>, b: string, tb: seq<Tool>, t: string)
    requires t in ToolNames(ta)
    ensures Get(AddServer(AddServer(reg, a, ta), b, tb).toolToServer, t)
         == if t in ToolNames(tb) then Some(b) else Some(a)
  {
  }

  /** Sessions keep registration order: a new server goes last, and
      registering a known name again leaves the order as it was. */
  lemma SessionOrder(reg: Registry, name: string, tools: seq<Tool>)
    ensures Keys(AddServer(reg, name, tools).sessions)
         == if name in Keys(reg.sessions) then Keys(reg.sessions) else Keys(reg.sessions) + [name]
  {
  }
}
