/** `BaseMCPClient.load_servers_from_config` (`src/mcps/clients/base.py`):
    choose a parser for the argument, then register the configured servers
    one after another. */
module Loader {
  import opened Wrappers
  import opened Dict
  import opened Json
  import opened Mcp
  import opened Config
  import opened ServerRegistry

  /** The four kinds of argument the method accepts. */
  datatype ConfigSource =
    | ConfigObject(config: McpConfig)   // an `MCPConfig`
    | Mapping(members: Dict<string, Value>) // a `dict`
    | PathArg(path: string)             // a `pathlib.Path`
    | Text(text: string)                // a `str`

  /** Which constructor of `MCPConfig` handles the argument. */
  datatype Parser = AsIs | ViaDict | ViaFile | ViaJson

  /** The characters Python's `str.strip()` removes (`str.isspace`). */
  predicate IsSpace(c: char) {
    || c == ' ' || '\t' <= c <= '\r' || '\U{1C}' <= c <= '\U{1F}'
    || c == '\U{85}' || c == '\U{A0}' || c == '\U{1680}'
    || '\U{2000}' <= c <= '\U{200A}' || c == '\U{2028}' || c == '\U{2029}'
    || c == '\U{202F}' || c == '\U{205F}' || c == '\U{3000}'
  }

  function TrimLeft(s: string): (r: string)
    ensures |r| <= |s|
  {
    if s != [] && IsSpace(s[0]) then TrimLeft(s[1..]) else s
  }

  function TrimRight(s: string): (r: string)
    ensures |r| <= |s|
  {
    if s != [] && IsSpace(s[|s| - 1]) then TrimRight(s[..|s| - 1]) else s
  }

  /** `s.strip()`. */
  function Strip(s: string): string {
    TrimRight(TrimLeft(s))
  }

  /** `s.strip().startswith("{")`: the text is taken for inline JSON. */
  predicate LooksLikeJson(s: string) {
    |Strip(s)| > 0 && Strip(s)[0] == '{'
  }

  /** The dispatch of `load_servers_from_config`, in its own order of tests. */
  function ChooseParser(src: ConfigSource): (p: Parser)
    ensures p == AsIs <==> src.ConfigObject?
    ensures p == ViaDict <==> src.Mapping?
    ensures p == ViaJson <==> src.Text? && LooksLikeJson(src.text)
    ensures p == ViaFile <==> src.PathArg? || (src.Text? && !LooksLikeJson(src.text))
  {
    match src
    case ConfigObject(_) => AsIs
    case Mapping(_) => ViaDict
    case PathArg(_) => ViaFile
    case Text(t) => if LooksLikeJson(t) then ViaJson else ViaFile
  }

  /** A string is taken for inline JSON exactly when its first character
      that is not white space is an opening brace. */
  lemma {:induction false} LooksLikeJsonIff(s: string)
    ensures LooksLikeJson(s) <==>
      exists i :: 0 <= i < |s| && s[i] == '{' && forall j :: 0 <= j < i ==> IsSpace(s[j])
  {
    var t := TrimLeft(s);
    TrimLeftShape(s);
    TrimRightKeepsHead(t);
    var k := |s| - |t|;
    if LooksLikeJson(s) {
      assert s[k] == t[0];
    }
    if exists i :: 0 <= i < |s| && s[i] == '{' && forall j :: 0 <= j < i ==> IsSpace(s[j]) {
      var i :| 0 <= i < |s| && s[i] == '{' && forall j :: 0 <= j < i ==> IsSpace(s[j]);
      assert k <= i;
      assert t != [];
      assert !IsSpace(s[k]);
      assert k == i;
    }
  }

  /** `TrimLeft` drops a run of white space and stops at the first other
      character. */
  lemma {:induction false} TrimLeftShape(s: string)
    ensures var t := TrimLeft(s);
      && t == s[|s| - |t|..]
      && (forall j :: 0 <= j < |s| - |t| ==> IsSpace(s[j]))
      && (t != [] ==> !IsSpace(t[0]))
  {
    if s != [] && IsSpace(s[0]) {
      TrimLeftShape(s[1..]);
    }
  }

  /** Trimming the right end of a string that starts with a character that
      is not white space keeps that character first. */
  lemma {:induction false} TrimRightKeepsHead(t: string)
    ensures t != [] && !IsSpace(t[0]) ==> TrimRight(t) != [] && TrimRight(t)[0] == t[0]
    ensures t == [] ==> TrimRight(t) == []
  {
    if t != [] && IsSpace(t[|t| - 1]) {
      TrimRightKeepsHead(t[..|t| - 1]);
    }
  }

  /** The `MCPConfig` the argument stands for, or the error that stopped it. */
  function ResolveConfig(src: ConfigSource, files: FileSystem, parse: JsonParser): Result<McpConfig, ConfigError> {
    match ChooseParser(src)
    case AsIs => Ok(src.config)
    case ViaDict => FromDict(Obj(src.members))
    case ViaFile => FromFile(if src.PathArg? then src.path else src.text, files, parse)
    case ViaJson => FromJson(src.text, parse)
  }

  /** Python truthiness of a JSON value. */
  predicate Truthy(v: Value) {
    match v
    case Null => false
    case Bool(b) => b
    case Int(i) => i != 0
    case Str(s) => s != ""
    case Arr(items) => items != []
    case Obj(members) => members != []
  }

  /** How far the transport side of `add_server` got with one server. An
      error stands for the message of the exception raised. */
  datatype Connection =
    | Refused(reason: string)                     // the transport, the session or `initialize` raised
    | Connected(listing: Result<seq<Tool>, string>) // the session is up; `list_tools` answered or raised

  /** Connecting to `url` with `headers`: the handshake, then the tool
      listing. */
  type Connector = (Value, Value) -> Connection

  /** The keyword arguments of one `add_server` call. */
  datatype AddServerCall = AddServerCall(name: string, url: Value, transport: TransportType, headers: Value)

  function CallFor(s: ServerConfig): AddServerCall {
    AddServerCall(s.name, s.url, s.transport, s.headers)
  }

  function CallsFor(servers: seq<ServerConfig>): (calls: seq<AddServerCall>)
    ensures |calls| == |servers|
    ensures forall i :: 0 <= i < |servers| ==> calls[i] == CallFor(servers[i])
  {
    if servers == [] then [] else [CallFor(servers[0])] + CallsFor(servers[1..])
  }

  datatype LoadError =
    | BadConfig(config: ConfigError)
    | ConnectFailed(server: string, reason: string)
    | ListToolsFailed(server: string, reason: string)

  /** What loading did: the `add_server` calls made, the registry afterwards,
      and whether an exception ended it. */
  datatype LoadRun = LoadRun(calls: seq<AddServerCall>, registry: Registry, outcome: Result<(), LoadError>)

  /** One `add_server` call's transport side, with `headers or {}`. */
  function Connect(connect: Connector, s: ServerConfig): Connection {
    connect(s.url, if Truthy(s.headers) then s.headers else Obj([]))
  }

  /** The call went through: connected and listed. */
  predicate Registers(c: Connection) {
    c.Connected? && c.listing.Ok?
  }

  /** The exception a call that did not go through propagates. */
  function Failure(name: string, c: Connection): LoadError
    requires !Registers(c)
  {
    match c
    case Refused(reason) => ConnectFailed(name, reason)
    case Connected(listing) => ListToolsFailed(name, listing.error)
  }

  /** The loop `for server in mcp_config.servers: await self.add_server(...)`.
      The first call that raises ends the loop; earlier registrations stay,
      and a server whose listing raised keeps the session already stored. */
  function AddServers(reg: Registry, servers: seq<ServerConfig>, connect: Connector): (run: LoadRun)
    ensures run.calls <= CallsFor(servers)
    ensures run.outcome.Ok? ==> |run.calls| == |servers|
    ensures Keys(reg.sessions) <= Keys(run.registry.sessions)
    ensures Keys(reg.toolToServer) <= Keys(run.registry.toolToServer)
    ensures Valid(reg) ==> Valid(run.registry)
    decreases |servers|
  {
    if servers == [] then LoadRun([], reg, Ok(()))
    else
      var s := servers[0];
      assert CallsFor(servers) == [CallFor(s)] + CallsFor(servers[1..]);
      match Connect(connect, s)
      case Refused(reason) => LoadRun([CallFor(s)], reg, Err(ConnectFailed(s.name, reason)))
      case Connected(Err(reason)) =>
        OpenSessionValid(reg, s.name);
        LoadRun([CallFor(s)], OpenSession(reg, s.name), Err(ListToolsFailed(s.name, reason)))
      case Connected(Ok(tools)) =>
        var next := AddServer(reg, s.name, tools);
        AddServerValidIf(reg, s.name, tools);
        var rest := AddServers(next, servers[1..], connect);
        LoadRun([CallFor(s)] + rest.calls, rest.registry, rest.outcome)
  }

  /** The calls and the outcome of the loading loop, read off the servers and
      the connector alone. */
  function Attempts(servers: seq<ServerConfig>, connect: Connector): (seq<AddServerCall>, Result<(), LoadError>)
    decreases |servers|
  {
    if servers == [] then ([], Ok(()))
    else
      var s := servers[0];
      var c := Connect(connect, s);
      if !Registers(c) then ([CallFor(s)], Err(Failure(s.name, c)))
      else
        var rest := Attempts(servers[1..], connect);
        ([CallFor(s)] + rest.0, rest.1)
  }

  /** The registry does not steer the loop: its calls and outcome are the
      ones `Attempts` reads off the servers. */
  lemma {:induction false} AddServersAttempts(reg: Registry, servers: seq<ServerConfig>, connect: Connector)
    ensures var run := AddServers(reg, servers, connect);
      (run.calls, run.outcome) == Attempts(servers, connect)
    decreases |servers|
  {
    if servers != [] && Registers(Connect(connect, servers[0])) {
      var s := servers[0];
      var next := AddServer(reg, s.name, Connect(connect, s).listing.value);
      var rest := AddServers(next, servers[1..], connect);
      assert AddServers(reg, servers, connect) == LoadRun([CallFor(s)] + rest.calls, rest.registry, rest.outcome);
      AddServersAttempts(next, servers[1..], connect);
    }
  }

  lemma {:induction false} AttemptsSucceed(servers: seq<ServerConfig>, connect: Connector)
    ensures Attempts(servers, connect).1.Ok? <==>
      forall i :: 0 <= i < |servers| ==> Registers(Connect(connect, servers[i]))
    decreases |servers|
  {
    if servers != [] && Registers(Connect(connect, servers[0])) {
      var tail := servers[1..];
      AttemptsSucceed(tail, connect);
      if Attempts(tail, connect).1.Ok? {
        forall i | 0 < i < |servers| ensures Registers(Connect(connect, servers[i])) {
          assert servers[i] == tail[i - 1];
        }
      } else {
        var j :| 0 <= j < |tail| && !Registers(Connect(connect, tail[j]));
        assert servers[j + 1] == tail[j];
      }
    }
  }

  lemma {:induction false} AttemptsFail(servers: seq<ServerConfig>, connect: Connector)
    ensures var (calls, outcome) := Attempts(servers, connect);
      outcome.Err? ==>
        && 0 < |calls| <= |servers|
        && var k := |calls| - 1;
        && !Registers(Connect(connect, servers[k]))
        && outcome.error == Failure(servers[k].name, Connect(connect, servers[k]))
        && forall i :: 0 <= i < k ==> Registers(Connect(connect, servers[i]))
    decreases |servers|
  {
    if servers != [] && Registers(Connect(connect, servers[0])) {
      var tail := servers[1..];
      AttemptsFail(tail, connect);
      var rest := Attempts(tail, connect);
      if rest.1.Err? {
        var k := |rest.0|;
        assert servers[k] == tail[k - 1];
        forall i | 0 < i < k ensures Registers(Connect(connect, servers[i])) {
          assert servers[i] == tail[i - 1];
        }
      }
    }
  }

  /** Loading finishes exactly when every server connects and lists its
      tools. */
  lemma AddServersSucceeds(reg: Registry, servers: seq<ServerConfig>, connect: Connector)
    ensures AddServers(reg, servers, connect).outcome.Ok? <==>
      forall i :: 0 <= i < |servers| ==> Registers(Connect(connect, servers[i]))
  {
    var run := AddServers(reg, servers, connect);
    AddServersAttempts(reg, servers, connect);
    assert run.outcome == Attempts(servers, connect).1;
    AttemptsSucceed(servers, connect);
  }

  /** A load that fails stops at the first server whose call raised: the
      last `add_server` call made is that server's, and its refusal or its
      listing failure is the error. */
  lemma AddServersFails(reg: Registry, servers: seq<ServerConfig>, connect: Connector)
    ensures var run := AddServers(reg, servers, connect);
      run.outcome.Err? ==>
        && 0 < |run.calls|
        && var k := |run.calls| - 1;
        && !Registers(Connect(connect, servers[k]))
        && run.outcome.error == Failure(servers[k].name, Connect(connect, servers[k]))
        && forall i :: 0 <= i < k ==> Registers(Connect(connect, servers[i]))
  {
    var run := AddServers(reg, servers, connect);
    var attempt := Attempts(servers, connect);
    AddServersAttempts(reg, servers, connect);
    assert run.calls == attempt.0 && run.outcome == attempt.1;
    AttemptsFail(servers, connect);
  }

  /** A server whose listing raised is left registered with a session that
      advertises no tools. */
  lemma {:induction false} FailedListingKeepsSession(reg: Registry, servers: seq<ServerConfig>, connect: Connector)
    ensures var run := AddServers(reg, servers, connect);
      run.outcome.Err? && run.outcome.error.ListToolsFailed? ==>
        var name := run.outcome.error.server;
        Get(run.registry.sessions, name) == Some(Session(name, []))
    decreases |servers|
  {
    if servers != [] && Registers(Connect(connect, servers[0])) {
      var s := servers[0];
      var next := AddServer(reg, s.name, Connect(connect, s).listing.value);
      FailedListingKeepsSession(next, servers[1..], connect);
    }
  }

  lemma AddServerValidIf(reg: Registry, name: string, tools: seq<Tool>)
    ensures Valid(reg) ==> Valid(AddServer(reg, name, tools))
  {
    if Valid(reg) {
      AddServerValid(reg, name, tools);
    }
  }

  /** When every configured server connects and lists its tools, each one
      ends up with a session (and, by `AddServersSucceeds`, the load
      completes). */
  lemma {:induction false} LoadedServersRegistered(reg: Registry, servers: seq<ServerConfig>, connect: Connector)
    requires forall i :: 0 <= i < |servers| ==> Registers(Connect(connect, servers[i]))
    ensures forall i :: 0 <= i < |servers| ==> servers[i].name in Keys(AddServers(reg, servers, connect).registry.sessions)
    decreases |servers|
  {
    if servers != [] {
      var s := servers[0];
      var run := AddServers(reg, servers, connect);
      assert Registers(Connect(connect, s));
      var next := AddServer(reg, s.name, Connect(connect, s).listing.value);
      var tail := servers[1..];
      var rest := AddServers(next, tail, connect);
      assert run == LoadRun([CallFor(s)] + rest.calls, rest.registry, rest.outcome);
      forall i | 0 <= i < |tail| ensures Registers(Connect(connect, tail[i])) {
        assert tail[i] == servers[i + 1];
      }
      LoadedServersRegistered(next, tail, connect);
      var keys := Keys(rest.registry.sessions);
      assert s.name in Keys(next.sessions);
      assert Keys(next.sessions) <= keys;
      forall i | 0 < i < |servers| ensures servers[i].name in keys {
        assert servers[i] == tail[i - 1];
      }
    }
  }

  /** `load_servers_from_config`: a configuration that does not resolve
      raises before any server is contacted; otherwise the servers are
      attempted in order as `Attempts` describes, the load completes exactly
      when every one of them connects and lists its tools, and then every
      one of them has a session. */
  function LoadServersFromConfig(reg: Registry, src: ConfigSource, files: FileSystem, parse: JsonParser, connect: Connector): (run: LoadRun)
    ensures ResolveConfig(src, files, parse).Err? ==>
      run == LoadRun([], reg, Err(BadConfig(ResolveConfig(src, files, parse).error)))
    ensures ResolveConfig(src, files, parse).Ok? ==>
      (run.calls, run.outcome) == Attempts(ResolveConfig(src, files, parse).value.servers, connect)
    ensures run.outcome.Ok? <==>
      && ResolveConfig(src, files, parse).Ok?
      && var servers := ResolveConfig(src, files, parse).value.servers;
         forall i :: 0 <= i < |servers| ==> Registers(Connect(connect, servers[i]))
    ensures run.outcome.Ok? ==>
      var servers := ResolveConfig(src, files, parse).value.servers;
      forall i :: 0 <= i < |servers| ==> servers[i].name in Keys(run.registry.sessions)
    ensures Valid(reg) ==> Valid(run.registry)
  {
    match ResolveConfig(src, files, parse)
    case Err(e) => LoadRun([], reg, Err(BadConfig(e)))
    case Ok(config) =>
      AddServersAttempts(reg, config.servers, connect);
      AddServersSucceeds(reg, config.servers, connect);
      if forall i :: 0 <= i < |config.servers| ==> Registers(Connect(connect, config.servers[i])) then
        LoadedServersRegistered(reg, config.servers, connect);
        AddServers(reg, config.servers, connect)
      else
        AddServers(reg, config.servers, connect)
  }
}
