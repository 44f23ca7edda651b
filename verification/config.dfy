/** The server configuration schema and its normalisation from a parsed JSON
    mapping (`src/core/config.py`). */
module Config {
  import opened Wrappers
  import opened Dict
  import opened Json

  /** The two transports a server entry may name. */
  datatype TransportType = SSE | HTTP {
    /** The enum member's string value. */
    function Name(): string {
      match this
      case SSE => "sse"
      case HTTP => "http"
    }
  }

  const DefaultTransport: string := "sse"
  const DefaultUrl: string := ""
  const DefaultTimeout: int := 30

  /** One server entry after normalisation. The url, headers and timeout are
      copied from the input whatever their JSON type, as the dataclass does
      not check field types. */
  datatype ServerConfig = ServerConfig(
    name: string,
    url: Value,
    transport: TransportType,
    headers: Value,
    timeout: Value)

  datatype McpConfig = McpConfig(servers: seq<ServerConfig>)

  /** Why a configuration could not be produced. The first four are the
      `AttributeError`s `from_dict` raises on a value of the wrong type. */
  datatype ConfigError =
    | DataNotMapping
    | ServersNotMapping
    | EntryNotMapping(server: string)
    | TransportNotString(server: string)
    | FileNotFound(path: string)
    | InvalidJson(text: string)

  /** Lower-casing of one character. Only ASCII letters are mapped; see the
      README for why this decides the transport exactly as `str.lower` does. */
  function LowerChar(c: char): char {
    if 'A' <= c <= 'Z' then (c as int + 32) as char else c
  }

  function Lower(s: string): (r: string)
    ensures |r| == |s|
    ensures forall i :: 0 <= i < |s| ==> r[i] == LowerChar(s[i])
  {
    seq(|s|, i requires 0 <= i < |s| => LowerChar(s[i]))
  }

  /** An ASCII capital letter, the only characters `Lower` changes. */
  predicate IsUpper(c: char) {
    'A' <= c <= 'Z'
  }

  /** Lower-casing leaves no capital behind, and it changes a string exactly
      when the string holds a capital. */
  lemma LowerNoCapitals(s: string)
    ensures forall i :: 0 <= i < |s| ==> !IsUpper(Lower(s)[i])
    ensures Lower(s) == s <==> forall i :: 0 <= i < |s| ==> !IsUpper(s[i])
  {
    if Lower(s) == s {
      forall i | 0 <= i < |s| ensures !IsUpper(s[i]) {
        assert Lower(s)[i] == s[i];
      }
    }
  }

  /** Lower-casing twice is lower-casing once. */
  lemma LowerIdempotent(s: string)
    ensures Lower(Lower(s)) == Lower(s)
  {
    LowerNoCapitals(s);
    LowerNoCapitals(Lower(s));
  }

  /** Every transport's name is already in lower case. */
  lemma TransportNameLower(t: TransportType)
    ensures Lower(t.Name()) == t.Name()
  {
    LowerNoCapitals(t.Name());
  }

  /** `TransportType(s.lower())`, with every unknown name falling back to SSE
      instead of raising. */
  function ParseTransport(s: string): (t: TransportType)
    ensures t == HTTP <==> Lower(s) == HTTP.Name()
    ensures t == SSE <==> Lower(s) != HTTP.Name()
  {
    var lowered := Lower(s);
    if lowered == SSE.Name() then SSE
    else if lowered == HTTP.Name() then HTTP
    else SSE
  }

  /** Reading an enum member's own name gives the member back. */
  lemma TransportNameRoundTrip(t: TransportType)
    ensures ParseTransport(t.Name()) == t
  {
    assert Lower("http") == "http";
  }

  /** Names that differ only in letter case select the same transport. */
  lemma TransportCaseInsensitive(s: string, u: string)
    requires Lower(s) == Lower(u)
    ensures ParseTransport(s) == ParseTransport(u)
  {
  }

  /** The upper- and mixed-case spellings are recognised too. */
  lemma TransportUpperCase()
    ensures ParseTransport("SSE") == SSE
    ensures ParseTransport("HTTP") == HTTP
    ensures ParseTransport("Http") == HTTP
    ensures ParseTransport("invalid_transport") == SSE
  {
    assert Lower("HTTP") == "http";
    assert Lower("Http") == "http";
  }

  /** `actual` is the value stored under `key`, or `default` when the key is
      absent (`fields.get(key, default)`). */
  predicate CopiedOr(fields: Dict<string, Value>, key: string, default: Value, actual: Value) {
    match Get(fields, key)
    case Some(v) => actual == v
    case None => actual == default
  }

  /** The transport field is absent or a string, so `.lower()` succeeds. */
  predicate TransportReadable(fields: Dict<string, Value>) {
    Get(fields, "transport").None? || Get(fields, "transport").value.Str?
  }

  /** One iteration of the loop in `from_dict`: normalise the entry `name`. */
  function ParseEntry(name: string, entry: Value): (r: Result<ServerConfig, ConfigError>)
    ensures !entry.Obj? ==> r == Err(EntryNotMapping(name))
    ensures entry.Obj? && !TransportReadable(entry.members) ==> r == Err(TransportNotString(name))
    ensures r.Ok? <==> entry.Obj? && TransportReadable(entry.members)
    ensures r.Ok? ==>
      var fields := entry.members;
      && r.value.name == name
      && CopiedOr(fields, "url", Str(DefaultUrl), r.value.url)
      && CopiedOr(fields, "headers", Obj([]), r.value.headers)
      && CopiedOr(fields, "timeout", Int(DefaultTimeout), r.value.timeout)
      && (Get(fields, "transport").None? ==> r.value.transport == SSE)
      && (Get(fields, "transport").Some? ==>
            r.value.transport == ParseTransport(Get(fields, "transport").value.s))
  {
    if !entry.Obj? then Err(EntryNotMapping(name))
    else
      var fields := entry.members;
      match Get(fields, "transport").GetOr(Str(DefaultTransport))
      case Str(s) =>
        Ok(ServerConfig(
          name,
          Get(fields, "url").GetOr(Str(DefaultUrl)),
          ParseTransport(s),
          Get(fields, "headers").GetOr(Obj([])),
          Get(fields, "timeout").GetOr(Int(DefaultTimeout))))
      case _ => Err(TransportNotString(name))
  }

  function Names(servers: seq<ServerConfig>): (names: seq<string>)
    ensures |names| == |servers|
    ensures forall i :: 0 <= i < |servers| ==> names[i] == servers[i].name
  {
    if servers == [] then [] else [servers[0].name] + Names(servers[1..])
  }

  /** The loop over `mcp_servers.items()`: one server per entry, in order; the
      first entry that cannot be read aborts the whole parse. */
  function ParseEntries(entries: Dict<string, Value>): (r: Result<seq<ServerConfig>, ConfigError>)
    ensures r.Ok? <==> forall i :: 0 <= i < |entries| ==> ParseEntry(entries[i].0, entries[i].1).Ok?
    ensures r.Ok? ==> |r.value| == |entries|
    ensures r.Ok? ==> forall i :: 0 <= i < |entries| ==>
      r.value[i] == ParseEntry(entries[i].0, entries[i].1).value
    ensures r.Err? ==> exists i :: (0 <= i < |entries| && FirstBadEntry(entries, i) &&
                                    r.error == ParseEntry(entries[i].0, entries[i].1).error)
  {
    if entries == [] then Ok([])
    else
      var head := ParseEntry(entries[0].0, entries[0].1);
      if head.Err? then
        assert FirstBadEntry(entries, 0);
        Err(head.error)
      else
        var rest := ParseEntries(entries[1..]);
        if rest.Err? then
          var i :| 0 <= i < |entries[1..]| && FirstBadEntry(entries[1..], i) &&
            rest.error == ParseEntry(entries[1..][i].0, entries[1..][i].1).error;
          assert FirstBadEntry(entries, i + 1);
          Err(rest.error)
        else
          Ok([head.value] + rest.value)
  }

  /** Entry `i` is the first one `ParseEntry` rejects. */
  predicate FirstBadEntry(entries: Dict<string, Value>, i: int)
    requires 0 <= i < |entries|
  {
    && ParseEntry(entries[i].0, entries[i].1).Err?
    && forall j :: 0 <= j < i ==> ParseEntry(entries[j].0, entries[j].1).Ok?
  }

  /** `MCPConfig.from_dict`. */
  function FromDict(data: Value): (r: Result<McpConfig, ConfigError>)
    ensures !data.Obj? ==> r == Err(DataNotMapping)
    ensures data.Obj? && Get(data.members, "mcpServers").None? ==> r == Ok(McpConfig([]))
    ensures data.Obj? && Get(data.members, "mcpServers").Some? ==>
      var servers := Get(data.members, "mcpServers").value;
      && (!servers.Obj? ==> r == Err(ServersNotMapping))
      && (servers.Obj? ==>
            && (r.Ok? <==> forall i :: 0 <= i < |servers.members| ==>
                  ParseEntry(servers.members[i].0, servers.members[i].1).Ok?)
            && (r.Ok? ==> Names(r.value.servers) == Keys(servers.members)))
  {
    if !data.Obj? then Err(DataNotMapping)
    else
      match Get(data.members, "mcpServers").GetOr(Obj([]))
      case Obj(entries) =>
        var servers :- ParseEntries(entries);
        Ok(McpConfig(servers))
      case _ => Err(ServersNotMapping)
  }

  /** Every server `from_dict` produces is its entry, normalised: the name is
      the entry's key and each field is copied or defaulted. */
  lemma FromDictServers(data: Value, i: nat)
    requires data.Obj? && Get(data.members, "mcpServers").Some?
    requires Get(data.members, "mcpServers").value.Obj?
    requires FromDict(data).Ok?
    requires i < |FromDict(data).value.servers|
    ensures var entries := Get(data.members, "mcpServers").value.members;
      && i < |entries|
      && FromDict(data).value.servers[i] == ParseEntry(entries[i].0, entries[i].1).value
  {
  }

  /** An empty mapping, or one without "mcpServers", configures no server. */
  lemma EmptyConfig()
    ensures FromDict(Obj([])) == Ok(McpConfig([]))
    ensures FromDict(Obj([("mcpServers", Obj([]))])) == Ok(McpConfig([]))
  {
  }

  /** The parser a raw JSON text goes through (`json.loads`); it lies outside
      this model and is given as a parameter. */
  type JsonParser = string -> Result<Value, ConfigError>

  /** The file system as far as `from_file` sees it: a path's text, if the
      file exists. */
  type FileSystem = string -> Option<string>

  /** `MCPConfig.from_json`: parse, then normalise. */
  function FromJson(text: string, parse: JsonParser): Result<McpConfig, ConfigError> {
    var data :- parse(text);
    FromDict(data)
  }

  /** `MCPConfig.from_file`: a missing file is reported before anything is
      parsed. */
  function FromFile(path: string, files: FileSystem, parse: JsonParser): Result<McpConfig, ConfigError> {
    match files(path)
    case None => Err(FileNotFound(path))
    case Some(text) => FromJson(text, parse)
  }
}
