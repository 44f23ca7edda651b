/** The JSON-like values that flow through the client: configuration
    mappings, tool input schemas, tool arguments and tool result contents. */
module Json {
  import opened Dict

  datatype Value =
    | Null
    | Bool(b: bool)
    | Int(i: int)
    | Str(s: string)
    | Arr(items: seq<Value>)
    | Obj(members: Dict<string, Value>)
}

/** The tool-server protocol types the client consumes. */
module Mcp {
  import opened Wrappers
  import opened Json

  /** A tool as a server advertises it; the description may be missing. */
  datatype Tool = Tool(name: string, description: Option<string>, inputSchema: Value)

  /** What a server returns from a tool call; only `content` is read. */
  datatype ToolResult = ToolResult(content: Value)

  function ToolNames(tools: seq<Tool>): (names: seq<string>)
    ensures |names| == |tools|
    ensures forall i :: 0 <= i < |tools| ==> names[i] == tools[i].name
  {
    if tools == [] then [] else [tools[0].name] + ToolNames(tools[1..])
  }
}
