/** `OpenAIMCPClient` (`src/mcps/clients/openai.py`): the conversion of MCP
    tools into chat-completion tool parameters, and the `chat` override that
    executes every tool call of a response before asking again. The
    completions API is a finite script of completions. */
module OpenAiClient {
  import opened Wrappers
  import opened Json
  import opened Mcp
  import opened ServerRegistry
  import React

  const DefaultModel: string := "gpt-4o"

  /** The `function` part of a `ChatCompletionToolParam`. */
  datatype FunctionSpec = FunctionSpec(name: string, description: string, parameters: Value)

  /** A `ChatCompletionToolParam`: `{"type": kind, "function": spec}`. */
  datatype ToolParam = ToolParam(kind: string, spec: FunctionSpec)

  function ConvertTool(tool: Tool): ToolParam {
    ToolParam("function", FunctionSpec(tool.name, tool.description.GetOr(""), tool.inputSchema))
  }

  /** `_convert_tools`: one tool parameter per MCP tool, in order, of type
      "function", with the name and schema copied and a missing description
      replaced by the empty string. */
  function ConvertTools(tools: seq<Tool>): (params: seq<ToolParam>)
    ensures |params| == |tools|
    ensures forall i :: 0 <= i < |tools| ==>
      && params[i].kind == "function"
      && params[i].spec.name == tools[i].name
      && params[i].spec.parameters == tools[i].inputSchema
      && (tools[i].description.Some? ==> params[i].spec.description == tools[i].description.value)
      && (tools[i].description.None? ==> params[i].spec.description == "")
  {
    seq(|tools|, i requires 0 <= i < |tools| => ConvertTool(tools[i]))
  }

  /** Reads an MCP tool back out of a tool parameter; an empty description
      reads as none. */
  function Recover(param: ToolParam): Tool {
    var description := param.spec.description;
    Tool(param.spec.name, if description == "" then None else Some(description), param.spec.parameters)
  }

  /** The conversion loses nothing but the difference between a missing and
      an empty description: every other tool is recovered exactly. */
  lemma ConvertToolsRecover(tools: seq<Tool>)
    ensures forall i :: 0 <= i < |tools| && tools[i].description != Some("") ==>
      Recover(ConvertTools(tools)[i]) == tools[i]
  {
  }

  /** The one loss: a missing and an empty description convert alike. */
  lemma ConvertToolConflates(name: string, schema: Value)
    ensures ConvertTool(Tool(name, None, schema)) == ConvertTool(Tool(name, Some(""), schema))
    ensures Tool(name, None, schema) != Tool(name, Some(""), schema)
  {
  }

  /** `tool_call.id`, `tool_call.function.name` and the unparsed
      `tool_call.function.arguments`. */
  datatype ToolCall = ToolCall(id: string, name: string, arguments: string)

  /** `choices[i].message`: its text and its tool calls, either possibly
      absent. */
  datatype Reply = Reply(content: Option<string>, toolCalls: Option<seq<ToolCall>>)

  /** A `ChatCompletion`, reduced to its choices. */
  datatype Completion = Completion(choices: seq<Reply>)

  /** The conversation: the user's input, the assistant messages as received,
      and one tool message per executed call. */
  datatype Message =
    | UserTurn(content: string)
    | AssistantTurn(reply: Reply)
    | ToolTurn(toolCallId: string, content: string)

  /** `json.loads` of a call's arguments, or the reason it raised. */
  type ArgParser = string -> Result<Value, string>

  /** `str(result.content)`. */
  type Render = Value -> string

  /** Why `chat` raised. */
  datatype OpenAiError =
    | NoChoices                  // `response.choices[0]` on an empty list
    | BadArguments(reason: string) // `json.loads` rejected the arguments
    | ToolFailed(error: ToolError) // `execute_tool` re-raised

  /** What the loop does, in order: a request to the completions API or a
      tool execution. */
  datatype Event =
    | Send(model: string, messages: seq<Message>, tools: Option<seq<ToolParam>>)
    | Execute(index: nat, tool: string, args: Value)

  datatype Run = Run(events: seq<Event>, outcome: Result<string, OpenAiError>)

  /** The walrus condition of the loop: the tool calls of the first choice,
      `None` counting as none. */
  function CallsOf(completion: Completion): Result<seq<ToolCall>, OpenAiError> {
    if completion.choices == [] then Err(NoChoices) else Ok(completion.choices[0].toolCalls.GetOr([]))
  }

  /** The loop runs another round exactly when the first choice asks for at
      least one tool. */
  predicate Continues(completion: Completion) {
    CallsOf(completion).Ok? && CallsOf(completion).value != []
  }

  /** The script is finite and its last completion leaves the loop. */
  predicate EndsStopping(script: seq<Completion>) {
    |script| > 0 && !Continues(script[|script| - 1])
  }

  /** What one call yields on its own: its parsed arguments sent to the
      owning server, or why not. */
  function CallOutcome(exec: Executor, parseArgs: ArgParser, call: ToolCall): Result<ToolResult, OpenAiError> {
    match parseArgs(call.arguments)
    case Err(reason) => Err(BadArguments(reason))
    case Ok(args) =>
      match exec(call.name, args)
      case Ok(result) => Ok(result)
      case Err(e) => Err(ToolFailed(e))
  }

  /** The calls of a batch all succeed. */
  predicate AllSucceed(exec: Executor, parseArgs: ArgParser, calls: seq<ToolCall>) {
    forall i :: 0 <= i < |calls| ==> CallOutcome(exec, parseArgs, calls[i]).Ok?
  }

  /** The tool message answering a call that succeeded: its id and its
      rendered result. */
  function Answer(exec: Executor, parseArgs: ArgParser, render: Render, call: ToolCall): Message
    requires CallOutcome(exec, parseArgs, call).Ok?
  {
    ToolTurn(call.id, render(CallOutcome(exec, parseArgs, call).value.content))
  }

  /** The calls a continuing completion asks for. */
  function Calls(completion: Completion): seq<ToolCall>
    requires Continues(completion)
  {
    completion.choices[0].toolCalls.value
  }

  /** `next` is `prev` grown by one round on `completion`, as lines 70-84
      grow it: `prev` unchanged, the assistant message, then one tool message
      per call, in call order, each carrying its call's id. */
  predicate GrownBy(exec: Executor, parseArgs: ArgParser, render: Render,
                    prev: seq<Message>, completion: Completion, next: seq<Message>)
    requires Continues(completion) && AllSucceed(exec, parseArgs, Calls(completion))
  {
    var calls := Calls(completion);
    && |next| == |prev| + 1 + |calls|
    && next[..|prev|] == prev
    && next[|prev|] == AssistantTurn(completion.choices[0])
    && forall j :: 0 <= j < |calls| ==> next[|prev| + 1 + j] == Answer(exec, parseArgs, render, calls[j])
  }

  /** What the inner `for` loop leaves: its executions, the tool messages it
      appended, and whether it raised. */
  datatype Batch = Batch(events: seq<Event>, turns: seq<Message>, outcome: Result<(), OpenAiError>)

  /** The inner `for tool_call in tool_calls` loop: per call, count it, parse
      its arguments, execute it and append its tool message. */
  function RunCalls(exec: Executor, parseArgs: ArgParser, render: Render, calls: seq<ToolCall>, count: nat): Batch
    decreases |calls|
  {
    if calls == [] then Batch([], [], Ok(()))
    else
      var call := calls[0];
      var index := count + 1;
      match parseArgs(call.arguments)
      case Err(reason) => Batch([], [], Err(BadArguments(reason)))
      case Ok(args) =>
        var execute := Execute(index, call.name, args);
        match exec(call.name, args)
        case Err(e) => Batch([execute], [], Err(ToolFailed(e)))
        case Ok(result) =>
          var rest := RunCalls(exec, parseArgs, render, calls[1..], index);
          Batch([execute] + rest.events, [ToolTurn(call.id, render(result.content))] + rest.turns, rest.outcome)
  }

  /** The i-th execution of a batch is its i-th call, numbered `count + i + 1`,
      with the arguments as parsed; executions stop at the first failure. */
  lemma {:induction false} BatchExecutions(exec: Executor, parseArgs: ArgParser, render: Render, calls: seq<ToolCall>, count: nat)
    ensures var b := RunCalls(exec, parseArgs, render, calls, count);
      && |b.events| <= |calls|
      && forall i :: 0 <= i < |b.events| ==>
           && parseArgs(calls[i].arguments).Ok?
           && b.events[i] == Execute(count + i + 1, calls[i].name, parseArgs(calls[i].arguments).value)
    decreases |calls|
  {
    if calls != [] && CallOutcome(exec, parseArgs, calls[0]).Ok? {
      BatchExecutions(exec, parseArgs, render, calls[1..], count + 1);
      var b := RunCalls(exec, parseArgs, render, calls, count);
      var rest := RunCalls(exec, parseArgs, render, calls[1..], count + 1);
      forall i | 0 < i < |b.events|
        ensures parseArgs(calls[i].arguments).Ok?
        ensures b.events[i] == Execute(count + i + 1, calls[i].name, parseArgs(calls[i].arguments).value)
      {
        assert b.events[i] == rest.events[i - 1];
        assert calls[i] == calls[1..][i - 1];
      }
    }
  }

  /** A batch completes exactly when all its calls succeed; it has then
      executed each of them and appended one tool message per call, in call
      order. */
  lemma {:induction false} BatchSucceeds(exec: Executor, parseArgs: ArgParser, render: Render, calls: seq<ToolCall>, count: nat)
    ensures var b := RunCalls(exec, parseArgs, render, calls, count);
      && (b.outcome.Ok? <==> AllSucceed(exec, parseArgs, calls))
      && (b.outcome.Ok? ==>
            && |b.events| == |calls|
            && |b.turns| == |calls|
            && forall i :: 0 <= i < |calls| ==> b.turns[i] == Answer(exec, parseArgs, render, calls[i]))
    decreases |calls|
  {
    if calls != [] && CallOutcome(exec, parseArgs, calls[0]).Ok? {
      BatchSucceeds(exec, parseArgs, render, calls[1..], count + 1);
      var b := RunCalls(exec, parseArgs, render, calls, count);
      var rest := RunCalls(exec, parseArgs, render, calls[1..], count + 1);
      assert forall i :: 0 < i < |calls| ==> calls[i] == calls[1..][i - 1];
      assert AllSucceed(exec, parseArgs, calls[1..]) <==> AllSucceed(exec, parseArgs, calls) by {
        if AllSucceed(exec, parseArgs, calls) {
          forall i | 0 <= i < |calls[1..]| ensures CallOutcome(exec, parseArgs, calls[1..][i]).Ok? {
            assert calls[1..][i] == calls[i + 1];
          }
        }
      }
      if b.outcome.Ok? {
        forall i | 0 < i < |calls| ensures b.turns[i] == Answer(exec, parseArgs, render, calls[i]) {
          assert b.turns[i] == rest.turns[i - 1];
        }
      }
    }
  }

  /** A batch whose call `n` is the first to fail raises that call's error;
      it has executed the calls before it, and call `n` too unless its
      arguments did not parse. */
  lemma {:induction false} BatchFails(exec: Executor, parseArgs: ArgParser, render: Render, calls: seq<ToolCall>, count: nat, n: nat)
    requires n < |calls| && CallOutcome(exec, parseArgs, calls[n]).Err?
    requires forall i :: 0 <= i < n ==> CallOutcome(exec, parseArgs, calls[i]).Ok?
    ensures var b := RunCalls(exec, parseArgs, render, calls, count);
      && b.outcome == Err(CallOutcome(exec, parseArgs, calls[n]).error)
      && |b.events| == if parseArgs(calls[n].arguments).Ok? then n + 1 else n
    decreases n
  {
    if n > 0 {
      assert calls[n] == calls[1..][n - 1];
      forall i | 0 <= i < n - 1 ensures CallOutcome(exec, parseArgs, calls[1..][i]).Ok? {
        assert calls[1..][i] == calls[i + 1];
      }
      BatchFails(exec, parseArgs, render, calls[1..], count + 1, n - 1);
    }
  }

  /** The first failing call of a batch that does not fully succeed. */
  function FirstFailing(exec: Executor, parseArgs: ArgParser, calls: seq<ToolCall>): (n: nat)
    requires !AllSucceed(exec, parseArgs, calls)
    ensures n < |calls| && CallOutcome(exec, parseArgs, calls[n]).Err?
    ensures forall i :: 0 <= i < n ==> CallOutcome(exec, parseArgs, calls[i]).Ok?
    decreases |calls|
  {
    if CallOutcome(exec, parseArgs, calls[0]).Err? then 0
    else
      assert !AllSucceed(exec, parseArgs, calls[1..]) by {
        var j :| 0 <= j < |calls| && CallOutcome(exec, parseArgs, calls[j]).Err?;
        assert calls[1..][j - 1] == calls[j];
      }
      var n := FirstFailing(exec, parseArgs, calls[1..]);
      assert forall i :: 0 < i <= n ==> calls[i] == calls[1..][i - 1];
      n + 1
  }

  /** `response.choices[0].message.content or ""`, raising on an empty
      choice list. */
  function FinalAnswer(completion: Completion): (r: Result<string, OpenAiError>)
    ensures completion.choices == [] ==> r == Err(NoChoices)
    ensures completion.choices != [] && completion.choices[0].content.Some? ==> r == Ok(completion.choices[0].content.value)
    ensures completion.choices != [] && completion.choices[0].content.None? ==> r == Ok("")
  {
    if completion.choices == [] then Err(NoChoices) else Ok(completion.choices[0].content.GetOr(""))
  }

  /** The `while` loop, entered with the latest completion: while it asks for
      tools, append its message, run every call, and ask again with the
      grown conversation; then return its answer. */
  function Rounds(exec: Executor, parseArgs: ArgParser, render: Render, model: string,
                  tools: Option<seq<ToolParam>>, script: seq<Completion>, messages: seq<Message>, count: nat): Run
    requires EndsStopping(script)
    decreases |script|
  {
    var completion := script[0];
    if !Continues(completion) then Run([], FinalAnswer(completion))
    else
      var calls := Calls(completion);
      var batch := RunCalls(exec, parseArgs, render, calls, count);
      match batch.outcome
      case Err(e) => Run(batch.events, Err(e))
      case Ok(_) =>
        var grown := messages + [AssistantTurn(completion.choices[0])] + batch.turns;
        var rest := Rounds(exec, parseArgs, render, model, tools, script[1..], grown, count + |calls|);
        Run(batch.events + [Send(model, grown, tools)] + rest.events, rest.outcome)
  }

  /** The tools `chat` offers: none when no server advertises any, and never
      an empty list, so `tools or None` changes nothing. */
  function Offered(reg: Registry): (offered: Option<seq<ToolParam>>)
    ensures offered.None? <==> AllTools(reg) == []
    ensures offered.Some? ==> offered.value == ConvertTools(AllTools(reg)) && offered.value != []
  {
    var mcpTools := AllTools(reg);
    if mcpTools == [] then None else Some(ConvertTools(mcpTools))
  }

  /** `OpenAIMCPClient.chat`: a single user message, one request, then the
      tool rounds. */
  function Chat(reg: Registry, serve: ToolServer, parseArgs: ArgParser, render: Render,
                userInput: string, requested: Option<string>, script: seq<Completion>): Run
    requires EndsStopping(script)
  {
    var model := React.ResolveModel(requested, DefaultModel);
    var messages := [UserTurn(userInput)];
    var rest := Rounds(Dispatch(reg, serve), parseArgs, render, model, Offered(reg), script, messages, 0);
    Run([Send(model, messages, Offered(reg))] + rest.events, rest.outcome)
  }

  /** How many completions ask for tools before the first that does not. */
  function Stop(script: seq<Completion>): (k: nat)
    requires EndsStopping(script)
    ensures k < |script| && !Continues(script[k])
    ensures forall i :: 0 <= i < k ==> Continues(script[i])
    decreases |script|
  {
    if !Continues(script[0]) then 0
    else
      var k := Stop(script[1..]);
      assert forall i :: 0 < i <= k ==> script[i] == script[1..][i - 1];
      1 + k
  }

  /** How many tool calls those completions ask for between them. */
  function CallTotal(script: seq<Completion>): nat
    requires EndsStopping(script)
    decreases |script|
  {
    if !Continues(script[0]) then 0 else |Calls(script[0])| + CallTotal(script[1..])
  }

  /** The call indices passed to `execute_tool`, in order. */
  function Indices(events: seq<Event>): seq<nat> {
    IndicesUpTo(events, |events|)
  }

  /** The call indices among the first `n` events. */
  function IndicesUpTo(events: seq<Event>, n: nat): seq<nat>
    requires n <= |events|
  {
    if n == 0 then []
    else IndicesUpTo(events, n - 1) + (if events[n - 1].Execute? then [events[n - 1].index] else [])
  }

  /** The conversations sent to the completions API, in order. */
  function Requests(events: seq<Event>): seq<seq<Message>> {
    RequestsUpTo(events, |events|)
  }

  /** The conversations sent among the first `n` events. */
  function RequestsUpTo(events: seq<Event>, n: nat): seq<seq<Message>>
    requires n <= |events|
  {
    if n == 0 then []
    else RequestsUpTo(events, n - 1) + (if events[n - 1].Send? then [events[n - 1].messages] else [])
  }

  /** Numbers counting up by one from `from`, without gaps. */
  predicate Consecutive(xs: seq<nat>, from: nat) {
    forall j :: 0 <= j < |xs| ==> xs[j] == from + j
  }

  /** The projections look only at the events they cover. */
  lemma {:induction false} UpToPrefix(a: seq<Event>, b: seq<Event>, n: nat)
    requires n <= |a| && n <= |b| && a[..n] == b[..n]
    ensures IndicesUpTo(a, n) == IndicesUpTo(b, n)
    ensures RequestsUpTo(a, n) == RequestsUpTo(b, n)
  {
    if n > 0 {
      assert a[n - 1] == a[..n][n - 1] == b[..n][n - 1] == b[n - 1];
      assert a[..n - 1] == a[..n][..n - 1] == b[..n][..n - 1] == b[..n - 1];
      UpToPrefix(a, b, n - 1);
    }
  }

  lemma {:induction false} UpToAppend(a: seq<Event>, b: seq<Event>, m: nat)
    requires m <= |b|
    ensures IndicesUpTo(a + b, |a| + m) == Indices(a) + IndicesUpTo(b, m)
    ensures RequestsUpTo(a + b, |a| + m) == Requests(a) + RequestsUpTo(b, m)
  {
    if m == 0 {
      assert (a + b)[..|a|] == a[..|a|];
      UpToPrefix(a + b, a, |a|);
    } else {
      var ab := a + b;
      var e := b[m - 1];
      assert ab[|a| + m - 1] == e;
      UpToAppend(a, b, m - 1);
      assert IndicesUpTo(ab, |a| + m) == IndicesUpTo(ab, |a| + m - 1) + (if e.Execute? then [e.index] else []);
      assert IndicesUpTo(b, m) == IndicesUpTo(b, m - 1) + (if e.Execute? then [e.index] else []);
      assert RequestsUpTo(ab, |a| + m) == RequestsUpTo(ab, |a| + m - 1) + (if e.Send? then [e.messages] else []);
      assert RequestsUpTo(b, m) == RequestsUpTo(b, m - 1) + (if e.Send? then [e.messages] else []);
    }
  }

  lemma IndicesAppend(a: seq<Event>, b: seq<Event>)
    ensures Indices(a + b) == Indices(a) + Indices(b)
  {
    UpToAppend(a, b, |b|);
  }

  lemma RequestsAppend(a: seq<Event>, b: seq<Event>)
    ensures Requests(a + b) == Requests(a) + Requests(b)
  {
    UpToAppend(a, b, |b|);
  }

  /** Executions numbered from `from` on contribute exactly those numbers,
      and no request. */
  lemma IndicesOfExecutions(events: seq<Event>, from: nat)
    requires forall i :: 0 <= i < |events| ==> events[i].Execute? && events[i].index == from + i
    ensures |Indices(events)| == |events| && Consecutive(Indices(events), from)
    ensures Requests(events) == []
  {
    ExecutionsUpTo(events, from, |events|);
  }

  lemma {:induction false} ExecutionsUpTo(events: seq<Event>, from: nat, n: nat)
    requires n <= |events|
    requires forall i :: 0 <= i < |events| ==> events[i].Execute? && events[i].index == from + i
    ensures |IndicesUpTo(events, n)| == n && Consecutive(IndicesUpTo(events, n), from)
    ensures RequestsUpTo(events, n) == []
  {
    if n > 0 {
      ExecutionsUpTo(events, from, n - 1);
    }
  }

  /** A completion that asks for no tool ends the rounds with its answer. */
  lemma RoundStop(exec: Executor, parseArgs: ArgParser, render: Render, model: string,
                  tools: Option<seq<ToolParam>>, script: seq<Completion>, messages: seq<Message>, count: nat)
    requires EndsStopping(script) && !Continues(script[0])
    ensures Rounds(exec, parseArgs, render, model, tools, script, messages, count) == Run([], FinalAnswer(script[0]))
  {
  }

  /** A round with a failing call ends the rounds with the first failing
      call's error, without a request. */
  lemma RoundFail(exec: Executor, parseArgs: ArgParser, render: Render, model: string,
                  tools: Option<seq<ToolParam>>, script: seq<Completion>, messages: seq<Message>, count: nat)
    requires EndsStopping(script) && Continues(script[0])
    requires !AllSucceed(exec, parseArgs, Calls(script[0]))
    ensures var run := Rounds(exec, parseArgs, render, model, tools, script, messages, count);
      var calls := Calls(script[0]);
      && run.outcome == Err(CallOutcome(exec, parseArgs, calls[FirstFailing(exec, parseArgs, calls)]).error)
      && Requests(run.events) == []
  {
    var calls := Calls(script[0]);
    RoundFailEvents(exec, parseArgs, render, model, tools, script, messages, count);
    BatchFails(exec, parseArgs, render, calls, count, FirstFailing(exec, parseArgs, calls));
  }

  /** The events of a round with a failing call: executions numbered on from
      `count`, and nothing else. */
  lemma RoundFailEvents(exec: Executor, parseArgs: ArgParser, render: Render, model: string,
                        tools: Option<seq<ToolParam>>, script: seq<Completion>, messages: seq<Message>, count: nat)
    requires EndsStopping(script) && Continues(script[0])
    requires !AllSucceed(exec, parseArgs, Calls(script[0]))
    ensures Rounds(exec, parseArgs, render, model, tools, script, messages, count).outcome.Err?
    ensures var events := Rounds(exec, parseArgs, render, model, tools, script, messages, count).events;
      && Requests(events) == []
      && Consecutive(Indices(events), count + 1)
      && forall i :: 0 <= i < |events| ==> events[i].Execute?
  {
    var calls := Calls(script[0]);
    BatchExecutions(exec, parseArgs, render, calls, count);
    BatchSucceeds(exec, parseArgs, render, calls, count);
    IndicesOfExecutions(RunCalls(exec, parseArgs, render, calls, count).events, count + 1);
  }

  /** The tool messages of a batch whose calls all succeed: one per call,
      in call order, each answering its call. */
  function Replies(exec: Executor, parseArgs: ArgParser, render: Render, calls: seq<ToolCall>): seq<Message>
    decreases |calls|
  {
    if calls == [] then []
    else
      match CallOutcome(exec, parseArgs, calls[0])
      case Err(_) => []
      case Ok(result) => [ToolTurn(calls[0].id, render(result.content))] + Replies(exec, parseArgs, render, calls[1..])
  }

  /** The replies to calls that all succeed answer them one by one, in call
      order. */
  lemma {:induction false} RepliesAnswer(exec: Executor, parseArgs: ArgParser, render: Render, calls: seq<ToolCall>)
    requires AllSucceed(exec, parseArgs, calls)
    ensures var turns := Replies(exec, parseArgs, render, calls);
      && |turns| == |calls|
      && forall i :: 0 <= i < |calls| ==> turns[i] == Answer(exec, parseArgs, render, calls[i])
    decreases |calls|
  {
    if calls != [] {
      forall i | 0 <= i < |calls[1..]| ensures CallOutcome(exec, parseArgs, calls[1..][i]).Ok? {
        assert calls[1..][i] == calls[i + 1];
      }
      RepliesAnswer(exec, parseArgs, render, calls[1..]);
      assert forall i :: 0 < i < |calls| ==> calls[i] == calls[1..][i - 1];
    }
  }

  /** The conversation after a successful round: the assistant message and
      the replies to its calls. */
  function Grown(exec: Executor, parseArgs: ArgParser, render: Render,
                 messages: seq<Message>, completion: Completion): seq<Message>
    requires Continues(completion)
  {
    messages + [AssistantTurn(completion.choices[0])] + Replies(exec, parseArgs, render, Calls(completion))
  }

  /** One round whose calls all succeed: its executions, a request carrying
      the conversation grown by the round, and the remaining rounds from
      there. */
  lemma RoundStep(exec: Executor, parseArgs: ArgParser, render: Render, model: string,
                  tools: Option<seq<ToolParam>>, script: seq<Completion>, messages: seq<Message>, count: nat)
    requires EndsStopping(script) && Continues(script[0])
    requires AllSucceed(exec, parseArgs, Calls(script[0]))
    ensures |script| > 1 && EndsStopping(script[1..])
    ensures var grown := Grown(exec, parseArgs, render, messages, script[0]);
      var batch := RunCalls(exec, parseArgs, render, Calls(script[0]), count).events;
      var run := Rounds(exec, parseArgs, render, model, tools, script, messages, count);
      var rest := Rounds(exec, parseArgs, render, model, tools, script[1..], grown, count + |Calls(script[0])|);
      run == Run(batch + [Send(model, grown, tools)] + rest.events, rest.outcome)
  {
    var calls := Calls(script[0]);
    BatchSucceeds(exec, parseArgs, render, calls, count);
    RepliesAnswer(exec, parseArgs, render, calls);
    var turns := RunCalls(exec, parseArgs, render, calls, count).turns;
    assert turns == Replies(exec, parseArgs, render, calls);
  }

  /** A successful round grows the conversation as lines 70-84 do. */
  lemma GrownIsGrowth(exec: Executor, parseArgs: ArgParser, render: Render, messages: seq<Message>, completion: Completion)
    requires Continues(completion) && AllSucceed(exec, parseArgs, Calls(completion))
    ensures GrownBy(exec, parseArgs, render, messages, completion, Grown(exec, parseArgs, render, messages, completion))
  {
    var calls := Calls(completion);
    var turns := Replies(exec, parseArgs, render, calls);
    var head := messages + [AssistantTurn(completion.choices[0])];
    var grown := head + turns;
    RepliesAnswer(exec, parseArgs, render, calls);
    assert grown[..|messages|] == head[..|messages|] == messages;
    forall j | 0 <= j < |calls| ensures grown[|messages| + 1 + j] == Answer(exec, parseArgs, render, calls[j]) {
      assert grown[|head| + j] == turns[j];
    }
  }

  /** A successful batch records one execution per call, numbered on from
      `count`. */
  lemma BatchRecords(exec: Executor, parseArgs: ArgParser, render: Render, calls: seq<ToolCall>, count: nat)
    requires AllSucceed(exec, parseArgs, calls)
    ensures var batch := RunCalls(exec, parseArgs, render, calls, count).events;
      && |Indices(batch)| == |calls|
      && Consecutive(Indices(batch), count + 1)
  {
    BatchExecutions(exec, parseArgs, render, calls, count);
    BatchSucceeds(exec, parseArgs, render, calls, count);
    IndicesOfExecutions(RunCalls(exec, parseArgs, render, calls, count).events, count + 1);
  }

  /** Joining a round's executions, its request and the rest of the events:
      the requests. */
  lemma JoinRequests(a: seq<Event>, send: Event, b: seq<Event>)
    requires send.Send? && Requests(a) == []
    ensures Requests(a + [send] + b) == [send.messages] + Requests(b)
  {
    RequestsAppend(a, [send]);
    RequestsAppend(a + [send], b);
    assert Requests([send]) == RequestsUpTo([send], 0) + [send.messages];
  }

  /** Joining a round's executions, its request and the rest of the events:
      the call indices. */
  lemma JoinIndices(a: seq<Event>, send: Event, b: seq<Event>, from: nat)
    requires send.Send? && Consecutive(Indices(a), from)
    ensures |Indices(a + [send] + b)| == |Indices(a)| + |Indices(b)|
    ensures Consecutive(Indices(b), from + |Indices(a)|) ==> Consecutive(Indices(a + [send] + b), from)
  {
    IndicesAppend(a, [send]);
    IndicesAppend(a + [send], b);
    assert Indices([send]) == IndicesUpTo([send], 0) + [];
  }

  /** A batch sends no request. */
  lemma BatchNoRequests(exec: Executor, parseArgs: ArgParser, render: Render, calls: seq<ToolCall>, count: nat)
    ensures Requests(RunCalls(exec, parseArgs, render, calls, count).events) == []
  {
    BatchExecutions(exec, parseArgs, render, calls, count);
    IndicesOfExecutions(RunCalls(exec, parseArgs, render, calls, count).events, count + 1);
  }


  /** What one successful round adds to the requests after it: the
      conversation it grew, and the outcome stays that of the rounds after
      it. */
  lemma RoundRequests(exec: Executor, parseArgs: ArgParser, render: Render, model: string,
                   tools: Option<seq<ToolParam>>, script: seq<Completion>, messages: seq<Message>, count: nat)
    requires EndsStopping(script) && Continues(script[0])
    requires AllSucceed(exec, parseArgs, Calls(script[0]))
    ensures |script| > 1 && EndsStopping(script[1..])
    ensures var grown := Grown(exec, parseArgs, render, messages, script[0]);
      var next := count + |Calls(script[0])|;
      var run := Rounds(exec, parseArgs, render, model, tools, script, messages, count);
      var rest := Rounds(exec, parseArgs, render, model, tools, script[1..], grown, next);
      && run.outcome == rest.outcome
      && Requests(run.events) == [grown] + Requests(rest.events)
  {    var grown := Grown(exec, parseArgs, render, messages, script[0]);
    var next := count + |Calls(script[0])|;
    var send := Send(model, grown, tools);
    RoundStep(exec, parseArgs, render, model, tools, script, messages, count);
    var run := Rounds(exec, parseArgs, render, model, tools, script, messages, count);
    var rest := Rounds(exec, parseArgs, render, model, tools, script[1..], grown, next);
    var batch := RunCalls(exec, parseArgs, render, Calls(script[0]), count).events;
    assert run.events == batch + [send] + rest.events;
    BatchNoRequests(exec, parseArgs, render, Calls(script[0]), count);
    JoinRequests(batch, send, rest.events);
  }

  /** What one successful round adds to the call indices after it: its
      calls, numbered on from `count`. */
  lemma RoundIndices(exec: Executor, parseArgs: ArgParser, render: Render, model: string,
                   tools: Option<seq<ToolParam>>, script: seq<Completion>, messages: seq<Message>, count: nat)
    requires EndsStopping(script) && Continues(script[0])
    requires AllSucceed(exec, parseArgs, Calls(script[0]))
    ensures |script| > 1 && EndsStopping(script[1..])
    ensures var grown := Grown(exec, parseArgs, render, messages, script[0]);
      var next := count + |Calls(script[0])|;
      var run := Rounds(exec, parseArgs, render, model, tools, script, messages, count);
      var rest := Rounds(exec, parseArgs, render, model, tools, script[1..], grown, next);
      && run.outcome == rest.outcome
      && |Indices(run.events)| == |Calls(script[0])| + |Indices(rest.events)|
      && (Consecutive(Indices(rest.events), next + 1) ==> Consecutive(Indices(run.events), count + 1))
  {    var grown := Grown(exec, parseArgs, render, messages, script[0]);
    var next := count + |Calls(script[0])|;
    var send := Send(model, grown, tools);
    RoundStep(exec, parseArgs, render, model, tools, script, messages, count);
    var run := Rounds(exec, parseArgs, render, model, tools, script, messages, count);
    var rest := Rounds(exec, parseArgs, render, model, tools, script[1..], grown, next);
    var batch := RunCalls(exec, parseArgs, render, Calls(script[0]), count).events;
    assert run.events == batch + [send] + rest.events;
    BatchRecords(exec, parseArgs, render, Calls(script[0]), count);
    JoinIndices(batch, send, rest.events, count + 1);
  }

  /** One successful round sends with the same model and tools as the
      rounds after it. */
  lemma RoundSends(exec: Executor, parseArgs: ArgParser, render: Render, model: string,
                   tools: Option<seq<ToolParam>>, script: seq<Completion>, messages: seq<Message>, count: nat)
    requires EndsStopping(script) && Continues(script[0])
    requires AllSucceed(exec, parseArgs, Calls(script[0]))
    ensures |script| > 1 && EndsStopping(script[1..])
    ensures var grown := Grown(exec, parseArgs, render, messages, script[0]);
      var next := count + |Calls(script[0])|;
      var run := Rounds(exec, parseArgs, render, model, tools, script, messages, count);
      var rest := Rounds(exec, parseArgs, render, model, tools, script[1..], grown, next);
      SendsWith(rest.events, model, tools) ==> SendsWith(run.events, model, tools)
  {    var grown := Grown(exec, parseArgs, render, messages, script[0]);
    var next := count + |Calls(script[0])|;
    var send := Send(model, grown, tools);
    RoundStep(exec, parseArgs, render, model, tools, script, messages, count);
    var run := Rounds(exec, parseArgs, render, model, tools, script, messages, count);
    var rest := Rounds(exec, parseArgs, render, model, tools, script[1..], grown, next);
    var batch := RunCalls(exec, parseArgs, render, Calls(script[0]), count).events;
    assert run.events == batch + [send] + rest.events;
    BatchExecutions(exec, parseArgs, render, Calls(script[0]), count);
    if SendsWith(rest.events, model, tools) {
      SendsWithJoin(batch, send, rest.events, model, tools);
    }
  }

  /** `Stop` counts from the second completion on after a continuing first. */
  lemma StopStep(script: seq<Completion>, n: nat)
    requires EndsStopping(script) && Continues(script[0])
    requires |script| > 1 && EndsStopping(script[1..]) && n < |script| - 1
    ensures Stop(script) == 1 + Stop(script[1..])
    ensures script[n + 1] == script[1..][n]
  {
  }

  /** Over all rounds the counter passes `count + 1, count + 2, ...` to
      `execute_tool` without a gap, and rounds that answer have executed
      every call they were asked for. */
  lemma {:induction false} RoundsIndices(exec: Executor, parseArgs: ArgParser, render: Render, model: string,
                                         tools: Option<seq<ToolParam>>, script: seq<Completion>, messages: seq<Message>, count: nat)
    requires EndsStopping(script)
    ensures var run := Rounds(exec, parseArgs, render, model, tools, script, messages, count);
      && Consecutive(Indices(run.events), count + 1)
      && (run.outcome.Ok? ==> |Indices(run.events)| == CallTotal(script))
    decreases |script|
  {
    if !Continues(script[0]) {
      RoundStop(exec, parseArgs, render, model, tools, script, messages, count);
    } else if !AllSucceed(exec, parseArgs, Calls(script[0])) {
      RoundFailEvents(exec, parseArgs, render, model, tools, script, messages, count);
    } else {
      var grown := Grown(exec, parseArgs, render, messages, script[0]);
      var next := count + |Calls(script[0])|;
      RoundIndices(exec, parseArgs, render, model, tools, script, messages, count);
      RoundsIndices(exec, parseArgs, render, model, tools, script[1..], grown, next);
      var run := Rounds(exec, parseArgs, render, model, tools, script, messages, count);
      var rest := Rounds(exec, parseArgs, render, model, tools, script[1..], grown, next);
      assert Consecutive(Indices(rest.events), next + 1);
      if run.outcome.Ok? {
        assert |Indices(rest.events)| == CallTotal(script[1..]);
        assert CallTotal(script) == |Calls(script[0])| + CallTotal(script[1..]);
      }
    }
  }

  /** Each request carries the conversation before it grown by one round
      whose calls all succeeded. */
  predicate RequestsFollow(exec: Executor, parseArgs: ArgParser, render: Render,
                           script: seq<Completion>, messages: seq<Message>, reqs: seq<seq<Message>>) {
    forall i :: 0 <= i < |reqs| ==> FollowsAt(exec, parseArgs, render, script, messages, reqs, i)
  }

  /** Request `i` carries the conversation before it grown by completion
      `i`, whose calls all succeeded. */
  predicate FollowsAt(exec: Executor, parseArgs: ArgParser, render: Render,
                      script: seq<Completion>, messages: seq<Message>, reqs: seq<seq<Message>>, i: nat)
    requires i < |reqs|
  {
    && i < |script| && Continues(script[i]) && AllSucceed(exec, parseArgs, Calls(script[i]))
    && reqs[i] == Grown(exec, parseArgs, render, Before(messages, reqs, i), script[i])
  }

  /** The conversation before request `i`: the initial one, or request
      `i - 1`'s. */
  function Before(messages: seq<Message>, reqs: seq<seq<Message>>, i: nat): seq<Message>
    requires i <= |reqs|
  {
    if i == 0 then messages else reqs[i - 1]
  }

  lemma {:induction false} RoundsRequests(exec: Executor, parseArgs: ArgParser, render: Render, model: string,
                                          tools: Option<seq<ToolParam>>, script: seq<Completion>, messages: seq<Message>, count: nat)
    requires EndsStopping(script)
    ensures RequestsFollow(exec, parseArgs, render, script, messages,
                           Requests(Rounds(exec, parseArgs, render, model, tools, script, messages, count).events))
    decreases |script|
  {
    if !Continues(script[0]) {
      RoundStop(exec, parseArgs, render, model, tools, script, messages, count);
    } else if !AllSucceed(exec, parseArgs, Calls(script[0])) {
      RoundFailEvents(exec, parseArgs, render, model, tools, script, messages, count);
    } else {
      var grown := Grown(exec, parseArgs, render, messages, script[0]);
      RoundRequests(exec, parseArgs, render, model, tools, script, messages, count);
      RoundsRequests(exec, parseArgs, render, model, tools, script[1..], grown, count + |Calls(script[0])|);
      FollowStep(exec, parseArgs, render, script, messages, grown,
                 Requests(Rounds(exec, parseArgs, render, model, tools, script, messages, count).events),
                 Requests(Rounds(exec, parseArgs, render, model, tools, script[1..], grown, count + |Calls(script[0])|).events));
    }
  }

  lemma FollowStep(exec: Executor, parseArgs: ArgParser, render: Render, script: seq<Completion>,
                   messages: seq<Message>, grown: seq<Message>, reqs: seq<seq<Message>>, later: seq<seq<Message>>)
    requires |script| > 1 && Continues(script[0]) && AllSucceed(exec, parseArgs, Calls(script[0]))
    requires grown == Grown(exec, parseArgs, render, messages, script[0])
    requires reqs == [grown] + later
    requires RequestsFollow(exec, parseArgs, render, script[1..], grown, later)
    ensures RequestsFollow(exec, parseArgs, render, script, messages, reqs)
  {
    forall i | 0 <= i < |reqs| ensures FollowsAt(exec, parseArgs, render, script, messages, reqs, i) {
      if i > 0 {
        assert FollowsAt(exec, parseArgs, render, script[1..], grown, later, i - 1);
        assert reqs[i] == later[i - 1];
        assert script[i] == script[1..][i - 1];
        assert Before(messages, reqs, i) == Before(grown, later, i - 1);
      }
    }
  }

  /** How many rounds run all their calls before the rounds end: the number
      of requests the loop sends after the first. */
  function Served(exec: Executor, parseArgs: ArgParser, script: seq<Completion>): nat
    requires EndsStopping(script)
    decreases |script|
  {
    if !Continues(script[0]) || !AllSucceed(exec, parseArgs, Calls(script[0])) then 0
    else 1 + Served(exec, parseArgs, script[1..])
  }

  /** The outcome of the rounds, read off the script alone: the answer of
      the first completion that asks for no tool, unless an earlier round
      has a failing call, whose first failure it reports. */
  function Outcome(exec: Executor, parseArgs: ArgParser, script: seq<Completion>): Result<string, OpenAiError>
    requires EndsStopping(script)
    decreases |script|
  {
    if !Continues(script[0]) then FinalAnswer(script[0])
    else
      var calls := Calls(script[0]);
      if !AllSucceed(exec, parseArgs, calls) then Err(CallOutcome(exec, parseArgs, calls[FirstFailing(exec, parseArgs, calls)]).error)
      else Outcome(exec, parseArgs, script[1..])
  }

  lemma {:induction false} RoundsOutcomeIs(exec: Executor, parseArgs: ArgParser, render: Render, model: string,
                                           tools: Option<seq<ToolParam>>, script: seq<Completion>, messages: seq<Message>, count: nat)
    requires EndsStopping(script)
    ensures Rounds(exec, parseArgs, render, model, tools, script, messages, count).outcome == Outcome(exec, parseArgs, script)
    decreases |script|
  {
    if !Continues(script[0]) {
      RoundStop(exec, parseArgs, render, model, tools, script, messages, count);
    } else if !AllSucceed(exec, parseArgs, Calls(script[0])) {
      RoundFail(exec, parseArgs, render, model, tools, script, messages, count);
    } else {
      var grown := Grown(exec, parseArgs, render, messages, script[0]);
      RoundRequests(exec, parseArgs, render, model, tools, script, messages, count);
      RoundsOutcomeIs(exec, parseArgs, render, model, tools, script[1..], grown, count + |Calls(script[0])|);
    }
  }

  lemma {:induction false} RoundsServed(exec: Executor, parseArgs: ArgParser, render: Render, model: string,
                                        tools: Option<seq<ToolParam>>, script: seq<Completion>, messages: seq<Message>, count: nat)
    requires EndsStopping(script)
    ensures |Requests(Rounds(exec, parseArgs, render, model, tools, script, messages, count).events)| == Served(exec, parseArgs, script)
    decreases |script|
  {
    if !Continues(script[0]) {
      RoundStop(exec, parseArgs, render, model, tools, script, messages, count);
    } else if !AllSucceed(exec, parseArgs, Calls(script[0])) {
      RoundFailEvents(exec, parseArgs, render, model, tools, script, messages, count);
    } else {
      var grown := Grown(exec, parseArgs, render, messages, script[0]);
      var next := count + |Calls(script[0])|;
      RoundRequests(exec, parseArgs, render, model, tools, script, messages, count);
      RoundsServed(exec, parseArgs, render, model, tools, script[1..], grown, next);
      var run := Rounds(exec, parseArgs, render, model, tools, script, messages, count);
      var rest := Rounds(exec, parseArgs, render, model, tools, script[1..], grown, next);
      assert Requests(run.events) == [grown] + Requests(rest.events);
      assert Served(exec, parseArgs, script) == 1 + Served(exec, parseArgs, script[1..]);
    }
  }

  /** Where the rounds stop and what they return: after the last served
      round comes either the answering completion or the first round with a
      failing call. */
  lemma {:induction false} OutcomeAtServed(exec: Executor, parseArgs: ArgParser, script: seq<Completion>)
    requires EndsStopping(script)
    ensures var n := Served(exec, parseArgs, script);
      && n <= Stop(script)
      && (n == Stop(script) ==> Outcome(exec, parseArgs, script) == FinalAnswer(script[n]))
      && (n < Stop(script) ==>
            && !AllSucceed(exec, parseArgs, Calls(script[n]))
            && var calls := Calls(script[n]);
               Outcome(exec, parseArgs, script) == Err(CallOutcome(exec, parseArgs, calls[FirstFailing(exec, parseArgs, calls)]).error))
    decreases |script|
  {
    if Continues(script[0]) && AllSucceed(exec, parseArgs, Calls(script[0])) {
      assert |script| > 1 && EndsStopping(script[1..]);
      OutcomeAtServed(exec, parseArgs, script[1..]);
      StopStep(script, Served(exec, parseArgs, script[1..]));
    }
  }

  /** The rounds end at the first completion that asks for no tool, with its
      answer, once a request has followed every earlier round; they end
      earlier only on a failing call, with the error of the first failing
      call of the first round no request followed. */
  lemma RoundsOutcome(exec: Executor, parseArgs: ArgParser, render: Render, model: string,
                      tools: Option<seq<ToolParam>>, script: seq<Completion>, messages: seq<Message>, count: nat)
    requires EndsStopping(script)
    ensures var run := Rounds(exec, parseArgs, render, model, tools, script, messages, count);
      var n := |Requests(run.events)|;
      && n <= Stop(script)
      && (n == Stop(script) ==> run.outcome == FinalAnswer(script[n]))
      && (n < Stop(script) ==>
            && !AllSucceed(exec, parseArgs, Calls(script[n]))
            && var calls := Calls(script[n]);
               run.outcome == Err(CallOutcome(exec, parseArgs, calls[FirstFailing(exec, parseArgs, calls)]).error))
  {
    RoundsOutcomeIs(exec, parseArgs, render, model, tools, script, messages, count);
    RoundsServed(exec, parseArgs, render, model, tools, script, messages, count);
    OutcomeAtServed(exec, parseArgs, script);
  }

  /** Every request in `events` names `model` and `tools`. */
  predicate SendsWith(events: seq<Event>, model: string, tools: Option<seq<ToolParam>>) {
    forall i :: 0 <= i < |events| && events[i].Send? ==> events[i].model == model && events[i].tools == tools
  }

  lemma SendsWithJoin(a: seq<Event>, send: Event, b: seq<Event>, model: string, tools: Option<seq<ToolParam>>)
    requires SendsWith(a, model, tools) && SendsWith(b, model, tools)
    requires send.Send? && send.model == model && send.tools == tools
    ensures SendsWith(a + [send] + b, model, tools)
  {
    var e := a + [send] + b;
    forall i | |a| < i < |e| ensures e[i] == b[i - |a| - 1] {
    }
  }

  /** Every request of the rounds names the same model and the same tool
      list. */
  lemma {:induction false} RoundsSendAlike(exec: Executor, parseArgs: ArgParser, render: Render, model: string,
                                           tools: Option<seq<ToolParam>>, script: seq<Completion>, messages: seq<Message>, count: nat)
    requires EndsStopping(script)
    ensures SendsWith(Rounds(exec, parseArgs, render, model, tools, script, messages, count).events, model, tools)
    decreases |script|
  {
    if !Continues(script[0]) {
      RoundStop(exec, parseArgs, render, model, tools, script, messages, count);
    } else if !AllSucceed(exec, parseArgs, Calls(script[0])) {
      RoundFailEvents(exec, parseArgs, render, model, tools, script, messages, count);
    } else {
      var grown := Grown(exec, parseArgs, render, messages, script[0]);
      RoundSends(exec, parseArgs, render, model, tools, script, messages, count);
      RoundsSendAlike(exec, parseArgs, render, model, tools, script[1..], grown, count + |Calls(script[0])|);
    }
  }

  /** A request in front of other events adds its conversation to the
      requests and no call index. */
  lemma LeadingSend(send: Event, events: seq<Event>)
    requires send.Send?
    ensures Requests([send] + events) == [send.messages] + Requests(events)
    ensures Indices([send] + events) == Indices(events)
  {
    RequestsAppend([send], events);
    IndicesAppend([send], events);
    assert Requests([send]) == RequestsUpTo([send], 0) + [send.messages];
    assert Indices([send]) == IndicesUpTo([send], 0) + [];
  }

  /** The first request of a chat, carrying `[{"role": "user", "content":
      user_input}]`, and the rounds after it. */
  lemma ChatStart(reg: Registry, serve: ToolServer, parseArgs: ArgParser, render: Render,
                  userInput: string, requested: Option<string>, script: seq<Completion>)
    requires EndsStopping(script)
    ensures var model := React.ResolveModel(requested, DefaultModel);
      var run := Chat(reg, serve, parseArgs, render, userInput, requested, script);
      var rest := Rounds(Dispatch(reg, serve), parseArgs, render, model, Offered(reg), script, [UserTurn(userInput)], 0);
      && run.outcome == rest.outcome
      && Requests(run.events) == [[UserTurn(userInput)]] + Requests(rest.events)
      && Indices(run.events) == Indices(rest.events)
      && (SendsWith(rest.events, model, Offered(reg)) ==> SendsWith(run.events, model, Offered(reg)))
  {
    var model := React.ResolveModel(requested, DefaultModel);
    var send := Send(model, [UserTurn(userInput)], Offered(reg));
    var rest := Rounds(Dispatch(reg, serve), parseArgs, render, model, Offered(reg), script, [UserTurn(userInput)], 0);
    var run := Chat(reg, serve, parseArgs, render, userInput, requested, script);
    assert run.events == [send] + rest.events;
    LeadingSend(send, rest.events);
    if SendsWith(rest.events, model, Offered(reg)) {
      assert [send] + rest.events == [] + [send] + rest.events;
      SendsWithJoin([], send, rest.events, model, Offered(reg));
    }
  }

  /** A chat whose first completion asks for no tool sends one request,
      executes nothing and returns that completion's answer. */
  lemma ChatDirectAnswer(reg: Registry, serve: ToolServer, parseArgs: ArgParser, render: Render,
                         userInput: string, requested: Option<string>, script: seq<Completion>)
    requires EndsStopping(script) && !Continues(script[0])
    ensures Chat(reg, serve, parseArgs, render, userInput, requested, script)
         == Run([Send(React.ResolveModel(requested, DefaultModel), [UserTurn(userInput)], Offered(reg))], FinalAnswer(script[0]))
  {
    var model := React.ResolveModel(requested, DefaultModel);
    RoundStop(Dispatch(reg, serve), parseArgs, render, model, Offered(reg), script, [UserTurn(userInput)], 0);
  }

  /** Over a whole chat `execute_tool` receives `1, 2, ...` without a gap;
      a chat that answers has executed every call its completions asked
      for. */
  lemma ChatIndices(reg: Registry, serve: ToolServer, parseArgs: ArgParser, render: Render,
                    userInput: string, requested: Option<string>, script: seq<Completion>)
    requires EndsStopping(script)
    ensures var run := Chat(reg, serve, parseArgs, render, userInput, requested, script);
      && Consecutive(Indices(run.events), 1)
      && (run.outcome.Ok? ==> |Indices(run.events)| == CallTotal(script))
  {
    var model := React.ResolveModel(requested, DefaultModel);
    ChatStart(reg, serve, parseArgs, render, userInput, requested, script);
    RoundsIndices(Dispatch(reg, serve), parseArgs, render, model, Offered(reg), script, [UserTurn(userInput)], 0);
  }

  /** Every request of a chat names the resolved model and the offered
      tools. */
  lemma ChatSendsAlike(reg: Registry, serve: ToolServer, parseArgs: ArgParser, render: Render,
                       userInput: string, requested: Option<string>, script: seq<Completion>)
    requires EndsStopping(script)
    ensures SendsWith(Chat(reg, serve, parseArgs, render, userInput, requested, script).events,
                      React.ResolveModel(requested, DefaultModel), Offered(reg))
  {
    var model := React.ResolveModel(requested, DefaultModel);
    ChatStart(reg, serve, parseArgs, render, userInput, requested, script);
    RoundsSendAlike(Dispatch(reg, serve), parseArgs, render, model, Offered(reg), script, [UserTurn(userInput)], 0);
  }

  /** The first request carries only the user's message; each later one
      carries the one before it grown by a round whose calls all
      succeeded. */
  lemma ChatRequests(reg: Registry, serve: ToolServer, parseArgs: ArgParser, render: Render,
                     userInput: string, requested: Option<string>, script: seq<Completion>)
    requires EndsStopping(script)
    ensures var reqs := Requests(Chat(reg, serve, parseArgs, render, userInput, requested, script).events);
      && |reqs| > 0 && reqs[0] == [UserTurn(userInput)]
      && RequestsFollow(Dispatch(reg, serve), parseArgs, render, script, reqs[0], reqs[1..])
  {
    var model := React.ResolveModel(requested, DefaultModel);
    var reqs := Requests(Chat(reg, serve, parseArgs, render, userInput, requested, script).events);
    var rest := Rounds(Dispatch(reg, serve), parseArgs, render, model, Offered(reg), script, [UserTurn(userInput)], 0);
    ChatStart(reg, serve, parseArgs, render, userInput, requested, script);
    RoundsRequests(Dispatch(reg, serve), parseArgs, render, model, Offered(reg), script, [UserTurn(userInput)], 0);
    assert reqs[1..] == Requests(rest.events);
  }

  /** Request `i + 1` is request `i` grown by a round on completion `i`
      whose calls all succeeded. */
  predicate GrowsAt(exec: Executor, parseArgs: ArgParser, render: Render,
                    script: seq<Completion>, reqs: seq<seq<Message>>, i: nat)
    requires i + 1 < |reqs|
  {
    && i < |script| && Continues(script[i]) && AllSucceed(exec, parseArgs, Calls(script[i]))
    && GrownBy(exec, parseArgs, render, reqs[i], script[i], reqs[i + 1])
  }

  /** Consecutive requests of a chat differ by one round as lines 70-84
      grow the conversation. */
  lemma ChatGrowth(reg: Registry, serve: ToolServer, parseArgs: ArgParser, render: Render,
                   userInput: string, requested: Option<string>, script: seq<Completion>)
    requires EndsStopping(script)
    ensures var reqs := Requests(Chat(reg, serve, parseArgs, render, userInput, requested, script).events);
      forall i :: 0 <= i < |reqs| - 1 ==> GrowsAt(Dispatch(reg, serve), parseArgs, render, script, reqs, i)
  {
    var exec := Dispatch(reg, serve);
    var reqs := Requests(Chat(reg, serve, parseArgs, render, userInput, requested, script).events);
    ChatRequests(reg, serve, parseArgs, render, userInput, requested, script);
    forall i | 0 <= i < |reqs| - 1 ensures GrowsAt(exec, parseArgs, render, script, reqs, i) {
      assert FollowsAt(exec, parseArgs, render, script, reqs[0], reqs[1..], i);
      assert reqs[1..][i] == reqs[i + 1];
      assert Before(reqs[0], reqs[1..], i) == reqs[i];
      GrownIsGrowth(exec, parseArgs, render, reqs[i], script[i]);
    }
  }

  /** A chat ends at the first completion that asks for no tool, with its
      answer, once every earlier round ran all its calls; otherwise it ends
      with the error of the first failing call of the first round that did
      not. */
  lemma ChatOutcome(reg: Registry, serve: ToolServer, parseArgs: ArgParser, render: Render,
                    userInput: string, requested: Option<string>, script: seq<Completion>)
    requires EndsStopping(script)
    ensures var run := Chat(reg, serve, parseArgs, render, userInput, requested, script);
      var exec := Dispatch(reg, serve);
      var n := |Requests(run.events)| - 1;
      && 0 <= n <= Stop(script)
      && (n == Stop(script) ==> run.outcome == FinalAnswer(script[n]))
      && (n < Stop(script) ==>
            && !AllSucceed(exec, parseArgs, Calls(script[n]))
            && var calls := Calls(script[n]);
               run.outcome == Err(CallOutcome(exec, parseArgs, calls[FirstFailing(exec, parseArgs, calls)]).error))
  {
    var model := React.ResolveModel(requested, DefaultModel);
    ChatStart(reg, serve, parseArgs, render, userInput, requested, script);
    RoundsOutcome(Dispatch(reg, serve), parseArgs, render, model, Offered(reg), script, [UserTurn(userInput)], 0);
  }
}
