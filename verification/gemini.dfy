/** `GeminiMCPClient` (`src/mcps/clients/gemini.py`): the conversion of MCP
    tools into one Gemini tool, and the `chat` override that reads only the
    first part of the first candidate of each response, so that at most one
    tool runs per response. The chat session is a finite script of
    responses. */
module GeminiClient {
  import opened Wrappers
  import opened Dict
  import opened Json
  import opened Mcp
  import opened ServerRegistry
  import React

  const DefaultModel: string := "gemini-2.5-flash"

  /** A `types.FunctionDeclaration`. */
  datatype FunctionDeclaration = FunctionDeclaration(name: string, description: Option<string>, parameters: Value)

  /** A `types.Tool` holding function declarations. */
  datatype GeminiTool = GeminiTool(functionDeclarations: seq<FunctionDeclaration>)

  function Declare(tool: Tool): FunctionDeclaration {
    FunctionDeclaration(tool.name, tool.description, tool.inputSchema)
  }

  /** `_convert_tools`: exactly one Gemini tool, declaring every MCP tool in
      order with its name, description (missing stays missing) and schema. */
  function ConvertTools(tools: seq<Tool>): (converted: seq<GeminiTool>)
    ensures |converted| == 1
    ensures |converted[0].functionDeclarations| == |tools|
    ensures forall i :: 0 <= i < |tools| ==>
      && converted[0].functionDeclarations[i].name == tools[i].name
      && converted[0].functionDeclarations[i].description == tools[i].description
      && converted[0].functionDeclarations[i].parameters == tools[i].inputSchema
  {
    [GeminiTool(seq(|tools|, i requires 0 <= i < |tools| => Declare(tools[i])))]
  }

  /** Reads an MCP tool back out of a declaration. */
  function Undeclare(declaration: FunctionDeclaration): Tool {
    Tool(declaration.name, declaration.description, declaration.parameters)
  }

  /** Unlike the OpenAI conversion, this one loses nothing: the tools can be
      read back from the declarations. */
  lemma ConvertToolsLossless(tools: seq<Tool>)
    ensures var declarations := ConvertTools(tools)[0].functionDeclarations;
      |declarations| == |tools| && forall i :: 0 <= i < |tools| ==> Undeclare(declarations[i]) == tools[i]
  {
  }

  /** So different tool lists convert differently. */
  lemma {:induction false} ConvertToolsInjective(a: seq<Tool>, b: seq<Tool>)
    requires ConvertTools(a) == ConvertTools(b)
    ensures a == b
  {
    var da := ConvertTools(a)[0].functionDeclarations;
    assert |a| == |da| == |b|;
    forall i | 0 <= i < |a| ensures a[i] == b[i] {
      assert Undeclare(da[i]) == a[i];
      assert Undeclare(ConvertTools(b)[0].functionDeclarations[i]) == b[i];
    }
  }

  /** `types.FunctionCall`: the name and the optional argument mapping. */
  datatype FunctionCall = FunctionCall(name: string, args: Option<Dict<string, Value>>)

  /** A `types.Part`; only its function call is read. */
  datatype Part = Part(functionCall: Option<FunctionCall>)

  /** A `types.Content`; `parts` may be `None`. */
  datatype Content = Content(parts: Option<seq<Part>>)

  /** A `types.Candidate`; `content` may be `None`. */
  datatype Candidate = Candidate(content: Option<Content>)

  /** A `GenerateContentResponse`: its candidates, possibly `None`, and the
      value of its `.text` property. */
  datatype Response = Response(candidates: Option<seq<Candidate>>, text: Option<string>)

  /** Why a chat raised. */
  datatype GeminiError =
    | NoCandidates            // `candidates` is `None` or empty
    | NoContent               // the first candidate's `content` is `None`
    | NoParts                 // its `parts` is `None` or empty
    | ArgsMissing(name: string) // `dict(None)` on a call without arguments
    | ToolFailed(error: ToolError)

  /** `response.candidates[0].content.parts[0].function_call`, with the
      errors its subscripts and attribute reads raise; nothing past the first
      part of the first candidate is looked at. */
  function FirstCall(response: Response): (r: Result<Option<FunctionCall>, GeminiError>)
    ensures r == Err(NoCandidates) <==> response.candidates.None? || response.candidates.value == []
    ensures r == Err(NoContent) <==>
      response.candidates.Some? && response.candidates.value != [] && response.candidates.value[0].content.None?
    ensures r.Ok? ==>
      && response.candidates.Some? && response.candidates.value != []
      && response.candidates.value[0].content.Some?
      && var parts := response.candidates.value[0].content.value.parts;
         parts.Some? && parts.value != [] && r.value == parts.value[0].functionCall
  {
    match response.candidates
    case None => Err(NoCandidates)
    case Some(candidates) =>
      if candidates == [] then Err(NoCandidates)
      else
        match candidates[0].content
        case None => Err(NoContent)
        case Some(content) =>
          match content.parts
          case None => Err(NoParts)
          case Some(parts) => if parts == [] then Err(NoParts) else Ok(parts[0].functionCall)
  }

  /** The `while` condition: the first part asks for a function. */
  predicate Continues(response: Response) {
    FirstCall(response).Ok? && FirstCall(response).value.Some?
  }

  /** The script is finite and its last response leaves the loop. */
  predicate EndsStopping(script: seq<Response>) {
    |script| > 0 && !Continues(script[|script| - 1])
  }

  /** The function call a continuing response asks for. */
  function TheCall(response: Response): FunctionCall
    requires Continues(response)
  {
    FirstCall(response).value.value
  }

  /** What a call yields on its own: `dict(fc.args)` handed to the owning
      server, or why not. */
  function StepOutcome(exec: Executor, call: FunctionCall): Result<ToolResult, GeminiError> {
    match call.args
    case None => Err(ArgsMissing(call.name))
    case Some(args) =>
      match exec(call.name, Obj(args))
      case Ok(result) => Ok(result)
      case Err(e) => Err(ToolFailed(e))
  }

  /** A response asks for a call, and that call succeeds. */
  predicate Succeeds(exec: Executor, response: Response) {
    Continues(response) && StepOutcome(exec, TheCall(response)).Ok?
  }

  /** What the chat session receives: the user's text, or a function
      response. */
  datatype Message =
    | UserText(text: string)
    | FunctionResponse(name: string, response: Value)

  /** `types.Part.from_function_response(name=fc.name, response={"result":
      result.content})`. */
  function Observation(name: string, result: ToolResult): (m: Message)
    ensures m.FunctionResponse? && m.name == name
    ensures m.response.Obj? && Get(m.response.members, "result") == Some(result.content)
    ensures |m.response.members| == 1
  {
    FunctionResponse(name, Obj([("result", result.content)]))
  }

  /** What the loop does, in order: open the chat session, send a message
      to it, or execute a tool. */
  datatype Event =
    | Open(model: string, tools: seq<GeminiTool>)
    | Send(message: Message)
    | Execute(index: nat, tool: string, args: Value)

  /** The events of a run and its result: `response.text`, or the error
      raised. */
  datatype Run = Run(events: seq<Event>, outcome: Result<Option<string>, GeminiError>)

  /** How a response that asks for no function ends the chat: its text, or
      the error reading its first part raised. */
  function Final(response: Response): (r: Result<Option<string>, GeminiError>)
    requires !Continues(response)
    ensures FirstCall(response).Ok? ==> r == Ok(response.text)
    ensures FirstCall(response).Err? ==> r == Err(FirstCall(response).error)
  {
    match FirstCall(response)
    case Err(e) => Err(e)
    case Ok(_) => Ok(response.text)
  }

  /** The `while` loop, entered with the latest response: while its first
      part asks for a function, count the call, run it and send its result
      back; then return the response's text. */
  function Rounds(exec: Executor, script: seq<Response>, count: nat): Run
    requires EndsStopping(script)
    decreases |script|
  {
    var response := script[0];
    if !Continues(response) then Run([], Final(response))
    else
      var call := TheCall(response);
      match call.args
      case None => Run([], Err(ArgsMissing(call.name)))
      case Some(args) =>
        var execute := Execute(count + 1, call.name, Obj(args));
        match exec(call.name, Obj(args))
        case Err(e) => Run([execute], Err(ToolFailed(e)))
        case Ok(result) =>
          var rest := Rounds(exec, script[1..], count + 1);
          Run([execute, Send(Observation(call.name, result))] + rest.events, rest.outcome)
  }

  /** `GeminiMCPClient.chat`: open a session offering the converted tools
      (even when there are none), send the user's text, then the rounds. */
  function Chat(reg: Registry, serve: ToolServer, userInput: string, requested: Option<string>,
                script: seq<Response>): Run
    requires EndsStopping(script)
  {
    var model := React.ResolveModel(requested, DefaultModel);
    var rest := Rounds(Dispatch(reg, serve), script, 0);
    Run([Open(model, ConvertTools(AllTools(reg))), Send(UserText(userInput))] + rest.events, rest.outcome)
  }

  /** How many responses run their call before the rounds end. */
  function Served(exec: Executor, script: seq<Response>): nat
    requires EndsStopping(script)
    decreases |script|
  {
    if !Succeeds(exec, script[0]) then 0 else 1 + Served(exec, script[1..])
  }

  /** The outcome of the rounds, read off the script alone. */
  function Outcome(exec: Executor, script: seq<Response>): Result<Option<string>, GeminiError>
    requires EndsStopping(script)
    decreases |script|
  {
    if !Continues(script[0]) then Final(script[0])
    else
      var step := StepOutcome(exec, TheCall(script[0]));
      if step.Err? then Err(step.error) else Outcome(exec, script[1..])
  }

  /** A response that asks for no function ends the rounds. */
  lemma RoundStop(exec: Executor, script: seq<Response>, count: nat)
    requires EndsStopping(script) && !Continues(script[0])
    ensures Rounds(exec, script, count) == Run([], Final(script[0]))
  {
  }

  /** A call that fails ends the rounds with its error, after its execution
      unless its arguments were missing. */
  lemma RoundFail(exec: Executor, script: seq<Response>, count: nat)
    requires EndsStopping(script) && Continues(script[0]) && !Succeeds(exec, script[0])
    ensures var call := TheCall(script[0]);
      Rounds(exec, script, count)
        == if call.args.None? then Run([], Err(ArgsMissing(call.name)))
           else Run([Execute(count + 1, call.name, Obj(call.args.value))], Err(StepOutcome(exec, call).error))
  {
  }

  /** A call that succeeds: its execution, its result sent back, and the
      rounds on the next response. */
  lemma RoundStep(exec: Executor, script: seq<Response>, count: nat)
    requires EndsStopping(script) && Succeeds(exec, script[0])
    ensures |script| > 1 && EndsStopping(script[1..])
    ensures var call := TheCall(script[0]);
      var rest := Rounds(exec, script[1..], count + 1);
      Rounds(exec, script, count)
        == Run([Execute(count + 1, call.name, Obj(call.args.value)),
                Send(Observation(call.name, StepOutcome(exec, call).value))] + rest.events,
               rest.outcome)
  {
  }

  /** The rounds end as the script alone says. */
  lemma {:induction false} RoundsOutcome(exec: Executor, script: seq<Response>, count: nat)
    requires EndsStopping(script)
    ensures Rounds(exec, script, count).outcome == Outcome(exec, script)
    decreases |script|
  {
    if !Continues(script[0]) {
      RoundStop(exec, script, count);
    } else if !Succeeds(exec, script[0]) {
      RoundFail(exec, script, count);
    } else {
      RoundStep(exec, script, count);
      RoundsOutcome(exec, script[1..], count + 1);
    }
  }

  /** Round `i` ran the call of response `i`: execution `count + i + 1`
      with the call's name and arguments, then the function response named
      after the call carrying its result. */
  predicate RoundAt(exec: Executor, script: seq<Response>, events: seq<Event>, count: nat, i: nat) {
    && i < |script| && Succeeds(exec, script[i]) && 2 * i + 1 < |events|
    && var call := TheCall(script[i]);
       && events[2 * i] == Execute(count + i + 1, call.name, Obj(call.args.value))
       && events[2 * i + 1] == Send(Observation(call.name, StepOutcome(exec, call).value))
  }

  /** After the served rounds the events hold at most the execution of the
      call that failed. */
  predicate TailAt(exec: Executor, script: seq<Response>, events: seq<Event>, count: nat, k: nat) {
    && k < |script| && !Succeeds(exec, script[k])
    && 2 * k <= |events| <= 2 * k + 1
    && (|events| == 2 * k + 1 <==> Continues(script[k]) && TheCall(script[k]).args.Some?)
    && (|events| == 2 * k + 1 ==>
          var call := TheCall(script[k]);
          events[2 * k] == Execute(count + k + 1, call.name, Obj(call.args.value)))
  }

  lemma RoundAtShift(exec: Executor, script: seq<Response>, events: seq<Event>, head: seq<Event>,
                     count: nat, i: nat)
    requires |script| > 1 && |head| == 2 && i > 0
    requires RoundAt(exec, script[1..], events, count + 1, i - 1)
    ensures RoundAt(exec, script, head + events, count, i)
  {
    assert script[i] == script[1..][i - 1];
    assert (head + events)[2 * i] == events[2 * (i - 1)];
    assert (head + events)[2 * i + 1] == events[2 * (i - 1) + 1];
  }

  lemma TailAtShift(exec: Executor, script: seq<Response>, events: seq<Event>, head: seq<Event>,
                    count: nat, k: nat)
    requires |script| > 1 && |head| == 2 && k > 0
    requires TailAt(exec, script[1..], events, count + 1, k - 1)
    ensures TailAt(exec, script, head + events, count, k)
  {
    assert script[k] == script[1..][k - 1];
    if |events| == 2 * (k - 1) + 1 {
      assert (head + events)[2 * k] == events[2 * (k - 1)];
    }
  }

  /** The events of the rounds, round by round: two per served response,
      then at most the execution of the call that failed. */
  lemma {:induction false} RoundsShape(exec: Executor, script: seq<Response>, count: nat)
    requires EndsStopping(script)
    ensures var events := Rounds(exec, script, count).events;
      var k := Served(exec, script);
      && (forall i :: 0 <= i < k ==> RoundAt(exec, script, events, count, i))
      && TailAt(exec, script, events, count, k)
    decreases |script|
  {
    if !Continues(script[0]) {
      RoundStop(exec, script, count);
    } else if !Succeeds(exec, script[0]) {
      RoundFail(exec, script, count);
    } else {
      RoundStep(exec, script, count);
      RoundsShape(exec, script[1..], count + 1);
      var call := TheCall(script[0]);
      var rest := Rounds(exec, script[1..], count + 1).events;
      var head := [Execute(count + 1, call.name, Obj(call.args.value)),
                   Send(Observation(call.name, StepOutcome(exec, call).value))];
      var events := Rounds(exec, script, count).events;
      assert events == head + rest;
      var k := Served(exec, script);
      assert k == 1 + Served(exec, script[1..]);
      forall i | 0 <= i < k ensures RoundAt(exec, script, events, count, i) {
        if i > 0 {
          assert RoundAt(exec, script[1..], rest, count + 1, i - 1);
          RoundAtShift(exec, script, rest, head, count, i);
        }
      }
      TailAtShift(exec, script, rest, head, count, k);
    }
  }

  /** Execution `j` of the rounds, counting from zero, sits at position
      `2 * j` and carries index `count + j + 1`; every other event is a
      function response. */
  predicate IndexedAt(events: seq<Event>, count: nat, p: nat)
    requires p < |events|
  {
    && (events[p].Execute? <==> p % 2 == 0)
    && (events[p].Execute? ==> events[p].index == count + p / 2 + 1)
    && (events[p].Send? ==> events[p].message.FunctionResponse?)
  }

  /** `execute_tool` receives `count + 1, count + 2, ...` without a gap,
      one call per response. */
  lemma RoundsIndices(exec: Executor, script: seq<Response>, count: nat)
    requires EndsStopping(script)
    ensures var events := Rounds(exec, script, count).events;
      forall p :: 0 <= p < |events| ==> IndexedAt(events, count, p)
  {
    var events := Rounds(exec, script, count).events;
    var k := Served(exec, script);
    RoundsShape(exec, script, count);
    forall p | 0 <= p < |events| ensures IndexedAt(events, count, p) {
      var i := p / 2;
      if i < k {
        assert RoundAt(exec, script, events, count, i);
      }
    }
  }

  /** Two responses look alike to the loop when the first part of their
      first candidate and their text agree; everything else in them may
      differ. */
  predicate Alike(r: Response, s: Response) {
    FirstCall(r) == FirstCall(s) && r.text == s.text
  }

  /** Only the first part of the first candidate (and the final text)
      matters: scripts that agree on those run alike, whatever further
      parts or candidates ask for. */
  lemma {:induction false} RoundsFirstPartOnly(exec: Executor, script: seq<Response>, other: seq<Response>, count: nat)
    requires EndsStopping(script)
    requires |other| == |script| && forall i :: 0 <= i < |script| ==> Alike(script[i], other[i])
    ensures EndsStopping(other)
    ensures Rounds(exec, script, count) == Rounds(exec, other, count)
    decreases |script|
  {
    assert Alike(script[|script| - 1], other[|script| - 1]);
    assert Alike(script[0], other[0]);
    if Succeeds(exec, script[0]) {
      RoundStep(exec, script, count);
      RoundStep(exec, other, count);
      assert forall i :: 0 <= i < |script[1..]| ==> script[1..][i] == script[i + 1] && other[1..][i] == other[i + 1];
      RoundsFirstPartOnly(exec, script[1..], other[1..], count + 1);
    }
  }

  /** The start of a chat: the session opens with the resolved model and
      the converted tools, and the user's text goes first. */
  lemma ChatStart(reg: Registry, serve: ToolServer, userInput: string, requested: Option<string>,
                  script: seq<Response>)
    requires EndsStopping(script)
    ensures var run := Chat(reg, serve, userInput, requested, script);
      var rest := Rounds(Dispatch(reg, serve), script, 0);
      && run.events[..2] == [Open(React.ResolveModel(requested, DefaultModel), ConvertTools(AllTools(reg))),
                             Send(UserText(userInput))]
      && run.events[2..] == rest.events
      && run.outcome == rest.outcome
  {
  }

  /** With no tools at all the session is still offered one tool, with no
      declarations. */
  lemma ChatWithoutTools(reg: Registry, serve: ToolServer, userInput: string, requested: Option<string>,
                         script: seq<Response>)
    requires EndsStopping(script) && AllTools(reg) == []
    ensures Chat(reg, serve, userInput, requested, script).events[0].tools == [GeminiTool([])]
  {
  }

  /** A chat whose first response asks for no function sends only the
      user's text and returns that response's text. */
  lemma ChatDirectAnswer(reg: Registry, serve: ToolServer, userInput: string, requested: Option<string>,
                         script: seq<Response>)
    requires EndsStopping(script) && !Continues(script[0])
    ensures Chat(reg, serve, userInput, requested, script)
         == Run([Open(React.ResolveModel(requested, DefaultModel), ConvertTools(AllTools(reg))), Send(UserText(userInput))],
                Final(script[0]))
  {
    RoundStop(Dispatch(reg, serve), script, 0);
  }

  /** Over a whole chat `execute_tool` receives `1, 2, ...` without a gap:
      the `j`-th execution, from zero, is event `2 * j + 2`. */
  lemma ChatIndices(reg: Registry, serve: ToolServer, userInput: string, requested: Option<string>,
                    script: seq<Response>)
    requires EndsStopping(script)
    ensures var rounds := Chat(reg, serve, userInput, requested, script).events[2..];
      forall p :: 0 <= p < |rounds| ==> IndexedAt(rounds, 0, p)
  {
    ChatStart(reg, serve, userInput, requested, script);
    RoundsIndices(Dispatch(reg, serve), script, 0);
  }

  /** Where the rounds stop and what they return: every response before the
      `k`-th ran its call; the `k`-th either asks for nothing, and its text
      (or the error reading it) is the outcome, or its call failed, and that
      failure is. */
  lemma {:induction false} OutcomeAtServed(exec: Executor, script: seq<Response>)
    requires EndsStopping(script)
    ensures var k := Served(exec, script);
      && k < |script| && !Succeeds(exec, script[k])
      && (forall i :: 0 <= i < k ==> Succeeds(exec, script[i]))
      && (!Continues(script[k]) ==> Outcome(exec, script) == Final(script[k]))
      && (Continues(script[k]) ==> Outcome(exec, script) == Err(StepOutcome(exec, TheCall(script[k])).error))
    decreases |script|
  {
    if Succeeds(exec, script[0]) {
      assert |script| > 1;
      var rest := script[1..];
      OutcomeAtServed(exec, rest);
      var k := Served(exec, script);
      assert k == 1 + Served(exec, rest);
      assert script[k] == rest[k - 1];
      forall i | 0 < i < k ensures Succeeds(exec, script[i]) {
        assert script[i] == rest[i - 1];
      }
    }
  }

  /** A chat sends two events, then two per response whose call ran, then
      at most the execution of the call that failed; it returns the text of
      the first response that asks for no function, or the error of the
      first call that failed or of the first response without a part to
      read. */
  lemma ChatOutcome(reg: Registry, serve: ToolServer, userInput: string, requested: Option<string>,
                    script: seq<Response>)
    requires EndsStopping(script)
    ensures var run := Chat(reg, serve, userInput, requested, script);
      var exec := Dispatch(reg, serve);
      var k := Served(exec, script);
      && k < |script| && !Succeeds(exec, script[k])
      && (forall i :: 0 <= i < k ==> Succeeds(exec, script[i]))
      && |run.events| == 2 + 2 * k + (if Continues(script[k]) && TheCall(script[k]).args.Some? then 1 else 0)
      && (!Continues(script[k]) ==> run.outcome == Final(script[k]))
      && (Continues(script[k]) ==> run.outcome == Err(StepOutcome(exec, TheCall(script[k])).error))
  {
    var exec := Dispatch(reg, serve);
    ChatStart(reg, serve, userInput, requested, script);
    RoundsOutcome(exec, script, 0);
    OutcomeAtServed(exec, script);
    RoundsShape(exec, script, 0);
    var k := Served(exec, script);
    assert TailAt(exec, script, Rounds(exec, script, 0).events, 0, k);
  }

  /** Round `i` of a chat executes call `i + 1`, the call of response `i`,
      and sends back a function response named after that call carrying its
      result. */
  lemma ChatRounds(reg: Registry, serve: ToolServer, userInput: string, requested: Option<string>,
                   script: seq<Response>)
    requires EndsStopping(script)
    ensures var rounds := Chat(reg, serve, userInput, requested, script).events[2..];
      var exec := Dispatch(reg, serve);
      forall i :: 0 <= i < Served(exec, script) ==> RoundAt(exec, script, rounds, 0, i)
  {
    ChatStart(reg, serve, userInput, requested, script);
    RoundsShape(Dispatch(reg, serve), script, 0);
  }
}
