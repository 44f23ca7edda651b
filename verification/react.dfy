/** The provider-neutral ReAct loop of `BaseMCPClient.chat`
    (`src/mcps/clients/base.py`). The model is a finite script of responses:
    the i-th request is answered by the i-th response. Every provider hook
    other than the request itself may raise, and nothing in `chat` catches
    what it raises. */
module React {
  import opened Wrappers
  import opened Json
  import opened Mcp
  import opened ServerRegistry

  /** A tool invocation parsed out of a model response. */
  datatype ToolCallInfo = ToolCallInfo(name: string, arguments: Value, callId: Option<string>)

  /** One parsed model turn; without a tool call it ends the loop. */
  datatype ReActStep = ReActStep(thought: Option<string>, toolCall: Option<ToolCallInfo>)

  /** The hooks a provider supplies, over its message type `M`, tool
      declaration type `T` and response type `R`. Each returns its result or
      the message of the exception it raised. `send` is not among them: the
      response script stands in for it. */
  datatype Adapter<!M, T, !R> = Adapter(
    defaultModel: string,
    convertTools: seq<Tool> -> Result<seq<T>, string>,
    initialMessages: string -> Result<seq<M>, string>,
    parse: R -> Result<ReActStep, string>,
    appendAssistant: (seq<M>, R) -> Result<seq<M>, string>,
    appendToolResult: (seq<M>, ToolCallInfo, ToolResult) -> Result<seq<M>, string>,
    finalText: R -> Result<string, string>)

  /** Why `chat` raised: a provider hook did, or `execute_tool` did. */
  datatype ChatError = HookFailed(reason: string) | ToolFailed(error: ToolError)

  /** What the loop did, in order: each request sent to the model and each
      tool execution with its call index. */
  datatype Event<M, T> =
    | Send(model: string, messages: seq<M>, tools: Option<seq<T>>)
    | Execute(index: nat, tool: string, args: Value)

  /** The conversation a request carried (empty for an execution). */
  function Sent<M, T>(e: Event<M, T>): seq<M> {
    if e.Send? then e.messages else []
  }

  /** The trace of a chat and its answer, or the error that ended it. */
  datatype ChatRun<M, T> = ChatRun(events: seq<Event<M, T>>, outcome: Result<string, ChatError>)

  /** `model or self.DEFAULT_MODEL`: an absent or empty name selects the
      default. */
  function ResolveModel(requested: Option<string>, default: string): (model: string)
    ensures requested.Some? && requested.value != "" ==> model == requested.value
    ensures requested.None? || requested.value == "" ==> model == default
  {
    match requested
    case Some(m) => if m != "" then m else default
    case None => default
  }

  /** A response that ends the loop: `_parse_response` raises on it, or it
      parses to a step without a tool call. */
  predicate Terminal<M, T, R>(a: Adapter<M, T, R>, response: R) {
    a.parse(response).Err? || a.parse(response).value.toolCall.None?
  }

  /** The script is finite and its last response ends the loop. */
  predicate EndsTerminal<M, T, R>(a: Adapter<M, T, R>, script: seq<R>) {
    |script| > 0 && Terminal(a, script[|script| - 1])
  }

  function CallOf<M, T, R>(a: Adapter<M, T, R>, response: R): ToolCallInfo
    requires !Terminal(a, response)
  {
    a.parse(response).value.toolCall.value
  }

  /** How a response that ends the loop ends the chat: the final text, or the
      error of the hook that raised on it. */
  function Answer<M, T, R>(a: Adapter<M, T, R>, response: R): (r: Result<string, ChatError>)
    requires Terminal(a, response)
    ensures r.Ok? <==> a.parse(response).Ok? && a.finalText(response).Ok?
    ensures r.Ok? ==> r.value == a.finalText(response).value
    ensures a.parse(response).Err? ==> r == Err(HookFailed(a.parse(response).error))
    ensures a.parse(response).Ok? && a.finalText(response).Err? ==> r == Err(HookFailed(a.finalText(response).error))
  {
    match a.parse(response)
    case Err(e) => Err(HookFailed(e))
    case Ok(_) =>
      match a.finalText(response)
      case Err(e) => Err(HookFailed(e))
      case Ok(text) => Ok(text)
  }

  /** How many responses ask for a tool before the first one that ends the
      loop. */
  function ToolSteps<M, T, R>(a: Adapter<M, T, R>, script: seq<R>): (k: nat)
    requires EndsTerminal(a, script)
    ensures k < |script| && Terminal(a, script[k])
    ensures forall i :: 0 <= i < k ==> !Terminal(a, script[i])
    decreases |script|
  {
    if Terminal(a, script[0]) then 0
    else
      var k := ToolSteps(a, script[1..]);
      assert forall i :: 0 < i <= k ==> script[i] == script[1..][i - 1];
      1 + k
  }

  /** The result the tool call a response asks for gets from `execute_tool`. */
  function ResultOf<M, T, R>(a: Adapter<M, T, R>, exec: Executor, response: R): Result<ToolResult, ToolError>
    requires !Terminal(a, response)
  {
    exec(CallOf(a, response).name, CallOf(a, response).arguments)
  }

  /** The `while True` loop, entered with the response to the latest request:
      parse it; without a tool call extract the answer; otherwise append the
      assistant turn, count the call, execute it, append its result and send
      again. Whatever a hook or the tool raises ends the chat. */
  function Loop<M, T, R>(a: Adapter<M, T, R>, exec: Executor, model: string, tools: Option<seq<T>>,
                         script: seq<R>, messages: seq<M>, count: nat): (run: ChatRun<M, T>)
    requires EndsTerminal(a, script)
    decreases |script|
  {
    var response := script[0];
    match a.parse(response)
    case Err(e) => ChatRun([], Err(HookFailed(e)))
    case Ok(step) =>
      match step.toolCall
      case None =>
        (match a.finalText(response)
         case Err(e) => ChatRun([], Err(HookFailed(e)))
         case Ok(text) => ChatRun([], Ok(text)))
      case Some(tc) =>
        match a.appendAssistant(messages, response)
        case Err(e) => ChatRun([], Err(HookFailed(e)))
        case Ok(assistant) =>
          var index := count + 1;
          var execute := Execute(index, tc.name, tc.arguments);
          match exec(tc.name, tc.arguments)
          case Err(e) => ChatRun([execute], Err(ToolFailed(e)))
          case Ok(result) =>
            match a.appendToolResult(assistant, tc, result)
            case Err(e) => ChatRun([execute], Err(HookFailed(e)))
            case Ok(next) =>
              var rest := Loop(a, exec, model, tools, script[1..], next, index);
              ChatRun([execute, Send(model, next, tools)] + rest.events, rest.outcome)
  }

  /** How one pass of the loop body ends for a response with a tool call, in
      the conversation `messages`. */
  datatype Turn<M> =
    | Proceed(next: seq<M>)                    // the conversation sent next
    | Stuck(executed: bool, error: ChatError)  // what was raised, and whether the tool ran first

  /** One pass, read off the hooks: `_append_assistant_message` may raise
      before anything runs; the tool, or `_append_tool_result` after it, may
      raise once the call has run. */
  function TurnOf<M, T, R>(a: Adapter<M, T, R>, exec: Executor, messages: seq<M>, response: R): Turn<M>
    requires !Terminal(a, response)
  {
    match a.appendAssistant(messages, response)
    case Err(e) => Stuck(false, HookFailed(e))
    case Ok(assistant) =>
      match ResultOf(a, exec, response)
      case Err(e) => Stuck(true, ToolFailed(e))
      case Ok(result) =>
        match a.appendToolResult(assistant, CallOf(a, response), result)
        case Err(e) => Stuck(true, HookFailed(e))
        case Ok(next) => Proceed(next)
  }

  /** The tool list `chat` offers the model, read once from the sessions:
      none at all when no server advertises a tool, or the error
      `_convert_tools` raised. */
  function OfferedTools<M, T, R>(a: Adapter<M, T, R>, reg: Registry): (offered: Result<Option<seq<T>>, string>)
    ensures offered == Ok(None) <==> AllTools(reg) == []
    ensures offered.Err? <==> AllTools(reg) != [] && a.convertTools(AllTools(reg)).Err?
    ensures offered.Err? ==> offered.error == a.convertTools(AllTools(reg)).error
    ensures offered.Ok? && offered.value.Some? ==> offered.value.value == a.convertTools(AllTools(reg)).value
  {
    var mcpTools := AllTools(reg);
    if mcpTools == [] then Ok(None)
    else
      match a.convertTools(mcpTools)
      case Err(e) => Err(e)
      case Ok(converted) => Ok(Some(converted))
  }

  /** `chat` got as far as its first request: the tools converted and the
      initial conversation was built. */
  predicate SetUp<M, T, R>(a: Adapter<M, T, R>, reg: Registry, userInput: string) {
    OfferedTools(a, reg).Ok? && a.initialMessages(userInput).Ok?
  }

  /** `BaseMCPClient.chat`: snapshot the tools, convert them (an empty list is
      passed as `None`), seed the conversation, send once and run the loop. */
  function Chat<M, T, R>(a: Adapter<M, T, R>, reg: Registry, serve: ToolServer, userInput: string,
                         requested: Option<string>, script: seq<R>): ChatRun<M, T>
    requires EndsTerminal(a, script)
  {
    var model := ResolveModel(requested, a.defaultModel);
    match OfferedTools(a, reg)
    case Err(e) => ChatRun([], Err(HookFailed(e)))
    case Ok(llmTools) =>
      match a.initialMessages(userInput)
      case Err(e) => ChatRun([], Err(HookFailed(e)))
      case Ok(messages) =>
        var rest := Loop(a, Dispatch(reg, serve), model, llmTools, script, messages, 0);
        ChatRun([Send(model, messages, llmTools)] + rest.events, rest.outcome)
  }

  /** One turn of the loop that goes through: an execution, a request
      carrying the extended conversation, and the rest of the loop. */
  lemma LoopStep<M, T, R>(a: Adapter<M, T, R>, exec: Executor, model: string,
                          tools: Option<seq<T>>, script: seq<R>, messages: seq<M>, count: nat)
    requires EndsTerminal(a, script)
    requires !Terminal(a, script[0]) && TurnOf(a, exec, messages, script[0]).Proceed?
    ensures |script| > 1 && EndsTerminal(a, script[1..])
    ensures var next := TurnOf(a, exec, messages, script[0]).next;
      var rest := Loop(a, exec, model, tools, script[1..], next, count + 1);
      Loop(a, exec, model, tools, script, messages, count) ==
        ChatRun([Execute(count + 1, CallOf(a, script[0]).name, CallOf(a, script[0]).arguments), Send(model, next, tools)]
                + rest.events, rest.outcome)
  {
  }

  /** A first response that ends the loop gives its answer and nothing else;
      a first turn that raises gives its error, after the execution when
      the tool ran, and sends nothing more. */
  lemma LoopStop<M, T, R>(a: Adapter<M, T, R>, exec: Executor, model: string,
                          tools: Option<seq<T>>, script: seq<R>, messages: seq<M>, count: nat)
    requires EndsTerminal(a, script)
    ensures var run := Loop(a, exec, model, tools, script, messages, count);
      && (Terminal(a, script[0]) ==> run == ChatRun([], Answer(a, script[0])))
      && (!Terminal(a, script[0]) && TurnOf(a, exec, messages, script[0]).Stuck? ==>
            var turn := TurnOf(a, exec, messages, script[0]);
            var execute := Execute(count + 1, CallOf(a, script[0]).name, CallOf(a, script[0]).arguments);
            run == ChatRun(if turn.executed then [execute] else [], Err(turn.error)))
  {
  }

  /** A loop that answers does so with the final text of the first response
      without a tool call, after two events per earlier response, whose calls
      all succeeded. */
  lemma {:induction false} LoopAnswers<M, T, R>(a: Adapter<M, T, R>, exec: Executor, model: string,
                                                tools: Option<seq<T>>, script: seq<R>, messages: seq<M>, count: nat)
    requires EndsTerminal(a, script)
    ensures var run := Loop(a, exec, model, tools, script, messages, count);
      var k := ToolSteps(a, script);
      run.outcome.Ok? ==>
        && |run.events| == 2 * k && run.outcome == Answer(a, script[k])
        && forall i :: 0 <= i < k ==> ResultOf(a, exec, script[i]).Ok?
    decreases |script|
  {
    if !Terminal(a, script[0]) && TurnOf(a, exec, messages, script[0]).Proceed? {
      var next := TurnOf(a, exec, messages, script[0]).next;
      LoopStep(a, exec, model, tools, script, messages, count);
      LoopAnswers(a, exec, model, tools, script[1..], next, count + 1);
      assert forall i :: 0 < i < |script| ==> script[i] == script[1..][i - 1];
    } else {
      LoopStop(a, exec, model, tools, script, messages, count);
    }
  }

  /** The conversation the `n`-th turn starts from: the initial one, or the
      one the previous request carried. */
  function Before<M, T>(messages: seq<M>, events: seq<Event<M, T>>, n: nat): seq<M>
    requires n == 0 || 2 * n - 1 < |events|
  {
    if n == 0 then messages else Sent(events[2 * n - 1])
  }

  /** A loop that fails ends in one of two places. Either the response that
      ends the loop could not be parsed or its text could not be extracted,
      or the turn after the last request raised: in its assistant-turn hook,
      before anything ran, or in the tool or the tool-result hook, right after
      its execution. The calls of all earlier turns succeeded. */
  lemma {:induction false} LoopFails<M, T, R>(a: Adapter<M, T, R>, exec: Executor, model: string,
                                              tools: Option<seq<T>>, script: seq<R>, messages: seq<M>, count: nat)
    requires EndsTerminal(a, script)
    ensures var run := Loop(a, exec, model, tools, script, messages, count);
      var k := ToolSteps(a, script);
      run.outcome.Err? ==>
        && var n := |run.events| / 2;
        && n <= k
        && (n == k ==> |run.events| == 2 * k && run.outcome == Answer(a, script[k]))
        && (n < k ==> TurnOf(a, exec, Before(messages, run.events, n), script[n])
                      == Stuck(|run.events| % 2 == 1, run.outcome.error))
        && forall i :: 0 <= i < n ==> ResultOf(a, exec, script[i]).Ok?
    decreases |script|
  {
    LoopStop(a, exec, model, tools, script, messages, count);
    if !Terminal(a, script[0]) && TurnOf(a, exec, messages, script[0]).Proceed? {
      var next := TurnOf(a, exec, messages, script[0]).next;
      LoopStep(a, exec, model, tools, script, messages, count);
      LoopFails(a, exec, model, tools, script[1..], next, count + 1);
      var run := Loop(a, exec, model, tools, script, messages, count);
      var rest := Loop(a, exec, model, tools, script[1..], next, count + 1);
      if run.outcome.Err? {
        var m := |rest.events| / 2;
        var execute := Execute(count + 1, CallOf(a, script[0]).name, CallOf(a, script[0]).arguments);
        TurnShift(messages, execute, model, next, tools, rest.events, m);
        var n := |run.events| / 2;
        assert n == m + 1 && |run.events| % 2 == |rest.events| % 2 && run.outcome == rest.outcome;
        assert ToolSteps(a, script) == 1 + ToolSteps(a, script[1..]);
        assert script[n] == script[1..][m];
        if n < ToolSteps(a, script) {
          assert TurnOf(a, exec, Before(messages, run.events, n), script[n])
              == TurnOf(a, exec, Before(next, rest.events, m), script[1..][m]);
        }
        assert forall i :: 0 < i < |script| ==> script[i] == script[1..][i - 1];
      }
    }
  }

  /** A turn that goes through shifts the rest of the loop's events by two:
      the counts and parities line up and the `m`-th later turn is the
      `m + 1`-th overall. */
  lemma TurnShift<M, T>(messages: seq<M>, first: Event<M, T>, model: string, next: seq<M>, tools: Option<seq<T>>,
                        events: seq<Event<M, T>>, m: nat)
    requires 2 * m <= |events|
    ensures (2 + |events|) / 2 == |events| / 2 + 1 && (2 + |events|) % 2 == |events| % 2
    ensures Before(messages, [first, Send(model, next, tools)] + events, m + 1) == Before(next, events, m)
  {
    if m > 0 {
      assert ([first, Send(model, next, tools)] + events)[2 * m + 1] == events[2 * m - 1];
    }
  }

  /** The i-th execution passes call index `count + i + 1` and the i-th
      response's tool name and arguments. */
  lemma {:induction false} LoopExecutions<M, T, R>(a: Adapter<M, T, R>, exec: Executor, model: string,
                                                   tools: Option<seq<T>>, script: seq<R>, messages: seq<M>, count: nat)
    requires EndsTerminal(a, script)
    ensures var events := Loop(a, exec, model, tools, script, messages, count).events;
      forall i :: 0 <= i && 2 * i < |events| ==>
        && i < |script| && !Terminal(a, script[i])
        && events[2 * i] == Execute(count + i + 1, CallOf(a, script[i]).name, CallOf(a, script[i]).arguments)
    decreases |script|
  {
    LoopStop(a, exec, model, tools, script, messages, count);
    if !Terminal(a, script[0]) && TurnOf(a, exec, messages, script[0]).Proceed? {
      var next := TurnOf(a, exec, messages, script[0]).next;
      LoopStep(a, exec, model, tools, script, messages, count);
      LoopExecutions(a, exec, model, tools, script[1..], next, count + 1);
      var events := Loop(a, exec, model, tools, script, messages, count).events;
      var rest := Loop(a, exec, model, tools, script[1..], next, count + 1).events;
      forall i | 0 < i && 2 * i < |events|
        ensures i < |script| && !Terminal(a, script[i])
        ensures events[2 * i] == Execute(count + i + 1, CallOf(a, script[i]).name, CallOf(a, script[i]).arguments)
      {
        assert events[2 * i] == rest[2 * (i - 1)];
        assert script[i] == script[1..][i - 1];
      }
    }
  }

  /** Request `sent` carries the conversation `before` with the assistant
      turn for `response` appended first and its call's result after it. */
  ghost predicate Extends<M, T, R>(a: Adapter<M, T, R>, exec: Executor, model: string, tools: Option<seq<T>>,
                                   before: seq<M>, response: R, sent: Event<M, T>) {
    && !Terminal(a, response)
    && a.appendAssistant(before, response).Ok?
    && ResultOf(a, exec, response).Ok?
    && var grown := a.appendToolResult(a.appendAssistant(before, response).value, CallOf(a, response),
                                       ResultOf(a, exec, response).value);
    && grown.Ok?
    && sent == Send(model, grown.value, tools)
  }

  /** The request after the i-th execution extends the conversation the
      i-th turn started from. */
  ghost predicate SendsAt<M, T, R>(a: Adapter<M, T, R>, exec: Executor, model: string, tools: Option<seq<T>>,
                                   script: seq<R>, messages: seq<M>, events: seq<Event<M, T>>, i: nat) {
    && 2 * i + 1 < |events|
    && i < |script|
    && Extends(a, exec, model, tools, Before(messages, events, i), script[i], events[2 * i + 1])
  }

  /** Every request the loop sends is the previous conversation grown by
      one assistant turn and one tool result. */
  lemma {:induction false} LoopMessages<M, T, R>(a: Adapter<M, T, R>, exec: Executor, model: string,
                                                 tools: Option<seq<T>>, script: seq<R>, messages: seq<M>, count: nat)
    requires EndsTerminal(a, script)
    ensures var events := Loop(a, exec, model, tools, script, messages, count).events;
      forall i :: 0 <= i && 2 * i + 1 < |events| ==> SendsAt(a, exec, model, tools, script, messages, events, i)
    decreases |script|
  {
    LoopStop(a, exec, model, tools, script, messages, count);
    if !Terminal(a, script[0]) && TurnOf(a, exec, messages, script[0]).Proceed? {
      var next := TurnOf(a, exec, messages, script[0]).next;
      LoopStep(a, exec, model, tools, script, messages, count);
      LoopMessages(a, exec, model, tools, script[1..], next, count + 1);
      var events := Loop(a, exec, model, tools, script, messages, count).events;
      var rest := Loop(a, exec, model, tools, script[1..], next, count + 1).events;
      assert events[1] == Send(model, next, tools);
      assert SendsAt(a, exec, model, tools, script, messages, events, 0);
      forall i | 0 < i && 2 * i + 1 < |events|
        ensures SendsAt(a, exec, model, tools, script, messages, events, i)
      {
        var j := i - 1;
        assert SendsAt(a, exec, model, tools, script[1..], next, rest, j);
        assert events[2 * i + 1] == rest[2 * j + 1];
        assert script[i] == script[1..][j];
        assert events[2 * i - 1] == if j == 0 then Send(model, next, tools) else rest[2 * j - 1];
      }
    }
  }

  /** A chat whose tool conversion or initial conversation raises sends
      nothing and reports that hook's error. */
  lemma ChatSetupFails<M, T, R>(a: Adapter<M, T, R>, reg: Registry, serve: ToolServer, userInput: string,
                                requested: Option<string>, script: seq<R>)
    requires EndsTerminal(a, script)
    ensures var run := Chat(a, reg, serve, userInput, requested, script);
      && (OfferedTools(a, reg).Err? ==> run == ChatRun([], Err(HookFailed(OfferedTools(a, reg).error))))
      && (OfferedTools(a, reg).Ok? && a.initialMessages(userInput).Err? ==>
            run == ChatRun([], Err(HookFailed(a.initialMessages(userInput).error))))
  {
  }

  /** A first response that ends the loop is answered at once: one request,
      no execution. */
  lemma ChatDirectAnswer<M, T, R>(a: Adapter<M, T, R>, reg: Registry, serve: ToolServer, userInput: string,
                                  requested: Option<string>, script: seq<R>)
    requires EndsTerminal(a, script)
    requires Terminal(a, script[0])
    ensures var run := Chat(a, reg, serve, userInput, requested, script);
      SetUp(a, reg, userInput) ==>
        && run.events == [Send(ResolveModel(requested, a.defaultModel), a.initialMessages(userInput).value,
                               OfferedTools(a, reg).value)]
        && run.outcome == Answer(a, script[0])
  {
  }

  /** Once set up, a chat is its first request followed by the loop. */
  lemma ChatStart<M, T, R>(a: Adapter<M, T, R>, reg: Registry, serve: ToolServer, userInput: string,
                           requested: Option<string>, script: seq<R>)
    requires EndsTerminal(a, script)
    requires SetUp(a, reg, userInput)
    ensures var model := ResolveModel(requested, a.defaultModel);
      var tools := OfferedTools(a, reg).value;
      var messages := a.initialMessages(userInput).value;
      var rest := Loop(a, Dispatch(reg, serve), model, tools, script, messages, 0);
      Chat(a, reg, serve, userInput, requested, script) == ChatRun([Send(model, messages, tools)] + rest.events, rest.outcome)
  {
  }

  /** With `k` tool-call responses before the one that ends the loop, a chat
      that answers was set up, sends `k + 1` times, executes `k` times, all
      successfully, and returns that response's final text. */
  lemma ChatAnswers<M, T, R>(a: Adapter<M, T, R>, reg: Registry, serve: ToolServer, userInput: string,
                             requested: Option<string>, script: seq<R>)
    requires EndsTerminal(a, script)
    ensures var run := Chat(a, reg, serve, userInput, requested, script);
      var k := ToolSteps(a, script);
      run.outcome.Ok? ==>
        && SetUp(a, reg, userInput)
        && |run.events| == 2 * k + 1 && run.outcome == Answer(a, script[k])
        && forall i :: 0 <= i < k ==> ResultOf(a, Dispatch(reg, serve), script[i]).Ok?
  {
    if SetUp(a, reg, userInput) {
      var model := ResolveModel(requested, a.defaultModel);
      var tools := OfferedTools(a, reg).value;
      var messages := a.initialMessages(userInput).value;
      ChatStart(a, reg, serve, userInput, requested, script);
      LoopAnswers(a, Dispatch(reg, serve), model, tools, script, messages, 0);
    } else {
      ChatSetupFails(a, reg, serve, userInput, requested, script);
    }
  }

  /** A chat that was set up and fails stops either on the response that
      ends the loop, which could not be parsed or read, or in the turn after
      its last request, which raised before the tool ran (an even number of
      events) or after it (odd); the calls of the turns before succeeded. */
  lemma ChatFails<M, T, R>(a: Adapter<M, T, R>, reg: Registry, serve: ToolServer, userInput: string,
                           requested: Option<string>, script: seq<R>)
    requires EndsTerminal(a, script)
    ensures var run := Chat(a, reg, serve, userInput, requested, script);
      var k := ToolSteps(a, script);
      var exec := Dispatch(reg, serve);
      run.outcome.Err? && SetUp(a, reg, userInput) ==>
        && |run.events| >= 1
        && var n := (|run.events| - 1) / 2;
        && n <= k
        && (n == k ==> |run.events| == 2 * k + 1 && run.outcome == Answer(a, script[k]))
        && (n < k ==> TurnOf(a, exec, Sent(run.events[2 * n]), script[n]) == Stuck(|run.events| % 2 == 0, run.outcome.error))
        && forall i :: 0 <= i < n ==> ResultOf(a, exec, script[i]).Ok?
  {
    if SetUp(a, reg, userInput) {
      var exec := Dispatch(reg, serve);
      var model := ResolveModel(requested, a.defaultModel);
      var tools := OfferedTools(a, reg).value;
      var messages := a.initialMessages(userInput).value;
      ChatStart(a, reg, serve, userInput, requested, script);
      LoopFails(a, exec, model, tools, script, messages, 0);
      var rest := Loop(a, exec, model, tools, script, messages, 0).events;
      PrependedBefore(model, tools, messages, rest, |rest| / 2);
    }
  }

  /** The request a chat opens with shifts the loop's events by one: the
      conversation at even position `2 * n` is the one the loop's `n`-th turn
      starts from. */
  lemma PrependedBefore<M, T>(model: string, tools: Option<seq<T>>, messages: seq<M>, events: seq<Event<M, T>>, n: nat)
    requires 2 * n <= |events|
    ensures (|events| + 1) % 2 == 0 <==> |events| % 2 == 1
    ensures Sent(([Send(model, messages, tools)] + events)[2 * n]) == Before(messages, events, n)
  {
    if n > 0 {
      assert ([Send(model, messages, tools)] + events)[2 * n] == events[2 * n - 1];
    }
  }

  /** Even events are requests, all with the same model and the same tool
      snapshot; the first carries the initial conversation and each later one
      the previous conversation extended by the assistant turn and the tool
      result of the call in between. */
  lemma ChatRequests<M, T, R>(a: Adapter<M, T, R>, reg: Registry, serve: ToolServer, userInput: string,
                              requested: Option<string>, script: seq<R>)
    requires EndsTerminal(a, script)
    ensures var run := Chat(a, reg, serve, userInput, requested, script);
      SetUp(a, reg, userInput) ==>
        var model := ResolveModel(requested, a.defaultModel);
        var tools := OfferedTools(a, reg).value;
        && run.events[0] == Send(model, a.initialMessages(userInput).value, tools)
        && forall i :: 0 <= i && 2 * i + 2 < |run.events| ==>
             i < |script| && Extends(a, Dispatch(reg, serve), model, tools, Sent(run.events[2 * i]), script[i], run.events[2 * i + 2])
  {
    if SetUp(a, reg, userInput) {
      var model := ResolveModel(requested, a.defaultModel);
      var tools := OfferedTools(a, reg).value;
      var messages := a.initialMessages(userInput).value;
      var exec := Dispatch(reg, serve);
      LoopMessages(a, exec, model, tools, script, messages, 0);
      assert forall i :: 0 <= i && 2 * i + 1 < |Loop(a, exec, model, tools, script, messages, 0).events| ==>
        SendsAt(a, exec, model, tools, script, messages, Loop(a, exec, model, tools, script, messages, 0).events, i);
      var rest := Loop(a, exec, model, tools, script, messages, 0).events;
      var run := Chat(a, reg, serve, userInput, requested, script);
      assert run.events == [Send(model, messages, tools)] + rest;
      forall i | 0 <= i && 2 * i + 2 < |run.events|
        ensures i < |script| && Extends(a, exec, model, tools, Sent(run.events[2 * i]), script[i], run.events[2 * i + 2])
      {
        assert 2 * i + 1 < |rest|;
        assert run.events[2 * i + 2] == rest[2 * i + 1];
        assert SendsAt(a, exec, model, tools, script, messages, rest, i);
        assert Sent(run.events[2 * i]) == Before(messages, rest, i);
      }
    }
  }

  /** Odd events are executions, numbered 1, 2, 3, ... in order, each of the
      tool and arguments the preceding response asked for. */
  lemma ChatExecutions<M, T, R>(a: Adapter<M, T, R>, reg: Registry, serve: ToolServer, userInput: string,
                                requested: Option<string>, script: seq<R>)
    requires EndsTerminal(a, script)
    ensures var run := Chat(a, reg, serve, userInput, requested, script);
      forall i :: 0 <= i && 2 * i + 1 < |run.events| ==>
        && i < |script| && !Terminal(a, script[i])
        && run.events[2 * i + 1] == Execute(i + 1, CallOf(a, script[i]).name, CallOf(a, script[i]).arguments)
  {
    if SetUp(a, reg, userInput) {
      var model := ResolveModel(requested, a.defaultModel);
      var tools := OfferedTools(a, reg).value;
      var messages := a.initialMessages(userInput).value;
      var exec := Dispatch(reg, serve);
      LoopExecutions(a, exec, model, tools, script, messages, 0);
      var run := Chat(a, reg, serve, userInput, requested, script);
      var rest := Loop(a, exec, model, tools, script, messages, 0).events;
      assert run.events == [Send(model, messages, tools)] + rest;
      forall i | 0 <= i && 2 * i + 1 < |run.events|
        ensures i < |script| && !Terminal(a, script[i])
        ensures run.events[2 * i + 1] == Execute(i + 1, CallOf(a, script[i]).name, CallOf(a, script[i]).arguments)
      {
        assert run.events[2 * i + 1] == rest[2 * i];
      }
    } else {
      ChatSetupFails(a, reg, serve, userInput, requested, script);
    }
  }
}
