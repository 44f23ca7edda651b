# MCP client playground, modelled in Dafny

This project models the client side of the MCP client playground. That client connects to several MCP tool servers, collects their tools, and lets a language model call them in a loop. The model covers:

- **Server configuration** (`Config`). `MCPConfig.from_dict` turns a parsed JSON mapping into an ordered list of server records. It fills in defaults and reads the transport name regardless of letter case. An unknown transport falls back to SSE. `from_json` and `from_file` are thin wrappers, with the parser and the file system given as parameters.
- **Registry and router** (`ServerRegistry`). `BaseMCPClient` keeps two insertion-ordered maps: `sessions` and `tool_to_server`. `add_server` changes both, `get_all_tools` reads them, and `call_tool` and `execute_tool` route a tool call to the server that owns the tool. Python dicts are association lists (`Dict`): a key that already exists keeps its place when it is overwritten.
- **Loading** (`Loader`). `load_servers_from_config` picks a parser for its argument, then registers the servers one after another. The connection itself is a parameter.
- **The generic ReAct loop** (`React`). This is `BaseMCPClient.chat` over abstract provider hooks. The model's answers are a finite script of responses whose last one ends the loop. Every hook other than `_send_message` may raise, and what it raises ends the chat.
- **The OpenAI client** (`OpenAiClient`). It converts tools into chat-completion parameters. Its own `chat` runs every tool call of a completion before it asks again.
- **The Gemini client** (`GeminiClient`). It converts tools into one Gemini tool. Its own `chat` reads only the first part of the first candidate, so at most one tool runs per response.

Each chat function returns a trace: the requests sent and the tool executions, each with its call index. It also returns the answer, or the error that ended the chat. Tool servers are a function from (session, tool, arguments) to a result or an error message.

Neither `OpenAIMCPClient` nor `GeminiMCPClient` implements the six abstract hooks that `BaseMCPClient` declares after `_convert_tools`, so Python's `abc` machinery would refuse to instantiate either class. Their own `chat` methods are therefore modelled directly, as their source reads. The generic loop is modelled over hooks handed in as a value of the `React.Adapter` datatype.

## Model

| member | source | states |
|---|---|---|
| Dict.Get | src/mcps/clients/base.py:132 | `d.get(k)` finds a value exactly when `k` is one of the dict's keys |
| Dict.Put | src/mcps/clients/base.py:76-80 | `d[k] = v` stores `v` under `k` and changes no other key; a new key goes last, an existing key keeps its position |
| Dict.GetAt | src/mcps/clients/base.py:132 | in a dict without repeated keys, `get` of the key at position `i` finds the value at position `i` |
| Dict.PutUniqueKeys | src/mcps/clients/base.py:76-80 | assignment never creates a repeated key |
| Dict.PutKeepsOrder | src/mcps/clients/base.py:76-80 | assignment never removes or reorders a key: the old key order is a prefix of the new one |
| Dict.PutAppends | src/mcps/clients/base.py:76 | assigning a key the dict lacks appends exactly that entry |
| Dict.PutReplaces | src/mcps/clients/base.py:80 | assigning an existing key rewrites its entry in place and leaves every other entry where it was |
| Config.LowerNoCapitals | src/core/config.py:47 | no capital letter survives lower-casing, and lower-casing changes a string exactly when it holds a capital |
| Config.LowerIdempotent | src/core/config.py:47 | lower-casing an already lower-cased name changes nothing |
| Config.TransportNameLower | src/core/config.py:15-19 | every transport's value is already in lower case, so its own name is read back unchanged |
| Config.ParseTransport | src/core/config.py:47-56 | the transport is HTTP exactly when the lower-cased name is "http"; every other name, known or not, gives SSE |
| Config.TransportNameRoundTrip | src/core/config.py:15-19 | parsing an enum member's own value gives that member back |
| Config.TransportCaseInsensitive | src/core/config.py:47-49 | names that differ only in letter case select the same transport |
| Config.TransportUpperCase | src/core/config.py:47-56 | "SSE", "HTTP" and "Http" are recognised, and "invalid_transport" falls back to SSE |
| Config.ParseEntry | src/core/config.py:45-65 | an entry that is not a mapping, or whose transport is not a string, raises; otherwise the server is named by its key, url, headers and timeout are copied or take the defaults "", {} and 30, and a missing transport gives SSE |
| Config.ParseEntries | src/core/config.py:45-65 | the loop succeeds exactly when every entry parses, then yields one server per entry in order; otherwise it reports the error of the first entry that does not parse |
| Config.FromDict | src/core/config.py:40-73 | non-mapping data raises; a missing "mcpServers" gives no servers; otherwise the servers' names are the mapping's keys, in iteration order |
| Config.FromDictServers | src/core/config.py:58-65 | the `i`-th server `from_dict` returns is the `i`-th entry, normalised |
| Config.EmptyConfig | src/core/config.py:42-45 | an empty mapping, or an empty "mcpServers", configures no server |
| ServerRegistry.EmptyValid | src/mcps/clients/base.py:52-54 | a freshly constructed client, with no session and no route, is in the shape every later registry keeps |
| ServerRegistry.RouteTools | src/mcps/clients/base.py:79-80 | after the loop every advertised tool routes to the new server, all other routes are unchanged, and no route disappears |
| ServerRegistry.AddServer | src/mcps/clients/base.py:76-80 | `sessions[name]` holds the new session and other sessions are untouched; every advertised tool routes to `name`, other routes are unchanged, and no key is lost |
| ServerRegistry.AddServerValid | src/mcps/clients/base.py:76-80 | registration keeps both maps free of repeated keys and every route pointing at a server that has a session |
| ServerRegistry.OpenSession | src/mcps/clients/base.py:76-78 | when the listing raises, `sessions[name]` already holds the new session, other sessions are untouched and no route changes |
| ServerRegistry.OpenSessionValid | src/mcps/clients/base.py:76-78 | a session stored before a failed listing keeps the registry's shape |
| ServerRegistry.OpenSessionReroutes | src/mcps/clients/base.py:76-78 | tools an earlier registration under the same name had routed there now reach the new session, whose result or exception comes back unchanged |
| ServerRegistry.AllToolsCount | src/mcps/clients/base.py:122-128 | `get_all_tools` returns as many tools as the sessions advertise between them |
| ServerRegistry.AllToolsAfterAddNew | src/mcps/clients/base.py:122-128 | registering a server under a new name appends its tools to the end of `get_all_tools` |
| ServerRegistry.AllToolsAfterAddExisting | src/mcps/clients/base.py:122-128 | re-registering the server at position `i` replaces its tools in place; the other sessions' tools keep their places |
| ServerRegistry.CallTool | src/mcps/clients/base.py:130-136 | a tool nobody owns raises "not found"; in a valid registry the same name and arguments go to the owner's session, whose result or exception comes back unchanged |
| ServerRegistry.UnknownToolContactsNoServer | src/mcps/clients/base.py:132-135 | for an unknown tool the outcome does not depend on the servers at all |
| ServerRegistry.ExecuteTool | src/mcps/clients/base.py:138-143 | `execute_tool` returns `call_tool`'s outcome unchanged, and its log record carries the index, tool, arguments and that outcome |
| ServerRegistry.Dispatch | src/mcps/clients/base.py:138-143 | the executor a chat loop sees gives `execute_tool`'s result whatever the call index |
| ServerRegistry.LaterRegistrationWins | src/mcps/clients/base.py:79-80 | of two servers advertising the same tool name, the later registration owns it; a tool only the earlier server advertises stays with the earlier server |
| ServerRegistry.SessionOrder | src/mcps/clients/base.py:76 | a newly registered server is appended to the session order; registering a known name again keeps the order unchanged |
| Loader.ChooseParser | src/mcps/clients/base.py:93-102 | an `MCPConfig` is used as is, a dict goes to `from_dict`, a path or a string whose stripped text does not start with "{" goes to `from_file`, and any other string goes to `from_json` |
| Loader.LooksLikeJsonIff | src/mcps/clients/base.py:98 | a string counts as inline JSON exactly when its first character that is not white space is "{" |
| Loader.TrimLeftShape | src/mcps/clients/base.py:98 | stripping the left end removes a run of white space and stops at the first other character |
| Loader.TrimRightKeepsHead | src/mcps/clients/base.py:98 | stripping the right end keeps a first character that is not white space |
| Loader.AddServers | src/mcps/clients/base.py:108-114 | one `add_server` call per server, in config order, with its fields, all of them when loading finishes; registrations, including a session stored before its listing raised, never lose a key and keep the registry's shape |
| Loader.AddServersAttempts | src/mcps/clients/base.py:108-114 | the calls made and the outcome of loading depend only on the configured servers and on how each connection answers, never on what was registered before |
| Loader.AddServersSucceeds | src/mcps/clients/base.py:108-114 | loading finishes exactly when every configured server connects and lists its tools |
| Loader.AddServersFails | src/mcps/clients/base.py:108-114 | a load that fails stops at the first server whose connection or listing raised, reports that exception, and makes no later `add_server` call |
| Loader.FailedListingKeepsSession | src/mcps/clients/base.py:76-78 | a load that stops on a listing failure leaves that server registered, with a session advertising no tools |
| Loader.AddServerValidIf | src/mcps/clients/base.py:76-80 | one registration keeps the registry's shape |
| Loader.LoadedServersRegistered | src/mcps/clients/base.py:108-114 | when every configured server connects and lists its tools (which is when the load completes), every configured server has a session afterwards |
| Loader.LoadServersFromConfig | src/mcps/clients/base.py:89-120 | a configuration that cannot be read raises before any `add_server` call and registers nothing; otherwise the calls and the outcome are those of attempting the configured servers in order; the load completes exactly when the configuration resolves and every server connects and lists its tools, and then every configured server has a session; the registry keeps its shape throughout |
| React.ResolveModel | src/mcps/clients/base.py:199 | a missing or empty model name selects the default; any other name is used as given |
| React.Answer | src/mcps/clients/base.py:209-235 | a response that ends the loop gives its final text exactly when parsing it and extracting the text both succeed; otherwise the error of `_parse_response` if it raised, else that of `_get_final_response` |
| React.ToolSteps | src/mcps/clients/base.py:208-212 | counts the responses with a tool call that come before the first response that ends the loop, one that has no tool call or cannot be parsed |
| React.OfferedTools | src/mcps/clients/base.py:200-201 | no tools are offered exactly when no server advertises one; otherwise the converted tool list is, or the conversion's exception is raised |
| React.LoopStep | src/mcps/clients/base.py:219-233 | a turn whose hooks and call succeed executes with the next index, then sends the conversation extended by the assistant turn and the tool result |
| React.LoopStop | src/mcps/clients/base.py:209-232 | a response that ends the loop gives its answer or its hook's error and nothing more; a turn that raises gives that error, after an execution exactly when the tool ran |
| React.LoopAnswers | src/mcps/clients/base.py:208-235 | a loop that answers does so with the final text of the first response without a tool call, after two events per earlier call, all of which succeeded |
| React.LoopFails | src/mcps/clients/base.py:208-235 | a loop that fails either stops on the response that ends it, whose parsing or text extraction raised, or in the turn after its last request: the assistant-turn hook raised before anything ran, or the tool or the tool-result hook raised right after the execution; every earlier call succeeded |
| React.LoopExecutions | src/mcps/clients/base.py:222-229 | the `i`-th execution carries index `count + i + 1` and the `i`-th response's tool name and arguments |
| React.LoopMessages | src/mcps/clients/base.py:219-233 | each later request carries the previous conversation with the assistant turn appended first and the call's result after it |
| React.ChatSetupFails | src/mcps/clients/base.py:200-204 | when converting the tools or building the initial messages raises, nothing is sent and that exception ends the chat |
| React.ChatDirectAnswer | src/mcps/clients/base.py:203-212 | when the first response ends the loop: exactly one send, no execution, and that response's answer or its hook's error |
| React.ChatAnswers | src/mcps/clients/base.py:197-235 | with `k` tool-call steps, a chat that answers was set up, sends `k + 1` times, executes `k` times, all successfully, and returns the final text of response `k` |
| React.ChatFails | src/mcps/clients/base.py:197-235 | a chat that was set up and fails stops on the response that ends the loop or in the turn after its last request, raising before the tool ran or after it, every earlier call having succeeded |
| React.ChatRequests | src/mcps/clients/base.py:203-233 | the first request carries the initial messages; every request names the same model and tool snapshot, and each grows the one before it by an assistant turn and then a tool result |
| React.ChatExecutions | src/mcps/clients/base.py:207-229 | executions carry the indices 1, 2, 3, ... in order, each with the tool and arguments the preceding response asked for |
| OpenAiClient.ConvertTools | src/mcps/clients/openai.py:26-38 | one parameter per tool, in order, each of type "function", with the name and schema copied and a missing description replaced by "" |
| OpenAiClient.ConvertToolsRecover | src/mcps/clients/openai.py:26-38 | every tool whose description is not "" can be read back exactly from its parameter |
| OpenAiClient.ConvertToolConflates | src/mcps/clients/openai.py:33 | a missing and an empty description convert alike, though the tools differ |
| OpenAiClient.BatchExecutions | src/mcps/clients/openai.py:72-77 | the `i`-th execution of a response's calls is its `i`-th call, numbered `count + i + 1`, with the parsed arguments |
| OpenAiClient.BatchSucceeds | src/mcps/clients/openai.py:72-84 | the inner loop finishes exactly when every call succeeds; it has then executed every call and appended one tool message per call, in call order, each answering its call |
| OpenAiClient.BatchFails | src/mcps/clients/openai.py:72-84 | the inner loop raises the first failing call's error; it has executed the calls before it, and that call too unless its arguments did not parse |
| OpenAiClient.FirstFailing | src/mcps/clients/openai.py:72-77 | the first call of a response that fails, with every earlier call succeeding |
| OpenAiClient.FinalAnswer | src/mcps/clients/openai.py:90 | the answer is the first choice's content, or "" when that is missing; an empty choice list raises |
| OpenAiClient.Offered | src/mcps/clients/openai.py:57-58 | no tools are offered when no server advertises one, and the converted list is never empty, so `tools or None` changes nothing |
| OpenAiClient.Stop | src/mcps/clients/openai.py:69 | the first completion whose first choice asks for no tool call; every earlier completion asks for at least one |
| OpenAiClient.IndicesOfExecutions | src/mcps/clients/openai.py:73-77 | a run of executions numbered from `from` contributes exactly those call indices and no request |
| OpenAiClient.RoundStop | src/mcps/clients/openai.py:69-90 | a completion without tool calls ends the loop with its answer and nothing more happens |
| OpenAiClient.RoundFail | src/mcps/clients/openai.py:72-84 | a round with a failing call ends the chat with the first failing call's error and sends no further request |
| OpenAiClient.RoundFailEvents | src/mcps/clients/openai.py:72-77 | such a round leaves only executions, numbered on from the counter |
| OpenAiClient.RepliesAnswer | src/mcps/clients/openai.py:78-84 | the tool messages of a successful round answer its calls one by one, in call order |
| OpenAiClient.RoundStep | src/mcps/clients/openai.py:69-88 | a successful round executes its calls, sends the grown conversation once, and continues with the next completion |
| OpenAiClient.GrownIsGrowth | src/mcps/clients/openai.py:70-84 | after a successful round the conversation is the old one, then the assistant message, then one tool message per call carrying that call's id |
| OpenAiClient.BatchRecords | src/mcps/clients/openai.py:72-77 | a successful round records one execution per call, numbered on from the counter |
| OpenAiClient.BatchNoRequests | src/mcps/clients/openai.py:72-84 | the inner loop sends no request |
| OpenAiClient.RoundRequests | src/mcps/clients/openai.py:86-88 | a successful round adds exactly one request, carrying the grown conversation |
| OpenAiClient.RoundIndices | src/mcps/clients/openai.py:72-77 | a successful round adds one call index per call, continuing the count without a gap |
| OpenAiClient.RoundSends | src/mcps/clients/openai.py:86-88 | a round's request names the same model and tools as every later one |
| OpenAiClient.RoundsIndices | src/mcps/clients/openai.py:68-88 | over all rounds the counter passes `count + 1, count + 2, ...` without a gap; rounds that answer have executed every call they were asked for |
| OpenAiClient.RoundsRequests | src/mcps/clients/openai.py:69-88 | each request carries the conversation before it grown by one round whose calls all succeeded |
| OpenAiClient.RoundsOutcomeIs | src/mcps/clients/openai.py:69-90 | the outcome of the rounds is the one read off the script alone |
| OpenAiClient.RoundsServed | src/mcps/clients/openai.py:69-88 | the number of requests the rounds send equals the number of rounds whose calls all succeeded |
| OpenAiClient.OutcomeAtServed | src/mcps/clients/openai.py:69-90 | after the rounds that succeeded comes either the answering completion, whose answer is returned, or a round with a failing call, whose first failure is returned |
| OpenAiClient.RoundsOutcome | src/mcps/clients/openai.py:69-90 | the rounds answer with the first completion that asks for no tool once a request has followed every earlier round; otherwise they end with the first failing call's error |
| OpenAiClient.RoundsSendAlike | src/mcps/clients/openai.py:86-88 | every request of the rounds names the same model and tool list |
| OpenAiClient.ChatStart | src/mcps/clients/openai.py:56-65 | the first request carries exactly one user message holding the input, with no system prompt, and the rounds follow it |
| OpenAiClient.ChatDirectAnswer | src/mcps/clients/openai.py:60-90 | a first completion without tool calls means one request, no execution, and its answer |
| OpenAiClient.ChatIndices | src/mcps/clients/openai.py:68-77 | over a whole chat `execute_tool` receives 1, 2, ... without a gap; a chat that answers has executed every call its completions asked for |
| OpenAiClient.ChatSendsAlike | src/mcps/clients/openai.py:56-65 | every request of a chat names the resolved model and the offered tools |
| OpenAiClient.ChatRequests | src/mcps/clients/openai.py:60-88 | the first request carries only the user's message; each later one carries the one before it grown by a round whose calls all succeeded |
| OpenAiClient.ChatGrowth | src/mcps/clients/openai.py:70-88 | consecutive requests differ by exactly one round: the assistant message, then the calls' tool messages in order |
| OpenAiClient.ChatOutcome | src/mcps/clients/openai.py:69-90 | a chat with `n + 1` requests either answers with completion `n`, which asks for no tool, or fails with the first failing call of completion `n` |
| GeminiClient.ConvertTools | src/mcps/clients/gemini.py:20-33 | exactly one Gemini tool, whose declarations match the tools one to one and in order, copying name, description and schema unchanged |
| GeminiClient.ConvertToolsLossless | src/mcps/clients/gemini.py:24-31 | every tool can be read back from its declaration; a missing description is not replaced |
| GeminiClient.ConvertToolsInjective | src/mcps/clients/gemini.py:20-33 | different tool lists convert to different Gemini tools |
| GeminiClient.FirstCall | src/mcps/clients/gemini.py:49 | reads only the function call of the first part of the first candidate; a missing or empty candidate list, a missing content, or a missing or empty part list raises |
| GeminiClient.Observation | src/mcps/clients/gemini.py:54-58 | the function response is named after the called function and carries `{"result": result.content}` and nothing else |
| GeminiClient.Final | src/mcps/clients/gemini.py:49-60 | a response that asks for no function returns its `.text`; one whose first part cannot be read raises |
| GeminiClient.RoundStop | src/mcps/clients/gemini.py:49-60 | a response that asks for no function ends the loop at once |
| GeminiClient.RoundFail | src/mcps/clients/gemini.py:50-53 | a failing call ends the loop with its error; it was executed unless its arguments were missing |
| GeminiClient.RoundStep | src/mcps/clients/gemini.py:49-58 | a call that succeeds is executed with the next index and its result is sent back, then the loop goes on with the next response |
| GeminiClient.RoundsOutcome | src/mcps/clients/gemini.py:49-60 | the loop ends as the script alone says |
| GeminiClient.RoundsShape | src/mcps/clients/gemini.py:49-58 | round `i` executes response `i`'s call with index `count + i + 1` and sends back the function response named after it; at most the failed call's execution follows |
| GeminiClient.RoundsIndices | src/mcps/clients/gemini.py:48-53 | executions and function responses alternate, and the `j`-th execution carries index `count + j + 1`: one call per response, without a gap |
| GeminiClient.RoundsFirstPartOnly | src/mcps/clients/gemini.py:49 | scripts that agree on the first part of the first candidate and on the text run identically, whatever further parts or candidates ask for |
| GeminiClient.ChatStart | src/mcps/clients/gemini.py:38-45 | the session opens with the resolved model and the converted tools, and the user's text is sent first |
| GeminiClient.ChatWithoutTools | src/mcps/clients/gemini.py:39-40 | with no tools the session is still offered one tool, with no declarations |
| GeminiClient.ChatDirectAnswer | src/mcps/clients/gemini.py:45-60 | a first response that asks for no function means the user's text is the only message and that response's text is returned |
| GeminiClient.ChatIndices | src/mcps/clients/gemini.py:48-53 | over a whole chat `execute_tool` receives 1, 2, ... without a gap, one call per response |
| GeminiClient.OutcomeAtServed | src/mcps/clients/gemini.py:49-60 | every response before the `k`-th ran its call; the `k`-th either asks for nothing, giving its text or the read error, or its call failed, giving that error |
| GeminiClient.ChatOutcome | src/mcps/clients/gemini.py:36-60 | a chat sends two events, then two per response whose call ran, then at most the failed call's execution; it returns the text of the first response without a call, or the first error |
| GeminiClient.ChatRounds | src/mcps/clients/gemini.py:49-58 | round `i` of a chat executes call `i + 1` of response `i` and sends back its result, named after the call |

## Left out

- Network, SDKs and the MCP transport are left out. `streamable_http_client`, the session handshake, `list_tools` and `call_tool` on a session, and the OpenAI and Gemini SDK calls all do I/O. Connections are a `Loader.Connector` parameter, tool servers a `ServerRegistry.ToolServer` parameter, and model replies a finite script of responses. In the model the SDK requests themselves never raise: OpenAI's `chat.completions.create` and Gemini's `chats.create` and `send_message` always answer, so an API failure, including one after a tool has already run, is not expressed.
- The `transport` argument of `add_server` is only logged and never chooses a transport, so the registry ignores it.
- `get_all_tools` asks each session for its tools afresh. The model returns the tools each server advertised when it was added; a session whose first listing raised is taken to advertise no tools, and a later listing cannot fail.
- The generic loop's `_send_message` is the response script and never raises; the other six hooks may raise, and what they raise ends the chat.
- The generic loop's hooks append to the `messages` list in place; the model has them return the grown conversation.
- `AsyncExitStack`, `cleanup`, `__aenter__` and `__aexit__` manage resource lifetimes and hold no checkable logic.
- Logging, timing and its float milliseconds are left out. Of the tool-call log decorator, only its effect is kept: the result passes through unchanged and an error is re-raised.
- `json.loads` of tool arguments and of configuration text is a parameter (`OpenAiClient.ArgParser`, `Config.JsonParser`), and so is the file system (`Config.FileSystem`).
- `str(result.content)` is a parameter (`OpenAiClient.Render`).
- JSON numbers are integers only. Floats are not modelled.
- Decoded JSON objects are taken to have distinct keys, as `json.loads` keeps only the last binding of a repeated key. `Json.Obj` does not enforce this, and on an object with a repeated key `Config.FromDict` would yield one server per binding.
- `str.lower` is modelled on ASCII letters only. That decides the transport exactly as Python does: the only non-ASCII character Python lower-cases into ASCII is the Kelvin sign, which becomes "k", and "k" occurs in neither "sse" nor "http".
- The chat loops have no iteration cap. A run is modelled on a finite script whose last response ends the loop; that is a precondition, not a cap.
- Python lists are passed by reference, so the `messages` list a request was sent with keeps growing afterwards. The trace records each request's conversation as it was when sent.
- OpenAI's `tool_calls` of `None` and `[]` both end the loop and are modelled alike.
- Gemini's `fc.name` is a string. The SDK allows `None`, which `execute_tool` would then receive as the tool name.
- Gemini's `response.text` is part of the response data. How the SDK joins text parts into it is not modelled.
- `src/core/settings.py` (environment settings), `src/mcps/servers/example.py` (a float-arithmetic example server) and the package `__init__` re-exports are not part of this model.
