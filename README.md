# toy-agent, modelled in Dafny

toy-agent is a small software-development agent in the ReAct style. A
`ReactAgent` is given a task. It then runs a bounded loop. In each pass it
asks a language model for the next step, parses the reply, runs at most one
tool on a code repository, and feeds the tool's result back to the model.
The loop ends when the model calls the `task_complete` tool or when the
iteration budget is spent.

There are two generations of the agent:

- `src/agent.py` exchanges XML with the model. It can also use remote tools
  advertised by an MCP server.
- `agent.py` is the older agent. It exchanges `THOUGHT:` / `ACTION:` /
  `PARAMETERS:` lines and has only the local tools.

This project models the following, one module per concern:

| file | module | models |
|---|---|---|
| `conversation.dfy` | `Conversation` | the loop state (`iteration_count`, `is_complete`, `conversation_history`) and the loop of `run`, stated once for both agents |
| `agent.dfy` | `Agent` | `ReactAgent` of src/agent.py: constructor, prompt, `_call_llm`, `_process_response`, `_execute_tool`, `run` |
| `xml_reply.dfy` | `XmlReply` | `_parse_response` of src/agent.py, over an ElementTree element tree |
| `legacy_agent.dfy` | `LegacyAgent` | `ReactAgent` of agent.py |
| `line_reply.dfy` | `LineReply` | the line scanner and JSON retry inside `_process_response` of agent.py |
| `catalog.dfy` | `Catalog` | `get_available_tools()` of src/tools.py and tools.py |
| `mcp.dfy` | `Mcp` | `McpTools` of src/mcp_tools.py and mcp_tools.py |
| `gemini.dfy` | `Gemini` | `_prepare_chat_history` and the request of `call_llm` in src/llm.py and llm.py |
| `repo_tools.dfy` | `RepoTools` | the five repository tools of src/tools.py and tools.py |
| `text.dfy`, `json.dfy`, `wrappers.dfy` | `Text`, `JsonModel`, `Wrappers` | Python `str` operations, JSON values, `Option` |

Modelling choices:

- Each agent is a `class` with the fields `run` updates: `iterationCount`,
  `isComplete` and `history`. `Run`, `Iterate`, `CallLlm` and
  `ProcessResponse` are methods with `modifies this`.
  - `Run`'s `while` loop is proved equal to the recursive loop
    `Conversation.Run`, using the agent's own pass function.
  - The lemmas of `Conversation` then give the run-level properties:
    termination, the append-only history, and when a run completes.
- Collaborators the code calls into are function-valued parameters, bundled
  in each agent's `Env`:
  - the model provider;
  - ElementTree's tokeniser, `json.loads` and `json.dumps`;
  - the local tool object;
  - the HTTP transport.

  Collaborators that see the outside world also receive the conversation so
  far. The conversation grows on every pass, so a collaborator with state of
  its own is covered too.
- The repository is a value: a `map` from a file's path (its components) to
  its text. `os.walk`'s order is left open. The walking methods choose each
  next file with `:|` and return the order they used as a ghost value. What
  they promise holds for every order.
- The loops of the source are methods with invariants, each proved equal to
  a specification function:
  - `_prepare_chat_history`;
  - the line scan and its inner `while j`;
  - the parameter loop of `_parse_response`;
  - the walks of `list_files` and of the search fallback;
  - the line loop over grep's output.

  Lemmas state the properties of those functions.

Where the code and its design description differ, the model follows the code:

- `src/agent.py` checks remote tools before local ones
  (src/agent.py:340-342).
- A reply that does not parse adds no corrective turn: the pass only records
  the assistant turn (src/agent.py:285-287).
- tests/test_agent.py:8-18 expects a reply wrapped in `<response>`, with
  lower-case `<thought>`/`<action>` tags. `_parse_response` rejects it on
  both counts. It searches only the root's own children, which
  `XmlReply.WrappedReplyRejected` states. It also matches tags
  case-sensitively, which `XmlReply.ActionTagCaseSensitive` states.

## Model

| member | source | states |
|---|---|---|
| Conversation.StepAppends | src/agent.py:97-121 | a pass raises the counter by exactly one and appends one or two turns without touching earlier ones: one error turn when the model call raised, just the assistant turn when no tool ran |
| Conversation.RunStopped | src/agent.py:97 | once the task is complete or the budget is spent, the loop runs no further pass |
| Conversation.RunUnfold | src/agent.py:97-98 | while the task is incomplete and the budget is not spent, the loop runs one more pass, then continues from the new state |
| Conversation.RunStops | src/agent.py:97-114 | the loop stops exactly when complete or out of budget; a loop that runs at all ends within the budget |
| Conversation.RunHistory | src/agent.py:97-121 | after n passes the history keeps its old prefix and has grown by between n and 2n turns |
| Conversation.RunCompletes | src/agent.py:108-114 | an incomplete run becomes complete only through a pass that completes, and that pass is the last: the history ends with its turns |
| Conversation.NeverCompletes | src/agent.py:97-128 | if no pass can complete, the run ends incomplete after exactly `max_iterations` passes |
| Conversation.FreshRunReport | src/agent.py:89-129 | for a fresh agent: `success` is completion; a failed run used the whole budget and reports `max_iterations_reached`; completing on the last pass reports both; `1 + iterations <= conversation_length <= 1 + 2*iterations`; the history starts with the task turn |
| Agent.CompletionResult | src/agent.py:333-337 | the terminal tool's result is a success carrying the given `summary`, or "Task completed" when none was given |
| Agent.PromptNamesEveryTool | src/agent.py:149-170 | every advertised tool, local or remote, appears in the system prompt in a `<name>` tag; a name that is not a string appears as its `str()` |
| Agent.ReactAgent.constructor | src/agent.py:42-63 | counters start at zero with an empty history; a client exists exactly when a non-empty server URL is given, its URL is the normalised one, and `mcp_tools` is whatever discovery returned, or `[]` without a client |
| Agent.ReactAgent.ExecuteTool | src/agent.py:319-365 | dispatch order: `task_complete` first; then an exception when the list of remote names cannot be built; then a tool the server advertised under that string name; then "Unknown tool: <name>" for a name that is not local; then the local tool, whose `TypeError` and other exceptions become exactly the `{success: false, error}` results with the two messages |
| Agent.ReactAgent.CallLlm | src/agent.py:203-221 | the model sees the history so far; its reply is appended as one assistant turn; a provider fault changes nothing |
| Agent.ReactAgent.ProcessResponse | src/agent.py:270-317 | a reply that does not parse, or whose dispatch raises, changes nothing; otherwise the tool runs and exactly one `<OBSERVATION>` user turn holding its dumped result is appended |
| Agent.ReactAgent.Iterate | src/agent.py:97-121 | one pass of the loop is `Conversation.Step` with this agent's pass: counter up by one, reply and observation or one error turn appended, completion exactly when the dispatched tool is `task_complete` |
| Agent.ReactAgent.Run | src/agent.py:67-137 | when building the prompt raises, nothing changes and there is no report; otherwise the history restarts from the task turn, the final state is `Conversation.Run` over this agent's pass, and the report holds success, iterations, budget reached and history length |
| Agent.ReactedStep | src/agent.py:216-219 | after a pass in which the model replied, the history is extended by the assistant turn and, if a tool ran, its observation turn; completion is set exactly by the terminal tool |
| Agent.UnparsedReplyOnlyRecorded | src/agent.py:285-287 | a reply that does not parse adds only its assistant turn: no tool, no observation, no corrective turn, no completion |
| Agent.PassCompletesExactly | src/agent.py:108-114 | a pass completes if and only if the model replied, the reply parsed, and the tool it names is `task_complete`; completion comes with the observation of the terminal result |
| Agent.ProviderFaultReported | src/agent.py:116-121 | a model call that raises adds exactly one "Error occurred: …" user turn and never completes |
| Agent.AdvertisedToolsDispatch | src/agent.py:149-158 | every tool the prompt shows under a string name is the terminal tool, a remote tool or a local one, so `_execute_tool` never calls it unknown, and dispatching it does not raise |
| Agent.EntryNamesDispatch | src/agent.py:340-341 | for a body `len` accepts and the prompt can show, the names dispatch compares against are the names the prompt shows, one for one and in order |
| Agent.PromptBuiltExactly | src/agent.py:149-158 | the prompt can be built if and only if `mcp_tools` is false or a list of mappings that each have `name`, `description` and `parameters`, of any type; the remote entries then follow the six local ones, in the server's order |
| Agent.EmptyDiscoveryAddsNothing | src/agent.py:150-151 | an empty list, mapping or string from the server adds no tool to the prompt and sends no name to the server |
| Agent.RemoteToolShadowsLocal | src/agent.py:340-342 | a name the server advertised is run remotely even when a local tool has that name |
| XmlReply.FirstIndex | src/agent.py:239-250 | `find`: the first direct child with the tag; None if and only if no child has it |
| XmlReply.LastIndex | src/agent.py:252-253 | the last child with the tag; None if and only if no child has it |
| XmlReply.CollectParameters | src/agent.py:249-253 | the parameter loop builds exactly `ParamsOf` of the children |
| XmlReply.ParamsOfLastWins | src/agent.py:252-253 | a tag is a parameter if and only if some child carries it, and its value is the trimmed text of the last such child |
| XmlReply.ParseResponseAccepts | src/agent.py:223-268 | a reply is rejected exactly on a parse error, a missing `ACTION`, or a missing or blank tool name; an accepted tool name is non-empty and trimmed |
| XmlReply.ParsedFields | src/agent.py:239-262 | the thought is "" without a `THOUGHT` element; the parameters are empty without a `parameters` element and otherwise map each child tag to the trimmed text of its last occurrence |
| XmlReply.TrimmedTextIsStrip | src/agent.py:240 | missing or empty element text reads as "", and any other text is stripped |
| XmlReply.ToolNameIgnoresPadding | src/agent.py:246-247 | whitespace around the tool name does not change the parsed name |
| XmlReply.CompletionReplyParses | src/agent.py:176-185 | the reply format the prompt prescribes, with `task_complete` and a `summary`, parses to that tool and summary |
| XmlReply.ActionTagCaseSensitive | src/agent.py:242-247 | tags are case-sensitive: the same reply is accepted with `<ACTION>` and rejected with `<action>` |
| XmlReply.WrappedReplyRejected | src/agent.py:236-244 | only the root's own children are searched: a reply wrapped in `<response>` is rejected whatever it holds |
| LegacyAgent.CompletionResult | agent.py:283-287 | the terminal tool's result is a success carrying the `summary` value, or "Task completed" |
| LegacyAgent.PromptNamesEveryTool | agent.py:104-122 | every catalog tool has its `Tool: <name>` line in the system prompt |
| LegacyAgent.ReactAgent.constructor | agent.py:21-35 | counters start at zero, not complete, empty history |
| LegacyAgent.ReactAgent.ExecuteTool | agent.py:271-310 | `task_complete` with object parameters gives the completion result, and with other parameters the `AttributeError` that makes the pass run no tool; a name that is not local is unknown; local-tool exceptions become exactly the `{success: false, error}` results with the two messages |
| LegacyAgent.ReactAgent.CallLlm | agent.py:147-185 | the reply is appended as one assistant turn; a provider fault changes nothing |
| LegacyAgent.ReactAgent.ProcessResponse | agent.py:187-269 | no tool request changes nothing; otherwise exactly one `OBSERVATION: ` user turn holding the dumped result is appended |
| LegacyAgent.ReactAgent.Iterate | agent.py:62-86 | one pass is `Conversation.Step` with this agent's pass |
| LegacyAgent.ReactAgent.Run | agent.py:39-102 | the history restarts from the task turn; the final state is `Conversation.Run` over this agent's pass; the report holds success, iterations, budget reached and history length |
| LegacyAgent.ReactedStep | agent.py:73-79 | after a reply, the history gains the assistant turn and, if a tool ran, its observation; completion is set exactly by the terminal tool |
| LegacyAgent.PassCompletesExactly | agent.py:73-79 | a pass completes if and only if the reply names `task_complete` with object parameters |
| LegacyAgent.NoToolOnlyRecorded | agent.py:216-218 | a reply without a usable `ACTION:` line adds only its assistant turn and does not complete; so does `task_complete` with non-object parameters |
| LegacyAgent.UnknownToolObserved | agent.py:290-294 | a name that is neither local nor terminal is observed as "Unknown tool: <name>" |
| LegacyAgent.ProviderFaultReported | agent.py:81-86 | a model call that raises adds exactly one error turn and never completes |
| LineReply.ContinuationEnd | agent.py:210-213 | the parameter text stops at the first marker line after the `PARAMETERS:` line, or at the end |
| LineReply.ScanLines | agent.py:203-214 | the scanning loop yields exactly `Scan` of the lines |
| LineReply.GatherParameters | agent.py:206-214 | the inner loop yields the rest of the `PARAMETERS:` line plus each following line up to the next marker, each after a newline |
| LineReply.ScanLastWins | agent.py:203-214 | the tool name comes from the last `ACTION:` line and the parameter text from the last `PARAMETERS:` line; each is absent if and only if there is no such line |
| LineReply.LinesIgnorePadding | agent.py:199 | whitespace around the whole reply does not change the lines |
| LineReply.MarkersAtLineStart | agent.py:204-211 | markers count only at the start of a line: a line that begins with white space is no action, parameters or marker line, and a line that begins with a marker is one, whatever follows |
| LineReply.BraceSpanPresent | agent.py:233-234 | the regex matches if and only if some `{` comes before some `}` |
| LineReply.BraceSpanWidest | agent.py:233 | the match runs from the first `{` to the last `}` |
| LineReply.DecodeParameters | agent.py:221-242 | `{}` without parameter text; the decoded text when it decodes; otherwise the decoded brace span, or `{}` |
| LineReply.BraceRetryRecovers | agent.py:227-236 | text around a JSON object is tolerated: when the text fails to decode and its brace span decodes, the span's value is used |
| LineReply.ParseLines | agent.py:199-242 | no tool request if and only if there is no `ACTION:` line or its value is empty; an accepted tool name is non-empty and stripped |
| LineReply.ParseReply | agent.py:197-242 | the parsing part of `_process_response` yields exactly `ParseLines` |
| Catalog.AvailableToolsShape | src/tools.py:224-279 | six descriptors with distinct names: the five local tools and `task_complete` |
| Catalog.LegacyAvailableToolsShape | tools.py:142-189 | six descriptors with distinct names: the five local tools and `task_complete` |
| Catalog.RenderEach | src/agent.py:153-160 | one rendered block per tool, in the tools' order (also agent.py:106-111) |
| Mcp.NormalizeUrl | src/mcp_tools.py:31-33 | the stored URL ends with '/', extends the given one by at most that '/', and equals it when it already ends with '/' (same in mcp_tools.py:24-26) |
| Mcp.NormalizeIdempotent | src/mcp_tools.py:31-32 | normalising twice is normalising once |
| Mcp.EndpointsJoinOnce | src/mcp_tools.py:48 | the discovery and execute URLs hang off the given URL with exactly one '/' (also line 75, and mcp_tools.py:34 and 58) |
| Mcp.McpTools.constructor | src/mcp_tools.py:24-34 | `server_url` is the normalised URL and ends with '/' |
| Mcp.McpTools.GetMcpTools | src/mcp_tools.py:36-58 | a request or decoding failure yields `[]`; a received list, object or string is returned; a scalar body makes the `len` of the log line raise (same in mcp_tools.py:29-44) |
| Mcp.McpTools.ExecuteMcpTool | src/mcp_tools.py:60-87 | a request failure gives exactly `{success: false, error: <its message>}`; a decoding failure gives exactly that result with "Invalid JSON response from server."; otherwise the server's body (same in mcp_tools.py:46-70) |
| Mcp.DiscoveryFailsSoft | src/mcp_tools.py:53-58 | discovery never raises for a failed exchange, only for a scalar body in the `len` of the log line |
| Gemini.FormattedAllShape | src/llm.py:174-179 | one chat message per turn, in order |
| Gemini.ChatHistoryShape | src/llm.py:154-181 | the chat starts with the system prompt from `user` and the priming reply from `model`, then all turns but the last with contents unchanged and `assistant` mapped to `model`, every other role to `user`; its length is `2 + max(0, n - 1)` |
| Gemini.PrepareChatHistory | src/llm.py:169-179 | the appending loop builds exactly `ChatHistory` |
| Gemini.LegacyPrepareChatHistory | llm.py:153-165 | the loop that starts from an empty list builds exactly `ChatHistory` |
| Gemini.Request | src/llm.py:137-145 | a request exists if and only if the history is non-empty, and it sends the last turn's content (same in llm.py:128-130) |
| Gemini.RequestCoversConversation | src/llm.py:137-138 | the chat after the preamble followed by the sent message carry every turn's content, in order |
| RepoTools.RelPathInjective | src/tools.py:58 | distinct files whose paths are valid (at least one component, no component holding `/`) have distinct relative paths |
| RepoTools.ListingResult | src/tools.py:61-65 | `count == len(files)` |
| RepoTools.ListFiles | src/tools.py:38-70 | the walk visits each file once and the listing is `ListedFiles` for that order (same in tools.py:20-42) |
| RepoTools.ListedExactly | src/tools.py:53-59 | a file is listed if and only if it lies below the directory, no directory on its way is pruned (a dot name, `node_modules`, `__pycache__`, `venv`) and its name does not start with '.'; nothing else is listed; no entry appears twice (for any repository whose paths are valid) |
| RepoTools.FileLines | src/tools.py:178-179 | the lines file iteration yields are never empty |
| RepoTools.FileLinesRejoin | src/tools.py:178-179 | the lines put back together give the text; every line but the last ends with '\n', and no line holds '\n' anywhere else |
| RepoTools.MatchIgnoresCase | src/tools.py:170-180 | lower-casing the pattern or the line first does not change whether a line matches |
| RepoTools.ScanFile | src/tools.py:179-182 | the line loop yields exactly `FileMatches` |
| RepoTools.SearchFallback | src/tools.py:168-184 | the walk visits each file once and the matches are `SearchMatches` for that order |
| RepoTools.FileMatchesExactly | src/tools.py:179-182 | a match exists if and only if a line contains the pattern ignoring case, and it reads `<relpath>:<1-based n>:<stripped line>` |
| RepoTools.SearchMatchesFromScannedFiles | src/tools.py:171-184 | every match comes from a scanned file (not under `.git`, `__pycache__`, `node_modules` or `venv`, and with the extension if one is given), and every match of such a file is reported |
| RepoTools.GrepMatches | src/tools.py:157 | grep's lines, none of them empty |
| RepoTools.LegacyGrepMatches | tools.py:99-103 | the loop over grep's output yields exactly `GrepMatches` |
| RepoTools.SearchResult | src/tools.py:185-190 | `count == len(matches)` and the pattern is echoed |
| RepoTools.SearchInFiles | src/tools.py:132-193 | grep's lines when grep ran, otherwise the fallback's matches; `count == len(matches)` |
| RepoTools.SplitLines | src/tools.py:91 | `splitlines()` yields lines that hold no line break |
| RepoTools.SplitLinesUnlines | src/tools.py:91 | text made of '\n'-ended lines splits back into those lines |
| RepoTools.ReadResult | src/tools.py:87-92 | success, the content, and `lines == len(content.splitlines())` |
| RepoTools.FileFailure | src/tools.py:97 | a failure mapping carrying the message and the file path |
| RepoTools.Universal | src/tools.py:84-85 | a text-mode read yields no carriage return and never lengthens the text |
| RepoTools.UniversalIdentity | src/tools.py:84-85 | text without a carriage return reads back unchanged |
| RepoTools.UniversalChanges | src/tools.py:84-85 | the text read equals the stored text if and only if that holds no carriage return |
| RepoTools.ReadFile | src/tools.py:72-97 | an existing file reads as `ReadResult` of its text after newline translation; otherwise exactly `{success: false, error, filepath}` with the OS error text |
| RepoTools.Utf8Length | src/tools.py:124 | the UTF-8 length lies between one and four bytes per character |
| RepoTools.Utf8LengthAscii | src/tools.py:124 | ASCII text takes one byte per character |
| RepoTools.Utf8LengthAppend | src/tools.py:124 | the UTF-8 length of a concatenation is the sum of the lengths |
| RepoTools.Utf8LengthOfChar | src/tools.py:124 | one character takes 1, 2, 3 or 4 bytes exactly when its code point is below U+0080, below U+0800, below U+10000, or above |
| RepoTools.WriteFile | src/tools.py:99-130 | an unblocked write replaces or creates the file and reports its UTF-8 length as `bytes_written`; a blocked write (a file on the way, or the path is a directory, the root included) changes nothing and gives exactly `{success: false, error, filepath}` with the OS error text; no path is excluded |
| RepoTools.RootWriteFails | src/tools.py:112-130 | writing to the repository root (filepath "" or ".") fails, as `open` on a directory raises, and leaves the repository unchanged |
| RepoTools.WritePreservesWellFormed | src/tools.py:112-119 | a write that goes through keeps the repository well formed: no file lies below another file |
| RepoTools.WriteThenRead | src/tools.py:72-130 | reading back what was written gives the content with its line ends translated, exactly the content when it holds no carriage return, and every other file is unchanged |
| RepoTools.WriteLinesCounted | src/tools.py:91 | text written as n '\n'-ended lines reads back with `lines == n` |
| RepoTools.GetFileInfo | src/tools.py:195-221 | a missing path gives "File does not exist" with the path; a file reports its size, `is_file` and not `is_dir`; a directory reports the reverse; success exactly when the path exists |
| RepoTools.WrittenSizeReported | src/tools.py:121-125 | after a write, `get_file_info`'s size is the `bytes_written` that the write reported |
| JsonModel.FailureResult | src/agent.py:346-349 | a `{success: False, error: message}` mapping |
| Text.StripShape | src/agent.py:240 | `strip()` removes all leading and trailing whitespace and nothing more: the result neither starts nor ends with whitespace |
| Text.StripLeftShape | src/agent.py:240 | the left strip drops a whitespace prefix and keeps a suffix that does not start with whitespace |
| Text.StripRightShape | src/agent.py:240 | the right strip drops a whitespace suffix and keeps a prefix that does not end with whitespace |
| Text.StripIdempotent | src/agent.py:247 | stripping twice is stripping once |
| Text.StripPadded | agent.py:199 | whitespace added around a string is stripped away again |
| Text.StripTrimmed | agent.py:205 | a string that neither starts nor ends with whitespace strips to itself |
| Text.RemoveAll | agent.py:205 | removing every occurrence of a marker never lengthens the string |
| Text.Split | agent.py:199 | `split('\n')` gives at least one piece, no piece holds the separator, and joining the pieces gives the input back |
| Text.SplitJoin | agent.py:199 | splitting joined separator-free pieces gives the pieces back |
| Text.JoinContains | src/agent.py:153 | each joined piece occurs in the joined string |
| Text.LowerFolds | src/tools.py:170 | lower-casing leaves no upper-case letter, changes a string if and only if it has one, and is idempotent |
| Text.NatToString | src/tools.py:182 | a line number prints as decimal digits without a leading zero, whose decimal value is the number |

## Left out

- The model providers: the Anthropic `messages.create` call (agent.py:166-173) and the Gemini `start_chat`/`send_message` service. The provider is a parameter that gives a reply or a fault. The Anthropic reply is taken as `response.content[0].text`.
- HTTP: `requests.get`/`requests.post` are a parameter that yields a body, a decoding failure, or a request failure.
- The XML tokeniser and `json.loads`/`json.dumps` are parameters: a tree or a parse error, a value or a decoding error, and some text.
- `hasattr`/`getattr` reflection: the local tools are the fixed set of five names. Other attributes of the tools object, such as `repo_path`, count as unknown tools. What a local tool does on a call from the agent is a parameter (`Env.local`). The tools themselves are modelled in `RepoTools`.
- Agent.ReactAgent.constructor: requires that discovery returns, which excludes only a JSON scalar body: `len` raises on it in the log line (src/mcp_tools.py:51), and a constructor cannot fail. Every other body is kept; `Prompt` and `RemoteNames` model where `run` and `_execute_tool` then raise.
- The fixed instruction text of both system prompts is not modelled: `PromptHead` and `PromptTail` are constants whose text is left open.
- `str()` of a JSON value that is not a string is a parameter (`Env.show`).
- JSON numbers with a fraction or an exponent are not in `Json`. A tool result or a remote descriptor holding one is outside the model.
- Mcp.McpTools.ExecuteMcpTool: with requests 2.27 or later a decoding failure is also a `RequestException`. The first `except` then catches it and the result carries the decoder's message. The model follows the separate `except ValueError` branch and its fixed text. `get_mcp_tools` gives `[]` either way.
- The generic `except Exception` of `_process_response` (src/agent.py:315-317, agent.py:267-269) is modelled only where a modelled operation raises: `parameters.get` on non-object parameters in agent.py. A failing `json.dumps` is not modelled.
- `run` builds the prompt once per run. The model does not reset `iteration_count` or `is_complete` between runs, and neither does the code.
- Logging, main.py, src/main.py and logging_utils.py are not part of this model.
- The file system: files are a `map` from path components to text.
  - The echoed `filepath` is the `/`-join of the components, not the argument as given.
  - Path normalisation (`..`, absolute paths) is not modelled.
  - Directory sizes and OS error texts are parameters (`dirSize`, `osError`).
- RepoTools.ListFiles: a missing start directory lists nothing. The code's outer `except` branches are not modelled.
- RepoTools.SearchInFiles: grep itself is a parameter, its output or "unavailable". The fallback's per-file `open` errors (`except Exception: continue`) cannot occur in the map model. `errors='ignore'` decoding is not modelled.
- RepoTools.LegacyGrepMatches: a failing grep launch in tools.py reaches the outer `except`, which is not modelled.
- Text-mode reads translate line ends as on a POSIX system. Writes translate nothing, since `os.linesep` is '\n' there. Windows hosts are not modelled.
- Text.Lower: ASCII letters only. Python's full Unicode case mapping is not modelled.
- RepoTools.GetFileInfo: a file's size is its UTF-8 length, i.e. no newline translation on write.
- `write_file` of src/tools.py skips `makedirs` for an empty directory name, but that name is never empty under the repository root. tools.py's unconditional `makedirs` therefore behaves the same, and one model serves both.
- The tests tests/test_agent.py and tests/test_tools.py call interfaces the code does not have, so no contract rests on them.
