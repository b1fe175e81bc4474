/**
  `ReactAgent` of src/agent.py: the agent that talks to the model in XML.
  Each pass of the loop calls the model, parses its reply, dispatches the
  requested tool and feeds the result back as an `<OBSERVATION>` turn.

  The collaborators the agent calls into are parameters, bundled in `Env`:
  the model provider, ElementTree's tokeniser, `json.dumps(..., indent=2)`,
  the local repository tools and the HTTP transport of the remote tool
  client. Those that can see the world take the conversation so far, which
  grows on every pass, so a collaborator with state of its own is covered.
*/
module Agent {
  import opened Wrappers
  import opened Text
  import opened JsonModel
  import opened Conversation
  import opened XmlReply
  import opened Catalog
  import opened Mcp

  datatype Env = Env(
    /** `llm_client.call_llm(system_prompt, conversation_history)`; the
        provider sees the prompt's text, `prompt.Text(show, dumps)`, which is
        a function of the prompt. */
    llm: (SystemPrompt, seq<Turn>) -> LlmOutcome,
    /** `ET.fromstring`. */
    xml: string -> XmlDoc,
    /** `json.dumps(value, indent=2)`. */
    dumps: Json -> string,
    /** `str(value)` of a decoded JSON value that is not a string. */
    show: Json -> string,
    /** A call of one of the five local tools with keyword arguments. */
    local: (string, map<string, string>, seq<Turn>) -> LocalOutcome,
    /** The POST of the remote tool client. */
    post: (string, Json, seq<Turn>) -> HttpOutcome)

  /** The dictionary `_process_response` returns after a tool ran. */
  datatype ToolCall = ToolCall(toolName: string, parameters: map<string, string>, result: Json)

  /** The result of the terminal tool: success and the given summary, or a
      stock summary when none was given. */
  function CompletionResult(parameters: map<string, string>): (r: Json)
    ensures r.JObject? && "success" in r.fields && "summary" in r.fields
    ensures r.fields["success"] == JBool(true)
    ensures "summary" in parameters ==> r.fields["summary"] == JString(parameters["summary"])
    ensures "summary" !in parameters ==> r.fields["summary"] == JString("Task completed")
    ensures !IsFailure(r)
  {
    JObject(map["success" := JBool(true),
                "summary" := JString(if "summary" in parameters then parameters["summary"] else "Task completed")])
  }

  /** Tool parameters parsed from XML, as the JSON object posted to the server. */
  function ParametersJson(parameters: map<string, string>): Json {
    JObject(map k | k in parameters :: JString(parameters[k]))
  }

  /** The turn content that reports a tool result back to the model. */
  function ObservationText(dumped: string): string {
    "<OBSERVATION>" + dumped + "</OBSERVATION>"
  }

  /** One element of `all_tools` as the prompt reads it, through
      `tool['name']`, `tool['description']` and `tool['parameters']`. A
      remote element is whatever the server sent, so its name and its
      description can be any JSON value. */
  datatype ToolEntry = ToolEntry(name: Json, description: Json, parameters: Json)

  function LocalEntry(t: ToolDescriptor): ToolEntry {
    ToolEntry(JString(t.name), JString(t.description), t.parameters)
  }

  function LocalEntries(tools: seq<ToolDescriptor>): seq<ToolEntry> {
    seq(|tools|, i requires 0 <= i < |tools| => LocalEntry(tools[i]))
  }

  /** A value placed in an f-string: a string as it is, anything else as
      `str(value)`. */
  function Shown(j: Json, show: Json -> string): string {
    if j.JString? then j.s else show(j)
  }

  /** One `<tool>` block of the tools description. */
  function RenderTool(t: ToolEntry, show: Json -> string, dumps: Json -> string): string {
    "<tool>\n  " + NameTag(Shown(t.name, show)) + ToolDetails(t, show, dumps)
  }

  function ToolDetails(t: ToolEntry, show: Json -> string, dumps: Json -> string): string {
    "\n  <description>" + Shown(t.description, show) + "</description>\n  <parameters>"
      + dumps(t.parameters) + "</parameters>\n</tool>"
  }

  function NameTag(name: string): string {
    "<name>" + name + "</name>"
  }

  function Renderer(show: Json -> string, dumps: Json -> string): ToolEntry -> string {
    t => RenderTool(t, show, dumps)
  }

  function ToolsDescription(tools: seq<ToolEntry>, show: Json -> string, dumps: Json -> string): string {
    Join(RenderEach(tools, Renderer(show, dumps)), "\n\n")
  }

  /** The fixed instructions before the tools description: the agent's
      role, the ReAct steps and the `Available Tools:` heading. Their
      wording is not modelled, only that it does not change. */
  const PromptHead: string

  /** The fixed instructions after the tools description: the rules, the
      reply format with its example, and the `<OBSERVATION>` convention. */
  const PromptTail: string

  /** What `_build_system_prompt` builds: fixed instructions around the
      description of the advertised tools. */
  datatype SystemPrompt = SystemPrompt(remoteTools: seq<ToolEntry>)
  {
    /** `all_tools`: the local catalog, extended with the remote tools. */
    function Tools(): seq<ToolEntry> {
      LocalEntries(AvailableTools()) + remoteTools
    }

    function Text(show: Json -> string, dumps: Json -> string): string {
      PromptHead + ToolsDescription(Tools(), show, dumps) + PromptTail
    }
  }

  /** `tool[key]` on an element of the discovered list: only a mapping
      that has the key answers; any other element raises. */
  function Lookup(j: Json, key: string): Option<Json> {
    if j.JObject? && key in j.fields then Some(j.fields[key]) else None
  }

  function EntryOf(j: Json): Option<ToolEntry> {
    if Lookup(j, "name").Some? && Lookup(j, "description").Some? && Lookup(j, "parameters").Some?
    then Some(ToolEntry(Lookup(j, "name").value, Lookup(j, "description").value, Lookup(j, "parameters").value))
    else None
  }

  /** The remote part of `all_tools`: nothing when `self.mcp_tools` is
      false; the entries of a list whose every element is a mapping with
      the three keys; None where `extend` or a lookup raises (a truthy
      scalar, the keys of a mapping, the characters of a string, or an
      element without one of the keys). */
  function RemoteEntries(body: Json): Option<seq<ToolEntry>> {
    if !Truthy(body) then Some([])
    else if body.JArray? && forall i | 0 <= i < |body.items| :: EntryOf(body.items[i]).Some? then
      Some(seq(|body.items|, i requires 0 <= i < |body.items| => EntryOf(body.items[i]).value))
    else None
  }

  /** `[tool['name'] for tool in self.mcp_tools]`: iterating a mapping
      visits its keys and a string its characters, and neither has a
      `'name'`; a scalar is not iterable. None where this raises. */
  function RemoteNames(body: Json): Option<seq<Json>> {
    match body
    case JArray(items) =>
      if forall i | 0 <= i < |items| :: Lookup(items[i], "name").Some?
      then Some(seq(|items|, i requires 0 <= i < |items| => Lookup(items[i], "name").value))
      else None
    case JObject(fields) => if fields == map[] then Some([]) else None
    case JString(s) => if s == "" then Some([]) else None
    case _ => None
  }

  /** A discovered mapping with the three keys a prompt entry needs. */
  predicate CompleteDescriptor(j: Json) {
    j.JObject? && "name" in j.fields && "description" in j.fields && "parameters" in j.fields
  }

  /** For a body `len` accepts, the names dispatch compares against are
      exactly the names the prompt shows, in the same order. */
  lemma EntryNamesDispatch(body: Json)
    requires HasLength(body) && RemoteEntries(body).Some?
    ensures RemoteNames(body).Some?
    ensures |RemoteNames(body).value| == |RemoteEntries(body).value|
    ensures forall i | 0 <= i < |RemoteEntries(body).value| ::
      RemoteNames(body).value[i] == RemoteEntries(body).value[i].name
  {
    if Truthy(body) {
      assert forall i | 0 <= i < |body.items| :: Lookup(body.items[i], "name").Some?;
    }
  }

  /** The effect of a pass in which the model replied: the reply, then the
      observation of the tool call if there was one; the pass completes the
      task exactly when that tool was the terminal one. */
  function Reacted(reply: string, call: Option<ToolCall>, dumps: Json -> string): PassEffect {
    match call
    case None => Replied(reply, None, false)
    case Some(c) => Replied(reply, Some(ObservationText(dumps(c.result))), c.toolName == TerminalTool)
  }

  /** Every advertised tool is named in the system prompt, in a `<name>` tag. */
  lemma PromptNamesEveryTool(prompt: SystemPrompt, show: Json -> string, dumps: Json -> string, i: nat)
    requires i < |prompt.Tools()|
    ensures Contains(prompt.Text(show, dumps), NameTag(Shown(prompt.Tools()[i].name, show)))
  {
    FramedDescriptionNamesTool(PromptHead, prompt.Tools(), PromptTail, show, dumps, i);
  }

  lemma FramedDescriptionNamesTool(head: string, tools: seq<ToolEntry>, tail: string,
                                   show: Json -> string, dumps: Json -> string, i: nat)
    requires i < |tools|
    ensures Contains(head + ToolsDescription(tools, show, dumps) + tail, NameTag(Shown(tools[i].name, show)))
  {
    var tag := NameTag(Shown(tools[i].name, show));
    var block := RenderTool(tools[i], show, dumps);
    var desc := ToolsDescription(tools, show, dumps);
    ContainsMiddle("<tool>\n  ", tag, ToolDetails(tools[i], show, dumps));
    DescriptionHoldsBlock(tools, show, dumps, i);
    ContainsTransitive(desc, block, tag);
    ContainsMiddle(head, desc, tail);
    ContainsTransitive(head + desc + tail, desc, tag);
  }

  lemma DescriptionHoldsBlock(tools: seq<ToolEntry>, show: Json -> string, dumps: Json -> string, i: nat)
    requires i < |tools|
    ensures Contains(ToolsDescription(tools, show, dumps), RenderTool(tools[i], show, dumps))
  {
    JoinContains(RenderEach(tools, Renderer(show, dumps)), "\n\n", i);
  }

  /** What the constructor needs of discovery to return: no usable server
      URL, or an exchange whose body, if any, is one `len` accepts. */
  predicate DiscoveryReturns(mcpServerUrl: Option<string>, get: string -> HttpOutcome) {
    mcpServerUrl.None? || mcpServerUrl.value == "" ||
    match get(ToolsEndpoint(NormalizeUrl(mcpServerUrl.value)))
    case Received(Some(body)) => HasLength(body)
    case _ => true
  }

  class ReactAgent {
    /** The collaborators: `llm_client`, the local tools object, the
        transport of the remote tool client, and the library functions. */
    const env: Env
    const maxIterations: int
    /** `mcp_tools_client`: present exactly when a server URL was given. */
    const mcpClient: Option<McpTools>
    /** `mcp_tools`: the body discovery returned, or the empty list. */
    const mcpTools: Json
    var iterationCount: int
    var isComplete: bool
    var history: seq<Turn>

    /** What the constructor leaves in `mcp_tools`: a value `len` accepts,
        and the empty list when there is no client. */
    predicate Discovered() {
      && (mcpClient.None? ==> mcpTools == JArray([]))
      && HasLength(mcpTools)
    }

    constructor(env: Env, maxIterations: int, mcpServerUrl: Option<string>, get: string -> HttpOutcome)
      requires DiscoveryReturns(mcpServerUrl, get)
      ensures this.env == env && this.maxIterations == maxIterations
      ensures iterationCount == 0 && !isComplete && history == []
      ensures mcpServerUrl.None? || mcpServerUrl.value == "" ==> mcpClient.None? && mcpTools == JArray([])
      ensures mcpServerUrl.Some? && mcpServerUrl.value != "" ==>
        && mcpClient.Some? && mcpClient.value.serverUrl == NormalizeUrl(mcpServerUrl.value)
        && mcpClient.value.GetMcpTools(get) == Some(mcpTools)
      ensures Discovered()
    {
      this.env := env;
      this.maxIterations := maxIterations;
      iterationCount := 0;
      isComplete := false;
      history := [];
      var remote := JArray([]);
      if mcpServerUrl.Some? && mcpServerUrl.value != "" {
        var client := new McpTools(mcpServerUrl.value);
        var discovered := client.GetMcpTools(get);
        mcpClient := Some(client);
        remote := discovered.value;
      } else {
        mcpClient := None;
      }
      mcpTools := remote;
    }

    /** `_build_system_prompt`: the local catalog, then the remote tools;
        None where building it raises. */
    function Prompt(): Option<SystemPrompt> {
      match RemoteEntries(mcpTools)
      case None => None
      case Some(entries) => Some(SystemPrompt(entries))
    }

    /** A call of `toolName` goes to the server: there is a client and the
        server advertised a tool of that name. */
    predicate IsRemote(toolName: string) {
      mcpClient.Some? && RemoteNames(mcpTools).Some? && JString(toolName) in RemoteNames(mcpTools).value
    }

    /** `_execute_tool`: the terminal tool is answered by the agent itself;
        otherwise a tool the server advertised goes to the server, before
        any local tool of the same name; a name that is neither is unknown;
        exceptions of a local tool become failure results. None where
        listing the remote names raises. */
    function ExecuteTool(toolName: string, parameters: map<string, string>, h: seq<Turn>): (result: Option<Json>)
      ensures toolName == TerminalTool ==> result == Some(CompletionResult(parameters))
      ensures toolName != TerminalTool && RemoteNames(mcpTools).None? ==> result.None?
      ensures toolName != TerminalTool && IsRemote(toolName) ==>
        result == Some(mcpClient.value.ExecuteMcpTool(toolName, ParametersJson(parameters), (u, j) => env.post(u, j, h)))
      ensures (toolName != TerminalTool && RemoteNames(mcpTools).Some? && !IsRemote(toolName)
        && toolName !in LocalToolNames) ==> result == Some(FailureResult("Unknown tool: " + toolName))
      ensures (toolName != TerminalTool && RemoteNames(mcpTools).Some? && !IsRemote(toolName)
        && toolName in LocalToolNames) ==>
        result.Some? &&
        match env.local(toolName, parameters, h)
        case Returned(r) => result.value == r
        case InvalidParameters(m) =>
          result.value == FailureResult("Invalid parameters for tool " + toolName + ": " + m)
        case Failed(m) => result.value == FailureResult("Tool execution failed: " + m)
    {
      if toolName == TerminalTool then Some(CompletionResult(parameters))
      else if RemoteNames(mcpTools).None? then None
      else if IsRemote(toolName) then
        Some(mcpClient.value.ExecuteMcpTool(toolName, ParametersJson(parameters), (u, j) => env.post(u, j, h)))
      else if toolName !in LocalToolNames then Some(FailureResult("Unknown tool: " + toolName))
      else match env.local(toolName, parameters, h)
        case Returned(r) => Some(r)
        case InvalidParameters(m) => Some(FailureResult("Invalid parameters for tool " + toolName + ": " + m))
        case Failed(m) => Some(FailureResult("Tool execution failed: " + m))
    }

    /** `_process_response` on a reply, `h` being the history that already
        ends with the reply's assistant turn. An exception while the tool
        is dispatched is caught there, and nothing is recorded for it. */
    function Processed(reply: string, h: seq<Turn>): Option<ToolCall> {
      match ParseResponse(env.xml("<root>" + reply + "</root>"))
      case None => None
      case Some(a) =>
        match ExecuteTool(a.toolName, a.parameters, h)
        case None => None
        case Some(result) => Some(ToolCall(a.toolName, a.parameters, result))
    }

    /** What one pass of `run` does to a conversation `h`. */
    function Pass(systemPrompt: SystemPrompt, h: seq<Turn>): PassEffect {
      match env.llm(systemPrompt, h)
      case ProviderError(m) => ProviderFailed(m)
      case Reply(text) => Reacted(text, Processed(text, h + [Turn("assistant", text)]), env.dumps)
    }

    function PassWith(systemPrompt: SystemPrompt): seq<Turn> -> PassEffect {
      h => Pass(systemPrompt, h)
    }

    /** `_call_llm`: the reply is appended as an assistant turn; a provider
        fault leaves the history as it was. */
    method CallLlm(systemPrompt: SystemPrompt) returns (outcome: LlmOutcome)
      modifies this
      ensures outcome == env.llm(systemPrompt, old(history))
      ensures outcome.Reply? ==> history == old(history) + [Turn("assistant", outcome.text)]
      ensures outcome.ProviderError? ==> history == old(history)
      ensures iterationCount == old(iterationCount) && isComplete == old(isComplete)
    {
      outcome := env.llm(systemPrompt, history);
      if outcome.Reply? {
        history := history + [Turn("assistant", outcome.text)];
      }
    }

    /** `_process_response`: parse, dispatch, and append the observation. */
    method ProcessResponse(response: string) returns (toolResult: Option<ToolCall>)
      modifies this
      ensures toolResult == Processed(response, old(history))
      ensures toolResult.None? ==> history == old(history)
      ensures toolResult.Some? ==>
        history == old(history) + [Turn("user", ObservationText(env.dumps(toolResult.value.result)))]
      ensures iterationCount == old(iterationCount) && isComplete == old(isComplete)
    {
      var parsed := ParseResponse(env.xml("<root>" + response + "</root>"));
      if parsed.None? {
        return None;
      }
      var toolName := parsed.value.toolName;
      var parameters := parsed.value.parameters;
      var result := ExecuteTool(toolName, parameters, history);
      if result.None? {
        return None;
      }
      history := history + [Turn("user", ObservationText(env.dumps(result.value)))];
      toolResult := Some(ToolCall(toolName, parameters, result.value));
    }

    /** One pass of the loop in `run`: the counter goes up, the model is
        called, and its reply is processed; a provider fault is reported
        back as an error turn; a call of the terminal tool completes the
        task. The new state is `Conversation.Step` with this agent's pass. */
    method Iterate(systemPrompt: SystemPrompt)
      modifies this
      ensures State(iterationCount, isComplete, history)
        == Step(State(old(iterationCount), old(isComplete), old(history)), PassWith(systemPrompt)(old(history)))
    {
      ghost var before := State(iterationCount, isComplete, history);
      ghost var effect := Pass(systemPrompt, history);
      iterationCount := iterationCount + 1;
      var outcome := CallLlm(systemPrompt);
      if outcome.ProviderError? {
        history := history + [ErrorTurn(outcome.message)];
        assert effect == ProviderFailed(outcome.message);
      } else {
        var toolResult := ProcessResponse(outcome.text);
        assert effect == Reacted(outcome.text, toolResult, env.dumps);
        ReactedStep(before, outcome.text, toolResult, env.dumps);
        if toolResult.Some? && toolResult.value.toolName == TerminalTool {
          isComplete := true;
        }
      }
    }

    /** `run(task)`: the prompt is built first, and when that raises the
        agent is left as it was; otherwise the history restarts from the
        task turn, the counter and the completion flag carry over from
        earlier runs, and the final state is the loop of `Conversation.Run`
        over this agent's pass. */
    method Run(task: string) returns (report: Option<RunReport>)
      modifies this
      ensures Prompt().None? ==>
        && report.None?
        && iterationCount == old(iterationCount) && isComplete == old(isComplete) && history == old(history)
      ensures Prompt().Some? ==>
        && State(iterationCount, isComplete, history)
          == Conversation.Run(State(old(iterationCount), old(isComplete), [TaskTurn(task)]), PassWith(Prompt().value), maxIterations)
        && report == Some(Report(State(iterationCount, isComplete, history), maxIterations))
    {
      var built := Prompt();
      if built.None? {
        return None;
      }
      var systemPrompt := built.value;
      history := [TaskTurn(task)];
      ghost var start := State(iterationCount, isComplete, history);
      while !isComplete && iterationCount < maxIterations
        invariant Conversation.Run(State(iterationCount, isComplete, history), PassWith(systemPrompt), maxIterations)
               == Conversation.Run(start, PassWith(systemPrompt), maxIterations)
        decreases maxIterations - iterationCount
      {
        RunUnfold(State(iterationCount, isComplete, history), PassWith(systemPrompt), maxIterations);
        Iterate(systemPrompt);
      }
      RunStopped(State(iterationCount, isComplete, history), PassWith(systemPrompt), maxIterations);
      report := Some(RunReport(isComplete, iterationCount, iterationCount >= maxIterations, |history|));
    }
  }

  /** The state after a pass in which the model replied. */
  lemma ReactedStep(s: State, reply: string, call: Option<ToolCall>, dumps: Json -> string)
    ensures Step(s, Reacted(reply, call, dumps)) == State(
      s.iterations + 1,
      s.complete || (call.Some? && call.value.toolName == TerminalTool),
      s.history + [Turn("assistant", reply)]
        + (if call.Some? then [Turn("user", ObservationText(dumps(call.value.result)))] else []))
  {
    if call.Some? {
      assert s.history + ([Turn("assistant", reply)] + [Turn("user", ObservationText(dumps(call.value.result)))])
          == s.history + [Turn("assistant", reply)] + [Turn("user", ObservationText(dumps(call.value.result)))];
    }
  }

  /** A reply that does not parse is kept as an assistant turn and nothing
      else is added: no tool runs, no observation or corrective turn follows,
      and the pass does not complete the task. */
  lemma UnparsedReplyOnlyRecorded(agent: ReactAgent, prompt: SystemPrompt, h: seq<Turn>)
    requires agent.env.llm(prompt, h).Reply?
    requires ParseResponse(agent.env.xml("<root>" + agent.env.llm(prompt, h).text + "</root>")).None?
    ensures agent.Pass(prompt, h).Appended() == [Turn("assistant", agent.env.llm(prompt, h).text)]
    ensures !agent.Pass(prompt, h).Completes()
  {
  }

  /** A pass completes the task exactly when the model replied, the reply
      parsed, and the tool it names is `task_complete`; completion always
      comes with the observation of the terminal tool's result. */
  lemma PassCompletesExactly(agent: ReactAgent, prompt: SystemPrompt, h: seq<Turn>)
    ensures var o := agent.env.llm(prompt, h);
      agent.Pass(prompt, h).Completes() <==>
        o.Reply? && ParseResponse(agent.env.xml("<root>" + o.text + "</root>")).Some?
        && ParseResponse(agent.env.xml("<root>" + o.text + "</root>")).value.toolName == TerminalTool
    ensures agent.Pass(prompt, h).WellFormed()
    ensures agent.Pass(prompt, h).Completes() ==>
      var a := ParseResponse(agent.env.xml("<root>" + agent.env.llm(prompt, h).text + "</root>")).value;
      agent.Pass(prompt, h).observation == Some(ObservationText(agent.env.dumps(CompletionResult(a.parameters))))
  {
  }

  /** A provider fault turns into exactly one error turn and never completes. */
  lemma ProviderFaultReported(agent: ReactAgent, prompt: SystemPrompt, h: seq<Turn>)
    requires agent.env.llm(prompt, h).ProviderError?
    ensures agent.Pass(prompt, h).Appended() == [ErrorTurn(agent.env.llm(prompt, h).message)]
    ensures !agent.Pass(prompt, h).Completes()
  {
  }

  /** The prompt can be built exactly when discovery gave a false value or
      a list of mappings that each have a name, a description and
      parameters, whatever the types of those; the remote entries then
      follow the local catalog, in the server's order. */
  lemma PromptBuiltExactly(agent: ReactAgent)
    ensures agent.Prompt().Some? <==>
      || !Truthy(agent.mcpTools)
      || (agent.mcpTools.JArray?
          && forall k | 0 <= k < |agent.mcpTools.items| :: CompleteDescriptor(agent.mcpTools.items[k]))
    ensures agent.Prompt().Some? && agent.mcpTools.JArray? ==>
      var tools := agent.Prompt().value.Tools();
      var items := agent.mcpTools.items;
      && |tools| == |AvailableTools()| + |items|
      && forall k | 0 <= k < |items| :: tools[|AvailableTools()| + k]
           == ToolEntry(items[k].fields["name"], items[k].fields["description"], items[k].fields["parameters"])
  {
    var body := agent.mcpTools;
    if body.JArray? {
      assert forall k | 0 <= k < |body.items| :: EntryOf(body.items[k]).Some? <==> CompleteDescriptor(body.items[k]);
    }
  }

  /** A server that answers with an empty list, mapping or string adds no
      tool: the prompt is the local catalog alone, and no name is sent to
      the server. */
  lemma EmptyDiscoveryAddsNothing(agent: ReactAgent, toolName: string)
    requires agent.Discovered() && !Truthy(agent.mcpTools)
    ensures agent.Prompt() == Some(SystemPrompt([]))
    ensures agent.Prompt().value.Tools() == LocalEntries(AvailableTools())
    ensures !agent.IsRemote(toolName)
  {
    if agent.mcpTools.JArray? {
      assert agent.mcpTools.items == [];
    }
  }

  /** Every tool the prompt advertises under a string name is one
      `_execute_tool` can dispatch: the terminal tool, a remote tool, or a
      local one, so the unknown-tool branch is never taken; and a call of
      it always yields a result. */
  lemma AdvertisedToolsDispatch(agent: ReactAgent, prompt: SystemPrompt, i: nat, parameters: map<string, string>, h: seq<Turn>)
    requires agent.Discovered() && agent.Prompt() == Some(prompt)
    requires i < |prompt.Tools()| && prompt.Tools()[i].name.JString?
    ensures var name := prompt.Tools()[i].name.s;
      || name == TerminalTool
      || agent.IsRemote(name)
      || name in LocalToolNames
    ensures agent.ExecuteTool(prompt.Tools()[i].name.s, parameters, h).Some?
  {
    var local := AvailableTools();
    var entries := RemoteEntries(agent.mcpTools).value;
    assert prompt.Tools() == LocalEntries(local) + entries;
    EntryNamesDispatch(agent.mcpTools);
    if i < |local| {
      CatalogNameKnown(local, i);
    } else {
      var k := i - |local|;
      assert RemoteNames(agent.mcpTools).value[k] == prompt.Tools()[i].name;
    }
  }

  lemma CatalogNameKnown(local: seq<ToolDescriptor>, i: nat)
    requires local == AvailableTools() && i < |local|
    ensures local[i].name in LocalToolNames + {TerminalTool}
  {
    AvailableToolsShape();
  }

  /** A tool the server advertises is run remotely even when a local tool
      has the same name: the local tools are not consulted. */
  lemma RemoteToolShadowsLocal(agent: ReactAgent, toolName: string, parameters: map<string, string>, h: seq<Turn>)
    requires agent.IsRemote(toolName) && toolName in LocalToolNames
    ensures agent.ExecuteTool(toolName, parameters, h)
      == Some(agent.mcpClient.value.ExecuteMcpTool(toolName, ParametersJson(parameters), (u, j) => agent.env.post(u, j, h)))
  {
  }
}
