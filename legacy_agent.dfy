/**
  `ReactAgent` of agent.py: the older agent, which talks to the model in
  plain `THOUGHT:` / `ACTION:` / `PARAMETERS:` lines, has only the local
  tools, and reports a tool result back as an `OBSERVATION: ` line. Its loop
  is the same as the XML agent's; what differs is the pass.

  The collaborators are parameters: the model provider, `json.loads`,
  `json.dumps(..., indent=2)` and the local repository tools.
*/
module LegacyAgent {
  import opened Wrappers
  import opened Text
  import opened JsonModel
  import opened Conversation
  import opened LineReply
  import opened Catalog

  datatype Env = Env(
    /** `self.client.messages.create(system=..., messages=...)`, as the reply
        text or the fault raised; the provider sees the prompt's text,
        `prompt.Text(dumps)`, which is a function of the prompt. */
    llm: (SystemPrompt, seq<Turn>) -> LlmOutcome,
    /** `json.loads`, None standing for `JSONDecodeError`. */
    loads: string -> Option<Json>,
    /** `json.dumps(value, indent=2)`. */
    dumps: Json -> string,
    /** A call `tool_method(**parameters)` of one of the five local tools. */
    local: (string, Json, seq<Turn>) -> LocalOutcome)

  /** The dictionary `_process_response` returns after a tool ran. */
  datatype ToolCall = ToolCall(toolName: string, parameters: Json, result: Json)

  /** The terminal tool's result for parameters that are a JSON object:
      success, and the `summary` value or the stock summary. */
  function CompletionResult(parameters: map<string, Json>): (r: Json)
    ensures r.JObject? && "success" in r.fields && "summary" in r.fields
    ensures r.fields["success"] == JBool(true)
    ensures "summary" in parameters ==> r.fields["summary"] == parameters["summary"]
    ensures "summary" !in parameters ==> r.fields["summary"] == JString("Task completed")
    ensures !IsFailure(r)
  {
    JObject(map["success" := JBool(true), "summary" := Get(parameters, "summary", JString("Task completed"))])
  }

  /** The turn content that reports a tool result back to the model. */
  function ObservationText(dumped: string): string {
    "OBSERVATION: " + dumped
  }

  /** One block of the tools description. */
  function RenderTool(t: ToolDescriptor, dumps: Json -> string): string {
    ToolLine(t.name) + ("\n" + ToolDetails(t, dumps))
  }

  function ToolLine(name: string): string {
    "Tool: " + name
  }

  function ToolDetails(t: ToolDescriptor, dumps: Json -> string): string {
    "Description: " + t.description + "\n" + "Parameters: " + dumps(t.parameters)
  }

  function Renderer(dumps: Json -> string): ToolDescriptor -> string {
    t => RenderTool(t, dumps)
  }

  /** The fixed instructions before the tools description: the agent's
      role, the THINK / ACT / OBSERVE steps and the `Available Tools:`
      heading. Their wording is not modelled, only that it does not change. */
  const PromptHead: string

  /** The fixed instructions after the tools description: the rules, the
      line format of a reply with its example, and the `OBSERVATION:`
      convention. */
  const PromptTail: string

  /** What `_build_system_prompt` builds: fixed instructions around the
      blocks of the catalog's tools, separated by blank lines. */
  datatype SystemPrompt = SystemPrompt(tools: seq<ToolDescriptor>)
  {
    function Text(dumps: Json -> string): string {
      PromptHead + Join(RenderEach(tools, Renderer(dumps)), "\n\n") + PromptTail
    }
  }

  /** The prompt of every run: the catalog of tools.py. */
  function Prompt(): SystemPrompt {
    SystemPrompt(LegacyAvailableTools())
  }

  /** The effect of a pass in which the model replied. */
  function Reacted(reply: string, call: Option<ToolCall>, dumps: Json -> string): PassEffect {
    match call
    case None => Replied(reply, None, false)
    case Some(c) => Replied(reply, Some(ObservationText(dumps(c.result))), c.toolName == TerminalTool)
  }

  /** Every catalog tool has a `Tool: <name>` line in the system prompt. */
  lemma PromptNamesEveryTool(dumps: Json -> string, i: nat)
    requires i < |LegacyAvailableTools()|
    ensures Contains(Prompt().Text(dumps), ToolLine(LegacyAvailableTools()[i].name))
  {
    FramedBlocksNameTool(PromptHead, LegacyAvailableTools(), PromptTail, dumps, i);
  }

  lemma FramedBlocksNameTool(head: string, tools: seq<ToolDescriptor>, tail: string, dumps: Json -> string, i: nat)
    requires i < |tools|
    ensures Contains(head + Join(RenderEach(tools, Renderer(dumps)), "\n\n") + tail, ToolLine(tools[i].name))
  {
    var block := RenderTool(tools[i], dumps);
    var desc := Join(RenderEach(tools, Renderer(dumps)), "\n\n");
    ContainsConcat(ToolLine(tools[i].name), "\n" + ToolDetails(tools[i], dumps));
    JoinContains(RenderEach(tools, Renderer(dumps)), "\n\n", i);
    ContainsTransitive(desc, block, ToolLine(tools[i].name));
    ContainsMiddle(head, desc, tail);
    ContainsTransitive(head + desc + tail, desc, ToolLine(tools[i].name));
  }

  class ReactAgent {
    /** The model client, the tools object and the library functions. */
    const env: Env
    const maxIterations: int
    var iterationCount: int
    var isComplete: bool
    var history: seq<Turn>

    constructor(env: Env, maxIterations: int)
      ensures this.env == env && this.maxIterations == maxIterations
      ensures iterationCount == 0 && !isComplete && history == []
    {
      this.env := env;
      this.maxIterations := maxIterations;
      iterationCount := 0;
      isComplete := false;
      history := [];
    }

    /** `_execute_tool`. None stands for the `AttributeError` that
        `parameters.get` raises when the terminal tool's parameters are not
        a JSON object; `_process_response` turns it into "no tool ran". */
    function ExecuteTool(toolName: string, parameters: Json, h: seq<Turn>): (result: Option<Json>)
      ensures result.None? <==> toolName == TerminalTool && !parameters.JObject?
      ensures toolName == TerminalTool && parameters.JObject? ==>
        result == Some(CompletionResult(parameters.fields))
      ensures toolName != TerminalTool && toolName !in LocalToolNames ==>
        result == Some(FailureResult("Unknown tool: " + toolName))
      ensures toolName != TerminalTool && toolName in LocalToolNames ==>
        match env.local(toolName, parameters, h)
        case Returned(r) => result == Some(r)
        case InvalidParameters(m) =>
          result == Some(FailureResult("Invalid parameters for tool " + toolName + ": " + m))
        case Failed(m) => result == Some(FailureResult("Tool execution failed: " + m))
    {
      if toolName == TerminalTool then
        if parameters.JObject? then Some(CompletionResult(parameters.fields)) else None
      else if toolName !in LocalToolNames then Some(FailureResult("Unknown tool: " + toolName))
      else match env.local(toolName, parameters, h)
        case Returned(r) => Some(r)
        case InvalidParameters(m) => Some(FailureResult("Invalid parameters for tool " + toolName + ": " + m))
        case Failed(m) => Some(FailureResult("Tool execution failed: " + m))
    }

    /** `_process_response` on a reply, `h` being the history that already
        ends with the reply's assistant turn. */
    function Processed(reply: string, h: seq<Turn>): Option<ToolCall> {
      match ParseLines(reply, env.loads)
      case None => None
      case Some(a) =>
        match ExecuteTool(a.toolName, a.parameters, h)
        case None => None
        case Some(r) => Some(ToolCall(a.toolName, a.parameters, r))
    }

    /** What one pass of `run` does to a conversation `h`. */
    function Pass(systemPrompt: SystemPrompt, h: seq<Turn>): PassEffect {
      match env.llm(systemPrompt, h)
      case ProviderError(m) => ProviderFailed(m)
      case Reply(text) => Reacted(text, Processed(text, h + [Turn("assistant", text)]), env.dumps)
    }

    function PassWith(systemPrompt: SystemPrompt): seq<Turn> -> PassEffect {
      h => Pass(systemPrompt, h)
    }

    /** `_call_llm`: the reply is appended as an assistant turn; a provider
        fault leaves the history as it was. */
    method CallLlm(systemPrompt: SystemPrompt) returns (outcome: LlmOutcome)
      modifies this
      ensures outcome == env.llm(systemPrompt, old(history))
      ensures outcome.Reply? ==> history == old(history) + [Turn("assistant", outcome.text)]
      ensures outcome.ProviderError? ==> history == old(history)
      ensures iterationCount == old(iterationCount) && isComplete == old(isComplete)
    {
      outcome := env.llm(systemPrompt, history);
      if outcome.Reply? {
        history := history + [Turn("assistant", outcome.text)];
      }
    }

    /** `_process_response`: parse, dispatch, and append the observation;
        nothing is appended when no tool ran. */
    method ProcessResponse(response: string) returns (toolResult: Option<ToolCall>)
      modifies this
      ensures toolResult == Processed(response, old(history))
      ensures toolResult.None? ==> history == old(history)
      ensures toolResult.Some? ==>
        history == old(history) + [Turn("user", ObservationText(env.dumps(toolResult.value.result)))]
      ensures iterationCount == old(iterationCount) && isComplete == old(isComplete)
    {
      var parsed := ParseReply(response, env.loads);
      if parsed.None? {
        return None;
      }
      var toolName := parsed.value.toolName;
      var parameters := parsed.value.parameters;
      var result := ExecuteTool(toolName, parameters, history);
      if result.None? {
        return None;
      }
      history := history + [Turn("user", ObservationText(env.dumps(result.value)))];
      toolResult := Some(ToolCall(toolName, parameters, result.value));
    }

    /** One pass of the loop in `run`; the new state is `Conversation.Step`
        with this agent's pass. */
    method Iterate(systemPrompt: SystemPrompt)
      modifies this
      ensures State(iterationCount, isComplete, history)
        == Step(State(old(iterationCount), old(isComplete), old(history)), PassWith(systemPrompt)(old(history)))
    {
      ghost var before := State(iterationCount, isComplete, history);
      ghost var effect := Pass(systemPrompt, history);
      iterationCount := iterationCount + 1;
      var outcome := CallLlm(systemPrompt);
      if outcome.ProviderError? {
        history := history + [ErrorTurn(outcome.message)];
        assert effect == ProviderFailed(outcome.message);
      } else {
        var toolResult := ProcessResponse(outcome.text);
        assert effect == Reacted(outcome.text, toolResult, env.dumps);
        ReactedStep(before, outcome.text, toolResult, env.dumps);
        if toolResult.Some? && toolResult.value.toolName == TerminalTool {
          isComplete := true;
        }
      }
    }

    /** `run(task)`: the history restarts from the task turn; the final state
        is the loop of `Conversation.Run` over this agent's pass. */
    method Run(task: string) returns (report: RunReport)
      modifies this
      ensures State(iterationCount, isComplete, history)
        == Conversation.Run(State(old(iterationCount), old(isComplete), [TaskTurn(task)]),
                            PassWith(Prompt()), maxIterations)
      ensures report == Report(State(iterationCount, isComplete, history), maxIterations)
    {
      var systemPrompt := Prompt();
      history := [TaskTurn(task)];
      ghost var start := State(iterationCount, isComplete, history);
      while !isComplete && iterationCount < maxIterations
        invariant Conversation.Run(State(iterationCount, isComplete, history), PassWith(systemPrompt), maxIterations)
               == Conversation.Run(start, PassWith(systemPrompt), maxIterations)
        decreases maxIterations - iterationCount
      {
        RunUnfold(State(iterationCount, isComplete, history), PassWith(systemPrompt), maxIterations);
        Iterate(systemPrompt);
      }
      RunStopped(State(iterationCount, isComplete, history), PassWith(systemPrompt), maxIterations);
      report := RunReport(isComplete, iterationCount, iterationCount >= maxIterations, |history|);
    }
  }

  /** The state after a pass in which the model replied. */
  lemma ReactedStep(s: State, reply: string, call: Option<ToolCall>, dumps: Json -> string)
    ensures Step(s, Reacted(reply, call, dumps)) == State(
      s.iterations + 1,
      s.complete || (call.Some? && call.value.toolName == TerminalTool),
      s.history + [Turn("assistant", reply)]
        + (if call.Some? then [Turn("user", ObservationText(dumps(call.value.result)))] else []))
  {
    if call.Some? {
      assert s.history + ([Turn("assistant", reply)] + [Turn("user", ObservationText(dumps(call.value.result)))])
          == s.history + [Turn("assistant", reply)] + [Turn("user", ObservationText(dumps(call.value.result)))];
    }
  }

  /** A pass completes the task exactly when the model replied, the reply
      names `task_complete` on an `ACTION:` line, and its parameters decode
      to a JSON object; completion comes with the terminal tool's result as
      the observation. */
  lemma PassCompletesExactly(agent: ReactAgent, prompt: SystemPrompt, h: seq<Turn>)
    ensures var o := agent.env.llm(prompt, h);
      agent.Pass(prompt, h).Completes() <==>
        o.Reply? && ParseLines(o.text, agent.env.loads).Some?
        && ParseLines(o.text, agent.env.loads).value.toolName == TerminalTool
        && ParseLines(o.text, agent.env.loads).value.parameters.JObject?
    ensures agent.Pass(prompt, h).WellFormed()
    ensures agent.Pass(prompt, h).Completes() ==>
      var a := ParseLines(agent.env.llm(prompt, h).text, agent.env.loads).value;
      agent.Pass(prompt, h).observation == Some(ObservationText(agent.env.dumps(CompletionResult(a.parameters.fields))))
  {
    var o := agent.env.llm(prompt, h);
    if o.Reply? {
      var p := ParseLines(o.text, agent.env.loads);
      if p.Some? {
        var r := agent.ExecuteTool(p.value.toolName, p.value.parameters, h + [Turn("assistant", o.text)]);
      }
    }
  }

  /** A reply without a usable `ACTION:` line, or one that asks for the
      terminal tool with parameters that are not an object, is kept as an
      assistant turn and nothing else is added. */
  lemma NoToolOnlyRecorded(agent: ReactAgent, prompt: SystemPrompt, h: seq<Turn>)
    requires agent.env.llm(prompt, h).Reply?
    requires var p := ParseLines(agent.env.llm(prompt, h).text, agent.env.loads);
      p.None? || (p.value.toolName == TerminalTool && !p.value.parameters.JObject?)
    ensures agent.Pass(prompt, h).Appended() == [Turn("assistant", agent.env.llm(prompt, h).text)]
    ensures !agent.Pass(prompt, h).Completes()
  {
  }

  /** A reply that names a tool that is neither local nor terminal gets the
      unknown-tool failure as its observation. */
  lemma UnknownToolObserved(agent: ReactAgent, prompt: SystemPrompt, h: seq<Turn>)
    requires agent.env.llm(prompt, h).Reply?
    requires var p := ParseLines(agent.env.llm(prompt, h).text, agent.env.loads);
      p.Some? && p.value.toolName != TerminalTool && p.value.toolName !in LocalToolNames
    ensures var name := ParseLines(agent.env.llm(prompt, h).text, agent.env.loads).value.toolName;
      agent.Pass(prompt, h).observation == Some(ObservationText(agent.env.dumps(FailureResult("Unknown tool: " + name))))
    ensures !agent.Pass(prompt, h).Completes()
  {
  }

  /** A provider fault turns into exactly one error turn and never completes. */
  lemma ProviderFaultReported(agent: ReactAgent, prompt: SystemPrompt, h: seq<Turn>)
    requires agent.env.llm(prompt, h).ProviderError?
    ensures agent.Pass(prompt, h).Appended() == [ErrorTurn(agent.env.llm(prompt, h).message)]
    ensures !agent.Pass(prompt, h).Completes()
  {
  }
}
