/**
  The conversation state the ReAct loop keeps (`conversation_history`,
  `iteration_count`, `is_complete`) and the loop itself, stated once for both
  agent variants: `ReactAgent.run` in src/agent.py and in agent.py differ only
  in what one pass does with the model's reply, which each variant supplies
  as a function from the history so far to the effect of the pass.
*/
module Conversation {
  import opened Wrappers

  /** One `{"role": ..., "content": ...}` entry of the history. */
  datatype Turn = Turn(role: string, content: string)

  /** The instruction that follows the task in the first turn. */
  const TaskInstruction: string :=
    "Please complete this task using the available tools. Think step by step about what you need to do."

  /** The single turn a run starts from. */
  function TaskTurn(task: string): Turn {
    Turn("user", "Task: " + task + "\n\n" + TaskInstruction)
  }

  /** The turn the loop appends when a pass raised. */
  function ErrorTurn(message: string): Turn {
    Turn("user", "Error occurred: " + message + ". Please try a different approach.")
  }

  /** What the model provider gives back for one call: a reply, or the fault it raised. */
  datatype LlmOutcome = Reply(text: string) | ProviderError(message: string)

  /** What one pass of the loop does to the conversation. */
  datatype PassEffect =
      /** `_call_llm` raised: one error turn is appended. */
    | ProviderFailed(message: string)
      /** The reply is appended as an assistant turn, then the observation
          turn if a tool was dispatched; `completes` when the dispatched tool
          was `task_complete`. */
    | Replied(reply: string, observation: Option<string>, completes: bool)
  {
    predicate Completes() {
      Replied? && completes
    }

    /** Completion is only ever reported for a dispatched tool. */
    predicate WellFormed() {
      Completes() ==> observation.Some?
    }

    function Appended(): seq<Turn> {
      match this
      case ProviderFailed(m) => [ErrorTurn(m)]
      case Replied(r, obs, _) =>
        [Turn("assistant", r)] + (if obs.Some? then [Turn("user", obs.value)] else [])
    }
  }

  /** The three fields of `ReactAgent` that the loop changes. */
  datatype State = State(iterations: int, complete: bool, history: seq<Turn>)

  /** One pass: the counter goes up by one, the turns of the pass are appended. */
  function Step(s: State, e: PassEffect): State {
    State(s.iterations + 1, s.complete || e.Completes(), s.history + e.Appended())
  }

  /** `while not is_complete and iteration_count < max_iterations: <pass>`. */
  function Run(s: State, step: seq<Turn> -> PassEffect, maxIterations: int): State
    decreases maxIterations - s.iterations
  {
    if s.complete || s.iterations >= maxIterations then s
    else Run(Step(s, step(s.history)), step, maxIterations)
  }

  /** A loop whose condition fails leaves the state alone. */
  lemma RunStopped(s: State, step: seq<Turn> -> PassEffect, maxIterations: int)
    requires s.complete || s.iterations >= maxIterations
    ensures Run(s, step, maxIterations) == s
  {
  }

  /** One turn of the loop, unrolled. */
  lemma RunUnfold(s: State, step: seq<Turn> -> PassEffect, maxIterations: int)
    requires !s.complete && s.iterations < maxIterations
    ensures Run(s, step, maxIterations) == Run(Step(s, step(s.history)), step, maxIterations)
  {
  }

  /** The dictionary `run` returns. */
  datatype RunReport = RunReport(success: bool, iterations: int, maxIterationsReached: bool, conversationLength: nat)

  function Report(s: State, maxIterations: int): RunReport {
    RunReport(s.complete, s.iterations, s.iterations >= maxIterations, |s.history|)
  }

  /** A pass always adds one or two turns and never edits earlier ones. */
  lemma StepAppends(s: State, e: PassEffect)
    ensures Step(s, e).iterations == s.iterations + 1
    ensures Step(s, e).history[..|s.history|] == s.history
    ensures |s.history| + 1 <= |Step(s, e).history| <= |s.history| + 2
    ensures e.ProviderFailed? ==> Step(s, e).history == s.history + [ErrorTurn(e.message)]
    ensures e.Replied? && e.observation.None? ==> Step(s, e).history == s.history + [Turn("assistant", e.reply)]
  {
  }

  /** The loop stops exactly when the task is complete or the budget is used
      up; if it runs at all, it stops within the budget. */
  lemma {:induction false} RunStops(s: State, step: seq<Turn> -> PassEffect, maxIterations: int)
    ensures var r := Run(s, step, maxIterations);
      && (r.complete || r.iterations >= maxIterations)
      && (s.complete || s.iterations >= maxIterations ==> r == s)
      && (!s.complete && s.iterations < maxIterations ==> s.iterations < r.iterations <= maxIterations)
    decreases maxIterations - s.iterations
  {
    if !(s.complete || s.iterations >= maxIterations) {
      RunStops(Step(s, step(s.history)), step, maxIterations);
    }
  }

  /** Every pass adds one or two turns at the end of the history, so after
      `n` passes the history has grown by at least `n` and at most `2n`
      turns, and what was there before is untouched. */
  lemma {:induction false} RunHistory(s: State, step: seq<Turn> -> PassEffect, maxIterations: int)
    ensures var r := Run(s, step, maxIterations);
      && s.iterations <= r.iterations
      && |s.history| <= |r.history|
      && r.history[..|s.history|] == s.history
      && |s.history| + (r.iterations - s.iterations) <= |r.history| <= |s.history| + 2 * (r.iterations - s.iterations)
    decreases maxIterations - s.iterations
  {
    if !(s.complete || s.iterations >= maxIterations) {
      var t := Step(s, step(s.history));
      StepAppends(s, step(s.history));
      RunHistory(t, step, maxIterations);
      var r := Run(s, step, maxIterations);
      assert r == Run(t, step, maxIterations);
      assert r.history[..|s.history|] == r.history[..|t.history|][..|s.history|];
    }
  }

  /** A run that was not complete becomes complete only through a pass whose
      effect completes, and that pass is the last one: the history ends
      with its turns. */
  lemma {:induction false} RunCompletes(s: State, step: seq<Turn> -> PassEffect, maxIterations: int)
    requires !s.complete
    ensures var r := Run(s, step, maxIterations);
      r.complete ==>
        exists h :: |s.history| <= |h| && h[..|s.history|] == s.history
          && step(h).Completes() && r.history == h + step(h).Appended()
    decreases maxIterations - s.iterations
  {
    if s.iterations < maxIterations {
      var e := step(s.history);
      var t := Step(s, e);
      if e.Completes() {
        RunStops(t, step, maxIterations);
        assert Run(s, step, maxIterations) == t;
        assert s.history[..|s.history|] == s.history;
      } else {
        RunCompletes(t, step, maxIterations);
        var r := Run(s, step, maxIterations);
        if r.complete {
          var h :| |t.history| <= |h| && h[..|t.history|] == t.history
            && step(h).Completes() && r.history == h + step(h).Appended();
          assert h[..|s.history|] == h[..|t.history|][..|s.history|];
        }
      }
    }
  }

  /** If no pass can complete, the run ends incomplete after using the whole
      budget. */
  lemma NeverCompletes(s: State, step: seq<Turn> -> PassEffect, maxIterations: int)
    requires !s.complete && s.iterations <= maxIterations
    requires forall h :: !step(h).Completes()
    ensures var r := Run(s, step, maxIterations);
      !r.complete && r.iterations == maxIterations
  {
    RunCompletes(s, step, maxIterations);
    RunStops(s, step, maxIterations);
  }

  /** What `run` reports for a fresh agent (`iteration_count == 0`,
      `is_complete == False`): the history starts with the task turn and holds
      between one and two turns per pass after it; an unsuccessful run has
      used exactly `max_iterations` passes; a run that completed on its last
      allowed pass reports both `success` and `max_iterations_reached`. */
  lemma FreshRunReport(task: string, step: seq<Turn> -> PassEffect, maxIterations: int)
    requires maxIterations >= 0
    ensures var r := Run(State(0, false, [TaskTurn(task)]), step, maxIterations);
      var rep := Report(r, maxIterations);
      && rep.success == r.complete
      && 0 <= rep.iterations <= maxIterations
      && (!rep.success ==> rep.iterations == maxIterations && rep.maxIterationsReached)
      && (rep.success && rep.iterations == maxIterations ==> rep.maxIterationsReached)
      && 1 + rep.iterations <= rep.conversationLength <= 1 + 2 * rep.iterations
      && r.history[0] == TaskTurn(task)
  {
    var s := State(0, false, [TaskTurn(task)]);
    RunStops(s, step, maxIterations);
    RunHistory(s, step, maxIterations);
    var r := Run(s, step, maxIterations);
    assert r.history[0] == r.history[..1][0];
  }
}
