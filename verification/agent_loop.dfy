/**
 * The ReAct driver loop: ask the agent for a decision, run the tool it names,
 * record the action with its observation, and repeat until the agent finishes.
 */
module AgentLoop {
  import opened Wrappers
  import opened ToolRegistry

  /** The agent's request to call `tool` on `toolInput`; `log` is its reasoning text. */
  datatype AgentAction = AgentAction(tool: string, toolInput: string, log: string)

  /** The agent's final answer. */
  datatype AgentFinish = AgentFinish(returnValues: map<string, string>, log: string)

  /**
   * The value held by `agent_step`: the empty string it starts as, then the
   * last decision the agent returned.
   */
  datatype AgentStep = NoStep | Action(action: AgentAction) | Finish(finish: AgentFinish)

  /** What one call of the agent returns: an action or a finish. */
  type Decision = s: AgentStep | !s.NoStep? witness Finish(AgentFinish(map[], ""))

  /** One entry of `intermediate_steps`: an action and the text its tool returned. */
  datatype Step = Step(action: AgentAction, observation: string)

  /**
   * The agent pipeline (prompt, language model, output parser), seen as a
   * function of the question and the steps taken so far.
   */
  type Agent = (string, seq<Step>) -> Decision

  /** How a run of the driver ends, with the steps recorded up to that point. */
  datatype Outcome =
    | Finished(finish: AgentFinish, history: seq<Step>)
    | ToolLookupFailed(error: LookupError, history: seq<Step>)
    | OutOfFuel(history: seq<Step>)

  /**
   * The driver's behaviour from `steps` on, with at most `fuel` further calls
   * of the agent.
   */
  function Run(agent: Agent, question: string, tools: seq<Tool>, steps: seq<Step>, fuel: nat): (r: Outcome)
    ensures |steps| <= |r.history| <= |steps| + fuel
    ensures r.history[..|steps|] == steps
    ensures r.OutOfFuel? ==> |r.history| == |steps| + fuel
    decreases fuel
  {
    if fuel == 0 then OutOfFuel(steps)
    else
      var decision := agent(question, steps);
      if decision.Finish? then Finished(decision.finish, steps)
      else
        var found := FindToolByName(tools, decision.action.tool);
        if found.Failure? then ToolLookupFailed(found.error, steps)
        else
          var next := steps + [Step(decision.action, found.value.run(decision.action.toolInput))];
          var r := Run(agent, question, tools, next, fuel - 1);
          assert r.history[..|steps|] == next[..|steps|];
          r
  }

  /**
   * `step` is what the loop records after `before`: the agent, shown
   * `before`, asked for `step.action`, the named tool exists, and
   * `step.observation` is what it returned on the action's input.
   */
  predicate StepFollows(agent: Agent, question: string, tools: seq<Tool>, before: seq<Step>, step: Step)
  {
    agent(question, before) == Action(step.action) &&
    FindToolByName(tools, step.action.tool).Success? &&
    step.observation == FindToolByName(tools, step.action.tool).value.run(step.action.toolInput)
  }

  /** Every entry of `history` is the step the loop takes after the entries before it. */
  predicate Replays(agent: Agent, question: string, tools: seq<Tool>, history: seq<Step>)
  {
    forall k :: 0 <= k < |history| ==> StepFollows(agent, question, tools, history[..k], history[k])
  }

  /** Appending the step that follows a replayed history keeps it replayed. */
  lemma {:induction false} ReplaysAppend(agent: Agent, question: string, tools: seq<Tool>, history: seq<Step>, step: Step)
    requires Replays(agent, question, tools, history)
    requires StepFollows(agent, question, tools, history, step)
    ensures Replays(agent, question, tools, history + [step])
  {
    var longer := history + [step];
    forall k | 0 <= k < |longer|
      ensures StepFollows(agent, question, tools, longer[..k], longer[k])
    {
      assert longer[..k] == history[..k];
      if k < |history| {
        assert longer[k] == history[k];
      }
    }
  }

  /**
   * The outcome of a run started from a replayed history: the recorded steps
   * are the actions the agent asked for, one per call, each with its tool's
   * observation; the run finishes only on the agent's finish, fails only on
   * an action naming no registered tool, and runs out only after `fuel` steps.
   */
  lemma {:induction false} RunReplays(agent: Agent, question: string, tools: seq<Tool>, steps: seq<Step>, fuel: nat)
    requires Replays(agent, question, tools, steps)
    ensures var r := Run(agent, question, tools, steps, fuel);
      Replays(agent, question, tools, r.history) &&
      (r.Finished? ==> agent(question, r.history) == Finish(r.finish)) &&
      (r.ToolLookupFailed? ==>
        agent(question, r.history).Action? &&
        FindToolByName(tools, agent(question, r.history).action.tool) == Failure(r.error))
    decreases fuel
  {
    if fuel > 0 {
      var decision := agent(question, steps);
      if decision.Action? {
        var found := FindToolByName(tools, decision.action.tool);
        if found.Success? {
          var step := Step(decision.action, found.value.run(decision.action.toolInput));
          ReplaysAppend(agent, question, tools, steps, step);
          RunReplays(agent, question, tools, steps + [step], fuel - 1);
        }
      }
    }
  }

  /** Two histories the loop could have recorded agree on their common length. */
  lemma {:induction false} ReplaysAgree(agent: Agent, question: string, tools: seq<Tool>, h1: seq<Step>, h2: seq<Step>, n: nat)
    requires Replays(agent, question, tools, h1) && Replays(agent, question, tools, h2)
    requires n <= |h1| && n <= |h2|
    ensures h1[..n] == h2[..n]
    decreases n
  {
    if n > 0 {
      ReplaysAgree(agent, question, tools, h1, h2, n - 1);
      assert h1[..n - 1] == h2[..n - 1];
      assert StepFollows(agent, question, tools, h1[..n - 1], h1[n - 1]);
      assert StepFollows(agent, question, tools, h2[..n - 1], h2[n - 1]);
      assert h1[..n] == h1[..n - 1] + [h1[n - 1]];
      assert h2[..n] == h2[..n - 1] + [h2[n - 1]];
    }
  }

  /**
   * Conversely, a replayed history at whose end the agent finishes is exactly
   * what the driver returns, given enough fuel.
   */
  lemma {:induction false} RunFinishesOnReplayedHistory(agent: Agent, question: string, tools: seq<Tool>,
                                                        steps: seq<Step>, history: seq<Step>, f: AgentFinish, fuel: nat)
    requires Replays(agent, question, tools, history) && agent(question, history) == Finish(f)
    requires |steps| <= |history| && steps == history[..|steps|]
    requires |history| - |steps| < fuel
    ensures Run(agent, question, tools, steps, fuel) == Finished(f, history)
    decreases fuel
  {
    if |steps| < |history| {
      var k := |steps|;
      assert StepFollows(agent, question, tools, history[..k], history[k]);
      assert history[..k + 1] == steps + [history[k]];
      RunFinishesOnReplayedHistory(agent, question, tools, steps + [history[k]], history, f, fuel - 1);
    } else {
      assert steps == history;
    }
  }

  /**
   * Fuel only bounds the model: once a run ends without running out, more
   * fuel gives the same outcome.
   */
  lemma {:induction false} RunFuelMonotone(agent: Agent, question: string, tools: seq<Tool>, steps: seq<Step>, fuel: nat, more: nat)
    requires !Run(agent, question, tools, steps, fuel).OutOfFuel?
    ensures Run(agent, question, tools, steps, fuel + more) == Run(agent, question, tools, steps, fuel)
    decreases fuel
  {
    var decision := agent(question, steps);
    if decision.Action? {
      var found := FindToolByName(tools, decision.action.tool);
      if found.Success? {
        var next := steps + [Step(decision.action, found.value.run(decision.action.toolInput))];
        RunFuelMonotone(agent, question, tools, next, fuel - 1, more);
      }
    }
  }

  /**
   * The `while` loop of the script. `agentStep` and `intermediateSteps` are
   * `agent_step` and `intermediate_steps`; `fuel` bounds the number of agent
   * calls, which the script leaves unbounded.
   */
  method RunAgent(agent: Agent, question: string, tools: seq<Tool>, fuel: nat) returns (outcome: Outcome)
    ensures outcome == Run(agent, question, tools, [], fuel)
    ensures Replays(agent, question, tools, outcome.history)
    ensures outcome.Finished? ==> agent(question, outcome.history) == Finish(outcome.finish)
  {
    var agentStep: AgentStep := NoStep;
    var intermediateSteps: seq<Step> := [];
    var calls: nat := 0;
    while !agentStep.Finish?
      invariant calls <= fuel
      invariant Replays(agent, question, tools, intermediateSteps)
      invariant !agentStep.Finish? ==>
        Run(agent, question, tools, [], fuel) == Run(agent, question, tools, intermediateSteps, fuel - calls)
      invariant agentStep.Finish? ==>
        Run(agent, question, tools, [], fuel) == Finished(agentStep.finish, intermediateSteps) &&
        agent(question, intermediateSteps) == agentStep
      decreases fuel - calls
    {
      if calls == fuel {
        return OutOfFuel(intermediateSteps);
      }
      agentStep := agent(question, intermediateSteps);
      calls := calls + 1;
      if agentStep.Action? {
        var toolToUse := FindToolByName(tools, agentStep.action.tool);
        if toolToUse.Failure? {
          return ToolLookupFailed(toolToUse.error, intermediateSteps);
        }
        var observation := toolToUse.value.run(agentStep.action.toolInput);
        ghost var before := intermediateSteps;
        intermediateSteps := intermediateSteps + [Step(agentStep.action, observation)];
        ReplaysAppend(agent, question, tools, before, Step(agentStep.action, observation));
      }
    }
    // The block after the loop that runs one more action can never execute:
    // the loop only exits on a finish.
    if agentStep.Action? {
      assert false;
    }
    outcome := Finished(agentStep.finish, intermediateSteps);
  }

  /** The action that asks `get_text_length` about `word`, quoted as the model writes it. */
  function LengthAction(word: string): (action: AgentAction)
  {
    AgentAction("get_text_length", "'" + word + "'", "Action: get_text_length\nAction Input: '" + word + "'")
  }

  /** The final answer that reports `count`. */
  function LengthAnswer(count: string): (finish: AgentFinish)
  {
    AgentFinish(map["output" := count], "Final Answer: " + count)
  }

  /**
   * An agent that first asks for the length of `word` and then answers with
   * whatever observation it was shown.
   */
  function LengthAgent(word: string): (agent: Agent)
  {
    (question: string, steps: seq<Step>) =>
      if steps == [] then Action(LengthAction(word)) else Finish(LengthAnswer(steps[0].observation))
  }

  /**
   * With a tool called `get_text_length` registered, that agent's run takes
   * two agent calls, runs the tool exactly once, on the quoted word, records
   * that one step and ends by reporting the tool's observation.
   */
  lemma {:induction false} LengthAgentRun(word: string, tool: Tool, question: string, fuel: nat)
    requires tool.name == "get_text_length" && fuel >= 2
    ensures var count := tool.run("'" + word + "'");
      Run(LengthAgent(word), question, [tool], [], fuel) ==
      Finished(LengthAnswer(count), [Step(LengthAction(word), count)])
  {
    var step := Step(LengthAction(word), tool.run(LengthAction(word).toolInput));
    assert FindToolByName([tool], "get_text_length") == Success(tool);
    assert StepFollows(LengthAgent(word), question, [tool], [], step);
    assert [step][..0] == [];
    assert Replays(LengthAgent(word), question, [tool], [step]);
    RunFinishesOnReplayedHistory(LengthAgent(word), question, [tool], [], [step],
                                 LengthAnswer(step.observation), fuel);
  }
}
