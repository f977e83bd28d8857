# ReAct agent loop with a `get_text_length` tool

A Dafny model of the logic that the `react-langchain` script (`main.py`) writes itself.
The script registers one tool, `get_text_length`, and drives a LangChain ReAct agent.
The driver is a `while` loop. It asks the agent for a decision. On an action, it looks up the
named tool, runs it on the action's input and appends `(action, observation)` to
`intermediate_steps`. It stops when the agent returns a finish.

The model has four modules, one per concern of `main.py`:

- `Wrappers` (`wrappers.dfy`): a `Result` datatype that stands for "returns a value or raises".
- `TextLength` (`text_length.dfy`): Python's two-ended `str.strip(chars)` on `string`, and
  `get_text_length`. The function strips `'` and newline, then `"`, then takes `len`.
  The strip is specified by the unique-maximal-trim property (`StripUnique`), which is proved.
- `ToolRegistry` (`tool_registry.dfy`): tools as a name plus an abstract `string -> string`
  function. It holds `find_tool_by_name`, which returns the first exact-name match or
  `ValueError("Tool with name … not found")`. It also holds the registered `get_text_length`
  tool, whose run includes Python's `str` of the integer result.
- `AgentLoop` (`agent_loop.dfy`): the decision types, the driver loop as the method
  `RunAgent`, and the recursive function `Run` that specifies it. `Replays` is a
  predicate that says what a recorded history must be. The lemmas cover append-only
  history, exit only on finish, determinism, the converse direction, and independence
  from the fuel bound.

The agent (`agent.invoke`: prompt template, chat model, ReAct output parser) is a
parameter: a total function from the question and the steps so far to a `Decision`.
A `Decision` is an `Action(AgentAction)` or a `Finish(AgentFinish)`. The `agent_step`
variable starts as the empty string. It is modelled by a third constructor, `NoStep`,
which the `Decision` subset type excludes.

The script's loop has no bound. The model bounds the number of agent calls by a `fuel`
argument. `OutOfFuel` means the script would still be looping. `RunFuelMonotone` shows
that any other outcome does not depend on how much fuel was given. The post-loop block at
`main.py:102-110` re-runs the loop body when `agent_step` is an action. `RunAgent` keeps
it as an `if` whose body is `assert false`: the verifier proves the guard false whenever
the loop has exited.

The driver's error behaviour, as the code has it:
- The driver does not catch exceptions raised by a tool; they propagate out of the loop.
- The `while` loop has no iteration bound.
- An unknown tool name raises `ValueError` out of the loop. The model returns this as
  `ToolLookupFailed` together with the history so far.

## Model

| member | source | states |
|---|---|---|
| `TextLength.StripLeading` | main.py:24 | the leading pass of `str.strip` never lengthens its input |
| `TextLength.StripTrailing` | main.py:24 | the trailing pass of `str.strip` never lengthens its input |
| `TextLength.Strip` | main.py:24 | `str.strip(chars)` never lengthens its input |
| `TextLength.GetTextLength` | main.py:17-25 | the reported length is at most the length of the text received |
| `TextLength.StripLeadingAt` | main.py:24 | the leading pass cuts exactly at the end of the leading run of strip characters |
| `TextLength.StripLeadingCut` | main.py:24 | the leading pass removes a whole leading run of strip characters, and nothing beyond it |
| `TextLength.StripTrailingAt` | main.py:24 | the trailing pass cuts exactly at the start of the trailing run of strip characters |
| `TextLength.StripTrailingCut` | main.py:24 | the trailing pass removes a whole trailing run of strip characters, and nothing before it |
| `TextLength.StripTrims` | main.py:24 | `strip` leaves a slice of the input: only strip characters are cut at each end, and the result neither starts nor ends with one |
| `TextLength.StripUnique` | main.py:24 | any such maximal trim equals what `strip` returns, so `strip` is the unique maximal two-ended trim |
| `TextLength.StripIdempotent` | main.py:24 | stripping twice with the same characters gives the same result as stripping once |
| `TextLength.GetTextLengthUnquoted` | main.py:24-25 | a text that neither starts nor ends with `'`, newline or `"` is counted in full |
| `TextLength.GetTextLengthQuoted` | main.py:24-25 | a word in one pair of single or double quotes is counted without the quotes |
| `TextLength.GetTextLengthDog` | main.py:24-25 | `dog` counts 3 |
| `TextLength.GetTextLengthQuotedDog` | main.py:24-25 | `'dog'`, as the agent passes it, counts 3 |
| `TextLength.GetTextLengthPassOrder` | main.py:24 | the passes run in order: single quotes nested inside double quotes are kept and counted |
| `ToolRegistry.FindToolByName` | main.py:27-31 | a returned tool is in the list and has exactly the requested name; failure happens exactly when no tool has that name, and carries the `ValueError` message of line 31 |
| `ToolRegistry.FindToolByNameFirstMatch` | main.py:28-30 | the tool returned is the one at the first position with a matching name, even when later tools share it |
| `ToolRegistry.NatToDecimal` | main.py:98 | `str` of a non-negative count is a non-empty string of decimal digits with no leading zero: a result starting with `0` is exactly `"0"`, which is what 0, and only 0, gives |
| `ToolRegistry.NatToDecimalRoundTrip` | main.py:98 | reading back the digits that `str` writes gives the count again |
| `ToolRegistry.GetTextLengthToolQuoted` | main.py:17-25 | the registered tool, given a word in single quotes, returns the word's length in decimal |
| `AgentLoop.Run` | main.py:79-98 | the history only grows by appending: it starts with the steps already recorded, it gains at most one step per agent call, and a run that is cut off has exactly one step per call |
| `AgentLoop.ReplaysAppend` | main.py:98 | appending the step that follows a recorded history keeps every earlier entry, in order, and keeps the history valid |
| `AgentLoop.RunReplays` | main.py:80-98 | every recorded step is the action the agent chose given the steps before it, paired with its tool's observation; a run finishes only when the agent returned a finish for the final history; a lookup failure happens only on an action naming no registered tool |
| `AgentLoop.ReplaysAgree` | main.py:81-98 | any two histories the loop could record agree on their common prefix, so the loop is deterministic given the agent |
| `AgentLoop.RunFinishesOnReplayedHistory` | main.py:80-98 | conversely, a valid history after which the agent finishes is exactly the loop's result, with one step per action decision and the finish as the last decision |
| `AgentLoop.RunFuelMonotone` | main.py:80 | once a run ends without being cut off, more fuel gives the same outcome, so the bound adds no behaviour |
| `AgentLoop.RunAgent` | main.py:79-110 | the loop computes `Run` from an empty history; its history is valid; it exits with a finish only when the agent returned that finish; the post-loop action block is unreachable |
| `AgentLoop.LengthAgentRun` | main.py:79-98 | over the tool list of main.py:35, with a tool named `get_text_length` registered, an agent that asks about a quoted word and then answers makes two calls, runs the tool once on the quoted word, records one step and reports the tool's observation |

## Left out

- The chat model call, its stop sequences, the callbacks in `callbacks.py` and `load_dotenv`
  (main.py:14, main.py:66) are network I/O, logging and environment setup. The whole pipeline
  is the abstract `Agent` function.
- The prompt template, `render_text_description`, `format_log_to_str` and
  `ReActSingleInputOutputParser` (main.py:37-77) are library code not shown here. The model
  claims only that each agent call yields an action or a finish. It makes no claim about
  parsing or scratchpad text.
- An agent call that raises is not modelled: `ReActSingleInputOutputParser` raising on text
  it cannot parse, or the chat model call failing. In the script that exception propagates
  out of the `while` loop with `intermediate_steps` unchanged. The `Agent` function is total,
  so the model has no such outcome.
- The `@tool` decorator and the internals of LangChain's `Tool` (main.py:8, main.py:17) are
  not modelled. A tool is its name plus a total `string -> string` function, which stands for
  `str(tool.func(str(tool_input)))`. `tool_input` is already a string, so the inner `str` is
  the identity. Tool descriptions are used only by the prompt renderer.
- Exceptions raised inside a tool are not modelled. The code does not catch them, and
  `get_text_length` raises none on a string.
- Every `print` call (main.py:22, 88, 97, 100, 109, 119-122) is console output with no effect
  on control flow.
- The final `agent.invoke` with a second question (main.py:112-122) is one more agent call
  followed by printing. It adds nothing to verify.
- The body of the post-loop block (main.py:103-110) is not modelled. `RunAgent` proves that
  it never runs.
- RunAgent: the number of agent calls is bounded by `fuel`, while the script loops without a
  bound. A run the script would continue ends here as `OutOfFuel`. `RunFuelMonotone` shows
  that the bound changes no other outcome.
- The concrete scenario "the agent asks about `'dog'`, then answers 3" is covered by two
  lemmas together: `LengthAgentRun` for any tool named `get_text_length`, and
  `GetTextLengthToolQuoted` for the registered tool. No single lemma restates it with the
  literal strings.
