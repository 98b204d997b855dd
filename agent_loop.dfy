/**
 * The main conversation loop of src/core/agent.ts. Each round calls the
 * model, collects the tool calls of its response, runs them in order, and
 * appends the response and the results to the caller's history; after ten
 * rounds without a `todo_write` call a reminder result goes first.
 *
 * The model's responses are the input `responses`; the tools are the
 * `dispatch` oracle. The history the source pushes to in place is passed
 * in and returned.
 */
module AgentLoop {
  import opened Types
  import opened Limits
  import opened Registry
  import opened ToolWiring
  import opened Rounds

  datatype AgentState = AgentState(round: nat, roundsWithoutTodo: nat, isActive: bool)

  /** `createInitialState`. */
  function CreateInitialState(): (s: AgentState)
    ensures s.round == 0 && s.roundsWithoutTodo == 0 && s.isActive
  {
    AgentState(0, 0, true)
  }

  /** The tools offered to the model: the base tools, then `Task` and `Skill`. */
  function AdvertisedTools(): seq<ToolSpec> {
    BaseOf(ToolsOf(StandardEntries())) + [TaskTool, SkillTool]
  }

  /** The main loop offers exactly the seven registered tools, in registration order. */
  lemma AdvertisedToolsAreAll()
    ensures AdvertisedTools() == StandardTools
  {
    StandardBaseTools();
    LastTwoAreSpawners();
    assert StandardTools == StandardTools[..5] + StandardTools[5..];
  }

  /** The two tools registered last are `Task` and `Skill`. */
  lemma LastTwoAreSpawners()
    ensures StandardTools[5..] == [TaskTool, SkillTool]
  {
  }

  /** The loop over a response's blocks that keeps the tool calls. */
  method CollectToolUses(content: seq<Block>) returns (calls: seq<Block>)
    ensures calls == ToolUses(content)
  {
    calls := [];
    for j := 0 to |content|
      invariant calls == ToolUses(content[..j])
    {
      assert content[..j + 1] == content[..j] + [content[j]];
      ToolUsesAppend(content[..j], [content[j]]);
      if content[j].ToolUse? {
        calls := calls + [content[j]];
      }
    }
    assert content[..|content|] == content;
  }

  /** The loop that runs a round's calls: one result per call, and whether any was `todo_write`. */
  method ExecuteToolCalls(calls: seq<Block>, first: nat, dispatch: Dispatcher)
      returns (results: seq<Block>, usedTodo: bool)
    requires AllToolUses(calls)
    ensures results == ResultsFor(calls, first, dispatch)
    ensures usedTodo == UsesTodo(calls)
  {
    results := [];
    usedTodo := false;
    for j := 0 to |calls|
      invariant results == ResultsFor(calls[..j], first, dispatch)
      invariant usedTodo <==> exists k :: 0 <= k < j && calls[k].name == TodoToolName
    {
      var tc := calls[j];
      var output := dispatch(first + j, tc.name, tc.input);
      results := results + [ToolResult(tc.id, output)];
      if tc.name == TodoToolName {
        usedTodo := true;
      }
    }
    assert calls[..|calls|] == calls;
  }

  /**
   * `agentLoop`: runs rounds until a response does not ask for tools
   * (`finished`) or the given responses run out. The history, the round
   * number and the counter of rounds without a to-do list update are those
   * of `Run` for the main loop.
   */
  method Loop(messages: seq<Message>, responses: seq<Response>, dispatch: Dispatcher)
      returns (history: seq<Message>, state: AgentState, finished: bool)
    ensures var o := Run(Main, messages, responses, 0, 0, 0, dispatch);
            history == o.messages && state.round == o.rounds && state.roundsWithoutTodo == o.counter
            && finished == o.finished
  {
    state := CreateInitialState();
    history := messages;
    finished := false;
    var calls: nat := 0;
    var i := 0;
    while state.isActive && i < |responses|
      invariant i <= |responses| && state.isActive
      invariant Run(Main, history, responses[i..], state.roundsWithoutTodo, calls, state.round, dispatch)
                == Run(Main, messages, responses, 0, 0, 0, dispatch)
      decreases |responses| - i
    {
      assert responses[i..][0] == responses[i] && responses[i..][1..] == responses[i + 1..];
      state := state.(round := state.round + 1);
      var response := responses[i];
      var toolCalls := CollectToolUses(response.content);
      if response.stopReason != ToolUseStop {
        history := history + [Message(Assistant, Blocks(response.content))];
        finished := true;
        return;
      }
      ghost var before := history;
      var results, usedTodo := ExecuteToolCalls(toolCalls, calls, dispatch);
      state := state.(roundsWithoutTodo := if usedTodo then 0 else state.roundsWithoutTodo + 1);
      history := history + [Message(Assistant, Blocks(response.content))];
      if state.roundsWithoutTodo > MaxRoundsWithoutTodo {
        results := [ToolResult(NagId, NagReminder)] + results;
      }
      history := history + [Message(User, Blocks(results))];
      assert results == NagBlocks(Main, state.roundsWithoutTodo) + ResultsFor(toolCalls, calls, dispatch);
      assert history == before + RoundMessages(Main, state.roundsWithoutTodo, calls, response.content, dispatch);
      calls := calls + |toolCalls|;
      i := i + 1;
    }
  }
}
