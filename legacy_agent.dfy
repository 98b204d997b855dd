/**
 * The older top-level loop of agent.ts. It keeps its counter of rounds
 * without a to-do list update in a local variable and, once that counter
 * passes ten, puts the reminder in front of the round's results as a text
 * block rather than as a tool result. Otherwise a round is the same as in
 * the main loop.
 */
module LegacyAgent {
  import opened Types
  import opened Limits
  import opened Rounds
  import AgentLoop

  /**
   * `agentLoop` of agent.ts: the history it leaves behind and whether a
   * response without tool calls ended it, as `Run` for the legacy variant.
   */
  method LegacyLoop(messages: seq<Message>, responses: seq<Response>, dispatch: Dispatcher)
      returns (history: seq<Message>, finished: bool)
    ensures var o := Run(LegacyMain, messages, responses, 0, 0, 0, dispatch);
            history == o.messages && finished == o.finished
  {
    history := messages;
    finished := false;
    var roundsWithoutTodo: nat := 0;
    var calls: nat := 0;
    ghost var rounds: nat := 0;
    var i := 0;
    while i < |responses|
      invariant i <= |responses|
      invariant Run(LegacyMain, history, responses[i..], roundsWithoutTodo, calls, rounds, dispatch)
                == Run(LegacyMain, messages, responses, 0, 0, 0, dispatch)
      decreases |responses| - i
    {
      assert responses[i..][0] == responses[i] && responses[i..][1..] == responses[i + 1..];
      var response := responses[i];
      var toolCalls := AgentLoop.CollectToolUses(response.content);
      if response.stopReason != ToolUseStop {
        history := history + [Message(Assistant, Blocks(response.content))];
        finished := true;
        return;
      }
      ghost var before := history;
      var results, usedTodo := AgentLoop.ExecuteToolCalls(toolCalls, calls, dispatch);
      roundsWithoutTodo := if usedTodo then 0 else roundsWithoutTodo + 1;
      history := history + [Message(Assistant, Blocks(response.content))];
      if roundsWithoutTodo > 10 {
        results := [Text(NagReminder)] + results;
      }
      history := history + [Message(User, Blocks(results))];
      assert results == NagBlocks(LegacyMain, roundsWithoutTodo) + ResultsFor(toolCalls, calls, dispatch);
      assert history == before + RoundMessages(LegacyMain, roundsWithoutTodo, calls, response.content, dispatch);
      calls := calls + |toolCalls|;
      rounds := rounds + 1;
      i := i + 1;
    }
  }

  /** Before the reminder is due, a legacy round and a main-loop round append the same messages. */
  lemma SameRoundWithoutReminder(counter: nat, first: nat, content: seq<Block>, dispatch: Dispatcher)
    requires counter <= MaxRoundsWithoutTodo
    ensures RoundMessages(LegacyMain, counter, first, content, dispatch)
            == RoundMessages(Main, counter, first, content, dispatch)
  {
  }

  /** Once due, the two loops put the same reminder text in front, in different kinds of block. */
  lemma ReminderKinds(counter: nat)
    requires counter > MaxRoundsWithoutTodo
    ensures NagBlocks(LegacyMain, counter) == [Text(NagReminder)]
    ensures NagBlocks(Main, counter) == [ToolResult(NagId, NagReminder)]
  {
  }
}
