/**
 * The subagent runner of src/tools/handlers/task.ts: the tools a subagent
 * type may use, its isolated history, its loop, and the summary it hands
 * back to the parent agent.
 *
 * The summary is read from the last assistant message of the subagent's
 * history; as written, the final response is never appended to that
 * history, so the summary is the text of the last tool round, not the
 * final reply (see `RunTaskAgentIntended` for the corrected runner).
 */
module TaskRunner {
  import opened Wrappers
  import opened Types
  import opened Strings
  import opened OrderedMaps
  import opened Registry
  import opened ToolWiring
  import opened AgentTypes
  import opened Rounds
  import AgentLoop

  const InvalidTypePrefix: string := "错误：无效的代理类型 '"
  const NoTextSummary: string := "(子代理未返回文本)"

  /** The tools a subagent type may use, out of the given base tools, in their order. */
  function AllowedTools(base: seq<ToolSpec>, t: AgentType): (r: seq<ToolSpec>)
    ensures ConfigOf(t).tools == AllTools ==> r == base
    ensures forall x :: x in r <==> x in base && (ConfigOf(t).tools.Only? ==> x.name in ConfigOf(t).tools.names)
  {
    match ConfigOf(t).tools
    case AllTools => base
    case Only(names) => ByNames(base, names)
  }

  /** `getToolsForAgent`: never more than the base tools, so never a tool that spawns agents. */
  function GetToolsForAgent<H>(reg: ToolRegistry<H>, t: AgentType): (r: seq<ToolSpec>)
    reads reg
    requires reg.Valid()
    ensures forall x :: x in r ==> x in reg.GetBaseTools() && !Spawns(x)
  {
    AllowedTools(reg.GetBaseTools(), t)
  }

  /** Of the five standard base tools, the read-only agents keep the first two. */
  lemma ReadOnlySelection()
    ensures ByNames(StandardTools[..5], ReadOnlyTools) == StandardTools[..2]
  {
    var five, two, three := StandardTools[..5], StandardTools[..2], StandardTools[2..5];
    assert five == two + three;
    ByNamesAppend(two, three, ReadOnlyTools);
    FirstTwoReadOnly();
    NextThreeWrite();
  }

  /** `bash` and `read_file`, registered first, are the read-only tools. */
  lemma FirstTwoReadOnly()
    ensures ByNames(StandardTools[..2], ReadOnlyTools) == StandardTools[..2]
  {
    ByNamesKeepsAll(StandardTools[..2], ReadOnlyTools);
  }

  /** The other three base tools are not read-only. */
  lemma NextThreeWrite()
    ensures ByNames(StandardTools[2..5], ReadOnlyTools) == []
  {
    ByNamesDropsAll(StandardTools[2..5], ReadOnlyTools);
  }

  /**
   * With the standard registry, `explore` and `plan` get `bash` and
   * `read_file`, and `code` gets the five base tools.
   */
  lemma StandardAgentTools(reg: ToolRegistry<Handler>, t: AgentType)
    requires reg.entries == StandardEntries()
    ensures reg.Valid()
    ensures GetToolsForAgent(reg, t) == if t == Code then StandardTools[..5] else StandardTools[..2]
  {
    StandardBaseTools();
    if t != Code {
      ReadOnlySelection();
    }
  }

  /** The text blocks of a list of blocks, in order. */
  function TextBlocks(blocks: seq<Block>): (r: seq<string>)
    ensures |r| <= |blocks|
  {
    if blocks == [] then []
    else (if blocks[0].Text? then [blocks[0].text] else []) + TextBlocks(blocks[1..])
  }

  /** The text blocks of a message body; a plain string is not a block list and has none. */
  function TextsOf(c: Content): seq<string> {
    match c
    case Plain(_) => []
    case Blocks(blocks) => TextBlocks(blocks)
  }

  /** The last assistant message of a history. */
  function LastAssistant(messages: seq<Message>): (r: Option<Message>)
    ensures r.None? <==> forall i :: 0 <= i < |messages| ==> messages[i].role != Assistant
    ensures r.Some? ==> r.value.role == Assistant
  {
    if messages == [] then None
    else if messages[|messages| - 1].role == Assistant then Some(messages[|messages| - 1])
    else LastAssistant(messages[..|messages| - 1])
  }

  /** The text of a reply, or the placeholder when it has no text block. */
  function SummaryOf(c: Content): string {
    if TextsOf(c) != [] then Join(TextsOf(c), "\n") else NoTextSummary
  }

  /** The summary handed back: the text of the last assistant message of the history. */
  function Summary(messages: seq<Message>): string {
    match LastAssistant(messages)
    case None => NoTextSummary
    case Some(m) => SummaryOf(m.content)
  }

  /** The subagent's history starts from the prompt alone. */
  function Isolated(prompt: string): seq<Message> {
    [Message(User, Plain(prompt))]
  }

  /**
   * The subagent loop. `keepFinal` says whether the final response is
   * appended before leaving; as written it is not.
   */
  method SubagentLoop(prompt: string, responses: seq<Response>, dispatch: Dispatcher, keepFinal: bool)
      returns (messages: seq<Message>, toolCount: nat)
    ensures var o := Run(Variant(NoNag, keepFinal), Isolated(prompt), responses, 0, 0, 0, dispatch);
            messages == o.messages && toolCount == o.calls
  {
    var v := Variant(NoNag, keepFinal);
    messages := [Message(User, Plain(prompt))];
    toolCount := 0;
    ghost var counter: nat := 0;
    ghost var rounds: nat := 0;
    var i := 0;
    while i < |responses|
      invariant i <= |responses|
      invariant Run(v, messages, responses[i..], counter, toolCount, rounds, dispatch)
                == Run(v, Isolated(prompt), responses, 0, 0, 0, dispatch)
      decreases |responses| - i
    {
      assert responses[i..][0] == responses[i] && responses[i..][1..] == responses[i + 1..];
      var response := responses[i];
      if response.stopReason != ToolUseStop {
        if keepFinal {
          messages := messages + [Message(Assistant, Blocks(response.content))];
        }
        return;
      }
      var toolCalls := ToolUses(response.content);
      ghost var before := messages;
      var results, usedTodo := AgentLoop.ExecuteToolCalls(toolCalls, toolCount, dispatch);
      counter := NextCounter(counter, usedTodo);
      messages := messages + [Message(Assistant, Blocks(response.content))];
      messages := messages + [Message(User, Blocks(results))];
      assert results == NagBlocks(v, counter) + ResultsFor(toolCalls, toolCount, dispatch);
      assert messages == before + RoundMessages(v, counter, toolCount, response.content, dispatch);
      toolCount := toolCount + |toolCalls|;
      rounds := rounds + 1;
      i := i + 1;
    }
  }

  /**
   * `runTaskAgent`: an unknown agent type is refused before anything else;
   * otherwise the subagent runs from the prompt alone and the summary is
   * read from its history.
   */
  method RunTaskAgent(description: string, prompt: string, agentType: string, responses: seq<Response>,
                      dispatch: Dispatcher) returns (r: string)
    ensures !IsValidAgentType(agentType) ==> r == InvalidTypePrefix + agentType + "'"
    ensures IsValidAgentType(agentType) ==>
              r == Summary(Run(Subagent, Isolated(prompt), responses, 0, 0, 0, dispatch).messages)
  {
    if !IsValidAgentType(agentType) {
      return InvalidTypePrefix + agentType + "'";
    }
    var messages, toolCount := SubagentLoop(prompt, responses, dispatch, false);
    r := Summary(messages);
  }

  /** The last assistant message of a history ending in a user message is found before it. */
  lemma LastAssistantSkipsUser(messages: seq<Message>, m: Message)
    requires m.role == User
    ensures LastAssistant(messages + [m]) == LastAssistant(messages)
  {
    assert (messages + [m])[..|messages|] == messages;
  }

  /**
   * As written, the summary is the text of the last tool round's response,
   * or the placeholder when there was no tool round: the final reply never
   * reaches it.
   */
  lemma SummaryOfLastToolRound(prompt: string, responses: seq<Response>, dispatch: Dispatcher)
    ensures var o := Run(Subagent, Isolated(prompt), responses, 0, 0, 0, dispatch);
            var n := LeadingToolRounds(responses);
            Summary(o.messages) == if n == 0 then NoTextSummary else SummaryOf(Blocks(responses[n - 1].content))
  {
    if LeadingToolRounds(responses) == 0 {
      NoToolRoundNoSummary(prompt, responses, dispatch);
    } else {
      LastToolRoundSummary(prompt, responses, dispatch);
    }
  }

  /** Without a tool round the history is the prompt alone. */
  lemma NoToolRoundNoSummary(prompt: string, responses: seq<Response>, dispatch: Dispatcher)
    requires LeadingToolRounds(responses) == 0
    ensures Run(Subagent, Isolated(prompt), responses, 0, 0, 0, dispatch).messages == Isolated(prompt)
  {
    RunLength(Subagent, Isolated(prompt), responses, 0, 0, 0, dispatch);
    RunExtends(Subagent, Isolated(prompt), responses, 0, 0, 0, dispatch);
  }

  /** After tool rounds the history ends with the last round's response and its results. */
  lemma LastToolRoundSummary(prompt: string, responses: seq<Response>, dispatch: Dispatcher)
    requires LeadingToolRounds(responses) > 0
    ensures Summary(Run(Subagent, Isolated(prompt), responses, 0, 0, 0, dispatch).messages)
            == SummaryOf(Blocks(responses[LeadingToolRounds(responses) - 1].content))
  {
    RunEndsWithLastRound(Subagent, Isolated(prompt), responses, 0, 0, 0, dispatch);
  }

  /** A run that drops the final reply ends with its last tool round. */
  lemma RunEndsWithLastRound(v: Variant, messages: seq<Message>, responses: seq<Response>, counter: nat,
                             calls: nat, rounds: nat, dispatch: Dispatcher)
    requires !v.keepsFinal
    requires LeadingToolRounds(responses) > 0
    ensures Summary(Run(v, messages, responses, counter, calls, rounds, dispatch).messages)
            == SummaryOf(Blocks(responses[LeadingToolRounds(responses) - 1].content))
  {
    var n := LeadingToolRounds(responses);
    var out := Run(v, messages, responses, counter, calls, rounds, dispatch).messages;
    RunLength(v, messages, responses, counter, calls, rounds, dispatch);
    RunRound(v, messages, responses, counter, calls, rounds, dispatch, n - 1);
    var round := RoundAt(v, counter, calls, responses, n - 1, dispatch);
    RoundAtParts(v, counter, calls, responses, n - 1, dispatch);
    LastPairSummary(out, |messages|, n, round);
  }

  /** A history of `base + 2 * n` messages whose last two are a round has that round's response as its summary. */
  lemma LastPairSummary(out: seq<Message>, base: nat, n: nat, round: seq<Message>)
    requires n > 0 && |out| == base + 2 * n
    requires out[base + 2 * (n - 1)..base + 2 * (n - 1) + 2] == round
    requires |round| == 2 && round[0].role == Assistant && round[1].role == User
    ensures Summary(out) == SummaryOf(round[0].content)
  {
    TailRoundSummary(out, base + 2 * n - 2, round);
  }

  /** A round holds the response as an assistant message, then a user message. */
  lemma RoundAtParts(v: Variant, counter: nat, calls: nat, responses: seq<Response>, j: nat, dispatch: Dispatcher)
    requires j < |responses|
    ensures var round := RoundAt(v, counter, calls, responses, j, dispatch);
            |round| == 2 && round[0] == Message(Assistant, Blocks(responses[j].content)) && round[1].role == User
  {
  }

  /** A history ending in a round has that round's response as its summary. */
  lemma TailRoundSummary(messages: seq<Message>, start: nat, round: seq<Message>)
    requires start + 2 == |messages|
    requires messages[start..start + 2] == round
    requires |round| == 2 && round[0].role == Assistant && round[1].role == User
    ensures Summary(messages) == SummaryOf(round[0].content)
  {
    assert messages == messages[..start] + round;
    SummaryAfterRound(messages[..start], round);
  }

  /** After a tool round the summary is read from that round's response. */
  lemma SummaryAfterRound(messages: seq<Message>, pair: seq<Message>)
    requires |pair| == 2 && pair[0].role == Assistant && pair[1].role == User
    ensures Summary(messages + pair) == SummaryOf(pair[0].content)
  {
    assert messages + pair == (messages + [pair[0]]) + [pair[1]];
    LastAssistantSkipsUser(messages + [pair[0]], pair[1]);
  }

  /** A concrete run: one final reply with text, and the summary is the placeholder instead of that text. */
  lemma FinalReplyDropped(prompt: string, dispatch: Dispatcher)
    ensures var o := Run(Subagent, Isolated(prompt), [Response("end_turn", [Text("完成")])], 0, 0, 0, dispatch);
            Summary(o.messages) == NoTextSummary && Summary(o.messages) != "完成"
  {
    var o := Run(Subagent, Isolated(prompt), [Response("end_turn", [Text("完成")])], 0, 0, 0, dispatch);
    assert o.messages == Isolated(prompt);
  }

  /** A tool round whose response holds one empty text block yields an empty summary. */
  lemma SummaryCanBeEmpty(prompt: string)
    ensures Summary(Isolated(prompt) + [Message(Assistant, Blocks([Text("")])), Message(User, Blocks([]))]) == ""
  {
    LastAssistantSkipsUser(Isolated(prompt) + [Message(Assistant, Blocks([Text("")]))], Message(User, Blocks([])));
    assert (Isolated(prompt) + [Message(Assistant, Blocks([Text("")])), Message(User, Blocks([]))])
           == (Isolated(prompt) + [Message(Assistant, Blocks([Text("")]))]) + [Message(User, Blocks([]))];
  }

  /**
   * The runner as evidently intended: the final response is kept, so the
   * summary is the text of the final reply whenever the subagent finishes.
   */
  method RunTaskAgentIntended(description: string, prompt: string, agentType: string, responses: seq<Response>,
                              dispatch: Dispatcher) returns (r: string)
    ensures !IsValidAgentType(agentType) ==> r == InvalidTypePrefix + agentType + "'"
    ensures IsValidAgentType(agentType) && LeadingToolRounds(responses) < |responses| ==>
              r == SummaryOf(Blocks(responses[LeadingToolRounds(responses)].content))
  {
    if !IsValidAgentType(agentType) {
      return InvalidTypePrefix + agentType + "'";
    }
    var messages, toolCount := SubagentLoop(prompt, responses, dispatch, true);
    if LeadingToolRounds(responses) < |responses| {
      RunFinal(Variant(NoNag, true), Isolated(prompt), responses, 0, 0, 0, dispatch);
      assert messages == messages[..|messages| - 1] + [messages[|messages| - 1]];
    }
    r := Summary(messages);
  }
}
