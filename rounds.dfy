/**
 * The round structure shared by the three conversation loops: the main
 * agent loop of src/core/agent.ts, its older copy agent.ts, and the
 * subagent loop of src/tools/handlers/task.ts (and tools/task.ts).
 *
 * Each loop asks the model for a response; a response that does not stop
 * for `tool_use` ends the loop, and otherwise every tool call in it is run,
 * in order, and the assistant message and one user message holding the
 * results are appended to the history. The loops differ only in the
 * reminder they add after ten rounds without a to-do list update and in
 * whether the final response is kept.
 *
 * The model is an input: the sequence of responses it gives, in order.
 * The tools are a `Dispatcher` numbering the calls of one loop.
 */
module Rounds {
  import opened Types
  import opened Limits

  const ToolUseStop: string := "tool_use"
  const TodoToolName: string := "todo_write"
  const NagId: string := "nag"
  const NagReminder: string := "<reminder>已超过 10 轮没有更新待办事项。请更新待办事项。</reminder>"

  /** The tool calls of a response, in the order they were emitted. */
  function ToolUses(content: seq<Block>): (r: seq<Block>)
    ensures forall i :: 0 <= i < |r| ==> r[i].ToolUse?
    ensures |r| <= |content|
  {
    if content == [] then []
    else (if content[0].ToolUse? then [content[0]] else []) + ToolUses(content[1..])
  }

  /** The tool calls are exactly the tool-use blocks of the response. */
  lemma {:induction false} ToolUsesMembers(content: seq<Block>)
    ensures forall b :: b in ToolUses(content) <==> b in content && b.ToolUse?
  {
    if content != [] {
      ToolUsesMembers(content[1..]);
      assert content == [content[0]] + content[1..];
    }
  }

  /** Collecting tool calls distributes over concatenation: the order of emission is kept. */
  lemma {:induction false} ToolUsesAppend(a: seq<Block>, b: seq<Block>)
    ensures ToolUses(a + b) == ToolUses(a) + ToolUses(b)
  {
    if a == [] {
      assert a + b == b;
    } else {
      assert (a + b)[1..] == a[1..] + b;
      ToolUsesAppend(a[1..], b);
    }
  }

  predicate AllToolUses(calls: seq<Block>) {
    forall i :: 0 <= i < |calls| ==> calls[i].ToolUse?
  }

  /** The results of a round's calls: the call numbered `first + i` is `calls[i]`. */
  function ResultsFor(calls: seq<Block>, first: nat, dispatch: Dispatcher): (r: seq<Block>)
    requires AllToolUses(calls)
    ensures |r| == |calls|
  {
    seq(|calls|, i requires 0 <= i < |calls| => ToolResult(calls[i].id, dispatch(first + i, calls[i].name, calls[i].input)))
  }

  /** Every tool call gets exactly one result, in call order, carrying the call's id and the tool's output. */
  lemma ResultsAnswerCalls(calls: seq<Block>, first: nat, dispatch: Dispatcher)
    requires AllToolUses(calls)
    ensures forall i :: 0 <= i < |calls| ==>
              ResultsFor(calls, first, dispatch)[i].ToolResult?
              && ResultsFor(calls, first, dispatch)[i].toolUseId == calls[i].id
              && ResultsFor(calls, first, dispatch)[i].content == dispatch(first + i, calls[i].name, calls[i].input)
  {
  }

  /** Some call of the round updates the to-do list. */
  predicate UsesTodo(calls: seq<Block>)
    requires AllToolUses(calls)
  {
    exists i :: 0 <= i < |calls| && calls[i].name == TodoToolName
  }

  /** `roundsWithoutTodo` after a round. */
  function NextCounter(counter: nat, usedTodo: bool): (r: nat)
    ensures r == 0 <==> usedTodo
    ensures !usedTodo ==> r > counter
  {
    if usedTodo then 0 else counter + 1
  }

  /** What a loop puts in front of a round's results once the reminder is due. */
  datatype NagStyle = NoNag | NagAsResult | NagAsText

  /** A loop: its reminder and whether it keeps the final response in the history. */
  datatype Variant = Variant(nag: NagStyle, keepsFinal: bool)

  /** src/core/agent.ts: the reminder is a tool result with id `nag`. */
  const Main: Variant := Variant(NagAsResult, true)
  /** agent.ts: the reminder is a text block. */
  const LegacyMain: Variant := Variant(NagAsText, true)
  /** The subagent loops: no reminder, and the final response is dropped. */
  const Subagent: Variant := Variant(NoNag, false)

  /** What goes in front of a round's results once the counter has passed the limit. */
  function NagBlocks(v: Variant, counter: nat): (r: seq<Block>)
    ensures |r| <= 1
    ensures r != [] <==> v.nag != NoNag && counter > MaxRoundsWithoutTodo
  {
    if counter <= MaxRoundsWithoutTodo then []
    else match v.nag
      case NagAsResult => [ToolResult(NagId, NagReminder)]
      case NagAsText => [Text(NagReminder)]
      case NoNag => []
  }

  /** Once due, the reminder comes back every round until the to-do list is updated. */
  lemma NagRepeats(v: Variant, counter: nat, usedTodo: bool)
    requires NagBlocks(v, counter) != []
    ensures NagBlocks(v, NextCounter(counter, usedTodo)) != [] <==> !usedTodo
  {
  }

  /** After an update the reminder stays away for the next `MaxRoundsWithoutTodo` rounds at least. */
  lemma NagQuietAfterUpdate(v: Variant, counter: nat)
    requires counter <= MaxRoundsWithoutTodo
    ensures NagBlocks(v, counter) == []
  {
  }

  /** The two messages a tool round appends. */
  function RoundMessages(v: Variant, counter: nat, first: nat, content: seq<Block>, dispatch: Dispatcher): seq<Message> {
    [Message(Assistant, Blocks(content)),
     Message(User, Blocks(NagBlocks(v, counter) + ResultsFor(ToolUses(content), first, dispatch)))]
  }

  /** How a run over a given list of responses ends. */
  datatype Outcome = Outcome(messages: seq<Message>, rounds: nat, counter: nat, calls: nat, finished: bool)

  /**
   * The loop from the given history, counter, call number and round number,
   * taking the responses in order. It stops at the first response that does
   * not stop for `tool_use` (`finished`) or when the responses run out.
   */
  function Run(v: Variant, messages: seq<Message>, responses: seq<Response>, counter: nat, calls: nat,
               rounds: nat, dispatch: Dispatcher): Outcome
    decreases |responses|
  {
    if responses == [] then Outcome(messages, rounds, counter, calls, false)
    else if responses[0].stopReason != ToolUseStop then
      var last := if v.keepsFinal then [Message(Assistant, Blocks(responses[0].content))] else [];
      Outcome(messages + last, rounds + 1, counter, calls, true)
    else
      var tc := ToolUses(responses[0].content);
      var c := NextCounter(counter, UsesTodo(tc));
      Run(v, messages + RoundMessages(v, c, calls, responses[0].content, dispatch), responses[1..], c,
          calls + |tc|, rounds + 1, dispatch)
  }

  /** The number of responses before the first one that does not ask for tools. */
  function LeadingToolRounds(responses: seq<Response>): (r: nat)
    ensures r <= |responses|
    ensures forall j :: 0 <= j < r ==> responses[j].stopReason == ToolUseStop
    ensures r < |responses| ==> responses[r].stopReason != ToolUseStop
  {
    if responses == [] || responses[0].stopReason != ToolUseStop then 0
    else 1 + LeadingToolRounds(responses[1..])
  }

  /** The number of tool calls in the given responses. */
  function CallsIn(responses: seq<Response>): nat {
    if responses == [] then 0 else |ToolUses(responses[0].content)| + CallsIn(responses[1..])
  }

  /** The counter after tool rounds `0..j` of the responses. */
  function CounterAfter(counter: nat, responses: seq<Response>, j: nat): nat
    requires j < |responses|
    decreases j
  {
    var c := NextCounter(counter, UsesTodo(ToolUses(responses[0].content)));
    if j == 0 then c else CounterAfter(c, responses[1..], j - 1)
  }

  /** The history only grows: the messages given are kept, in front. */
  lemma {:induction false} RunExtends(v: Variant, messages: seq<Message>, responses: seq<Response>, counter: nat,
                                      calls: nat, rounds: nat, dispatch: Dispatcher)
    ensures var o := Run(v, messages, responses, counter, calls, rounds, dispatch);
            |messages| <= |o.messages| && o.messages[..|messages|] == messages
    decreases |responses|
  {
    if responses != [] && responses[0].stopReason == ToolUseStop {
      var tc := ToolUses(responses[0].content);
      var c := NextCounter(counter, UsesTodo(tc));
      var next := messages + RoundMessages(v, c, calls, responses[0].content, dispatch);
      RunExtends(v, next, responses[1..], c, calls + |tc|, rounds + 1, dispatch);
      assert next[..|messages|] == messages;
    }
  }

  /**
   * The loop finishes exactly when some response does not ask for tools; the
   * rounds are the model calls made, and the call count grows by the number
   * of tool calls in the tool rounds.
   */
  lemma {:induction false} RunCounts(v: Variant, messages: seq<Message>, responses: seq<Response>, counter: nat,
                                     calls: nat, rounds: nat, dispatch: Dispatcher)
    ensures var o := Run(v, messages, responses, counter, calls, rounds, dispatch);
            var n := LeadingToolRounds(responses);
            && (o.finished <==> n < |responses|)
            && o.rounds == rounds + n + (if o.finished then 1 else 0)
            && o.calls == calls + CallsIn(responses[..n])
    decreases |responses|
  {
    if responses != [] && responses[0].stopReason == ToolUseStop {
      var tc := ToolUses(responses[0].content);
      var c := NextCounter(counter, UsesTodo(tc));
      var next := messages + RoundMessages(v, c, calls, responses[0].content, dispatch);
      RunCounts(v, next, responses[1..], c, calls + |tc|, rounds + 1, dispatch);
      var n := LeadingToolRounds(responses);
      assert responses[..n][1..] == responses[1..][..n - 1];
    } else {
      assert responses[..0] == [];
    }
  }

  /** The history grows by two messages per tool round and one for a kept final response. */
  lemma {:induction false} RunLength(v: Variant, messages: seq<Message>, responses: seq<Response>, counter: nat,
                                     calls: nat, rounds: nat, dispatch: Dispatcher)
    ensures var o := Run(v, messages, responses, counter, calls, rounds, dispatch);
            var n := LeadingToolRounds(responses);
            |o.messages| == |messages| + 2 * n + (if n < |responses| && v.keepsFinal then 1 else 0)
    decreases |responses|
  {
    if responses != [] && responses[0].stopReason == ToolUseStop {
      var tc := ToolUses(responses[0].content);
      var c := NextCounter(counter, UsesTodo(tc));
      var next := messages + RoundMessages(v, c, calls, responses[0].content, dispatch);
      RunLength(v, next, responses[1..], c, calls + |tc|, rounds + 1, dispatch);
    }
  }

  /** The two messages of tool round `j`: its counter and its first call number come from the rounds before. */
  function RoundAt(v: Variant, counter: nat, calls: nat, responses: seq<Response>, j: nat,
                   dispatch: Dispatcher): seq<Message>
    requires j < |responses|
  {
    RoundMessages(v, CounterAfter(counter, responses, j), calls + CallsIn(responses[..j]), responses[j].content, dispatch)
  }

  /** The messages a run appends start with those of its first round, if that is a tool round. */
  lemma RunFirstRound(v: Variant, messages: seq<Message>, responses: seq<Response>, counter: nat,
                      calls: nat, rounds: nat, dispatch: Dispatcher)
    requires 0 < LeadingToolRounds(responses)
    ensures var o := Run(v, messages, responses, counter, calls, rounds, dispatch);
            |messages| + 2 <= |o.messages|
            && o.messages[|messages|..|messages| + 2] == RoundAt(v, counter, calls, responses, 0, dispatch)
  {
    var tc := ToolUses(responses[0].content);
    var c := NextCounter(counter, UsesTodo(tc));
    var next := messages + RoundMessages(v, c, calls, responses[0].content, dispatch);
    RunExtends(v, next, responses[1..], c, calls + |tc|, rounds + 1, dispatch);
    assert responses[..0] == [];
    var o := Run(v, next, responses[1..], c, calls + |tc|, rounds + 1, dispatch);
    assert o.messages[|messages|..|messages| + 2] == o.messages[..|next|][|messages|..];
  }

  /**
   * Tool round `j` appends the response itself and then one user message:
   * the reminder, if due after that round, followed by one result per
   * tool call of the response, numbered after the calls of earlier rounds.
   */
  lemma {:induction false} RunRound(v: Variant, messages: seq<Message>, responses: seq<Response>, counter: nat,
                                    calls: nat, rounds: nat, dispatch: Dispatcher, j: nat)
    requires j < LeadingToolRounds(responses)
    ensures var o := Run(v, messages, responses, counter, calls, rounds, dispatch);
            |messages| + 2 * j + 2 <= |o.messages|
            && o.messages[|messages| + 2 * j..|messages| + 2 * j + 2] == RoundAt(v, counter, calls, responses, j, dispatch)
    decreases j
  {
    if j == 0 {
      RunFirstRound(v, messages, responses, counter, calls, rounds, dispatch);
    } else {
      var tc := ToolUses(responses[0].content);
      var c := NextCounter(counter, UsesTodo(tc));
      var next := messages + RoundMessages(v, c, calls, responses[0].content, dispatch);
      RunRound(v, next, responses[1..], c, calls + |tc|, rounds + 1, dispatch, j - 1);
      RoundAtShift(v, counter, calls, responses, j, dispatch);
    }
  }

  /** Round `j` of the responses is round `j - 1` of those after the first. */
  lemma RoundAtShift(v: Variant, counter: nat, calls: nat, responses: seq<Response>, j: nat, dispatch: Dispatcher)
    requires 0 < j < |responses|
    ensures var tc := ToolUses(responses[0].content);
            RoundAt(v, NextCounter(counter, UsesTodo(tc)), calls + |tc|, responses[1..], j - 1, dispatch)
            == RoundAt(v, counter, calls, responses, j, dispatch)
  {
    assert responses[..j][1..] == responses[1..][..j - 1];
  }

  /** When the loop keeps the final response, it is the last message of the history. */
  lemma {:induction false} RunFinal(v: Variant, messages: seq<Message>, responses: seq<Response>, counter: nat,
                                    calls: nat, rounds: nat, dispatch: Dispatcher)
    requires LeadingToolRounds(responses) < |responses| && v.keepsFinal
    ensures var o := Run(v, messages, responses, counter, calls, rounds, dispatch);
            o.messages != [] &&
            o.messages[|o.messages| - 1] == Message(Assistant, Blocks(responses[LeadingToolRounds(responses)].content))
    decreases |responses|
  {
    if responses[0].stopReason == ToolUseStop {
      var tc := ToolUses(responses[0].content);
      var c := NextCounter(counter, UsesTodo(tc));
      var next := messages + RoundMessages(v, c, calls, responses[0].content, dispatch);
      RunFinal(v, next, responses[1..], c, calls + |tc|, rounds + 1, dispatch);
    }
  }
}
