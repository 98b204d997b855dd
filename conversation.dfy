/**
 * The conversation history of src/core/conversation.ts: a list of messages
 * that the methods append to, clear, copy and cut down to its tail.
 */
module Conversation {
  import opened Types

  /**
   * Where `slice(-n)` starts on a list of `len` elements. JavaScript reads
   * `-0` as `0` (the whole list), a negative start as counted from the end
   * and a start beyond the end as the end.
   */
  function SliceFromEndStart(len: nat, n: int): (start: nat)
    ensures start <= len
    ensures n == 0 ==> start == 0
    ensures n > 0 ==> start == if n <= len then len - n else 0
    ensures n < 0 ==> start == if -n <= len then -n else len
  {
    if -n < 0 then (if len + -n < 0 then 0 else len + -n)
    else if -n < len then -n
    else len
  }

  /** `slice(-n)` on a message list. */
  function Recent(messages: seq<Message>, n: int): (r: seq<Message>)
    ensures |r| <= |messages| && r == messages[|messages| - |r|..]
    ensures n == 0 || n >= |messages| ==> r == messages
    ensures 0 < n <= |messages| ==> |r| == n
    ensures n < 0 ==> |r| == if -n <= |messages| then |messages| + n else 0
  {
    messages[SliceFromEndStart(|messages|, n)..]
  }

  /**
   * The last `n` messages after one more is added end with that message;
   * the last one is that message alone (not the whole earlier history,
   * which is what `slice(-0)` would give).
   */
  lemma RecentAfterAppend(messages: seq<Message>, m: Message, n: int)
    requires n > 0
    ensures Recent(messages + [m], n) == (if n == 1 then [] else Recent(messages, n - 1)) + [m]
  {
    var all := messages + [m];
    var s := SliceFromEndStart(|all|, n);
    if n == 1 {
      assert all[s..] == [m];
    } else {
      assert all[s..] == messages[SliceFromEndStart(|messages|, n - 1)..] + [m];
    }
  }

  class ConversationManager {
    var messages: seq<Message>

    constructor ()
      ensures messages == []
    {
      messages := [];
    }

    /** `addUserMessage`: one user message with the text, at the end. */
    method AddUserMessage(content: string)
      modifies this
      ensures messages == old(messages) + [Message(User, Plain(content))]
    {
      messages := messages + [Message(User, Plain(content))];
    }

    /** `addAssistantMessage`: one assistant message with the blocks, at the end. */
    method AddAssistantMessage(content: seq<Block>)
      modifies this
      ensures messages == old(messages) + [Message(Assistant, Blocks(content))]
    {
      messages := messages + [Message(Assistant, Blocks(content))];
    }

    /** `addToolResults`: the results go back as one user message, at the end. */
    method AddToolResults(results: seq<Block>)
      modifies this
      ensures messages == old(messages) + [Message(User, Blocks(results))]
    {
      messages := messages + [Message(User, Blocks(results))];
    }

    /** `getMessages`: a copy of the history; the history is untouched. */
    method GetMessages() returns (r: seq<Message>)
      ensures r == messages
    {
      r := messages;
    }

    /** `count`. */
    function Count(): (r: nat)
      reads this
      ensures r == |messages|
    {
      |messages|
    }

    /** `clear`. */
    method Clear()
      modifies this
      ensures messages == []
    {
      messages := [];
    }

    /** `getRecentMessages`: the tail of the history that `slice(-n)` gives. */
    method GetRecentMessages(n: int) returns (r: seq<Message>)
      ensures r == Recent(messages, n)
    {
      r := messages[SliceFromEndStart(|messages|, n)..];
    }
  }
}
