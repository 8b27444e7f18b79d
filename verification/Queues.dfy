/** The first-in, first-out lists of user messages waiting to join the conversation. */
module Queues {
  import opened Provider

  class Queue {
    var messages: seq<Message>

    constructor ()
      ensures messages == []
    {
      messages := [];
    }

    method Push(m: Message)
      modifies this
      ensures messages == old(messages) + [m]
    {
      messages := messages + [m];
    }

    /** Puts messages back at the front in their own order. */
    method Unshift(msgs: seq<Message>)
      modifies this
      ensures messages == msgs + old(messages)
    {
      if |msgs| == 0 { return; }
      messages := msgs + messages;
    }

    method Drain() returns (out: seq<Message>)
      modifies this
      ensures out == old(messages) && messages == []
    {
      out := messages;
      messages := [];
    }

    /** Takes up to `n` messages from the front, all of them when `n` is not positive. */
    method Take(n: int) returns (out: seq<Message>)
      modifies this
      ensures out + messages == old(messages)
      ensures |out| == if n <= 0 then |old(messages)| else Min(n, |old(messages)|)
    {
      if n <= 0 {
        out := Drain();
        return;
      }
      var k := if n > |messages| then |messages| else n;
      out := messages[..k];
      messages := messages[k..];
    }

    method Pending() returns (out: seq<Message>)
      ensures out == messages
    {
      out := messages;
    }
  }
}
