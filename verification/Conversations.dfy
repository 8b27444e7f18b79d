/** The conversation a run works on, in memory. */
module Conversations {
  import opened Provider

  class Conversation {
    var messages: seq<Message>

    constructor (messages: seq<Message>)
      ensures this.messages == messages
    {
      this.messages := messages;
    }

    method Append(m: Message)
      modifies this
      ensures messages == old(messages) + [m]
    {
      messages := messages + [m];
    }

    /** Drops every message after the first `n`; a negative `n` drops all. */
    method Truncate(n: int)
      modifies this
      ensures messages == old(messages)[..Min(Max(n, 0), |old(messages)|)]
    {
      var k := if n < 0 then 0 else n;
      if k < |messages| {
        messages := messages[..k];
      }
    }

    method Replace(next: seq<Message>)
      modifies this
      ensures messages == next
    {
      messages := next;
    }

    method Len() returns (n: nat)
      ensures n == |messages|
    {
      n := |messages|;
    }
  }
}
