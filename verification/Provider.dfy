/** The provider messages a conversation is made of. */
module Provider {
  datatype Option<+T> = None | Some(value: T)

  datatype Role = User | Assistant | Tool

  datatype ToolCall = ToolCall(id: string, name: string, arguments: string)

  datatype Usage = Usage(input: int, output: int, total: int)

  datatype Image = Image(width: int, height: int)

  /** `metrics` is the measured context of the call that produced a reply. */
  datatype Message = Message(
    role: Role,
    content: string,
    images: seq<Image>,
    reasoning: string,
    toolCalls: seq<ToolCall>,
    toolCallID: string,
    isError: bool,
    metrics: Option<Usage>,
    summary: bool)
  {
    predicate Empty() {
      content == "" && images == []
    }
  }

  function UserMessage(text: string): Message {
    Message(User, text, [], "", [], "", false, None, false)
  }

  function AssistantMessage(text: string, reasoning: string, calls: seq<ToolCall>): Message {
    Message(Assistant, text, [], reasoning, calls, "", false, None, false)
  }

  function ToolResult(callID: string, content: string, isError: bool): Message {
    Message(Tool, content, [], "", [], callID, isError, None, false)
  }

  /** What a client can put in front of the agent: a plain user message. */
  predicate FromUser(m: Message) {
    m.role == User && m.toolCalls == [] && !m.summary
  }

  type UserText = m: Message | FromUser(m) witness UserMessage("")

  function Ids(calls: seq<ToolCall>): (ids: seq<string>)
    ensures |ids| == |calls|
    ensures forall i :: 0 <= i < |calls| ==> ids[i] == calls[i].id
  {
    seq(|calls|, i requires 0 <= i < |calls| => calls[i].id)
  }

  function Min(a: int, b: int): int { if a < b then a else b }

  function Max(a: int, b: int): int { if a < b then b else a }
}
