/** How a session turns its log of entries back into a conversation. */
module Session {
  import opened Provider

  datatype Reason = Manual | Threshold | Overflow

  datatype Compaction = Compaction(
    summary: string, kept: int, tokensBefore: int, tokensAfter: int, reason: Reason)

  /** A `Note` is a system note or an event: shown to the user, never sent. */
  datatype Entry = Msg(message: Message) | Compact(compaction: Compaction) | Note

  const SUMMARY_PREFIX := "The conversation history before this point was compacted into the following summary:\n\n<summary>\n"
  const SUMMARY_SUFFIX := "\n</summary>"

  function SummaryMessage(summary: string): Message {
    UserMessage(SUMMARY_PREFIX + summary + SUMMARY_SUFFIX).(summary := true)
  }

  function TrimPrefix(s: string, prefix: string): string {
    if prefix <= s then s[|prefix|..] else s
  }

  function TrimSuffix(s: string, suffix: string): string {
    if |suffix| <= |s| && s[|s| - |suffix|..] == suffix then s[..|s| - |suffix|] else s
  }

  function SummaryText(m: Message): string {
    TrimSuffix(TrimPrefix(m.content, SUMMARY_PREFIX), SUMMARY_SUFFIX)
  }

  /** A summary survives being carried by a message, whatever it contains. */
  lemma SummaryTextRoundTrip(s: string)
    ensures SummaryText(SummaryMessage(s)) == s
  {
    var content := SUMMARY_PREFIX + s + SUMMARY_SUFFIX;
    assert content[|SUMMARY_PREFIX|..] == s + SUMMARY_SUFFIX;
    assert (s + SUMMARY_SUFFIX)[|s|..] == SUMMARY_SUFFIX;
  }

  function Unmeasured(msgs: seq<Message>): (out: seq<Message>)
    ensures |out| == |msgs|
    ensures forall i :: 0 <= i < |msgs| ==> out[i] == msgs[i].(metrics := None)
  {
    seq(|msgs|, i requires 0 <= i < |msgs| => msgs[i].(metrics := None))
  }

  function Kept(before: seq<Message>, c: Compaction): (n: nat)
    ensures n <= |before|
  {
    Min(Max(c.kept, 0), |before|)
  }

  /** What a compaction leaves of the context before it. */
  function Compacted(before: seq<Message>, c: Compaction): seq<Message> {
    [SummaryMessage(c.summary)] + Unmeasured(before[|before| - Kept(before, c)..])
  }

  function Fold(before: seq<Message>, e: Entry): seq<Message> {
    match e
    case Msg(m) => before + [m]
    case Compact(c) => Compacted(before, c)
    case Note => before
  }

  /** The conversation a path of entries stands for. */
  function Folded(path: seq<Entry>): seq<Message> {
    if path == [] then []
    else Fold(Folded(path[..|path| - 1]), path[|path| - 1])
  }

  lemma FoldedOfAppend(path: seq<Entry>, e: Entry)
    ensures Folded(path + [e]) == Fold(Folded(path), e)
  {
    assert (path + [e])[..|path|] == path;
  }

  /** In every field as before, but without its measurement. */
  predicate SameUnmeasured(m: Message, was: Message) {
    && m.role == was.role && m.content == was.content && m.images == was.images && m.reasoning == was.reasoning
    && m.toolCalls == was.toolCalls && m.toolCallID == was.toolCallID && m.isError == was.isError && m.summary == was.summary
    && m.metrics.None?
  }

  /** What a compaction leaves: its summary, and the newest messages it keeps,
      each as it was but for its measurement. */
  lemma CompactedIs(before: seq<Message>, c: Compaction)
    ensures Kept(before, c) == if c.kept < 0 then 0 else if |before| < c.kept then |before| else c.kept
    ensures |Compacted(before, c)| == Kept(before, c) + 1
    ensures var summary := Compacted(before, c)[0];
      && summary.role == User && summary.summary && summary.toolCalls == [] && summary.metrics.None?
      && SummaryText(summary) == c.summary
    ensures forall i :: 0 < i <= Kept(before, c) ==>
      SameUnmeasured(Compacted(before, c)[i], before[|before| - Kept(before, c) + i - 1])
  {
    hide SummaryText;
    SummaryTextRoundTrip(c.summary);
  }

  lemma NoneMeasured(before: seq<Message>, c: Compaction)
    ensures forall m :: m in Compacted(before, c) ==> m.metrics.None?
  {
    hide Kept, SummaryText, Compacted;
    CompactedIs(before, c);
    var out := Compacted(before, c);
    forall m | m in out ensures m.metrics.None? {
      var i :| 0 <= i < |out| && out[i] == m;
    }
  }

  /** So after a compaction entry no message of the conversation is measured. */
  lemma CompactionUnmeasures(path: seq<Entry>, c: Compaction)
    ensures forall m :: m in Folded(path + [Compact(c)]) ==> m.metrics.None?
  {
    hide Compacted, Kept, SummaryText;
    FoldedOfAppend(path, Compact(c));
    NoneMeasured(Folded(path), c);
  }

  /** The loop that rebuilds a conversation from its entries. */
  method Messages(entries: seq<Entry>) returns (out: seq<Message>)
    ensures out == Folded(entries)
  {
    out := [];
    for i := 0 to |entries|
      invariant out == Folded(entries[..i])
    {
      assert entries[..i + 1] == entries[..i] + [entries[i]];
      FoldedOfAppend(entries[..i], entries[i]);
      match entries[i] {
        case Compact(c) => out := Compacted(out, c);
        case Msg(m) => out := out + [m];
        case Note =>
      }
    }
    assert entries[..|entries|] == entries;
  }

  // ----- What storing a message changes about it -----

  function SpelledCall(c: ToolCall): ToolCall {
    if c.arguments == "" then c.(arguments := "{}") else c
  }

  /** The message as its entry spells it: no arguments become an empty object. */
  function Spelled(m: Message): Message {
    m.(toolCalls := seq(|m.toolCalls|, i requires 0 <= i < |m.toolCalls| => SpelledCall(m.toolCalls[i])))
  }

  function AllSpelled(msgs: seq<Message>): (out: seq<Message>)
    ensures |out| == |msgs|
    ensures forall i :: 0 <= i < |msgs| ==> out[i] == Spelled(msgs[i])
  {
    seq(|msgs|, i requires 0 <= i < |msgs| => Spelled(msgs[i]))
  }

  /** Only copies the calls when one of them needs a new spelling. */
  method WithArguments(m: Message) returns (out: Message)
    ensures out == Spelled(m)
    ensures out.(toolCalls := m.toolCalls) == m && |out.toolCalls| == |m.toolCalls|
    ensures forall i :: 0 <= i < |m.toolCalls| ==>
      && out.toolCalls[i].id == m.toolCalls[i].id && out.toolCalls[i].name == m.toolCalls[i].name
      && out.toolCalls[i].arguments == if m.toolCalls[i].arguments == "" then "{}" else m.toolCalls[i].arguments
  {
    var empty := false;
    for i := 0 to |m.toolCalls|
      invariant empty <==> exists k :: 0 <= k < i && m.toolCalls[k].arguments == ""
    {
      empty := empty || m.toolCalls[i].arguments == "";
    }
    if !empty {
      assert Spelled(m).toolCalls == m.toolCalls;
      return m;
    }
    var calls := m.toolCalls;
    for i := 0 to |calls|
      invariant |calls| == |m.toolCalls|
      invariant forall k :: 0 <= k < i ==> calls[k] == SpelledCall(m.toolCalls[k])
      invariant forall k :: i <= k < |calls| ==> calls[k] == m.toolCalls[k]
    {
      if calls[i].arguments == "" {
        calls := calls[i := calls[i].(arguments := "{}")];
      }
    }
    out := m.(toolCalls := calls);
    assert calls == Spelled(m).toolCalls;
  }

  lemma SpelledUser(m: Message)
    requires m.toolCalls == []
    ensures Spelled(m) == m
  {
    assert Spelled(m).toolCalls == m.toolCalls;
  }

  lemma AllSpelledConcat(a: seq<Message>, b: seq<Message>)
    ensures AllSpelled(a + b) == AllSpelled(a) + AllSpelled(b)
  {
  }

  /** Compacting and spelling commute, so a compaction of the live
      conversation is the compaction the log replays. */
  lemma CompactedSpelled(before: seq<Message>, c: Compaction)
    ensures AllSpelled(Compacted(before, c)) == Compacted(AllSpelled(before), c)
  {
    var left, right := AllSpelled(Compacted(before, c)), Compacted(AllSpelled(before), c);
    assert |left| == |right|;
    SpelledUser(SummaryMessage(c.summary));
    forall i | 0 <= i < |left| ensures left[i] == right[i] {
    }
  }
}
