/** What a turn's replies and tool calls add to the log. */
module Rounds {
  import opened Provider
  import opened Session
  import opened Environment
  import opened Estimate
  import opened Calls

  /** `e` stores a result of the call `c`. */
  predicate AnswersCall(e: Entry, c: ToolCall) {
    e.Msg? && e.message.role == Tool && e.message.toolCalls == [] && e.message.toolCallID == c.id
  }

  /** The entries answer some of the calls, each at most once and in their order. */
  ghost predicate AnswersSome(entries: seq<Entry>, calls: seq<ToolCall>) {
    if entries == [] then true
    else if calls == [] then false
    else
      (AnswersCall(entries[|entries| - 1], calls[|calls| - 1])
       && AnswersSome(entries[..|entries| - 1], calls[..|calls| - 1]))
      || AnswersSome(entries, calls[..|calls| - 1])
  }

  ghost predicate AnswersAll(entries: seq<Entry>, calls: seq<ToolCall>) {
    |entries| == |calls| && forall i :: 0 <= i < |calls| ==> AnswersCall(entries[i], calls[i])
  }

  lemma AnsweredNext(entries: seq<Entry>, calls: seq<ToolCall>, e: Entry, c: ToolCall)
    requires AnswersSome(entries, calls)
    ensures AnswersSome(entries, calls + [c])
    ensures AnswersCall(e, c) ==> AnswersSome(entries + [e], calls + [c])
  {
    assert (calls + [c])[..|calls|] == calls;
    assert (entries + [e])[..|entries|] == entries;
  }

  lemma {:induction false} SomeAtMost(entries: seq<Entry>, calls: seq<ToolCall>)
    requires AnswersSome(entries, calls)
    ensures |entries| <= |calls|
    decreases |calls|
  {
    if entries != [] {
      if AnswersSome(entries, calls[..|calls| - 1]) {
        SomeAtMost(entries, calls[..|calls| - 1]);
      } else {
        SomeAtMost(entries[..|entries| - 1], calls[..|calls| - 1]);
      }
    }
  }

  /** As many answers as calls are one for each. */
  lemma {:induction false} SomeIsAll(entries: seq<Entry>, calls: seq<ToolCall>)
    requires AnswersSome(entries, calls) && |entries| == |calls|
    ensures AnswersAll(entries, calls)
    decreases |calls|
  {
    if entries != [] {
      var n := |calls| - 1;
      if AnswersSome(entries, calls[..n]) { SomeAtMost(entries, calls[..n]); }
      SomeIsAll(entries[..n], calls[..n]);
      forall i | 0 <= i < |calls| ensures AnswersCall(entries[i], calls[i]) {
        if i < n { assert AnswersCall(entries[..n][i], calls[..n][i]); }
      }
    }
  }

  function EntriesOf(msgs: seq<Message>): (es: seq<Entry>)
    ensures |es| == |msgs|
    ensures forall i :: 0 <= i < |msgs| ==> es[i] == Msg(Spelled(msgs[i]))
  {
    seq(|msgs|, i requires 0 <= i < |msgs| => Msg(Spelled(msgs[i])))
  }

  /** A usage as a reply carries it. */
  function Metered(u: Usage): Option<Usage> {
    if u == NO_USAGE then None else Some(u)
  }

  /** The reply to a recorded call, measured by the newest usage of its turn. */
  function ReplyTo(sent: seq<Sent>, r: CallRecord): Message
    requires r.at < |sent| && Judged(sent[r.at].outcome).Answered?
  {
    Judged(sent[r.at].outcome).response.message.(metrics := Metered(UsageSince(sent[..r.at + 1], r.turn)))
  }

  /** The reply of a recorded call stands right behind what the call sent, unless
      it is empty, and the results of its calls stand behind it in order. */
  ghost predicate Acted(log: seq<Entry>, sent: seq<Sent>, r: CallRecord) {
    && r.at < |sent| && Judged(sent[r.at].outcome).Answered? && r.head <= log
    && var reply := ReplyTo(sent, r);
       !IsEmpty(reply) ==>
         && |r.head| + 1 + |reply.toolCalls| <= |log|
         && log[|r.head|] == Msg(Spelled(reply))
         && AnswersAll(log[|r.head| + 1..|r.head| + 1 + |reply.toolCalls|], reply.toolCalls)
  }

  /** A stored reply carries the usage of the call that produced it exactly when
      that call told its usage. */
  lemma MeasuresItsCallIff(log: seq<Entry>, sent: seq<Sent>, r: CallRecord)
    requires Acted(log, sent, r) && sent[r.at].call.purpose.ForRun? && r.turn <= r.at
    requires !IsEmpty(ReplyTo(sent, r))
    ensures |r.head| < |log| && log[|r.head|].Msg?
    ensures var own := Judged(sent[r.at].outcome).response.usage;
      log[|r.head|].message.metrics == Some(own) <==> own != NO_USAGE
  {
    var upTo := sent[..r.at + 1];
    assert upTo[|upTo| - 1] == sent[r.at];
    hide AnswersAll;
  }

  const OLD := [Msg(UserMessage("a")), Msg(UserMessage("b"))]
  const COMPACTED := OLD + [Compact(Compaction("s", 1, 100, 10, Threshold))]

  /** The newest measurement of a conversation is what an earlier call filled,
      before the compaction its own call was sent after. */
  ghost predicate Stale(log: seq<Entry>, sent: seq<Sent>, r: CallRecord) {
    && Acted(log, sent, r) && r.head == COMPACTED && |sent| == 2 && r.at == 1 && r.turn == 0
    && Reports(sent[0]) && sent[0].call.purpose.log == OLD
    && var at := NewestMeasured(Folded(log));
       0 <= at == |Folded(log)| - 1 && Folded(log)[at].metrics == Some(Judged(sent[0].outcome).response.usage)
  }

  /** Otherwise it carries the one told before in its turn, if any: here that of a
      request that overflowed and was compacted away. */
  lemma StaleAfterCompaction()
    ensures exists log: seq<Entry>, sent: seq<Sent>, r: CallRecord :: Stale(log, sent, r)
  {
    var r := CallRecord(COMPACTED, [], 1, 0);
    MeasuredStale(r);
    hide ReplyTo, UsageSince, Judged, Reports, TWO_CALLS, COMPACTED;
    StoredLast(COMPACTED, STALE_REPLY);
    var log := COMPACTED + [Msg(STALE_REPLY)];
    assert AnswersAll(log[|COMPACTED| + 1..|COMPACTED| + 1], []);
    SpelledUser(STALE_REPLY);
    assert Stale(log, TWO_CALLS, r);
  }

  const FULL := Usage(100, 0, 100)
  const NOTHING_ASKED := Request([], None, None, true)
  const TWO_CALLS := [
    Sent(Call(NOTHING_ASKED, 0, ForRun([], OLD, [])), Finished("", "", [], "length", FULL)),
    Sent(Call(NOTHING_ASKED, 0, ForRun([], COMPACTED, [])), Finished("y", "", [], "stop", NO_USAGE))]
  const STALE_REPLY := AssistantMessage("y", "", []).(metrics := Some(FULL))

  lemma MeasuredStale(r: CallRecord)
    requires r.at == 1 && r.turn == 0
    ensures |TWO_CALLS| == 2 && Judged(TWO_CALLS[1].outcome).Answered? && ReplyTo(TWO_CALLS, r) == STALE_REPLY
    ensures Reports(TWO_CALLS[0]) && TWO_CALLS[0].call.purpose.log == OLD
    ensures Judged(TWO_CALLS[0].outcome).response.usage == FULL
  {
    assert TWO_CALLS[..2] == TWO_CALLS && Reports(TWO_CALLS[0]) && !Reports(TWO_CALLS[1]);
    assert TWO_CALLS[..2][..1] == [TWO_CALLS[0]];
    assert UsageSince([TWO_CALLS[0]], 0) == FULL;
  }

  lemma StoredLast(log: seq<Entry>, reply: Message)
    requires Measured(reply)
    ensures var folded := Folded(log + [Msg(reply)]);
      folded != [] && folded[|folded| - 1] == reply && NewestMeasured(folded) == |folded| - 1
  {
    FoldedOfAppend(log, Msg(reply));
    assert Folded(log + [Msg(reply)]) == Folded(log) + [reply];
    hide Folded;
  }

  ghost predicate AllActed(log: seq<Entry>, sent: seq<Sent>, records: seq<CallRecord>) {
    forall r :: r in records ==> Acted(log, sent, r)
  }

  lemma StillActed(log: seq<Entry>, log': seq<Entry>, sent: seq<Sent>, sent': seq<Sent>, r: CallRecord)
    requires Acted(log, sent, r) && log <= log' && sent <= sent'
    ensures Acted(log', sent', r)
  {
    assert sent[..r.at + 1] == sent'[..r.at + 1];
    var n := |r.head| + 1 + |ReplyTo(sent, r).toolCalls|;
    if n <= |log| { assert log[|r.head| + 1..n] == log'[|r.head| + 1..n]; }
  }

  lemma StillAllActed(log: seq<Entry>, log': seq<Entry>, sent: seq<Sent>, sent': seq<Sent>, records: seq<CallRecord>)
    requires AllActed(log, sent, records) && log <= log' && sent <= sent'
    ensures AllActed(log', sent', records)
  {
    forall r | r in records ensures Acted(log', sent', r) {
      StillActed(log, log', sent, sent', r);
    }
  }

  lemma {:induction false} AnsweredBoth(a: seq<Entry>, first: seq<ToolCall>, b: seq<Entry>, rest: seq<ToolCall>)
    requires AnswersSome(a, first) && AnswersSome(b, rest)
    ensures AnswersSome(a + b, first + rest)
    decreases |rest|
  {
    if rest == [] {
      SomeAtMost(b, rest);
      assert a + b == a && first + rest == first;
    } else {
      var n := |rest| - 1;
      assert first + rest == (first + rest[..n]) + [rest[n]];
      if AnswersSome(b, rest[..n]) {
        AnsweredBoth(a, first, b, rest[..n]);
        AnsweredNext(a + b, first + rest[..n], Note, rest[n]);
      } else {
        var k := |b| - 1;
        AnsweredBoth(a, first, b[..k], rest[..n]);
        AnsweredNext(a + b[..k], first + rest[..n], b[k], rest[n]);
        assert a + b == (a + b[..k]) + [b[k]];
      }
    }
  }

  /** What a reply and its calls leave in the log makes its record acted on. */
  lemma ActedNow(head: seq<Entry>, log: seq<Entry>, sent: seq<Sent>, r: CallRecord, reply: Message)
    requires r.head == head && r.at < |sent| && Judged(sent[r.at].outcome).Answered? && head <= log
    requires reply == ReplyTo(sent, r)
    requires !IsEmpty(reply) ==>
      |log| == |head| + 1 + |reply.toolCalls| && log[|head|] == Msg(Spelled(reply))
      && AnswersSome(log[|head| + 1..], reply.toolCalls)
    ensures Acted(log, sent, r)
  {
    if !IsEmpty(reply) {
      assert log[|head| + 1..|head| + 1 + |reply.toolCalls|] == log[|head| + 1..];
      SomeIsAll(log[|head| + 1..], reply.toolCalls);
    }
  }

  /** The records made since `before`: when the turn failed, without the last. */
  function ActedOn(before: seq<CallRecord>, records: seq<CallRecord>, failed: bool): seq<CallRecord>
    requires |before| <= |records|
  {
    records[|before|..if failed && |records| > |before| then |records| - 1 else |records|]
  }

  /** The recorded call's reply asked for no tool. */
  ghost predicate AsksNothing(sent: seq<Sent>, r: CallRecord) {
    r.at < |sent| && Judged(sent[r.at].outcome).Answered? && Judged(sent[r.at].outcome).response.message.toolCalls == []
  }

  lemma LastActed(log: seq<Entry>, sent: seq<Sent>, before: seq<CallRecord>, done: seq<CallRecord>, records: seq<CallRecord>)
    requires before <= done <= records && |records| == |done| + 1
    requires AllActed(log, sent, ActedOn(before, done, false)) && Acted(log, sent, records[|done|])
    ensures AllActed(log, sent, ActedOn(before, records, false))
  {
    hide Acted;
    assert ActedOn(before, records, false) == ActedOn(before, done, false) + [records[|done|]];
  }

  lemma LastNotActed(log: seq<Entry>, sent: seq<Sent>, before: seq<CallRecord>, done: seq<CallRecord>, records: seq<CallRecord>)
    requires before <= done <= records && |records| == |done| + 1
    requires AllActed(log, sent, ActedOn(before, done, false))
    ensures AllActed(log, sent, ActedOn(before, records, true))
  {
    hide Acted;
    assert ActedOn(before, records, true) == ActedOn(before, done, false);
  }

  lemma FewerActed(log: seq<Entry>, sent: seq<Sent>, before: seq<CallRecord>, records: seq<CallRecord>)
    requires before <= records && AllActed(log, sent, ActedOn(before, records, false))
    ensures AllActed(log, sent, ActedOn(before, records, true))
  {
    hide Acted;
  }

  /** One turn's records after those of the turns before it. */
  lemma TurnsActed(log: seq<Entry>, sent: seq<Sent>, before: seq<CallRecord>, mid: seq<CallRecord>, records: seq<CallRecord>, failed: bool)
    requires before <= mid <= records
    requires AllActed(log, sent, ActedOn(before, mid, false)) && AllActed(log, sent, ActedOn(mid, records, failed))
    ensures AllActed(log, sent, ActedOn(before, records, failed))
  {
    hide Acted;
    forall r | r in ActedOn(before, records, failed) ensures Acted(log, sent, r) {
      var i :| 0 <= i < |ActedOn(before, records, failed)| && ActedOn(before, records, failed)[i] == r;
      if |before| + i < |mid| {
        assert r == ActedOn(before, mid, false)[i];
      } else {
        assert r == ActedOn(mid, records, failed)[|before| + i - |mid|];
      }
    }
  }

  /** The log, the calls and the records only grew, and each new record was acted
      on, but for the last one of a turn that failed. */
  ghost predicate Onward(log0: seq<Entry>, sent0: seq<Sent>, records0: seq<CallRecord>,
                         log: seq<Entry>, sent: seq<Sent>, records: seq<CallRecord>, failed: bool)
  {
    && log0 <= log && sent0 <= sent && records0 <= records
    && AllActed(log, sent, ActedOn(records0, records, failed))
  }

  lemma OnwardGrows(log0: seq<Entry>, sent0: seq<Sent>, records0: seq<CallRecord>,
                    log: seq<Entry>, sent: seq<Sent>, records: seq<CallRecord>, failed: bool)
    requires Onward(log0, sent0, records0, log, sent, records, failed)
    ensures log0 <= log && sent0 <= sent && records0 <= records
  {
  }

  lemma OnwardNothing(log0: seq<Entry>, sent0: seq<Sent>, log: seq<Entry>, sent: seq<Sent>, records: seq<CallRecord>, failed: bool)
    requires log0 <= log && sent0 <= sent
    ensures Onward(log0, sent0, records, log, sent, records, failed)
  {
  }

  lemma OnwardStill(log0: seq<Entry>, sent0: seq<Sent>, records0: seq<CallRecord>, log1: seq<Entry>, sent1: seq<Sent>,
                    log: seq<Entry>, sent: seq<Sent>, records: seq<CallRecord>)
    requires Onward(log0, sent0, records0, log1, sent1, records, false) && log1 <= log && sent1 <= sent
    ensures Onward(log0, sent0, records0, log, sent, records, false)
    ensures Onward(log0, sent0, records0, log, sent, records, true)
  {
    hide AllActed;
    StillAllActed(log1, log, sent1, sent, ActedOn(records0, records, false));
    FewerActed(log, sent, records0, records);
    hide ActedOn;
  }

  /** One more record, acted on in full unless its turn failed. */
  lemma OnwardRound(log0: seq<Entry>, sent0: seq<Sent>, records0: seq<CallRecord>, log1: seq<Entry>, sent: seq<Sent>,
                    done: seq<CallRecord>, log: seq<Entry>, records: seq<CallRecord>, failed: bool)
    requires Onward(log0, sent0, records0, log1, sent, done, false) && log1 <= log
    requires done <= records && |records| == |done| + 1 && (!failed ==> Acted(log, sent, records[|done|]))
    ensures Onward(log0, sent0, records0, log, sent, records, failed)
  {
    hide AllActed, Acted;
    StillAllActed(log1, log, sent, sent, ActedOn(records0, done, false));
    if failed { LastNotActed(log, sent, records0, done, records); } else { LastActed(log, sent, records0, done, records); }
    hide ActedOn;
  }

  lemma OnwardBoth(log0: seq<Entry>, sent0: seq<Sent>, records0: seq<CallRecord>,
                   log1: seq<Entry>, sent1: seq<Sent>, records1: seq<CallRecord>,
                   log: seq<Entry>, sent: seq<Sent>, records: seq<CallRecord>, failed: bool)
    requires Onward(log0, sent0, records0, log1, sent1, records1, false)
    requires Onward(log1, sent1, records1, log, sent, records, failed)
    ensures Onward(log0, sent0, records0, log, sent, records, failed)
  {
    hide AllActed;
    StillAllActed(log1, log, sent1, sent, ActedOn(records0, records1, false));
    TurnsActed(log, sent, records0, records1, records, failed);
    hide ActedOn;
  }
}
