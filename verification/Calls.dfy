/** One attempt at a model call, and its retries. */
module Calls {
  import opened Provider
  import opened Estimate
  import opened Environment

  datatype Response = Response(message: Message, stop: string, usage: Usage)

  datatype Attempt = Answered(response: Response) | Refused(failure: Failure)

  predicate CutOff(stop: string) {
    stop == "length" || stop == "content_filter"
  }

  predicate IsEmpty(m: Message) {
    m.content == "" && m.reasoning == "" && m.toolCalls == []
  }

  /** A reply speaks for the assistant, and one cut off asks for nothing. */
  predicate IsReply(r: Response) {
    && r.message.role == Assistant && !r.message.summary && r.message.metrics == None
    && r.stop != ""
    && (CutOff(r.stop) ==> r.message.toolCalls == [])
  }

  /** What an attempt amounts to: a completion without a stop reason is no reply,
      and one cut off keeps what it said but none of its calls. */
  function Judged(out: Streamed): (a: Attempt)
    ensures a.Answered? ==> IsReply(a.response)
    ensures a.Answered? <==> out.Finished? && out.stop != ""
    ensures a.Answered? ==> a.response.stop == out.stop && a.response.usage == out.usage
    ensures a.Answered? ==> a.response.message.content == out.text && a.response.message.reasoning == out.reasoning
    ensures a.Answered? ==>
      a.response.message.toolCalls == if out.stop == "length" || out.stop == "content_filter" then [] else out.calls
  {
    match out
    case Broke(f) => Refused(f)
    case Finished(text, reasoning, calls, stop, usage) =>
      if stop == "" then Refused(Failure(false, false))
      else Answered(Response(AssistantMessage(text, reasoning, if CutOff(stop) then [] else calls), stop, usage))
  }

  method Stream(w: World, call: Call) returns (a: Attempt)
    requires w.Valid() && WellFormed(w.o, w.sound, call) && w.OfLog(call)
    modifies w`replies, w`sent, w`runSends
    ensures w.Valid()
    ensures |w.sent| == |old(w.sent)| + 1 && old(w.sent) <= w.sent
    ensures w.sent[|w.sent| - 1].call == call && a == Judged(w.sent[|w.sent| - 1].outcome)
    ensures w.runSends == old(w.runSends) + if call.purpose.ForRun? then 1 else 0
    ensures w.replies <= old(w.replies) && (a.Answered? ==> w.replies < old(w.replies))
  {
    hide WellFormed;
    var out := w.Stream(call);
    match out {
      case Broke(f) => a := Refused(f);
      case Finished(text, reasoning, calls, stop, usage) =>
        if stop == "" {
          a := Refused(Failure(false, false));
        } else {
          a := Answered(Response(
            AssistantMessage(text, reasoning, if CutOff(stop) then [] else calls), stop, usage));
        }
    }
  }

  // ----- The usage a turn was told of -----

  const NO_USAGE := Usage(0, 0, 0)

  /** A call of the run that was answered with its token counts. */
  predicate Reports(s: Sent) {
    s.call.purpose.ForRun? && Judged(s.outcome).Answered? && Judged(s.outcome).response.usage != NO_USAGE
  }

  /** The usage reported last since the call at `turn`. */
  function UsageSince(sent: seq<Sent>, turn: nat): Usage {
    if |sent| <= turn then NO_USAGE
    else if Reports(sent[|sent| - 1]) then Judged(sent[|sent| - 1].outcome).response.usage
    else UsageSince(sent[..|sent| - 1], turn)
  }

  lemma {:induction false} UsageKept(before: seq<Sent>, after: seq<Sent>, turn: nat)
    requires turn <= |before| && before <= after
    requires forall i :: |before| <= i < |after| ==> !Reports(after[i])
    ensures UsageSince(after, turn) == UsageSince(before, turn)
    decreases |after|
  {
    if |after| == |before| {
      assert after == before;
    } else {
      UsageKept(before, after[..|after| - 1], turn);
    }
  }

  /** How often one request may be attempted. */
  function Attempts(o: Options): (n: nat)
    ensures n == if o.maxRetries > 0 then o.maxRetries + 1 else 1
  {
    Max(0, o.maxRetries) + 1
  }

  /** A failure the same request may be sent again after. */
  predicate Retried(a: Attempt) {
    a.Refused? && a.failure.retryable && !a.failure.overflow
  }

  /** The same request again and again, at most `Attempts` times, and only after
      failures that pass; an overflow is never retried. */
  method Retrying(w: World, call: Call) returns (a: Attempt)
    requires w.Valid() && WellFormed(w.o, w.sound, call) && w.OfLog(call)
    modifies w`cancelled, w`replies, w`sent, w`runSends
    ensures w.Valid() && (old(w.cancelled) ==> w.cancelled)
    ensures old(w.sent) < w.sent && |w.sent| <= |old(w.sent)| + Attempts(w.o)
    ensures forall i :: |old(w.sent)| <= i < |w.sent| ==> w.sent[i].call == call
    ensures forall i :: |old(w.sent)| <= i < |w.sent| - 1 ==> Retried(Judged(w.sent[i].outcome))
    ensures forall i :: |old(w.sent)| <= i < |w.sent| - 1 ==>
      var before := Judged(w.sent[i].outcome); before.Refused? && before.failure.retryable && !before.failure.overflow
    ensures a == Judged(w.sent[|w.sent| - 1].outcome) || (w.cancelled && a == Refused(Failure(false, false)))
    ensures a.Answered? <==> Judged(w.sent[|w.sent| - 1].outcome).Answered?
    ensures w.cancelled || !Retried(a) || |w.sent| == |old(w.sent)| + Attempts(w.o)
    ensures w.runSends == old(w.runSends) + if call.purpose.ForRun? then |w.sent| - |old(w.sent)| else 0
    ensures w.replies <= old(w.replies) && (a.Answered? ==> w.replies < old(w.replies))
  {
    hide WellFormed, Judged;
    var n := 0;
    while true
      invariant w.Valid() && (old(w.cancelled) ==> w.cancelled)
      invariant 0 <= n < Attempts(w.o) && |w.sent| == |old(w.sent)| + n && old(w.sent) <= w.sent
      invariant forall i :: |old(w.sent)| <= i < |w.sent| ==> w.sent[i].call == call && Retried(Judged(w.sent[i].outcome))
      invariant w.runSends == old(w.runSends) + if call.purpose.ForRun? then n else 0
      invariant w.replies <= old(w.replies)
      decreases Attempts(w.o) - n
    {
      a := Stream(w, call);
      if a.Answered? { return; }
      var stopped := w.Cancelled();
      if stopped { return Refused(Failure(false, false)); }
      if !a.failure.retryable || a.failure.overflow || n >= w.o.maxRetries { return; }
      stopped := w.Cancelled();
      if stopped { return Refused(Failure(false, false)); }
      n := n + 1;
    }
  }
}
