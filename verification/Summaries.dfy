/** Asking the model for the summary that replaces what a compaction cuts. */
module Summaries {
  import opened Provider
  import opened Session
  import opened Pairing
  import opened Estimate
  import opened Environment
  import opened Calls

  const MIN_SUMMARY_BUDGET := 2048
  const SPLIT_TURN_SEPARATOR := "\n\n---\n\n**Turn Context (split turn):**\n\n"

  datatype Asked = Text(text: string) | Failed(next: bool) | CutShort

  /** The call gives the model every message of [from, end), and the prompt. */
  ghost predicate Covers(s: Sent, msgs: seq<Message>, from: nat, end: nat, prompt: string)
    requires from <= end <= |msgs|
  {
    !s.call.purpose.ForRun? && s.call.purpose.prompt == prompt && exists lo: nat :: lo <= from && s.call.purpose.covers == msgs[lo..end]
  }

  /** `text` is what the model replied to the call at `at`, cleaned. */
  ghost predicate Replied(w: World, at: int, text: string)
    reads w`sent
  {
    RepliedIn(w.o, w.sent, at, text)
  }

  ghost predicate RepliedIn(o: Options, sent: seq<Sent>, at: int, text: string) {
    && 0 <= at < |sent| && Judged(sent[at].outcome).Answered?
    && text != "" && text == o.clean(sent[at].outcome.text)
  }

  /** No reply from `since` on is a longer summary than `longest`. */
  ghost predicate NoneLonger(o: Options, sent: seq<Sent>, since: nat, longest: string) {
    forall i :: since <= i < |sent| && Judged(sent[i].outcome).Answered? ==> |o.clean(sent[i].outcome.text)| <= |longest|
  }

  /** Each of the first `n` efforts had a call from `since` on that was answered. */
  ghost predicate EachTried(sent: seq<Sent>, since: nat, efforts: seq<Option<string>>, n: nat)
    requires n <= |efforts|
  {
    forall j :: 0 <= j < n ==> TriedSince(sent, since, efforts[j])
  }

  ghost predicate TriedSince(sent: seq<Sent>, since: nat, effort: Option<string>) {
    exists i: nat :: since <= i < |sent| && TriedAt(sent, i, effort)
  }

  ghost predicate TriedAt(sent: seq<Sent>, i: nat, effort: Option<string>)
    requires i < |sent|
  {
    sent[i].call.request.effort == effort && Judged(sent[i].outcome).Answered?
  }

  /** Calls from `since` on that all have one form. */
  ghost predicate OneForm(sent: seq<Sent>, since: nat, purpose: Purpose, estimate: int, room: int) {
    forall i :: since <= i < |sent| ==>
      sent[i].call.purpose == purpose && sent[i].call.estimate == estimate && sent[i].call.request.maxOutput == Some(room)
  }

  /** What was last sent brought no summary. */
  ghost predicate NoSummary(o: Options, s: Sent) {
    Judged(s.outcome).Refused? || o.clean(s.outcome.text) == ""
  }

  /** And is a reason to try the other form. */
  ghost predicate TriesNext(o: Options, s: Sent) {
    match Judged(s.outcome)
    case Refused(f) => f.overflow
    case Answered(r) => o.clean(s.outcome.text) == "" && r.message.toolCalls != []
  }

  /** How asking in one form ended: without a text, the last call brought none,
      or the partial kept is one, and says whether the other form is to be tried. */
  ghost predicate Ends(w: World, since: nat, asked: Asked, longest: string)
    reads w`sent, w`cancelled
  {
    && (!asked.Text? ==> |w.sent| > since)
    && (!asked.Text? && !w.cancelled ==>
          && (asked.Failed? || longest == "" ==> NoSummary(w.o, w.sent[|w.sent| - 1]))
          && (TriesNext(w.o, w.sent[|w.sent| - 1]) <==> asked.Failed? && asked.next))
  }

  /** Where asking has come after `k` efforts: all of its calls have one form,
      each effort was answered, and `longest` is the longest summary so far. */
  ghost predicate Asking(o: Options, sent: seq<Sent>, since: nat, purpose: Purpose, estimate: int, room: int,
                         efforts: seq<Option<string>>, k: nat, partial: string, partialAt: int, longest: string, at: int)
  {
    && k <= |efforts| && since <= |sent| && |sent| <= since + k * Attempts(o)
    && OneForm(sent, since, purpose, estimate, room)
    && EachTried(sent, since, efforts, k)
    && (k > 0 ==> |sent| > since && !TriesNext(o, sent[|sent| - 1]))
    && |longest| >= |partial| && NoneLonger(o, sent, since, longest)
    && (longest != "" ==> RepliedIn(o, sent, at, longest) && ((at == partialAt && longest == partial) || since <= at))
  }

  /** One effort's calls, the last of them answered, with `text` or less. */
  ghost predicate EffortAnswered(o: Options, before: seq<Sent>, after: seq<Sent>, purpose: Purpose, estimate: int, room: int,
                                 effort: Option<string>)
  {
    && before < after && |after| <= |before| + Attempts(o)
    && (forall i :: |before| <= i < |after| ==>
          && after[i].call.purpose == purpose && after[i].call.estimate == estimate
          && after[i].call.request.maxOutput == Some(room) && after[i].call.request.effort == effort)
    && (forall i :: |before| <= i < |after| - 1 ==> Judged(after[i].outcome).Refused?)
    && Judged(after[|after| - 1].outcome).Answered? && !TriesNext(o, after[|after| - 1])
  }

  lemma EffortTried(o: Options, before: seq<Sent>, after: seq<Sent>, since: nat, purpose: Purpose, estimate: int, room: int,
                    efforts: seq<Option<string>>, k: nat)
    requires k < |efforts| && since <= |before| && EffortAnswered(o, before, after, purpose, estimate, room, efforts[k])
    requires EachTried(before, since, efforts, k)
    ensures EachTried(after, since, efforts, k + 1)
  {
    hide Judged, TriesNext;
    forall j | 0 <= j < k + 1 ensures TriedSince(after, since, efforts[j]) {
      if j == k {
        assert TriedAt(after, |after| - 1, efforts[j]);
      } else {
        assert TriedSince(before, since, efforts[j]);
        var i: nat :| since <= i < |before| && TriedAt(before, i, efforts[j]);
        assert TriedAt(after, i, efforts[j]);
      }
    }
  }

  lemma NextEffort(o: Options, before: seq<Sent>, after: seq<Sent>, since: nat, purpose: Purpose, estimate: int, room: int,
                   efforts: seq<Option<string>>, k: nat, partial: string, partialAt: int, longest: string, at: int)
    requires Asking(o, before, since, purpose, estimate, room, efforts, k, partial, partialAt, longest, at) && k < |efforts|
    requires EffortAnswered(o, before, after, purpose, estimate, room, efforts[k])
    ensures var text := o.clean(after[|after| - 1].outcome.text); var longer := |text| > |longest|;
      Asking(o, after, since, purpose, estimate, room, efforts, k + 1, partial, partialAt,
             if longer then text else longest, if longer then |after| - 1 else at)
  {
    EffortTried(o, before, after, since, purpose, estimate, room, efforts, k);
    assert (k + 1) * Attempts(o) == k * Attempts(o) + Attempts(o);
    hide EachTried, Attempts, TriesNext;
    var text := o.clean(after[|after| - 1].outcome.text);
    StillNoneLonger(o, before, after, since, longest, if |text| > |longest| then text else longest);
    hide NoneLonger, Judged;
  }

  lemma StillNoneLonger(o: Options, before: seq<Sent>, after: seq<Sent>, since: nat, longest: string, longest': string)
    requires NoneLonger(o, before, since, longest) && before < after && |longest| <= |longest'|
    requires forall i :: |before| <= i < |after| - 1 ==> Judged(after[i].outcome).Refused?
    requires Judged(after[|after| - 1].outcome).Answered? && |o.clean(after[|after| - 1].outcome.text)| <= |longest'|
    ensures NoneLonger(o, after, since, longest')
  {
  }

  /** Tries every effort in one form. `longest` is the longest cut-off summary
      so far, and `at` the call whose reply the text or `longest` is. */
  method Ask(w: World, messages: seq<Message>, withTools: bool, room: int, efforts: seq<Option<string>>,
             partial: string, estimate: int, purpose: Purpose, ghost partialAt: int)
    returns (asked: Asked, longest: string, ghost at: int)
    requires w.Valid() && !purpose.ForRun?
    requires forall e :: WellFormed(w.o, w.sound, Call(Request(messages, Some(room), e, withTools), estimate, purpose))
    requires partial != "" ==> Replied(w, partialAt, partial)
    modifies w`cancelled, w`replies, w`sent, w`runSends
    ensures w.Valid() && old(w.sent) <= w.sent && w.runSends == old(w.runSends) && w.replies <= old(w.replies)
    ensures old(w.cancelled) ==> w.cancelled
    ensures |w.sent| <= |old(w.sent)| + |efforts| * Attempts(w.o)
    ensures OneForm(w.sent, |old(w.sent)|, purpose, estimate, room)
    ensures asked.Text? ==>
      Replied(w, at, asked.text) && |old(w.sent)| <= at == |w.sent| - 1 && !CutOff(w.sent[at].outcome.stop)
    ensures !asked.Text? && longest != "" ==>
      Replied(w, at, longest) && ((at == partialAt && longest == partial) || |old(w.sent)| <= at)
    ensures |longest| >= |partial|
    ensures asked.CutShort? ==>
      NoneLonger(w.o, w.sent, |old(w.sent)|, longest) && EachTried(w.sent, |old(w.sent)|, efforts, |efforts|)
    ensures efforts != [] ==> Ends(w, |old(w.sent)|, asked, longest)
  {
    hide WellFormed, Judged, Asking, EffortAnswered, NoneLonger, EachTried, OneForm, RepliedIn, TriesNext, NoSummary, Ends,
      World.Valid, Attempts, Retried;
    longest, at := partial, partialAt;
    NothingTried(w.o, w.sent, purpose, estimate, room, efforts, partial, partialAt);
    for k := 0 to |efforts|
      invariant w.Valid() && old(w.sent) <= w.sent && w.runSends == old(w.runSends) && w.replies <= old(w.replies)
      invariant old(w.cancelled) ==> w.cancelled
      invariant Asking(w.o, w.sent, |old(w.sent)|, purpose, estimate, room, efforts, k, partial, partialAt, longest, at)
    {
      ghost var before := w.sent;
      var a := Retrying(w, Call(Request(messages, Some(room), efforts[k], withTools), estimate, purpose));
      AskedOnce(w.o, before, w.sent, |old(w.sent)|, purpose, estimate, room, efforts, k, partial, partialAt, longest, at);
      if a.Refused? {
        asked := Failed(a.failure.overflow);
        AskRefused(w, |old(w.sent)|, a, longest);
        return;
      }
      AnsweredText(w, a.response);
      var text := w.o.clean(a.response.message.content);
      if text != "" && !CutOff(a.response.stop) {
        asked, at := Text(text), |w.sent| - 1;
        AskText(w, |old(w.sent)|, a.response, longest);
        return;
      }
      if text == "" && a.response.message.toolCalls != [] {
        asked := Failed(true);
        AskTools(w, |old(w.sent)|, a.response, longest);
        return;
      }
      EffortCounts(w.o, before, w.sent, purpose, estimate, room, efforts[k], a.response);
      NextEffort(w.o, before, w.sent, |old(w.sent)|, purpose, estimate, room, efforts, k, partial, partialAt, longest, at);
      if |text| > |longest| {
        longest, at := text, |w.sent| - 1;
      }
    }
    asked := CutShort;
    AskCutShort(w, |old(w.sent)|, purpose, estimate, room, efforts, partial, partialAt, longest, at);
  }

  lemma NothingTried(o: Options, sent: seq<Sent>, purpose: Purpose, estimate: int, room: int, efforts: seq<Option<string>>,
                     partial: string, partialAt: int)
    requires partial != "" ==> RepliedIn(o, sent, partialAt, partial)
    ensures Asking(o, sent, |sent|, purpose, estimate, room, efforts, 0, partial, partialAt, partial, partialAt)
  {
  }

  /** What holds of one more effort whatever came of it. */
  lemma AskedOnce(o: Options, before: seq<Sent>, after: seq<Sent>, since: nat, purpose: Purpose, estimate: int, room: int,
               efforts: seq<Option<string>>, k: nat, partial: string, partialAt: int, longest: string, at: int)
    requires Asking(o, before, since, purpose, estimate, room, efforts, k, partial, partialAt, longest, at) && k < |efforts|
    requires before < after && |after| <= |before| + Attempts(o)
    requires forall i :: |before| <= i < |after| ==>
      && after[i].call.purpose == purpose && after[i].call.estimate == estimate
      && after[i].call.request.maxOutput == Some(room)
    ensures since < |after| <= since + |efforts| * Attempts(o) && OneForm(after, since, purpose, estimate, room)
    ensures |longest| >= |partial|
    ensures longest != "" ==> RepliedIn(o, after, at, longest) && ((at == partialAt && longest == partial) || since <= at)
  {
    hide EachTried, NoneLonger, TriesNext, Judged, Attempts;
    assert (k + 1) * Attempts(o) == k * Attempts(o) + Attempts(o);
    Scale(k + 1, |efforts|, Attempts(o));
  }

  lemma AnsweredText(w: World, r: Response)
    requires w.sent != [] && Judged(w.sent[|w.sent| - 1].outcome) == Answered(r)
    ensures r.message.content == w.sent[|w.sent| - 1].outcome.text && r.stop == w.sent[|w.sent| - 1].outcome.stop
  {
  }

  lemma AskRefused(w: World, since: nat, a: Attempt, longest: string)
    requires |w.sent| > since && a.Refused? && Judged(w.sent[|w.sent| - 1].outcome).Refused?
    requires a == Judged(w.sent[|w.sent| - 1].outcome) || w.cancelled
    ensures Ends(w, since, Failed(a.failure.overflow), longest)
  {
  }

  lemma AskText(w: World, since: nat, r: Response, longest: string)
    requires |w.sent| > since && Judged(w.sent[|w.sent| - 1].outcome) == Answered(r) && w.o.clean(r.message.content) != ""
    ensures Replied(w, |w.sent| - 1, w.o.clean(r.message.content))
    ensures Ends(w, since, Text(w.o.clean(r.message.content)), longest)
  {
  }

  lemma AskTools(w: World, since: nat, r: Response, longest: string)
    requires |w.sent| > since && Judged(w.sent[|w.sent| - 1].outcome) == Answered(r)
    requires w.o.clean(r.message.content) == "" && r.message.toolCalls != []
    ensures Ends(w, since, Failed(true), longest)
  {
  }

  lemma EffortCounts(o: Options, before: seq<Sent>, after: seq<Sent>, purpose: Purpose, estimate: int, room: int,
                     effort: Option<string>, r: Response)
    requires before < after && |after| <= |before| + Attempts(o)
    requires forall i :: |before| <= i < |after| ==>
      && after[i].call.purpose == purpose && after[i].call.estimate == estimate
      && after[i].call.request.maxOutput == Some(room) && after[i].call.request.effort == effort
    requires forall i :: |before| <= i < |after| - 1 ==> Retried(Judged(after[i].outcome))
    requires Judged(after[|after| - 1].outcome) == Answered(r)
    requires o.clean(r.message.content) == "" ==> r.message.toolCalls == []
    ensures EffortAnswered(o, before, after, purpose, estimate, room, effort)
  {
    hide Attempts;
  }

  lemma AskCutShort(w: World, since: nat, purpose: Purpose, estimate: int, room: int, efforts: seq<Option<string>>,
                    partial: string, partialAt: int, longest: string, at: int)
    requires Asking(w.o, w.sent, since, purpose, estimate, room, efforts, |efforts|, partial, partialAt, longest, at)
    ensures |w.sent| <= since + |efforts| * Attempts(w.o) && OneForm(w.sent, since, purpose, estimate, room)
    ensures NoneLonger(w.o, w.sent, since, longest) && EachTried(w.sent, since, efforts, |efforts|)
    ensures |longest| >= |partial|
    ensures longest != "" ==> RepliedIn(w.o, w.sent, at, longest) && ((at == partialAt && longest == partial) || since <= at)
    ensures efforts != [] ==> Ends(w, since, CutShort, longest)
  {
    hide EachTried, TriesNext, Attempts;
  }

  lemma Scale(a: nat, b: nat, c: nat)
    requires a <= b
    ensures a * c <= b * c
  {
  }

  function Efforts(o: Options): (es: seq<Option<string>>)
    ensures 1 <= |es| <= 2 && es[0] == o.effort && (|es| == 2 ==> es[1] != es[0])
    ensures o.fallbackEffort != "" ==> Some(o.fallbackEffort) in es
    ensures forall e :: e in es ==> e == o.effort || (o.fallbackEffort != "" && e == Some(o.fallbackEffort))
  {
    if o.fallbackEffort != "" && o.effort != Some(o.fallbackEffort)
    then [o.effort, Some(o.fallbackEffort)] else [o.effort]
  }

  /** The budget, or the configured maximum output if that is less. */
  function Capped(o: Options, budget: int): (n: int)
    ensures n <= budget && (o.maxOutput.Some? ==> n <= o.maxOutput.value)
    ensures n == budget || o.maxOutput == Some(n)
  {
    if o.maxOutput.Some? then Min(budget, o.maxOutput.value) else budget
  }

  /** That, or what a known window leaves beside the estimate if that is less. */
  function Room(o: Options, budget: int, estimate: int): (n: int)
    ensures n <= budget && (o.contextWindow > 0 ==> estimate + n <= o.contextWindow)
    ensures n == budget || (o.contextWindow > 0 && estimate + n == o.contextWindow)
  {
    if o.contextWindow > 0 then Min(budget, o.contextWindow - estimate) else budget
  }

  /** A summary request asks for the room its budget leaves, no more than the
      budget, and fits the window with it; unless the budget is nothing, so does
      its input alone. */
  ghost predicate Bounded(o: Options, s: Call, budget: nat) {
    && !s.purpose.ForRun?
    && s.request.maxOutput == Some(Room(o, Capped(o, budget), s.estimate)) && s.request.maxOutput.value <= budget
    && (o.contextWindow > 0 ==> s.estimate + s.request.maxOutput.value <= o.contextWindow)
    && (o.contextWindow > 0 && budget > 0 ==> s.estimate < o.contextWindow)
  }

  lemma CachedWellFormed(o: Options, sound: bool, covers: seq<Message>, prompt: string, estimate: int, room: nat)
    requires sound ==> Paired(covers)
    requires var source := covers + [UserMessage(prompt)]; estimate == Estimated(o.overhead, source, Sizes(o, source))
    requires o.contextWindow > 0 ==> estimate + room <= o.contextWindow
    ensures forall e :: WellFormed(o, sound, Call(
      Request(AllPrepared(o, covers + [UserMessage(prompt)]), Some(room), e, true), estimate, CachedSummary(covers, prompt)))
  {
    if sound { PairedAndUsers(covers, [UserMessage(prompt)]); }
    PreparedPairs(o, covers + [UserMessage(prompt)]);
    PairedIffWellPaired(AllPrepared(o, covers + [UserMessage(prompt)]));
  }

  lemma TranscriptWellFormed(o: Options, sound: bool, covers: seq<Message>, prompt: string, estimate: int, room: nat)
    requires var source := [UserMessage(TranscriptText(o, covers, prompt))];
      estimate == Estimated(o.transcriptOverhead, source, Sizes(o, source))
    requires o.contextWindow > 0 ==> estimate + room <= o.contextWindow
    ensures forall e :: WellFormed(o, sound, Call(
      Request(AllPrepared(o, [UserMessage(TranscriptText(o, covers, prompt))]), Some(room), e, false), estimate,
      TranscriptSummary(covers, prompt)))
  {
  }

  lemma SentInRoom(o: Options, s: Sent, msgs: seq<Message>, lo: nat, from: nat, end: nat, prompt: string, budget: nat, capped: nat, room: int)
    requires lo <= from <= end <= |msgs| && capped == Capped(o, budget) && (budget > 0 ==> capped > 0)
    requires !s.call.purpose.ForRun? && s.call.purpose.covers == msgs[lo..end] && s.call.purpose.prompt == prompt
    requires room == Room(o, capped, s.call.estimate) >= Min(capped, MIN_SUMMARY_BUDGET)
    requires s.call.request.maxOutput == Some(room)
    ensures Covers(s, msgs, from, end, prompt) && Bounded(o, s.call, budget)
  {
  }

  /** There is room for a summary beside that source. */
  ghost predicate HasRoom(o: Options, overhead: nat, source: seq<Message>, capped: int) {
    Room(o, capped, Estimated(overhead, source, Sizes(o, source))) >= Min(capped, MIN_SUMMARY_BUDGET)
  }

  ghost predicate CachedRoom(o: Options, msgs: seq<Message>, end: nat, prompt: string, capped: int)
    requires end <= |msgs|
  {
    HasRoom(o, o.overhead, msgs[..end] + [UserMessage(prompt)], capped)
  }

  ghost predicate TranscriptRoom(o: Options, msgs: seq<Message>, from: nat, end: nat, prompt: string, capped: int)
    requires from <= end <= |msgs|
  {
    HasRoom(o, o.transcriptOverhead, [UserMessage(TranscriptText(o, msgs[from..end], prompt))], capped)
  }

  /** Why there is no summary: the run was cancelled, neither form had room, or
      the last call brought none, which it is not the end of when it was in the
      cached form, could be tried in the other, and had room there. */
  ghost predicate GaveUp(w: World, since: nat, msgs: seq<Message>, from: nat, end: nat, prompt: string, budget: nat)
    reads w`sent, w`cancelled
    requires from <= end <= |msgs|
  {
    var capped := Capped(w.o, budget);
    var other := TranscriptRoom(w.o, msgs, from, end, prompt, capped);
    || w.cancelled
    || (|w.sent| == since && !CachedRoom(w.o, msgs, end, prompt, capped) && !other)
    || (|w.sent| > since && NoSummary(w.o, w.sent[|w.sent| - 1])
        && (w.sent[|w.sent| - 1].call.purpose.CachedSummary? && TriesNext(w.o, w.sent[|w.sent| - 1]) ==> !other))
  }

  /** A call brought no summary if it came to no reply or to one without text; the
      other form is for an overflow and for a reply that only calls tools. */
  lemma NoSummaryIs(o: Options, s: Sent)
    ensures NoSummary(o, s) <==> Judged(s.outcome).Answered? ==> o.clean(s.outcome.text) == ""
    ensures TriesNext(o, s) <==>
      || (s.outcome.Broke? && s.outcome.failure.overflow)
      || (s.outcome.Finished? && s.outcome.stop !in {"", "length", "content_filter"}
          && o.clean(s.outcome.text) == "" && s.outcome.calls != [])
  {
  }

  /** A form has room when what its budget leaves is the budget itself or at least
      2048 tokens. */
  lemma HasRoomIs(o: Options, overhead: nat, source: seq<Message>, capped: int)
    ensures HasRoom(o, overhead, source, capped) <==>
      o.contextWindow <= 0
      || Estimated(overhead, source, Sizes(o, source)) + (if capped < 2048 then capped else 2048) <= o.contextWindow
  {
  }

  /** Tries the cached form, msgs[..end] as the run sends them and the prompt.
      It is not tried without room for a summary. */
  method AskCached(w: World, msgs: seq<Message>, from: nat, end: nat, prompt: string, budget: nat, capped: nat)
    returns (tried: bool, asked: Asked, partial: string, ghost at: int)
    requires w.Valid() && from <= end <= |msgs| && (w.sound ==> Paired(msgs[..end])) && capped == Capped(w.o, budget) && (budget > 0 ==> capped > 0)
    modifies w`cancelled, w`replies, w`sent, w`runSends
    ensures w.Valid() && old(w.sent) <= w.sent && w.runSends == old(w.runSends) && w.replies <= old(w.replies)
    ensures old(w.cancelled) ==> w.cancelled
    ensures |w.sent| <= |old(w.sent)| + 2 * Attempts(w.o)
    ensures forall i :: |old(w.sent)| <= i < |w.sent| ==> Covers(w.sent[i], msgs, from, end, prompt) && Bounded(w.o, w.sent[i].call, budget)
    ensures asked.Text? ==> tried && Replied(w, at, asked.text) && |old(w.sent)| <= at
    ensures partial != "" ==> asked.Text? || (Replied(w, at, partial) && |old(w.sent)| <= at)
    ensures tried <==> CachedRoom(w.o, msgs, end, prompt, capped)
    ensures if tried then Ends(w, |old(w.sent)|, asked, partial) else w.sent == old(w.sent)
    ensures forall i :: |old(w.sent)| <= i < |w.sent| ==> w.sent[i].call.purpose.CachedSummary?
  {
    hide WellFormed, Estimated, World.Valid, Covers, Bounded, Paired, Ends, Judged;
    tried, asked, partial, at := false, CutShort, "", -1;
    var source := msgs[..end] + [UserMessage(prompt)];
    var messages, sizes := WithMessages(w.o, source);
    var estimate := EstimateContext(w.o.overhead, source, sizes);
    var room := Room(w.o, capped, estimate);
    if room < Min(capped, MIN_SUMMARY_BUDGET) { return; }
    tried := true;
    CachedWellFormed(w.o, w.sound, msgs[..end], prompt, estimate, room);
    Scale(|Efforts(w.o)|, 2, Attempts(w.o));
    asked, partial, at := Ask(w, messages, true, room, Efforts(w.o), "", estimate, CachedSummary(msgs[..end], prompt), at);
    assert msgs[..end] == msgs[0..end];
    forall i | |old(w.sent)| <= i < |w.sent|
      ensures Covers(w.sent[i], msgs, from, end, prompt) && Bounded(w.o, w.sent[i].call, budget)
    {
      SentInRoom(w.o, w.sent[i], msgs, 0, from, end, prompt, budget, capped, room);
    }
  }

  /** Tries the transcript form, msgs[from..end] written out as text. */
  method AskTranscript(w: World, msgs: seq<Message>, from: nat, end: nat, prompt: string, budget: nat, capped: nat,
                       partial: string, ghost partialAt: int)
    returns (tried: bool, asked: Asked, longest: string, ghost at: int)
    requires w.Valid() && from <= end <= |msgs| && capped == Capped(w.o, budget) && (budget > 0 ==> capped > 0)
    requires partial != "" ==> Replied(w, partialAt, partial)
    modifies w`cancelled, w`replies, w`sent, w`runSends
    ensures w.Valid() && old(w.sent) <= w.sent && w.runSends == old(w.runSends) && w.replies <= old(w.replies)
    ensures old(w.cancelled) ==> w.cancelled
    ensures |w.sent| <= |old(w.sent)| + 2 * Attempts(w.o)
    ensures forall i :: |old(w.sent)| <= i < |w.sent| ==> Covers(w.sent[i], msgs, from, end, prompt) && Bounded(w.o, w.sent[i].call, budget)
    ensures asked.Text? ==> tried && Replied(w, at, asked.text) && |old(w.sent)| <= at
    ensures longest != "" && !asked.Text? ==>
      Replied(w, at, longest) && ((at == partialAt && longest == partial) || |old(w.sent)| <= at)
    ensures tried <==> TranscriptRoom(w.o, msgs, from, end, prompt, capped)
    ensures if tried then Ends(w, |old(w.sent)|, asked, longest) else w.sent == old(w.sent)
    ensures forall i :: |old(w.sent)| <= i < |w.sent| ==> w.sent[i].call.purpose.TranscriptSummary?
  {
    hide WellFormed, Estimated, World.Valid, Covers, Bounded, Ends, Judged;
    tried, asked, longest, at := false, CutShort, partial, partialAt;
    var source := [UserMessage(TranscriptText(w.o, msgs[from..end], prompt))];
    var messages, sizes := WithMessages(w.o, source);
    var estimate := EstimateContext(w.o.transcriptOverhead, source, sizes);
    var room := Room(w.o, capped, estimate);
    if room < Min(capped, MIN_SUMMARY_BUDGET) { return; }
    tried := true;
    TranscriptWellFormed(w.o, w.sound, msgs[from..end], prompt, estimate, room);
    Scale(|Efforts(w.o)|, 2, Attempts(w.o));
    asked, longest, at := Ask(w, messages, false, room, Efforts(w.o), partial, estimate,
                              TranscriptSummary(msgs[from..end], prompt), partialAt);
    forall i | |old(w.sent)| <= i < |w.sent|
      ensures Covers(w.sent[i], msgs, from, end, prompt) && Bounded(w.o, w.sent[i].call, budget)
    {
      SentInRoom(w.o, w.sent[i], msgs, from, from, end, prompt, budget, capped, room);
    }
  }

  /** One summary of msgs[from..end]. Every request of it bounds its output by
      the budget and the window, and the one answered conveys all of the range. */
  method Summary(w: World, msgs: seq<Message>, from: nat, end: nat, prompt: string, budget: nat)
    returns (summary: Option<string>, ghost at: int)
    requires w.Valid() && from <= end <= |msgs| && (w.sound ==> Paired(msgs[..end]))
    requires w.o.maxOutput.Some? ==> w.o.maxOutput.value >= 1
    modifies w`cancelled, w`replies, w`sent, w`runSends
    ensures w.Valid() && old(w.sent) <= w.sent && w.runSends == old(w.runSends) && w.replies <= old(w.replies)
    ensures old(w.cancelled) ==> w.cancelled
    ensures |w.sent| <= |old(w.sent)| + 4 * Attempts(w.o)
    ensures summary.Some? ==>
      && Replied(w, at, summary.value) && |old(w.sent)| <= at < |w.sent|
      && Covers(w.sent[at], msgs, from, end, prompt) && Bounded(w.o, w.sent[at].call, budget)
    ensures forall i :: |old(w.sent)| <= i < |w.sent| ==> Bounded(w.o, w.sent[i].call, budget)
    ensures summary.None? ==> GaveUp(w, |old(w.sent)|, msgs, from, end, prompt, budget)
  {
    hide WellFormed, Covers, Bounded, HasRoom, NoSummary, TriesNext, Judged, World.Valid;
    var capped := Capped(w.o, budget);
    var tried, asked, partial;
    tried, asked, partial, at := AskCached(w, msgs, from, end, prompt, budget, capped);
    if asked.Text? {
      return Some(asked.text), at;
    }
    if tried {
      if asked.CutShort? {
        return if partial == "" then None else Some(partial), at;
      }
      if !asked.next { return None, at; }
    }
    ghost var cachedSent := w.sent;
    ghost var cachedAt := at;
    tried, asked, partial, at := AskTranscript(w, msgs, from, end, prompt, budget, capped, partial, at);
    assert forall i :: |old(w.sent)| <= i < |cachedSent| ==> w.sent[i] == cachedSent[i];
    if !tried { return None, at; }
    match asked {
      case Text(text) => summary := Some(text);
      case Failed(_) => summary := None;
      case CutShort => summary := if partial == "" then None else Some(partial);
    }
  }
}
