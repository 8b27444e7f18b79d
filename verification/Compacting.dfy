/** Compacting a conversation, and the model call that may do so first. */
module Compacting {
  import opened Provider
  import opened Session
  import opened Pairing
  import opened Resume
  import opened Planning
  import opened Estimate
  import opened Environment
  import opened Calls
  import opened Summaries
  import opened Conversations

  // ----- The live conversation and the log -----

  /** The first `stored` messages are what folding the log rebuilds. */
  ghost predicate Mirrors(msgs: seq<Message>, stored: nat, log: seq<Entry>) {
    stored <= |msgs| && AllSpelled(msgs[..stored]) == Folded(log)
  }

  /** A place to call the model from: the conversation mirrors the log, and only
      user messages wait behind it. If it is to be `sound`, every call is answered
      and the log agrees. */
  ghost predicate Ready(sound: bool, msgs: seq<Message>, stored: nat, log: seq<Entry>) {
    && Mirrors(msgs, stored, log)
    && (sound ==> Paired(msgs[..stored]) && Agrees(log))
    && forall i :: stored <= i < |msgs| ==> FromUser(msgs[i])
  }

  lemma OpenIsPathPending(msgs: seq<Message>, stored: nat, log: seq<Entry>)
    requires Mirrors(msgs, stored, log) && Agrees(log)
    requires OpenFrom(Some([]), msgs[..stored]).Some?
    ensures PathPending(log) == OpenFrom(Some([]), msgs[..stored]).value
  {
    SpelledPairs(msgs[..stored]);
    OpenIsUnanswered(AllSpelled(msgs[..stored]));
  }

  lemma ReadyIsResumable(msgs: seq<Message>, stored: nat, log: seq<Entry>)
    requires Ready(true, msgs, stored, log)
    ensures PathResumable(log)
  {
    OpenIsPathPending(msgs, stored, log);
  }

  /** A log as the store keeps it. */
  ghost predicate AsStored(log: seq<Entry>) {
    forall i :: 0 <= i < |log| && log[i].Msg? ==> Spelled(log[i].message) == log[i].message
  }

  lemma {:induction false} FoldedAsStored(log: seq<Entry>)
    requires AsStored(log)
    ensures AllSpelled(Folded(log)) == Folded(log)
  {
    if log != [] {
      var init, e := log[..|log| - 1], log[|log| - 1];
      FoldedAsStored(init);
      assert log == init + [e];
      FoldedOfAppend(init, e);
      if e.Msg? { AllSpelledConcat(Folded(init), [e.message]); }
      if e.Compact? { CompactedSpelled(Folded(init), e.compaction); }
    }
  }

  /** Conversely, a conversation may be loaded from an entry and run on exactly
      when that entry is resumable, where the log agrees and is paired so far. */
  lemma ResumableIsReady(log: seq<Entry>)
    requires AsStored(log) && Agrees(log) && OpenFrom(Some([]), Folded(log)).Some?
    ensures PathResumable(log) <==> Ready(true, Folded(log), |Folded(log)|, log)
  {
    var msgs := Folded(log);
    assert msgs[..|msgs|] == msgs;
    FoldedAsStored(log);
    OpenIsPathPending(msgs, |msgs|, log);
  }

  /** The first request of a run is well paired exactly when every call of the
      conversation it starts from is answered, whatever users add. */
  lemma FirstRequestPairedIff(o: Options, msgs: seq<Message>, users: seq<Message>)
    requires forall m :: m in users ==> FromUser(m)
    ensures WellPaired(AllPrepared(o, msgs + users)) <==> Paired(msgs)
  {
    PreparedPairs(o, msgs + users);
    PairedIffWellPaired(AllPrepared(o, msgs + users));
    PairedWithUsersIff(msgs, users);
  }

  /** So after a lost answer the next run's first request is malformed. */
  lemma LostAnswerMalformsNext(o: Options, msgs: seq<Message>, log: seq<Entry>, users: seq<Message>)
    requires Mirrors(msgs, |msgs|, log) && Agrees(log) && !PathResumable(log)
    requires forall m :: m in users ==> FromUser(m)
    ensures !WellPaired(AllPrepared(o, msgs + users))
  {
    FirstRequestPairedIff(o, msgs, users);
    assert msgs[..|msgs|] == msgs;
    if Paired(msgs) { OpenIsPathPending(msgs, |msgs|, log); }
  }

  /** Storing the next message keeps the mirror. */
  lemma MirrorsAppend(msgs: seq<Message>, stored: nat, log: seq<Entry>, m: Message)
    requires Mirrors(msgs, stored, log) && stored < |msgs| && msgs[stored] == m
    ensures Mirrors(msgs, stored + 1, log + [Msg(Spelled(m))])
    ensures Agrees(log) ==> Agrees(log + [Msg(Spelled(m))])
  {
    assert msgs[..stored + 1] == msgs[..stored] + [m];
    FoldedOfAppend(log, Msg(Spelled(m)));
    if Agrees(log) { MessageKeepsAgreeing(log, Spelled(m)); }
  }

  // ----- Summarizing what a plan cuts -----

  /** The history's summary, and that of a split turn's start behind it. */
  function AssembledSummary(plan: Plan, history: string, prefix: string): (s: string)
    ensures plan.turnStart.None? ==> s == history
    ensures plan.turnStart.Some? ==>
      var before := if history == "" then "No prior history." else history;
      && |s| >= |before| + |prefix| && before <= s && s[|s| - |prefix|..] == prefix
      && s[|before|..|s| - |prefix|] == "\n\n---\n\n**Turn Context (split turn):**\n\n"
  {
    if !plan.Split() then history
    else
      var before := if history == "" then "No prior history." else history;
      assert before + SPLIT_TURN_SEPARATOR + prefix == before + (SPLIT_TURN_SEPARATOR + prefix);
      before + SPLIT_TURN_SEPARATOR + prefix
  }

  /** Where the summary of a plan came from: the calls that summarized the
      complete turns and the split turn's start, and what they answered. */
  datatype Evidence = Evidence(history: string, historyAt: int, prefix: string, prefixAt: int)

  /** Nothing in [0, first) is lost: each complete turn and the split turn's
      start went out whole in a call whose reply is in the summary, and an
      earlier summary went out with the former or is carried over verbatim. */
  ghost predicate Accounts(w: World, since: nat, msgs: seq<Message>, plan: Plan, focus: string, summary: string, e: Evidence)
    reads w`sent
    requires plan.start <= plan.HistoryEnd() <= plan.first <= |msgs|
    requires plan.Previous() ==> |msgs| > 0
  {
    && summary == AssembledSummary(plan, e.history, e.prefix)
    && HistoryKept(w.o, w.sent, since, msgs, plan, focus, e)
    && (plan.Split() ==>
          PartKept(w.o, w.sent, since, msgs, plan.HistoryEnd(), plan.first, w.o.turnPrefixPrompt, ReserveTokens(w.o) / 2,
                   e.prefix, e.prefixAt))
  }

  /** A call since then that covers [from, end), under that prompt and within that
      budget, was answered with `text`. */
  ghost predicate PartKept(o: Options, sent: seq<Sent>, since: nat, msgs: seq<Message>, from: nat, end: nat,
                           prompt: string, budget: nat, text: string, at: int)
    requires from <= end <= |msgs|
  {
    since <= at && RepliedIn(o, sent, at, text) && Covers(sent[at], msgs, from, end, prompt) && Bounded(o, sent[at].call, budget)
  }

  ghost predicate HistoryKept(o: Options, sent: seq<Sent>, since: nat, msgs: seq<Message>, plan: Plan, focus: string, e: Evidence)
    requires plan.start <= plan.HistoryEnd() <= |msgs|
    requires plan.Previous() ==> |msgs| > 0
  {
    if plan.HistoryEnd() > plan.start then
      PartKept(o, sent, since, msgs, 0, plan.HistoryEnd(), HistoryPrompt(o, plan, focus), ReserveTokens(o) * 8 / 10,
               e.history, e.historyAt)
    else if plan.Previous() then e.history == SummaryText(msgs[0])
    else plan.HistoryEnd() == 0
  }

  ghost predicate Follows(sound: bool, plan: Plan, msgs: seq<Message>) {
    && plan.start <= plan.HistoryEnd() <= plan.first <= |msgs|
    && (plan.start == 0 || (plan.start == 1 && |msgs| > 0))
    && (sound ==> Paired(msgs[..plan.HistoryEnd()]) && Paired(msgs[..plan.first]))
  }

  /** Summary calls take their output from the reserve. Their input alone is
      below the window as soon as the reserve is at least two tokens. */
  ghost predicate InReserve(o: Options, s: Call) {
    && !s.purpose.ForRun?
    && s.request.maxOutput.Some? && s.request.maxOutput.value <= ReserveTokens(o)
    && (o.contextWindow > 0 ==> s.estimate + s.request.maxOutput.value <= o.contextWindow)
    && (o.contextWindow > 0 && ReserveTokens(o) >= 2 ==> s.estimate < o.contextWindow)
  }

  /** What is asked of the complete turns: to update the summary there is or to
      make the first one, and what to look at in particular. */
  function HistoryPrompt(o: Options, plan: Plan, focus: string): (prompt: string)
    ensures var base := if plan.start == 1 then o.updatePrompt else o.summaryPrompt;
      && base <= prompt && (focus == "" ==> prompt == base)
      && (focus != "" ==> prompt[|base|..] == "\n\nAdditional focus: " + focus)
  {
    (if plan.Previous() then o.updatePrompt else o.summaryPrompt)
    + if focus != "" then "\n\nAdditional focus: " + focus else ""
  }

  /** Why a plan's cut has no summary: one of its two parts got none. */
  ghost predicate Unsummarized(w: World, since: nat, msgs: seq<Message>, plan: Plan, focus: string)
    reads w`sent, w`cancelled
    requires plan.start <= plan.HistoryEnd() <= plan.first <= |msgs|
  {
    || (plan.HistoryEnd() > plan.start
        && GaveUp(w, since, msgs, 0, plan.HistoryEnd(), HistoryPrompt(w.o, plan, focus), ReserveTokens(w.o) * 8 / 10))
    || (plan.Split() && exists mid: nat ::
          since <= mid <= |w.sent|
          && GaveUp(w, mid, msgs, plan.HistoryEnd(), plan.first, w.o.turnPrefixPrompt, ReserveTokens(w.o) / 2))
  }

  /** The summary of the complete turns, or what the last one said. */
  method SummarizeHistory(w: World, msgs: seq<Message>, plan: Plan, focus: string)
    returns (history: Option<string>, ghost e: Evidence)
    requires w.Valid() && Follows(w.sound, plan, msgs)
    requires w.o.maxOutput.Some? ==> w.o.maxOutput.value >= 1
    modifies w`cancelled, w`replies, w`sent, w`runSends
    ensures w.Valid() && old(w.sent) <= w.sent && w.runSends == old(w.runSends) && w.replies <= old(w.replies)
    ensures |w.sent| <= |old(w.sent)| + 4 * Attempts(w.o) && (old(w.cancelled) ==> w.cancelled)
    ensures forall i :: |old(w.sent)| <= i < |w.sent| ==> InReserve(w.o, w.sent[i].call)
    ensures history.None? ==>
      plan.HistoryEnd() > plan.start
      && GaveUp(w, |old(w.sent)|, msgs, 0, plan.HistoryEnd(), HistoryPrompt(w.o, plan, focus), ReserveTokens(w.o) * 8 / 10)
    ensures history.Some? ==> e.history == history.value && HistoryKept(w.o, w.sent, |old(w.sent)|, msgs, plan, focus, e)
  {
    hide WellFormed, Bounded, InReserve, Covers, GaveUp, RepliedIn, World.Valid, Attempts;
    var reserve := ReserveTokens(w.o);
    e := Evidence("", -1, "", -1);
    if plan.HistoryEnd() > plan.start {
      var prompt := if plan.Previous() then w.o.updatePrompt else w.o.summaryPrompt;
      if focus != "" { prompt := prompt + "\n\nAdditional focus: " + focus; }
      assert prompt == HistoryPrompt(w.o, plan, focus);
      ghost var at;
      history, at := Summary(w, msgs, 0, plan.HistoryEnd(), prompt, reserve * 8 / 10);
      Loosen(w, |old(w.sent)|, reserve * 8 / 10);
      if history.Some? { e := Evidence(history.value, at, "", -1); }
    } else if plan.Previous() {
      history := Some(SummaryText(msgs[0]));
      e := Evidence(history.value, -1, "", -1);
    } else {
      history := Some("");
    }
  }

  method Summarize(w: World, msgs: seq<Message>, plan: Plan, focus: string)
    returns (summary: Option<string>, ghost e: Evidence)
    requires w.Valid() && Follows(w.sound, plan, msgs)
    requires w.o.maxOutput.Some? ==> w.o.maxOutput.value >= 1
    modifies w`cancelled, w`replies, w`sent, w`runSends
    ensures w.Valid() && old(w.sent) <= w.sent && w.runSends == old(w.runSends) && w.replies <= old(w.replies)
    ensures |w.sent| <= |old(w.sent)| + 8 * Attempts(w.o) && (old(w.cancelled) ==> w.cancelled)
    ensures forall i :: |old(w.sent)| <= i < |w.sent| ==> InReserve(w.o, w.sent[i].call)
    ensures summary.None? ==> Unsummarized(w, |old(w.sent)|, msgs, plan, focus)
    ensures summary.Some? ==> Accounts(w, |old(w.sent)|, msgs, plan, focus, summary.value, e)
  {
    hide WellFormed, Bounded, InReserve, HistoryKept, PartKept, GaveUp, RepliedIn, World.Valid, Attempts;
    var reserve := ReserveTokens(w.o);
    var found;
    found, e := SummarizeHistory(w, msgs, plan, focus);
    if found.None? { return None, e; }
    var history := found.value;
    if !plan.Split() { return Some(history), e; }
    ghost var before := w.sent;
    var prefix, at := Summary(w, msgs, plan.turnStart.value, plan.first, w.o.turnPrefixPrompt, reserve / 2);
    Loosen(w, |before|, reserve / 2);
    assert forall i :: 0 <= i < |before| ==> w.sent[i] == before[i];
    if prefix.None? { return None, e; }
    StillKept(w.o, before, w.sent, |old(w.sent)|, msgs, plan, focus, e, prefix.value, at);
    e := e.(prefix := prefix.value, prefixAt := at);
    if history == "" { history := "No prior history."; }
    summary := Some(history + SPLIT_TURN_SEPARATOR + prefix.value);
    ByPart(w, |before|, |old(w.sent)|, msgs, plan, e);
  }

  lemma StillKept(o: Options, before: seq<Sent>, after: seq<Sent>, since: nat, msgs: seq<Message>, plan: Plan, focus: string,
                  e: Evidence, prefix: string, at: int)
    requires plan.start <= plan.HistoryEnd() <= |msgs| && (plan.Previous() ==> |msgs| > 0)
    requires before <= after && HistoryKept(o, before, since, msgs, plan, focus, e)
    ensures HistoryKept(o, after, since, msgs, plan, focus, e.(prefix := prefix, prefixAt := at))
  {
    hide Covers, Bounded;
  }

  lemma ByPart(w: World, late: nat, since: nat, msgs: seq<Message>, plan: Plan, e: Evidence)
    requires plan.HistoryEnd() <= plan.first <= |msgs| && since <= late <= e.prefixAt < |w.sent|
    requires Replied(w, e.prefixAt, e.prefix) && Covers(w.sent[e.prefixAt], msgs, plan.HistoryEnd(), plan.first, w.o.turnPrefixPrompt)
    requires Bounded(w.o, w.sent[e.prefixAt].call, ReserveTokens(w.o) / 2)
    ensures PartKept(w.o, w.sent, since, msgs, plan.HistoryEnd(), plan.first, w.o.turnPrefixPrompt, ReserveTokens(w.o) / 2,
                     e.prefix, e.prefixAt)
  {
    hide Covers, Bounded, RepliedIn;
  }

  lemma Loosen(w: World, since: nat, budget: nat)
    requires forall i :: since <= i < |w.sent| ==> Bounded(w.o, w.sent[i].call, budget)
    requires budget <= ReserveTokens(w.o) && (ReserveTokens(w.o) >= 2 ==> budget > 0)
    ensures forall i :: since <= i < |w.sent| ==> InReserve(w.o, w.sent[i].call)
  {
  }

  /** The one case a summary form is tried although its input fills the window:
      a budget of nothing. */
  lemma FullWindowTried(o: Options, capped: nat, estimate: int)
    requires o.contextWindow > 0
    ensures Room(o, capped, estimate) >= Min(capped, MIN_SUMMARY_BUDGET) && estimate >= o.contextWindow
      <==> capped == 0 && estimate == o.contextWindow
  {
  }

  /** A cached summary request that is tried although its input fills the window. */
  ghost predicate FillsWindow(o: Options, covers: seq<Message>, prompt: string) {
    var source := covers + [UserMessage(prompt)];
    var estimate := Estimated(o.overhead, source, Sizes(o, source));
    var capped := Capped(o, ReserveTokens(o) * 8 / 10);
    var room := Room(o, capped, estimate);
    && o.contextWindow > 0 && estimate == o.contextWindow && room >= Min(capped, MIN_SUMMARY_BUDGET)
    && WellFormed(o, true, Call(Request(AllPrepared(o, source), Some(room), o.effort, true), estimate,
                                CachedSummary(covers, prompt)))
  }

  const TIGHT := Options(4, true, 1, 1, 0, false, None, None, "", true, true, "", "", "", 4, 0,
                         _ => 0, _ => "", (t: string) => t, _ => "")

  /** There are options and a paired conversation for which that happens. */
  lemma FullWindowHappens()
    ensures exists o: Options, covers, prompt :: Paired(covers) && FillsWindow(o, covers, prompt)
  {
    TightRoom();
    hide WellFormed, Estimated, Paired, TIGHT;
    OneMessagePaired();
    WeightlessEstimate(TIGHT, 4, [UserMessage("a")] + [UserMessage("b")]);
    CachedWellFormed(TIGHT, true, [UserMessage("a")], "b", 4, 0);
    assert FillsWindow(TIGHT, [UserMessage("a")], "b");
  }

  lemma OneMessagePaired()
    ensures Paired([UserMessage("a")])
  {
    assert [UserMessage("a")][..0] == [] && OpenFrom(Some([]), []) == Some([]);
    assert Ids(UserMessage("a").toolCalls) == [];
  }

  /** Unmeasured messages without a size leave the overhead. */
  lemma WeightlessEstimate(o: Options, overhead: nat, msgs: seq<Message>)
    requires forall m :: o.size(m) == 0
    requires forall m :: m in msgs ==> !Measured(m)
    ensures Estimated(overhead, msgs, Sizes(o, msgs)) == overhead
  {
    assert NewestMeasured(msgs) == -1;
    assert Sizes(o, msgs)[0..] == Sizes(o, msgs);
    SumOfNothing(Sizes(o, msgs));
  }

  lemma {:induction false} SumOfNothing(sizes: seq<nat>)
    requires forall i :: 0 <= i < |sizes| ==> sizes[i] == 0
    ensures Sum(sizes) == 0
  {
    if sizes != [] { SumOfNothing(sizes[1..]); }
  }

  lemma TightRoom()
    ensures TIGHT.contextWindow == TIGHT.overhead == 4 && ReserveTokens(TIGHT) == 1
    ensures Capped(TIGHT, 0) == 0 && Room(TIGHT, 0, 4) == 0 && forall m :: TIGHT.size(m) == 0
  {
  }

  // ----- Compacting -----

  lemma PlanFollows(sound: bool, msgs: seq<Message>, sizes: seq<nat>, stored: nat, keep: int, p: Plan)
    requires stored <= |msgs| == |sizes|
    requires IsPlan(msgs, sizes, stored, keep, Some(p)) && (sound ==> Paired(msgs[..stored]))
    ensures Follows(sound, p, msgs)
  {
    var s := msgs[..stored];
    if sound {
      CutPairs(s, p.first);
      CutPairs(s, p.HistoryEnd());
    }
    assert s[..p.first] == msgs[..p.first] && s[..p.HistoryEnd()] == msgs[..p.HistoryEnd()];
  }

  /** What the conversation and the log are after a compaction at `plan`. */
  lemma CompactedReady(sound: bool, msgs: seq<Message>, stored: nat, log: seq<Entry>, first: nat, c: Compaction)
    requires Ready(sound, msgs, stored, log)
    requires first < stored && msgs[first].role != Tool && c.kept == stored - first
    ensures Ready(sound, Compacted(msgs[..stored], c) + msgs[stored..], c.kept + 1, log + [Compact(c)])
  {
    hide Compacted, Agrees, Paired, AllSpelled, Folded;
    var before := msgs[..stored];
    FoldedOfAppend(log, Compact(c));
    CompactedSpelled(before, c);
    CompactedParts(msgs, stored, c, c.kept);
    if sound { CompactedSound(before, log, c); }
    UsersStay(msgs, stored, Compacted(before, c) + msgs[stored..], c.kept + 1);
  }

  lemma UsersStay(msgs: seq<Message>, stored: nat, next: seq<Message>, stored': nat)
    requires stored <= |msgs| && stored' <= |next| && next[stored'..] == msgs[stored..]
    requires forall i :: stored <= i < |msgs| ==> FromUser(msgs[i])
    ensures forall i :: stored' <= i < |next| ==> FromUser(next[i])
  {
    forall i | stored' <= i < |next| ensures FromUser(next[i]) {
      assert next[i] == next[stored'..][i - stored'] == msgs[stored..][i - stored'];
    }
  }

  lemma CompactedSound(before: seq<Message>, log: seq<Entry>, c: Compaction)
    requires Paired(before) && Agrees(log) && AllSpelled(before) == Folded(log)
    requires 0 < c.kept <= |before| && before[|before| - c.kept].role != Tool
    ensures Paired(Compacted(before, c)) && Agrees(log + [Compact(c)])
  {
    hide Agrees, Compacted, Folded, OpenFrom, Harmless;
    CompactedPairs(before, c);
    SpelledPairs(before);
    PlannedCutHarmless(AllSpelled(before), c);
    CompactionAgreesIff(log, c);
  }

  const ASK := AssistantMessage("", "", [ToolCall("c", "bash", "{}")])
  const HIDING := Compaction("s", 1, 0, 0, Manual)

  /** Otherwise a planned cut can hide a call: the path still has it open, and the
      conversation does not show it. */
  lemma CompactingMidCallHidesIt()
    ensures exists path, sizes: seq<nat>, keep: int, p: Plan, c: Compaction ::
      && |sizes| == |Folded(path)| && Agrees(path)
      && IsPlan(Folded(path), sizes, |sizes|, keep, Some(p)) && c.kept == |sizes| - p.first
      && !PathResumable(path + [Compact(c)]) && Unanswered(Folded(path + [Compact(c)])) == []
  {
    var path := [Msg(ASK)] + [Msg(UserMessage("u"))];
    var sizes: seq<nat> := [1, 1];
    AskThenUser();
    PlannedAtUser(Folded(path), sizes);
    FoldedOfAppend(path, Compact(HIDING));
    PathPendingOfAppend(path, Compact(HIDING));
    CompactedUnanswered(Folded(path), HIDING);
    assert Folded(path)[1..] == [UserMessage("u")] && PendingFrom([], [UserMessage("u")]) == [];
    assert Agrees(path) && !PathResumable(path + [Compact(HIDING)]);
    assert IsPlan(Folded(path), sizes, |sizes|, 1, Some(Plan(0, 1, None, 2)));
  }

  lemma AskThenUser()
    ensures var path := [Msg(ASK)] + [Msg(UserMessage("u"))];
      Folded(path) == [ASK, UserMessage("u")] && PathPending(path) == ["c"] && Agrees(path)
  {
    var user := UserMessage("u");
    FoldedOfAppend([], Msg(ASK));
    FoldedOfAppend([Msg(ASK)], Msg(user));
    assert [] + [Msg(ASK)] == [Msg(ASK)] && Folded([]) == [];
    PathPendingOfAppend([], Msg(ASK));
    PathPendingOfAppend([Msg(ASK)], Msg(user));
    assert [] + Ids(ASK.toolCalls) == ["c"];
    PendingFromConcat([], [ASK], [user]);
    assert [ASK] + [user] == [ASK, user];
    assert PendingFrom([], [ASK]) == ["c"];
  }

  lemma PlannedAtUser(msgs: seq<Message>, sizes: seq<nat>)
    requires msgs == [ASK, UserMessage("u")] && sizes == [1, 1]
    ensures IsPlan(msgs, sizes, 2, 1, Some(Plan(0, 1, None, 2)))
  {
    assert sizes[1..2] == [1] && Sum([1]) == 1 && Sum(sizes[2..2]) == 0;
    assert IsBestCut(msgs, sizes, 2, 1, 1);
  }

  datatype CompactResult = Shrunk(stored: nat) | Unchanged

  /** Why a compaction changed nothing: there was nothing to summarize, what the
      plan cuts got no summary, or the store refused the compaction. */
  ghost predicate Uncompacted(w: World, since: nat, unwritten: nat, msgs: seq<Message>, stored: nat, focus: string)
    reads w`sent, w`cancelled, w`unwritten
    requires stored <= |msgs|
  {
    || IsPlan(msgs, Sizes(w.o, msgs), stored, KeepRecentTokens(w.o), None)
    || w.unwritten > unwritten
    || exists plan :: Cuts(w.o, plan, msgs, stored) && Unsummarized(w, since, msgs, plan, focus)
  }

  ghost predicate Cuts(o: Options, plan: Plan, msgs: seq<Message>, stored: nat)
    requires stored <= |msgs|
  {
    && IsPlan(msgs, Sizes(o, msgs), stored, KeepRecentTokens(o), Some(plan))
    && plan.start <= plan.HistoryEnd() <= plan.first <= |msgs|
  }

  /** The log got one compaction, which keeps what `plan` keeps and whose summary
      accounts for the rest, and the conversation is its fold and what waited. */
  ghost predicate Replaced(w: World, since: nat, msgs: seq<Message>, stored: nat, log: seq<Entry>,
                           plan: Plan, reason: Reason, focus: string, e: Evidence, next: seq<Message>, stored': nat)
    reads w`sent, w`log
    requires stored <= |msgs|
  {
    && Cuts(w.o, plan, msgs, stored) && plan.start < plan.first < stored && msgs[plan.first].role != Tool
    && (plan.Previous() ==> |msgs| > 0)
    && stored' == stored - plan.first + 1 <= |next|
    && |w.log| == |log| + 1 && log <= w.log && w.log[|log|].Compact?
    && w.log[|log|].compaction.kept == stored - plan.first
    && next[..stored'] == Compacted(msgs[..stored], w.log[|log|].compaction) && next[stored'..] == msgs[stored..]
    && Accounts(w, since, msgs, plan, focus, w.log[|log|].compaction.summary, e)
    && w.log[|log|].compaction.reason == reason
    && w.log[|log|].compaction.tokensBefore == Estimated(w.o.overhead, msgs, Sizes(w.o, msgs))
    && w.log[|log|].compaction.tokensAfter == w.o.overhead + Sum(Sizes(w.o, next))
  }

  /** Replaces the oldest part of the conversation by its summary, in the store
      and then in memory. The first `stored` messages are stored; the rest wait
      to be delivered and are always kept. */
  method CompactAt(w: World, s: Conversation, stored: nat, reason: Reason, focus: string)
    returns (r: CompactResult, ghost plan: Plan, ghost e: Evidence)
    requires w.Valid() && stored <= |s.messages| && Ready(w.sound, s.messages, stored, w.log)
    requires w.o.maxOutput.Some? ==> w.o.maxOutput.value >= 1
    modifies s, w`cancelled, w`replies, w`sent, w`runSends, w`log, w`compactions, w`unwritten
    ensures w.Valid() && old(w.sent) <= w.sent && w.runSends == old(w.runSends) && w.replies <= old(w.replies)
    ensures w.compactions == old(w.compactions) + 1 && (old(w.cancelled) ==> w.cancelled)
    ensures forall i :: |old(w.sent)| <= i < |w.sent| ==> InReserve(w.o, w.sent[i].call)
    ensures old(w.unwritten) <= w.unwritten && (r.Shrunk? ==> w.unwritten == old(w.unwritten))
    ensures r.Unchanged? ==> s.messages == old(s.messages) && w.log == old(w.log)
    ensures r.Unchanged? ==> Uncompacted(w, |old(w.sent)|, old(w.unwritten), s.messages, stored, focus)
    ensures r.Shrunk? ==> r.stored <= |s.messages| && Ready(w.sound, s.messages, r.stored, w.log)
    ensures r.Shrunk? ==> Replaced(w, |old(w.sent)|, old(s.messages), stored, old(w.log), plan, reason, focus, e, s.messages, r.stored)
  {
    hide WellFormed, InReserve, Accounts, Ready, IsPlan, Estimated, World.Valid, Compacted, Unsummarized, Uncompacted,
      Replaced, Attempts;
    w.compactions := w.compactions + 1;
    plan, e := Plan(0, 0, None, 0), Evidence("", -1, "", -1);
    var msgs := s.messages;
    var messages, sizes := WithMessages(w.o, msgs);
    var found := PlanCompaction(msgs, sizes, stored, KeepRecentTokens(w.o));
    if found.None? {
      NothingToCompact(w, msgs, stored, focus);
      return Unchanged, plan, e;
    }
    plan := found.value;
    PlanOfReady(w.sound, msgs, sizes, stored, w.log, KeepRecentTokens(w.o), found.value);
    var tokensBefore := EstimateContext(w.o.overhead, msgs, sizes);
    var summary;
    summary, e := Summarize(w, msgs, found.value, focus);
    if summary.None? {
      WithoutSummary(w, |old(w.sent)|, msgs, stored, found.value, focus);
      return Unchanged, plan, e;
    }
    r := ReplaceOldest(w, s, stored, found.value, summary.value, tokensBefore, reason, focus, |old(w.sent)|, e);
    if r.Unchanged? { StoreRefused(w, |old(w.sent)|, old(w.unwritten), msgs, stored, focus); }
  }

  /** Stores the compaction, and only then shortens the conversation. */
  method ReplaceOldest(w: World, s: Conversation, stored: nat, plan: Plan, summary: string, tokensBefore: int, reason: Reason,
                       ghost focus: string, ghost since: nat, ghost e: Evidence)
    returns (r: CompactResult)
    requires stored <= |s.messages| && Ready(w.sound, s.messages, stored, w.log)
    requires Cuts(w.o, plan, s.messages, stored) && plan.start < plan.first < stored && s.messages[plan.first].role != Tool
    requires (plan.Previous() ==> |s.messages| > 0) && Accounts(w, since, s.messages, plan, focus, summary, e)
    requires tokensBefore == Estimated(w.o.overhead, s.messages, Sizes(w.o, s.messages))
    modifies s, w`log, w`unwritten
    ensures w.unwritten == old(w.unwritten) + if r.Unchanged? then 1 else 0
    ensures r.Unchanged? ==> s.messages == old(s.messages) && w.log == old(w.log)
    ensures r.Shrunk? ==> r.stored <= |s.messages| && Ready(w.sound, s.messages, r.stored, w.log)
    ensures r.Shrunk? ==> Replaced(w, since, old(s.messages), stored, old(w.log), plan, reason, focus, e, s.messages, r.stored)
  {
    hide Accounts, Ready, Cuts, Estimated, Compacted, Sum, Sizes;
    var msgs := s.messages;
    var kept := stored - plan.first;
    var c := Compaction(summary, kept, tokensBefore, 0, reason);
    var next := Compacted(msgs[..stored], c) + msgs[stored..];
    var _, nextSizes := WithMessages(w.o, next);
    var tokensAfter := EstimateContext(w.o.overhead, next, nextSizes);
    UnmeasuredAfter(w.o, w.sound, msgs, stored, w.log, c);
    TokensDoNotMatter(msgs[..stored], c, tokensAfter);
    c := c.(tokensAfter := tokensAfter);
    var ok := w.AppendCompaction(c);
    if !ok { return Unchanged; }
    CompactedReady(w.sound, msgs, stored, old(w.log), plan.first, c);
    CompactedParts(msgs, stored, c, kept);
    s.Replace(next);
    r := Shrunk(kept + 1);
  }

  lemma NothingToCompact(w: World, msgs: seq<Message>, stored: nat, focus: string)
    requires stored <= |msgs| && IsPlan(msgs, Sizes(w.o, msgs), stored, KeepRecentTokens(w.o), None)
    ensures Uncompacted(w, |w.sent|, w.unwritten, msgs, stored, focus)
  {
  }

  lemma WithoutSummary(w: World, since: nat, msgs: seq<Message>, stored: nat, plan: Plan, focus: string)
    requires stored <= |msgs| && Cuts(w.o, plan, msgs, stored) && Unsummarized(w, since, msgs, plan, focus)
    ensures Uncompacted(w, since, w.unwritten, msgs, stored, focus)
  {
  }

  lemma StoreRefused(w: World, since: nat, unwritten: nat, msgs: seq<Message>, stored: nat, focus: string)
    requires stored <= |msgs| && w.unwritten > unwritten
    ensures Uncompacted(w, since, unwritten, msgs, stored, focus)
  {
  }

  lemma TokensDoNotMatter(before: seq<Message>, c: Compaction, tokens: int)
    ensures Compacted(before, c) == Compacted(before, c.(tokensAfter := tokens))
  {
  }

  /** What waits is not measured either. */
  lemma UnmeasuredAfter(o: Options, sound: bool, msgs: seq<Message>, stored: nat, log: seq<Entry>, c: Compaction)
    requires Ready(sound, msgs, stored, log)
    ensures var next := Compacted(msgs[..stored], c) + msgs[stored..];
      Estimated(o.overhead, next, Sizes(o, next)) == o.overhead + Sum(Sizes(o, next))
  {
    hide Compacted, Estimated, Sum, Sizes;
    forall m | m in msgs[stored..] ensures m.role != Assistant {
      var i :| 0 <= i < |msgs[stored..]| && msgs[stored..][i] == m;
      assert FromUser(msgs[stored + i]);
    }
    var next := Compacted(msgs[..stored], c) + msgs[stored..];
    EstimateAfterCompaction(o.overhead, msgs[..stored], c, msgs[stored..], Sizes(o, next));
  }

  lemma CompactedParts(msgs: seq<Message>, stored: nat, c: Compaction, kept: nat)
    requires kept <= stored <= |msgs| && c.kept == kept
    ensures var next := Compacted(msgs[..stored], c) + msgs[stored..];
      |next| >= kept + 1 && next[..kept + 1] == Compacted(msgs[..stored], c) && next[kept + 1..] == msgs[stored..]
  {
  }

  lemma PlanOfReady(sound: bool, msgs: seq<Message>, sizes: seq<nat>, stored: nat, log: seq<Entry>, keep: int, p: Plan)
    requires Ready(sound, msgs, stored, log) && |sizes| == |msgs|
    requires IsPlan(msgs, sizes, stored, keep, Some(p))
    ensures Follows(sound, p, msgs) && p.start < p.first < stored && msgs[p.first].role != Tool
  {
    PlanFollows(sound, msgs, sizes, stored, keep, p);
  }

  // ----- The model call -----

  /** Where the stored part ends: at the first undelivered message, if any. */
  function StoredLen(s: seq<Message>, mark: int): int {
    if mark >= 0 then mark else |s|
  }

  /** The turn's undelivered messages are exactly the suffix from `mark` on. */
  ghost predicate Waiting(msgs: seq<Message>, mark: int, pending: seq<Message>) {
    && -1 <= mark <= |msgs|
    && (mark < 0 ==> pending == [])
    && msgs[StoredLen(msgs, mark)..] == pending
  }

  method AutoCompact(w: World, s: Conversation, mark: int, reason: Reason, ghost pending: seq<Message>)
    returns (ok: bool, mark': int)
    requires w.Valid() && Waiting(s.messages, mark, pending) && Ready(w.sound, s.messages, StoredLen(s.messages, mark), w.log)
    requires w.o.maxOutput.Some? ==> w.o.maxOutput.value >= 1
    modifies s, w`cancelled, w`replies, w`sent, w`runSends, w`log, w`compactions, w`unwritten
    ensures w.Valid() && w.compactions == old(w.compactions) + 1
    ensures Within(old(w.Now()), w.Now(), 1, 0, pending)
    ensures Waiting(s.messages, mark', pending) && Ready(w.sound, s.messages, StoredLen(s.messages, mark'), w.log)
    ensures mark' < 0 <==> mark < 0
    ensures UsageKeeps(old(w.sent), w.sent) && |pending| <= |s.messages|
    ensures !ok ==> s.messages == old(s.messages) && w.log == old(w.log) && mark' == mark
    ensures !ok ==> Uncompacted(w, |old(w.sent)|, old(w.unwritten), s.messages, |s.messages| - |pending|, "")
  {
    hide WellFormed, Ready, Uncompacted, Replaced, InReserve, World.Valid;
    mark' := mark;
    var stored := |s.messages|;
    if mark >= 0 { stored := mark; }
    ghost var msgs := s.messages;
    var r, plan, e := CompactAt(w, s, stored, reason, "");
    OnlySummaries(w.o, old(w.sent), w.sent);
    if r.Unchanged? { return false, mark'; }
    WhatWaits(w, |old(w.sent)|, msgs, stored, old(w.log), plan, reason, "", e, s.messages, r.stored);
    if mark >= 0 { mark' := r.stored; }
    return true, mark';
  }

  lemma OnlySummaries(o: Options, before: seq<Sent>, after: seq<Sent>)
    requires before <= after && forall i :: |before| <= i < |after| ==> InReserve(o, after[i].call)
    ensures forall i :: |before| <= i < |after| ==> !after[i].call.purpose.ForRun?
    ensures UsageKeeps(before, after)
  {
  }

  lemma WhatWaits(w: World, since: nat, msgs: seq<Message>, stored: nat, log: seq<Entry>, plan: Plan,
                  reason: Reason, focus: string, e: Evidence, next: seq<Message>, stored': nat)
    requires stored <= |msgs| && Replaced(w, since, msgs, stored, log, plan, reason, focus, e, next, stored')
    ensures stored' <= |next| && next[stored'..] == msgs[stored..] && Compacts(log, w.log, 1)
    ensures stored == |msgs| ==> stored' == |next|
  {
    hide Cuts, Accounts, Estimated, Sizes, Sum, Compacted;
    if stored == |msgs| { assert next[stored'..] == []; }
  }

  /** No call since then told the run of its usage. */
  ghost predicate UsageKeeps(before: seq<Sent>, after: seq<Sent>) {
    before <= after && forall i :: |before| <= i < |after| ==> !Reports(after[i])
  }

  /** From one state to a later one at most `compactions` compactions were tried
      and `sends` attempts made at a run's request. Only compactions were stored,
      and every such request carried what waits. */
  ghost predicate Within(a: Moment, b: Moment, compactions: nat, sends: nat, pending: seq<Message>) {
    && a.sent <= b.sent && b.replies <= a.replies && a.unwritten <= b.unwritten && (a.cancelled ==> b.cancelled)
    && a.compactions <= b.compactions <= a.compactions + compactions && b.runSends <= a.runSends + sends
    && Compacts(a.log, b.log, b.compactions - a.compactions)
    && forall i :: |a.sent| <= i < |b.sent| && b.sent[i].call.purpose.ForRun? ==> b.sent[i].call.purpose.pending == pending
  }

  /** Only compactions were appended, at most `n` of them. */
  ghost predicate Compacts(before: seq<Entry>, after: seq<Entry>, n: nat) {
    && before <= after && |after| <= |before| + n
    && forall i :: |before| <= i < |after| ==> after[i].Compact?
  }

  lemma CompactsChain(a: seq<Entry>, b: seq<Entry>, c: seq<Entry>, n: nat, m: nat)
    requires Compacts(a, b, n) && Compacts(b, c, m)
    ensures Compacts(a, c, n + m)
  {
  }

  /** An endpoint that cut the request down to its window and had no room left. */
  predicate SilentOverflow(o: Options, r: Response) {
    && o.contextWindow > 0 && CutOff(r.stop) && r.usage.output == 0 && IsEmpty(r.message)
    && 100 * r.usage.input >= 99 * o.contextWindow
  }

  datatype CallResult = Answered(response: Response, sent: seq<Message>) | CallFailed(cause: Cause)

  /** The endpoint had no room for the request, whether it said so or not. */
  predicate Overflowed(o: Options, s: Sent) {
    match Judged(s.outcome)
    case Refused(f) => f.overflow
    case Answered(r) => SilentOverflow(o, r)
  }

  /** The endpoint says so, or it cut off a reply of nothing at all for a request
      that left less than a hundredth of a known window. */
  lemma OverflowedIs(o: Options, s: Sent)
    ensures Overflowed(o, s) <==>
      || (s.outcome.Broke? && s.outcome.failure.overflow)
      || (s.outcome.Finished? && o.contextWindow > 0 && (s.outcome.stop == "length" || s.outcome.stop == "content_filter")
          && s.outcome.usage.output == 0 && s.outcome.text == "" && s.outcome.reasoning == ""
          && 100 * (o.contextWindow - s.outcome.usage.input) <= o.contextWindow)
  {
  }

  /** Why a call to the model failed, of the conversation as it stands. */
  ghost predicate Explains(w: World, since: nat, unwritten: nat, msgs: seq<Message>, pending: seq<Message>, cause: Cause)
    reads w`sent, w`log, w`cancelled, w`unwritten
    requires |pending| <= |msgs|
  {
    match cause
    case Cancelled => w.cancelled
    case TooLarge => Fit(w.o, Estimated(w.o.overhead, msgs, Sizes(w.o, msgs))).TooLarge?
    case NoReply =>
      since < |w.sent| && w.sent[|w.sent| - 1].call.purpose == ForRun(msgs, w.log, pending)
      && Judged(w.sent[|w.sent| - 1].outcome).Refused?
    case NotCompacted => exists late: nat :: OverflowStays(w, since, late, unwritten, msgs, pending)
    case _ => false
  }

  /** The call before `late` overflowed, and then the compaction failed. */
  ghost predicate OverflowStays(w: World, since: nat, late: nat, unwritten: nat, msgs: seq<Message>, pending: seq<Message>)
    reads w`sent, w`log, w`cancelled, w`unwritten
    requires |pending| <= |msgs|
  {
    && since < late <= |w.sent|
    && w.sent[late - 1].call.purpose == ForRun(msgs, w.log, pending) && Overflowed(w.o, w.sent[late - 1])
    && Uncompacted(w, late, unwritten, msgs, |msgs| - |pending|, "")
  }

  lemma CompactsKeepsPending(before: seq<Entry>, after: seq<Entry>, n: nat)
    requires Compacts(before, after, n)
    ensures PathPending(after) == PathPending(before)
    decreases |after|
  {
    if |after| > |before| {
      CompactsKeepsPending(before, after[..|after| - 1], n);
      assert after == after[..|after| - 1] + [after[|after| - 1]];
      PathPendingOfAppend(after[..|after| - 1], after[|after| - 1]);
    } else {
      assert after == before;
    }
  }

  lemma WaitingReady(sound: bool, msgs: seq<Message>, mark: int, log: seq<Entry>, pending: seq<Message>)
    requires Waiting(msgs, mark, pending) && Ready(sound, msgs, StoredLen(msgs, mark), log)
    ensures sound ==> Paired(msgs)
    ensures AllSpelled(msgs) == Folded(log) + AllSpelled(pending)
  {
    var stored := StoredLen(msgs, mark);
    assert msgs == msgs[..stored] + pending;
    forall m | m in pending ensures FromUser(m) {
      var i :| 0 <= i < |pending| && pending[i] == m;
      assert msgs[stored + i] == m;
    }
    if sound { PairedAndUsers(msgs[..stored], pending); }
    AllSpelledConcat(msgs[..stored], pending);
  }

  /** The call a run makes for the conversation as it stands. */
  function RunCall(o: Options, msgs: seq<Message>, log: seq<Entry>, pending: seq<Message>, estimate: int, out: Option<int>): Call {
    Call(Request(AllPrepared(o, msgs), out, o.effort, true), estimate, ForRun(msgs, log, pending))
  }

  lemma RunRequestWellFormed(o: Options, sound: bool, msgs: seq<Message>, mark: int, log: seq<Entry>, pending: seq<Message>,
                             estimate: int, out: Option<int>)
    requires Waiting(msgs, mark, pending) && Ready(sound, msgs, StoredLen(msgs, mark), log)
    requires estimate == Estimated(o.overhead, msgs, Sizes(o, msgs))
    requires Fit(o, estimate) == Fits(out)
    ensures 0 <= StoredLen(msgs, mark) <= |msgs| && msgs[StoredLen(msgs, mark)..] == pending
    ensures WellFormed(o, sound, RunCall(o, msgs, log, pending, estimate, out))
    ensures AllSpelled(AllPrepared(o, msgs)) == AllPrepared(o, Folded(log) + AllSpelled(pending))
  {
    hide Ready, WellPaired, Estimated;
    WaitingReady(sound, msgs, mark, log, pending);
    PreparedPairs(o, msgs);
    PairedIffWellPaired(AllPrepared(o, msgs));
    PreparedSpelled(o, msgs);
  }

  /** The call sent last carried the conversation as it stands, and what came of
      it is the reply. */
  ghost predicate Sends(w: World, since: nat, msgs: seq<Message>, pending: seq<Message>, sent: seq<Message>, response: Response)
    reads w`sent, w`log
  {
    && since < |w.sent|
    && var last := w.sent[|w.sent| - 1];
       && last.call.purpose == ForRun(msgs, w.log, pending)
       && last.call.request.messages == sent == AllPrepared(w.o, msgs)
       && Judged(last.outcome) == Attempt.Answered(response)
  }

  /** The mark, and what waits behind it, are still in step with the log. */
  ghost predicate InStep(w: World, msgs: seq<Message>, mark: int, pending: seq<Message>)
    reads w
  {
    && w.Valid() && Waiting(msgs, mark, pending) && Ready(w.sound, msgs, StoredLen(msgs, mark), w.log)
  }

  /** Sends the conversation and returns the reply and what was sent. A request
      over the threshold is compacted before it goes out, and one the endpoint
      refuses as too large is compacted and sent again, once each. `measured` is
      the newest usage of the turn, whose calls begin at `turn`. */
  method CallModel(w: World, s: Conversation, mark: int, measured: Usage, ghost pending: seq<Message>, ghost turn: nat)
    returns (r: CallResult, mark': int, measured': Usage)
    requires InStep(w, s.messages, mark, pending)
    requires w.o.maxOutput.Some? ==> w.o.maxOutput.value >= 1
    requires turn <= |w.sent| && measured == UsageSince(w.sent, turn)
    modifies s, w`cancelled, w`replies, w`sent, w`runSends, w`log, w`compactions, w`unwritten
    ensures InStep(w, s.messages, mark', pending) && (mark' < 0 <==> mark < 0)
    ensures Within(old(w.Now()), w.Now(), 2, 2 * Attempts(w.o), pending)
    ensures measured' == UsageSince(w.sent, turn)
    ensures old(OverThreshold(w.o, s.messages)) ==> w.compactions > old(w.compactions)
    ensures r.Answered? ==> w.replies < old(w.replies)
    ensures r.Answered? ==> Sends(w, |old(w.sent)|, s.messages, pending, r.sent, r.response)
    ensures r.Answered? ==> AllSpelled(r.sent) == AllPrepared(w.o, Folded(w.log) + AllSpelled(pending))
    ensures r.CallFailed? ==> |pending| <= |s.messages|
    ensures r.CallFailed? ==> Explains(w, |old(w.sent)|, old(w.unwritten), s.messages, pending, r.cause)
    ensures w.o.auto && (r.Answered? || (r.cause.NoReply? && !w.cancelled)) && Overflowed(w.o, w.sent[|w.sent| - 1]) ==>
      w.compactions > old(w.compactions)
  {
    hide WellFormed, InStep, SilentOverflow, Estimated, Sends, Judged, Attempts, AllPrepared, Sizes, Fit, ShouldCompact,
      Within, Uncompacted, Explains, Overflowed, UsageSince, OverThreshold, AllSpelled, Folded, Waiting, Ready, StoredLen;
    ghost var start := w.Now();
    WithinNothing(start, pending);
    mark', measured' := mark, measured;
    var compacted, recovered := false, false;
    while true
      invariant InStep(w, s.messages, mark', pending) && (mark' < 0 <==> mark < 0)
      invariant Within(start, w.Now(), if recovered then 2 else if compacted then 1 else 0,
                       if recovered then Attempts(w.o) else 0, pending)
      invariant |start.sent| <= |w.sent| && start.unwritten <= w.unwritten && w.replies <= start.replies
      invariant if compacted then w.compactions > start.compactions else s.messages == old(s.messages)
      invariant recovered ==> compacted
      invariant turn <= |w.sent| && measured' == UsageSince(w.sent, turn)
      decreases !recovered, !compacted
    {
      var msgs := s.messages;
      var messages, sizes := WithMessages(w.o, msgs);
      var tokens := EstimateContext(w.o.overhead, msgs, sizes);
      ghost var begin, n, k := w.Now(), if recovered then 2 else if compacted then 1 else 0, if recovered then Attempts(w.o) else 0;
      Threshold(w.o, msgs, tokens);
      if !compacted && ShouldCompact(w.o, tokens) {
        compacted := true;
        var stopped;
        stopped, mark' := CompactFirst(w, s, mark', pending, turn);
        WithinAfter(start, begin, w.Now(), n, k, 1, 0, 1, 0, pending);
        if stopped {
          WithinAfter(start, begin, w.Now(), n, k, 1, 0, 2, 2 * Attempts(w.o), pending);
          WasCancelled(w, |start.sent|, start.unwritten, s.messages, mark', pending);
          return CallFailed(Cancelled), mark', measured';
        }
        continue;
      }
      var fitted := Fit(w.o, tokens);
      if fitted.TooLarge? {
        WithinAfter(start, begin, begin, n, k, 0, 0, 2, 2 * Attempts(w.o), pending);
        DoesNotFit(w, |start.sent|, start.unwritten, msgs, mark', pending, tokens);
        return CallFailed(Cause.TooLarge), mark', measured';
      }
      var done;
      done, mark', measured' := SendOrRecover(w, s, messages, mark', tokens, fitted.maxOutput, measured', !recovered, pending, turn,
                                              |start.sent|, start.unwritten);
      WithinAfter(start, begin, w.Now(), n, k, if recovered then 0 else 1, Attempts(w.o), 2, 2 * Attempts(w.o), pending);
      if done.Some? { return done.value, mark', measured'; }
      WithinAfter(start, begin, w.Now(), n, k, 1, Attempts(w.o), 2, Attempts(w.o), pending);
      recovered, compacted := true, true;
    }
  }

  /** Sends one request, and compacts the conversation if it overflowed and may
      be tried again: then there is no result yet. */
  method SendOrRecover(w: World, s: Conversation, messages: seq<Message>, mark: int, tokens: int, out: Option<int>, measured: Usage,
                       again: bool, ghost pending: seq<Message>, ghost turn: nat, ghost since: nat, ghost unwritten: nat)
    returns (done: Option<CallResult>, mark': int, measured': Usage)
    requires InStep(w, s.messages, mark, pending) && turn <= |w.sent| && since <= |w.sent| && unwritten <= w.unwritten
    requires w.o.maxOutput.Some? ==> w.o.maxOutput.value >= 1
    requires messages == AllPrepared(w.o, s.messages) && tokens == Estimated(w.o.overhead, s.messages, Sizes(w.o, s.messages))
    requires Fit(w.o, tokens) == Fits(out) && measured == UsageSince(w.sent, turn)
    modifies s, w`cancelled, w`replies, w`sent, w`runSends, w`log, w`compactions, w`unwritten
    ensures InStep(w, s.messages, mark', pending) && (mark' < 0 <==> mark < 0)
    ensures turn <= |w.sent| && measured' == UsageSince(w.sent, turn)
    ensures Within(old(w.Now()), w.Now(), if again then 1 else 0, Attempts(w.o), pending)
    ensures done.None? ==> again && w.compactions > old(w.compactions)
    ensures done.Some? && done.value.Answered? ==>
      && w.replies < old(w.replies) && Sends(w, since, s.messages, pending, done.value.sent, done.value.response)
      && AllSpelled(done.value.sent) == AllPrepared(w.o, Folded(w.log) + AllSpelled(pending))
    ensures done.Some? && done.value.CallFailed? ==>
      |pending| <= |s.messages| && Explains(w, since, unwritten, s.messages, pending, done.value.cause)
    ensures done.Some? && (done.value.Answered? || (done.value.cause.NoReply? && !w.cancelled)) && again && w.o.auto ==>
      w.sent != [] && !Overflowed(w.o, w.sent[|w.sent| - 1])
  {
    hide WellFormed, InStep, SilentOverflow, Estimated, Sends, Judged, Attempts, AllPrepared, Sizes, Fit, Within, Explains,
      Overflowed, UsageSince;
    ghost var begin := w.Now();
    mark', measured' := mark, measured;
    var a := SendRun(w, s.messages, messages, mark', tokens, out, pending, turn, since, unwritten);
    ghost var mid := w.Now();
    WithinAfter(begin, mid, mid, 0, Attempts(w.o), 0, 0, if again then 1 else 0, Attempts(w.o), pending);
    var auto := w.o.auto && again;
    var overflowed := false;
    match a {
      case Answered(response) =>
        if response.usage != NO_USAGE { measured' := response.usage; }
        overflowed := auto && SilentOverflow(w.o, response);
        if !overflowed {
          return Some(CallResult.Answered(response, messages)), mark', measured';
        }
      case Refused(f) =>
        overflowed := f.overflow;
    }
    if !auto || !overflowed { return Some(CallFailed(NoReply)), mark', measured'; }
    var cause;
    cause, mark' := Recover(w, s, mark', pending, turn, since, unwritten);
    WithinAfter(begin, mid, w.Now(), 0, Attempts(w.o), 1, 0, 1, Attempts(w.o), pending);
    done := if cause.Some? then Some(CallFailed(cause.value)) else None;
  }

  predicate OverThreshold(o: Options, msgs: seq<Message>) {
    ShouldCompact(o, Estimated(o.overhead, msgs, Sizes(o, msgs)))
  }

  lemma Threshold(o: Options, msgs: seq<Message>, tokens: int)
    requires tokens == Estimated(o.overhead, msgs, Sizes(o, msgs))
    ensures OverThreshold(o, msgs) <==> ShouldCompact(o, tokens)
  {
  }

  lemma WasCancelled(w: World, since: nat, unwritten: nat, msgs: seq<Message>, mark: int, pending: seq<Message>)
    requires w.cancelled && InStep(w, msgs, mark, pending)
    ensures |pending| <= |msgs| && Explains(w, since, unwritten, msgs, pending, Cancelled)
  {
  }

  lemma DoesNotFit(w: World, since: nat, unwritten: nat, msgs: seq<Message>, mark: int, pending: seq<Message>, tokens: int)
    requires tokens == Estimated(w.o.overhead, msgs, Sizes(w.o, msgs)) && Fit(w.o, tokens).TooLarge?
    requires InStep(w, msgs, mark, pending)
    ensures |pending| <= |msgs| && Explains(w, since, unwritten, msgs, pending, Cause.TooLarge)
  {
  }

  /** Compacts a conversation over the threshold. One that fails leaves it as it
      was, which may still fit, unless the run was cancelled. */
  method CompactFirst(w: World, s: Conversation, mark: int, ghost pending: seq<Message>, ghost turn: nat)
    returns (stopped: bool, mark': int)
    requires InStep(w, s.messages, mark, pending) && turn <= |w.sent|
    requires w.o.maxOutput.Some? ==> w.o.maxOutput.value >= 1
    modifies s, w`cancelled, w`replies, w`sent, w`runSends, w`log, w`compactions, w`unwritten
    ensures InStep(w, s.messages, mark', pending) && (mark' < 0 <==> mark < 0)
    ensures Within(old(w.Now()), w.Now(), 1, 0, pending)
    ensures w.compactions > old(w.compactions) && |w.sent| >= |old(w.sent)| && w.unwritten >= old(w.unwritten)
    ensures w.replies <= old(w.replies) && UsageSince(w.sent, turn) == UsageSince(old(w.sent), turn)
    ensures stopped ==> w.cancelled
  {
    hide World.Valid, Waiting, Ready, Within, UsageSince, Uncompacted;
    var ok;
    ok, mark' := AutoCompact(w, s, mark, Reason.Threshold, pending);
    ghost var mid := w.Now();
    UsageKept(old(w.sent), w.sent, turn);
    stopped := false;
    if !ok {
      stopped := w.Cancelled();
      WithinCancelled(old(w.Now()), mid, w.Now(), 1, 0, pending);
    }
    WithinGrows(old(w.Now()), w.Now(), 1, 0, pending);
  }

  /** Compacts a conversation whose request overflowed. */
  method Recover(w: World, s: Conversation, mark: int, ghost pending: seq<Message>, ghost turn: nat, ghost since: nat, ghost unwritten: nat)
    returns (cause: Option<Cause>, mark': int)
    requires InStep(w, s.messages, mark, pending) && turn <= |w.sent|
    requires w.o.maxOutput.Some? ==> w.o.maxOutput.value >= 1
    requires since < |w.sent| && unwritten <= w.unwritten && Overflowed(w.o, w.sent[|w.sent| - 1])
    requires w.sent[|w.sent| - 1].call.purpose == ForRun(s.messages, w.log, pending)
    modifies s, w`cancelled, w`replies, w`sent, w`runSends, w`log, w`compactions, w`unwritten
    ensures InStep(w, s.messages, mark', pending) && (mark' < 0 <==> mark < 0)
    ensures Within(old(w.Now()), w.Now(), 1, 0, pending)
    ensures w.compactions >= old(w.compactions) && |w.sent| >= |old(w.sent)| && w.unwritten >= old(w.unwritten)
    ensures w.replies <= old(w.replies) && UsageSince(w.sent, turn) == UsageSince(old(w.sent), turn)
    ensures cause.None? ==> w.compactions > old(w.compactions)
    ensures cause.Some? ==> |pending| <= |s.messages| && Explains(w, since, unwritten, s.messages, pending, cause.value)
    ensures cause.Some? ==> !cause.value.NoReply?
  {
    hide World.Valid, Waiting, Ready, Within, UsageSince, Uncompacted, Overflowed, UsageKeeps;
    cause, mark' := None, mark;
    ghost var start := w.Now();
    WithinNothing(start, pending);
    var stopped := w.Cancelled();
    ghost var mid := w.Now();
    WithinCancelled(start, start, mid, 0, 0, pending);
    WithinGrows(start, mid, 0, 0, pending);
    if stopped {
      WithinAfter(start, mid, mid, 0, 0, 0, 0, 1, 0, pending);
      WasCancelled(w, since, unwritten, s.messages, mark, pending);
      return Some(Cancelled), mark';
    }
    ghost var late := |w.sent|;
    var ok;
    ok, mark' := AutoCompact(w, s, mark, Reason.Overflow, pending);
    UsageStays(start.sent, w.sent, turn);
    WithinGrows(mid, w.Now(), 1, 0, pending);
    WithinAfter(start, mid, w.Now(), 0, 0, 1, 0, 1, 0, pending);
    if !ok {
      StillTooLarge(w, since, late, unwritten, mid.unwritten, s.messages, mark', pending);
      return Some(NotCompacted), mark';
    }
  }

  lemma UsageStays(before: seq<Sent>, after: seq<Sent>, turn: nat)
    requires turn <= |before| && UsageKeeps(before, after)
    ensures UsageSince(after, turn) == UsageSince(before, turn)
  {
    UsageKept(before, after, turn);
  }

  lemma StillTooLarge(w: World, since: nat, late: nat, unwritten: nat, before: nat, msgs: seq<Message>, mark: int, pending: seq<Message>)
    requires Waiting(msgs, mark, pending) && since < late <= |w.sent| && unwritten <= before
    requires w.sent[late - 1].call.purpose == ForRun(msgs, w.log, pending) && Overflowed(w.o, w.sent[late - 1])
    requires |pending| <= |msgs| && Uncompacted(w, late, before, msgs, |msgs| - |pending|, "")
    ensures Explains(w, since, unwritten, msgs, pending, NotCompacted)
  {
    hide Overflowed, Unsummarized, Cuts, IsPlan;
    assert OverflowStays(w, since, late, unwritten, msgs, pending);
  }

  lemma WithinNothing(a: Moment, pending: seq<Message>)
    ensures Within(a, a, 0, 0, pending)
  {
  }

  lemma WithinGrows(a: Moment, b: Moment, n: nat, k: nat, pending: seq<Message>)
    requires Within(a, b, n, k, pending)
    ensures |a.sent| <= |b.sent| && a.unwritten <= b.unwritten && b.replies <= a.replies && a.compactions <= b.compactions
    ensures a.log <= b.log && a.sent <= b.sent && (a.cancelled ==> b.cancelled)
  {
  }

  lemma WithinCancelled(a: Moment, b: Moment, c: Moment, n: nat, k: nat, pending: seq<Message>)
    requires Within(a, b, n, k, pending) && c == b.(cancelled := c.cancelled) && (b.cancelled ==> c.cancelled)
    ensures Within(a, c, n, k, pending)
  {
    hide Compacts;
  }

  lemma WithinAfter(a: Moment, b: Moment, c: Moment, n1: nat, k1: nat, n2: nat, k2: nat, n: nat, k: nat, pending: seq<Message>)
    requires Within(a, b, n1, k1, pending) && (Within(b, c, n2, k2, pending) || b == c)
    requires n1 + n2 <= n && k1 + k2 <= k
    ensures Within(a, c, n, k, pending) && |a.sent| <= |c.sent| && a.unwritten <= c.unwritten && c.replies <= a.replies
    ensures a.compactions <= b.compactions <= c.compactions
  {
    if b != c { CompactsChain(a.log, b.log, c.log, b.compactions - a.compactions, c.compactions - b.compactions); }
    hide Compacts;
  }

  /** One request for the conversation as it stands, with its retries. */
  method SendRun(w: World, msgs: seq<Message>, messages: seq<Message>, mark: int, tokens: int, out: Option<int>,
                 ghost pending: seq<Message>, ghost turn: nat, ghost since: nat, ghost unwritten: nat)
    returns (a: Attempt)
    requires InStep(w, msgs, mark, pending) && turn <= |w.sent| && since <= |w.sent|
    requires messages == AllPrepared(w.o, msgs) && tokens == Estimated(w.o.overhead, msgs, Sizes(w.o, msgs))
    requires Fit(w.o, tokens) == Fits(out)
    modifies w`cancelled, w`replies, w`sent, w`runSends
    ensures InStep(w, msgs, mark, pending) && Within(old(w.Now()), w.Now(), 0, Attempts(w.o), pending)
    ensures |old(w.sent)| < |w.sent| && |pending| <= |msgs|
    ensures forall i :: |old(w.sent)| <= i < |w.sent| ==> w.sent[i].call.purpose == ForRun(msgs, w.log, pending)
    ensures UsageSince(w.sent, turn)
      == if a.Answered? && a.response.usage != NO_USAGE then a.response.usage else UsageSince(old(w.sent), turn)
    ensures a.Answered? ==> w.replies < old(w.replies)
    ensures a.Answered? ==> Sends(w, since, msgs, pending, messages, a.response)
    ensures a.Answered? ==> (Overflowed(w.o, w.sent[|w.sent| - 1]) <==> SilentOverflow(w.o, a.response))
    ensures a.Refused? ==> Explains(w, since, unwritten, msgs, pending, NoReply)
    ensures a.Refused? && a.failure.overflow ==> Overflowed(w.o, w.sent[|w.sent| - 1])
    ensures a.Refused? && !w.cancelled && Overflowed(w.o, w.sent[|w.sent| - 1]) ==> a.failure.overflow
    ensures AllSpelled(messages) == AllPrepared(w.o, Folded(w.log) + AllSpelled(pending))
  {
    hide WellFormed, Ready, Waiting, Estimated, World.Valid, Judged, Retried, UsageSince, Attempts, SilentOverflow;
    RunRequestWellFormed(w.o, w.sound, msgs, mark, w.log, pending, tokens, out);
    a := Retrying(w, Call(Request(messages, out, w.o.effort, true), tokens,
                          ForRun(msgs, w.log, msgs[StoredLen(msgs, mark)..])));
    UsageTold(old(w.sent), w.sent, turn);
    hide Compacts;
  }

  /** Retries end with the last usage told, if that call told any. */
  lemma UsageTold(before: seq<Sent>, after: seq<Sent>, turn: nat)
    requires turn <= |before| && before < after && after[|after| - 1].call.purpose.ForRun?
    requires forall i :: |before| <= i < |after| - 1 ==> Retried(Judged(after[i].outcome))
    ensures var a := Judged(after[|after| - 1].outcome);
      UsageSince(after, turn)
        == if a.Answered? && a.response.usage != NO_USAGE then a.response.usage else UsageSince(before, turn)
  {
    UsageKept(before, after[..|after| - 1], turn);
    hide Judged;
  }
}
