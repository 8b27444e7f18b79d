/** Where a compaction cuts a conversation. */
module Planning {
  import opened Provider
  import opened Session
  import opened Pairing

  /** The summary covers [start, first); `turnStart` is where the turn that
      `first` splits began, None when it splits none. */
  datatype Plan = Plan(start: nat, first: nat, turnStart: Option<nat>, stored: nat) {
    predicate Previous() { start == 1 }
    predicate Split() { turnStart.Some? }
    function HistoryEnd(): nat { if turnStart.Some? then turnStart.value else first }
  }

  function Sum(sizes: seq<nat>): nat {
    if sizes == [] then 0 else sizes[0] + Sum(sizes[1..])
  }

  lemma SumFrom(sizes: seq<nat>, i: nat, end: nat)
    requires i < end <= |sizes|
    ensures Sum(sizes[i..end]) == sizes[i] + Sum(sizes[i + 1..end])
  {
    assert sizes[i..end][1..] == sizes[i + 1..end];
  }

  lemma {:induction false} SumShrinks(sizes: seq<nat>, i: nat, j: nat, end: nat)
    requires i <= j <= end <= |sizes|
    ensures Sum(sizes[j..end]) <= Sum(sizes[i..end])
    decreases j - i
  {
    if i < j {
      SumFrom(sizes, i, end);
      SumShrinks(sizes, i + 1, j, end);
    }
  }

  function Start(msgs: seq<Message>): nat {
    if msgs != [] && msgs[0].summary then 1 else 0
  }

  predicate IsCut(msgs: seq<Message>, stored: nat, c: nat) {
    Start(msgs) <= c < stored <= |msgs| && msgs[c].role != Tool
  }

  /** Keeping from `c` on keeps less than `keep` beside the message at `c` itself. */
  predicate KeepsEnough(sizes: seq<nat>, stored: nat, keep: int, c: nat)
    requires c < stored <= |sizes|
  {
    Sum(sizes[c + 1..stored]) < keep
  }

  /** The cut a compaction makes: the oldest place that keeps about `keep`
      tokens, or the newest place there is. */
  ghost predicate IsBestCut(msgs: seq<Message>, sizes: seq<nat>, stored: nat, keep: int, first: nat)
    requires stored <= |msgs| == |sizes|
  {
    && IsCut(msgs, stored, first)
    && (KeepsEnough(sizes, stored, keep, first) ==>
          forall c: nat :: IsCut(msgs, stored, c) && c < first ==> !KeepsEnough(sizes, stored, keep, c))
    && (!KeepsEnough(sizes, stored, keep, first) ==>
          forall c: nat :: IsCut(msgs, stored, c) ==> c <= first && !KeepsEnough(sizes, stored, keep, c))
  }

  ghost predicate IsTurnStart(msgs: seq<Message>, start: nat, first: nat, turn: Option<nat>)
    requires first < |msgs|
  {
    match turn
    case None => msgs[first].role == User || forall i :: start <= i <= first ==> msgs[i].role != User
    case Some(t) =>
      && msgs[first].role != User
      && start <= t <= first && msgs[t].role == User
      && forall i :: t < i <= first ==> msgs[i].role != User
  }

  /** What planning promises: the plan when there is something to summarize. */
  ghost predicate IsPlan(msgs: seq<Message>, sizes: seq<nat>, stored: nat, keep: int, plan: Option<Plan>)
    requires stored <= |msgs| == |sizes|
  {
    match plan
    case Some(p) =>
      && p.start == Start(msgs) && p.stored == stored
      && IsBestCut(msgs, sizes, stored, keep, p.first)
      && IsTurnStart(msgs, p.start, p.first, p.turnStart)
      && (p.Split() || p.first > p.start)
    case None =>
      forall c: nat :: IsCut(msgs, stored, c) && IsBestCut(msgs, sizes, stored, keep, c) ==>
        c == Start(msgs) && (msgs[c].role == User || forall i :: Start(msgs) <= i <= c ==> msgs[i].role != User)
  }

  method CutPlaces(msgs: seq<Message>, stored: nat) returns (cuts: seq<nat>)
    requires stored <= |msgs|
    ensures forall c: nat :: c in cuts <==> IsCut(msgs, stored, c)
    ensures forall j, k :: 0 <= j < k < |cuts| ==> cuts[j] < cuts[k]
  {
    cuts := [];
    for i := Start(msgs) to Max(Start(msgs), stored)
      invariant forall k :: 0 <= k < |cuts| ==> cuts[k] < i
      invariant forall c: nat :: c in cuts <==> c < i && IsCut(msgs, stored, c)
      invariant forall j, k :: 0 <= j < k < |cuts| ==> cuts[j] < cuts[k]
    {
      if msgs[i].role != Tool {
        cuts := cuts + [i];
      }
    }
  }

  /** Walks back from the newest message until what it passed reaches `keep`. */
  /** From every place behind `i` on there is less than `keep`. */
  ghost predicate AllBelow(sizes: seq<nat>, i: int, stored: nat, keep: int)
    requires -1 <= i < |sizes| && stored <= |sizes|
  {
    forall j: nat :: i < j < stored ==> Sum(sizes[j..stored]) < keep
  }

  lemma OneBack(sizes: seq<nat>, i: nat, stored: nat, keep: int)
    requires i < stored <= |sizes| && AllBelow(sizes, i, stored, keep)
    ensures Sum(sizes[i..stored]) < keep ==> AllBelow(sizes, i - 1, stored, keep)
  {
    hide Sum;
  }

  lemma AllBelowNone(sizes: seq<nat>, stored: nat, keep: int)
    requires 0 < stored <= |sizes|
    ensures AllBelow(sizes, stored - 1, stored, keep)
  {
  }

  lemma StartBeforeCut(msgs: seq<Message>, stored: nat, c: nat)
    requires IsCut(msgs, stored, c)
    ensures Start(msgs) < stored <= |msgs|
  {
  }

  lemma SumOfNone(sizes: seq<nat>, stored: nat)
    requires stored <= |sizes|
    ensures Sum(sizes[stored..stored]) == 0
  {
  }

  lemma FoundIsBest(msgs: seq<Message>, sizes: seq<nat>, stored: nat, keep: int, cuts: seq<nat>, i: nat, first: nat)
    requires stored <= |msgs| == |sizes| && i < stored && first in cuts
    requires forall c: nat :: c in cuts <==> IsCut(msgs, stored, c)
    requires first >= i ==> forall c: nat :: c in cuts && c >= i ==> first <= c
    requires first < i ==> forall c: nat :: c in cuts ==> c <= first
    requires Sum(sizes[i..stored]) >= keep && AllBelow(sizes, i, stored, keep)
    ensures IsBestCut(msgs, sizes, stored, keep, first)
  {
    hide IsCut, IsBestCut, Sum, AllBelow;
    CutAtReach(msgs, sizes, stored, keep, i, first);
  }

  lemma OldestIsBest(msgs: seq<Message>, sizes: seq<nat>, stored: nat, keep: int, cuts: seq<nat>, i: int)
    requires stored <= |msgs| == |sizes| && |cuts| > 0 && i == Start(msgs) - 1 < stored
    requires forall c: nat :: c in cuts <==> IsCut(msgs, stored, c)
    requires forall j, k :: 0 <= j < k < |cuts| ==> cuts[j] < cuts[k]
    requires i < |sizes| && AllBelow(sizes, i, stored, keep)
    ensures IsBestCut(msgs, sizes, stored, keep, cuts[0])
  {
    hide IsCut, IsBestCut, Sum;
    EverythingKept(msgs, sizes, stored, keep, cuts[0]);
  }

  method CutKeeping(msgs: seq<Message>, sizes: seq<nat>, stored: nat, keep: int, cuts: seq<nat>)
    returns (first: nat)
    requires stored <= |msgs| == |sizes| && |cuts| > 0
    requires forall c: nat :: c in cuts <==> IsCut(msgs, stored, c)
    requires forall j, k :: 0 <= j < k < |cuts| ==> cuts[j] < cuts[k]
    ensures IsBestCut(msgs, sizes, stored, keep, first)
  {
    assert IsCut(msgs, stored, cuts[0]);
    SumOfNone(sizes, stored);
    hide Sum, IsBestCut, AllBelow;
    AllBelowNone(sizes, stored, keep);
    StartBeforeCut(msgs, stored, cuts[0]);
    hide IsCut;
    var total, i: int := 0, stored - 1;
    while i >= Start(msgs)
      invariant Start(msgs) - 1 <= i < stored
      invariant total == Sum(sizes[i + 1..stored])
      invariant AllBelow(sizes, i, stored, keep)
    {
      SumFrom(sizes, i, stored);
      OneBack(sizes, i, stored, keep);
      total := total + sizes[i];
      if total >= keep {
        first := FirstAtOrAfter(cuts, i);
        FoundIsBest(msgs, sizes, stored, keep, cuts, i, first);
        return;
      }
      i := i - 1;
    }
    first := cuts[0];
    OldestIsBest(msgs, sizes, stored, keep, cuts, i);
  }

  /** The user message that began the turn the cut falls in. */
  method TurnBegin(msgs: seq<Message>, start: nat, first: nat) returns (turn: Option<nat>)
    requires start <= first < |msgs|
    ensures IsTurnStart(msgs, start, first, turn)
  {
    if msgs[first].role == User { return None; }
    var k: int := first;
    while k >= start
      invariant start - 1 <= k <= first
      invariant forall j :: k < j <= first ==> msgs[j].role != User
    {
      if msgs[k].role == User {
        return Some(k);
      }
      k := k - 1;
    }
    turn := None;
  }

  method PlanCompaction(msgs: seq<Message>, sizes: seq<nat>, stored: nat, keep: int)
    returns (plan: Option<Plan>)
    requires stored <= |msgs| == |sizes|
    ensures IsPlan(msgs, sizes, stored, keep, plan)
  {
    var start := Start(msgs);
    var cuts := CutPlaces(msgs, stored);
    if |cuts| == 0 {
      forall c: nat ensures !IsCut(msgs, stored, c) {
        assert c !in cuts;
      }
      return None;
    }
    var first := CutKeeping(msgs, sizes, stored, keep, cuts);
    var turnStart := TurnBegin(msgs, start, first);
    if turnStart.Some? || first > start {
      return Some(Plan(start, first, turnStart, stored));
    }
    forall c: nat | IsBestCut(msgs, sizes, stored, keep, c) ensures c == first {
      BestCutUnique(msgs, sizes, stored, keep, c, first);
    }
    plan := None;
  }

  /** The first cut at or after `i`, the newest cut when there is none. */
  method FirstAtOrAfter(cuts: seq<nat>, i: int) returns (first: nat)
    requires |cuts| > 0
    requires forall j, k :: 0 <= j < k < |cuts| ==> cuts[j] < cuts[k]
    ensures first in cuts
    ensures first >= i ==> forall c: nat :: c in cuts && c >= i ==> first <= c
    ensures first < i ==> forall c: nat :: c in cuts ==> c <= first
  {
    first := cuts[|cuts| - 1];
    for k := 0 to |cuts|
      invariant first == cuts[|cuts| - 1]
      invariant forall j :: 0 <= j < k ==> cuts[j] < i
    {
      if cuts[k] >= i {
        return cuts[k];
      }
    }
  }

  /** The walk stopped at `i`: its cut is the best one. */
  lemma CutAtReach(msgs: seq<Message>, sizes: seq<nat>, stored: nat, keep: int, i: nat, first: nat)
    requires stored <= |msgs| == |sizes| && i < stored
    requires Sum(sizes[i..stored]) >= keep
    requires AllBelow(sizes, i, stored, keep)
    requires IsCut(msgs, stored, first)
    requires first >= i ==> forall c: nat :: IsCut(msgs, stored, c) && c >= i ==> first <= c
    requires first < i ==> forall c: nat :: IsCut(msgs, stored, c) ==> c <= first
    ensures IsBestCut(msgs, sizes, stored, keep, first)
  {
    forall c: nat | IsCut(msgs, stored, c) && c < i ensures !KeepsEnough(sizes, stored, keep, c) {
      SumShrinks(sizes, c + 1, i, stored);
    }
    if first >= i && !KeepsEnough(sizes, stored, keep, first) {
      assert first + 1 == stored;
      assert sizes[stored..stored] == [];
      forall c: nat | IsCut(msgs, stored, c) ensures c <= first && !KeepsEnough(sizes, stored, keep, c) {
        SumShrinks(sizes, c + 1, stored, stored);
      }
    }
  }

  lemma EverythingKept(msgs: seq<Message>, sizes: seq<nat>, stored: nat, keep: int, first: nat)
    requires stored <= |msgs| == |sizes|
    requires forall j: nat :: Start(msgs) <= j < stored ==> Sum(sizes[j..stored]) < keep
    requires IsCut(msgs, stored, first)
    requires forall c: nat :: IsCut(msgs, stored, c) ==> first <= c
    ensures IsBestCut(msgs, sizes, stored, keep, first)
  {
    SumShrinks(sizes, first, first + 1, stored);
  }

  lemma BestCutUnique(msgs: seq<Message>, sizes: seq<nat>, stored: nat, keep: int, a: nat, b: nat)
    requires stored <= |msgs| == |sizes|
    requires IsBestCut(msgs, sizes, stored, keep, a) && IsBestCut(msgs, sizes, stored, keep, b)
    ensures a == b
  {
  }

  /** Planning has one answer. */
  lemma PlanUnique(msgs: seq<Message>, sizes: seq<nat>, stored: nat, keep: int, a: Option<Plan>, b: Option<Plan>)
    requires stored <= |msgs| == |sizes|
    requires IsPlan(msgs, sizes, stored, keep, a) && IsPlan(msgs, sizes, stored, keep, b)
    ensures a == b
  {
    if a.Some? && b.Some? {
      BestCutUnique(msgs, sizes, stored, keep, a.value.first, b.value.first);
    }
  }

  /** What stays beside the cut message is less than `keep`, or all of it is
      results that must follow their call. */
  lemma PlanKeepsAboutKeep(msgs: seq<Message>, sizes: seq<nat>, stored: nat, keep: int, p: Plan)
    requires stored <= |msgs| == |sizes|
    requires IsPlan(msgs, sizes, stored, keep, Some(p))
    ensures p.start <= p.first < stored && msgs[p.first].role != Tool
    ensures Sum(sizes[p.first + 1..stored]) < keep
      || forall i :: p.first < i < stored ==> msgs[i].role == Tool
  {
    if !KeepsEnough(sizes, stored, keep, p.first) {
      forall i: nat | p.first < i < stored ensures msgs[i].role == Tool {
        assert IsCut(msgs, stored, i) <==> msgs[i].role != Tool;
      }
    }
  }

  /** A paired conversation smaller than `keep` is never compacted. */
  lemma SmallConversationRefused(msgs: seq<Message>, sizes: seq<nat>, stored: nat, keep: int, plan: Option<Plan>)
    requires stored <= |msgs| == |sizes|
    requires IsPlan(msgs, sizes, stored, keep, plan)
    requires Paired(msgs[..stored])
    requires Start(msgs) == 1 ==> msgs[0].role != Tool && msgs[0].toolCalls == []
    requires Start(msgs) <= stored && Sum(sizes[Start(msgs)..stored]) < keep
    ensures plan == None
  {
    var start := Start(msgs);
    if plan.Some? {
      var first := plan.value.first;
      SumShrinks(sizes, start, first + 1, stored);
      SumShrinks(sizes, start, start + 1, stored);
      FirstNeverResult(msgs[..stored], start);
      StartIsBestCut(msgs, sizes, stored, keep);
      BestCutUnique(msgs, sizes, stored, keep, first, start);
    }
  }

  lemma StartIsBestCut(msgs: seq<Message>, sizes: seq<nat>, stored: nat, keep: int)
    requires stored <= |msgs| == |sizes| && IsCut(msgs, stored, Start(msgs))
    requires KeepsEnough(sizes, stored, keep, Start(msgs))
    ensures IsBestCut(msgs, sizes, stored, keep, Start(msgs))
  {
  }

  /** Each accepted plan leaves strictly fewer messages that are not a summary. */
  lemma PlanShrinks(msgs: seq<Message>, sizes: seq<nat>, stored: nat, keep: int, p: Plan, c: Compaction)
    requires stored <= |msgs| == |sizes|
    requires IsPlan(msgs, sizes, stored, keep, Some(p))
    requires c.kept == stored - p.first
    ensures p.start < p.first
    ensures var next := Compacted(msgs[..stored], c);
      Start(next) == 1 && |next| - Start(next) == c.kept < stored - Start(msgs)
  {
  }

  /** [start, first) is the complete turns and then the split turn's start. */
  lemma PlanSplitsExactly(msgs: seq<Message>, sizes: seq<nat>, stored: nat, keep: int, p: Plan)
    requires stored <= |msgs| == |sizes|
    requires IsPlan(msgs, sizes, stored, keep, Some(p))
    ensures p.start <= p.HistoryEnd() <= p.first
    ensures msgs[p.start..p.first] == msgs[p.start..p.HistoryEnd()] + msgs[p.HistoryEnd()..p.first]
    ensures p.Split() <==> p.HistoryEnd() < p.first
    ensures msgs[p.HistoryEnd()].role != Tool
  {
  }
}
