/** When a request's tool calls and results fit together. */
module Pairing {
  import opened Provider
  import opened Session

  /** The calls still to be answered, in order; None once a message broke the order. */
  function Answer(open: Option<seq<string>>, m: Message): Option<seq<string>> {
    match open
    case None => None
    case Some(ids) =>
      if m.role == Tool then
        if m.toolCalls == [] && ids != [] && ids[0] == m.toolCallID then Some(ids[1..]) else None
      else if ids == [] then Some(Ids(m.toolCalls)) else None
  }

  function OpenFrom(open: Option<seq<string>>, msgs: seq<Message>): Option<seq<string>> {
    if msgs == [] then open
    else Answer(OpenFrom(open, msgs[..|msgs| - 1]), msgs[|msgs| - 1])
  }

  predicate Paired(msgs: seq<Message>) {
    OpenFrom(Some([]), msgs) == Some([])
  }

  // ----- What pairing means, said without a fold -----

  ghost predicate Answers(msgs: seq<Message>, i: nat, j: nat)
    requires i < |msgs| && j < |msgs[i].toolCalls|
  {
    && i + 1 + j < |msgs|
    && msgs[i + 1 + j].role == Tool
    && msgs[i + 1 + j].toolCalls == []
    && msgs[i + 1 + j].toolCallID == msgs[i].toolCalls[j].id
  }

  /** Every call of the asking message `i` has its result in its place. */
  ghost predicate Answered(msgs: seq<Message>, i: nat)
    requires i < |msgs|
  {
    forall j :: 0 <= j < |msgs[i].toolCalls| ==> Answers(msgs, i, j)
  }

  /** Result `k` stands in the block of results that follows message `i`. */
  ghost predicate InBlockOf(msgs: seq<Message>, i: nat, k: nat)
    requires i < |msgs|
  {
    msgs[i].role != Tool && i < k <= i + |msgs[i].toolCalls|
  }

  /** Each call is answered once, contiguously and in order, and no result is orphaned. */
  ghost predicate WellPaired(msgs: seq<Message>) {
    && (forall i :: 0 <= i < |msgs| && msgs[i].role != Tool ==> Answered(msgs, i))
    && (forall k :: 0 <= k < |msgs| && msgs[k].role == Tool ==>
          exists i :: 0 <= i < k && InBlockOf(msgs, i, k))
  }

  lemma OpenFromAppend(open: Option<seq<string>>, msgs: seq<Message>, m: Message)
    ensures OpenFrom(open, msgs + [m]) == Answer(OpenFrom(open, msgs), m)
  {
    assert (msgs + [m])[..|msgs|] == msgs;
  }

  lemma {:induction false} OpenFromConcat(open: Option<seq<string>>, a: seq<Message>, b: seq<Message>)
    ensures OpenFrom(open, a + b) == OpenFrom(OpenFrom(open, a), b)
    decreases |b|
  {
    if b == [] {
      assert a + b == a;
    } else {
      var init, last := b[..|b| - 1], b[|b| - 1];
      assert a + b == (a + init) + [last];
      OpenFromConcat(open, a, init);
      OpenFromAppend(open, a + init, last);
    }
  }

  lemma {:induction false} BrokenStaysBroken(msgs: seq<Message>)
    ensures OpenFrom(None, msgs) == None
  {
    if msgs != [] {
      BrokenStaysBroken(msgs[..|msgs| - 1]);
    }
  }

  /** Where the fold stands: `last` is the newest asking message, -1 for none,
      `ids` its calls still open, and everything before it is answered. */
  ghost predicate Standing(msgs: seq<Message>, ids: seq<string>, last: int) {
    && -1 <= last < |msgs|
    && (last == -1 ==> msgs == [] && ids == [])
    && (last >= 0 ==>
      && msgs[last].role != Tool
      && |msgs| - 1 - last <= |msgs[last].toolCalls|
      && ids == Ids(msgs[last].toolCalls)[|msgs| - 1 - last..]
      && forall j :: 0 <= j < |msgs| - 1 - last ==> Answers(msgs, last, j))
    && (forall i :: 0 <= i < last && msgs[i].role != Tool ==> Answered(msgs, i))
    && (forall k :: 0 <= k < |msgs| && msgs[k].role == Tool ==>
          exists i :: 0 <= i < k && InBlockOf(msgs, i, k))
  }

  lemma OnlyResultsAfter(msgs: seq<Message>, ids: seq<string>, last: int, k: nat)
    requires Standing(msgs, ids, last) && last < k < |msgs|
    ensures msgs[k].role == Tool
  {
    assert Answers(msgs, last, k - last - 1);
  }

  /** What was answered before one more message still is. */
  lemma AnsweredStays(msgs: seq<Message>, m: Message, i: nat)
    requires i < |msgs| && Answered(msgs, i)
    ensures Answered(msgs + [m], i)
  {
    forall j | 0 <= j < |msgs[i].toolCalls| ensures Answers(msgs + [m], i, j) {
      assert Answers(msgs, i, j);
    }
  }

  lemma BlocksStay(msgs: seq<Message>, m: Message)
    requires forall k :: 0 <= k < |msgs| && msgs[k].role == Tool ==> exists i :: 0 <= i < k && InBlockOf(msgs, i, k)
    ensures forall k :: 0 <= k < |msgs| && msgs[k].role == Tool ==> exists i :: 0 <= i < k && InBlockOf(msgs + [m], i, k)
  {
    forall k | 0 <= k < |msgs| && msgs[k].role == Tool
      ensures exists i :: 0 <= i < k && InBlockOf(msgs + [m], i, k)
    {
      var i :| 0 <= i < k && InBlockOf(msgs, i, k);
      assert InBlockOf(msgs + [m], i, k);
    }
  }

  lemma StandsAfterResult(msgs: seq<Message>, ids: seq<string>, last: int, m: Message)
    requires Standing(msgs, ids, last) && m.role == Tool && Answer(Some(ids), m).Some?
    ensures Standing(msgs + [m], ids[1..], last)
  {
    var n := |msgs|;
    BlocksStay(msgs, m);
    forall i | 0 <= i < last && msgs[i].role != Tool ensures Answered(msgs + [m], i) {
      AnsweredStays(msgs, m, i);
    }
    forall j | 0 <= j < n - last ensures Answers(msgs + [m], last, j) {
      if j < n - 1 - last { assert Answers(msgs, last, j); }
    }
    assert InBlockOf(msgs + [m], last, n);
  }

  lemma StandsAfterAsker(msgs: seq<Message>, last: int, m: Message)
    requires Standing(msgs, [], last) && m.role != Tool
    ensures Standing(msgs + [m], Ids(m.toolCalls), |msgs|)
  {
    BlocksStay(msgs, m);
    forall i | 0 <= i < |msgs| && msgs[i].role != Tool ensures Answered(msgs + [m], i) {
      if i > last { OnlyResultsAfter(msgs, [], last, i); }
      AnsweredStays(msgs, m, i);
    }
    assert Ids(m.toolCalls)[0..] == Ids(m.toolCalls);
  }

  lemma {:induction false} FoldStands(msgs: seq<Message>) returns (last: int)
    requires OpenFrom(Some([]), msgs).Some?
    ensures Standing(msgs, OpenFrom(Some([]), msgs).value, last)
  {
    if msgs == [] { return -1; }
    var init, m := msgs[..|msgs| - 1], msgs[|msgs| - 1];
    assert msgs == init + [m];
    last := FoldStands(init);
    if m.role == Tool {
      StandsAfterResult(init, OpenFrom(Some([]), init).value, last, m);
    } else {
      StandsAfterAsker(init, last, m);
      last := |init|;
    }
  }

  /** After `n` messages, the newest asking message is `last` and the rest are results. */
  ghost predicate NewestAsker(msgs: seq<Message>, n: nat, last: int) {
    && -1 <= last < n <= |msgs| && (last == -1 <==> n == 0)
    && (last >= 0 ==> msgs[last].role != Tool && n - 1 - last <= |msgs[last].toolCalls|)
    && (forall k :: last < k < n ==> msgs[k].role == Tool)
  }

  lemma CallIsAnswered(msgs: seq<Message>, i: nat, j: nat)
    requires WellPaired(msgs)
    requires i < |msgs| && msgs[i].role != Tool && j < |msgs[i].toolCalls|
    ensures Answers(msgs, i, j)
  {
    assert Answered(msgs, i);
  }

  lemma ResultBelongsToNewest(msgs: seq<Message>, n: nat, last: int)
    requires WellPaired(msgs) && NewestAsker(msgs, n, last) && n < |msgs| && msgs[n].role == Tool
    ensures last >= 0 && n - 1 - last < |msgs[last].toolCalls| && Answers(msgs, last, n - 1 - last)
  {
    var b :| 0 <= b < n && InBlockOf(msgs, b, n);
    if b < last {
      CallIsAnswered(msgs, b, last - b - 1);
    }
    CallIsAnswered(msgs, b, n - 1 - b);
  }

  lemma NewAskerFindsNoneOpen(msgs: seq<Message>, n: nat, last: int)
    requires WellPaired(msgs) && NewestAsker(msgs, n, last)
    requires n == |msgs| || msgs[n].role != Tool
    ensures OpenOf(msgs, n, last) == []
  {
    hide WellPaired;
    if last >= 0 && n - 1 - last < |msgs[last].toolCalls| {
      CallIsAnswered(msgs, last, n - 1 - last);
    }
  }

  ghost function OpenOf(msgs: seq<Message>, n: nat, last: int): seq<string>
    requires NewestAsker(msgs, n, last)
  {
    if last < 0 then [] else Ids(msgs[last].toolCalls)[n - 1 - last..]
  }

  lemma AnswerClosesFirst(msgs: seq<Message>, n: nat, last: int)
    requires NewestAsker(msgs, n, last) && n < |msgs|
    requires last >= 0 && n - 1 - last < |msgs[last].toolCalls| && Answers(msgs, last, n - 1 - last)
    ensures NewestAsker(msgs, n + 1, last)
    ensures Answer(Some(OpenOf(msgs, n, last)), msgs[n]) == Some(OpenOf(msgs, n + 1, last))
  {
  }

  lemma AskerOpensItsCalls(msgs: seq<Message>, n: nat, last: int)
    requires NewestAsker(msgs, n, last) && n < |msgs| && msgs[n].role != Tool
    requires OpenOf(msgs, n, last) == []
    ensures NewestAsker(msgs, n + 1, n)
    ensures Answer(Some(OpenOf(msgs, n, last)), msgs[n]) == Some(OpenOf(msgs, n + 1, n))
  {
    assert Ids(msgs[n].toolCalls)[0..] == Ids(msgs[n].toolCalls);
  }

  /** In a well-paired conversation the fold never breaks: after `n` messages it
      holds exactly the unanswered calls of the newest asking message. */
  lemma {:induction false} FoldFollows(msgs: seq<Message>, n: nat) returns (last: int)
    requires WellPaired(msgs) && n <= |msgs|
    ensures NewestAsker(msgs, n, last)
    ensures OpenFrom(Some([]), msgs[..n]) == Some(OpenOf(msgs, n, last))
  {
    hide WellPaired;
    if n == 0 { return -1; }
    var before := FoldFollows(msgs, n - 1);
    assert msgs[..n] == msgs[..n - 1] + [msgs[n - 1]];
    OpenFromAppend(Some([]), msgs[..n - 1], msgs[n - 1]);
    if msgs[n - 1].role == Tool {
      ResultBelongsToNewest(msgs, n - 1, before);
      AnswerClosesFirst(msgs, n - 1, before);
      last := before;
    } else {
      NewAskerFindsNoneOpen(msgs, n - 1, before);
      AskerOpensItsCalls(msgs, n - 1, before);
      last := n - 1;
    }
  }

  lemma StandsWhole(msgs: seq<Message>, last: int)
    requires Standing(msgs, [], last)
    ensures WellPaired(msgs)
  {
    forall i | 0 <= i < |msgs| && msgs[i].role != Tool ensures Answered(msgs, i) {
      if i > last { OnlyResultsAfter(msgs, [], last, i); }
    }
  }

  lemma PairedIsWellPaired(msgs: seq<Message>)
    requires Paired(msgs)
    ensures WellPaired(msgs)
  {
    hide Standing, WellPaired;
    var last := FoldStands(msgs);
    StandsWhole(msgs, last);
  }

  lemma WellPairedIsPaired(msgs: seq<Message>)
    requires WellPaired(msgs)
    ensures Paired(msgs)
  {
    hide WellPaired;
    var last := FoldFollows(msgs, |msgs|);
    assert msgs[..|msgs|] == msgs;
    NewAskerFindsNoneOpen(msgs, |msgs|, last);
  }

  /** The fold and the plain definition agree on every conversation. */
  lemma PairedIffWellPaired(msgs: seq<Message>)
    ensures Paired(msgs) <==> WellPaired(msgs)
  {
    hide *;
    if Paired(msgs) { PairedIsWellPaired(msgs); }
    if WellPaired(msgs) { WellPairedIsPaired(msgs); }
  }

  // ----- What keeps a conversation paired -----

  /** `b` asks and answers what `a` does, message by message. */
  ghost predicate SameShape(a: seq<Message>, b: seq<Message>) {
    && |a| == |b|
    && forall i :: 0 <= i < |a| ==>
         a[i].role == b[i].role && a[i].toolCallID == b[i].toolCallID
         && Ids(a[i].toolCalls) == Ids(b[i].toolCalls)
  }

  lemma {:induction false} SameShapePairs(open: Option<seq<string>>, a: seq<Message>, b: seq<Message>)
    requires SameShape(a, b)
    ensures OpenFrom(open, a) == OpenFrom(open, b)
    decreases |a|
  {
    if a != [] {
      SameShapePairs(open, a[..|a| - 1], b[..|b| - 1]);
      var x, y := a[|a| - 1], b[|b| - 1];
      assert |x.toolCalls| == |Ids(x.toolCalls)| == |y.toolCalls|;
    }
  }

  lemma PairedAndUsers(msgs: seq<Message>, users: seq<Message>)
    requires Paired(msgs)
    requires forall m :: m in users ==> m.role != Tool && m.toolCalls == []
    ensures Paired(msgs + users)
    decreases |users|
  {
    if users == [] {
      assert msgs + users == msgs;
    } else {
      var init, m := users[..|users| - 1], users[|users| - 1];
      PairedAndUsers(msgs, init);
      assert msgs + users == (msgs + init) + [m];
      OpenFromAppend(Some([]), msgs + init, m);
    }
  }

  /** User messages behind a conversation leave it as well or as badly paired. */
  lemma PairedWithUsersIff(msgs: seq<Message>, users: seq<Message>)
    requires forall m :: m in users ==> m.role != Tool && m.toolCalls == []
    ensures Paired(msgs + users) <==> Paired(msgs)
    decreases |users|
  {
    if Paired(msgs) {
      PairedAndUsers(msgs, users);
    } else if users == [] {
      assert msgs + users == msgs;
    } else {
      var init, m := users[..|users| - 1], users[|users| - 1];
      PairedWithUsersIff(msgs, init);
      assert msgs + users == (msgs + init) + [m];
      OpenFromAppend(Some([]), msgs + init, m);
      assert Ids(m.toolCalls) == [];
    }
  }

  /** Where the fold holds, nothing is open before a message that is no result. */
  lemma NoneOpenBefore(msgs: seq<Message>, k: nat)
    requires OpenFrom(Some([]), msgs).Some? && k < |msgs| && msgs[k].role != Tool
    ensures Paired(msgs[..k])
  {
    assert msgs == msgs[..k + 1] + msgs[k + 1..] && msgs[..k + 1] == msgs[..k] + [msgs[k]];
    OpenFromConcat(Some([]), msgs[..k + 1], msgs[k + 1..]);
    OpenFromAppend(Some([]), msgs[..k], msgs[k]);
    BrokenStaysBroken(msgs[k + 1..]);
  }

  /** Cutting a paired conversation anywhere but at a result leaves two paired parts. */
  lemma CutPairs(msgs: seq<Message>, k: nat)
    requires Paired(msgs) && k <= |msgs| && (k < |msgs| ==> msgs[k].role != Tool)
    ensures Paired(msgs[..k]) && Paired(msgs[k..])
  {
    assert msgs == msgs[..k] + msgs[k..];
    OpenFromConcat(Some([]), msgs[..k], msgs[k..]);
    if k < |msgs| {
      NoneOpenBefore(msgs, k);
    } else {
      assert msgs[..k] == msgs;
    }
  }

  lemma CompactedPairs(stored: seq<Message>, c: Compaction)
    requires Paired(stored)
    requires Kept(stored, c) > 0 ==> stored[|stored| - Kept(stored, c)].role != Tool
    ensures Paired(Compacted(stored, c))
  {
    var kept := stored[|stored| - Kept(stored, c)..];
    CutPairs(stored, |stored| - Kept(stored, c));
    SummaryThenPaired(c.summary, Unmeasured(kept)) by {
      SameShapePairs(Some([]), kept, Unmeasured(kept));
    }
  }

  lemma SummaryThenPaired(summary: string, msgs: seq<Message>)
    requires Paired(msgs)
    ensures Paired([SummaryMessage(summary)] + msgs)
  {
    var m := SummaryMessage(summary);
    OpenFromConcat(Some([]), [m], msgs);
    OpenFromAppend(Some([]), [], m);
    assert [] + [m] == [m] && Ids(m.toolCalls) == [];
  }

  lemma FirstNeverResult(msgs: seq<Message>, k: nat)
    requires Paired(msgs) && k < |msgs|
    requires k == 0 || (msgs[k - 1].role != Tool && msgs[k - 1].toolCalls == [])
    ensures msgs[k].role != Tool
  {
    PairedIffWellPaired(msgs);
    if msgs[k].role == Tool {
      var i :| 0 <= i < k && InBlockOf(msgs, i, k);
      if i < k - 1 {
        CallIsAnswered(msgs, i, k - 1 - i - 1);
      }
    }
  }
}
