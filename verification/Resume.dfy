/** Where a run may continue from. */
module Resume {
  import opened Provider
  import opened Session
  import opened Pairing

  /** The position of the first `x` in `s`, or |s|. */
  function IndexOf(s: seq<string>, x: string): (i: nat)
    ensures i <= |s|
    ensures i < |s| ==> s[i] == x
    ensures x !in s[..i]
  {
    if s == [] || s[0] == x then 0
    else
      var i := IndexOf(s[1..], x);
      assert s[..i + 1] == [s[0]] + s[1..][..i];
      i + 1
  }

  function Without(s: seq<string>, x: string): seq<string> {
    var i := IndexOf(s, x);
    if i < |s| then s[..i] + s[i + 1..] else s
  }

  function PendingAfter(pending: seq<string>, m: Message): seq<string> {
    if |m.toolCalls| > 0 then pending + Ids(m.toolCalls)
    else if m.role != Tool then pending
    else Without(pending, m.toolCallID)
  }

  /** The calls left unanswered by an entry, given those its parent left. */
  function PendingCalls(parent: seq<string>, e: Entry): seq<string> {
    if e.Msg? then PendingAfter(parent, e.message) else parent
  }

  function PathPending(path: seq<Entry>): seq<string> {
    if path == [] then []
    else PendingCalls(PathPending(path[..|path| - 1]), path[|path| - 1])
  }

  predicate PathResumable(path: seq<Entry>) {
    PathPending(path) == []
  }

  method IsPathResumable(path: seq<Entry>) returns (ok: bool)
    ensures ok <==> PathResumable(path)
  {
    var pending: seq<string> := [];
    for i := 0 to |path|
      invariant pending == PathPending(path[..i])
    {
      assert path[..i + 1][..i] == path[..i];
      pending := PendingCalls(pending, path[i]);
    }
    assert path[..|path|] == path;
    ok := |pending| == 0;
  }

  lemma PathPendingOfAppend(path: seq<Entry>, e: Entry)
    ensures PathPending(path + [e]) == PendingCalls(PathPending(path), e)
  {
    assert (path + [e])[..|path|] == path;
  }

  // ----- One pass over a whole tree of entries -----

  datatype Node = Node(id: string, parent: string, entry: Entry)

  ghost predicate WriteOrder(nodes: seq<Node>) {
    && (forall i, j :: 0 <= i < j < |nodes| ==> nodes[i].id != nodes[j].id)
    && (forall i, j :: 0 <= i <= j < |nodes| ==> nodes[i].parent != nodes[j].id)
  }

  /** `path` names the nodes from a root down to its last node. */
  ghost predicate IsPath(nodes: seq<Node>, path: seq<nat>) {
    && path != []
    && (forall k :: 0 <= k < |path| ==> path[k] < |nodes|)
    && (forall j :: 0 <= j < |nodes| ==> nodes[path[0]].parent != nodes[j].id)
    && (forall k :: 0 < k < |path| ==> nodes[path[k]].parent == nodes[path[k - 1]].id)
  }

  /** Every node has a path of its own. */
  lemma {:induction false} PathTo(nodes: seq<Node>, i: nat) returns (path: seq<nat>)
    requires WriteOrder(nodes) && i < |nodes|
    ensures IsPath(nodes, path) && path[|path| - 1] == i
    decreases i
  {
    if j :| 0 <= j < |nodes| && nodes[i].parent == nodes[j].id {
      assert j < i;
      var init := PathTo(nodes, j);
      path := init + [i];
    } else {
      path := [i];
    }
  }

  lemma RootAlone(nodes: seq<Node>, path: seq<nat>)
    requires IsPath(nodes, path)
    ensures |path| == 1 <==> forall j :: 0 <= j < |nodes| ==> nodes[path[|path| - 1]].parent != nodes[j].id
  {
    assert |path| > 1 ==> nodes[path[|path| - 1]].parent == nodes[path[|path| - 2]].id;
  }

  /** And only one. */
  lemma {:induction false} OnePath(nodes: seq<Node>, p: seq<nat>, q: seq<nat>)
    requires WriteOrder(nodes) && IsPath(nodes, p) && IsPath(nodes, q) && p[|p| - 1] == q[|q| - 1]
    ensures p == q
    decreases |p|
  {
    RootAlone(nodes, p);
    RootAlone(nodes, q);
    if |p| > 1 && |q| > 1 {
      assert nodes[p[|p| - 2]].id == nodes[q[|q| - 2]].id;
      OnePath(nodes, p[..|p| - 1], q[..|q| - 1]);
      assert p == p[..|p| - 1] + [p[|p| - 1]] && q == q[..|q| - 1] + [q[|q| - 1]];
    }
  }

  ghost function EntriesAt(nodes: seq<Node>, path: seq<nat>): (es: seq<Entry>)
    requires forall k :: 0 <= k < |path| ==> path[k] < |nodes|
    ensures |es| == |path|
  {
    seq(|path|, k requires 0 <= k < |path| => nodes[path[k]].entry)
  }

  ghost predicate Local(nodes: seq<Node>, pending: map<string, seq<string>>, i: nat)
    requires i < |nodes|
  {
    var n := nodes[i];
    n.id in pending
    && pending[n.id] == PendingCalls(if n.parent in pending then pending[n.parent] else [], n.entry)
  }

  lemma {:induction false} LocalIsGlobal(nodes: seq<Node>, pending: map<string, seq<string>>, path: seq<nat>)
    requires IsPath(nodes, path)
    requires forall i :: 0 <= i < |nodes| ==> Local(nodes, pending, i)
    requires pending.Keys == set i | 0 <= i < |nodes| :: nodes[i].id
    ensures pending[nodes[path[|path| - 1]].id] == PathPending(EntriesAt(nodes, path))
    decreases |path|
  {
    hide PendingCalls, PathPending, EntriesAt;
    var last := nodes[path[|path| - 1]];
    var init := path[..|path| - 1];
    assert Local(nodes, pending, path[|path| - 1]);
    EntriesThen(nodes, path);
    PathPendingOfAppend(EntriesAt(nodes, init), last.entry);
    if |path| > 1 {
      LocalIsGlobal(nodes, pending, init);
    } else {
      assert last.parent !in pending;
      NothingPending(EntriesAt(nodes, init));
    }
  }

  lemma EntriesThen(nodes: seq<Node>, path: seq<nat>)
    requires path != [] && forall k :: 0 <= k < |path| ==> path[k] < |nodes|
    ensures EntriesAt(nodes, path) == EntriesAt(nodes, path[..|path| - 1]) + [nodes[path[|path| - 1]].entry]
  {
  }

  lemma NothingPending(path: seq<Entry>)
    requires path == []
    ensures PathPending(path) == []
  {
  }

  lemma LocalGrows(nodes: seq<Node>, pending: map<string, seq<string>>, k: nat, left: seq<string>)
    requires WriteOrder(nodes) && k < |nodes| && forall i :: 0 <= i < k ==> Local(nodes, pending, i)
    requires left == PendingCalls(if nodes[k].parent in pending then pending[nodes[k].parent] else [], nodes[k].entry)
    ensures var pending' := pending[nodes[k].id := left]; forall i :: 0 <= i < k + 1 ==> Local(nodes, pending', i)
  {
    hide PendingCalls;
    var pending' := pending[nodes[k].id := left];
    forall i | 0 <= i < k + 1 ensures Local(nodes, pending', i) {
      if i < k {
        assert Local(nodes, pending, i);
        assert nodes[i].id != nodes[k].id && nodes[i].parent != nodes[k].id;
      }
    }
  }

  /** One pass in write order decides every entry as its own path would. */
  method ResumableSet(nodes: seq<Node>) returns (out: map<string, bool>)
    requires WriteOrder(nodes)
    ensures out.Keys == set i | 0 <= i < |nodes| :: nodes[i].id
    ensures forall path :: IsPath(nodes, path) ==>
      (out[nodes[path[|path| - 1]].id] <==> PathResumable(EntriesAt(nodes, path)))
  {
    var pending: map<string, seq<string>> := map[];
    out := map[];
    for k := 0 to |nodes|
      invariant pending.Keys == out.Keys == set i | 0 <= i < k :: nodes[i].id
      invariant forall i :: 0 <= i < k ==> Local(nodes, pending, i)
      invariant forall id :: id in pending ==> (out[id] <==> pending[id] == [])
    {
      var e := nodes[k];
      var left := PendingCalls(if e.parent in pending then pending[e.parent] else [], e.entry);
      LocalGrows(nodes, pending, k, left);
      pending := pending[e.id := left];
      out := out[e.id := |left| == 0];
      hide Local, PendingCalls;
    }
    hide Local, PathPending;
    forall path | IsPath(nodes, path)
      ensures out[nodes[path[|path| - 1]].id] <==> PathResumable(EntriesAt(nodes, path))
    {
      LocalIsGlobal(nodes, pending, path);
    }
  }

  // ----- The raw path and the folded conversation -----

  function PendingFrom(pending: seq<string>, msgs: seq<Message>): seq<string> {
    if msgs == [] then pending
    else PendingAfter(PendingFrom(pending, msgs[..|msgs| - 1]), msgs[|msgs| - 1])
  }

  /** The calls a conversation itself leaves unanswered. */
  function Unanswered(msgs: seq<Message>): seq<string> {
    PendingFrom([], msgs)
  }

  lemma {:induction false} PendingFromConcat(pending: seq<string>, a: seq<Message>, b: seq<Message>)
    ensures PendingFrom(pending, a + b) == PendingFrom(PendingFrom(pending, a), b)
    decreases |b|
  {
    if b == [] {
      assert a + b == a;
    } else {
      assert (a + b)[..|a + b| - 1] == a + b[..|b| - 1];
      PendingFromConcat(pending, a, b[..|b| - 1]);
    }
  }

  lemma WithoutCounts(s: seq<string>, x: string)
    ensures multiset(Without(s, x)) == multiset(s) - multiset{x}
  {
    var i := IndexOf(s, x);
    if i < |s| {
      assert s == s[..i] + [x] + s[i + 1..];
    } else {
      assert s[..i] == s;
    }
  }

  /** Fewer calls open before means no more open after. */
  lemma {:induction false} PendingMonotone(few: seq<string>, many: seq<string>, msgs: seq<Message>)
    requires multiset(few) <= multiset(many)
    ensures multiset(PendingFrom(few, msgs)) <= multiset(PendingFrom(many, msgs))
    decreases |msgs|
  {
    if msgs != [] {
      var init, m := msgs[..|msgs| - 1], msgs[|msgs| - 1];
      PendingMonotone(few, many, init);
      WithoutCounts(PendingFrom(few, init), m.toolCallID);
      WithoutCounts(PendingFrom(many, init), m.toolCallID);
    }
  }

  lemma {:induction false} PendingUnmeasured(pending: seq<string>, msgs: seq<Message>)
    ensures PendingFrom(pending, Unmeasured(msgs)) == PendingFrom(pending, msgs)
  {
    if msgs != [] {
      PendingUnmeasured(pending, msgs[..|msgs| - 1]);
      assert Unmeasured(msgs)[..|msgs| - 1] == Unmeasured(msgs[..|msgs| - 1]);
    }
  }

  /** Where the fold of pairing holds, its open calls are the unanswered ones. */
  lemma {:induction false} OpenIsUnanswered(msgs: seq<Message>)
    requires OpenFrom(Some([]), msgs).Some?
    ensures Unanswered(msgs) == OpenFrom(Some([]), msgs).value
  {
    if msgs != [] {
      OpenIsUnanswered(msgs[..|msgs| - 1]);
      var ids, m := OpenFrom(Some([]), msgs[..|msgs| - 1]).value, msgs[|msgs| - 1];
      if m.role == Tool {
        assert ids[..0] + ids[0 + 1..] == ids[1..];
      } else {
        assert [] + Ids(m.toolCalls) == Ids(m.toolCalls);
      }
    }
  }

  /** The path and the conversation it stands for leave the same calls open. */
  ghost predicate Agrees(path: seq<Entry>) {
    PathPending(path) == Unanswered(Folded(path))
  }

  /** What is kept leaves the same calls open without what is cut. */
  ghost predicate Harmless(before: seq<Message>, c: Compaction) {
    var cut := |before| - Kept(before, c);
    PendingFrom([], before[cut..]) == PendingFrom(PendingFrom([], before[..cut]), before[cut..])
  }

  lemma CompactedUnanswered(before: seq<Message>, c: Compaction)
    ensures Unanswered(Compacted(before, c)) == PendingFrom([], before[|before| - Kept(before, c)..])
  {
    var kept := before[|before| - Kept(before, c)..];
    PendingFromConcat([], [SummaryMessage(c.summary)], Unmeasured(kept));
    assert PendingFrom([], [SummaryMessage(c.summary)]) == [];
    PendingUnmeasured([], kept);
  }

  lemma MessageKeepsAgreeing(path: seq<Entry>, m: Message)
    requires Agrees(path)
    ensures Agrees(path + [Msg(m)])
  {
    PathPendingOfAppend(path, Msg(m));
    FoldedOfAppend(path, Msg(m));
    PendingFromConcat([], Folded(path), [m]);
    assert PendingFrom(Unanswered(Folded(path)), [m]) == PendingAfter(Unanswered(Folded(path)), m);
  }

  /** A compaction keeps path and conversation in agreement exactly when it is
      harmless, which can be told before it is recorded. */
  lemma CompactionAgreesIff(path: seq<Entry>, c: Compaction)
    requires Agrees(path)
    ensures Agrees(path + [Compact(c)]) <==> Harmless(Folded(path), c)
  {
    var before := Folded(path);
    var cut := |before| - Kept(before, c);
    PathPendingOfAppend(path, Compact(c));
    FoldedOfAppend(path, Compact(c));
    CompactedUnanswered(before, c);
    assert before == before[..cut] + before[cut..];
    PendingFromConcat([], before[..cut], before[cut..]);
  }

  /** Path and conversation agree all along exactly when every compaction on the
      path was harmless where it was recorded. */
  lemma {:induction false} RawAgreesWithFolded(path: seq<Entry>)
    ensures (forall k :: 0 <= k <= |path| ==> Agrees(path[..k]))
      <==> (forall k :: 0 <= k < |path| && path[k].Compact? ==> Harmless(Folded(path[..k]), path[k].compaction))
    decreases |path|
  {
    hide Agrees, Harmless;
    if path == [] {
      NothingAgrees();
    } else {
      var n := |path| - 1;
      var init := path[..n];
      RawAgreesWithFolded(init);
      assert path[..|path|] == path == init + [path[n]];
      assert forall k :: 0 <= k <= n ==> init[..k] == path[..k];
      if Agrees(init) { EntryAgreesIff(init, path[n]); }
      assert init[..n] == init;
    }
  }

  lemma NothingAgrees()
    ensures forall path :: path == [] ==> Agrees(path)
  {
  }

  lemma EntryAgreesIff(path: seq<Entry>, e: Entry)
    requires Agrees(path)
    ensures Agrees(path + [e]) <==> (e.Compact? ==> Harmless(Folded(path), e.compaction))
  {
    match e {
      case Msg(m) => MessageKeepsAgreeing(path, m);
      case Compact(c) => CompactionAgreesIff(path, c);
      case Note =>
        PathPendingOfAppend(path, e);
        FoldedOfAppend(path, e);
    }
  }

  /** Where the conversation is paired so far, calls open or not, a compaction
      that keeps from a message that is no result is harmless. */
  lemma PlannedCutHarmless(before: seq<Message>, c: Compaction)
    requires OpenFrom(Some([]), before).Some?
    requires Kept(before, c) > 0 && before[|before| - Kept(before, c)].role != Tool
    ensures Harmless(before, c)
  {
    var cut := |before| - Kept(before, c);
    NoneOpenBefore(before, cut);
    OpenIsUnanswered(before[..cut]);
  }

  /** So is one recorded while every call is answered, wherever it cuts. */
  lemma IdleCutHarmless(before: seq<Message>, c: Compaction)
    requires Unanswered(before) == []
    ensures Harmless(before, c) && Unanswered(Compacted(before, c)) == []
  {
    var cut := |before| - Kept(before, c);
    var kept := before[cut..];
    assert before == before[..cut] + kept;
    PendingFromConcat([], before[..cut], kept);
    PendingMonotone([], PendingFrom([], before[..cut]), kept);
    assert multiset(PendingFrom([], kept)) <= multiset([]);
    assert |PendingFrom([], kept)| == |multiset(PendingFrom([], kept))| == 0;
    CompactedUnanswered(before, c);
  }
}
