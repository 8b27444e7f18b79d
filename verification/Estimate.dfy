/** What a request sends, how large it is taken to be, and what fits the window. */
module Estimate {
  import opened Provider
  import opened Session
  import opened Pairing
  import opened Planning

  /** The agent's options. What the model leaves uninterpreted is a function:
      the size of a message, the note for left-out images, and how a summary
      is read from a reply and a transcript written. `overhead` is the
      estimated size of the run's system prompt and tools. */
  datatype Options = Options(
    contextWindow: int,
    auto: bool,
    reserve: int,
    keepRecent: int,
    maxRetries: int,
    queueAll: bool,
    maxOutput: Option<int>,
    effort: Option<string>,
    fallbackEffort: string,
    preserveThinking: bool,
    imageInput: bool,
    summaryPrompt: string,
    updatePrompt: string,
    turnPrefixPrompt: string,
    overhead: nat,
    transcriptOverhead: nat,
    size: Message -> nat,
    imageNote: nat -> string,
    clean: string -> string,
    transcript: seq<Message> -> string)

  const DEFAULT_RESERVE := 16384
  const DEFAULT_KEEP_RECENT := 20000

  /** `setting`, or `def` when unset, at most a quarter of the window. */
  function Scaled(setting: int, def: int, window: int): (n: int)
    requires def > 0
    ensures var wanted := if setting > 0 then setting else def;
      0 <= n <= wanted && (window > 0 ==> 4 * n <= window) && (n < wanted ==> window > 0 && 4 * (n + 1) > window)
  {
    var s := if setting <= 0 then def else setting;
    if window > 0 then Min(s, window / 4) else s
  }

  /** What is kept free for a compaction, and what one keeps: as set or by default,
      within a quarter of the window. */
  function ReserveTokens(o: Options): (n: int)
    ensures var wanted := if o.reserve > 0 then o.reserve else 16384;
      if o.contextWindow > 0 && 4 * wanted > o.contextWindow then 4 * n <= o.contextWindow < 4 * (n + 1) else n == wanted
  {
    Scaled(o.reserve, DEFAULT_RESERVE, o.contextWindow)
  }

  function KeepRecentTokens(o: Options): (n: int)
    ensures var wanted := if o.keepRecent > 0 then o.keepRecent else 20000;
      if o.contextWindow > 0 && 4 * wanted > o.contextWindow then 4 * n <= o.contextWindow < 4 * (n + 1) else n == wanted
  {
    Scaled(o.keepRecent, DEFAULT_KEEP_RECENT, o.contextWindow)
  }

  /** A compaction is due when the window no longer has the reserve free. */
  lemma CompactsWhenReserveTaken(o: Options, tokens: int)
    ensures ShouldCompact(o, tokens) <==> o.auto && o.contextWindow > 0 && o.contextWindow - tokens < ReserveTokens(o)
    ensures o.contextWindow > 0 ==> 4 * ReserveTokens(o) <= o.contextWindow
  {
  }

  predicate ShouldCompact(o: Options, tokens: int) {
    o.auto && o.contextWindow > 0 && tokens > o.contextWindow - ReserveTokens(o)
  }

  // ----- Messages as a request sends them -----

  const IMAGE_NOTE := "[1 image omitted: the model in use does not accept images]"

  function WithoutImages(o: Options, m: Message): Message {
    if m.images == [] then m
    else
      var note := NoteFor(o, |m.images|);
      m.(images := [], content := if m.content == "" then note else m.content + "\n\n" + note)
  }

  function Prepared(o: Options, m: Message): Message {
    var plain := m.(metrics := None, reasoning := if o.preserveThinking then m.reasoning else "");
    if o.imageInput then plain else WithoutImages(o, plain)
  }

  function AllPrepared(o: Options, msgs: seq<Message>): (out: seq<Message>)
    ensures |out| == |msgs|
    ensures forall i :: 0 <= i < |msgs| ==> out[i] == Prepared(o, msgs[i])
  {
    seq(|msgs|, i requires 0 <= i < |msgs| => Prepared(o, msgs[i]))
  }

  function Sizes(o: Options, msgs: seq<Message>): (out: seq<nat>)
    ensures |out| == |msgs|
    ensures forall i :: 0 <= i < |msgs| ==> out[i] == o.size(Prepared(o, msgs[i]))
  {
    seq<nat>(|msgs|, i requires 0 <= i < |msgs| => o.size(Prepared(o, msgs[i])))
  }

  /** The note that stands for `n` images. */
  function NoteFor(o: Options, n: nat): string {
    if n == 1 then IMAGE_NOTE else o.imageNote(n)
  }

  /** `p` is what a request carries for `m`: what it says, who says it and what it
      calls; its reasoning if that is to be preserved; its images if the model
      reads any, and otherwise a note of them behind the text. */
  ghost predicate Carries(o: Options, m: Message, p: Message) {
    && p.role == m.role && p.toolCalls == m.toolCalls && p.toolCallID == m.toolCallID
    && p.isError == m.isError && p.summary == m.summary && p.metrics.None?
    && p.reasoning == (if o.preserveThinking then m.reasoning else "")
    && p.images == (if o.imageInput then m.images else [])
    && (o.imageInput || m.images == [] ==> p.content == m.content)
    && (!o.imageInput && m.images != [] ==>
          m.content <= p.content
          && p.content[|m.content|..]
             == (if m.content == "" then "" else "\n\n")
                + if |m.images| == 1 then IMAGE_NOTE else o.imageNote(|m.images|))
  }

  ghost predicate AllCarried(o: Options, msgs: seq<Message>, sent: seq<Message>) {
    |sent| == |msgs| && forall i :: 0 <= i < |msgs| ==> Carries(o, msgs[i], sent[i])
  }

  lemma PreparedCarries(o: Options, m: Message)
    ensures Carries(o, m, Prepared(o, m))
  {
    hide WithoutImages, IMAGE_NOTE;
    NotedBehind(o, m.(metrics := None, reasoning := if o.preserveThinking then m.reasoning else ""));
  }

  lemma NotedBehind(o: Options, m: Message)
    ensures var p := WithoutImages(o, m);
      && p == m.(images := [], content := p.content)
      && (m.images == [] ==> p.content == m.content)
      && (m.images != [] ==>
            m.content <= p.content
            && p.content[|m.content|..] == (if m.content == "" then "" else "\n\n") + NoteFor(o, |m.images|))
  {
    hide NoteFor;
    if m.images != [] && m.content != "" {
      assert WithoutImages(o, m).content == m.content + ("\n\n" + NoteFor(o, |m.images|));
    }
  }

  lemma AllPreparedCarry(o: Options, msgs: seq<Message>)
    ensures AllCarried(o, msgs, AllPrepared(o, msgs))
  {
    hide Prepared, Carries;
    forall i | 0 <= i < |msgs| ensures Carries(o, msgs[i], AllPrepared(o, msgs)[i]) {
      PreparedCarries(o, msgs[i]);
    }
  }

  lemma PreparedNext(o: Options, msgs: seq<Message>, i: nat)
    requires i < |msgs|
    ensures |AllPrepared(o, msgs)| == |Sizes(o, msgs)| == |msgs|
    ensures AllPrepared(o, msgs)[..i + 1] == AllPrepared(o, msgs)[..i] + [Prepared(o, msgs[i])]
    ensures Sizes(o, msgs)[..i + 1] == Sizes(o, msgs)[..i] + [o.size(Prepared(o, msgs[i]))]
  {
    hide Prepared;
  }

  method WithMessages(o: Options, msgs: seq<Message>) returns (messages: seq<Message>, sizes: seq<nat>)
    ensures messages == AllPrepared(o, msgs) && sizes == Sizes(o, msgs)
    ensures AllCarried(o, msgs, messages)
    ensures |sizes| == |messages| && forall i :: 0 <= i < |messages| ==> sizes[i] == o.size(messages[i])
  {
    AllPreparedCarry(o, msgs);
    hide AllPrepared, Sizes, WithoutImages, AllCarried;
    messages, sizes := [], [];
    for i := 0 to |msgs|
      invariant messages == AllPrepared(o, msgs)[..i] && |messages| == |sizes| == i
      invariant sizes == Sizes(o, msgs)[..i]
      invariant forall k :: 0 <= k < i ==> sizes[k] == o.size(messages[k])
    {
      var m := msgs[i].(metrics := None);
      if !o.preserveThinking { m := m.(reasoning := ""); }
      if !o.imageInput { m := WithoutImages(o, m); }
      PreparedNext(o, msgs, i);
      messages, sizes := messages + [m], sizes + [o.size(m)];
    }
  }

  /** Preparing a conversation changes neither its calls nor its results. */
  lemma PreparedPairs(o: Options, msgs: seq<Message>)
    ensures Paired(AllPrepared(o, msgs)) <==> Paired(msgs)
  {
    SameShapePairs(Some([]), AllPrepared(o, msgs), msgs);
  }

  lemma SpelledPairs(msgs: seq<Message>)
    ensures OpenFrom(Some([]), AllSpelled(msgs)) == OpenFrom(Some([]), msgs)
  {
    SameShapePairs(Some([]), AllSpelled(msgs), msgs);
  }

  /** Reading a request back from the log loses only the spelling. */
  lemma PreparedSpelled(o: Options, msgs: seq<Message>)
    ensures AllSpelled(AllPrepared(o, msgs)) == AllPrepared(o, AllSpelled(msgs))
  {
  }

  // ----- How large a request is taken to be -----

  function Measure(u: Usage): int { if u.total == 0 then u.input + u.output else u.total }

  predicate Measured(m: Message) {
    m.role == Assistant && m.metrics.Some? && Measure(m.metrics.value) > 0
  }

  /** The context the newest measured reply filled, and that reply's index. */
  method LastMeasured(msgs: seq<Message>) returns (tokens: int, at: int)
    ensures -1 <= at < |msgs|
    ensures forall i :: at < i < |msgs| ==> !Measured(msgs[i])
    ensures at >= 0 ==> Measured(msgs[at]) && tokens == Measure(msgs[at].metrics.value)
    ensures at < 0 ==> tokens == 0
  {
    at := |msgs| - 1;
    while at >= 0
      invariant -1 <= at < |msgs|
      invariant forall i :: at < i < |msgs| ==> !Measured(msgs[i])
    {
      if msgs[at].role == Assistant && msgs[at].metrics.Some? {
        tokens := msgs[at].metrics.value.total;
        if tokens == 0 {
          tokens := msgs[at].metrics.value.input + msgs[at].metrics.value.output;
        }
        if tokens > 0 { return; }
      }
      at := at - 1;
    }
    tokens := 0;
  }

  function NewestMeasured(msgs: seq<Message>): (at: int)
    ensures -1 <= at < |msgs|
    ensures forall i :: at < i < |msgs| ==> !Measured(msgs[i])
    ensures at >= 0 ==> Measured(msgs[at])
  {
    if msgs == [] then -1
    else if Measured(msgs[|msgs| - 1]) then |msgs| - 1
    else NewestMeasured(msgs[..|msgs| - 1])
  }

  /** The measured context, or `overhead`, and every message after it. */
  function Estimated(overhead: nat, msgs: seq<Message>, sizes: seq<nat>): int
    requires |sizes| == |msgs|
  {
    var at := NewestMeasured(msgs);
    (if at < 0 then overhead else Measure(msgs[at].metrics.value)) + Sum(sizes[at + 1..])
  }

  /** Without a measurement the overhead counts and everything else. */
  lemma EstimatedUnmeasured(overhead: nat, msgs: seq<Message>, sizes: seq<nat>)
    requires |sizes| == |msgs| && forall m :: m in msgs ==> m.role != Assistant || m.metrics.None?
    ensures Estimated(overhead, msgs, sizes) == overhead + Sum(sizes)
  {
    NewestIsNewest(msgs, -1);
    assert sizes[0..] == sizes;
  }

  /** With one, what the newest measured, as a whole or in two parts, and what
      comes after it. */
  lemma EstimatedFrom(overhead: nat, msgs: seq<Message>, sizes: seq<nat>, at: nat, tokens: int)
    requires |sizes| == |msgs| && at < |msgs| && msgs[at].role == Assistant && msgs[at].metrics.Some? && tokens > 0
    requires var u := msgs[at].metrics.value; u.total == tokens || (u.total == 0 && u.input + u.output == tokens)
    requires forall i :: at < i < |msgs| ==> msgs[i].role != Assistant || msgs[i].metrics.None?
    ensures Estimated(overhead, msgs, sizes) == tokens + Sum(sizes[at + 1..])
  {
    NewestIsNewest(msgs, at);
  }

  /** After a compaction nothing is measured: the estimate is the overhead and
      the sizes, whatever waits behind it that is no reply. */
  lemma EstimateAfterCompaction(overhead: nat, before: seq<Message>, c: Compaction, waiting: seq<Message>, sizes: seq<nat>)
    requires forall m :: m in waiting ==> m.role != Assistant
    requires |sizes| == |Compacted(before, c) + waiting|
    ensures NewestMeasured(Compacted(before, c) + waiting) == -1
    ensures Estimated(overhead, Compacted(before, c) + waiting, sizes) == overhead + Sum(sizes)
  {
    hide Compacted, Sum, Kept, SummaryText;
    NoneMeasured(before, c);
    var msgs := Compacted(before, c) + waiting;
    assert forall m :: m in msgs ==> m in Compacted(before, c) || m in waiting;
    NewestIsNewest(msgs, -1);
    assert sizes[0..] == sizes;
  }

  lemma NewestIsNewest(msgs: seq<Message>, at: int)
    requires -1 <= at < |msgs|
    requires forall i :: at < i < |msgs| ==> !Measured(msgs[i])
    requires at >= 0 ==> Measured(msgs[at])
    ensures at == NewestMeasured(msgs)
  {
  }

  lemma SumOfRest(sizes: seq<nat>, i: nat)
    requires i < |sizes|
    ensures Sum(sizes[i..]) == sizes[i] + Sum(sizes[i + 1..])
  {
    assert sizes[i..][1..] == sizes[i + 1..];
  }

  method AddSizes(tokens: int, sizes: seq<nat>) returns (total: int)
    ensures total == tokens + Sum(sizes)
  {
    total := tokens;
    for i := 0 to |sizes|
      invariant total + Sum(sizes[i..]) == tokens + Sum(sizes)
    {
      SumOfRest(sizes, i);
      total := total + sizes[i];
    }
  }

  method EstimateContext(overhead: nat, msgs: seq<Message>, sizes: seq<nat>) returns (tokens: int)
    requires |sizes| == |msgs|
    ensures tokens == Estimated(overhead, msgs, sizes)
  {
    var measured, at := LastMeasured(msgs);
    NewestIsNewest(msgs, at);
    tokens := AddSizes(if at < 0 then overhead else measured, sizes[at + 1..]);
  }

  // ----- The context window -----

  datatype Fitted = Fits(maxOutput: Option<int>) | TooLarge

  /** What one request may ask for within the window. */
  function Fit(o: Options, tokens: int): (f: Fitted)
    ensures o.contextWindow <= 0 ==> f == Fits(o.maxOutput)
    ensures o.contextWindow > 0 ==> (f.Fits? <==> tokens < o.contextWindow)
    ensures o.contextWindow > 0 && f.Fits? ==> (f.maxOutput.Some? <==> o.maxOutput.Some?)
    ensures o.contextWindow > 0 && f.Fits? && f.maxOutput.Some? ==>
      && tokens + f.maxOutput.value <= o.contextWindow
      && f.maxOutput.value <= o.maxOutput.value
      && (f.maxOutput.value < o.maxOutput.value ==> tokens + f.maxOutput.value == o.contextWindow)
  {
    if o.contextWindow <= 0 then Fits(o.maxOutput)
    else if tokens >= o.contextWindow then TooLarge
    else if o.maxOutput.Some? && tokens + o.maxOutput.value > o.contextWindow then
      Fits(Some(o.contextWindow - tokens))
    else Fits(o.maxOutput)
  }
}
