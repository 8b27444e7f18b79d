/** Everything the agent loop acts on and cannot foresee: the session's store,
    the model's endpoint, the recorder of calls, and cancellation. */
module Environment {
  import opened Provider
  import opened Session
  import opened Pairing
  import opened Estimate

  datatype Request = Request(
    messages: seq<Message>, maxOutput: Option<int>, effort: Option<string>, withTools: bool)

  /** Why a request was sent. `covers` are the messages a summary is asked for. */
  datatype Purpose =
    | ForRun(conversation: seq<Message>, log: seq<Entry>, pending: seq<Message>)
    | CachedSummary(covers: seq<Message>, prompt: string)
    | TranscriptSummary(covers: seq<Message>, prompt: string)

  datatype Call = Call(request: Request, estimate: int, purpose: Purpose)

  /** Why a run stopped before its end. */
  datatype Cause = Cancelled | TooLarge | NoReply | NotCompacted | WriteRefused | ToolBroke

  datatype Failure = Failure(retryable: bool, overflow: bool)

  datatype Streamed =
    | Finished(text: string, reasoning: string, calls: seq<ToolCall>, stop: string, usage: Usage)
    | Broke(failure: Failure)

  /** A call as it went out, and what came of it. */
  datatype Sent = Sent(call: Call, outcome: Streamed)

  /** What the recorder was told: the log's head, what was sent, which of the
      calls sent it was, and with which of them its turn began. */
  datatype CallRecord = CallRecord(head: seq<Entry>, messages: seq<Message>, at: nat, turn: nat)

  function TranscriptText(o: Options, covers: seq<Message>, prompt: string): string {
    "<conversation>\n" + o.transcript(covers) + "\n</conversation>\n\n" + prompt
  }

  /** The transcript stands in the text whole, and the prompt ends it. */
  ghost predicate HasTranscript(o: Options, covers: seq<Message>, prompt: string, text: string) {
    var t := o.transcript(covers);
    |text| >= 15 + |t| + |prompt| && text[15..15 + |t|] == t && text[|text| - |prompt|..] == prompt
  }

  lemma TranscriptStands(o: Options, covers: seq<Message>, prompt: string)
    ensures HasTranscript(o, covers, prompt, TranscriptText(o, covers, prompt))
  {
    var t := o.transcript(covers);
    assert |"<conversation>\n"| == 15;
    assert TranscriptText(o, covers, prompt) == "<conversation>\n" + t + ("\n</conversation>\n\n" + prompt);
  }

  /** The messages a request is built from, before they are prepared. */
  function Source(o: Options, p: Purpose): seq<Message> {
    match p
    case ForRun(conversation, _, _) => conversation
    case CachedSummary(covers, prompt) => covers + [UserMessage(prompt)]
    case TranscriptSummary(covers, prompt) => [UserMessage(TranscriptText(o, covers, prompt))]
  }

  ghost predicate WithinWindow(o: Options, s: Call) {
    && s.estimate <= o.contextWindow
    && (s.purpose.ForRun? ==> s.estimate < o.contextWindow)
    && (s.request.maxOutput.Some? ==> s.estimate + s.request.maxOutput.value <= o.contextWindow)
  }

  /** What every request the agent ever sends satisfies. `sound` says that the
      conversation it started from had every call answered. */
  ghost predicate WellFormed(o: Options, sound: bool, s: Call) {
    && (sound ==> WellPaired(s.request.messages))
    && s.request.messages == AllPrepared(o, Source(o, s.purpose))
    && s.request.withTools == !s.purpose.TranscriptSummary?
    && s.estimate == Estimated(if s.purpose.TranscriptSummary? then o.transcriptOverhead else o.overhead, Source(o, s.purpose), Sizes(o, Source(o, s.purpose)))
    && (o.contextWindow > 0 ==> WithinWindow(o, s))
    && (s.purpose.ForRun? ==>
          && AllSpelled(s.purpose.conversation) == Folded(s.purpose.log) + AllSpelled(s.purpose.pending)
          && s.request.effort == o.effort && Fit(o, s.estimate) == Fits(s.request.maxOutput))
  }

  /** A request carries the run's conversation; for a summary in the cached form
      what it is to cover and then the prompt; in the transcript form one message
      with the transcript of that and the prompt. */
  ghost predicate Conveys(o: Options, s: Call) {
    match s.purpose
    case ForRun(conversation, _, _) => AllCarried(o, conversation, s.request.messages)
    case CachedSummary(covers, prompt) =>
      && |s.request.messages| == |covers| + 1 && AllCarried(o, covers, s.request.messages[..|covers|])
      && s.request.messages[|covers|].role == User && s.request.messages[|covers|].content == prompt
    case TranscriptSummary(covers, prompt) =>
      && |s.request.messages| == 1 && s.request.messages[0].role == User
      && HasTranscript(o, covers, prompt, s.request.messages[0].content)
  }

  lemma RequestCarries(o: Options, sound: bool, s: Call)
    requires WellFormed(o, sound, s)
    ensures Conveys(o, s)
  {
    AllPreparedCarry(o, Source(o, s.purpose));
    hide AllPrepared, Estimated, Sizes, WellPaired;
    if s.purpose.CachedSummary? {
      var n := |s.purpose.covers|;
      assert Carries(o, Source(o, s.purpose)[n], s.request.messages[n]);
      forall i | 0 <= i < n ensures Carries(o, s.purpose.covers[i], s.request.messages[..n][i]) {
        assert Carries(o, Source(o, s.purpose)[i], s.request.messages[i]);
      }
    }
    if s.purpose.TranscriptSummary? { TranscriptStands(o, s.purpose.covers, s.purpose.prompt); }
    hide TranscriptText, HasTranscript;
    if s.purpose.TranscriptSummary? { assert Carries(o, Source(o, s.purpose)[0], s.request.messages[0]); }
  }

  /** A recorded call was sent with those messages and answered, and folding the
      log down to its head rebuilds them. */
  ghost predicate Rebuilds(o: Options, sent: seq<Sent>, r: CallRecord) {
    && r.at < |sent| && sent[r.at].outcome.Finished?
    && sent[r.at].call.purpose.ForRun? && sent[r.at].call.request.messages == r.messages
    && Folded(r.head) == Folded(sent[r.at].call.purpose.log) + AllSpelled(sent[r.at].call.purpose.pending)
    && AllSpelled(r.messages) == AllPrepared(o, Folded(r.head))
  }

  /** What of the world a call to the model changes, at one moment. */
  datatype Moment = Moment(
    cancelled: bool, replies: nat, log: seq<Entry>, sent: seq<Sent>, runSends: nat, compactions: nat, unwritten: nat)

  /** The user messages of a log, oldest first. */
  function UsersOf(log: seq<Entry>): seq<Message> {
    if log == [] then []
    else
      var e := log[|log| - 1];
      UsersOf(log[..|log| - 1]) + if e.Msg? && e.message.role == User then [e.message] else []
  }

  lemma UsersOfAppend(log: seq<Entry>, e: Entry)
    ensures UsersOf(log + [e]) == UsersOf(log) + if e.Msg? && e.message.role == User then [e.message] else []
  {
    assert (log + [e])[..|log|] == log;
  }

  class World {
    const o: Options
    /** Whether every call was answered where this run began. */
    ghost const sound: bool
    var cancelled: bool
    /** The endpoint gives finitely many replies; after that every call fails. */
    var replies: nat
    /** The path from the session's root to its head. */
    var log: seq<Entry>
    ghost var sent: seq<Sent>
    ghost var records: seq<CallRecord>
    /** How many attempts to answer a run's request were made, and how many
        compactions were attempted. */
    ghost var runSends: nat
    ghost var compactions: nat
    /** The results tools gave, in order, and how many calls the harness failed. */
    ghost var ran: seq<Message>
    ghost var broke: nat
    /** How many writes the store refused: of messages, and of compactions. */
    ghost var refused: nat
    ghost var unwritten: nat

    constructor (o: Options, log: seq<Entry>, replies: nat, ghost sound: bool)
      ensures Valid() && this.o == o && this.log == log && this.replies == replies && this.sound == sound
      ensures sent == [] && records == [] && ran == []
    {
      this.o, this.log, this.replies, cancelled, this.sound := o, log, replies, false, sound;
      sent, records, runSends, compactions := [], [], 0, 0;
      ran, broke, refused, unwritten := [], 0, 0, 0;
    }

    ghost predicate Valid()
      reads this`sent, this`records
    {
      && (forall s :: s in sent ==> WellFormed(o, sound, s.call))
      && (forall r :: r in records ==> Rebuilds(o, sent, r))
    }

    ghost function Now(): Moment
      reads this
    {
      Moment(cancelled, replies, log, sent, runSends, compactions, unwritten)
    }

    ghost predicate OfLog(call: Call)
      reads this`log
    {
      call.purpose.ForRun? ==> call.purpose.log == log
    }

    /** The run's context; once cancelled it stays cancelled. */
    method Cancelled() returns (c: bool)
      modifies this`cancelled
      ensures c == cancelled && (old(cancelled) ==> c)
    {
      if !cancelled { cancelled := *; }
      c := cancelled;
    }

    /** One durable write: it happens whole or not at all. */
    method Append(m: Message) returns (ok: bool)
      modifies this`log, this`refused
      ensures log == if ok then old(log) + [Msg(Spelled(m))] else old(log)
      ensures refused == old(refused) + if ok then 0 else 1
    {
      ok := *;
      if ok {
        var spelled := WithArguments(m);
        log := log + [Msg(spelled)];
      } else {
        refused := refused + 1;
      }
    }

    method AppendCompaction(c: Compaction) returns (ok: bool)
      modifies this`log, this`unwritten
      ensures log == if ok then old(log) + [Compact(c)] else old(log)
      ensures unwritten == old(unwritten) + if ok then 0 else 1
    {
      ok := *;
      if ok {
        log := log + [Compact(c)];
      } else {
        unwritten := unwritten + 1;
      }
    }

    /** Sends a request. One for a run is made from the log as it stands. */
    method Stream(call: Call) returns (out: Streamed)
      requires Valid() && WellFormed(o, sound, call) && OfLog(call)
      modifies this`replies, this`sent, this`runSends
      ensures Valid()
      ensures sent == old(sent) + [Sent(call, out)]
      ensures runSends == old(runSends) + if call.purpose.ForRun? then 1 else 0
      ensures replies == old(replies) - if out.Finished? then 1 else 0
    {
      hide WellFormed, Rebuilds;
      out := *;
      if replies == 0 { out := Broke(Failure(false, false)); }
      if out.Finished? { replies := replies - 1; }
      forall r | r in records ensures Rebuilds(o, sent + [Sent(call, out)], r) {
        StillRebuilds(sent, sent + [Sent(call, out)], r);
      }
      sent := sent + [Sent(call, out)];
      runSends := runSends + if call.purpose.ForRun? then 1 else 0;
    }

    /** Every request ever sent conveys what it was sent for. */
    lemma SentConveys()
      requires Valid()
      ensures forall s :: s in sent ==> Conveys(o, s.call)
    {
      hide WellFormed, Conveys;
      forall s | s in sent ensures Conveys(o, s.call) {
        RequestCarries(o, sound, s.call);
      }
    }

    lemma StillRebuilds(before: seq<Sent>, after: seq<Sent>, r: CallRecord)
      requires Rebuilds(o, before, r) && before <= after
      ensures Rebuilds(o, after, r)
    {
    }

    /** Records the call sent last, when the store has just what it sent. */
    method Record(messages: seq<Message>, ghost turn: nat)
      requires Valid() && sent != [] && Rebuilds(o, sent, CallRecord(log, messages, |sent| - 1, turn))
      modifies this`records
      ensures Valid()
      ensures records == old(records) + [CallRecord(log, messages, |sent| - 1, turn)]
    {
      hide WellFormed, Rebuilds;
      records := records + [CallRecord(log, messages, |sent| - 1, turn)];
    }

    /** One tool call: a result the model can act on, or the harness's own failure. */
    method CallTool(c: ToolCall) returns (result: Option<Message>)
      modifies this`ran, this`broke
      ensures ran == old(ran) + if result.Some? then [result.value] else []
      ensures broke == old(broke) + if result.Some? then 0 else 1
      ensures result.Some? ==> exists content, failed :: result.value == ToolResult(c.id, content, failed)
    {
      var fails: bool := *;
      if fails {
        broke := broke + 1;
        return None;
      }
      var content: string := *;
      var failed: bool := *;
      result := Some(ToolResult(c.id, content, failed));
      ran := ran + [result.value];
    }
  }
}
