/** The loop that drives one session: turns, tool calls, and the two queues. */
module AgentLoop {
  import opened Provider
  import opened Session
  import opened Pairing
  import opened Resume
  import opened Planning
  import opened Estimate
  import opened Environment
  import opened Calls
  import opened Summaries
  import opened Conversations
  import opened Compacting
  import opened Queues
  import opened Deliveries
  import opened Rounds

  /** Why a turn ended early. `unanswered` counts the calls whose answers were
      lost: the turn gave the calls up, and the store refused that too. */
  datatype RunError = RunError(cause: Cause, unanswered: nat)

  function Lost(err: Option<RunError>): nat {
    if err.Some? then err.value.unanswered else 0
  }

  /** The refused write, if any, that ended the turn. */
  function Blocked(err: Option<RunError>): nat {
    if err.Some? && err.value.cause.WriteRefused? then 1 else 0
  }

  function Broken(err: Option<RunError>): nat {
    if err.Some? && err.value.cause.ToolBroke? then 1 else 0
  }

  /** The whole conversation is stored, and the log agrees if it is to be sound. */
  ghost predicate Tracks(sound: bool, msgs: seq<Message>, log: seq<Entry>) {
    Mirrors(msgs, |msgs|, log) && (sound ==> Agrees(log))
  }

  /** A place to begin a turn at: if it is to be sound, every call is answered. */
  ghost predicate Settled(sound: bool, msgs: seq<Message>, log: seq<Entry>) {
    Tracks(sound, msgs, log) && (sound ==> Paired(msgs))
  }

  lemma SettledReady(sound: bool, msgs: seq<Message>, log: seq<Entry>)
    ensures Settled(sound, msgs, log) <==> Ready(sound, msgs, |msgs|, log)
    ensures Settled(true, msgs, log) ==> PathResumable(log)
  {
    assert msgs[..|msgs|] == msgs;
    if Settled(true, msgs, log) { ReadyIsResumable(msgs, |msgs|, log); }
  }

  /** What is loaded from a resumable entry can be run on, and from no other. */
  lemma ResumableIsSettled(log: seq<Entry>)
    requires AsStored(log) && Agrees(log) && OpenFrom(Some([]), Folded(log)).Some?
    ensures PathResumable(log) <==> Settled(true, Folded(log), log)
  {
    ResumableIsReady(log);
    SettledReady(true, Folded(log), log);
    hide PathResumable, Ready, Settled, Agrees;
  }

  /** The log now holds just what the call sent last carried. */
  lemma SentRebuilds(o: Options, sent: seq<Sent>, msgs: seq<Message>, called: seq<Entry>, pending: seq<Message>, r: CallResult,
                      log: seq<Entry>, turn: nat)
    requires r.Answered? && sent != [] && Judged(sent[|sent| - 1].outcome).Answered?
    requires sent[|sent| - 1].call.purpose == ForRun(msgs, called, pending) && sent[|sent| - 1].call.request.messages == r.sent
    requires AllSpelled(r.sent) == AllPrepared(o, Folded(called) + AllSpelled(pending))
    requires Folded(log) == Folded(called) + AllSpelled(pending)
    ensures Rebuilds(o, sent, CallRecord(log, r.sent, |sent| - 1, turn))
  {
    hide Folded, AllPrepared, AllSpelled;
  }

  /** The conversation mirrors the log, exactly as many more calls are open on the
      path as answers were lost, and with none lost it can be gone on with. */
  ghost predicate Keeps(sound: bool, log0: seq<Entry>, msgs: seq<Message>, log: seq<Entry>, err: Option<RunError>) {
    && Tracks(sound, msgs, log) && (sound && Lost(err) == 0 ==> Paired(msgs))
    && |PathPending(log)| == |PathPending(log0)| + Lost(err)
  }

  lemma KeepsIs(sound: bool, log0: seq<Entry>, msgs: seq<Message>, log: seq<Entry>, err: Option<RunError>)
    ensures Keeps(sound, log0, msgs, log, err) <==>
      && Tracks(sound, msgs, log) && (sound && Lost(err) == 0 ==> Paired(msgs))
      && |PathPending(log)| == |PathPending(log0)| + Lost(err)
    ensures Keeps(sound, log0, msgs, log, err) && Lost(err) == 0 ==> Settled(sound, msgs, log)
    ensures Settled(sound, msgs, log) && |PathPending(log)| == |PathPending(log0)| ==> Keeps(sound, log0, msgs, log, None)
  {
  }

  lemma KeepsAfter(sound: bool, log0: seq<Entry>, msgs1: seq<Message>, log1: seq<Entry>, msgs: seq<Message>, log: seq<Entry>)
    requires Keeps(sound, log0, msgs1, log1, None) && Settled(sound, msgs, log) && PathPending(log) == PathPending(log1)
    ensures Keeps(sound, log0, msgs, log, None)
  {
    hide Tracks, Paired, PathPending;
  }

  lemma KeepsBoth(sound: bool, log0: seq<Entry>, msgs1: seq<Message>, log1: seq<Entry>, msgs: seq<Message>, log: seq<Entry>, err: Option<RunError>)
    requires Keeps(sound, log0, msgs1, log1, None) && Keeps(sound, log1, msgs, log, err)
    ensures Keeps(sound, log0, msgs, log, err)
    ensures err.None? ==> Settled(sound, msgs, log)
  {
    hide Tracks, Paired, PathPending;
  }

  // ----- Steering reaches the next request -----

  /** One time the model was called: the calls it was made of, how many deliveries
      were stored before, all the steering accepted by then, and what waited. */
  datatype Asking = Asking(at: nat, upTo: nat, stored: nat, accepted: seq<Message>, pending: seq<Message>)

  predicate EndsWith(s: seq<Message>, t: seq<Message>) {
    |t| <= |s| && s[|s| - |t|..] == t
  }

  /** Every message a run sent in these calls carried what waited, and that ends
      with all the steering accepted by then that was not stored before. */
  ghost predicate Hears(a: Asking, ds: seq<Delivery>, sent: seq<Sent>) {
    && a.at <= a.upTo <= |sent| && a.stored <= |ds|
    && (forall i :: a.at <= i < a.upTo && sent[i].call.purpose.ForRun? ==> sent[i].call.purpose.pending == a.pending)
    && var before := From(ds[..a.stored], Steering);
       before <= a.accepted && EndsWith(a.pending, a.accepted[|before|..])
  }

  /** The calls since then are those of these askings, one after the other. */
  ghost predicate Tiled(asks: seq<Asking>, since: nat, to: nat) {
    if asks == [] then since == to
    else asks[|asks| - 1].upTo == to && asks[|asks| - 1].at <= to && Tiled(asks[..|asks| - 1], since, asks[|asks| - 1].at)
  }

  /** So no call since then went out without the steering there was. */
  ghost predicate Heard(asks: seq<Asking>, ds: seq<Delivery>, sent: seq<Sent>, since: nat) {
    Tiled(asks, since, |sent|) && forall a :: a in asks ==> Hears(a, ds, sent)
  }

  lemma HeardNothing(ds: seq<Delivery>, sent: seq<Sent>)
    ensures Heard([], ds, sent, |sent|)
  {
  }

  lemma StillHears(a: Asking, ds: seq<Delivery>, ds': seq<Delivery>, sent: seq<Sent>, sent': seq<Sent>)
    requires Hears(a, ds, sent) && ds <= ds' && sent <= sent'
    ensures Hears(a, ds', sent')
  {
    assert ds[..a.stored] == ds'[..a.stored];
    hide From;
  }

  lemma StillHeard(asks: seq<Asking>, ds: seq<Delivery>, ds': seq<Delivery>, sent: seq<Sent>, since: nat)
    requires Heard(asks, ds, sent, since) && ds <= ds'
    ensures Heard(asks, ds', sent, since)
  {
    hide Hears;
    forall a | a in asks ensures Hears(a, ds', sent) {
      StillHears(a, ds, ds', sent, sent);
    }
  }

  lemma HeardMore(asks: seq<Asking>, ds: seq<Delivery>, sent: seq<Sent>, sent': seq<Sent>, since: nat, a: Asking)
    requires Heard(asks, ds, sent, since) && sent <= sent' && a.at == |sent| && a.upTo == |sent'| && Hears(a, ds, sent')
    ensures Heard(asks + [a], ds, sent', since)
  {
    hide Hears;
    assert (asks + [a])[..|asks|] == asks;
    forall b | b in asks + [a] ensures Hears(b, ds, sent') {
      if b in asks { StillHears(b, ds, ds, sent, sent'); }
    }
  }

  /** With nothing left to steer with, a turn's batch holds all that is not stored. */
  lemma BatchHears(ds: seq<Delivery>, accepted: seq<Message>, origin: Origin, msgs: seq<Message>, steered: seq<Message>,
                   sent: seq<Sent>, at: nat)
    requires at <= |sent| && accepted == From(ds + Batch(origin, msgs, steered), Steering)
    requires forall i :: at <= i < |sent| && sent[i].call.purpose.ForRun? ==> sent[i].call.purpose.pending == msgs + steered
    ensures Hears(Asking(at, |sent|, |ds|, accepted, msgs + steered), ds, sent)
  {
    hide From, Batch, MessagesLeft, SteeringLeft, EndsWith;
    FromConcat(ds, Batch(origin, msgs, steered), Steering);
    FromBatch(origin, msgs, steered);
    assert ds[..|ds|] == ds;
    Ending(From(ds, Steering), if origin == Steering then msgs else [], msgs, steered);
  }

  lemma FromBatch(origin: Origin, msgs: seq<Message>, steered: seq<Message>)
    ensures From(Batch(origin, msgs, steered), Steering) == (if origin == Steering then msgs else []) + steered
  {
    hide From;
    FromConcat(Tagged(origin, msgs), Tagged(Steering, steered), Steering);
    FromTagged(origin, msgs, Steering);
    FromTagged(Steering, steered, Steering);
  }

  lemma Ending(stored: seq<Message>, own: seq<Message>, msgs: seq<Message>, steered: seq<Message>)
    requires own == msgs || own == []
    ensures stored <= stored + (own + steered)
    ensures EndsWith(msgs + steered, (stored + (own + steered))[|stored|..])
  {
    assert (stored + (own + steered))[|stored|..] == own + steered;
    if own == [] { assert own + steered == steered; }
  }

  /** A run's calls since `at` carry `first` before anything else that waits. */
  ghost predicate CarryFirst(first: seq<Message>, sent: seq<Sent>, at: nat) {
    forall i :: at <= i < |sent| && sent[i].call.purpose.ForRun? ==> first <= sent[i].call.purpose.pending
  }

  predicate AllFromUser(msgs: seq<Message>) {
    forall m :: m in msgs ==> FromUser(m)
  }

  class Agent {
    const w: World
    const steering: Queue
    const followUps: Queue
    var accepting: bool
    /** What waited in each queue when the run began, and every message it has
        accepted since, in order. */
    ghost var steerIn: seq<Message>
    ghost var followIn: seq<Message>
    /** The user messages this run stored, in order, and the log's before them. */
    ghost var delivered: seq<Delivery>
    ghost var earlier: seq<Message>
    /** The times this run called the model. */
    ghost var asks: seq<Asking>

    constructor (w: World)
      ensures this.w == w && Valid() && Accounted([]) && accepting && delivered == [] && steerIn == [] && followIn == []
      ensures fresh(steering) && fresh(followUps)
    {
      this.w, accepting := w, true;
      steering := new Queue();
      followUps := new Queue();
      steerIn, followIn, delivered := [], [], [];
      earlier, asks := UsersOf(w.log), [];
    }

    ghost predicate Valid()
      reads this, w`log, steering, followUps
    {
      && steering != followUps
      && AllFromUser(steering.messages) && AllFromUser(followUps.messages)
      && UsersOf(w.log) == earlier + MessagesOf(delivered)
    }

    /** Each accepted message is delivered, taken and undelivered, or queued:
        `open` are the undelivered ones, and each queue's order is kept. */
    ghost predicate Accounted(open: seq<Delivery>)
      reads this, steering, followUps
    {
      && steerIn == From(delivered + open, Steering) + steering.messages
      && followIn == From(delivered + open, FollowUps) + followUps.messages
    }

    /** Every message either queue accepted is delivered or still queued, once;
        the follow-ups are also in their order. */
    ghost predicate Balanced()
      reads this, steering, followUps
    {
      && followIn == From(delivered, FollowUps) + followUps.messages
      && multiset(steerIn) == multiset(From(delivered, Steering)) + multiset(steering.messages)
    }

    lemma AccountedIsBalanced()
      requires Accounted([])
      ensures Balanced()
    {
      assert delivered + [] == delivered;
    }

    /** Everything that waits, with what opened the run if that is still to be stored. */
    ghost function Waits(opener: seq<Message>): multiset<Message>
      reads steering, followUps
    {
      multiset(steering.messages) + multiset(followUps.messages) + multiset(opener)
    }

    lemma WaitsMore(few: seq<Message>, many: seq<Message>)
      requires few == [] || few == many
      ensures Waits(few) <= Waits(many)
    {
    }

    /** The store refused no write but those of lost answers and the one that
        ended the turn, if one did; and tools broke only if that ended it. */
    ghost predicate Counted(refused: nat, broke: nat, err: Option<RunError>)
      reads w`refused, w`broke
    {
      w.refused == refused + Lost(err) + Blocked(err) && w.broke == broke + Broken(err)
    }

    /** What ended the turn did come about. A call that failed was made for the
        stored conversation and some of what waits. */
    ghost predicate Stopped(since: nat, unwritten: nat, cause: Cause, waits: multiset<Message>)
      reads w
    {
      match cause
      case WriteRefused => true
      case ToolBroke => true
      case Cancelled => w.cancelled
      case _ =>
        exists msgs: seq<Message>, pending: seq<Message> ::
          |pending| <= |msgs| && AllSpelled(msgs) == Folded(w.log) + AllSpelled(pending)
          && multiset(pending) <= waits && Explains(w, since, unwritten, msgs, pending, cause)
    }

    lemma StoppedFrom(late: nat, unwrittenLate: nat, since: nat, unwritten: nat, cause: Cause, few: multiset<Message>, many: multiset<Message>)
      requires Stopped(late, unwrittenLate, cause, few) && since <= late && unwritten <= unwrittenLate && few <= many
      ensures Stopped(since, unwritten, cause, many)
    {
      if !cause.WriteRefused? && !cause.ToolBroke? && !cause.Cancelled? {
        var msgs, pending :| |pending| <= |msgs| && AllSpelled(msgs) == Folded(w.log) + AllSpelled(pending)
          && multiset(pending) <= few && Explains(w, late, unwrittenLate, msgs, pending, cause);
        ExplainsFrom(late, unwrittenLate, since, unwritten, msgs, pending, cause);
      }
    }

    lemma ExplainsFrom(late: nat, unwrittenLate: nat, since: nat, unwritten: nat, msgs: seq<Message>, pending: seq<Message>, cause: Cause)
      requires |pending| <= |msgs| && Explains(w, late, unwrittenLate, msgs, pending, cause)
      requires since <= late && unwritten <= unwrittenLate
      ensures Explains(w, since, unwritten, msgs, pending, cause)
    {
      if cause.NotCompacted? {
        hide Cuts, Unsummarized, IsPlan, Overflowed;
        var at: nat :| OverflowStays(w, late, at, unwrittenLate, msgs, pending);
        assert OverflowStays(w, since, at, unwritten, msgs, pending);
      }
    }

    lemma StopsFor(since: nat, unwritten: nat, msgs: seq<Message>, mark: int, pending: seq<Message>, cause: Cause)
      requires InStep(w, msgs, mark, pending) && |pending| <= |msgs|
      requires Explains(w, since, unwritten, msgs, pending, cause)
      ensures Stopped(since, unwritten, cause, multiset(pending)) && !cause.WriteRefused? && !cause.ToolBroke?
    {
      WaitingReady(w.sound, msgs, mark, w.log, pending);
      hide Folded, AllSpelled, Ready, Waiting;
    }

    method Steer(m: UserText) returns (ok: bool)
      requires Valid()
      modifies this`steerIn, steering
      ensures Valid() && ok == accepting
      ensures steerIn == old(steerIn) + if ok then [m] else []
      ensures steering.messages == old(steering.messages) + if ok then [m] else []
    {
      if !accepting { return false; }
      steering.Push(m);
      steerIn := steerIn + [m];
      ok := true;
    }

    method FollowUp(m: UserText) returns (ok: bool)
      requires Valid()
      modifies this`followIn, followUps
      ensures Valid() && ok == accepting
      ensures followIn == old(followIn) + if ok then [m] else []
      ensures followUps.messages == old(followUps.messages) + if ok then [m] else []
    {
      if !accepting { return false; }
      followUps.Push(m);
      followIn := followIn + [m];
      ok := true;
    }

    /** What clients may do between two critical sections of the loop. */
    method Clients()
      requires Valid()
      modifies this`steerIn, this`followIn, steering, followUps
      ensures Valid()
      ensures old(steerIn) <= steerIn && old(followIn) <= followIn
      ensures steering.messages == old(steering.messages) + steerIn[|old(steerIn)|..]
      ensures followUps.messages == old(followUps.messages) + followIn[|old(followIn)|..]
      ensures !accepting ==> steerIn == old(steerIn) && followIn == old(followIn)
    {
      hide From, UsersOf;
      var n: nat := *;
      while n > 0
        invariant Valid()
        invariant old(steerIn) <= steerIn && old(followIn) <= followIn
        invariant steering.messages == old(steering.messages) + steerIn[|old(steerIn)|..]
        invariant followUps.messages == old(followUps.messages) + followIn[|old(followIn)|..]
        invariant !accepting ==> steerIn == old(steerIn) && followIn == old(followIn)
      {
        var m: UserText := *;
        var steer: bool := *;
        if steer {
          var _ := Steer(m);
        } else {
          var _ := FollowUp(m);
        }
        n := n - 1;
      }
    }

    /** Only arrivals behind what the queues had accepted. */
    ghost predicate Arrived(steerWas: seq<Message>, followWas: seq<Message>)
      reads this`steerIn, this`followIn
    {
      steerWas <= steerIn && followWas <= followIn
    }

    // ----- Taking messages from the queues -----

    method DrainSteering(ghost open: seq<Delivery>) returns (out: seq<Message>)
      requires Valid() && Accounted(open)
      modifies this`steerIn, this`followIn, steering, followUps
      ensures Valid() && AllFromUser(out) && Accounted(open + Tagged(Steering, out)) && Arrived(old(steerIn), old(followIn))
      ensures steering.messages == [] && out == old(steering.messages) + steerIn[|old(steerIn)|..]
    {
      hide From, UsersOf;
      Clients();
      out := steering.Drain();
      TakenFrom(delivered + open, Steering, out);
      assert delivered + (open + Tagged(Steering, out)) == (delivered + open) + Tagged(Steering, out);
    }

    lemma TakenFrom(ds: seq<Delivery>, origin: Origin, out: seq<Message>)
      ensures forall o: Origin :: From(ds + Tagged(origin, out), o) == From(ds, o) + if o == origin then out else []
    {
      forall o: Origin ensures From(ds + Tagged(origin, out), o) == From(ds, o) + if o == origin then out else [] {
        FromConcat(ds, Tagged(origin, out), o);
        FromTagged(origin, out, o);
      }
    }

    /** The next user turn: all steering, or the follow-ups the queue mode
        allows. Finding neither closes acceptance in the same step. */
    method NextQueued() returns (msgs: seq<Message>, origin: Origin)
      requires Valid() && Accounted([])
      modifies this`steerIn, this`followIn, this`accepting, steering, followUps
      ensures Valid() && AllFromUser(msgs) && Accounted(Tagged(origin, msgs)) && Arrived(old(steerIn), old(followIn))
      ensures var steered := old(steering.messages) + steerIn[|old(steerIn)|..];
              var following := old(followUps.messages) + followIn[|old(followIn)|..];
        && steering.messages == []
        && (steered != [] ==> origin == Steering && msgs == steered && followUps.messages == following)
        && (steered == [] ==> origin == FollowUps && msgs + followUps.messages == following)
        && (steered == [] ==> |msgs| == if w.o.queueAll then |following| else Min(1, |following|))
      ensures accepting == (old(accepting) && msgs != [])
    {
      hide From, UsersOf, MessagesOf, Tagged;
      Clients();
      assert delivered + [] == delivered && Accounted([]);
      msgs := steering.Drain();
      origin := Steering;
      TakenFrom(delivered, Steering, msgs);
      if |msgs| != 0 { return; }
      msgs := TakeFollowUps();
      origin := FollowUps;
      if |msgs| != 0 { return; }
      accepting := false;
    }

    /** The follow-ups of one turn. */
    method TakeFollowUps() returns (msgs: seq<Message>)
      requires Valid() && Accounted([])
      modifies followUps
      ensures Valid() && AllFromUser(msgs) && Accounted(Tagged(FollowUps, msgs)) && followUps != steering
      ensures msgs + followUps.messages == old(followUps.messages)
      ensures |msgs| == if w.o.queueAll then |old(followUps.messages)| else Min(1, |old(followUps.messages)|)
    {
      hide From, UsersOf, MessagesOf, Tagged;
      assert delivered + [] == delivered;
      msgs := followUps.Take(if w.o.queueAll then 0 else 1);
      TakenFrom(delivered, FollowUps, msgs);
      assert forall m :: m in msgs || m in followUps.messages ==> m in msgs + followUps.messages;
    }

    // ----- Undelivered messages -----

    /** Puts messages in the conversation that the store does not have yet. */
    method AddPending(s: Conversation, mark: int, pending: seq<Message>, batch: seq<Message>)
      returns (mark': int, pending': seq<Message>)
      requires Waiting(s.messages, mark, pending) && Ready(w.sound, s.messages, StoredLen(s.messages, mark), w.log)
      requires AllFromUser(batch)
      modifies s
      ensures pending' == pending + batch && Waiting(s.messages, mark', pending')
      ensures Ready(w.sound, s.messages, StoredLen(s.messages, mark'), w.log)
      ensures mark' < 0 ==> pending' == []
    {
      mark', pending' := mark, pending;
      for i := 0 to |batch|
        invariant pending' == pending + batch[..i] && Waiting(s.messages, mark', pending')
        invariant Ready(w.sound, s.messages, StoredLen(s.messages, mark'), w.log)
      {
        if mark' < 0 { mark' := s.Len(); }
        ghost var before := s.messages;
        s.Append(batch[i]);
        pending' := pending' + [batch[i]];
        WaitingGrows(before, mark', pending + batch[..i], batch[i], w.log);
      }
    }

    lemma WaitingGrows(msgs: seq<Message>, mark: nat, pending: seq<Message>, m: Message, log: seq<Entry>)
      requires Waiting(msgs, mark, pending) && Ready(w.sound, msgs, mark, log) && FromUser(m)
      ensures Waiting(msgs + [m], mark, pending + [m]) && Ready(w.sound, msgs + [m], mark, log)
    {
      assert (msgs + [m])[..mark] == msgs[..mark];
    }

    /** Stores the undelivered messages the model has now seen, in order, until
        a write fails. `n` is how many were stored. */
    method StorePending(s: Conversation, stored: nat, pending: seq<Message>, ghost open: seq<Delivery>)
      returns (n: nat, ok: bool)
      requires Valid() && Accounted(open) && MessagesOf(open) == pending
      requires stored + |pending| == |s.messages| && s.messages[stored..] == pending && Ready(w.sound, s.messages, stored, w.log)
      modifies w`log, w`refused, this`delivered
      ensures Valid() && n <= |pending| && Accounted(open[n..]) && (ok <==> n == |pending|)
      ensures w.refused == old(w.refused) + if ok then 0 else 1
      ensures delivered == old(delivered) + open[..n]
      ensures Ready(w.sound, s.messages, stored + n, w.log)
      ensures w.log == old(w.log) + EntriesOf(pending[..n])
      ensures ok ==> Folded(w.log) == Folded(old(w.log)) + AllSpelled(pending)
      ensures PathPending(w.log) == PathPending(old(w.log))
    {
      hide From, UsersOf, Folded, Ready, PathPending, Accounted, AllSpelled, EntriesOf, Storing;
      ok := true;
      n := 0;
      StoringNone(w.log, delivered, pending, open);
      while n < |pending|
        invariant n <= |pending| && ok && w.refused == old(w.refused)
        invariant Valid() && Accounted(open[n..])
        invariant Ready(w.sound, s.messages, stored + n, w.log) && PathPending(w.log) == PathPending(old(w.log))
        invariant Storing(old(w.log), old(delivered), pending, open, n, w.log, delivered)
      {
        ghost var log, ds := w.log, delivered;
        assert s.messages[stored + n] == pending[n] == open[n].message;
        ok := StoreNext(s, stored + n, pending[n], open[n..]);
        if !ok {
          assert delivered == ds;
          StoringIs(old(w.log), old(delivered), pending, open, n, w.log, delivered);
          return;
        }
        assert open[n..][1..] == open[n + 1..];
        StoringMore(old(w.log), old(delivered), pending, open, n, log, ds, w.log, delivered);
        n := n + 1;
      }
      StoringIs(old(w.log), old(delivered), pending, open, n, w.log, delivered);
      assert pending[..n] == pending;
    }

    /** The first `n` of the undelivered messages were stored since. */
    ghost predicate Storing(log0: seq<Entry>, ds0: seq<Delivery>, pending: seq<Message>, open: seq<Delivery>, n: nat,
                            log: seq<Entry>, ds: seq<Delivery>)
      requires n <= |pending| == |open|
    {
      && ds == ds0 + open[..n] && log == log0 + EntriesOf(pending[..n])
      && Folded(log) == Folded(log0) + AllSpelled(pending[..n])
    }

    lemma StoringNone(log: seq<Entry>, ds: seq<Delivery>, pending: seq<Message>, open: seq<Delivery>)
      requires |pending| == |open|
      ensures Storing(log, ds, pending, open, 0, log, ds)
    {
      assert open[..0] == [] && pending[..0] == [] && AllSpelled([]) == [] && EntriesOf([]) == [];
      hide Folded;
    }

    lemma StoringIs(log0: seq<Entry>, ds0: seq<Delivery>, pending: seq<Message>, open: seq<Delivery>, n: nat, log: seq<Entry>, ds: seq<Delivery>)
      requires n <= |pending| == |open|
      ensures Storing(log0, ds0, pending, open, n, log, ds) <==>
        && ds == ds0 + open[..n] && log == log0 + EntriesOf(pending[..n])
        && Folded(log) == Folded(log0) + AllSpelled(pending[..n])
    {
    }

    lemma StoringMore(log0: seq<Entry>, ds0: seq<Delivery>, pending: seq<Message>, open: seq<Delivery>, n: nat,
                      log: seq<Entry>, ds: seq<Delivery>, log': seq<Entry>, ds': seq<Delivery>)
      requires n < |pending| == |open| && Storing(log0, ds0, pending, open, n, log, ds)
      requires ds' == ds + [open[n]] && log' == log + [Msg(Spelled(pending[n]))] && Folded(log') == Folded(log) + [Spelled(pending[n])]
      ensures Storing(log0, ds0, pending, open, n + 1, log', ds')
    {
      hide Folded;
      assert pending[..n + 1] == pending[..n] + [pending[n]] && open[..n + 1] == open[..n] + [open[n]];
      assert EntriesOf(pending[..n + 1]) == EntriesOf(pending[..n]) + [Msg(Spelled(pending[n]))];
      assert AllSpelled(pending[..n + 1]) == AllSpelled(pending[..n]) + [Spelled(pending[n])];
    }

    /** Stores the first of the undelivered messages. */
    method StoreNext(s: Conversation, at: nat, m: Message, ghost open: seq<Delivery>) returns (ok: bool)
      requires Valid() && Accounted(open) && open != [] && at < |s.messages|
      requires open[0].message == m == s.messages[at] && Ready(w.sound, s.messages, at, w.log)
      modifies w`log, w`refused, this`delivered
      ensures Valid() && Accounted(if ok then open[1..] else open) && w.refused == old(w.refused) + if ok then 0 else 1
      ensures delivered == old(delivered) + if ok then [open[0]] else []
      ensures w.log == if ok then old(w.log) + [Msg(Spelled(m))] else old(w.log)
      ensures ok ==> Ready(w.sound, s.messages, at + 1, w.log) && Folded(w.log) == Folded(old(w.log)) + [Spelled(m)]
      ensures PathPending(w.log) == PathPending(old(w.log))
    {
      hide From, UsersOf, Folded, Ready, PathPending;
      ghost var log := w.log;
      StoringOne(s.messages, at, log);
      ok := w.Append(m);
      if !ok { return; }
      FoldedOfAppend(log, Msg(Spelled(m)));
      assert delivered + open == (delivered + [open[0]]) + open[1..];
      delivered := delivered + [open[0]];
      assert MessagesOf(delivered) == MessagesOf(old(delivered)) + [m];
    }

    /** Storing one waiting user message. */
    lemma StoringOne(msgs: seq<Message>, stored: nat, log: seq<Entry>)
      requires Ready(w.sound, msgs, stored, log) && stored < |msgs|
      ensures Ready(w.sound, msgs, stored + 1, log + [Msg(Spelled(msgs[stored]))])
      ensures PathPending(log + [Msg(Spelled(msgs[stored]))]) == PathPending(log)
      ensures UsersOf(log + [Msg(Spelled(msgs[stored]))]) == UsersOf(log) + [msgs[stored]]
    {
      var m := msgs[stored];
      SpelledUser(m);
      MirrorsAppend(msgs, stored, log, m);
      UsersOfAppend(log, Msg(m));
      assert msgs[..stored + 1] == msgs[..stored] + [m];
      PathPendingOfAppend(log, Msg(m));
      if w.sound { PairedAndUsers(msgs[..stored], [m]); }
    }

    /** Puts a turn's own undelivered messages back on their queue, and then its
        steering; clients go on adding behind them. */
    method Requeue(origin: Origin, left: seq<Message>, steeredLeft: seq<Message>)
      requires Valid() && AllFromUser(left) && AllFromUser(steeredLeft)
      modifies this`steerIn, this`followIn, steering, followUps
      ensures Valid()
      ensures old(steerIn) <= steerIn && old(followIn) <= followIn
      ensures steering.messages
        == steeredLeft + (if origin == Steering then left else []) + old(steering.messages) + steerIn[|old(steerIn)|..]
      ensures followUps.messages
        == (if origin == FollowUps then left else []) + old(followUps.messages) + followIn[|old(followIn)|..]
      ensures multiset(left) + multiset(steeredLeft) <= Waits(if origin == Opener then left else [])
    {
      hide From, UsersOf, AllFromUser;
      Clients();
      ghost var steerMid, followMid, queueMid, followQueueMid := steerIn, followIn, steering.messages, followUps.messages;
      UnshiftTo(origin, left);
      Clients();
      ArrivedBehind(old(steerIn), steerMid, steerIn, if origin == Steering then left else [],
                    old(steering.messages), queueMid, steering.messages);
      ArrivedBehind(old(followIn), followMid, followIn, if origin == FollowUps then left else [],
                    old(followUps.messages), followQueueMid, followUps.messages);
      UnshiftTo(Steering, steeredLeft);
      Reassociate(steeredLeft, if origin == Steering then left else [], old(steering.messages), steerIn[|old(steerIn)|..]);
      Bags(steeredLeft, if origin == Steering then left else [], old(steering.messages), steerIn[|old(steerIn)|..]);
      Bags(if origin == FollowUps then left else [], [], old(followUps.messages), followIn[|old(followIn)|..]);
    }

    lemma Bags(a: seq<Message>, b: seq<Message>, c: seq<Message>, d: seq<Message>)
      ensures multiset(a) + multiset(b) <= multiset(a + b + c + d)
      ensures b == [] ==> multiset(a) <= multiset(a + c + d)
    {
      assert b == [] ==> a + b == a;
    }

    lemma Reassociate(a: seq<Message>, b: seq<Message>, c: seq<Message>, d: seq<Message>)
      ensures a + (b + c + d) == a + b + c + d
    {
    }

    /** What arrived before and after messages were put back all stands behind them. */
    lemma ArrivedBehind(in0: seq<Message>, in1: seq<Message>, in2: seq<Message>, own: seq<Message>,
                        q0: seq<Message>, q1: seq<Message>, q2: seq<Message>)
      requires in0 <= in1 <= in2
      requires q1 == q0 + in1[|in0|..]
      requires q2 == (own + q1) + in2[|in1|..] || (own == [] && q2 == q1 + in2[|in1|..])
      ensures q2 == own + q0 + in2[|in0|..]
    {
      assert in1[|in0|..] + in2[|in1|..] == in2[|in0|..];
      assert own == [] ==> own + q0 == q0;
    }

    method UnshiftTo(origin: Origin, msgs: seq<Message>)
      requires Valid() && AllFromUser(msgs)
      modifies steering, followUps
      ensures Valid()
      ensures steering.messages == if origin == Steering then msgs + old(steering.messages) else old(steering.messages)
      ensures followUps.messages == if origin == FollowUps then msgs + old(followUps.messages) else old(followUps.messages)
    {
      hide UsersOf;
      if origin == Steering {
        steering.Unshift(msgs);
      } else if origin == FollowUps {
        followUps.Unshift(msgs);
      }
    }

    lemma LeftFromUser(msgs: seq<Message>, steered: seq<Message>, n: nat)
      requires n <= |msgs| + |steered| && AllFromUser(msgs) && AllFromUser(steered)
      ensures AllFromUser(MessagesLeft(msgs, n)) && AllFromUser(SteeringLeft(msgs, steered, n))
    {
    }

    lemma AllLeft(msgs: seq<Message>, steered: seq<Message>)
      ensures MessagesLeft(msgs, 0) == msgs && SteeringLeft(msgs, steered, 0) == steered
    {
    }

    /** Keeps the durably stored prefix and takes back the rest. */
    method RestoreFrom(s: Conversation, mark: int, n: nat, msgs: seq<Message>, steered: seq<Message>, origin: Origin)
      requires Valid() && AllFromUser(msgs) && AllFromUser(steered)
      requires n <= |msgs| + |steered| == |Batch(origin, msgs, steered)| && -1 <= mark
      requires Accounted(Batch(origin, msgs, steered)[n..])
      requires StoredLen(s.messages, mark) + |msgs| + |steered| == |s.messages|
      requires Ready(w.sound, s.messages, StoredLen(s.messages, mark) + n, w.log)
      modifies s, this`steerIn, this`followIn, steering, followUps
      ensures Valid() && Settled(w.sound, s.messages, w.log) && Balanced()
      ensures Arrived(old(steerIn), old(followIn))
      ensures steering.messages
        == SteeringRestored(origin, msgs, steered, n, old(steering.messages)) + steerIn[|old(steerIn)|..]
      ensures !Inverts(origin, msgs, steered, n) ==> Accounted([])
      ensures n == 0 ==> multiset(msgs) + multiset(steered) <= Waits(if origin == Opener then msgs else [])
    {
      hide From, UsersOf, Batch, Ready, Settled, MessagesLeft, SteeringLeft, AllFromUser, Inverts, Waits;
      TruncatedSettled(s.messages, StoredLen(s.messages, mark) + n, w.log);
      LeftFromUser(msgs, steered, n);
      if n == 0 { AllLeft(msgs, steered); }
      if mark >= 0 { s.Truncate(mark + n); }
      assert s.messages == old(s.messages)[..StoredLen(old(s.messages), mark) + n];
      Requeue(origin, MessagesLeft(msgs, n), SteeringLeft(msgs, steered, n));
      hide SteeringRestored, FollowUpsRestored;
      SteeringBalances(delivered, origin, msgs, steered, n, old(steering.messages), steerIn[|old(steerIn)|..]);
      FollowUpsBalance(delivered, origin, msgs, steered, n, old(followUps.messages), followIn[|old(followIn)|..]);
      assert steerIn == old(steerIn) + steerIn[|old(steerIn)|..];
      assert followIn == old(followIn) + followIn[|old(followIn)|..];
      assert delivered + [] == delivered;
    }

    // ----- Replies and tool calls -----

    /** Records a message in the store and then in the conversation. */
    method Append(s: Conversation, m: Message) returns (ok: bool)
      requires Valid() && Tracks(w.sound, s.messages, w.log) && m.role != User
      modifies s, w`log, w`refused
      ensures Valid() && Tracks(w.sound, s.messages, w.log)
      ensures s.messages == if ok then old(s.messages) + [m] else old(s.messages)
      ensures w.log == if ok then old(w.log) + [Msg(Spelled(m))] else old(w.log)
      ensures w.refused == old(w.refused) + if ok then 0 else 1
    {
      hide Tracks, UsersOf;
      ghost var log := w.log;
      ok := w.Append(m);
      if !ok { return; }
      s.Append(m);
      StoringReply(old(s.messages), log, m);
    }

    lemma StoringReply(msgs: seq<Message>, log: seq<Entry>, m: Message)
      requires Tracks(w.sound, msgs, log) && m.role != User
      ensures Tracks(w.sound, msgs + [m], log + [Msg(Spelled(m))])
      ensures UsersOf(log + [Msg(Spelled(m))]) == UsersOf(log)
    {
      assert (msgs + [m])[..|msgs|] == msgs[..|msgs|];
      MirrorsAppend(msgs + [m], |msgs|, log, m);
      UsersOfAppend(log, Msg(Spelled(m)));
    }

    /** Of the first `i` calls all but `lost` are answered in the log since
        `before`; the others are still open. */
    ghost predicate Answering(before: seq<Entry>, log: seq<Entry>, msgs: seq<Message>, calls: seq<ToolCall>, i: nat, lost: nat)
      requires i <= |calls|
    {
      && before <= log && |log| == |before| + i - lost && AnswersSome(log[|before|..], calls[..i])
      && |PathPending(log)| == |PathPending(before)| - i + lost
      && multiset(Ids(calls)[i..]) <= multiset(PathPending(log))
      && (w.sound && lost == 0 ==> OpenFrom(Some([]), msgs) == Some(Ids(calls)[i..]))
    }

    lemma AnsweringBegins(log: seq<Entry>, msgs: seq<Message>, calls: seq<ToolCall>)
      requires w.sound ==> OpenFrom(Some([]), msgs) == Some(Ids(calls))
      requires multiset(Ids(calls)) <= multiset(PathPending(log))
      ensures Answering(log, log, msgs, calls, 0, 0)
    {
      assert Ids(calls)[0..] == Ids(calls) && log[|log|..] == [];
    }

    lemma AnsweringLost(before: seq<Entry>, log: seq<Entry>, msgs: seq<Message>, calls: seq<ToolCall>, i: nat, lost: nat)
      requires i < |calls| && Answering(before, log, msgs, calls, i, lost)
      ensures Answering(before, log, msgs, calls, i + 1, lost + 1)
    {
      hide PathPending, OpenFrom;
      assert calls[..i + 1] == calls[..i] + [calls[i]];
      AnsweredNext(log[|before|..], calls[..i], Note, calls[i]);
      assert Ids(calls)[i..] == [calls[i].id] + Ids(calls)[i + 1..];
      assert multiset(Ids(calls)[i..]) == multiset{calls[i].id} + multiset(Ids(calls)[i + 1..]);
    }

    lemma AnsweringStored(before: seq<Entry>, log: seq<Entry>, msgs: seq<Message>, calls: seq<ToolCall>, i: nat, lost: nat, m: Message)
      requires i < |calls| && Answering(before, log, msgs, calls, i, lost)
      requires m.role == Tool && m.toolCalls == [] && m.toolCallID == calls[i].id
      ensures Answering(before, log + [Msg(Spelled(m))], msgs + [m], calls, i + 1, lost)
    {
      hide PathPending, OpenFrom, AnswersSome;
      SpelledUser(m);
      ResultBehind(before, log, calls, i, m);
      assert Ids(calls)[i..] == [calls[i].id] + Ids(calls)[i + 1..];
      AnsweringOne(log, m, Ids(calls)[i + 1..]);
      if w.sound && lost == 0 { OpenNext(msgs, calls, i, m); }
    }

    lemma ResultBehind(before: seq<Entry>, log: seq<Entry>, calls: seq<ToolCall>, i: nat, m: Message)
      requires i < |calls| && before <= log && AnswersSome(log[|before|..], calls[..i])
      requires m.role == Tool && m.toolCalls == [] && m.toolCallID == calls[i].id
      ensures AnswersSome((log + [Msg(m)])[|before|..], calls[..i + 1])
    {
      hide AnswersSome;
      assert calls[..i + 1] == calls[..i] + [calls[i]];
      AnsweredNext(log[|before|..], calls[..i], Msg(m), calls[i]);
      assert (log + [Msg(m)])[|before|..] == log[|before|..] + [Msg(m)];
    }

    lemma OpenNext(msgs: seq<Message>, calls: seq<ToolCall>, i: nat, m: Message)
      requires i < |calls| && OpenFrom(Some([]), msgs) == Some(Ids(calls)[i..])
      requires m.role == Tool && m.toolCalls == [] && m.toolCallID == calls[i].id
      ensures OpenFrom(Some([]), msgs + [m]) == Some(Ids(calls)[i + 1..])
    {
      assert Ids(calls)[i..] == [calls[i].id] + Ids(calls)[i + 1..];
      OpenFromAppend(Some([]), msgs, m);
    }

    lemma AnsweringEnds(before: seq<Entry>, log: seq<Entry>, msgs: seq<Message>, calls: seq<ToolCall>, lost: nat)
      requires Answering(before, log, msgs, calls, |calls|, lost)
      ensures AllButLost(before, log, msgs, calls, lost)
    {
      assert calls[..|calls|] == calls && Ids(calls)[|calls|..] == [];
    }

    /** Every call is answered in the log, in order, except `lost` of them: as many
        more calls as that are open on the path. */
    ghost predicate AllButLost(before: seq<Entry>, log: seq<Entry>, msgs: seq<Message>, calls: seq<ToolCall>, lost: nat) {
      && before <= log && |log| == |before| + |calls| - lost && AnswersSome(log[|before|..], calls)
      && |PathPending(log)| == |PathPending(before)| - |calls| + lost
      && (w.sound && lost == 0 ==> Paired(msgs))
    }

    lemma AbandonedRest(before: seq<Entry>, mid: seq<Entry>, log: seq<Entry>, was: seq<Message>, msgs: seq<Message>,
                        calls: seq<ToolCall>, i: nat, lost: nat)
      requires i <= |calls| && Answering(before, mid, was, calls, i, 0) && AllButLost(mid, log, msgs, calls[i..], lost)
      ensures AllButLost(before, log, msgs, calls, lost)
    {
      hide PathPending, Paired, AnswersSome;
      AnsweredBoth(mid[|before|..], calls[..i], log[|mid|..], calls[i..]);
      assert log[|before|..] == mid[|before|..] + log[|mid|..] && calls == calls[..i] + calls[i..];
    }

    lemma RestToAnswer(before: seq<Entry>, log: seq<Entry>, msgs: seq<Message>, calls: seq<ToolCall>, i: nat)
      requires i <= |calls| && Answering(before, log, msgs, calls, i, 0)
      ensures w.sound ==> OpenFrom(Some([]), msgs) == Some(Ids(calls[i..]))
      ensures multiset(Ids(calls[i..])) <= multiset(PathPending(log))
    {
      assert Ids(calls[i..]) == Ids(calls)[i..];
    }

    /** Answers the calls a failed turn never ran. `lost` counts the answers that
        could not be stored. */
    method AbandonToolCalls(s: Conversation, calls: seq<ToolCall>, content: string) returns (lost: nat)
      requires Valid() && Tracks(w.sound, s.messages, w.log)
      requires w.sound ==> OpenFrom(Some([]), s.messages) == Some(Ids(calls))
      requires multiset(Ids(calls)) <= multiset(PathPending(w.log))
      modifies s, w`log, w`refused
      ensures Valid() && Tracks(w.sound, s.messages, w.log)
      ensures AllButLost(old(w.log), w.log, s.messages, calls, lost) && w.refused == old(w.refused) + lost
    {
      hide UsersOf, Tracks, OpenFrom, PathPending, Answering, AllButLost;
      lost := 0;
      AnsweringBegins(w.log, s.messages, calls);
      for i := 0 to |calls|
        invariant Valid() && Tracks(w.sound, s.messages, w.log) && Answering(old(w.log), w.log, s.messages, calls, i, lost)
        invariant w.refused == old(w.refused) + lost
      {
        var ok := AbandonNext(s, calls, i, content, old(w.log), lost);
        if !ok { lost := lost + 1; }
      }
      AnsweringEnds(old(w.log), w.log, s.messages, calls, lost);
    }

    /** Answers the next of the calls, or loses that answer too. */
    method AbandonNext(s: Conversation, calls: seq<ToolCall>, i: nat, content: string, ghost before: seq<Entry>, ghost lost: nat)
      returns (ok: bool)
      requires Valid() && Tracks(w.sound, s.messages, w.log) && i < |calls|
      requires Answering(before, w.log, s.messages, calls, i, lost)
      modifies s, w`log, w`refused
      ensures Valid() && Tracks(w.sound, s.messages, w.log) && w.refused == old(w.refused) + if ok then 0 else 1
      ensures Answering(before, w.log, s.messages, calls, i + 1, if ok then lost else lost + 1)
    {
      hide UsersOf, Tracks, OpenFrom, PathPending, Answering;
      ghost var msgs, log := s.messages, w.log;
      var m := ToolResult(calls[i].id, content, true);
      ok := Append(s, m);
      if ok {
        AnsweringStored(before, log, msgs, calls, i, lost, m);
      } else {
        AnsweringLost(before, log, msgs, calls, i, lost);
      }
    }

    lemma AnsweringOne(log: seq<Entry>, m: Message, rest: seq<string>)
      requires m.role == Tool && m.toolCalls == []
      requires multiset([m.toolCallID] + rest) <= multiset(PathPending(log))
      ensures |PathPending(log + [Msg(Spelled(m))])| == |PathPending(log)| - 1
      ensures multiset(rest) <= multiset(PathPending(log + [Msg(Spelled(m))]))
    {
      var pending := PathPending(log);
      PathPendingOfAppend(log, Msg(Spelled(m)));
      SpelledUser(m);
      WithoutCounts(pending, m.toolCallID);
      assert multiset([m.toolCallID] + rest) == multiset{m.toolCallID} + multiset(rest);
      assert |multiset(Without(pending, m.toolCallID))| == |multiset(pending)| - 1;
    }

    /** Runs one call and stores its result; not at all once cancelled. */
    method RunTool(s: Conversation, c: ToolCall) returns (stop: Option<Cause>, ghost result: Option<Message>)
      requires Valid() && Tracks(w.sound, s.messages, w.log)
      modifies s, w`log, w`refused, w`cancelled, w`ran, w`broke
      ensures Valid() && Tracks(w.sound, s.messages, w.log)
      ensures w.ran == old(w.ran) + if result.Some? then [result.value] else []
      ensures result.Some? ==> result.value.role == Tool && result.value.toolCalls == [] && result.value.toolCallID == c.id
      ensures result.Some? <==> stop.None? || stop.value.WriteRefused?
      ensures stop.Some? ==> Halts(stop.value)
      ensures w.refused == old(w.refused) + if stop == Some(WriteRefused) then 1 else 0
      ensures w.broke == old(w.broke) + if stop == Some(ToolBroke) then 1 else 0
      ensures s.messages == if stop.None? then old(s.messages) + [result.value] else old(s.messages)
      ensures w.log == if stop.None? then old(w.log) + [Msg(Spelled(result.value))] else old(w.log)
    {
      hide UsersOf, Tracks;
      result := None;
      var stopped := w.Cancelled();
      if stopped { return Some(Cancelled), result; }
      var r := w.CallTool(c);
      result := r;
      if r.None? { return Some(ToolBroke), result; }
      var ok := Append(s, r.value);
      stop := if ok then None else Some(WriteRefused);
    }

    /** What can end a turn while its calls are run. */
    ghost predicate Halts(cause: Cause)
      reads w`cancelled
    {
      cause.WriteRefused? || cause.ToolBroke? || (cause.Cancelled? && w.cancelled)
    }

    lemma HaltsStops(since: nat, unwritten: nat, cause: Cause, waits: multiset<Message>)
      requires Halts(cause)
      ensures Stopped(since, unwritten, cause, waits)
    {
    }

    /** Runs a reply's calls in order and stores each result; whatever stops it,
        the calls that are left are answered as abandoned. */
    method RunTools(s: Conversation, calls: seq<ToolCall>) returns (err: Option<RunError>, ghost results: seq<Message>)
      requires Valid() && Tracks(w.sound, s.messages, w.log)
      requires w.sound ==> OpenFrom(Some([]), s.messages) == Some(Ids(calls))
      requires multiset(Ids(calls)) <= multiset(PathPending(w.log))
      modifies s, w`log, w`refused, w`cancelled, w`ran, w`broke
      ensures Valid() && Tracks(w.sound, s.messages, w.log)
      ensures AllButLost(old(w.log), w.log, s.messages, calls, Lost(err))
      ensures Counted(old(w.refused), old(w.broke), err) && (err.Some? ==> Halts(err.value.cause))
      ensures w.ran == old(w.ran) + results && Stores(old(w.log), w.log, results, err.None?)
    {
      hide UsersOf, Tracks, OpenFrom, PathPending, Stores, Holds, Answering, AllButLost, Halts;
      AnsweringBegins(w.log, s.messages, calls);
      HoldsNothing(w.log);
      results := [];
      for i := 0 to |calls|
        invariant Valid() && Tracks(w.sound, s.messages, w.log) && Answering(old(w.log), w.log, s.messages, calls, i, 0)
        invariant Ran(old(w.ran), results) && Holds(old(w.log), w.log, results)
        invariant w.refused == old(w.refused) && w.broke == old(w.broke)
      {
        ghost var stored, log := results, w.log;
        var stop;
        stop, results := RunNext(s, calls, i, old(w.log), old(w.ran), results);
        if stop.Some? {
          var lost := GiveUp(s, calls, i, old(w.log));
          StoresMost(old(w.log), log, w.log, stored, results);
          err := Some(RunError(stop.value, lost));
          return;
        }
      }
      AnsweringEnds(old(w.log), w.log, s.messages, calls, 0);
      StoresWhole(old(w.log), w.log, results);
      err := None;
    }

    /** The tools gave these results since. */
    ghost predicate Ran(before: seq<Message>, results: seq<Message>)
      reads w`ran
    {
      w.ran == before + results
    }

    /** Runs the next of the calls. */
    method RunNext(s: Conversation, calls: seq<ToolCall>, i: nat, ghost before: seq<Entry>, ghost ran: seq<Message>,
                   ghost stored: seq<Message>)
      returns (stop: Option<Cause>, ghost results: seq<Message>)
      requires Valid() && Tracks(w.sound, s.messages, w.log) && i < |calls|
      requires Answering(before, w.log, s.messages, calls, i, 0) && Ran(ran, stored) && Holds(before, w.log, stored)
      modifies s, w`log, w`refused, w`cancelled, w`ran, w`broke
      ensures Valid() && Tracks(w.sound, s.messages, w.log) && Ran(ran, results)
      ensures stop.None? ==> Answering(before, w.log, s.messages, calls, i + 1, 0) && Holds(before, w.log, results)
      ensures stop.Some? ==> Answering(before, w.log, s.messages, calls, i, 0) && w.log == old(w.log) && Halts(stop.value)
      ensures stored <= results && |results| <= |stored| + 1
      ensures w.refused == old(w.refused) + if stop == Some(WriteRefused) then 1 else 0
      ensures w.broke == old(w.broke) + if stop == Some(ToolBroke) then 1 else 0
    {
      hide UsersOf, Tracks, OpenFrom, PathPending, Holds, Answering, Halts;
      ghost var msgs, log := s.messages, w.log;
      ghost var result;
      stop, result := RunTool(s, calls[i]);
      results := if result.Some? then stored + [result.value] else stored;
      assert w.ran == ran + results;
      if stop.None? {
        AnsweringStored(before, log, msgs, calls, i, 0, result.value);
        HoldsNext(before, log, stored, result.value);
      }
    }

    /** Answers what is left of the calls as abandoned. */
    method GiveUp(s: Conversation, calls: seq<ToolCall>, i: nat, ghost before: seq<Entry>) returns (lost: nat)
      requires Valid() && Tracks(w.sound, s.messages, w.log)
      requires i <= |calls| && Answering(before, w.log, s.messages, calls, i, 0)
      modifies s, w`log, w`refused
      ensures Valid() && Tracks(w.sound, s.messages, w.log) && old(w.log) <= w.log
      ensures AllButLost(before, w.log, s.messages, calls, lost) && w.refused == old(w.refused) + lost
    {
      hide UsersOf, Tracks, OpenFrom, PathPending, Answering, AllButLost;
      ghost var msgs, log := s.messages, w.log;
      RestToAnswer(before, log, msgs, calls, i);
      lost := AbandonToolCalls(s, calls[i..], "the run stopped before this tool call finished");
      AbandonedRest(before, log, w.log, msgs, s.messages, calls, i, lost);
      BeforeRest(log, w.log, s.messages, calls[i..], lost);
    }

    lemma BeforeRest(before: seq<Entry>, log: seq<Entry>, msgs: seq<Message>, calls: seq<ToolCall>, lost: nat)
      requires AllButLost(before, log, msgs, calls, lost)
      ensures before <= log
    {
    }

    /** Since `before` the log grew by these results and nothing else. */
    ghost predicate Holds(before: seq<Entry>, log: seq<Entry>, results: seq<Message>) {
      log == before + EntriesOf(results)
    }

    lemma HoldsNothing(log: seq<Entry>)
      ensures Holds(log, log, [])
    {
    }

    lemma HoldsNext(before: seq<Entry>, log: seq<Entry>, results: seq<Message>, m: Message)
      requires Holds(before, log, results)
      ensures Holds(before, log + [Msg(Spelled(m))], results + [m])
    {
      assert EntriesOf(results + [m]) == EntriesOf(results) + [Msg(Spelled(m))];
    }

    /** The log grew by the results tools gave, in order: by nothing else when the
        calls all ran, and by all but perhaps the last before what was abandoned. */
    ghost predicate Stores(before: seq<Entry>, log: seq<Entry>, results: seq<Message>, all: bool) {
      if all then Holds(before, log, results)
      else results == [] || before + EntriesOf(results[..|results| - 1]) <= log
    }

    lemma StoresWhole(before: seq<Entry>, log: seq<Entry>, results: seq<Message>)
      requires Holds(before, log, results)
      ensures Stores(before, log, results, true)
    {
    }

    lemma StoresMost(before: seq<Entry>, mid: seq<Entry>, log: seq<Entry>, stored: seq<Message>, results: seq<Message>)
      requires Holds(before, mid, stored) && mid <= log && stored <= results && |results| <= |stored| + 1
      ensures Stores(before, log, results, false)
    {
      if results != [] {
        var some := results[..|results| - 1];
        assert some == stored[..|some|];
        assert before + EntriesOf(some) == (before + EntriesOf(stored))[..|before| + |some|];
      }
    }

    // ----- One turn -----

    lemma CompactsKeepsUsers(before: seq<Entry>, after: seq<Entry>, n: nat)
      requires Compacts(before, after, n)
      ensures UsersOf(after) == UsersOf(before)
      decreases |after|
    {
      if |after| > |before| {
        CompactsKeepsUsers(before, after[..|after| - 1], n);
      } else {
        assert after == before;
      }
    }

    /** Calls the model unless the run was cancelled. What is stored, and what
        waits, stay in step, and only compactions are stored meanwhile. */
    method Ask(s: Conversation, mark: int, measured: Usage, pending: seq<Message>, ghost turn: nat,
               ghost msgs: seq<Message>, ghost steered: seq<Message>, ghost origin: Origin, ghost start: nat)
      returns (r: CallResult, mark': int, measured': Usage)
      requires InStep(w, s.messages, mark, pending) && Valid()
      requires pending == msgs + steered && Accounted(Batch(origin, msgs, steered)) && steering.messages == []
      requires Heard(asks, delivered, w.sent, start)
      requires w.o.maxOutput.Some? ==> w.o.maxOutput.value >= 1
      requires turn <= |w.sent| && measured == UsageSince(w.sent, turn)
      modifies s, w`cancelled, w`replies, w`sent, w`runSends, w`log, w`compactions, w`unwritten, this`asks
      ensures Heard(asks, delivered, w.sent, start) && CarryFirst(pending, w.sent, |old(w.sent)|)
      ensures Accounted(Batch(origin, msgs, steered))
      ensures asks == old(asks) + [Asking(|old(w.sent)|, |w.sent|, |delivered|, steerIn, pending)]
      ensures InStep(w, s.messages, mark', pending) && Valid() && measured' == UsageSince(w.sent, turn)
      ensures w.replies <= old(w.replies) && (r.Answered? ==> w.replies < old(w.replies))
      ensures old(w.log) <= w.log && old(w.sent) <= w.sent && PathPending(w.log) == PathPending(old(w.log))
      ensures r.Answered? ==> Sends(w, |old(w.sent)|, s.messages, pending, r.sent, r.response)
      ensures r.Answered? ==> AllSpelled(r.sent) == AllPrepared(w.o, Folded(w.log) + AllSpelled(pending))
      ensures r.CallFailed? ==> Stopped(|old(w.sent)|, old(w.unwritten), r.cause, multiset(pending))
      ensures r.CallFailed? ==> !r.cause.WriteRefused? && !r.cause.ToolBroke?
      ensures old(w.unwritten) <= w.unwritten
    {
      hide From, UsersOf, MessagesOf, Folded, InStep, PathPending, Sends, UsageSince, Explains, Within, Stopped, AllSpelled,
        AllPrepared, OverThreshold, Overflowed, Attempts, Hears, Heard, Batch;
      ghost var first := w.Now();
      assert steerIn == From(delivered + Batch(origin, msgs, steered), Steering);
      StillInStep(s.messages, mark, pending);
      var stopped := w.Cancelled();
      r, mark', measured' := CallFailed(Cancelled), mark, measured;
      StillInStep(s.messages, mark, pending);
      if stopped {
        WasStopped(|first.sent|, first.unwritten, multiset(pending));
        BatchHears(delivered, steerIn, origin, msgs, steered, w.sent, |first.sent|);
        HeardMore(asks, delivered, first.sent, w.sent, start, Asking(|first.sent|, |w.sent|, |delivered|, steerIn, pending));
        asks := asks + [Asking(|first.sent|, |w.sent|, |delivered|, steerIn, pending)];
        return;
      }
      r, mark', measured' := CallModel(w, s, mark, measured, pending, turn);
      OnlyCompacted(first.(cancelled := stopped), w.Now(), 2, 2 * Attempts(w.o), pending);
      if r.CallFailed? { StopsFor(|first.sent|, first.unwritten, s.messages, mark', pending, r.cause); }
      BatchHears(delivered, steerIn, origin, msgs, steered, w.sent, |first.sent|);
      HeardMore(asks, delivered, first.sent, w.sent, start, Asking(|first.sent|, |w.sent|, |delivered|, steerIn, pending));
      asks := asks + [Asking(|first.sent|, |w.sent|, |delivered|, steerIn, pending)];
    }

    lemma StillInStep(msgs: seq<Message>, mark: int, pending: seq<Message>)
      ensures InStep(w, msgs, mark, pending) <==>
        w.Valid() && Waiting(msgs, mark, pending) && Ready(w.sound, msgs, StoredLen(msgs, mark), w.log)
    {
    }

    lemma WasStopped(since: nat, unwritten: nat, waits: multiset<Message>)
      requires w.cancelled
      ensures Stopped(since, unwritten, Cancelled, waits)
    {
    }

    lemma OnlyCompacted(a: Moment, b: Moment, n: nat, k: nat, pending: seq<Message>)
      requires Within(a, b, n, k, pending)
      ensures a.log <= b.log && a.sent <= b.sent && b.replies <= a.replies && a.unwritten <= b.unwritten
      ensures UsersOf(b.log) == UsersOf(a.log) && PathPending(b.log) == PathPending(a.log)
      ensures forall i :: |a.sent| <= i < |b.sent| && b.sent[i].call.purpose.ForRun? ==> b.sent[i].call.purpose.pending == pending
    {
      CompactsKeepsUsers(a.log, b.log, b.compactions - a.compactions);
      CompactsKeepsPending(a.log, b.log, b.compactions - a.compactions);
    }

    /** Steers, sends the conversation and, once the model has answered, stores
        what it was sent. When any of it fails, what is not stored is taken back. */
    method Exchange(s: Conversation, mark: int, measured: Usage, msgs: seq<Message>, origin: Origin, ghost turn: nat,
                    ghost start: nat)
      returns (r: CallResult, measured': Usage, ghost stored: nat)
      requires w.Valid() && Valid() && AllFromUser(msgs)
      requires w.o.maxOutput.Some? ==> w.o.maxOutput.value >= 1
      requires Waiting(s.messages, mark, msgs) && Ready(w.sound, s.messages, StoredLen(s.messages, mark), w.log)
      requires Accounted(Tagged(origin, msgs)) && Heard(asks, delivered, w.sent, start)
      requires turn <= |w.sent| && measured == UsageSince(w.sent, turn)
      modifies s, w`cancelled, w`replies, w`sent, w`runSends, w`log, w`refused, w`compactions, w`unwritten, w`records
      modifies this`steerIn, this`followIn, this`delivered, this`asks, steering, followUps
      ensures Heard(asks, delivered, w.sent, start)
      ensures CarryFirst(msgs + old(steering.messages), w.sent, |old(w.sent)|)
      ensures w.Valid() && Valid() && Settled(w.sound, s.messages, w.log) && Arrived(old(steerIn), old(followIn))
      ensures w.replies <= old(w.replies) && (r.Answered? ==> w.replies < old(w.replies))
      ensures Balanced() && measured' == UsageSince(w.sent, turn)
      ensures r.Answered? || origin != Steering || msgs == [] ==> Accounted([])
      ensures stored <= |msgs| && (r.Answered? ==> stored == |msgs|)
      ensures From(delivered, Opener) == From(old(delivered), Opener) + if origin == Opener then msgs[..stored] else []
      ensures old(w.log) <= w.log && old(w.sent) <= w.sent && PathPending(w.log) == PathPending(old(w.log))
      ensures if r.Answered? then Recorded(old(w.records), |old(w.sent)|, turn, r) else w.records == old(w.records)
      ensures old(w.unwritten) <= w.unwritten
      ensures w.refused == old(w.refused) + if r.CallFailed? && r.cause.WriteRefused? then 1 else 0
      ensures r.CallFailed? ==>
        !r.cause.ToolBroke? && Stopped(|old(w.sent)|, old(w.unwritten), r.cause, Waits(if origin == Opener then msgs else []))
    {
      hide From, UsersOf, Folded, Ready, Settled, World.Valid, WellFormed, Accounted, Balanced, PathPending, Sends, Recorded,
        UsageSince, Stopped, Waiting, InStep, AllFromUser, StoredLen, MessagesOf, Waits, AllSpelled, AllPrepared, Tagged, Batch,
        Heard, CarryFirst;
      var steered, mark', pending' := SteerIn(s, mark, msgs, origin);
      stored := 0;
      r, mark', measured' := Ask(s, mark', measured, pending', turn, msgs, steered, origin, start);
      CarriesMore(msgs + old(steering.messages), pending', w.sent, |old(w.sent)|);
      if r.CallFailed? {
        TakeBack(s, mark', pending', msgs, steered, origin, r.cause, |old(w.sent)|, old(w.unwritten));
        assert msgs[..0] == [];
        NoMore(From(delivered, Opener), From(old(delivered), Opener), if origin == Opener then msgs[..stored] else []);
        return;
      }
      var ok;
      ghost var before := delivered;
      ok, stored := StoreSent(s, mark', pending', msgs, steered, origin, r, |old(w.sent)|, turn);
      StillHeard(asks, before, delivered, w.sent, start);
      if !ok {
        r := CallFailed(WriteRefused);
        HaltsStops(|old(w.sent)|, old(w.unwritten), r.cause, Waits(if origin == Opener then msgs else []));
      }
    }

    lemma CarriesMore(first: seq<Message>, pending: seq<Message>, sent: seq<Sent>, at: nat)
      requires first <= pending && CarryFirst(pending, sent, at)
      ensures CarryFirst(first, sent, at)
    {
    }

    lemma NoMore(after: seq<Message>, before: seq<Message>, none: seq<Message>)
      requires after == before && none == []
      ensures after == before + none
    {
    }

    /** The steering that has come joins what the turn is to deliver. */
    method SteerIn(s: Conversation, mark: int, msgs: seq<Message>, origin: Origin)
      returns (steered: seq<Message>, mark': int, pending: seq<Message>)
      requires w.Valid() && Valid() && Waiting(s.messages, mark, msgs) && Ready(w.sound, s.messages, StoredLen(s.messages, mark), w.log)
      requires Accounted(Tagged(origin, msgs))
      modifies s, this`steerIn, this`followIn, steering, followUps
      ensures Valid() && InStep(w, s.messages, mark', pending) && AllFromUser(steered)
      ensures pending == msgs + steered && pending == MessagesOf(Batch(origin, msgs, steered))
      ensures Accounted(Batch(origin, msgs, steered)) && Arrived(old(steerIn), old(followIn))
      ensures steering.messages == [] && old(steering.messages) <= steered
    {
      hide From, UsersOf, Ready, World.Valid, Batch, Accounted, Waiting;
      steered := DrainSteering(Tagged(origin, msgs));
      BatchIs(origin, msgs, steered);
      mark', pending := AddPending(s, mark, msgs, steered);
      StillInStep(s.messages, mark', pending);
    }

    /** After a call that failed everything it carried goes back. */
    method TakeBack(s: Conversation, mark: int, pending: seq<Message>, msgs: seq<Message>, steered: seq<Message>, origin: Origin,
                    cause: Cause, ghost since: nat, ghost unwritten: nat)
      requires Valid() && InStep(w, s.messages, mark, pending) && AllFromUser(msgs) && AllFromUser(steered)
      requires pending == msgs + steered && Accounted(Batch(origin, msgs, steered))
      requires Stopped(since, unwritten, cause, multiset(pending))
      modifies s, this`steerIn, this`followIn, steering, followUps
      ensures Valid() && w.Valid() && Settled(w.sound, s.messages, w.log) && Balanced() && Arrived(old(steerIn), old(followIn))
      ensures origin != Steering || msgs == [] ==> Accounted([])
      ensures Stopped(since, unwritten, cause, Waits(if origin == Opener then msgs else []))
    {
      hide From, UsersOf, Ready, Settled, World.Valid, Batch, Accounted, Balanced, Waiting, Stopped, Inverts, InStep, AllFromUser;
      StillInStep(s.messages, mark, pending);
      BatchIs(origin, msgs, steered);
      WaitingLengths(s.messages, mark, pending, w.log);
      RestoreFrom(s, mark, 0, msgs, steered, origin);
      assert multiset(pending) == multiset(msgs) + multiset(steered);
      StoppedFrom(since, unwritten, since, unwritten, cause, multiset(pending), Waits(if origin == Opener then msgs else []));
    }

    /** The answered call was recorded, as the last one sent, with the log that
        holds just what it sent. */
    ghost predicate Recorded(before: seq<CallRecord>, since: nat, turn: nat, r: CallResult)
      reads w`records, w`sent, w`log
    {
      && r.Answered? && turn <= since < |w.sent|
      && w.records == before + [CallRecord(w.log, r.sent, |w.sent| - 1, turn)]
      && Judged(w.sent[|w.sent| - 1].outcome) == Attempt.Answered(r.response)
    }

    /** The model has seen the pending messages: they are stored, and the call is
        recorded. When a write fails, what is not stored is taken back. */
    method StoreSent(s: Conversation, mark: int, pending: seq<Message>, msgs: seq<Message>, steered: seq<Message>,
                     origin: Origin, r: CallResult, ghost since: nat, ghost turn: nat)
      returns (ok: bool, ghost stored: nat)
      requires Valid() && AllFromUser(msgs) && AllFromUser(steered) && pending == msgs + steered
      requires InStep(w, s.messages, mark, pending)
      requires Accounted(Batch(origin, msgs, steered)) && turn <= since
      requires r.Answered? && Sends(w, since, s.messages, pending, r.sent, r.response)
      requires AllSpelled(r.sent) == AllPrepared(w.o, Folded(w.log) + AllSpelled(pending))
      modifies s, w`log, w`refused, w`records, this`steerIn, this`followIn, this`delivered, steering, followUps
      ensures w.Valid() && Valid() && Settled(w.sound, s.messages, w.log) && Arrived(old(steerIn), old(followIn))
      ensures Balanced() && (ok || origin != Steering || msgs == [] ==> Accounted([])) && old(delivered) <= delivered
      ensures stored <= |msgs| && (ok ==> stored == |msgs|)
      ensures From(delivered, Opener) == From(old(delivered), Opener) + if origin == Opener then msgs[..stored] else []
      ensures old(w.log) <= w.log && PathPending(w.log) == PathPending(old(w.log))
      ensures if ok then Recorded(old(w.records), since, turn, r) else w.records == old(w.records)
      ensures w.refused == old(w.refused) + if ok then 0 else 1
    {
      hide From, UsersOf, Folded, Ready, Settled, World.Valid, Batch, WellFormed, Inverts, Accounted, Balanced, PathPending,
        Sends, Rebuilds, Recorded, InStep;
      ghost var called, all := w.log, s.messages;
      StillInStep(s.messages, mark, pending);
      BatchIs(origin, msgs, steered);
      LastSent(since, all, pending, r);
      WaitingLengths(s.messages, mark, pending, w.log);
      assert Batch(origin, msgs, steered)[0..] == Batch(origin, msgs, steered);
      var n;
      n, ok := StorePending(s, StoredLen(s.messages, mark), pending, Batch(origin, msgs, steered));
      BatchTaken(old(delivered), origin, msgs, steered, n);
      stored := Min(n, |msgs|);
      if !ok {
        RestoreFrom(s, mark, n, msgs, steered, origin);
        return;
      }
      assert Batch(origin, msgs, steered)[n..] == [];
      AccountedIsBalanced();
      SettledReady(w.sound, s.messages, w.log);
      SentRebuilds(w.o, w.sent, all, called, pending, r, w.log, turn);
      w.Record(r.sent, turn);
      IsRecorded(old(w.records), since, turn, r);
    }

    lemma LastSent(since: nat, msgs: seq<Message>, pending: seq<Message>, r: CallResult)
      requires r.Answered? && Sends(w, since, msgs, pending, r.sent, r.response)
      ensures since < |w.sent| && w.sent[|w.sent| - 1].call.purpose == ForRun(msgs, w.log, pending)
      ensures w.sent[|w.sent| - 1].call.request.messages == r.sent
      ensures Judged(w.sent[|w.sent| - 1].outcome) == Attempt.Answered(r.response)
    {
    }

    lemma IsRecorded(before: seq<CallRecord>, since: nat, turn: nat, r: CallResult)
      requires r.Answered? && turn <= since < |w.sent|
      requires w.records == before + [CallRecord(w.log, r.sent, |w.sent| - 1, turn)]
      requires Judged(w.sent[|w.sent| - 1].outcome) == Attempt.Answered(r.response)
      ensures Recorded(before, since, turn, r)
    {
    }

    lemma BatchIs(origin: Origin, msgs: seq<Message>, steered: seq<Message>)
      ensures Batch(origin, msgs, steered) == Tagged(origin, msgs) + Tagged(Steering, steered)
      ensures MessagesOf(Batch(origin, msgs, steered)) == msgs + steered
      ensures Batch(origin, msgs, steered)[0..] == Batch(origin, msgs, steered)
      ensures |Batch(origin, msgs, steered)| == |msgs| + |steered|
      ensures msgs == [] || steered == [] || origin != Steering ==> !Inverts(origin, msgs, steered, 0)
    {
    }

    lemma BatchFirst(origin: Origin, msgs: seq<Message>, steered: seq<Message>, n: nat)
      requires n <= |msgs| + |steered| == |Batch(origin, msgs, steered)|
      ensures Batch(origin, msgs, steered)[..n]
        == Tagged(origin, msgs[..Min(n, |msgs|)]) + Tagged(Steering, steered[..Max(n - |msgs|, 0)])
    {
    }

    lemma BatchTaken(ds: seq<Delivery>, origin: Origin, msgs: seq<Message>, steered: seq<Message>, n: nat)
      requires n <= |msgs| + |steered| == |Batch(origin, msgs, steered)|
      ensures From(ds + Batch(origin, msgs, steered)[..n], Opener)
        == From(ds, Opener) + if origin == Opener then msgs[..Min(n, |msgs|)] else []
      ensures msgs == [] || origin != Steering ==> !Inverts(origin, msgs, steered, n)
    {
      var a, b := Tagged(origin, msgs[..Min(n, |msgs|)]), Tagged(Steering, steered[..Max(n - |msgs|, 0)]);
      BatchFirst(origin, msgs, steered, n);
      hide Batch, From, Tagged;
      FromConcat(ds, a + b, Opener);
      FromConcat(a, b, Opener);
      FromTagged(origin, msgs[..Min(n, |msgs|)], Opener);
      FromTagged(Steering, steered[..Max(n - |msgs|, 0)], Opener);
    }

    lemma WaitingLengths(msgs: seq<Message>, mark: int, pending: seq<Message>, log: seq<Entry>)
      requires Waiting(msgs, mark, pending)
      ensures -1 <= mark && StoredLen(msgs, mark) + |pending| == |msgs| && msgs[StoredLen(msgs, mark)..] == pending
    {
    }

    lemma TruncatedSettled(msgs: seq<Message>, stored: nat, log: seq<Entry>)
      requires stored <= |msgs| && Ready(w.sound, msgs, stored, log)
      ensures Settled(w.sound, msgs[..stored], log)
    {
      assert msgs[..stored][..stored] == msgs[..stored];
    }

    /** Stores a reply and runs the calls it asks for. `more` says the model is
        to be asked again. An empty reply is not stored; any other is the first
        thing stored, unless that write fails, and its calls' results follow. */
    method ActOn(s: Conversation, reply: Message) returns (more: bool, err: Option<RunError>)
      requires Valid() && Settled(w.sound, s.messages, w.log) && reply.role == Assistant
      modifies s, w`log, w`refused, w`cancelled, w`ran, w`broke
      ensures Valid() && Tracks(w.sound, s.messages, w.log) && (w.sound && Lost(err) == 0 ==> Paired(s.messages))
      ensures |PathPending(w.log)| == |PathPending(old(w.log))| + Lost(err)
      ensures old(w.log) <= w.log && old(w.ran) <= w.ran
      ensures Counted(old(w.refused), old(w.broke), err) && (err.Some? ==> Halts(err.value.cause))
      ensures reply.content == "" && reply.reasoning == "" && reply.toolCalls == [] ==>
        w.log == old(w.log) && w.ran == old(w.ran) && err.None?
      ensures (reply.content != "" || reply.reasoning != "" || reply.toolCalls != []) && w.log == old(w.log) ==>
        w.ran == old(w.ran) && err == Some(RunError(WriteRefused, 0))
      ensures (reply.content != "" || reply.reasoning != "" || reply.toolCalls != []) && w.log != old(w.log) ==>
        && |w.log| == |old(w.log)| + 1 + |reply.toolCalls| - Lost(err)
        && w.log[|old(w.log)|] == Msg(Spelled(reply)) && AnswersSome(w.log[|old(w.log)| + 1..], reply.toolCalls)
        && Stores(old(w.log) + [Msg(Spelled(reply))], w.log, w.ran[|old(w.ran)|..], err.None?)
      ensures more <==> err.None? && reply.toolCalls != []
    {
      hide From, UsersOf, Tracks, Paired, OpenFrom, PathPending, AnswersSome, Stores, AllButLost;
      more, err := false, None;
      if IsEmpty(reply) { return; }
      ghost var before, log := s.messages, w.log;
      var ok := Append(s, reply);
      if !ok { return false, Some(RunError(WriteRefused, 0)); }
      AskingOpens(before, log, reply);
      assert w.log[|log| + 1..] == [];
      if reply.toolCalls == [] {
        NoneAnswered();
        HoldsNothing(w.log);
        assert w.ran[|old(w.ran)|..] == [];
        StoresWhole(w.log, w.log, []);
        return false, None;
      }
      ghost var asked := w.log;
      ghost var results;
      err, results := RunTools(s, reply.toolCalls);
      assert w.ran[|old(w.ran)|..] == results;
      AnsweredBehind(log, asked, w.log, s.messages, reply, Lost(err));
      more := err.None?;
    }

    lemma NoneAnswered()
      ensures AnswersSome([], [])
    {
    }

    lemma AnsweredBehind(before: seq<Entry>, asked: seq<Entry>, log: seq<Entry>, msgs: seq<Message>, reply: Message, lost: nat)
      requires asked == before + [Msg(Spelled(reply))] && AllButLost(asked, log, msgs, reply.toolCalls, lost)
      requires |PathPending(asked)| == |PathPending(before)| + |reply.toolCalls|
      ensures before <= log && log != before && |log| == |before| + 1 + |reply.toolCalls| - lost
      ensures log[|before|] == Msg(Spelled(reply)) && AnswersSome(log[|before| + 1..], reply.toolCalls)
      ensures |PathPending(log)| == |PathPending(before)| + lost && (w.sound && lost == 0 ==> Paired(msgs))
    {
      hide PathPending, Paired;
      SomeAtMost(log[|asked|..], reply.toolCalls);
      assert log[|before|] == asked[|before|];
      hide AnswersSome;
    }

    /** A stored reply opens its calls, in the conversation and on the path. */
    lemma AskingOpens(msgs: seq<Message>, log: seq<Entry>, reply: Message)
      requires reply.role == Assistant
      ensures Paired(msgs) ==> OpenFrom(Some([]), msgs + [reply]) == Some(Ids(reply.toolCalls))
      ensures Paired(msgs) && reply.toolCalls == [] ==> Paired(msgs + [reply])
      ensures var now := PathPending(log + [Msg(Spelled(reply))]);
        |now| == |PathPending(log)| + |reply.toolCalls| && multiset(Ids(reply.toolCalls)) <= multiset(now)
    {
      OpenFromAppend(Some([]), msgs, reply);
      PathPendingOfAppend(log, Msg(Spelled(reply)));
      assert Ids(Spelled(reply).toolCalls) == Ids(reply.toolCalls);
    }

    /** One turn: deliver `msgs`, then alternate model calls and tool calls until
        the model asks for no more. Whatever ends it, the conversation mirrors the
        log, as many more calls are left open as answers were lost, and every
        recorded call but perhaps the last was acted on in full. */
    method Turn(s: Conversation, msgs: seq<Message>, origin: Origin, ghost start: nat) returns (err: Option<RunError>, ghost stored: nat)
      requires w.Valid() && Valid() && Settled(w.sound, s.messages, w.log) && AllFromUser(msgs)
      requires w.o.maxOutput.Some? ==> w.o.maxOutput.value >= 1
      requires Accounted(Tagged(origin, msgs))
      requires Heard(asks, delivered, w.sent, start)
      modifies s, w, this`steerIn, this`followIn, this`delivered, this`asks, steering, followUps
      ensures Heard(asks, delivered, w.sent, start)
      ensures w.Valid() && Valid() && Keeps(w.sound, old(w.log), s.messages, w.log, err)
      ensures w.replies <= old(w.replies) && (err.None? ==> w.replies < old(w.replies))
      ensures (err.None? || origin != Steering ==> Accounted([])) && Balanced() && Arrived(old(steerIn), old(followIn))
      ensures stored <= |msgs| && (err.None? ==> stored == |msgs|)
      ensures From(delivered, Opener) == From(old(delivered), Opener) + if origin == Opener then msgs[..stored] else []
      ensures Onward(old(w.log), old(w.sent), old(w.records), w.log, w.sent, w.records, err.Some?)
      ensures err.None? ==> |w.records| > |old(w.records)| && AsksNothing(w.sent, w.records[|w.records| - 1])
      ensures Counted(old(w.refused), old(w.broke), err) && old(w.unwritten) <= w.unwritten
      ensures err.Some? ==>
        Stopped(|old(w.sent)|, old(w.unwritten), err.value.cause, Waits(if origin == Opener then msgs else []))
    {
      hide From, UsersOf, Tracks, Settled, Ready, World.Valid, Paired, PathPending, Accounted, Balanced, Recorded, Onward,
        Keeps, Judged, AsksNothing, Waiting, AllFromUser, UsageSince, Stopped, Waits, Tagged, Heard,
        CarryFirst;
      var r, measured;
      r, measured, stored := Open(s, msgs, origin, start);
      if r.CallFailed? {
        err := Some(RunError(r.cause, 0));
        KeepsIs(w.sound, old(w.log), s.messages, w.log, None);
        KeepsIs(w.sound, old(w.log), s.messages, w.log, err);
        return;
      }
      ghost var mid, heard := w.Now(), s.messages;
      err := Converse(s, r, measured, old(w.records), |old(w.sent)|, |old(w.sent)|, start);
      KeepsBoth(w.sound, old(w.log), heard, mid.log, s.messages, w.log, err);
      OnwardBoth(old(w.log), old(w.sent), old(w.records), mid.log, mid.sent, old(w.records), w.log, w.sent, w.records, err.Some?);
      AccountedIsBalanced();
      if err.Some? {
        WaitsMore([], if origin == Opener then msgs else []);
        StoppedFrom(|mid.sent|, mid.unwritten, |old(w.sent)|, old(w.unwritten), err.value.cause, Waits([]),
                    Waits(if origin == Opener then msgs else []));
      }
    }

    /** The turn's first call: the messages it is to deliver join the conversation
        and go out with what the log holds. */
    method Open(s: Conversation, msgs: seq<Message>, origin: Origin, ghost start: nat)
      returns (r: CallResult, measured: Usage, ghost stored: nat)
      requires w.Valid() && Valid() && Settled(w.sound, s.messages, w.log) && AllFromUser(msgs)
      requires w.o.maxOutput.Some? ==> w.o.maxOutput.value >= 1
      requires Accounted(Tagged(origin, msgs)) && Heard(asks, delivered, w.sent, start)
      modifies s, w`cancelled, w`replies, w`sent, w`runSends, w`log, w`refused, w`compactions, w`unwritten, w`records
      modifies this`steerIn, this`followIn, this`delivered, this`asks, steering, followUps
      ensures Heard(asks, delivered, w.sent, start)
      ensures CarryFirst(msgs + old(steering.messages), w.sent, |old(w.sent)|)
      ensures w.Valid() && Valid() && Settled(w.sound, s.messages, w.log) && Arrived(old(steerIn), old(followIn))
      ensures w.replies <= old(w.replies) && (r.Answered? ==> w.replies < old(w.replies)) && |old(w.sent)| <= |w.sent|
      ensures Balanced() && measured == UsageSince(w.sent, |old(w.sent)|)
      ensures r.Answered? || origin != Steering || msgs == [] ==> Accounted([])
      ensures stored <= |msgs| && (r.Answered? ==> stored == |msgs|)
      ensures From(delivered, Opener) == From(old(delivered), Opener) + if origin == Opener then msgs[..stored] else []
      ensures Keeps(w.sound, old(w.log), s.messages, w.log, None)
      ensures Onward(old(w.log), old(w.sent), old(w.records), w.log, w.sent, old(w.records), r.CallFailed?)
      ensures if r.Answered? then Recorded(old(w.records), |old(w.sent)|, |old(w.sent)|, r) else w.records == old(w.records)
      ensures old(w.unwritten) <= w.unwritten
      ensures w.refused == old(w.refused) + if r.CallFailed? && r.cause.WriteRefused? then 1 else 0
      ensures r.CallFailed? ==>
        !r.cause.ToolBroke? && Stopped(|old(w.sent)|, old(w.unwritten), r.cause, Waits(if origin == Opener then msgs else []))
    {
      hide From, UsersOf, Tracks, Settled, Ready, World.Valid, Paired, PathPending, Accounted, Balanced, Recorded, Onward,
        Keeps, Judged, Waiting, AllFromUser, UsageSince, Stopped, Waits, Tagged, Heard, CarryFirst;
      var mark, pending := -1, [];
      NothingTold(w.sent);
      SettledReady(w.sound, s.messages, w.log);
      NothingWaiting(s.messages);
      mark, pending := AddPending(s, mark, pending, msgs);
      assert pending == msgs;
      r, measured, stored := Exchange(s, mark, NO_USAGE, msgs, origin, |old(w.sent)|, start);
      OnwardNothing(old(w.log), old(w.sent), w.log, w.sent, old(w.records), r.CallFailed?);
      KeepsIs(w.sound, old(w.log), s.messages, w.log, None);
    }

    lemma NothingTold(sent: seq<Sent>)
      ensures UsageSince(sent, |sent|) == NO_USAGE
    {
    }

    /** Acts on replies and asks again until the model asks for no more tools. */
    method Converse(s: Conversation, answer: CallResult, usage: Usage, ghost before: seq<CallRecord>, ghost since: nat, ghost turn: nat,
                    ghost start: nat)
      returns (err: Option<RunError>)
      requires w.Valid() && Valid() && Settled(w.sound, s.messages, w.log) && Accounted([])
      requires w.o.maxOutput.Some? ==> w.o.maxOutput.value >= 1
      requires answer.Answered? && Recorded(before, since, turn, answer)
      requires usage == UsageSince(w.sent, turn) && turn <= since <= |w.sent|
      requires Heard(asks, delivered, w.sent, start)
      modifies s, w, this`steerIn, this`followIn, this`delivered, this`asks, steering, followUps
      ensures Heard(asks, delivered, w.sent, start)
      ensures w.Valid() && Valid() && Keeps(w.sound, old(w.log), s.messages, w.log, err) && w.replies <= old(w.replies)
      ensures Accounted([]) && Arrived(old(steerIn), old(followIn)) && From(delivered, Opener) == From(old(delivered), Opener)
      ensures Onward(old(w.log), old(w.sent), before, w.log, w.sent, w.records, err.Some?)
      ensures err.None? ==> |w.records| > |before| && AsksNothing(w.sent, w.records[|w.records| - 1])
      ensures Counted(old(w.refused), old(w.broke), err) && old(w.unwritten) <= w.unwritten
      ensures err.Some? ==> Stopped(|old(w.sent)|, old(w.unwritten), err.value.cause, Waits([]))
    {
      hide From, UsersOf, Tracks, Settled, Ready, World.Valid, Paired, PathPending, Accounted, Balanced, Recorded, Onward, Keeps,
        Acted, Judged, AsksNothing, UsageSince, Stopped, Halts, Waits, Heard, CarryFirst;
      var r, measured := answer, usage;
      ghost var done := before;
      OnwardNothing(w.log, w.sent, w.log, w.sent, done, false);
      KeepsIs(w.sound, w.log, s.messages, w.log, None);
      while r.Answered?
        invariant w.Valid() && Valid() && Settled(w.sound, s.messages, w.log) && Accounted([])
        invariant Arrived(old(steerIn), old(followIn)) && From(delivered, Opener) == From(old(delivered), Opener)
        invariant Heard(asks, delivered, w.sent, start)
        invariant w.replies <= old(w.replies) && Keeps(w.sound, old(w.log), s.messages, w.log, None)
        invariant Onward(old(w.log), old(w.sent), before, w.log, w.sent, done, r.CallFailed?)
        invariant if r.Answered? then Recorded(done, since, turn, r) else w.records == done
        invariant measured == UsageSince(w.sent, turn) && turn <= since <= |w.sent| && old(w.unwritten) <= w.unwritten
        invariant w.refused == old(w.refused) + (if r.CallFailed? && r.cause.WriteRefused? then 1 else 0) && w.broke == old(w.broke)
        invariant |old(w.sent)| <= |w.sent| && (r.CallFailed? ==>
          !r.cause.ToolBroke? && Stopped(|old(w.sent)|, old(w.unwritten), r.cause, Waits([])))
        decreases w.replies, r.Answered?
      {
        var more;
        more, err := Round(s, r, measured, done, since, turn, old(w.log), old(w.sent), before);
        if err.Some? {
          HaltsStops(|old(w.sent)|, old(w.unwritten), err.value.cause, Waits([]));
          return;
        }
        if !more { return; }
        done := w.records;
        ghost var mid := w.Now();
        r, measured := AskAgain(s, measured, since, turn, old(w.log), old(w.sent), before, start);
        if r.CallFailed? { StoppedFrom(|mid.sent|, mid.unwritten, |old(w.sent)|, old(w.unwritten), r.cause, Waits([]), Waits([])); }
      }
      err := Some(RunError(r.cause, 0));
      KeepsIs(w.sound, old(w.log), s.messages, w.log, None);
      KeepsIs(w.sound, old(w.log), s.messages, w.log, err);
    }

    lemma NothingWaiting(msgs: seq<Message>)
      ensures Waiting(msgs, -1, [])
    {
    }

    /** The model is asked again, with nothing but steering added. */
    method AskAgain(s: Conversation, measured: Usage, ghost since: nat, ghost turn: nat,
                    ghost log0: seq<Entry>, ghost sent0: seq<Sent>, ghost records0: seq<CallRecord>, ghost start: nat)
      returns (r: CallResult, measured': Usage)
      requires w.Valid() && Valid() && Settled(w.sound, s.messages, w.log) && Accounted([]) && turn <= since <= |w.sent|
      requires measured == UsageSince(w.sent, turn)
      requires w.o.maxOutput.Some? ==> w.o.maxOutput.value >= 1
      requires Keeps(w.sound, log0, s.messages, w.log, None) && Onward(log0, sent0, records0, w.log, w.sent, w.records, false)
      modifies s, w`cancelled, w`replies, w`sent, w`runSends, w`log, w`refused, w`compactions, w`unwritten, w`records
      requires Heard(asks, delivered, w.sent, start)
      modifies this`steerIn, this`followIn, this`delivered, this`asks, steering, followUps
      ensures Heard(asks, delivered, w.sent, start)
      ensures CarryFirst(old(steering.messages), w.sent, |old(w.sent)|)
      ensures w.Valid() && Valid() && Settled(w.sound, s.messages, w.log) && Arrived(old(steerIn), old(followIn))
      ensures w.replies <= old(w.replies) && (r.Answered? ==> w.replies < old(w.replies))
      ensures Balanced() && Accounted([]) && From(delivered, Opener) == From(old(delivered), Opener)
      ensures Keeps(w.sound, log0, s.messages, w.log, None) && |old(w.sent)| <= |w.sent|
      ensures Onward(log0, sent0, records0, w.log, w.sent, old(w.records), false)
      ensures Onward(log0, sent0, records0, w.log, w.sent, old(w.records), true)
      ensures if r.Answered? then Recorded(old(w.records), since, turn, r) else w.records == old(w.records)
      ensures measured' == UsageSince(w.sent, turn) && old(w.unwritten) <= w.unwritten
      ensures w.refused == old(w.refused) + if r.CallFailed? && r.cause.WriteRefused? then 1 else 0
      ensures r.CallFailed? ==> !r.cause.ToolBroke? && Stopped(|old(w.sent)|, old(w.unwritten), r.cause, Waits([]))
    {
      hide From, UsersOf, Settled, Ready, World.Valid, PathPending, Accounted, Balanced, Recorded, UsageSince, Stopped, Keeps, Onward, Heard,
        CarryFirst;
      SettledReady(w.sound, s.messages, w.log);
      assert Tagged(Opener, []) == [];
      ghost var none;
      ghost var log, sent, msgs, waited := w.log, w.sent, s.messages, steering.messages;
      r, measured', none := Exchange(s, -1, measured, [], Opener, turn, start);
      assert [] + waited == waited;
      OnwardStill(log0, sent0, records0, log, sent, w.log, w.sent, old(w.records));
      KeepsAfter(w.sound, log0, msgs, log, s.messages, w.log);
      if r.Answered? { RecordedSince(old(w.records), |sent|, since, turn, r); }
    }

    /** Acts on the reply of a recorded call. Without an error the record is acted
        on in full. */
    method Round(s: Conversation, r: CallResult, measured: Usage, ghost before: seq<CallRecord>, ghost since: nat, ghost turn: nat,
                 ghost log0: seq<Entry>, ghost sent0: seq<Sent>, ghost records0: seq<CallRecord>)
      returns (more: bool, err: Option<RunError>)
      requires Valid() && Settled(w.sound, s.messages, w.log) && r.Answered? && Recorded(before, since, turn, r)
      requires Keeps(w.sound, log0, s.messages, w.log, None) && Onward(log0, sent0, records0, w.log, w.sent, before, false)
      requires measured == UsageSince(w.sent, turn)
      modifies s, w`log, w`refused, w`cancelled, w`ran, w`broke
      ensures Valid() && Keeps(w.sound, log0, s.messages, w.log, err) && (err.None? ==> Settled(w.sound, s.messages, w.log))
      ensures Onward(log0, sent0, records0, w.log, w.sent, w.records, err.Some?)
      ensures |w.records| > |records0| && since < |w.sent|
      ensures err.None? && !more ==> AsksNothing(w.sent, w.records[|w.records| - 1])
      ensures more ==> err.None?
      ensures Counted(old(w.refused), old(w.broke), err) && (err.Some? ==> Halts(err.value.cause))
    {
      hide From, UsersOf, Tracks, Settled, Paired, PathPending, Recorded, Stores, AnswersSome, Judged, Acted, UsageSince, Halts, Keeps,
        Onward;
      ghost var head, msgs := w.log, s.messages;
      OnwardGrows(log0, sent0, records0, w.log, w.sent, before, false);
      var reply := r.response.message;
      ReplyOf(before, since, turn, r);
      if measured != NO_USAGE { reply := reply.(metrics := Some(measured)); }
      more, err := ActOn(s, reply);
      KeepsIs(w.sound, head, s.messages, w.log, err);
      KeepsBoth(w.sound, log0, msgs, head, s.messages, w.log, err);
      if err.None? { ActedNow(head, w.log, w.sent, w.records[|before|], reply); }
      OnwardRound(log0, sent0, records0, head, w.sent, before, w.log, w.records, err.Some?);
    }

    lemma ReplyOf(before: seq<CallRecord>, since: nat, turn: nat, r: CallResult)
      requires Recorded(before, since, turn, r)
      ensures IsReply(r.response) && |w.records| == |before| + 1 && before <= w.records && since < |w.sent|
      ensures var last := w.records[|before|];
        && last.head == w.log && last.at < |w.sent| && Judged(w.sent[last.at].outcome) == Attempt.Answered(r.response)
        && ReplyTo(w.sent, last) == r.response.message.(metrics := Metered(UsageSince(w.sent, turn)))
    {
      assert w.sent[..|w.sent|] == w.sent;
    }

    lemma RecordedSince(before: seq<CallRecord>, late: nat, since: nat, turn: nat, r: CallResult)
      requires Recorded(before, late, turn, r) && turn <= since <= late
      ensures Recorded(before, since, turn, r)
    {
    }

    // ----- Whole runs -----

    method CloseQueues()
      requires Valid() && Balanced()
      modifies this`steerIn, this`followIn, this`accepting, steering, followUps
      ensures Valid() && Balanced() && !accepting && Arrived(old(steerIn), old(followIn))
      ensures !old(accepting) ==> steerIn == old(steerIn) && followIn == old(followIn)
      ensures !old(accepting) ==> steering.messages == old(steering.messages)
      ensures !old(accepting) ==> followUps.messages == old(followUps.messages)
      ensures !old(accepting) && old(Accounted([])) ==> Accounted([])
      ensures forall opener :: old(Waits(opener)) <= Waits(opener)
    {
      hide From, UsersOf;
      Clients();
      assert steerIn == old(steerIn) + steerIn[|old(steerIn)|..];
      assert followIn == old(followIn) + followIn[|old(followIn)|..];
      accepting := false;
    }

    /** The accounts of a run start with what waits. */
    method BeginRun(ghost first: seq<Message>)
      requires Valid()
      modifies this`accepting, this`steerIn, this`followIn, this`delivered, this`earlier, this`asks
      ensures Heard(asks, delivered, w.sent, |w.sent|)
      ensures Valid() && Accounted(Tagged(Opener, first)) && accepting && earlier == UsersOf(w.log)
      ensures From(delivered, Opener) == [] && steerIn == steering.messages && followIn == followUps.messages
    {
      accepting := true;
      steerIn, followIn, delivered, earlier := steering.messages, followUps.messages, [], UsersOf(w.log);
      asks := [];
      HeardNothing(delivered, w.sent);
      OpeningAccounted(first);
    }

    /** Turns until the model asks for no more tools and no message waits. `stored`
        is how many of the first turn's messages were delivered. */
    method Turns(s: Conversation, first: seq<Message>, ghost start: nat) returns (err: Option<RunError>, ghost stored: nat)
      requires w.Valid() && Valid() && Settled(w.sound, s.messages, w.log) && AllFromUser(first)
      requires w.o.maxOutput.Some? ==> w.o.maxOutput.value >= 1
      requires Accounted(Tagged(Opener, first))
      requires Heard(asks, delivered, w.sent, start)
      modifies s, w, this`steerIn, this`followIn, this`delivered, this`asks, this`accepting, steering, followUps
      ensures Heard(asks, delivered, w.sent, start)
      ensures w.Valid() && Valid() && Keeps(w.sound, old(w.log), s.messages, w.log, err)
      ensures Balanced() && Arrived(old(steerIn), old(followIn))
      ensures err.None? ==> Accounted([]) && !accepting && steering.messages == [] && followUps.messages == []
      ensures stored <= |first| && (err.None? ==> stored == |first|)
      ensures From(delivered, Opener) == From(old(delivered), Opener) + first[..stored]
      ensures Onward(old(w.log), old(w.sent), old(w.records), w.log, w.sent, w.records, err.Some?)
      ensures Counted(old(w.refused), old(w.broke), err)
      ensures err.Some? ==> Stopped(|old(w.sent)|, old(w.unwritten), err.value.cause, Waits(first))
    {
      hide From, UsersOf, Tracks, Settled, Paired, World.Valid, PathPending, Onward, Keeps, Accounted, Balanced, AllFromUser,
        AsksNothing, Tagged, Stopped, Waits, Heard;
      var msgs, origin := first, Opener;
      OnwardNothing(w.log, w.sent, w.log, w.sent, w.records, false);
      KeepsIs(w.sound, w.log, s.messages, w.log, None);
      stored := 0;
      while true
        invariant w.Valid() && Valid() && Settled(w.sound, s.messages, w.log) && AllFromUser(msgs)
        invariant Heard(asks, delivered, w.sent, start)
        invariant Keeps(w.sound, old(w.log), s.messages, w.log, None)
        invariant Onward(old(w.log), old(w.sent), old(w.records), w.log, w.sent, w.records, false)
        invariant Accounted(Tagged(origin, msgs)) && Arrived(old(steerIn), old(followIn))
        invariant if origin == Opener then msgs == first && From(delivered, Opener) == From(old(delivered), Opener)
                  else stored == |first| && From(delivered, Opener) == From(old(delivered), Opener) + first
        invariant w.refused == old(w.refused) && w.broke == old(w.broke) && old(w.unwritten) <= w.unwritten
        invariant |old(w.sent)| <= |w.sent|
        decreases w.replies
      {
        ghost var n;
        ghost var mid, records, heard := w.Now(), w.records, s.messages;
        err, n := Turn(s, msgs, origin, start);
        OnwardBoth(old(w.log), old(w.sent), old(w.records), mid.log, mid.sent, records, w.log, w.sent, w.records, err.Some?);
        KeepsBoth(w.sound, old(w.log), heard, mid.log, s.messages, w.log, err);
        assert first[..|first|] == first;
        if origin == Opener { stored := n; }
        if err.Some? {
          WaitsMore(if origin == Opener then msgs else [], first);
          StoppedFrom(|mid.sent|, mid.unwritten, |old(w.sent)|, old(w.unwritten), err.value.cause,
                      Waits(if origin == Opener then msgs else []), Waits(first));
          return;
        }
        OnwardGrows(mid.log, mid.sent, records, w.log, w.sent, w.records, false);
        msgs, origin := NextQueued();
        if |msgs| == 0 {
          NothingTagged(origin);
          AccountedIsBalanced();
          return;
        }
      }
    }

    /** The turns of a run, from what waits; whatever ends them, acceptance is closed. */
    method Drive(s: Conversation, first: seq<Message>) returns (err: Option<RunError>, ghost stored: nat)
      requires w.Valid() && Valid() && Settled(w.sound, s.messages, w.log) && AllFromUser(first)
      requires w.o.maxOutput.Some? ==> w.o.maxOutput.value >= 1
      modifies s, w, this, steering, followUps
      ensures w.Valid() && Valid() && Keeps(w.sound, old(w.log), s.messages, w.log, err)
      ensures Balanced() && Arrived(old(steering.messages), old(followUps.messages)) && !accepting && earlier == UsersOf(old(w.log))
      ensures err.None? ==> Accounted([]) && steering.messages == [] && followUps.messages == []
      ensures stored <= |first| && (err.None? ==> stored == |first|)
      ensures From(delivered, Opener) == first[..stored]
      ensures Onward(old(w.log), old(w.sent), old(w.records), w.log, w.sent, w.records, err.Some?)
      ensures Heard(asks, delivered, w.sent, |old(w.sent)|)
      ensures Counted(old(w.refused), old(w.broke), err)
      ensures err.Some? ==> Stopped(|old(w.sent)|, old(w.unwritten), err.value.cause, Waits(first))
    {
      hide From, UsersOf, MessagesOf, Tracks, Settled, Paired, World.Valid, PathPending, Onward, Keeps, Accounted, Balanced,
        AllFromUser, Tagged, Stopped, Waits, Heard;
      BeginRun(first);
      err, stored := Turns(s, first, |old(w.sent)|);
      ghost var steerWas, followWas, waits := steerIn, followIn, Waits(first);
      CloseQueues();
      if err.Some? {
        StoppedFrom(|old(w.sent)|, old(w.unwritten), |old(w.sent)|, old(w.unwritten), err.value.cause, waits, Waits(first));
      }
      ArrivedThrough(old(steering.messages), old(followUps.messages), steerWas, followWas);
    }

    lemma ArrivedThrough(steer0: seq<Message>, follow0: seq<Message>, steer1: seq<Message>, follow1: seq<Message>)
      requires steer0 <= steer1 && follow0 <= follow1 && Arrived(steer1, follow1)
      ensures Arrived(steer0, follow0)
    {
    }

    lemma NothingTagged(origin: Origin)
      ensures Tagged(origin, []) == []
    {
    }

    /** Drives the turns of one run. However it ends, everything that waited in a
        queue when it began or was accepted since is stored or waits, once. */
    method Run(s: Conversation, userMessage: UserText) returns (err: Option<RunError>)
      requires w.Valid() && Valid() && Settled(w.sound, s.messages, w.log)
      requires w.o.maxOutput.Some? ==> w.o.maxOutput.value >= 1
      modifies s, w, this, steering, followUps
      ensures w.Valid() && Valid() && Keeps(w.sound, old(w.log), s.messages, w.log, err)
      ensures PathResumable(w.log) <==> PathResumable(old(w.log)) && w.refused == old(w.refused) + Blocked(err)
      ensures Heard(asks, delivered, w.sent, |old(w.sent)|)
      ensures Counted(old(w.refused), old(w.broke), err)
      ensures err.Some? ==> Stopped(|old(w.sent)|, old(w.unwritten), err.value.cause, Waits([userMessage]))
      ensures old(steering.messages) <= steerIn && old(followUps.messages) <= followIn && earlier == UsersOf(old(w.log))
      ensures Balanced() && !accepting
      ensures err.None? ==> Accounted([]) && steering.messages == [] && followUps.messages == []
      ensures From(delivered, Opener) == [userMessage] || From(delivered, Opener) == []
      ensures err.None? ==> From(delivered, Opener) == if userMessage.Empty() then [] else [userMessage]
      ensures Onward(old(w.log), old(w.sent), old(w.records), w.log, w.sent, w.records, err.Some?)
    {
      var msgs := [userMessage];
      if userMessage.Empty() { msgs := []; }
      assert AllFromUser(msgs);
      hide From, UsersOf, Tracks, Settled, Paired, World.Valid, PathPending, PathResumable, Onward, Keeps, Accounted, Balanced,
        AllFromUser, MessagesOf, Stopped, Waits, Tagged, Counted, Heard;
      ghost var stored;
      err, stored := Drive(s, msgs);
      if err.Some? {
        WaitsMore(msgs, [userMessage]);
        StoppedFrom(|old(w.sent)|, old(w.unwritten), |old(w.sent)|, old(w.unwritten), err.value.cause, Waits(msgs), Waits([userMessage]));
      }
      ResumableCounts(w.sound, old(w.log), s.messages, w.log, err);
      NoneRefused(old(w.refused), old(w.broke), err);
    }

    lemma NoneRefused(refused: nat, broke: nat, err: Option<RunError>)
      requires Counted(refused, broke, err)
      ensures Lost(err) == 0 <==> w.refused == refused + Blocked(err)
    {
    }

    lemma ResumableCounts(sound: bool, before: seq<Entry>, msgs: seq<Message>, log: seq<Entry>, err: Option<RunError>)
      requires Keeps(sound, before, msgs, log, err)
      ensures PathResumable(log) <==> PathResumable(before) && Lost(err) == 0
    {
      hide Tracks, Paired;
    }

    /** The opener is in front of the model without being in any queue's account. */
    lemma OpeningAccounted(msgs: seq<Message>)
      requires Accounted([])
      ensures Accounted(Tagged(Opener, msgs))
    {
      assert delivered + [] == delivered;
      forall o: Origin | o != Opener ensures From(delivered + Tagged(Opener, msgs), o) == From(delivered, o) {
        FromConcat(delivered, Tagged(Opener, msgs), o);
        FromTagged(Opener, msgs, o);
      }
    }

    /** Compacts the conversation now. It leaves the queues as they are, and open. */
    method Compact(s: Conversation, focus: string) returns (r: CompactResult)
      requires w.Valid() && Valid() && Settled(w.sound, s.messages, w.log)
      requires w.o.maxOutput.Some? ==> w.o.maxOutput.value >= 1
      modifies s, w`cancelled, w`replies, w`sent, w`runSends, w`log, w`compactions, w`unwritten
      ensures w.Valid() && Valid() && Settled(w.sound, s.messages, w.log)
      ensures old(w.log) <= w.log && old(w.sent) <= w.sent && PathPending(w.log) == PathPending(old(w.log))
      ensures r.Unchanged? ==> s.messages == old(s.messages) && w.log == old(w.log)
      ensures r.Unchanged? ==> Uncompacted(w, |old(w.sent)|, old(w.unwritten), s.messages, |s.messages|, focus)
      ensures r.Shrunk? ==>
        && |s.messages| == r.stored && |w.log| == |old(w.log)| + 1 && w.log[|old(w.log)|].Compact?
        && s.messages == Compacted(old(s.messages), w.log[|old(w.log)|].compaction)
    {
      hide Ready, Tracks, Mirrors, UsersOf, World.Valid, Replaced, Uncompacted, InReserve, PathPending, Compacted;
      ghost var log, msgs := w.log, s.messages;
      SettledReady(w.sound, s.messages, w.log);
      ghost var plan, e;
      r, plan, e := CompactAt(w, s, |s.messages|, Manual, focus);
      if r.Shrunk? {
        WholeReplaced(|old(w.sent)|, msgs, log, plan, focus, e, s.messages, r.stored);
        CompactsKeepsUsers(log, w.log, 1);
        CompactsKeepsPending(log, w.log, 1);
        assert s.messages[..r.stored] == s.messages;
      }
      SettledReady(w.sound, s.messages, w.log);
    }

    lemma WholeReplaced(since: nat, msgs: seq<Message>, log: seq<Entry>, plan: Plan, focus: string, e: Evidence,
                        next: seq<Message>, stored: nat)
      requires Replaced(w, since, msgs, |msgs|, log, plan, Manual, focus, e, next, stored)
      ensures Compacts(log, w.log, 1) && |w.log| == |log| + 1 && w.log[|log|].Compact?
      ensures stored == |next| && next == Compacted(msgs, w.log[|log|].compaction)
    {
      hide Cuts, Accounts, Estimated, Sizes, Sum, Compacted;
      assert msgs[..|msgs|] == msgs && next[stored..] == [];
      assert next[..stored] == next;
    }
  }
}
