/** Every interleaving of the threads that share the run registry. */
module RunMachine {
  import opened Provider
  import opened Registry

  /** How far a run's own thread has come: building it, driving its loop,
      recording how it ended, reading its queues, and letting go. */
  datatype Phase =
    | Building | Started | Loaded | Known | Driving
    | Stopped | Recorded | SteeringRead | FollowUpsRead
    | Ending | Over

  function Rank(p: Phase): nat {
    match p
    case Building => 0 case Started => 1 case Loaded => 2 case Known => 3 case Driving => 4
    case Stopped => 5 case Recorded => 6 case SteeringRead => 7 case FollowUpsRead => 8
    case Ending => 9 case Over => 10
  }

  /** From the claim on its session until the step that gives it up. */
  predicate Live(p: Phase) { Rank(p) < 9 }

  /** `steering` and `followUps` are the agent's queues, `read` what the ending
      run took of them. `closes` counts how often its done channel was closed. */
  datatype Run = Run(
    session: string, compact: bool, phase: Phase, id: string, accepting: bool,
    steering: seq<Message>, followUps: seq<Message>, read: Queued, aborted: bool, closes: nat)

  datatype Mode = Steer | FollowUp

  function Of(q: Queued, mode: Mode): seq<Message> {
    if mode == Steer then q.steering else q.followUps
  }

  function Put(q: Queued, mode: Mode, message: Message): Queued {
    if mode == Steer then q.(steering := q.steering + [message]) else q.(followUps := q.followUps + [message])
  }

  /** Each queue of `b` behind that queue of `a`. */
  function Behind(a: Queued, b: Queued): Queued {
    Queued(a.steering + b.steering, a.followUps + b.followUps)
  }

  /** What became of the messages a session's runs accepted, each for its queue
      and in order. `compactTook` says that a compaction accepted one, which it
      never delivers. */
  datatype Account = Account(accepted: Queued, delivered: Queued, lost: multiset<Message>, compactTook: bool) {
    function In(): multiset<Message> { Bag(accepted) }
    function Out(): multiset<Message> { Bag(delivered) }
  }

  datatype Stopper = Waiting(todo: set<nat>) | Joining | Returned

  datatype State = State(
    reg: Reg<nat>, runs: map<nat, Run>, rows: map<string, nat>,
    retriesStopped: bool, retries: set<nat>, retryCount: nat,
    stoppers: map<nat, Stopper>, accounts: map<string, Account>)

  const INIT := State(Reg(false, map[], map[], map[]), map[], map[], false, {}, 0, map[], map[])

  datatype Step =
    | Reserve(r: nat, session: string, compact: bool)
    | Abandon(r: nat)
    | StartRow(r: nat, row: string)
    | TakePending(r: nat)
    | BeginLoop(r: nat)
    | Publish(r: nat)
    | Accept(r: nat, mode: Mode, message: Message)
    | Deliver(r: nat, mode: Mode)
    | EndLoop(r: nat)
    | RecordEnd(r: nat, inForeground: bool)
    | ReadSteering(r: nat)
    | ReadFollowUps(r: nat)
    | Finish(r: nat)
    | CloseDone(r: nat)
    | Abort(r: nat)
    | RetryEnds(retry: nat)
    | StopAll(t: nat)
    | StopWaits(t: nat, r: nat)
    | StopRetries(t: nat)
    | StopReturns(t: nat)

  function AccountOf(m: State, session: string): Account {
    if session in m.accounts then m.accounts[session] else Account(NOTHING, NOTHING, multiset{}, false)
  }

  predicate At(m: State, r: nat, p: Phase) {
    r in m.runs && m.runs[r].phase == p
  }

  predicate Enabled(m: State, step: Step) {
    match step
    case Reserve(r, session, _) => r !in m.runs && CanReserve(m.reg, session)
    case Abandon(r) => At(m, r, Building)
    case StartRow(r, row) => At(m, r, Building) && row != "" && row !in m.rows
    case TakePending(r) => At(m, r, Started)
    case BeginLoop(r) => At(m, r, Loaded)
    case Publish(r) => At(m, r, Known)
    case Accept(r, _, _) =>
      r in m.runs && m.runs[r].id != "" && Rank(m.runs[r].phase) >= Rank(Known) && m.runs[r].accepting
    case Deliver(r, mode) => At(m, r, Driving) && !m.runs[r].compact
      && (if mode == Steer then m.runs[r].steering != [] else m.runs[r].followUps != [])
    case EndLoop(r) => At(m, r, Driving)
    case RecordEnd(r, _) => At(m, r, Stopped)
    case ReadSteering(r) => At(m, r, Recorded)
    case ReadFollowUps(r) => At(m, r, SteeringRead)
    case Finish(r) => At(m, r, FollowUpsRead)
    case CloseDone(r) => At(m, r, Ending)
    case Abort(r) => r in m.runs
    case RetryEnds(retry) => retry in m.retries
    case StopAll(t) => t !in m.stoppers
    case StopWaits(t, r) => t in m.stoppers && m.stoppers[t].Waiting? && r in m.stoppers[t].todo && At(m, r, Over)
    case StopRetries(t) => t in m.stoppers && m.stoppers[t] == Waiting({})
    case StopReturns(t) => t in m.stoppers && m.stoppers[t] == Joining && m.retries == {}
  }

  function WithRun(m: State, r: nat, run: Run): State {
    m.(runs := m.runs[r := run])
  }

  function Taken(m: State, r: nat): State
    requires r in m.runs
  {
    var run := m.runs[r];
    if run.compact then WithRun(m, r, run.(phase := Loaded))
    else
      var queued := PendingFor(m.reg, run.session);
      WithRun(m, r, run.(phase := Loaded, steering := queued.steering, followUps := queued.followUps))
      .(reg := PendingTaken(m.reg, run.session))
  }

  /** A message accepted once its queue was read has nowhere to go. */
  function Accepted(m: State, r: nat, mode: Mode, message: Message): State
    requires r in m.runs
  {
    var run := m.runs[r];
    var a := AccountOf(m, run.session);
    var unread := Rank(run.phase) < Rank(if mode == Steer then SteeringRead else FollowUpsRead);
    var run' := if !unread then run
                else if mode == Steer then run.(steering := run.steering + [message])
                else run.(followUps := run.followUps + [message]);
    var a' := a.(accepted := Put(a.accepted, mode, message),
                 lost := if unread then a.lost else a.lost + multiset{message},
                 compactTook := a.compactTook || run.compact);
    WithRun(m, r, run').(accounts := m.accounts[run.session := a'])
  }

  function Delivered(m: State, r: nat, mode: Mode): State
    requires Enabled(m, Deliver(r, mode))
  {
    var run := m.runs[r];
    var a := AccountOf(m, run.session);
    var message := if mode == Steer then run.steering[0] else run.followUps[0];
    var run' := if mode == Steer then run.(steering := run.steering[1..]) else run.(followUps := run.followUps[1..]);
    WithRun(m, r, run').(accounts := m.accounts[run.session := a.(delivered := Put(a.delivered, mode, message))])
  }

  function Bag(q: Queued): multiset<Message> {
    multiset(q.steering) + multiset(q.followUps)
  }

  /** Keeping the queues overwrites what an earlier run of the session left. */
  function Finished(m: State, r: nat): State
    requires r in m.runs
  {
    var run := m.runs[r];
    var a := AccountOf(m, run.session);
    var overwritten := if run.read.Any() then Bag(PendingFor(m.reg, run.session)) else multiset{};
    WithRun(m, r, run.(phase := Ending))
    .(reg := FinishedRun(m.reg, run.session, run.id, r, run.read),
      accounts := m.accounts[run.session := a.(lost := a.lost + overwritten)])
  }

  function Next(m: State, step: Step): State
    requires Enabled(m, step)
  {
    match step
    case Reserve(r, session, compact) =>
      WithRun(m, r, Run(session, compact, Building, "", true, [], [], NOTHING, false, 0))
      .(reg := Reserved(m.reg, session, r))
    case Abandon(r) =>
      WithRun(m, r, m.runs[r].(phase := Ending)).(reg := Forgotten(m.reg, m.runs[r].session, m.runs[r].id, r))
    case StartRow(r, row) => WithRun(m, r, m.runs[r].(phase := Started, id := row)).(rows := m.rows[row := r])
    case TakePending(r) => Taken(m, r)
    case BeginLoop(r) => WithRun(m, r, m.runs[r].(phase := Known))
    case Publish(r) => WithRun(m, r, m.runs[r].(phase := Driving)).(reg := Published(m.reg, m.runs[r].id, r))
    case Accept(r, mode, message) => Accepted(m, r, mode, message)
    case Deliver(r, mode) => Delivered(m, r, mode)
    case EndLoop(r) => WithRun(m, r, m.runs[r].(phase := Stopped, accepting := m.runs[r].compact))
    case RecordEnd(r, inForeground) =>
      var m' := WithRun(m, r, m.runs[r].(phase := Recorded));
      if inForeground || m.retriesStopped then m'
      else m'.(retries := m.retries + {m.retryCount}, retryCount := m.retryCount + 1)
    case ReadSteering(r) => WithRun(m, r, m.runs[r].(phase := SteeringRead, read := Queued(m.runs[r].steering, [])))
    case ReadFollowUps(r) =>
      WithRun(m, r, m.runs[r].(phase := FollowUpsRead, read := m.runs[r].read.(followUps := m.runs[r].followUps)))
    case Finish(r) => Finished(m, r)
    case CloseDone(r) => WithRun(m, r, m.runs[r].(phase := Over, closes := m.runs[r].closes + 1))
    case Abort(r) => WithRun(m, r, m.runs[r].(aborted := true))
    case RetryEnds(retry) => m.(retries := m.retries - {retry})
    case StopAll(t) =>
      m.(reg := m.reg.(stopped := true), stoppers := m.stoppers[t := Waiting(m.reg.bySession.Values)])
    case StopWaits(t, r) => m.(stoppers := m.stoppers[t := Waiting(m.stoppers[t].todo - {r})])
    case StopRetries(t) => m.(retriesStopped := true, stoppers := m.stoppers[t := Joining])
    case StopReturns(t) => m.(stoppers := m.stoppers[t := Returned])
  }

  // ----- What every reachable state satisfies -----

  /** A run is live exactly while it is the registered run of its session. */
  ghost predicate Registered(m: State) {
    && (forall s :: s in m.reg.bySession ==> m.reg.bySession[s] in m.runs)
    && (forall s :: s in m.reg.bySession ==> m.runs[m.reg.bySession[s]].session == s && Live(m.runs[m.reg.bySession[s]].phase))
    && (forall r :: r in m.runs && Live(m.runs[r].phase) ==>
          m.runs[r].session in m.reg.bySession && m.reg.bySession[m.runs[r].session] == r)
  }

  predicate HasRow(p: Phase) { 1 <= Rank(p) < 9 }

  predicate Public(p: Phase) { 4 <= Rank(p) < 9 }

  /** Rows are used once, and the rows that can be looked up are those of the
      live runs whose loop has begun. */
  ghost predicate Rows(m: State) {
    && (forall r :: r in m.runs && HasRow(m.runs[r].phase) ==>
          m.runs[r].id != "" && m.runs[r].id in m.rows && m.rows[m.runs[r].id] == r)
    && (forall r :: r in m.runs && m.runs[r].phase == Building ==> m.runs[r].id == "")
    && (forall id :: id in m.reg.byID ==> m.reg.byID[id] in m.runs)
    && (forall id :: id in m.reg.byID ==> m.runs[m.reg.byID[id]].id == id && Public(m.runs[m.reg.byID[id]].phase))
    && (forall r :: r in m.runs && Public(m.runs[r].phase) ==>
          m.runs[r].id in m.reg.byID && m.reg.byID[m.runs[r].id] == r)
  }

  ghost predicate Closes(m: State) {
    forall r :: r in m.runs ==> m.runs[r].closes == if m.runs[r].phase == Over then 1 else 0
  }

  ghost predicate StopperHolds(m: State, stopper: Stopper) {
    && m.reg.stopped
    && match stopper
       case Waiting(todo) => forall s :: s in m.reg.bySession ==> m.reg.bySession[s] in todo
       case Joining => m.reg.bySession == map[] && m.retriesStopped
       case Returned => m.reg.bySession == map[] && m.retriesStopped && m.retries == {}
  }

  ghost predicate Stopping(m: State) {
    && (forall t :: t in m.stoppers ==> StopperHolds(m, m.stoppers[t]))
    && (forall t, r :: t in m.stoppers && m.stoppers[t].Waiting? && r in m.stoppers[t].todo ==> r in m.runs)
  }

  /** What is left of a run's queues: what they hold until it reads them, and then
      what it read. */
  function Queues(run: Run): Queued {
    var n := Rank(run.phase);
    Queued(if n < 7 then run.steering else if n < 9 then run.read.steering else [],
           if n < 8 then run.followUps else if n < 9 then run.read.followUps else [])
  }

  function Held(run: Run): multiset<Message> {
    Bag(Queues(run))
  }

  function LiveQueues(m: State, session: string): Queued
    requires session in m.reg.bySession ==> m.reg.bySession[session] in m.runs
  {
    if session in m.reg.bySession then Queues(m.runs[m.reg.bySession[session]]) else NOTHING
  }

  function InFlight(m: State, session: string): multiset<Message>
    requires session in m.reg.bySession ==> m.reg.bySession[session] in m.runs
  {
    if session in m.reg.bySession then Held(m.runs[m.reg.bySession[session]]) else multiset{}
  }

  /** Each message a session's runs accepted was delivered, is held by its live
      run, waits for its next one, or was lost by a compaction. */
  ghost predicate Conserved(m: State, session: string)
    requires Registered(m)
  {
    var a := AccountOf(m, session);
    && a.In() == a.Out() + InFlight(m, session) + Bag(PendingFor(m.reg, session)) + a.lost
    && (!a.compactTook ==> a.lost == multiset{})
  }

  /** While no compaction took one, each queue's messages are in order those that
      were delivered, then those the live run holds, then those that wait. */
  ghost predicate Ordered(m: State, session: string)
    requires Registered(m)
  {
    var a := AccountOf(m, session);
    !a.compactTook ==> a.accepted == Behind(Behind(a.delivered, LiveQueues(m, session)), PendingFor(m.reg, session))
  }

  /** Why nothing else is lost: a message run has taken what was pending, and a
      compaction that took no message leaves none. */
  ghost predicate QuietRun(m: State, run: Run) {
    && (Live(run.phase) && run.compact && !AccountOf(m, run.session).compactTook ==>
          run.steering == [] && run.followUps == [] && !run.read.Any())
    && (run.phase in {Building, Started} ==> run.steering == [] && run.followUps == [])
    && (Rank(run.phase) < 7 ==> !run.read.Any())
    && (run.phase == SteeringRead ==> run.read.followUps == [])
    && (!run.compact && Rank(run.phase) >= 5 && run.id != "" ==> !run.accepting)
    && (!run.compact && 2 <= Rank(run.phase) < 9 ==> run.session !in m.reg.pending)
  }

  ghost predicate Quiet(m: State) {
    forall r :: r in m.runs ==> QuietRun(m, m.runs[r])
  }

  ghost predicate Inv(m: State) {
    Registered(m) && Rows(m) && Closes(m) && Stopping(m) && Quiet(m)
    && (forall s :: Conserved(m, s))
    && (forall s :: Ordered(m, s))
  }

  // ----- One step keeps it -----

  ghost predicate Changes(m: State, m': State, r: nat) {
    && r in m.runs && r in m'.runs && m'.runs == m.runs[r := m'.runs[r]]
    && m'.runs[r].session == m.runs[r].session
  }

  /** `r` goes on without gaining or giving up its session. */
  ghost predicate Moves(m: State, m': State, r: nat) {
    && Changes(m, m', r)
    && Live(m'.runs[r].phase) == Live(m.runs[r].phase)
    && m'.reg.bySession == m.reg.bySession
  }

  /** `r` gives its session up. */
  ghost predicate LetsGo(m: State, m': State, r: nat) {
    && Changes(m, m', r)
    && Live(m.runs[r].phase) && !Live(m'.runs[r].phase)
    && m'.reg.bySession == Released(m.reg, m.runs[r].session, r).bySession
  }

  lemma MovesRegistered(m: State, m': State, r: nat)
    requires Registered(m) && Moves(m, m', r)
    ensures Registered(m')
  {
  }

  lemma LetsGoRegistered(m: State, m': State, r: nat)
    requires Registered(m) && LetsGo(m, m', r)
    ensures Registered(m')
    ensures m'.reg.bySession == m.reg.bySession - {m.runs[r].session}
  {
  }

  lemma ReserveRegistered(m: State, m': State, r: nat, session: string)
    requires Registered(m) && r !in m.runs && CanReserve(m.reg, session)
    requires m'.reg.bySession == m.reg.bySession[session := r]
    requires r in m'.runs && m'.runs == m.runs[r := m'.runs[r]] && m'.runs[r].session == session && Live(m'.runs[r].phase)
    ensures Registered(m')
  {
  }

  /** What `r` can be looked up by stays as it is. */
  ghost predicate KeepsRow(m: State, m': State, r: nat) {
    && Changes(m, m', r)
    && m'.runs[r].id == m.runs[r].id
    && HasRow(m'.runs[r].phase) == HasRow(m.runs[r].phase)
    && Public(m'.runs[r].phase) == Public(m.runs[r].phase)
    && (m'.runs[r].phase == Building <==> m.runs[r].phase == Building)
    && m'.rows == m.rows && m'.reg.byID == m.reg.byID
  }

  lemma KeepsRowRows(m: State, m': State, r: nat)
    requires Rows(m) && KeepsRow(m, m', r)
    ensures Rows(m')
  {
  }

  /** `r` moves on holding the same messages, and the ledger is untouched. */
  ghost predicate Carries(m: State, m': State, r: nat) {
    && Moves(m, m', r)
    && (Live(m.runs[r].phase) ==> Queues(m'.runs[r]) == Queues(m.runs[r]))
    && m'.accounts == m.accounts && m'.reg.pending == m.reg.pending
  }

  lemma CarriesMoves(m: State, m': State, r: nat)
    requires Carries(m, m', r)
    ensures Moves(m, m', r) && m'.accounts == m.accounts && m'.reg.pending == m.reg.pending
  {
  }

  lemma CarriesConserved(m: State, m': State, r: nat, session: string)
    requires Registered(m) && Registered(m') && Carries(m, m', r) && Conserved(m, session)
    ensures Conserved(m', session)
  {
    RegisteredRuns(m);
    RegisteredRuns(m');
    CarriesFlight(m, m', r, session);
    assert PendingFor(m'.reg, session) == PendingFor(m.reg, session) && AccountOf(m', session) == AccountOf(m, session);
    hide Registered, Queues, Held, InFlight, Bag, PendingFor, AccountOf, Live;
  }

  lemma CarriesFlight(m: State, m': State, r: nat, session: string)
    requires Registered(m) && Registered(m') && Carries(m, m', r)
    ensures InFlight(m', session) == InFlight(m, session)
  {
    hide Queues, Rank, Bag;
  }

  lemma QuietAfter(m: State, m': State, r: nat)
    requires Quiet(m) && Changes(m, m', r)
    requires m'.accounts == m.accounts && m'.reg.pending == m.reg.pending && QuietRun(m', m'.runs[r])
    ensures Quiet(m')
  {
    forall q | q in m'.runs ensures QuietRun(m', m'.runs[q]) {
      if q != r { assert QuietRun(m, m.runs[q]); }
    }
  }

  lemma QuietAt(m: State, r: nat)
    requires Quiet(m) && r in m.runs
    ensures QuietRun(m, m.runs[r])
  {
  }

  lemma StartRowKeeps(m: State, r: nat, row: string, session: string)
    requires Inv(m) && Enabled(m, StartRow(r, row))
    ensures var m' := Next(m, StartRow(r, row)); Registered(m') && Rows(m') && Quiet(m') && Conserved(m', session)
  {
    var m' := Next(m, StartRow(r, row));
    QuietAt(m, r);
    StartRowCarries(m, r, row);
    hide Next, Enabled, Registered, Rows, QuietRun, Quiet, Conserved, Carries;
    MovesRegistered(m, m', r);
    CarriesConserved(m, m', r, session);
    QuietAfter(m, m', r);
    RowStarts(m, m', r, row);
  }

  lemma StartRowCarries(m: State, r: nat, row: string)
    requires Enabled(m, StartRow(r, row)) && QuietRun(m, m.runs[r])
    ensures var m' := Next(m, StartRow(r, row)); Carries(m, m', r) && QuietRun(m', m'.runs[r])
  {
  }

  lemma RowStarts(m: State, m': State, r: nat, row: string)
    requires Rows(m) && Changes(m, m', r) && m.runs[r].phase == Building && m'.runs[r].phase == Started
    requires row != "" && row !in m.rows && m'.runs[r].id == row && m'.rows == m.rows[row := r] && m'.reg.byID == m.reg.byID
    ensures Rows(m')
  {
    NoRow(Building);
    NoRow(Started);
    hide HasRow, Public;
  }

  lemma PublishKeeps(m: State, r: nat, session: string)
    requires Inv(m) && Enabled(m, Publish(r))
    ensures var m' := Next(m, Publish(r)); Registered(m') && Rows(m') && Quiet(m') && Conserved(m', session)
  {
    var m' := Next(m, Publish(r));
    QuietAt(m, r);
    PublishCarries(m, r);
    hide Next, Enabled, Registered, Rows, QuietRun, Quiet, Conserved, Carries;
    MovesRegistered(m, m', r);
    CarriesConserved(m, m', r, session);
    QuietAfter(m, m', r);
    RowPublishes(m, m', r);
  }

  lemma PublishCarries(m: State, r: nat)
    requires Enabled(m, Publish(r)) && QuietRun(m, m.runs[r])
    ensures var m' := Next(m, Publish(r)); Carries(m, m', r) && QuietRun(m', m'.runs[r])
  {
  }

  lemma RowPublishes(m: State, m': State, r: nat)
    requires Rows(m) && Changes(m, m', r) && m.runs[r].phase == Known && m'.runs[r].phase == Driving
    requires m'.runs[r].id == m.runs[r].id && m'.rows == m.rows && m'.reg.byID == m.reg.byID[m.runs[r].id := r]
    ensures Rows(m')
  {
    NoRow(Known);
    NoRow(Driving);
    hide HasRow, Public;
  }

  /** The steps that only move a run on. */
  predicate Plain(step: Step) {
    step.BeginLoop? || step.EndLoop? || step.RecordEnd? || step.ReadSteering? || step.ReadFollowUps?
    || step.CloseDone? || step.Abort?
  }

  /** `r` only moves on. */
  ghost predicate MovesOn(m: State, m': State, r: nat) {
    Carries(m, m', r) && KeepsRow(m, m', r) && QuietRun(m', m'.runs[r])
  }

  lemma BeginLoopMovesOn(m: State, r: nat)
    requires Enabled(m, BeginLoop(r)) && QuietRun(m, m.runs[r])
    ensures MovesOn(m, Next(m, BeginLoop(r)), r)
  {
  }

  lemma EndLoopMovesOn(m: State, r: nat)
    requires Enabled(m, EndLoop(r)) && QuietRun(m, m.runs[r])
    ensures MovesOn(m, Next(m, EndLoop(r)), r)
  {
  }

  lemma RecordEndMovesOn(m: State, r: nat, inForeground: bool)
    requires Enabled(m, RecordEnd(r, inForeground)) && QuietRun(m, m.runs[r])
    ensures MovesOn(m, Next(m, RecordEnd(r, inForeground)), r)
  {
  }

  lemma ReadSteeringMovesOn(m: State, r: nat)
    requires Enabled(m, ReadSteering(r)) && QuietRun(m, m.runs[r])
    ensures MovesOn(m, Next(m, ReadSteering(r)), r)
  {
  }

  lemma ReadFollowUpsMovesOn(m: State, r: nat)
    requires Enabled(m, ReadFollowUps(r)) && QuietRun(m, m.runs[r])
    ensures MovesOn(m, Next(m, ReadFollowUps(r)), r)
  {
  }

  lemma CloseDoneMovesOn(m: State, r: nat)
    requires Enabled(m, CloseDone(r)) && QuietRun(m, m.runs[r])
    ensures MovesOn(m, Next(m, CloseDone(r)), r)
  {
  }

  lemma AbortMovesOn(m: State, r: nat)
    requires Enabled(m, Abort(r)) && QuietRun(m, m.runs[r])
    ensures MovesOn(m, Next(m, Abort(r)), r)
  {
  }

  lemma PlainMovesOn(m: State, step: Step)
    requires Plain(step) && Enabled(m, step) && QuietRun(m, m.runs[step.r])
    ensures MovesOn(m, Next(m, step), step.r)
  {
    hide MovesOn, QuietRun, Next;
    match step {
      case BeginLoop(r) => BeginLoopMovesOn(m, r);
      case EndLoop(r) => EndLoopMovesOn(m, r);
      case RecordEnd(r, inForeground) => RecordEndMovesOn(m, r, inForeground);
      case ReadSteering(r) => ReadSteeringMovesOn(m, r);
      case ReadFollowUps(r) => ReadFollowUpsMovesOn(m, r);
      case CloseDone(r) => CloseDoneMovesOn(m, r);
      case Abort(r) => AbortMovesOn(m, r);
    }
  }

  lemma PlainKeeps(m: State, step: Step, session: string)
    requires Inv(m) && Plain(step) && Enabled(m, step)
    ensures var m' := Next(m, step); Registered(m') && Rows(m') && Quiet(m') && Conserved(m', session)
  {
    assert QuietRun(m, m.runs[step.r]);
    PlainMovesOn(m, step);
    hide Next, Registered, Rows, QuietRun, Quiet, Conserved, Carries, KeepsRow;
    var m' := Next(m, step);
    CarriesMoves(m, m', step.r);
    MovesRegistered(m, m', step.r);
    CarriesConserved(m, m', step.r, session);
    QuietAfter(m, m', step.r);
    KeepsRowRows(m, m', step.r);
  }

  // ----- The ledger of one session -----

  function HeldBy(run: Run): multiset<Message> {
    if Live(run.phase) then Held(run) else multiset{}
  }

  function Ledger(m: State, session: string, inFlight: multiset<Message>): multiset<Message> {
    AccountOf(m, session).Out() + inFlight + Bag(PendingFor(m.reg, session)) + AccountOf(m, session).lost
  }

  /** The step accounts for the `gained` messages of `r`'s session, and touches
      no other session. */
  ghost predicate Pays(m: State, m': State, r: nat, gained: multiset<Message>)
    requires r in m.runs && r in m'.runs
  {
    var s := m.runs[r].session;
    && AccountOf(m', s).In() == AccountOf(m, s).In() + gained
    && Ledger(m', s, HeldBy(m'.runs[r])) == Ledger(m, s, HeldBy(m.runs[r])) + gained
    && (AccountOf(m, s).compactTook ==> AccountOf(m', s).compactTook)
    && (!AccountOf(m', s).compactTook ==> AccountOf(m', s).lost == AccountOf(m, s).lost)
    && forall q :: q != s ==> AccountOf(m', q) == AccountOf(m, q) && PendingFor(m'.reg, q) == PendingFor(m.reg, q)
  }

  lemma OwnInFlight(m: State, r: nat)
    requires Registered(m) && r in m.runs
    ensures Live(m.runs[r].phase) ==> InFlight(m, m.runs[r].session) == HeldBy(m.runs[r])
  {
  }

  lemma OtherInFlight(m: State, m': State, r: nat, session: string)
    requires Registered(m) && Registered(m') && (Moves(m, m', r) || LetsGo(m, m', r))
    requires session != m.runs[r].session || !Live(m.runs[r].phase)
    ensures InFlight(m', session) == InFlight(m, session)
  {
    hide Held, Rank;
  }

  lemma NoneInFlight(m: State, m': State, r: nat)
    requires Registered(m) && Registered(m') && LetsGo(m, m', r)
    ensures InFlight(m', m.runs[r].session) == multiset{} == HeldBy(m'.runs[r])
  {
    LetsGoRegistered(m, m', r);
  }

  lemma FlightAdds(m: State, s: string, f: multiset<Message>)
    ensures Ledger(m, s, f) == Ledger(m, s, multiset{}) + f
  {
  }

  lemma PaysConserves(m: State, m': State, r: nat, gained: multiset<Message>, session: string)
    requires Registered(m) && Registered(m') && (Moves(m, m', r) || LetsGo(m, m', r))
    requires Pays(m, m', r, gained) && Conserved(m, session)
    ensures Conserved(m', session)
  {
    hide Held, Live, HeldBy, InFlight, AccountOf, PendingFor, Bag;
    var s := m.runs[r].session;
    RegisteredRuns(m);
    RegisteredRuns(m');
    hide Registered;
    if session != s {
      OtherInFlight(m, m', r, session);
    } else if !Live(m.runs[r].phase) {
      OtherInFlight(m, m', r, session);
      NotLiveHoldsNothing(m, m', r);
      FlightAdds(m, s, InFlight(m, s));
      FlightAdds(m', s, InFlight(m, s));
    } else {
      OwnInFlight(m, r);
      if LetsGo(m, m', r) { NoneInFlight(m, m', r); } else { OwnInFlight(m', r); }
    }
  }

  lemma NotLiveHoldsNothing(m: State, m': State, r: nat)
    requires (Moves(m, m', r) || LetsGo(m, m', r)) && !Live(m.runs[r].phase)
    ensures HeldBy(m.runs[r]) == HeldBy(m'.runs[r]) == multiset{}
  {
  }

  lemma RegisteredRuns(m: State)
    requires Registered(m)
    ensures forall s :: s in m.reg.bySession ==> m.reg.bySession[s] in m.runs
  {
  }

  /** What is left of `Pays` when the ledger's own entries are known. */
  lemma PaysByEntries(m: State, m': State, r: nat, a': Account, gained: multiset<Message>)
    requires Changes(m, m', r)
    requires var s := m.runs[r].session; var a := AccountOf(m, s);
      && m'.accounts == m.accounts[s := a']
      && (forall q :: q != s ==> PendingFor(m'.reg, q) == PendingFor(m.reg, q))
      && a'.In() == a.In() + gained
      && a'.Out() + HeldBy(m'.runs[r]) + Bag(PendingFor(m'.reg, s)) + a'.lost
         == a.Out() + HeldBy(m.runs[r]) + Bag(PendingFor(m.reg, s)) + a.lost + gained
      && (a.compactTook ==> a'.compactTook) && (!a'.compactTook ==> a'.lost == a.lost)
    ensures Pays(m, m', r, gained)
  {
    hide HeldBy, Bag, PendingFor;
  }

  lemma SwapParts(d: multiset<Message>, f: multiset<Message>, b: multiset<Message>, l: multiset<Message>,
                  d': multiset<Message>, f': multiset<Message>, b': multiset<Message>, l': multiset<Message>, g: multiset<Message>)
    requires (d' == d && b' == b && f' + l' == f + l + g)
      || (l' == l && b' == b && d' + f' == d + f + g)
      || (d' == d && f' + b' + l' == f + b + l + g)
    ensures d' + f' + b' + l' == d + f + b + l + g
  {
    if d' == d && b' == b && f' + l' == f + l + g {
      assert d' + f' + b' + l' == d + b + (f' + l');
    } else if l' == l && b' == b && d' + f' == d + f + g {
      assert d' + f' + b' + l' == l + b + (d' + f');
    } else {
      assert d' + f' + b' + l' == d + (f' + b' + l');
    }
  }

  // ----- Claiming and giving up a session -----

  lemma ReserveChanges(m: State, r: nat, name: string, compact: bool)
    requires Enabled(m, Reserve(r, name, compact))
    ensures var m' := Next(m, Reserve(r, name, compact));
      && r in m'.runs && m'.runs == m.runs[r := m'.runs[r]]
      && m'.runs[r].session == name && Live(m'.runs[r].phase) && m'.runs[r].phase == Building && m'.runs[r].id == ""
      && m'.reg == Reserved(m.reg, name, r) && m'.accounts == m.accounts && m'.rows == m.rows
      && Queues(m'.runs[r]) == NOTHING && Held(m'.runs[r]) == multiset{} && QuietRun(m', m'.runs[r])
  {
  }

  lemma ReserveConserves(m: State, m': State, r: nat, name: string, session: string)
    requires Registered(m) && Registered(m') && r !in m.runs && name !in m.reg.bySession && Conserved(m, session)
    requires r in m'.runs && m'.runs == m.runs[r := m'.runs[r]] && Held(m'.runs[r]) == multiset{}
    requires m'.reg == Reserved(m.reg, name, r) && m'.accounts == m.accounts
    ensures Conserved(m', session)
  {
    hide Held, Live, Bag, Registered;
    RegisteredRuns(m);
    RegisteredRuns(m');
    SameLedger(m, m', session);
    hide AccountOf, PendingFor;
    assert InFlight(m', session) == InFlight(m, session);
    hide InFlight;
  }

  lemma SameLedger(m: State, m': State, session: string)
    requires m'.accounts == m.accounts && m'.reg.pending == m.reg.pending
    ensures PendingFor(m'.reg, session) == PendingFor(m.reg, session) && AccountOf(m', session) == AccountOf(m, session)
  {
  }

  lemma ReserveQuiet(m: State, m': State, r: nat)
    requires Quiet(m) && r in m'.runs && m'.runs == m.runs[r := m'.runs[r]] && QuietRun(m', m'.runs[r])
    requires m'.accounts == m.accounts && m'.reg.pending == m.reg.pending
    ensures Quiet(m')
  {
    forall q | q in m'.runs ensures QuietRun(m', m'.runs[q]) {
      if q != r { assert QuietRun(m, m.runs[q]); }
    }
  }

  lemma ReserveRows(m: State, m': State, r: nat)
    requires Rows(m) && r !in m.runs && r in m'.runs && m'.runs == m.runs[r := m'.runs[r]]
    requires m'.runs[r].phase == Building && m'.runs[r].id == ""
    requires m'.rows == m.rows && m'.reg.byID == m.reg.byID
    ensures Rows(m')
  {
    NoRow(Building);
    hide HasRow, Public;
  }

  lemma ReserveKeeps(m: State, r: nat, name: string, compact: bool, session: string)
    requires Registered(m) && Rows(m) && Quiet(m) && Conserved(m, session) && Enabled(m, Reserve(r, name, compact))
    ensures var m' := Next(m, Reserve(r, name, compact)); Registered(m') && Rows(m') && Quiet(m') && Conserved(m', session)
  {
    hide Next, Held, Live, Registered, Rows, Quiet, QuietRun, Conserved;
    var m' := Next(m, Reserve(r, name, compact));
    ReserveChanges(m, r, name, compact);
    ReserveRegistered(m, m', r, name);
    ReserveQuiet(m, m', r);
    ReserveRows(m, m', r);
    ReserveConserves(m, m', r, name, session);
  }

  lemma AbandonChanges(m: State, r: nat)
    requires Enabled(m, Abandon(r)) && QuietRun(m, m.runs[r]) && m.runs[r].id == ""
    ensures var m' := Next(m, Abandon(r));
      && LetsGo(m, m', r) && QuietRun(m', m'.runs[r])
      && m.runs[r].phase == Building && m'.runs[r].phase == Ending && m'.rows == m.rows
      && m'.reg.byID == m.reg.byID && m'.reg.pending == m.reg.pending && m'.accounts == m.accounts
      && HeldBy(m.runs[r]) == multiset{} == HeldBy(m'.runs[r])
  {
  }

  /** With the ledger's entries untouched, holding the same is paying. */
  lemma SameHeldPays(m: State, m': State, r: nat)
    requires Changes(m, m', r) && m'.accounts == m.accounts && m'.reg.pending == m.reg.pending
    requires HeldBy(m'.runs[r]) == HeldBy(m.runs[r])
    ensures Pays(m, m', r, multiset{})
  {
    hide HeldBy, Bag;
  }

  lemma AbandonRows(m: State, m': State, r: nat)
    requires Rows(m) && Changes(m, m', r) && m.runs[r].phase == Building && m'.runs[r].phase == Ending
    requires m'.rows == m.rows && m'.reg.byID == m.reg.byID
    ensures Rows(m')
  {
    NoRow(Building);
    NoRow(Ending);
    hide HasRow, Public;
  }

  lemma NoRow(p: Phase)
    ensures p == Building || p == Ending ==> !HasRow(p) && !Public(p)
    ensures p == Started ==> HasRow(p) && !Public(p)
    ensures p == Known ==> HasRow(p) && !Public(p)
    ensures p == FollowUpsRead || p == Driving ==> Public(p) && p != Building
    ensures forall q: Phase :: Public(q) ==> HasRow(q)
  {
  }

  lemma BuildingHasNoRow(m: State, r: nat)
    requires Rows(m) && At(m, r, Building)
    ensures m.runs[r].id == ""
  {
  }

  lemma AbandonKeeps(m: State, r: nat, session: string)
    requires Registered(m) && Rows(m) && Quiet(m) && Conserved(m, session) && Enabled(m, Abandon(r))
    ensures var m' := Next(m, Abandon(r)); Registered(m') && Rows(m') && Quiet(m') && Conserved(m', session)
  {
    hide Next, Registered, Rows, Quiet, QuietRun, Conserved, Pays;
    var m' := Next(m, Abandon(r));
    QuietAt(m, r);
    BuildingHasNoRow(m, r);
    AbandonChanges(m, r);
    LetsGoRegistered(m, m', r);
    SameHeldPays(m, m', r);
    QuietAfter(m, m', r);
    AbandonRows(m, m', r);
    PaysConserves(m, m', r, multiset{}, session);
  }

  lemma TakePendingMoves(m: State, r: nat)
    requires Enabled(m, TakePending(r)) && QuietRun(m, m.runs[r])
    ensures var m' := Next(m, TakePending(r));
      && Moves(m, m', r) && KeepsRow(m, m', r) && m'.accounts == m.accounts
      && m'.reg.pending.Keys <= m.reg.pending.Keys
      && m'.reg == (if m.runs[r].compact then m.reg else PendingTaken(m.reg, m.runs[r].session))
  {
  }

  lemma TakePendingHolds(m: State, r: nat)
    requires Enabled(m, TakePending(r)) && QuietRun(m, m.runs[r])
    ensures var m' := Next(m, TakePending(r));
      && QuietRun(m', m'.runs[r]) && HeldBy(m.runs[r]) == multiset{}
      && HeldBy(m'.runs[r]) == (if m.runs[r].compact then multiset{} else Bag(PendingFor(m.reg, m.runs[r].session)))
  {
    assert Next(m, TakePending(r)) == Taken(m, r);
    hide Next, Enabled, AccountOf;
    TakenQuiet(m, r);
    TakenHolds(m, r);
    hide Taken, QuietRun, Bag, PendingFor, HeldBy;
  }

  lemma TakenQuiet(m: State, r: nat)
    requires At(m, r, Started) && QuietRun(m, m.runs[r])
    ensures r in Taken(m, r).runs && QuietRun(Taken(m, r), Taken(m, r).runs[r])
  {
  }

  lemma TakenHolds(m: State, r: nat)
    requires At(m, r, Started) && m.runs[r].steering == [] && m.runs[r].followUps == []
    ensures r in Taken(m, r).runs && HeldBy(m.runs[r]) == multiset{}
    ensures HeldBy(Taken(m, r).runs[r])
         == if m.runs[r].compact then multiset{} else Bag(PendingFor(m.reg, m.runs[r].session))
  {
    var run := m.runs[r];
    LoadedHolds(run, Queued([], []));
    LoadedHolds(run, PendingFor(m.reg, run.session));
    assert run.(phase := Loaded, steering := [], followUps := []) == run.(phase := Loaded);
    assert Bag(Queued([], [])) == multiset{};
    hide PendingFor, HeldBy, Bag;
  }

  lemma LoadedHolds(run: Run, q: Queued)
    requires run.phase == Started
    ensures run.steering == [] && run.followUps == [] ==> HeldBy(run) == multiset{}
    ensures HeldBy(run.(phase := Loaded, steering := q.steering, followUps := q.followUps)) == Bag(q)
  {
  }

  lemma TakePendingPays(m: State, m': State, r: nat)
    requires Changes(m, m', r) && m'.accounts == m.accounts && HeldBy(m.runs[r]) == multiset{}
    requires m'.reg == (if m.runs[r].compact then m.reg else PendingTaken(m.reg, m.runs[r].session))
    requires HeldBy(m'.runs[r]) == if m.runs[r].compact then multiset{} else Bag(PendingFor(m.reg, m.runs[r].session))
    ensures Pays(m, m', r, multiset{})
  {
    var s := m.runs[r].session;
    var a := AccountOf(m, s);
    if m.runs[r].compact {
      hide HeldBy, Bag, PendingFor;
    } else {
      assert Bag(PendingFor(m'.reg, s)) == multiset{};
      hide HeldBy, Bag, PendingFor, AccountOf;
      SwapParts(a.Out(), HeldBy(m.runs[r]), Bag(PendingFor(m.reg, s)), a.lost,
                a.Out(), HeldBy(m'.runs[r]), Bag(PendingFor(m'.reg, s)), a.lost, multiset{});
      OthersPend(m, m', s);
      SameAccountPays(m, m', r);
    }
  }

  lemma OthersPend(m: State, m': State, session: string)
    requires m'.reg == PendingTaken(m.reg, session)
    ensures forall q :: q != session ==> PendingFor(m'.reg, q) == PendingFor(m.reg, q)
  {
  }

  /** The ledger moved messages between its parts, the account is the same. */
  lemma SameAccountPays(m: State, m': State, r: nat)
    requires Changes(m, m', r) && m'.accounts == m.accounts
    requires var s := m.runs[r].session; var a := AccountOf(m, s);
      && (forall q :: q != s ==> PendingFor(m'.reg, q) == PendingFor(m.reg, q))
      && a.Out() + HeldBy(m'.runs[r]) + Bag(PendingFor(m'.reg, s)) + a.lost
         == a.Out() + HeldBy(m.runs[r]) + Bag(PendingFor(m.reg, s)) + a.lost + multiset{}
    ensures Pays(m, m', r, multiset{})
  {
    hide HeldBy, Bag, PendingFor;
  }

  lemma TakePendingQuiet(m: State, m': State, r: nat)
    requires Quiet(m) && Changes(m, m', r) && QuietRun(m', m'.runs[r])
    requires m'.accounts == m.accounts && m'.reg.pending.Keys <= m.reg.pending.Keys
    ensures Quiet(m')
  {
    forall q | q in m'.runs ensures QuietRun(m', m'.runs[q]) {
      if q != r { assert QuietRun(m, m.runs[q]); }
    }
  }

  lemma TakePendingKeeps(m: State, r: nat, session: string)
    requires Registered(m) && Rows(m) && Quiet(m) && Conserved(m, session) && Enabled(m, TakePending(r))
    ensures var m' := Next(m, TakePending(r)); Registered(m') && Rows(m') && Quiet(m') && Conserved(m', session)
  {
    hide Next, Registered, Rows, Quiet, QuietRun, Conserved, Pays;
    var m' := Next(m, TakePending(r));
    QuietAt(m, r);
    TakePendingMoves(m, r);
    TakePendingHolds(m, r);
    TakePendingPays(m, m', r);
    MovesRegistered(m, m', r);
    TakePendingQuiet(m, m', r);
    KeepsRowRows(m, m', r);
    PaysConserves(m, m', r, multiset{}, session);
  }

  // ----- Messages -----

  /** A message run accepts only while its queues are still to be read. */
  lemma MessageRunsAcceptInTime(m: State, r: nat, mode: Mode, message: Message)
    requires Enabled(m, Accept(r, mode, message)) && QuietRun(m, m.runs[r])
    ensures !m.runs[r].compact ==> Rank(m.runs[r].phase) < 5
  {
  }

  lemma AcceptMoves(m: State, r: nat, mode: Mode, message: Message)
    requires Enabled(m, Accept(r, mode, message))
    ensures var m' := Next(m, Accept(r, mode, message)); Moves(m, m', r) && KeepsRow(m, m', r)
  {
  }

  predicate Unread(run: Run, mode: Mode) {
    Rank(run.phase) < Rank(if mode == Steer then SteeringRead else FollowUpsRead)
  }

  lemma HeldGrows(run: Run, run': Run, mode: Mode, message: Message)
    requires run' == if !Unread(run, mode) then run
                     else if mode == Steer then run.(steering := run.steering + [message])
                     else run.(followUps := run.followUps + [message])
    ensures HeldBy(run') == HeldBy(run) + if Unread(run, mode) then multiset{message} else multiset{}
  {
  }

  lemma AcceptHolds(m: State, r: nat, mode: Mode, message: Message)
    requires Enabled(m, Accept(r, mode, message))
    ensures var m' := Next(m, Accept(r, mode, message));
      HeldBy(m'.runs[r]) == HeldBy(m.runs[r]) + (if Unread(m.runs[r], mode) then multiset{message} else multiset{})
  {
    assert Next(m, Accept(r, mode, message)) == Accepted(m, r, mode, message);
    hide AccountOf, Next, HeldBy;
    HeldGrows(m.runs[r], Accepted(m, r, mode, message).runs[r], mode, message);
  }

  lemma AcceptWrites(m: State, r: nat, mode: Mode, message: Message)
    requires Enabled(m, Accept(r, mode, message))
    ensures var m' := Next(m, Accept(r, mode, message)); var a := AccountOf(m, m.runs[r].session);
      && m'.reg == m.reg
      && m'.accounts == m.accounts[m.runs[r].session := a.(
           accepted := Put(a.accepted, mode, message),
           lost := if Unread(m.runs[r], mode) then a.lost else a.lost + multiset{message},
           compactTook := a.compactTook || m.runs[r].compact)]
  {
    hide AccountOf;
  }

  lemma AcceptPays(m: State, r: nat, mode: Mode, message: Message)
    requires Enabled(m, Accept(r, mode, message)) && (!m.runs[r].compact ==> Rank(m.runs[r].phase) < 5)
    ensures Pays(m, Next(m, Accept(r, mode, message)), r, multiset{message})
  {
    var m', s := Next(m, Accept(r, mode, message)), m.runs[r].session;
    var a := AccountOf(m, s);
    AcceptMoves(m, r, mode, message);
    AcceptHolds(m, r, mode, message);
    AcceptWrites(m, r, mode, message);
    CompactionTakesLate(m, r, mode);
    hide Next, Enabled, HeldBy, Bag, PendingFor, AccountOf, Moves, KeepsRow, Unread;
    PutBags(a.accepted, mode, message);
    AddOne(HeldBy(m.runs[r]), a.lost, HeldBy(m'.runs[r]), m'.accounts[s].lost, multiset{message}, Unread(m.runs[r], mode));
    SwapParts(a.Out(), HeldBy(m.runs[r]), Bag(PendingFor(m.reg, s)), a.lost,
              a.Out(), HeldBy(m'.runs[r]), Bag(PendingFor(m'.reg, s)), m'.accounts[s].lost, multiset{message});
    MovesChanges(m, m', r);
    PaysByEntries(m, m', r, m'.accounts[s], multiset{message});
  }

  lemma MovesChanges(m: State, m': State, r: nat)
    requires Moves(m, m', r)
    ensures Changes(m, m', r)
  {
  }

  lemma CompactionTakesLate(m: State, r: nat, mode: Mode)
    requires r in m.runs && (!m.runs[r].compact ==> Rank(m.runs[r].phase) < 5)
    ensures !m.runs[r].compact ==> Unread(m.runs[r], mode)
  {
  }

  lemma AddOne(f: multiset<Message>, l: multiset<Message>, f': multiset<Message>, l': multiset<Message>,
               g: multiset<Message>, toFirst: bool)
    requires f' == f + (if toFirst then g else multiset{}) && l' == if toFirst then l else l + g
    ensures f' + l' == f + l + g
  {
  }

  /** What an account gains does not disturb a run that stays as it is. */
  lemma QuietStays(m: State, m': State, run: Run)
    requires QuietRun(m, run) && m'.reg.pending == m.reg.pending
    requires AccountOf(m, run.session).compactTook ==> AccountOf(m', run.session).compactTook
    ensures QuietRun(m', run)
  {
    hide AccountOf;
  }

  lemma AcceptQuiet(m: State, r: nat, mode: Mode, message: Message)
    requires Quiet(m) && Enabled(m, Accept(r, mode, message))
    ensures Quiet(Next(m, Accept(r, mode, message)))
  {
    hide Next, QuietRun, Live, Moves, KeepsRow, AccountOf, Put;
    var m' := Next(m, Accept(r, mode, message));
    AcceptMoves(m, r, mode, message);
    MovesChanges(m, m', r);
    AcceptWrites(m, r, mode, message);
    AcceptOwnQuiet(m, r, mode, message);
    TookStays(m, m', m.runs[r].session);
    OthersQuiet(m, m', r);
  }

  lemma AcceptOwnQuiet(m: State, r: nat, mode: Mode, message: Message)
    requires Quiet(m) && Enabled(m, Accept(r, mode, message))
    ensures var m' := Next(m, Accept(r, mode, message)); r in m'.runs && QuietRun(m', m'.runs[r])
  {
    QuietAt(m, r);
    assert Next(m, Accept(r, mode, message)) == Accepted(m, r, mode, message);
    hide Next, Quiet;
  }

  lemma AcceptKeeps(m: State, r: nat, mode: Mode, message: Message, session: string)
    requires Registered(m) && Rows(m) && Quiet(m) && Conserved(m, session) && Enabled(m, Accept(r, mode, message))
    ensures var m' := Next(m, Accept(r, mode, message)); Registered(m') && Rows(m') && Quiet(m') && Conserved(m', session)
  {
    hide Next, Registered, Rows, Quiet, QuietRun, Conserved, Pays;
    var m' := Next(m, Accept(r, mode, message));
    QuietAt(m, r);
    MessageRunsAcceptInTime(m, r, mode, message);
    AcceptMoves(m, r, mode, message);
    AcceptPays(m, r, mode, message);
    AcceptQuiet(m, r, mode, message);
    MovesRegistered(m, m', r);
    KeepsRowRows(m, m', r);
    PaysConserves(m, m', r, multiset{message}, session);
  }

  lemma PutBags(q: Queued, mode: Mode, message: Message)
    ensures Bag(Put(q, mode, message)) == Bag(q) + multiset{message}
  {
  }

  lemma HeadAndRest(q: seq<Message>)
    requires q != []
    ensures multiset(q) == multiset{q[0]} + multiset(q[1..])
  {
    assert q == [q[0]] + q[1..];
  }

  lemma DeliverMoves(m: State, r: nat, mode: Mode)
    requires Enabled(m, Deliver(r, mode))
    ensures var m' := Next(m, Deliver(r, mode)); Moves(m, m', r) && KeepsRow(m, m', r)
  {
  }

  lemma DeliverHolds(m: State, r: nat, mode: Mode)
    requires Enabled(m, Deliver(r, mode))
    ensures var m' := Next(m, Deliver(r, mode)); var a := AccountOf(m, m.runs[r].session);
            var message := if mode == Steer then m.runs[r].steering[0] else m.runs[r].followUps[0];
      && HeldBy(m.runs[r]) == HeldBy(m'.runs[r]) + multiset{message}
      && m'.reg == m.reg
      && m'.accounts == m.accounts[m.runs[r].session := a.(delivered := Put(a.delivered, mode, message))]
  {
    hide AccountOf, Held;
    HeadHeld(m.runs[r], Next(m, Deliver(r, mode)).runs[r], mode);
    hide HeldBy;
  }

  lemma HeadHeld(run: Run, run': Run, mode: Mode)
    requires run.phase == Driving && (if mode == Steer then run.steering != [] else run.followUps != [])
    requires run' == if mode == Steer then run.(steering := run.steering[1..]) else run.(followUps := run.followUps[1..])
    ensures HeldBy(run) == HeldBy(run') + multiset{if mode == Steer then run.steering[0] else run.followUps[0]}
  {
    if mode == Steer { HeadAndRest(run.steering); } else { HeadAndRest(run.followUps); }
  }

  /** The delivered message moves from the run to what was delivered. */
  lemma DeliverParts(m: State, r: nat, mode: Mode)
    requires Enabled(m, Deliver(r, mode))
    ensures var m' := Next(m, Deliver(r, mode)); var s := m.runs[r].session; var a := AccountOf(m, s);
      && s in m'.accounts && m'.accounts == m.accounts[s := m'.accounts[s]] && m'.reg == m.reg
      && m'.accounts[s].Out() + HeldBy(m'.runs[r]) == a.Out() + HeldBy(m.runs[r])
      && m'.accounts[s].In() == a.In() && m'.accounts[s].lost == a.lost && m'.accounts[s].compactTook == a.compactTook
  {
    hide Next, HeldBy, Bag, AccountOf, Put;
    DeliverHolds(m, r, mode);
    PutBags(AccountOf(m, m.runs[r].session).delivered, mode,
            if mode == Steer then m.runs[r].steering[0] else m.runs[r].followUps[0]);
  }

  lemma DeliverPays(m: State, r: nat, mode: Mode)
    requires Enabled(m, Deliver(r, mode))
    ensures Pays(m, Next(m, Deliver(r, mode)), r, multiset{})
  {
    hide Next, HeldBy, Bag, PendingFor, AccountOf, Put, Moves, KeepsRow, Pays, Account.In, Account.Out;
    var m', s := Next(m, Deliver(r, mode)), m.runs[r].session;
    var a := AccountOf(m, s);
    DeliverMoves(m, r, mode);
    MovesChanges(m, m', r);
    DeliverParts(m, r, mode);
    SwapParts(a.Out(), HeldBy(m.runs[r]), Bag(PendingFor(m.reg, s)), a.lost,
              m'.accounts[s].Out(), HeldBy(m'.runs[r]), Bag(PendingFor(m'.reg, s)), a.lost, multiset{});
    PaysByEntries(m, m', r, m'.accounts[s], multiset{});
  }

  lemma DeliverQuiet(m: State, r: nat, mode: Mode)
    requires Quiet(m) && Enabled(m, Deliver(r, mode))
    ensures Quiet(Next(m, Deliver(r, mode)))
  {
    hide Next, QuietRun, HeldBy, Live, Moves, KeepsRow, AccountOf, Account.In, Account.Out, Bag;
    var m' := Next(m, Deliver(r, mode));
    DeliverMoves(m, r, mode);
    MovesChanges(m, m', r);
    DeliverParts(m, r, mode);
    DeliverOwnQuiet(m, r, mode);
    TookStays(m, m', m.runs[r].session);
    OthersQuiet(m, m', r);
  }

  lemma TookStays(m: State, m': State, s: string)
    requires s in m'.accounts && m'.accounts == m.accounts[s := m'.accounts[s]]
    requires AccountOf(m, s).compactTook ==> m'.accounts[s].compactTook
    ensures forall q :: AccountOf(m, q).compactTook ==> AccountOf(m', q).compactTook
  {
  }

  lemma OthersQuiet(m: State, m': State, r: nat)
    requires Quiet(m) && Changes(m, m', r) && QuietRun(m', m'.runs[r]) && m'.reg.pending == m.reg.pending
    requires forall q :: AccountOf(m, q).compactTook ==> AccountOf(m', q).compactTook
    ensures Quiet(m')
  {
    hide QuietRun, AccountOf;
    forall q | q in m'.runs ensures QuietRun(m', m'.runs[q]) {
      if q != r {
        assert QuietRun(m, m.runs[q]);
        QuietStays(m, m', m.runs[q]);
      }
    }
  }

  lemma DeliverOwnQuiet(m: State, r: nat, mode: Mode)
    requires Quiet(m) && Enabled(m, Deliver(r, mode))
    ensures var m' := Next(m, Deliver(r, mode)); r in m'.runs && QuietRun(m', m'.runs[r])
  {
    QuietAt(m, r);
    assert Next(m, Deliver(r, mode)) == Delivered(m, r, mode);
    hide Next, Quiet;
  }

  lemma DeliverKeeps(m: State, r: nat, mode: Mode, session: string)
    requires Registered(m) && Rows(m) && Quiet(m) && Conserved(m, session) && Enabled(m, Deliver(r, mode))
    ensures var m' := Next(m, Deliver(r, mode)); Registered(m') && Rows(m') && Quiet(m') && Conserved(m', session)
  {
    hide Next, Registered, Rows, Quiet, QuietRun, Conserved, Pays;
    var m' := Next(m, Deliver(r, mode));
    DeliverMoves(m, r, mode);
    DeliverPays(m, r, mode);
    DeliverQuiet(m, r, mode);
    MovesRegistered(m, m', r);
    KeepsRowRows(m, m', r);
    PaysConserves(m, m', r, multiset{}, session);
  }

  // ----- Finishing -----

  lemma FinishLetsGo(m: State, r: nat)
    requires Enabled(m, Finish(r))
    ensures var m' := Next(m, Finish(r));
      && LetsGo(m, m', r) && m'.runs[r].id == m.runs[r].id && m'.runs[r].phase == Ending
      && m'.rows == m.rows && m'.reg.byID == m.reg.byID - {m.runs[r].id}
  {
    FinishedLetsGo(m, r);
    hide Finished, LetsGo;
  }

  lemma FinishedLetsGo(m: State, r: nat)
    requires At(m, r, FollowUpsRead)
    ensures var m' := Finished(m, r);
      && LetsGo(m, m', r) && m'.runs[r].id == m.runs[r].id && m'.runs[r].phase == Ending
      && m'.rows == m.rows && m'.reg.byID == m.reg.byID - {m.runs[r].id}
  {
    hide AccountOf, Bag, PendingFor;
  }

  lemma FinishHolds(m: State, r: nat)
    requires Enabled(m, Finish(r))
    ensures HeldBy(m.runs[r]) == Bag(m.runs[r].read) && HeldBy(Next(m, Finish(r)).runs[r]) == multiset{}
  {
    FinishLetsGo(m, r);
    HeldAtTheEnd(m.runs[r]);
    hide Next, Held, Bag;
  }

  lemma HeldAtTheEnd(run: Run)
    ensures run.phase == FollowUpsRead ==> HeldBy(run) == Bag(run.read)
  {
  }

  lemma FinishWrites(m: State, r: nat)
    requires Enabled(m, Finish(r))
    ensures var m' := Next(m, Finish(r)); var run := m.runs[r]; var a := AccountOf(m, run.session);
      && m'.reg.pending == (if run.read.Any() then m.reg.pending[run.session := run.read] else m.reg.pending)
      && m'.accounts == m.accounts[run.session := a.(
           lost := a.lost + if run.read.Any() then Bag(PendingFor(m.reg, run.session)) else multiset{})]
  {
    hide AccountOf, PendingFor, Bag;
  }

  lemma FinishMovesBags(m: State, m': State, run: Run)
    requires m'.reg.pending == (if run.read.Any() then m.reg.pending[run.session := run.read] else m.reg.pending)
    ensures Bag(PendingFor(m'.reg, run.session))
      == if run.read.Any() then Bag(run.read) else Bag(PendingFor(m.reg, run.session))
    ensures !run.read.Any() ==> Bag(run.read) == multiset{}
    ensures run.session !in m.reg.pending ==> Bag(PendingFor(m.reg, run.session)) == multiset{}
    ensures forall q :: q != run.session ==> PendingFor(m'.reg, q) == PendingFor(m.reg, q)
  {
  }

  lemma FinishLosesNothingQuiet(m: State, r: nat)
    requires Enabled(m, Finish(r)) && QuietRun(m, m.runs[r])
    ensures !AccountOf(m, m.runs[r].session).compactTook ==>
      !m.runs[r].read.Any() || m.runs[r].session !in m.reg.pending
  {
  }

  /** Only what an earlier run left and this one overwrites is lost, and a
      message run finds nothing to overwrite. */
  lemma FinishPays(m: State, r: nat)
    requires Enabled(m, Finish(r)) && QuietRun(m, m.runs[r])
    ensures Pays(m, Next(m, Finish(r)), r, multiset{})
  {
    hide Next, QuietRun, HeldBy, Bag, PendingFor, AccountOf, LetsGo, Pays;
    var m', s, run := Next(m, Finish(r)), m.runs[r].session, m.runs[r];
    var a := AccountOf(m, s);
    FinishLetsGo(m, r);
    LetsGoChanges(m, m', r);
    FinishHolds(m, r);
    FinishWrites(m, r);
    FinishMovesBags(m, m', run);
    FinishLosesNothingQuiet(m, r);
    OverwriteParts(HeldBy(run), Bag(PendingFor(m.reg, s)), a.lost,
                   HeldBy(m'.runs[r]), Bag(PendingFor(m'.reg, s)), m'.accounts[s].lost, run.read.Any());
    SwapParts(a.Out(), HeldBy(run), Bag(PendingFor(m.reg, s)), a.lost,
              a.Out(), HeldBy(m'.runs[r]), Bag(PendingFor(m'.reg, s)), m'.accounts[s].lost, multiset{});
    assert !m'.accounts[s].compactTook ==> m'.accounts[s].lost == a.lost;
    PaysByEntries(m, m', r, m'.accounts[s], multiset{});
  }

  lemma OverwriteParts(f: multiset<Message>, b: multiset<Message>, l: multiset<Message>,
                       f': multiset<Message>, b': multiset<Message>, l': multiset<Message>, any: bool)
    requires f' == multiset{} && b' == (if any then f else b) && l' == l + if any then b else multiset{}
    requires !any ==> f == multiset{}
    ensures f' + b' + l' == f + b + l + multiset{}
  {
  }

  lemma LetsGoChanges(m: State, m': State, r: nat)
    requires LetsGo(m, m', r)
    ensures Changes(m, m', r)
  {
  }

  lemma FinishRows(m: State, m': State, r: nat)
    requires Rows(m) && Changes(m, m', r) && m.runs[r].phase == FollowUpsRead
    requires m'.runs[r].id == m.runs[r].id && m'.runs[r].phase == Ending
    requires m'.rows == m.rows && m'.reg.byID == m.reg.byID - {m.runs[r].id}
    ensures Rows(m')
  {
    NoRow(FollowUpsRead);
    NoRow(Ending);
    hide Public, HasRow;
    assert m.reg.byID[m.runs[r].id] == r;
    forall q | q in m'.runs && Public(m'.runs[q].phase)
      ensures m'.runs[q].id in m'.reg.byID && m'.reg.byID[m'.runs[q].id] == q
    {
      assert m.reg.byID[m.runs[q].id] == q;
    }
  }

  lemma OneLivePerSession(m: State, r: nat, q: nat)
    requires Registered(m) && r in m.runs && q in m.runs && r != q
    requires Live(m.runs[r].phase) && Live(m.runs[q].phase)
    ensures m.runs[r].session != m.runs[q].session
  {
  }

  lemma FinishQuietOther(m: State, r: nat, q: nat)
    requires Enabled(m, Finish(r)) && q in m.runs && q != r && QuietRun(m, m.runs[q])
    requires Live(m.runs[q].phase) ==> m.runs[q].session != m.runs[r].session
    ensures QuietRun(Next(m, Finish(r)), m.runs[q])
  {
  }

  lemma FinishQuiet(m: State, r: nat)
    requires Registered(m) && Quiet(m) && Enabled(m, Finish(r))
    ensures Quiet(Next(m, Finish(r)))
  {
    hide Registered, QuietRun;
    var m' := Next(m, Finish(r));
    FinishLetsGo(m, r);
    assert QuietRun(m', m'.runs[r]) by { FinishQuietOwn(m, r); }
    hide Next;
    forall q | q in m'.runs ensures QuietRun(m', m'.runs[q]) {
      if q != r {
        QuietAt(m, q);
        if Live(m.runs[q].phase) { OneLivePerSession(m, r, q); }
        FinishQuietOther(m, r, q);
      }
    }
  }

  lemma FinishQuietOwn(m: State, r: nat)
    requires Quiet(m) && Enabled(m, Finish(r))
    ensures QuietRun(Next(m, Finish(r)), Next(m, Finish(r)).runs[r])
  {
    QuietAt(m, r);
    assert Next(m, Finish(r)) == Finished(m, r);
    hide Next, Enabled, Quiet;
    FinishedQuiet(m, r);
    hide Finished, QuietRun;
  }

  lemma FinishedQuiet(m: State, r: nat)
    requires At(m, r, FollowUpsRead) && QuietRun(m, m.runs[r])
    ensures r in Finished(m, r).runs && QuietRun(Finished(m, r), Finished(m, r).runs[r])
  {
    hide Bag, PendingFor;
  }

  lemma FinishKeeps(m: State, r: nat, session: string)
    requires Registered(m) && Rows(m) && Quiet(m) && Conserved(m, session) && Enabled(m, Finish(r))
    ensures var m' := Next(m, Finish(r)); Registered(m') && Rows(m') && Quiet(m') && Conserved(m', session)
  {
    hide Next, Registered, Rows, Quiet, QuietRun, Conserved, Pays;
    var m' := Next(m, Finish(r));
    QuietAt(m, r);
    FinishLetsGo(m, r);
    FinishPays(m, r);
    FinishQuiet(m, r);
    LetsGoRegistered(m, m', r);
    FinishRows(m, m', r);
    PaysConserves(m, m', r, multiset{}, session);
  }

  // ----- Shutting down -----

  predicate Shutdown(step: Step) {
    step.RetryEnds? || step.StopAll? || step.StopWaits? || step.StopRetries? || step.StopReturns?
  }

  lemma ShutdownKeeps(m: State, step: Step, session: string)
    requires Registered(m) && Rows(m) && Quiet(m) && Conserved(m, session) && Shutdown(step) && Enabled(m, step)
    ensures var m' := Next(m, step); Registered(m') && Rows(m') && Quiet(m') && Conserved(m', session)
  {
    var m' := Next(m, step);
    ShutdownSame(m, step);
    hide Next, Enabled, Registered, Rows, Quiet, Conserved, SameRuns;
    SameRunsKeep(m, m', session);
    SameRunsQuiet(m, m');
  }

  /** Only what shutting down itself uses has changed. */
  ghost predicate SameRuns(m: State, m': State) {
    m'.runs == m.runs && m'.accounts == m.accounts && m'.rows == m.rows
    && m'.reg == m.reg.(stopped := m'.reg.stopped)
  }

  lemma ShutdownSame(m: State, step: Step)
    requires Shutdown(step) && Enabled(m, step)
    ensures SameRuns(m, Next(m, step))
  {
  }

  lemma SameRunsKeep(m: State, m': State, session: string)
    requires Registered(m) && Rows(m) && Conserved(m, session) && SameRuns(m, m')
    ensures Registered(m') && Rows(m') && Conserved(m', session)
  {
    SameRunsRegistered(m, m');
    SameRunsRows(m, m');
    SameRunsConserved(m, m', session);
    hide Registered, Rows, Conserved;
  }

  lemma SameRunsRegistered(m: State, m': State)
    requires Registered(m) && SameRuns(m, m')
    ensures Registered(m')
  {
    hide Live;
  }

  lemma SameRunsRows(m: State, m': State)
    requires Rows(m) && SameRuns(m, m')
    ensures Rows(m')
  {
    hide Public, HasRow;
  }

  lemma SameRunsConserved(m: State, m': State, session: string)
    requires Registered(m) && Registered(m') && Conserved(m, session) && SameRuns(m, m')
    ensures Conserved(m', session)
  {
    RegisteredRuns(m);
    assert PendingFor(m'.reg, session) == PendingFor(m.reg, session) && AccountOf(m', session) == AccountOf(m, session);
    hide Held, Live, Bag, Registered, PendingFor, AccountOf;
  }

  lemma SameRunsQuiet(m: State, m': State)
    requires Quiet(m) && SameRuns(m, m')
    ensures Quiet(m')
  {
    forall r | r in m'.runs ensures QuietRun(m', m'.runs[r]) {
      assert QuietRun(m, m.runs[r]);
    }
  }

  predicate ClosedWhenOver(run: Run) {
    run.closes == if run.phase == Over then 1 else 0
  }

  lemma OneRunChanges(m: State, step: Step)
    requires Enabled(m, step)
    ensures Next(m, step).runs == m.runs
      || (!Shutdown(step) && step.r in Next(m, step).runs
          && Next(m, step).runs == m.runs[step.r := Next(m, step).runs[step.r]])
  {
    if Shutdown(step) {
      ShutdownSame(m, step);
      hide Next, Enabled;
    } else if Plain(step) {
      PlainOneRunChanges(m, step);
      hide Next, Enabled;
    }
  }

  lemma PlainOneRunChanges(m: State, step: Step)
    requires Plain(step) && Enabled(m, step)
    ensures step.r in Next(m, step).runs && Next(m, step).runs == m.runs[step.r := Next(m, step).runs[step.r]]
  {
  }

  lemma ChangedRunCloses(m: State, step: Step)
    requires Enabled(m, step) && !Shutdown(step) && (step.r in m.runs ==> ClosedWhenOver(m.runs[step.r]))
    ensures step.r in Next(m, step).runs ==> ClosedWhenOver(Next(m, step).runs[step.r])
  {
    hide AccountOf, Bag, PendingFor;
    if Plain(step) {
      PlainCloses(m, step);
      hide Next;
    }
  }

  lemma PlainCloses(m: State, step: Step)
    requires Plain(step) && Enabled(m, step) && ClosedWhenOver(m.runs[step.r])
    ensures step.r in Next(m, step).runs && ClosedWhenOver(Next(m, step).runs[step.r])
  {
  }

  lemma ClosesKept(m: State, step: Step)
    requires Closes(m) && Enabled(m, step)
    ensures Closes(Next(m, step))
  {
    hide Next, Enabled, ClosedWhenOver;
    OneRunChanges(m, step);
    if !Shutdown(step) {
      if step.r in m.runs { ClosedAt(m, step.r); }
      ChangedRunCloses(m, step);
      ClosesByRun(m, Next(m, step), step.r);
    }
  }

  lemma ClosedAt(m: State, r: nat)
    requires Closes(m) && r in m.runs
    ensures ClosedWhenOver(m.runs[r])
  {
  }

  lemma ClosesByRun(m: State, m': State, r: nat)
    requires Closes(m)
    requires m'.runs == m.runs || (r in m'.runs && m'.runs == m.runs[r := m'.runs[r]] && ClosedWhenOver(m'.runs[r]))
    ensures Closes(m')
  {
  }

  lemma StoppedFreesOnly(m: State, step: Step)
    requires Enabled(m, step) && m.reg.stopped
    ensures Next(m, step).reg.stopped
    ensures var bySession := Next(m, step).reg.bySession;
      forall s :: s in bySession ==> s in m.reg.bySession && bySession[s] == m.reg.bySession[s]
  {
    hide AccountOf, Bag, PendingFor;
    if Plain(step) {
      PlainSameRegistry(m, step);
      hide Next;
    } else if Shutdown(step) {
      ShutdownSame(m, step);
      hide Next;
    }
  }

  lemma PlainSameRegistry(m: State, step: Step)
    requires Plain(step) && Enabled(m, step)
    ensures Next(m, step).reg == m.reg
  {
  }

  lemma StoppedStartsNoRetry(m: State, step: Step)
    requires Enabled(m, step) && m.retriesStopped
    ensures Next(m, step).retriesStopped && Next(m, step).retries <= m.retries
  {
  }

  lemma StopperStillHolds(m: State, step: Step, stopper: Stopper)
    requires StopperHolds(m, stopper) && Enabled(m, step)
    ensures StopperHolds(Next(m, step), stopper)
  {
    StoppedFreesOnly(m, step);
    if m.retriesStopped { StoppedStartsNoRetry(m, step); }
    hide Next, Enabled;
  }

  /** The one place a thread's own list gets shorter: the run it waited for is over. */
  lemma WaitedRunGone(m: State, t: nat, r: nat)
    requires Registered(m) && Enabled(m, StopWaits(t, r))
    ensures forall s :: s in m.reg.bySession ==> m.reg.bySession[s] != r
  {
  }

  lemma StopperMoves(m: State, step: Step, t: nat)
    requires Registered(m) && Stopping(m) && Enabled(m, step)
    requires step.StopAll? || step.StopWaits? || step.StopRetries? || step.StopReturns?
    requires t == step.t
    ensures StopperHolds(Next(m, step), Next(m, step).stoppers[t])
    ensures Next(m, step).stoppers == m.stoppers[t := Next(m, step).stoppers[t]]
  {
    if step.StopWaits? { WaitedRunGone(m, t, step.r); }
    if step.StopRetries? {
      assert StopperHolds(m, m.stoppers[t]);
      assert m.reg.bySession == map[];
    }
  }

  lemma StoppingKept(m: State, step: Step)
    requires Registered(m) && Stopping(m) && Enabled(m, step)
    ensures Stopping(Next(m, step))
  {
    hide StopperHolds, Registered, Enabled, Next;
    var m' := Next(m, step);
    StopperOf(m, step);
    forall t | t in m'.stoppers ensures StopperHolds(m', m'.stoppers[t]) {
      if Stops(step) && t == step.t {
        StopperMoves(m, step, t);
      } else {
        StopperStillHolds(m, step, m.stoppers[t]);
      }
    }
    StoppersRuns(m, step);
  }

  predicate Stops(step: Step) {
    step.StopAll? || step.StopWaits? || step.StopRetries? || step.StopReturns?
  }

  lemma StopperOf(m: State, step: Step)
    requires Enabled(m, step)
    ensures forall t :: t in Next(m, step).stoppers && !(Stops(step) && t == step.t) ==>
      t in m.stoppers && Next(m, step).stoppers[t] == m.stoppers[t]
  {
    hide AccountOf, Bag, PendingFor;
  }

  lemma StoppersRuns(m: State, step: Step)
    requires Registered(m) && Stopping(m) && Enabled(m, step)
    ensures var m' := Next(m, step);
      forall t, r :: t in m'.stoppers && m'.stoppers[t].Waiting? && r in m'.stoppers[t].todo ==> r in m'.runs
  {
    hide StopperHolds, Registered, AccountOf, Bag, PendingFor;
    RunsStay(m, step);
    StopperOf(m, step);
    if step.StopAll? { ClaimedRuns(m); }
  }

  lemma RunsStay(m: State, step: Step)
    requires Enabled(m, step)
    ensures m.runs.Keys <= Next(m, step).runs.Keys
  {
    hide AccountOf, Bag, PendingFor;
    OneRunChanges(m, step);
    hide Next;
  }

  lemma ClaimedRuns(m: State)
    requires Registered(m)
    ensures m.reg.bySession.Values <= m.runs.Keys
  {
  }

  // ----- Every run -----

  lemma StepKeeps(m: State, step: Step, session: string)
    requires Inv(m) && Enabled(m, step)
    ensures var m' := Next(m, step); Registered(m') && Rows(m') && Quiet(m') && Conserved(m', session)
  {
    assert Conserved(m, session);
    hide Next, Enabled, Registered, Rows, Quiet, Conserved, Closes, Stopping, Inv;
    if Plain(step) {
      PlainKeeps(m, step, session);
    } else if Shutdown(step) {
      ShutdownKeeps(m, step, session);
    } else if step.Reserve? || step.Abandon? || step.StartRow? || step.Publish? {
      ClaimKeeps(m, step, session);
    } else {
      QueueKeeps(m, step, session);
    }
  }

  lemma ClaimKeeps(m: State, step: Step, session: string)
    requires Inv(m) && Conserved(m, session) && Enabled(m, step)
    requires step.Reserve? || step.Abandon? || step.StartRow? || step.Publish?
    ensures var m' := Next(m, step); Registered(m') && Rows(m') && Quiet(m') && Conserved(m', session)
  {
    hide Next, Enabled, Registered, Rows, Quiet, Conserved, Closes, Stopping;
    match step {
      case Reserve(r, name, compact) => ReserveKeeps(m, r, name, compact, session);
      case Abandon(r) => AbandonKeeps(m, r, session);
      case StartRow(r, row) => StartRowKeeps(m, r, row, session);
      case Publish(r) => PublishKeeps(m, r, session);
    }
  }

  lemma QueueKeeps(m: State, step: Step, session: string)
    requires Inv(m) && Conserved(m, session) && Enabled(m, step)
    requires step.TakePending? || step.Accept? || step.Deliver? || step.Finish?
    ensures var m' := Next(m, step); Registered(m') && Rows(m') && Quiet(m') && Conserved(m', session)
  {
    hide Next, Enabled, Registered, Rows, Quiet, Conserved, Closes, Stopping;
    match step {
      case TakePending(r) => TakePendingKeeps(m, r, session);
      case Accept(r, mode, message) => AcceptKeeps(m, r, mode, message, session);
      case Deliver(r, mode) => DeliverKeeps(m, r, mode, session);
      case Finish(r) => FinishKeeps(m, r, session);
    }
  }

  // ----- The order of one session's messages -----

  /** A run that moves on holding the same, or lets go of nothing, keeps the order. */
  lemma CarriesOrdered(m: State, m': State, r: nat, session: string)
    requires Registered(m) && Registered(m') && Carries(m, m', r) && Ordered(m, session)
    ensures Ordered(m', session)
  {
    RegisteredRuns(m);
    LiveStays(m, m', r, session);
    hide Queues, Registered, LiveQueues;
  }

  lemma LiveStays(m: State, m': State, r: nat, session: string)
    requires Registered(m) && Registered(m') && (Moves(m, m', r) || LetsGo(m, m', r))
    requires session != m.runs[r].session || !Live(m.runs[r].phase) || (Queues(m'.runs[r]) == Queues(m.runs[r]) && Moves(m, m', r))
    ensures LiveQueues(m', session) == LiveQueues(m, session)
  {
    hide Queues, Rank;
  }

  lemma LiveOwn(m: State, r: nat)
    requires Registered(m) && r in m.runs && Live(m.runs[r].phase)
    ensures m.runs[r].session in m.reg.bySession && LiveQueues(m, m.runs[r].session) == Queues(m.runs[r])
  {
    hide Queues;
  }

  lemma LiveNone(m: State, m': State, r: nat)
    requires Registered(m) && Registered(m') && LetsGo(m, m', r)
    ensures LiveQueues(m', m.runs[r].session) == NOTHING
  {
    LetsGoRegistered(m, m', r);
  }

  /** A step that concerns one session leaves every other's order alone. */
  lemma OtherOrdered(m: State, m': State, r: nat, session: string)
    requires Registered(m) && Registered(m') && (Moves(m, m', r) || LetsGo(m, m', r))
    requires session != m.runs[r].session && Ordered(m, session)
    requires AccountOf(m', session) == AccountOf(m, session) && PendingFor(m'.reg, session) == PendingFor(m.reg, session)
    ensures Ordered(m', session)
  {
    LiveStays(m, m', r, session);
    hide LiveQueues, AccountOf, PendingFor, Registered;
  }

  lemma Associates(a: Queued, b: Queued, c: Queued)
    ensures Behind(Behind(a, b), c) == Behind(a, Behind(b, c))
    ensures Behind(a, NOTHING) == a == Behind(NOTHING, a)
  {
  }

  lemma ReserveOrders(m: State, r: nat, name: string, compact: bool, session: string)
    requires Registered(m) && Ordered(m, session) && Enabled(m, Reserve(r, name, compact)) && Registered(Next(m, Reserve(r, name, compact)))
    ensures Ordered(Next(m, Reserve(r, name, compact)), session)
  {
    var m' := Next(m, Reserve(r, name, compact));
    ReserveChanges(m, r, name, compact);
    RegisteredRuns(m);
    ReserveLive(m, m', r, name, session);
    hide Next, Enabled, Registered, LiveQueues, QuietRun, Queues, Held;
    assert PendingFor(m'.reg, session) == PendingFor(m.reg, session) && AccountOf(m', session) == AccountOf(m, session);
  }

  lemma ReserveLive(m: State, m': State, r: nat, name: string, session: string)
    requires Registered(m) && Registered(m') && r !in m.runs && name !in m.reg.bySession
    requires r in m'.runs && m'.runs == m.runs[r := m'.runs[r]] && Queues(m'.runs[r]) == NOTHING
    requires m'.reg.bySession == m.reg.bySession[name := r]
    ensures LiveQueues(m', session) == LiveQueues(m, session)
  {
    RegisteredRuns(m);
    hide Queues, Live, Registered;
  }

  lemma AbandonOrders(m: State, r: nat, session: string)
    requires Registered(m) && Rows(m) && Quiet(m) && Ordered(m, session) && Enabled(m, Abandon(r)) && Registered(Next(m, Abandon(r)))
    ensures Ordered(Next(m, Abandon(r)), session)
  {
    var m' := Next(m, Abandon(r));
    QuietAt(m, r);
    BuildingHasNoRow(m, r);
    AbandonChanges(m, r);
    assert Queues(m.runs[r]) == NOTHING && Live(m.runs[r].phase);
    assert PendingFor(m'.reg, session) == PendingFor(m.reg, session) && AccountOf(m', session) == AccountOf(m, session);
    hide Next, Enabled, Registered, Rows, Quiet, QuietRun, LiveQueues, Queues, HeldBy, LetsGo, AccountOf, PendingFor;
    if session != m.runs[r].session {
      OtherOrdered(m, m', r, session);
    } else {
      LiveOwn(m, r);
      LiveNone(m, m', r);
    }
  }

  lemma TakePendingOrders(m: State, r: nat, session: string)
    requires Registered(m) && Quiet(m) && Ordered(m, session) && Enabled(m, TakePending(r)) && Registered(Next(m, TakePending(r)))
    ensures Ordered(Next(m, TakePending(r)), session)
  {
    var m' := Next(m, TakePending(r));
    QuietAt(m, r);
    TakePendingMoves(m, r);
    TakenQueues(m, r);
    assert Live(m.runs[r].phase) && Live(m'.runs[r].phase);
    assert AccountOf(m', session) == AccountOf(m, session);
    hide Next, Enabled, Registered, Quiet, QuietRun, LiveQueues, Queues, KeepsRow, AccountOf, Live, PendingFor;
    if session != m.runs[r].session {
      TakenElsewhere(m, m', m.runs[r].session, m.runs[r].compact, session);
      OtherOrdered(m, m', r, session);
    } else {
      LiveOwn(m, r);
      LiveOwn(m', r);
      var a := AccountOf(m, session);
      Associates(a.delivered, NOTHING, PendingFor(m.reg, session));
      Associates(a.delivered, PendingFor(m.reg, session), NOTHING);
    }
  }

  lemma TakenElsewhere(m: State, m': State, own: string, compact: bool, session: string)
    requires m'.reg == if compact then m.reg else PendingTaken(m.reg, own)
    requires session != own
    ensures PendingFor(m'.reg, session) == PendingFor(m.reg, session)
  {
  }

  lemma TakenQueues(m: State, r: nat)
    requires Enabled(m, TakePending(r)) && QuietRun(m, m.runs[r])
    ensures var m' := Next(m, TakePending(r)); var run := m.runs[r];
      && r in m'.runs && Queues(run) == NOTHING
      && (run.compact ==> Queues(m'.runs[r]) == NOTHING && PendingFor(m'.reg, run.session) == PendingFor(m.reg, run.session))
      && (!run.compact ==> Queues(m'.runs[r]) == PendingFor(m.reg, run.session) && PendingFor(m'.reg, run.session) == NOTHING)
  {
    assert Next(m, TakePending(r)) == Taken(m, r);
    hide Next, AccountOf;
  }

  lemma AcceptOrders(m: State, r: nat, mode: Mode, message: Message, session: string)
    requires Registered(m) && Quiet(m) && Ordered(m, session) && Enabled(m, Accept(r, mode, message))
    requires Registered(Next(m, Accept(r, mode, message)))
    ensures Ordered(Next(m, Accept(r, mode, message)), session)
  {
    var m' := Next(m, Accept(r, mode, message));
    QuietAt(m, r);
    MessageRunsAcceptInTime(m, r, mode, message);
    AcceptMoves(m, r, mode, message);
    AcceptWrites(m, r, mode, message);
    if session != m.runs[r].session {
      hide Next, Enabled, Registered, Quiet, QuietRun, LiveQueues, Queues, KeepsRow, Moves;
      OtherOrdered(m, m', r, session);
    } else if !m.runs[r].compact {
      AcceptedQueues(m, r, mode, message);
      hide Next, Enabled, Registered, Quiet, QuietRun, LiveQueues, Queues, KeepsRow, Moves, Live, PendingFor;
      LiveOwn(m, r);
      LiveOwn(m', r);
      var a := AccountOf(m, session);
      PutBehind(a.delivered, Queues(m.runs[r]), mode, message);
    }
  }

  lemma AcceptedQueues(m: State, r: nat, mode: Mode, message: Message)
    requires Enabled(m, Accept(r, mode, message)) && QuietRun(m, m.runs[r])
    requires !m.runs[r].compact && Rank(m.runs[r].phase) < 5
    ensures var m' := Next(m, Accept(r, mode, message));
      && r in m'.runs && Live(m.runs[r].phase) && Live(m'.runs[r].phase) && m'.runs[r].session == m.runs[r].session
      && Queues(m'.runs[r]) == Put(Queues(m.runs[r]), mode, message)
      && PendingFor(m.reg, m.runs[r].session) == NOTHING && PendingFor(m'.reg, m.runs[r].session) == NOTHING
  {
    assert Next(m, Accept(r, mode, message)) == Accepted(m, r, mode, message);
    hide Next, AccountOf;
  }

  lemma PutBehind(a: Queued, b: Queued, mode: Mode, message: Message)
    ensures Put(Behind(Behind(a, b), NOTHING), mode, message) == Behind(Behind(a, Put(b, mode, message)), NOTHING)
  {
  }

  lemma DeliverOrders(m: State, r: nat, mode: Mode, session: string)
    requires Registered(m) && Ordered(m, session) && Enabled(m, Deliver(r, mode)) && Registered(Next(m, Deliver(r, mode)))
    ensures Ordered(Next(m, Deliver(r, mode)), session)
  {
    var m' := Next(m, Deliver(r, mode));
    DeliverMoves(m, r, mode);
    DeliverHolds(m, r, mode);
    if session != m.runs[r].session {
      hide Next, Enabled, Registered, LiveQueues, Queues, KeepsRow, Moves, HeldBy;
      OtherOrdered(m, m', r, session);
    } else {
      DeliveredQueues(m, r, mode);
      hide Next, Enabled, Registered, LiveQueues, Queues, KeepsRow, Moves, Live, HeldBy, PendingFor;
      LiveOwn(m, r);
      LiveOwn(m', r);
      TakenOver(AccountOf(m, session).delivered, Queues(m.runs[r]), Queues(m'.runs[r]), PendingFor(m.reg, session), mode);
    }
  }

  lemma DeliveredQueues(m: State, r: nat, mode: Mode)
    requires Enabled(m, Deliver(r, mode))
    ensures var m' := Next(m, Deliver(r, mode)); var before := Queues(m.runs[r]);
      && r in m'.runs && Live(m.runs[r].phase) && Live(m'.runs[r].phase) && m'.runs[r].session == m.runs[r].session
      && Of(before, mode) != [] && Of(before, mode)[0] == (if mode == Steer then m.runs[r].steering[0] else m.runs[r].followUps[0])
      && Queues(m'.runs[r])
         == if mode == Steer then before.(steering := before.steering[1..]) else before.(followUps := before.followUps[1..])
  {
    assert Next(m, Deliver(r, mode)) == Delivered(m, r, mode);
    hide Next, AccountOf;
  }

  lemma TakenOver(a: Queued, b: Queued, b': Queued, c: Queued, mode: Mode)
    requires Of(b, mode) != []
    requires b' == if mode == Steer then b.(steering := b.steering[1..]) else b.(followUps := b.followUps[1..])
    ensures Behind(Behind(Put(a, mode, Of(b, mode)[0]), b'), c) == Behind(Behind(a, b), c)
  {
    assert Of(b, mode) == [Of(b, mode)[0]] + Of(b, mode)[1..];
    if mode == Steer {
      assert (a.steering + [b.steering[0]]) + b.steering[1..] == a.steering + b.steering;
    } else {
      assert (a.followUps + [b.followUps[0]]) + b.followUps[1..] == a.followUps + b.followUps;
    }
  }

  lemma FinishOrders(m: State, r: nat, session: string)
    requires Registered(m) && Quiet(m) && Ordered(m, session) && Enabled(m, Finish(r)) && Registered(Next(m, Finish(r)))
    ensures Ordered(Next(m, Finish(r)), session)
  {
    hide Next, Registered, Quiet, QuietRun, LiveQueues, Queues, LetsGo, PendingFor, Live, Bag, Behind;
    var m' := Next(m, Finish(r));
    QuietAt(m, r);
    FinishLetsGo(m, r);
    FinishWrites(m, r);
    if session != m.runs[r].session {
      FinishMovesBags(m, m', m.runs[r]);
      OtherOrdered(m, m', r, session);
    } else if !AccountOf(m, session).compactTook {
      FinishedQueues(m, r);
      EndsLive(m, r);
      LiveOwn(m, r);
      LiveNone(m, m', r);
      var a := AccountOf(m, session);
      Associates(a.delivered, Queues(m.runs[r]), PendingFor(m.reg, session));
      Associates(a.delivered, NOTHING, PendingFor(m'.reg, session));
    }
  }

  lemma EndsLive(m: State, r: nat)
    requires Enabled(m, Finish(r))
    ensures Live(m.runs[r].phase)
  {
  }

  /** Either nothing waited and what the run read waits now, or it read nothing. */
  lemma FinishedQueues(m: State, r: nat)
    requires Enabled(m, Finish(r)) && QuietRun(m, m.runs[r]) && !AccountOf(m, m.runs[r].session).compactTook
    ensures Behind(Queues(m.runs[r]), PendingFor(m.reg, m.runs[r].session)) == PendingFor(Next(m, Finish(r)).reg, m.runs[r].session)
  {
    hide Next, QuietRun, AccountOf, Queues, Bag;
    FinishWrites(m, r);
    FinishLosesNothingQuiet(m, r);
    EndQueues(m.runs[r]);
    Associates(m.runs[r].read, NOTHING, NOTHING);
    Associates(PendingFor(m.reg, m.runs[r].session), NOTHING, NOTHING);
  }

  lemma EndQueues(run: Run)
    requires run.phase == FollowUpsRead
    ensures Queues(run) == run.read && (!run.read.Any() ==> run.read == NOTHING)
  {
  }

  lemma SameRunsOrdered(m: State, m': State, session: string)
    requires Registered(m) && Registered(m') && Ordered(m, session) && SameRuns(m, m')
    ensures Ordered(m', session)
  {
    RegisteredRuns(m);
    assert PendingFor(m'.reg, session) == PendingFor(m.reg, session) && AccountOf(m', session) == AccountOf(m, session);
    hide Queues, Live, Registered, PendingFor, AccountOf;
  }

  lemma OrderKept(m: State, step: Step, session: string)
    requires Inv(m) && Enabled(m, step)
    ensures Registered(Next(m, step)) && Ordered(Next(m, step), session)
  {
    hide Next, Enabled, Registered, Rows, Quiet, Conserved, Ordered, Closes, Stopping, Inv;
    InvParts(m, session);
    StepKeeps(m, step, session);
    match step {
      case Reserve(r, name, compact) => ReserveOrders(m, r, name, compact, session);
      case Abandon(r) => AbandonOrders(m, r, session);
      case TakePending(r) => TakePendingOrders(m, r, session);
      case Accept(r, mode, message) => AcceptOrders(m, r, mode, message, session);
      case Deliver(r, mode) => DeliverOrders(m, r, mode, session);
      case Finish(r) => FinishOrders(m, r, session);
      case _ => OtherStepOrders(m, step, session);
    }
  }

  lemma InvParts(m: State, session: string)
    requires Inv(m)
    ensures Registered(m) && Rows(m) && Quiet(m) && Conserved(m, session) && Ordered(m, session)
  {
    hide Registered, Rows, Quiet, Conserved, Ordered;
  }

  lemma OtherStepOrders(m: State, step: Step, session: string)
    requires Inv(m) && Enabled(m, step) && Ordered(m, session) && Registered(Next(m, step))
    requires Plain(step) || Shutdown(step) || step.StartRow? || step.Publish?
    ensures Ordered(Next(m, step), session)
  {
    var m' := Next(m, step);
    hide Rows, Quiet, Conserved, Ordered, Closes, Stopping, Carries, SameRuns, QuietRun, Next, Registered;
    if Shutdown(step) {
      ShutdownSame(m, step);
      SameRunsOrdered(m, m', session);
    } else {
      MovedCarries(m, step);
      CarriesOrdered(m, m', step.r, session);
    }
  }

  lemma MovedCarries(m: State, step: Step)
    requires Quiet(m) && Enabled(m, step) && (Plain(step) || step.StartRow? || step.Publish?)
    ensures Carries(m, Next(m, step), step.r)
  {
    QuietOf(m, step);
    hide Carries, Next, QuietRun;
    if Plain(step) {
      PlainMovesOn(m, step);
    } else if step.StartRow? {
      StartRowCarries(m, step.r, step.row);
    } else {
      PublishCarries(m, step.r);
    }
  }

  lemma QuietOf(m: State, step: Step)
    requires Quiet(m) && Enabled(m, step) && (Plain(step) || step.StartRow? || step.Publish?)
    ensures step.r in m.runs && QuietRun(m, m.runs[step.r])
  {
    hide QuietRun;
  }

  lemma InvKept(m: State, step: Step)
    requires Inv(m) && Enabled(m, step)
    ensures Inv(Next(m, step))
  {
    hide Next, Enabled, Registered, Rows, Quiet, Closes, Stopping, Conserved, Ordered;
    StepKeeps(m, step, "");
    ClosesKept(m, step);
    StoppingKept(m, step);
    forall session ensures Conserved(Next(m, step), session) && Ordered(Next(m, step), session) {
      StepKeeps(m, step, session);
      OrderKept(m, step, session);
    }
  }

  /** `steps` can be taken in order from `m`. */
  predicate Runs(m: State, steps: seq<Step>)
    decreases |steps|
  {
    steps == [] || (Enabled(m, steps[0]) && Runs(Next(m, steps[0]), steps[1..]))
  }

  function After(m: State, steps: seq<Step>): State
    requires Runs(m, steps)
    decreases |steps|
  {
    if steps == [] then m else After(Next(m, steps[0]), steps[1..])
  }

  lemma {:induction false} InvAlways(m: State, steps: seq<Step>)
    requires Inv(m) && Runs(m, steps)
    ensures Inv(After(m, steps))
    decreases |steps|
  {
    if steps != [] {
      InvKept(m, steps[0]);
      hide Inv;
      InvAlways(Next(m, steps[0]), steps[1..]);
    }
  }

  lemma InitInv()
    ensures Inv(INIT)
  {
  }

  ghost predicate Reachable(m: State) {
    exists steps :: Runs(INIT, steps) && After(INIT, steps) == m
  }

  lemma ReachableInv(m: State)
    requires Reachable(m)
    ensures Inv(m)
  {
    hide After, Runs, Inv;
    var steps :| Runs(INIT, steps) && After(INIT, steps) == m;
    InitInv();
    InvAlways(INIT, steps);
  }

  lemma {:induction false} AfterThen(m: State, steps: seq<Step>, step: Step)
    requires Runs(m, steps) && Enabled(After(m, steps), step)
    ensures Runs(m, steps + [step]) && After(m, steps + [step]) == Next(After(m, steps), step)
    decreases |steps|
  {
    if steps == [] {
      assert steps + [step] == [step];
    } else {
      assert (steps + [step])[1..] == steps[1..] + [step];
      AfterThen(Next(m, steps[0]), steps[1..], step);
    }
  }

  lemma ReachableNext(m: State, step: Step)
    requires Reachable(m) && Enabled(m, step)
    ensures Reachable(Next(m, step))
  {
    var steps :| Runs(INIT, steps) && After(INIT, steps) == m;
    AfterThen(INIT, steps, step);
  }

  lemma {:induction false} ReachableAfter(m: State, steps: seq<Step>)
    requires Reachable(m) && Runs(m, steps)
    ensures Reachable(After(m, steps))
    decreases |steps|
  {
    if steps != [] {
      ReachableNext(m, steps[0]);
      hide Reachable;
      ReachableAfter(Next(m, steps[0]), steps[1..]);
    }
  }

  /** At every moment of every interleaving, a session has at most one live run,
      and a live run is the one its session is registered to. */
  lemma OneRunPerSession(m: State, r: nat, q: nat)
    requires Reachable(m) && r in m.runs && q in m.runs
    requires Live(m.runs[r].phase) && Live(m.runs[q].phase) && m.runs[r].session == m.runs[q].session
    ensures r == q && m.runs[r].session in m.reg.bySession && m.reg.bySession[m.runs[r].session] == r
  {
    ReachableInv(m);
    hide Reachable, Rows, Closes, Stopping, Quiet, Conserved;
  }

  /** Looking a run up by its row finds the current run of its session. */
  lemma ByIdIsCurrent(m: State, id: string)
    requires Reachable(m) && id in m.reg.byID
    ensures var r := m.reg.byID[id];
      && r in m.runs && m.runs[r].id == id
      && m.runs[r].session in m.reg.bySession && m.reg.bySession[m.runs[r].session] == r
  {
    ReachableInv(m);
    hide Reachable, Closes, Stopping, Quiet, Conserved;
  }

  /** Whoever waits for a run's end is released once, never twice, and not
      before its session is free. */
  lemma DoneClosedOnce(m: State, r: nat)
    requires Reachable(m) && r in m.runs
    ensures m.runs[r].closes <= 1 && (m.runs[r].closes == 1 <==> m.runs[r].phase == Over)
    ensures m.runs[r].closes == 1 ==> r !in m.reg.bySession.Values && r !in m.reg.byID.Values
  {
    ReachableInv(m);
    hide Reachable, Stopping, Quiet, Conserved;
    if m.runs[r].phase == Over { OverLeft(m, r); }
    hide Registered, Rows;
  }

  lemma OverLeft(m: State, r: nat)
    requires Registered(m) && Rows(m) && At(m, r, Over)
    ensures r !in m.reg.bySession.Values && r !in m.reg.byID.Values
  {
    assert !Live(Over) && !Public(Over);
    hide HasRow, Public, Live;
  }

  predicate Lets(step: Step, r: nat) {
    step == Abandon(r) || step == Finish(r)
  }

  /** An ending run takes itself out and nobody else: every other session keeps
      its run, and every other run stays findable. */
  lemma EndingRemovesOnlyItself(m: State, step: Step, r: nat)
    requires Reachable(m) && Enabled(m, step) && Lets(step, r)
    ensures var m' := Next(m, step);
      && m.runs[r].session in m.reg.bySession && m.reg.bySession[m.runs[r].session] == r
      && m'.reg.bySession == m.reg.bySession - {m.runs[r].session}
      && (forall id :: id in m.reg.byID && m.reg.byID[id] != r ==> id in m'.reg.byID && m'.reg.byID[id] == m.reg.byID[id])
      && (forall id :: id in m'.reg.byID ==> m'.reg.byID[id] != r)
  {
    ReachableInv(m);
    QuietAt(m, r);
    if step.Finish? {
      FinishLetsGo(m, r);
    } else {
      BuildingHasNoRow(m, r);
      AbandonChanges(m, r);
    }
    hide Reachable, Next, Closes, Stopping, Quiet, QuietRun, Conserved, Rows, LetsGo;
    LetsGoRegistered(m, Next(m, step), r);
    LetsGoHeld(m, Next(m, step), r);
    LookupsLeft(m, r);
  }

  lemma LetsGoHeld(m: State, m': State, r: nat)
    requires Registered(m) && LetsGo(m, m', r)
    ensures m.runs[r].session in m.reg.bySession && m.reg.bySession[m.runs[r].session] == r
  {
  }

  /** Taking a live run's own row out leaves every other run's. */
  lemma LookupsLeft(m: State, r: nat)
    requires Rows(m) && r in m.runs && (m.runs[r].phase == Building || m.runs[r].phase == FollowUpsRead)
    ensures var left := if m.runs[r].phase == Building then m.reg.byID else m.reg.byID - {m.runs[r].id};
      && (forall id :: id in m.reg.byID && m.reg.byID[id] != r ==> id in left && left[id] == m.reg.byID[id])
      && (forall id :: id in left ==> left[id] != r)
  {
  }

  lemma {:induction false} ReturnedStays(m: State, steps: seq<Step>, t: nat)
    requires Runs(m, steps) && t in m.stoppers && m.stoppers[t] == Returned
    ensures var m' := After(m, steps); t in m'.stoppers && m'.stoppers[t] == Returned
    decreases |steps|
  {
    if steps != [] { ReturnedStays(Next(m, steps[0]), steps[1..], t); }
  }

  /** From the moment a shutdown returns, whatever else happens: no run is live,
      no run can be admitted, and no background write is left. */
  lemma NothingAfterShutdown(m: State, t: nat, steps: seq<Step>)
    requires Reachable(m) && t in m.stoppers && m.stoppers[t] == Returned && Runs(m, steps)
    ensures var m' := After(m, steps);
      && m'.reg.bySession == map[] && m'.reg.byID == map[] && m'.retries == {}
      && (forall r :: r in m'.runs ==> !Live(m'.runs[r].phase))
      && (forall r, session, compact :: !Enabled(m', Reserve(r, session, compact)))
  {
    ReturnedStays(m, steps, t);
    ReachableAfter(m, steps);
    var m' := After(m, steps);
    ReachableInv(m');
    assert StopperHolds(m', m'.stoppers[t]);
    hide Reachable, After, Runs, Closes, Quiet, Conserved;
  }

  /** Across all the runs of a session that no compaction took a message from,
      every accepted message has been delivered once, is held by the live run, or
      waits for the next one. */
  lemma MessageRunsLoseNothing(m: State, session: string)
    requires Reachable(m) && !AccountOf(m, session).compactTook
    ensures session in m.reg.bySession ==> m.reg.bySession[session] in m.runs
    ensures AccountOf(m, session).accepted.steering
         == AccountOf(m, session).delivered.steering + LiveQueues(m, session).steering + PendingFor(m.reg, session).steering
    ensures AccountOf(m, session).accepted.followUps
         == AccountOf(m, session).delivered.followUps + LiveQueues(m, session).followUps + PendingFor(m.reg, session).followUps
    ensures AccountOf(m, session).lost == multiset{}
  {
    ReachableInv(m);
    assert Conserved(m, session) && Ordered(m, session);
    hide Reachable, Rows, Closes, Stopping, Quiet;
  }

  /** What a step loses for good: what a finishing compaction overwrites, and
      what a compaction accepts behind the reading of its queue. */
  function LostBy(m: State, step: Step, session: string): multiset<Message> {
    if !Loses(m, step, session) then multiset{}
    else if step.Finish? then Bag(PendingFor(m.reg, session)) else multiset{step.message}
  }

  /** Checked before the step: a compaction that read messages finishes while an
      earlier run's wait, or accepts one whose queue it has read. */
  predicate Loses(m: State, step: Step, session: string) {
    match step
    case Finish(r) =>
      r in m.runs && m.runs[r].session == session && m.runs[r].compact && m.runs[r].read.Any() && PendingFor(m.reg, session).Any()
    case Accept(r, mode, _) =>
      r in m.runs && m.runs[r].session == session && m.runs[r].compact && !Unread(m.runs[r], mode)
    case _ => false
  }

  /** Nothing else is ever lost: in every reachable state a step takes exactly
      that away, from that session alone. */
  lemma StepLoses(m: State, step: Step, session: string)
    requires Reachable(m) && Enabled(m, step)
    ensures AccountOf(Next(m, step), session).lost == AccountOf(m, session).lost + LostBy(m, step, session)
    ensures LostBy(m, step, session) != multiset{} <==> Loses(m, step, session)
  {
    BagOfAny(PendingFor(m.reg, session));
    hide Reachable, Next, Enabled, Bag, PendingFor, AccountOf, Unread;
    if step.Finish? {
      FinishLoses(m, step.r, session);
    } else if step.Accept? {
      AcceptLoses(m, step.r, step.mode, step.message, session);
    } else {
      LosesNothing(m, step, session);
    }
  }

  lemma LosesNothing(m: State, step: Step, session: string)
    requires Enabled(m, step) && !step.Finish? && !step.Accept?
    ensures AccountOf(Next(m, step), session).lost == AccountOf(m, session).lost
  {
    if step.Deliver? {
      DeliverHolds(m, step.r, step.mode);
      hide Next, HeldBy;
    } else {
      SameAccounts(m, step);
      hide Next;
    }
  }

  lemma SameAccounts(m: State, step: Step)
    requires Enabled(m, step) && !step.Finish? && !step.Accept? && !step.Deliver?
    ensures Next(m, step).accounts == m.accounts
  {
  }

  lemma BagOfAny(q: Queued)
    ensures Bag(q) != multiset{} <==> q.Any()
  {
    if q.Any() { assert Bag(q)[if q.steering != [] then q.steering[0] else q.followUps[0]] > 0; }
  }

  lemma FinishLoses(m: State, r: nat, session: string)
    requires Reachable(m) && Enabled(m, Finish(r))
    ensures AccountOf(Next(m, Finish(r)), session).lost == AccountOf(m, session).lost + LostBy(m, Finish(r), session)
  {
    ReachableInv(m);
    QuietAt(m, r);
    FinishWrites(m, r);
    MessageRunsFindNothing(m, r);
    BagOfAny(PendingFor(m.reg, m.runs[r].session));
    hide Reachable, Next, Inv, QuietRun, Bag, PendingFor;
  }

  lemma MessageRunsFindNothing(m: State, r: nat)
    requires Enabled(m, Finish(r)) && QuietRun(m, m.runs[r])
    ensures !m.runs[r].compact ==> !PendingFor(m.reg, m.runs[r].session).Any()
  {
  }

  lemma AcceptLoses(m: State, r: nat, mode: Mode, message: Message, session: string)
    requires Reachable(m) && Enabled(m, Accept(r, mode, message))
    ensures AccountOf(Next(m, Accept(r, mode, message)), session).lost
         == AccountOf(m, session).lost + LostBy(m, Accept(r, mode, message), session)
  {
    hide Reachable, Next, QuietRun, Unread, Registered, Rows, Closes, Stopping, Quiet, Conserved, Ordered, Put, Bag;
    ReachableInv(m);
    QuietAt(m, r);
    MessageRunsAcceptInTime(m, r, mode, message);
    CompactionTakesLate(m, r, mode);
    AcceptWrites(m, r, mode, message);
  }

  predicate LosesAlong(m: State, steps: seq<Step>, session: string)
    requires Runs(m, steps)
    decreases |steps|
  {
    steps != [] && (Loses(m, steps[0], session) || LosesAlong(Next(m, steps[0]), steps[1..], session))
  }

  /** Over any run of the machine something of a session is lost exactly if some
      step of it is one of those two, and what was lost stays lost. */
  lemma {:induction false} LosesIff(m: State, steps: seq<Step>, session: string)
    requires Reachable(m) && Runs(m, steps)
    ensures AccountOf(m, session).lost <= AccountOf(After(m, steps), session).lost
    ensures AccountOf(After(m, steps), session).lost != AccountOf(m, session).lost <==> LosesAlong(m, steps, session)
    decreases |steps|
  {
    if steps != [] {
      ReachableNext(m, steps[0]);
      StepLoses(m, steps[0], session);
      hide Reachable, Next, Enabled, Loses, LostBy, AccountOf;
      LosesIff(Next(m, steps[0]), steps[1..], session);
    }
  }

  // ----- A compaction can lose what waits -----

  /** It comes about: a compaction that accepts a message overwrites the one waiting before it. */
  lemma CompactionOverwrites(first: Message, second: Message)
    ensures exists m :: Reachable(m) && (AccountOf(m, "s").lost == multiset{first} && PendingFor(m.reg, "s") == Queued([second], []))
  {
    assert Runs(INIT, []) && After(INIT, []) == INIT;
    var m := RunStarts(INIT, 0, "a", false);
    m := RunLeaves(m, 0, first);
    m := RunStarts(m, 1, "b", true);
    m := RunLeaves(m, 1, second);
  }

  /** And so does the other: a compaction accepts one behind the reading of its queue. */
  lemma CompactionForgets(message: Message)
    ensures exists m :: Reachable(m) && (AccountOf(m, "s").lost == multiset{message} && PendingFor(m.reg, "s") == NOTHING)
  {
    assert Runs(INIT, []) && After(INIT, []) == INIT;
    var m := RunStarts(INIT, 0, "a", true);
    hide Reachable;
    m := CompactionLate(m, 0);
    AcceptedLate(m, 0, message);
  }

  /** A compaction of "s" has read its queues. */
  lemma CompactionLate(m: State, r: nat) returns (m': State)
    requires Reachable(m) && At(m, r, Driving) && m.runs[r].compact && m.runs[r].followUps == []
    ensures Reachable(m') && m'.reg == m.reg && m'.accounts == m.accounts
    ensures m'.runs == m.runs[r := m.runs[r].(phase := FollowUpsRead, accepting := true, read := Queued(m.runs[r].steering, []))]
  {
    hide Reachable;
    ReachableNext(m, EndLoop(r)); m' := Next(m, EndLoop(r));
    assert m'.runs == m.runs[r := m.runs[r].(phase := Stopped, accepting := true)];
    assert m'.reg == m.reg && m'.accounts == m.accounts;
    hide Next;
    m' := QueuesRead(m', r);
  }

  lemma AcceptedLate(m: State, r: nat, message: Message)
    requires Reachable(m) && At(m, r, FollowUpsRead) && m.runs[r].session == "s" && m.runs[r].accepting && m.runs[r].id != ""
    ensures exists m' ::
      Reachable(m') && AccountOf(m', "s").lost == AccountOf(m, "s").lost + multiset{message} && m'.reg == m.reg
  {
    var step := Accept(r, Steer, message);
    ReachableNext(m, step);
    AcceptWrites(m, r, Steer, message);
    assert Reachable(Next(m, step));
    hide Reachable, Next;
  }

  /** A run of "s" gets as far as its loop. */
  lemma RunStarts(m: State, r: nat, row: string, compact: bool) returns (m': State)
    requires Reachable(m) && r !in m.runs && row != "" && row !in m.rows && CanReserve(m.reg, "s")
    requires compact || "s" !in m.reg.pending
    ensures Reachable(m') && m'.reg.pending == m.reg.pending && !m'.reg.stopped && m'.accounts == m.accounts
    ensures m'.runs == m.runs[r := Run("s", compact, Driving, row, true, [], [], NOTHING, false, 0)]
    ensures m'.rows == m.rows[row := r] && m'.reg.bySession == m.reg.bySession["s" := r]
  {
    hide Reachable;
    m' := RunClaims(m, r, row, compact);
    ReachableNext(m', TakePending(r)); m' := Next(m', TakePending(r));
    m' := LoopStarts(m', r);
  }

  lemma LoopStarts(m: State, r: nat) returns (m': State)
    requires Reachable(m) && At(m, r, Loaded)
    ensures Reachable(m') && m'.reg == Published(m.reg, m.runs[r].id, r) && m'.rows == m.rows && m'.accounts == m.accounts
    ensures m'.runs == m.runs[r := m.runs[r].(phase := Driving)]
  {
    hide Reachable;
    ReachableNext(m, BeginLoop(r)); m' := Next(m, BeginLoop(r));
    ReachableNext(m', Publish(r));  m' := Next(m', Publish(r));
  }

  lemma RunClaims(m: State, r: nat, row: string, compact: bool) returns (m': State)
    requires Reachable(m) && r !in m.runs && row != "" && row !in m.rows && CanReserve(m.reg, "s")
    ensures Reachable(m') && m'.reg == Reserved(m.reg, "s", r) && m'.accounts == m.accounts
    ensures m'.runs == m.runs[r := Run("s", compact, Started, row, true, [], [], NOTHING, false, 0)]
    ensures m'.rows == m.rows[row := r]
  {
    hide Reachable;
    ReachableNext(m, Reserve(r, "s", compact)); m' := Next(m, Reserve(r, "s", compact));
    ReachableNext(m', StartRow(r, row));        m' := Next(m', StartRow(r, row));
  }

  /** It accepts one message, delivers none and ends. */
  lemma RunLeaves(m: State, r: nat, message: Message) returns (m': State)
    requires Reachable(m) && At(m, r, Driving) && !m.reg.stopped
    requires m.runs[r] == Run("s", m.runs[r].compact, Driving, m.runs[r].id, true, [], [], NOTHING, false, 0) && m.runs[r].id != ""
    requires "s" in m.reg.bySession && m.reg.bySession["s"] == r
    ensures Reachable(m') && m'.runs.Keys == m.runs.Keys && m'.rows == m.rows && CanReserve(m'.reg, "s")
    ensures PendingFor(m'.reg, "s") == Queued([message], [])
    ensures AccountOf(m', "s").lost == AccountOf(m, "s").lost + Bag(PendingFor(m.reg, "s"))
  {
    hide Reachable;
    m' := RunCloses(m, r, message);
    m' := QueuesRead(m', r);
    ReachableNext(m', Finish(r)); m' := Next(m', Finish(r));
  }

  lemma QueuesRead(m: State, r: nat) returns (m': State)
    requires Reachable(m) && At(m, r, Stopped) && m.runs[r].followUps == []
    ensures Reachable(m') && m'.reg == m.reg && m'.rows == m.rows && m'.accounts == m.accounts
    ensures m'.runs == m.runs[r := m.runs[r].(phase := FollowUpsRead, read := Queued(m.runs[r].steering, []))]
  {
    hide Reachable;
    ReachableNext(m, RecordEnd(r, true));  m' := Next(m, RecordEnd(r, true));
    ReachableNext(m', ReadSteering(r));    m' := Next(m', ReadSteering(r));
    ReachableNext(m', ReadFollowUps(r));   m' := Next(m', ReadFollowUps(r));
  }

  lemma RunCloses(m: State, r: nat, message: Message) returns (m': State)
    requires Reachable(m) && At(m, r, Driving)
    requires m.runs[r].session == "s" && m.runs[r].accepting && m.runs[r].id != "" && m.runs[r].steering == []
    ensures Reachable(m') && m'.reg == m.reg && m'.rows == m.rows && m'.retriesStopped == m.retriesStopped
    ensures m'.runs == m.runs[r := m.runs[r].(phase := Stopped, steering := [message], accepting := m.runs[r].compact)]
    ensures AccountOf(m', "s").lost == AccountOf(m, "s").lost
  {
    hide Reachable;
    ReachableNext(m, Accept(r, Steer, message)); m' := Next(m, Accept(r, Steer, message));
    ReachableNext(m', EndLoop(r));               m' := Next(m', EndLoop(r));
    assert m.runs[r].steering + [message] == [message];
  }

  // ----- A shutdown can always return -----

  lemma {:induction false} Then(m: State, first: seq<Step>, second: seq<Step>)
    requires Runs(m, first) && Runs(After(m, first), second)
    ensures Runs(m, first + second) && After(m, first + second) == After(After(m, first), second)
    decreases |first|
  {
    if first == [] {
      assert first + second == second;
    } else {
      assert (first + second)[1..] == first[1..] + second;
      Then(Next(m, first[0]), first[1..], second);
    }
  }

  /** The step of a run's own thread that is open to it whatever the others do. */
  function OwnStep(m: State, r: nat): Step
    requires r in m.runs && m.runs[r].phase != Over
  {
    match m.runs[r].phase
    case Building => Abandon(r)
    case Started => TakePending(r)
    case Loaded => BeginLoop(r)
    case Known => Publish(r)
    case Driving => EndLoop(r)
    case Stopped => RecordEnd(r, true)
    case Recorded => ReadSteering(r)
    case SteeringRead => ReadFollowUps(r)
    case FollowUpsRead => Finish(r)
    case Ending => CloseDone(r)
  }

  lemma OwnStepAdvances(m: State, r: nat)
    requires r in m.runs && m.runs[r].phase != Over
    ensures Enabled(m, OwnStep(m, r))
    ensures var m' := Next(m, OwnStep(m, r));
      && m'.stoppers == m.stoppers && m'.runs.Keys == m.runs.Keys && Rank(m'.runs[r].phase) > Rank(m.runs[r].phase)
  {
    hide Taken, Finished, Accepted, Delivered;
    match m.runs[r].phase {
      case Started => TakenAdvances(m, r);
      case FollowUpsRead => FinishedAdvances(m, r);
      case _ =>
    }
  }

  lemma TakenAdvances(m: State, r: nat)
    requires At(m, r, Started)
    ensures var m' := Taken(m, r); m'.stoppers == m.stoppers && m'.runs.Keys == m.runs.Keys && At(m', r, Loaded)
  {
  }

  lemma FinishedAdvances(m: State, r: nat)
    requires At(m, r, FollowUpsRead)
    ensures var m' := Finished(m, r); m'.stoppers == m.stoppers && m'.runs.Keys == m.runs.Keys && At(m', r, Ending)
  {
    hide AccountOf, Bag, PendingFor;
  }

  /** A run left to itself comes to its end. */
  lemma {:induction false} RunEnds(m: State, r: nat) returns (steps: seq<Step>)
    requires r in m.runs
    ensures Runs(m, steps) && At(After(m, steps), r, Over)
    ensures After(m, steps).stoppers == m.stoppers && After(m, steps).runs.Keys == m.runs.Keys
    decreases 10 - Rank(m.runs[r].phase)
  {
    if m.runs[r].phase == Over { return []; }
    var step := OwnStep(m, r);
    OwnStepAdvances(m, r);
    hide Next, Enabled, OwnStep;
    var rest := RunEnds(Next(m, step), r);
    steps := [step] + rest;
    assert steps[1..] == rest;
  }

  lemma {:induction false} WaitsEnd(m: State, t: nat) returns (steps: seq<Step>)
    requires t in m.stoppers && m.stoppers[t].Waiting? && m.stoppers[t].todo <= m.runs.Keys
    ensures Runs(m, steps) && t in After(m, steps).stoppers && After(m, steps).stoppers[t] == Waiting({})
    decreases m.stoppers[t].todo
  {
    if m.stoppers[t].todo == {} { return []; }
    var r :| r in m.stoppers[t].todo;
    var ending := RunEnds(m, r);
    var ended := After(m, ending);
    var next := Next(ended, StopWaits(t, r));
    WaitedOne(ended, t, r);
    hide Next, Enabled, After, Runs;
    var rest := WaitsEnd(next, t);
    Then1(ended, StopWaits(t, r), rest);
    Then(m, ending, [StopWaits(t, r)] + rest);
    steps := ending + ([StopWaits(t, r)] + rest);
  }

  lemma WaitedOne(m: State, t: nat, r: nat)
    requires Enabled(m, StopWaits(t, r))
    ensures var m' := Next(m, StopWaits(t, r));
      m'.runs == m.runs && t in m'.stoppers && m'.stoppers[t] == Waiting(m.stoppers[t].todo - {r})
  {
  }

  lemma Then1(m: State, step: Step, rest: seq<Step>)
    requires Enabled(m, step) && Runs(Next(m, step), rest)
    ensures Runs(m, [step] + rest) && After(m, [step] + rest) == After(Next(m, step), rest)
  {
    assert ([step] + rest)[1..] == rest;
  }

  lemma {:induction false} RetriesEnd(m: State, t: nat) returns (steps: seq<Step>)
    requires t in m.stoppers && m.stoppers[t] == Joining
    ensures Runs(m, steps) && t in After(m, steps).stoppers && After(m, steps).stoppers[t] == Returned
    decreases m.retries
  {
    if m.retries == {} {
      Then1(m, StopReturns(t), []);
      return [StopReturns(t)];
    }
    var retry :| retry in m.retries;
    var next := Next(m, RetryEnds(retry));
    assert next.stoppers == m.stoppers && next.retries == m.retries - {retry};
    hide Next, Runs, After;
    var rest := RetriesEnd(next, t);
    Then1(m, RetryEnds(retry), rest);
    steps := [RetryEnds(retry)] + rest;
  }

  /** However far things have gone, a shutdown under way can still return. */
  lemma ShutdownCanReturn(m: State, t: nat)
    requires Reachable(m) && t in m.stoppers
    ensures exists steps ::
      Runs(m, steps) && t in After(m, steps).stoppers && After(m, steps).stoppers[t] == Returned
  {
    ReachableInv(m);
    hide Reachable, Registered, Rows, Quiet, Closes, Conserved;
    match m.stoppers[t] {
      case Returned => assert Runs(m, []) && After(m, []) == m;
      case Joining => var _ := RetriesEnd(m, t);
      case Waiting(todo) =>
        var waits := WaitsEnd(m, t);
        var rest := JoinsAndReturns(After(m, waits), t);
        Then(m, waits, rest);
    }
  }

  lemma JoinsAndReturns(m: State, t: nat) returns (steps: seq<Step>)
    requires t in m.stoppers && m.stoppers[t] == Waiting({})
    ensures Runs(m, steps) && t in After(m, steps).stoppers && After(m, steps).stoppers[t] == Returned
  {
    var joined := Next(m, StopRetries(t));
    var rest := RetriesEnd(joined, t);
    Then1(m, StopRetries(t), rest);
    steps := [StopRetries(t)] + rest;
  }
}
