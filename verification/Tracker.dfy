/** Search quotas: counters in memory, written through to the store in the order
    they changed. */
module Tracker {
  import opened Provider

  /** A moment, and the UTC day and month it falls in. Times are minutes since the
      zero time. */
  datatype Moment = Moment(at: int, day: string, month: string)

  const COOLDOWN_BASE: int := 15
  const COOLDOWN_MAX: int := 360
  const NO_TIME: int := 0

  datatype Usage = Usage(
    day: string, dayUsed: nat, month: string, monthUsed: nat, cooldownUntil: int, failStreak: nat)

  datatype Change = Use | Failure(until: int)

  /** A bucket's counters as of `now`. */
  function Entry(u: Option<Usage>, now: Moment): Usage {
    var known := if u.None? then Usage.Usage(now.day, 0, now.month, 0, NO_TIME, 0) else u.value;
    var today := if known.day != now.day then known.(day := now.day, dayUsed := 0) else known;
    if today.month != now.month then today.(month := now.month, monthUsed := 0) else today
  }

  function Doubled(base: int, times: nat): int {
    if times == 0 then base else 2 * Doubled(base, times - 1)
  }

  function Backoff(failStreak: nat): int
    requires failStreak > 0
  {
    Min(Doubled(COOLDOWN_BASE, Min(failStreak - 1, 10)), COOLDOWN_MAX)
  }

  function Changed(u: Usage, now: Moment, change: Change): Usage {
    match change
    case Use => u.(dayUsed := u.dayUsed + 1, monthUsed := u.monthUsed + 1, failStreak := 0, cooldownUntil := NO_TIME)
    case Failure(until) =>
      var cooled := now.at + Backoff(u.failStreak + 1);
      u.(failStreak := u.failStreak + 1, cooldownUntil := Max(cooled, until))
  }

  function Of(usage: map<string, Usage>, name: string): Option<Usage> {
    if name in usage then Some(usage[name]) else None
  }

  class Tracker {
    const persists: bool
    var usage: map<string, Usage>
    var store: map<string, Usage>

    constructor (persists: bool, store: map<string, Usage>)
      ensures this.persists == persists && this.store == store && usage == if persists then store else map[]
    {
      this.persists, this.store := persists, store;
      usage := if persists then store else map[];
    }

    /** Reading rolls the counters over in memory alone. */
    method Read(name: string, now: Moment) returns (u: Usage)
      modifies this`usage
      ensures u == Entry(Of(old(usage), name), now) && usage == old(usage)[name := u]
    {
      u := Entry(Of(usage, name), now);
      usage := usage[name := u];
    }

    /** `saved` says whether the store took the write. */
    method Update(name: string, now: Moment, change: Change) returns (saved: bool)
      modifies this
      ensures var u := Changed(Entry(Of(old(usage), name), now), now, change);
        && usage == old(usage)[name := u]
        && store == (if saved then old(store)[name := u] else old(store))
      ensures saved ==> persists
    {
      var u := Read(name, now);
      u := Changed(u, now, change);
      usage := usage[name := u];
      saved := false;
      if !persists { return; }
      saved := *;
      if saved {
        store := store[name := u];
      }
    }
  }

  // ----- What the counters say -----

  /** Each failure in a row doubles the cooldown, up to its ceiling. */
  lemma BackoffDoubles(failStreak: nat)
    requires failStreak > 0
    ensures Backoff(1) == 15
    ensures Backoff(failStreak + 1) == if 2 * Backoff(failStreak) < 6 * 60 then 2 * Backoff(failStreak) else 6 * 60
  {
  }

  datatype Recorded = Recorded(now: Moment, change: Change)

  function After(u: Option<Usage>, records: seq<Recorded>): Option<Usage> {
    if records == [] then u
    else
      var last := records[|records| - 1];
      Some(Changed(Entry(After(u, records[..|records| - 1]), last.now), last.now, last.change))
  }

  /** The uses at the end of a history, as far back as it stays on one day. */
  function UsesOn(records: seq<Recorded>, day: string): nat {
    if records == [] || records[|records| - 1].now.day != day then 0
    else UsesOn(records[..|records| - 1], day) + if records[|records| - 1].change.Use? then 1 else 0
  }

  function UsesIn(records: seq<Recorded>, month: string): nat {
    if records == [] || records[|records| - 1].now.month != month then 0
    else UsesIn(records[..|records| - 1], month) + if records[|records| - 1].change.Use? then 1 else 0
  }

  function FailuresInARow(records: seq<Recorded>): nat {
    if records == [] || records[|records| - 1].change.Use? then 0
    else FailuresInARow(records[..|records| - 1]) + 1
  }

  /** The counters of a bucket are the uses of the day and the month. */
  lemma {:induction false} CountersCount(records: seq<Recorded>, now: Moment)
    ensures Entry(After(None, records), now).dayUsed == UsesOn(records, now.day)
    ensures Entry(After(None, records), now).monthUsed == UsesIn(records, now.month)
    ensures Entry(After(None, records), now).failStreak == FailuresInARow(records)
  {
    if records != [] {
      CountersCount(records[..|records| - 1], records[|records| - 1].now);
    }
  }

  /** When a bucket may be searched with again: at once, unless its last use failed;
      then at the later of what the service asked for and the backoff of as many
      failures as there were in a row. Reading does not change it. */
  lemma CooldownIsLater(records: seq<Recorded>, now: Moment)
    ensures var u := Entry(After(None, records), now);
      && u.day == now.day && u.month == now.month
      && (records == [] || records[|records| - 1].change.Use? ==> u.cooldownUntil == 0)
      && (records != [] && records[|records| - 1].change.Failure? ==>
            var last := records[|records| - 1];
            var backedOff := last.now.at + Backoff(FailuresInARow(records));
            && u.cooldownUntil >= last.change.until && u.cooldownUntil >= backedOff
            && (u.cooldownUntil == last.change.until || u.cooldownUntil == backedOff))
  {
    if records != [] {
      var before, last := records[..|records| - 1], records[|records| - 1];
      CountersCount(before, last.now);
      ChangeCools(Entry(After(None, before), last.now), last.now, last.change);
      hide Backoff, Changed;
    }
  }

  lemma ChangeCools(u: Usage, now: Moment, change: Change)
    ensures var after := Changed(u, now, change);
      && (change.Use? ==> after.cooldownUntil == 0 && after.failStreak == 0)
      && (change.Failure? ==>
            var backedOff := now.at + Backoff(u.failStreak + 1);
            && after.failStreak == u.failStreak + 1 && after.cooldownUntil >= change.until && after.cooldownUntil >= backedOff
            && (after.cooldownUntil == change.until || after.cooldownUntil == backedOff))
  {
    hide Backoff;
  }

  // ----- Any number of threads -----

  /** Where a thread's update stands between taking and releasing the locks. */
  datatype Phase = Idle | Holding | Snapshotted | Handing | Saving | Saved

  datatype Snapshot = Snapshot(name: string, usage: Usage)

  /** `updates` are the changes in the order they were made, `writes` those in the
      order they were sent to the store. */
  datatype State = State(
    mu: Option<nat>, saveMu: Option<nat>, phases: map<nat, Phase>, snapshots: map<nat, Snapshot>,
    usage: map<string, Usage>, store: map<string, Usage>,
    updates: seq<Snapshot>, writes: seq<Snapshot>)

  datatype Step =
    | LockMu(t: nat)
    | Apply(t: nat, name: string, now: Moment, change: Change)
    | LockSave(t: nat)
    | UnlockMu(t: nat)
    | Write(t: nat, ok: bool)
    | UnlockSave(t: nat)
    | Read(name: string, now: Moment)

  function PhaseOf(m: State, t: nat): Phase {
    if t in m.phases then m.phases[t] else Idle
  }

  predicate Enabled(m: State, step: Step) {
    match step
    case LockMu(t) => PhaseOf(m, t) == Idle && m.mu.None?
    case Apply(t, _, _, _) => PhaseOf(m, t) == Holding
    case LockSave(t) => PhaseOf(m, t) == Snapshotted && m.saveMu.None?
    case UnlockMu(t) => PhaseOf(m, t) == Handing
    case Write(t, _) => PhaseOf(m, t) == Saving && t in m.snapshots
    case UnlockSave(t) => PhaseOf(m, t) == Saved
    case Read(_, _) => m.mu.None?
  }

  function Next(m: State, step: Step): State
    requires Enabled(m, step)
  {
    match step
    case LockMu(t) => m.(mu := Some(t), phases := m.phases[t := Holding])
    case Apply(t, name, now, change) =>
      var u := Changed(Entry(Of(m.usage, name), now), now, change);
      m.(usage := m.usage[name := u], snapshots := m.snapshots[t := Snapshot(name, u)],
         updates := m.updates + [Snapshot(name, u)], phases := m.phases[t := Snapshotted])
    case LockSave(t) => m.(saveMu := Some(t), phases := m.phases[t := Handing])
    case UnlockMu(t) => m.(mu := None, phases := m.phases[t := Saving])
    case Write(t, ok) =>
      var s := m.snapshots[t];
      m.(store := if ok then m.store[s.name := s.usage] else m.store,
         writes := m.writes + [s], phases := m.phases[t := Saved])
    case UnlockSave(t) => m.(saveMu := None, phases := m.phases[t := Idle])
    case Read(name, now) => m.(usage := m.usage[name := Entry(Of(m.usage, name), now)])
  }

  predicate HoldsMu(p: Phase) { p == Holding || p == Snapshotted || p == Handing }

  predicate HoldsSave(p: Phase) { p == Handing || p == Saving || p == Saved }

  /** Made but not yet written: the saver's own update, then the holder's. */
  function Unwritten(m: State): seq<Snapshot> {
    (if m.saveMu.Some? && PhaseOf(m, m.saveMu.value) in {Handing, Saving} && m.saveMu.value in m.snapshots
     then [m.snapshots[m.saveMu.value]] else [])
    + (if m.mu.Some? && PhaseOf(m, m.mu.value) == Snapshotted && m.mu.value in m.snapshots
       then [m.snapshots[m.mu.value]] else [])
  }

  ghost predicate Inv(m: State) {
    && (forall t: nat :: HoldsMu(PhaseOf(m, t)) <==> m.mu == Some(t))
    && (forall t: nat :: HoldsSave(PhaseOf(m, t)) <==> m.saveMu == Some(t))
    && (forall t: nat :: PhaseOf(m, t) in {Snapshotted, Handing, Saving} ==> t in m.snapshots)
    && m.updates == m.writes + Unwritten(m)
  }

  lemma LocksKept(m: State, step: Step)
    requires Inv(m) && Enabled(m, step)
    ensures var m' := Next(m, step);
      && (forall t: nat :: HoldsMu(PhaseOf(m', t)) <==> m'.mu == Some(t))
      && (forall t: nat :: HoldsSave(PhaseOf(m', t)) <==> m'.saveMu == Some(t))
      && (forall t: nat :: PhaseOf(m', t) in {Snapshotted, Handing, Saving} ==> t in m'.snapshots)
  {
    hide Unwritten;
  }

  lemma OrderKept(m: State, step: Step)
    requires Inv(m) && Enabled(m, step)
    ensures Next(m, step).updates == Next(m, step).writes + Unwritten(Next(m, step))
  {
    var m' := Next(m, step);
    if !step.Read? {
      var p := PhaseOf(m, step.t);
      assert HoldsMu(p) || HoldsSave(p) || p == Idle;
    }
  }

  function Run(m: State, steps: seq<Step>): Option<State> {
    if steps == [] then Some(m)
    else
      var before := Run(m, steps[..|steps| - 1]);
      if before.Some? && Enabled(before.value, steps[|steps| - 1])
      then Some(Next(before.value, steps[|steps| - 1])) else None
  }

  /** The tracker as it is made, holding what the store has. */
  function Fresh(store: map<string, Usage>): State {
    State(None, None, map[], map[], store, store, [], [])
  }

  lemma {:induction false} InvAlways(store: map<string, Usage>, steps: seq<Step>)
    requires Run(Fresh(store), steps).Some?
    ensures Inv(Run(Fresh(store), steps).value)
  {
    if steps != [] {
      InvAlways(store, steps[..|steps| - 1]);
      var m := Run(Fresh(store), steps[..|steps| - 1]).value;
      LocksKept(m, steps[|steps| - 1]);
      OrderKept(m, steps[|steps| - 1]);
    }
  }

  /** The store is written in the order of the updates, and once no update is
      under way every one of them was. */
  lemma WritesFollowUpdates(store: map<string, Usage>, steps: seq<Step>)
    requires Run(Fresh(store), steps).Some?
    ensures var m := Run(Fresh(store), steps).value;
      && m.writes <= m.updates && |m.updates| - |m.writes| <= 2
      && ((forall t: nat :: PhaseOf(m, t) == Idle) ==> m.writes == m.updates)
  {
    InvAlways(store, steps);
    var m := Run(Fresh(store), steps).value;
    if m.saveMu.Some? { assert HoldsSave(PhaseOf(m, m.saveMu.value)); }
    if m.mu.Some? { assert HoldsMu(PhaseOf(m, m.mu.value)); }
  }

  predicate AllWritten(steps: seq<Step>) {
    forall step :: step in steps && step.Write? ==> step.ok
  }

  function LastUpdate(updates: seq<Snapshot>, name: string): Option<Usage> {
    if updates == [] then None
    else if updates[|updates| - 1].name == name then Some(updates[|updates| - 1].usage)
    else LastUpdate(updates[..|updates| - 1], name)
  }

  lemma {:induction false} StoreHasLastWrite(store: map<string, Usage>, steps: seq<Step>, name: string)
    requires Run(Fresh(store), steps).Some? && AllWritten(steps)
    ensures var m := Run(Fresh(store), steps).value;
      Of(m.store, name) == if LastUpdate(m.writes, name).Some? then LastUpdate(m.writes, name) else Of(store, name)
  {
    if steps != [] {
      var before, step := steps[..|steps| - 1], steps[|steps| - 1];
      assert step in steps;
      StoreHasLastWrite(store, before, name);
      var m := Run(Fresh(store), before).value;
      if step.Write? {
        var s := m.snapshots[step.t];
        assert (m.writes + [s])[..|m.writes|] == m.writes;
      }
    }
  }

  /** With every write taken, a tracker at rest has stored each bucket's latest
      counters, however its threads were interleaved. */
  lemma StoreHasLastUpdate(store: map<string, Usage>, steps: seq<Step>, name: string)
    requires Run(Fresh(store), steps).Some? && AllWritten(steps)
    requires forall t: nat :: PhaseOf(Run(Fresh(store), steps).value, t) == Idle
    ensures var m := Run(Fresh(store), steps).value;
      LastUpdate(m.updates, name).Some? ==> Of(m.store, name) == LastUpdate(m.updates, name)
  {
    WritesFollowUpdates(store, steps);
    StoreHasLastWrite(store, steps, name);
  }

  /** Whoever is in the middle of an update, some thread can go on. */
  lemma NeverDeadlocked(store: map<string, Usage>, steps: seq<Step>, t: nat)
    requires Run(Fresh(store), steps).Some? && PhaseOf(Run(Fresh(store), steps).value, t) != Idle
    ensures var m := Run(Fresh(store), steps).value;
      exists step: Step :: Enabled(m, step) && !step.LockMu? && !step.Read?
  {
    InvAlways(store, steps);
    var m := Run(Fresh(store), steps).value;
    if m.saveMu.Some? {
      var s := m.saveMu.value;
      assert HoldsSave(PhaseOf(m, s));
      assert Enabled(m, UnlockMu(s)) || Enabled(m, Write(s, true)) || Enabled(m, UnlockSave(s));
    } else {
      assert !HoldsSave(PhaseOf(m, t));
      assert Enabled(m, Apply(t, "", Moment(0, "", ""), Use)) || Enabled(m, LockSave(t));
    }
  }
}
