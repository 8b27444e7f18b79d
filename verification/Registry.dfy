/** The registry of runs going now: what each of its critical sections does. */
module Registry {
  import opened Provider

  datatype Queued = Queued(steering: seq<Message>, followUps: seq<Message>) {
    predicate Any() { |steering| != 0 || |followUps| != 0 }
  }

  const NOTHING := Queued([], [])

  /** The shared maps. `R` is how a run is told from every other. */
  datatype Reg<R(==)> = Reg(
    stopped: bool, bySession: map<string, R>, byID: map<string, R>, pending: map<string, Queued>)

  predicate CanReserve<R(==)>(reg: Reg<R>, session: string) {
    !reg.stopped && session !in reg.bySession
  }

  function Reserved<R(==)>(reg: Reg<R>, session: string, r: R): Reg<R> {
    reg.(bySession := reg.bySession[session := r])
  }

  /** Releases the session, unless another run has it by now. */
  function Released<R(==)>(reg: Reg<R>, session: string, r: R): Reg<R> {
    if session in reg.bySession && reg.bySession[session] == r
    then reg.(bySession := reg.bySession - {session}) else reg
  }

  function Forgotten<R(==)>(reg: Reg<R>, session: string, id: string, r: R): Reg<R> {
    var released := Released(reg, session, r);
    if id != "" then released.(byID := released.byID - {id}) else released
  }

  function Published<R(==)>(reg: Reg<R>, id: string, r: R): Reg<R> {
    reg.(byID := reg.byID[id := r])
  }

  function PendingFor<R(==)>(reg: Reg<R>, session: string): Queued {
    if session in reg.pending then reg.pending[session] else NOTHING
  }

  function PendingTaken<R(==)>(reg: Reg<R>, session: string): Reg<R> {
    reg.(pending := reg.pending - {session})
  }

  /** Keeps what a run left undelivered and drops the run, in one step. */
  function FinishedRun<R(==)>(reg: Reg<R>, session: string, id: string, r: R, queued: Queued): Reg<R> {
    var kept := if queued.Any() then reg.(pending := reg.pending[session := queued]) else reg;
    var released := Released(kept, session, r);
    released.(byID := released.byID - {id})
  }

  class ActiveRun {
    const session: string
    var id: string
    var aborted: bool
    var cancelled: bool
    var done: bool

    constructor (session: string)
      ensures this.session == session && id == "" && !aborted && !cancelled && !done
    {
      this.session, id, aborted, cancelled, done := session, "", false, false, false;
    }

    method Abort()
      modifies this`aborted, this`cancelled
      ensures aborted && cancelled
    {
      aborted := true;
      cancelled := true;
    }
  }

  /** The registry itself; each method body is one critical section. */
  class Runs {
    var stopped: bool
    var bySession: map<string, ActiveRun>
    var byID: map<string, ActiveRun>
    var pending: map<string, Queued>

    constructor ()
      ensures View() == Reg(false, map[], map[], map[])
    {
      stopped, bySession, byID, pending := false, map[], map[], map[];
    }

    ghost function View(): Reg<ActiveRun>
      reads this
    {
      Reg(stopped, bySession, byID, pending)
    }

    /** The run has no session any more; one that another run has by now keeps that,
        as every other session does. */
    ghost predicate Dropped(a: ActiveRun, before: Reg<ActiveRun>)
      reads this, a
    {
      && stopped == before.stopped
      && (forall s :: s in bySession <==> s in before.bySession && !(s == a.session && before.bySession[s] == a))
      && (forall s :: s in bySession ==> bySession[s] == before.bySession[s])
    }

    method Reserve(session: string) returns (r: Option<ActiveRun>)
      modifies this
      ensures r.Some? <==> CanReserve(old(View()), session)
      ensures r.Some? <==> !old(stopped) && session !in old(bySession)
      ensures r.None? ==> View() == old(View())
      ensures r.Some? ==> fresh(r.value) && r.value.session == session && r.value.id == "" && !r.value.done
      ensures r.Some? ==> View() == Reserved(old(View()), session, r.value)
    {
      if stopped || session in bySession { return None; }
      var active := new ActiveRun(session);
      bySession := bySession[session := active];
      r := Some(active);
    }

    method Forget(a: ActiveRun)
      modifies this
      ensures View() == Forgotten(old(View()), a.session, a.id, a)
      ensures Dropped(a, old(View())) && pending == old(pending)
      ensures byID == if a.id == "" then old(byID) else old(byID) - {a.id}
    {
      if a.session in bySession && bySession[a.session] == a {
        bySession := bySession - {a.session};
      }
      if a.id != "" {
        byID := byID - {a.id};
      }
    }

    method Abandon(a: ActiveRun)
      modifies this, a`cancelled, a`done
      ensures View() == Forgotten(old(View()), a.session, a.id, a) && a.cancelled && a.done
    {
      Forget(a);
      a.cancelled := true;
      a.done := true;
    }

    method Publish(a: ActiveRun)
      modifies this
      ensures View() == Published(old(View()), a.id, a) && byID == old(byID)[a.id := a] && bySession == old(bySession)
    {
      byID := byID[a.id := a];
    }

    method TakePending(session: string) returns (queued: Queued)
      modifies this
      ensures queued == PendingFor(old(View()), session) && View() == PendingTaken(old(View()), session)
      ensures session !in pending && (forall s :: s != session ==> (s in pending <==> s in old(pending)))
      ensures forall s :: s in pending ==> pending[s] == old(pending)[s]
      ensures if session in old(pending) then queued == old(pending)[session] else queued.steering == queued.followUps == []
    {
      queued := if session in pending then pending[session] else NOTHING;
      pending := pending - {session};
    }

    method Finish(a: ActiveRun, queued: Queued)
      modifies this
      ensures View() == FinishedRun(old(View()), a.session, a.id, a, queued)
      ensures Dropped(a, old(View())) && byID == old(byID) - {a.id}
      ensures pending == if queued.steering != [] || queued.followUps != [] then old(pending)[a.session := queued] else old(pending)
    {
      if queued.Any() {
        pending := pending[a.session := queued];
      }
      if a.session in bySession && bySession[a.session] == a {
        bySession := bySession - {a.session};
      }
      byID := byID - {a.id};
    }

    /** Refuses every later run and names the ones to stop. */
    method StopAdmitting() returns (active: set<ActiveRun>)
      modifies this
      ensures View() == old(View()).(stopped := true) && active == bySession.Values
    {
      stopped := true;
      active := bySession.Values;
    }
  }

  /** Final run-state writes that outlive their foreground retry window. */
  class FinishRetries {
    var stopped: bool
    var nextID: nat
    var cancels: map<nat, bool>

    ghost predicate Valid()
      reads this
    {
      forall id :: id in cancels ==> id < nextID && (stopped ==> cancels[id])
    }

    constructor ()
      ensures Valid() && !stopped && cancels == map[]
    {
      stopped, nextID, cancels := false, 0, map[];
    }

    /** Starts a background retry under a new id, unless shutdown has begun. */
    method Start() returns (id: Option<nat>)
      requires Valid()
      modifies this
      ensures Valid() && stopped == old(stopped)
      ensures id.Some? <==> !stopped
      ensures id.Some? ==> id.value !in old(cancels) && cancels == old(cancels)[id.value := false]
      ensures id.None? ==> cancels == old(cancels)
    {
      if stopped { return None; }
      cancels := cancels[nextID := false];
      id := Some(nextID);
      nextID := nextID + 1;
    }

    method Done(id: nat)
      requires Valid()
      modifies this`cancels
      ensures Valid() && cancels == old(cancels) - {id}
    {
      cancels := cancels - {id};
    }

    /** Cancels every retry still going; joining them is left to the caller. */
    method Stop()
      requires Valid()
      modifies this
      ensures Valid() && stopped && cancels.Keys == old(cancels).Keys
      ensures forall id :: id in cancels ==> cancels[id]
    {
      if stopped { return; }
      stopped := true;
      cancels := map id | id in cancels :: true;
    }
  }
}
