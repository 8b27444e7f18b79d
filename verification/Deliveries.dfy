/** Where a message in front of the model came from, and what becomes of it. */
module Deliveries {
  import opened Provider

  /** The run's own first message comes from no queue. */
  datatype Origin = Opener | Steering | FollowUps

  datatype Delivery = Delivery(origin: Origin, message: Message)

  function Tagged(origin: Origin, msgs: seq<Message>): (ds: seq<Delivery>)
    ensures |ds| == |msgs|
    ensures forall i :: 0 <= i < |msgs| ==> ds[i] == Delivery(origin, msgs[i])
  {
    seq(|msgs|, i requires 0 <= i < |msgs| => Delivery(origin, msgs[i]))
  }

  function MessagesOf(ds: seq<Delivery>): (msgs: seq<Message>)
    ensures |msgs| == |ds|
    ensures forall i :: 0 <= i < |ds| ==> msgs[i] == ds[i].message
  {
    seq(|ds|, i requires 0 <= i < |ds| => ds[i].message)
  }

  /** The messages that came from one origin, in order. */
  function From(ds: seq<Delivery>, origin: Origin): seq<Message> {
    if ds == [] then []
    else
      var last := ds[|ds| - 1];
      From(ds[..|ds| - 1], origin) + if last.origin == origin then [last.message] else []
  }

  lemma FromAppend(ds: seq<Delivery>, d: Delivery, origin: Origin)
    ensures From(ds + [d], origin) == From(ds, origin) + if d.origin == origin then [d.message] else []
  {
    assert (ds + [d])[..|ds|] == ds;
  }

  lemma {:induction false} FromConcat(a: seq<Delivery>, b: seq<Delivery>, origin: Origin)
    ensures From(a + b, origin) == From(a, origin) + From(b, origin)
    decreases |b|
  {
    if b == [] {
      assert a + b == a;
    } else {
      assert a + b == (a + b[..|b| - 1]) + [b[|b| - 1]];
      FromConcat(a, b[..|b| - 1], origin);
      FromAppend(a + b[..|b| - 1], b[|b| - 1], origin);
    }
  }

  lemma {:induction false} FromTagged(tag: Origin, msgs: seq<Message>, origin: Origin)
    ensures From(Tagged(tag, msgs), origin) == if tag == origin then msgs else []
  {
    if msgs != [] {
      var n := |msgs| - 1;
      FromTagged(tag, msgs[..n], origin);
      assert Tagged(tag, msgs)[..n] == Tagged(tag, msgs[..n]);
      assert msgs == msgs[..n] + [msgs[n]];
    }
  }

  // ----- Taking undelivered messages back -----

  function Stored(n: nat, msgs: seq<Message>): nat { Min(n, |msgs|) }

  /** What of a turn's messages and its steering is still undelivered once the
      first `n` of them are stored. */
  function MessagesLeft(msgs: seq<Message>, n: nat): seq<Message> {
    msgs[Min(n, |msgs|)..]
  }

  function SteeringLeft(msgs: seq<Message>, steered: seq<Message>, n: nat): seq<Message>
    requires n <= |msgs| + |steered|
  {
    steered[Max(n - |msgs|, 0)..]
  }

  /** The steering queue after the undelivered messages went back to the front:
      first the turn's own, when they came from it, then its steering. */
  function SteeringRestored(origin: Origin, msgs: seq<Message>, steered: seq<Message>, n: nat, queue: seq<Message>): seq<Message>
    requires n <= |msgs| + |steered|
  {
    SteeringLeft(msgs, steered, n) + (if origin == Steering then MessagesLeft(msgs, n) else []) + queue
  }

  function FollowUpsRestored(origin: Origin, msgs: seq<Message>, n: nat, queue: seq<Message>): seq<Message> {
    (if origin == FollowUps then MessagesLeft(msgs, n) else []) + queue
  }

  function Batch(origin: Origin, msgs: seq<Message>, steered: seq<Message>): seq<Delivery> {
    Tagged(origin, msgs) + Tagged(Steering, steered)
  }

  lemma BatchLeft(origin: Origin, msgs: seq<Message>, steered: seq<Message>, n: nat)
    requires n <= |msgs| + |steered|
    ensures Batch(origin, msgs, steered)[n..] == Tagged(origin, MessagesLeft(msgs, n)) + Tagged(Steering, SteeringLeft(msgs, steered, n))
    ensures From(Batch(origin, msgs, steered)[n..], Steering)
      == (if origin == Steering then MessagesLeft(msgs, n) else []) + SteeringLeft(msgs, steered, n)
    ensures From(Batch(origin, msgs, steered)[n..], FollowUps)
      == if origin == FollowUps then MessagesLeft(msgs, n) else []
  {
    var a, b := Tagged(origin, MessagesLeft(msgs, n)), Tagged(Steering, SteeringLeft(msgs, steered, n));
    assert Batch(origin, msgs, steered)[n..] == a + b;
    forall o: Origin ensures From(a + b, o) == From(a, o) + From(b, o) {
      FromConcat(a, b, o);
    }
    FromTagged(origin, MessagesLeft(msgs, n), Steering);
    FromTagged(origin, MessagesLeft(msgs, n), FollowUps);
    FromTagged(Steering, SteeringLeft(msgs, steered, n), Steering);
    FromTagged(Steering, SteeringLeft(msgs, steered, n), FollowUps);
  }

  /** Nothing that came from a queue is lost or duplicated by going back. */
  lemma RestoringConserves(origin: Origin, msgs: seq<Message>, steered: seq<Message>, n: nat,
                           steering: seq<Message>, followUps: seq<Message>)
    requires n <= |msgs| + |steered|
    ensures var left := Batch(origin, msgs, steered)[n..];
      && multiset(SteeringRestored(origin, msgs, steered, n, steering)) == multiset(From(left, Steering)) + multiset(steering)
      && FollowUpsRestored(origin, msgs, n, followUps) == From(left, FollowUps) + followUps
  {
    BatchLeft(origin, msgs, steered, n);
  }

  /** Both parts of a steering turn are still undelivered. */
  predicate Inverts(origin: Origin, msgs: seq<Message>, steered: seq<Message>, n: nat)
    requires n <= |msgs| + |steered|
  {
    origin == Steering && MessagesLeft(msgs, n) != [] && SteeringLeft(msgs, steered, n) != []
  }

  ghost predicate Distinct(msgs: seq<Message>) {
    forall i, j :: 0 <= i < j < |msgs| ==> msgs[i] != msgs[j]
  }

  /** The account of the steering queue after the undelivered messages went
      back and `more` arrived behind them. */
  lemma SteeringBalances(ds: seq<Delivery>, origin: Origin, msgs: seq<Message>, steered: seq<Message>, n: nat,
                         queue: seq<Message>, more: seq<Message>)
    requires n <= |msgs| + |steered| == |Batch(origin, msgs, steered)|
    ensures var taken := From(ds + Batch(origin, msgs, steered)[n..], Steering) + queue + more;
            var back := SteeringRestored(origin, msgs, steered, n, queue) + more;
      && multiset(taken) == multiset(From(ds, Steering)) + multiset(back)
      && (!Inverts(origin, msgs, steered, n) ==> taken == From(ds, Steering) + back)
  {
    hide From, Batch, MessagesLeft, SteeringLeft;
    BatchLeft(origin, msgs, steered, n);
    FromConcat(ds, Batch(origin, msgs, steered)[n..], Steering);
    var a, b := if origin == Steering then MessagesLeft(msgs, n) else [], SteeringLeft(msgs, steered, n);
    Reorder(From(ds, Steering), a, b, queue, more);
  }

  lemma FollowUpsBalance(ds: seq<Delivery>, origin: Origin, msgs: seq<Message>, steered: seq<Message>, n: nat,
                         queue: seq<Message>, more: seq<Message>)
    requires n <= |msgs| + |steered| == |Batch(origin, msgs, steered)|
    ensures From(ds + Batch(origin, msgs, steered)[n..], FollowUps) + queue + more
      == From(ds, FollowUps) + (FollowUpsRestored(origin, msgs, n, queue) + more)
  {
    hide From, Batch, MessagesLeft;
    BatchLeft(origin, msgs, steered, n);
    FromConcat(ds, Batch(origin, msgs, steered)[n..], FollowUps);
    var f := if origin == FollowUps then MessagesLeft(msgs, n) else [];
    assert From(ds, FollowUps) + f + queue + more == From(ds, FollowUps) + (f + queue + more);
  }

  lemma Reorder(s: seq<Message>, a: seq<Message>, b: seq<Message>, q: seq<Message>, more: seq<Message>)
    ensures multiset((s + (a + b)) + q + more) == multiset(s) + multiset((b + a + q) + more)
    ensures a == [] || b == [] ==> (s + (a + b)) + q + more == s + ((b + a + q) + more)
  {
    if a == [] || b == [] { assert a + b == b + a; }
  }

  lemma FirstsDiffer(a: seq<Message>, b: seq<Message>, i: nat, j: nat)
    requires Distinct(a + b) && i < |a| && j < |b|
    ensures a[i..][0] != b[j..][0]
  {
    assert (a + b)[i] == a[i] && (a + b)[|a| + j] == b[j];
  }

  /** The order in which the messages were taken survives going back, except
      when a turn that came from the steering queue was itself steered. */
  lemma RestoringKeepsOrderIff(origin: Origin, msgs: seq<Message>, steered: seq<Message>, n: nat, queue: seq<Message>)
    requires n <= |msgs| + |steered| && Distinct(msgs + steered)
    ensures var left := Batch(origin, msgs, steered)[n..];
      SteeringRestored(origin, msgs, steered, n, queue) == From(left, Steering) + queue
      <==> !Inverts(origin, msgs, steered, n)
  {
    BatchLeft(origin, msgs, steered, n);
    var a, b := if origin == Steering then MessagesLeft(msgs, n) else [], SteeringLeft(msgs, steered, n);
    if a != [] && b != [] { FirstsDiffer(msgs, steered, Min(n, |msgs|), Max(n - |msgs|, 0)); }
    hide From, Batch, MessagesLeft, SteeringLeft, Distinct;
    CommuteIff(a, b, queue);
  }

  lemma CommuteIff(a: seq<Message>, b: seq<Message>, queue: seq<Message>)
    requires a != [] && b != [] ==> a[0] != b[0]
    ensures b + a + queue == a + b + queue <==> a == [] || b == []
  {
    if a == [] || b == [] {
      assert b + a == a + b;
    } else {
      assert (b + a + queue)[0] == b[0] && (a + b + queue)[0] == a[0];
    }
  }

  /** The inversion happens: a first follow-on turn taken from steering, steered
      once more before a call that fails. */
  lemma RestoringCanInvert()
    ensures exists msgs, steered ::
      SteeringRestored(Steering, msgs, steered, 0, []) != From(Batch(Steering, msgs, steered), Steering)
  {
    var a, b := [UserMessage("first")], [UserMessage("second")];
    assert UserMessage("first").content != UserMessage("second").content;
    RestoringKeepsOrderIff(Steering, a, b, 0, []);
    assert Batch(Steering, a, b)[0..] == Batch(Steering, a, b);
    assert From(Batch(Steering, a, b), Steering) + [] == From(Batch(Steering, a, b), Steering);
    assert SteeringRestored(Steering, a, b, 0, []) != From(Batch(Steering, a, b), Steering);
  }
}
