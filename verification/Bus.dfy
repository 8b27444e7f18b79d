/** Events fanned out to subscribers, who lose some rather than hold the bus up. */
module Bus {
  import opened Provider

  datatype Event = Event(topic: string, payload: string)

  /** What a subscriber reads: an event, or how many it missed. */
  datatype Item = Sent(event: Event) | Notice(dropped: nat)

  const CAPACITY: nat := 256

  /** One subscription: its channel's buffer and what it may still put there. */
  datatype Sub = Sub(queue: seq<Item>, topics: set<string>, dropped: nat, closed: bool)

  predicate Wants(s: Sub, e: Event) {
    !s.closed && e.topic in s.topics
  }

  /** `s` once it has told how much was lost, if `encodes` and there is room. */
  function Reported(s: Sub, encodes: bool): Sub {
    if encodes && |s.queue| < CAPACITY then s.(queue := s.queue + [Notice(s.dropped)], dropped := 0) else s
  }

  function Delivered(s: Sub, e: Event, encodes: bool): Sub {
    if !Wants(s, e) then s
    else
      var s' := if s.dropped > 0 then Reported(s, encodes) else s;
      if s'.dropped == 0 && |s'.queue| < CAPACITY then s'.(queue := s'.queue + [Sent(e)])
      else s'.(dropped := s'.dropped + 1)
  }

  class Subscription {
    var queue: seq<Item>
    var topics: set<string>
    var dropped: nat
    var closed: bool

    ghost function View(): Sub
      reads this
    {
      Sub(queue, topics, dropped, closed)
    }

    constructor (topics: set<string>)
      ensures View() == Sub([], topics, 0, false)
    {
      queue, this.topics, dropped, closed := [], topics, 0, false;
    }

    method Subscribe(topics: set<string>)
      modifies this
      ensures View() == old(View()).(topics := topics)
    {
      this.topics := topics;
    }

    method Close()
      modifies this
      ensures View() == old(View()).(closed := true)
    {
      if closed { return; }
      closed := true;
    }

    /** `encoded` says whether a notice, if one was due, could be encoded. */
    method Deliver(e: Event) returns (ghost encoded: bool)
      modifies this
      ensures View() == Delivered(old(View()), e, encoded)
    {
      encoded := true;
      if closed || e.topic !in topics { return; }
      if dropped > 0 {
        var reported;
        reported, encoded := ReportDropped();
        if !reported {
          dropped := dropped + 1;
          return;
        }
      }
      if |queue| < CAPACITY {
        queue := queue + [Sent(e)];
      } else {
        dropped := dropped + 1;
      }
    }

    method ReportDropped() returns (reported: bool, ghost encoded: bool)
      modifies this
      ensures View() == Reported(old(View()), encoded)
      ensures reported <==> encoded && |old(queue)| < CAPACITY
    {
      var encodes: bool := *;
      encoded := encodes;
      if !encodes { return false, encodes; }
      if |queue| < CAPACITY {
        queue := queue + [Notice(dropped)];
        dropped := 0;
        return true, encodes;
      }
      return false, encodes;
    }

    /** The subscriber reads its channel. */
    method Receive() returns (item: Option<Item>)
      modifies this
      ensures item.Some? <==> old(queue) != []
      ensures View() == if item.Some? then old(View()).(queue := old(queue)[1..]) else old(View())
      ensures item.Some? ==> item.value == old(queue)[0]
    {
      if queue == [] { return None; }
      item := Some(queue[0]);
      queue := queue[1..];
    }
  }

  ghost predicate OneDelivery(before: Sub, e: Event, after: Sub) {
    after == Delivered(before, e, true) || after == Delivered(before, e, false)
  }

  class Bus {
    var next: nat
    var subs: map<nat, Subscription>

    /** Ids are given out once, and no two stand for the same subscription. */
    ghost predicate Valid()
      reads this
    {
      && (forall id :: id in subs ==> id <= next)
      && forall a, b :: a in subs && b in subs && subs[a] == subs[b] ==> a == b
    }

    constructor ()
      ensures Valid() && subs == map[]
    {
      next, subs := 0, map[];
    }

    method Subscribe(topics: set<string>) returns (s: Subscription)
      requires Valid()
      modifies this
      ensures Valid() && fresh(s) && s.View() == Sub([], topics, 0, false)
      ensures next !in old(subs) && subs == old(subs)[next := s]
    {
      s := new Subscription(topics);
      next := next + 1;
      subs := subs[next := s];
    }

    method Close(id: nat)
      requires Valid() && id in subs
      modifies this, subs[id]
      ensures Valid() && subs == old(subs) - {id}
      ensures old(subs[id]).View() == old(subs[id].View()).(closed := true)
    {
      var s := subs[id];
      subs := subs - {id};
      s.Close();
    }

    /** Every subscription there is gets the event once. */
    method Emit(e: Event)
      requires Valid()
      modifies subs.Values
      ensures Valid() && subs == old(subs)
      ensures forall id :: id in subs ==> OneDelivery(old(subs[id].View()), e, subs[id].View())
    {
      var left := subs.Keys;
      while left != {}
        invariant left <= subs.Keys
        invariant forall id :: id in left ==> subs[id].View() == old(subs[id].View())
        invariant forall id :: id in subs && id !in left ==> OneDelivery(old(subs[id].View()), e, subs[id].View())
      {
        var id :| id in left;
        ghost var encoded := subs[id].Deliver(e);
        left := left - {id};
      }
    }
  }

  // ----- Any interleaving of bus, reader and closer -----

  datatype Step = Deliver(event: Event, encodes: bool) | Receive | Subscribe(topics: set<string>) | Close

  function Next(s: Sub, step: Step): Sub {
    match step
    case Deliver(e, encodes) => Delivered(s, e, encodes)
    case Receive => if s.queue == [] then s else s.(queue := s.queue[1..])
    case Subscribe(topics) => s.(topics := topics)
    case Close => s.(closed := true)
  }

  function Run(s: Sub, steps: seq<Step>): Sub {
    if steps == [] then s else Next(Run(s, steps[..|steps| - 1]), steps[|steps| - 1])
  }

  /** The events delivered on a topic the subscription had, while it was open. */
  function Offered(s: Sub, steps: seq<Step>): seq<Event> {
    if steps == [] then []
    else
      var before, step := steps[..|steps| - 1], steps[|steps| - 1];
      Offered(s, before) + if step.Deliver? && Wants(Run(s, before), step.event) then [step.event] else []
  }

  /** What the reader has taken out of the channel. */
  function Received(s: Sub, steps: seq<Step>): seq<Item> {
    if steps == [] then []
    else
      var before, step := steps[..|steps| - 1], steps[|steps| - 1];
      Received(s, before) + if step.Receive? then Run(s, before).queue[..Min(1, |Run(s, before).queue|)] else []
  }

  datatype Mark = Got(event: Event) | Lost

  function Losses(n: nat): (marks: seq<Mark>)
    ensures |marks| == n && forall i :: 0 <= i < n ==> marks[i] == Lost
  {
    seq(n, _ => Lost)
  }

  /** What the reader can tell of each event from what it reads. */
  function Expand(items: seq<Item>): seq<Mark> {
    if items == [] then []
    else
      var last := items[|items| - 1];
      Expand(items[..|items| - 1]) + if last.Sent? then [Got(last.event)] else Losses(last.dropped)
  }

  ghost predicate Aligned(marks: seq<Mark>, events: seq<Event>) {
    |marks| == |events| && forall i :: 0 <= i < |marks| ==> marks[i] == Lost || marks[i] == Got(events[i])
  }

  lemma ExpandThen(items: seq<Item>, item: Item)
    ensures Expand(items + [item]) == Expand(items) + if item.Sent? then [Got(item.event)] else Losses(item.dropped)
  {
    assert (items + [item])[..|items|] == items;
  }

  ghost function Account(items: seq<Item>, dropped: nat): seq<Mark> {
    Expand(items) + Losses(dropped)
  }

  /** One delivery adds one mark: the event in its place, or a loss. */
  lemma DeliveryMarks(received: seq<Item>, s: Sub, e: Event, encodes: bool)
    requires Wants(s, e)
    ensures var s' := Delivered(s, e, encodes);
      exists mark :: (mark == Lost || mark == Got(e))
        && Account(received + s'.queue, s'.dropped) == Account(received + s.queue, s.dropped) + [mark]
  {
    var before := Account(received + s.queue, s.dropped);
    var s1 := if s.dropped > 0 then Reported(s, encodes) else s;
    assert Account(received + s1.queue, s1.dropped) == before by {
      if s1 != s { NoticeMarks(received, s); }
    }
    var s' := Delivered(s, e, encodes);
    if s'.queue != s1.queue {
      SentMarks(received, s1, e);
      assert Account(received + s'.queue, s'.dropped) == before + [Got(e)];
    } else {
      assert Losses(s1.dropped + 1) == Losses(s1.dropped) + [Lost];
      assert Account(received + s'.queue, s'.dropped) == before + [Lost];
    }
  }

  lemma NoticeMarks(received: seq<Item>, s: Sub)
    ensures Account(received + (s.queue + [Notice(s.dropped)]), 0) == Account(received + s.queue, s.dropped)
  {
    assert received + (s.queue + [Notice(s.dropped)]) == received + s.queue + [Notice(s.dropped)];
    ExpandThen(received + s.queue, Notice(s.dropped));
    assert Losses(0) == [];
  }

  lemma SentMarks(received: seq<Item>, s: Sub, e: Event)
    requires s.dropped == 0
    ensures Account(received + (s.queue + [Sent(e)]), 0) == Account(received + s.queue, 0) + [Got(e)]
  {
    assert received + (s.queue + [Sent(e)]) == received + s.queue + [Sent(e)];
    ExpandThen(received + s.queue, Sent(e));
    assert Losses(0) == [];
  }

  lemma TakenMoves(received: seq<Item>, queue: seq<Item>)
    ensures var n := Min(1, |queue|); (received + queue[..n]) + queue[n..] == received + queue
  {
  }

  /** One more step keeps the account in step with what was offered. */
  lemma OneStep(s: Sub, received: seq<Item>, offered: seq<Event>, step: Step)
    requires |s.queue| <= CAPACITY && Aligned(Account(received + s.queue, s.dropped), offered)
    ensures var s' := Next(s, step);
      && |s'.queue| <= CAPACITY
      && Aligned(Account((received + if step.Receive? then s.queue[..Min(1, |s.queue|)] else []) + s'.queue, s'.dropped),
                 offered + if step.Deliver? && Wants(s, step.event) then [step.event] else [])
  {
    assert received + [] == received && offered + [] == offered;
    if step.Receive? {
      TakenMoves(received, s.queue);
    } else if step.Deliver? && Wants(s, step.event) {
      DeliveryMarks(received, s, step.event, step.encodes);
      hide Account;
    }
  }

  /** Everything read and queued, with each notice standing for as many losses as
      it names and the unreported ones last, matches the events offered, one for
      one and in order; and the buffer never overflows. */
  lemma {:induction false} LossesAccounted(s: Sub, steps: seq<Step>)
    requires s.queue == [] && s.dropped == 0
    ensures var s' := Run(s, steps);
      && |s'.queue| <= CAPACITY
      && Aligned(Account(Received(s, steps) + s'.queue, s'.dropped), Offered(s, steps))
  {
    if steps == [] {
      assert Losses(0) == [];
    } else {
      var before, step := steps[..|steps| - 1], steps[|steps| - 1];
      LossesAccounted(s, before);
      hide Account, Aligned;
      OneStep(Run(s, before), Received(s, before), Offered(s, before), step);
    }
  }

  /** A reader that knows nothing is missing has every event it was offered. */
  lemma NoLossesNoGaps(s: Sub, steps: seq<Step>)
    requires s.queue == [] && s.dropped == 0 && Run(s, steps).dropped == 0
    requires forall item :: item in Received(s, steps) + Run(s, steps).queue ==> item.Sent?
    ensures var items := Received(s, steps) + Run(s, steps).queue;
      |items| == |Offered(s, steps)| && forall i :: 0 <= i < |items| ==> items[i] == Sent(Offered(s, steps)[i])
  {
    LossesAccounted(s, steps);
    var items := Received(s, steps) + Run(s, steps).queue;
    AllSentExpands(items);
    assert Losses(0) == [];
    assert Account(items, 0) == Expand(items);
    forall i | 0 <= i < |items| ensures items[i] == Sent(Offered(s, steps)[i]) {
      assert Expand(items)[i] == Got(items[i].event);
    }
  }

  lemma {:induction false} AllSentExpands(items: seq<Item>)
    requires forall item :: item in items ==> item.Sent?
    ensures |Expand(items)| == |items| && forall i :: 0 <= i < |items| ==> items[i].Sent? && Expand(items)[i] == Got(items[i].event)
  {
    if items != [] { AllSentExpands(items[..|items| - 1]); }
  }

  /** An event nobody subscribed to, or that comes after closing, changes nothing. */
  lemma UnwantedChangesNothing(s: Sub, e: Event, encodes: bool)
    requires s.closed || e.topic !in s.topics
    ensures Delivered(s, e, encodes) == s
  {
  }

  /** A wanted one is queued whenever there is room: after a notice of what was
      lost, if anything was, which needs a place of its own. */
  lemma QueuedWhenRoom(s: Sub, e: Event, encodes: bool)
    requires !s.closed && e.topic in s.topics
    ensures s.dropped == 0 && |s.queue| < 256 ==> Delivered(s, e, encodes) == s.(queue := s.queue + [Sent(e)])
    ensures s.dropped > 0 && encodes && |s.queue| < 255 ==>
      Delivered(s, e, encodes) == s.(queue := s.queue + [Notice(s.dropped), Sent(e)], dropped := 0)
  {
    assert s.queue + [Notice(s.dropped)] + [Sent(e)] == s.queue + [Notice(s.dropped), Sent(e)];
  }

  /** A reader that never lets the buffer fill misses nothing. */
  lemma {:induction false} NothingLostWithRoom(s: Sub, steps: seq<Step>)
    requires s.queue == [] && s.dropped == 0
    requires forall k :: 0 <= k < |steps| ==> |Run(s, steps[..k]).queue| < 256
    ensures Run(s, steps).dropped == 0
    ensures var items := Received(s, steps) + Run(s, steps).queue;
      |items| == |Offered(s, steps)| && forall i :: 0 <= i < |items| ==> items[i] == Sent(Offered(s, steps)[i])
  {
    if steps != [] {
      var n := |steps| - 1;
      var before, step := steps[..n], steps[n];
      forall k | 0 <= k < n ensures |Run(s, before[..k]).queue| < 256 { assert before[..k] == steps[..k]; }
      NothingLostWithRoom(s, before);
      var s1, received := Run(s, before), Received(s, before);
      assert |s1.queue| < 256;
      if step.Deliver? && Wants(s1, step.event) {
        QueuedWhenRoom(s1, step.event, step.encodes);
        assert received + [] + (s1.queue + [Sent(step.event)]) == received + s1.queue + [Sent(step.event)];
      } else {
        assert received + [] == received && Offered(s, before) + [] == Offered(s, before);
        if step.Receive? { TakenMoves(received, s1.queue); }
      }
    }
  }

  /** Once closed, only what was already queued can still be read. */
  lemma {:induction false} NothingAfterClose(s: Sub, steps: seq<Step>)
    requires s.closed
    ensures Run(s, steps).closed && Run(s, steps).dropped == s.dropped
    ensures Received(s, steps) + Run(s, steps).queue == s.queue && Offered(s, steps) == []
  {
    if steps != [] {
      var before, step := steps[..|steps| - 1], steps[|steps| - 1];
      NothingAfterClose(s, before);
      assert Received(s, before) + [] == Received(s, before);
      if step.Receive? { TakenMoves(Received(s, before), Run(s, before).queue); }
    }
  }
}
