/** The cache of recent values: a map, and the order its keys were last used in. */
module Lru {
  import opened Provider

  datatype Entry<V> = Entry(value: V, expires: int)

  /** `order` has the key used last at its front. */
  datatype State<V> = State(entries: map<string, Entry<V>>, order: seq<string>)

  datatype Op<V> = Get(key: string, now: int) | Put(key: string, value: V, now: int)

  predicate Distinct(order: seq<string>) {
    forall i, j :: 0 <= i < j < |order| ==> order[i] != order[j]
  }

  /** Map and list hold the same distinct keys, and no more than `size`. */
  ghost predicate Sound<V>(s: State<V>, size: nat) {
    && Distinct(s.order) && |s.order| <= size
    && forall key :: key in s.entries <==> key in s.order
  }

  function Without(order: seq<string>, key: string): seq<string> {
    if order == [] then []
    else if order[0] == key then order[1..]
    else [order[0]] + Without(order[1..], key)
  }

  predicate Hits<V>(s: State<V>, key: string, now: int) {
    key in s.entries && now < s.entries[key].expires
  }

  function Found<V>(s: State<V>, key: string, now: int): Option<V> {
    if Hits(s, key, now) then Some(s.entries[key].value) else None
  }

  function Gotten<V>(s: State<V>, key: string, now: int): State<V> {
    if Hits(s, key, now) then s.(order := [key] + Without(s.order, key))
    else State(s.entries - {key}, Without(s.order, key))
  }

  function Stored<V>(s: State<V>, size: nat, key: string, entry: Entry<V>): State<V> {
    var entries := s.entries[key := entry];
    if key in s.entries then State(entries, [key] + Without(s.order, key))
    else Evicted(State(entries, [key] + s.order), size)
  }

  /** The keys used longest ago go until `size` are left. */
  function Evicted<V>(s: State<V>, size: nat): State<V>
    decreases |s.order|
  {
    if |s.order| <= size then s
    else Evicted(State(s.entries - {s.order[|s.order| - 1]}, s.order[..|s.order| - 1]), size)
  }

  class Cache<V> {
    const size: nat
    const ttl: int
    var entries: map<string, Entry<V>>
    var order: seq<string>

    ghost function View(): State<V>
      reads this
    {
      State(entries, order)
    }

    ghost predicate Valid()
      reads this
    {
      Sound(View(), size)
    }

    constructor (size: nat, ttl: int)
      ensures Valid() && View() == State(map[], []) && this.size == size && this.ttl == ttl
    {
      this.size, this.ttl, entries, order := size, ttl, map[], [];
    }

    method Get(key: string, now: int) returns (value: Option<V>)
      requires Valid()
      modifies this
      ensures Valid() && View() == Gotten(old(View()), key, now)
      ensures value == Found(old(View()), key, now)
    {
      GottenSound(View(), size, key, now);
      MissChangesNothing(View(), size, key, now);
      hide Sound, Distinct, Without;
      if key !in entries { return None; }
      var entry := entries[key];
      if !(now < entry.expires) {
        order := Without(order, key);
        entries := entries - {key};
        return None;
      }
      order := [key] + Without(order, key);
      return Some(entry.value);
    }

    method Put(key: string, value: V, now: int)
      requires Valid()
      modifies this
      ensures Valid() && View() == Stored(old(View()), size, key, Entry(value, now + ttl))
    {
      StoredSound(View(), size, key, Entry(value, now + ttl));
      if key in entries {
        entries := entries[key := Entry(value, now + ttl)];
        order := [key] + Without(order, key);
        return;
      }
      entries := entries[key := Entry(value, now + ttl)];
      order := [key] + order;
      while |order| > size
        invariant Evicted(View(), size) == Stored(old(View()), size, key, Entry(value, now + ttl))
      {
        var oldest := order[|order| - 1];
        order := order[..|order| - 1];
        entries := entries - {oldest};
      }
    }
  }

  // ----- Every operation keeps map and list together -----

  lemma {:induction false} WithoutHolds(order: seq<string>, key: string)
    requires Distinct(order)
    ensures Distinct(Without(order, key)) && key !in Without(order, key)
    ensures forall k :: k in Without(order, key) <==> k in order && k != key
    ensures |Without(order, key)| == if key in order then |order| - 1 else |order|
  {
    if order != [] {
      var rest := order[1..];
      assert forall k :: k in order <==> k == order[0] || k in rest;
      if order[0] != key {
        WithoutHolds(rest, key);
        assert order[0] !in rest;
      }
    }
  }

  lemma {:induction false} WithoutAbsent(order: seq<string>, key: string)
    requires key !in order
    ensures Without(order, key) == order
  {
    if order != [] {
      WithoutAbsent(order[1..], key);
      assert order == [order[0]] + order[1..];
    }
  }

  lemma GottenSound<V>(s: State<V>, size: nat, key: string, now: int)
    requires Sound(s, size)
    ensures Sound(Gotten(s, key, now), size)
  {
    WithoutHolds(s.order, key);
  }

  lemma MissChangesNothing<V>(s: State<V>, size: nat, key: string, now: int)
    requires Sound(s, size)
    ensures key !in s.entries ==> Gotten(s, key, now) == s
  {
    if key !in s.entries {
      WithoutAbsent(s.order, key);
      assert s.entries - {key} == s.entries;
    }
  }

  lemma StoredSound<V>(s: State<V>, size: nat, key: string, entry: Entry<V>)
    requires Sound(s, size)
    ensures Sound(Stored(s, size, key, entry), size)
  {
    if key in s.entries {
      WithoutHolds(s.order, key);
    } else {
      var pushed := State(s.entries[key := entry], [key] + s.order);
      OneEvicted(pushed, size);
      if |pushed.order| > size {
        var last := pushed.order[|s.order|];
        assert forall k :: k in pushed.order <==> k in pushed.order[..|s.order|] || k == last;
      }
    }
  }

  /** A full cache gives up one entry for a new one, its oldest. */
  lemma OneEvicted<V>(s: State<V>, size: nat)
    requires |s.order| <= size + 1
    ensures Evicted(s, size) == if |s.order| <= size then s
      else State(s.entries - {s.order[size]}, s.order[..size])
  {
  }

  // ----- Traces -----

  function Step<V>(size: nat, ttl: int, s: State<V>, op: Op<V>): State<V> {
    match op
    case Get(key, now) => Gotten(s, key, now)
    case Put(key, value, now) => Stored(s, size, key, Entry(value, now + ttl))
  }

  function Run<V>(size: nat, ttl: int, s: State<V>, ops: seq<Op<V>>): State<V> {
    if ops == [] then s
    else Step(size, ttl, Run(size, ttl, s, ops[..|ops| - 1]), ops[|ops| - 1])
  }

  /** The state a trace leaves an empty cache in. */
  function Start<V>(size: nat, ttl: int, ops: seq<Op<V>>): State<V> {
    Run(size, ttl, State(map[], []), ops)
  }

  predicate Touches<V>(s: State<V>, op: Op<V>) {
    op.Put? || Hits(s, op.key, op.now)
  }

  /** The keys put or hit in the course of a trace. */
  function Touched<V>(size: nat, ttl: int, s: State<V>, ops: seq<Op<V>>): set<string> {
    if ops == [] then {}
    else
      var before := ops[..|ops| - 1];
      var op := ops[|ops| - 1];
      Touched(size, ttl, s, before) + if Touches(Run(size, ttl, s, before), op) then {op.key} else {}
  }

  lemma StepSound<V>(size: nat, ttl: int, s: State<V>, op: Op<V>)
    requires Sound(s, size)
    ensures Sound(Step(size, ttl, s, op), size)
  {
    match op {
      case Get(key, now) => GottenSound(s, size, key, now);
      case Put(key, value, now) => StoredSound(s, size, key, Entry(value, now + ttl));
    }
  }

  /** Over any trace map and list hold the same distinct keys, at most `size`. */
  lemma {:induction false} RunSound<V>(size: nat, ttl: int, s: State<V>, ops: seq<Op<V>>)
    requires Sound(s, size)
    ensures Sound(Run(size, ttl, s, ops), size)
  {
    if ops != [] {
      RunSound(size, ttl, s, ops[..|ops| - 1]);
      StepSound(size, ttl, Run(size, ttl, s, ops[..|ops| - 1]), ops[|ops| - 1]);
    }
  }

  /** The keys used since `key` was. */
  function Ahead(order: seq<string>, key: string): set<string> {
    if order == [] || order[0] == key then {} else {order[0]} + Ahead(order[1..], key)
  }

  lemma {:induction false} AheadPlaces(order: seq<string>, key: string)
    requires Distinct(order) && key in order
    ensures |Ahead(order, key)| < |order| && order[|Ahead(order, key)|] == key
    ensures forall k :: k in Ahead(order, key) ==> k in order
  {
    if order[0] != key {
      Rest(order, key);
      hide Distinct;
      AheadPlaces(order[1..], key);
      assert |Ahead(order, key)| == 1 + |Ahead(order[1..], key)|;
    }
  }

  lemma Rest(order: seq<string>, key: string)
    requires Distinct(order) && order != []
    ensures Distinct(order[1..]) && order[0] !in order[1..]
    ensures key in order <==> key == order[0] || key in order[1..]
    ensures forall k :: k in order[1..] ==> k in order
  {
  }

  lemma AheadPushed(order: seq<string>, key: string, other: string)
    requires key != other
    ensures Ahead([other] + order, key) == {other} + Ahead(order, key)
  {
    assert ([other] + order)[1..] == order;
  }

  lemma {:induction false} AheadBefore(a: seq<string>, b: seq<string>, key: string)
    requires key in a
    ensures Ahead(a + b, key) == Ahead(a, key)
  {
    assert (a + b)[0] == a[0] && (a + b)[1..] == a[1..] + b;
    if a[0] != key {
      assert key in a[1..];
      AheadBefore(a[1..], b, key);
    }
  }

  lemma AheadOfFirst(order: seq<string>, key: string, n: nat)
    requires Distinct(order) && key in order && |Ahead(order, key)| < n <= |order|
    ensures key in order[..n] && Ahead(order[..n], key) == Ahead(order, key)
  {
    AheadPlaces(order, key);
    assert order[..n][|Ahead(order, key)|] == key;
    assert order == order[..n] + order[n..];
    AheadBefore(order[..n], order[n..], key);
  }

  lemma {:induction false} AheadWithout(order: seq<string>, key: string, other: string)
    requires key != other
    ensures Ahead(Without(order, other), key) <= Ahead(order, key)
    ensures key in order ==> key in Without(order, other)
  {
    if order != [] && order[0] != other {
      AheadWithout(order[1..], key, other);
      assert (([order[0]] + Without(order[1..], other))[1..]) == Without(order[1..], other);
    }
  }

  /** One operation on another key puts at most that key ahead. */
  lemma OtherStep<V>(size: nat, ttl: int, s: State<V>, op: Op<V>, key: string, ahead: set<string>)
    requires Sound(s, size) && key in s.entries && op.key != key
    requires Ahead(s.order, key) <= ahead && (Touches(s, op) ==> op.key in ahead) && |ahead| < size
    ensures var s' := Step(size, ttl, s, op);
      key in s'.entries && s'.entries[key] == s.entries[key] && Ahead(s'.order, key) <= ahead
  {
    hide Distinct, Without, Ahead, Evicted, Sound;
    if op.Get? {
      OtherGotten(s, op.key, op.now, key);
    } else if op.key in s.entries {
      OtherReplaced(s, op.key, key);
    } else {
      AheadPushed(s.order, key, op.key);
      PushedStays(s, size, key, op.key, Entry(op.value, op.now + ttl), ahead);
    }
  }

  lemma OtherReplaced<V>(s: State<V>, other: string, key: string)
    requires other != key
    ensures Ahead([other] + Without(s.order, other), key) <= {other} + Ahead(s.order, key)
    ensures Ahead(Without(s.order, other), key) <= Ahead(s.order, key)
  {
    AheadWithout(s.order, key, other);
    AheadPushed(Without(s.order, other), key, other);
  }

  lemma OtherGotten<V>(s: State<V>, other: string, now: int, key: string)
    requires other != key && key in s.entries
    ensures var s' := Gotten(s, other, now);
      && key in s'.entries && s'.entries[key] == s.entries[key]
      && Ahead(s'.order, key) <= Ahead(s.order, key) + if Hits(s, other, now) then {other} else {}
  {
    OtherReplaced(s, other, key);
    hide Ahead, Without;
  }

  lemma NotTheOldest(order: seq<string>, key: string, size: nat)
    requires Distinct(order) && key in order && |Ahead(order, key)| < size < |order|
    ensures order[size] != key && Ahead(order[..size], key) == Ahead(order, key)
  {
    AheadOfFirst(order, key, size);
  }

  lemma Pushed<V>(s: State<V>, size: nat, key: string, other: string)
    requires Sound(s, size) && key in s.entries && other !in s.entries
    ensures Distinct([other] + s.order) && key in [other] + s.order && |s.order| <= size
  {
    assert ([other] + s.order)[1..] == s.order;
  }

  lemma PushedStays<V>(s: State<V>, size: nat, key: string, other: string, entry: Entry<V>, ahead: set<string>)
    requires Sound(s, size) && key in s.entries && other !in s.entries
    requires Ahead([other] + s.order, key) <= ahead && |ahead| < size
    ensures var s' := Stored(s, size, other, entry);
      key in s'.entries && s'.entries[key] == s.entries[key] && Ahead(s'.order, key) <= ahead
  {
    var order := [other] + s.order;
    Pushed(s, size, key, other);
    hide Ahead, Distinct, Sound, Evicted;
    OneEvicted(State(s.entries[other := entry], order), size);
    SmallerSet(Ahead(order, key), ahead);
    if |order| > size { NotTheOldest(order, key, size); }
  }

  lemma {:induction false} SmallerSet(small: set<string>, large: set<string>)
    requires small <= large
    ensures |small| <= |large|
  {
    if small != {} {
      var k :| k in small;
      SmallerSet(small - {k}, large - {k});
    }
  }

  lemma OwnStep<V>(size: nat, ttl: int, s: State<V>, key: string, now: int)
    requires Hits(s, key, now)
    ensures var s' := Step(size, ttl, s, Get(key, now));
      key in s'.entries && s'.entries[key] == s.entries[key] && Ahead(s'.order, key) == {}
  {
  }

  /** An entry just used stays while fewer than `size` other keys are. */
  lemma {:induction false} StaysWhileFew<V>(size: nat, ttl: int, s: State<V>, ops: seq<Op<V>>, key: string)
    requires Sound(s, size) && key in s.entries && Ahead(s.order, key) == {}
    requires forall op :: op in ops && op.key == key ==> op.Get? && op.now < s.entries[key].expires
    requires |Touched(size, ttl, s, ops) - {key}| < size
    ensures var s' := Run(size, ttl, s, ops);
      key in s'.entries && s'.entries[key] == s.entries[key] && Ahead(s'.order, key) <= Touched(size, ttl, s, ops) - {key}
  {
    if ops != [] {
      var before, op := ops[..|ops| - 1], ops[|ops| - 1];
      var few, all := Touched(size, ttl, s, before) - {key}, Touched(size, ttl, s, ops) - {key};
      SmallerSet(few, all);
      StaysWhileFew(size, ttl, s, before, key);
      RunSound(size, ttl, s, before);
      var last := Run(size, ttl, s, before);
      assert op in ops;
      if op.key == key { OwnStep(size, ttl, last, key, op.now); } else { OtherStep(size, ttl, last, op, key, all); }
    }
  }

  /** Unexpired, an entry is found with its value whenever fewer than `size` other
      keys were put or hit since it last was. */
  lemma FoundWhileFew<V>(size: nat, ttl: int, before: seq<Op<V>>, use: Op<V>, after: seq<Op<V>>, now: int)
    requires Touches(Start(size, ttl, before), use)
    requires forall op :: op in after && op.key == use.key ==> op.Get? && op.now <= now
    requires |Touched(size, ttl, Step(size, ttl, Start(size, ttl, before), use), after) - {use.key}| < size
    ensures var used := Step(size, ttl, Start(size, ttl, before), use);
      && use.key in used.entries
      && (use.Put? ==> used.entries[use.key] == Entry(use.value, use.now + ttl))
      && (now < used.entries[use.key].expires ==>
            Found(Run(size, ttl, used, after), use.key, now) == Some(used.entries[use.key].value))
  {
    var s := Start(size, ttl, before);
    RunSound(size, ttl, State(map[], []), before);
    StepSound(size, ttl, s, use);
    var used := Step(size, ttl, s, use);
    UsedIsFirst(size, ttl, s, use);
    if now < used.entries[use.key].expires {
      StaysWhileFew(size, ttl, used, after, use.key);
    }
  }

  lemma UsedIsFirst<V>(size: nat, ttl: int, s: State<V>, use: Op<V>)
    requires Sound(s, size) && Touches(s, use) && size > 0
    ensures var used := Step(size, ttl, s, use);
      && use.key in used.entries && used.order != [] && used.order[0] == use.key
      && (use.Put? ==> used.entries[use.key] == Entry(use.value, use.now + ttl))
  {
    if use.Put? && use.key !in s.entries {
      var order := [use.key] + s.order;
      OneEvicted(State(s.entries[use.key := Entry(use.value, use.now + ttl)], order), size);
      if |order| > size { assert order[size] == s.order[size - 1]; }
    }
  }

  /** The latest put of a key. */
  function LastPut<V>(ops: seq<Op<V>>, key: string): Option<Op<V>> {
    if ops == [] then None
    else
      var op := ops[|ops| - 1];
      if op.Put? && op.key == key then Some(op) else LastPut(ops[..|ops| - 1], key)
  }

  lemma {:induction false} EvictedKeeps<V>(s: State<V>, size: nat, key: string)
    ensures var s' := Evicted(s, size); key in s'.entries ==> key in s.entries && s'.entries[key] == s.entries[key]
    decreases |s.order|
  {
    if |s.order| > size {
      EvictedKeeps(State(s.entries - {s.order[|s.order| - 1]}, s.order[..|s.order| - 1]), size, key);
    }
  }

  lemma {:induction false} HeldIsLatest<V>(size: nat, ttl: int, ops: seq<Op<V>>, key: string)
    ensures var s := Start(size, ttl, ops); var put := LastPut(ops, key);
      key in s.entries ==> put.Some? && put.value.Put? && s.entries[key] == Entry(put.value.value, put.value.now + ttl)
  {
    if ops != [] {
      var before, op := ops[..|ops| - 1], ops[|ops| - 1];
      HeldIsLatest(size, ttl, before, key);
      if op.Put? {
        var s := Start(size, ttl, before);
        EvictedKeeps(State(s.entries[op.key := Entry(op.value, op.now + ttl)], [op.key] + s.order), size, key);
      }
    }
  }

  /** What is found was put last under its key, and less than `ttl` ago. */
  lemma FoundIsLatest<V>(size: nat, ttl: int, ops: seq<Op<V>>, key: string, now: int)
    requires Found(Start(size, ttl, ops), key, now).Some?
    ensures var put := LastPut(ops, key);
      && put.Some? && put.value.Put? && now < put.value.now + ttl
      && Found(Start(size, ttl, ops), key, now) == Some(put.value.value)
  {
    HeldIsLatest(size, ttl, ops, key);
  }
}
