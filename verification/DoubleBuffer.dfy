/**
 The bounded queue pair of a subscriber: a displacing write queue that any publisher
 may push to, and a read buffer that only the owning task touches.
 */
module DoubleBuffer {
  import opened Basics

  /** The two queues and their two loss counters. */
  datatype Contents<T> = Contents(read: seq<T>, write: seq<T>, drops: nat, dropped: nat)

  /** The newest `n` elements, or all of them if there are fewer. */
  function Newest<T>(s: seq<T>, n: nat): (r: seq<T>)
    ensures |r| == Min(n, |s|) && r == s[|s| - |r|..]
  {
    if |s| <= n then s else s[|s| - n..]
  }

  predicate Fits<T>(c: Contents<T>, capacity: nat) {
    capacity > 0 && |c.read| <= capacity && |c.write| <= capacity
  }

  // ---------------------------------------------------------------- what each operation does

  function Pushed<T>(c: Contents<T>, capacity: nat, v: T): (r: Contents<T>)
    requires Fits(c, capacity)
    ensures Fits(r, capacity)
  {
    if |c.write| < capacity then c.(write := c.write + [v])
    else c.(write := c.write[1..] + [v], dropped := c.dropped + 1)
  }

  /** One turn of the drain loop: nothing to do on an empty write queue. */
  function MovedOne<T>(c: Contents<T>, capacity: nat): (r: Contents<T>)
    requires Fits(c, capacity)
    ensures Fits(r, capacity)
  {
    if c.write == [] then c
    else if |c.read| < capacity then c.(read := c.read + [c.write[0]], write := c.write[1..])
    else c.(read := c.read[1..] + [c.write[0]], write := c.write[1..], drops := c.drops + 1)
  }

  /** Everything read ++ write once held, cut to the newest `capacity` elements. */
  function Drained<T>(c: Contents<T>, capacity: nat): Contents<T> {
    var read := Newest(c.read + c.write, capacity);
    Contents(read, [], c.drops + (|c.read| + |c.write| - |read|), c.dropped)
  }

  lemma {:induction false} MoveKeepsWindow<T>(c: Contents<T>, capacity: nat)
    requires Fits(c, capacity)
    ensures Drained(MovedOne(c, capacity), capacity) == Drained(c, capacity)
  {
    if c.write != [] {
      var c' := MovedOne(c, capacity);
      if |c.read| < capacity {
        assert c'.read + c'.write == c.read + c.write;
      } else {
        assert c'.read + c'.write == (c.read + c.write)[1..];
      }
    }
  }

  lemma {:induction false} MoveIsPopAndStore<T>(c: Contents<T>, capacity: nat)
    requires Fits(c, capacity) && c.write != []
    ensures var read := Newest(c.read + [c.write[0]], capacity);
      MovedOne(c, capacity) == Contents(read, c.write[1..], c.drops + |c.read| + 1 - |read|, c.dropped)
  {
  }

  lemma {:induction false} DrainHoldsMoved<T>(c: Contents<T>, capacity: nat)
    requires Fits(c, capacity)
    ensures var read := Drained(c, capacity).read; |c.write| <= |read| && read[|read| - |c.write|..] == c.write
  {
  }

  lemma {:induction false} NothingToDrain<T>(c: Contents<T>, capacity: nat)
    requires Fits(c, capacity) && c.write == []
    ensures Drained(c, capacity) == c
  {
    assert c.read + c.write == c.read;
  }

  class Buffer<T> {
    const capacity: nat
    var read: seq<T>
    var write: seq<T>
    var drops: nat
    var dropped: nat

    ghost function Value(): Contents<T>
      reads this
    {
      Contents(read, write, drops, dropped)
    }

    ghost predicate Valid()
      reads this
    {
      Fits(Value(), capacity)
    }

    constructor (size: nat)
      requires size > 0
      ensures Valid() && capacity == size && Value() == Contents([], [], 0, 0)
    {
      capacity := size;
      read, write, drops, dropped := [], [], 0, 0;
    }

    /** `MpscQueue::push`. */
    method Push(v: T) returns (kept: bool)
      requires Valid()
      modifies this
      ensures Valid() && Value() == Pushed(old(Value()), capacity, v)
      ensures kept <==> dropped == old(dropped)
      ensures old(write) + [v] == old(write)[..|old(write)| + 1 - |write|] + write
    {
      kept := |write| < capacity;
      if !kept {
        write := write[1..];
        dropped := dropped + 1;
      }
      write := write + [v];
    }

    /** `MpscQueue::pop`. */
    method Pop() returns (r: Option<T>)
      requires Valid()
      modifies this`write
      ensures Valid()
      ensures old(write) == (if r.Some? then [r.value] else []) + write
      ensures r.None? ==> old(write) == []
    {
      if write == [] {
        return None;
      }
      r := Some(write[0]);
      write := write[1..];
    }

    /** The body of the drain loop after its pop: make room, then append. */
    method Store(v: T)
      requires Valid()
      modifies this`read, this`drops
      ensures Valid() && read == Newest(old(read) + [v], capacity)
      ensures drops == old(drops) + |old(read)| + 1 - |read|
    {
      ghost var n := 0;
      while |read| >= capacity
        invariant n <= |old(read)| && read == old(read)[n..] && drops == old(drops) + n
        invariant n > 0 ==> |read| == capacity - 1
        decreases |read|
      {
        drops := drops + 1;
        read := read[1..];
        n := n + 1;
      }
      ghost var all := old(read) + [v];
      assert read + [v] == all[n..];
      read := read + [v];
    }

    /** One turn of the drain loop. */
    method MoveOne()
      requires Valid() && write != []
      modifies this`read, this`write, this`drops
      ensures Valid() && Value() == MovedOne(old(Value()), capacity)
    {
      MoveIsPopAndStore(Value(), capacity);
      var v := Pop();
      assert [v.value] + write == old(write);
      Store(v.value);
    }

    /**
     `drain_writer_to_reader` without a concurrent push: the read buffer ends up with the
     newest elements of both queues, in order, and holds everything that was moved.
     */
    method DrainWriterToReader()
      requires Valid()
      modifies this
      ensures Valid() && Value() == Drained(old(Value()), capacity)
      ensures read[|read| - |old(write)|..] == old(write)
    {
      ghost var drained := Drained(Value(), capacity);
      DrainHoldsMoved(Value(), capacity);
      var n := |write|;
      for i := 0 to n
        invariant Valid() && |write| == n - i && Drained(Value(), capacity) == drained
      {
        MoveKeepsWindow(Value(), capacity);
        MoveOne();
      }
      NothingToDrain(Value(), capacity);
    }

    method PopFront() returns (r: Option<T>)
      requires Valid()
      modifies this`read
      ensures Valid()
      ensures old(read) == (if r.Some? then [r.value] else []) + read
      ensures r.None? ==> old(read) == []
    {
      if read == [] {
        return None;
      }
      r := Some(read[0]);
      read := read[1..];
    }

    method PopBack()
      requires Valid()
      modifies this`read
      ensures Valid() && read == old(read)[..Max(0, |old(read)| - 1)]
    {
      if read != [] {
        read := read[..|read| - 1];
      }
    }

    method Clear()
      requires Valid()
      modifies this`read, this`write
      ensures Valid() && read == [] && write == []
    {
      var more := true;
      while more
        invariant Valid() && (!more ==> write == [])
        decreases |write|, more
      {
        var v := Pop();
        more := v.Some?;
      }
      read := [];
    }
  }

  // ---------------------------------------------------------------- runs with concurrent pushes

  /** The steps of publishers (Push) and of the owning task. A drain is a number of `Move` steps. */
  datatype Step =
    | Push
    | Move
    | PopFront
    | PopBack
    | ClearOne                               // `clear` takes one element off the write queue
    | ClearRead

  /** The buffer and where every element has gone; an element is its position in the order of pushes. */
  datatype Trace = Trace(
    buffer: Contents<nat>, pushed: nat,
    delivered: seq<nat>, backs: seq<nat>, displaced: seq<nat>, evicted: seq<nat>, cleared: seq<nat>)

  function Start(): Trace { Trace(Contents([], [], 0, 0), 0, [], [], [], [], []) }

  function Take(t: Trace, capacity: nat, step: Step): (r: Trace)
    requires Fits(t.buffer, capacity)
    ensures Fits(r.buffer, capacity)
  {
    var b := t.buffer;
    match step
    case Push =>
      t.(buffer := Pushed(b, capacity, t.pushed), pushed := t.pushed + 1,
         displaced := t.displaced + if |b.write| < capacity then [] else [b.write[0]])
    case Move =>
      t.(buffer := MovedOne(b, capacity),
         evicted := t.evicted + if b.write == [] || |b.read| < capacity then [] else [b.read[0]])
    case PopFront =>
      if b.read == [] then t
      else t.(buffer := b.(read := b.read[1..]), delivered := t.delivered + [b.read[0]])
    case PopBack =>
      if b.read == [] then t
      else t.(buffer := b.(read := b.read[..|b.read| - 1]), backs := t.backs + [b.read[|b.read| - 1]])
    case ClearOne =>
      if b.write == [] then t
      else t.(buffer := b.(write := b.write[1..]), cleared := t.cleared + [b.write[0]])
    case ClearRead => t.(buffer := b.(read := []), cleared := t.cleared + b.read)
  }

  function Execute(capacity: nat, steps: seq<Step>): (t: Trace)
    requires capacity > 0
    ensures Fits(t.buffer, capacity)
  {
    if steps == [] then Start()
    else Take(Execute(capacity, steps[..|steps| - 1]), capacity, steps[|steps| - 1])
  }

  // ---------------------------------------------------------------- order

  ghost predicate Increasing(s: seq<nat>) {
    forall i, j :: 0 <= i < j < |s| ==> s[i] < s[j]
  }

  /** Delivered elements, then the read buffer, then the write queue. */
  ghost function InOrder(t: Trace): seq<nat> {
    t.delivered + t.buffer.read + t.buffer.write
  }

  ghost predicate Ordered(t: Trace) {
    Increasing(InOrder(t)) && forall k :: 0 <= k < |InOrder(t)| ==> InOrder(t)[k] < t.pushed
  }

  /** Dropping a stretch from the middle of the order keeps it an order. */
  lemma {:induction false} DropKeepsOrder(t: Trace, t': Trace, from: nat, to: nat)
    requires Ordered(t) && t'.pushed == t.pushed && from <= to <= |InOrder(t)|
    requires InOrder(t') == InOrder(t)[..from] + InOrder(t)[to..]
    ensures Ordered(t')
  {
    forall i, j | 0 <= i < j < |InOrder(t')| ensures InOrder(t')[i] < InOrder(t')[j] {
      assert InOrder(t')[i] == InOrder(t)[if i < from then i else i + to - from];
      assert InOrder(t')[j] == InOrder(t)[if j < from then j else j + to - from];
    }
  }

  /** A push appends the newest position, after displacing the oldest of a full write queue. */
  lemma {:induction false} PushKeepsOrder(t: Trace, capacity: nat)
    requires Fits(t.buffer, capacity) && Ordered(t)
    ensures Ordered(Take(t, capacity, Push))
  {
    var t', b := Take(t, capacity, Push), t.buffer;
    var at, n := |t.delivered| + |b.read|, if |b.write| < capacity then 0 else 1;
    var room := t.(buffer := b.(write := b.write[n..]));
    DropKeepsOrder(t, room, at, at + n);
    assert InOrder(t') == InOrder(room) + [t.pushed];
  }

  lemma {:induction false} MoveKeepsOrder(t: Trace, capacity: nat)
    requires Fits(t.buffer, capacity) && Ordered(t)
    ensures Ordered(Take(t, capacity, Move))
  {
    var at, n := |t.delivered|, if t.buffer.write == [] || |t.buffer.read| < capacity then 0 else 1;
    DropKeepsOrder(t, Take(t, capacity, Move), at, at + n);
  }

  lemma {:induction false} PopBackKeepsOrder(t: Trace, capacity: nat)
    requires Fits(t.buffer, capacity) && Ordered(t)
    ensures Ordered(Take(t, capacity, PopBack))
  {
    var n := |t.delivered| + |t.buffer.read|;
    if t.buffer.read != [] {
      DropKeepsOrder(t, Take(t, capacity, PopBack), n - 1, n);
    }
  }

  lemma {:induction false} ClearKeepsOrder(t: Trace, capacity: nat, step: Step)
    requires Fits(t.buffer, capacity) && Ordered(t) && (step.ClearOne? || step.ClearRead?)
    ensures Ordered(Take(t, capacity, step))
  {
    var at, n := |t.delivered|, |t.buffer.read|;
    if step.ClearRead? {
      DropKeepsOrder(t, Take(t, capacity, step), at, at + n);
    } else if t.buffer.write != [] {
      DropKeepsOrder(t, Take(t, capacity, step), at + n, at + n + 1);
    }
  }

  lemma {:induction false} PopFrontKeepsOrder(t: Trace, capacity: nat)
    requires Fits(t.buffer, capacity) && Ordered(t)
    ensures Ordered(Take(t, capacity, PopFront))
  {
    assert InOrder(Take(t, capacity, PopFront)) == InOrder(t);
  }

  // ---------------------------------------------------------------- conservation

  function Number(x: nat): int { x }

  lemma {:induction false} CountFirst(s: seq<nat>, x: nat)
    requires s != []
    ensures Count(s, Number, x) == Count([s[0]], Number, x) + Count(s[1..], Number, x)
  {
    assert s == [s[0]] + s[1..];
    CountConcat([s[0]], s[1..], Number, x);
  }

  /** The places where the element pushed as number `x` is to be found. */
  ghost function Places(t: Trace, x: nat): nat {
    Count(t.delivered, Number, x) + Count(t.backs, Number, x) + Count(t.displaced, Number, x) + Count(t.evicted, Number, x)
    + Count(t.cleared, Number, x) + Count(t.buffer.read, Number, x) + Count(t.buffer.write, Number, x)
  }

  ghost predicate Conserved(t: Trace) {
    && (forall x: nat :: Places(t, x) == if x < t.pushed then 1 else 0)
    && t.buffer.dropped == |t.displaced| && t.buffer.drops == |t.evicted|
    && t.pushed == |t.delivered| + |t.backs| + |t.displaced| + |t.evicted| + |t.cleared|
                   + |t.buffer.read| + |t.buffer.write|
  }

  lemma {:induction false} PushConserves(t: Trace, capacity: nat, x: nat)
    requires Fits(t.buffer, capacity)
    ensures Places(Take(t, capacity, Push), x) == Places(t, x) + if x == t.pushed then 1 else 0
  {
    var write := t.buffer.write;
    if |write| < capacity {
      CountConcat(write, [t.pushed], Number, x);
      assert t.displaced + [] == t.displaced;
    } else {
      CountFirst(write, x);
      CountConcat(write[1..], [t.pushed], Number, x);
      CountConcat(t.displaced, [write[0]], Number, x);
    }
  }

  lemma {:induction false} MoveConserves(t: Trace, capacity: nat, x: nat)
    requires Fits(t.buffer, capacity)
    ensures Places(Take(t, capacity, Move), x) == Places(t, x)
  {
    var read, write := t.buffer.read, t.buffer.write;
    assert t.evicted + [] == t.evicted;
    if write != [] {
      CountFirst(write, x);
      if |read| < capacity {
        CountConcat(read, [write[0]], Number, x);
      } else {
        CountFirst(read, x);
        CountConcat(read[1..], [write[0]], Number, x);
        CountConcat(t.evicted, [read[0]], Number, x);
      }
    }
  }

  lemma {:induction false} RemovalConserves(t: Trace, capacity: nat, step: Step, x: nat)
    requires Fits(t.buffer, capacity) && !step.Push? && !step.Move?
    ensures Places(Take(t, capacity, step), x) == Places(t, x)
  {
    var read, write := t.buffer.read, t.buffer.write;
    match step
    case PopFront => if read != [] { CountFirst(read, x); CountConcat(t.delivered, [read[0]], Number, x); }
    case PopBack => if read != [] { CountConcat(t.backs, [read[|read| - 1]], Number, x); }
    case ClearOne => if write != [] { CountFirst(write, x); CountConcat(t.cleared, [write[0]], Number, x); }
    case ClearRead => CountConcat(t.cleared, read, Number, x);
    case _ =>
  }

  lemma {:induction false} TakeConserves(t: Trace, capacity: nat, step: Step)
    requires Fits(t.buffer, capacity) && Conserved(t)
    ensures Conserved(Take(t, capacity, step))
  {
    forall x: nat ensures Places(Take(t, capacity, step), x) == if x < Take(t, capacity, step).pushed then 1 else 0 {
      match step
      case Push => PushConserves(t, capacity, x);
      case Move => MoveConserves(t, capacity, x);
      case _ => RemovalConserves(t, capacity, step, x);
    }
  }

  /**
   Over every interleaving of pushes, drains, pops and clears: what was delivered, then the
   read buffer, then the write queue is in push order, and every element ever pushed is in
   exactly one place.
   */
  lemma {:induction false} RunKeepsOrderAndElements(capacity: nat, steps: seq<Step>)
    requires capacity > 0
    ensures Ordered(Execute(capacity, steps)) && Conserved(Execute(capacity, steps))
  {
    if steps != [] {
      var before, step := Execute(capacity, steps[..|steps| - 1]), steps[|steps| - 1];
      RunKeepsOrderAndElements(capacity, steps[..|steps| - 1]);
      TakeConserves(before, capacity, step);
      match step
      case Push => PushKeepsOrder(before, capacity);
      case Move => MoveKeepsOrder(before, capacity);
      case PopFront => PopFrontKeepsOrder(before, capacity);
      case PopBack => PopBackKeepsOrder(before, capacity);
      case _ => ClearKeepsOrder(before, capacity, step);
    }
  }

  /** pushed = writer drops + reader drops + consumed + cleared + still buffered. */
  lemma {:induction false} PushedAreAccountedFor(capacity: nat, steps: seq<Step>)
    requires capacity > 0
    ensures var t := Execute(capacity, steps);
      t.pushed == t.buffer.dropped + t.buffer.drops + (|t.delivered| + |t.backs|) + |t.cleared|
                  + |t.buffer.read| + |t.buffer.write|
  {
    RunKeepsOrderAndElements(capacity, steps);
  }

  // ---------------------------------------------------------------- a contended drain

  /** The elements that `Move` steps took off the write queue, oldest first. */
  function MovedBy(t: Trace, capacity: nat, steps: seq<Step>): (r: (Trace, seq<nat>))
    requires Fits(t.buffer, capacity)
    ensures Fits(r.0.buffer, capacity)
  {
    if steps == [] then (t, [])
    else
      var (before, moved) := MovedBy(t, capacity, steps[..|steps| - 1]);
      var step := steps[|steps| - 1];
      (Take(before, capacity, step),
       if step.Move? && before.buffer.write != [] then moved + [before.buffer.write[0]] else moved)
  }

  /**
   A drain makes as many moves as the write queue held when it began. Whatever is pushed
   meanwhile, the read buffer then ends with everything the drain moved.
   */
  lemma {:induction false} ContendedDrainKeepsMoved(t: Trace, capacity: nat, steps: seq<Step>)
    requires Fits(t.buffer, capacity)
    requires forall k :: 0 <= k < |steps| ==> steps[k].Push? || steps[k].Move?
    requires |MovedBy(t, capacity, steps).1| <= |t.buffer.write|
    ensures var (t', moved) := MovedBy(t, capacity, steps);
      |moved| <= |t'.buffer.read| && t'.buffer.read[|t'.buffer.read| - |moved|..] == moved
  {
    if steps != [] {
      ContendedDrainKeepsMoved(t, capacity, steps[..|steps| - 1]);
    }
  }
}
