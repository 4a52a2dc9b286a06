/**
 The ref-counted slot allocator, one atomic operation per step.

 A handle is an agent: it is the index a thread has popped, the loan or pointer a
 thread holds, or the position of a thread inside a destructor. Any number of
 threads may act on their handles in any order.
 */
module ArenaLifecycle {
  import opened Basics

  /** Half of `usize::MAX`: a clone beyond it panics after it has incremented the count. */
  const HALF_MAX: nat := 0x7FFF_FFFF_FFFF_FFFF

  datatype Payload = Vacant | Initialised | Destructing

  /** `leaked` counts the increments of clones that panicked. */
  datatype Slot = Slot(refCount: nat, payload: Payload, initialised: nat, destroyed: nat, leaked: nat)

  datatype Handle =
    | Popped(slot: nat)                    // taken off the free list, about to swap the count
    | Loan(slot: nat)                      // ArenaPtrUninit
    | Live(slot: nat)                      // ArenaPtr
    | Dropping(slot: nat, current: nat)    // the count was read
    | Destroying(slot: nat)                // the destructor runs
    | Destroyed(slot: nat)                 // about to store zero
    | Returning(slot: nat)                 // about to push onto the free list
    | Gone

  datatype State = State(slots: seq<Slot>, freeList: seq<nat>, handles: seq<Handle>, fault: bool)

  datatype Action =
    | Allocate                             // pop an index for a new reservation
    | Clone(handle: nat)
    | Init(handle: nat)                    // assume_init
    | Drop(handle: nat)                    // begin to drop a loan or a pointer
    | Advance(handle: nat, weak: bool)     // the next operation of a handle in between

  /** What one operation does to the arena, besides moving its own handle. */
  datatype Change =
    | Keep
    | Write(slot: nat, value: Slot)
    | Return(slot: nat)                    // push onto the free list
    | Spawn(slot: nat, value: Slot)        // a clone: one more handle
    | Crash

  /** A new arena: every slot is free, in index order. */
  function Fresh(capacity: nat): State {
    State(seq(capacity, _ => Slot(0, Vacant, 0, 0, 0)), seq(capacity, i requires 0 <= i => i), [], false)
  }

  predicate Occupies(h: Handle, slots: nat) { !h.Gone? && h.slot < slots }

  function Next(s: State, h: Handle, a: Action): Option<(Change, Handle)>
    requires Occupies(h, |s.slots|)
  {
    var i := h.slot;
    var slot := s.slots[i];
    match a
    case Allocate => None
    case Clone(_) =>
      if !h.Live? then None
      else if slot.refCount > HALF_MAX then
        Some((Write(i, slot.(refCount := slot.refCount + 1, leaked := slot.leaked + 1)), h))
      else Some((Spawn(i, slot.(refCount := slot.refCount + 1)), h))
    case Init(_) =>
      if !h.Loan? then None
      else Some((Write(i, slot.(payload := Initialised, initialised := slot.initialised + 1)), Live(i)))
    case Drop(_) =>
      if h.Loan? then Some((Write(i, slot.(refCount := 0)), Returning(i)))
      else if h.Live? then Some((Keep, Dropping(i, slot.refCount)))
      else None
    case Advance(_, weak) =>
      match h
      case Popped(_) =>
        if slot.refCount != 0 then Some((Crash, h)) else Some((Write(i, slot.(refCount := 1)), Loan(i)))
      case Dropping(_, current) =>
        if current == 1 then Some((Write(i, slot.(payload := Destructing)), Destroying(i)))
        else if weak || slot.refCount != current then Some((Keep, Dropping(i, slot.refCount)))
        else if current == 0 then Some((Crash, h))
        else Some((Write(i, slot.(refCount := current - 1)), Gone))
      case Destroying(_) =>
        Some((Write(i, slot.(payload := Vacant, destroyed := slot.destroyed + 1)), Destroyed(i)))
      case Destroyed(_) => Some((Write(i, slot.(refCount := 0)), Returning(i)))
      case Returning(_) => Some((Return(i), Gone))
      case _ => None
  }

  predicate Fits(s: State, change: Change) {
    match change
    case Write(i, _) => i < |s.slots|
    case Spawn(i, _) => i < |s.slots|
    case _ => true
  }

  function Land(s: State, h: nat, change: Change, handle: Handle): State
    requires h < |s.handles| && Fits(s, change)
  {
    var handles := s.handles[h := handle];
    match change
    case Keep => s.(handles := handles)
    case Write(i, value) => s.(slots := s.slots[i := value], handles := handles)
    case Spawn(i, value) => s.(slots := s.slots[i := value], handles := handles + [Live(i)])
    case Return(i) =>
      if |s.freeList| >= Max(|s.slots|, 1) then s.(fault := true)
      else s.(freeList := s.freeList + [i], handles := handles)
    case Crash => s.(fault := true)
  }

  function Act(s: State, a: Action): State {
    if s.fault then s
    else if a.Allocate? then
      if s.freeList == [] then s
      else s.(freeList := s.freeList[1..], handles := s.handles + [Popped(s.freeList[0])])
    else if a.handle < |s.handles| && Occupies(s.handles[a.handle], |s.slots|) then
      match Next(s, s.handles[a.handle], a)
      case None => s
      case Some((change, handle)) => Land(s, a.handle, change, handle)
    else s
  }

  function Run(s: State, actions: seq<Action>): State {
    if actions == [] then s else Act(Run(s, actions[..|actions| - 1]), actions[|actions| - 1])
  }

  // ---------------------------------------------------------------- accounting

  predicate Holds(h: Handle, i: nat) {
    (h.Loan? || h.Live? || h.Dropping? || h.Destroying? || h.Destroyed?) && h.slot == i
  }

  predicate Carries(h: Handle, i: nat) {
    (h.Popped? || h.Returning?) && h.slot == i
  }

  function Holders(handles: seq<Handle>, i: nat): nat {
    if handles == [] then 0
    else Holders(handles[..|handles| - 1], i) + Bit(Holds(handles[|handles| - 1], i))
  }

  function Carriers(handles: seq<Handle>, i: nat): nat {
    if handles == [] then 0
    else Carriers(handles[..|handles| - 1], i) + Bit(Carries(handles[|handles| - 1], i))
  }

  lemma {:induction false} CountsUpdate(handles: seq<Handle>, h: nat, handle: Handle, i: nat)
    requires h < |handles|
    ensures Holders(handles[h := handle], i) == Holders(handles, i) - Bit(Holds(handles[h], i)) + Bit(Holds(handle, i))
    ensures Carriers(handles[h := handle], i)
         == Carriers(handles, i) - Bit(Carries(handles[h], i)) + Bit(Carries(handle, i))
  {
    var last := |handles| - 1;
    if h == last {
      assert handles[h := handle][..last] == handles[..last];
    } else {
      assert handles[h := handle][..last] == handles[..last][h := handle];
      CountsUpdate(handles[..last], h, handle, i);
    }
  }

  lemma {:induction false} CountsAppend(handles: seq<Handle>, handle: Handle, i: nat)
    ensures Holders(handles + [handle], i) == Holders(handles, i) + Bit(Holds(handle, i))
    ensures Carriers(handles + [handle], i) == Carriers(handles, i) + Bit(Carries(handle, i))
  {
    assert (handles + [handle])[..|handles|] == handles;
  }

  lemma {:induction false} CountsCover(handles: seq<Handle>, h: nat, i: nat)
    requires h < |handles|
    ensures Holders(handles, i) >= Bit(Holds(handles[h], i))
    ensures Carriers(handles, i) >= Bit(Carries(handles[h], i))
  {
    if h < |handles| - 1 {
      CountsCover(handles[..|handles| - 1], h, i);
    }
  }

  lemma {:induction false} CountsCoverTwo(handles: seq<Handle>, g: nat, h: nat, i: nat)
    requires g < h < |handles|
    ensures Holders(handles, i) >= Bit(Holds(handles[g], i)) + Bit(Holds(handles[h], i))
  {
    if h < |handles| - 1 {
      CountsCoverTwo(handles[..|handles| - 1], g, h, i);
    } else {
      CountsCover(handles[..h], g, i);
    }
  }

  // ---------------------------------------------------------------- invariant

  /** A slot is once in the free list, or once in transit, or counted by its handles. */
  ghost predicate SlotSound(s: State, i: nat)
    requires i < |s.slots|
  {
    var slot := s.slots[i];
    && slot.refCount == Holders(s.handles, i) + slot.leaked
    && multiset(s.freeList)[i] + Carriers(s.handles, i) + Bit(slot.refCount > 0) == 1
    && (slot.refCount == 0 ==> slot.payload.Vacant?)
    && slot.initialised == slot.destroyed + Bit(!slot.payload.Vacant?)
  }

  predicate HandleSound(slots: seq<Slot>, h: Handle) {
    h.Gone? || (
      && h.slot < |slots|
      && var slot := slots[h.slot];
         match h
         case Loan(_) => slot.refCount == 1 && slot.payload.Vacant?
         case Live(_) => slot.payload.Initialised?
         case Dropping(_, current) => slot.payload.Initialised? && current > 0 && (current == 1 ==> slot.refCount == 1)
         case Destroying(_) => slot.payload.Destructing? && slot.refCount == 1
         case Destroyed(_) => slot.payload.Vacant? && slot.refCount == 1
         case _ => true)
  }

  ghost predicate Sound(s: State) {
    && !s.fault
    && (forall k :: 0 <= k < |s.freeList| ==> s.freeList[k] < |s.slots|)
    && (forall i :: 0 <= i < |s.slots| ==> SlotSound(s, i))
    && (forall h :: 0 <= h < |s.handles| ==> HandleSound(s.slots, s.handles[h]))
  }

  /** The handle that is in an exclusive position is the only holder of its slot. */
  lemma {:induction false} OnlyHolder(s: State, g: nat, h: nat, i: nat)
    requires Sound(s) && g < |s.handles| && h < |s.handles| && g != h && i < |s.slots|
    requires Holds(s.handles[g], i) && s.slots[i].refCount == 1
    ensures !Holds(s.handles[h], i)
  {
    assert SlotSound(s, i);
    CountsCoverTwo(s.handles, Min(g, h), Max(g, h), i);
  }

  /** A slot that comes back finds room: the free list holds only other slots, once each. */
  lemma {:induction false} FreeListHasRoom(s: State, h: nat, i: nat)
    requires Sound(s) && h < |s.handles| && i < |s.slots| && Carries(s.handles[h], i)
    ensures |s.freeList| < |s.slots|
  {
    CountsCover(s.handles, h, i);
    assert SlotSound(s, i);
    forall k | 0 <= k < |s.freeList| ensures multiset(s.freeList)[s.freeList[k]] <= 1 {
      assert SlotSound(s, s.freeList[k]);
    }
    CountsMakeDistinct(s.freeList);
    var others := Range(|s.slots|) - {i};
    forall k | 0 <= k < |s.freeList| ensures s.freeList[k] in others {
      assert s.freeList[k] in multiset(s.freeList);
    }
    DistinctFits(s.freeList, others);
  }

  // ---------------------------------------------------------------- what one operation moves

  /** The slot an operation writes stays sound given what its handle was and becomes. */
  predicate WriteSound(slot: Slot, h: Handle, value: Slot, h': Handle, spawned: nat) {
    var i := if h.Gone? then 0 else h.slot;
    && value.refCount + Bit(Holds(h, i)) + slot.leaked == slot.refCount + Bit(Holds(h', i)) + spawned + value.leaked
    && Bit(Carries(h', i)) + Bit(value.refCount > 0) == Bit(Carries(h, i)) + Bit(slot.refCount > 0)
    && (value.refCount == 0 ==> value.payload.Vacant?)
    && value.initialised + slot.destroyed + Bit(!slot.payload.Vacant?)
       == slot.initialised + value.destroyed + Bit(!value.payload.Vacant?)
  }

  ghost predicate Balanced(s: State, h: Handle, change: Change, h': Handle) {
    && Occupies(h, |s.slots|)
    && (h'.Gone? || h'.slot == h.slot)
    && match change
       case Keep => Holds(h', h.slot) == Holds(h, h.slot) && Carries(h', h.slot) == Carries(h, h.slot)
       case Write(i, value) => i == h.slot && WriteSound(s.slots[i], h, value, h', 0)
       case Spawn(i, value) => i == h.slot && WriteSound(s.slots[i], h, value, h', 1)
       case Return(i) => h == Returning(i) && h'.Gone?
       case Crash => false
  }

  lemma {:induction false} NextIsBalanced(s: State, g: nat, a: Action)
    requires Sound(s) && g < |s.handles| && Occupies(s.handles[g], |s.slots|)
    requires Next(s, s.handles[g], a).Some?
    ensures var (change, h') := Next(s, s.handles[g], a).value;
      Fits(s, change) && Balanced(s, s.handles[g], change, h')
  {
    var i := s.handles[g].slot;
    assert SlotSound(s, i);
    CountsCover(s.handles, g, i);
  }

  lemma {:induction false} LandKeepsSlot(s: State, g: nat, change: Change, h': Handle, i: nat)
    requires Sound(s) && g < |s.handles| && i < |s.slots| && Fits(s, change)
    requires Balanced(s, s.handles[g], change, h') && !Land(s, g, change, h').fault
    ensures |Land(s, g, change, h').slots| == |s.slots|
    ensures SlotSound(Land(s, g, change, h'), i)
  {
    assert SlotSound(s, i);
    CountsUpdate(s.handles, g, h', i);
    CountsCover(s.handles, g, i);
    if change.Spawn? {
      CountsAppend(s.handles[g := h'], Live(change.slot), i);
    }
  }

  /** A write leaves every other handle of the slot in a sound position. */
  lemma {:induction false} NextKeepsOthers(s: State, g: nat, a: Action, h: nat)
    requires Sound(s) && g < |s.handles| && Occupies(s.handles[g], |s.slots|)
    requires h < |s.handles| && h != g && Next(s, s.handles[g], a).Some?
    ensures var (change, h') := Next(s, s.handles[g], a).value;
      (change.Write? || change.Spawn?) && change.slot < |s.slots| ==>
        HandleSound(s.slots[change.slot := change.value], s.handles[h])
  {
    var i := s.handles[g].slot;
    assert SlotSound(s, i);
    assert HandleSound(s.slots, s.handles[h]);
    CountsCover(s.handles, g, i);
    CountsCover(s.handles, h, i);
    if Holds(s.handles[g], i) {
      CountsCoverTwo(s.handles, Min(g, h), Max(g, h), i);
      if s.slots[i].refCount == 1 {
        OnlyHolder(s, g, h, i);
      }
    }
  }

  lemma {:induction false} NextKeepsSelf(s: State, g: nat, a: Action)
    requires Sound(s) && g < |s.handles| && Occupies(s.handles[g], |s.slots|)
    requires Next(s, s.handles[g], a).Some?
    ensures var (change, h') := Next(s, s.handles[g], a).value;
      && Fits(s, change)
      && HandleSound(if change.Write? || change.Spawn? then s.slots[change.slot := change.value] else s.slots, h')
      && (change.Spawn? ==> HandleSound(s.slots[change.slot := change.value], Live(change.slot)))
  {
    var i := s.handles[g].slot;
    assert SlotSound(s, i);
    assert HandleSound(s.slots, s.handles[g]);
    CountsCover(s.handles, g, i);
  }

  lemma {:induction false} HandleActKeepsSound(s: State, g: nat, a: Action)
    requires Sound(s) && g < |s.handles| && Occupies(s.handles[g], |s.slots|)
    requires Next(s, s.handles[g], a).Some?
    ensures var (change, h') := Next(s, s.handles[g], a).value; Fits(s, change) && Sound(Land(s, g, change, h'))
  {
    var (change, h') := Next(s, s.handles[g], a).value;
    NextIsBalanced(s, g, a);
    NextKeepsSelf(s, g, a);
    if change.Return? {
      FreeListHasRoom(s, g, change.slot);
    }
    var s' := Land(s, g, change, h');
    forall i | 0 <= i < |s'.slots| ensures SlotSound(s', i) {
      LandKeepsSlot(s, g, change, h', i);
    }
    forall h | 0 <= h < |s'.handles| ensures HandleSound(s'.slots, s'.handles[h]) {
      if h != g && h < |s.handles| {
        assert HandleSound(s.slots, s.handles[h]);
        NextKeepsOthers(s, g, a, h);
      }
    }
  }

  lemma {:induction false} AllocateKeepsSound(s: State)
    requires Sound(s)
    ensures Sound(Act(s, Allocate))
  {
    if s.freeList != [] {
      var s' := Act(s, Allocate);
      var i := s.freeList[0];
      assert s.freeList == [i] + s.freeList[1..];
      forall j | 0 <= j < |s'.slots| ensures SlotSound(s', j) {
        assert SlotSound(s, j);
        CountsAppend(s.handles, Popped(i), j);
      }
    }
  }

  lemma {:induction false} FreshIsSound(capacity: nat)
    ensures Sound(Fresh(capacity))
  {
    var s := Fresh(capacity);
    forall i | 0 <= i < capacity ensures SlotSound(s, i) {
      var before, after := s.freeList[..i], s.freeList[i + 1..];
      assert s.freeList == before + [i] + after;
      assert i !in before && i !in after;
    }
  }

  lemma {:induction false} RunKeepsSound(capacity: nat, actions: seq<Action>)
    ensures Sound(Run(Fresh(capacity), actions))
    ensures |Run(Fresh(capacity), actions).slots| == capacity
  {
    if actions == [] {
      FreshIsSound(capacity);
    } else {
      var last := |actions| - 1;
      RunKeepsSound(capacity, actions[..last]);
      var s, a := Run(Fresh(capacity), actions[..last]), actions[last];
      if a.Allocate? {
        AllocateKeepsSound(s);
      } else if a.handle < |s.handles| && Occupies(s.handles[a.handle], |s.slots|)
                && Next(s, s.handles[a.handle], a).Some? {
        HandleActKeepsSound(s, a.handle, a);
      }
    }
  }

  // ---------------------------------------------------------------- theorems

  /**
   In every interleaving each slot is in exactly one condition: once in the free list,
   once in transit to or from it, or ref-counted by its handles; no panic is reached.
   */
  lemma {:induction false} SlotLifecycle(capacity: nat, actions: seq<Action>, i: nat)
    requires i < capacity
    ensures var s := Run(Fresh(capacity), actions);
      && !s.fault && |s.slots| == capacity
      && var free, transit, count := multiset(s.freeList)[i], Carriers(s.handles, i), s.slots[i].refCount;
         || (free == 1 && transit == 0 && count == 0)
         || (free == 0 && transit == 1 && count == 0)
         || (free == 0 && transit == 0 && count > 0 && count == Holders(s.handles, i) + s.slots[i].leaked)
  {
    RunKeepsSound(capacity, actions);
    assert SlotSound(Run(Fresh(capacity), actions), i);
  }

  /**
   In every interleaving each initialised payload is destroyed exactly once, and a
   slot is free, in transit or on loan only after the destructor of its payload ended.
   */
  lemma {:induction false} PayloadLifecycle(capacity: nat, actions: seq<Action>, h: nat)
    requires h < |Run(Fresh(capacity), actions).handles| && !Run(Fresh(capacity), actions).handles[h].Gone?
    ensures var s := Run(Fresh(capacity), actions);
      var handle := s.handles[h];
      && handle.slot < |s.slots|
      && var slot := s.slots[handle.slot];
         && slot.initialised == slot.destroyed + Bit(!slot.payload.Vacant?)
         && (handle.Live? || handle.Dropping? ==> slot.payload.Initialised? && slot.refCount > 0)
         && (handle.Popped? || handle.Returning? || handle.Loan? ==> slot.initialised == slot.destroyed)
  {
    RunKeepsSound(capacity, actions);
    var s := Run(Fresh(capacity), actions);
    var handle := s.handles[h];
    assert HandleSound(s.slots, handle);
    assert SlotSound(s, handle.slot);
    CountsCover(s.handles, h, handle.slot);
  }
}
