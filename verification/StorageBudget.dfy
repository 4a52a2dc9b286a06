/**
 The capacity planned for a publisher's arena, and why a loan below the publisher's
 quota finds a free slot whatever its subscribers are doing.
 */
module StorageBudget {
  import opened Basics

  type Usize = n: nat | n <= USIZE_MAX

  datatype StorageError = ZeroSubscriberCapacity | CapacityOverflow

  /** `PublisherStoragePlan`: the loan quota, the retained budget and the subscribers' capacities. */
  datatype Plan = Plan(loans: Usize, retained: Usize, subscribers: seq<Usize>)

  function CheckedAdd(a: Usize, b: nat): Option<Usize> {
    if a + b <= USIZE_MAX then Some(a + b) else None
  }

  /** A read queue, a write queue and one pointer in flight for each subscriber. */
  function Footprint(subscribers: seq<Usize>): nat {
    if subscribers == [] then 0
    else Footprint(subscribers[..|subscribers| - 1]) + 2 * (subscribers[|subscribers| - 1] as nat) + 1
  }

  function PlannedSlots(plan: Plan): nat {
    plan.loans + plan.retained + Footprint(plan.subscribers)
  }

  predicate Positive(subscribers: seq<Usize>) {
    forall k :: 0 <= k < |subscribers| ==> subscribers[k] > 0
  }

  predicate Plannable(plan: Plan) {
    plan.loans <= U32_MAX && Positive(plan.subscribers) && PlannedSlots(plan) <= USIZE_MAX
  }

  /** A zero capacity is reported only when no overflow comes before it. */
  ghost predicate ZeroComesFirst(plan: Plan) {
    plan.loans <= U32_MAX &&
    exists k :: 0 <= k < |plan.subscribers| && plan.subscribers[k] == 0 && Positive(plan.subscribers[..k])
                && PlannedSlots(plan.(subscribers := plan.subscribers[..k])) <= USIZE_MAX
  }

  lemma {:induction false} FootprintGrows(subscribers: seq<Usize>, k: nat)
    requires k <= |subscribers|
    ensures Footprint(subscribers[..k]) <= Footprint(subscribers)
  {
    if k < |subscribers| {
      var shorter := subscribers[..|subscribers| - 1];
      FootprintGrows(shorter, k);
      assert shorter[..k] == subscribers[..k];
    } else {
      assert subscribers[..k] == subscribers;
    }
  }

  /** The planned slots, or which of the two errors is met first. */
  ghost function PlanCapacity(plan: Plan): Result<Usize, StorageError> {
    if Plannable(plan) then Ok(PlannedSlots(plan))
    else if ZeroComesFirst(plan) then Err(ZeroSubscriberCapacity)
    else Err(CapacityOverflow)
  }

  /** `PublisherStoragePlan::capacity`. */
  method Capacity(plan: Plan) returns (r: Result<Usize, StorageError>)
    ensures r == PlanCapacity(plan)
  {
    if plan.loans > U32_MAX {
      return Err(CapacityOverflow);
    }
    var total;
    match CheckedAdd(plan.loans, plan.retained) {
      case None => return Err(CapacityOverflow);
      case Some(sum) => total := sum;
    }
    var subs := plan.subscribers;
    for k := 0 to |subs|
      invariant Positive(subs[..k])
      invariant total == PlannedSlots(plan.(subscribers := subs[..k]))
    {
      FootprintGrows(subs, k);
      FootprintGrows(subs, k + 1);
      assert subs[..k + 1][..k] == subs[..k];
      if subs[k] == 0 {
        return Err(ZeroSubscriberCapacity);
      }
      var footprint := 2 * (subs[k] as nat) + 1;
      if footprint > USIZE_MAX || CheckedAdd(total, footprint).None? {
        ZeroAfterOverflow(plan, k);
        return Err(CapacityOverflow);
      }
      total := CheckedAdd(total, footprint).value;
    }
    assert subs[..|subs|] == subs;
    return Ok(total);
  }

  lemma {:induction false} ZeroAfterOverflow(plan: Plan, k: nat)
    requires k < |plan.subscribers| && Positive(plan.subscribers[..k + 1])
    requires PlannedSlots(plan.(subscribers := plan.subscribers[..k + 1])) > USIZE_MAX
    ensures !ZeroComesFirst(plan)
  {
    forall j | 0 <= j <= k ensures plan.subscribers[j] > 0 {
      assert plan.subscribers[..k + 1][j] > 0;
    }
    forall z | 0 <= z < |plan.subscribers| && plan.subscribers[z] == 0
      ensures PlannedSlots(plan.(subscribers := plan.subscribers[..z])) > USIZE_MAX
    {
      FootprintGrows(plan.subscribers[..z], k + 1);
      assert plan.subscribers[..z][..k + 1] == plan.subscribers[..k + 1];
    }
  }

  // ---------------------------------------------------------------- one publisher and its subscribers

  /** A queued message: a handle to one of this arena's slots, or another publisher's message. */
  datatype Entry = Own(slot: nat) | Foreign

  /** `moving` is the pointer in flight of a drain, `evicted` the front it pushes out of a full read buffer. */
  datatype Buffer = Buffer(
    capacity: nat, write: seq<Entry>, read: seq<Entry>, moving: Option<Entry>, evicted: Option<Entry>)

  /** The pointer a flush is fanning out, and what its latest forced push displaced. */
  datatype Fanout = Fanout(slot: nat, next: nat, displaced: Option<Entry>)

  /**
   Every handle to the arena's slots. `connected` tells which subscribers this
   publisher is bound to. `rivals` has one place for each other publisher
   of the channel: what its latest forced push displaced and has not yet released.
   */
  datatype State = State(
    slots: nat, loans: nat, pending: seq<nat>, outstanding: seq<nat>, fanout: Option<Fanout>,
    buffers: seq<Buffer>, connected: seq<bool>, rivals: seq<Option<Entry>>, outside: seq<nat>)

  /** Steps of the publisher's own thread. */
  datatype PublisherAction =
    | Loan(slot: nat)
    | Send(index: nat)                       // an output joins the pending batch
    | DropLoan(index: nat)
    | DiscardPending
    | BeginFanout                            // flush takes the next pending pointer
    | Deliver                                // force_push of a clone into the next connected subscriber
    | ReleaseDisplaced
    | EndFanout

  /** Steps of a drain of one subscriber. */
  datatype DrainAction =
    | Pop                                    // take a pointer off the write queue
    | Evict                                  // make room in the read buffer
    | ReleaseEvicted
    | Store                                  // append the pointer to the read buffer

  /** Steps of everybody else. */
  datatype ChannelAction =
    | RivalPush(rival: nat, subscriber: nat)
    | RivalRelease(rival: nat)
    | Drain(subscriber: nat, step: DrainAction)
    | Keep(subscriber: nat, index: nat)      // the callback takes a message out of its input
    | CloneOutside(index: nat)
    | DropOutside(index: nat)

  datatype Action = Mine(own: PublisherAction) | Theirs(other: ChannelAction)

  function Fresh(plan: Plan, connected: seq<bool>, rivals: nat): State {
    State(PlannedSlots(plan), plan.loans, [], [], None,
          seq(|plan.subscribers|, k requires 0 <= k < |plan.subscribers| => Buffer(plan.subscribers[k], [], [], None, None)),
          connected, seq(rivals, _ => None), [])
  }

  function Remove<T>(s: seq<T>, k: nat): (r: seq<T>)
    requires k < |s|
    ensures |r| == |s| - 1
  {
    s[..k] + s[k + 1..]
  }

  function OwnSlots(entries: seq<Entry>): (r: seq<nat>)
    ensures |r| <= |entries|
  {
    if entries == [] then []
    else OwnSlots(entries[..|entries| - 1])
         + if entries[|entries| - 1].Own? then [entries[|entries| - 1].slot] else []
  }

  function Optional<T>(entry: Option<T>): seq<T> {
    if entry.Some? then [entry.value] else []
  }

  function BufferEntries(b: Buffer): seq<Entry> {
    b.write + b.read + Optional(b.moving) + Optional(b.evicted)
  }

  function BufferSlots(buffers: seq<Buffer>): seq<nat> {
    if buffers == [] then []
    else BufferSlots(buffers[..|buffers| - 1]) + OwnSlots(BufferEntries(buffers[|buffers| - 1]))
  }

  /** How many other publishers hold a handle of this arena that they displaced. */
  function Displaced(rivals: seq<Option<Entry>>): seq<nat> {
    if rivals == [] then []
    else Displaced(rivals[..|rivals| - 1]) + OwnSlots(Optional(rivals[|rivals| - 1]))
  }

  /** The slot of every handle, wherever it is. */
  function Handles(s: State): seq<nat> {
    s.pending + s.outstanding
    + (if s.fanout.Some? then [s.fanout.value.slot] + OwnSlots(Optional(s.fanout.value.displaced)) else [])
    + BufferSlots(s.buffers) + Displaced(s.rivals) + s.outside
  }

  predicate Free(s: State, slot: nat) {
    slot < s.slots && slot !in Handles(s)
  }

  /** The quota of `loan_uninit` and of an output span: sent and outstanding loans share it. */
  predicate QuotaLeft(s: State) {
    s.fanout.None? && |s.pending| <= s.loans && |s.outstanding| < s.loans - |s.pending|
  }

  /** A forced push: the queue keeps its newest entries and hands back the oldest one it displaces. */
  function ForcePush(b: Buffer, entry: Entry): (Buffer, Option<Entry>) {
    if |b.write| < b.capacity then (b.(write := b.write + [entry]), None)
    else if b.write == [] then (b, None)
    else (b.(write := b.write[1..] + [entry]), Some(b.write[0]))
  }

  /** Loans, sends and flushes of the publisher. */
  function PublisherStep(s: State, a: PublisherAction): State {
    match a
    case Loan(slot) => if QuotaLeft(s) && Free(s, slot) then s.(outstanding := s.outstanding + [slot]) else s
    case Send(k) =>
      if k < |s.outstanding| then
        s.(pending := s.pending + [s.outstanding[k]], outstanding := Remove(s.outstanding, k))
      else s
    case DropLoan(k) => if k < |s.outstanding| then s.(outstanding := Remove(s.outstanding, k)) else s
    case DiscardPending => s.(pending := [])
    case BeginFanout =>
      if s.fanout.None? && s.pending != [] && s.outstanding == [] then
        s.(pending := s.pending[1..], fanout := Some(Fanout(s.pending[0], 0, None)))
      else s
    case Deliver => if s.fanout.Some? && s.fanout.value.displaced.None? then DeliverStep(s, s.fanout.value) else s
    case ReleaseDisplaced => if s.fanout.Some? then s.(fanout := Some(s.fanout.value.(displaced := None))) else s
    case EndFanout =>
      if s.fanout.Some? && s.fanout.value.displaced.None? && s.fanout.value.next == |s.buffers| then s.(fanout := None)
      else s
  }

  function DeliverStep(s: State, f: Fanout): State {
    if f.next >= |s.buffers| then s
    else if f.next >= |s.connected| || !s.connected[f.next] then s.(fanout := Some(f.(next := f.next + 1)))
    else
      var (b, displaced) := ForcePush(s.buffers[f.next], Own(f.slot));
      s.(buffers := s.buffers[f.next := b], fanout := Some(Fanout(f.slot, f.next + 1, displaced)))
  }

  /** Other publishers, drains and callbacks. */
  function OtherStep(s: State, a: ChannelAction): State {
    match a
    case RivalPush(r, k) =>
      if r < |s.rivals| && s.rivals[r].None? && k < |s.buffers| then
        var (b, displaced) := ForcePush(s.buffers[k], Foreign);
        s.(buffers := s.buffers[k := b], rivals := s.rivals[r := displaced])
      else s
    case RivalRelease(r) => if r < |s.rivals| then s.(rivals := s.rivals[r := None]) else s
    case CloneOutside(k) => if k < |s.outside| then s.(outside := s.outside + [s.outside[k]]) else s
    case DropOutside(k) => if k < |s.outside| then s.(outside := Remove(s.outside, k)) else s
    case Keep(k, i) =>
      if k < |s.buffers| && i < |s.buffers[k].read| then
        var b := s.buffers[k];
        s.(buffers := s.buffers[k := b.(read := Remove(b.read, i))], outside := s.outside + OwnSlots([b.read[i]]))
      else s
    case Drain(k, step) =>
      if k < |s.buffers| then s.(buffers := s.buffers[k := DrainStep(s.buffers[k], step)]) else s
  }

  function Act(s: State, a: Action): State {
    match a case Mine(own) => PublisherStep(s, own) case Theirs(other) => OtherStep(s, other)
  }

  /** The steps of `drain_writer_to_reader`. */
  function DrainStep(b: Buffer, a: DrainAction): Buffer {
    match a
    case Pop =>
      if b.moving.None? && b.evicted.None? && b.write != [] then b.(write := b.write[1..], moving := Some(b.write[0]))
      else b
    case Evict =>
      if b.moving.Some? && b.evicted.None? && |b.read| >= b.capacity && b.read != [] then
        b.(read := b.read[1..], evicted := Some(b.read[0]))
      else b
    case ReleaseEvicted => b.(evicted := None)
    case Store =>
      if b.moving.Some? && b.evicted.None? && |b.read| < b.capacity then
        b.(read := b.read + [b.moving.value], moving := None)
      else b
  }

  function Run(s: State, actions: seq<Action>): State {
    if actions == [] then s else Act(Run(s, actions[..|actions| - 1]), actions[|actions| - 1])
  }

  // ---------------------------------------------------------------- the bound

  predicate BufferBounded(b: Buffer) {
    |b.write| <= b.capacity && |b.read| + |Optional(b.moving)| + |Optional(b.evicted)| <= b.capacity + 1
    && |b.read| <= b.capacity
  }

  ghost predicate Bounded(s: State) {
    && |s.pending| + |s.outstanding| + |Optional(s.fanout)| <= s.loans
    && (forall k :: 0 <= k < |s.buffers| ==> BufferBounded(s.buffers[k]))
  }

  predicate Planned(s: State, plan: Plan) {
    && s.slots == PlannedSlots(plan) && s.loans == plan.loans && |s.buffers| == |plan.subscribers|
    && forall k :: 0 <= k < |s.buffers| ==> s.buffers[k].capacity == plan.subscribers[k]
  }

  lemma {:induction false} PublisherKeepsBounds(s: State, a: PublisherAction, plan: Plan)
    requires Bounded(s) && Planned(s, plan)
    ensures Bounded(PublisherStep(s, a)) && Planned(PublisherStep(s, a), plan)
    ensures |PublisherStep(s, a).rivals| == |s.rivals|
  {
  }

  lemma {:induction false} DrainStepBounded(b: Buffer, a: DrainAction)
    requires BufferBounded(b)
    ensures BufferBounded(DrainStep(b, a)) && DrainStep(b, a).capacity == b.capacity
  {
  }

  lemma {:induction false} OthersKeepBounds(s: State, a: ChannelAction, plan: Plan)
    requires Bounded(s) && Planned(s, plan)
    ensures Bounded(OtherStep(s, a)) && Planned(OtherStep(s, a), plan)
    ensures |OtherStep(s, a).rivals| == |s.rivals|
  {
    match a
    case Drain(k, step) =>
      if k < |s.buffers| {
        DrainStepBounded(s.buffers[k], step);
      }
    case Keep(k, i) =>
      if k < |s.buffers| && i < |s.buffers[k].read| {
        assert BufferBounded(s.buffers[k]);
      }
    case _ =>
  }

  lemma {:induction false} RunKeepsBounds(plan: Plan, connected: seq<bool>, rivals: nat, actions: seq<Action>)
    ensures Bounded(Run(Fresh(plan, connected, rivals), actions)) && Planned(Run(Fresh(plan, connected, rivals), actions), plan)
    ensures |Run(Fresh(plan, connected, rivals), actions).rivals| == rivals
  {
    if actions != [] {
      var last := |actions| - 1;
      RunKeepsBounds(plan, connected, rivals, actions[..last]);
      var s := Run(Fresh(plan, connected, rivals), actions[..last]);
      match actions[last]
      case Mine(own) => PublisherKeepsBounds(s, own, plan);
      case Theirs(other) => OthersKeepBounds(s, other, plan);
    }
  }

  lemma {:induction false} BuffersFitFootprint(buffers: seq<Buffer>, capacities: seq<Usize>)
    requires |buffers| == |capacities|
    requires forall k :: 0 <= k < |buffers| ==> BufferBounded(buffers[k]) && buffers[k].capacity == capacities[k]
    ensures |BufferSlots(buffers)| <= Footprint(capacities)
  {
    if buffers != [] {
      var last := |buffers| - 1;
      BuffersFitFootprint(buffers[..last], capacities[..last]);
      assert BufferBounded(buffers[last]);
    }
  }

  ghost function Elements(s: seq<nat>): set<nat> { set x | x in s }

  lemma {:induction false} FewElements(s: seq<nat>)
    ensures |Elements(s)| <= |s|
  {
    if s != [] {
      var last := |s| - 1;
      FewElements(s[..last]);
      assert s == s[..last] + [s[last]];
      assert Elements(s) == Elements(s[..last]) + {s[last]};
    }
  }

  /** Fewer handles than slots leave a slot free. */
  lemma {:induction false} SomeSlotIsFree(handles: seq<nat>, slots: nat)
    requires |handles| < slots
    ensures exists slot: nat :: slot < slots && slot !in handles
  {
    FewElements(handles);
    if Range(slots) <= Elements(handles) {
      SubsetFits(Range(slots), Elements(handles));
      assert false;
    }
    var slot :| slot in Range(slots) && slot !in Elements(handles);
  }

  lemma {:induction false} SubsetFits(a: set<nat>, b: set<nat>)
    requires a <= b
    ensures |a| <= |b|
  {
    assert b == a + (b - a);
  }

  /**
   In every interleaving of loans, sends, flushes, drains and other publishers' pushes:
   while quota is left and the handles kept outside, together with those that other
   publishers displaced and still hold, stay within the retained budget, a slot is free.
   */
  lemma {:induction false} LoanFindsSlot(plan: Plan, connected: seq<bool>, rivals: nat, actions: seq<Action>)
    requires QuotaLeft(Run(Fresh(plan, connected, rivals), actions))
    requires var s := Run(Fresh(plan, connected, rivals), actions); |s.outside| + |Displaced(s.rivals)| <= plan.retained
    ensures exists slot :: Free(Run(Fresh(plan, connected, rivals), actions), slot)
  {
    var s := Run(Fresh(plan, connected, rivals), actions);
    RunKeepsBounds(plan, connected, rivals, actions);
    BuffersFitFootprint(s.buffers, plan.subscribers);
    SomeSlotIsFree(Handles(s), s.slots);
    var slot: nat :| slot < s.slots && slot !in Handles(s);
    assert Free(s, slot);
  }

  lemma {:induction false} FewDisplaced(rivals: seq<Option<Entry>>)
    ensures |Displaced(rivals)| <= |rivals|
  {
    if rivals != [] {
      FewDisplaced(rivals[..|rivals| - 1]);
    }
  }

  /** It is enough that what users keep leaves one slot of the retained budget to each other publisher of the channel. */
  lemma {:induction false} RetainedBudgetSuffices(plan: Plan, connected: seq<bool>, rivals: nat, actions: seq<Action>)
    requires QuotaLeft(Run(Fresh(plan, connected, rivals), actions))
    requires |Run(Fresh(plan, connected, rivals), actions).outside| + rivals <= plan.retained
    ensures exists slot :: Free(Run(Fresh(plan, connected, rivals), actions), slot)
  {
    RunKeepsBounds(plan, connected, rivals, actions);
    FewDisplaced(Run(Fresh(plan, connected, rivals), actions).rivals);
    LoanFindsSlot(plan, connected, rivals, actions);
  }
}
