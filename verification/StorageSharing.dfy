/**
 The write queues of all connected subscribers hold suffixes of one sequence of
 publications, so that a slot in the longest of them pays for all.
 */
module StorageSharing {
  import opened Basics
  import opened StorageBudget

  predicate Bound(connected: seq<bool>, k: nat) { k < |connected| && connected[k] }

  /** Read buffer and pointer in flight of every connected subscriber. */
  function Reading(subscribers: seq<Usize>, connected: seq<bool>): nat {
    if subscribers == [] then 0
    else
      var last := |subscribers| - 1;
      Reading(subscribers[..last], connected) + if Bound(connected, last) then (subscribers[last] as nat) + 1 else 0
  }

  /** The longest write queue of a connected subscriber. */
  function Widest(subscribers: seq<Usize>, connected: seq<bool>): nat {
    if subscribers == [] then 0
    else
      var last := |subscribers| - 1;
      if Bound(connected, last) then Max(Widest(subscribers[..last], connected), subscribers[last])
      else Widest(subscribers[..last], connected)
  }

  lemma {:induction false} WidestCovers(subscribers: seq<Usize>, connected: seq<bool>, k: nat)
    requires k < |subscribers| && Bound(connected, k)
    ensures subscribers[k] as nat <= Widest(subscribers, connected)
  {
    var last := |subscribers| - 1;
    if k < last {
      WidestCovers(subscribers[..last], connected, k);
    }
  }

  // ---------------------------------------------------------------- suffixes

  predicate Suffix(a: seq<nat>, b: seq<nat>) { |a| <= |b| && a == b[|b| - |a|..] }

  lemma {:induction false} OwnSlotsConcat(a: seq<Entry>, b: seq<Entry>)
    ensures OwnSlots(a + b) == OwnSlots(a) + OwnSlots(b)
  {
    if b == [] {
      assert a + b == a;
    } else {
      var last := |b| - 1;
      OwnSlotsConcat(a, b[..last]);
      assert (a + b)[..|a + b| - 1] == a + b[..last];
      ConcatAssociates(OwnSlots(a), OwnSlots(b[..last]), if b[last].Own? then [b[last].slot] else []);
    }
  }

  lemma {:induction false} OwnSlotsOfOne(e: Entry)
    ensures OwnSlots([e]) == if e.Own? then [e.slot] else []
  {
    assert [e][..0] == [];
  }

  lemma {:induction false} OldestGone(write: seq<Entry>, published: seq<nat>)
    requires write != [] && Suffix(OwnSlots(write), published)
    ensures Suffix(OwnSlots(write[1..]), published)
  {
    assert write == [write[0]] + write[1..];
    OwnSlotsConcat([write[0]], write[1..]);
    OwnSlotsOfOne(write[0]);
  }

  lemma {:induction false} NewestAdded(write: seq<Entry>, e: Entry, published: seq<nat>)
    requires Suffix(OwnSlots(write), published)
    ensures Suffix(OwnSlots(write + [e]), published + if e.Own? then [e.slot] else [])
  {
    OwnSlotsConcat(write, [e]);
    OwnSlotsOfOne(e);
  }

  lemma {:induction false} PushExtends(b: Buffer, e: Entry, published: seq<nat>)
    requires Suffix(OwnSlots(b.write), published)
    ensures Suffix(OwnSlots(ForcePush(b, e).0.write), published + if e.Own? then [e.slot] else [])
  {
    if |b.write| < b.capacity {
      NewestAdded(b.write, e, published);
    } else if b.write != [] {
      OldestGone(b.write, published);
      NewestAdded(b.write[1..], e, published);
    }
  }

  // ---------------------------------------------------------------- the sequence of publications

  predicate Begins(s: State, a: Action) {
    a == Mine(BeginFanout) && s.fanout.None? && s.pending != [] && s.outstanding == []
  }

  /** The slots fanned out during a run, in order. */
  function Publications(s: State, actions: seq<Action>): seq<nat> {
    if actions == [] then []
    else
      var last := |actions| - 1;
      var before := Run(s, actions[..last]);
      Publications(s, actions[..last]) + if Begins(before, actions[last]) then [before.pending[0]] else []
  }

  /** What of the publications has been offered to subscriber `k`: all but one that is still on its way. */
  function Offered(fanout: Option<Fanout>, published: seq<nat>, k: nat): seq<nat> {
    if fanout.Some? && fanout.value.next <= k && published != [] then published[..|published| - 1] else published
  }

  predicate Alien(entries: seq<Entry>) {
    forall i :: 0 <= i < |entries| ==> entries[i].Foreign?
  }

  /** No entry of this arena. */
  predicate AlienBuffer(b: Buffer) {
    Alien(b.write) && Alien(b.read) && Alien(Optional(b.moving)) && Alien(Optional(b.evicted))
  }

  predicate SharedBuffer(bound: bool, b: Buffer, offered: seq<nat>) {
    if bound then Suffix(OwnSlots(b.write), offered) else AlienBuffer(b)
  }

  ghost predicate SharedAt(s: State, published: seq<nat>, k: nat)
    requires k < |s.buffers|
  {
    SharedBuffer(Bound(s.connected, k), s.buffers[k], Offered(s.fanout, published, k))
  }

  ghost predicate Shared(s: State, published: seq<nat>) {
    && (s.fanout.Some? ==> published != [] && published[|published| - 1] == s.fanout.value.slot)
    && (forall k :: 0 <= k < |s.buffers| ==> SharedAt(s, published, k))
  }

  lemma {:induction false} ForeignKeepsShared(bound: bool, b: Buffer, offered: seq<nat>)
    requires SharedBuffer(bound, b, offered)
    ensures SharedBuffer(bound, ForcePush(b, Foreign).0, offered)
  {
    if bound {
      PushExtends(b, Foreign, offered);
      assert offered + [] == offered;
    }
  }

  lemma {:induction false} DrainKeepsShared(bound: bool, b: Buffer, a: DrainAction, offered: seq<nat>)
    requires SharedBuffer(bound, b, offered)
    ensures SharedBuffer(bound, DrainStep(b, a), offered)
  {
    if bound && b.write != [] {
      OldestGone(b.write, offered);
    }
  }

  lemma {:induction false} TakingKeepsShared(bound: bool, b: Buffer, i: nat, offered: seq<nat>)
    requires SharedBuffer(bound, b, offered) && i < |b.read|
    ensures SharedBuffer(bound, b.(read := Remove(b.read, i)), offered)
  {
  }

  /** The publisher is about to push into subscriber `k`. */
  predicate Delivers(s: State, a: PublisherAction, k: nat) {
    a.Deliver? && s.fanout.Some? && s.fanout.value.displaced.None? && s.fanout.value.next == k && Bound(s.connected, k)
  }

  lemma {:induction false} PublisherTouches(s: State, a: PublisherAction, k: nat)
    requires k < |s.buffers|
    ensures |PublisherStep(s, a).buffers| == |s.buffers|
    ensures PublisherStep(s, a).buffers[k]
         == if Delivers(s, a, k) then ForcePush(s.buffers[k], Own(s.fanout.value.slot)).0 else s.buffers[k]
  {
  }

  lemma {:induction false} PublisherOffers(s: State, a: PublisherAction, published: seq<nat>, k: nat)
    requires k < |s.buffers| && Bound(s.connected, k) && (s.fanout.Some? ==> published != [])
    ensures Offered(PublisherStep(s, a).fanout, published + (if Begins(s, Mine(a)) then [s.pending[0]] else []), k)
         == if Delivers(s, a, k) then published else Offered(s.fanout, published, k)
  {
    if Begins(s, Mine(a)) {
      assert (published + [s.pending[0]])[..|published|] == published;
    } else {
      assert published + [] == published;
    }
  }

  lemma {:induction false} DeliveryExtends(b: Buffer, published: seq<nat>)
    requires published != [] && Suffix(OwnSlots(b.write), published[..|published| - 1])
    ensures Suffix(OwnSlots(ForcePush(b, Own(published[|published| - 1])).0.write), published)
  {
    var last := |published| - 1;
    PushExtends(b, Own(published[last]), published[..last]);
    assert published[..last] + [published[last]] == published;
  }

  lemma {:induction false} PublisherShares(s: State, a: PublisherAction, published: seq<nat>, k: nat)
    requires Shared(s, published) && k < |s.buffers|
    ensures |PublisherStep(s, a).buffers| == |s.buffers|
    ensures SharedAt(PublisherStep(s, a), published + (if Begins(s, Mine(a)) then [s.pending[0]] else []), k)
  {
    assert SharedAt(s, published, k);
    PublisherTouches(s, a, k);
    assert PublisherStep(s, a).connected == s.connected;
    if Bound(s.connected, k) {
      PublisherOffers(s, a, published, k);
      if Delivers(s, a, k) {
        DeliveryExtends(s.buffers[k], published);
      }
    }
  }

  lemma {:induction false} OthersShare(s: State, a: ChannelAction, published: seq<nat>, k: nat)
    requires k < |s.buffers| && SharedAt(s, published, k)
    ensures |OtherStep(s, a).buffers| == |s.buffers| && SharedAt(OtherStep(s, a), published, k)
  {
    var bound, b, offered := Bound(s.connected, k), s.buffers[k], Offered(s.fanout, published, k);
    match a {
      case RivalPush(_, _) => ForeignKeepsShared(bound, b, offered);
      case Drain(_, step) => DrainKeepsShared(bound, b, step, offered);
      case Keep(_, i) => if i < |b.read| { TakingKeepsShared(bound, b, i, offered); }
      case _ =>
    }
  }

  lemma {:induction false} RunShares(plan: Plan, connected: seq<bool>, rivals: nat, actions: seq<Action>)
    ensures var s0 := Fresh(plan, connected, rivals); Shared(Run(s0, actions), Publications(s0, actions))
    ensures Run(Fresh(plan, connected, rivals), actions).connected == connected
  {
    if actions != [] {
      var last := |actions| - 1;
      RunShares(plan, connected, rivals, actions[..last]);
      var s0 := Fresh(plan, connected, rivals);
      var s, published := Run(s0, actions[..last]), Publications(s0, actions[..last]);
      ActShares(s, actions[last], published);
    }
  }

  lemma {:induction false} ActShares(s: State, a: Action, published: seq<nat>)
    requires Shared(s, published)
    ensures Shared(Act(s, a), published + (if Begins(s, a) then [s.pending[0]] else []))
    ensures Act(s, a).connected == s.connected
  {
    var published' := published + (if Begins(s, a) then [s.pending[0]] else []);
    match a {
      case Mine(own) =>
        forall k | 0 <= k < |Act(s, a).buffers| ensures SharedAt(Act(s, a), published', k) {
          if k < |s.buffers| {
            PublisherShares(s, own, published, k);
          }
        }
      case Theirs(other) =>
        assert published' == published;
        forall k | 0 <= k < |Act(s, a).buffers| ensures SharedAt(Act(s, a), published', k) {
          if k < |s.buffers| {
            OthersShare(s, other, published, k);
          }
        }
    }
  }

  // ---------------------------------------------------------------- counting slots

  /** The newest publications, as many as the longest write queue can hold. */
  function Newest(published: seq<nat>, n: nat): (r: seq<nat>)
    ensures |r| <= n
  {
    if |published| <= n then published else published[|published| - n..]
  }

  function ReadEntries(b: Buffer): seq<Entry> { b.read + Optional(b.moving) + Optional(b.evicted) }

  /** Own slots in read buffers and in flight. */
  function ReadSlots(buffers: seq<Buffer>, connected: seq<bool>): seq<nat> {
    if buffers == [] then []
    else
      var last := |buffers| - 1;
      ReadSlots(buffers[..last], connected) + if Bound(connected, last) then OwnSlots(ReadEntries(buffers[last])) else []
  }

  lemma {:induction false} ReadSlotsFit(buffers: seq<Buffer>, connected: seq<bool>, capacities: seq<Usize>)
    requires |buffers| == |capacities|
    requires forall k :: 0 <= k < |buffers| ==> BufferBounded(buffers[k]) && buffers[k].capacity == capacities[k]
    ensures |ReadSlots(buffers, connected)| <= Reading(capacities, connected)
  {
    if buffers != [] {
      var last := |buffers| - 1;
      ReadSlotsFit(buffers[..last], connected, capacities[..last]);
      assert BufferBounded(buffers[last]);
    }
  }

  lemma {:induction false} SuffixIsNewest(a: seq<nat>, published: seq<nat>, n: nat, x: nat)
    requires Suffix(a, published) && |a| <= n && x in a
    ensures x in Newest(published, n)
  {
    var i :| 0 <= i < |a| && a[i] == x;
    assert published[|published| - |a| + i] == x;
    if |published| > n {
      assert Newest(published, n)[n - |a| + i] == x;
    }
  }

  lemma {:induction false} AlienHoldsNothing(entries: seq<Entry>)
    requires Alien(entries)
    ensures OwnSlots(entries) == []
  {
    if entries != [] {
      AlienHoldsNothing(entries[..|entries| - 1]);
    }
  }

  lemma {:induction false} EntriesSplit(b: Buffer)
    ensures OwnSlots(BufferEntries(b)) == OwnSlots(b.write) + OwnSlots(ReadEntries(b))
  {
    assert BufferEntries(b) == b.write + ReadEntries(b);
    OwnSlotsConcat(b.write, ReadEntries(b));
  }

  lemma {:induction false} AlienBufferHoldsNothing(b: Buffer)
    requires AlienBuffer(b)
    ensures OwnSlots(BufferEntries(b)) == []
  {
    AlienHoldsNothing(BufferEntries(b));
  }

  /** Where an own slot of a buffer can be. */
  lemma {:induction false} SlotInBuffer(bound: bool, b: Buffer, published: seq<nat>, n: nat, x: nat)
    requires SharedBuffer(bound, b, published) && |b.write| <= b.capacity && (bound ==> b.capacity <= n)
    requires x in OwnSlots(BufferEntries(b))
    ensures x in Newest(published, n) || (bound && x in OwnSlots(ReadEntries(b)))
  {
    if !bound {
      AlienBufferHoldsNothing(b);
    } else {
      EntriesSplit(b);
      if x in OwnSlots(b.write) {
        SuffixIsNewest(OwnSlots(b.write), published, n, x);
      }
    }
  }

  lemma {:induction false} SlotInBuffers(buffers: seq<Buffer>, connected: seq<bool>, published: seq<nat>, n: nat, x: nat)
    requires forall k :: 0 <= k < |buffers| ==> SharedBuffer(Bound(connected, k), buffers[k], published)
    requires forall k :: 0 <= k < |buffers| ==> |buffers[k].write| <= buffers[k].capacity
    requires forall k :: 0 <= k < |buffers| && Bound(connected, k) ==> buffers[k].capacity <= n
    requires x in BufferSlots(buffers)
    ensures x in Newest(published, n) || x in ReadSlots(buffers, connected)
  {
    var last := |buffers| - 1;
    if x in BufferSlots(buffers[..last]) {
      SlotInBuffers(buffers[..last], connected, published, n, x);
    } else {
      SlotInBuffer(Bound(connected, last), buffers[last], published, n, x);
    }
  }

  /** All slots in use, with the write queues counted once. */
  ghost function Covering(s: State, published: seq<nat>, n: nat): seq<nat> {
    s.pending + s.outstanding + ReadSlots(s.buffers, s.connected) + Newest(published, n) + Displaced(s.rivals) + s.outside
  }

  lemma {:induction false} CoveringCovers(plan: Plan, s: State, published: seq<nat>, x: nat)
    requires Shared(s, published) && s.fanout.None? && Bounded(s) && Planned(s, plan) && x in Handles(s)
    ensures x in Covering(s, published, Widest(plan.subscribers, s.connected))
  {
    var n := Widest(plan.subscribers, s.connected);
    if x in BufferSlots(s.buffers) {
      forall k | 0 <= k < |s.buffers| && Bound(s.connected, k) ensures s.buffers[k].capacity <= n {
        WidestCovers(plan.subscribers, s.connected, k);
      }
      forall k | 0 <= k < |s.buffers| ensures SharedBuffer(Bound(s.connected, k), s.buffers[k], published) {
        assert SharedAt(s, published, k);
      }
      assert forall k :: 0 <= k < |s.buffers| ==> BufferBounded(s.buffers[k]);
      SlotInBuffers(s.buffers, s.connected, published, n, x);
    }
  }

  /**
   In every interleaving: while quota is left and the handles kept outside, together with those
   that other publishers displaced, leave room for the connected subscribers' reading
   and for one longest write queue, a slot is free.
   */
  lemma {:induction false} SharedLoanFindsSlot(plan: Plan, connected: seq<bool>, rivals: nat, actions: seq<Action>)
    requires QuotaLeft(Run(Fresh(plan, connected, rivals), actions))
    requires var s := Run(Fresh(plan, connected, rivals), actions);
      |s.outside| + |Displaced(s.rivals)| + Reading(plan.subscribers, connected) + Widest(plan.subscribers, connected)
      <= plan.retained + Footprint(plan.subscribers)
    ensures exists slot :: Free(Run(Fresh(plan, connected, rivals), actions), slot)
  {
    var s0 := Fresh(plan, connected, rivals);
    var s, published := Run(s0, actions), Publications(s0, actions);
    RunKeepsBounds(plan, connected, rivals, actions);
    RunShares(plan, connected, rivals, actions);
    ReadSlotsFit(s.buffers, connected, plan.subscribers);
    var covering := Covering(s, published, Widest(plan.subscribers, connected));
    SomeSlotIsFree(covering, s.slots);
    var slot: nat :| slot < s.slots && slot !in covering;
    if slot in Handles(s) {
      CoveringCovers(plan, s, published, slot);
    }
    assert Free(s, slot);
  }

  // ---------------------------------------------------------------- nobody connected

  lemma {:induction false} StaysAlien(b: Buffer)
    requires AlienBuffer(b)
    ensures AlienBuffer(ForcePush(b, Foreign).0) && Alien(Optional(ForcePush(b, Foreign).1))
    ensures forall a :: AlienBuffer(DrainStep(b, a))
    ensures forall i :: 0 <= i < |b.read| ==> AlienBuffer(b.(read := Remove(b.read, i)))
  {
  }

  ghost predicate NothingShared(s: State) {
    && (forall k :: 0 <= k < |s.buffers| ==> AlienBuffer(s.buffers[k]) && !Bound(s.connected, k))
    && (forall r :: 0 <= r < |s.rivals| ==> Alien(Optional(s.rivals[r])))
    && s.outside == []
  }

  lemma {:induction false} PublisherKeepsToItself(s: State, a: PublisherAction)
    requires NothingShared(s)
    ensures NothingShared(PublisherStep(s, a))
  {
  }

  lemma {:induction false} OthersShareNothing(s: State, a: ChannelAction)
    requires NothingShared(s)
    ensures NothingShared(OtherStep(s, a))
  {
    match a {
      case RivalPush(r, k) => if k < |s.buffers| { StaysAlien(s.buffers[k]); }
      case Drain(k, step) => if k < |s.buffers| { StaysAlien(s.buffers[k]); }
      case Keep(k, i) =>
        if k < |s.buffers| && i < |s.buffers[k].read| {
          StaysAlien(s.buffers[k]);
          AlienHoldsNothing([s.buffers[k].read[i]]);
        }
      case _ =>
    }
  }

  lemma {:induction false} RunSharesNothing(plan: Plan, connected: seq<bool>, rivals: nat, actions: seq<Action>)
    requires forall k :: 0 <= k < |plan.subscribers| ==> !Bound(connected, k)
    ensures NothingShared(Run(Fresh(plan, connected, rivals), actions))
  {
    if actions != [] {
      var last := |actions| - 1;
      RunSharesNothing(plan, connected, rivals, actions[..last]);
      var s := Run(Fresh(plan, connected, rivals), actions[..last]);
      match actions[last]
      case Mine(own) => PublisherKeepsToItself(s, own);
      case Theirs(other) => OthersShareNothing(s, other);
    }
  }

  lemma {:induction false} NothingSharedNoSlots(buffers: seq<Buffer>)
    requires forall k :: 0 <= k < |buffers| ==> AlienBuffer(buffers[k])
    ensures BufferSlots(buffers) == []
  {
    if buffers != [] {
      var last := |buffers| - 1;
      NothingSharedNoSlots(buffers[..last]);
      assert AlienBuffer(buffers[last]);
      AlienBufferHoldsNothing(buffers[last]);
    }
  }

  lemma {:induction false} NothingDisplaced(rivals: seq<Option<Entry>>)
    requires forall r :: 0 <= r < |rivals| ==> Alien(Optional(rivals[r]))
    ensures Displaced(rivals) == []
  {
    if rivals != [] {
      NothingDisplaced(rivals[..|rivals| - 1]);
      AlienHoldsNothing(Optional(rivals[|rivals| - 1]));
    }
  }

  /** A publisher without subscribers always finds a slot within its quota. */
  lemma {:induction false} UnboundLoanFindsSlot(plan: Plan, connected: seq<bool>, rivals: nat, actions: seq<Action>)
    requires forall k :: 0 <= k < |plan.subscribers| ==> !Bound(connected, k)
    requires QuotaLeft(Run(Fresh(plan, connected, rivals), actions))
    ensures exists slot :: Free(Run(Fresh(plan, connected, rivals), actions), slot)
  {
    var s := Run(Fresh(plan, connected, rivals), actions);
    RunKeepsBounds(plan, connected, rivals, actions);
    RunSharesNothing(plan, connected, rivals, actions);
    NothingSharedNoSlots(s.buffers);
    NothingDisplaced(s.rivals);
    SomeSlotIsFree(Handles(s), s.slots);
    var slot: nat :| slot < s.slots && slot !in Handles(s);
    assert Free(s, slot);
  }
}
