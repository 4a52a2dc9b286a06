/**
 When the planned capacity is safe on a channel with several publishers: exactly when what the
 shared publication sequence saves covers one slot for each other publisher.
 */
module StorageRace {
  import opened Basics
  import opened StorageBudget
  import opened StorageSharing
  import opened StorageExhaustion

  /** A plan, the subscribers this publisher is bound to, and how many other publishers there are. */
  datatype Channel = Channel(plan: Plan, connected: seq<bool>, rivals: nat)

  function Start(c: Channel): State { Fresh(c.plan, c.connected, c.rivals) }

  ghost predicate Reaches(c: Channel, s: State) {
    exists actions :: Run(Start(c), actions) == s
  }

  ghost function Reached(c: Channel): iset<State> { iset s | Reaches(c, s) }

  lemma {:induction false} ReachesNext(c: Channel, s: State, a: Action)
    requires Reaches(c, s)
    ensures Reaches(c, Act(s, a))
  {
    var actions :| Run(Start(c), actions) == s;
    assert (actions + [a])[..|actions|] == actions;
    assert Run(Start(c), actions + [a]) == Act(s, a);
  }

  /** What the stages below use of a set of reachable states. */
  ghost predicate Explores(c: Channel, seen: iset<State>) {
    Closed(seen) && Start(c) in seen && forall s :: s in seen ==> Bounded(s)
  }

  lemma {:induction false} ReachedExplores(c: Channel)
    ensures Explores(c, Reached(c))
  {
    forall s, a | s in Reached(c) ensures Act(s, a) in Reached(c) {
      ReachesNext(c, s, a);
    }
    assert Run(Start(c), []) == Start(c);
    forall s | s in Reached(c) ensures Bounded(s) {
      var actions :| Run(Start(c), actions) == s;
      RunKeepsBounds(c.plan, c.connected, c.rivals, actions);
    }
  }

  ghost predicate Suits(c: Channel, s: State) {
    Planned(s, c.plan) && s.connected == c.connected && |s.rivals| == c.rivals
  }

  lemma {:induction false} StillSuits(c: Channel, s: State, s': State, k: nat)
    requires Suits(c, s) && Rewrites(s, s', k)
    ensures Suits(c, s')
  {
  }

  /** Seen between flushes, with all slots below `n` pinned and no other in use. */
  ghost predicate Got(c: Channel, seen: iset<State>, s: State, n: nat) {
    s in seen && Suits(c, s) && Resting(s) && Below(s, n) && AllPinned(s, n)
  }

  predicate NoneHeld(s: State, from: nat) {
    forall r :: from <= r < |s.rivals| ==> s.rivals[r].None?
  }

  predicate OpenFrom(s: State, from: nat) {
    forall k :: from <= k < |s.buffers| && Bound(s.connected, k) ==> Open(s.buffers[k])
  }

  lemma {:induction false} StillOpen(s: State, s': State, k: nat, from: nat)
    requires OpenFrom(s, from) && Rewrites(s, s', k) && (k < from || (k < |s.buffers| && Open(s'.buffers[k])))
    ensures OpenFrom(s', from)
  {
    forall j | from <= j < |s'.buffers| && Bound(s'.connected, j) ensures Open(s'.buffers[j]) {
      if j != k {
        assert Open(s.buffers[j]) && SameButWrite(s.buffers[j], s'.buffers[j]);
      }
    }
  }

  // ---------------------------------------------------------------- keeping messages outside

  ghost predicate Kept(c: Channel, seen: iset<State>, s: State, m: nat, n: nat) {
    && Got(c, seen, s, n) && |s.outside| == n && NoneHeld(s, 0) && OpenFrom(s, 0)
    && Serves(s, m) && s.buffers[m].write == []
  }

  lemma {:induction false} OutsideGrows(s: State, n: nat)
    requires Below(s, n + 1)
    ensures Below(s.(outside := s.outside + [n]), n + 1) && Extends(s, s.(outside := s.outside + [n]))
    ensures n in s.(outside := s.outside + [n]).outside
  {
  }

  lemma {:induction false} KeepsNext(seen: iset<State>, p: State, m: nat, b: Buffer, n: nat)
    requires Closed(seen) && p in seen && m < |p.buffers| && Open(b) && b.write == [] && b.capacity > 0
    requires p.buffers[m] == b.(write := [Own(n)])
    ensures At(p, m, b).(outside := p.outside + [n]) in seen
  {
    OnlyOne(Own(n));
    Keeps(seen, p, m);
    OwnSlotsOfOne(Own(n));
  }

  /** One more message is published to subscriber `m`, whose callback keeps it; `shed` is without the kept handle. */
  lemma {:induction false} KeepsOne(seen: iset<State>, s: State, m: nat, n: nat) returns (shed: State)
    requires Closed(seen) && s in seen && Resting(s) && Below(s, n) && n < s.slots
    requires Serves(s, m) && Open(s.buffers[m]) && s.buffers[m].write == []
    ensures Rewrites(s, shed, m) && shed.buffers[m] == s.buffers[m] && Below(shed, n + 1)
    ensures shed.(outside := s.outside + [n]) in seen
  {
    var p := PublishToEmpty(seen, s, n, m);
    var b := s.buffers[m];
    KeepsNext(seen, p, m, b, n);
    assert BufferBelow(b, n + 1);
    ThenAt(s, p, m, b, n + 1);
    shed := At(p, m, b);
  }

  lemma {:induction false} KeepOne(c: Channel, seen: iset<State>, s: State, m: nat, n: nat) returns (s': State)
    requires Closed(seen) && Kept(c, seen, s, m, n) && n < s.slots
    ensures Kept(c, seen, s', m, n + 1)
  {
    assert Open(s.buffers[m]);
    var shed := KeepsOne(seen, s, m, n);
    s' := shed.(outside := shed.outside + [n]);
    RewritesExtends(s, shed, m);
    OutsideGrows(shed, n);
    ExtendsOn(s, shed, s');
    StillOpen(s, shed, m, 0);
    StillSuits(c, s, shed, m);
    PinnedStays(s, s', n);
  }

  lemma {:induction false} KeepAll(c: Channel, seen: iset<State>, m: nat, n: nat) returns (s: State)
    requires Explores(c, seen) && c.plan.loans > 0 && Serves(Start(c), m) && n <= PlannedSlots(c.plan)
    ensures Kept(c, seen, s, m, n)
  {
    if n == 0 {
      s := Start(c);
    } else {
      s := KeepAll(c, seen, m, n - 1);
      s := KeepOne(c, seen, s, m, n - 1);
    }
  }

  // ---------------------------------------------------------------- filling the read buffers

  lemma {:induction false} StuckPins(s: State, n: nat, k: nat, i: nat)
    requires AllPinned(s, n) && k < |s.buffers|
    requires s.buffers[k].read == Owns(n, i) && s.buffers[k].moving == Some(Own(n + i))
    ensures AllPinned(s, n + i + 1)
  {
    forall x: nat | x < n + i + 1 ensures Pinned(s, x) {
      if n <= x {
        if x < n + i {
          OwnsMember(n, i, x);
        }
        assert StuckOn(s.buffers[k], x);
      }
    }
  }

  lemma {:induction false} FreezeOne(c: Channel, seen: iset<State>, s: State, n: nat, k: nat, i: nat, n': nat)
    returns (s': State)
    requires Closed(seen) && Got(c, seen, s, n) && n' == n + i + 1 <= s.slots
    requires Serves(s, k) && Open(s.buffers[k]) && i == s.buffers[k].capacity
    ensures Got(c, seen, s', n') && Rewrites(s, s', k)
  {
    s' := Freezes(seen, s, n, k, i);
    StillSuits(c, s, s', k);
    RewritesExtends(s, s', k);
    PinnedStays(s, s', n);
    StuckPins(s', n, k, i);
  }

  /** Users keep the first `u` slots; the connected ones among the first `j` subscribers are stuck. */
  ghost predicate Frozen(c: Channel, seen: iset<State>, s: State, u: nat, j: nat) {
    && j <= |c.plan.subscribers| && Got(c, seen, s, u + Reading(c.plan.subscribers[..j], c.connected))
    && |s.outside| == u && NoneHeld(s, 0) && OpenFrom(s, j)
  }

  lemma {:induction false} ReadingGrows(subscribers: seq<Usize>, connected: seq<bool>, j: nat)
    requires j < |subscribers|
    ensures Reading(subscribers[..j + 1], connected)
         == Reading(subscribers[..j], connected) + if Bound(connected, j) then (subscribers[j] as nat) + 1 else 0
  {
    assert subscribers[..j + 1][..j] == subscribers[..j];
  }

  lemma {:induction false} ReadingAndWidestFit(subscribers: seq<Usize>, connected: seq<bool>)
    ensures Reading(subscribers, connected) + Widest(subscribers, connected) <= Footprint(subscribers)
  {
    if subscribers != [] {
      ReadingAndWidestFit(subscribers[..|subscribers| - 1], connected);
    }
  }

  lemma {:induction false} ReadingFits(subscribers: seq<Usize>, connected: seq<bool>, j: nat)
    requires j <= |subscribers|
    ensures Reading(subscribers[..j], connected) <= Reading(subscribers, connected)
  {
    if j == |subscribers| {
      assert subscribers[..j] == subscribers;
    } else {
      ReadingFits(subscribers[..|subscribers| - 1], connected, j);
      assert subscribers[..|subscribers| - 1][..j] == subscribers[..j];
    }
  }

  lemma {:induction false} FreezeStep(c: Channel, seen: iset<State>, s: State, j: nat, n: nat, n': nat) returns (s': State)
    requires Closed(seen) && Got(c, seen, s, n) && NoneHeld(s, 0) && OpenFrom(s, j) && n' <= s.slots
    requires j < |c.plan.subscribers| && c.plan.subscribers[j] > 0
    requires n' == n + if Bound(c.connected, j) then (c.plan.subscribers[j] as nat) + 1 else 0
    ensures Got(c, seen, s', n') && s'.outside == s.outside && NoneHeld(s', 0) && OpenFrom(s', j + 1)
  {
    if Bound(c.connected, j) {
      assert Open(s.buffers[j]) && s.buffers[j].capacity == c.plan.subscribers[j];
      s' := FreezeOne(c, seen, s, n, j, c.plan.subscribers[j], n');
      StillOpen(s, s', j, j + 1);
    } else {
      s' := s;
    }
  }

  lemma {:induction false} FreezeNext(c: Channel, seen: iset<State>, s: State, u: nat, j: nat) returns (s': State)
    requires Closed(seen) && Positive(c.plan.subscribers) && j < |c.plan.subscribers| && Frozen(c, seen, s, u, j)
    requires u + Reading(c.plan.subscribers, c.connected) <= PlannedSlots(c.plan)
    ensures Frozen(c, seen, s', u, j + 1)
  {
    ReadingGrows(c.plan.subscribers, c.connected, j);
    ReadingFits(c.plan.subscribers, c.connected, j + 1);
    var n := u + Reading(c.plan.subscribers[..j], c.connected);
    var n' := u + Reading(c.plan.subscribers[..j + 1], c.connected);
    s' := FreezeStep(c, seen, s, j, n, n');
  }

  lemma {:induction false} FreezeAll(c: Channel, seen: iset<State>, m: nat, u: nat, j: nat) returns (s: State)
    requires Explores(c, seen) && Positive(c.plan.subscribers) && c.plan.loans > 0
    requires Serves(Start(c), m) && j <= |c.plan.subscribers|
    requires u + Reading(c.plan.subscribers, c.connected) <= PlannedSlots(c.plan)
    ensures Frozen(c, seen, s, u, j)
  {
    if j == 0 {
      s := KeepAll(c, seen, m, u);
      assert Reading(c.plan.subscribers[..0], c.connected) == 0;
    } else {
      s := FreezeAll(c, seen, m, u, j - 1);
      s := FreezeNext(c, seen, s, u, j - 1);
    }
  }

  // ---------------------------------------------------------------- other publishers displace

  /** Besides, the first `r` other publishers hold one slot each, and nothing of ours is left in the write queue. */
  ghost predicate Raided(c: Channel, seen: iset<State>, s: State, m: nat, u: nat, r: nat) {
    && Got(c, seen, s, u + Reading(c.plan.subscribers, c.connected) + r)
    && |s.outside| == u && NoneHeld(s, r)
    && Serves(s, m) && s.buffers[m].write == Foreigns(s.buffers[m].capacity)
  }

  lemma {:induction false} FloodFills(write: seq<Entry>, capacity: nat)
    requires |write| <= capacity
    ensures Flooded(write, capacity, capacity) == Foreigns(capacity)
  {
  }

  /** The other publisher fills the write queue with its own messages. */
  lemma {:induction false} RaidBegins(c: Channel, seen: iset<State>, s: State, m: nat, n: nat) returns (s': State)
    requires Closed(seen) && Got(c, seen, s, n) && NoneHeld(s, 0) && c.rivals > 0
    requires Serves(s, m) && |s.buffers[m].write| <= s.buffers[m].capacity
    ensures Got(c, seen, s', n) && Rewrites(s, s', m)
    ensures s'.buffers[m] == s.buffers[m].(write := Foreigns(s.buffers[m].capacity))
  {
    var b := s.buffers[m];
    Floods(seen, s, 0, m, b.capacity);
    FloodFills(b.write, b.capacity);
    var b' := b.(write := Foreigns(b.capacity));
    s' := At(s, m, b');
    assert BufferBelow(b, n);
    AtIsBelow(s, m, b', n);
    AtRewrites(s, m, b');
    StillSuits(c, s, s', m);
    RewritesExtends(s, s', m);
    PinnedStays(s, s', n);
  }

  lemma {:induction false} HoldingOn(s: State, r: nat, n: nat, n': nat)
    requires n' == n + 1 && Below(s, n + 1) && r < |s.rivals| && s.rivals[r].None?
    ensures Below(s.(rivals := s.rivals[r := Some(Own(n))]), n')
    ensures Extends(s, s.(rivals := s.rivals[r := Some(Own(n))]))
  {
  }

  lemma {:induction false} RivalPins(s: State, s': State, r: nat, n: nat, n': nat)
    requires n' == n + 1 && Extends(s, s') && AllPinned(s, n) && r < |s'.rivals| && s'.rivals[r] == Some(Own(n))
    ensures AllPinned(s', n')
  {
    PinnedStays(s, s', n);
  }

  /** The other publisher `r` displaces the message in slot `n` and holds it. */
  lemma {:induction false} RaidOne(c: Channel, seen: iset<State>, s: State, m: nat, r: nat, n: nat, n': nat)
    returns (s': State)
    requires Closed(seen) && Got(c, seen, s, n) && n' == n + 1 <= s.slots && r < |s.rivals| && s.rivals[r].None?
    requires Serves(s, m) && s.buffers[m].write == Foreigns(s.buffers[m].capacity)
    ensures Got(c, seen, s', n') && s'.outside == s.outside && s'.rivals == s.rivals[r := Some(Own(n))]
    ensures Serves(s', m) && s'.buffers[m] == s.buffers[m]
  {
    var flooded := Raids(seen, s, m, r, n);
    s' := flooded.(rivals := s.rivals[r := Some(Own(n))]);
    StillSuits(c, s, flooded, m);
    HoldingOn(flooded, r, n, n');
    RewritesExtends(s, flooded, m);
    ExtendsOn(s, flooded, s');
    RivalPins(s, s', r, n, n');
  }

  lemma {:induction false} RaidNext(c: Channel, seen: iset<State>, s: State, m: nat, u: nat, r: nat) returns (s': State)
    requires Closed(seen) && Raided(c, seen, s, m, u, r) && r < c.rivals
    requires u + Reading(c.plan.subscribers, c.connected) + r < PlannedSlots(c.plan)
    ensures Raided(c, seen, s', m, u, r + 1)
  {
    var n := u + Reading(c.plan.subscribers, c.connected);
    s' := RaidOne(c, seen, s, m, r, n + r, n + (r + 1));
  }

  lemma {:induction false} FrozenIsGot(c: Channel, seen: iset<State>, m: nat, u: nat) returns (s: State)
    requires Explores(c, seen) && Positive(c.plan.subscribers) && c.plan.loans > 0 && Serves(Start(c), m)
    requires u + Reading(c.plan.subscribers, c.connected) <= PlannedSlots(c.plan)
    ensures Got(c, seen, s, u + Reading(c.plan.subscribers, c.connected) + 0) && |s.outside| == u && NoneHeld(s, 0)
    ensures Serves(s, m) && |s.buffers[m].write| <= s.buffers[m].capacity
  {
    s := FreezeAll(c, seen, m, u, |c.plan.subscribers|);
    assert c.plan.subscribers[..|c.plan.subscribers|] == c.plan.subscribers;
    assert Bounded(s) && BufferBounded(s.buffers[m]);
  }

  lemma {:induction false} RaidAll(c: Channel, seen: iset<State>, m: nat, u: nat, r: nat) returns (s: State)
    requires Explores(c, seen) && Positive(c.plan.subscribers) && c.plan.loans > 0 && Serves(Start(c), m)
    requires 0 < c.rivals && r <= c.rivals && u + Reading(c.plan.subscribers, c.connected) + r <= PlannedSlots(c.plan)
    ensures Raided(c, seen, s, m, u, r)
  {
    if r == 0 {
      var frozen := FrozenIsGot(c, seen, m, u);
      s := RaidBegins(c, seen, frozen, m, u + Reading(c.plan.subscribers, c.connected) + 0);
    } else {
      s := RaidAll(c, seen, m, u, r - 1);
      s := RaidNext(c, seen, s, m, u, r - 1);
    }
  }

  /** Everything but the write queue of subscriber `m` and the loans is taken. */
  lemma {:induction false} Prepares(c: Channel, seen: iset<State>, m: nat, u: nat, r: nat, n: nat) returns (s: State)
    requires Explores(c, seen) && Positive(c.plan.subscribers) && c.plan.loans > 0 && Serves(Start(c), m)
    requires r <= c.rivals && n == u + Reading(c.plan.subscribers, c.connected) + r <= PlannedSlots(c.plan)
    ensures Got(c, seen, s, n) && |s.outside| == u
    ensures Serves(s, m) && |s.buffers[m].write| <= s.buffers[m].capacity
  {
    if r == 0 {
      s := FrozenIsGot(c, seen, m, u);
    } else {
      s := RaidAll(c, seen, m, u, r);
    }
  }

  // ---------------------------------------------------------------- filling the last places

  lemma {:induction false} RefillAll(c: Channel, seen: iset<State>, s: State, m: nat, n: nat, j: nat) returns (s': State)
    requires Closed(seen) && Got(c, seen, s, n) && n + j <= s.slots
    requires Serves(s, m) && |s.buffers[m].write| <= j == s.buffers[m].capacity
    ensures s' in seen && AllPinned(s', n) && Below(s', n + j)
    ensures Rewrites(s, s', m) && s'.buffers[m].write == Owns(n, j)
  {
    s' := Refill(seen, s, m, n, j, s.buffers[m]);
    assert Refilled(s.buffers[m].write, n, j, j) == Owns(n, j);
    RewritesExtends(s, s', m);
    PinnedStays(s, s', n);
  }

  lemma {:induction false} LoansKeepPins(s: State, loaned: seq<nat>, n: nat)
    requires AllPinned(s, n)
    ensures AllPinned(s.(outstanding := loaned), n)
  {
    PinnedStays(s, s.(outstanding := loaned), n);
  }

  /** All places left are filled: the write queue of subscriber `m` and the quota but for one loan. */
  lemma {:induction false} FillsUp(c: Channel, seen: iset<State>, s: State, m: nat, n: nat, j: nat, l: nat)
    returns (s': State)
    requires Closed(seen) && Got(c, seen, s, n) && n + j + l <= s.slots && l < s.loans
    requires Serves(s, m) && |s.buffers[m].write| <= j == s.buffers[m].capacity
    ensures s' in seen && s'.outside == s.outside && s'.slots == s.slots && s'.loans == s.loans
    ensures s'.fanout.None? && s'.pending == [] && s'.outstanding == From(n + j, l)
    ensures AllPinned(s', n) && m < |s'.buffers| && s'.buffers[m].write == Owns(n, j)
  {
    var s1 := RefillAll(c, seen, s, m, n, j);
    LoanAll(seen, s1, n + j, l);
    LoansKeepPins(s1, From(n + j, l), n);
    s' := s1.(outstanding := From(n + j, l));
  }

  // ---------------------------------------------------------------- the exact condition

  /** While users keep no more than `users` handles, a loan below the quota finds a slot. */
  ghost predicate Safe(c: Channel, users: nat, actions: seq<Action>) {
    var s := Run(Start(c), actions);
    QuotaLeft(s) && |s.outside| <= users ==> exists slot :: Free(s, slot)
  }

  ghost predicate AnyConnected(c: Channel) {
    exists k :: 0 <= k < |c.plan.subscribers| && Bound(c.connected, k)
  }

  /** The capacity that connected subscribers cannot take up at once. */
  function Spare(c: Channel): nat {
    ReadingAndWidestFit(c.plan.subscribers, c.connected);
    Footprint(c.plan.subscribers) - Reading(c.plan.subscribers, c.connected) - Widest(c.plan.subscribers, c.connected)
  }

  lemma {:induction false} WidestIsThere(subscribers: seq<Usize>, connected: seq<bool>, k: nat) returns (m: nat)
    requires k < |subscribers| && Bound(connected, k)
    ensures m < |subscribers| && Bound(connected, m) && subscribers[m] as nat == Widest(subscribers, connected)
  {
    var last := |subscribers| - 1;
    if Bound(connected, last) && subscribers[last] as nat == Widest(subscribers, connected) {
      m := last;
    } else {
      m := last;
      if j :| 0 <= j < last && Bound(connected, j) {
        m := WidestIsThere(subscribers[..last], connected, j);
      } else {
        NoneIsWidest(subscribers[..last], connected);
      }
    }
  }

  lemma {:induction false} NoneIsWidest(subscribers: seq<Usize>, connected: seq<bool>)
    requires forall j :: 0 <= j < |subscribers| ==> !Bound(connected, j)
    ensures Widest(subscribers, connected) == 0
  {
    if subscribers != [] {
      NoneIsWidest(subscribers[..|subscribers| - 1], connected);
    }
  }

  /** Every slot is in use, one loan is still allowed, and users keep `u` handles. */
  ghost predicate Exhausted(s: State, u: nat) {
    QuotaLeft(s) && |s.outside| == u && forall slot :: !Free(s, slot)
  }

  lemma {:induction false} Exhausts(c: Channel, seen: iset<State>, m: nat, u: nat, r: nat) returns (s: State)
    requires Explores(c, seen) && Positive(c.plan.subscribers) && c.plan.loans > 0 && Serves(Start(c), m)
    requires m < |c.plan.subscribers| && c.plan.subscribers[m] as nat == Widest(c.plan.subscribers, c.connected)
    requires r <= c.rivals && u + r == c.plan.retained + Spare(c) + 1
    ensures s in seen && Exhausted(s, u)
  {
    var n, j, l := u + Reading(c.plan.subscribers, c.connected) + r, Start(c).buffers[m].capacity, c.plan.loans - 1;
    assert n + j + l == PlannedSlots(c.plan);
    var prepared := Prepares(c, seen, m, u, r, n);
    assert prepared.buffers[m].capacity == j;
    s := FillsUp(c, seen, prepared, m, n, j, l);
    forall slot: nat ensures !Free(s, slot) {
      if slot < s.slots {
        AllUsed(s, m, n, j, l, slot);
      }
    }
  }

  /** With too many rivals, or users that keep too much, there is a run after which no slot is free. */
  lemma {:induction false} RivalsExhaust(c: Channel, users: nat) returns (actions: seq<Action>)
    requires Positive(c.plan.subscribers) && c.plan.loans > 0 && AnyConnected(c)
    requires users + c.rivals > c.plan.retained + Spare(c)
    ensures !Safe(c, users, actions)
  {
    var k :| 0 <= k < |c.plan.subscribers| && Bound(c.connected, k);
    var m := WidestIsThere(c.plan.subscribers, c.connected, k);
    var u := Min(users, c.plan.retained + Spare(c) + 1);
    ReachedExplores(c);
    var s := Exhausts(c, Reached(c), m, u, c.plan.retained + Spare(c) + 1 - u);
    actions :| Run(Start(c), actions) == s;
  }

  lemma {:induction false} SafeWithSpare(c: Channel, users: nat, actions: seq<Action>)
    requires c.plan.loans == 0 || !AnyConnected(c) || users + c.rivals <= c.plan.retained + Spare(c)
    ensures Safe(c, users, actions)
  {
    var s := Run(Start(c), actions);
    if QuotaLeft(s) && |s.outside| <= users {
      RunKeepsBounds(c.plan, c.connected, c.rivals, actions);
      if AnyConnected(c) {
        FewDisplaced(s.rivals);
        ReadingAndWidestFit(c.plan.subscribers, c.connected);
        SharedLoanFindsSlot(c.plan, c.connected, c.rivals, actions);
      } else {
        UnboundLoanFindsSlot(c.plan, c.connected, c.rivals, actions);
      }
    }
  }

  /**
   While users keep at most `users` handles, a loan below the quota finds a slot in every
   interleaving if and only if the publisher never loans, has no subscriber, or users and
   rivals together fit into the retained budget and what the connected subscribers leave spare.
   */
  lemma {:induction false} SafeExactly(c: Channel, users: nat)
    requires Positive(c.plan.subscribers)
    ensures (forall actions :: Safe(c, users, actions))
        <==> c.plan.loans == 0 || !AnyConnected(c) || users + c.rivals <= c.plan.retained + Spare(c)
  {
    if c.plan.loans == 0 || !AnyConnected(c) || users + c.rivals <= c.plan.retained + Spare(c) {
      forall actions ensures Safe(c, users, actions) {
        SafeWithSpare(c, users, actions);
      }
    } else {
      var actions := RivalsExhaust(c, users);
    }
  }

  function Capacities(subscribers: seq<Usize>): nat {
    if subscribers == [] then 0
    else Capacities(subscribers[..|subscribers| - 1]) + (subscribers[|subscribers| - 1] as nat)
  }

  lemma {:induction false} AllReading(subscribers: seq<Usize>, connected: seq<bool>)
    requires forall k :: 0 <= k < |subscribers| ==> Bound(connected, k)
    ensures Footprint(subscribers) == Reading(subscribers, connected) + Capacities(subscribers)
  {
    if subscribers != [] {
      AllReading(subscribers[..|subscribers| - 1], connected);
    }
  }

  /**
   With every subscriber connected and users within the retained budget, one rival is safe for each
   place in the write queues other than the longest.
   */
  lemma {:induction false} SafeWhenConnected(c: Channel)
    requires Positive(c.plan.subscribers) && c.plan.subscribers != [] && c.plan.loans > 0
    requires forall k :: 0 <= k < |c.plan.subscribers| ==> Bound(c.connected, k)
    ensures (forall actions :: Safe(c, c.plan.retained, actions))
        <==> c.rivals + Widest(c.plan.subscribers, c.connected) <= Capacities(c.plan.subscribers)
  {
    assert Bound(c.connected, 0);
    AllReading(c.plan.subscribers, c.connected);
    SafeExactly(c, c.plan.retained);
  }

  /** With one subscriber, the planned capacity is safe if and only if the channel has no other publisher. */
  lemma {:induction false} SafeExactlyWithoutRivals(plan: Plan, rivals: nat)
    requires |plan.subscribers| == 1 && plan.subscribers[0] > 0 && plan.loans > 0
    ensures (forall actions :: Safe(Channel(plan, [true], rivals), plan.retained, actions)) <==> rivals == 0
  {
    assert plan.subscribers[..0] == [];
    SafeWhenConnected(Channel(plan, [true], rivals));
  }
}
