/**
 Several publishers on one channel: a publisher that displaced another's message still
 holds it for a moment. A run that fills every place at once, for any subscribers.
 */
module StorageExhaustion {
  import opened Basics
  import opened StorageBudget
  import opened StorageSharing

  // ---------------------------------------------------------------- closed sets of states

  /** Every step from a state of the set leads to a state of the set. */
  ghost predicate Closed(seen: iset<State>) {
    forall s, a :: s in seen ==> Act(s, a) in seen
  }

  lemma {:induction false} Steps(seen: iset<State>, s: State, a: Action)
    requires Closed(seen) && s in seen
    ensures Act(s, a) in seen
  {
  }

  // ---------------------------------------------------------------- slots in use

  predicate EntriesBelow(s: seq<Entry>, n: nat) {
    forall k :: 0 <= k < |s| && s[k].Own? ==> s[k].slot < n
  }

  predicate BufferBelow(b: Buffer, n: nat) {
    && EntriesBelow(b.write, n) && EntriesBelow(b.read, n)
    && EntriesBelow(Optional(b.moving), n) && EntriesBelow(Optional(b.evicted), n)
  }

  predicate SlotsBelow(s: seq<nat>, n: nat) {
    forall k :: 0 <= k < |s| ==> s[k] < n
  }

  /** Every slot in use is below `n`. */
  ghost predicate Below(s: State, n: nat) {
    && (forall k :: 0 <= k < |s.buffers| ==> BufferBelow(s.buffers[k], n))
    && (forall r :: 0 <= r < |s.rivals| ==> EntriesBelow(Optional(s.rivals[r]), n))
    && SlotsBelow(s.outside, n) && SlotsBelow(s.outstanding, n) && SlotsBelow(s.pending, n)
  }

  lemma {:induction false} OwnSlotsFaithful(entries: seq<Entry>, slot: nat)
    ensures slot in OwnSlots(entries) <==> Own(slot) in entries
  {
    if entries != [] {
      OwnSlotsFaithful(entries[..|entries| - 1], slot);
    }
  }

  lemma {:induction false} NewInBuffer(b: Buffer, n: nat)
    requires BufferBelow(b, n)
    ensures n !in OwnSlots(BufferEntries(b))
  {
    OwnSlotsFaithful(BufferEntries(b), n);
  }

  lemma {:induction false} NewInBuffers(buffers: seq<Buffer>, n: nat)
    requires forall k :: 0 <= k < |buffers| ==> BufferBelow(buffers[k], n)
    ensures n !in BufferSlots(buffers)
  {
    if buffers != [] {
      NewInBuffers(buffers[..|buffers| - 1], n);
      NewInBuffer(buffers[|buffers| - 1], n);
    }
  }

  lemma {:induction false} NewToRivals(rivals: seq<Option<Entry>>, n: nat)
    requires forall r :: 0 <= r < |rivals| ==> EntriesBelow(Optional(rivals[r]), n)
    ensures n !in Displaced(rivals)
  {
    if rivals != [] {
      NewToRivals(rivals[..|rivals| - 1], n);
      assert EntriesBelow(Optional(rivals[|rivals| - 1]), n);
      OwnSlotsFaithful(Optional(rivals[|rivals| - 1]), n);
    }
  }

  lemma {:induction false} NextIsFree(s: State, n: nat)
    requires Below(s, n) && s.fanout.None? && n < s.slots
    ensures Free(s, n)
  {
    NewInBuffers(s.buffers, n);
    NewToRivals(s.rivals, n);
  }

  // ---------------------------------------------------------------- publishing

  /** The publisher is between flushes. */
  predicate Resting(s: State) {
    s.fanout.None? && s.pending == [] && s.outstanding == [] && s.loans > 0
  }

  function At(s: State, k: nat, b: Buffer): State
    requires k < |s.buffers|
  {
    s.(buffers := s.buffers[k := b])
  }

  /** The first `j` subscribers have been served. */
  function Fan(buffers: seq<Buffer>, connected: seq<bool>, n: nat, j: nat): (r: seq<Buffer>)
    ensures |r| == |buffers|
    ensures forall k :: 0 <= k < |buffers| ==>
      r[k] == if k < j && Bound(connected, k) then ForcePush(buffers[k], Own(n)).0 else buffers[k]
  {
    seq(|buffers|, k requires 0 <= k < |buffers| =>
      if k < j && Bound(connected, k) then ForcePush(buffers[k], Own(n)).0 else buffers[k])
  }

  function Fanning(s: State, n: nat, j: nat): State {
    s.(buffers := Fan(s.buffers, s.connected, n, j), fanout := Some(Fanout(n, j, None)))
  }

  function Published(s: State, n: nat): State {
    s.(buffers := Fan(s.buffers, s.connected, n, |s.buffers|))
  }

  lemma {:induction false} LoanAndSend(seen: iset<State>, s: State, n: nat)
    requires Closed(seen) && s in seen && Resting(s) && Free(s, n)
    ensures Fanning(s, n, 0) in seen
  {
    var loaned, sent := s.(outstanding := [n]), s.(pending := [n]);
    assert PublisherStep(s, Loan(n)) == loaned;
    Steps(seen, s, Mine(Loan(n)));
    assert PublisherStep(loaned, Send(0)) == sent;
    Steps(seen, loaned, Mine(Send(0)));
    assert PublisherStep(sent, BeginFanout) == s.(fanout := Some(Fanout(n, 0, None)));
    Steps(seen, sent, Mine(BeginFanout));
    assert Fan(s.buffers, s.connected, n, 0) == s.buffers;
  }

  lemma {:induction false} FanNext(buffers: seq<Buffer>, connected: seq<bool>, n: nat, j: nat)
    requires j < |buffers|
    ensures Fan(buffers, connected, n, j + 1)
         == if Bound(connected, j) then Fan(buffers, connected, n, j)[j := ForcePush(buffers[j], Own(n)).0]
            else Fan(buffers, connected, n, j)
  {
  }

  lemma {:induction false} ServesNext(seen: iset<State>, s: State, n: nat, j: nat)
    requires Closed(seen) && j < |s.buffers| && Fanning(s, n, j) in seen
    ensures Fanning(s, n, j + 1) in seen
  {
    var fanning := Fanning(s, n, j);
    FanNext(s.buffers, s.connected, n, j);
    Steps(seen, fanning, Mine(Deliver));
    var delivered := PublisherStep(fanning, Deliver);
    Steps(seen, delivered, Mine(ReleaseDisplaced));
    assert PublisherStep(delivered, ReleaseDisplaced) == Fanning(s, n, j + 1);
  }

  lemma {:induction false} ServesAll(seen: iset<State>, s: State, n: nat, j: nat)
    requires Closed(seen) && j <= |s.buffers| && Fanning(s, n, 0) in seen
    ensures Fanning(s, n, j) in seen
  {
    if j > 0 {
      ServesAll(seen, s, n, j - 1);
      ServesNext(seen, s, n, j - 1);
    }
  }

  /** The publisher loans slot `n`, sends it and flushes it to the connected subscribers. */
  lemma {:induction false} Publishes(seen: iset<State>, s: State, n: nat)
    requires Closed(seen) && s in seen && Resting(s) && Below(s, n) && n < s.slots
    ensures Published(s, n) in seen && Below(Published(s, n), n + 1)
  {
    NextIsFree(s, n);
    LoanAndSend(seen, s, n);
    ServesAll(seen, s, n, |s.buffers|);
    assert PublisherStep(Fanning(s, n, |s.buffers|), EndFanout) == Published(s, n);
    Steps(seen, Fanning(s, n, |s.buffers|), Mine(EndFanout));
    PublishedIsBelow(s, n);
  }

  lemma {:induction false} PushedIsBelow(b: Buffer, n: nat)
    requires BufferBelow(b, n)
    ensures BufferBelow(b, n + 1) && BufferBelow(ForcePush(b, Own(n)).0, n + 1)
  {
  }

  lemma {:induction false} PublishedIsBelow(s: State, n: nat)
    requires Below(s, n)
    ensures Below(Published(s, n), n + 1)
  {
    var s' := Published(s, n);
    forall k | 0 <= k < |s'.buffers| ensures BufferBelow(s'.buffers[k], n + 1) {
      PushedIsBelow(s.buffers[k], n);
    }
    forall r | 0 <= r < |s'.rivals| ensures EntriesBelow(Optional(s'.rivals[r]), n + 1) {
      assert EntriesBelow(Optional(s.rivals[r]), n);
    }
  }

  lemma {:induction false} AtIsBelow(s: State, k: nat, b: Buffer, n: nat)
    requires Below(s, n) && k < |s.buffers| && BufferBelow(b, n)
    ensures Below(At(s, k, b), n)
  {
  }

  // ---------------------------------------------------------------- draining

  /** Nothing has been read yet. */
  predicate Open(b: Buffer) { b.read == [] && b.moving.None? && b.evicted.None? }

  lemma {:induction false} Drains(seen: iset<State>, s: State, k: nat, step: DrainAction)
    requires Closed(seen) && s in seen && k < |s.buffers|
    ensures At(s, k, DrainStep(s.buffers[k], step)) in seen
  {
    Steps(seen, s, Theirs(Drain(k, step)));
  }

  lemma {:induction false} AtTwice(s: State, k: nat, b: Buffer, b': Buffer)
    requires k < |s.buffers|
    ensures At(At(s, k, b), k, b') == At(s, k, b')
  {
    assert s.buffers[k := b][k := b'] == s.buffers[k := b'];
  }

  /** The oldest message moves from the write queue into the read buffer. */
  lemma {:induction false} Reads(seen: iset<State>, s: State, k: nat)
    requires Closed(seen) && s in seen && k < |s.buffers| && s.buffers[k].write != []
    requires s.buffers[k].moving.None? && s.buffers[k].evicted.None? && |s.buffers[k].read| < s.buffers[k].capacity
    ensures var b := s.buffers[k];
      At(s, k, b.(write := b.write[1..], read := b.read + [b.write[0]])) in seen
  {
    var b := s.buffers[k];
    var popped := b.(write := b.write[1..], moving := Some(b.write[0]));
    var stored := b.(write := b.write[1..], read := b.read + [b.write[0]]);
    Drains(seen, s, k, Pop);
    Drains(seen, At(s, k, popped), k, Store);
    AtTwice(s, k, popped, stored);
  }

  lemma {:induction false} OnlyOne(e: Entry)
    ensures [] + [e] == [e] && Remove([e], 0) == [] && [e][0] == e && [e][1..] == []
  {
  }

  /** The oldest message goes through the read buffer to the callback, which keeps it. */
  lemma {:induction false} Keeps(seen: iset<State>, s: State, k: nat)
    requires Closed(seen) && s in seen && k < |s.buffers| && Open(s.buffers[k])
    requires s.buffers[k].write != [] && s.buffers[k].capacity > 0
    ensures var b := s.buffers[k];
      At(s, k, b.(write := b.write[1..])).(outside := s.outside + OwnSlots([b.write[0]])) in seen
  {
    var b := s.buffers[k];
    var stored, gone := b.(write := b.write[1..], read := [b.write[0]]), b.(write := b.write[1..]);
    OnlyOne(b.write[0]);
    Reads(seen, s, k);
    assert OtherStep(At(s, k, stored), Keep(k, 0))
        == At(At(s, k, stored), k, gone).(outside := s.outside + OwnSlots([b.write[0]]));
    AtTwice(s, k, stored, gone);
    Steps(seen, At(s, k, stored), Theirs(Keep(k, 0)));
  }

  lemma {:induction false} DropLast(outside: seq<nat>, x: nat)
    ensures Remove(outside + [x], |outside|) == outside
  {
  }

  /** The oldest message goes to the callback, which drops it. */
  lemma {:induction false} Sheds(seen: iset<State>, s: State, k: nat)
    requires Closed(seen) && s in seen && k < |s.buffers| && Open(s.buffers[k])
    requires s.buffers[k].write != [] && s.buffers[k].capacity > 0
    ensures var b := s.buffers[k]; At(s, k, b.(write := b.write[1..])) in seen
  {
    var b := s.buffers[k];
    Keeps(seen, s, k);
    OwnSlotsOfOne(b.write[0]);
    var kept := At(s, k, b.(write := b.write[1..])).(outside := s.outside + OwnSlots([b.write[0]]));
    if b.write[0].Own? {
      DropLast(s.outside, b.write[0].slot);
    } else {
      assert s.outside + [] == s.outside;
    }
    assert OtherStep(kept, DropOutside(|s.outside|)) == At(s, k, b.(write := b.write[1..]));
    Steps(seen, kept, Theirs(DropOutside(|s.outside|)));
  }

  lemma {:induction false} ShedsAll(seen: iset<State>, s: State, k: nat)
    requires Closed(seen) && s in seen && k < |s.buffers| && Open(s.buffers[k]) && s.buffers[k].capacity > 0
    ensures At(s, k, s.buffers[k].(write := [])) in seen
    decreases |s.buffers[k].write|
  {
    var b := s.buffers[k];
    if b.write == [] {
      assert s.buffers[k := b] == s.buffers;
    } else {
      Sheds(seen, s, k);
      var shorter := b.(write := b.write[1..]);
      ShedsAll(seen, At(s, k, shorter), k);
      AtTwice(s, k, shorter, b.(write := []));
    }
  }

  // ---------------------------------------------------------------- runs of entries

  function Owns(from: nat, count: nat): (r: seq<Entry>)
    ensures |r| == count && forall k :: 0 <= k < count ==> r[k] == Own(from + k)
  {
    seq(count, k requires 0 <= k => Own(from + k))
  }

  function Foreigns(count: nat): (r: seq<Entry>)
    ensures |r| == count && forall k :: 0 <= k < count ==> r[k] == Foreign
  {
    seq(count, _ => Foreign)
  }

  lemma {:induction false} OwnsMember(from: nat, count: nat, slot: nat)
    requires from <= slot < from + count
    ensures Own(slot) in Owns(from, count)
  {
    assert Owns(from, count)[slot - from] == Own(slot);
  }

  lemma {:induction false} OwnsGrow(from: nat, count: nat)
    ensures Owns(from, count) + [Own(from + count)] == Owns(from, count + 1)
  {
  }

  // ---------------------------------------------------------------- pinned slots

  /** A subscriber that is stuck between its queues holds its read buffer and the pointer in flight. */
  predicate StuckOn(b: Buffer, x: nat) {
    b.moving.Some? && (Own(x) in b.read || b.moving == Some(Own(x)))
  }

  ghost predicate Pinned(s: State, x: nat) {
    || x in s.outside
    || (exists k :: 0 <= k < |s.buffers| && StuckOn(s.buffers[k], x))
    || (exists r :: 0 <= r < |s.rivals| && s.rivals[r] == Some(Own(x)))
  }

  ghost predicate AllPinned(s: State, n: nat) {
    forall x: nat :: x < n ==> Pinned(s, x)
  }

  /** What was pinned stays so. */
  ghost predicate Extends(s: State, s': State) {
    && s.outside <= s'.outside && |s'.buffers| == |s.buffers| && |s'.rivals| == |s.rivals|
    && (forall k :: 0 <= k < |s.buffers| && s.buffers[k].moving.Some? ==>
          s'.buffers[k].read == s.buffers[k].read && s'.buffers[k].moving == s.buffers[k].moving)
    && (forall r :: 0 <= r < |s.rivals| && s.rivals[r].Some? ==> s'.rivals[r] == s.rivals[r])
  }

  lemma {:induction false} PinnedStays(s: State, s': State, n: nat)
    requires Extends(s, s') && AllPinned(s, n)
    ensures AllPinned(s', n)
  {
    forall x: nat | x < n ensures Pinned(s', x) {
      StillPinned(s, s', x);
    }
  }

  lemma {:induction false} StillPinned(s: State, s': State, x: nat)
    requires Extends(s, s') && Pinned(s, x)
    ensures Pinned(s', x)
  {
    if x in s.outside {
      assert x in s'.outside;
    } else if k :| 0 <= k < |s.buffers| && StuckOn(s.buffers[k], x) {
      assert StuckOn(s'.buffers[k], x);
    } else {
      var r :| 0 <= r < |s.rivals| && s.rivals[r] == Some(Own(x));
      assert s'.rivals[r] == Some(Own(x));
    }
  }

  /** Only write queues differ, except at subscriber `k`. */
  ghost predicate Rewrites(s: State, s': State, k: nat) {
    && s' == s.(buffers := s'.buffers) && |s'.buffers| == |s.buffers|
    && (forall j :: 0 <= j < |s.buffers| ==> s'.buffers[j].capacity == s.buffers[j].capacity)
    && (forall j :: 0 <= j < |s.buffers| && j != k ==> SameButWrite(s.buffers[j], s'.buffers[j]))
  }

  predicate SameButWrite(b: Buffer, b': Buffer) { b' == b.(write := b'.write) }

  lemma {:induction false} RewritesOn(s: State, s': State, s'': State, k: nat)
    requires Rewrites(s, s', k) && Rewrites(s', s'', k)
    ensures Rewrites(s, s'', k)
  {
    forall j | 0 <= j < |s.buffers| && j != k ensures SameButWrite(s.buffers[j], s''.buffers[j]) {
      assert SameButWrite(s.buffers[j], s'.buffers[j]) && SameButWrite(s'.buffers[j], s''.buffers[j]);
    }
  }

  lemma {:induction false} PublishedRewrites(s: State, n: nat, k: nat)
    ensures Rewrites(s, Published(s, n), k)
  {
  }

  lemma {:induction false} AtRewrites(s: State, k: nat, b: Buffer)
    requires k < |s.buffers| && b.capacity == s.buffers[k].capacity
    ensures Rewrites(s, At(s, k, b), k)
  {
  }

  lemma {:induction false} RewritesExtends(s: State, s': State, k: nat)
    requires Rewrites(s, s', k) && (k < |s.buffers| && s.buffers[k].moving.Some? ==> SameButWrite(s.buffers[k], s'.buffers[k]))
    ensures Extends(s, s')
  {
    forall j | 0 <= j < |s.buffers| && s.buffers[j].moving.Some?
      ensures s'.buffers[j].read == s.buffers[j].read && s'.buffers[j].moving == s.buffers[j].moving
    {
      assert SameButWrite(s.buffers[j], s'.buffers[j]);
    }
  }

  /** A change of subscriber `k` alone, after others' write queues changed. */
  lemma {:induction false} ThenAt(s: State, p: State, k: nat, b: Buffer, n: nat)
    requires Rewrites(s, p, k) && Below(p, n) && k < |s.buffers| && b.capacity == s.buffers[k].capacity && BufferBelow(b, n)
    ensures Rewrites(s, At(p, k, b), k) && Below(At(p, k, b), n)
  {
    AtIsBelow(p, k, b, n);
    AtRewrites(p, k, b);
    RewritesOn(s, p, At(p, k, b), k);
  }

  lemma {:induction false} ExtendsOn(s: State, s': State, s'': State)
    requires Extends(s, s') && Extends(s', s'')
    ensures Extends(s, s'')
  {
  }

  // ---------------------------------------------------------------- publishing to one subscriber

  /** A connected subscriber with room. */
  predicate Serves(s: State, k: nat) {
    k < |s.buffers| && Bound(s.connected, k) && s.buffers[k].capacity > 0
  }

  /** A publication, seen from subscriber `k`. */
  lemma {:induction false} PublishTo(seen: iset<State>, s: State, n: nat, k: nat) returns (p: State)
    requires Closed(seen) && s in seen && Resting(s) && Below(s, n) && n < s.slots && Serves(s, k)
    ensures p in seen && Rewrites(s, p, k) && Below(p, n + 1) && p.buffers[k] == ForcePush(s.buffers[k], Own(n)).0
  {
    Publishes(seen, s, n);
    p := Published(s, n);
    PublishedRewrites(s, n, k);
  }

  lemma {:induction false} PushOnEmpty(b: Buffer, e: Entry)
    requires b.write == [] && b.capacity > 0
    ensures ForcePush(b, e).0 == b.(write := [e])
  {
    OnlyOne(e);
  }

  lemma {:induction false} PublishToEmpty(seen: iset<State>, s: State, n: nat, k: nat) returns (p: State)
    requires Closed(seen) && s in seen && Resting(s) && Below(s, n) && n < s.slots
    requires Serves(s, k) && s.buffers[k].write == []
    ensures p in seen && Rewrites(s, p, k) && Below(p, n + 1) && p.buffers[k] == s.buffers[k].(write := [Own(n)])
  {
    p := PublishTo(seen, s, n, k);
    PushOnEmpty(s.buffers[k], Own(n));
  }

  // ---------------------------------------------------------------- filling a read buffer

  lemma {:induction false} HoldsOwns(b: Buffer, n: nat, i: nat, n': nat)
    requires b.write == [] && b.read == Owns(n, i) && b.evicted.None? && n + i <= n'
    requires b.moving.None? || (b.moving == Some(Own(n + i)) && n + i < n')
    ensures BufferBelow(b, n')
  {
  }

  lemma {:induction false} StoresNext(seen: iset<State>, p: State, n: nat, k: nat, i: nat, capacity: nat)
    requires Closed(seen) && p in seen && k < |p.buffers| && 0 < i <= capacity
    requires p.buffers[k] == Buffer(capacity, [Own(n + (i - 1))], Owns(n, i - 1), None, None)
    ensures At(p, k, Buffer(capacity, [], Owns(n, i), None, None)) in seen
  {
    OnlyOne(Own(n + (i - 1)));
    Reads(seen, p, k);
    OwnsGrow(n, i - 1);
  }

  lemma {:induction false} FillNext(seen: iset<State>, s: State, n: nat, k: nat, i: nat, capacity: nat) returns (s': State)
    requires 0 < i <= capacity && Closed(seen) && s in seen && Resting(s) && Below(s, n + (i - 1)) && n + i <= s.slots
    requires Serves(s, k) && s.buffers[k] == Buffer(capacity, [], Owns(n, i - 1), None, None)
    ensures s' in seen && Rewrites(s, s', k) && Below(s', n + i)
    ensures s'.buffers[k] == Buffer(capacity, [], Owns(n, i), None, None)
  {
    var p := PublishToEmpty(seen, s, n + (i - 1), k);
    StoresNext(seen, p, n, k, i, capacity);
    var b := Buffer(capacity, [], Owns(n, i), None, None);
    HoldsOwns(b, n, i, n + i);
    ThenAt(s, p, k, b, n + i);
    s' := At(p, k, b);
  }

  lemma {:induction false} FillRead(seen: iset<State>, s: State, n: nat, k: nat, i: nat, capacity: nat) returns (s': State)
    requires Closed(seen) && s in seen && Resting(s) && Below(s, n) && n + i <= s.slots && i <= capacity
    requires Serves(s, k) && s.buffers[k] == Buffer(capacity, [], [], None, None)
    ensures s' in seen && Rewrites(s, s', k) && Below(s', n + i)
    ensures s'.buffers[k] == Buffer(capacity, [], Owns(n, i), None, None)
  {
    if i == 0 {
      s' := s;
      assert Owns(n, 0) == [];
    } else {
      var s1 := FillRead(seen, s, n, k, i - 1, capacity);
      s' := FillNext(seen, s1, n, k, i, capacity);
      RewritesOn(s, s1, s', k);
    }
  }

  lemma {:induction false} PopsNext(seen: iset<State>, p: State, k: nat, b: Buffer, e: Entry)
    requires Closed(seen) && p in seen && k < |p.buffers| && b.moving.None? && b.evicted.None?
    requires p.buffers[k] == b.(write := [e])
    ensures At(p, k, b.(write := [], moving := Some(e))) in seen
  {
    OnlyOne(e);
    Drains(seen, p, k, Pop);
  }

  /** A drain stops with one more message in flight. */
  lemma {:induction false} Sticks(seen: iset<State>, s: State, n: nat, k: nat, i: nat) returns (s': State)
    requires Closed(seen) && s in seen && Resting(s) && Below(s, n + i) && n + i < s.slots
    requires Serves(s, k) && s.buffers[k] == Buffer(i, [], Owns(n, i), None, None)
    ensures s' in seen && Rewrites(s, s', k) && Below(s', n + i + 1)
    ensures s'.buffers[k] == Buffer(i, [], Owns(n, i), Some(Own(n + i)), None)
  {
    var p := PublishToEmpty(seen, s, n + i, k);
    PopsNext(seen, p, k, s.buffers[k], Own(n + i));
    var b := Buffer(i, [], Owns(n, i), Some(Own(n + i)), None);
    HoldsOwns(b, n, i, n + i + 1);
    ThenAt(s, p, k, b, n + i + 1);
    s' := At(p, k, b);
  }

  /** Subscriber `k` takes in as much as it can hold and gets stuck. */
  lemma {:induction false} Freezes(seen: iset<State>, s: State, n: nat, k: nat, i: nat) returns (s': State)
    requires Closed(seen) && s in seen && Resting(s) && Below(s, n) && n + i + 1 <= s.slots
    requires Serves(s, k) && Open(s.buffers[k]) && i == s.buffers[k].capacity
    ensures s' in seen && Rewrites(s, s', k) && Below(s', n + i + 1)
    ensures s'.buffers[k] == Buffer(i, [], Owns(n, i), Some(Own(n + i)), None)
  {
    var empty := s.buffers[k].(write := []);
    ShedsAll(seen, s, k);
    var s1 := At(s, k, empty);
    assert BufferBelow(s.buffers[k], n);
    AtIsBelow(s, k, empty, n);
    AtRewrites(s, k, empty);
    var s2 := FillRead(seen, s1, n, k, i, i);
    RewritesOn(s, s1, s2, k);
    s' := Sticks(seen, s2, n, k, i);
    RewritesOn(s, s2, s', k);
  }

  // ---------------------------------------------------------------- other publishers displace

  lemma {:induction false} RivalPushes(seen: iset<State>, s: State, r: nat, k: nat)
    requires Closed(seen) && s in seen && r < |s.rivals| && s.rivals[r].None? && k < |s.buffers|
    ensures var (b, out) := ForcePush(s.buffers[k], Foreign);
      At(s, k, b).(rivals := s.rivals[r := out]) in seen && At(s, k, b) in seen
  {
    var (b, out) := ForcePush(s.buffers[k], Foreign);
    var held := At(s, k, b).(rivals := s.rivals[r := out]);
    Steps(seen, s, Theirs(RivalPush(r, k)));
    Steps(seen, held, Theirs(RivalRelease(r)));
    assert held.rivals[r := None] == s.rivals;
    assert OtherStep(held, RivalRelease(r)) == At(s, k, b);
  }

  /** A write queue after `i` more messages of other publishers. */
  function Flooded(write: seq<Entry>, i: nat, capacity: nat): seq<Entry>
    requires |write| <= capacity && i <= capacity
  {
    write[Max(0, |write| + i - capacity)..] + Foreigns(i)
  }

  lemma {:induction false} FloodNext(b: Buffer, write: seq<Entry>, i: nat)
    requires |write| <= b.capacity && i < b.capacity && b.write == Flooded(write, i, b.capacity)
    ensures ForcePush(b, Foreign).0.write == Flooded(write, i + 1, b.capacity)
  {
    assert Foreigns(i) + [Foreign] == Foreigns(i + 1);
  }

  lemma {:induction false} Floods(seen: iset<State>, s: State, r: nat, k: nat, i: nat)
    requires Closed(seen) && s in seen && r < |s.rivals| && s.rivals[r].None? && k < |s.buffers|
    requires |s.buffers[k].write| <= s.buffers[k].capacity && i <= s.buffers[k].capacity
    ensures var b := s.buffers[k]; At(s, k, b.(write := Flooded(b.write, i, b.capacity))) in seen
  {
    var b := s.buffers[k];
    if i == 0 {
      assert Flooded(b.write, 0, b.capacity) == b.write;
      assert s.buffers[k := b] == s.buffers;
    } else {
      Floods(seen, s, r, k, i - 1);
      var before := b.(write := Flooded(b.write, i - 1, b.capacity));
      RivalPushes(seen, At(s, k, before), r, k);
      FloodNext(before, b.write, i - 1);
      AtTwice(s, k, before, b.(write := Flooded(b.write, i, b.capacity)));
    }
  }

  lemma {:induction false} VictimMovesUp(n: nat, capacity: nat)
    requires capacity > 0
    ensures var w := Foreigns(capacity)[1..] + [Own(n)];
      |w| == capacity && Flooded(w, capacity - 1, capacity) == [Own(n)] + Foreigns(capacity - 1)
    ensures ([Own(n)] + Foreigns(capacity - 1))[1..] + [Foreign] == Foreigns(capacity)
  {
  }

  /** The message just published is displaced by the other publisher `r`, which holds on to it. */
  lemma {:induction false} Displaces(seen: iset<State>, s: State, m: nat, r: nat, n: nat)
    requires Closed(seen) && s in seen && r < |s.rivals| && s.rivals[r].None? && Serves(s, m)
    requires s.buffers[m].write == Foreigns(s.buffers[m].capacity)[1..] + [Own(n)]
    ensures var b := s.buffers[m];
      At(s, m, b.(write := Foreigns(b.capacity))).(rivals := s.rivals[r := Some(Own(n))]) in seen
  {
    var b := s.buffers[m];
    VictimMovesUp(n, b.capacity);
    Floods(seen, s, r, m, b.capacity - 1);
    var front := b.(write := [Own(n)] + Foreigns(b.capacity - 1));
    RivalPushes(seen, At(s, m, front), r, m);
    AtTwice(s, m, front, b.(write := Foreigns(b.capacity)));
  }

  /** One more message is published to subscriber `m` and displaced. */
  lemma {:induction false} Raids(seen: iset<State>, s: State, m: nat, r: nat, n: nat) returns (flooded: State)
    requires Closed(seen) && s in seen && Resting(s) && Below(s, n) && n < s.slots && r < |s.rivals| && s.rivals[r].None?
    requires Serves(s, m) && s.buffers[m].write == Foreigns(s.buffers[m].capacity)
    ensures Rewrites(s, flooded, m) && flooded.buffers[m] == s.buffers[m] && Below(flooded, n + 1)
    ensures flooded.(rivals := s.rivals[r := Some(Own(n))]) in seen
  {
    var p := PublishTo(seen, s, n, m);
    Displaces(seen, p, m, r, n);
    assert BufferBelow(p.buffers[m], n + 1);
    ThenAt(s, p, m, s.buffers[m], n + 1);
    flooded := At(p, m, s.buffers[m]);
  }

  // ---------------------------------------------------------------- filling a write queue

  /** A write queue after `j` more messages of this publisher. */
  function Refilled(write: seq<Entry>, n: nat, j: nat, capacity: nat): seq<Entry>
    requires |write| <= capacity && j <= capacity
  {
    write[Max(0, |write| + j - capacity)..] + Owns(n, j)
  }

  lemma {:induction false} PushRefills(b: Buffer, write: seq<Entry>, n: nat, j: nat)
    requires |write| <= b.capacity && j < b.capacity && b.write == Refilled(write, n, j, b.capacity)
    ensures ForcePush(b, Own(n + j)).0 == b.(write := Refilled(write, n, j + 1, b.capacity))
  {
    OwnsGrow(n, j);
  }

  lemma {:induction false} RefillNext(seen: iset<State>, s: State, m: nat, n: nat, j: nat, b: Buffer) returns (s': State)
    requires 0 < j <= b.capacity && |b.write| <= b.capacity
    requires Closed(seen) && s in seen && Resting(s) && Below(s, n + (j - 1)) && n + j <= s.slots
    requires Serves(s, m) && s.buffers[m] == b.(write := Refilled(b.write, n, j - 1, b.capacity))
    ensures s' in seen && Rewrites(s, s', m) && Below(s', n + j)
    ensures s'.buffers[m] == b.(write := Refilled(b.write, n, j, b.capacity))
  {
    PushRefills(s.buffers[m], b.write, n, j - 1);
    s' := PublishTo(seen, s, n + (j - 1), m);
  }

  lemma {:induction false} Refill(seen: iset<State>, s: State, m: nat, n: nat, j: nat, b: Buffer) returns (s': State)
    requires Closed(seen) && s in seen && Resting(s) && Below(s, n) && n + j <= s.slots
    requires Serves(s, m) && s.buffers[m] == b && |b.write| <= b.capacity && j <= b.capacity
    ensures s' in seen && Rewrites(s, s', m) && Below(s', n + j)
    ensures s'.buffers[m] == b.(write := Refilled(b.write, n, j, b.capacity))
  {
    if j == 0 {
      s' := s;
      assert Refilled(b.write, n, 0, b.capacity) == b.write;
    } else {
      var s1 := Refill(seen, s, m, n, j - 1, b);
      s' := RefillNext(seen, s1, m, n, j, b);
      RewritesOn(s, s1, s', m);
    }
  }

  // ---------------------------------------------------------------- loans

  function From(a: nat, n: nat): (r: seq<nat>)
    ensures |r| == n && forall k :: 0 <= k < n ==> r[k] == a + k
  {
    seq(n, k requires 0 <= k => a + k)
  }

  lemma {:induction false} FromGrows(a: nat, n: nat)
    ensures From(a, n) + [a + n] == From(a, n + 1)
  {
  }

  lemma {:induction false} LoanedIsBelow(s: State, n: nat, j: nat)
    requires Resting(s) && Below(s, n)
    ensures Below(s.(outstanding := From(n, j)), n + j)
  {
    forall k | 0 <= k < |s.buffers| ensures BufferBelow(s.buffers[k], n + j) {
      assert BufferBelow(s.buffers[k], n);
    }
    forall r | 0 <= r < |s.rivals| ensures EntriesBelow(Optional(s.rivals[r]), n + j) {
      assert EntriesBelow(Optional(s.rivals[r]), n);
    }
  }

  lemma {:induction false} LoanNext(seen: iset<State>, s: State, n: nat)
    requires Closed(seen) && s in seen && QuotaLeft(s) && Below(s, n) && n < s.slots
    ensures s.(outstanding := s.outstanding + [n]) in seen
  {
    NextIsFree(s, n);
    Steps(seen, s, Mine(Loan(n)));
  }

  lemma {:induction false} LoanAll(seen: iset<State>, s: State, n: nat, j: nat)
    requires Closed(seen) && s in seen && Resting(s) && Below(s, n) && j < s.loans && n + j <= s.slots
    ensures s.(outstanding := From(n, j)) in seen
  {
    if j == 0 {
      assert From(n, 0) == [];
    } else {
      LoanAll(seen, s, n, j - 1);
      LoanedIsBelow(s, n, j - 1);
      LoanNext(seen, s.(outstanding := From(n, j - 1)), n + j - 1);
      FromGrows(n, j - 1);
    }
  }

  // ---------------------------------------------------------------- every slot in use

  lemma {:induction false} SlotsGrow(buffers: seq<Buffer>, x: nat)
    requires buffers != []
    requires x in BufferSlots(buffers[..|buffers| - 1]) || x in OwnSlots(BufferEntries(buffers[|buffers| - 1]))
    ensures x in BufferSlots(buffers)
  {
    assert BufferSlots(buffers) == BufferSlots(buffers[..|buffers| - 1]) + OwnSlots(BufferEntries(buffers[|buffers| - 1]));
  }

  lemma {:induction false} SlotIsInBuffers(buffers: seq<Buffer>, k: nat, x: nat)
    requires k < |buffers| && x in OwnSlots(BufferEntries(buffers[k]))
    ensures x in BufferSlots(buffers)
  {
    if k < |buffers| - 1 {
      SlotIsInBuffers(buffers[..|buffers| - 1], k, x);
    }
    SlotsGrow(buffers, x);
  }

  lemma {:induction false} EntryIsInBuffer(b: Buffer, e: Entry)
    requires e in b.write || e in b.read || b.moving == Some(e)
    ensures e in BufferEntries(b)
  {
    if b.moving == Some(e) {
      assert Optional(b.moving)[0] == e;
    }
  }

  lemma {:induction false} EntryIsInBuffers(buffers: seq<Buffer>, k: nat, x: nat)
    requires k < |buffers|
    requires var b := buffers[k]; Own(x) in b.write || Own(x) in b.read || b.moving == Some(Own(x))
    ensures x in BufferSlots(buffers)
  {
    EntryIsInBuffer(buffers[k], Own(x));
    OwnSlotsFaithful(BufferEntries(buffers[k]), x);
    SlotIsInBuffers(buffers, k, x);
  }

  lemma {:induction false} SlotIsDisplaced(rivals: seq<Option<Entry>>, r: nat, x: nat)
    requires r < |rivals| && rivals[r] == Some(Own(x))
    ensures x in Displaced(rivals)
  {
    var last := |rivals| - 1;
    if r < last {
      SlotIsDisplaced(rivals[..last], r, x);
    } else {
      OwnSlotsFaithful(Optional(rivals[r]), x);
    }
  }

  lemma {:induction false} PinnedIsUsed(s: State, x: nat)
    requires Pinned(s, x)
    ensures x in Handles(s)
  {
    if x !in s.outside {
      if k :| 0 <= k < |s.buffers| && StuckOn(s.buffers[k], x) {
        EntryIsInBuffers(s.buffers, k, x);
      } else {
        var r :| 0 <= r < |s.rivals| && s.rivals[r] == Some(Own(x));
        SlotIsDisplaced(s.rivals, r, x);
      }
    }
  }

  lemma {:induction false} AllUsed(s: State, m: nat, n: nat, j: nat, l: nat, x: nat)
    requires AllPinned(s, n) && m < |s.buffers| && s.buffers[m].write == Owns(n, j) && s.outstanding == From(n + j, l)
    requires x < n + j + l
    ensures x in Handles(s)
  {
    if x < n {
      PinnedIsUsed(s, x);
    } else if x < n + j {
      OwnsMember(n, j, x);
      EntryIsInBuffers(s.buffers, m, x);
    } else {
      assert s.outstanding[x - n - j] == x;
    }
  }
}
