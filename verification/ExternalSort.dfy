/**
 Sorting a log that does not fit in memory: sorted chunks are merged in a binary hierarchy
 of runs. Temporary files are sequences here.
 */
module ExternalSort {
  import opened Basics
  import opened StableSort

  datatype LogEntry = LogEntry(time: int, channel: string, body: string)

  function EntryTime(e: LogEntry): int { e.time }

  /** An entry with its position in the log. */
  datatype RunEntry = RunEntry(sequence: nat, entry: LogEntry)

  function TimeOf(e: RunEntry): int { e.entry.time }

  function SequenceOf(e: RunEntry): int { e.sequence }

  type Run = seq<RunEntry>

  /** Comparison of keys: time first, then position. */
  predicate KeyAtMost(a: RunEntry, b: RunEntry) {
    a.entry.time < b.entry.time || (a.entry.time == b.entry.time && a.sequence <= b.sequence)
  }

  function Snapshot(entries: seq<LogEntry>): (r: Run)
    ensures |r| == |entries| && forall k :: 0 <= k < |entries| ==> r[k] == RunEntry(k, entries[k])
  {
    seq(|entries|, k requires 0 <= k < |entries| => RunEntry(k, entries[k]))
  }

  ghost predicate Precedes(a: Run, b: Run) {
    forall i, j :: 0 <= i < |a| && 0 <= j < |b| ==> a[i].sequence < b[j].sequence
  }

  // ---------------------------------------------------------------- one chunk

  lemma {:induction false} SortedStays<T>(s: seq<T>, key: T -> int)
    requires SortedBy(s, key)
    ensures SortBy(s, key) == s
  {
    StableSortIsSortBy(s, s, key);
  }

  /** `spill`: sorting by (time, position) a chunk in order of position is a stable sort by time. */
  method Spill(chunk: Run) returns (run: Run)
    requires SortedBy(chunk, SequenceOf)
    ensures run == SortBy(chunk, TimeOf)
  {
    run := [];
    var sorted := SortBy(SortBy(chunk, SequenceOf), TimeOf);
    SortedStays(chunk, SequenceOf);
    for k := 0 to |sorted|
      invariant run == sorted[..k]
    {
      run := run + [sorted[k]];
    }
  }

  // ---------------------------------------------------------------- merging

  function Merged(a: Run, b: Run): Run
    decreases |a| + |b|
  {
    if a == [] then b
    else if b == [] then a
    else if KeyAtMost(a[0], b[0]) then [a[0]] + Merged(a[1..], b)
    else [b[0]] + Merged(a, b[1..])
  }

  /** `merge`: two read heads, the smaller key first. */
  method Merge(left: Run, right: Run) returns (run: Run)
    ensures run == Merged(left, right)
  {
    run := [];
    var i, j := 0, 0;
    while i < |left| || j < |right|
      invariant 0 <= i <= |left| && 0 <= j <= |right|
      invariant run + Merged(left[i..], right[j..]) == Merged(left, right)
      decreases |left| - i + |right| - j
    {
      ghost var a, b := left[i..], right[j..];
      if j == |right| || (i < |left| && KeyAtMost(left[i], right[j])) {
        MergedStep(a, b, left[i]);
        assert a[1..] == left[i + 1..];
        ConcatAssociates(run, [left[i]], Merged(a[1..], b));
        run := run + [left[i]];
        i := i + 1;
      } else {
        assert b[1..] == right[j + 1..];
        ConcatAssociates(run, [right[j]], Merged(a, b[1..]));
        if a == [] {
          MergedRight(b);
        }
        run := run + [right[j]];
        j := j + 1;
      }
    }
    assert run + [] == run;
  }

  lemma {:induction false} MergedStep(a: Run, b: Run, x: RunEntry)
    requires a != [] && a[0] == x && (b == [] || KeyAtMost(a[0], b[0]))
    ensures Merged(a, b) == [x] + Merged(a[1..], b)
  {
    if b == [] {
      assert Merged(a[1..], b) == a[1..];
      assert a == [a[0]] + a[1..];
    }
  }

  lemma {:induction false} MergedRight(b: Run)
    requires b != []
    ensures Merged([], b) == [b[0]] + Merged([], b[1..])
  {
    assert b == [b[0]] + b[1..];
  }

  lemma {:induction false} MergedSorts(a: Run, b: Run)
    requires SortedBy(a, TimeOf) && SortedBy(b, TimeOf)
    ensures SortedBy(Merged(a, b), TimeOf)
    ensures forall x :: x in Merged(a, b) ==> x in a || x in b
    decreases |a| + |b|
  {
    if a != [] && b != [] {
      if KeyAtMost(a[0], b[0]) {
        MergedSorts(a[1..], b);
        HeadSorts(a[0], Merged(a[1..], b));
      } else {
        MergedSorts(a, b[1..]);
        HeadSorts(b[0], Merged(a, b[1..]));
      }
    }
  }

  lemma {:induction false} HeadSorts(x: RunEntry, rest: Run)
    requires SortedBy(rest, TimeOf) && forall y :: y in rest ==> TimeOf(x) <= TimeOf(y)
    ensures SortedBy([x] + rest, TimeOf)
  {
    forall i, j | 0 <= i < j < |[x] + rest| ensures TimeOf(([x] + rest)[i]) <= TimeOf(([x] + rest)[j]) {
      assert ([x] + rest)[j] == rest[j - 1] && rest[j - 1] in rest;
      if i > 0 {
        assert ([x] + rest)[i] == rest[i - 1];
      }
    }
  }

  lemma {:induction false} HeadWithKey(s: Run, k: int)
    requires s != []
    ensures WithKey(s, TimeOf, k) == WithKey([s[0]], TimeOf, k) + WithKey(s[1..], TimeOf, k)
  {
    assert s == [s[0]] + s[1..];
    WithKeyConcat([s[0]], s[1..], TimeOf, k);
  }

  /** When the left run holds the earlier positions, merging keeps its entries first among equals. */
  lemma {:induction false} MergedInOrder(a: Run, b: Run, k: int)
    requires SortedBy(a, TimeOf) && SortedBy(b, TimeOf) && Precedes(a, b)
    ensures WithKey(Merged(a, b), TimeOf, k) == WithKey(a, TimeOf, k) + WithKey(b, TimeOf, k)
    decreases |a| + |b|
  {
    if a != [] && b != [] {
      if KeyAtMost(a[0], b[0]) {
        MergedInOrder(a[1..], b, k);
        HeadWithKey(a, k);
        WithKeyConcat([a[0]], Merged(a[1..], b), TimeOf, k);
      } else {
        assert TimeOf(b[0]) < TimeOf(a[0]);
        MergedInOrder(a, b[1..], k);
        HeadWithKey(b, k);
        WithKeyConcat([b[0]], Merged(a, b[1..]), TimeOf, k);
        HeadIsFirst(a, b[0], k);
        var x, rest := WithKey([b[0]], TimeOf, k), WithKey(b[1..], TimeOf, k);
        ConcatAssociates(x, WithKey(a, TimeOf, k), rest);
        ConcatAssociates(WithKey(a, TimeOf, k), x, rest);
      }
    }
  }

  /** An entry earlier than a whole run commutes with it. */
  lemma {:induction false} HeadIsFirst(a: Run, x: RunEntry, k: int)
    requires a != [] && SortedBy(a, TimeOf) && TimeOf(x) < TimeOf(a[0])
    ensures WithKey([x], TimeOf, k) + WithKey(a, TimeOf, k) == WithKey(a, TimeOf, k) + WithKey([x], TimeOf, k)
  {
    WithKeyOne(x, TimeOf, k);
    if TimeOf(x) == k {
      NoneWithKey(a, TimeOf, k);
    }
  }

  /** The same when the right run holds the earlier positions: keys, not argument order, decide. */
  lemma {:induction false} MergedCommutes(a: Run, b: Run)
    requires Precedes(a, b)
    ensures Merged(b, a) == Merged(a, b)
    decreases |a| + |b|
  {
    if a != [] && b != [] {
      assert a[0].sequence < b[0].sequence;
      if KeyAtMost(a[0], b[0]) {
        MergedCommutes(a[1..], b);
      } else {
        MergedCommutes(a, b[1..]);
      }
    }
  }

  /** Merging the stable sorts of two adjacent stretches, in either order, is the stable sort of both. */
  lemma {:induction false} MergeOfSorts(a: Run, b: Run)
    requires Precedes(a, b)
    ensures Merged(SortBy(a, TimeOf), SortBy(b, TimeOf)) == SortBy(a + b, TimeOf)
    ensures Merged(SortBy(b, TimeOf), SortBy(a, TimeOf)) == SortBy(a + b, TimeOf)
  {
    var a', b' := SortBy(a, TimeOf), SortBy(b, TimeOf);
    SortIsStable(a, TimeOf);
    SortIsStable(b, TimeOf);
    forall i, j | 0 <= i < |a'| && 0 <= j < |b'| ensures a'[i].sequence < b'[j].sequence {
      SortMembers(a, TimeOf, a'[i]);
      SortMembers(b, TimeOf, b'[j]);
    }
    MergedSorts(a', b');
    forall k ensures WithKey(Merged(a', b'), TimeOf, k) == WithKey(a + b, TimeOf, k) {
      MergedInOrder(a', b', k);
      WithKeyConcat(a, b, TimeOf, k);
    }
    StableSortIsSortBy(Merged(a', b'), a + b, TimeOf);
    MergedCommutes(a', b');
  }

  // ---------------------------------------------------------------- the hierarchy of runs

  ghost function Pow2(i: nat): nat { if i == 0 then 1 else 2 * Pow2(i - 1) }

  /** The chunks held by the levels from `i` upwards: an occupied level `j` holds `2^j`. */
  ghost function Weight(levels: seq<Option<Run>>, i: nat): nat
    requires i <= |levels|
    decreases |levels| - i
  {
    if i == |levels| then 0 else (if levels[i].Some? then Pow2(i) else 0) + Weight(levels, i + 1)
  }

  /** Where a chunk begins; only the last one may be shorter than the batch size. */
  ghost function Cut(log: Run, batch: nat, chunk: nat): (r: nat)
    ensures r <= |log|
  {
    if chunk * batch <= |log| then chunk * batch else |log|
  }

  lemma {:induction false} CutGrows(log: Run, batch: nat, from: nat, to: nat)
    requires from <= to
    ensures Cut(log, batch, from) <= Cut(log, batch, to)
  {
    assert to * batch == from * batch + (to - from) * batch;
  }

  /** The stable sort of consecutive chunks. */
  ghost function Chunks(log: Run, batch: nat, from: nat, to: nat): Run
    requires from <= to
  {
    CutGrows(log, batch, from, to);
    SortBy(log[Cut(log, batch, from)..Cut(log, batch, to)], TimeOf)
  }

  ghost predicate Positioned(log: Run) {
    forall i, j :: 0 <= i < j < |log| ==> log[i].sequence < log[j].sequence
  }

  /** After `n` chunks: level `i`, if occupied, holds the `2^i` chunks that follow those of the higher levels. */
  ghost predicate Hierarchy(levels: seq<Option<Run>>, log: Run, batch: nat, n: nat) {
    && Weight(levels, 0) == n
    && forall i :: 0 <= i < |levels| && levels[i].Some? ==>
         levels[i].value == Chunks(log, batch, Weight(levels, i + 1), Weight(levels, i))
  }

  lemma {:induction false} JoinChunks(log: Run, batch: nat, from: nat, mid: nat, to: nat)
    requires Positioned(log) && from <= mid <= to
    ensures Merged(Chunks(log, batch, from, mid), Chunks(log, batch, mid, to)) == Chunks(log, batch, from, to)
    ensures Merged(Chunks(log, batch, mid, to), Chunks(log, batch, from, mid)) == Chunks(log, batch, from, to)
  {
    CutGrows(log, batch, from, mid);
    CutGrows(log, batch, mid, to);
    var a := log[Cut(log, batch, from)..Cut(log, batch, mid)];
    var b := log[Cut(log, batch, mid)..Cut(log, batch, to)];
    assert a + b == log[Cut(log, batch, from)..Cut(log, batch, to)];
    MergeOfSorts(a, b);
  }

  lemma {:induction false} SameWeight(a: seq<Option<Run>>, b: seq<Option<Run>>, i: nat)
    requires i <= |a| == |b| && forall j :: i <= j < |a| ==> a[j].Some? == b[j].Some?
    ensures Weight(a, i) == Weight(b, i)
    decreases |a| - i
  {
    if i < |a| {
      SameWeight(a, b, i + 1);
    }
  }

  /** A full run of `i` levels weighs one less than the next power. */
  lemma {:induction false} FullWeight(levels: seq<Option<Run>>, i: nat)
    requires i <= |levels| && forall j :: 0 <= j < i ==> levels[j].Some?
    ensures Weight(levels, 0) == Pow2(i) - 1 + Weight(levels, i)
  {
    if i > 0 {
      FullWeight(levels, i - 1);
    }
  }

  lemma {:induction false} EmptyWeight(levels: seq<Option<Run>>, i: nat)
    requires i <= |levels| && forall j :: 0 <= j < i ==> levels[j].None?
    ensures Weight(levels, 0) == Weight(levels, i)
  {
    if i > 0 {
      EmptyWeight(levels, i - 1);
    }
  }

  /** The carry lands on the first free level; everything below is merged into it. */
  lemma {:induction false} CarryLands(
      before: seq<Option<Run>>, after: seq<Option<Run>>, carry: Run, i: nat, log: Run, batch: nat, n: nat)
    requires Hierarchy(before, log, batch, n) && i < |after| && |after| == Max(|before|, i + 1) && i <= |before|
    requires forall j :: 0 <= j < i ==> before[j].Some? && after[j].None?
    requires i < |before| ==> before[i].None?
    requires after[i] == Some(carry) && forall j :: i < j < |before| ==> after[j] == before[j]
    requires Weight(before, i) <= n && carry == Chunks(log, batch, Weight(before, i), n + 1)
    ensures Hierarchy(after, log, batch, n + 1)
  {
    FullWeight(before, i);
    EmptyWeight(after, i);
    if i < |before| {
      SameWeight(after, before, i + 1);
    }
    assert Weight(after, i) == Pow2(i) + Weight(after, i + 1) == n + 1;
    forall j | 0 <= j < |after| && after[j].Some?
      ensures after[j].value == Chunks(log, batch, Weight(after, j + 1), Weight(after, j))
    {
      if j > i {
        SameWeight(after, before, j);
        SameWeight(after, before, j + 1);
      }
    }
  }

  /** `add_run`: a binary counter of runs. */
  method AddRun(levels: seq<Option<Run>>, run: Run, ghost log: Run, ghost batch: nat, ghost n: nat)
    returns (levels': seq<Option<Run>>)
    requires Positioned(log) && Hierarchy(levels, log, batch, n) && run == Chunks(log, batch, n, n + 1)
    ensures Hierarchy(levels', log, batch, n + 1)
  {
    levels' := levels;
    var carry := run;
    for i := 0 to |levels|
      invariant |levels'| == |levels|
      invariant forall j :: 0 <= j < i ==> levels[j].Some? && levels'[j].None?
      invariant forall j :: i <= j < |levels| ==> levels'[j] == levels[j]
      invariant Weight(levels, i) <= n && carry == Chunks(log, batch, Weight(levels, i), n + 1)
    {
      match levels'[i] {
        case Some(previous) =>
          JoinChunks(log, batch, Weight(levels, i + 1), Weight(levels, i), n + 1);
          levels' := levels'[i := None];
          carry := Merge(previous, carry);
        case None =>
          levels' := levels'[i := Some(carry)];
          CarryLands(levels, levels', carry, i, log, batch, n);
          return;
      }
    }
    levels' := levels' + [Some(carry)];
    CarryLands(levels, levels', carry, |levels|, log, batch, n);
  }

  lemma {:induction false} SliceIsPositioned(log: Run, from: nat, to: nat)
    requires Positioned(log) && from <= to <= |log|
    ensures SortedBy(log[from..to], SequenceOf)
  {
  }

  /** A full chunk, or the partial one at the end, is the chunk the hierarchy expects next. */
  lemma {:induction false} NextChunk(log: Run, batch: nat, n: nat, start: nat, to: nat)
    requires start == n * batch && start <= to <= |log| && Positioned(log)
    requires to == start + batch || (to == |log| && to < start + batch)
    ensures Chunks(log, batch, n, n + 1) == SortBy(log[start..to], TimeOf)
    ensures (n + 1) * batch == start + batch && SortedBy(log[start..to], SequenceOf)
  {
    assert (n + 1) * batch == n * batch + batch;
    SliceIsPositioned(log, start, to);
  }

  /** Reads the snapshot chunk by chunk into the hierarchy. */
  method BuildHierarchy(log: Run, batch: nat) returns (levels: seq<Option<Run>>, ghost n: nat)
    requires Positioned(log) && batch > 0
    ensures Hierarchy(levels, log, batch, n) && Cut(log, batch, n) == |log| && (n == 0 <==> log == [])
  {
    levels, n := [], 0;
    var chunk: Run := [];
    ghost var start := 0;
    for k := 0 to |log|
      invariant start == n * batch && start <= k && chunk == log[start..k] && |chunk| < batch
      invariant Hierarchy(levels, log, batch, n) && (n > 0 ==> log != [])
    {
      chunk := chunk + [log[k]];
      if |chunk| == batch {
        levels := SpillChunk(levels, chunk, log, batch, n, start, k + 1);
        n, start, chunk := n + 1, start + batch, [];
      }
    }
    if chunk != [] {
      levels := SpillChunk(levels, chunk, log, batch, n, start, |log|);
      n, start := n + 1, start + batch;
    }
  }

  /** Spills a finished chunk and adds it to the hierarchy. */
  method SpillChunk(levels: seq<Option<Run>>, chunk: Run,
                    ghost log: Run, ghost batch: nat, ghost n: nat, ghost start: nat, ghost to: nat)
    returns (levels': seq<Option<Run>>)
    requires Positioned(log) && Hierarchy(levels, log, batch, n)
    requires start == n * batch && start <= to <= |log| && chunk == log[start..to]
    requires to == start + batch || (to == |log| && to < start + batch)
    ensures Hierarchy(levels', log, batch, n + 1) && (n + 1) * batch == start + batch
  {
    NextChunk(log, batch, n, start, to);
    var run := Spill(chunk);
    levels' := AddRun(levels, run, log, batch, n);
  }

  /** `sort_run`: the hierarchy and the final merge give the stable sort by time. */
  method SortRun(log: Run, batch: nat) returns (r: Option<Run>)
    requires Positioned(log) && batch > 0
    ensures r == if log == [] then None else Some(SortBy(log, TimeOf))
  {
    var levels, n := BuildHierarchy(log, batch);
    r := None;
    for i := 0 to |levels|
      invariant Weight(levels, i) <= n
      invariant r == if Weight(levels, i) == n then None else Some(Chunks(log, batch, Weight(levels, i), n))
    {
      Pow2Positive(i);
      match levels[i] {
        case Some(run) =>
          match r {
            case Some(previous) =>
              JoinChunks(log, batch, Weight(levels, i + 1), Weight(levels, i), n);
              var merged := Merge(previous, run);
              r := Some(merged);
            case None => r := Some(run);
          }
        case None =>
      }
    }
    assert log[Cut(log, batch, 0)..Cut(log, batch, n)] == log;
  }

  lemma {:induction false} Pow2Positive(i: nat)
    ensures Pow2(i) > 0
  {
    if i > 0 {
      Pow2Positive(i - 1);
    }
  }

  lemma {:induction false} InsertLength<T>(s: seq<T>, x: T, key: T -> int)
    ensures |Insert(s, x, key)| == |s| + 1
  {
    if s != [] && key(s[|s| - 1]) > key(x) {
      InsertLength(s[..|s| - 1], x, key);
    }
  }

  lemma {:induction false} SortLength<T>(s: seq<T>, key: T -> int)
    ensures |SortBy(s, key)| == |s|
  {
    if s != [] {
      SortLength(s[..|s| - 1], key);
      InsertLength(SortBy(s[..|s| - 1], key), s[|s| - 1], key);
    }
  }

  lemma {:induction false} ChunksLength(log: Run, batch: nat, from: nat, count: nat)
    ensures (from + count) * batch <= |log| ==> |Chunks(log, batch, from, from + count)| == count * batch
    ensures |Chunks(log, batch, from, from + count)| <= count * batch
  {
    CutGrows(log, batch, from, from + count);
    SortLength(log[Cut(log, batch, from)..Cut(log, batch, from + count)], TimeOf);
    assert (from + count) * batch == from * batch + count * batch;
    assert count * batch >= 0;
  }

  /** An occupied level `i` holds exactly `2^i` full chunks, unless it holds the partial chunk at the end of the log. */
  lemma {:induction false} LevelHoldsPower(levels: seq<Option<Run>>, log: Run, batch: nat, n: nat, i: nat)
    requires Hierarchy(levels, log, batch, n) && i < |levels| && levels[i].Some?
    ensures Weight(levels, i) * batch <= |log| ==> |levels[i].value| == Pow2(i) * batch
    ensures |levels[i].value| <= Pow2(i) * batch
  {
    ChunksLength(log, batch, Weight(levels, i + 1), Pow2(i));
  }
}
