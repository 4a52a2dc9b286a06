/** Reading a log in time order: from rows through the external sort, or from entries in memory. */
module LogStream {
  import opened Basics
  import opened StableSort
  import opened ExternalSort

  const INVALID_TIME := -0x8000_0000_0000_0000
  const INCOMPLETENESS := "recording_incompleteness"

  /** A line of the log, decoded. */
  datatype Row = Blank | Malformed | Artifact(name: string, body: string) | Message(entry: LogEntry)

  datatype ReadError =
    | BadBatchSize
    | Json(line: nat)
    | DuplicateArtifact(name: string, line: nat)
    | InvalidArtifact(name: string)
    | InvalidTimestamp
    | EmptyChannel
    | Poisoned

  datatype Loaded = Loaded(entries: seq<LogEntry>, channels: set<string>, artifacts: map<string, string>)

  /** `validate`. */
  function Problem(e: LogEntry): Option<ReadError> {
    if e.time == INVALID_TIME then Some(InvalidTimestamp) else if e.channel == "" then Some(EmptyChannel) else None
  }

  function LoadRow(soFar: Loaded, row: Row, line: nat): Result<Loaded, ReadError> {
    match row
    case Blank => Ok(soFar)
    case Malformed => Err(Json(line))
    case Artifact(name, body) =>
      if name in soFar.artifacts && name != INCOMPLETENESS then Err(DuplicateArtifact(name, line))
      else Ok(soFar.(artifacts := soFar.artifacts[name := body]))
    case Message(e) =>
      if Problem(e).Some? then Err(Problem(e).value)
      else Ok(soFar.(entries := soFar.entries + [e], channels := soFar.channels + {e.channel}))
  }

  /** All rows, or the first thing wrong with them. */
  function Load(rows: seq<Row>): Result<Loaded, ReadError> {
    if rows == [] then Ok(Loaded([], {}, map[]))
    else match Load(rows[..|rows| - 1])
      case Err(e) => Err(e)
      case Ok(soFar) => LoadRow(soFar, rows[|rows| - 1], |rows|)
  }

  lemma {:induction false} LoadFails(rows: seq<Row>, n: nat)
    requires n <= |rows| && Load(rows[..n]).Err?
    ensures Load(rows) == Load(rows[..n])
  {
    if n == |rows| {
      assert rows[..n] == rows;
    } else {
      assert rows[..|rows| - 1][..n] == rows[..n];
      LoadFails(rows[..|rows| - 1], n);
    }
  }

  function Entries(run: Run): (r: seq<LogEntry>)
    ensures |r| == |run| && forall k :: 0 <= k < |run| ==> r[k] == run[k].entry
  {
    seq(|run|, k requires 0 <= k < |run| => run[k].entry)
  }

  lemma {:induction false} InsertForgetsPositions(run: Run, x: RunEntry)
    ensures Entries(Insert(run, x, TimeOf)) == Insert(Entries(run), x.entry, EntryTime)
  {
    if run != [] && TimeOf(run[|run| - 1]) > TimeOf(x) {
      var shorter, last := run[..|run| - 1], run[|run| - 1];
      InsertForgetsPositions(shorter, x);
      assert Entries(run)[..|run| - 1] == Entries(shorter);
      assert Entries(Insert(shorter, x, TimeOf) + [last]) == Entries(Insert(shorter, x, TimeOf)) + [last.entry];
    } else {
      assert Entries(run + [x]) == Entries(run) + [x.entry];
    }
  }

  /** Sorting numbered entries and dropping the numbers is the stable sort of the entries. */
  lemma {:induction false} SortForgetsPositions(run: Run)
    ensures Entries(SortBy(run, TimeOf)) == SortBy(Entries(run), EntryTime)
  {
    if run != [] {
      var shorter := run[..|run| - 1];
      SortForgetsPositions(shorter);
      InsertForgetsPositions(SortBy(shorter, TimeOf), run[|run| - 1]);
      assert Entries(run)[..|run| - 1] == Entries(shorter);
    }
  }

  /** The entries up to a time that come before the first later one. */
  function Due(entries: seq<LogEntry>, time: int): seq<LogEntry> {
    if entries == [] || entries[0].time > time then [] else [entries[0]] + Due(entries[1..], time)
  }

  class Reader {
    var source: seq<LogEntry>
    var peeked: Option<LogEntry>
    var failed: bool
    const channels: set<string>
    const artifacts: map<string, string>
    const entryCount: nat
    const firstTime: Option<int>

    /** What is still to be read. */
    ghost function Contents(): seq<LogEntry>
      reads this
    {
      (if peeked.Some? then [peeked.value] else []) + source
    }

    /** The head is empty only at the end. */
    ghost predicate Valid()
      reads this
    {
      peeked.None? ==> source == []
    }

    /** `initialize`. */
    constructor (entries: seq<LogEntry>, names: set<string>, bodies: map<string, string>)
      ensures Valid() && Contents() == entries && !failed
      ensures channels == names && artifacts == bodies && entryCount == |entries|
      ensures firstTime == if entries == [] then None else Some(entries[0].time)
    {
      channels, artifacts, entryCount, failed := names, bodies, |entries|, false;
      if entries == [] {
        source, peeked, firstTime := [], None, None;
      } else {
        source, peeked, firstTime := entries[1..], Some(entries[0]), Some(entries[0].time);
      }
    }

    method NextEntry() returns (r: Result<Option<LogEntry>, ReadError>)
      requires Valid()
      modifies this`source, this`peeked
      ensures Valid()
      ensures failed ==> r == Err(Poisoned) && Contents() == old(Contents())
      ensures !failed ==>
        && r.Ok? && old(Contents()) == (if r.value.Some? then [r.value.value] else []) + Contents()
        && (r.value.None? ==> old(Contents()) == [])
    {
      if failed {
        return Err(Poisoned);
      }
      r := Ok(peeked);
      if source == [] {
        peeked := None;
      } else {
        peeked, source := Some(source[0]), source[1..];
      }
    }

    /** `read_until`: everything up to `time` that is not behind a later entry, and the time of what follows. */
    method ReadUntil(time: int) returns (r: Result<(seq<LogEntry>, Option<int>), ReadError>)
      requires Valid()
      modifies this`source, this`peeked
      ensures Valid()
      ensures failed ==> r == Err(Poisoned) && Contents() == old(Contents())
      ensures !failed ==>
        && r.Ok? && r.value.0 == Due(old(Contents()), time) && old(Contents()) == r.value.0 + Contents()
        && r.value.1 == if Contents() == [] then None else Some(Contents()[0].time)
    {
      if failed {
        return Err(Poisoned);
      }
      var batch: seq<LogEntry> := [];
      while peeked.Some? && peeked.value.time <= time
        invariant Valid() && old(Contents()) == batch + Contents()
        invariant Due(old(Contents()), time) == batch + Due(Contents(), time)
        decreases |Contents()|
      {
        ghost var before, done := Contents(), batch;
        var next := NextEntry();
        assert before == [next.value.value] + Contents();
        assert before[1..] == Contents();
        ConcatAssociates(done, [next.value.value], Contents());
        ConcatAssociates(done, [next.value.value], Due(Contents(), time));
        batch := batch + [next.value.value];
      }
      assert batch + [] == batch;
      return Ok((batch, if peeked.Some? then Some(peeked.value.time) else None));
    }
  }

  /**
   `from_reader`: for every batch size of at least one the stream is the stable sort by time
   of the messages, whether the input was already sorted or went through the hierarchy of runs.
   */
  method FromReader(rows: seq<Row>, batch: nat) returns (r: Result<Reader, ReadError>)
    ensures batch == 0 ==> r == Err(BadBatchSize)
    ensures batch > 0 && Load(rows).Err? ==> r == Err(Load(rows).error)
    ensures batch > 0 && Load(rows).Ok? ==>
      && r.Ok? && fresh(r.value) && r.value.Valid() && !r.value.failed
      && r.value.Contents() == SortBy(Load(rows).value.entries, EntryTime)
      && r.value.channels == Load(rows).value.channels && r.value.artifacts == Load(rows).value.artifacts
  {
    if batch == 0 {
      return Err(BadBatchSize);
    }
    var loaded := Loaded([], {}, map[]);
    var sorted, previous := true, None;
    for n := 0 to |rows|
      invariant Load(rows[..n]) == Ok(loaded)
      invariant previous == if loaded.entries == [] then None else Some(loaded.entries[|loaded.entries| - 1].time)
      invariant sorted <==> SortedBy(loaded.entries, EntryTime)
    {
      assert rows[..n + 1][..n] == rows[..n];
      var next := LoadRow(loaded, rows[n], n + 1);
      if next.Err? {
        LoadFails(rows, n + 1);
        return Err(next.error);
      }
      match rows[n] {
        case Message(e) =>
          AppendSorts(loaded.entries, e);
          sorted := sorted && (previous.None? || previous.value <= e.time);
          previous := Some(e.time);
        case _ =>
      }
      loaded := next.value;
    }
    assert rows[..|rows|] == rows;
    var stream := [];
    if loaded.entries != [] {
      if sorted {
        SortedStays(loaded.entries, EntryTime);
        stream := loaded.entries;
      } else {
        var run := SortRun(Snapshot(loaded.entries), batch);
        SortForgetsPositions(Snapshot(loaded.entries));
        assert Entries(Snapshot(loaded.entries)) == loaded.entries;
        stream := Entries(run.value);
      }
    }
    var reader := new Reader(stream, loaded.channels, loaded.artifacts);
    return Ok(reader);
  }

  lemma {:induction false} AppendSorts(entries: seq<LogEntry>, e: LogEntry)
    ensures SortedBy(entries + [e], EntryTime) <==>
      SortedBy(entries, EntryTime) && (entries == [] || entries[|entries| - 1].time <= e.time)
  {
    var all := entries + [e];
    if SortedBy(all, EntryTime) {
      forall i, j | 0 <= i < j < |entries| ensures EntryTime(entries[i]) <= EntryTime(entries[j]) {
        assert EntryTime(all[i]) <= EntryTime(all[j]);
      }
      assert entries != [] ==> EntryTime(all[|entries| - 1]) <= EntryTime(all[|entries|]);
    }
  }

  /** The first invalid entry. */
  function FirstProblem(entries: seq<LogEntry>): Option<ReadError> {
    if entries == [] then None
    else if FirstProblem(entries[..|entries| - 1]).Some? then FirstProblem(entries[..|entries| - 1])
    else Problem(entries[|entries| - 1])
  }

  lemma {:induction false} ProblemStays(entries: seq<LogEntry>, n: nat)
    requires n <= |entries| && FirstProblem(entries[..n]).Some?
    ensures FirstProblem(entries) == FirstProblem(entries[..n])
  {
    if n == |entries| {
      assert entries[..n] == entries;
    } else {
      assert entries[..|entries| - 1][..n] == entries[..n];
      ProblemStays(entries[..|entries| - 1], n);
    }
  }

  /** Looks for an artifact that is not JSON, in no particular order. */
  method BadArtifact(artifacts: map<string, string>, json: string -> bool) returns (r: Option<string>)
    ensures r.None? <==> forall name :: name in artifacts ==> json(artifacts[name])
    ensures r.Some? ==> r.value in artifacts && !json(artifacts[r.value])
  {
    var names := artifacts.Keys;
    while names != {}
      invariant names <= artifacts.Keys
      invariant forall name :: name in artifacts && name !in names ==> json(artifacts[name])
      decreases |names|
    {
      var name :| name in names;
      if !json(artifacts[name]) {
        return Some(name);
      }
      names := names - {name};
    }
    return None;
  }

  /** `from_entries`: the in-memory stable sort by time. Which texts are JSON is left open. */
  method FromEntries(entries: seq<LogEntry>, artifacts: map<string, string>, json: string -> bool)
    returns (r: Result<Reader, ReadError>)
    ensures FirstProblem(entries).Some? ==> r == Err(FirstProblem(entries).value)
    ensures FirstProblem(entries).None? ==>
      (r.Ok? <==> forall name :: name in artifacts ==> json(artifacts[name]))
    ensures FirstProblem(entries).None? && r.Err? ==>
      r.error.InvalidArtifact? && r.error.name in artifacts && !json(artifacts[r.error.name])
    ensures r.Ok? ==>
      && fresh(r.value) && r.value.Valid() && !r.value.failed
      && r.value.Contents() == SortBy(entries, EntryTime)
      && r.value.channels == (set e | e in entries :: e.channel) && r.value.artifacts == artifacts
  {
    var channels := {};
    for n := 0 to |entries|
      invariant FirstProblem(entries[..n]).None?
      invariant channels == set e | e in entries[..n] :: e.channel
    {
      assert entries[..n + 1] == entries[..n] + [entries[n]];
      assert entries[..n + 1][..n] == entries[..n];
      if Problem(entries[n]).Some? {
        ProblemStays(entries, n + 1);
        return Err(Problem(entries[n]).value);
      }
      channels := channels + {entries[n].channel};
    }
    assert entries[..|entries|] == entries;
    var bad := BadArtifact(artifacts, json);
    if bad.Some? {
      return Err(InvalidArtifact(bad.value));
    }
    var reader := new Reader(SortBy(entries, EntryTime), channels, artifacts);
    return Ok(reader);
  }

  // ---------------------------------------------------------------- successive reads

  /** On a sorted stream the due entries are exactly those up to the time. */
  lemma {:induction false} DueMeans(entries: seq<LogEntry>, time: int)
    requires SortedBy(entries, EntryTime)
    ensures var due := Due(entries, time);
      && |due| <= |entries| && due == entries[..|due|]
      && (forall k :: 0 <= k < |due| ==> entries[k].time <= time)
      && (forall k :: |due| <= k < |entries| ==> entries[k].time > time)
  {
    if entries != [] {
      if entries[0].time > time {
        forall k | 0 <= k < |entries| ensures entries[k].time > time {
          assert k > 0 ==> EntryTime(entries[0]) <= EntryTime(entries[k]);
        }
      } else {
        var rest := entries[1..];
        forall i, j | 0 <= i < j < |rest| ensures EntryTime(rest[i]) <= EntryTime(rest[j]) {
          assert EntryTime(entries[i + 1]) <= EntryTime(entries[j + 1]);
        }
        DueMeans(rest, time);
        var due := Due(rest, time);
        assert entries == [entries[0]] + rest;
        assert Due(entries, time) == [entries[0]] + due;
        forall k | 0 <= k < |entries| ensures k < |due| + 1 <==> entries[k].time <= time {
          if k > 0 {
            assert entries[k] == rest[k - 1];
          }
        }
      }
    }
  }

  /** What a sequence of reads up to given times returns, and what it leaves. */
  function Reads(entries: seq<LogEntry>, times: seq<int>): (seq<seq<LogEntry>>, seq<LogEntry>) {
    if times == [] then ([], entries)
    else
      var (batches, rest) := Reads(entries, times[..|times| - 1]);
      var due := Due(rest, times[|times| - 1]);
      (batches + [due], if |due| <= |rest| then rest[|due|..] else [])
  }

  function Flatten(batches: seq<seq<LogEntry>>): seq<LogEntry> {
    if batches == [] then [] else Flatten(batches[..|batches| - 1]) + batches[|batches| - 1]
  }

  lemma {:induction false} ReadsSplit(entries: seq<LogEntry>, times: seq<int>)
    requires SortedBy(entries, EntryTime)
    ensures var (batches, rest) := Reads(entries, times);
      |batches| == |times| && Flatten(batches) + rest == entries && SortedBy(rest, EntryTime)
  {
    if times != [] {
      ReadsSplit(entries, times[..|times| - 1]);
      var (batches, rest) := Reads(entries, times[..|times| - 1]);
      DueMeans(rest, times[|times| - 1]);
      var due := Due(rest, times[|times| - 1]);
      assert (batches + [due])[..|batches|] == batches;
      assert rest == due + rest[|due|..];
      ConcatAssociates(Flatten(batches), due, rest[|due|..]);
    }
  }

  ghost predicate Later(s: seq<LogEntry>, time: int) { forall k :: 0 <= k < |s| ==> s[k].time > time }

  ghost predicate NotLater(s: seq<LogEntry>, time: int) { forall k :: 0 <= k < |s| ==> s[k].time <= time }

  lemma {:induction false} LaterParts(a: seq<LogEntry>, b: seq<LogEntry>, time: int)
    requires Later(a + b, time)
    ensures Later(a, time) && Later(b, time)
  {
    forall k | 0 <= k < |b| ensures b[k].time > time {
      assert b[k] == (a + b)[|a| + k];
    }
    forall k | 0 <= k < |a| ensures a[k].time > time {
      assert a[k] == (a + b)[k];
    }
  }

  /** The last read takes what is due off what the earlier ones left. */
  lemma {:induction false} LastRead(entries: seq<LogEntry>, times: seq<int>, t: int)
    requires SortedBy(entries, EntryTime) && times != [] && t == times[|times| - 1]
    ensures var (batches, rest) := Reads(entries, times[..|times| - 1]);
      var (all, left) := Reads(entries, times);
      var due := Due(rest, t);
      all == batches + [due] && |all| == |times| && rest == due + left && NotLater(due, t) && Later(left, t)
  {
    ReadsSplit(entries, times[..|times| - 1]);
    var rest := Reads(entries, times[..|times| - 1]).1;
    DueMeans(rest, t);
    var due := Due(rest, t);
    assert rest == due + rest[|due|..];
  }

  lemma {:induction false} RestIsLater(entries: seq<LogEntry>, times: seq<int>, k: nat)
    requires SortedBy(entries, EntryTime) && k < |times|
    ensures Later(Reads(entries, times).1, times[k])
  {
    var last := |times| - 1;
    LastRead(entries, times, times[last]);
    if k < last {
      RestIsLater(entries, times[..last], k);
      LaterParts(Due(Reads(entries, times[..last]).1, times[last]), Reads(entries, times).1, times[k]);
    }
  }

  /** The last batch is later than every earlier reading time. */
  lemma {:induction false} LastBatchIsLater(entries: seq<LogEntry>, times: seq<int>, j: nat)
    requires SortedBy(entries, EntryTime) && j + 1 < |times|
    ensures Later(Due(Reads(entries, times[..|times| - 1]).1, times[|times| - 1]), times[j])
  {
    var last := |times| - 1;
    LastRead(entries, times, times[last]);
    RestIsLater(entries, times[..last], j);
    LaterParts(Due(Reads(entries, times[..last]).1, times[last]), Reads(entries, times).1, times[j]);
  }

  lemma {:induction false} BatchIsInWindow(entries: seq<LogEntry>, times: seq<int>, k: nat, j: nat)
    requires SortedBy(entries, EntryTime) && k < |times| == |Reads(entries, times).0|
    ensures NotLater(Reads(entries, times).0[k], times[k])
    ensures j < k ==> Later(Reads(entries, times).0[k], times[j])
  {
    var last := |times| - 1;
    LastRead(entries, times, times[last]);
    if k < last {
      BatchIsInWindow(entries, times[..last], k, j);
    } else if j < k {
      LastBatchIsLater(entries, times, j);
    }
  }

  /** Successive reads partition a sorted stream: nothing is lost, repeated, reordered, early or late. */
  lemma {:induction false} ReadsPartition(entries: seq<LogEntry>, times: seq<int>)
    requires SortedBy(entries, EntryTime)
    ensures var (batches, rest) := Reads(entries, times);
      && |batches| == |times| && Flatten(batches) + rest == entries
      && (forall k :: 0 <= k < |times| ==> NotLater(batches[k], times[k]) && Later(rest, times[k]))
      && (forall j, k :: 0 <= j < k < |times| ==> Later(batches[k], times[j]))
  {
    ReadsSplit(entries, times);
    var (batches, rest) := Reads(entries, times);
    forall k | 0 <= k < |times| ensures NotLater(batches[k], times[k]) && Later(rest, times[k]) {
      RestIsLater(entries, times, k);
      BatchIsInWindow(entries, times, k, k);
    }
    forall j, k | 0 <= j < k < |times| ensures Later(batches[k], times[j]) {
      BatchIsInWindow(entries, times, k, j);
    }
  }
}
