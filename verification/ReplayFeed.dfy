/** The interruptible feed of logged inputs: nothing is lost, repeated or reordered. */
module ReplayFeed {
  import opened Basics
  import opened StableSort
  import opened ExternalSort
  import opened LogStream

  const EXECUTION_LOG_CHANNEL := "execution_log"
  const EVENT_RECORD_CHANNEL := "iox2_event_records"

  /** What the body of a metadata entry decodes to, checked against the recorded descriptor. */
  datatype Metadata =
    | Unreadable
    | Execution(callbackKnown: bool, time: int)
    | Event(time: int, endpoint: Option<string>)   // the one event endpoint of that ordinal, if there is one

  datatype Verdict = Skip | Select | Corrupt

  datatype FeedError = FailedBefore | BadEntry | Refused | Stream(error: ReadError)

  /** What the feed does with an entry. */
  function Judge(e: LogEntry, denied: set<string>, metadata: LogEntry -> Metadata): Verdict {
    if e.channel in denied then Skip
    else if e.channel == EXECUTION_LOG_CHANNEL then
      match metadata(e)
      case Execution(known, time) => if known && time == e.time then Skip else Corrupt
      case _ => Corrupt
    else if e.channel == EVENT_RECORD_CHANNEL then
      match metadata(e)
      case Event(time, Some(channel)) =>
        if time != e.time then Corrupt else if channel in denied then Skip else Select
      case _ => Corrupt
    else Select
  }

  /** The entries that are delivered, in log order. */
  ghost function Selected(log: seq<LogEntry>, denied: set<string>, metadata: LogEntry -> Metadata): seq<LogEntry> {
    if log == [] then []
    else (if Judge(log[0], denied, metadata).Select? then [log[0]] else []) + Selected(log[1..], denied, metadata)
  }

  lemma {:induction false} SelectedInLog(
      log: seq<LogEntry>, denied: set<string>, metadata: LogEntry -> Metadata, time: int)
    requires SortedBy(log, EntryTime) && log != [] && log[0].time >= time
    ensures forall k :: 0 <= k < |Selected(log, denied, metadata)| ==> Selected(log, denied, metadata)[k].time >= time
  {
    if |log| > 1 {
      TailSorts(log);
      assert EntryTime(log[0]) <= EntryTime(log[1]);
      SelectedInLog(log[1..], denied, metadata, time);
    }
  }

  lemma {:induction false} TailSorts(log: seq<LogEntry>)
    requires SortedBy(log, EntryTime) && log != []
    ensures SortedBy(log[1..], EntryTime)
    ensures forall k :: 0 <= k < |log[1..]| ==> log[0].time <= log[1..][k].time
  {
    forall i, j | 0 <= i < j < |log[1..]| ensures EntryTime(log[1..][i]) <= EntryTime(log[1..][j]) {
      assert EntryTime(log[i + 1]) <= EntryTime(log[j + 1]);
    }
    forall k | 0 <= k < |log[1..]| ensures log[0].time <= log[1..][k].time {
      assert EntryTime(log[0]) <= EntryTime(log[k + 1]);
    }
  }

  lemma {:induction false} TakeEntry(
      log: seq<LogEntry>, e: LogEntry, rest: seq<LogEntry>, denied: set<string>, metadata: LogEntry -> Metadata)
    requires log == [e] + rest && SortedBy(log, EntryTime)
    ensures InOrder(Some(e), rest) && InOrder(None, rest)
    ensures Judge(e, denied, metadata).Select? ==> ToCome(None, log, denied, metadata) == ToCome(Some(e), rest, denied, metadata)
    ensures !Judge(e, denied, metadata).Select? ==> ToCome(None, log, denied, metadata) == ToCome(None, rest, denied, metadata)
  {
    TailSorts(log);
    assert log[1..] == rest;
    assert [] + Selected(log, denied, metadata) == Selected(log, denied, metadata);
    assert [] + Selected(rest, denied, metadata) == Selected(rest, denied, metadata);
  }

  /** The pending entry comes before the rest of the log, which is in time order. */
  ghost predicate InOrder(pending: Option<LogEntry>, log: seq<LogEntry>) {
    && SortedBy(log, EntryTime)
    && (pending.Some? ==> forall k :: 0 <= k < |log| ==> pending.value.time <= log[k].time)
  }

  /** What is to be delivered from a pending entry and the rest of the log. */
  ghost function ToCome(
      pending: Option<LogEntry>, log: seq<LogEntry>, denied: set<string>, metadata: LogEntry -> Metadata): seq<LogEntry>
  {
    (if pending.Some? then [pending.value] else []) + Selected(log, denied, metadata)
  }

  /** Once the pending entry is later than `time`, or nothing is left, everything due has been delivered. */
  lemma {:induction false} NothingDue(
      pending: Option<LogEntry>, log: seq<LogEntry>, denied: set<string>, metadata: LogEntry -> Metadata, time: int)
    requires InOrder(pending, log) && (if pending.Some? then pending.value.time > time else log == [])
    ensures var rest := ToCome(pending, log, denied, metadata);
      && (forall k :: 0 <= k < |rest| ==> rest[k].time > time)
      && (if pending.Some? then rest != [] && rest[0] == pending.value else rest == [])
  {
    if pending.Some? && log != [] {
      SelectedInLog(log, denied, metadata, pending.value.time);
    }
  }

  class Feed {
    const reader: Reader
    const denied: set<string>
    const metadata: LogEntry -> Metadata
    var pending: Option<LogEntry>
    var exhausted: bool
    var failed: bool
    ghost var injected: seq<LogEntry>

    /** What is still to be delivered. */
    ghost function Remaining(): seq<LogEntry>
      reads this, reader
    {
      ToCome(pending, reader.Contents(), denied, metadata)
    }

    ghost predicate Valid()
      reads this, reader
    {
      && reader.Valid() && !reader.failed && InOrder(pending, reader.Contents())
      && (exhausted ==> reader.Contents() == [] && pending.None?)
    }

    constructor (source: Reader, refuse: set<string>, decode: LogEntry -> Metadata)
      requires source.Valid() && !source.failed && SortedBy(source.Contents(), EntryTime)
      ensures Valid() && !failed && pending.None? && !exhausted && injected == []
      ensures reader == source && denied == refuse && metadata == decode
      ensures Remaining() == Selected(source.Contents(), refuse, decode)
    {
      reader, denied, metadata := source, refuse, decode;
      pending, exhausted, failed, injected := None, false, false, [];
      new;
      assert [] + Selected(source.Contents(), refuse, decode) == Selected(source.Contents(), refuse, decode);
    }

    /** `advance`: skips to the next selected entry, unless interrupted or at the end. */
    method Advance(running: nat -> bool, tick: nat) returns (r: Result<(), FeedError>, tick': nat)
      requires Valid() && pending.None? && !exhausted
      modifies this`pending, this`exhausted, reader
      ensures r.Err? ==> r.error == BadEntry
      ensures r.Ok? ==> Valid() && Remaining() == old(Remaining())
      ensures r.Ok? && (forall k :: running(k)) ==> pending.Some? || exhausted
    {
      tick' := tick;
      while running(tick')
        invariant Valid() && pending.None? && !exhausted
        invariant Remaining() == old(Remaining())
        decreases |reader.Contents()|
      {
        tick' := tick' + 1;
        ghost var before := reader.Contents();
        var next := reader.NextEntry();
        if next.value.None? {
          exhausted := true;
          return Ok(()), tick';
        }
        var e := next.value.value;
        TakeEntry(before, e, reader.Contents(), denied, metadata);
        match Judge(e, denied, metadata) {
          case Skip =>
          case Corrupt => return Err(BadEntry), tick';
          case Select =>
            pending := Some(e);
            return Ok(()), tick';
        }
      }
      return Ok(()), tick';
    }

    /** Delivers the pending entry and moves on to the next. */
    method Deliver(inject: LogEntry -> bool, running: nat -> bool, tick: nat) returns (r: Result<(), FeedError>, tick': nat)
      requires Valid() && pending.Some?
      modifies this`pending, this`exhausted, this`injected, reader
      ensures injected == old(injected) + (if r == Err(Refused) then [] else [old(pending).value])
      ensures r.Ok? ==> Valid() && [old(pending).value] + Remaining() == old(Remaining())
      ensures r.Ok? && (forall k :: running(k)) ==> pending.Some? || exhausted
    {
      var e := pending.value;
      ghost var rest := Selected(reader.Contents(), denied, metadata);
      pending := None;
      if !inject(e) {
        assert injected + [] == injected;
        return Err(Refused), tick;
      }
      injected := injected + [e];
      assert [] + rest == rest;
      r, tick' := Advance(running, tick);
    }

    /** Delivers pending entries as long as they are due and the feed is not interrupted. */
    method DeliverDue(time: int, inject: LogEntry -> bool, running: nat -> bool, start: nat) returns (r: Result<(), FeedError>)
      requires Valid()
      modifies this`pending, this`exhausted, this`injected, reader
      ensures r.Ok? ==> Valid() && injected + Remaining() == old(injected + Remaining())
      ensures injected <= old(injected + Remaining()) && |old(injected)| <= |injected|
      ensures forall k :: |old(injected)| <= k < |injected| ==> injected[k].time <= time
      ensures r.Ok? && (forall k :: running(k)) && old(pending.Some? || exhausted) ==>
        if pending.Some? then pending.value.time > time else exhausted
    {
      ghost var all := injected + Remaining();
      var tick := start;
      while pending.Some? && pending.value.time <= time && running(tick)
        invariant Valid() && injected + Remaining() == all && |old(injected)| <= |injected|
        invariant forall k :: |old(injected)| <= k < |injected| ==> injected[k].time <= time
        invariant (forall k :: running(k)) && old(pending.Some? || exhausted) ==> pending.Some? || exhausted
        decreases |Remaining()|
      {
        ghost var e, done := pending.value, injected;
        r, tick := Deliver(inject, running, tick + 1);
        if r.Err? {
          return;
        }
        ConcatAssociates(done, [e], Remaining());
      }
      return Ok(());
    }

    /**
     `inject_due_while`. What has been delivered is always a prefix of the selected log. A call
     that is not interrupted delivers everything due, and tells when the next entry is due.
     */
    method InjectDueWhile(time: int, inject: LogEntry -> bool, running: nat -> bool)
      returns (r: Result<Option<int>, FeedError>)
      requires failed || Valid()
      modifies this`pending, this`exhausted, this`failed, this`injected, reader
      ensures old(failed) ==> r == Err(FailedBefore) && injected == old(injected)
      ensures !old(failed) ==>
        && (failed <==> r.Err?) && (r.Ok? ==> Valid() && injected + Remaining() == old(injected + Remaining()))
      ensures !old(failed) ==> injected <= old(injected + Remaining()) && |old(injected)| <= |injected|
      ensures forall k :: |old(injected)| <= k < |injected| ==> injected[k].time <= time
      ensures r.Ok? && (forall k :: running(k)) ==>
        && (forall k :: 0 <= k < |Remaining()| ==> Remaining()[k].time > time)
        && (exhausted <==> Remaining() == [])
        && r.value == if Remaining() == [] then None else Some(Remaining()[0].time)
    {
      if failed {
        return Err(FailedBefore);
      }
      var tick := 0;
      var done := Ok(());
      if pending.None? && !exhausted {
        done, tick := Advance(running, tick);
      }
      if done.Ok? {
        done := DeliverDue(time, inject, running, tick);
      }
      if done.Err? {
        failed := true;
        return Err(done.error);
      }
      if if pending.Some? then pending.value.time > time else exhausted {
        NothingDue(pending, reader.Contents(), denied, metadata, time);
      }
      return Ok(if pending.Some? then Some(pending.value.time) else None);
    }
  }

  /** `new`: a feed that has looked for its first entry. */
  method NewFeed(source: Reader, refuse: set<string>, decode: LogEntry -> Metadata) returns (r: Result<Feed, FeedError>)
    requires source.Valid() && !source.failed && SortedBy(source.Contents(), EntryTime)
    modifies source
    ensures r.Ok? ==>
      && fresh(r.value) && r.value.reader == source && r.value.Valid() && !r.value.failed && r.value.injected == []
      && r.value.Remaining() == Selected(old(source.Contents()), refuse, decode)
      && (r.value.pending.Some? || r.value.exhausted)
  {
    var feed := new Feed(source, refuse, decode);
    var advanced, tick := feed.Advance(_ => true, 0);
    if advanced.Err? {
      return Err(advanced.error);
    }
    return Ok(feed);
  }
}
