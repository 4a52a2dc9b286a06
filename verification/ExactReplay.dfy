/** Re-running recorded executions and comparing what they publish: when a report may call a replay exact. */
module ExactReplay {
  import opened Basics
  import opened StableSort
  import opened ExecutionRecorder
  import opened ReplayLog

  // ---------------------------------------------------------------- the report

  datatype ChannelStats = ChannelStats(logged: nat, reproduced: nat, mismatches: nat, gaps: nat)

  predicate ExactStats(s: ChannelStats) { s.mismatches == 0 && s.gaps == 0 }

  predicate AllExact(channels: map<string, ChannelStats>) {
    forall c :: c in channels ==> ExactStats(channels[c])
  }

  class Report {
    const total: nat
    var consumed: nat
    var errors: nat
    var channels: map<string, ChannelStats>

    constructor (executions: nat)
      ensures total == executions && consumed == 0 && errors == 0 && channels == map[]
    {
      total, consumed, errors, channels := executions, 0, 0, map[];
    }

    function Stats(channel: string): ChannelStats
      reads this
    {
      if channel in channels then channels[channel] else ChannelStats(0, 0, 0, 0)
    }

    /** No channel has a gap or a mismatch. */
    predicate Clean()
      reads this`channels
    {
      AllExact(channels)
    }

    /** `is_exact`. */
    predicate IsExact()
      reads this
    {
      consumed == total && errors == 0 && Clean()
    }

    method MarkConsumed()
      modifies this`consumed
      ensures consumed == old(consumed) + 1
    {
      consumed := consumed + 1;
    }

    method RecordLogged(channel: string)
      modifies this`channels
      ensures channels == old(channels)[channel := old(Stats(channel)).(logged := old(Stats(channel)).logged + 1)]
      ensures Clean() == old(Clean())
    {
      var s := Stats(channel);
      SameCleanness(channels, channel, s.(logged := s.logged + 1));
      channels := channels[channel := s.(logged := s.logged + 1)];
    }

    method RecordReproduced(channel: string)
      modifies this`channels
      ensures channels == old(channels)[channel := old(Stats(channel)).(reproduced := old(Stats(channel)).reproduced + 1)]
      ensures Clean() == old(Clean())
    {
      var s := Stats(channel);
      SameCleanness(channels, channel, s.(reproduced := s.reproduced + 1));
      channels := channels[channel := s.(reproduced := s.reproduced + 1)];
    }

    method RecordGap(channel: string)
      modifies this`channels
      ensures channels == old(channels)[channel := old(Stats(channel)).(gaps := old(Stats(channel)).gaps + 1)]
      ensures !Clean()
    {
      var s := Stats(channel);
      channels := channels[channel := s.(gaps := s.gaps + 1)];
      assert channel in channels;
    }

    method RecordMismatch(channel: string)
      modifies this`channels
      ensures channels == old(channels)[channel := old(Stats(channel)).(mismatches := old(Stats(channel)).mismatches + 1)]
      ensures !Clean()
    {
      var s := Stats(channel);
      channels := channels[channel := s.(mismatches := s.mismatches + 1)];
      assert channel in channels;
    }

    method RecordError()
      modifies this`errors
      ensures errors == old(errors) + 1
    {
      errors := errors + 1;
    }
  }

  lemma {:induction false} SameCleanness(channels: map<string, ChannelStats>, channel: string, s: ChannelStats)
    requires ExactStats(s) <==> (channel in channels ==> ExactStats(channels[channel]))
    ensures AllExact(channels[channel := s]) <==> AllExact(channels)
  {
    var updated := channels[channel := s];
    if AllExact(updated) {
      forall c | c in channels ensures ExactStats(channels[c]) {
        assert c in updated;
      }
    }
  }

  // ---------------------------------------------------------------- what is replayed

  datatype EventEntry = EventEntry(ordinal: nat, id: nat, count: nat)

  datatype Execution = Execution(record: Record, events: seq<EventEntry>, outputEvents: seq<EventEntry>)

  datatype Captured = Captured(header: Header, body: string)

  datatype BodyResult = Completes | Errs | Panicked

  /** What the callback does when it is run again. */
  datatype Attempt = Attempt(
    resets: bool, injects: nat -> bool, stages: bool,
    prepared: Option<seq<Logged>>, preparedEvents: seq<EventEntry>, body: BodyResult,
    outputEvents: seq<EventEntry>, captured: nat -> Option<seq<Captured>>, caches: Identity -> bool)

  datatype Policy = Strict | BestEffort

  datatype ReplayError = Gap(channel: string) | Divergence | CallbackFailed | Poisoned

  /** The recorded log and the layout of the graph that replays it. */
  datatype Recording = Recording(
    callbacks: Callbacks, executions: seq<Execution>, logged: set<string>, payloads: map<Identity, string>,
    current: (nat, nat) -> nat)

  function HeadersOf(messages: seq<Logged>, ordinal: nat): seq<Header> {
    if messages == [] then []
    else
      var last := messages[|messages| - 1];
      HeadersOf(messages[..|messages| - 1], ordinal) + if last.ordinal == ordinal then [last.header] else []
  }

  /** The same headers in the same order, input by input. */
  ghost predicate SameSnapshot(a: seq<Logged>, b: seq<Logged>) {
    forall ordinal :: HeadersOf(a, ordinal) == HeadersOf(b, ordinal)
  }

  function ChannelOf(rec: Recording, callback: nat, direction: Direction, ordinal: nat): string {
    var e := Find(rec.callbacks, callback, direction, ordinal);
    if e.Some? then e.value.channel else ""
  }

  function InputIdentity(rec: Recording, record: Record, m: Logged): Identity {
    (ChannelOf(rec, record.callback, Received, m.ordinal), m.header)
  }

  /** The payload of a recorded input: from the log if its channel was logged, else from this replay. */
  function Payload(rec: Recording, id: Identity, reproduced: map<Identity, string>): Option<string> {
    var source := if id.0 in rec.logged then rec.payloads else reproduced;
    if id in source then Some(source[id]) else None
  }

  ghost predicate InputsResolve(rec: Recording, x: Execution, a: Attempt, reproduced: map<Identity, string>, n: nat)
    requires n <= |x.record.inputs|
  {
    forall i :: 0 <= i < n ==> Payload(rec, InputIdentity(rec, x.record, x.record.inputs[i]), reproduced).Some? && a.injects(i)
  }

  /** Up to the run of the body: nothing truncated, every input resolved, the same snapshot as recorded. */
  ghost predicate SameInputs(rec: Recording, x: Execution, a: Attempt, reproduced: map<Identity, string>) {
    && x.record.truncated == 0 && a.resets && InputsResolve(rec, x, a, reproduced, |x.record.inputs|) && a.stages
    && a.prepared.Some? && SameSnapshot(a.prepared.value, x.record.inputs) && a.preparedEvents == x.events
  }

  function DataOutputs(endpoints: seq<Endpoint>): seq<Endpoint> {
    if endpoints == [] then []
    else
      var e := endpoints[|endpoints| - 1];
      DataOutputs(endpoints[..|endpoints| - 1]) + if e.direction.Published? && !e.transport.Iox2Event? then [e] else []
  }

  function EndpointsOf(rec: Recording, callback: nat): seq<Endpoint> {
    if callback < |rec.callbacks| then DataOutputs(rec.callbacks[callback]) else []
  }

  function Recorded(e: Endpoint): nat { if e.publisherIndex.Some? then e.publisherIndex.value else 0 }

  /** Captured headers in terms of the recorded publisher indices. */
  function Translated(actual: seq<Captured>, recorded: nat): (r: seq<Captured>)
    ensures |r| == |actual|
    ensures forall k :: 0 <= k < |actual| ==>
      r[k] == Captured(actual[k].header.(publisherIndex := recorded), actual[k].body)
  {
    seq(|actual|, k requires 0 <= k < |actual| =>
      Captured(actual[k].header.(publisherIndex := recorded), actual[k].body))
  }

  ghost predicate Attributed(actual: seq<Captured>, current: nat) {
    forall k :: 0 <= k < |actual| ==> actual[k].header.publisherIndex == current
  }

  /** Output `p` is the one recorded and, on a logged channel, has the logged body. */
  predicate SameOutput(rec: Recording, channel: string, expected: Header, actual: Captured) {
    && actual.header == expected
    && (channel in rec.logged ==> (channel, expected) in rec.payloads && rec.payloads[(channel, expected)] == actual.body)
  }

  ghost predicate SameOutputs(rec: Recording, channel: string, expected: seq<Header>, actual: seq<Captured>) {
    |actual| == |expected| && forall p :: 0 <= p < |expected| ==> SameOutput(rec, channel, expected[p], actual[p])
  }

  /** What replay has published on channels that were not logged. */
  function Store(
      rec: Recording, channel: string, actual: seq<Captured>, reproduced: map<Identity, string>): map<Identity, string>
  {
    if channel in rec.logged || actual == [] then reproduced
    else
      var last := actual[|actual| - 1];
      Store(rec, channel, actual[..|actual| - 1], reproduced)[(channel, last.header) := last.body]
  }

  /** Every reproduced publication is new and its source cache takes it. */
  ghost predicate Storable(
      rec: Recording, a: Attempt, channel: string, actual: seq<Captured>, reproduced: map<Identity, string>, n: nat)
    requires n <= |actual|
  {
    channel !in rec.logged ==> forall k :: 0 <= k < n ==> StorableAt(rec, a, channel, actual, reproduced, k)
  }

  ghost predicate StorableAt(
      rec: Recording, a: Attempt, channel: string, actual: seq<Captured>, reproduced: map<Identity, string>, k: nat)
    requires k < |actual|
  {
    (channel, actual[k].header) !in Store(rec, channel, actual[..k], reproduced) && a.caches((channel, actual[k].header))
  }

  /** One output endpoint reproduced what was recorded for it. */
  ghost predicate EndpointMatches(
      rec: Recording, x: Execution, a: Attempt, e: Endpoint, reproduced: map<Identity, string>)
  {
    && a.captured(e.ordinal).Some?
    && var actual := a.captured(e.ordinal).value;
      var translated := Translated(actual, Recorded(e));
      && Attributed(actual, rec.current(x.record.callback, e.ordinal))
      && SameOutputs(rec, e.channel, HeadersOf(x.record.outputs, e.ordinal), translated)
      && Storable(rec, a, e.channel, translated, reproduced, |translated|)
  }

  ghost function StoreEndpoint(
      rec: Recording, a: Attempt, e: Endpoint, reproduced: map<Identity, string>): map<Identity, string>
  {
    if a.captured(e.ordinal).Some? then
      Store(rec, e.channel, Translated(a.captured(e.ordinal).value, Recorded(e)), reproduced)
    else reproduced
  }

  ghost function StoreEndpoints(
      rec: Recording, a: Attempt, endpoints: seq<Endpoint>, reproduced: map<Identity, string>): map<Identity, string>
  {
    if endpoints == [] then reproduced
    else StoreEndpoint(rec, a, endpoints[|endpoints| - 1], StoreEndpoints(rec, a, endpoints[..|endpoints| - 1], reproduced))
  }

  ghost predicate EndpointsMatch(
      rec: Recording, x: Execution, a: Attempt, endpoints: seq<Endpoint>, reproduced: map<Identity, string>)
  {
    endpoints != [] ==>
      && EndpointsMatch(rec, x, a, endpoints[..|endpoints| - 1], reproduced)
      && EndpointMatches(rec, x, a, endpoints[|endpoints| - 1], StoreEndpoints(rec, a, endpoints[..|endpoints| - 1], reproduced))
  }

  /** The recorded execution was reproduced: same inputs, same output events, same outputs one for one. */
  ghost predicate Matches(rec: Recording, x: Execution, a: Attempt, reproduced: map<Identity, string>) {
    && SameInputs(rec, x, a, reproduced) && a.body.Completes? && a.outputEvents == x.outputEvents
    && EndpointsMatch(rec, x, a, EndpointsOf(rec, x.record.callback), reproduced)
  }

  /** What has been reproduced after the first `n` executions, if all of them matched. */
  ghost function ReproducedAfter(rec: Recording, attempts: nat -> Attempt, n: nat): map<Identity, string>
    requires n <= |rec.executions|
  {
    if n == 0 then map[]
    else StoreEndpoints(rec, attempts(n - 1), EndpointsOf(rec, rec.executions[n - 1].record.callback),
                        ReproducedAfter(rec, attempts, n - 1))
  }

  /** Execution `k` matches, given what the earlier ones reproduced. */
  ghost predicate MatchesAt(rec: Recording, attempts: nat -> Attempt, k: nat)
    requires k < |rec.executions|
  {
    Matches(rec, rec.executions[k], attempts(k), ReproducedAfter(rec, attempts, k))
  }

  /** The first `n` executions all matched. */
  ghost predicate Faithful(rec: Recording, attempts: nat -> Attempt, n: nat)
    requires n <= |rec.executions|
  {
    n > 0 ==> Faithful(rec, attempts, n - 1) && MatchesAt(rec, attempts, n - 1)
  }

  lemma {:induction false} FaithfulMeansMatches(rec: Recording, attempts: nat -> Attempt, n: nat, k: nat)
    requires k < n <= |rec.executions| && Faithful(rec, attempts, n)
    ensures MatchesAt(rec, attempts, k)
  {
    if k < n - 1 {
      FaithfulMeansMatches(rec, attempts, n - 1, k);
    }
  }

  /** One output endpoint: the captured messages, in terms of recorded publisher indices, are the recorded ones. */
  ghost predicate Reproduces(rec: Recording, x: Execution, a: Attempt, e: Endpoint) {
    && a.captured(e.ordinal).Some?
    && Attributed(a.captured(e.ordinal).value, rec.current(x.record.callback, e.ordinal))
    && SameOutputs(rec, e.channel, HeadersOf(x.record.outputs, e.ordinal), Translated(a.captured(e.ordinal).value, Recorded(e)))
  }

  lemma {:induction false} EveryEndpointReproduces(
      rec: Recording, x: Execution, a: Attempt, endpoints: seq<Endpoint>, reproduced: map<Identity, string>, j: nat)
    requires j < |endpoints| && EndpointsMatch(rec, x, a, endpoints, reproduced)
    ensures Reproduces(rec, x, a, endpoints[j])
  {
    if j < |endpoints| - 1 {
      EveryEndpointReproduces(rec, x, a, endpoints[..|endpoints| - 1], reproduced, j);
    }
  }

  /** What a faithful replay says about each record and each of its outputs. */
  lemma {:induction false} FaithfulReproduces(rec: Recording, attempts: nat -> Attempt, n: nat, k: nat, j: nat)
    requires k < n <= |rec.executions| && Faithful(rec, attempts, n)
    ensures var x, a := rec.executions[k], attempts(k);
      && x.record.truncated == 0 && a.prepared.Some? && SameSnapshot(a.prepared.value, x.record.inputs)
      && a.preparedEvents == x.events && a.outputEvents == x.outputEvents
      && (j < |EndpointsOf(rec, x.record.callback)| ==> Reproduces(rec, x, a, EndpointsOf(rec, x.record.callback)[j]))
  {
    FaithfulMeansMatches(rec, attempts, n, k);
    var x, a := rec.executions[k], attempts(k);
    if j < |EndpointsOf(rec, x.record.callback)| {
      EveryEndpointReproduces(rec, x, a, EndpointsOf(rec, x.record.callback), ReproducedAfter(rec, attempts, k), j);
    }
  }

  // ---------------------------------------------------------------- the executor

  /** What a report holds against the replay so far. */
  datatype Tally = Tally(errors: nat, clean: bool)

  /** An error is recorded unless `good`; under Strict an error ends the replay. */
  ghost predicate Counted(before: Tally, after: Tally, policy: Policy, r: Result<(), ReplayError>, good: bool) {
    && before.errors <= after.errors
    && ((r.Ok? && after.errors == before.errors) <==> good)
    && (after.errors == before.errors ==> after.clean == before.clean)
    && (policy.Strict? && r.Ok? ==> after.errors == before.errors)
    && (r.Err? && r.error != CallbackFailed ==> after.errors > before.errors)
  }

  /** An error count of zero means that everything consumed so far was reproduced, and conversely. */
  ghost predicate Sound(rec: Recording, attempts: nat -> Attempt, n: nat, tally: Tally,
                        reproduced: map<Identity, string>, policy: Policy, failed: bool)
    requires n <= |rec.executions|
  {
    && (tally.errors == 0 <==> Faithful(rec, attempts, n))
    && (tally.errors == 0 ==> tally.clean && !failed && reproduced == ReproducedAfter(rec, attempts, n))
    && (policy.Strict? && !failed ==> tally.errors == 0)
  }

  /** `step` counts a failure of the callback, which `execute` leaves uncounted. */
  ghost function Settled(tally: Tally, r: Result<(), ReplayError>): Tally {
    if r == Err(CallbackFailed) then tally.(errors := tally.errors + 1) else tally
  }

  /** A counted execution keeps the report sound; a failure of the callback adds one more error. */
  lemma {:induction false} StaysSound(
      rec: Recording, attempts: nat -> Attempt, n: nat, before: Tally, reproduced: map<Identity, string>,
      policy: Policy, r: Result<(), ReplayError>, after: Tally, reproduced': map<Identity, string>)
    requires n < |rec.executions| && Sound(rec, attempts, n, before, reproduced, policy, false)
    requires Counted(before, after, policy, r, Matches(rec, rec.executions[n], attempts(n), reproduced))
    requires r.Ok? && after.errors == before.errors ==>
      reproduced' == StoreEndpoints(rec, attempts(n), EndpointsOf(rec, rec.executions[n].record.callback), reproduced)
    ensures Sound(rec, attempts, n + 1, Settled(after, r), reproduced', policy, r.Err?)
  {
  }

  class Executor {
    const rec: Recording
    const policy: Policy
    const attempts: nat -> Attempt
    const report: Report
    var reproduced: map<Identity, string>
    var cursor: nat
    var failed: bool

    constructor (recording: Recording, p: Policy, a: nat -> Attempt)
      ensures fresh(report) && Valid() && rec == recording && policy == p && attempts == a && cursor == 0 && !failed
    {
      rec, policy, attempts := recording, p, a;
      report := new Report(|recording.executions|);
      reproduced, cursor, failed := map[], 0, false;
    }

    ghost predicate Valid()
      reads this, report
    {
      && report.total == |rec.executions| && report.consumed == cursor <= |rec.executions|
      && Sound(rec, attempts, cursor, Now(), reproduced, policy, failed)
    }

    ghost function Now(): Tally
      reads report`errors, report`channels
    {
      Tally(report.errors, report.Clean())
    }

    method NoteGap(channel: string) returns (r: Result<(), ReplayError>)
      modifies report`channels, report`errors
      ensures report.errors == old(report.errors) + 1 && r == if policy.Strict? then Err(Gap(channel)) else Ok(())
    {
      report.RecordGap(channel);
      report.RecordError();
      return if policy.Strict? then Err(Gap(channel)) else Ok(());
    }

    method NoteMismatch(channel: string) returns (r: Result<(), ReplayError>)
      modifies report`channels, report`errors
      ensures report.errors == old(report.errors) + 1 && r == if policy.Strict? then Err(Divergence) else Ok(())
    {
      report.RecordMismatch(channel);
      report.RecordError();
      return if policy.Strict? then Err(Divergence) else Ok(());
    }

    /** One recorded output against what was captured in its place. */
    method CompareOutput(channel: string, expected: Header, actual: Option<Captured>) returns (r: Result<(), ReplayError>)
      modifies report`channels, report`errors
      ensures Counted(old(Now()), Now(), policy, r, actual.Some? && SameOutput(rec, channel, expected, actual.value))
    {
      var body := None;
      if channel in rec.logged {
        if (channel, expected) in rec.payloads {
          report.RecordLogged(channel);
          body := Some(rec.payloads[(channel, expected)]);
        } else {
          r := NoteGap(channel);
          if r.Err? {
            return;
          }
        }
      } else if actual.Some? {
        report.RecordReproduced(channel);
      } else {
        report.RecordGap(channel);
      }
      if actual.None? || actual.value.header != expected || (body.Some? && body.value != actual.value.body) {
        r := NoteMismatch(channel);
      } else {
        r := Ok(());
      }
    }

    /** The outputs of one endpoint, position by position, then those nobody expected. */
    method CompareOutputs(channel: string, expected: seq<Header>, actual: seq<Captured>) returns (r: Result<(), ReplayError>)
      modifies report`channels, report`errors
      ensures Counted(old(Now()), Now(), policy, r, SameOutputs(rec, channel, expected, actual))
    {
      ghost var same := true;
      for p := 0 to |expected|
        invariant Counted(old(Now()), Now(), policy, Ok(()), same)
        invariant same <==> |actual| >= p && forall q :: 0 <= q < p ==> SameOutput(rec, channel, expected[q], actual[q])
      {
        r := CompareOutput(channel, expected[p], if p < |actual| then Some(actual[p]) else None);
        if r.Err? {
          return;
        }
        same := same && p < |actual| && SameOutput(rec, channel, expected[p], actual[p]);
      }
      for p := |expected| to Max(|expected|, |actual|)
        invariant Counted(old(Now()), Now(), policy, Ok(()), same && p == |expected|)
      {
        r := NoteMismatch(channel);
        if r.Err? {
          return;
        }
      }
      return Ok(());
    }

    /** Keeps what was published on a channel that was not logged, for later inputs and source caches. */
    method StoreOutputs(a: Attempt, channel: string, actual: seq<Captured>) returns (r: Result<(), ReplayError>)
      modifies this`reproduced
      ensures r.Ok? <==> Storable(rec, a, channel, actual, old(reproduced), |actual|)
      ensures r.Ok? ==> reproduced == Store(rec, channel, actual, old(reproduced))
      ensures r.Err? ==> r.error == CallbackFailed
    {
      if channel in rec.logged {
        return Ok(());
      }
      for k := 0 to |actual|
        invariant reproduced == Store(rec, channel, actual[..k], old(reproduced))
        invariant Storable(rec, a, channel, actual, old(reproduced), k)
      {
        assert actual[..k + 1][..k] == actual[..k];
        var id := (channel, actual[k].header);
        var known := id in reproduced;
        reproduced := reproduced[id := actual[k].body];
        if known || !a.caches(id) {
          assert !StorableAt(rec, a, channel, actual, old(reproduced), k);
          return Err(CallbackFailed);
        }
      }
      assert actual[..|actual|] == actual;
      return Ok(());
    }

    /** One output endpoint: capture, attribution, translation, comparison, storage. */
    method CompareEndpoint(x: Execution, a: Attempt, e: Endpoint) returns (r: Result<(), ReplayError>)
      modifies this`reproduced, report`channels, report`errors
      ensures Counted(old(Now()), Now(), policy, r, EndpointMatches(rec, x, a, e, old(reproduced)))
      ensures r.Ok? && report.errors == old(report.errors) ==> reproduced == StoreEndpoint(rec, a, e, old(reproduced))
    {
      if a.captured(e.ordinal).None? {
        return Err(CallbackFailed);
      }
      var actual := a.captured(e.ordinal).value;
      var current := rec.current(x.record.callback, e.ordinal);
      if exists k :: 0 <= k < |actual| && actual[k].header.publisherIndex != current {
        r := NoteMismatch(e.channel);
        return;
      }
      var translated := Translated(actual, Recorded(e));
      r := CompareOutputs(e.channel, HeadersOf(x.record.outputs, e.ordinal), translated);
      if r.Ok? {
        r := StoreOutputs(a, e.channel, translated);
      }
    }

    method CompareEndpoints(x: Execution, a: Attempt) returns (r: Result<(), ReplayError>)
      modifies this`reproduced, report`channels, report`errors
      ensures var endpoints := EndpointsOf(rec, x.record.callback);
        && Counted(old(Now()), Now(), policy, r, EndpointsMatch(rec, x, a, endpoints, old(reproduced)))
        && (r.Ok? && report.errors == old(report.errors) ==> reproduced == StoreEndpoints(rec, a, endpoints, old(reproduced)))
    {
      var endpoints := EndpointsOf(rec, x.record.callback);
      for k := 0 to |endpoints|
        invariant Counted(old(Now()), Now(), policy, Ok(()), EndpointsMatch(rec, x, a, endpoints[..k], old(reproduced)))
        invariant report.errors == old(report.errors) ==> reproduced == StoreEndpoints(rec, a, endpoints[..k], old(reproduced))
      {
        assert endpoints[..k + 1][..k] == endpoints[..k];
        r := CompareEndpoint(x, a, endpoints[k]);
        if r.Err? {
          MismatchStays(rec, x, a, endpoints, k + 1, old(reproduced));
          return;
        }
      }
      assert endpoints[..|endpoints|] == endpoints;
      return Ok(());
    }

    /** Resolves and injects the recorded inputs; an input that cannot be resolved skips the execution. */
    method Hydrate(x: Execution, a: Attempt) returns (r: Result<(), ReplayError>, skipped: bool)
      modifies report`channels, report`errors
      ensures Counted(old(Now()), Now(), policy, r, InputsResolve(rec, x, a, reproduced, |x.record.inputs|))
      ensures skipped ==> r.Ok? && report.errors > old(report.errors)
      ensures r.Ok? && !skipped ==> InputsResolve(rec, x, a, reproduced, |x.record.inputs|)
    {
      for i := 0 to |x.record.inputs|
        invariant Counted(old(Now()), Now(), policy, Ok(()), true) && InputsResolve(rec, x, a, reproduced, i)
      {
        var id := InputIdentity(rec, x.record, x.record.inputs[i]);
        if Payload(rec, id, reproduced).None? || !a.injects(i) {
          r := NoteGap(id.0);
          return r, r.Ok?;
        }
        if id.0 in rec.logged {
          report.RecordLogged(id.0);
        } else {
          report.RecordReproduced(id.0);
        }
      }
      return Ok(()), false;
    }

    /** Everything before the body: truncation, inputs, events, and the comparison of the prepared snapshot. */
    method Prepare(x: Execution, a: Attempt) returns (r: Result<(), ReplayError>, skipped: bool)
      modifies report`channels, report`errors
      ensures Counted(old(Now()), Now(), policy, r, SameInputs(rec, x, a, reproduced))
      ensures skipped ==> r.Ok? && report.errors > old(report.errors)
      ensures r.Ok? && !skipped ==> SameInputs(rec, x, a, reproduced)
    {
      if x.record.truncated != 0 {
        r := NoteGap("execution_log");
        return r, r.Ok?;
      }
      if !a.resets {
        return Err(CallbackFailed), false;
      }
      r, skipped := Hydrate(x, a);
      if r.Err? || skipped {
        return;
      }
      if !a.stages || a.prepared.None? {
        return Err(CallbackFailed), false;
      }
      var differs := DifferingInput(a.prepared.value, x.record.inputs);
      if differs.Some? {
        r := NoteGap(ChannelOf(rec, x.record.callback, Received, differs.value));
        return r, r.Ok?;
      }
      if a.preparedEvents != x.events {
        return Err(CallbackFailed), false;
      }
    }

    /** `execute`. */
    method Execute(x: Execution, a: Attempt) returns (r: Result<(), ReplayError>, executed: bool)
      modifies this`reproduced, report`channels, report`errors
      ensures Counted(old(Now()), Now(), policy, r, Matches(rec, x, a, old(reproduced)))
      ensures r.Ok? && report.errors == old(report.errors) ==>
        executed && reproduced == StoreEndpoints(rec, a, EndpointsOf(rec, x.record.callback), old(reproduced))
    {
      executed := false;
      var skipped;
      r, skipped := Prepare(x, a);
      if r.Err? || skipped {
        return;
      }
      if a.body != Completes {
        return Err(CallbackFailed), false;
      }
      if a.outputEvents != x.outputEvents {
        r := NoteMismatch("output_iox2_events");
        if r.Err? {
          return;
        }
      }
      r := CompareEndpoints(x, a);
      executed := r.Ok?;
    }

    /** `step`: consumes one record; any failure poisons the replay and is counted. */
    method Step(stopped: bool) returns (r: Result<Option<bool>, ReplayError>)
      requires Valid()
      modifies this`reproduced, this`cursor, this`failed, report`consumed, report`channels, report`errors
      ensures Valid() && old(cursor) <= cursor <= old(cursor) + 1
      ensures old(failed) ==> r == Err(Poisoned) && cursor == old(cursor) && report.errors == old(report.errors)
      ensures !old(failed) ==>
        && (failed <==> r.Err?)
        && (r == Ok(None) <==> old(cursor) == |rec.executions| || stopped)
        && (r != Ok(None) ==> cursor == old(cursor) + 1)
    {
      if failed {
        return Err(Poisoned);
      }
      if cursor == |rec.executions| || stopped {
        return Ok(None);
      }
      var executed := Consume();
      return match executed case Ok(e) => Ok(Some(e)) case Err(error) => Err(error);
    }

    /** The part of `step` that re-runs one record. */
    method Consume() returns (r: Result<bool, ReplayError>)
      requires Valid() && !failed && cursor < |rec.executions|
      modifies this`reproduced, this`cursor, this`failed, report`consumed, report`channels, report`errors
      ensures Valid() && cursor == old(cursor) + 1 && (failed <==> r.Err?)
    {
      ghost var before := Now();
      cursor := cursor + 1;
      report.MarkConsumed();
      assert Now() == before;
      r := Replay(cursor - 1);
      failed := r.Err?;
    }

    /** Executes record `n` against a report that is sound up to it. */
    method Replay(n: nat) returns (r: Result<bool, ReplayError>)
      requires n < |rec.executions| && Sound(rec, attempts, n, Now(), reproduced, policy, false)
      modifies this`reproduced, report`channels, report`errors
      ensures Sound(rec, attempts, n + 1, Now(), reproduced, policy, r.Err?)
    {
      ghost var before, known := Now(), reproduced;
      var result, executed := Execute(rec.executions[n], attempts(n));
      ghost var counted := Now();
      StaysSound(rec, attempts, n, before, known, policy, result, counted, reproduced);
      if result == Err(CallbackFailed) {
        report.RecordError();
      }
      assert Now() == Settled(counted, result);
      r := match result case Ok(_) => Ok(executed) case Err(e) => Err(e);
    }

    /**
     `run`: the report calls the replay exact if and only if every record was consumed and
     reproduced. Under Strict, a run that is not stopped and returns Ok is exact.
     */
    method Run(stop: nat -> bool) returns (r: Result<(), ReplayError>)
      requires Valid()
      modifies this`reproduced, this`cursor, this`failed, report`consumed, report`channels, report`errors
      ensures Valid()
      ensures report.IsExact() <==> cursor == |rec.executions| && Faithful(rec, attempts, |rec.executions|)
      ensures r.Ok? && (forall k :: !stop(k)) ==> cursor == |rec.executions|
      ensures policy.Strict? && r.Ok? && (forall k :: !stop(k)) ==> report.IsExact()
    {
      var more := true;
      while more
        invariant Valid() && (!more ==> !failed)
        invariant !more && (forall k :: !stop(k)) ==> cursor == |rec.executions|
        decreases |rec.executions| - cursor, more
      {
        var step := Step(stop(cursor));
        if step.Err? {
          return Err(step.error);
        }
        more := step.value.Some?;
      }
      return Ok(());
    }
  }

  /** The smallest ordinal among the messages whose headers differ between the two snapshots. */
  ghost predicate SmallestDiffering(messages: seq<Logged>, actual: seq<Logged>, expected: seq<Logged>, ordinal: nat) {
    && HeadersOf(actual, ordinal) != HeadersOf(expected, ordinal)
    && (exists m :: m in messages && m.ordinal == ordinal)
    && (forall m :: m in messages && m.ordinal < ordinal ==> HeadersOf(actual, m.ordinal) == HeadersOf(expected, m.ordinal))
  }

  ghost predicate NoneDiffers(messages: seq<Logged>, actual: seq<Logged>, expected: seq<Logged>) {
    forall m :: m in messages ==> HeadersOf(actual, m.ordinal) == HeadersOf(expected, m.ordinal)
  }

  /** Goes through the ordinals of the messages in ascending order. */
  method FirstDiffering(messages: seq<Logged>, actual: seq<Logged>, expected: seq<Logged>) returns (r: Option<nat>)
    ensures r.None? ==> NoneDiffers(messages, actual, expected)
    ensures r.Some? ==> SmallestDiffering(messages, actual, expected, r.value)
  {
    var sorted := SortBy(messages, OrdinalOf);
    SortIsStable(messages, OrdinalOf);
    forall m: Logged ensures m in sorted <==> m in messages {
      SortMembers(messages, OrdinalOf, m);
    }
    for k := 0 to |sorted|
      invariant forall j :: 0 <= j < k ==> HeadersOf(actual, sorted[j].ordinal) == HeadersOf(expected, sorted[j].ordinal)
    {
      if HeadersOf(actual, sorted[k].ordinal) != HeadersOf(expected, sorted[k].ordinal) {
        assert sorted[k] in messages;
        forall m | m in messages && m.ordinal < sorted[k].ordinal
          ensures HeadersOf(actual, m.ordinal) == HeadersOf(expected, m.ordinal)
        {
          var j :| 0 <= j < |sorted| && sorted[j] == m;
          assert k <= j ==> OrdinalOf(sorted[k]) <= OrdinalOf(sorted[j]);
        }
        return Some(sorted[k].ordinal);
      }
    }
    return None;
  }

  /**
   An input whose headers differ between the prepared and the recorded snapshot: the smallest
   ordinal of the prepared messages that differs, otherwise the smallest of the recorded ones.
   */
  method DifferingInput(actual: seq<Logged>, expected: seq<Logged>) returns (r: Option<nat>)
    ensures r.None? <==> SameSnapshot(actual, expected)
    ensures r.Some? ==>
      || SmallestDiffering(actual, actual, expected, r.value)
      || (NoneDiffers(actual, actual, expected) && SmallestDiffering(expected, actual, expected, r.value))
  {
    r := FirstDiffering(actual, actual, expected);
    if r.None? {
      r := FirstDiffering(expected, actual, expected);
      if r.None? {
        SnapshotsAgree(actual, expected);
      }
    }
  }

  lemma {:induction false} SnapshotsAgree(actual: seq<Logged>, expected: seq<Logged>)
    requires NoneDiffers(actual, actual, expected) && NoneDiffers(expected, actual, expected)
    ensures SameSnapshot(actual, expected)
  {
    forall ordinal ensures HeadersOf(actual, ordinal) == HeadersOf(expected, ordinal) {
      if m :| m in actual && m.ordinal == ordinal {
        assert HeadersOf(actual, m.ordinal) == HeadersOf(expected, m.ordinal);
      } else if m :| m in expected && m.ordinal == ordinal {
        assert HeadersOf(actual, m.ordinal) == HeadersOf(expected, m.ordinal);
      } else {
        NoHeaders(actual, ordinal);
        NoHeaders(expected, ordinal);
      }
    }
  }

  lemma {:induction false} NoHeaders(messages: seq<Logged>, ordinal: nat)
    requires forall j :: 0 <= j < |messages| ==> messages[j].ordinal != ordinal
    ensures HeadersOf(messages, ordinal) == []
  {
    if messages != [] {
      NoHeaders(messages[..|messages| - 1], ordinal);
    }
  }

  lemma {:induction false} MismatchStays(
      rec: Recording, x: Execution, a: Attempt, endpoints: seq<Endpoint>, n: nat, reproduced: map<Identity, string>)
    requires n <= |endpoints|
    ensures EndpointsMatch(rec, x, a, endpoints, reproduced) ==> EndpointsMatch(rec, x, a, endpoints[..n], reproduced)
  {
    if n == |endpoints| {
      assert endpoints[..n] == endpoints;
    } else {
      var shorter := endpoints[..|endpoints| - 1];
      MismatchStays(rec, x, a, shorter, n, reproduced);
      assert shorter[..n] == endpoints[..n];
    }
  }
}
