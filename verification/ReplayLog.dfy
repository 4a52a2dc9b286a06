/** The validation of a recorded log before exact replay, and which recordings pass it. */
module ReplayLog {
  import opened Basics
  import opened StableSort
  import opened ExecutionRecorder

  datatype Direction = Received | Published

  datatype Transport = Native | Iox2Data | Iox2Event

  datatype Endpoint = Endpoint(
    ordinal: nat, channel: string, direction: Direction, transport: Transport, publisherIndex: Option<nat>)

  type Callbacks = seq<seq<Endpoint>>

  datatype LogError =
    | NotCommitted
    | UnknownCallback
    | UnknownEndpoint
    | InvalidReference
    | AmbiguousPublication
    | HeaderMismatch
    | BatchOverflow

  type Identity = (string, Header)

  function RecordTime(r: Record): int { r.time }

  // ---------------------------------------------------------------- the checks

  /** `endpoint`, for data: the first endpoint of that direction and ordinal. */
  function FindIn(endpoints: seq<Endpoint>, direction: Direction, ordinal: nat): Option<Endpoint> {
    if endpoints == [] then None
    else if endpoints[0].direction == direction && endpoints[0].ordinal == ordinal && !endpoints[0].transport.Iox2Event? then
      Some(endpoints[0])
    else FindIn(endpoints[1..], direction, ordinal)
  }

  function Find(callbacks: Callbacks, callback: nat, direction: Direction, ordinal: nat): Option<Endpoint> {
    if callback < |callbacks| then FindIn(callbacks[callback], direction, ordinal) else None
  }

  method FindEndpoint(callbacks: Callbacks, callback: nat, direction: Direction, ordinal: nat) returns (r: Option<Endpoint>)
    ensures r == Find(callbacks, callback, direction, ordinal)
  {
    if callback >= |callbacks| {
      return None;
    }
    var endpoints := callbacks[callback];
    for k := 0 to |endpoints|
      invariant FindIn(endpoints, direction, ordinal) == FindIn(endpoints[k..], direction, ordinal)
    {
      var e := endpoints[k];
      if e.direction == direction && e.ordinal == ordinal && !e.transport.Iox2Event? {
        return Some(e);
      }
      assert endpoints[k..][1..] == endpoints[k + 1..];
    }
    return None;
  }

  /** What the checks carry along: identities produced so far, and this record's next batch index by ordinal. */
  datatype Progress = Progress(produced: set<Identity>, next: map<nat, nat>)

  function NextIndex(next: map<nat, nat>, ordinal: nat): nat { if ordinal in next then next[ordinal] else 0 }

  function CheckInput(callbacks: Callbacks, record: Record, m: Logged): Result<(), LogError> {
    if Find(callbacks, record.callback, Received, m.ordinal).None? then Err(UnknownEndpoint)
    else if m.header.publishedAt == INVALID_TIME then Err(InvalidReference)
    else Ok(())
  }

  function CheckOutput(callbacks: Callbacks, record: Record, m: Logged, p: Progress): Result<Progress, LogError> {
    match Find(callbacks, record.callback, Published, m.ordinal)
    case None => Err(UnknownEndpoint)
    case Some(e) =>
      if m.header.publishedAt == INVALID_TIME then Err(InvalidReference)
      else if (e.channel, m.header) in p.produced then Err(AmbiguousPublication)
      else
        var next := NextIndex(p.next, m.ordinal);
        if e.publisherIndex != Some(m.header.publisherIndex) || m.header.batchIndex != next
           || m.header.publishedAt != record.time then Err(HeaderMismatch)
        else if next == U32_MAX then Err(BatchOverflow)
        else Ok(Progress(p.produced + {(e.channel, m.header)}, p.next[m.ordinal := next + 1]))
  }

  function CheckInputs(callbacks: Callbacks, record: Record, n: nat): Result<(), LogError>
    requires n <= |record.inputs|
  {
    if n == 0 then Ok(())
    else if CheckInputs(callbacks, record, n - 1).Err? then CheckInputs(callbacks, record, n - 1)
    else CheckInput(callbacks, record, record.inputs[n - 1])
  }

  function CheckOutputs(callbacks: Callbacks, record: Record, n: nat, produced: set<Identity>): Result<Progress, LogError>
    requires n <= |record.outputs|
  {
    if n == 0 then Ok(Progress(produced, map[]))
    else
      match CheckOutputs(callbacks, record, n - 1, produced)
      case Err(e) => Err(e)
      case Ok(p) => CheckOutput(callbacks, record, record.outputs[n - 1], p)
  }

  function CheckRecord(callbacks: Callbacks, record: Record, produced: set<Identity>): Result<set<Identity>, LogError> {
    if !record.outcome.Committed? then Err(NotCommitted)
    else if record.callback >= |callbacks| then Err(UnknownCallback)
    else
      match CheckInputs(callbacks, record, |record.inputs|)
      case Err(e) => Err(e)
      case Ok(_) =>
        match CheckOutputs(callbacks, record, |record.outputs|, produced)
        case Err(e) => Err(e)
        case Ok(p) => Ok(p.produced)
  }

  function CheckAll(callbacks: Callbacks, records: seq<Record>): Result<set<Identity>, LogError> {
    if records == [] then Ok({})
    else
      match CheckAll(callbacks, records[..|records| - 1])
      case Err(e) => Err(e)
      case Ok(produced) => CheckRecord(callbacks, records[|records| - 1], produced)
  }

  lemma {:induction false} InputsFail(callbacks: Callbacks, record: Record, n: nat, m: nat)
    requires n <= m <= |record.inputs| && CheckInputs(callbacks, record, n).Err?
    ensures CheckInputs(callbacks, record, m) == CheckInputs(callbacks, record, n)
  {
    if n < m {
      InputsFail(callbacks, record, n, m - 1);
    }
  }

  lemma {:induction false} OutputsFail(callbacks: Callbacks, record: Record, n: nat, m: nat, produced: set<Identity>)
    requires n <= m <= |record.outputs| && CheckOutputs(callbacks, record, n, produced).Err?
    ensures CheckOutputs(callbacks, record, m, produced) == CheckOutputs(callbacks, record, n, produced)
  {
    if n < m {
      OutputsFail(callbacks, record, n, m - 1, produced);
    }
  }

  lemma {:induction false} AllFail(callbacks: Callbacks, records: seq<Record>, n: nat)
    requires n <= |records| && CheckAll(callbacks, records[..n]).Err?
    ensures CheckAll(callbacks, records) == CheckAll(callbacks, records[..n])
  {
    if n == |records| {
      assert records[..n] == records;
    } else {
      assert records[..|records| - 1][..n] == records[..n];
      AllFail(callbacks, records[..|records| - 1], n);
    }
  }

  class Log {
    const callbacks: Callbacks
    var executions: seq<Record>

    constructor (descriptor: Callbacks, records: seq<Record>)
      ensures callbacks == descriptor && executions == records
    {
      callbacks, executions := descriptor, records;
    }

    /** The checks of one record, message by message. */
    method FinishRecord(record: Record, produced: set<Identity>) returns (r: Result<set<Identity>, LogError>)
      ensures r == CheckRecord(callbacks, record, produced)
    {
      if record.outcome != Committed {
        return Err(NotCommitted);
      }
      if record.callback >= |callbacks| {
        return Err(UnknownCallback);
      }
      for k := 0 to |record.inputs|
        invariant CheckInputs(callbacks, record, k).Ok?
      {
        var m := record.inputs[k];
        var endpoint := FindEndpoint(callbacks, record.callback, Received, m.ordinal);
        if endpoint.None? {
          InputsFail(callbacks, record, k + 1, |record.inputs|);
          return Err(UnknownEndpoint);
        }
        if m.header.publishedAt == INVALID_TIME {
          InputsFail(callbacks, record, k + 1, |record.inputs|);
          return Err(InvalidReference);
        }
      }
      var p := Progress(produced, map[]);
      for k := 0 to |record.outputs|
        invariant CheckOutputs(callbacks, record, k, produced) == Ok(p)
      {
        var checked := FinishOutput(record, record.outputs[k], p);
        if checked.Err? {
          OutputsFail(callbacks, record, k + 1, |record.outputs|, produced);
          return Err(checked.error);
        }
        p := checked.value;
      }
      return Ok(p.produced);
    }

    method FinishOutput(record: Record, m: Logged, p: Progress) returns (r: Result<Progress, LogError>)
      ensures r == CheckOutput(callbacks, record, m, p)
    {
      var endpoint := FindEndpoint(callbacks, record.callback, Published, m.ordinal);
      if endpoint.None? {
        return Err(UnknownEndpoint);
      }
      if m.header.publishedAt == INVALID_TIME {
        return Err(InvalidReference);
      }
      var identity := (endpoint.value.channel, m.header);
      if identity in p.produced {
        return Err(AmbiguousPublication);
      }
      var next := NextIndex(p.next, m.ordinal);
      if endpoint.value.publisherIndex != Some(m.header.publisherIndex)
         || m.header.batchIndex != next || m.header.publishedAt != record.time {
        return Err(HeaderMismatch);
      }
      if next == U32_MAX {
        return Err(BatchOverflow);
      }
      return Ok(Progress(p.produced + {identity}, p.next[m.ordinal := next + 1]));
    }

    /** `finish`: the records in time order, each checked against all before it. */
    method Finish() returns (r: Result<(), LogError>)
      modifies this`executions
      ensures executions == SortBy(old(executions), RecordTime)
      ensures match CheckAll(callbacks, executions) case Ok(_) => r == Ok(()) case Err(e) => r == Err(e)
    {
      executions := SortBy(executions, RecordTime);
      r := CheckExecutions(executions);
    }

    /** The loop of `finish` over the sorted records. */
    method CheckExecutions(records: seq<Record>) returns (r: Result<(), LogError>)
      ensures match CheckAll(callbacks, records) case Ok(_) => r == Ok(()) case Err(e) => r == Err(e)
    {
      var produced: set<Identity> := {};
      for n := 0 to |records|
        invariant CheckAll(callbacks, records[..n]) == Ok(produced)
      {
        var checked := FinishRecord(records[n], produced);
        AllStep(callbacks, records, n);
        if checked.Err? {
          AllFail(callbacks, records, n + 1);
          return Err(checked.error);
        }
        produced := checked.value;
      }
      assert records[..|records|] == records;
      return Ok(());
    }
  }

  lemma {:induction false} AllStep(callbacks: Callbacks, records: seq<Record>, n: nat)
    requires n < |records| && CheckAll(callbacks, records[..n]).Ok?
    ensures CheckAll(callbacks, records[..n + 1]) == CheckRecord(callbacks, records[n], CheckAll(callbacks, records[..n]).value)
  {
    assert records[..n + 1][..n] == records[..n];
  }
}
