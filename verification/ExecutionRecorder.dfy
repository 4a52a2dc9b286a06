/**
 The recorder around a callback: one record for every invocation of the body, whatever
 becomes of the invocation.
 */
module ExecutionRecorder {
  import opened Basics

  const MAX_RECORDED_MESSAGES: nat := 16
  const INVALID_TIME := -0x8000_0000_0000_0000

  datatype Header = Header(publishedAt: int, publisherIndex: nat, batchIndex: nat)

  datatype Logged = Logged(ordinal: nat, header: Header)

  function OrdinalOf(m: Logged): int { m.ordinal }

  datatype Outcome = Committed | BodyError | BodyPanicked | Cancelled | CommitPanicked

  datatype Mode = DurationOnly | Full

  /** `truncated` is a 16-bit counter. */
  datatype Record = Record(
    callback: nat, time: int, inputs: seq<Logged>, outputs: seq<Logged>, outcome: Outcome, truncated: nat)

  /** A data output of the callback, in declaration order. */
  datatype Output = Output(ordinal: nat, publisherIndex: nat)

  // ---------------------------------------------------------------- headers

  /** The headers of one publisher's pending batch, stamped with a time. */
  function Batch(output: Output, count: nat, time: int): (r: seq<Logged>)
    ensures |r| == count
    ensures forall k :: 0 <= k < count ==> r[k] == Logged(output.ordinal, Header(time, output.publisherIndex, k))
  {
    seq(count, k requires 0 <= k < count => Logged(output.ordinal, Header(time, output.publisherIndex, k)))
  }

  /** The headers of all outputs, output by output. */
  function Stamps(outputs: seq<Output>, counts: seq<nat>, time: int): seq<Logged>
    requires |outputs| == |counts|
  {
    if outputs == [] then []
    else
      var last := |outputs| - 1;
      Stamps(outputs[..last], counts[..last], time) + Batch(outputs[last], counts[last], time)
  }

  /** The entries a bounded list keeps. */
  function Kept(messages: seq<Logged>): seq<Logged> {
    if |messages| <= MAX_RECORDED_MESSAGES then messages else messages[..MAX_RECORDED_MESSAGES]
  }

  function Dropped(messages: seq<Logged>): nat { |messages| - |Kept(messages)| }

  /** Adds to the 16-bit counter, which wraps. */
  function Truncated(before: nat, dropped: nat): nat { (before + dropped) % 0x1_0000 }

  /** Pushes messages onto a bounded list, counting those that do not fit. */
  method PushAll(messages: seq<Logged>, before: nat) returns (kept: seq<Logged>, truncated: nat)
    requires before < 0x1_0000
    ensures kept == Kept(messages) && truncated == Truncated(before, Dropped(messages))
  {
    kept, truncated := [], before;
    for k := 0 to |messages|
      invariant kept == Kept(messages[..k]) && truncated == Truncated(before, Dropped(messages[..k]))
    {
      if |kept| == MAX_RECORDED_MESSAGES {
        truncated := (truncated + 1) % 0x1_0000;
      } else {
        kept := kept + [messages[k]];
      }
    }
    assert messages[..|messages|] == messages;
  }

  // ---------------------------------------------------------------- an invocation

  /** How the body ends, and how many messages each output then has pending. */
  datatype Body = Returns(counts: seq<nat>) | Fails(counts: seq<nat>) | Panics(counts: seq<nat>)

  /** What becomes of an invocation after its inputs are prepared. */
  datatype Fate =
    | NotRun                                 // dropped before the body
    | Ended(body: Body)                      // the body failed, or nobody commits
    | Commit(counts: seq<nat>)
    | CommitPanics(counts: seq<nat>, after: nat)  // publication panics after that many messages

  function OutcomeOf(fate: Fate): Outcome
    requires !fate.NotRun?
  {
    match fate
    case Ended(Returns(_)) => Cancelled
    case Ended(Fails(_)) => BodyError
    case Ended(Panics(_)) => BodyPanicked
    case Commit(_) => Committed
    case CommitPanics(_, _) => CommitPanicked
  }

  function Counts(fate: Fate): seq<nat>
    requires !fate.NotRun?
  {
    match fate
    case Ended(body) => body.counts
    case Commit(counts) => counts
    case CommitPanics(counts, _) => counts
  }

  /** The one record an invocation leaves. */
  function RecordOf(callback: nat, mode: Mode, outputs: seq<Output>, time: int, inputs: seq<Logged>, fate: Fate): Record
    requires !fate.NotRun? && |Counts(fate)| == |outputs|
  {
    var seen := if mode.Full? then inputs else [];
    var made := if mode.Full? && (fate.Commit? || fate.CommitPanics?) then Stamps(outputs, Counts(fate), time) else [];
    Record(callback, time, Kept(seen), Kept(made), OutcomeOf(fate), Truncated(0, Dropped(seen) + Dropped(made)))
  }

  /** What a flush makes of the record that the body left open. */
  function FlushedRecord(record: Record, mode: Mode, all: seq<Logged>, outcome: Outcome): Record {
    var made := if mode.Full? then all else [];
    record.(outputs := if mode.Full? then Kept(made) else record.outputs,
            truncated := Truncated(record.truncated, Dropped(made)), outcome := outcome)
  }

  lemma {:induction false} TruncatedAdds(a: nat, b: nat)
    ensures Truncated(Truncated(0, a), b) == Truncated(0, a + b)
  {
  }

  lemma {:induction false} FlushCompletes(
      callback: nat, mode: Mode, outputs: seq<Output>, time: int, inputs: seq<Logged>, counts: seq<nat>, fate: Fate)
    requires |counts| == |outputs| && (fate.Commit? || fate.CommitPanics?) && Counts(fate) == counts
    ensures FlushedRecord(RecordOf(callback, mode, outputs, time, inputs, Ended(Returns(counts))), mode,
                          Stamps(outputs, counts, time), OutcomeOf(fate))
         == RecordOf(callback, mode, outputs, time, inputs, fate)
  {
    TruncatedAdds(Dropped(if mode.Full? then inputs else []), Dropped(if mode.Full? then Stamps(outputs, counts, time) else []));
  }

  class Recorder {
    const callback: nat
    const mode: Mode
    const outputs: seq<Output>
    var active: Option<Record>
    var pending: seq<nat>
    var stamped: seq<Logged>
    var dropped: nat
    ghost var attempts: seq<Record>

    ghost predicate Valid()
      reads this
    {
      |pending| == |outputs| && (active.Some? ==> active.value.truncated < 0x1_0000)
    }

    constructor (id: nat, m: Mode, declared: seq<Output>)
      ensures Valid() && active.None? && attempts == [] && stamped == [] && dropped == 0
      ensures callback == id && mode == m && outputs == declared
    {
      callback, mode, outputs := id, m, declared;
      active, pending, stamped, dropped, attempts := None, seq(|declared|, _ => 0), [], 0, [];
    }

    /** `publish_record`: a record that finds no room is counted. */
    method PublishRecord(record: Record, accepted: bool)
      modifies this`dropped, this`attempts
      ensures attempts == old(attempts) + [record] && dropped == old(dropped) + if accepted then 0 else 1
    {
      attempts := attempts + [record];
      if !accepted {
        dropped := dropped + 1;
      }
    }

    /** `run`: the record starts out pessimistic, so that a panic leaves the right outcome behind. */
    method Run(time: int, inputs: seq<Logged>, body: Body) returns (ok: bool)
      requires Valid() && active.None? && |body.counts| == |outputs|
      modifies this`active, this`pending
      ensures Valid() && pending == body.counts && ok == body.Returns?
      ensures active == Some(RecordOf(callback, mode, outputs, time, inputs, Ended(body)))
    {
      var kept, truncated := [], 0;
      if mode.Full? {
        kept, truncated := PushAll(inputs, 0);
      }
      active := Some(Record(callback, time, kept, [], BodyPanicked, truncated));
      pending := body.counts;
      match body {
        case Panics(_) => return false;
        case Fails(_) => active := Some(active.value.(outcome := BodyError));
        case Returns(_) => active := Some(active.value.(outcome := Cancelled));
      }
      ok := body.Returns?;
    }

    /** `visit_pending_messages`, with the time the recorder stamps on each. */
    method VisitPending(time: int) returns (headers: seq<Logged>)
      requires Valid()
      ensures headers == Stamps(outputs, pending, time)
    {
      headers := [];
      for o := 0 to |outputs|
        invariant headers == Stamps(outputs[..o], pending[..o], time)
      {
        assert outputs[..o + 1][..o] == outputs[..o] && pending[..o + 1][..o] == pending[..o];
        ghost var before := headers;
        for k := 0 to pending[o]
          invariant headers == before + Batch(outputs[o], k, time)
        {
          assert Batch(outputs[o], k + 1, time)
              == Batch(outputs[o], k, time) + [Logged(outputs[o].ordinal, Header(time, outputs[o].publisherIndex, k))];
          headers := headers + [Logged(outputs[o].ordinal, Header(time, outputs[o].publisherIndex, k))];
        }
      }
      assert outputs[..|outputs|] == outputs && pending[..|outputs|] == pending;
    }

    /** `flush` of one publisher: every pending message is stamped and fanned out, up to a panic. */
    method FlushPublisher(o: nat, time: int, left: Option<nat>) returns (panicked: bool)
      requires Valid() && o < |outputs|
      modifies this`stamped
      ensures panicked <==> left.Some? && left.value < pending[o]
      ensures var batch := Batch(outputs[o], pending[o], time);
        stamped == old(stamped) + (if panicked then batch[..left.value] else batch)
    {
      var publisherIndex := outputs[o].publisherIndex;
      ghost var batch := Batch(outputs[o], pending[o], time);
      for k := 0 to pending[o]
        invariant stamped == old(stamped) + batch[..k] && (left.Some? ==> k <= left.value)
      {
        if left == Some(k) {
          return true;
        }
        stamped := stamped + [Logged(outputs[o].ordinal, Header(time, publisherIndex, k))];
      }
      return false;
    }

    /** The callback's `flush_outputs`: its publishers in declaration order. */
    method FlushPublishers(time: int, after: Option<nat>) returns (panicked: bool)
      requires Valid()
      modifies this`stamped
      ensures panicked == after.Some?
      ensures var all := Stamps(outputs, pending, time);
        stamped == old(stamped) + (if panicked && after.value < |all| then all[..after.value] else all)
    {
      var left: Option<nat> := after;
      for o := 0 to |outputs|
        invariant left.Some? == after.Some?
        invariant stamped == old(stamped) + Stamps(outputs[..o], pending[..o], time)
        invariant left.Some? ==> after.value == |Stamps(outputs[..o], pending[..o], time)| + left.value
      {
        ghost var before, batch := Stamps(outputs[..o], pending[..o], time), Batch(outputs[o], pending[o], time);
        assert outputs[..o + 1][..o] == outputs[..o] && pending[..o + 1][..o] == pending[..o];
        panicked := FlushPublisher(o, time, left);
        if panicked {
          StampsPrefix(outputs, pending, time, o + 1);
          ghost var all := Stamps(outputs, pending, time);
          assert (before + batch)[..after.value] == before + batch[..left.value];
          assert all[..after.value] == (before + batch)[..after.value];
          ConcatAssociates(old(stamped), before, batch[..left.value]);
          return;
        }
        ConcatAssociates(old(stamped), before, batch);
        left := if left.Some? then Some(left.value - pending[o]) else None;
      }
      assert outputs[..|outputs|] == outputs && pending[..|outputs|] == pending;
      return left.Some?;
    }

    /** `flush_outputs`: the outputs are recorded before they are published; success completes the record. */
    method FlushOutputs(time: int, after: Option<nat>, accepted: bool) returns (panicked: bool)
      requires Valid()
      modifies this
      ensures Valid() && panicked == after.Some?
      ensures var all := Stamps(outputs, old(pending), time);
        && stamped == old(stamped) + (if panicked && after.value < |all| then all[..after.value] else all)
        && (old(active).None? ==> active.None? && attempts == old(attempts))
        && (old(active).Some? ==>
              if panicked then
                active == Some(FlushedRecord(old(active).value, mode, all, CommitPanicked)) && attempts == old(attempts)
              else
                active.None? && attempts == old(attempts) + [FlushedRecord(old(active).value, mode, all, Committed)])
    {
      if active.Some? {
        active := Some(active.value.(outcome := CommitPanicked));
        if mode.Full? {
          var headers := VisitPending(time);
          var kept, truncated := PushAll(headers, active.value.truncated);
          active := Some(active.value.(outputs := kept, truncated := truncated));
        }
      }
      panicked := FlushPublishers(time, after);
      if panicked {
        return;
      }
      pending := seq(|outputs|, _ => 0);
      if active.Some? {
        var record := active.value.(outcome := Committed);
        active := None;
        PublishRecord(record, accepted);
      }
    }

    /** `discard_outputs`: whatever record is still open is published with the outcome it has. */
    method DiscardOutputs(accepted: bool)
      requires Valid()
      modifies this
      ensures Valid() && active.None? && stamped == old(stamped) && pending == seq(|outputs|, _ => 0)
      ensures attempts == old(attempts) + (
        if old(active).None? then []
        else if old(active).value.outcome.CommitPanicked? then [old(active).value]
        else [old(active).value.(outputs := [])])
    {
      if active.Some? {
        var record := active.value;
        active := None;
        if record.outcome != CommitPanicked {
          record := record.(outputs := []);
        }
        PublishRecord(record, accepted);
      } else {
        assert attempts + [] == attempts;
      }
      pending := seq(|outputs|, _ => 0);
    }

    /**
     An invocation from its prepared inputs to its drop. The body leaves exactly one record, with
     the outcome that befell the invocation; a committed record lists a prefix of the headers
     that were stamped.
     */
    method Invoke(time: int, inputs: seq<Logged>, fate: Fate, accepted: bool)
      requires Valid() && active.None? && (!fate.NotRun? ==> |Counts(fate)| == |outputs|)
      modifies this
      ensures Valid() && active.None?
      ensures fate.NotRun? ==> attempts == old(attempts) && stamped == old(stamped)
      ensures !fate.NotRun? ==>
        attempts == old(attempts) + [RecordOf(callback, mode, outputs, time, inputs, fate)]
      ensures fate.Ended? ==> stamped == old(stamped)
      ensures fate.Commit? ==> stamped == old(stamped) + Stamps(outputs, fate.counts, time)
      ensures fate.CommitPanics? ==> old(stamped) <= stamped <= old(stamped) + Stamps(outputs, fate.counts, time)
    {
      if fate.NotRun? {
        DiscardOutputs(accepted);
        assert attempts == old(attempts);
        return;
      }
      var body := match fate case Ended(body) => body case Commit(counts) => Returns(counts)
                             case CommitPanics(counts, _) => Returns(counts);
      var ok := Run(time, inputs, body);
      if fate.Commit? || fate.CommitPanics? {
        FlushCompletes(callback, mode, outputs, time, inputs, body.counts, fate);
        var panicked := FlushOutputs(time, if fate.CommitPanics? then Some(fate.after) else None, accepted);
      }
      ghost var before := attempts;
      DiscardOutputs(accepted);
      assert before + [] == before;
    }
  }

  lemma {:induction false} StampsPrefix(outputs: seq<Output>, counts: seq<nat>, time: int, o: nat)
    requires |outputs| == |counts| && o <= |outputs|
    ensures Stamps(outputs[..o], counts[..o], time) <= Stamps(outputs, counts, time)
  {
    if o == |outputs| {
      assert outputs[..o] == outputs && counts[..o] == counts;
    } else {
      var last := |outputs| - 1;
      StampsPrefix(outputs[..last], counts[..last], time, o);
      assert outputs[..last][..o] == outputs[..o] && counts[..last][..o] == counts[..o];
    }
  }

  // ---------------------------------------------------------------- the truncation counter

  /**
   The counter tells a full record from a truncated one exactly when the number of entries
   that did not fit is no positive multiple of 65536.
   */
  lemma {:induction false} TruncationShows(
      callback: nat, outputs: seq<Output>, time: int, inputs: seq<Logged>, counts: seq<nat>)
    requires |counts| == |outputs|
    ensures var record := RecordOf(callback, Full, outputs, time, inputs, Commit(counts));
      var all := Stamps(outputs, counts, time);
      var lost := Dropped(inputs) + Dropped(all);
      (record.truncated == 0 <==> record.inputs == inputs && record.outputs == all)
      <==> (lost == 0 || lost % 0x1_0000 != 0)
  {
    var all := Stamps(outputs, counts, time);
    assert Dropped(inputs) == 0 <==> Kept(inputs) == inputs;
    assert Dropped(all) == 0 <==> Kept(all) == all;
  }

  /** A callback that publishes 65552 messages leaves a record that looks complete and lists 16. */
  lemma {:induction false} TruncationCanHide()
    ensures var record := RecordOf(0, Full, [Output(0, 0)], 0, [], Commit([65552]));
      record.truncated == 0 && record.outputs != Stamps([Output(0, 0)], [65552], 0)
  {
    var outputs, counts := [Output(0, 0)], [65552];
    assert outputs[..0] == [] && counts[..0] == [];
    var batch := Batch(Output(0, 0), 65552, 0);
    assert Stamps([], [], 0) == [];
    assert Stamps(outputs, counts, 0) == [] + batch == batch;
    assert |Kept(batch)| == 16;
  }
}
