/** Logs written by the recorder, met by the validator of exact replay. */
module RecordedLogs {
  import opened Basics
  import opened StableSort
  import opened ExecutionRecorder
  import opened ReplayLog

  /** A descriptor as `descriptor` accepts it: ordinals name endpoints, publisher indices name data outputs. */
  ghost predicate SoundDescriptor(callbacks: Callbacks) {
    && (forall c, i, j :: 0 <= c < |callbacks| && 0 <= i < j < |callbacks[c]| ==>
          callbacks[c][i].direction != callbacks[c][j].direction || callbacks[c][i].ordinal != callbacks[c][j].ordinal)
    && (forall c, i :: 0 <= c < |callbacks| && 0 <= i < |callbacks[c]| ==>
          (callbacks[c][i].publisherIndex.Some? <==>
             callbacks[c][i].direction.Published? && !callbacks[c][i].transport.Iox2Event?))
    && (forall c, i, d, j {:trigger SamePublisher(callbacks[c][i], callbacks[d][j])} ::
          0 <= c < |callbacks| && 0 <= i < |callbacks[c]| && 0 <= d < |callbacks| && 0 <= j < |callbacks[d]| ==>
          SamePublisher(callbacks[c][i], callbacks[d][j]) ==> c == d && i == j)
  }

  predicate SamePublisher(a: Endpoint, b: Endpoint) {
    a.publisherIndex.Some? && a.publisherIndex == b.publisherIndex && a.channel == b.channel
  }

  function CountOf(outputs: seq<Logged>, ordinal: nat): nat { Count(outputs, OrdinalOf, ordinal) }

  /** An output listed by the recorder: stamped for its endpoint, numbered within its publisher's batch. */
  ghost predicate WellStamped(callbacks: Callbacks, record: Record, k: nat)
    requires k < |record.outputs|
  {
    var m := record.outputs[k];
    var e := Find(callbacks, record.callback, Published, m.ordinal);
    e.Some? && m.header == Header(record.time, if e.value.publisherIndex.Some? then e.value.publisherIndex.value else 0,
                                  CountOf(record.outputs[..k], m.ordinal))
  }

  ghost predicate WellRecorded(callbacks: Callbacks, record: Record) {
    && record.outcome.Committed? && record.callback < |callbacks| && record.time != INVALID_TIME
    && CheckInputs(callbacks, record, |record.inputs|).Ok?
    && |record.outputs| <= MAX_RECORDED_MESSAGES
    && forall k :: 0 <= k < |record.outputs| ==> WellStamped(callbacks, record, k)
  }

  // ---------------------------------------------------------------- what the recorder writes

  /** The data outputs of a callback, in declaration order. */
  function OutputsOf(endpoints: seq<Endpoint>): seq<Output> {
    if endpoints == [] then []
    else
      var e := endpoints[|endpoints| - 1];
      OutputsOf(endpoints[..|endpoints| - 1])
      + if e.direction.Published? && !e.transport.Iox2Event? && e.publisherIndex.Some? then
          [Output(e.ordinal, e.publisherIndex.value)]
        else []
  }

  lemma {:induction false} OutputIsEndpoint(endpoints: seq<Endpoint>, o: nat) returns (i: nat)
    requires o < |OutputsOf(endpoints)|
    ensures i < |endpoints| && endpoints[i].direction.Published? && !endpoints[i].transport.Iox2Event?
    ensures endpoints[i].publisherIndex.Some?
    ensures OutputsOf(endpoints)[o] == Output(endpoints[i].ordinal, endpoints[i].publisherIndex.value)
  {
    var shorter := endpoints[..|endpoints| - 1];
    if o < |OutputsOf(shorter)| {
      i := OutputIsEndpoint(shorter, o);
    } else {
      i := |endpoints| - 1;
    }
  }

  lemma {:induction false} FindFinds(endpoints: seq<Endpoint>, i: nat)
    requires i < |endpoints| && !endpoints[i].transport.Iox2Event?
    requires forall j :: 0 <= j < i ==>
      endpoints[j].direction != endpoints[i].direction || endpoints[j].ordinal != endpoints[i].ordinal
    ensures FindIn(endpoints, endpoints[i].direction, endpoints[i].ordinal) == Some(endpoints[i])
  {
    if i > 0 {
      FindFinds(endpoints[1..], i - 1);
    }
  }

  lemma {:induction false} CountInBatch(output: Output, n: nat, time: int, k: nat, ordinal: nat)
    requires k <= n
    ensures CountOf(Batch(output, n, time)[..k], ordinal) == if ordinal == output.ordinal then k else 0
  {
    if k > 0 {
      CountInBatch(output, n, time, k - 1, ordinal);
      assert Batch(output, n, time)[..k][..k - 1] == Batch(output, n, time)[..k - 1];
    }
  }

  lemma {:induction false} CountElsewhere(outputs: seq<Output>, counts: seq<nat>, time: int, ordinal: nat)
    requires |outputs| == |counts| && forall o :: 0 <= o < |outputs| ==> outputs[o].ordinal != ordinal
    ensures CountOf(Stamps(outputs, counts, time), ordinal) == 0
  {
    if outputs != [] {
      var last := |outputs| - 1;
      CountElsewhere(outputs[..last], counts[..last], time, ordinal);
      var batch := Batch(outputs[last], counts[last], time);
      CountInBatch(outputs[last], counts[last], time, counts[last], ordinal);
      assert batch[..counts[last]] == batch;
      CountConcat(Stamps(outputs[..last], counts[..last], time), batch, OrdinalOf, ordinal);
    }
  }

  /** Each stamped header carries its output's identity and its position among that output's messages. */
  lemma {:induction false} StampsAreNumbered(outputs: seq<Output>, counts: seq<nat>, time: int, k: nat) returns (o: nat)
    requires |outputs| == |counts| && k < |Stamps(outputs, counts, time)|
    requires forall i, j :: 0 <= i < j < |outputs| ==> outputs[i].ordinal != outputs[j].ordinal
    ensures var all := Stamps(outputs, counts, time);
      o < |outputs| && all[k] == Logged(outputs[o].ordinal,
        Header(time, outputs[o].publisherIndex, CountOf(all[..k], outputs[o].ordinal)))
  {
    var last := |outputs| - 1;
    var before, batch := Stamps(outputs[..last], counts[..last], time), Batch(outputs[last], counts[last], time);
    var all := Stamps(outputs, counts, time);
    if k < |before| {
      o := StampsAreNumbered(outputs[..last], counts[..last], time, k);
      assert all[..k] == before[..k];
    } else {
      o := last;
      var n := k - |before|;
      assert all[..k] == before + batch[..n];
      CountElsewhere(outputs[..last], counts[..last], time, outputs[last].ordinal);
      CountInBatch(outputs[last], counts[last], time, n, outputs[last].ordinal);
      CountConcat(before, batch[..n], OrdinalOf, outputs[last].ordinal);
    }
  }

  lemma {:induction false} OrdinalsAreDistinct(endpoints: seq<Endpoint>)
    requires forall i, j :: 0 <= i < j < |endpoints| ==>
      endpoints[i].direction != endpoints[j].direction || endpoints[i].ordinal != endpoints[j].ordinal
    ensures forall i, j :: 0 <= i < j < |OutputsOf(endpoints)| ==>
      OutputsOf(endpoints)[i].ordinal != OutputsOf(endpoints)[j].ordinal
  {
    if endpoints != [] {
      var last := |endpoints| - 1;
      OrdinalsAreDistinct(endpoints[..last]);
      forall i | 0 <= i < |OutputsOf(endpoints[..last])| && endpoints[last].direction.Published?
        ensures OutputsOf(endpoints[..last])[i].ordinal != endpoints[last].ordinal
      {
        var e := OutputIsEndpoint(endpoints[..last], i);
        assert endpoints[..last][e] == endpoints[e];
      }
    }
  }

  lemma {:induction false} OutputIsFound(callbacks: Callbacks, callback: nat, o: nat)
    requires SoundDescriptor(callbacks) && callback < |callbacks| && o < |OutputsOf(callbacks[callback])|
    ensures var e := Find(callbacks, callback, Published, OutputsOf(callbacks[callback])[o].ordinal);
      e.Some? && e.value.publisherIndex == Some(OutputsOf(callbacks[callback])[o].publisherIndex)
  {
    var i := OutputIsEndpoint(callbacks[callback], o);
    FindFinds(callbacks[callback], i);
  }

  /** One listed output; `k` is also its position among all stamped headers. */
  lemma {:induction false} RecorderStampsWell(
      callbacks: Callbacks, callback: nat, time: int, counts: seq<nat>, record: Record, k: nat)
    requires SoundDescriptor(callbacks) && callback < |callbacks| && |counts| == |OutputsOf(callbacks[callback])|
    requires record.callback == callback && record.time == time
    requires record.outputs <= Stamps(OutputsOf(callbacks[callback]), counts, time) && k < |record.outputs|
    ensures WellStamped(callbacks, record, k)
  {
    var outputs := OutputsOf(callbacks[callback]);
    OrdinalsAreDistinct(callbacks[callback]);
    var o := StampsAreNumbered(outputs, counts, time, k);
    assert record.outputs[..k] == Stamps(outputs, counts, time)[..k];
    OutputIsFound(callbacks, callback, o);
  }

  /** The record's outputs, its time and callback are all that the recorder has to get right. */
  lemma {:induction false} StampedRecordIsWell(callbacks: Callbacks, counts: seq<nat>, record: Record)
    requires SoundDescriptor(callbacks) && record.callback < |callbacks| && record.time != INVALID_TIME
    requires |counts| == |OutputsOf(callbacks[record.callback])|
    requires record.outputs == Kept(Stamps(OutputsOf(callbacks[record.callback]), counts, record.time))
    requires record.outcome.Committed? && CheckInputs(callbacks, record, |record.inputs|).Ok?
    ensures WellRecorded(callbacks, record)
  {
    forall k | 0 <= k < |record.outputs| ensures WellStamped(callbacks, record, k) {
      RecorderStampsWell(callbacks, record.callback, record.time, counts, record, k);
    }
  }

  // ---------------------------------------------------------------- one record

  ghost function ChannelOf(callbacks: Callbacks, record: Record, ordinal: nat): string {
    var e := Find(callbacks, record.callback, Published, ordinal);
    if e.Some? then e.value.channel else ""
  }

  /** The publication identities of the first `n` outputs. */
  ghost function Identities(callbacks: Callbacks, record: Record, n: nat): set<Identity>
    requires n <= |record.outputs|
  {
    if n == 0 then {}
    else
      var m := record.outputs[n - 1];
      Identities(callbacks, record, n - 1) + {(ChannelOf(callbacks, record, m.ordinal), m.header)}
  }

  lemma {:induction false} IdentityIsOutput(callbacks: Callbacks, record: Record, n: nat, id: Identity) returns (k: nat)
    requires n <= |record.outputs| && id in Identities(callbacks, record, n)
    ensures k < n && id == (ChannelOf(callbacks, record, record.outputs[k].ordinal), record.outputs[k].header)
  {
    k := n - 1;
    if id != (ChannelOf(callbacks, record, record.outputs[k].ordinal), record.outputs[k].header) {
      k := IdentityIsOutput(callbacks, record, n - 1, id);
    }
  }

  lemma {:induction false} OutputIsIdentity(callbacks: Callbacks, record: Record, n: nat, k: nat)
    requires k < n <= |record.outputs|
    ensures (ChannelOf(callbacks, record, record.outputs[k].ordinal), record.outputs[k].header) in Identities(callbacks, record, n)
  {
    if k < n - 1 {
      OutputIsIdentity(callbacks, record, n - 1, k);
    }
  }

  lemma {:induction false} FoundIsThere(endpoints: seq<Endpoint>, direction: Direction, ordinal: nat) returns (i: nat)
    requires FindIn(endpoints, direction, ordinal).Some?
    ensures i < |endpoints| && FindIn(endpoints, direction, ordinal).value == endpoints[i]
    ensures endpoints[i].direction == direction && endpoints[i].ordinal == ordinal && !endpoints[i].transport.Iox2Event?
  {
    i := 0;
    if !(endpoints[0].direction == direction && endpoints[0].ordinal == ordinal && !endpoints[0].transport.Iox2Event?) {
      var j := FoundIsThere(endpoints[1..], direction, ordinal);
      i := j + 1;
    }
  }

  /** In a sound descriptor an identity tells the callback and the ordinal that published it. */
  lemma {:induction false} IdentityTellsEndpoint(callbacks: Callbacks, a: Record, k: nat, b: Record, l: nat)
    requires SoundDescriptor(callbacks) && k < |a.outputs| && l < |b.outputs|
    requires WellStamped(callbacks, a, k) && WellStamped(callbacks, b, l)
    requires a.outputs[k].header == b.outputs[l].header
    requires ChannelOf(callbacks, a, a.outputs[k].ordinal) == ChannelOf(callbacks, b, b.outputs[l].ordinal)
    ensures a.callback == b.callback && a.outputs[k].ordinal == b.outputs[l].ordinal && a.time == b.time
  {
    var i := FoundIsThere(callbacks[a.callback], Published, a.outputs[k].ordinal);
    var j := FoundIsThere(callbacks[b.callback], Published, b.outputs[l].ordinal);
    assert SamePublisher(callbacks[a.callback][i], callbacks[b.callback][j]);
  }

  lemma {:induction false} CountGrows(outputs: seq<Logged>, k: nat, n: nat, ordinal: nat)
    requires k < n <= |outputs| && outputs[k].ordinal == ordinal
    ensures CountOf(outputs[..k], ordinal) < CountOf(outputs[..n], ordinal)
  {
    assert outputs[..n][..n - 1] == outputs[..n - 1];
    if k < n - 1 {
      CountGrows(outputs, k, n - 1, ordinal);
    }
  }

  lemma {:induction false} IdentitiesAreNew(callbacks: Callbacks, record: Record, n: nat)
    requires SoundDescriptor(callbacks) && n < |record.outputs|
    requires forall k :: 0 <= k < |record.outputs| ==> WellStamped(callbacks, record, k)
    ensures (ChannelOf(callbacks, record, record.outputs[n].ordinal), record.outputs[n].header) !in Identities(callbacks, record, n)
  {
    var id := (ChannelOf(callbacks, record, record.outputs[n].ordinal), record.outputs[n].header);
    if id in Identities(callbacks, record, n) {
      var k := IdentityIsOutput(callbacks, record, n, id);
      assert WellStamped(callbacks, record, k) && WellStamped(callbacks, record, n);
      IdentityTellsEndpoint(callbacks, record, k, record, n);
      CountGrows(record.outputs, k, n, record.outputs[n].ordinal);
      assert false;
    }
  }

  lemma {:induction false} CountNext(outputs: seq<Logged>, n: nat, ordinal: nat)
    requires 0 < n <= |outputs|
    ensures CountOf(outputs[..n], ordinal) == CountOf(outputs[..n - 1], ordinal) + Bit(outputs[n - 1].ordinal == ordinal)
  {
    assert outputs[..n][..n - 1] == outputs[..n - 1];
  }

  /** The checks of a well recorded output can only fail on an identity produced before. */
  lemma {:induction false} OutputsPass(callbacks: Callbacks, record: Record, n: nat, produced: set<Identity>)
    requires SoundDescriptor(callbacks) && WellRecorded(callbacks, record) && n <= |record.outputs|
    ensures var r := CheckOutputs(callbacks, record, n, produced);
      && (r.Ok? <==> Identities(callbacks, record, n) !! produced)
      && (r.Ok? ==> r.value.produced == produced + Identities(callbacks, record, n))
      && (r.Ok? ==> forall o: nat :: NextIndex(r.value.next, o) == CountOf(record.outputs[..n], o))
  {
    if n > 0 {
      OutputsPass(callbacks, record, n - 1, produced);
      forall o: nat {
        CountNext(record.outputs, n, o);
      }
      IdentitiesAreNew(callbacks, record, n - 1);
      assert WellStamped(callbacks, record, n - 1);
      var m := record.outputs[n - 1];
      var i := FoundIsThere(callbacks[record.callback], Published, m.ordinal);
      CountFits(record.outputs[..n - 1], m.ordinal);
    } else {
      assert record.outputs[..0] == [];
    }
  }

  lemma {:induction false} CountFits(outputs: seq<Logged>, ordinal: nat)
    ensures CountOf(outputs, ordinal) <= |outputs|
  {
    if outputs != [] {
      CountFits(outputs[..|outputs| - 1], ordinal);
    }
  }

  // ---------------------------------------------------------------- whole logs

  ghost predicate Lists(record: Record, ordinal: nat) {
    exists k :: 0 <= k < |record.outputs| && record.outputs[k].ordinal == ordinal
  }

  /** Two executions of one callback at the same time that both list messages of the same output endpoint. */
  ghost predicate Clash(a: Record, b: Record) {
    a.callback == b.callback && a.time == b.time && exists o :: Lists(a, o) && Lists(b, o)
  }

  ghost predicate NoClash(records: seq<Record>) {
    forall i, j :: 0 <= i < j < |records| ==> !Clash(records[i], records[j])
  }

  ghost function AllIdentities(callbacks: Callbacks, record: Record): set<Identity> {
    Identities(callbacks, record, |record.outputs|)
  }

  /** The first message of an output has batch index zero. */
  lemma {:induction false} FirstOfBatch(callbacks: Callbacks, record: Record, n: nat, ordinal: nat) returns (k: nat)
    requires n < |record.outputs| && record.outputs[n].ordinal == ordinal
    requires forall k :: 0 <= k < |record.outputs| ==> WellStamped(callbacks, record, k)
    ensures k < |record.outputs| && record.outputs[k].ordinal == ordinal && record.outputs[k].header.batchIndex == 0
  {
    assert WellStamped(callbacks, record, n);
    if CountOf(record.outputs[..n], ordinal) == 0 {
      k := n;
    } else {
      var earlier := Occurs(record.outputs[..n], ordinal);
      k := FirstOfBatch(callbacks, record, earlier, ordinal);
    }
  }

  lemma {:induction false} Occurs(outputs: seq<Logged>, ordinal: nat) returns (k: nat)
    requires CountOf(outputs, ordinal) > 0
    ensures k < |outputs| && outputs[k].ordinal == ordinal
  {
    k := |outputs| - 1;
    if outputs[k].ordinal != ordinal {
      k := Occurs(outputs[..k], ordinal);
    }
  }

  lemma {:induction false} ClashShares(callbacks: Callbacks, a: Record, b: Record)
    requires WellRecorded(callbacks, a) && WellRecorded(callbacks, b) && Clash(a, b)
    ensures !(AllIdentities(callbacks, a) !! AllIdentities(callbacks, b))
  {
    var o :| Lists(a, o) && Lists(b, o);
    var i :| 0 <= i < |a.outputs| && a.outputs[i].ordinal == o;
    var j :| 0 <= j < |b.outputs| && b.outputs[j].ordinal == o;
    var k := FirstOfBatch(callbacks, a, i, o);
    var l := FirstOfBatch(callbacks, b, j, o);
    assert WellStamped(callbacks, a, k) && WellStamped(callbacks, b, l);
    var id := (ChannelOf(callbacks, a, o), a.outputs[k].header);
    OutputIsIdentity(callbacks, a, |a.outputs|, k);
    OutputIsIdentity(callbacks, b, |b.outputs|, l);
    assert id in AllIdentities(callbacks, a) && id in AllIdentities(callbacks, b);
  }

  lemma {:induction false} SharingClashes(callbacks: Callbacks, a: Record, b: Record)
    requires SoundDescriptor(callbacks) && WellRecorded(callbacks, a) && WellRecorded(callbacks, b)
    requires !(AllIdentities(callbacks, a) !! AllIdentities(callbacks, b))
    ensures Clash(a, b)
  {
    var id :| id in AllIdentities(callbacks, a) && id in AllIdentities(callbacks, b);
    var k := IdentityIsOutput(callbacks, a, |a.outputs|, id);
    var l := IdentityIsOutput(callbacks, b, |b.outputs|, id);
    assert WellStamped(callbacks, a, k) && WellStamped(callbacks, b, l);
    IdentityTellsEndpoint(callbacks, a, k, b, l);
    assert Lists(a, a.outputs[k].ordinal) && Lists(b, a.outputs[k].ordinal);
  }

  ghost function Produced(callbacks: Callbacks, records: seq<Record>): set<Identity> {
    if records == [] then {}
    else Produced(callbacks, records[..|records| - 1]) + AllIdentities(callbacks, records[|records| - 1])
  }

  lemma {:induction false} SharesWithProduced(callbacks: Callbacks, records: seq<Record>, last: Record)
    requires SoundDescriptor(callbacks) && WellRecorded(callbacks, last)
    requires forall i :: 0 <= i < |records| ==> WellRecorded(callbacks, records[i])
    ensures AllIdentities(callbacks, last) !! Produced(callbacks, records)
        <==> forall i :: 0 <= i < |records| ==> !Clash(records[i], last)
  {
    if records != [] {
      var n := |records| - 1;
      SharesWithProduced(callbacks, records[..n], last);
      if Clash(records[n], last) {
        ClashShares(callbacks, records[n], last);
      } else if !(AllIdentities(callbacks, records[n]) !! AllIdentities(callbacks, last)) {
        SharingClashes(callbacks, records[n], last);
        assert false;
      }
      assert forall i :: 0 <= i < n ==> records[..n][i] == records[i];
    }
  }

  lemma {:induction false} NoClashSplits(records: seq<Record>)
    requires records != []
    ensures NoClash(records) <==>
      && NoClash(records[..|records| - 1])
      && forall i :: 0 <= i < |records| - 1 ==> !Clash(records[i], records[|records| - 1])
  {
    var n := |records| - 1;
    if NoClash(records) {
      forall i, j | 0 <= i < j < n ensures !Clash(records[..n][i], records[..n][j]) {
        assert !Clash(records[i], records[j]);
      }
    } else {
      var i, j :| 0 <= i < j < |records| && Clash(records[i], records[j]);
      assert j < n ==> Clash(records[..n][i], records[..n][j]);
    }
  }

  /** A well recorded execution passes exactly when it produces nothing produced before. */
  lemma {:induction false} RecordPasses(callbacks: Callbacks, record: Record, produced: set<Identity>)
    requires SoundDescriptor(callbacks) && WellRecorded(callbacks, record)
    ensures CheckRecord(callbacks, record, produced).Ok? <==> AllIdentities(callbacks, record) !! produced
    ensures CheckRecord(callbacks, record, produced).Ok? ==>
      CheckRecord(callbacks, record, produced).value == produced + AllIdentities(callbacks, record)
  {
    OutputsPass(callbacks, record, |record.outputs|, produced);
  }

  lemma {:induction false} LastPasses(callbacks: Callbacks, records: seq<Record>, produced: set<Identity>)
    requires SoundDescriptor(callbacks) && records != [] && WellRecorded(callbacks, records[|records| - 1])
    requires var before := CheckAll(callbacks, records[..|records| - 1]); before.Ok? ==> before.value == produced
    ensures var ids := AllIdentities(callbacks, records[|records| - 1]);
      && (CheckAll(callbacks, records).Ok? <==> CheckAll(callbacks, records[..|records| - 1]).Ok? && ids !! produced)
      && (CheckAll(callbacks, records).Ok? ==> CheckAll(callbacks, records).value == produced + ids)
  {
    RecordPasses(callbacks, records[|records| - 1], produced);
  }

  ghost predicate AllWellRecorded(callbacks: Callbacks, records: seq<Record>) {
    forall i :: 0 <= i < |records| ==> WellRecorded(callbacks, records[i])
  }

  /** On well recorded executions the checks pass exactly when no two of them clash. */
  lemma {:induction false} ChecksPassExactly(callbacks: Callbacks, records: seq<Record>)
    requires SoundDescriptor(callbacks) && AllWellRecorded(callbacks, records)
    ensures CheckAll(callbacks, records).Ok? <==> NoClash(records)
    ensures CheckAll(callbacks, records).Ok? ==> CheckAll(callbacks, records).value == Produced(callbacks, records)
  {
    if records != [] {
      var n := |records| - 1;
      ChecksPassExactly(callbacks, records[..n]);
      LastPasses(callbacks, records, Produced(callbacks, records[..n]));
      NoneClashesWith(callbacks, records);
      NoClashSplits(records);
    }
  }

  lemma {:induction false} NoneClashesWith(callbacks: Callbacks, records: seq<Record>)
    requires SoundDescriptor(callbacks) && AllWellRecorded(callbacks, records) && records != []
    ensures var n := |records| - 1;
      AllIdentities(callbacks, records[n]) !! Produced(callbacks, records[..n])
      <==> forall i :: 0 <= i < n ==> !Clash(records[i], records[n])
  {
    var n := |records| - 1;
    SharesWithProduced(callbacks, records[..n], records[n]);
    assert forall i :: 0 <= i < n ==> records[..n][i] == records[i];
  }

  // ---------------------------------------------------------------- the order of the log does not matter

  lemma {:induction false} GroupMembers(records: seq<Record>, k: int, r: Record)
    ensures r in WithKey(records, RecordTime, k) <==> r in records && r.time == k
  {
    if records != [] {
      GroupMembers(records[..|records| - 1], k, r);
      assert records == records[..|records| - 1] + [records[|records| - 1]];
    }
  }

  ghost predicate NoClashAt(records: seq<Record>, k: int) { NoClash(WithKey(records, RecordTime, k)) }

  /** Clashes happen among executions of the same time. */
  lemma {:induction false} ClashesAreLocal(records: seq<Record>, k: int)
    ensures NoClash(records) ==> NoClashAt(records, k)
  {
    if records != [] && NoClash(records) {
      NoClashSplits(records);
      ClashesAreLocal(records[..|records| - 1], k);
      GroupGrows(records, k);
    }
  }

  lemma {:induction false} NoLocalClash(records: seq<Record>)
    requires forall k :: NoClashAt(records, k)
    ensures NoClash(records)
  {
    if records != [] {
      var shorter := records[..|records| - 1];
      forall k ensures NoClashAt(shorter, k) {
        assert NoClashAt(records, k);
        GroupGrows(records, k);
      }
      NoLocalClash(shorter);
      assert NoClashAt(records, records[|records| - 1].time);
      GroupGrows(records, records[|records| - 1].time);
      NoClashSplits(records);
    }
  }

  lemma {:induction false} GroupGrows(records: seq<Record>, k: int)
    requires records != []
    ensures var n, last := |records| - 1, records[|records| - 1];
      NoClashAt(records, k) <==>
        NoClashAt(records[..n], k)
        && (k == last.time ==> forall i :: 0 <= i < n ==> !Clash(records[i], last))
  {
    var n, last := |records| - 1, records[|records| - 1];
    var group := WithKey(records[..n], RecordTime, k);
    if k == last.time {
      NoClashSplits(group + [last]);
      assert (group + [last])[..|group|] == group;
      forall i | 0 <= i < n && Clash(records[i], last) ensures exists j :: 0 <= j < |group| && Clash(group[j], last) {
        GroupMembers(records[..n], k, records[i]);
        assert records[..n][i] == records[i];
        var j :| 0 <= j < |group| && group[j] == records[i];
      }
      forall j | 0 <= j < |group| && Clash(group[j], last) ensures exists i :: 0 <= i < n && Clash(records[i], last) {
        GroupMembers(records[..n], k, group[j]);
        var i :| 0 <= i < n && records[..n][i] == group[j];
        assert records[i] == group[j];
      }
    } else {
      assert group + [] == group;
    }
  }

  /**
   A log of executions that the recorder committed passes `finish` if and only if no output
   endpoint is listed by two executions with the same timestamp.
   */
  lemma {:induction false} FinishAcceptsExactly(callbacks: Callbacks, records: seq<Record>)
    requires SoundDescriptor(callbacks) && forall i :: 0 <= i < |records| ==> WellRecorded(callbacks, records[i])
    ensures CheckAll(callbacks, SortBy(records, RecordTime)).Ok? <==> NoClash(records)
  {
    var sorted := SortBy(records, RecordTime);
    SortIsStable(records, RecordTime);
    forall i | 0 <= i < |sorted| ensures WellRecorded(callbacks, sorted[i]) {
      SortMembers(records, RecordTime, sorted[i]);
    }
    ChecksPassExactly(callbacks, sorted);
    forall k ensures NoClashAt(sorted, k) <==> NoClashAt(records, k) {
      assert WithKey(sorted, RecordTime, k) == WithKey(records, RecordTime, k);
    }
    if NoClash(records) {
      forall k ensures NoClashAt(sorted, k) {
        ClashesAreLocal(records, k);
      }
      NoLocalClash(sorted);
    }
    if NoClash(sorted) {
      forall k ensures NoClashAt(records, k) {
        ClashesAreLocal(sorted, k);
      }
      NoLocalClash(records);
    }
  }

  // ---------------------------------------------------------------- publishing and listing

  function Sum(counts: seq<nat>): nat {
    if counts == [] then 0 else Sum(counts[..|counts| - 1]) + counts[|counts| - 1]
  }

  /** The output endpoint sends at least one message. */
  ghost predicate Publishes(outputs: seq<Output>, counts: seq<nat>, ordinal: nat)
    requires |outputs| == |counts|
  {
    exists i :: 0 <= i < |outputs| && outputs[i].ordinal == ordinal && counts[i] > 0
  }

  /** Its first message is among the first 16 that the execution sends, output by output. */
  ghost predicate PublishesEarly(outputs: seq<Output>, counts: seq<nat>, ordinal: nat)
    requires |outputs| == |counts|
  {
    exists i :: 0 <= i < |outputs| && outputs[i].ordinal == ordinal && counts[i] > 0
                && Sum(counts[..i]) < MAX_RECORDED_MESSAGES
  }

  lemma {:induction false} StampsAreMany(outputs: seq<Output>, counts: seq<nat>, time: int)
    requires |outputs| == |counts|
    ensures |Stamps(outputs, counts, time)| == Sum(counts)
  {
    if outputs != [] {
      StampsAreMany(outputs[..|outputs| - 1], counts[..|counts| - 1], time);
    }
  }

  lemma {:induction false} SumGrows(counts: seq<nat>, i: nat)
    requires i < |counts|
    ensures Sum(counts[..i]) + counts[i] <= Sum(counts)
  {
    var last := |counts| - 1;
    if i < last {
      SumGrows(counts[..last], i);
      assert counts[..last][..i] == counts[..i];
    }
  }

  /** The first message of an output follows all messages of the outputs before it. */
  lemma {:induction false} PublishedIsStamped(outputs: seq<Output>, counts: seq<nat>, time: int, i: nat)
    requires |outputs| == |counts| && i < |outputs| && counts[i] > 0
    ensures var k := Sum(counts[..i]);
      k < |Stamps(outputs, counts, time)| && Stamps(outputs, counts, time)[k].ordinal == outputs[i].ordinal
  {
    var last := |outputs| - 1;
    if i < last {
      PublishedIsStamped(outputs[..last], counts[..last], time, i);
      assert counts[..last][..i] == counts[..i];
    } else {
      StampsAreMany(outputs[..last], counts[..last], time);
    }
  }

  lemma {:induction false} StampedIsPublished(outputs: seq<Output>, counts: seq<nat>, time: int, k: nat) returns (i: nat)
    requires |outputs| == |counts| && k < |Stamps(outputs, counts, time)|
    ensures i < |outputs| && counts[i] > 0 && Stamps(outputs, counts, time)[k].ordinal == outputs[i].ordinal
    ensures Sum(counts[..i]) <= k
  {
    var last := |outputs| - 1;
    if k < |Stamps(outputs[..last], counts[..last], time)| {
      i := StampedIsPublished(outputs[..last], counts[..last], time, k);
      assert counts[..last][..i] == counts[..i];
    } else {
      i := last;
      StampsAreMany(outputs[..last], counts[..last], time);
    }
  }

  /** A record lists exactly the outputs whose first message is among the first 16 that were stamped. */
  lemma {:induction false} ListsWhatFits(
      callback: nat, outputs: seq<Output>, time: int, inputs: seq<Logged>, counts: seq<nat>, ordinal: nat)
    requires |outputs| == |counts|
    ensures Lists(RecordOf(callback, Full, outputs, time, inputs, Commit(counts)), ordinal)
        <==> PublishesEarly(outputs, counts, ordinal)
  {
    var record := RecordOf(callback, Full, outputs, time, inputs, Commit(counts));
    var all := Stamps(outputs, counts, time);
    if Lists(record, ordinal) {
      var k :| 0 <= k < |record.outputs| && record.outputs[k].ordinal == ordinal;
      var i := StampedIsPublished(outputs, counts, time, k);
      assert all[k] == record.outputs[k];
    }
    if PublishesEarly(outputs, counts, ordinal) {
      var i :| 0 <= i < |outputs| && outputs[i].ordinal == ordinal && counts[i] > 0 && Sum(counts[..i]) < MAX_RECORDED_MESSAGES;
      PublishedIsStamped(outputs, counts, time, i);
      assert record.outputs[Sum(counts[..i])] == all[Sum(counts[..i])];
    }
  }

  // ---------------------------------------------------------------- a whole run

  /** A committed execution: what it read and how many messages each data output sent. */
  datatype Execution = Execution(callback: nat, time: int, inputs: seq<Logged>, counts: seq<nat>)

  /** The inputs that fit into its record were declared, and each message was published at a valid time. */
  ghost predicate Possible(callbacks: Callbacks, x: Execution) {
    && x.callback < |callbacks| && x.time != INVALID_TIME && |x.counts| == |OutputsOf(callbacks[x.callback])|
    && forall k :: 0 <= k < |Kept(x.inputs)| ==> ReadsDeclared(callbacks, x.callback, Kept(x.inputs)[k])
  }

  /** It sends no more messages than a record lists. */
  predicate Untruncated(x: Execution) { Sum(x.counts) <= MAX_RECORDED_MESSAGES }

  ghost predicate AllPossible(callbacks: Callbacks, run: seq<Execution>) {
    forall i :: 0 <= i < |run| ==> Possible(callbacks, run[i])
  }

  predicate ReadsDeclared(callbacks: Callbacks, callback: nat, m: Logged) {
    Find(callbacks, callback, Received, m.ordinal).Some? && m.header.publishedAt != INVALID_TIME
  }

  ghost function RecordedAs(callbacks: Callbacks, x: Execution): Record
    requires Possible(callbacks, x)
  {
    RecordOf(x.callback, Full, OutputsOf(callbacks[x.callback]), x.time, x.inputs, Commit(x.counts))
  }

  /** The log holds the record of each execution. */
  ghost predicate Logs(callbacks: Callbacks, run: seq<Execution>, log: seq<Record>)
    requires AllPossible(callbacks, run)
  {
    |log| == |run| && forall i :: 0 <= i < |run| ==> log[i] == RecordedAs(callbacks, run[i])
  }

  /** One output endpoint sends in both executions, at the same time, early enough to be listed. */
  ghost predicate Overlap(callbacks: Callbacks, x: Execution, y: Execution)
    requires Possible(callbacks, x) && Possible(callbacks, y)
  {
    x.callback == y.callback && x.time == y.time
    && exists o :: PublishesEarly(OutputsOf(callbacks[x.callback]), x.counts, o)
                   && PublishesEarly(OutputsOf(callbacks[y.callback]), y.counts, o)
  }

  /** One output endpoint sends in both executions, at the same time. */
  ghost predicate PublishTogether(callbacks: Callbacks, x: Execution, y: Execution)
    requires Possible(callbacks, x) && Possible(callbacks, y)
  {
    x.callback == y.callback && x.time == y.time
    && exists o :: Publishes(OutputsOf(callbacks[x.callback]), x.counts, o)
                   && Publishes(OutputsOf(callbacks[y.callback]), y.counts, o)
  }

  ghost predicate NoOverlap(callbacks: Callbacks, run: seq<Execution>)
    requires AllPossible(callbacks, run)
  {
    forall i, j :: 0 <= i < j < |run| ==> !Overlap(callbacks, run[i], run[j])
  }

  ghost predicate NoneTogether(callbacks: Callbacks, run: seq<Execution>)
    requires AllPossible(callbacks, run)
  {
    forall i, j :: 0 <= i < j < |run| ==> !PublishTogether(callbacks, run[i], run[j])
  }

  lemma {:induction false} DeclaredInputsPass(callbacks: Callbacks, record: Record, n: nat)
    requires n <= |record.inputs|
    requires forall k :: 0 <= k < |record.inputs| ==> ReadsDeclared(callbacks, record.callback, record.inputs[k])
    ensures CheckInputs(callbacks, record, n).Ok?
  {
    if n > 0 {
      DeclaredInputsPass(callbacks, record, n - 1);
      assert ReadsDeclared(callbacks, record.callback, record.inputs[n - 1]);
    }
  }

  /** Every committed record that the recorder writes in full mode is well recorded, whatever was truncated. */
  lemma {:induction false} RecorderWritesWellRecorded(callbacks: Callbacks, x: Execution)
    requires SoundDescriptor(callbacks) && Possible(callbacks, x)
    ensures WellRecorded(callbacks, RecordedAs(callbacks, x))
  {
    var record := RecordedAs(callbacks, x);
    DeclaredInputsPass(callbacks, record, |record.inputs|);
    StampedRecordIsWell(callbacks, x.counts, record);
  }

  lemma {:induction false} ClashIsOverlap(callbacks: Callbacks, x: Execution, y: Execution)
    requires Possible(callbacks, x) && Possible(callbacks, y)
    ensures Clash(RecordedAs(callbacks, x), RecordedAs(callbacks, y)) <==> Overlap(callbacks, x, y)
  {
    forall o: nat
      ensures Lists(RecordedAs(callbacks, x), o) <==> PublishesEarly(OutputsOf(callbacks[x.callback]), x.counts, o)
      ensures Lists(RecordedAs(callbacks, y), o) <==> PublishesEarly(OutputsOf(callbacks[y.callback]), y.counts, o)
    {
      ListsWhatFits(x.callback, OutputsOf(callbacks[x.callback]), x.time, x.inputs, x.counts, o);
      ListsWhatFits(y.callback, OutputsOf(callbacks[y.callback]), y.time, y.inputs, y.counts, o);
    }
  }

  /**
   From publishing to replay: `finish` accepts the recorder's log of a run if and only if no
   output endpoint sends, within the first 16 messages of two executions, at the same time.
   */
  lemma {:induction false} FinishAcceptsRun(callbacks: Callbacks, run: seq<Execution>, log: seq<Record>)
    requires SoundDescriptor(callbacks) && AllPossible(callbacks, run) && Logs(callbacks, run, log)
    ensures CheckAll(callbacks, SortBy(log, RecordTime)).Ok? <==> NoOverlap(callbacks, run)
  {
    forall i | 0 <= i < |log| ensures WellRecorded(callbacks, log[i]) {
      RecorderWritesWellRecorded(callbacks, run[i]);
    }
    FinishAcceptsExactly(callbacks, log);
    forall i, j | 0 <= i < j < |run| ensures Clash(log[i], log[j]) <==> Overlap(callbacks, run[i], run[j]) {
      ClashIsOverlap(callbacks, run[i], run[j]);
    }
  }

  lemma {:induction false} FewAreEarly(outputs: seq<Output>, counts: seq<nat>, ordinal: nat)
    requires |outputs| == |counts| && Sum(counts) <= MAX_RECORDED_MESSAGES
    ensures PublishesEarly(outputs, counts, ordinal) <==> Publishes(outputs, counts, ordinal)
  {
    if Publishes(outputs, counts, ordinal) {
      var i :| 0 <= i < |outputs| && outputs[i].ordinal == ordinal && counts[i] > 0;
      SumGrows(counts, i);
    }
  }

  lemma {:induction false} OverlapUntruncated(callbacks: Callbacks, x: Execution, y: Execution)
    requires Possible(callbacks, x) && Possible(callbacks, y)
    requires Untruncated(x) && Untruncated(y)
    ensures Overlap(callbacks, x, y) <==> PublishTogether(callbacks, x, y)
  {
    forall o: nat
      ensures PublishesEarly(OutputsOf(callbacks[x.callback]), x.counts, o)
         <==> Publishes(OutputsOf(callbacks[x.callback]), x.counts, o)
      ensures PublishesEarly(OutputsOf(callbacks[y.callback]), y.counts, o)
         <==> Publishes(OutputsOf(callbacks[y.callback]), y.counts, o)
    {
      FewAreEarly(OutputsOf(callbacks[x.callback]), x.counts, o);
      FewAreEarly(OutputsOf(callbacks[y.callback]), y.counts, o);
    }
  }

  ghost predicate AllUntruncated(run: seq<Execution>) {
    forall i :: 0 <= i < |run| ==> Untruncated(run[i])
  }

  /** Where no execution sends more than 16 messages, the log passes if and only if no output sends twice at one time. */
  lemma {:induction false} FinishAcceptsUntruncatedRun(callbacks: Callbacks, run: seq<Execution>, log: seq<Record>)
    requires SoundDescriptor(callbacks) && AllPossible(callbacks, run) && Logs(callbacks, run, log) && AllUntruncated(run)
    ensures CheckAll(callbacks, SortBy(log, RecordTime)).Ok? <==> NoneTogether(callbacks, run)
  {
    FinishAcceptsRun(callbacks, run, log);
    forall i, j | 0 <= i < j < |run|
      ensures Overlap(callbacks, run[i], run[j]) <==> PublishTogether(callbacks, run[i], run[j])
    {
      OverlapUntruncated(callbacks, run[i], run[j]);
    }
  }

  /**
   Truncation hides publications: the second output publishes in both executions at time 0,
   yet the records do not clash, because the first record is full before it gets there.
   */
  lemma {:induction false} TruncationHidesClash()
    ensures var outputs := [Output(0, 0), Output(1, 1)];
      var a := RecordOf(0, Full, outputs, 0, [], Commit([16, 1]));
      var b := RecordOf(0, Full, outputs, 0, [], Commit([0, 1]));
      Publishes(outputs, [16, 1], 1) && Publishes(outputs, [0, 1], 1) && NoClash([a, b])
  {
    var outputs, full, small := [Output(0, 0), Output(1, 1)], [16, 1], [0, 1];
    var a, b := RecordOf(0, Full, outputs, 0, [], Commit(full)), RecordOf(0, Full, outputs, 0, [], Commit(small));
    assert outputs[1].ordinal == 1 && full[1] > 0 && small[1] > 0;
    TwoOutputs(outputs[0], outputs[1], 16, 1, 0);
    TwoOutputs(outputs[0], outputs[1], 0, 1, 0);
    assert Kept(Stamps(outputs, full, 0)) == Batch(outputs[0], 16, 0);
    assert Stamps(outputs, small, 0) == Batch(outputs[1], 1, 0);
  }

  lemma {:induction false} TwoOutputs(first: Output, second: Output, m: nat, n: nat, time: int)
    ensures Stamps([first, second], [m, n], time) == Batch(first, m, time) + Batch(second, n, time)
  {
    assert [first, second][..1] == [first] && [m, n][..1] == [m];
    assert [first][..0] == [] && [m][..0] == [];
    assert Stamps([], [], time) == [];
    assert Stamps([first], [m], time) == [] + Batch(first, m, time) == Batch(first, m, time);
  }
}
