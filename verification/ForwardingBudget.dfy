/**
 Retention budgets across forwarding channels: a memoised depth-first search gives
 every source channel room for the handles its downstream slots may keep.
 */
module ForwardingBudget {
  import opened Basics
  import opened StorageBudget

  datatype PublisherSpec = PublisherSpec(loans: Usize, retained: Usize)

  /** A channel plan; only native channels can take part in forwarding. */
  datatype Channel =
    | Native(publishers: seq<PublisherSpec>, subscribers: seq<Usize>, forwarding: Usize)
    | Iox2

  datatype Edge = Edge(source: string, output: string)

  datatype Graph = Graph(channels: map<string, Channel>, edges: seq<Edge>)

  datatype BuildError =
    | Cycle(name: string)
    | UnknownChannel(name: string)
    | NotForwarding(name: string)
    | Storage(error: StorageError)

  // ---------------------------------------------------------------- one channel

  /** `publisher_plan`: the publisher's own retained budget plus the channel's forwarding retention. */
  function PublisherPlan(channel: Channel, spec: PublisherSpec): Result<Plan, StorageError>
    requires channel.Native?
  {
    match CheckedAdd(spec.retained, channel.forwarding)
    case Some(retained) => Ok(Plan(spec.loans, retained, channel.subscribers))
    case None => Err(CapacityOverflow)
  }

  ghost function SpecSlots(channel: Channel, spec: PublisherSpec): Result<Usize, StorageError>
    requires channel.Native?
  {
    match PublisherPlan(channel, spec)
    case Ok(plan) => PlanCapacity(plan)
    case Err(e) => Err(e)
  }

  function AddChecked(a: Result<Usize, StorageError>, b: Result<Usize, StorageError>): Result<Usize, StorageError> {
    if a.Err? then a
    else if b.Err? then b
    else if a.value + b.value > USIZE_MAX then Err(CapacityOverflow)
    else Ok(a.value + b.value)
  }

  ghost function FirstSlots(channel: Channel, n: nat): Result<Usize, StorageError>
    requires channel.Native? && n <= |channel.publishers|
  {
    if n == 0 then Ok(0)
    else AddChecked(FirstSlots(channel, n - 1), SpecSlots(channel, channel.publishers[n - 1]))
  }

  ghost function ChannelSlots(channel: Channel): Result<Usize, StorageError>
    requires channel.Native?
  {
    FirstSlots(channel, |channel.publishers|)
  }

  lemma {:induction false} FailureStays(channel: Channel, n: nat, m: nat)
    requires channel.Native? && n <= m <= |channel.publishers| && FirstSlots(channel, n).Err?
    ensures FirstSlots(channel, m) == FirstSlots(channel, n)
  {
    if n < m {
      FailureStays(channel, n, m - 1);
    }
  }

  /** `total_publisher_capacity`: the sum of the planned arenas, stopping at the first error. */
  method TotalPublisherCapacity(channel: Channel) returns (r: Result<Usize, StorageError>)
    requires channel.Native?
    ensures r == ChannelSlots(channel)
  {
    var sum: Usize := 0;
    for n := 0 to |channel.publishers|
      invariant FirstSlots(channel, n) == Ok(sum)
    {
      var slots;
      match PublisherPlan(channel, channel.publishers[n]) {
        case Ok(plan) => slots := Capacity(plan);
        case Err(e) => slots := Err(e);
      }
      var next := AddChecked(Ok(sum), slots);
      assert FirstSlots(channel, n + 1) == next;
      if next.Err? {
        FailureStays(channel, n + 1, |channel.publishers|);
        return next;
      }
      sum := next.value;
    }
    return Ok(sum);
  }

  // ---------------------------------------------------------------- the search without a memo

  function Sources(g: Graph): set<string> {
    set e | e in g.edges :: e.source
  }

  /** Every channel named by a forwarding edge. */
  function Endpoints(g: Graph): set<string> {
    Sources(g) + set e | e in g.edges :: e.output
  }

  function OutputsOf(edges: seq<Edge>, name: string): seq<string> {
    if edges == [] then []
    else OutputsOf(edges[..|edges| - 1], name)
         + if edges[|edges| - 1].source == name then [edges[|edges| - 1].output] else []
  }

  function Outputs(g: Graph, name: string): seq<string> { OutputsOf(g.edges, name) }

  lemma {:induction false} OutputsAreEdges(edges: seq<Edge>, name: string, output: string)
    ensures output in OutputsOf(edges, name) <==> Edge(name, output) in edges
  {
    if edges != [] {
      OutputsAreEdges(edges[..|edges| - 1], name, output);
    }
  }

  lemma {:induction false} OutputsNeedSource(g: Graph, name: string)
    ensures Outputs(g, name) != [] ==> name in Sources(g)
  {
    if Outputs(g, name) != [] {
      OutputsAreEdges(g.edges, name, Outputs(g, name)[0]);
      assert Edge(name, Outputs(g, name)[0]).source == name;
    }
  }

  lemma {:induction false} OutputsAreEndpoints(g: Graph, name: string)
    ensures forall k :: 0 <= k < |Outputs(g, name)| ==> Outputs(g, name)[k] in Endpoints(g)
  {
    forall k | 0 <= k < |Outputs(g, name)| ensures Outputs(g, name)[k] in Endpoints(g) {
      OutputsAreEdges(g.edges, name, Outputs(g, name)[k]);
      assert Edge(name, Outputs(g, name)[k]) in g.edges;
    }
  }

  lemma {:induction false} PathGrows(g: Graph, name: string, path: set<string>)
    requires name !in path && Outputs(g, name) != []
    ensures |Sources(g) - (path + {name})| < |Sources(g) - path|
  {
    OutputsNeedSource(g, name);
    assert Sources(g) - path == (Sources(g) - (path + {name})) + {name};
  }

  /** The slots a channel needs once its downstream channels are budgeted; `path` leads to it. */
  ghost function Slots(g: Graph, name: string, path: set<string>): Result<Usize, BuildError>
    decreases |Sources(g) - path|, 0, 0
  {
    if name in path then Err(Cycle(name))
    else
      var extra :=
        if Outputs(g, name) == [] then Ok(0)
        else (PathGrows(g, name, path); Extra(g, Outputs(g, name), path + {name}));
      match extra
      case Err(e) => Err(e)
      case Ok(extra) => SlotsWith(g, name, extra)
  }

  /** The slots of one channel, given the retention its downstream channels ask for. */
  ghost function SlotsWith(g: Graph, name: string, extra: Usize): Result<Usize, BuildError> {
    if name !in g.channels then Err(UnknownChannel(name))
    else if g.channels[name].Iox2? then Err(NotForwarding(name))
    else Lift(ChannelSlots(g.channels[name].(forwarding := extra)))
  }

  /** The sum over downstream channels. */
  ghost function Extra(g: Graph, outputs: seq<string>, path: set<string>): Result<Usize, BuildError>
    decreases |Sources(g) - path|, 1, |outputs|
  {
    if outputs == [] then Ok(0)
    else Accumulate(Extra(g, outputs[..|outputs| - 1], path), Slots(g, outputs[|outputs| - 1], path))
  }

  function Lift(r: Result<Usize, StorageError>): Result<Usize, BuildError> {
    match r case Ok(v) => Ok(v) case Err(e) => Err(Storage(e))
  }

  function Accumulate(sum: Result<Usize, BuildError>, next: Result<Usize, BuildError>): Result<Usize, BuildError> {
    if sum.Err? then sum
    else if next.Err? then next
    else if sum.value + next.value > USIZE_MAX then Err(Storage(CapacityOverflow))
    else Ok(sum.value + next.value)
  }

  ghost function Needs(g: Graph, name: string): Result<Usize, BuildError> { Slots(g, name, {}) }

  ghost predicate Closed(g: Graph, names: set<string>) {
    forall n, o {:trigger o in Outputs(g, n)} :: n in names && o in Outputs(g, n) ==> o in names
  }

  /** A successful answer does not depend on the path, as long as the path stays out of what is reached. */
  lemma {:induction false} SlotsIgnorePath(g: Graph, name: string, p: set<string>, q: set<string>, reach: set<string>)
    requires Closed(g, reach) && name in reach && q * reach <= p && Slots(g, name, p).Ok?
    ensures Slots(g, name, q) == Slots(g, name, p)
    decreases |Sources(g) - p|, 0, 0
  {
    if Outputs(g, name) != [] {
      PathGrows(g, name, p);
      ExtraIgnoresPath(g, Outputs(g, name), p + {name}, q + {name}, reach);
    }
  }

  lemma {:induction false} ExtraIgnoresPath(
      g: Graph, outputs: seq<string>, p: set<string>, q: set<string>, reach: set<string>)
    requires Closed(g, reach) && (forall o :: o in outputs ==> o in reach) && q * reach <= p && Extra(g, outputs, p).Ok?
    ensures Extra(g, outputs, q) == Extra(g, outputs, p)
    decreases |Sources(g) - p|, 1, |outputs|
  {
    if outputs != [] {
      var last := |outputs| - 1;
      ExtraIgnoresPath(g, outputs[..last], p, q, reach);
      SlotsIgnorePath(g, outputs[last], p, q, reach);
    }
  }

  lemma {:induction false} ExtraFails(g: Graph, outputs: seq<string>, n: nat, path: set<string>)
    requires n <= |outputs| && Extra(g, outputs[..n], path).Err?
    ensures Extra(g, outputs, path) == Extra(g, outputs[..n], path)
    decreases |outputs|
  {
    if n == |outputs| {
      assert outputs[..n] == outputs;
    } else {
      var shorter := outputs[..|outputs| - 1];
      assert shorter[..n] == outputs[..n];
      ExtraFails(g, shorter, n, path);
    }
  }

  // ---------------------------------------------------------------- the memoised search

  /** The retention a channel gets: the sum over its outgoing edges of the target's slots. */
  ghost function Retention(g: Graph, name: string): Usize {
    var extra := Extra(g, Outputs(g, name), {name});
    if extra.Ok? then extra.value else 0
  }

  /** The memo holds what the search without a memo answers, for a set closed under forwarding. */
  ghost predicate MemoSound(g: Graph, done: map<string, Usize>) {
    && Closed(g, done.Keys) && done.Keys <= Endpoints(g)
    && forall n {:trigger Needs(g, n)} :: n in done ==> Needs(g, n) == Ok(done[n])
  }

  /** The channels with the retention of `names` reserved. */
  ghost function Reserve(g: Graph, names: set<string>): map<string, Channel> {
    map n | n in g.channels ::
      if n in names && g.channels[n].Native? then g.channels[n].(forwarding := Retention(g, n)) else g.channels[n]
  }

  class GraphPlan {
    var channels: map<string, Channel>
    var edges: seq<Edge>

    ghost predicate Reflects(g: Graph, done: map<string, Usize>)
      reads this
    {
      edges == g.edges && MemoSound(g, done) && channels == Reserve(g, done.Keys)
    }

    /** The inner `budget`: memo first, then the cycle check, then the outputs, then this channel. */
    method Budget(ghost g: Graph, name: string, visiting: set<string>, done: map<string, Usize>)
      returns (r: Result<Usize, BuildError>, visiting': set<string>, done': map<string, Usize>)
      requires Reflects(g, done) && visiting !! done.Keys && name in Endpoints(g)
      modifies this`channels
      ensures r == Slots(g, name, visiting)
      ensures r.Ok? ==>
        && Reflects(g, done') && visiting' == visiting && visiting !! done'.Keys
        && done.Keys <= done'.Keys && name in done' && done'[name] == r.value
      decreases |Sources(g) - visiting|, 0
    {
      visiting', done' := visiting, done;
      if name in done {
        assert Needs(g, name).Ok?;
        SlotsIgnorePath(g, name, {}, visiting, done.Keys);
        return Ok(done[name]), visiting', done';
      }
      if name in visiting {
        return Err(Cycle(name)), visiting', done';
      }
      visiting' := visiting + {name};
      var outputs := OutputsOf(edges, name);
      var extra := Ok(0);
      if outputs != [] {
        PathGrows(g, name, visiting);
        OutputsAreEndpoints(g, name);
        extra, done' := BudgetOutputs(g, outputs, visiting', done');
      }
      SlotsFromExtra(g, name, visiting);
      if extra.Err? {
        return extra, visiting', done';
      }
      r := ReserveForwarding(g, name, done', extra.value);
      if r.Ok? {
        MemoGrows(g, name, visiting, done', extra.value, r.value);
        done' := done'[name := r.value];
        assert Reflects(g, done');
        visiting' := visiting' - {name};
        assert visiting' == visiting;
      }
    }

    /** `prepare_forwarding`: every edge's source, with a fresh path and a shared memo. */
    method PrepareForwarding() returns (r: Result<(), BuildError>)
      modifies this`channels
      ensures var g := Graph(old(channels), edges);
        r == Preparation(g, |g.edges|) && (r.Ok? ==> Graph(channels, edges) == Prepared(g))
    {
      ghost var g := Graph(channels, edges);
      var done := map[];
      assert Reserve(g, {}) == channels;
      for n := 0 to |edges|
        invariant Reflects(g, done) && Preparation(g, n).Ok?
        invariant forall k :: 0 <= k < n ==> edges[k].source in done.Keys
      {
        var slots, _, done' := Budget(g, edges[n].source, {}, done);
        if slots.Err? {
          assert Needs(g, edges[n].source).Err?;
          PreparationFails(g, n + 1, |g.edges|);
          return Err(slots.error);
        }
        forall k | 0 <= k < n + 1 ensures edges[k].source in done'.Keys {
          assert k < n ==> edges[k].source in done.Keys;
        }
        done := done';
      }
      MemoCovers(g, done);
      return Ok(());
    }

    /** The loop of `budget` over the outgoing edges of one channel. */
    method BudgetOutputs(ghost g: Graph, outputs: seq<string>, visiting: set<string>, done: map<string, Usize>)
      returns (r: Result<Usize, BuildError>, done': map<string, Usize>)
      requires Reflects(g, done) && visiting !! done.Keys
      requires forall k :: 0 <= k < |outputs| ==> outputs[k] in Endpoints(g)
      modifies this`channels
      ensures r == Extra(g, outputs, visiting)
      ensures r.Ok? ==>
        && Reflects(g, done') && visiting !! done'.Keys
        && done.Keys <= done'.Keys && forall o :: o in outputs ==> o in done'
      decreases |Sources(g) - visiting|, 1
    {
      var sum: Usize := 0;
      var visiting' := visiting;
      done' := done;
      for n := 0 to |outputs|
        invariant Reflects(g, done') && visiting' == visiting && visiting !! done'.Keys
        invariant done.Keys <= done'.Keys
        invariant Extra(g, outputs[..n], visiting) == Ok(sum)
        invariant forall k :: 0 <= k < n ==> outputs[k] in done'.Keys
      {
        var slots;
        ghost var known := done'.Keys;
        slots, visiting', done' := Budget(g, outputs[n], visiting', done');
        r := Accumulate(Ok(sum), slots);
        ExtraStep(g, outputs, n, visiting);
        if r.Err? {
          ExtraFails(g, outputs, n + 1, visiting);
          return;
        }
        sum := r.value;
        forall k | 0 <= k < n + 1 ensures outputs[k] in done'.Keys {
          assert k < n ==> outputs[k] in known;
        }
      }
      assert outputs[..|outputs|] == outputs;
      return Ok(sum), done';
    }

    /** `reserve_forwarding` and `forwarding_slots` on one channel. */
    method ReserveForwarding(ghost g: Graph, name: string, ghost done: map<string, Usize>, extra: Usize)
      returns (r: Result<Usize, BuildError>)
      requires Reflects(g, done) && name !in done
      modifies this`channels
      ensures r == SlotsWith(g, name, extra)
      ensures r.Ok? ==>
        && name in g.channels && g.channels[name].Native?
        && channels == Reserve(g, done.Keys)[name := g.channels[name].(forwarding := extra)]
    {
      if name !in channels {
        return Err(UnknownChannel(name));
      }
      if channels[name].Iox2? {
        return Err(NotForwarding(name));
      }
      channels := channels[name := channels[name].(forwarding := extra)];
      var slots := TotalPublisherCapacity(channels[name]);
      return Lift(slots);
    }
  }

  /** The error of the first edge whose source cannot be budgeted. */
  ghost function Preparation(g: Graph, n: nat): Result<(), BuildError>
    requires n <= |g.edges|
  {
    if n == 0 then Ok(())
    else if Preparation(g, n - 1).Err? then Preparation(g, n - 1)
    else match Needs(g, g.edges[n - 1].source) case Ok(_) => Ok(()) case Err(e) => Err(e)
  }

  lemma {:induction false} PreparationFails(g: Graph, n: nat, m: nat)
    requires n <= m <= |g.edges| && Preparation(g, n).Err?
    ensures Preparation(g, m) == Preparation(g, n)
  {
    if n < m {
      PreparationFails(g, n, m - 1);
    }
  }

  ghost predicate Preparable(g: Graph) { Preparation(g, |g.edges|).Ok? }

  ghost function Prepared(g: Graph): Graph { Graph(Reserve(g, Endpoints(g)), g.edges) }

  lemma {:induction false} SlotsFromExtra(g: Graph, name: string, path: set<string>)
    requires name !in path
    ensures
      var extra := if Outputs(g, name) == [] then Ok(0) else Extra(g, Outputs(g, name), path + {name});
      Slots(g, name, path) == if extra.Err? then extra else SlotsWith(g, name, extra.value)
  {
  }

  lemma {:induction false} ExtraStep(g: Graph, outputs: seq<string>, n: nat, path: set<string>)
    requires n < |outputs|
    ensures Extra(g, outputs[..n + 1], path) == Accumulate(Extra(g, outputs[..n], path), Slots(g, outputs[n], path))
  {
    assert outputs[..n + 1][..n] == outputs[..n];
  }

  lemma {:induction false} MemoCovers(g: Graph, done: map<string, Usize>)
    requires MemoSound(g, done) && forall k :: 0 <= k < |g.edges| ==> g.edges[k].source in done.Keys
    ensures done.Keys == Endpoints(g)
  {
    forall e | e in g.edges ensures e.source in done.Keys && e.output in done.Keys {
      var k :| 0 <= k < |g.edges| && g.edges[k] == e;
      OutputsAreEdges(g.edges, e.source, e.output);
      assert Edge(e.source, e.output) == e;
      assert e.output in Outputs(g, e.source);
    }
  }

  /** A channel whose outputs are all in the memo can join it. */
  lemma {:induction false} MemoGrows(
      g: Graph, name: string, path: set<string>, done: map<string, Usize>, extra: Usize, slots: Usize)
    requires MemoSound(g, done) && name !in done && name !in path && name in Endpoints(g)
    requires forall o :: o in Outputs(g, name) ==> o in done
    requires Extra(g, Outputs(g, name), path + {name}) == Ok(extra) && Slots(g, name, path) == Ok(slots)
    ensures MemoSound(g, done[name := slots]) && Retention(g, name) == extra
    ensures name in g.channels && g.channels[name].Native?
    ensures Reserve(g, done[name := slots].Keys) == Reserve(g, done.Keys)[name := g.channels[name].(forwarding := extra)]
  {
    var reach := done.Keys + {name};
    SlotsIgnorePath(g, name, path, {}, reach);
    ExtraIgnoresPath(g, Outputs(g, name), path + {name}, {name}, reach);
  }
}
