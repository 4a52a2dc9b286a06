/**
 What the forwarding search promises: when it fails, that its answer is the only
 solution of the retention equations, and that no prepared channel runs out of slots.
 */
module ForwardingGuarantees {
  import opened Basics
  import opened StorageBudget
  import opened ForwardingBudget

  // ---------------------------------------------------------------- when the search fails

  ghost predicate Walk(g: Graph, walk: seq<string>) {
    walk != [] && forall k :: 0 <= k < |walk| - 1 ==> walk[k + 1] in Outputs(g, walk[k])
  }

  ghost function NeedOf(g: Graph, name: string): nat {
    if Needs(g, name).Ok? then Needs(g, name).value else 0
  }

  ghost function SumOfNeeds(g: Graph, outputs: seq<string>): nat {
    if outputs == [] then 0
    else SumOfNeeds(g, outputs[..|outputs| - 1]) + NeedOf(g, outputs[|outputs| - 1])
  }

  /** Everything downstream can be budgeted, yet the sum or the channel's own arithmetic fails. */
  ghost predicate Overflows(g: Graph, name: string) {
    && (forall o :: o in Outputs(g, name) ==> Needs(g, o).Ok?)
    && (SumOfNeeds(g, Outputs(g, name)) > USIZE_MAX
        || (name in g.channels && g.channels[name].Native?
            && ChannelSlots(g.channels[name].(forwarding := SumOfNeeds(g, Outputs(g, name)))).Err?))
  }

  /** The walk closes a cycle, or ends at a channel that cannot be budgeted. */
  ghost predicate Blocked(g: Graph, walk: seq<string>)
    requires walk != []
  {
    var last := walk[|walk| - 1];
    || last in walk[..|walk| - 1]
    || last !in g.channels
    || g.channels[last].Iox2?
    || Overflows(g, last)
  }

  /** A set closed under forwarding that holds `name`. */
  lemma {:induction false} ClosedAround(g: Graph, name: string)
    ensures Closed(g, Endpoints(g) + {name})
  {
    forall n, o | o in Outputs(g, n) ensures o in Endpoints(g) {
      OutputsAreEndpoints(g, n);
    }
  }

  lemma {:induction false} OkAnywhere(g: Graph, name: string, path: set<string>)
    requires Slots(g, name, path).Ok?
    ensures Needs(g, name) == Slots(g, name, path)
  {
    ClosedAround(g, name);
    SlotsIgnorePath(g, name, path, {}, Endpoints(g) + {name});
  }

  lemma {:induction false} ExtraOk(g: Graph, outputs: seq<string>, path: set<string>, k: nat)
    requires Extra(g, outputs, path).Ok? && k < |outputs|
    ensures Slots(g, outputs[k], path).Ok?
    decreases |outputs|
  {
    if k < |outputs| - 1 {
      ExtraOk(g, outputs[..|outputs| - 1], path, k);
    }
  }

  lemma {:induction false} ExtraSums(g: Graph, outputs: seq<string>, path: set<string>)
    requires forall k :: 0 <= k < |outputs| ==> Slots(g, outputs[k], path).Ok?
    ensures Extra(g, outputs, path) ==
      if SumOfNeeds(g, outputs) <= USIZE_MAX then Ok(SumOfNeeds(g, outputs)) else Err(Storage(CapacityOverflow))
    decreases |outputs|
  {
    if outputs != [] {
      var last := |outputs| - 1;
      ExtraSums(g, outputs[..last], path);
      OkAnywhere(g, outputs[last], path);
    }
  }

  lemma {:induction false} OutputsOk(g: Graph, name: string, path: set<string>)
    requires Slots(g, name, path).Ok?
    ensures forall o :: o in Outputs(g, name) ==> Slots(g, o, path + {name}).Ok?
  {
    SlotsFromExtra(g, name, path);
    forall o | o in Outputs(g, name) ensures Slots(g, o, path + {name}).Ok? {
      var k :| 0 <= k < |Outputs(g, name)| && Outputs(g, name)[k] == o;
      ExtraOk(g, Outputs(g, name), path + {name}, k);
    }
  }

  lemma {:induction false} OkIsNotBlocked(g: Graph, name: string, path: set<string>)
    requires Slots(g, name, path).Ok?
    ensures name !in path && name in g.channels && g.channels[name].Native? && !Overflows(g, name)
  {
    SlotsFromExtra(g, name, path);
    OutputsOk(g, name, path);
    ExtraSums(g, Outputs(g, name), path + {name});
  }

  ghost function Names(walk: seq<string>): set<string> { set n | n in walk }

  lemma {:induction false} OkAlongWalk(g: Graph, walk: seq<string>)
    requires Walk(g, walk) && Needs(g, walk[0]).Ok?
    ensures Slots(g, walk[|walk| - 1], Names(walk[..|walk| - 1])).Ok?
    decreases |walk|
  {
    var last := |walk| - 1;
    if last == 0 {
      assert Names(walk[..0]) == {};
    } else {
      var shorter := walk[..last];
      OkAlongWalk(g, shorter);
      OutputsOk(g, shorter[last - 1], Names(shorter[..last - 1]));
      assert walk[..last] == shorter[..last - 1] + [shorter[last - 1]];
      assert Names(walk[..last]) == Names(shorter[..last - 1]) + {shorter[last - 1]};
      assert walk[last - 1 + 1] in Outputs(g, walk[last - 1]);
    }
  }

  /** An obstacle below `name`, or a walk back into the path that led to it. */
  ghost predicate Obstructs(g: Graph, walk: seq<string>, path: set<string>)
    requires walk != []
  {
    Blocked(g, walk) || walk[|walk| - 1] in path
  }

  lemma {:induction false} FindObstacle(g: Graph, name: string, path: set<string>) returns (walk: seq<string>)
    requires Slots(g, name, path).Err?
    ensures Walk(g, walk) && walk[0] == name && Obstructs(g, walk, path)
    decreases |Sources(g) - path|, 0
  {
    walk := [name];
    if name !in path {
      SlotsFromExtra(g, name, path);
      var outputs := Outputs(g, name);
      if k :| 0 <= k < |outputs| && Slots(g, outputs[k], path + {name}).Err? {
        PathGrows(g, name, path);
        var rest := FindObstacle(g, outputs[k], path + {name});
        walk := [name] + rest;
        Prepend(g, name, rest, path);
      } else {
        ExtraSums(g, outputs, path + {name});
        forall o | o in outputs ensures Needs(g, o).Ok? {
          var k :| 0 <= k < |outputs| && outputs[k] == o;
          OkAnywhere(g, o, path + {name});
        }
      }
    }
  }

  lemma {:induction false} Prepend(g: Graph, name: string, rest: seq<string>, path: set<string>)
    requires Walk(g, rest) && rest[0] in Outputs(g, name) && Obstructs(g, rest, path + {name})
    ensures Walk(g, [name] + rest) && Obstructs(g, [name] + rest, path)
  {
    var walk := [name] + rest;
    forall k | 0 <= k < |walk| - 1 ensures walk[k + 1] in Outputs(g, walk[k]) {
      if k > 0 {
        assert rest[k - 1 + 1] in Outputs(g, rest[k - 1]);
      }
    }
    assert walk[..|walk| - 1] == [name] + rest[..|rest| - 1];
  }

  /**
   The search for one channel fails exactly when some walk along forwarding edges
   closes a cycle or reaches an unknown channel, a channel that cannot forward,
   or a channel whose budget overflows although everything below it fits.
   */
  lemma {:induction false} FailsExactlyOnObstacle(g: Graph, name: string)
    ensures Needs(g, name).Err? <==> exists walk :: Walk(g, walk) && walk[0] == name && Blocked(g, walk)
  {
    if Needs(g, name).Err? {
      var walk := FindObstacle(g, name, {});
      assert Blocked(g, walk);
    } else {
      forall walk | Walk(g, walk) && walk[0] == name ensures !Blocked(g, walk) {
        OkAlongWalk(g, walk);
        OkIsNotBlocked(g, walk[|walk| - 1], Names(walk[..|walk| - 1]));
      }
    }
  }

  lemma {:induction false} PreparableEdges(g: Graph, n: nat)
    requires n <= |g.edges|
    ensures Preparation(g, n).Ok? <==> forall k :: 0 <= k < n ==> Needs(g, g.edges[k].source).Ok?
  {
    if n > 0 {
      PreparableEdges(g, n - 1);
    }
  }

  lemma {:induction false} PreparableMeansOk(g: Graph, name: string)
    requires Preparable(g) && name in Endpoints(g)
    ensures Needs(g, name).Ok?
  {
    PreparableEdges(g, |g.edges|);
    if name in Sources(g) {
      var e :| e in g.edges && e.source == name;
      var k :| 0 <= k < |g.edges| && g.edges[k] == e;
    } else {
      var e :| e in g.edges && e.output == name;
      var k :| 0 <= k < |g.edges| && g.edges[k] == e;
      OutputsAreEdges(g.edges, e.source, e.output);
      assert Edge(e.source, e.output) == e;
      OutputsOk(g, e.source, {});
      OkAnywhere(g, name, {} + {e.source});
    }
  }

  /** Preparation as a whole succeeds exactly when no walk from an edge's source is blocked. */
  lemma {:induction false} PreparationSucceedsExactly(g: Graph)
    ensures Preparable(g) <==>
      forall walk :: Walk(g, walk) && walk[0] in Sources(g) ==> !Blocked(g, walk)
  {
    PreparableEdges(g, |g.edges|);
    if Preparable(g) {
      forall walk | Walk(g, walk) && walk[0] in Sources(g) ensures !Blocked(g, walk) {
        PreparableMeansOk(g, walk[0]);
        FailsExactlyOnObstacle(g, walk[0]);
      }
    } else {
      var k :| 0 <= k < |g.edges| && Needs(g, g.edges[k].source).Err?;
      FailsExactlyOnObstacle(g, g.edges[k].source);
      assert g.edges[k] in g.edges;
    }
  }

  // ---------------------------------------------------------------- the unique solution

  /** The two graphs differ at most in reserved retention. */
  ghost predicate SameExceptRetention(g: Graph, h: Graph) {
    && g.edges == h.edges && g.channels.Keys == h.channels.Keys
    && forall n :: n in g.channels ==>
         if g.channels[n].Native? then
           h.channels[n].Native? && h.channels[n].(forwarding := 0) == g.channels[n].(forwarding := 0)
         else h.channels[n].Iox2?
  }

  ghost function SlotsOf(h: Graph, name: string): nat {
    if name in h.channels && h.channels[name].Native? && ChannelSlots(h.channels[name]).Ok? then
      ChannelSlots(h.channels[name]).value
    else 0
  }

  ghost function SumOfSlots(h: Graph, outputs: seq<string>): nat {
    if outputs == [] then 0 else SumOfSlots(h, outputs[..|outputs| - 1]) + SlotsOf(h, outputs[|outputs| - 1])
  }

  /** The equation of one channel: its retention is the sum over its outgoing edges of the target's slots. */
  ghost predicate Solves(h: Graph, name: string) {
    && name in h.channels && h.channels[name].Native? && ChannelSlots(h.channels[name]).Ok?
    && h.channels[name].forwarding == SumOfSlots(h, Outputs(h, name))
  }

  ghost predicate Solution(g: Graph, h: Graph) {
    SameExceptRetention(g, h) && forall n :: n in Endpoints(g) ==> Solves(h, n)
  }

  /** In any solution, a channel has the slots that the search computes. */
  lemma {:induction false} SolutionAgrees(g: Graph, h: Graph, name: string, path: set<string>)
    requires Solution(g, h) && name in Endpoints(g) && Slots(g, name, path).Ok?
    ensures SlotsOf(h, name) == Slots(g, name, path).value
    ensures h.channels[name].forwarding == SumOfNeeds(g, Outputs(g, name))
    decreases |Sources(g) - path|, 0, 0
  {
    OkIsNotBlocked(g, name, path);
    SlotsFromExtra(g, name, path);
    if Outputs(g, name) != [] {
      PathGrows(g, name, path);
      OutputsOk(g, name, path);
      OutputsAreEndpoints(g, name);
      SolutionSums(g, h, Outputs(g, name), path + {name});
      ExtraSums(g, Outputs(g, name), path + {name});
    }
    assert Solves(h, name);
    var channel := h.channels[name];
    assert g.channels[name].(forwarding := channel.forwarding) == channel;
  }

  lemma {:induction false} SolutionSums(g: Graph, h: Graph, outputs: seq<string>, path: set<string>)
    requires Solution(g, h)
    requires forall k :: 0 <= k < |outputs| ==> outputs[k] in Endpoints(g) && Slots(g, outputs[k], path).Ok?
    ensures SumOfSlots(h, outputs) == SumOfNeeds(g, outputs)
    decreases |Sources(g) - path|, 1, |outputs|
  {
    if outputs != [] {
      var last := |outputs| - 1;
      SolutionSums(g, h, outputs[..last], path);
      SolutionAgrees(g, h, outputs[last], path);
      OkAnywhere(g, outputs[last], path);
    }
  }

  /** What preparation reserves is the sum of needs, and the channel then has exactly the slots it needs. */
  lemma {:induction false} PreparedChannel(g: Graph, name: string)
    requires Needs(g, name).Ok? && name in Endpoints(g)
    ensures name in g.channels && g.channels[name].Native? && SumOfNeeds(g, Outputs(g, name)) <= USIZE_MAX
    ensures Prepared(g).channels[name] == g.channels[name].(forwarding := SumOfNeeds(g, Outputs(g, name)))
    ensures ChannelSlots(Prepared(g).channels[name]) == Ok(Needs(g, name).value)
  {
    OkIsNotBlocked(g, name, {});
    SlotsFromExtra(g, name, {});
    OutputsOk(g, name, {});
    ExtraSums(g, Outputs(g, name), {} + {name});
    assert {} + {name} == {name};
  }

  lemma {:induction false} PreparedSums(g: Graph, outputs: seq<string>)
    requires forall k :: 0 <= k < |outputs| ==> outputs[k] in Endpoints(g) && Needs(g, outputs[k]).Ok?
    ensures SumOfSlots(Prepared(g), outputs) == SumOfNeeds(g, outputs)
  {
    if outputs != [] {
      PreparedSums(g, outputs[..|outputs| - 1]);
      PreparedChannel(g, outputs[|outputs| - 1]);
    }
  }

  lemma {:induction false} PreparedSolves(g: Graph, name: string)
    requires Preparable(g) && name in Endpoints(g)
    ensures Solves(Prepared(g), name)
  {
    PreparableMeansOk(g, name);
    PreparedChannel(g, name);
    OutputsAreEndpoints(g, name);
    forall k | 0 <= k < |Outputs(g, name)| ensures Needs(g, Outputs(g, name)[k]).Ok? {
      PreparableMeansOk(g, Outputs(g, name)[k]);
    }
    PreparedSums(g, Outputs(g, name));
  }

  /** Preparation yields a solution of the retention equations, and every solution is that one on the edges' channels. */
  lemma {:induction false} PreparedIsUniqueSolution(g: Graph, h: Graph)
    requires Preparable(g)
    ensures Solution(g, Prepared(g))
    ensures Solution(g, h) ==> forall n :: n in Endpoints(g) ==> n in h.channels && h.channels[n] == Prepared(g).channels[n]
  {
    forall n | n in Endpoints(g) ensures Solves(Prepared(g), n) {
      PreparedSolves(g, n);
    }
    if Solution(g, h) {
      forall n | n in Endpoints(g) ensures n in h.channels && h.channels[n] == Prepared(g).channels[n] {
        PreparableMeansOk(g, n);
        SolutionAgrees(g, h, n, {});
        PreparedChannel(g, n);
        assert Solves(h, n);
      }
    }
  }

  // ---------------------------------------------------------------- preparing twice

  lemma {:induction false} SlotsIgnoreRetention(g: Graph, h: Graph, name: string, path: set<string>)
    requires SameExceptRetention(g, h)
    ensures Slots(h, name, path) == Slots(g, name, path)
    decreases |Sources(g) - path|, 0, 0
  {
    if name !in path {
      if Outputs(g, name) != [] {
        PathGrows(g, name, path);
        ExtraIgnoresRetention(g, h, Outputs(g, name), path + {name});
      }
      SlotsFromExtra(g, name, path);
      SlotsFromExtra(h, name, path);
      SlotsWithIgnoresRetention(g, h, name);
    }
  }

  lemma {:induction false} SlotsWithIgnoresRetention(g: Graph, h: Graph, name: string)
    requires SameExceptRetention(g, h)
    ensures forall extra: Usize :: SlotsWith(h, name, extra) == SlotsWith(g, name, extra)
  {
    if name in g.channels && g.channels[name].Native? {
      forall extra: Usize ensures SlotsWith(h, name, extra) == SlotsWith(g, name, extra) {
        assert g.channels[name].(forwarding := 0).(forwarding := extra) == g.channels[name].(forwarding := extra);
        assert h.channels[name].(forwarding := 0).(forwarding := extra) == h.channels[name].(forwarding := extra);
      }
    }
  }

  lemma {:induction false} ExtraIgnoresRetention(g: Graph, h: Graph, outputs: seq<string>, path: set<string>)
    requires SameExceptRetention(g, h)
    ensures Extra(h, outputs, path) == Extra(g, outputs, path)
    decreases |Sources(g) - path|, 1, |outputs|
  {
    if outputs != [] {
      var last := |outputs| - 1;
      ExtraIgnoresRetention(g, h, outputs[..last], path);
      SlotsIgnoreRetention(g, h, outputs[last], path);
    }
  }

  lemma {:induction false} PreparationIgnoresRetention(g: Graph, h: Graph, n: nat)
    requires SameExceptRetention(g, h) && n <= |g.edges|
    ensures Preparation(h, n) == Preparation(g, n)
  {
    if n > 0 {
      PreparationIgnoresRetention(g, h, n - 1);
      SlotsIgnoreRetention(g, h, g.edges[n - 1].source, {});
    }
  }

  /** Preparing a prepared graph succeeds and changes nothing. */
  lemma {:induction false} PreparingAgainChangesNothing(g: Graph)
    requires Preparable(g)
    ensures Preparable(Prepared(g)) && Prepared(Prepared(g)) == Prepared(g)
  {
    var h := Prepared(g);
    assert SameExceptRetention(g, h);
    PreparationIgnoresRetention(g, h, |g.edges|);
    forall n | n in Endpoints(g) ensures Retention(h, n) == Retention(g, n) {
      ExtraIgnoresRetention(g, h, Outputs(g, n), {n});
    }
    assert Prepared(h).channels == h.channels;
  }

  // ---------------------------------------------------------------- no channel runs out

  /** What one publisher's arena and subscribers have been through. */
  datatype History = History(connected: seq<bool>, actions: seq<Action>)

  /** A history for every publisher of every native channel. */
  type System = map<string, seq<History>>

  ghost predicate Operates(h: Graph, system: System) {
    forall n :: n in h.channels && h.channels[n].Native? ==>
      n in system && |system[n]| == |h.channels[n].publishers|
  }

  ghost predicate HasPublisher(h: Graph, system: System, name: string, i: nat) {
    && Operates(h, system) && name in h.channels && h.channels[name].Native?
    && i < |h.channels[name].publishers|
    && PublisherPlan(h.channels[name], h.channels[name].publishers[i]).Ok?
  }

  /** The publisher's state: its planned arena after its history, beside the channel's other publishers. */
  ghost function StateOf(h: Graph, system: System, name: string, i: nat): State
    requires HasPublisher(h, system, name, i)
  {
    var channel, history := h.channels[name], system[name][i];
    var plan := PublisherPlan(channel, channel.publishers[i]).value;
    Run(Fresh(plan, history.connected, |channel.publishers| - 1), history.actions)
  }

  /** The arena's slots that some handle still refers to. */
  ghost function LiveSlots(s: State): set<nat> {
    set slot | slot in Range(s.slots) && slot in Handles(s)
  }

  ghost function LiveIn(h: Graph, system: System, name: string, i: nat): nat {
    if HasPublisher(h, system, name, i) then |LiveSlots(StateOf(h, system, name, i))| else 0
  }

  /** The live slots in the arenas of a channel's first `n` publishers. */
  ghost function Live(h: Graph, system: System, name: string, n: nat): nat {
    if n == 0 then 0 else Live(h, system, name, n - 1) + LiveIn(h, system, name, n - 1)
  }

  ghost predicate Allocated(h: Graph, system: System, name: string) {
    && name in h.channels && h.channels[name].Native?
    && forall i :: 0 <= i < |h.channels[name].publishers| ==> HasPublisher(h, system, name, i)
  }

  /** One source handle for every live slot of the target, for each outgoing edge. */
  ghost function Forwarded(h: Graph, system: System, outputs: seq<string>): nat {
    if outputs == [] then 0
    else
      var last := outputs[|outputs| - 1];
      Forwarded(h, system, outputs[..|outputs| - 1])
      + if last in h.channels && h.channels[last].Native? then Live(h, system, last, |h.channels[last].publishers|) else 0
  }

  lemma {:induction false} SpecsAreOk(channel: Channel, n: nat, i: nat)
    requires channel.Native? && i < n <= |channel.publishers| && FirstSlots(channel, n).Ok?
    ensures SpecSlots(channel, channel.publishers[i]).Ok?
  {
    if i < n - 1 {
      SpecsAreOk(channel, n - 1, i);
    }
  }

  lemma {:induction false} SolvedIsAllocated(h: Graph, system: System, name: string)
    requires Operates(h, system) && Solves(h, name)
    ensures Allocated(h, system, name)
  {
    var channel := h.channels[name];
    forall i | 0 <= i < |channel.publishers| ensures HasPublisher(h, system, name, i) {
      SpecsAreOk(channel, |channel.publishers|, i);
    }
  }

  lemma {:induction false} ArenaBoundsLive(h: Graph, system: System, name: string, i: nat)
    requires HasPublisher(h, system, name, i)
    ensures LiveIn(h, system, name, i)
         <= PlannedSlots(PublisherPlan(h.channels[name], h.channels[name].publishers[i]).value)
  {
    var channel, history := h.channels[name], system[name][i];
    var plan := PublisherPlan(channel, channel.publishers[i]).value;
    RunKeepsBounds(plan, history.connected, |channel.publishers| - 1, history.actions);
    SubsetFits(LiveSlots(StateOf(h, system, name, i)), Range(StateOf(h, system, name, i).slots));
  }

  lemma {:induction false} PlannedIsCapacity(channel: Channel, n: nat)
    requires channel.Native? && 0 < n <= |channel.publishers| && FirstSlots(channel, n).Ok?
    ensures PublisherPlan(channel, channel.publishers[n - 1]).Ok? && FirstSlots(channel, n - 1).Ok?
    ensures FirstSlots(channel, n).value
         == FirstSlots(channel, n - 1).value + PlannedSlots(PublisherPlan(channel, channel.publishers[n - 1]).value)
  {
  }

  lemma {:induction false} LiveInFits(h: Graph, system: System, name: string, n: nat)
    requires name in h.channels && h.channels[name].Native? && 0 < n <= |h.channels[name].publishers|
    requires FirstSlots(h.channels[name], n).Ok?
    ensures FirstSlots(h.channels[name], n - 1).Ok?
    ensures FirstSlots(h.channels[name], n - 1).value + LiveIn(h, system, name, n - 1) <= FirstSlots(h.channels[name], n).value
  {
    PlannedIsCapacity(h.channels[name], n);
    if HasPublisher(h, system, name, n - 1) {
      ArenaBoundsLive(h, system, name, n - 1);
    }
  }

  /** A channel never has more live slots than its publishers' arenas were planned with. */
  lemma {:induction false} LiveFits(h: Graph, system: System, name: string, n: nat)
    requires name in h.channels && h.channels[name].Native? && n <= |h.channels[name].publishers|
    requires FirstSlots(h.channels[name], n).Ok?
    ensures Live(h, system, name, n) <= FirstSlots(h.channels[name], n).value
  {
    if n > 0 {
      LiveInFits(h, system, name, n);
      LiveFits(h, system, name, n - 1);
    }
  }

  lemma {:induction false} ForwardedFits(h: Graph, system: System, outputs: seq<string>)
    requires Operates(h, system)
    requires forall k :: 0 <= k < |outputs| ==> Solves(h, outputs[k])
    ensures Forwarded(h, system, outputs) <= SumOfSlots(h, outputs)
  {
    if outputs != [] {
      var last := |outputs| - 1;
      ForwardedFits(h, system, outputs[..last]);
      LiveFits(h, system, outputs[last], |h.channels[outputs[last]].publishers|);
    }
  }

  /** The reserved retention covers whatever the targets of the outgoing edges keep. */
  lemma {:induction false} ForwardingRetentionFits(g: Graph, system: System, name: string)
    requires Preparable(g) && Operates(Prepared(g), system)
    requires name in g.channels && g.channels[name].Native?
    ensures forall k :: 0 <= k < |Outputs(g, name)| ==> Allocated(Prepared(g), system, Outputs(g, name)[k])
    ensures Forwarded(Prepared(g), system, Outputs(g, name)) <= Prepared(g).channels[name].forwarding
  {
    var h := Prepared(g);
    var outputs := Outputs(g, name);
    OutputsAreEndpoints(g, name);
    forall k | 0 <= k < |outputs| ensures Solves(h, outputs[k]) && Allocated(h, system, outputs[k]) {
      PreparedSolves(g, outputs[k]);
      SolvedIsAllocated(h, system, outputs[k]);
    }
    ForwardedFits(h, system, outputs);
    if outputs != [] {
      OutputsNeedSource(g, name);
      PreparedSolves(g, name);
    }
  }

  lemma {:induction false} PlanRetains(channel: Channel, spec: PublisherSpec)
    requires channel.Native? && PublisherPlan(channel, spec).Ok?
    ensures PublisherPlan(channel, spec).value.retained == spec.retained + channel.forwarding
  {
  }

  lemma {:induction false} RetentionSuffices(h: Graph, system: System, name: string, i: nat, users: nat, forwarded: nat)
    requires HasPublisher(h, system, name, i) && QuotaLeft(StateOf(h, system, name, i))
    requires users <= h.channels[name].publishers[i].retained && forwarded <= h.channels[name].forwarding
    requires var s := StateOf(h, system, name, i); |s.outside| + |Displaced(s.rivals)| <= users + forwarded
    ensures exists slot :: Free(StateOf(h, system, name, i), slot)
  {
    var channel, history := h.channels[name], system[name][i];
    var plan := PublisherPlan(channel, channel.publishers[i]).value;
    PlanRetains(channel, channel.publishers[i]);
    LoanFindsSlot(plan, history.connected, |channel.publishers| - 1, history.actions);
  }

  /**
   In a prepared graph no publisher of any channel runs out of slots, in any interleaving:
   it is enough that users keep at most the publisher's own retained budget, and that
   every live slot of a target channel keeps at most one source handle for each edge
   leading to it. A slot that another publisher has displaced and not yet released
   counts as kept.
   */
  lemma {:induction false} PreparedNeverRunsOut(g: Graph, system: System, name: string, i: nat, users: nat)
    requires Preparable(g) && HasPublisher(Prepared(g), system, name, i)
    requires QuotaLeft(StateOf(Prepared(g), system, name, i))
    requires users <= g.channels[name].publishers[i].retained
    requires var s := StateOf(Prepared(g), system, name, i);
      |s.outside| + |Displaced(s.rivals)| <= users + Forwarded(Prepared(g), system, Outputs(g, name))
    ensures exists slot :: Free(StateOf(Prepared(g), system, name, i), slot)
  {
    ForwardingRetentionFits(g, system, name);
    RetentionSuffices(Prepared(g), system, name, i, users, Forwarded(Prepared(g), system, Outputs(g, name)));
  }

  lemma {:induction false} FewRivalsHold(h: Graph, system: System, name: string, i: nat)
    requires HasPublisher(h, system, name, i)
    ensures |Displaced(StateOf(h, system, name, i).rivals)| <= |h.channels[name].publishers| - 1
  {
    var channel, history := h.channels[name], system[name][i];
    var plan := PublisherPlan(channel, channel.publishers[i]).value;
    RunKeepsBounds(plan, history.connected, |channel.publishers| - 1, history.actions);
    FewDisplaced(StateOf(h, system, name, i).rivals);
  }

  /** One slot of the retained budget set aside for each other publisher covers whatever those displace. */
  lemma {:induction false} SpareSlotPerPublisher(g: Graph, system: System, name: string, i: nat, users: nat)
    requires Preparable(g) && HasPublisher(Prepared(g), system, name, i)
    requires QuotaLeft(StateOf(Prepared(g), system, name, i))
    requires users + |g.channels[name].publishers| - 1 <= g.channels[name].publishers[i].retained
    requires |StateOf(Prepared(g), system, name, i).outside|
          <= users + Forwarded(Prepared(g), system, Outputs(g, name))
    ensures exists slot :: Free(StateOf(Prepared(g), system, name, i), slot)
  {
    FewRivalsHold(Prepared(g), system, name, i);
    PreparedNeverRunsOut(g, system, name, i, users + |g.channels[name].publishers| - 1);
  }
}
