/** The simulation state and its loops, each proved against the functions of `Simulation`. */
module SimulationState {
  import opened Basics
  import opened StableSort
  import opened BatchExecution
  import opened Simulation
  import Model = Simulation
  import opened SimulationSelection
  import opened SimulationOccupancy
  import opened SimulationTime

  class State {
    const config: Config
    var nodes: seq<Node>
    var time: Time
    var failed: bool
    var actions: seq<Pending>
    var actionSequence: nat
    ghost var history: seq<Interval>
    ghost var log: seq<Ran>

    ghost function Now(): View
      reads this
    {
      View(nodes, time, actions, actionSequence)
    }

    ghost function Value(): Session
      reads this
    {
      Session(Now(), failed, history, log)
    }

    ghost predicate Valid()
      reads this
    {
      Occupancy(config, Value()) && OnTime(Value())
    }

    constructor (c: Config, ready: seq<Node>, start: Time)
      requires Configured(c, ready)
      requires forall i :: 0 <= i < |ready| ==> ready[i].busyUntil == start && ready[i].readySince.None?
      ensures Valid() && config == c && Value() == Session(View(ready, start, [], 0), false, [], []) && Initial(c, Value())
    {
      config, nodes, time, failed, actions, actionSequence := c, ready, start, false, [], 0;
      history, log := [], [];
      new;
      RunKeepsOccupancy(c, Value(), []);
    }

    /** `insert_action`. */
    method InsertAction(at: Time, stream: bool) returns (r: Result<(), StepError>)
      requires Valid()
      modifies this`actions, this`actionSequence
      ensures Valid() && (Value(), r) == Scheduled(old(Value()), at, stream)
    {
      PerformKeepsTime(config, Value(), Schedule(at, stream));
      ghost var before := Value();
      if failed {
        return Err(Poisoned);
      }
      if at < time {
        return Err(PastAction);
      }
      if actionSequence == USIZE_MAX {
        return Err(SequenceExhausted);
      }
      var sequence := actionSequence;
      actionSequence := sequence + 1;
      actions := Inserted(actions, Pending(at, sequence, stream));
      SameTimesKeepOccupancy(config, before, Value());
      return Ok(());
    }

    /** The loop of `step_inner` over the due actions. */
    method RunDueActions(outcome: Pending -> ActionOutcome) returns (error: Option<StepError>, ghost ran: seq<Pending>)
      modifies this`actions, this`actionSequence
      ensures ActionsRun(Now(), ran, error) == RunActions(old(Now()), outcome)
    {
      ran := [];
      while actions != [] && actions[0].at <= time
        invariant nodes == old(nodes) && time == old(time)
        invariant var all, rest := RunActions(old(Now()), outcome), RunActions(Now(), outcome);
          all == rest.(ran := ran + rest.ran)
        decreases DueCount(actions, time)
      {
        ghost var before := Now();
        var first := actions[0];
        if RunFirst(before, outcome).Ok? {
          RunFirstFewerDue(before, outcome);
          ConcatAssociates(ran, [first], RunActions(RunFirst(before, outcome).value, outcome).ran);
        }
        ran := ran + [first];
        actions := actions[1..];
        match outcome(first) {
          case Rejected => return Some(ActionFailed), ran;
          case Done =>
          case Again(next) =>
            if first.stream {
              if next <= time {
                return Some(NotInFuture), ran;
              }
              if actionSequence == USIZE_MAX {
                return Some(SequenceExhausted), ran;
              }
              actions := Inserted(actions, Pending(next, actionSequence, true));
              actionSequence := actionSequence + 1;
            }
        }
      }
      assert ran + [] == ran;
      return None, ran;
    }

    /** `refresh`. */
    method Refresh(o: Observation)
      modifies this`nodes
      ensures nodes == Refreshed(old(nodes), time, o)
    {
      ghost var refreshed := Refreshed(nodes, time, o);
      var i := 0;
      while i < |nodes|
        invariant 0 <= i <= |nodes| == |old(nodes)|
        invariant forall j :: 0 <= j < i ==> nodes[j] == refreshed[j]
        invariant forall j :: i <= j < |nodes| ==> nodes[j] == old(nodes)[j]
      {
        var node := nodes[i];
        var triggered := o.triggered(i);
        node := node.(inputRequested := node.inputRequested || triggered);
        if !o.timers {
          node := node.(next := None, requested := node.inputRequested);
        }
        node := node.(requested := node.requested || triggered || (node.next.Some? && node.next.value <= time));
        if node.requested && node.busyUntil <= time && o.available(i) {
          if node.readySince.None? {
            node := node.(readySince := Some(time));
          }
        } else {
          node := node.(readySince := None);
        }
        assert node == refreshed[i];
        nodes := nodes[i := node];
        i := i + 1;
      }
    }

    /** The free threads of every pool; the invariant of the session keeps the subtraction from underflowing. */
    method FreeThreads(ghost s: Session) returns (free: seq<nat>)
      requires Occupancy(config, s) && SameBusyTimes(nodes, s.view.nodes) && time == s.view.time
      ensures |free| == |config.pools|
      ensures forall pool :: 0 <= pool < |free| ==> free[pool] == Free(config, nodes, time, pool)
    {
      free := config.pools;
      assert nodes[..0] == [] && config.poolOf[..0] == [];
      for i := 0 to |nodes|
        invariant |free| == |config.pools|
        invariant forall pool :: 0 <= pool < |free| ==>
          free[pool] == config.pools[pool] - Busy(nodes[..i], config.poolOf[..i], pool, time)
      {
        assert nodes[..i + 1][..i] == nodes[..i] && config.poolOf[..i + 1][..i] == config.poolOf[..i];
        if nodes[i].busyUntil > time {
          var pool := config.poolOf[i];
          FreeThreadsNeverNegative(config, s, nodes, pool);
          BusyGrows(nodes, config.poolOf, pool, time, i + 1);
          free := free[pool := free[pool] - 1];
        }
      }
      assert nodes[..|nodes|] == nodes && config.poolOf[..|nodes|] == config.poolOf;
    }

    /** The ready nodes in index order. */
    method FindCandidates() returns (candidates: seq<Candidate>)
      ensures candidates == Candidates(nodes)
    {
      candidates := [];
      for i := 0 to |nodes|
        invariant candidates == Candidates(nodes[..i])
      {
        assert nodes[..i + 1][..i] == nodes[..i];
        if nodes[i].readySince.Some? {
          candidates := candidates + [Candidate(nodes[i].readySince.value, i)];
        }
      }
      assert nodes[..|nodes|] == nodes;
    }

    /** Takes each candidate in turn while its pool has a free thread. */
    method ChooseBatch(candidates: seq<Candidate>, threads: seq<nat>, ghost count: nat -> int) returns (selected: seq<nat>)
      requires forall k :: 0 <= k < |candidates| ==>
        candidates[k].index < |config.poolOf| && config.poolOf[candidates[k].index] < |threads|
      requires forall pool :: 0 <= pool < |threads| ==> threads[pool] == count(pool)
      ensures selected == Choose(candidates, config.poolOf, count)
    {
      var free := threads;
      selected := [];
      for k := 0 to |candidates|
        invariant selected == Choose(candidates[..k], config.poolOf, count) && |free| == |threads|
        invariant forall pool :: 0 <= pool < |free| ==> free[pool] == count(pool) - InPool(selected, config.poolOf, pool)
      {
        assert candidates[..k + 1][..k] == candidates[..k];
        var index := candidates[k].index;
        var pool := config.poolOf[index];
        if free[pool] != 0 {
          free := free[pool := free[pool] - 1];
          assert (selected + [index])[..|selected|] == selected;
          selected := selected + [index];
        }
      }
      assert candidates[..|candidates|] == candidates;
    }

    /** Candidates in order of readiness, each taken while its pool has a free thread. */
    method SelectBatch(ghost s: Session) returns (selected: seq<nat>)
      requires Occupancy(config, s) && SameBusyTimes(nodes, s.view.nodes) && time == s.view.time
      ensures selected == Selected(config, nodes, time)
    {
      var candidates := FindCandidates();
      candidates := SortBy(candidates, SinceOf);
      var free := FreeThreads(s);
      forall k | 0 <= k < |candidates| ensures candidates[k].index < |nodes| {
        SortedAreReady(nodes, k);
      }
      selected := ChooseBatch(candidates, free, FreeIn(config, nodes, time));
    }

    /** Gives every selected node its place in the batch and takes it off the ready list. */
    method RankSelected(selected: seq<nat>) returns (rank: seq<Option<nat>>)
      requires Distinct(selected) && forall p :: 0 <= p < |selected| ==> selected[p] < |nodes|
      modifies this`nodes
      ensures nodes == Unready(old(nodes), selected) && Ranks(rank, selected)
    {
      rank := seq(|nodes|, _ => None);
      for p := 0 to |selected|
        invariant |nodes| == |old(nodes)| && |rank| == |nodes|
        invariant nodes == Unready(old(nodes), selected[..p])
        invariant forall q :: 0 <= q < p ==> rank[selected[q]] == Some(q)
        invariant forall i :: 0 <= i < |rank| && rank[i].Some? ==> rank[i].value < p && selected[rank[i].value] == i
      {
        var index := selected[p];
        rank := rank[index := Some(p)];
        nodes := nodes[index := nodes[index].(readySince := None)];
        assert selected[..p + 1] == selected[..p] + [index];
      }
      assert selected[..|selected|] == selected;
    }

    /** The ranked callbacks in index order. */
    method CollectRanked(rank: seq<Option<nat>>, ghost selected: seq<nat>) returns (items: seq<Numbered<nat>>)
      requires Ranks(rank, selected)
      ensures forall p :: WithKey(items, PositionOf, p) == Placed(selected, |rank|, p)
    {
      items := [];
      for i := 0 to |rank|
        invariant forall p :: WithKey(items, PositionOf, p) == Placed(selected, i, p)
      {
        var before := items;
        if rank[i].Some? {
          items := items + [Numbered(rank[i].value, i)];
        }
        forall p ensures WithKey(items, PositionOf, p) == Placed(selected, i + 1, p) {
          PlaceNext(before, rank, selected, i, p);
        }
      }
    }

    /** Drops the ranks of a sorted batch. */
    method ValuesOf(items: seq<Numbered<nat>>, ghost selected: seq<nat>) returns (batch: seq<nat>)
      requires |items| == |selected| && forall p :: 0 <= p < |items| ==> items[p] == Numbered(p, selected[p])
      ensures batch == selected
    {
      batch := [];
      for p := 0 to |items|
        invariant batch == selected[..p]
      {
        batch := batch + [items[p].value];
      }
    }

    /** Sorting the ranked callbacks by rank restores the order of selection. */
    method AssembleBatch(rank: seq<Option<nat>>, ghost selected: seq<nat>) returns (batch: seq<nat>)
      requires Ranks(rank, selected)
      ensures batch == selected
    {
      var items := CollectRanked(rank, selected);
      forall p ensures WithKey(items, PositionOf, p) == if 0 <= p < |selected| then [Numbered(p, selected[p])] else [] {
        AllPlaced(rank, selected, p);
      }
      SortsByPosition(items, selected);
      batch := ValuesOf(SortBy(items, PositionOf), selected);
    }

    /** Records the finish time and the next deadline of every executed callback. */
    method ApplyTimings(executed: seq<nat>, timed: seq<Timed>)
      requires |executed| == |timed| && forall k :: 0 <= k < |executed| ==> executed[k] < |nodes|
      modifies this`nodes
      ensures nodes == Applied(old(nodes), executed, timed)
    {
      for k := 0 to |executed|
        invariant |nodes| == |old(nodes)| && nodes == Applied(old(nodes), executed[..k], timed[..k])
      {
        assert executed[..k + 1][..k] == executed[..k] && timed[..k + 1][..k] == timed[..k];
        var index := executed[k];
        nodes := nodes[index := nodes[index].(
          requested := false, inputRequested := false, busyUntil := timed[k].finish, next := timed[k].next)];
      }
      assert executed[..|executed|] == executed && timed[..|timed|] == timed;
    }

    /** Whether some ready node's pool has a free thread. */
    method AnyRunnable(ghost s: Session) returns (r: bool)
      requires Occupancy(config, s) && SameBusyTimes(nodes, s.view.nodes) && time == s.view.time
      ensures Configured(config, nodes) && r == Runnable(config, nodes, time)
    {
      var free := FreeThreads(s);
      for i := 0 to |nodes|
        invariant forall j :: 0 <= j < i ==> !(nodes[j].readySince.Some? && Free(config, nodes, time, config.poolOf[j]) != 0)
      {
        if nodes[i].readySince.Some? && free[config.poolOf[i]] != 0 {
          return true;
        }
      }
      return false;
    }

    /** The earliest busy end, deadline or action after the current time. */
    method NextEvent() returns (r: Option<Time>)
      ensures r == EarliestEvent(nodes, actions, time)
    {
      r := None;
      for i := 0 to |nodes|
        invariant r == EarliestOfNodes(nodes[..i], time)
      {
        assert nodes[..i + 1][..i] == nodes[..i];
        r := Sooner(r, nodes[i].busyUntil, time);
        if nodes[i].next.Some? {
          r := Sooner(r, nodes[i].next.value, time);
        }
      }
      assert nodes[..|nodes|] == nodes;
      if actions != [] {
        r := Sooner(r, actions[0].at, time);
      }
    }

    method AnyFuture() returns (r: bool)
      ensures r == HasFuture(nodes, actions, time)
    {
      if actions != [] {
        return true;
      }
      for i := 0 to |nodes|
        invariant forall j :: 0 <= j < i ==>
          !(nodes[j].busyUntil > time || (nodes[j].next.Some? && nodes[j].next.value > time))
      {
        if nodes[i].busyUntil > time || (nodes[i].next.Some? && nodes[i].next.value > time) {
          return true;
        }
      }
      return false;
    }

    /** The end of a step: refresh, advance to the next event if nobody can run, refresh again. */
    method SettleStep(env: Environment, ghost base: View, ghost executed: seq<nat>, ghost timed: seq<Timed>)
      returns (idle: bool)
      requires Occupancy(config, Value()) && |executed| == |timed| && |base.nodes| == |nodes|
      requires Now() == base.(nodes := Applied(base.nodes, executed, timed))
      modifies this`nodes, this`time
      ensures (Now(), idle) == Settle(config, base, executed, timed, env)
    {
      ghost var s := Value();
      RefreshKeepsBusyTimes(nodes, time, env.second);
      Refresh(env.second);
      var runnable := AnyRunnable(s);
      var next := NextEvent();
      ghost var settled := nodes;
      if !runnable && next.Some? {
        EarliestIsLater(nodes, time);
        time := next.value;
      }
      SameTimesKeepOccupancy(config, s, s.(view := s.view.(nodes := settled)));
      LaterKeepsOccupancy(config, s.(view := s.view.(nodes := settled)), time);
      RefreshKeepsBusyTimes(nodes, time, env.third);
      Refresh(env.third);
      runnable := AnyRunnable(s.(view := s.view.(nodes := settled, time := time)));
      var future := AnyFuture();
      idle := !runnable && !future;
    }

    /** Selection and ranking of the batch. */
    method PrepareBatch(env: Environment, ghost s: Session) returns (batch: seq<nat>)
      requires Occupancy(config, s) && nodes == s.view.nodes && time == s.view.time
      modifies this`nodes
      ensures var refreshed := Refreshed(old(nodes), time, env.first);
        batch == Selected(config, refreshed, time) && nodes == Unready(refreshed, batch)
      ensures Distinct(batch) && forall i :: i in batch ==> i < |nodes|
    {
      RefreshKeepsBusyTimes(nodes, time, env.first);
      Refresh(env.first);
      var selected := SelectBatch(s);
      SelectionIsSound(config, nodes, time);
      forall p | 0 <= p < |selected| ensures selected[p] < |nodes| {
        assert selected[p] in selected;
      }
      var rank := RankSelected(selected);
      batch := AssembleBatch(rank, selected);
    }

    /** `step_inner`. */
    method StepInner(env: Environment) returns (r: Result<StepResult, StepError>)
      requires Valid() && !failed
      modifies this
      ensures failed == old(failed)
      ensures var o := Model.Step(config, old(Now()), env);
        && Now() == o.view && r == o.result && history == old(history) + o.intervals
        && log == old(log) + Stamped(o.ran, old(time))
    {
      ghost var s := Value();
      var before := time;
      var error, ran := RunDueActions(env.outcome);
      ActionsKeepNodes(s.view, env.outcome);
      log := log + Stamped(ran, time);
      if error.Some? {
        return Err(error.value);
      }
      var batch := PrepareBatch(env, s);
      ghost var base := Now();
      var outcome, published := ExecuteCallbackBatch(batch, env.prepare, env.run, config.workers, Validator(env, time));
      if outcome.Err? {
        return Err(FromBatch(outcome.error));
      }
      var (executed, timed) := outcome.value;
      ReadyIsPart(batch, env.prepare);
      forall k | 0 <= k < |executed| ensures executed[k] < |nodes| {
        assert executed[k] in executed;
      }
      ApplyTimings(executed, timed);
      history := history + Intervals(executed, timed, time);
      BatchKeepsOccupancy(config, s, env, Value());
      var idle := SettleStep(env, base, executed, timed);
      return Ok(StepResult(before, time, executed, idle));
    }

    /** `step`: a failed step poisons the session. */
    method Step(env: Environment) returns (r: Result<StepResult, StepError>)
      requires Valid()
      modifies this
      ensures Valid() && (Value(), r) == Stepped(config, old(Value()), env)
    {
      if failed {
        return Err(Poisoned);
      }
      StepKeepsOccupancy(config, Value(), env);
      PerformKeepsTime(config, Value(), Advance(env));
      r := StepInner(env);
      if r.Err? {
        failed := true;
      }
    }
  }

  /** `with_config`: a session at rest, or the first thing wrong with the configuration. */
  method WithConfig(pools: seq<nat>, workers: nat, start: Time, specs: seq<CallbackSpec>)
    returns (r: Result<State, StepError>)
    ensures r.Ok? <==>
      && SoundConfig(pools, workers, start)
      && forall i :: 0 <= i < |specs| ==> CheckCallback(specs[i], i, |pools|, start).Ok?
    ensures r.Err? && SoundConfig(pools, workers, start) ==>
      exists i :: 0 <= i < |specs| && CheckCallback(specs[i], i, |pools|, start) == Err(r.error)
        && forall j :: 0 <= j < i ==> CheckCallback(specs[j], j, |pools|, start).Ok?
    ensures r.Ok? ==>
      && fresh(r.value) && r.value.Valid() && Initial(r.value.config, r.value.Value()) && r.value.time == start
      && r.value.config == Config(pools, seq(|specs|, i requires 0 <= i < |specs| => specs[i].pool), workers)
      && |r.value.nodes| == |specs|
      && forall i :: 0 <= i < |specs| ==> CheckCallback(specs[i], i, |pools|, start) == Ok(r.value.nodes[i])
  {
    if workers == 0 || pools == [] || 0 in pools || start == INVALID {
      return Err(InvalidConfig);
    }
    var nodes := [];
    for i := 0 to |specs|
      invariant |nodes| == i
      invariant forall j :: 0 <= j < i ==> CheckCallback(specs[j], j, |pools|, start) == Ok(nodes[j])
    {
      var checked := CheckCallback(specs[i], i, |pools|, start);
      if checked.Err? {
        return Err(checked.error);
      }
      nodes := nodes + [checked.value];
    }
    var poolOf := seq(|specs|, i requires 0 <= i < |specs| => specs[i].pool);
    var state := new State(Config(pools, poolOf, workers), nodes, start);
    return Ok(state);
  }

  /** A test executor over a simulation; fixture inputs are scheduled before every step. */
  class UnitTestExecutor {
    const simulation: State
    var failed: bool

    constructor (state: State)
      ensures simulation == state && !failed
    {
      simulation, failed := state, false;
    }

    /** `try_step` below a boundary action: the queued fixture inputs are scheduled, then the simulation steps. */
    method StepBelow(inputs: seq<Time>, env: Environment, ghost boundary: Pending) returns (r: Result<StepResult, StepError>)
      requires simulation.Valid() && boundary in simulation.actions && simulation.time < boundary.at
      modifies this`failed, simulation
      ensures simulation.Valid()
      ensures boundary in simulation.actions && old(simulation.time) <= simulation.time <= boundary.at
      ensures old(simulation.history) <= simulation.history
      ensures forall k :: |old(simulation.history)| <= k < |simulation.history| ==> simulation.history[k].start < boundary.at
      ensures failed <==> old(failed) || r.Err?
    {
      if failed {
        return Err(Poisoned);
      }
      for k := 0 to |inputs|
        invariant simulation.Valid() && boundary in simulation.actions && !failed
        invariant simulation.time == old(simulation.time) && simulation.history == old(simulation.history)
      {
        ghost var before := simulation.Now();
        if !simulation.failed && Model.InsertAction(before, inputs[k], false).Ok? {
          InsertKeepsTimely(Actions(simulation.log), before, inputs[k], false);
        }
        var scheduled := simulation.InsertAction(inputs[k], false);
        if scheduled.Err? {
          failed := true;
          return Err(scheduled.error);
        }
      }
      ghost var s := simulation.Value();
      if !s.failed {
        StepStaysBelow(simulation.config, s.view, env, Actions(s.log), boundary);
        StepKeepsTimely(simulation.config, s.view, env, Actions(s.log));
      }
      r := simulation.Step(env);
      failed := r.Err?;
    }

    /** `run_until`: on success the time is exactly `until` and every batch started strictly before it. */
    method RunUntil(until: Time, maxSteps: nat, inputs: nat -> seq<Time>, envs: nat -> Environment)
      returns (r: Result<(), StepError>)
      requires simulation.Valid()
      modifies this`failed, simulation
      ensures simulation.Valid()
      ensures old(simulation.history) <= simulation.history
      ensures forall k :: |old(simulation.history)| <= k < |simulation.history| ==> simulation.history[k].start < until
      ensures r.Ok? ==> simulation.time == until
      ensures r == Err(StepLimitExceeded) && !failed ==> simulation.time < until
      ensures old(simulation.time) <= simulation.time && (simulation.time <= until || simulation.time == old(simulation.time))
    {
      if until == INVALID {
        return Err(InvalidDeadline);
      }
      if failed {
        return Err(Poisoned);
      }
      ghost var boundary := Pending(until, simulation.actionSequence, false);
      if !simulation.failed && Model.InsertAction(simulation.Now(), until, false).Ok? {
        InsertKeepsTimely(Actions(simulation.log), simulation.Now(), until, false);
      }
      var scheduled := simulation.InsertAction(until, false);
      if scheduled.Err? {
        return Err(scheduled.error);
      }
      for n := 0 to maxSteps
        invariant simulation.Valid() && boundary in simulation.actions && simulation.time <= until && !failed
        invariant old(simulation.time) <= simulation.time && old(simulation.history) <= simulation.history
        invariant forall k :: |old(simulation.history)| <= k < |simulation.history| ==> simulation.history[k].start < until
      {
        if simulation.time == until {
          return Ok(());
        }
        var step := StepBelow(inputs(n), envs(n), boundary);
        if step.Err? {
          return Err(step.error);
        }
      }
      if simulation.time == until {
        return Ok(());
      }
      return Err(StepLimitExceeded);
    }
  }

  /** The item with rank `p`, if its node is among the first `i`. */
  ghost function Placed(selected: seq<nat>, i: nat, p: int): seq<Numbered<nat>> {
    if 0 <= p < |selected| && selected[p] < i then [Numbered(p, selected[p])] else []
  }

  /** `rank` gives every selected node its position and no other node one. */
  ghost predicate Ranks(rank: seq<Option<nat>>, selected: seq<nat>) {
    && (forall p :: 0 <= p < |selected| ==> selected[p] < |rank| && rank[selected[p]] == Some(p))
    && (forall i :: 0 <= i < |rank| && rank[i].Some? ==> rank[i].value < |selected| && selected[rank[i].value] == i)
  }

  lemma {:induction false} PlaceNext(
      before: seq<Numbered<nat>>, rank: seq<Option<nat>>, selected: seq<nat>, i: nat, p: int)
    requires Ranks(rank, selected) && i < |rank| && WithKey(before, PositionOf, p) == Placed(selected, i, p)
    ensures WithKey(before + if rank[i].Some? then [Numbered(rank[i].value, i)] else [], PositionOf, p)
         == Placed(selected, i + 1, p)
  {
    if rank[i].Some? {
      WithKeyConcat(before, [Numbered(rank[i].value, i)], PositionOf, p);
      WithKeyOne(Numbered(rank[i].value, i), PositionOf, p);
    } else {
      assert before + [] == before;
    }
  }

  lemma {:induction false} AllPlaced(rank: seq<Option<nat>>, selected: seq<nat>, p: int)
    requires Ranks(rank, selected)
    ensures Placed(selected, |rank|, p) == if 0 <= p < |selected| then [Numbered(p, selected[p])] else []
  {
  }

  lemma {:induction false} LaterKeepsOccupancy(c: Config, s: Session, time: Time)
    requires Occupancy(c, s) && time >= s.view.time
    ensures Occupancy(c, s.(view := s.view.(time := time)))
  {
    var s' := s.(view := s.view.(time := time));
    forall pool, t | 0 <= pool < |c.pools| ensures PoolFits(c, s', pool, t) {
      assert PoolFits(c, s, pool, t);
    }
  }

  lemma {:induction false} BusyGrows(nodes: seq<Node>, poolOf: seq<nat>, pool: nat, time: int, n: nat)
    requires |nodes| == |poolOf| && n <= |nodes|
    ensures Busy(nodes[..n], poolOf[..n], pool, time) <= Busy(nodes, poolOf, pool, time)
  {
    if n == |nodes| {
      assert nodes[..n] == nodes && poolOf[..n] == poolOf;
    } else {
      var last := |nodes| - 1;
      BusyGrows(nodes[..last], poolOf[..last], pool, time, n);
      assert nodes[..last][..n] == nodes[..n] && poolOf[..last][..n] == poolOf[..n];
    }
  }
}
