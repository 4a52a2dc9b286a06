/** Virtual pools are never overcommitted, at any simulated time of any run. */
module SimulationOccupancy {
  import opened Basics
  import opened BatchExecution
  import opened Simulation
  import opened SimulationSelection

  /** The intervals of a pool's callbacks that contain a time. */
  function Active(history: seq<Interval>, poolOf: seq<nat>, pool: nat, time: int): nat {
    if history == [] then 0
    else
      var last := history[|history| - 1];
      Active(history[..|history| - 1], poolOf, pool, time)
      + if last.node < |poolOf| && poolOf[last.node] == pool && last.start <= time < last.finish then 1 else 0
  }

  /** The pool has no more running callbacks than threads, and the nodes' busy times tell which are running. */
  ghost predicate PoolFits(c: Config, s: Session, pool: nat, time: int)
    requires Configured(c, s.view.nodes) && pool < |c.pools|
  {
    && Active(s.history, c.poolOf, pool, time) <= c.pools[pool]
    && (time >= s.view.time ==> Active(s.history, c.poolOf, pool, time) == Busy(s.view.nodes, c.poolOf, pool, time))
  }

  ghost predicate OnceAtATime(s: Session) {
    && (forall k :: 0 <= k < |s.history| ==>
          s.history[k].node < |s.view.nodes| && s.history[k].finish <= s.view.nodes[s.history[k].node].busyUntil)
    && (forall j, k :: 0 <= j < k < |s.history| && s.history[j].node == s.history[k].node ==>
          s.history[j].finish <= s.history[k].start)
  }

  ghost predicate Occupancy(c: Config, s: Session) {
    && Configured(c, s.view.nodes) && OnceAtATime(s)
    && forall pool, time :: 0 <= pool < |c.pools| ==> PoolFits(c, s, pool, time)
  }

  // ---------------------------------------------------------------- counting

  ghost predicate SameBusyTimes(a: seq<Node>, b: seq<Node>) {
    |a| == |b| && forall i :: 0 <= i < |a| ==> a[i].busyUntil == b[i].busyUntil
  }

  lemma {:induction false} BusyDependsOnTimes(a: seq<Node>, b: seq<Node>, poolOf: seq<nat>, pool: nat, time: int)
    requires SameBusyTimes(a, b) && |a| == |poolOf|
    ensures Busy(a, poolOf, pool, time) == Busy(b, poolOf, pool, time)
  {
    if a != [] {
      BusyDependsOnTimes(a[..|a| - 1], b[..|b| - 1], poolOf[..|a| - 1], pool, time);
    }
  }

  lemma {:induction false} BusyFades(nodes: seq<Node>, poolOf: seq<nat>, pool: nat, early: int, late: int)
    requires |nodes| == |poolOf| && early <= late
    ensures Busy(nodes, poolOf, pool, late) <= Busy(nodes, poolOf, pool, early)
  {
    if nodes != [] {
      BusyFades(nodes[..|nodes| - 1], poolOf[..|nodes| - 1], pool, early, late);
    }
  }

  lemma {:induction false} BusyUpdate(nodes: seq<Node>, poolOf: seq<nat>, i: nat, node: Node, pool: nat, time: int)
    requires |nodes| == |poolOf| && i < |nodes| && nodes[i].busyUntil <= time
    ensures Busy(nodes[i := node], poolOf, pool, time)
         == Busy(nodes, poolOf, pool, time) + if poolOf[i] == pool && node.busyUntil > time then 1 else 0
  {
    var last := |nodes| - 1;
    if i < last {
      BusyUpdate(nodes[..last], poolOf[..last], i, node, pool, time);
      assert nodes[i := node][..last] == nodes[..last][i := node];
    } else {
      assert nodes[i := node][..last] == nodes[..last];
    }
  }

  lemma {:induction false} ActiveConcat(a: seq<Interval>, b: seq<Interval>, poolOf: seq<nat>, pool: nat, time: int)
    ensures Active(a + b, poolOf, pool, time) == Active(a, poolOf, pool, time) + Active(b, poolOf, pool, time)
  {
    if b == [] {
      assert a + b == a;
    } else {
      ActiveConcat(a, b[..|b| - 1], poolOf, pool, time);
      assert (a + b)[..|a + b| - 1] == a + b[..|b| - 1];
    }
  }

  lemma {:induction false} RefreshKeepsBusyTimes(nodes: seq<Node>, time: Time, o: Observation)
    ensures SameBusyTimes(Refreshed(nodes, time, o), nodes)
    ensures forall i :: 0 <= i < |nodes| && Refreshed(nodes, time, o)[i].readySince.Some? ==> nodes[i].busyUntil <= time
  {
    forall i | 0 <= i < |nodes|
      ensures Refreshed(nodes, time, o)[i].busyUntil == nodes[i].busyUntil
      ensures Refreshed(nodes, time, o)[i].readySince.Some? ==> nodes[i].busyUntil <= time
    {
      assert Refreshed(nodes, time, o)[i] == RefreshedNode(nodes[i], time, o.timers, o.triggered(i), o.available(i));
    }
  }

  lemma {:induction false} UnreadyKeepsBusyTimes(nodes: seq<Node>, selected: seq<nat>)
    ensures SameBusyTimes(Unready(nodes, selected), nodes)
  {
  }

  // ---------------------------------------------------------------- a batch

  /** A batch that may start now: distinct idle nodes, no more in any pool than are free. */
  ghost predicate Startable(c: Config, nodes: seq<Node>, executed: seq<nat>, time: Time) {
    && |nodes| == |c.poolOf| && Distinct(executed)
    && (forall k :: 0 <= k < |executed| ==> executed[k] < |nodes| && nodes[executed[k]].busyUntil <= time)
    && (forall pool :: 0 <= pool < |c.pools| ==>
          Busy(nodes, c.poolOf, pool, time) + InPool(executed, c.poolOf, pool) <= c.pools[pool])
  }

  lemma {:induction false} AppliedLeavesRest(nodes: seq<Node>, executed: seq<nat>, timed: seq<Timed>, i: nat)
    requires |executed| == |timed| && i < |nodes| && i !in executed
    ensures Applied(nodes, executed, timed)[i] == nodes[i]
  {
    if executed != [] {
      AppliedLeavesRest(nodes, executed[..|executed| - 1], timed[..|timed| - 1], i);
    }
  }

  lemma {:induction false} AppliedSetsFinish(nodes: seq<Node>, executed: seq<nat>, timed: seq<Timed>, k: nat)
    requires |executed| == |timed| && Distinct(executed) && k < |executed| && executed[k] < |nodes|
    ensures Applied(nodes, executed, timed)[executed[k]].busyUntil == timed[k].finish
  {
    if k < |executed| - 1 {
      AppliedSetsFinish(nodes, executed[..|executed| - 1], timed[..|timed| - 1], k);
      assert executed[k] != executed[|executed| - 1];
    }
  }

  /** The nodes that become busy are those whose intervals begin. */
  lemma {:induction false} BatchOccupies(
      nodes: seq<Node>, poolOf: seq<nat>, executed: seq<nat>, timed: seq<Timed>, start: Time, pool: nat, time: int)
    requires |nodes| == |poolOf| && |executed| == |timed| && Distinct(executed) && start <= time
    requires forall k :: 0 <= k < |executed| ==> executed[k] < |nodes| && nodes[executed[k]].busyUntil <= start
    ensures Busy(Applied(nodes, executed, timed), poolOf, pool, time)
         == Busy(nodes, poolOf, pool, time) + Active(Intervals(executed, timed, start), poolOf, pool, time)
  {
    if executed != [] {
      var last := |executed| - 1;
      BatchOccupies(nodes, poolOf, executed[..last], timed[..last], start, pool, time);
      var before, i := Applied(nodes, executed[..last], timed[..last]), executed[last];
      AppliedLeavesRest(nodes, executed[..last], timed[..last], i);
      BusyUpdate(before, poolOf, i, Finished(before[i], timed[last]), pool, time);
      assert Intervals(executed, timed, start)[..last] == Intervals(executed[..last], timed[..last], start);
    }
  }

  lemma {:induction false} FewActive(
      executed: seq<nat>, timed: seq<Timed>, start: Time, poolOf: seq<nat>, pool: nat, time: int)
    requires |executed| == |timed|
    ensures Active(Intervals(executed, timed, start), poolOf, pool, time) <= InPool(executed, poolOf, pool)
    ensures time < start ==> Active(Intervals(executed, timed, start), poolOf, pool, time) == 0
  {
    if executed != [] {
      var last := |executed| - 1;
      FewActive(executed[..last], timed[..last], start, poolOf, pool, time);
      assert Intervals(executed, timed, start)[..last] == Intervals(executed[..last], timed[..last], start);
    }
  }

  /** Starting a batch that may start keeps every pool within its threads. */
  lemma {:induction false} BatchFits(
      c: Config, s: Session, s': Session, executed: seq<nat>, timed: seq<Timed>, pool: nat, time: int)
    requires Occupancy(c, s) && Startable(c, s.view.nodes, executed, s.view.time) && |executed| == |timed|
    requires Configured(c, s'.view.nodes) && s'.view.time >= s.view.time
    requires SameBusyTimes(s'.view.nodes, Applied(s.view.nodes, executed, timed))
    requires s'.history == s.history + Intervals(executed, timed, s.view.time)
    requires pool < |c.pools|
    ensures PoolFits(c, s', pool, time)
  {
    var now := s.view.time;
    ActiveConcat(s.history, Intervals(executed, timed, now), c.poolOf, pool, time);
    assert PoolFits(c, s, pool, time);
    FewActive(executed, timed, now, c.poolOf, pool, time);
    if time >= now {
      BatchOccupies(s.view.nodes, c.poolOf, executed, timed, now, pool, time);
      BusyDependsOnTimes(s'.view.nodes, Applied(s.view.nodes, executed, timed), c.poolOf, pool, time);
      BusyFades(s.view.nodes, c.poolOf, pool, now, time);
    }
  }

  lemma {:induction false} BatchOnceAtATime(s: Session, s': Session, executed: seq<nat>, timed: seq<Timed>)
    requires OnceAtATime(s) && |executed| == |timed| && Distinct(executed)
    requires forall k :: 0 <= k < |executed| ==>
      executed[k] < |s.view.nodes| && s.view.nodes[executed[k]].busyUntil <= s.view.time <= timed[k].finish
    requires SameBusyTimes(s'.view.nodes, Applied(s.view.nodes, executed, timed))
    requires s'.history == s.history + Intervals(executed, timed, s.view.time)
    ensures OnceAtATime(s')
  {
    var n := |s.history|;
    forall k | 0 <= k < |s'.history|
      ensures s'.history[k].node < |s'.view.nodes| && s'.history[k].finish <= s'.view.nodes[s'.history[k].node].busyUntil
    {
      if k < n {
        assert s'.history[k] == s.history[k];
        var i := s.history[k].node;
        if j :| 0 <= j < |executed| && executed[j] == i {
          AppliedSetsFinish(s.view.nodes, executed, timed, j);
        } else {
          AppliedLeavesRest(s.view.nodes, executed, timed, i);
        }
      } else {
        assert s'.history[k] == Intervals(executed, timed, s.view.time)[k - n];
        AppliedSetsFinish(s.view.nodes, executed, timed, k - n);
      }
    }
    forall j, k | 0 <= j < k < |s'.history| && s'.history[j].node == s'.history[k].node
      ensures s'.history[j].finish <= s'.history[k].start
    {
      if k >= n {
        assert s'.history[k] == Intervals(executed, timed, s.view.time)[k - n];
        if j < n {
          assert s'.history[j] == s.history[j];
        }
      } else {
        assert s'.history[j] == s.history[j] && s'.history[k] == s.history[k];
      }
    }
  }

  // ---------------------------------------------------------------- steps

  lemma {:induction false} ReadyFits(callbacks: seq<nat>, prepare: nat -> bool, poolOf: seq<nat>, pool: nat)
    ensures InPool(Ready(callbacks, prepare), poolOf, pool) <= InPool(callbacks, poolOf, pool)
  {
    if callbacks != [] {
      ReadyFits(callbacks[..|callbacks| - 1], prepare, poolOf, pool);
      var ready := Ready(callbacks[..|callbacks| - 1], prepare);
      assert ready + [] == ready && (ready + [callbacks[|callbacks| - 1]])[..|ready|] == ready;
    }
  }

  lemma {:induction false} ReadyIsPart(callbacks: seq<nat>, prepare: nat -> bool)
    requires Distinct(callbacks)
    ensures Distinct(Ready(callbacks, prepare)) && forall i :: i in Ready(callbacks, prepare) ==> i in callbacks
  {
    if callbacks != [] {
      var last := |callbacks| - 1;
      forall i, j | 0 <= i < j < last ensures callbacks[..last][i] != callbacks[..last][j] {
        assert callbacks[i] != callbacks[j];
      }
      ReadyIsPart(callbacks[..last], prepare);
      var ready := Ready(callbacks[..last], prepare);
      forall k | 0 <= k < |ready| ensures ready[k] != callbacks[last] {
        assert ready[k] in callbacks[..last];
      }
    }
  }

  lemma {:induction false} TimingsFinishLater(env: Environment, time: Time, executed: seq<nat>)
    requires Timings(env, time, executed).Ok?
    ensures forall k :: 0 <= k < |executed| ==> Timings(env, time, executed).value[k].finish >= time
  {
    if executed != [] {
      TimingsFinishLater(env, time, executed[..|executed| - 1]);
    }
  }

  /** What the nodes are when a step starts its batch. */
  function Chosen(c: Config, v: View, env: Environment): (seq<Node>, seq<nat>)
    requires Configured(c, v.nodes)
  {
    var refreshed := Refreshed(v.nodes, v.time, env.first);
    var selected := Selected(c, refreshed, v.time);
    (Unready(refreshed, selected), Ready(selected, env.prepare))
  }

  lemma {:induction false} ChosenAreIdle(c: Config, v: View, env: Environment)
    requires Configured(c, v.nodes)
    ensures var (nodes, executed) := Chosen(c, v, env);
      && SameBusyTimes(nodes, v.nodes) && Distinct(executed)
      && forall k :: 0 <= k < |executed| ==> executed[k] < |nodes| && nodes[executed[k]].busyUntil <= v.time
  {
    var refreshed := Refreshed(v.nodes, v.time, env.first);
    var selected := Selected(c, refreshed, v.time);
    var executed := Ready(selected, env.prepare);
    RefreshKeepsBusyTimes(v.nodes, v.time, env.first);
    UnreadyKeepsBusyTimes(refreshed, selected);
    SelectionIsSound(c, refreshed, v.time);
    ReadyIsPart(selected, env.prepare);
    forall k | 0 <= k < |executed| ensures executed[k] < |v.nodes| && v.nodes[executed[k]].busyUntil <= v.time {
      assert executed[k] in executed;
    }
  }

  lemma {:induction false} ChosenFit(c: Config, s: Session, env: Environment, pool: nat)
    requires Occupancy(c, s) && pool < |c.pools|
    ensures var (nodes, executed) := Chosen(c, s.view, env);
      Busy(nodes, c.poolOf, pool, s.view.time) + InPool(executed, c.poolOf, pool) <= c.pools[pool]
  {
    var v, now := s.view, s.view.time;
    var refreshed := Refreshed(v.nodes, now, env.first);
    var selected := Selected(c, refreshed, now);
    assert PoolFits(c, s, pool, now);
    RefreshKeepsBusyTimes(v.nodes, now, env.first);
    UnreadyKeepsBusyTimes(refreshed, selected);
    BusyDependsOnTimes(v.nodes, refreshed, c.poolOf, pool, now);
    BusyDependsOnTimes(v.nodes, Unready(refreshed, selected), c.poolOf, pool, now);
    SelectionTakesSmallest(c, refreshed, now, pool);
    InPoolCounts(selected, c.poolOf, pool);
    ReadyFits(selected, env.prepare, c.poolOf, pool);
  }

  lemma {:induction false} ChosenMayStart(c: Config, s: Session, env: Environment)
    requires Occupancy(c, s)
    ensures var (nodes, executed) := Chosen(c, s.view, env);
      SameBusyTimes(nodes, s.view.nodes) && Startable(c, nodes, executed, s.view.time)
  {
    ChosenAreIdle(c, s.view, env);
    var (nodes, executed) := Chosen(c, s.view, env);
    forall pool | 0 <= pool < |c.pools|
      ensures Busy(nodes, c.poolOf, pool, s.view.time) + InPool(executed, c.poolOf, pool) <= c.pools[pool]
    {
      ChosenFit(c, s, env, pool);
    }
  }

  lemma {:induction false} EarliestIsLater(nodes: seq<Node>, now: Time)
    ensures EarliestOfNodes(nodes, now).Some? ==> EarliestOfNodes(nodes, now).value > now
  {
    if nodes != [] {
      EarliestIsLater(nodes[..|nodes| - 1], now);
    }
  }

  lemma {:induction false} SettleKeepsBusyTimes(
      c: Config, v: View, executed: seq<nat>, timed: seq<Timed>, env: Environment)
    requires Configured(c, v.nodes) && |executed| == |timed|
    ensures var v' := Settle(c, v, executed, timed, env).0;
      v'.time >= v.time && SameBusyTimes(v'.nodes, Applied(v.nodes, executed, timed))
  {
    var applied := Applied(v.nodes, executed, timed);
    var settled := Refreshed(applied, v.time, env.second);
    EarliestIsLater(settled, v.time);
    RefreshKeepsBusyTimes(applied, v.time, env.second);
    RefreshKeepsBusyTimes(settled, Settle(c, v, executed, timed, env).0.time, env.third);
  }

  /** How a step relates to the batch it starts. */
  lemma {:induction false} StepStartsBatch(c: Config, v: View, env: Environment)
    requires Configured(c, v.nodes)
    ensures var (nodes, executed) := Chosen(c, v, env);
      var o := Step(c, v, env);
      if o.result.Err? then
        SameBusyTimes(o.view.nodes, v.nodes) && o.view.time == v.time && o.intervals == []
      else
        && o.result.value.executed == executed && Timings(env, v.time, executed).Ok? && o.view.time >= v.time
        && o.intervals == Intervals(executed, Timings(env, v.time, executed).value, v.time)
        && SameBusyTimes(o.view.nodes, Applied(nodes, executed, Timings(env, v.time, executed).value))
  {
    var a := RunActions(v, env.outcome);
    ActionsKeepNodes(v, env.outcome);
    var (nodes, executed) := Chosen(c, v, env);
    var refreshed := Refreshed(v.nodes, v.time, env.first);
    RefreshKeepsBusyTimes(v.nodes, v.time, env.first);
    UnreadyKeepsBusyTimes(refreshed, Selected(c, refreshed, v.time));
    if a.error.None? && Step(c, v, env).result.Ok? {
      SettleKeepsBusyTimes(c, a.view.(nodes := nodes), executed, Timings(env, v.time, executed).value, env);
    }
  }

  /** The batch of a step leaves the session sound, at the time it starts or later. */
  lemma {:induction false} BatchKeepsOccupancy(c: Config, s: Session, env: Environment, s': Session)
    requires Occupancy(c, s)
    requires var (nodes, executed) := Chosen(c, s.view, env);
      && Timings(env, s.view.time, executed).Ok? && s'.view.time >= s.view.time
      && s'.history == s.history + Intervals(executed, Timings(env, s.view.time, executed).value, s.view.time)
      && SameBusyTimes(s'.view.nodes, Applied(nodes, executed, Timings(env, s.view.time, executed).value))
    ensures Occupancy(c, s')
  {
    var (nodes, executed) := Chosen(c, s.view, env);
    ChosenMayStart(c, s, env);
    var base := s.(view := s.view.(nodes := nodes));
    SameTimesKeepOccupancy(c, s, base);
    var timed := Timings(env, s.view.time, executed).value;
    TimingsFinishLater(env, s.view.time, executed);
    BatchOnceAtATime(base, s', executed, timed);
    forall pool, time | 0 <= pool < |c.pools| ensures PoolFits(c, s', pool, time) {
      BatchFits(c, base, s', executed, timed, pool, time);
    }
  }

  lemma {:induction false} StepKeepsOccupancy(c: Config, s: Session, env: Environment)
    requires Occupancy(c, s) && !s.failed
    ensures Occupancy(c, Stepped(c, s, env).0)
  {
    var s' := Stepped(c, s, env).0;
    StepStartsBatch(c, s.view, env);
    if Step(c, s.view, env).result.Err? {
      assert s'.history == s.history;
      SameTimesKeepOccupancy(c, s, s');
    } else {
      BatchKeepsOccupancy(c, s, env, s');
    }
  }

  lemma {:induction false} SameTimesKeepOccupancy(c: Config, s: Session, s': Session)
    requires Occupancy(c, s) && SameBusyTimes(s'.view.nodes, s.view.nodes)
    requires s'.view.time == s.view.time && s'.history == s.history
    ensures Occupancy(c, s')
  {
    forall pool, time | 0 <= pool < |c.pools| ensures PoolFits(c, s', pool, time) {
      assert PoolFits(c, s, pool, time);
      BusyDependsOnTimes(s'.view.nodes, s.view.nodes, c.poolOf, pool, time);
    }
  }

  lemma {:induction false} NobodyBusyAtFirst(nodes: seq<Node>, poolOf: seq<nat>, pool: nat, start: Time, time: int)
    requires |nodes| == |poolOf| && start <= time && forall i :: 0 <= i < |nodes| ==> nodes[i].busyUntil == start
    ensures Busy(nodes, poolOf, pool, time) == 0
  {
    if nodes != [] {
      NobodyBusyAtFirst(nodes[..|nodes| - 1], poolOf[..|nodes| - 1], pool, start, time);
    }
  }

  /**
   Over every run, at every simulated time: the callbacks whose interval contains that time
   never exceed their pool's threads, and no callback starts before its previous interval ended.
   */
  lemma {:induction false} RunKeepsOccupancy(c: Config, s: Session, commands: seq<Command>)
    requires Configured(c, s.view.nodes) && Initial(c, s)
    ensures Occupancy(c, Run(c, s, commands))
  {
    if commands == [] {
      forall pool, time | 0 <= pool < |c.pools| ensures PoolFits(c, s, pool, time) {
        if time >= s.view.time {
          NobodyBusyAtFirst(s.view.nodes, c.poolOf, pool, s.view.time, time);
        }
      }
    } else {
      var before := Run(c, s, commands[..|commands| - 1]);
      RunKeepsOccupancy(c, s, commands[..|commands| - 1]);
      match commands[|commands| - 1]
      case Schedule(at, stream) => SameTimesKeepOccupancy(c, before, Scheduled(before, at, stream).0);
      case Advance(env) => if !before.failed { StepKeepsOccupancy(c, before, env); }
    }
  }

  /** The subtraction in `free_threads` never underflows. */
  lemma {:induction false} FreeThreadsNeverNegative(c: Config, s: Session, nodes: seq<Node>, pool: nat)
    requires Occupancy(c, s) && SameBusyTimes(nodes, s.view.nodes) && pool < |c.pools|
    ensures Free(c, nodes, s.view.time, pool) >= 0
  {
    assert PoolFits(c, s, pool, s.view.time);
    BusyDependsOnTimes(nodes, s.view.nodes, c.poolOf, pool, s.view.time);
  }
}
