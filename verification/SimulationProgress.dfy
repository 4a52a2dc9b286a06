/** Every successful step makes progress or reports idle, and idle is final without outside input. */
module SimulationProgress {
  import opened Basics
  import opened BatchExecution
  import opened Simulation
  import opened SimulationSelection
  import opened SimulationOccupancy
  import opened SimulationTime

  /** Nothing new since an earlier observation: no notification, same availability, same timer switch. */
  ghost predicate Quiet(o: Observation, earlier: Observation) {
    o.timers == earlier.timers && forall i :: !o.triggered(i) && o.available(i) == earlier.available(i)
  }

  ghost predicate AvailableIsReady(env: Environment) {
    forall i :: env.first.available(i) ==> env.prepare(i)
  }

  /** Refreshing again without news changes nothing. */
  lemma {:induction false} RefreshTwice(nodes: seq<Node>, time: Time, o: Observation, again: Observation)
    requires Quiet(again, o)
    ensures Refreshed(Refreshed(nodes, time, o), time, again) == Refreshed(nodes, time, o)
  {
    var once := Refreshed(nodes, time, o);
    var twice := Refreshed(once, time, again);
    forall i | 0 <= i < |nodes| ensures twice[i] == once[i] {
      assert once[i] == RefreshedNode(nodes[i], time, o.timers, o.triggered(i), o.available(i));
      assert twice[i] == RefreshedNode(once[i], time, again.timers, again.triggered(i), again.available(i));
    }
  }

  lemma {:induction false} AllReady(callbacks: seq<nat>, prepare: nat -> bool)
    requires forall i :: i in callbacks ==> prepare(i)
    ensures Ready(callbacks, prepare) == callbacks
  {
    if callbacks != [] {
      AllReady(callbacks[..|callbacks| - 1], prepare);
      assert callbacks == callbacks[..|callbacks| - 1] + [callbacks[|callbacks| - 1]];
    }
  }

  /** If every available input is ready, all selected callbacks execute. */
  lemma {:induction false} SelectedExecute(c: Config, v: View, env: Environment)
    requires Configured(c, v.nodes) && AvailableIsReady(env)
    ensures Chosen(c, v, env).1 == Selected(c, Refreshed(v.nodes, v.time, env.first), v.time)
  {
    var refreshed := Refreshed(v.nodes, v.time, env.first);
    var selected := Selected(c, refreshed, v.time);
    SelectionIsSound(c, refreshed, v.time);
    forall i | i in selected ensures env.prepare(i) {
      assert refreshed[i] == RefreshedNode(v.nodes[i], v.time, env.first.timers, env.first.triggered(i), env.first.available(i));
    }
    AllReady(selected, env.prepare);
  }

  lemma {:induction false} NodeEvent(nodes: seq<Node>, now: Time, i: nat)
    requires i < |nodes| && EarliestOfNodes(nodes, now).None?
    ensures nodes[i].busyUntil <= now && (nodes[i].next.Some? ==> nodes[i].next.value <= now)
  {
    if i < |nodes| - 1 {
      NodeEvent(nodes[..|nodes| - 1], now, i);
    }
  }

  lemma {:induction false} NoEventNoFuture(nodes: seq<Node>, actions: seq<Pending>, now: Time)
    requires actions == [] || actions[0].at > now
    ensures EarliestEvent(nodes, actions, now).None? ==> !HasFuture(nodes, actions, now)
  {
    if EarliestEvent(nodes, actions, now).None? {
      forall i | 0 <= i < |nodes|
        ensures nodes[i].busyUntil <= now && (nodes[i].next.Some? ==> nodes[i].next.value <= now)
      {
        NodeEvent(nodes, now, i);
      }
    }
  }

  lemma {:induction false} EarliestNodeIsThere(nodes: seq<Node>, now: Time)
    requires forall i :: 0 <= i < |nodes| ==>
      nodes[i].busyUntil <= now && (nodes[i].next.Some? ==> nodes[i].next.value <= now)
    ensures EarliestOfNodes(nodes, now).None?
  {
    if nodes != [] {
      EarliestNodeIsThere(nodes[..|nodes| - 1], now);
    }
  }

  lemma {:induction false} NoFutureNoEvent(nodes: seq<Node>, now: Time)
    requires !HasFuture(nodes, [], now)
    ensures EarliestEvent(nodes, [], now).None?
  {
    EarliestNodeIsThere(nodes, now);
  }

  // ---------------------------------------------------------------- progress

  /** Settling an empty batch without news: time advances to the next event, or there is none. */
  lemma {:induction false} EmptyBatchSettles(c: Config, v: View, env: Environment)
    requires Configured(c, v.nodes) && !Runnable(c, v.nodes, v.time)
    requires Refreshed(v.nodes, v.time, env.second) == v.nodes && Refreshed(v.nodes, v.time, env.third) == v.nodes
    requires v.actions == [] || v.actions[0].at > v.time
    ensures var (v', idle) := Settle(c, v, [], [], env);
      if EarliestEvent(v.nodes, v.actions, v.time).Some? then v'.time > v.time else v' == v && idle
  {
    EarliestIsLater(v.nodes, v.time);
    NoEventNoFuture(v.nodes, v.actions, v.time);
    assert Applied(v.nodes, [], []) == v.nodes;
  }

  lemma {:induction false} EmptyBatch(c: Config, v: View, env: Environment)
    requires Configured(c, v.nodes) && Chosen(c, v, env).1 == [] && RunActions(v, env.outcome).error.None?
    ensures var (nodes, _) := Chosen(c, v, env);
      var o := Step(c, v, env);
      var (v', idle) := Settle(c, RunActions(v, env.outcome).view.(nodes := nodes), [], [], env);
      && o.view == v' && o.intervals == [] && o.ran == RunActions(v, env.outcome).ran
      && o.result == Ok(StepResult(v.time, v'.time, [], idle))
  {
    ActionsKeepNodes(v, env.outcome);
  }

  lemma {:induction false} NobodySelected(c: Config, s: Session, env: Environment)
    requires Occupancy(c, s) && AvailableIsReady(env) && Chosen(c, s.view, env).1 == []
    ensures var refreshed := Refreshed(s.view.nodes, s.view.time, env.first);
      !Runnable(c, refreshed, s.view.time) && Chosen(c, s.view, env).0 == refreshed
  {
    var refreshed := Refreshed(s.view.nodes, s.view.time, env.first);
    SelectedExecute(c, s.view, env);
    RefreshKeepsBusyTimes(s.view.nodes, s.view.time, env.first);
    forall pool | 0 <= pool < |c.pools| ensures Free(c, refreshed, s.view.time, pool) >= 0 {
      FreeThreadsNeverNegative(c, s, refreshed, pool);
    }
    SelectsWhenRunnable(c, refreshed, s.view.time);
    assert Unready(refreshed, []) == refreshed;
  }

  /**
   Given that an input reported available is ready once updated, and that nothing arrives
   during a step in which nobody publishes: every successful step executes a callback,
   advances the time, or reports idle.
   */
  lemma {:induction false} StepMakesProgress(c: Config, s: Session, env: Environment, ran: seq<Pending>)
    requires Occupancy(c, s) && Timely(ran, s.view) && AvailableIsReady(env)
    requires Step(c, s.view, env).result.Ok?
    requires Step(c, s.view, env).result.value.executed == [] ==>
      Quiet(env.second, env.first) && Quiet(env.third, env.first)
    ensures var r := Step(c, s.view, env).result.value;
      r.executed != [] || r.after > r.before || r.idle
  {
    var v := s.view;
    StepStartsBatch(c, v, env);
    if Step(c, v, env).result.value.executed == [] {
      var refreshed, a := Refreshed(v.nodes, v.time, env.first), RunActions(v, env.outcome);
      NobodySelected(c, s, env);
      ActionsKeepNodes(v, env.outcome);
      ActionsKeepTimely(ran, v, env.outcome);
      EmptyBatch(c, v, env);
      RefreshTwice(v.nodes, v.time, env.first, env.second);
      RefreshTwice(v.nodes, v.time, env.first, env.third);
      EmptyBatchSettles(c, a.view.(nodes := refreshed), env);
    }
  }

  // ---------------------------------------------------------------- input arriving during a step

  /** Timers stay as they are and nothing available goes away; anything may arrive. */
  ghost predicate Lasts(o: Observation, later: Observation) {
    later.timers == o.timers && forall i :: o.available(i) ==> later.available(i)
  }

  lemma {:induction false} ReadyLasts(nodes: seq<Node>, time: Time, o: Observation, later: Observation, i: nat)
    requires Lasts(o, later) && i < |nodes| && Refreshed(nodes, time, o)[i].readySince.Some?
    ensures Refreshed(Refreshed(nodes, time, o), time, later)[i].readySince.Some?
  {
    var once := Refreshed(nodes, time, o);
    assert once[i] == RefreshedNode(nodes[i], time, o.timers, o.triggered(i), o.available(i));
    assert Refreshed(once, time, later)[i] == RefreshedNode(once[i], time, later.timers, later.triggered(i), later.available(i));
  }

  /** Whoever can run still can after another refresh. */
  lemma {:induction false} RunnableLasts(c: Config, nodes: seq<Node>, time: Time, o: Observation, later: Observation)
    requires Configured(c, nodes) && Lasts(o, later) && Runnable(c, Refreshed(nodes, time, o), time)
    ensures Runnable(c, Refreshed(Refreshed(nodes, time, o), time, later), time)
  {
    var once := Refreshed(nodes, time, o);
    var i :| 0 <= i < |once| && once[i].readySince.Some? && Free(c, once, time, c.poolOf[i]) != 0;
    ReadyLasts(nodes, time, o, later, i);
    RefreshKeepsBusyTimes(once, time, later);
    BusyDependsOnTimes(Refreshed(once, time, later), once, c.poolOf, c.poolOf[i], time);
  }

  /** While timers stay as they are, a refresh neither adds nor moves a future event. */
  lemma {:induction false} FutureLasts(nodes: seq<Node>, actions: seq<Pending>, time: Time, o: Observation, later: Observation)
    requires later.timers == o.timers && HasFuture(Refreshed(Refreshed(nodes, time, o), time, later), actions, time)
    ensures HasFuture(Refreshed(nodes, time, o), actions, time)
  {
    var once := Refreshed(nodes, time, o);
    var twice := Refreshed(once, time, later);
    forall i | 0 <= i < |nodes| ensures twice[i].busyUntil == once[i].busyUntil && twice[i].next == once[i].next {
      assert once[i] == RefreshedNode(nodes[i], time, o.timers, o.triggered(i), o.available(i));
      assert twice[i] == RefreshedNode(once[i], time, later.timers, later.triggered(i), later.available(i));
    }
  }

  /** A settled step that did not advance the time is idle or leaves somebody runnable. */
  lemma {:induction false} SettleHangsNowhere(
      c: Config, v: View, executed: seq<nat>, timed: seq<Timed>, env: Environment)
    requires Configured(c, v.nodes) && |executed| == |timed| && Lasts(env.second, env.third)
    requires v.actions == [] || v.actions[0].at > v.time
    ensures var (v', idle) := Settle(c, v, executed, timed, env);
      v'.time > v.time || idle || Runnable(c, v'.nodes, v'.time)
  {
    var applied := Applied(v.nodes, executed, timed);
    var settled := Refreshed(applied, v.time, env.second);
    if Runnable(c, settled, v.time) {
      RunnableLasts(c, applied, v.time, env.second, env.third);
    } else if EarliestEvent(settled, v.actions, v.time).Some? {
      EarliestIsLater(settled, v.time);
    } else {
      NoEventNoFuture(settled, v.actions, v.time);
      if HasFuture(Refreshed(settled, v.time, env.third), v.actions, v.time) {
        FutureLasts(applied, v.actions, v.time, env.second, env.third);
      }
    }
  }

  lemma {:induction false} ActionsLeaveLater(v: View, outcome: Pending -> ActionOutcome)
    ensures var a := RunActions(v, outcome); a.error.None? ==> a.view.actions == [] || a.view.actions[0].at > v.time
    decreases DueCount(v.actions, v.time)
  {
    if v.actions != [] && v.actions[0].at <= v.time && RunFirst(v, outcome).Ok? {
      RunFirstFewerDue(v, outcome);
      ActionsLeaveLater(RunFirst(v, outcome).value, outcome);
    }
  }

  /**
   Whatever arrives during it, a successful step executes a callback, advances the time,
   reports idle, or leaves a callback runnable.
   */
  lemma {:induction false} StepHangsNowhere(c: Config, v: View, env: Environment)
    requires Configured(c, v.nodes) && Lasts(env.second, env.third) && Step(c, v, env).result.Ok?
    ensures var o := Step(c, v, env);
      var r := o.result.value;
      r.executed != [] || r.after > r.before || r.idle || Runnable(c, o.view.nodes, o.view.time)
  {
    ActionsKeepNodes(v, env.outcome);
    ActionsLeaveLater(v, env.outcome);
    StepStartsBatch(c, v, env);
    var (nodes, executed) := Chosen(c, v, env);
    var timed := Timings(env, v.time, executed).value;
    SettleHangsNowhere(c, RunActions(v, env.outcome).view.(nodes := nodes), executed, timed, env);
  }

  /** From a view in which somebody can run, a successful step executes. */
  lemma {:induction false} RunnableExecutes(c: Config, s: Session, nodes: seq<Node>, seen: Observation, env: Environment)
    requires Occupancy(c, s) && s.view.nodes == Refreshed(nodes, s.view.time, seen) && Runnable(c, s.view.nodes, s.view.time)
    requires Lasts(seen, env.first) && AvailableIsReady(env) && Step(c, s.view, env).result.Ok?
    ensures Step(c, s.view, env).result.value.executed != []
  {
    RunnableLasts(c, nodes, s.view.time, seen, env.first);
    StepStartsBatch(c, s.view, env);
    if Chosen(c, s.view, env).1 == [] {
      NobodySelected(c, s, env);
    }
  }

  lemma {:induction false} StepEndsRefreshed(c: Config, v: View, env: Environment) returns (nodes: seq<Node>)
    requires Configured(c, v.nodes) && Step(c, v, env).result.Ok?
    ensures Step(c, v, env).view.nodes == Refreshed(nodes, Step(c, v, env).view.time, env.third)
  {
    ActionsKeepNodes(v, env.outcome);
    StepStartsBatch(c, v, env);
    var (before, executed) := Chosen(c, v, env);
    var timed := Timings(env, v.time, executed).value;
    nodes := Refreshed(Applied(before, executed, timed), v.time, env.second);
    assert Step(c, v, env).view == Settle(c, RunActions(v, env.outcome).view.(nodes := before), executed, timed, env).0;
  }

  /**
   No input is left lying, whenever it arrives: if available inputs stay available until they are
   taken and are ready once updated, then of two successive successful steps the first executes,
   advances the time or reports idle, or the second executes.
   */
  lemma {:induction false} TwoStepsMakeProgress(c: Config, s: Session, env: Environment, more: Environment)
    requires Occupancy(c, s) && !s.failed && Lasts(env.second, env.third) && Stepped(c, s, env).1.Ok?
    requires Lasts(env.third, more.first) && AvailableIsReady(more) && Stepped(c, Stepped(c, s, env).0, more).1.Ok?
    ensures var r := Stepped(c, s, env).1.value;
      r.executed != [] || r.after > r.before || r.idle || Stepped(c, Stepped(c, s, env).0, more).1.value.executed != []
  {
    var s' := Stepped(c, s, env).0;
    StepHangsNowhere(c, s.view, env);
    StepKeepsOccupancy(c, s, env);
    if Runnable(c, s'.view.nodes, s'.view.time) {
      var nodes := StepEndsRefreshed(c, s.view, env);
      RunnableExecutes(c, s', nodes, env.third, more);
    }
  }

  // ---------------------------------------------------------------- requests

  predicate TimersOn(env: Environment) { env.first.timers && env.second.timers && env.third.timers }

  /** A request, a notification or a passed deadline asks for an execution. */
  predicate Asked(node: Node, time: Time, triggered: bool) {
    node.requested || triggered || (node.next.Some? && node.next.value <= time)
  }

  lemma {:induction false} RefreshHears(nodes: seq<Node>, time: Time, o: Observation, i: nat)
    requires i < |nodes| && o.timers
    ensures var node := Refreshed(nodes, time, o)[i];
      && (Asked(nodes[i], time, o.triggered(i)) ==> node.requested)
      && (node.next.Some? && node.next.value <= time ==> node.requested)
  {
    assert Refreshed(nodes, time, o)[i] == RefreshedNode(nodes[i], time, o.timers, o.triggered(i), o.available(i));
  }

  lemma {:induction false} SettleHears(
      c: Config, v: View, executed: seq<nat>, timed: seq<Timed>, env: Environment, i: nat)
    requires Configured(c, v.nodes) && |executed| == |timed| && i < |v.nodes| && env.second.timers && env.third.timers
    ensures var v' := Settle(c, v, executed, timed, env).0;
      var node := Applied(v.nodes, executed, timed)[i];
      && |v'.nodes| == |v.nodes|
      && (node.requested || env.second.triggered(i) || env.third.triggered(i) ==> v'.nodes[i].requested)
      && (v'.nodes[i].next.Some? && v'.nodes[i].next.value <= v'.time ==> v'.nodes[i].requested)
  {
    var applied := Applied(v.nodes, executed, timed);
    RefreshHears(applied, v.time, env.second, i);
    RefreshHears(Refreshed(applied, v.time, env.second), Settle(c, v, executed, timed, env).0.time, env.third, i);
  }

  /**
   While timers are on, a step that does not execute a callback leaves it requested if it was
   requested, notified or due; and nobody's deadline passes without a request.
   */
  lemma {:induction false} RequestsAreNotLost(c: Config, v: View, env: Environment, i: nat)
    requires Configured(c, v.nodes) && i < |v.nodes| && TimersOn(env) && Step(c, v, env).result.Ok?
    ensures var o := Step(c, v, env);
      var node := o.view.nodes[i];
      && (node.next.Some? && node.next.value <= o.view.time ==> node.requested)
      && (env.second.triggered(i) || env.third.triggered(i) ==> node.requested)
      && (i !in o.result.value.executed && Asked(v.nodes[i], v.time, env.first.triggered(i)) ==> node.requested)
  {
    ActionsKeepNodes(v, env.outcome);
    StepStartsBatch(c, v, env);
    var (nodes, executed) := Chosen(c, v, env);
    var timed := Timings(env, v.time, executed).value;
    var v1 := RunActions(v, env.outcome).view.(nodes := nodes);
    RefreshHears(v.nodes, v.time, env.first, i);
    assert nodes[i].requested == Refreshed(v.nodes, v.time, env.first)[i].requested;
    if i !in executed {
      AppliedLeavesRest(nodes, executed, timed, i);
    }
    SettleHears(c, v1, executed, timed, env, i);
    assert Step(c, v, env).view == Settle(c, v1, executed, timed, env).0;
  }

  // ---------------------------------------------------------------- idle

  /** Nothing is pending, nobody can run, and a refresh without news finds nothing to do. */
  ghost predicate AtRest(c: Config, v: View, seen: Observation) {
    && Configured(c, v.nodes) && v.actions == [] && !Runnable(c, v.nodes, v.time) && !HasFuture(v.nodes, [], v.time)
    && forall o :: Quiet(o, seen) ==> Refreshed(v.nodes, v.time, o) == v.nodes
  }

  lemma {:induction false} IdleIsAtRest(c: Config, v: View, env: Environment)
    requires Configured(c, v.nodes) && Step(c, v, env).result.Ok? && Step(c, v, env).result.value.idle
    ensures AtRest(c, Step(c, v, env).view, env.third)
  {
    var a, o := RunActions(v, env.outcome), Step(c, v, env);
    ActionsKeepNodes(v, env.outcome);
    StepStartsBatch(c, v, env);
    var (nodes, executed) := Chosen(c, v, env);
    var timed := Timings(env, v.time, executed).value;
    var v1 := a.view.(nodes := nodes);
    var settled := Refreshed(Applied(nodes, executed, timed), v.time, env.second);
    assert o.view == Settle(c, v1, executed, timed, env).0;
    assert o.view.nodes == Refreshed(settled, o.view.time, env.third);
    forall quiet | Quiet(quiet, env.third) ensures Refreshed(o.view.nodes, o.view.time, quiet) == o.view.nodes {
      RefreshTwice(settled, o.view.time, env.third, quiet);
    }
  }

  /** Nothing arrives before or during the step. */
  ghost predicate NoInput(env: Environment, seen: Observation) {
    Quiet(env.first, seen) && Quiet(env.second, seen) && Quiet(env.third, seen)
  }

  lemma {:induction false} RestingStep(c: Config, s: Session, seen: Observation, env: Environment)
    requires Occupancy(c, s) && AtRest(c, s.view, seen) && NoInput(env, seen)
    ensures var v := s.view;
      Step(c, v, env) == StepOutcome(v, [], [], Ok(StepResult(v.time, v.time, [], true)))
  {
    var v := s.view;
    assert Refreshed(v.nodes, v.time, env.first) == v.nodes;
    forall pool | 0 <= pool < |c.pools| ensures Free(c, v.nodes, v.time, pool) >= 0 {
      FreeThreadsNeverNegative(c, s, v.nodes, pool);
    }
    SelectsWhenRunnable(c, v.nodes, v.time);
    assert Unready(v.nodes, []) == v.nodes;
    EmptyBatch(c, v, env);
    NoFutureNoEvent(v.nodes, v.time);
    EmptyBatchSettles(c, v, env);
  }

  /** One step after the other, each with what it meets. */
  function Advances(envs: seq<Environment>): seq<Command> {
    if envs == [] then [] else Advances(envs[..|envs| - 1]) + [Advance(envs[|envs| - 1])]
  }

  /** Once a step has reported idle, further steps without outside input change nothing and stay idle. */
  lemma {:induction false} IdleStaysIdle(c: Config, s: Session, env: Environment, envs: seq<Environment>)
    requires Occupancy(c, s) && !s.failed
    requires Stepped(c, s, env).1.Ok? && Stepped(c, s, env).1.value.idle
    requires forall k :: 0 <= k < |envs| ==> NoInput(envs[k], env.third)
    ensures var idle := Stepped(c, s, env).0;
      Run(c, idle, Advances(envs)) == idle
    ensures forall more :: NoInput(more, env.third) ==>
      var idle := Stepped(c, s, env).0;
      Stepped(c, idle, more) == (idle, Ok(StepResult(idle.view.time, idle.view.time, [], true)))
  {
    var idle := Stepped(c, s, env).0;
    StepKeepsOccupancy(c, s, env);
    IdleIsAtRest(c, s.view, env);
    forall more | NoInput(more, env.third)
      ensures Stepped(c, idle, more) == (idle, Ok(StepResult(idle.view.time, idle.view.time, [], true)))
    {
      RestingStep(c, idle, env.third, more);
      assert idle.history + [] == idle.history && idle.log + Stamped([], idle.view.time) == idle.log;
    }
    StaysPut(c, idle, env.third, envs);
  }

  lemma {:induction false} StaysPut(c: Config, idle: Session, seen: Observation, envs: seq<Environment>)
    requires Configured(c, idle.view.nodes)
    requires forall more :: NoInput(more, seen) ==> Stepped(c, idle, more).0 == idle
    requires forall k :: 0 <= k < |envs| ==> NoInput(envs[k], seen)
    ensures Run(c, idle, Advances(envs)) == idle
  {
    if envs != [] {
      var last := |envs| - 1;
      StaysPut(c, idle, seen, envs[..last]);
      assert Advances(envs)[..|Advances(envs)| - 1] == Advances(envs[..last]);
    }
  }
}
