/** Simulated time only moves forward and never past a pending action. */
module SimulationTime {
  import opened Basics
  import opened Simulation
  import opened SimulationOccupancy

  ghost predicate InOrder(actions: seq<Pending>) {
    forall i, j :: 0 <= i < j < |actions| ==> Before(actions[i], actions[j])
  }

  ghost function Actions(log: seq<Ran>): (r: seq<Pending>)
    ensures |r| == |log| && forall k :: 0 <= k < |log| ==> r[k] == log[k].action
  {
    seq(|log|, k requires 0 <= k < |log| => log[k].action)
  }

  /**
   Everything that ran or is pending is in key order; nothing pending is in the past, and
   every action ran at exactly its own time.
   */
  ghost predicate Timely(ran: seq<Pending>, v: View) {
    && InOrder(ran + v.actions)
    && (forall k :: 0 <= k < |v.actions| ==> v.actions[k].at >= v.time && v.actions[k].sequence < v.sequence)
    && (forall k :: 0 <= k < |ran| ==> ran[k].at <= v.time && ran[k].sequence < v.sequence)
  }

  ghost predicate OnTime(s: Session) {
    && Timely(Actions(s.log), s.view)
    && (forall k :: 0 <= k < |s.log| ==> s.log[k].when == s.log[k].action.at)
  }

  // ---------------------------------------------------------------- inserting

  lemma {:induction false} InsertKeepsOrder(actions: seq<Pending>, a: Pending)
    requires InOrder(actions) && forall k :: 0 <= k < |actions| ==> actions[k].sequence < a.sequence
    ensures InOrder(Inserted(actions, a))
    ensures forall k :: 0 <= k < |Inserted(actions, a)| ==>
      Inserted(actions, a)[k] == a || Inserted(actions, a)[k] in actions
    ensures a in Inserted(actions, a) && forall b :: b in actions ==> b in Inserted(actions, a)
  {
    if actions != [] && !Before(actions[|actions| - 1], a) {
      InsertKeepsOrder(actions[..|actions| - 1], a);
      assert actions == actions[..|actions| - 1] + [actions[|actions| - 1]];
    }
  }

  lemma {:induction false} InsertKeepsTimely(ran: seq<Pending>, v: View, at: Time, stream: bool)
    requires Timely(ran, v) && InsertAction(v, at, stream).Ok?
    ensures Timely(ran, InsertAction(v, at, stream).value)
    ensures forall b :: b in v.actions ==> b in InsertAction(v, at, stream).value.actions
    ensures Pending(at, v.sequence, stream) in InsertAction(v, at, stream).value.actions
  {
    var a := Pending(at, v.sequence, stream);
    forall i, j | 0 <= i < j < |v.actions| ensures Before(v.actions[i], v.actions[j]) {
      var all := ran + v.actions;
      assert Before(all[|ran| + i], all[|ran| + j]);
    }
    InsertKeepsOrder(v.actions, a);
    var r := Inserted(v.actions, a);
    forall i, j | 0 <= i < j < |ran + r| ensures Before((ran + r)[i], (ran + r)[j]) {
      if j < |ran| {
        assert Before((ran + v.actions)[i], (ran + v.actions)[j]);
      } else if i < |ran| && r[j - |ran|] != a {
        var k :| 0 <= k < |v.actions| && v.actions[k] == r[j - |ran|];
        assert Before((ran + v.actions)[i], (ran + v.actions)[|ran| + k]);
      }
    }
  }

  // ---------------------------------------------------------------- the action loop

  lemma {:induction false} PopKeepsTimely(ran: seq<Pending>, v: View)
    requires Timely(ran, v) && v.actions != [] && v.actions[0].at <= v.time
    ensures Timely(ran + [v.actions[0]], v.(actions := v.actions[1..])) && v.actions[0].at == v.time
  {
    assert ran + [v.actions[0]] + v.actions[1..] == ran + v.actions;
  }

  lemma {:induction false} RunFirstKeepsTimely(ran: seq<Pending>, v: View, outcome: Pending -> ActionOutcome)
    requires Timely(ran, v) && v.actions != [] && v.actions[0].at <= v.time
    ensures var ran' := ran + [v.actions[0]];
      match RunFirst(v, outcome) case Ok(v') => Timely(ran', v') case Err((v', _)) => Timely(ran', v')
  {
    PopKeepsTimely(ran, v);
    var rest := v.(actions := v.actions[1..]);
    match outcome(v.actions[0])
    case Again(next) =>
      if InsertAction(rest, next, true).Ok? {
        InsertKeepsTimely(ran + [v.actions[0]], rest, next, true);
      }
    case _ =>
  }

  lemma {:induction false} ActionsKeepTimely(ran: seq<Pending>, v: View, outcome: Pending -> ActionOutcome)
    requires Timely(ran, v)
    ensures var a := RunActions(v, outcome);
      && Timely(ran + a.ran, a.view) && (forall k :: 0 <= k < |a.ran| ==> a.ran[k].at == v.time)
      && (a.error.None? ==> a.view.actions == [] || a.view.actions[0].at > v.time)
    decreases DueCount(v.actions, v.time)
  {
    if v.actions == [] || v.actions[0].at > v.time {
      assert ran + [] == ran;
    } else {
      PopKeepsTimely(ran, v);
      RunFirstKeepsTimely(ran, v, outcome);
      if RunFirst(v, outcome).Ok? {
        var v' := RunFirst(v, outcome).value;
        RunFirstFewerDue(v, outcome);
        ActionsKeepTimely(ran + [v.actions[0]], v', outcome);
        ConcatAssociates(ran, [v.actions[0]], RunActions(v', outcome).ran);
      }
    }
  }

  /** An action that is due later survives the loop. */
  lemma {:induction false} LaterActionStays(ran: seq<Pending>, v: View, outcome: Pending -> ActionOutcome, a: Pending)
    requires Timely(ran, v) && a in v.actions && a.at > v.time
    ensures a in RunActions(v, outcome).view.actions
    decreases DueCount(v.actions, v.time)
  {
    if v.actions[0].at <= v.time {
      RunFirstKeepsTimely(ran, v, outcome);
      PopKeepsTimely(ran, v);
      var rest := v.(actions := v.actions[1..]);
      assert v.actions == [v.actions[0]] + rest.actions;
      assert a in rest.actions;
      match outcome(v.actions[0]) {
        case Again(next) =>
          if InsertAction(rest, next, true).Ok? {
            InsertKeepsTimely(ran + [v.actions[0]], rest, next, true);
          }
        case _ =>
      }
      if RunFirst(v, outcome).Ok? {
        RunFirstFewerDue(v, outcome);
        LaterActionStays(ran + [v.actions[0]], RunFirst(v, outcome).value, outcome, a);
      }
    }
  }

  // ---------------------------------------------------------------- the advance

  /** Time advances to the first action at most. */
  lemma {:induction false} AdvanceStopsAtAction(
      c: Config, v: View, executed: seq<nat>, timed: seq<Timed>, env: Environment)
    requires Configured(c, v.nodes) && |executed| == |timed|
    requires v.actions == [] || v.actions[0].at > v.time
    ensures var v' := Settle(c, v, executed, timed, env).0;
      v'.actions == v.actions && v'.sequence == v.sequence
      && v.time <= v'.time && (v.actions != [] ==> v'.time <= v.actions[0].at)
  {
    EarliestIsLater(Refreshed(Applied(v.nodes, executed, timed), v.time, env.second), v.time);
  }

  lemma {:induction false} TimelyLater(ran: seq<Pending>, v: View, v': View)
    requires Timely(ran, v) && v'.actions == v.actions && v'.sequence == v.sequence
    requires v.time <= v'.time && (v.actions != [] ==> v'.time <= v.actions[0].at)
    ensures Timely(ran, v')
  {
    forall k | 0 <= k < |v.actions| ensures v.actions[k].at >= v'.time {
      if k > 0 {
        assert Before((ran + v.actions)[|ran|], (ran + v.actions)[|ran| + k]);
      }
    }
  }

  lemma {:induction false} StepKeepsTimely(c: Config, v: View, env: Environment, ran: seq<Pending>)
    requires Configured(c, v.nodes) && Timely(ran, v)
    ensures var o := Step(c, v, env);
      && Timely(ran + o.ran, o.view) && v.time <= o.view.time
      && (forall k :: 0 <= k < |o.ran| ==> o.ran[k].at == v.time)
  {
    var a := RunActions(v, env.outcome);
    ActionsKeepNodes(v, env.outcome);
    ActionsKeepTimely(ran, v, env.outcome);
    var (nodes, executed) := Chosen(c, v, env);
    var v1 := a.view.(nodes := nodes);
    if a.error.None? && Step(c, v, env).result.Ok? {
      var timed := Timings(env, v.time, executed).value;
      AdvanceStopsAtAction(c, v1, executed, timed, env);
      TimelyLater(ran + a.ran, v1, Settle(c, v1, executed, timed, env).0);
    }
  }

  lemma {:induction false} PerformKeepsTime(c: Config, s: Session, command: Command)
    requires Configured(c, s.view.nodes) && OnTime(s)
    ensures OnTime(Perform(c, s, command)) && s.view.time <= Perform(c, s, command).view.time
  {
    match command
    case Schedule(at, stream) =>
      if !s.failed && InsertAction(s.view, at, stream).Ok? {
        InsertKeepsTimely(Actions(s.log), s.view, at, stream);
      }
    case Advance(env) =>
      if !s.failed {
        StepKeepsTimely(c, s.view, env, Actions(s.log));
        var o := Step(c, s.view, env);
        assert Actions(s.log + Stamped(o.ran, s.view.time)) == Actions(s.log) + o.ran;
      }
  }

  /**
   Over every run: pending actions are never in the past, every action ran at exactly its
   time, actions ran in the order of their times and, at equal times, of their insertion.
   */
  lemma {:induction false} RunIsOnTime(c: Config, s: Session, commands: seq<Command>)
    requires Configured(c, s.view.nodes) && Initial(c, s)
    ensures OnTime(Run(c, s, commands)) && s.view.time <= Run(c, s, commands).view.time
  {
    if commands != [] {
      RunIsOnTime(c, s, commands[..|commands| - 1]);
      PerformKeepsTime(c, Run(c, s, commands[..|commands| - 1]), commands[|commands| - 1]);
    }
  }

  // ---------------------------------------------------------------- a boundary

  /** A step below a pending boundary action starts its batch below it and does not pass it. */
  lemma {:induction false} StepStaysBelow(c: Config, v: View, env: Environment, ran: seq<Pending>, boundary: Pending)
    requires Configured(c, v.nodes) && Timely(ran, v) && boundary in v.actions && v.time < boundary.at
    ensures var o := Step(c, v, env);
      && o.view.time <= boundary.at && boundary in o.view.actions
      && (forall k :: 0 <= k < |o.intervals| ==> o.intervals[k].start < boundary.at)
  {
    StepKeepsTimely(c, v, env, ran);
    StepStartsBatch(c, v, env);
    LaterActionStays(ran, v, env.outcome, boundary);
    ActionsKeepNodes(v, env.outcome);
    var o := Step(c, v, env);
    assert o.view.actions == RunActions(v, env.outcome).view.actions;
  }
}
