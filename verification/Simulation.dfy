/**
 The discrete-event simulation as functions on values: pending actions, virtual pools,
 batch selection and the advance of simulated time. User code (actions, callback bodies,
 durations, deadlines, arriving inputs) is described by an `Environment` for each step.
 */
module Simulation {
  import opened Basics
  import opened StableSort
  import opened BatchExecution

  const I64_MIN := -0x8000_0000_0000_0000
  const I64_MAX := 0x7FFF_FFFF_FFFF_FFFF

  type Time = t: int | I64_MIN <= t <= I64_MAX

  const INVALID: Time := I64_MIN

  /** `checked_add_duration`. */
  function AddDuration(t: Time, duration: nat): Option<Time> {
    if t + duration <= I64_MAX then Some(t + duration) else None
  }

  datatype Node = Node(
    inputRequested: bool, requested: bool, readySince: Option<Time>, busyUntil: Time, next: Option<Time>)

  /** A pending action; the map of actions is the sequence of its entries in key order. */
  datatype Pending = Pending(at: Time, sequence: nat, stream: bool)

  datatype Config = Config(pools: seq<nat>, poolOf: seq<nat>, workers: nat)

  datatype View = View(nodes: seq<Node>, time: Time, actions: seq<Pending>, sequence: nat)

  datatype StepError =
    | Poisoned
    | PastAction
    | SequenceExhausted
    | ActionFailed
    | NotInFuture
    | NoWorker
    | CallbackFailed(node: nat, failure: Failure)
    | Timing(node: nat, cause: TimingError)
    | InvalidDeadline
    | StepLimitExceeded
    | InvalidConfig

  datatype TimingError = MissingDuration | Overflow | PastDeadline

  // ---------------------------------------------------------------- what user code does

  /** What running an action's closure gives. */
  datatype ActionOutcome = Done | Rejected | Again(next: Time)

  /** What a refresh sees: whether timers are on, and each node's notification and input availability. */
  datatype Observation = Observation(timers: bool, triggered: nat -> bool, available: nat -> bool)

  /** A schedule's raw answer for the next execution time. */
  datatype Deadline = Never | TooFar | At(time: Time)

  datatype Environment = Environment(
    outcome: Pending -> ActionOutcome,
    first: Observation, prepare: nat -> bool, run: nat -> Result<(), Failure>,
    duration: nat -> Option<nat>, timersAtCommit: bool, deadline: (nat, Time) -> Deadline,
    second: Observation, third: Observation)

  // ---------------------------------------------------------------- actions

  predicate Before(a: Pending, b: Pending) {
    a.at < b.at || (a.at == b.at && a.sequence < b.sequence)
  }

  function Inserted(actions: seq<Pending>, a: Pending): seq<Pending> {
    if actions == [] || Before(actions[|actions| - 1], a) then actions + [a]
    else Inserted(actions[..|actions| - 1], a) + [actions[|actions| - 1]]
  }

  /** `insert_action` on a session that has not failed. */
  function InsertAction(v: View, at: Time, stream: bool): Result<View, StepError> {
    if at < v.time then Err(PastAction)
    else if v.sequence == USIZE_MAX then Err(SequenceExhausted)
    else Ok(v.(actions := Inserted(v.actions, Pending(at, v.sequence, stream)), sequence := v.sequence + 1))
  }

  /** How many pending actions are due. */
  function DueCount(actions: seq<Pending>, time: Time): nat {
    if actions == [] then 0
    else DueCount(actions[..|actions| - 1], time) + if actions[|actions| - 1].at <= time then 1 else 0
  }

  lemma {:induction false} InsertedDue(actions: seq<Pending>, a: Pending, time: Time)
    ensures DueCount(Inserted(actions, a), time) == DueCount(actions, time) + if a.at <= time then 1 else 0
  {
    if actions != [] && !Before(actions[|actions| - 1], a) {
      InsertedDue(actions[..|actions| - 1], a, time);
    }
  }

  lemma {:induction false} PopDue(actions: seq<Pending>, time: Time)
    requires actions != []
    ensures DueCount(actions, time) == DueCount(actions[1..], time) + if actions[0].at <= time then 1 else 0
  {
    if |actions| > 1 {
      PopDue(actions[..|actions| - 1], time);
      assert actions[..|actions| - 1][1..] == actions[1..][..|actions[1..]| - 1];
    }
  }

  /** The view after the due actions, what ran, and the first error. */
  datatype ActionsRun = ActionsRun(view: View, ran: seq<Pending>, error: Option<StepError>)

  /** One turn of the action loop: the first pending action runs; a stream may come back later. */
  function RunFirst(v: View, outcome: Pending -> ActionOutcome): Result<View, (View, StepError)>
    requires v.actions != []
  {
    var a, rest := v.actions[0], v.(actions := v.actions[1..]);
    match outcome(a)
    case Rejected => Err((rest, ActionFailed))
    case Done => Ok(rest)
    case Again(next) =>
      if !a.stream then Ok(rest)
      else if next <= v.time then Err((rest, NotInFuture))
      else match InsertAction(rest, next, true) case Ok(v') => Ok(v') case Err(e) => Err((rest, e))
  }

  lemma {:induction false} RunFirstFewerDue(v: View, outcome: Pending -> ActionOutcome)
    requires v.actions != [] && v.actions[0].at <= v.time && RunFirst(v, outcome).Ok?
    ensures var v' := RunFirst(v, outcome).value;
      v'.time == v.time && v'.nodes == v.nodes && DueCount(v'.actions, v.time) == DueCount(v.actions, v.time) - 1
  {
    PopDue(v.actions, v.time);
    match outcome(v.actions[0])
    case Again(next) => InsertedDue(v.actions[1..], Pending(next, v.sequence, true), v.time);
    case _ =>
  }

  function RunActions(v: View, outcome: Pending -> ActionOutcome): ActionsRun
    decreases DueCount(v.actions, v.time)
  {
    if v.actions == [] || v.actions[0].at > v.time then ActionsRun(v, [], None)
    else
      match RunFirst(v, outcome)
      case Err((v', e)) => ActionsRun(v', [v.actions[0]], Some(e))
      case Ok(v') =>
        RunFirstFewerDue(v, outcome);
        var r := RunActions(v', outcome);
        r.(ran := [v.actions[0]] + r.ran)
  }

  // ---------------------------------------------------------------- readiness and pools

  function RefreshedNode(node: Node, time: Time, timers: bool, triggered: bool, available: bool): Node {
    var input := node.inputRequested || triggered;
    var next := if timers then node.next else None;
    var requested := (if timers then node.requested else input) || triggered || (next.Some? && next.value <= time);
    var ready := requested && node.busyUntil <= time && available;
    Node(input, requested,
         if !ready then None else if node.readySince.Some? then node.readySince else Some(time),
         node.busyUntil, next)
  }

  function Refreshed(nodes: seq<Node>, time: Time, o: Observation): (r: seq<Node>)
    ensures |r| == |nodes|
  {
    seq(|nodes|, i requires 0 <= i < |nodes| =>
      RefreshedNode(nodes[i], time, o.timers, o.triggered(i), o.available(i)))
  }

  ghost predicate Configured(c: Config, nodes: seq<Node>) {
    && |c.poolOf| == |nodes| && c.workers > 0
    && forall i :: 0 <= i < |c.poolOf| ==> c.poolOf[i] < |c.pools|
  }

  /** The nodes of a pool that are still executing at a time. */
  function Busy(nodes: seq<Node>, poolOf: seq<nat>, pool: nat, time: int): nat
    requires |nodes| == |poolOf|
  {
    if nodes == [] then 0
    else
      var last := |nodes| - 1;
      Busy(nodes[..last], poolOf[..last], pool, time)
      + if poolOf[last] == pool && nodes[last].busyUntil > time then 1 else 0
  }

  function Free(c: Config, nodes: seq<Node>, time: Time, pool: nat): int
    requires |nodes| == |c.poolOf| && pool < |c.pools|
  {
    c.pools[pool] - Busy(nodes, c.poolOf, pool, time)
  }

  predicate Runnable(c: Config, nodes: seq<Node>, time: Time)
    requires Configured(c, nodes)
  {
    exists i :: 0 <= i < |nodes| && nodes[i].readySince.Some? && Free(c, nodes, time, c.poolOf[i]) != 0
  }

  // ---------------------------------------------------------------- selection

  datatype Candidate = Candidate(since: Time, index: nat)

  function SinceOf(x: Candidate): int { x.since }

  function Candidates(nodes: seq<Node>): seq<Candidate> {
    if nodes == [] then []
    else
      var last := |nodes| - 1;
      Candidates(nodes[..last])
      + if nodes[last].readySince.Some? then [Candidate(nodes[last].readySince.value, last)] else []
  }

  function InPool(chosen: seq<nat>, poolOf: seq<nat>, pool: nat): nat {
    if chosen == [] then 0
    else
      var last := chosen[|chosen| - 1];
      InPool(chosen[..|chosen| - 1], poolOf, pool) + if last < |poolOf| && poolOf[last] == pool then 1 else 0
  }

  /** Each candidate in turn, as long as its pool has a thread left. */
  function Choose(candidates: seq<Candidate>, poolOf: seq<nat>, free: nat -> int): seq<nat> {
    if candidates == [] then []
    else
      var last := candidates[|candidates| - 1];
      var chosen := Choose(candidates[..|candidates| - 1], poolOf, free);
      if last.index < |poolOf| && free(poolOf[last.index]) - InPool(chosen, poolOf, poolOf[last.index]) != 0 then
        chosen + [last.index]
      else chosen
  }

  /** Free threads as a function of the pool; a pool that does not exist has none. */
  function FreeIn(c: Config, nodes: seq<Node>, time: Time): nat -> int
    requires |nodes| == |c.poolOf|
  {
    (pool: nat) => if pool < |c.pools| then Free(c, nodes, time, pool) else 0
  }

  function Selected(c: Config, nodes: seq<Node>, time: Time): seq<nat>
    requires |nodes| == |c.poolOf|
  {
    Choose(SortBy(Candidates(nodes), SinceOf), c.poolOf, FreeIn(c, nodes, time))
  }

  // ---------------------------------------------------------------- timing of a batch

  function NextAfter(env: Environment, i: nat, finish: Time): Result<Option<Time>, TimingError> {
    match env.deadline(i, finish)
    case Never => Ok(None)
    case TooFar => Err(Overflow)
    case At(t) => if t < finish then Err(PastDeadline) else Ok(Some(t))
  }

  datatype Timed = Timed(finish: Time, next: Option<Time>)

  function TimingOf(env: Environment, time: Time, i: nat): Result<Timed, StepError> {
    match env.duration(i)
    case None => Err(Timing(i, MissingDuration))
    case Some(d) =>
      match AddDuration(time, d)
      case None => Err(Timing(i, Overflow))
      case Some(finish) =>
        if !env.timersAtCommit then Ok(Timed(finish, None))
        else match NextAfter(env, i, finish) case Ok(next) => Ok(Timed(finish, next)) case Err(e) => Err(Timing(i, e))
  }

  function Timings(env: Environment, time: Time, executed: seq<nat>): (r: Result<seq<Timed>, StepError>)
    ensures r.Ok? ==> |r.value| == |executed|
  {
    if executed == [] then Ok([])
    else
      var last := |executed| - 1;
      match Timings(env, time, executed[..last])
      case Err(e) => Err(e)
      case Ok(timed) =>
        match TimingOf(env, time, executed[last]) case Err(e) => Err(e) case Ok(t) => Ok(timed + [t])
  }

  function Validator(env: Environment, time: Time): seq<nat> -> Result<seq<Timed>, StepError> {
    executed => Timings(env, time, executed)
  }

  function Unready(nodes: seq<Node>, selected: seq<nat>): (r: seq<Node>)
    ensures |r| == |nodes|
  {
    seq(|nodes|, i requires 0 <= i < |nodes| => if i in selected then nodes[i].(readySince := None) else nodes[i])
  }

  function Finished(node: Node, t: Timed): Node {
    node.(requested := false, inputRequested := false, busyUntil := t.finish, next := t.next)
  }

  function Applied(nodes: seq<Node>, executed: seq<nat>, timed: seq<Timed>): (r: seq<Node>)
    requires |executed| == |timed|
    ensures |r| == |nodes|
  {
    if executed == [] then nodes
    else
      var last := |executed| - 1;
      var r := Applied(nodes, executed[..last], timed[..last]);
      if executed[last] < |r| then r[executed[last] := Finished(r[executed[last]], timed[last])] else r
  }

  // ---------------------------------------------------------------- the next event

  function Sooner(best: Option<Time>, t: Time, now: Time): Option<Time> {
    if t > now && (best.None? || t < best.value) then Some(t) else best
  }

  function EarliestOfNodes(nodes: seq<Node>, now: Time): Option<Time> {
    if nodes == [] then None
    else
      var node := nodes[|nodes| - 1];
      var best := Sooner(EarliestOfNodes(nodes[..|nodes| - 1], now), node.busyUntil, now);
      if node.next.Some? then Sooner(best, node.next.value, now) else best
  }

  function EarliestEvent(nodes: seq<Node>, actions: seq<Pending>, now: Time): Option<Time> {
    var best := EarliestOfNodes(nodes, now);
    if actions != [] then Sooner(best, actions[0].at, now) else best
  }

  predicate HasFuture(nodes: seq<Node>, actions: seq<Pending>, now: Time) {
    || actions != []
    || exists i :: 0 <= i < |nodes| && (nodes[i].busyUntil > now || (nodes[i].next.Some? && nodes[i].next.value > now))
  }

  // ---------------------------------------------------------------- one step

  datatype StepResult = StepResult(before: Time, after: Time, executed: seq<nat>, idle: bool)

  /** Where a callback ran: its virtual interval starts now and ends with its duration. */
  datatype Interval = Interval(node: nat, start: Time, finish: Time)

  datatype StepOutcome = StepOutcome(
    view: View, ran: seq<Pending>, intervals: seq<Interval>, result: Result<StepResult, StepError>)

  function Intervals(executed: seq<nat>, timed: seq<Timed>, start: Time): seq<Interval>
    requires |executed| == |timed|
  {
    seq(|executed|, k requires 0 <= k < |executed| => Interval(executed[k], start, timed[k].finish))
  }

  function FromBatch(e: BatchError<StepError>): StepError {
    match e
    case NoWorkers => NoWorker
    case Callback(index, failure) => CallbackFailed(index, failure)
    case BeforeCommit(error) => error
  }

  /** From the commit of a batch to the end of the step. */
  function Settle(c: Config, v: View, executed: seq<nat>, timed: seq<Timed>, env: Environment): (View, bool)
    requires Configured(c, v.nodes) && |executed| == |timed|
  {
    var settled := Refreshed(Applied(v.nodes, executed, timed), v.time, env.second);
    var next := EarliestEvent(settled, v.actions, v.time);
    var time := if !Runnable(c, settled, v.time) && next.Some? then next.value else v.time;
    var nodes := Refreshed(settled, time, env.third);
    (v.(nodes := nodes, time := time), !Runnable(c, nodes, time) && !HasFuture(nodes, v.actions, time))
  }

  /** `step_inner`. */
  function Step(c: Config, v: View, env: Environment): (o: StepOutcome)
    requires Configured(c, v.nodes)
    ensures |o.view.nodes| == |v.nodes|
  {
    var a := RunActions(v, env.outcome);
    ActionsKeepNodes(v, env.outcome);
    if a.error.Some? then StepOutcome(a.view, a.ran, [], Err(a.error.value))
    else
      var refreshed := Refreshed(v.nodes, v.time, env.first);
      var selected := Selected(c, refreshed, v.time);
      var v1 := a.view.(nodes := Unready(refreshed, selected));
      match Batch(selected, env.prepare, env.run, c.workers, Validator(env, v.time))
      case Err(e) => StepOutcome(v1, a.ran, [], Err(FromBatch(e)))
      case Ok((executed, timed)) =>
        var (v2, idle) := Settle(c, v1, executed, timed, env);
        StepOutcome(v2, a.ran, Intervals(executed, timed, v.time), Ok(StepResult(v.time, v2.time, executed, idle)))
  }

  lemma {:induction false} ActionsKeepNodes(v: View, outcome: Pending -> ActionOutcome)
    ensures RunActions(v, outcome).view.nodes == v.nodes && RunActions(v, outcome).view.time == v.time
    decreases DueCount(v.actions, v.time)
  {
    if v.actions != [] && v.actions[0].at <= v.time && RunFirst(v, outcome).Ok? {
      RunFirstFewerDue(v, outcome);
      ActionsKeepNodes(RunFirst(v, outcome).value, outcome);
    }
  }

  // ---------------------------------------------------------------- runs

  /** An action and the simulated time at which it ran. */
  datatype Ran = Ran(action: Pending, when: Time)

  function Stamped(ran: seq<Pending>, time: Time): (r: seq<Ran>)
    ensures |r| == |ran| && forall k :: 0 <= k < |ran| ==> r[k] == Ran(ran[k], time)
  {
    seq(|ran|, k requires 0 <= k < |ran| => Ran(ran[k], time))
  }

  /** A session: its view, whether a step failed, and a record of what has run. */
  datatype Session = Session(view: View, failed: bool, history: seq<Interval>, log: seq<Ran>)

  /** What a driver does with a session. */
  datatype Command = Schedule(at: Time, stream: bool) | Advance(env: Environment)

  function Scheduled(s: Session, at: Time, stream: bool): (Session, Result<(), StepError>) {
    if s.failed then (s, Err(Poisoned))
    else match InsertAction(s.view, at, stream)
      case Err(e) => (s, Err(e))
      case Ok(v) => (s.(view := v), Ok(()))
  }

  function Stepped(c: Config, s: Session, env: Environment): (Session, Result<StepResult, StepError>)
    requires Configured(c, s.view.nodes)
  {
    if s.failed then (s, Err(Poisoned))
    else
      var o := Step(c, s.view, env);
      (Session(o.view, o.result.Err?, s.history + o.intervals, s.log + Stamped(o.ran, s.view.time)), o.result)
  }

  function Perform(c: Config, s: Session, command: Command): (s': Session)
    requires Configured(c, s.view.nodes)
    ensures Configured(c, s'.view.nodes)
  {
    match command
    case Schedule(at, stream) => Scheduled(s, at, stream).0
    case Advance(env) => Stepped(c, s, env).0
  }

  /** A callback as `with_config` finds it. */
  datatype CallbackSpec = CallbackSpec(
    pool: nat, zeroPeriod: bool, hasDuration: bool, everRunnable: bool, runOnStart: bool,
    inputsPending: bool, first: Deadline)

  function InitialNode(spec: CallbackSpec, start: Time): Result<Node, TimingError> {
    var requested := spec.runOnStart || spec.inputsPending;
    if spec.runOnStart then Ok(Node(spec.inputsPending, requested, None, start, Some(start)))
    else match spec.first
      case Never => Ok(Node(spec.inputsPending, requested, None, start, None))
      case TooFar => Err(Overflow)
      case At(t) =>
        if t < start then Err(PastDeadline) else Ok(Node(spec.inputsPending, requested, None, start, Some(t)))
  }

  /** The checks of `with_config` on one callback, and its first node state. */
  function CheckCallback(spec: CallbackSpec, i: nat, pools: nat, start: Time): Result<Node, StepError> {
    if spec.zeroPeriod then Err(InvalidConfig)
    else if !spec.hasDuration then Err(Timing(i, MissingDuration))
    else if !spec.everRunnable || spec.pool >= pools then Err(InvalidConfig)
    else match InitialNode(spec, start) case Ok(node) => Ok(node) case Err(e) => Err(Timing(i, e))
  }

  predicate SoundConfig(pools: seq<nat>, workers: nat, start: Time) {
    workers > 0 && pools != [] && 0 !in pools && start != INVALID
  }

  /** A session nobody has driven yet. */
  predicate Initial(c: Config, s: Session) {
    && !s.failed && s.history == [] && s.log == [] && s.view.actions == [] && s.view.sequence == 0
    && forall i :: 0 <= i < |s.view.nodes| ==>
         s.view.nodes[i].busyUntil == s.view.time && s.view.nodes[i].readySince.None?
  }

  function Run(c: Config, s: Session, commands: seq<Command>): (s': Session)
    requires Configured(c, s.view.nodes)
    ensures Configured(c, s'.view.nodes)
  {
    if commands == [] then s else Perform(c, Run(c, s, commands[..|commands| - 1]), commands[|commands| - 1])
  }
}
