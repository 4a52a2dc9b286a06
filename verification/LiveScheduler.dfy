/**
 The live executor's scheduling protocol, one atomic operation per step.

 Every thread has a program counter that names its position between two atomic
 operations of `notify`, `claim`, `finish`, `work`, `dispatch_due`,
 `quiesce_timers` or `drain`. A schedule is a sequence of (thread, action) pairs;
 running every schedule explores every sequentially consistent interleaving.
 */
module LiveScheduler {
  import opened Basics

  datatype Status = Idle | Queued | Running | Retriggered | Waiting | ReadinessChanged

  /** One input of a callback. Only the lengths of its two buffers matter here. */
  datatype Input = Input(required: bool, trigger: bool, capacity: nat, writeQueue: nat, readBuffer: nat)

  datatype Node = Node(status: Status, pool: nat, inputs: seq<Input>)

  /** A subscriber write followed by a notification, or a notification alone. */
  datatype Call =
    | Push(node: nat, input: nat)                              // about to write the queue
    | Check(node: nat, trigger: bool)                          // about to read the stop flag
    | Load(node: nat, trigger: bool)                           // about to load the state
    | Decide(node: nat, trigger: bool, current: Status)        // about to count new work, or to CAS
    | Counted(node: nat, trigger: bool, current: Status)       // counted, about to CAS
    | Undo(node: nat, trigger: bool, current: Status)          // CAS failed, about to uncount
    | Send(node: nat)                                          // queued, about to send the token

  datatype Pc =
    | Rest
    | Calling(call: Call)                                      // an outside thread writes or triggers
    // worker
    | Received(node: nat)                                      // about to read the stop flag
    | Claiming(node: nat)                                      // about to swap in Running
    | Draining(node: nat, input: nat, left: Option<nat>)       // update_inputs
    | Checking(node: nat)                                      // required_inputs_ready
    | Body(node: nat, nested: Option<Call>)                    // run, commit and finish_inputs
    | Finishing(node: nat, executed: bool)                     // about to load the state
    | Releasing(node: nat, executed: bool, current: Status)    // about to CAS
    | Resend(node: nat)                                        // requeued, about to send the token
    | Completing                                               // released, about to bump `completed`
    | Settling                                                 // about to decrement `active`
    | Failing(node: nat)                                       // callback failed, about to stop
    | Exited
    // timer thread, holding the timer lock
    | TimerHeld(dispatched: bool, nested: Option<Call>)
    // drain: quiesce_timers under the lock, then polling
    | Scanning(next: nat, nested: Option<Call>)
    | Polling
    | Sampling
    | Epoch(generation: nat)
    | IdleOnce(generation: nat)
    | IdleTwice(generation: nat)
    | Drained(quiet: bool)

  datatype Role = Worker(pool: nat) | Timer | Outside

  datatype Thread = Thread(role: Role, pc: Pc)

  /** What happened to nodes, in order: successful trigger CASes, claims and releases. */
  datatype Event = Triggered(node: nat) | Claimed(node: nat) | Released(node: nat, executed: bool)

  datatype State = State(
    nodes: seq<Node>,
    channels: seq<seq<nat>>,
    active: nat,
    completed: nat,
    stopped: bool,
    timersEnabled: bool,
    lock: Option<nat>,
    threads: seq<Thread>,
    trace: seq<Event>,
    fault: bool)   // an assertion, an `unreachable!`, a full channel or a counter underflow

  datatype Action =
    | Advance(weak: bool)                   // the next atomic operation; weak: a CAS fails spuriously
    | Begin(call: Call)                     // start a write or a trigger
    | Consume(input: nat, left: nat)        // the body takes messages out of its own read buffer
    | EndBody(ok: bool)                     // the body and its commit returned
    | Due(node: nat)                        // claim_due takes the node's deadline
    | BeginDrain
    | GiveUp                                // the drain timed out
    | RequestStop

  // ---------------------------------------------------------------- transitions

  function NotifyNext(current: Status, trigger: bool): Status {
    match current
    case Idle => if trigger then Queued else Idle
    case Waiting => Queued
    case Running => if trigger then Retriggered else ReadinessChanged
    case ReadinessChanged => if trigger then Retriggered else ReadinessChanged
    case Queued => Queued
    case Retriggered => Retriggered
  }

  predicate NewWork(current: Status, trigger: bool) {
    NotifyNext(current, trigger) == Queued && current != Queued
  }

  predicate RunLike(status: Status) {
    status.Running? || status.Retriggered? || status.ReadinessChanged?
  }

  predicate Busy(status: Status) {
    status.Queued? || RunLike(status)
  }

  function FinishNext(current: Status, executed: bool): Status
    requires RunLike(current)
  {
    match current
    case Running => if executed then Idle else Waiting
    case ReadinessChanged => if executed then Idle else Queued
    case Retriggered => Queued
  }

  predicate Ready(node: Node) {
    forall k :: 0 <= k < |node.inputs| && node.inputs[k].required ==> node.inputs[k].readBuffer > 0
  }

  function PoolSize(nodes: seq<Node>, pool: nat): nat {
    if nodes == [] then 0
    else PoolSize(nodes[..|nodes| - 1], pool) + if nodes[|nodes| - 1].pool == pool then 1 else 0
  }

  /** What one atomic operation does to the shared state. */
  datatype Change =
    | Keep                                                // only the thread itself moves on
    | Write(node: nat, input: nat)                        // force_push into an input's write queue
    | Transfer(node: nat, input: nat)                     // one message from write queue to read buffer
    | Take(node: nat, input: nat, left: nat)              // pops from the read buffer
    | Swap(node: nat, status: Status, events: seq<Event>) // a successful CAS or swap of a node's state
    | SendToken(node: nat)                                // try_send to the node's pool
    | TakeToken(pool: nat)                                // receive from a pool's channel
    | Count                                               // active += 1
    | Discount                                            // active -= 1
    | Complete                                            // completed += 1
    | Stop
    | Acquire(thread: nat)                                // take the timer lock
    | Unlock
    | DisableTimers                                       // and release the lock
    | Crash                                               // a failed assertion or `unreachable!`

  predicate Fits(s: State, c: Change) {
    match c
    case Write(n, k) => n < |s.nodes| && k < |s.nodes[n].inputs|
    case Transfer(n, k) => n < |s.nodes| && k < |s.nodes[n].inputs| && s.nodes[n].inputs[k].writeQueue > 0
    case Take(n, k, left) => n < |s.nodes| && k < |s.nodes[n].inputs| && left <= s.nodes[n].inputs[k].readBuffer
    case Swap(n, _, _) => n < |s.nodes|
    case SendToken(n) => n < |s.nodes| && s.nodes[n].pool < |s.channels|
    case TakeToken(p) => p < |s.channels| && s.channels[p] != []
    case _ => true
  }

  function SetInput(s: State, n: nat, k: nat, input: Input): State
    requires n < |s.nodes| && k < |s.nodes[n].inputs|
  {
    s.(nodes := s.nodes[n := s.nodes[n].(inputs := s.nodes[n].inputs[k := input])])
  }

  function Apply(s: State, c: Change): State
    requires Fits(s, c)
  {
    match c
    case Keep => s
    case Write(n, k) =>
      var input := s.nodes[n].inputs[k];
      SetInput(s, n, k, input.(writeQueue := Min(input.writeQueue + 1, input.capacity)))
    case Transfer(n, k) =>
      var input := s.nodes[n].inputs[k];
      SetInput(s, n, k, input.(writeQueue := input.writeQueue - 1,
                               readBuffer := Min(input.readBuffer + 1, input.capacity)))
    case Take(n, k, left) => SetInput(s, n, k, s.nodes[n].inputs[k].(readBuffer := left))
    case Swap(n, status, events) =>
      s.(nodes := s.nodes[n := s.nodes[n].(status := status)], trace := s.trace + events)
    case SendToken(n) =>
      var p := s.nodes[n].pool;
      if |s.channels[p]| >= Max(PoolSize(s.nodes, p), 1) then s.(fault := true)
      else s.(channels := s.channels[p := s.channels[p] + [n]])
    case TakeToken(p) => s.(channels := s.channels[p := s.channels[p][1..]])
    case Count => s.(active := s.active + 1)
    case Discount => if s.active == 0 then s.(fault := true) else s.(active := s.active - 1)
    case Complete => s.(completed := s.completed + 1)
    case Stop => s.(stopped := true)
    case Acquire(t) => s.(lock := Some(t))
    case Unlock => s.(lock := None)
    case DisableTimers => s.(timersEnabled := false, lock := None)
    case Crash => s.(fault := true)
  }

  /** The node exists and so does its pool. */
  predicate NodeFits(s: State, n: nat) {
    n < |s.nodes| && s.nodes[n].pool < |s.channels|
  }

  predicate CallFits(s: State, c: Call) {
    NodeFits(s, c.node) && (c.Push? ==> c.input < |s.nodes[c.node].inputs|)
  }

  /** A write starts with the queue, a trigger with the stop flag. */
  predicate Startable(s: State, c: Call) {
    CallFits(s, c) && (c.Push? || (c.Check? && c.trigger))
  }

  /** The successful CAS of a notification. */
  function Notify(s: State, n: nat, trigger: bool): Change
    requires n < |s.nodes|
  {
    Swap(n, NotifyNext(s.nodes[n].status, trigger), if trigger then [Triggered(n)] else [])
  }

  /** The next atomic operation of a write or notification; no call left: it returned. */
  function CallStep(s: State, c: Call, weak: bool): (r: (Change, Option<Call>))
    requires CallFits(s, c)
    ensures Fits(s, r.0)
  {
    var status := s.nodes[c.node].status;
    match c
    case Push(n, k) => (Write(n, k), Some(Check(n, s.nodes[n].inputs[k].trigger)))
    case Check(n, trigger) => (Keep, if s.stopped then None else Some(Load(n, trigger)))
    case Load(n, trigger) => (Keep, Some(Decide(n, trigger, status)))
    case Decide(n, trigger, current) =>
      if NewWork(current, trigger) then (Count, Some(Counted(n, trigger, current)))
      else if weak || status != current then (Keep, Some(Decide(n, trigger, status)))
      else (Notify(s, n, trigger), None)
    case Counted(n, trigger, current) =>
      if weak || status != current then (Keep, Some(Undo(n, trigger, status)))
      else (Notify(s, n, trigger), Some(Send(n)))
    case Undo(n, trigger, current) => (Discount, Some(Decide(n, trigger, current)))
    case Send(n) => (SendToken(n), None)
  }

  function CallOf(pc: Pc): Option<Call> {
    match pc
    case Calling(c) => Some(c)
    case Body(_, nested) => nested
    case TimerHeld(_, nested) => nested
    case Scanning(_, nested) => nested
    case _ => None
  }

  function WithCall(pc: Pc, c: Option<Call>): Pc {
    match pc
    case Calling(_) => if c.Some? then Calling(c.value) else Rest
    case Body(n, _) => Body(n, c)
    case TimerHeld(d, _) => TimerHeld(d, c)
    case Scanning(i, _) => Scanning(i, c)
    case _ => pc
  }

  /** An operation together with the position it leads to; None: nothing is enabled. */
  type Operation = Option<(Change, Pc)>

  function Proceed(pc: Pc): Operation { Some((Keep, pc)) }

  /** `work`: receive, claim, update the inputs, check, run, release. */
  function WorkerStep(s: State, pool: nat, pc: Pc, a: Action): (r: Operation)
    ensures r.Some? ==> Fits(s, r.value.0)
  {
    match pc
    case Body(n, _) =>
      if !NodeFits(s, n) then None else
      (match a
       case Begin(c) => if Startable(s, c) then Proceed(Body(n, Some(c))) else None
       case Consume(k, left) => if Fits(s, Take(n, k, left)) then Some((Take(n, k, left), pc)) else None
       case EndBody(ok) => Proceed(if ok then Finishing(n, true) else Failing(n))
       case _ => None)
    case _ => if a.Advance? then WorkerAdvance(s, pool, pc, a.weak) else None
  }

  function WorkerAdvance(s: State, pool: nat, pc: Pc, weak: bool): (r: Operation)
    ensures r.Some? ==> Fits(s, r.value.0)
  {
    match pc
    case Rest =>
      if weak then if s.stopped then Proceed(Exited) else None
      else if pool < |s.channels| && s.channels[pool] != [] then Some((TakeToken(pool), Received(s.channels[pool][0])))
      else None
    case Received(n) => Proceed(if s.stopped then Exited else Claiming(n))
    case Claiming(n) =>
      if !NodeFits(s, n) then None
      else if !s.nodes[n].status.Queued? then Some((Crash, pc))
      else Some((Swap(n, Running, [Claimed(n)]), Draining(n, 0, None)))
    case Draining(n, k, left) => if NodeFits(s, n) then DrainStep(s, n, k, left) else None
    case Checking(n) =>
      if !NodeFits(s, n) then None else Proceed(if Ready(s.nodes[n]) then Body(n, None) else Finishing(n, false))
    case Finishing(n, executed) =>
      if !NodeFits(s, n) then None else Proceed(Releasing(n, executed, s.nodes[n].status))
    case Releasing(n, executed, current) =>
      if !NodeFits(s, n) then None
      else if !RunLike(current) then Some((Crash, pc))
      else if weak || s.nodes[n].status != current then Proceed(Releasing(n, executed, s.nodes[n].status))
      else
        var next := FinishNext(current, executed);
        Some((Swap(n, next, [Released(n, executed)]), if next.Queued? then Resend(n) else Completing))
    case Resend(n) => if NodeFits(s, n) then Some((SendToken(n), Rest)) else None
    case Completing => Some((Complete, Settling))
    case Settling => Some((Discount, Rest))
    case Failing(n) => Some((Stop, Exited))
    case _ => None
  }

  /** Drain one input after the other: snapshot the queue length, then move that many messages. */
  function DrainStep(s: State, n: nat, k: nat, left: Option<nat>): (r: Operation)
    requires NodeFits(s, n)
    ensures r.Some? ==> Fits(s, r.value.0)
  {
    if k >= |s.nodes[n].inputs| then Proceed(Checking(n))
    else
      match left
      case None => Proceed(Draining(n, k, Some(s.nodes[n].inputs[k].writeQueue)))
      case Some(r) =>
        if r == 0 then Proceed(Draining(n, k + 1, None))
        else if s.nodes[n].inputs[k].writeQueue == 0 then Proceed(Draining(n, k, Some(r - 1)))
        else Some((Transfer(n, k), Draining(n, k, Some(r - 1))))
  }

  /** The timer thread: one `dispatch_due` under the timer lock. */
  function TimerStep(s: State, t: nat, pc: Pc, a: Action): (r: Operation)
    ensures r.Some? ==> Fits(s, r.value.0)
  {
    match pc
    case Rest => if a.Advance? && s.lock.None? then Some((Acquire(t), TimerHeld(false, None))) else None
    case TimerHeld(dispatched, _) =>
      (match a
       case Advance(_) => Some((Unlock, Rest))
       case Due(n) =>
         if s.timersEnabled && !dispatched && NodeFits(s, n) then Proceed(TimerHeld(true, Some(Check(n, true))))
         else None
       case _ => None)
    case _ => None
  }

  /** Any other thread: writes, triggers, stops, and drains. */
  function OutsideStep(s: State, t: nat, pc: Pc, a: Action): (r: Operation)
    ensures r.Some? ==> Fits(s, r.value.0)
  {
    match pc
    case Rest =>
      (match a
       case Begin(c) => if Startable(s, c) then Proceed(Calling(c)) else None
       case BeginDrain => if s.lock.None? then Some((Acquire(t), Scanning(0, None))) else None
       case RequestStop => Some((Stop, Rest))
       case _ => None)
    case Scanning(i, _) =>
      if s.timersEnabled && i < |s.nodes| then
        (match a
         case Advance(_) => Proceed(Scanning(i + 1, None))
         case Due(n) => if n == i && NodeFits(s, i) then Proceed(Scanning(i + 1, Some(Check(i, true)))) else None
         case _ => None)
      else if a.Advance? then Some((DisableTimers, Polling)) else None
    case Polling =>
      (match a
       case GiveUp => Proceed(Drained(false))
       case Advance(_) => Proceed(if s.stopped then Drained(false) else Sampling)
       case _ => None)
    case Sampling => if a.Advance? then Proceed(Epoch(s.completed)) else None
    case Epoch(g) => if a.Advance? then Proceed(if s.active == 0 then IdleOnce(g) else Polling) else None
    case IdleOnce(g) => if a.Advance? then Proceed(if s.active == 0 then IdleTwice(g) else Polling) else None
    case IdleTwice(g) => if a.Advance? then Proceed(if s.completed == g then Drained(true) else Polling) else None
    case Drained(_) => if a.Advance? then Proceed(Rest) else None
    case _ => None
  }

  function Next(s: State, t: nat, a: Action): (r: Operation)
    requires t < |s.threads|
    ensures r.Some? ==> Fits(s, r.value.0)
  {
    var Thread(role, pc) := s.threads[t];
    match CallOf(pc)
    case Some(c) =>
      if a.Advance? && CallFits(s, c) then
        var (change, c') := CallStep(s, c, a.weak);
        Some((change, WithCall(pc, c')))
      else None
    case None =>
      match role
      case Worker(pool) => WorkerStep(s, pool, pc, a)
      case Timer => TimerStep(s, t, pc, a)
      case Outside => OutsideStep(s, t, pc, a)
  }

  function Land(s: State, t: nat, change: Change, pc: Pc): State
    requires t < |s.threads| && Fits(s, change)
  {
    Apply(s, change).(threads := s.threads[t := s.threads[t].(pc := pc)])
  }

  /** Thread `t` performs `a`; an action that is not enabled changes nothing. */
  function Act(s: State, t: nat, a: Action): State {
    if t >= |s.threads| || s.fault then s
    else
      match Next(s, t, a)
      case None => s
      case Some((change, pc)) => Land(s, t, change, pc)
  }

  function Run(s: State, schedule: seq<(nat, Action)>): State {
    if schedule == [] then s
    else Act(Run(s, schedule[..|schedule| - 1]), schedule[|schedule| - 1].0, schedule[|schedule| - 1].1)
  }

  /** `Scheduler::new` for callbacks whose pools exist, with every thread at rest. */
  predicate Initial(s: State) {
    && (forall n :: 0 <= n < |s.nodes| ==> s.nodes[n].status.Idle? && s.nodes[n].pool < |s.channels|)
    && (forall n, k :: 0 <= n < |s.nodes| && 0 <= k < |s.nodes[n].inputs| ==> s.nodes[n].inputs[k].capacity > 0)
    && (forall p :: 0 <= p < |s.channels| ==> s.channels[p] == [])
    && s.active == 0 && s.completed == 0 && !s.stopped && s.timersEnabled && s.lock.None?
    && (forall t :: 0 <= t < |s.threads| ==> s.threads[t].pc.Rest?)
    && s.trace == [] && !s.fault
  }
}
