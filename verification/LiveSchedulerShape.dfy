/** Bookkeeping over the threads and nodes of the live scheduler. */
module LiveSchedulerShape {
  import opened LiveScheduler

  /** What a thread may be counted for. */
  datatype Measure = TokenOf(node: nat) | OwnerOf(node: nat) | ActiveShare

  function WeighCall(m: Measure, c: Call): nat {
    match m
    case TokenOf(n) => if c == Send(n) then 1 else 0
    case OwnerOf(_) => 0
    case ActiveShare => if c.Counted? || c.Undo? then 1 else 0
  }

  function WeighPlace(m: Measure, pc: Pc): nat {
    match m
    case TokenOf(n) => if (pc.Received? || pc.Claiming? || pc.Resend?) && pc.node == n then 1 else 0
    case OwnerOf(n) =>
      if (pc.Draining? || pc.Checking? || pc.Body? || pc.Finishing? || pc.Releasing? || pc.Failing?) && pc.node == n
      then 1 else 0
    case ActiveShare => if pc.Completing? || pc.Settling? then 1 else 0
  }

  /** What a thread at `pc` counts for: its own position and the call nested in it. */
  function Weigh(m: Measure, pc: Pc): nat {
    WeighPlace(m, pc) + if CallOf(pc).Some? then WeighCall(m, CallOf(pc).value) else 0
  }

  function Total(m: Measure, threads: seq<Thread>): nat {
    if threads == [] then 0
    else Total(m, threads[..|threads| - 1]) + Weigh(m, threads[|threads| - 1].pc)
  }

  lemma {:induction false} TotalUpdate(m: Measure, threads: seq<Thread>, t: nat, pc: Pc)
    requires t < |threads|
    ensures Total(m, threads[t := threads[t].(pc := pc)]) == Total(m, threads) - Weigh(m, threads[t].pc) + Weigh(m, pc)
  {
    var updated := threads[t := threads[t].(pc := pc)];
    var last := |threads| - 1;
    if t == last {
      assert updated[..last] == threads[..last];
    } else {
      assert updated[..last] == threads[..last][t := threads[..last][t].(pc := pc)];
      TotalUpdate(m, threads[..last], t, pc);
    }
  }

  lemma {:induction false} TotalCovers(m: Measure, threads: seq<Thread>, t: nat)
    requires t < |threads|
    ensures Total(m, threads) >= Weigh(m, threads[t].pc)
  {
    if t < |threads| - 1 {
      TotalCovers(m, threads[..|threads| - 1], t);
    }
  }

  lemma {:induction false} TotalCoversTwo(m: Measure, threads: seq<Thread>, t: nat, u: nat)
    requires t < u < |threads|
    ensures Total(m, threads) >= Weigh(m, threads[t].pc) + Weigh(m, threads[u].pc)
  {
    if u < |threads| - 1 {
      TotalCoversTwo(m, threads[..|threads| - 1], t, u);
    } else {
      TotalCovers(m, threads[..|threads| - 1], t);
    }
  }

  lemma {:induction false} TotalZero(m: Measure, threads: seq<Thread>)
    requires forall t :: 0 <= t < |threads| ==> Weigh(m, threads[t].pc) == 0
    ensures Total(m, threads) == 0
  {
    if threads != [] {
      TotalZero(m, threads[..|threads| - 1]);
    }
  }

  function BusyCount(nodes: seq<Node>): nat {
    if nodes == [] then 0
    else BusyCount(nodes[..|nodes| - 1]) + if Busy(nodes[|nodes| - 1].status) then 1 else 0
  }

  lemma {:induction false} BusyUpdate(nodes: seq<Node>, n: nat, node: Node)
    requires n < |nodes|
    ensures BusyCount(nodes[n := node])
         == BusyCount(nodes) - (if Busy(nodes[n].status) then 1 else 0) + (if Busy(node.status) then 1 else 0)
  {
    var last := |nodes| - 1;
    if n == last {
      assert nodes[n := node][..last] == nodes[..last];
    } else {
      assert nodes[n := node][..last] == nodes[..last][n := node];
      BusyUpdate(nodes[..last], n, node);
    }
  }

  lemma {:induction false} BusyCovers(nodes: seq<Node>, n: nat)
    requires n < |nodes| && Busy(nodes[n].status)
    ensures BusyCount(nodes) >= 1
  {
    if n < |nodes| - 1 {
      BusyCovers(nodes[..|nodes| - 1], n);
    }
  }

  lemma {:induction false} BusyZero(nodes: seq<Node>)
    requires forall n :: 0 <= n < |nodes| ==> !Busy(nodes[n].status)
    ensures BusyCount(nodes) == 0
  {
    if nodes != [] {
      BusyZero(nodes[..|nodes| - 1]);
    }
  }

  // ---------------------------------------------------------------- shape

  predicate CallSound(s: State, c: Call) {
    CallFits(s, c) && (c.Counted? ==> NewWork(c.current, c.trigger))
  }

  predicate ThreadSound(s: State, th: Thread) {
    && (CallOf(th.pc).Some? ==> CallSound(s, CallOf(th.pc).value))
    && match th.pc
       case Rest => true
       case Calling(_) => th.role.Outside?
       case TimerHeld(_, _) => th.role.Timer?
       case Scanning(_, _) => th.role.Outside?
       case Polling => th.role.Outside?
       case Sampling => th.role.Outside?
       case Epoch(_) => th.role.Outside?
       case IdleOnce(_) => th.role.Outside?
       case IdleTwice(_) => th.role.Outside?
       case Drained(_) => th.role.Outside?
       case Completing => th.role.Worker?
       case Settling => th.role.Worker?
       case Exited => th.role.Worker?
       case Draining(n, k, _) => th.role.Worker? && n < |s.nodes| && k <= |s.nodes[n].inputs|
       case Releasing(n, _, current) => th.role.Worker? && n < |s.nodes| && RunLike(current)
       case _ => th.role.Worker? && th.pc.node < |s.nodes|
  }

  ghost predicate Shape(s: State) {
    && (forall n :: 0 <= n < |s.nodes| ==> s.nodes[n].pool < |s.channels|)
    && (forall n, k :: 0 <= n < |s.nodes| && 0 <= k < |s.nodes[n].inputs| ==> s.nodes[n].inputs[k].capacity > 0)
    && (forall p, i :: 0 <= p < |s.channels| && 0 <= i < |s.channels[p]| ==>
          s.channels[p][i] < |s.nodes| && s.nodes[s.channels[p][i]].pool == p)
    && (forall t :: 0 <= t < |s.threads| ==> ThreadSound(s, s.threads[t]))
  }

  /** Steps never change what was declared: pools, inputs and their policies. */
  ghost predicate SameDeclarations(s: State, s': State) {
    && |s'.nodes| == |s.nodes| && |s'.channels| == |s.channels| && |s'.threads| == |s.threads|
    && (forall n :: 0 <= n < |s.nodes| ==>
          s'.nodes[n].pool == s.nodes[n].pool && |s'.nodes[n].inputs| == |s.nodes[n].inputs|)
    && (forall n, k :: 0 <= n < |s.nodes| && 0 <= k < |s.nodes[n].inputs| ==>
          && s'.nodes[n].inputs[k].capacity == s.nodes[n].inputs[k].capacity
          && s'.nodes[n].inputs[k].required == s.nodes[n].inputs[k].required)
    && (forall t :: 0 <= t < |s.threads| ==> s'.threads[t].role == s.threads[t].role)
  }

  lemma {:induction false} LandKeepsDeclarations(s: State, t: nat, change: Change, pc: Pc)
    requires t < |s.threads| && Fits(s, change)
    ensures SameDeclarations(s, Land(s, t, change, pc))
  {
  }

  lemma {:induction false} LandKeepsChannels(s: State, t: nat, change: Change, pc: Pc)
    requires t < |s.threads| && Fits(s, change) && Shape(s)
    ensures var s' := Land(s, t, change, pc);
      forall p, i :: 0 <= p < |s'.channels| && 0 <= i < |s'.channels[p]| ==>
        s'.channels[p][i] < |s'.nodes| && s'.nodes[s'.channels[p][i]].pool == p
  {
    LandKeepsDeclarations(s, t, change, pc);
  }

  /** Soundness of a position depends on declarations alone. */
  lemma {:induction false} SoundStays(s: State, s': State, th: Thread)
    requires SameDeclarations(s, s') && ThreadSound(s, th)
    requires forall n :: 0 <= n < |s.nodes| ==> s.nodes[n].pool < |s.channels|
    ensures ThreadSound(s', th)
  {
  }

  lemma {:induction false} CallStepIsSound(s: State, c: Call, weak: bool)
    requires Shape(s) && CallSound(s, c)
    ensures CallStep(s, c, weak).1.Some? ==> CallSound(s, CallStep(s, c, weak).1.value)
  {
  }

  lemma {:induction false} WorkerStepIsSound(s: State, pool: nat, pc: Pc, a: Action)
    requires Shape(s) && ThreadSound(s, Thread(Worker(pool), pc)) && CallOf(pc).None?
    requires pc.Finishing? || pc.Releasing? ==> RunLike(s.nodes[pc.node].status)
    requires WorkerStep(s, pool, pc, a).Some?
    ensures ThreadSound(s, Thread(Worker(pool), WorkerStep(s, pool, pc, a).value.1))
  {
  }

  lemma {:induction false} OtherStepIsSound(s: State, th: Thread, t: nat, a: Action)
    requires Shape(s) && ThreadSound(s, th) && CallOf(th.pc).None? && !th.role.Worker?
    requires var next := if th.role.Timer? then TimerStep(s, t, th.pc, a) else OutsideStep(s, t, th.pc, a); next.Some?
    ensures var next := if th.role.Timer? then TimerStep(s, t, th.pc, a) else OutsideStep(s, t, th.pc, a);
      ThreadSound(s, Thread(th.role, next.value.1))
  {
  }

  lemma {:induction false} NextIsSound(s: State, t: nat, a: Action)
    requires t < |s.threads| && Shape(s) && Next(s, t, a).Some?
    requires forall n :: 0 <= n < |s.nodes| && Total(OwnerOf(n), s.threads) > 0 ==> RunLike(s.nodes[n].status)
    ensures ThreadSound(s, s.threads[t].(pc := Next(s, t, a).value.1))
  {
    var th := s.threads[t];
    if th.pc.Finishing? || th.pc.Releasing? {
      TotalCovers(OwnerOf(th.pc.node), s.threads, t);
    }
    if CallOf(th.pc).Some? {
      CallStepIsSound(s, CallOf(th.pc).value, a.weak);
    } else if th.role.Worker? {
      WorkerStepIsSound(s, th.role.pool, th.pc, a);
    } else {
      OtherStepIsSound(s, th, t, a);
    }
  }

  /** A step keeps the shape when owned nodes are in a running state. */
  lemma {:induction false} ActKeepsShape(s: State, t: nat, a: Action)
    requires Shape(s)
    requires forall n :: 0 <= n < |s.nodes| && Total(OwnerOf(n), s.threads) > 0 ==> RunLike(s.nodes[n].status)
    ensures Shape(Act(s, t, a))
  {
    if t < |s.threads| && !s.fault && Next(s, t, a).Some? {
      var (change, pc) := Next(s, t, a).value;
      var s' := Land(s, t, change, pc);
      LandKeepsDeclarations(s, t, change, pc);
      LandKeepsChannels(s, t, change, pc);
      NextIsSound(s, t, a);
      forall u | 0 <= u < |s'.threads| ensures ThreadSound(s', s'.threads[u]) {
        SoundStays(s, s', s'.threads[u]);
      }
    }
  }
}
