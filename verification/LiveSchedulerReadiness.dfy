/**
 No lost readiness: the subscriber writes its queue before it notifies, the worker
 claims before it drains, and a worker that found an input missing releases by CAS.
 Together they never park a callback whose required inputs are all available.
 */
module LiveSchedulerReadiness {
  import opened Basics
  import opened LiveScheduler
  import opened LiveSchedulerShape
  import opened LiveSchedulerCounts

  /** A notification of `n` that has not taken effect; it may follow a completed queue write. */
  predicate InFlight(pc: Pc, n: nat) {
    CallOf(pc).Some? && CallOf(pc).value.node == n && !CallOf(pc).value.Push? && !CallOf(pc).value.Send?
  }

  ghost predicate Quiet(s: State, n: nat) {
    forall t :: 0 <= t < |s.threads| ==> !InFlight(s.threads[t].pc, n)
  }

  /** Some required input has nothing in its read buffer and nothing in its write queue. */
  ghost predicate Missing(inputs: seq<Input>) {
    exists k :: 0 <= k < |inputs| && inputs[k].required && inputs[k].readBuffer == 0 && inputs[k].writeQueue == 0
  }

  ghost predicate Swept(inputs: seq<Input>, upto: nat) {
    forall k :: 0 <= k < |inputs| && k < upto ==> inputs[k].writeQueue == 0
  }

  /** What a worker relies on while no notification has arrived since its claim. */
  ghost predicate Progress(inputs: seq<Input>, pc: Pc) {
    match pc
    case Draining(_, k, None) => Swept(inputs, k)
    case Draining(_, k, Some(left)) => Swept(inputs, k) && (k < |inputs| ==> inputs[k].writeQueue <= left)
    case Checking(_) => Swept(inputs, |inputs|)
    case Finishing(_, executed) => !executed ==> Missing(inputs)
    case Releasing(_, executed, _) => !executed ==> Missing(inputs)
    case _ => true
  }

  predicate Owns(pc: Pc, n: nat) { Weigh(OwnerOf(n), pc) > 0 }

  ghost predicate ReadyAt(s: State, n: nat)
    requires n < |s.nodes|
  {
    !s.stopped && Quiet(s, n) ==>
      && (s.nodes[n].status.Waiting? ==> Missing(s.nodes[n].inputs))
      && (s.nodes[n].status.Running? ==>
            forall t :: 0 <= t < |s.threads| && Owns(s.threads[t].pc, n) ==>
              Progress(s.nodes[n].inputs, s.threads[t].pc))
  }

  ghost predicate ReadinessInvariant(s: State) {
    forall n :: 0 <= n < |s.nodes| ==> ReadyAt(s, n)
  }

  lemma {:induction false} OneOwner(s: State, t: nat, u: nat, n: nat)
    requires OwnerInvariant(s) && t < |s.threads| && u < |s.threads| && n < |s.nodes| && t != u
    ensures !(Owns(s.threads[t].pc, n) && Owns(s.threads[u].pc, n))
  {
    TotalCoversTwo(OwnerOf(n), s.threads, Min(t, u), Max(t, u));
  }

  // ---------------------------------------------------------------- what one operation may do to `n`

  /**
   A notification in flight ends by leaving Waiting and Running; a write starts one;
   only the owner touches the inputs; and only an owner that misses an input parks.
   */
  ghost predicate Respects(s: State, n: nat, pc: Pc, change: Change, pc': Pc)
    requires n < |s.nodes| && Fits(s, change)
  {
    var node, node' := s.nodes[n], Apply(s, change).nodes[n];
    if InFlight(pc, n) then
      s.stopped || InFlight(pc', n) || (!node'.status.Waiting? && !node'.status.Running?)
    else
      || InFlight(pc', n)
      || (Owns(pc, n) && (RunLike(node.status) && (node.status.Running? ==> Progress(node.inputs, pc)) ==>
           && (node'.status.Running? && Owns(pc', n) ==> Progress(node'.inputs, pc'))
           && (node'.status.Waiting? ==> Missing(node'.inputs))))
      || (!Owns(pc, n) && !Owns(pc', n) && node' == node)
      || (!RunLike(node.status) && node' == node.(status := Running) && pc' == Draining(n, 0, None))
  }

  lemma {:induction false} NotificationRespects(s: State, n: nat, pc: Pc, weak: bool)
    requires n < |s.nodes| && CallOf(pc).Some? && CallSound(s, CallOf(pc).value) && InFlight(pc, n)
    ensures var (change, c') := CallStep(s, CallOf(pc).value, weak);
      Respects(s, n, pc, change, WithCall(pc, c'))
  {
    var (change, c') := CallStep(s, CallOf(pc).value, weak);
    assert CallOf(WithCall(pc, c')) == c';
  }

  /** A call that is not notifying `n` leaves it alone, or writes one of its queues and then is. */
  lemma {:induction false} CallLeavesAlone(s: State, n: nat, c: Call, weak: bool)
    requires n < |s.nodes| && CallSound(s, c) && (c.node != n || c.Push? || c.Send?)
    ensures var (change, c') := CallStep(s, c, weak);
      || (c.node == n && c'.Some? && c'.value.Check? && c'.value.node == n)
      || (Apply(s, change).nodes[n] == s.nodes[n] && (c'.None? || c'.value.node != n))
  {
  }

  lemma {:induction false} CallRespects(s: State, n: nat, pc: Pc, weak: bool)
    requires n < |s.nodes| && CallOf(pc).Some? && CallSound(s, CallOf(pc).value)
    ensures var (change, c') := CallStep(s, CallOf(pc).value, weak);
      Respects(s, n, pc, change, WithCall(pc, c'))
  {
    if InFlight(pc, n) {
      NotificationRespects(s, n, pc, weak);
    } else {
      var c' := CallStep(s, CallOf(pc).value, weak).1;
      CallLeavesAlone(s, n, CallOf(pc).value, weak);
      WeighWithCall(OwnerOf(n), pc, c');
      assert CallOf(WithCall(pc, c')) == c';
    }
  }

  lemma {:induction false} OwnerAdvances(s: State, n: nat, pool: nat, pc: Pc, weak: bool)
    requires Shape(s) && ThreadSound(s, Thread(Worker(pool), pc)) && CallOf(pc).None?
    requires Owns(pc, n) && n < |s.nodes| && WorkerAdvance(s, pool, pc, weak).Some?
    ensures var (change, pc') := WorkerAdvance(s, pool, pc, weak).value; Respects(s, n, pc, change, pc')
  {
  }

  lemma {:induction false} OwnerRespects(s: State, n: nat, pool: nat, pc: Pc, a: Action)
    requires Shape(s) && ThreadSound(s, Thread(Worker(pool), pc)) && CallOf(pc).None?
    requires Owns(pc, n) && n < |s.nodes| && WorkerStep(s, pool, pc, a).Some?
    ensures var (change, pc') := WorkerStep(s, pool, pc, a).value; Respects(s, n, pc, change, pc')
  {
    if !pc.Body? {
      OwnerAdvances(s, n, pool, pc, a.weak);
    }
  }

  /** A worker's operation concerns the node it carries or owns; it starts owning a node by claiming it. */
  lemma {:induction false} WorkerMindsItsNode(s: State, n: nat, pool: nat, pc: Pc, a: Action)
    requires CallOf(pc).None? && !Owns(pc, n) && WorkerStep(s, pool, pc, a).Some?
    ensures var (change, pc') := WorkerStep(s, pool, pc, a).value;
      || (pc == Claiming(n) && change == Swap(n, Running, [Claimed(n)]) && pc' == Draining(n, 0, None)
          && s.nodes[n].status.Queued?)
      || (!Owns(pc', n) && !((change.Write? || change.Transfer? || change.Take? || change.Swap?) && change.node == n))
  {
  }

  lemma {:induction false} UntouchedStays(s: State, n: nat, change: Change)
    requires Fits(s, change) && n < |s.nodes|
    requires !((change.Write? || change.Transfer? || change.Take? || change.Swap?) && change.node == n)
    ensures Apply(s, change).nodes[n] == s.nodes[n]
  {
  }

  /** Any other worker leaves `n` alone, except that it may claim it. */
  lemma {:induction false} StrangerRespects(s: State, n: nat, pool: nat, pc: Pc, a: Action)
    requires CallOf(pc).None? && !Owns(pc, n) && n < |s.nodes| && WorkerStep(s, pool, pc, a).Some?
    ensures var (change, pc') := WorkerStep(s, pool, pc, a).value; Respects(s, n, pc, change, pc')
  {
    WorkerMindsItsNode(s, n, pool, pc, a);
    var (change, pc') := WorkerStep(s, pool, pc, a).value;
    if !Owns(pc', n) {
      UntouchedStays(s, n, change);
    }
  }

  lemma {:induction false} NextRespects(s: State, n: nat, t: nat, a: Action)
    requires Shape(s) && t < |s.threads| && n < |s.nodes| && Next(s, t, a).Some?
    ensures var (change, pc) := Next(s, t, a).value; Respects(s, n, s.threads[t].pc, change, pc)
  {
    var th := s.threads[t];
    if CallOf(th.pc).Some? {
      CallRespects(s, n, th.pc, a.weak);
    } else if th.role.Worker? {
      if Owns(th.pc, n) {
        OwnerRespects(s, n, th.role.pool, th.pc, a);
      } else {
        StrangerRespects(s, n, th.role.pool, th.pc, a);
      }
    } else {
      OthersWeighNothing(s, OwnerOf(n), th, t, a);
    }
  }

  // ---------------------------------------------------------------- preservation

  lemma {:induction false} LandKeepsReady(s: State, t: nat, change: Change, pc: Pc, n: nat)
    requires OwnerInvariant(s) && n < |s.nodes| && t < |s.threads| && Fits(s, change)
    requires ReadyAt(s, n) && Respects(s, n, s.threads[t].pc, change, pc)
    ensures |Land(s, t, change, pc).nodes| == |s.nodes|
    ensures ReadyAt(Land(s, t, change, pc), n)
  {
    var s' := Land(s, t, change, pc);
    var here := s.threads[t].pc;
    if !s'.stopped && Quiet(s', n) {
      assert s'.threads[t].pc == pc;
      assert forall u :: 0 <= u < |s.threads| && u != t ==> s'.threads[u] == s.threads[u];
      if !InFlight(here, n) {
        assert Quiet(s, n);
        TotalCovers(OwnerOf(n), s.threads, t);
        forall u | 0 <= u < |s.threads| && u != t && (Owns(here, n) || !RunLike(s.nodes[n].status))
          ensures !Owns(s'.threads[u].pc, n)
        {
          TotalCovers(OwnerOf(n), s.threads, u);
          if Owns(here, n) {
            OneOwner(s, t, u, n);
          }
        }
      }
    }
  }

  lemma {:induction false} ActKeepsReadiness(s: State, t: nat, a: Action)
    requires Accounted(s) && ReadinessInvariant(s)
    ensures ReadinessInvariant(Act(s, t, a))
  {
    if t < |s.threads| && Next(s, t, a).Some? {
      var (change, pc) := Next(s, t, a).value;
      forall n | 0 <= n < |Land(s, t, change, pc).nodes| ensures ReadyAt(Land(s, t, change, pc), n) {
        NextRespects(s, n, t, a);
        LandKeepsReady(s, t, change, pc, n);
      }
    }
  }

  lemma {:induction false} RunKeepsReadiness(s: State, schedule: seq<(nat, Action)>)
    requires Initial(s)
    ensures ReadinessInvariant(Run(s, schedule))
  {
    if schedule != [] {
      var last := |schedule| - 1;
      RunKeepsReadiness(s, schedule[..last]);
      RunKeepsCounts(s, schedule[..last]);
      ActKeepsReadiness(Run(s, schedule[..last]), schedule[last].0, schedule[last].1);
    }
  }

  /** In every interleaving, a parked callback with no notification on its way misses a required input. */
  lemma {:induction false} NoLostReadiness(s: State, schedule: seq<(nat, Action)>, n: nat)
    requires Initial(s) && n < |Run(s, schedule).nodes|
    requires Run(s, schedule).nodes[n].status.Waiting? && !Run(s, schedule).stopped && Quiet(Run(s, schedule), n)
    ensures Missing(Run(s, schedule).nodes[n].inputs)
  {
    RunKeepsReadiness(s, schedule);
    assert ReadyAt(Run(s, schedule), n);
  }
}
