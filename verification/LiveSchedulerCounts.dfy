/**
 Counting invariants of the live scheduler: one token per queued node, one owner
 per running node, and an `active` counter that accounts for every busy node and
 every thread between two of its updates.
 */
module LiveSchedulerCounts {
  import opened Basics
  import opened LiveScheduler
  import opened LiveSchedulerShape

  /** Scheduling tokens of node `n`: about to be sent, in its pool's channel, or received and unclaimed. */
  ghost function Tokens(s: State, n: nat): nat
    requires n < |s.nodes| && s.nodes[n].pool < |s.channels|
  {
    Total(TokenOf(n), s.threads) + multiset(s.channels[s.nodes[n].pool])[n]
  }

  ghost predicate TokenInvariant(s: State)
    requires Shape(s)
  {
    forall n :: 0 <= n < |s.nodes| ==>
      && Tokens(s, n) <= Bit(s.nodes[n].status.Queued?)
      && (!s.stopped ==> Tokens(s, n) == Bit(s.nodes[n].status.Queued?))
  }

  ghost predicate OwnerInvariant(s: State) {
    forall n :: 0 <= n < |s.nodes| ==>
      && Total(OwnerOf(n), s.threads) <= Bit(RunLike(s.nodes[n].status))
      && (!s.stopped ==> Total(OwnerOf(n), s.threads) == Bit(RunLike(s.nodes[n].status)))
  }

  ghost predicate ActiveInvariant(s: State) {
    s.active == BusyCount(s.nodes) + Total(ActiveShare, s.threads)
  }

  /** The three counting invariants over a well-shaped state without a fault. */
  ghost predicate Accounted(s: State) {
    Shape(s) && TokenInvariant(s) && OwnerInvariant(s) && ActiveInvariant(s) && !s.fault
  }

  // ---------------------------------------------------------------- what one operation moves

  ghost predicate TokenBalance(s: State, n: nat, pc: Pc, change: Change, pc': Pc)
    requires Fits(s, change)
  {
    var before, after := Weigh(TokenOf(n), pc), Weigh(TokenOf(n), pc');
    match change
    case Swap(m, status, _) =>
      if m != n then after == before
      else after + Bit(s.nodes[n].status.Queued?) == before + Bit(status.Queued?)
    case SendToken(m) => before == after + Bit(m == n)
    case TakeToken(p) => after == before + Bit(s.channels[p][0] == n)
    case _ => after == before || (s.stopped && after < before)
  }

  ghost predicate OwnerBalance(s: State, n: nat, pc: Pc, change: Change, pc': Pc)
    requires Fits(s, change)
  {
    var before, after := Weigh(OwnerOf(n), pc), Weigh(OwnerOf(n), pc');
    match change
    case Swap(m, status, _) =>
      if m != n then after == before
      else after + Bit(RunLike(s.nodes[n].status)) == before + Bit(RunLike(status))
    case Stop => after <= before
    case _ => after == before
  }

  ghost predicate ActiveBalance(s: State, pc: Pc, change: Change, pc': Pc)
    requires Fits(s, change)
  {
    var before, after := Weigh(ActiveShare, pc), Weigh(ActiveShare, pc');
    match change
    case Swap(n, status, _) => after + Bit(Busy(status)) == before + Bit(Busy(s.nodes[n].status))
    case Count => after == before + 1
    case Discount => after + 1 == before
    case _ => after == before
  }

  ghost predicate Balanced(s: State, n: nat, pc: Pc, change: Change, pc': Pc)
    requires Fits(s, change)
  {
    && !change.Crash?
    && ActiveBalance(s, pc, change, pc')
    && TokenBalance(s, n, pc, change, pc')
    && OwnerBalance(s, n, pc, change, pc')
  }

  lemma {:induction false} WeighWithCall(m: Measure, pc: Pc, c: Option<Call>)
    requires CallOf(pc).Some?
    ensures Weigh(m, WithCall(pc, c)) == Weigh(m, pc) - WeighCall(m, CallOf(pc).value)
                                       + (if c.Some? then WeighCall(m, c.value) else 0)
  {
  }

  lemma {:induction false} CallKeepsCounters(s: State, n: nat, pc: Pc, weak: bool)
    requires CallOf(pc).Some? && CallSound(s, CallOf(pc).value)
    ensures var (change, c') := CallStep(s, CallOf(pc).value, weak);
      !change.Crash? && ActiveBalance(s, pc, change, WithCall(pc, c')) && OwnerBalance(s, n, pc, change, WithCall(pc, c'))
  {
    var c' := CallStep(s, CallOf(pc).value, weak).1;
    WeighWithCall(OwnerOf(n), pc, c');
    WeighWithCall(ActiveShare, pc, c');
  }

  lemma {:induction false} CallIsBalanced(s: State, n: nat, pc: Pc, weak: bool)
    requires CallOf(pc).Some? && CallSound(s, CallOf(pc).value)
    ensures var (change, c') := CallStep(s, CallOf(pc).value, weak);
      Balanced(s, n, pc, change, WithCall(pc, c'))
  {
    CallKeepsCounters(s, n, pc, weak);
    WeighWithCall(TokenOf(n), pc, CallStep(s, CallOf(pc).value, weak).1);
  }

  lemma {:induction false} SwapIsBalanced(s: State, n: nat, pool: nat, pc: Pc, weak: bool)
    requires Shape(s) && ThreadSound(s, Thread(Worker(pool), pc))
    requires pc.Claiming? || pc.Releasing?
    requires pc.Claiming? ==> s.nodes[pc.node].status.Queued?
    ensures WorkerAdvance(s, pool, pc, weak).Some?
    ensures var (change, pc') := WorkerAdvance(s, pool, pc, weak).value; Balanced(s, n, pc, change, pc')
  {
  }

  predicate Owning(pc: Pc) {
    pc.Body? || pc.Draining? || pc.Checking? || pc.Finishing? || pc.Failing?
  }

  lemma {:induction false} OwningWeighs(n: nat, pc: Pc)
    requires Owning(pc) && (CallOf(pc).Some? ==> CallOf(pc).value.Push? || CallOf(pc).value.Check?)
    ensures Weigh(TokenOf(n), pc) == 0 == Weigh(ActiveShare, pc) && Weigh(OwnerOf(n), pc) == Bit(pc.node == n)
  {
  }

  lemma {:induction false} OwningMoves(s: State, pool: nat, pc: Pc, a: Action)
    requires Owning(pc) && !pc.Finishing? && !pc.Failing? && CallOf(pc).None? && WorkerStep(s, pool, pc, a).Some?
    ensures var (change, pc') := WorkerStep(s, pool, pc, a).value;
      && (change.Keep? || change.Transfer? || change.Take?) && Owning(pc') && pc'.node == pc.node
      && (CallOf(pc').Some? ==> CallOf(pc').value.Push? || CallOf(pc').value.Check?)
  {
  }

  /** While a worker updates, checks and runs a callback it owns that node and nothing else. */
  lemma {:induction false} OwningIsBalanced(s: State, n: nat, pool: nat, pc: Pc, a: Action)
    requires Owning(pc) && CallOf(pc).None? && WorkerStep(s, pool, pc, a).Some?
    ensures var (change, pc') := WorkerStep(s, pool, pc, a).value; Balanced(s, n, pc, change, pc')
  {
    OwningWeighs(n, pc);
    if !pc.Finishing? && !pc.Failing? {
      OwningMoves(s, pool, pc, a);
      OwningWeighs(n, WorkerStep(s, pool, pc, a).value.1);
    }
  }

  predicate Carrying(pc: Pc) {
    pc.Rest? || pc.Received? || pc.Claiming? || pc.Resend? || pc.Completing? || pc.Settling? || pc.Exited?
  }

  lemma {:induction false} CarryingWeighs(n: nat, pc: Pc)
    requires Carrying(pc)
    ensures Weigh(TokenOf(n), pc) == Bit((pc.Received? || pc.Claiming? || pc.Resend?) && pc.node == n)
    ensures Weigh(ActiveShare, pc) == Bit(pc.Completing? || pc.Settling?) && Weigh(OwnerOf(n), pc) == 0
  {
  }

  lemma {:induction false} CarryingIsBalanced(s: State, n: nat, pool: nat, pc: Pc, weak: bool)
    requires Carrying(pc) && !pc.Claiming? && WorkerAdvance(s, pool, pc, weak).Some?
    ensures var (change, pc') := WorkerAdvance(s, pool, pc, weak).value; Balanced(s, n, pc, change, pc')
  {
    var (change, pc') := WorkerAdvance(s, pool, pc, weak).value;
    assert Carrying(pc');
    CarryingWeighs(n, pc);
    CarryingWeighs(n, pc');
  }

  /** Timer and outside threads move no weight outside their notifications. */
  lemma {:induction false} OthersWeighNothing(s: State, m: Measure, th: Thread, t: nat, a: Action)
    requires CallOf(th.pc).None? && ThreadSound(s, th) && !th.role.Worker?
    requires var next := if th.role.Timer? then TimerStep(s, t, th.pc, a) else OutsideStep(s, t, th.pc, a); next.Some?
    ensures var (change, pc') := (if th.role.Timer? then TimerStep(s, t, th.pc, a) else OutsideStep(s, t, th.pc, a)).value;
      && Weigh(m, th.pc) == 0 == Weigh(m, pc')
      && (change.Keep? || change.Acquire? || change.Unlock? || change.DisableTimers? || change.Stop?)
  {
  }

  /** The assertion of `claim` and the `unreachable!` of `finish` cannot be reached. */
  lemma {:induction false} NextIsBalanced(s: State, n: nat, t: nat, a: Action)
    requires Accounted(s) && t < |s.threads| && Next(s, t, a).Some?
    ensures var (change, pc') := Next(s, t, a).value; Balanced(s, n, s.threads[t].pc, change, pc')
  {
    var th := s.threads[t];
    if CallOf(th.pc).Some? {
      CallIsBalanced(s, n, th.pc, a.weak);
    } else if th.role.Worker? {
      if th.pc.Claiming? {
        TotalCovers(TokenOf(th.pc.node), s.threads, t);
      }
      if th.pc.Claiming? || th.pc.Releasing? {
        SwapIsBalanced(s, n, th.role.pool, th.pc, a.weak);
      } else if Owning(th.pc) {
        OwningIsBalanced(s, n, th.role.pool, th.pc, a);
      } else {
        CarryingIsBalanced(s, n, th.role.pool, th.pc, a.weak);
      }
    } else {
      OthersWeighNothing(s, TokenOf(n), th, t, a);
      OthersWeighNothing(s, OwnerOf(n), th, t, a);
      OthersWeighNothing(s, ActiveShare, th, t, a);
    }
  }

  // ---------------------------------------------------------------- the queue never overflows

  ghost function PoolMembers(nodes: seq<Node>, p: nat): set<nat> {
    set n: nat | n < |nodes| && nodes[n].pool == p
  }

  lemma {:induction false} PoolSizeCounts(nodes: seq<Node>, p: nat)
    ensures |PoolMembers(nodes, p)| == PoolSize(nodes, p)
  {
    if nodes != [] {
      var last := |nodes| - 1;
      PoolSizeCounts(nodes[..last], p);
      assert PoolMembers(nodes, p) == PoolMembers(nodes[..last], p) + if nodes[last].pool == p then {last} else {};
    }
  }

  /** A thread about to send a node's token finds room: the channel holds only other nodes of the pool, once each. */
  lemma {:induction false} ChannelHasRoom(s: State, t: nat, n: nat)
    requires Accounted(s) && t < |s.threads| && n < |s.nodes| && Weigh(TokenOf(n), s.threads[t].pc) >= 1
    ensures |s.channels[s.nodes[n].pool]| < PoolSize(s.nodes, s.nodes[n].pool)
  {
    var p := s.nodes[n].pool;
    var queue := s.channels[p];
    TotalCovers(TokenOf(n), s.threads, t);
    assert Tokens(s, n) <= 1;
    forall i | 0 <= i < |queue| ensures multiset(queue)[queue[i]] <= 1 {
      assert Tokens(s, queue[i]) <= 1;
    }
    CountsMakeDistinct(queue);
    var others := PoolMembers(s.nodes, p) - {n};
    forall i | 0 <= i < |queue| ensures queue[i] in others {
      assert queue[i] in multiset(queue);
    }
    DistinctFits(queue, others);
    PoolSizeCounts(s.nodes, p);
  }

  // ---------------------------------------------------------------- preservation

  ghost function Enqueued(s: State, n: nat): nat
    requires n < |s.nodes| && s.nodes[n].pool < |s.channels|
  {
    multiset(s.channels[s.nodes[n].pool])[n]
  }

  lemma {:induction false} TakeMovesToken(queue: seq<nat>, n: nat)
    requires queue != []
    ensures multiset(queue)[n] == multiset(queue[1..])[n] + Bit(queue[0] == n)
  {
    assert queue == [queue[0]] + queue[1..];
  }

  lemma {:induction false} ApplyKeepsPools(s: State, change: Change, n: nat)
    requires Fits(s, change) && n < |s.nodes|
    ensures n < |Apply(s, change).nodes| && Apply(s, change).nodes[n].pool == s.nodes[n].pool
    ensures |Apply(s, change).channels| == |s.channels|
    ensures !change.TakeToken? && !change.SendToken? ==> Apply(s, change).channels == s.channels
  {
  }

  lemma {:induction false} ApplyMovesTokens(s: State, change: Change, n: nat)
    requires Fits(s, change) && NodeFits(s, n) && !Apply(s, change).fault
    requires change.TakeToken? && s.channels[change.pool][0] == n ==> s.nodes[n].pool == change.pool
    ensures NodeFits(Apply(s, change), n)
    ensures Enqueued(Apply(s, change), n) + Bit(change.TakeToken? && s.channels[change.pool][0] == n)
         == Enqueued(s, n) + Bit(change == SendToken(n))
  {
    ApplyKeepsPools(s, change, n);
    if change.TakeToken? {
      TakeMovesToken(s.channels[change.pool], n);
    }
  }

  lemma {:induction false} ApplySetsStatus(s: State, change: Change, n: nat)
    requires Fits(s, change) && n < |s.nodes|
    ensures n < |Apply(s, change).nodes|
    ensures Apply(s, change).nodes[n].status == if change.Swap? && change.node == n then change.status else s.nodes[n].status
    ensures Apply(s, change).stopped == (s.stopped || change.Stop?)
  {
  }

  lemma {:induction false} LandKeepsTokens(s: State, t: nat, change: Change, pc: Pc, n: nat)
    requires Accounted(s) && t < |s.threads| && Fits(s, change) && n < |s.nodes|
    requires !Land(s, t, change, pc).fault
    requires TokenBalance(s, n, s.threads[t].pc, change, pc)
    ensures SameDeclarations(s, Land(s, t, change, pc))
    ensures var s' := Land(s, t, change, pc);
      && Tokens(s', n) <= Bit(s'.nodes[n].status.Queued?)
      && (!s'.stopped ==> Tokens(s', n) == Bit(s'.nodes[n].status.Queued?))
  {
    LandKeepsDeclarations(s, t, change, pc);
    TotalUpdate(TokenOf(n), s.threads, t, pc);
    TotalCovers(TokenOf(n), s.threads, t);
    ApplyMovesTokens(s, change, n);
    ApplySetsStatus(s, change, n);
    var s' := Land(s, t, change, pc);
    assert Tokens(s, n) == Total(TokenOf(n), s.threads) + Enqueued(s, n);
    assert Tokens(s', n) == Total(TokenOf(n), s'.threads) + Enqueued(Apply(s, change), n);
  }

  lemma {:induction false} LandKeepsOwners(s: State, t: nat, change: Change, pc: Pc, n: nat)
    requires Accounted(s) && t < |s.threads| && Fits(s, change) && n < |s.nodes|
    requires OwnerBalance(s, n, s.threads[t].pc, change, pc)
    ensures SameDeclarations(s, Land(s, t, change, pc))
    ensures var s' := Land(s, t, change, pc);
      && Total(OwnerOf(n), s'.threads) <= Bit(RunLike(s'.nodes[n].status))
      && (!s'.stopped ==> Total(OwnerOf(n), s'.threads) == Bit(RunLike(s'.nodes[n].status)))
  {
    LandKeepsDeclarations(s, t, change, pc);
    TotalUpdate(OwnerOf(n), s.threads, t, pc);
    TotalCovers(OwnerOf(n), s.threads, t);
  }

  lemma {:induction false} LandKeepsActive(s: State, t: nat, change: Change, pc: Pc)
    requires Accounted(s) && t < |s.threads| && Fits(s, change) && !change.Crash?
    requires ActiveBalance(s, s.threads[t].pc, change, pc)
    requires change.SendToken? ==> Weigh(TokenOf(change.node), s.threads[t].pc) >= 1
    ensures !Land(s, t, change, pc).fault && ActiveInvariant(Land(s, t, change, pc))
  {
    TotalUpdate(ActiveShare, s.threads, t, pc);
    TotalCovers(ActiveShare, s.threads, t);
    match change
    case Swap(n, status, _) => BusyUpdate(s.nodes, n, s.nodes[n].(status := status));
    case Write(n, _) => BusyUpdate(s.nodes, n, Apply(s, change).nodes[n]);
    case Transfer(n, _) => BusyUpdate(s.nodes, n, Apply(s, change).nodes[n]);
    case Take(n, _, _) => BusyUpdate(s.nodes, n, Apply(s, change).nodes[n]);
    case SendToken(n) => ChannelHasRoom(s, t, n);
    case _ =>
  }

  lemma {:induction false} OwnedNodesRun(s: State)
    requires OwnerInvariant(s)
    ensures forall n :: 0 <= n < |s.nodes| && Total(OwnerOf(n), s.threads) > 0 ==> RunLike(s.nodes[n].status)
  {
  }

  /** Every step keeps the counting invariants; in particular it causes no fault. */
  lemma {:induction false} ActKeepsCounts(s: State, t: nat, a: Action)
    requires Accounted(s)
    ensures Accounted(Act(s, t, a))
  {
    if t < |s.threads| && Next(s, t, a).Some? {
      var (change, pc) := Next(s, t, a).value;
      var s' := Land(s, t, change, pc);
      OwnedNodesRun(s);
      ActKeepsShape(s, t, a);
      NextIsBalanced(s, if change.SendToken? then change.node else 0, t, a);
      LandKeepsActive(s, t, change, pc);
      LandKeepsDeclarations(s, t, change, pc);
      forall n | 0 <= n < |s'.nodes|
        ensures Tokens(s', n) <= Bit(s'.nodes[n].status.Queued?)
        ensures !s'.stopped ==> Tokens(s', n) == Bit(s'.nodes[n].status.Queued?)
        ensures Total(OwnerOf(n), s'.threads) <= Bit(RunLike(s'.nodes[n].status))
        ensures !s'.stopped ==> Total(OwnerOf(n), s'.threads) == Bit(RunLike(s'.nodes[n].status))
      {
        NextIsBalanced(s, n, t, a);
        LandKeepsTokens(s, t, change, pc, n);
        LandKeepsOwners(s, t, change, pc, n);
      }
    }
  }

  lemma {:induction false} InitialCounts(s: State)
    requires Initial(s)
    ensures Accounted(s)
  {
    TotalZero(ActiveShare, s.threads);
    BusyZero(s.nodes);
    forall n | 0 <= n < |s.nodes| ensures Tokens(s, n) == 0 == Total(OwnerOf(n), s.threads) {
      TotalZero(TokenOf(n), s.threads);
      TotalZero(OwnerOf(n), s.threads);
    }
  }

  /** Every interleaving keeps the counting invariants. */
  lemma {:induction false} RunKeepsCounts(s: State, schedule: seq<(nat, Action)>)
    requires Initial(s)
    ensures Accounted(Run(s, schedule))
  {
    if schedule == [] {
      InitialCounts(s);
    } else {
      var last := |schedule| - 1;
      RunKeepsCounts(s, schedule[..last]);
      ActKeepsCounts(Run(s, schedule[..last]), schedule[last].0, schedule[last].1);
    }
  }

  /**
   In every interleaving: no assertion fails, no channel overflows and no counter
   underflows; a queued node has exactly one token and any other node has none.
   */
  lemma {:induction false} SingleToken(s: State, schedule: seq<(nat, Action)>, n: nat)
    requires Initial(s) && n < |Run(s, schedule).nodes|
    ensures var s' := Run(s, schedule);
      && !s'.fault && NodeFits(s', n)
      && (s'.nodes[n].status.Queued? && !s'.stopped ==> Tokens(s', n) == 1)
      && (s'.nodes[n].status.Queued? ==> Tokens(s', n) <= 1)
      && (!s'.nodes[n].status.Queued? ==> Tokens(s', n) == 0)
  {
    RunKeepsCounts(s, schedule);
    assert Tokens(Run(s, schedule), n) <= Bit(Run(s, schedule).nodes[n].status.Queued?);
  }

  /** In every interleaving no node is updated, run or released by two workers at once. */
  lemma {:induction false} OneWorkerPerNode(s: State, schedule: seq<(nat, Action)>, t: nat, u: nat, n: nat)
    requires Initial(s) && t < u < |Run(s, schedule).threads| && n < |Run(s, schedule).nodes|
    ensures var s' := Run(s, schedule);
      !(Weigh(OwnerOf(n), s'.threads[t].pc) > 0 && Weigh(OwnerOf(n), s'.threads[u].pc) > 0)
  {
    RunKeepsCounts(s, schedule);
    TotalCoversTwo(OwnerOf(n), Run(s, schedule).threads, t, u);
  }
}
