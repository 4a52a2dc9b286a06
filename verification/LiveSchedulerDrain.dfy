/**
 The idle counter and `StopSignal::drain`: what a successful drain means, for how
 long it stays true, and the one thing that can invalidate it.
 */
module LiveSchedulerDrain {
  import opened Basics
  import opened LiveScheduler
  import opened LiveSchedulerShape
  import opened LiveSchedulerCounts

  predicate HoldsLock(pc: Pc) { pc.TimerHeld? || pc.Scanning? }

  predicate AfterQuiesce(pc: Pc) {
    pc.Polling? || pc.Sampling? || pc.Epoch? || pc.IdleOnce? || pc.IdleTwice? || pc.Drained?
  }

  ghost predicate LockInvariant(s: State) {
    forall t :: 0 <= t < |s.threads| ==>
      && (HoldsLock(s.threads[t].pc) <==> s.lock == Some(t))
      && (HoldsLock(s.threads[t].pc) && CallOf(s.threads[t].pc).Some? ==> s.timersEnabled)
      && (AfterQuiesce(s.threads[t].pc) ==> !s.timersEnabled)
  }

  /** How one operation may treat the timer lock. */
  predicate LockDiscipline(s: State, t: nat, pc: Pc, change: Change, pc': Pc) {
    match change
    case Acquire(u) => u == t && s.lock.None? && HoldsLock(pc') && CallOf(pc').None?
    case Unlock => HoldsLock(pc) && !HoldsLock(pc') && !AfterQuiesce(pc')
    case DisableTimers => HoldsLock(pc) && !HoldsLock(pc')
    case _ =>
      && (HoldsLock(pc') <==> HoldsLock(pc))
      && (HoldsLock(pc') && CallOf(pc').Some? ==> CallOf(pc).Some? || s.timersEnabled)
      && (AfterQuiesce(pc') ==> AfterQuiesce(pc))
  }

  lemma {:induction false} CallKeepsDiscipline(s: State, t: nat, pc: Pc, weak: bool)
    requires CallOf(pc).Some? && CallFits(s, CallOf(pc).value)
    ensures var (change, c') := CallStep(s, CallOf(pc).value, weak); LockDiscipline(s, t, pc, change, WithCall(pc, c'))
  {
  }

  lemma {:induction false} WorkerKeepsDiscipline(s: State, t: nat, pool: nat, pc: Pc, a: Action)
    requires WorkerStep(s, pool, pc, a).Some?
    ensures var (change, pc') := WorkerStep(s, pool, pc, a).value; LockDiscipline(s, t, pc, change, pc')
  {
  }

  lemma {:induction false} NextKeepsDiscipline(s: State, t: nat, a: Action)
    requires t < |s.threads| && Next(s, t, a).Some?
    ensures var (change, pc) := Next(s, t, a).value; LockDiscipline(s, t, s.threads[t].pc, change, pc)
  {
    var Thread(role, pc) := s.threads[t];
    if CallOf(pc).Some? {
      CallKeepsDiscipline(s, t, pc, a.weak);
    } else if role.Worker? {
      WorkerKeepsDiscipline(s, t, role.pool, pc, a);
    }
  }

  lemma {:induction false} LandKeepsLock(s: State, t: nat, change: Change, pc: Pc)
    requires LockInvariant(s) && t < |s.threads| && Fits(s, change)
    requires LockDiscipline(s, t, s.threads[t].pc, change, pc)
    ensures LockInvariant(Land(s, t, change, pc))
  {
  }

  lemma {:induction false} RunKeepsLock(s: State, schedule: seq<(nat, Action)>)
    requires Initial(s)
    ensures LockInvariant(Run(s, schedule))
  {
    if schedule != [] {
      var last := |schedule| - 1;
      RunKeepsLock(s, schedule[..last]);
      var before := Run(s, schedule[..last]);
      var (t, a) := schedule[last];
      if t < |before.threads| && !before.fault && Next(before, t, a).Some? {
        var (change, pc) := Next(before, t, a).value;
        NextKeepsDiscipline(before, t, a);
        LandKeepsLock(before, t, change, pc);
      }
    }
  }

  ghost predicate AllParked(s: State) {
    forall n :: 0 <= n < |s.nodes| ==> s.nodes[n].status.Idle? || s.nodes[n].status.Waiting?
  }

  lemma {:induction false} ParkedMeansNoneBusy(nodes: seq<Node>)
    ensures BusyCount(nodes) == 0 <==> forall n :: 0 <= n < |nodes| ==> !Busy(nodes[n].status)
  {
    if exists n :: 0 <= n < |nodes| && Busy(nodes[n].status) {
      var n :| 0 <= n < |nodes| && Busy(nodes[n].status);
      BusyCovers(nodes, n);
    } else {
      BusyZero(nodes);
    }
  }

  /** In every interleaving the counter covers exactly the busy nodes and the threads between two updates. */
  lemma {:induction false} ActiveIsExact(s: State, schedule: seq<(nat, Action)>)
    requires Initial(s)
    ensures var s' := Run(s, schedule);
      && s'.active == BusyCount(s'.nodes) + Total(ActiveShare, s'.threads)
      && (AllParked(s') <==> s'.active == Total(ActiveShare, s'.threads))
  {
    RunKeepsCounts(s, schedule);
    ParkedMeansNoneBusy(Run(s, schedule).nodes);
  }

  // ---------------------------------------------------------------- quiescence

  /** No work is counted and no timer will be dispatched. */
  ghost predicate Calm(s: State) {
    Accounted(s) && LockInvariant(s) && s.active == 0 && !s.timersEnabled
  }

  /** A thread outside the workers and timers takes a step of a write or a trigger. */
  predicate OutsideNotifies(s: State, t: nat, a: Action) {
    t < |s.threads| && s.threads[t].role.Outside?
    && (s.threads[t].pc.Calling? || (s.threads[t].pc.Rest? && a.Begin?))
  }

  predicate NoneOutside(s: State, schedule: seq<(nat, Action)>) {
    schedule != [] ==>
      var last := |schedule| - 1;
      && NoneOutside(s, schedule[..last])
      && !OutsideNotifies(Run(s, schedule[..last]), schedule[last].0, schedule[last].1)
  }

  /** In a calm state nobody carries a token, owns a node or is between two counter updates. */
  lemma {:induction false} CalmIsWeightless(s: State, t: nat, n: nat)
    requires Calm(s) && t < |s.threads| && n < |s.nodes|
    ensures Weigh(TokenOf(n), s.threads[t].pc) == 0 == Weigh(OwnerOf(n), s.threads[t].pc)
    ensures Weigh(ActiveShare, s.threads[t].pc) == 0
    ensures !Busy(s.nodes[n].status) && n !in s.channels[s.nodes[n].pool]
  {
    ParkedMeansNoneBusy(s.nodes);
    TotalCovers(TokenOf(n), s.threads, t);
    TotalCovers(OwnerOf(n), s.threads, t);
    TotalCovers(ActiveShare, s.threads, t);
    assert Tokens(s, n) == 0;
    assert n in s.channels[s.nodes[n].pool] <==> n in multiset(s.channels[s.nodes[n].pool]);
  }

  lemma {:induction false} CalmChannelsAreEmpty(s: State, p: nat)
    requires Calm(s) && p < |s.channels| && |s.threads| > 0
    ensures s.channels[p] == []
  {
    if s.channels[p] != [] {
      CalmIsWeightless(s, 0, s.channels[p][0]);
    }
  }

  /** Positions a thread can have while the state is calm and it is not notifying from outside. */
  predicate CalmPlace(pc: Pc) {
    pc.Rest? || pc.Exited? || AfterQuiesce(pc) || (HoldsLock(pc) && CallOf(pc).None?)
  }

  lemma {:induction false} CalmPlaces(s: State, t: nat)
    requires Calm(s) && t < |s.threads| && !s.threads[t].pc.Calling?
    ensures CalmPlace(s.threads[t].pc)
  {
    var th := s.threads[t];
    assert ThreadSound(s, th);
    match th.pc
    case Received(n) => CalmIsWeightless(s, t, n);
    case Claiming(n) => CalmIsWeightless(s, t, n);
    case Draining(n, _, _) => CalmIsWeightless(s, t, n);
    case Checking(n) => CalmIsWeightless(s, t, n);
    case Body(n, _) => CalmIsWeightless(s, t, n);
    case Finishing(n, _) => CalmIsWeightless(s, t, n);
    case Releasing(n, _, _) => CalmIsWeightless(s, t, n);
    case Resend(n) => CalmIsWeightless(s, t, n);
    case Failing(n) => CalmIsWeightless(s, t, n);
    case Completing => TotalCovers(ActiveShare, s.threads, t);
    case Settling => TotalCovers(ActiveShare, s.threads, t);
    case _ =>
  }

  lemma {:induction false} CalmOperations(s: State, t: nat, a: Action)
    requires t < |s.threads| && CalmPlace(s.threads[t].pc) && !s.timersEnabled && Next(s, t, a).Some?
    requires !OutsideNotifies(s, t, a)
    requires s.threads[t].role.Worker? && s.threads[t].role.pool < |s.channels| ==> s.channels[s.threads[t].role.pool] == []
    ensures var change := Next(s, t, a).value.0;
      change.Keep? || change.Stop? || change.Acquire? || change.Unlock? || change.DisableTimers?
  {
  }

  /** Workers, timers and other drains keep a calm state calm, and nothing happens to any node. */
  lemma {:induction false} CalmStays(s: State, t: nat, a: Action)
    requires Calm(s) && !OutsideNotifies(s, t, a)
    ensures Calm(Act(s, t, a))
    ensures Act(s, t, a).nodes == s.nodes && Act(s, t, a).trace == s.trace
  {
    ActKeepsCounts(s, t, a);
    if t < |s.threads| && Next(s, t, a).Some? {
      var (change, pc) := Next(s, t, a).value;
      CalmPlaces(s, t);
      if s.threads[t].role.Worker? && s.threads[t].role.pool < |s.channels| {
        CalmChannelsAreEmpty(s, s.threads[t].role.pool);
      }
      CalmOperations(s, t, a);
      NextKeepsDiscipline(s, t, a);
      LandKeepsLock(s, t, change, pc);
    }
  }

  lemma {:induction false} CalmLasts(s: State, schedule: seq<(nat, Action)>)
    requires Calm(s) && NoneOutside(s, schedule)
    ensures Calm(Run(s, schedule))
    ensures Run(s, schedule).nodes == s.nodes && Run(s, schedule).trace == s.trace
  {
    if schedule != [] {
      var last := |schedule| - 1;
      CalmLasts(s, schedule[..last]);
      CalmStays(Run(s, schedule[..last]), schedule[last].0, schedule[last].1);
    }
  }

  // ---------------------------------------------------------------- drain

  lemma {:induction false} SliceTwice<T>(xs: seq<T>, m: nat)
    requires m < |xs|
    ensures var last := |xs| - 1;
      xs[..last][..m] == xs[..m] && xs[m..][..|xs| - m - 1] == xs[..last][m..] && xs[m..][|xs| - m - 1] == xs[last]
  {
  }

  lemma {:induction false} RunSplits(s: State, schedule: seq<(nat, Action)>, m: nat)
    requires m <= |schedule|
    ensures Run(s, schedule) == Run(Run(s, schedule[..m]), schedule[m..])
  {
    if m == |schedule| {
      assert schedule[..m] == schedule;
    } else {
      RunSplits(s, schedule[..|schedule| - 1], m);
      SliceTwice(schedule, m);
    }
  }

  /** Only the second idle read leads a thread to where a drain succeeds. */
  lemma {:induction false} SuccessNeedsIdleRead(s: State, d: nat, t: nat, a: Action)
    requires d < |s.threads| && |Act(s, t, a).threads| == |s.threads|
    requires var pc' := Act(s, t, a).threads[d].pc; pc'.IdleTwice? || pc' == Drained(true)
    ensures var pc := s.threads[d].pc;
      pc.IdleTwice? || pc == Drained(true) || (pc.IdleOnce? && s.active == 0)
  {
  }

  lemma {:induction false} ActKeepsThreads(s: State, t: nat, a: Action)
    ensures |Act(s, t, a).threads| == |s.threads|
  {
    if t < |s.threads| && !s.fault && Next(s, t, a).Some? {
      LandKeepsDeclarations(s, t, Next(s, t, a).value.0, Next(s, t, a).value.1);
    }
  }

  lemma {:induction false} IdleReadIsCalm(s: State, schedule: seq<(nat, Action)>, d: nat)
    requires Initial(s) && d < |Run(s, schedule).threads|
    requires Run(s, schedule).threads[d].pc.IdleOnce? && Run(s, schedule).active == 0
    ensures Calm(Run(s, schedule)) && AllParked(Run(s, schedule))
  {
    RunKeepsCounts(s, schedule);
    RunKeepsLock(s, schedule);
    ParkedMeansNoneBusy(Run(s, schedule).nodes);
  }

  lemma {:induction false} DrainReadIdle(s: State, schedule: seq<(nat, Action)>, d: nat) returns (m: nat)
    requires Initial(s) && d < |Run(s, schedule).threads|
    requires Run(s, schedule).threads[d].pc == Drained(true) || Run(s, schedule).threads[d].pc.IdleTwice?
    ensures m < |schedule| && Calm(Run(s, schedule[..m])) && AllParked(Run(s, schedule[..m]))
  {
    var last := |schedule| - 1;
    var before := Run(s, schedule[..last]);
    var (t, a) := schedule[last];
    ActKeepsThreads(before, t, a);
    SuccessNeedsIdleRead(before, d, t, a);
    if before.threads[d].pc.IdleOnce? {
      m := last;
      IdleReadIsCalm(s, schedule[..m], d);
    } else {
      m := DrainReadIdle(s, schedule[..last], d);
      assert schedule[..last][..m] == schedule[..m];
    }
  }

  /**
   When a drain has returned true, there was a moment after its timers were quiesced
   at which no work was counted. From that moment on, as long as no thread outside
   the workers and timers notifies, every node stays parked and no claim happens.
   */
  lemma {:induction false} DrainFoundQuiescence(s: State, schedule: seq<(nat, Action)>, d: nat) returns (m: nat)
    requires Initial(s) && d < |Run(s, schedule).threads| && Run(s, schedule).threads[d].pc == Drained(true)
    ensures m < |schedule| && Calm(Run(s, schedule[..m])) && AllParked(Run(s, schedule[..m]))
    ensures NoneOutside(Run(s, schedule[..m]), schedule[m..]) ==>
      && AllParked(Run(s, schedule))
      && Run(s, schedule).trace == Run(s, schedule[..m]).trace
  {
    m := DrainReadIdle(s, schedule, d);
    RunSplits(s, schedule, m);
    if NoneOutside(Run(s, schedule[..m]), schedule[m..]) {
      CalmLasts(Run(s, schedule[..m]), schedule[m..]);
    }
  }

  /** After a calm moment no claim ever follows without an outside notification, however long the run continues. */
  lemma {:induction false} NoClaimAfterQuiescence(s: State, before: seq<(nat, Action)>, after: seq<(nat, Action)>)
    requires Initial(s) && Calm(Run(s, before)) && NoneOutside(Run(s, before), after)
    ensures Run(Run(s, before), after).trace == Run(s, before).trace
    ensures AllParked(Run(Run(s, before), after))
  {
    CalmLasts(Run(s, before), after);
    ParkedMeansNoneBusy(Run(s, before).nodes);
  }
}
