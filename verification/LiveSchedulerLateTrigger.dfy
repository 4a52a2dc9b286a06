/**
 When a drain that returns true is right: exactly when no second thread outside the
 workers and timers can trigger a node behind its back.
 */
module LiveSchedulerLateTrigger {
  import opened Basics
  import opened LiveScheduler
  import opened LiveSchedulerShape
  import opened LiveSchedulerDrain

  /** Whenever a drain has just returned true, every node is parked. */
  ghost predicate DrainIsRight(s: State) {
    forall schedule, d :: DrainedWell(s, schedule, d)
  }

  ghost predicate DrainedWell(s: State, schedule: seq<(nat, Action)>, d: nat) {
    d < |Run(s, schedule).threads| && Run(s, schedule).threads[d].pc == Drained(true) ==> AllParked(Run(s, schedule))
  }

  ghost predicate AtMostOneOutside(s: State) {
    forall t, u :: 0 <= t < u < |s.threads| ==> !(s.threads[t].role.Outside? && s.threads[u].role.Outside?)
  }

  // ---------------------------------------------------------------- one outside thread

  lemma {:induction false} RunKeepsDeclarations(s: State, schedule: seq<(nat, Action)>)
    ensures SameDeclarations(s, Run(s, schedule))
  {
    if schedule != [] {
      var last := |schedule| - 1;
      RunKeepsDeclarations(s, schedule[..last]);
      var before := Run(s, schedule[..last]);
      var (t, a) := schedule[last];
      if t < |before.threads| && !before.fault && Next(before, t, a).Some? {
        LandKeepsDeclarations(before, t, Next(before, t, a).value.0, Next(before, t, a).value.1);
      }
    }
  }

  /** While the only outside thread drains, nobody notifies from outside. */
  lemma {:induction false} DrainerDoesNotNotify(s: State, d: nat, t: nat, a: Action)
    requires AtMostOneOutside(s) && d < |s.threads| && ThreadSound(s, s.threads[d])
    requires s.threads[d].pc.IdleOnce? || s.threads[d].pc.IdleTwice? || s.threads[d].pc.Drained?
    ensures !OutsideNotifies(s, t, a)
  {
  }

  /** With at most one outside thread, a drain that has read idle twice leaves a calm state. */
  lemma {:induction false} SoleDrainIsCalm(s: State, schedule: seq<(nat, Action)>, d: nat)
    requires Initial(s) && AtMostOneOutside(s) && d < |Run(s, schedule).threads|
    requires Run(s, schedule).threads[d].pc.IdleTwice? || Run(s, schedule).threads[d].pc == Drained(true)
    ensures Calm(Run(s, schedule)) && AllParked(Run(s, schedule))
  {
    var last := |schedule| - 1;
    var before := Run(s, schedule[..last]);
    var (t, a) := schedule[last];
    ActKeepsThreads(before, t, a);
    SuccessNeedsIdleRead(before, d, t, a);
    if before.threads[d].pc.IdleOnce? {
      IdleReadIsCalm(s, schedule[..last], d);
    } else {
      SoleDrainIsCalm(s, schedule[..last], d);
    }
    RunKeepsDeclarations(s, schedule[..last]);
    DrainerDoesNotNotify(before, d, t, a);
    CalmStays(before, t, a);
  }

  // ---------------------------------------------------------------- two outside threads

  ghost predicate Reaches(s: State, s': State) {
    exists schedule :: Run(s, schedule) == s'
  }

  lemma {:induction false} ReachesSelf(s: State)
    ensures Reaches(s, s)
  {
    assert Run(s, []) == s;
  }

  lemma {:induction false} ReachesNext(s: State, s': State, t: nat, a: Action)
    requires Reaches(s, s')
    ensures Reaches(s, Act(s', t, a))
  {
    var schedule :| Run(s, schedule) == s';
    assert (schedule + [(t, a)])[..|schedule|] == schedule;
    assert Run(s, schedule + [(t, a)]) == Act(s', t, a);
  }

  /** The state with one thread moved. */
  function Moved(s: State, t: nat, pc: Pc): State
    requires t < |s.threads|
  {
    s.(threads := s.threads[t := Thread(Outside, pc)])
  }

  lemma {:induction false} OutsideMoves(s0: State, s: State, t: nat, a: Action, change: Change, pc: Pc)
    requires Reaches(s0, s) && t < |s.threads| && !s.fault && s.threads[t].role.Outside? && CallOf(s.threads[t].pc).None?
    requires OutsideStep(s, t, s.threads[t].pc, a) == Some((change, pc))
    ensures Fits(s, change) && Reaches(s0, Moved(Apply(s, change), t, pc))
  {
    assert Act(s, t, a) == Land(s, t, change, pc);
    ReachesNext(s0, s, t, a);
  }

  lemma {:induction false} CallMoves(s0: State, s: State, t: nat, c: Call, change: Change, c': Call)
    requires Reaches(s0, s) && t < |s.threads| && !s.fault && s.threads[t] == Thread(Outside, Calling(c))
    requires CallFits(s, c) && CallStep(s, c, false) == (change, Some(c'))
    ensures Fits(s, change) && Reaches(s0, Moved(Apply(s, change), t, Calling(c')))
  {
    assert Act(s, t, Advance(false)) == Land(s, t, change, Calling(c'));
    ReachesNext(s0, s, t, Advance(false));
  }

  /** Two outside threads at rest, and a node to trigger. */
  predicate Racing(s: State, d: nat, u: nat) {
    && Initial(s) && |s.nodes| > 0 && d < |s.threads| && u < |s.threads| && d != u
    && s.threads[d].role.Outside? && s.threads[u].role.Outside?
  }

  /** Thread `d` holds the timer lock and has asked `i` nodes for due timers. */
  function Asking(s: State, d: nat, i: nat): State
    requires d < |s.threads|
  {
    Moved(s.(lock := Some(d)), d, Scanning(i, None))
  }

  lemma {:induction false} ScanAdvances(s0: State, s: State, d: nat, i: nat)
    requires d < |s.threads| && i < |s.nodes| && s.timersEnabled && !s.fault && Reaches(s0, Asking(s, d, i))
    ensures Reaches(s0, Asking(s, d, i + 1))
  {
    OutsideMoves(s0, Asking(s, d, i), d, Advance(false), Keep, Scanning(i + 1, None));
    assert Moved(Asking(s, d, i), d, Scanning(i + 1, None)) == Asking(s, d, i + 1);
  }

  lemma {:induction false} ScanBegins(s: State, d: nat)
    requires d < |s.threads| && s.threads[d] == Thread(Outside, Rest) && s.lock.None? && !s.fault
    ensures Reaches(s, Asking(s, d, 0))
  {
    ReachesSelf(s);
    OutsideMoves(s, s, d, BeginDrain, Acquire(d), Scanning(0, None));
  }

  lemma {:induction false} Scans(s: State, d: nat, i: nat)
    requires d < |s.threads| && s.threads[d] == Thread(Outside, Rest) && s.lock.None? && !s.fault
    requires s.timersEnabled && i <= |s.nodes|
    ensures Reaches(s, Asking(s, d, i))
  {
    if i == 0 {
      ScanBegins(s, d);
    } else {
      Scans(s, d, i - 1);
      ScanAdvances(s, s, d, i - 1);
    }
  }

  function Quiesced(s: State): State { s.(timersEnabled := false, lock := None) }

  lemma {:induction false} Polls(s: State, d: nat, u: nat)
    requires Racing(s, d, u)
    ensures Reaches(s, Moved(Quiesced(s), d, Polling))
  {
    Scans(s, d, |s.nodes|);
    var before := Asking(s, d, |s.nodes|);
    OutsideMoves(s, before, d, Advance(false), DisableTimers, Polling);
    assert Moved(Apply(before, DisableTimers), d, Polling) == Moved(Quiesced(s), d, Polling);
  }

  /** A step of the drain that only reads. */
  lemma {:induction false} DrainReads(s0: State, s: State, d: nat, pc: Pc, pc': Pc)
    requires d < |s.threads| && Reaches(s0, Moved(s, d, pc)) && !s.fault && CallOf(pc).None?
    requires OutsideStep(Moved(s, d, pc), d, pc, Advance(false)) == Some((Keep, pc'))
    ensures Reaches(s0, Moved(s, d, pc'))
  {
    OutsideMoves(s0, Moved(s, d, pc), d, Advance(false), Keep, pc');
    assert Moved(Moved(s, d, pc), d, pc') == Moved(s, d, pc');
  }

  /** A quiet drain polls, samples `completed` and reads `active` twice. */
  lemma {:induction false} PollsToTheEnd(s0: State, s: State, d: nat)
    requires d < |s.threads| && !s.fault && !s.stopped && s.active == 0 && s.completed == 0
    requires Reaches(s0, Moved(s, d, Polling))
    ensures Reaches(s0, Moved(s, d, IdleTwice(0)))
  {
    DrainReads(s0, s, d, Polling, Sampling);
    DrainReads(s0, s, d, Sampling, Epoch(0));
    DrainReads(s0, s, d, Epoch(0), IdleOnce(0));
    DrainReads(s0, s, d, IdleOnce(0), IdleTwice(0));
  }

  lemma {:induction false} ReadsIdleTwice(s: State, d: nat, u: nat)
    requires Racing(s, d, u)
    ensures Reaches(s, Moved(Quiesced(s), d, IdleTwice(0)))
  {
    Polls(s, d, u);
    PollsToTheEnd(s, Quiesced(s), d);
  }

  /** The drain has read idle twice and the other thread is at `pc`. */
  function Late(s: State, d: nat, u: nat, pc: Pc): State
    requires d < |s.threads| && u < |s.threads|
  {
    Moved(Moved(Quiesced(s), d, IdleTwice(0)), u, pc)
  }

  lemma {:induction false} TriggerLoads(s: State, d: nat, u: nat)
    requires Racing(s, d, u)
    ensures Reaches(s, Late(s, d, u, Calling(Decide(0, true, Idle))))
  {
    ReadsIdleTwice(s, d, u);
    var p := Moved(Quiesced(s), d, IdleTwice(0));
    OutsideMoves(s, p, u, Begin(Check(0, true)), Keep, Calling(Check(0, true)));
    CallMoves(s, Late(s, d, u, Calling(Check(0, true))), u, Check(0, true), Keep, Load(0, true));
    assert Moved(Late(s, d, u, Calling(Check(0, true))), u, Calling(Load(0, true))) == Late(s, d, u, Calling(Load(0, true)));
    CallMoves(s, Late(s, d, u, Calling(Load(0, true))), u, Load(0, true), Keep, Decide(0, true, Idle));
    assert Moved(Late(s, d, u, Calling(Load(0, true))), u, Calling(Decide(0, true, Idle)))
        == Late(s, d, u, Calling(Decide(0, true, Idle)));
  }

  lemma {:induction false} TriggerSwaps(s: State, d: nat, u: nat) returns (s': State)
    requires Racing(s, d, u)
    ensures Reaches(s, s') && |s'.threads| == |s.threads| && s'.threads[d] == Thread(Outside, IdleTwice(0))
    ensures s'.completed == 0 && !s'.fault && |s'.nodes| > 0 && s'.nodes[0].status.Queued?
  {
    TriggerLoads(s, d, u);
    var deciding := Late(s, d, u, Calling(Decide(0, true, Idle)));
    CallMoves(s, deciding, u, Decide(0, true, Idle), Count, Counted(0, true, Idle));
    var counted := Moved(Apply(deciding, Count), u, Calling(Counted(0, true, Idle)));
    CallMoves(s, counted, u, Counted(0, true, Idle), Swap(0, Queued, [Triggered(0)]), Send(0));
    s' := Moved(Apply(counted, Swap(0, Queued, [Triggered(0)])), u, Calling(Send(0)));
  }

  /** A trigger after the second idle read escapes the drain: it returns true while a node is queued. */
  lemma {:induction false} DrainMissesLateTrigger(s: State, d: nat, u: nat) returns (schedule: seq<(nat, Action)>)
    requires Racing(s, d, u)
    ensures d < |Run(s, schedule).threads| && Run(s, schedule).threads[d].pc == Drained(true)
    ensures !AllParked(Run(s, schedule))
  {
    var late := TriggerSwaps(s, d, u);
    OutsideMoves(s, late, d, Advance(false), Keep, Drained(true));
    schedule :| Run(s, schedule) == Moved(late, d, Drained(true));
  }

  /**
   A drain that returns true is right in every interleaving if and only if there is nothing to
   run or at most one thread outside the workers and timers.
   */
  lemma {:induction false} DrainIsRightExactly(s: State)
    requires Initial(s)
    ensures DrainIsRight(s) <==> s.nodes == [] || AtMostOneOutside(s)
  {
    if s.nodes != [] && !AtMostOneOutside(s) {
      var t, u :| 0 <= t < u < |s.threads| && s.threads[t].role.Outside? && s.threads[u].role.Outside?;
      var schedule := DrainMissesLateTrigger(s, t, u);
      assert !DrainedWell(s, schedule, t);
    } else {
      forall schedule, d: nat ensures DrainedWell(s, schedule, d) {
        if d < |Run(s, schedule).threads| && Run(s, schedule).threads[d].pc == Drained(true) {
          if s.nodes == [] {
            RunKeepsDeclarations(s, schedule);
          } else {
            SoleDrainIsCalm(s, schedule, d);
          }
        }
      }
    }
  }
}
