/** Triggers are never lost, whatever the coalescing and the failed compare-and-swaps. */
module LiveSchedulerTriggers {
  import opened LiveScheduler

  predicate Concerns(e: Event, n: nat) {
    e == Claimed(n) || (e.Released? && e.node == n)
  }

  /** The trigger at `i` was followed by a claim whose run was released as executed. */
  ghost predicate Served(trace: seq<Event>, n: nat, i: nat) {
    exists j, k :: i < j < k < |trace| && ServedBy(trace, n, j, k)
  }

  ghost predicate ServedBy(trace: seq<Event>, n: nat, j: nat, k: nat)
    requires j < k < |trace|
  {
    trace[j] == Claimed(n) && trace[k] == Released(n, true) && forall m :: j < m < k ==> !Concerns(trace[m], n)
  }

  ghost predicate AllServed(trace: seq<Event>, n: nat) {
    forall i :: 0 <= i < |trace| && trace[i] == Triggered(n) ==> Served(trace, n, i)
  }

  /** `c` is the claim of the run in progress. */
  ghost predicate Current(trace: seq<Event>, n: nat, c: nat) {
    c < |trace| && trace[c] == Claimed(n) && forall m :: c < m < |trace| ==> !Concerns(trace[m], n)
  }

  ghost predicate TriggeredBefore(trace: seq<Event>, n: nat, c: nat) {
    forall i :: 0 <= i < |trace| && trace[i] == Triggered(n) ==> i < c
  }

  ghost predicate TraceAt(status: Status, trace: seq<Event>, n: nat) {
    match status
    case Idle => AllServed(trace, n)
    case Running => exists c :: Current(trace, n, c) && TriggeredBefore(trace, n, c)
    case ReadinessChanged => exists c :: Current(trace, n, c) && TriggeredBefore(trace, n, c)
    case Retriggered => exists c :: Current(trace, n, c)
    case _ => true
  }

  ghost predicate TraceInvariant(s: State) {
    forall n :: 0 <= n < |s.nodes| ==> TraceAt(s.nodes[n].status, s.trace, n)
  }

  predicate Legal(n: nat, status: Status, next: Status, events: seq<Event>) {
    || (next == NotifyNext(status, true) && events == [Triggered(n)])
    || (next == NotifyNext(status, false) && events == [])
    || (status.Queued? && next.Running? && events == [Claimed(n)])
    || (RunLike(status) && next == FinishNext(status, true) && events == [Released(n, true)])
    || (RunLike(status) && next == FinishNext(status, false) && events == [Released(n, false)])
  }

  lemma {:induction false} NextIsLegal(s: State, t: nat, a: Action)
    requires t < |s.threads| && Next(s, t, a).Some?
    ensures var change := Next(s, t, a).value.0;
      change.Swap? ==> Legal(change.node, s.nodes[change.node].status, change.status, change.events)
  {
  }

  lemma {:induction false} StrangersKeepTrace(status: Status, trace: seq<Event>, n: nat, events: seq<Event>)
    requires TraceAt(status, trace, n) && |events| <= 1 && (events != [] ==> events[0].node != n)
    ensures TraceAt(status, trace + events, n)
  {
    var longer := trace + events;
    if status.Idle? {
      forall i | 0 <= i < |longer| && longer[i] == Triggered(n) ensures Served(longer, n, i) {
        var j, k :| i < j < k < |trace| && ServedBy(trace, n, j, k);
        assert ServedBy(longer, n, j, k);
      }
    } else if status.Retriggered? {
      var c :| Current(trace, n, c);
      assert Current(longer, n, c);
    } else if status.Running? || status.ReadinessChanged? {
      var c :| Current(trace, n, c) && TriggeredBefore(trace, n, c);
      assert Current(longer, n, c) && TriggeredBefore(longer, n, c);
    }
  }

  lemma {:induction false} LegalKeepsTrace(n: nat, status: Status, trace: seq<Event>, next: Status, events: seq<Event>)
    requires TraceAt(status, trace, n) && Legal(n, status, next, events)
    ensures TraceAt(next, trace + events, n)
  {
    var longer := trace + events;
    if events == [] {
      assert longer == trace;
    } else if events == [Claimed(n)] {
      assert Current(longer, n, |trace|) && TriggeredBefore(longer, n, |trace|);
    } else if RunLike(status) {
      var c :| Current(trace, n, c) && (!status.Retriggered? ==> TriggeredBefore(trace, n, c));
      if events == [Triggered(n)] {
        assert Current(longer, n, c);
      } else if next.Idle? {
        assert ServedBy(longer, n, c, |trace|);
      }
    }
  }

  lemma {:induction false} LandKeepsTrace(s: State, t: nat, change: Change, pc: Pc)
    requires TraceInvariant(s) && t < |s.threads| && Fits(s, change)
    requires change.Swap? ==> Legal(change.node, s.nodes[change.node].status, change.status, change.events)
    ensures TraceInvariant(Land(s, t, change, pc))
  {
    var s' := Land(s, t, change, pc);
    forall n | 0 <= n < |s'.nodes| ensures TraceAt(s'.nodes[n].status, s'.trace, n) {
      assert TraceAt(s.nodes[n].status, s.trace, n);
      if change.Swap? {
        if change.node == n {
          LegalKeepsTrace(n, s.nodes[n].status, s.trace, change.status, change.events);
        } else {
          StrangersKeepTrace(s.nodes[n].status, s.trace, n, change.events);
        }
      } else {
        assert s'.trace == s.trace;
      }
    }
  }

  lemma {:induction false} RunKeepsTrace(s: State, schedule: seq<(nat, Action)>)
    requires Initial(s)
    ensures TraceInvariant(Run(s, schedule))
  {
    if schedule != [] {
      var last := |schedule| - 1;
      RunKeepsTrace(s, schedule[..last]);
      var before := Run(s, schedule[..last]);
      var (t, a) := schedule[last];
      if t < |before.threads| && !before.fault && Next(before, t, a).Some? {
        var (change, pc) := Next(before, t, a).value;
        NextIsLegal(before, t, a);
        LandKeepsTrace(before, t, change, pc);
      }
    }
  }

  /** In every interleaving, an idle node owes nothing: each trigger was followed by a claim whose run executed. */
  lemma {:induction false} TriggersAreServed(s: State, schedule: seq<(nat, Action)>, n: nat, i: nat)
    requires Initial(s) && n < |Run(s, schedule).nodes| && Run(s, schedule).nodes[n].status.Idle?
    requires i < |Run(s, schedule).trace| && Run(s, schedule).trace[i] == Triggered(n)
    ensures Served(Run(s, schedule).trace, n, i)
  {
    RunKeepsTrace(s, schedule);
    assert TraceAt(Run(s, schedule).nodes[n].status, Run(s, schedule).trace, n);
  }
}
