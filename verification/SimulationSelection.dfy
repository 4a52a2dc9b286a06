/** Which ready callbacks a step of the simulation selects. */
module SimulationSelection {
  import opened Basics
  import opened StableSort
  import opened Simulation

  /** Ordered by the time of readiness, then by index. */
  ghost predicate Ranked(s: seq<Candidate>) {
    forall i, j :: 0 <= i < j < |s| ==>
      s[i].since < s[j].since || (s[i].since == s[j].since && s[i].index < s[j].index)
  }

  lemma {:induction false} CandidatesAreReady(nodes: seq<Node>, x: Candidate)
    ensures x in Candidates(nodes) <==> x.index < |nodes| && nodes[x.index].readySince == Some(x.since)
  {
    if nodes != [] {
      CandidatesAreReady(nodes[..|nodes| - 1], x);
    }
  }

  /** Inserting a candidate of the highest index keeps the ranking. */
  lemma {:induction false} InsertRanks(s: seq<Candidate>, x: Candidate)
    requires Ranked(s) && forall k :: 0 <= k < |s| ==> s[k].index < x.index
    ensures Ranked(Insert(s, x, SinceOf))
  {
    if s != [] && s[|s| - 1].since > x.since {
      var shorter, last := s[..|s| - 1], s[|s| - 1];
      InsertRanks(shorter, x);
      var r := Insert(shorter, x, SinceOf);
      forall i | 0 <= i < |r| ensures r[i] == x || r[i] in shorter {
        InsertMembers(shorter, x, SinceOf, r[i]);
      }
    }
  }

  /** Sorting the candidates gives the ready nodes by (ready since, index). */
  lemma {:induction false} SortRanks(nodes: seq<Node>)
    ensures Ranked(SortBy(Candidates(nodes), SinceOf))
  {
    if nodes != [] {
      var shorter := nodes[..|nodes| - 1];
      SortRanks(shorter);
      if nodes[|nodes| - 1].readySince.Some? {
        var sorted, x := SortBy(Candidates(shorter), SinceOf), Candidate(nodes[|nodes| - 1].readySince.value, |nodes| - 1);
        forall k | 0 <= k < |sorted| ensures sorted[k].index < x.index {
          SortMembers(Candidates(shorter), SinceOf, sorted[k]);
          CandidatesAreReady(shorter, sorted[k]);
        }
        assert Candidates(nodes)[..|Candidates(nodes)| - 1] == Candidates(shorter);
        InsertRanks(sorted, x);
      } else {
        assert Candidates(nodes) == Candidates(shorter);
      }
    }
  }

  lemma {:induction false} SortedAreReady(nodes: seq<Node>, k: nat)
    requires k < |SortBy(Candidates(nodes), SinceOf)|
    ensures var x := SortBy(Candidates(nodes), SinceOf)[k];
      x.index < |nodes| && nodes[x.index].readySince == Some(x.since)
  {
    var sorted := SortBy(Candidates(nodes), SinceOf);
    SortMembers(Candidates(nodes), SinceOf, sorted[k]);
    CandidatesAreReady(nodes, sorted[k]);
  }

  // ---------------------------------------------------------------- the greedy choice

  function IndicesOf(s: seq<Candidate>): (r: seq<nat>)
    ensures |r| == |s| && forall k :: 0 <= k < |s| ==> r[k] == s[k].index
  {
    seq(|s|, k requires 0 <= k < |s| => s[k].index)
  }

  /** The chosen or ranked nodes of one pool, in order. */
  function Of(s: seq<nat>, poolOf: seq<nat>, pool: nat): seq<nat> {
    if s == [] then []
    else
      var last := s[|s| - 1];
      Of(s[..|s| - 1], poolOf, pool) + if last < |poolOf| && poolOf[last] == pool then [last] else []
  }

  lemma {:induction false} InPoolCounts(s: seq<nat>, poolOf: seq<nat>, pool: nat)
    ensures InPool(s, poolOf, pool) == |Of(s, poolOf, pool)|
  {
    if s != [] {
      InPoolCounts(s[..|s| - 1], poolOf, pool);
    }
  }

  /** In every pool the choice takes the front of the ranking, as far as the free threads go. */
  lemma {:induction false} ChoiceTakesFront(candidates: seq<Candidate>, poolOf: seq<nat>, free: nat -> int, pool: nat)
    requires free(pool) >= 0
    ensures var ranked := Of(IndicesOf(candidates), poolOf, pool);
      Of(Choose(candidates, poolOf, free), poolOf, pool) == ranked[..Min(free(pool), |ranked|)]
  {
    if candidates != [] {
      var shorter, last := candidates[..|candidates| - 1], candidates[|candidates| - 1];
      ChoiceTakesFront(shorter, poolOf, free, pool);
      var chosen := Choose(shorter, poolOf, free);
      assert IndicesOf(candidates)[..|candidates| - 1] == IndicesOf(shorter);
      assert (chosen + [last.index])[..|chosen|] == chosen;
      InPoolCounts(chosen, poolOf, pool);
    }
  }

  lemma {:induction false} ChosenAreCandidates(candidates: seq<Candidate>, poolOf: seq<nat>, free: nat -> int)
    ensures forall i :: i in Choose(candidates, poolOf, free) ==> i < |poolOf| && i in IndicesOf(candidates)
  {
    if candidates != [] {
      var shorter := candidates[..|candidates| - 1];
      ChosenAreCandidates(shorter, poolOf, free);
      assert IndicesOf(candidates) == IndicesOf(shorter) + [candidates[|candidates| - 1].index];
    }
  }

  lemma {:induction false} ChosenAreDistinct(candidates: seq<Candidate>, poolOf: seq<nat>, free: nat -> int)
    requires Distinct(IndicesOf(candidates))
    ensures Distinct(Choose(candidates, poolOf, free))
  {
    if candidates != [] {
      var shorter, last := candidates[..|candidates| - 1], candidates[|candidates| - 1];
      assert IndicesOf(candidates) == IndicesOf(shorter) + [last.index];
      forall i, j | 0 <= i < j < |IndicesOf(shorter)| ensures IndicesOf(shorter)[i] != IndicesOf(shorter)[j] {
        assert IndicesOf(candidates)[i] != IndicesOf(candidates)[j];
      }
      ChosenAreDistinct(shorter, poolOf, free);
      ChosenAreCandidates(shorter, poolOf, free);
      forall i | 0 <= i < |IndicesOf(shorter)| ensures IndicesOf(shorter)[i] != last.index {
        assert IndicesOf(candidates)[i] != IndicesOf(candidates)[|shorter|];
      }
      var chosen := Choose(shorter, poolOf, free);
      forall i | 0 <= i < |chosen| ensures chosen[i] != last.index {
        assert chosen[i] in chosen;
      }
    }
  }

  lemma {:induction false} RankedAreDistinct(nodes: seq<Node>)
    ensures Distinct(IndicesOf(SortBy(Candidates(nodes), SinceOf)))
  {
    var sorted := SortBy(Candidates(nodes), SinceOf);
    SortRanks(nodes);
    forall i, j | 0 <= i < j < |sorted| ensures IndicesOf(sorted)[i] != IndicesOf(sorted)[j] {
      SortedAreReady(nodes, i);
      SortedAreReady(nodes, j);
    }
  }

  /** Selection: distinct nodes, each ready; in each pool the smallest (ready since, index), never more than are free. */
  lemma {:induction false} SelectionIsSound(c: Config, nodes: seq<Node>, time: Time)
    requires Configured(c, nodes)
    ensures var selected := Selected(c, nodes, time);
      Distinct(selected) && forall i :: i in selected ==> i < |nodes| && nodes[i].readySince.Some?
  {
    var sorted := SortBy(Candidates(nodes), SinceOf);
    RankedAreDistinct(nodes);
    ChosenAreDistinct(sorted, c.poolOf, FreeIn(c, nodes, time));
    ChosenAreCandidates(sorted, c.poolOf, FreeIn(c, nodes, time));
    forall i | i in Selected(c, nodes, time) ensures i < |nodes| && nodes[i].readySince.Some? {
      var k :| 0 <= k < |sorted| && IndicesOf(sorted)[k] == i;
      SortedAreReady(nodes, k);
    }
  }

  lemma {:induction false} SelectionTakesSmallest(c: Config, nodes: seq<Node>, time: Time, pool: nat)
    requires Configured(c, nodes) && pool < |c.pools| && Free(c, nodes, time, pool) >= 0
    ensures Ranked(SortBy(Candidates(nodes), SinceOf))
    ensures var ranked := Of(IndicesOf(SortBy(Candidates(nodes), SinceOf)), c.poolOf, pool);
      Of(Selected(c, nodes, time), c.poolOf, pool) == ranked[..Min(Free(c, nodes, time, pool), |ranked|)]
  {
    SortRanks(nodes);
    ChoiceTakesFront(SortBy(Candidates(nodes), SinceOf), c.poolOf, FreeIn(c, nodes, time), pool);
  }

  lemma {:induction false} OfMember(s: seq<nat>, poolOf: seq<nat>, pool: nat, i: nat)
    ensures i in Of(s, poolOf, pool) <==> i in s && i < |poolOf| && poolOf[i] == pool
  {
    if s != [] {
      OfMember(s[..|s| - 1], poolOf, pool, i);
      assert s == s[..|s| - 1] + [s[|s| - 1]];
    }
  }

  lemma {:induction false} RunnableIsSelected(c: Config, nodes: seq<Node>, time: Time, i: nat)
    requires Configured(c, nodes) && i < |nodes| && nodes[i].readySince.Some? && Free(c, nodes, time, c.poolOf[i]) > 0
    ensures Selected(c, nodes, time) != []
  {
    var sorted, pool := SortBy(Candidates(nodes), SinceOf), c.poolOf[i];
    SelectionTakesSmallest(c, nodes, time, pool);
    var x := Candidate(nodes[i].readySince.value, i);
    CandidatesAreReady(nodes, x);
    SortMembers(Candidates(nodes), SinceOf, x);
    var k :| 0 <= k < |sorted| && sorted[k] == x;
    assert IndicesOf(sorted)[k] == i;
    OfMember(IndicesOf(sorted), c.poolOf, pool, i);
    assert Of(Selected(c, nodes, time), c.poolOf, pool) != [];
  }

  lemma {:induction false} SelectedIsRunnable(c: Config, nodes: seq<Node>, time: Time)
    requires Configured(c, nodes) && Selected(c, nodes, time) != []
    requires forall pool :: 0 <= pool < |c.pools| ==> Free(c, nodes, time, pool) >= 0
    ensures Runnable(c, nodes, time)
  {
    SelectionIsSound(c, nodes, time);
    var i := Selected(c, nodes, time)[0];
    assert i in Selected(c, nodes, time);
    SelectionTakesSmallest(c, nodes, time, c.poolOf[i]);
    OfMember(Selected(c, nodes, time), c.poolOf, c.poolOf[i], i);
    assert Free(c, nodes, time, c.poolOf[i]) != 0;
  }

  /** Something is selected exactly when some ready node's pool has a free thread. */
  lemma {:induction false} SelectsWhenRunnable(c: Config, nodes: seq<Node>, time: Time)
    requires Configured(c, nodes) && forall pool :: 0 <= pool < |c.pools| ==> Free(c, nodes, time, pool) >= 0
    ensures Selected(c, nodes, time) != [] <==> Runnable(c, nodes, time)
  {
    if Runnable(c, nodes, time) {
      var i :| 0 <= i < |nodes| && nodes[i].readySince.Some? && Free(c, nodes, time, c.poolOf[i]) != 0;
      RunnableIsSelected(c, nodes, time, i);
    }
    if Selected(c, nodes, time) != [] {
      SelectedIsRunnable(c, nodes, time);
    }
  }
}
