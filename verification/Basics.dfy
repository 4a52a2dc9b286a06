/** Datatypes and counting facts shared by the other modules. */
module Basics {

  datatype Option<+T> = None | Some(value: T)

  datatype Result<+T, +E> = Ok(value: T) | Err(error: E)

  const USIZE_MAX: nat := 0xFFFF_FFFF_FFFF_FFFF
  const U32_MAX: nat := 0xFFFF_FFFF

  function Bit(b: bool): nat { if b then 1 else 0 }

  function Min(a: int, b: int): int {
    if a <= b then a else b
  }

  function Max(a: int, b: int): int {
    if a <= b then b else a
  }

  ghost function Range(n: nat): (r: set<nat>)
    ensures |r| == n
    ensures forall i: nat :: i in r <==> i < n
  {
    if n == 0 then {} else Range(n - 1) + {n - 1}
  }

  ghost predicate Distinct<T>(s: seq<T>) {
    forall i, j :: 0 <= i < j < |s| ==> s[i] != s[j]
  }

  /** A sequence without repetitions is no longer than any set it draws from. */
  lemma {:induction false} DistinctFits<T>(s: seq<T>, universe: set<T>)
    requires Distinct(s)
    requires forall i :: 0 <= i < |s| ==> s[i] in universe
    ensures |s| <= |universe|
  {
    if s != [] {
      var last := s[|s| - 1];
      DistinctFits(s[..|s| - 1], universe - {last});
    }
  }

  lemma TwiceCounted<T>(s: seq<T>, i: nat, j: nat)
    requires i < j < |s| && s[i] == s[j]
    ensures multiset(s)[s[i]] >= 2
  {
    var before, after := s[..j], s[j..];
    assert s == before + after;
    assert s[i] == before[i] && s[i] == after[0];
  }

  /** A count of at most one for every element means no repetition. */
  lemma CountsMakeDistinct<T>(s: seq<T>)
    requires forall i :: 0 <= i < |s| ==> multiset(s)[s[i]] <= 1
    ensures Distinct(s)
  {
    forall i, j | 0 <= i < j < |s| ensures s[i] != s[j] {
      if s[i] == s[j] {
        TwiceCounted(s, i, j);
        assert false;
      }
    }
  }

  lemma ConcatAssociates<T>(a: seq<T>, b: seq<T>, c: seq<T>)
    ensures a + b + c == a + (b + c)
  {
  }

  /** How many elements have the key. */
  function Count<T>(s: seq<T>, key: T -> int, k: int): nat {
    if s == [] then 0 else Count(s[..|s| - 1], key, k) + Bit(key(s[|s| - 1]) == k)
  }

  lemma {:induction false} CountConcat<T>(a: seq<T>, b: seq<T>, key: T -> int, k: int)
    ensures Count(a + b, key, k) == Count(a, key, k) + Count(b, key, k)
  {
    if b == [] {
      assert a + b == a;
    } else {
      CountConcat(a, b[..|b| - 1], key, k);
      assert (a + b)[..|a + b| - 1] == a + b[..|b| - 1];
    }
  }
}
