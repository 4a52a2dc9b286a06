/** The stable sort by an integer key that the log sorter, the batch runner and the simulation rely on. */
module StableSort {

  ghost predicate SortedBy<T>(s: seq<T>, key: T -> int) {
    forall i, j :: 0 <= i < j < |s| ==> key(s[i]) <= key(s[j])
  }

  /** The elements with one key, in their order of appearance. */
  function WithKey<T>(s: seq<T>, key: T -> int, k: int): seq<T> {
    if s == [] then [] else WithKey(s[..|s| - 1], key, k) + if key(s[|s| - 1]) == k then [s[|s| - 1]] else []
  }

  /** Sorted, with equal elements in the order they had in `s`. */
  ghost predicate IsStableSort<T>(r: seq<T>, s: seq<T>, key: T -> int) {
    SortedBy(r, key) && forall k :: WithKey(r, key, k) == WithKey(s, key, k)
  }

  /** Inserts behind every element whose key is not greater. */
  function Insert<T>(s: seq<T>, x: T, key: T -> int): seq<T> {
    if s == [] || key(s[|s| - 1]) <= key(x) then s + [x]
    else Insert(s[..|s| - 1], x, key) + [s[|s| - 1]]
  }

  function SortBy<T>(s: seq<T>, key: T -> int): seq<T> {
    if s == [] then [] else Insert(SortBy(s[..|s| - 1], key), s[|s| - 1], key)
  }

  // ---------------------------------------------------------------- elements with one key

  lemma {:induction false} WithKeyConcat<T>(a: seq<T>, b: seq<T>, key: T -> int, k: int)
    ensures WithKey(a + b, key, k) == WithKey(a, key, k) + WithKey(b, key, k)
  {
    if b == [] {
      assert a + b == a;
    } else {
      WithKeyConcat(a, b[..|b| - 1], key, k);
      assert (a + b)[..|a + b| - 1] == a + b[..|b| - 1];
    }
  }

  lemma {:induction false} WithKeyOne<T>(x: T, key: T -> int, k: int)
    ensures WithKey([x], key, k) == if key(x) == k then [x] else []
  {
    assert [x][..0] == [];
  }

  lemma {:induction false} NoneWithKey<T>(s: seq<T>, key: T -> int, k: int)
    requires forall i :: 0 <= i < |s| ==> key(s[i]) != k
    ensures WithKey(s, key, k) == []
  {
    if s != [] {
      NoneWithKey(s[..|s| - 1], key, k);
    }
  }

  lemma {:induction false} SomeWithKey<T>(s: seq<T>, key: T -> int, i: nat)
    requires i < |s|
    ensures WithKey(s, key, key(s[i])) != []
  {
    if i < |s| - 1 {
      SomeWithKey(s[..|s| - 1], key, i);
    }
  }

  lemma {:induction false} AllWithKey<T>(s: seq<T>, key: T -> int, k: int)
    requires forall i :: 0 <= i < |s| ==> key(s[i]) == k
    ensures WithKey(s, key, k) == s
  {
    if s != [] {
      AllWithKey(s[..|s| - 1], key, k);
      assert s == s[..|s| - 1] + [s[|s| - 1]];
    }
  }

  // ---------------------------------------------------------------- existence

  lemma {:induction false} InsertWithKey<T>(s: seq<T>, x: T, key: T -> int, k: int)
    requires SortedBy(s, key)
    ensures WithKey(Insert(s, x, key), key, k) == WithKey(s, key, k) + WithKey([x], key, k)
  {
    if s == [] || key(s[|s| - 1]) <= key(x) {
      WithKeyConcat(s, [x], key, k);
    } else {
      var last := s[|s| - 1];
      InsertWithKey(s[..|s| - 1], x, key, k);
      WithKeyConcat(Insert(s[..|s| - 1], x, key), [last], key, k);
      WithKeyOne(last, key, k);
      WithKeyOne(x, key, k);
    }
  }

  lemma {:induction false} InsertSorts<T>(s: seq<T>, x: T, key: T -> int)
    requires SortedBy(s, key)
    ensures SortedBy(Insert(s, x, key), key)
    ensures forall y :: y in Insert(s, x, key) ==> y == x || y in s
  {
    if s != [] && key(s[|s| - 1]) > key(x) {
      var shorter, last := s[..|s| - 1], s[|s| - 1];
      InsertSorts(shorter, x, key);
      var r := Insert(shorter, x, key);
      forall i | 0 <= i < |r| ensures key(r[i]) <= key(last) {
        assert r[i] in r;
      }
    }
  }

  /** `SortBy` is a stable sort. */
  lemma {:induction false} SortIsStable<T>(s: seq<T>, key: T -> int)
    ensures IsStableSort(SortBy(s, key), s, key)
  {
    if s != [] {
      var last := s[|s| - 1];
      SortIsStable(s[..|s| - 1], key);
      InsertSorts(SortBy(s[..|s| - 1], key), last, key);
      forall k ensures WithKey(SortBy(s, key), key, k) == WithKey(s, key, k) {
        InsertWithKey(SortBy(s[..|s| - 1], key), last, key, k);
        WithKeyOne(last, key, k);
      }
    }
  }

  lemma {:induction false} InsertMembers<T>(s: seq<T>, x: T, key: T -> int, y: T)
    ensures y in Insert(s, x, key) <==> y == x || y in s
  {
    if s != [] && key(s[|s| - 1]) > key(x) {
      InsertMembers(s[..|s| - 1], x, key, y);
      assert s == s[..|s| - 1] + [s[|s| - 1]];
    }
  }

  lemma {:induction false} SortMembers<T>(s: seq<T>, key: T -> int, y: T)
    ensures y in SortBy(s, key) <==> y in s
  {
    if s != [] {
      SortMembers(s[..|s| - 1], key, y);
      InsertMembers(SortBy(s[..|s| - 1], key), s[|s| - 1], key, y);
      assert s == s[..|s| - 1] + [s[|s| - 1]];
    }
  }

  // ---------------------------------------------------------------- uniqueness

  lemma {:induction false} LastKeyBounds<T>(a: seq<T>, b: seq<T>, key: T -> int)
    requires a != [] && b != [] && SortedBy(b, key)
    requires forall k :: WithKey(a, key, k) == WithKey(b, key, k)
    ensures key(a[|a| - 1]) <= key(b[|b| - 1])
  {
    var k := key(a[|a| - 1]);
    SomeWithKey(a, key, |a| - 1);
    if forall i :: 0 <= i < |b| ==> key(b[i]) != k {
      NoneWithKey(b, key, k);
      assert false;
    }
  }

  lemma {:induction false} SameLast<T>(a: seq<T>, x: T, b: seq<T>, y: T)
    requires a + [x] == b + [y]
    ensures a == b && x == y
  {
    assert a == (a + [x])[..|a + [x]| - 1] == (b + [y])[..|b + [y]| - 1] == b;
    assert x == (a + [x])[|a|];
  }

  lemma {:induction false} SameEmptiness<T>(a: seq<T>, b: seq<T>, key: T -> int)
    requires forall k :: WithKey(a, key, k) == WithKey(b, key, k)
    ensures a != [] ==> b != []
  {
    if a != [] {
      SomeWithKey(a, key, |a| - 1);
      assert WithKey(b, key, key(a[|a| - 1])) != [];
    }
  }

  /** There is only one stable sort of a sequence. */
  lemma {:induction false} StableSortIsUnique<T>(a: seq<T>, b: seq<T>, key: T -> int)
    requires SortedBy(a, key) && SortedBy(b, key)
    requires forall k :: WithKey(a, key, k) == WithKey(b, key, k)
    ensures a == b
  {
    SameEmptiness(a, b, key);
    SameEmptiness(b, a, key);
    if a != [] {
      LastKeyBounds(a, b, key);
      LastKeyBounds(b, a, key);
      var a', x, b', y := a[..|a| - 1], a[|a| - 1], b[..|b| - 1], b[|b| - 1];
      assert WithKey(a, key, key(x)) == WithKey(b, key, key(x));
      SameLast(WithKey(a', key, key(x)), x, WithKey(b', key, key(y)), y);
      forall k ensures WithKey(a', key, k) == WithKey(b', key, k) {
        assert WithKey(a, key, k) == WithKey(b, key, k);
        if key(x) == k {
          SameLast(WithKey(a', key, k), x, WithKey(b', key, k), y);
        } else {
          assert WithKey(a', key, k) + [] == WithKey(a', key, k) && WithKey(b', key, k) + [] == WithKey(b', key, k);
        }
      }
      StableSortIsUnique(a', b', key);
      assert a == a' + [x] && b == b' + [y];
    }
  }

  lemma {:induction false} StableSortIsSortBy<T>(r: seq<T>, s: seq<T>, key: T -> int)
    requires IsStableSort(r, s, key)
    ensures r == SortBy(s, key)
  {
    SortIsStable(s, key);
    StableSortIsUnique(r, SortBy(s, key), key);
  }
}
