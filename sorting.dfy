/**
 * `Array.prototype.sort` with a comparator, modelled as a stable insertion
 * sort: an element goes before another only when the comparator says it is
 * strictly smaller. For a comparator that is the difference of a numeric key
 * the result is ordered by that key; for any comparator it is a permutation.
 */
module Sorting {

  /** Inserts `x` after every leading element that does not compare strictly above it. */
  function Insert<T>(x: T, s: seq<T>, cmp: (T, T) -> real): (r: seq<T>)
    ensures multiset(r) == multiset(s) + multiset{x}
    ensures |r| == |s| + 1
  {
    if s == [] then [x]
    else if cmp(x, s[0]) < 0.0 then [x] + s
    else
      assert s == [s[0]] + s[1..];
      [s[0]] + Insert(x, s[1..], cmp)
  }

  /** The sort: the elements inserted one after another, first to last. */
  function Sort<T>(s: seq<T>, cmp: (T, T) -> real): (r: seq<T>)
    ensures multiset(r) == multiset(s)
    ensures |r| == |s|
  {
    if s == [] then []
    else
      var init := s[..|s| - 1];
      assert s == init + [s[|s| - 1]];
      assert multiset(s) == multiset(init) + multiset{s[|s| - 1]};
      Insert(s[|s| - 1], Sort(s[..|s| - 1], cmp), cmp)
  }

  /** `s` is non-decreasing in `key`. */
  predicate SortedBy<T>(s: seq<T>, key: T -> real)
  {
    forall i, j :: 0 <= i < j < |s| ==> key(s[i]) <= key(s[j])
  }

  lemma {:induction false} InsertSorted<T>(x: T, s: seq<T>, cmp: (T, T) -> real, key: T -> real)
    requires forall a, b :: cmp(a, b) == key(a) - key(b)
    requires SortedBy(s, key)
    ensures SortedBy(Insert(x, s, cmp), key)
  {
    if s == [] {
    } else if cmp(x, s[0]) < 0.0 {
      var r := [x] + s;
      assert key(x) < key(s[0]);
      forall i, j | 0 <= i < j < |r| ensures key(r[i]) <= key(r[j]) {
        if i > 0 {
          assert r[i] == s[i - 1] && r[j] == s[j - 1];
        } else {
          assert r[j] == s[j - 1];
        }
      }
    } else {
      var rest := Insert(x, s[1..], cmp);
      InsertSorted(x, s[1..], cmp, key);
      assert key(s[0]) <= key(x);
      forall k | 0 <= k < |rest| ensures key(s[0]) <= key(rest[k]) {
        LowerBoundKept(x, s[1..], cmp, key, key(s[0]), k);
      }
      var r := [s[0]] + rest;
      forall i, j | 0 <= i < j < |r| ensures key(r[i]) <= key(r[j]) {
        assert r[j] == rest[j - 1];
        if i > 0 {
          assert r[i] == rest[i - 1];
        }
      }
    }
  }

  /** A lower bound of `x` and of every element of `s` bounds every element of the insertion. */
  lemma LowerBoundKept<T>(x: T, s: seq<T>, cmp: (T, T) -> real, key: T -> real, lo: real, k: nat)
    requires lo <= key(x)
    requires forall i :: 0 <= i < |s| ==> lo <= key(s[i])
    requires k < |Insert(x, s, cmp)|
    ensures lo <= key(Insert(x, s, cmp)[k])
  {
    var y := Insert(x, s, cmp)[k];
    assert y in multiset(Insert(x, s, cmp));
    if y != x {
      assert y in multiset(s);
      var i :| 0 <= i < |s| && s[i] == y;
    }
  }

  /** Sorting with a key-difference comparator orders the elements by that key. */
  lemma {:induction false} SortSorted<T>(s: seq<T>, cmp: (T, T) -> real, key: T -> real)
    requires forall a, b :: cmp(a, b) == key(a) - key(b)
    ensures SortedBy(Sort(s, cmp), key)
  {
    if s != [] {
      SortSorted(s[..|s| - 1], cmp, key);
      InsertSorted(s[|s| - 1], Sort(s[..|s| - 1], cmp), cmp, key);
    }
  }
}
