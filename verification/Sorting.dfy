/**
 * Sorting with a comparison, the model of `Array.prototype.sort` with a
 * comparator. The application sorts prices numerically and date strings
 * lexicographically; both go through `Sort` below.
 */
module Sorting {

  /** `le` is total and transitive: what a comparator must be for `sort` to be meaningful. */
  ghost predicate IsTotalPreorder<T(!new)>(le: (T, T) -> bool)
  {
    && (forall a, b :: le(a, b) || le(b, a))
    && (forall a, b, c :: le(a, b) && le(b, c) ==> le(a, c))
  }

  ghost predicate IsAntisymmetric<T(!new)>(le: (T, T) -> bool)
  {
    forall a, b :: le(a, b) && le(b, a) ==> a == b
  }

  predicate Sorted<T>(s: seq<T>, le: (T, T) -> bool)
  {
    forall i, j :: 0 <= i < j < |s| ==> le(s[i], s[j])
  }

  /** Every later element is strictly above every earlier one. */
  predicate StrictlySorted<T>(s: seq<T>, le: (T, T) -> bool)
  {
    forall i, j :: 0 <= i < j < |s| ==> !le(s[j], s[i])
  }

  predicate Distinct<T(==)>(s: seq<T>)
  {
    forall i, j :: 0 <= i < j < |s| ==> s[i] != s[j]
  }

  /** Inserts `x` into the sorted `s` before the first element it does not exceed. */
  function Insert<T(!new)>(x: T, s: seq<T>, le: (T, T) -> bool): (r: seq<T>)
    requires IsTotalPreorder(le) && Sorted(s, le)
    ensures Sorted(r, le)
    ensures multiset(r) == multiset(s) + multiset{x}
    decreases |s|
  {
    if |s| == 0 then [x]
    else if le(x, s[0]) then
      assert forall j :: 0 <= j < |s| ==> le(x, s[j]);
      [x] + s
    else
      var rest := Insert(x, s[1..], le);
      assert s == [s[0]] + s[1..];
      assert forall j :: 0 <= j < |rest| ==> le(s[0], rest[j]) by {
        forall j | 0 <= j < |rest| ensures le(s[0], rest[j]) {
          assert rest[j] in multiset(rest);
          if rest[j] != x {
            assert rest[j] in multiset(s[1..]);
            var k :| 0 <= k < |s[1..]| && s[1..][k] == rest[j];
            assert s[k + 1] == rest[j];
          }
        }
      }
      [s[0]] + rest
  }

  /** An ascending permutation of `s`. */
  function Sort<T(!new)>(s: seq<T>, le: (T, T) -> bool): (r: seq<T>)
    requires IsTotalPreorder(le)
    ensures Sorted(r, le)
    ensures multiset(r) == multiset(s)
    decreases |s|
  {
    if |s| == 0 then []
    else
      assert s == s[..|s| - 1] + [s[|s| - 1]];
      Insert(s[|s| - 1], Sort(s[..|s| - 1], le), le)
  }

  /** A list without repeats has every element at most once in its multiset. */
  lemma {:induction false} DistinctCounts<T>(s: seq<T>)
    requires Distinct(s)
    ensures forall x :: multiset(s)[x] <= 1
  {
    if |s| > 0 {
      var p := s[..|s| - 1];
      assert s == p + [s[|s| - 1]];
      DistinctCounts(p);
      forall k | 0 <= k < |p| ensures p[k] != s[|s| - 1] {
        assert p[k] == s[k];
      }
      assert s[|s| - 1] !in p;
    }
  }

  /** A permutation of a list without repeats has no repeats. */
  lemma {:induction false} DistinctPermutation<T>(s: seq<T>, r: seq<T>)
    requires Distinct(s) && multiset(r) == multiset(s)
    ensures Distinct(r)
  {
    DistinctCounts(s);
    forall i, j | 0 <= i < j < |r| ensures r[i] != r[j] {
      assert r == r[..j] + [r[j]] + r[j + 1..];
      assert multiset(r) == multiset(r[..j]) + multiset{r[j]} + multiset(r[j + 1..]);
      assert r[i] in r[..j];
      assert multiset(r[..j])[r[i]] >= 1;
      assert multiset(r)[r[i]] <= 1 by { assert multiset(s)[r[i]] <= 1; }
    }
  }

  /** For an antisymmetric order, a sorted list without repeats is strictly sorted. */
  lemma {:induction false} SortedDistinctIsStrict<T(!new)>(s: seq<T>, le: (T, T) -> bool)
    requires Sorted(s, le) && Distinct(s)
    requires IsAntisymmetric(le)
    ensures StrictlySorted(s, le)
  {
  }

  /** Sorting a list of distinct keys under an antisymmetric order gives a strictly ascending list of the same keys. */
  lemma {:induction false} SortDistinct<T(!new)>(s: seq<T>, le: (T, T) -> bool)
    requires IsTotalPreorder(le) && Distinct(s)
    requires IsAntisymmetric(le)
    ensures StrictlySorted(Sort(s, le), le) && Distinct(Sort(s, le))
    ensures |Sort(s, le)| == |s|
    ensures forall x :: x in Sort(s, le) <==> x in s
  {
    var r := Sort(s, le);
    DistinctPermutation(s, r);
    SortedDistinctIsStrict(r, le);
    assert |multiset(r)| == |multiset(s)|;
    forall x ensures x in r <==> x in s {
      assert x in r <==> x in multiset(r);
    }
  }
}
