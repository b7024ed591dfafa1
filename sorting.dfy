/**
 * The result `std::sort` leaves behind for a strict weak ordering `before`, written as an
 * insertion sort. When no two distinct elements are equivalent under `before`, every
 * sorting algorithm gives this same sequence.
 */
module Sorting {
  /** `before` is a strict weak ordering: asymmetric, and "not before" is transitive. */
  ghost predicate StrictWeakOrder<T(!new)>(before: (T, T) -> bool) {
    && (forall a, b :: before(a, b) ==> !before(b, a))
    && (forall a, b, c :: !before(a, b) && !before(b, c) ==> !before(a, c))
  }

  /** No element is ordered before an earlier one. */
  ghost predicate SortedBy<T>(s: seq<T>, before: (T, T) -> bool) {
    forall i, j :: 0 <= i < j < |s| ==> !before(s[j], s[i])
  }

  /** `x` placed before the first element it does not come after. */
  function InsertBy<T>(x: T, s: seq<T>, before: (T, T) -> bool): (r: seq<T>)
    ensures multiset(r) == multiset(s) + multiset{x}
  {
    if s == [] || !before(s[0], x) then [x] + s
    else
      assert s == [s[0]] + s[1..];
      [s[0]] + InsertBy(x, s[1..], before)
  }

  function SortBy<T>(s: seq<T>, before: (T, T) -> bool): (r: seq<T>)
    ensures multiset(r) == multiset(s)
  {
    if s == [] then []
    else
      assert s == [s[0]] + s[1..];
      InsertBy(s[0], SortBy(s[1..], before), before)
  }

  lemma {:induction false} InsertByKeepsSorted<T(!new)>(x: T, s: seq<T>, before: (T, T) -> bool)
    requires StrictWeakOrder(before) && SortedBy(s, before)
    ensures SortedBy(InsertBy(x, s, before), before)
  {
    if s != [] && before(s[0], x) {
      var rest := InsertBy(x, s[1..], before);
      InsertByKeepsSorted(x, s[1..], before);
      forall k | 0 <= k < |rest|
        ensures !before(rest[k], s[0])
      {
        assert rest[k] in multiset(rest);
        if rest[k] != x {
          assert rest[k] in multiset(s[1..]);
          var j :| 0 <= j < |s[1..]| && s[1..][j] == rest[k];
          assert s[j + 1] == rest[k];
        }
      }
      assert InsertBy(x, s, before) == [s[0]] + rest;
    }
  }

  /** The sorted sequence is ordered and holds exactly the input's elements. */
  lemma {:induction false} SortBySorts<T(!new)>(s: seq<T>, before: (T, T) -> bool)
    requires StrictWeakOrder(before)
    ensures SortedBy(SortBy(s, before), before)
    ensures multiset(SortBy(s, before)) == multiset(s)
  {
    if s != [] {
      SortBySorts(s[1..], before);
      InsertByKeepsSorted(s[0], SortBy(s[1..], before), before);
    }
  }
}
