/**
 * The `orderBy` of a database query: a sequence of rows sorted by a total preorder
 * (`created_at desc`, `created_at desc, name asc`, the number of order items, ...).
 * Rows that tie may come in any order, as in the database.
 */
module Sorting {

  /** `before` is total and transitive: it ranks every pair of rows consistently. */
  ghost predicate TotalPreorder<T(!new)>(before: (T, T) -> bool) {
    && (forall a, b :: before(a, b) || before(b, a))
    && (forall a, b, c :: before(a, b) && before(b, c) ==> before(a, c))
  }

  ghost predicate SortedBy<T(!new)>(before: (T, T) -> bool, s: seq<T>) {
    forall i, j :: 0 <= i < j < |s| ==> before(s[i], s[j])
  }

  /** Insert `x` into the sorted `s`, ahead of the first row it may precede. */
  function Insert<T(!new)>(before: (T, T) -> bool, x: T, s: seq<T>): (r: seq<T>)
    requires TotalPreorder(before) && SortedBy(before, s)
    ensures SortedBy(before, r)
    ensures multiset(r) == multiset(s) + multiset{x}
  {
    if s == [] then [x]
    else if before(x, s[0]) then [x] + s
    else
      var tail := Insert(before, x, s[1..]);
      assert s == [s[0]] + s[1..];
      assert forall k :: 0 <= k < |tail| ==> before(s[0], tail[k]) by {
        forall k | 0 <= k < |tail|
          ensures before(s[0], tail[k])
        {
          assert tail[k] in multiset(tail);
          if tail[k] != x {
            assert tail[k] in multiset(s[1..]);
            var j :| 0 <= j < |s[1..]| && s[1..][j] == tail[k];
            assert s[j + 1] == tail[k];
          }
        }
      }
      [s[0]] + tail
  }

  /** The rows of `s` in the order `before` ranks them. */
  function SortBy<T(!new)>(before: (T, T) -> bool, s: seq<T>): (r: seq<T>)
    requires TotalPreorder(before)
    ensures SortedBy(before, r)
    ensures multiset(r) == multiset(s)
  {
    if s == [] then []
    else
      assert s == [s[0]] + s[1..];
      Insert(before, s[0], SortBy(before, s[1..]))
  }

  /** A slice of a sorted sequence (`skip` and `take`) is sorted. */
  lemma SortedSlice<T(!new)>(before: (T, T) -> bool, s: seq<T>, a: nat, b: nat)
    requires SortedBy(before, s) && a <= b <= |s|
    ensures SortedBy(before, s[a..b])
  {
    forall i, j | 0 <= i < j < b - a
      ensures before(s[a..b][i], s[a..b][j])
    {
      assert s[a..b][i] == s[a + i] && s[a..b][j] == s[a + j];
    }
  }
}
