/** Newest-first ordering of query results (Mongo's `sort({ created_at: -1 })`),
    as an insertion sort on a timestamp. */
module Ordering {

  /** No element is newer than one before it. */
  predicate NewestFirst<T>(xs: seq<T>, stamp: T -> int) {
    forall i, j :: 0 <= i < j < |xs| ==> stamp(xs[i]) >= stamp(xs[j])
  }

  /** Places `x` into a newest-first sequence, after every strictly newer
      element and before the rest. */
  function Insert<T>(x: T, xs: seq<T>, stamp: T -> int): (r: seq<T>)
    requires NewestFirst(xs, stamp)
    ensures NewestFirst(r, stamp)
    ensures multiset(r) == multiset(xs) + multiset{x}
    ensures |r| == |xs| + 1
    ensures forall y :: y in r ==> y == x || y in xs
    decreases |xs|
  {
    if |xs| == 0 || stamp(x) >= stamp(xs[0]) then
      [x] + xs
    else
      var rest := Insert(x, xs[1..], stamp);
      assert xs == [xs[0]] + xs[1..];
      assert forall k :: 0 <= k < |rest| ==> stamp(rest[k]) <= stamp(xs[0]) by {
        forall k | 0 <= k < |rest|
          ensures stamp(rest[k]) <= stamp(xs[0])
        {
          assert rest[k] in rest;
          if rest[k] != x {
            assert rest[k] in xs[1..];
            var j :| 0 <= j < |xs[1..]| && xs[1..][j] == rest[k];
            assert xs[j + 1] == rest[k];
          }
        }
      }
      [xs[0]] + rest
  }

  /** The same elements, newest first. */
  function SortNewestFirst<T>(xs: seq<T>, stamp: T -> int): (r: seq<T>)
    ensures NewestFirst(r, stamp)
    ensures multiset(r) == multiset(xs)
    ensures |r| == |xs|
    decreases |xs|
  {
    if |xs| == 0 then []
    else
      assert xs == [xs[0]] + xs[1..];
      Insert(xs[0], SortNewestFirst(xs[1..], stamp), stamp)
  }
}
