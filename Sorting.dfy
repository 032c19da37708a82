/**
 * Sorting by a descending integer key: the `.sort({ createdAt: -1 })` /
 * `.sort("created_at", -1)` both backends ask the database for.
 */
module Sorting {

  predicate SortedDesc<T>(xs: seq<T>, key: T -> int)
  {
    forall i, j :: 0 <= i < j < |xs| ==> key(xs[i]) >= key(xs[j])
  }

  /** Inserts `x` into a list already in descending key order. */
  function Insert<T>(x: T, xs: seq<T>, key: T -> int): (r: seq<T>)
    requires SortedDesc(xs, key)
    ensures SortedDesc(r, key)
    ensures multiset(r) == multiset(xs) + multiset{x}
    ensures |r| == |xs| + 1
    ensures forall y :: y in r ==> y == x || y in xs
  {
    if |xs| == 0 || key(x) >= key(xs[0]) then
      [x] + xs
    else
      var rest := Insert(x, xs[1..], key);
      var r := [xs[0]] + rest;
      assert xs == [xs[0]] + xs[1..];
      forall j | 1 <= j < |r| ensures key(r[0]) >= key(r[j]) {
        assert r[j] in rest;
      }
      r
  }

  /** The list in descending key order (insertion sort). */
  function SortDesc<T>(xs: seq<T>, key: T -> int): (r: seq<T>)
    ensures SortedDesc(r, key)
    ensures multiset(r) == multiset(xs)
    ensures |r| == |xs|
  {
    if |xs| == 0 then []
    else
      assert xs == [xs[0]] + xs[1..];
      Insert(xs[0], SortDesc(xs[1..], key), key)
  }
}
