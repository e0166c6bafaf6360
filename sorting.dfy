/**
 * LINQ's `OrderBy` / `OrderByDescending` on a DateTime key (a stable sort),
 * and the ascending list of distinct integers behind `GroupBy(...).OrderBy(...)`
 * and `Union(...).OrderBy(...)`.
 */
module Sorting {
  import opened Calendar

  /** `a` may come before `b` in the requested direction. */
  predicate InOrder(a: DateTime, b: DateTime, descending: bool) {
    if descending then AtOrBefore(b, a) else AtOrBefore(a, b)
  }

  ghost predicate SortedBy<T>(s: seq<T>, key: T -> DateTime, descending: bool) {
    forall i, j :: 0 <= i < j < |s| ==> InOrder(key(s[i]), key(s[j]), descending)
  }

  /** Places `x` before the first element it may precede: earlier input stays first among equal keys. */
  function Insert<T>(x: T, s: seq<T>, key: T -> DateTime, descending: bool): (r: seq<T>)
    requires SortedBy(s, key, descending)
    ensures multiset(r) == multiset(s) + multiset{x}
    ensures SortedBy(r, key, descending)
    decreases |s|
  {
    if |s| == 0 || InOrder(key(x), key(s[0]), descending) then [x] + s
    else
      var rest := Insert(x, s[1..], key, descending);
      assert s == [s[0]] + s[1..];
      InsertHeadFirst(x, s, rest, key, descending);
      assert multiset([s[0]] + rest) == multiset{s[0]} + multiset(s[1..]) + multiset{x};
      [s[0]] + rest
  }

  /** Putting the head of `s` in front of the insertion into its tail keeps the order. */
  lemma InsertHeadFirst<T>(x: T, s: seq<T>, rest: seq<T>, key: T -> DateTime, descending: bool)
    requires |s| > 0 && SortedBy(s, key, descending) && !InOrder(key(x), key(s[0]), descending)
    requires multiset(rest) == multiset(s[1..]) + multiset{x} && SortedBy(rest, key, descending)
    ensures SortedBy([s[0]] + rest, key, descending)
  {
    var r := [s[0]] + rest;
    forall i, j | 0 <= i < j < |r| ensures InOrder(key(r[i]), key(r[j]), descending) {
      if i == 0 {
        var y := rest[j - 1];
        assert y in multiset(rest);
        if y == x {
          AtOrBeforeTotal(key(x), key(s[0]));
        } else {
          assert y in multiset(s[1..]);
          var k :| 0 <= k < |s[1..]| && s[1..][k] == y;
          assert s[k + 1] == y;
        }
      } else {
        assert r[i] == rest[i - 1] && r[j] == rest[j - 1];
      }
    }
  }

  /** `OrderBy(key)` (ascending) or `OrderByDescending(key)`. */
  function SortBy<T>(s: seq<T>, key: T -> DateTime, descending: bool): (r: seq<T>)
    ensures multiset(r) == multiset(s)
    ensures SortedBy(r, key, descending)
    decreases |s|
  {
    if |s| == 0 then []
    else
      assert s == [s[0]] + s[1..];
      Insert(s[0], SortBy(s[1..], key, descending), key, descending)
  }

  ghost predicate StrictlyIncreasing(s: seq<int>) {
    forall i, j :: 0 <= i < j < |s| ==> s[i] < s[j]
  }

  function InsertUnique(x: int, s: seq<int>): (r: seq<int>)
    requires StrictlyIncreasing(s)
    ensures StrictlyIncreasing(r)
    ensures forall y :: y in r <==> y == x || y in s
    decreases |s|
  {
    if |s| == 0 || x < s[0] then [x] + s
    else if x == s[0] then s
    else
      var rest := InsertUnique(x, s[1..]);
      var r := [s[0]] + rest;
      forall i, j | 0 <= i < j < |r| ensures r[i] < r[j] {
        if i == 0 {
          assert r[j] in rest;
          assert r[j] == x || r[j] in s[1..];
        } else {
          assert r[i] == rest[i - 1] && r[j] == rest[j - 1];
        }
      }
      r
  }

  /** The distinct values of `xs` in ascending order. */
  function SortedDistinct(xs: seq<int>): (r: seq<int>)
    ensures StrictlyIncreasing(r)
    ensures forall y :: y in r <==> y in xs
    decreases |xs|
  {
    if |xs| == 0 then [] else InsertUnique(xs[0], SortedDistinct(xs[1..]))
  }
}
