/**
 * The LINQ operators the handlers apply to a table, on sequences in the
 * table's enumeration order: `Where`, `Select`, `Any`, `Count`, `Sum`,
 * `FirstOrDefault`, and the identity value the database assigns to a new row.
 */
module Tables {
  import opened Wrappers

  /** `FirstOrDefault(p)` / `FindAsync`: the position of the first row satisfying `p`. */
  function FirstIndex<T>(s: seq<T>, p: T -> bool): (r: Option<nat>)
    ensures r.Some? ==> r.value < |s| && p(s[r.value])
    ensures r.Some? ==> forall j :: 0 <= j < r.value ==> !p(s[j])
    ensures r.None? <==> forall j :: 0 <= j < |s| ==> !p(s[j])
    decreases |s|
  {
    if |s| == 0 then None
    else if p(s[0]) then Some(0)
    else
      match FirstIndex(s[1..], p)
      case None => None
      case Some(k) => Some(k + 1)
  }

  /** `Where(p)`: the rows satisfying `p`, in table order. */
  function Where<T(!new)>(s: seq<T>, p: T -> bool): (r: seq<T>)
    ensures |r| <= |s|
    ensures forall x :: x in r <==> x in s && p(x)
    decreases |s|
  {
    if |s| == 0 then []
    else if p(s[0]) then [s[0]] + Where(s[1..], p)
    else Where(s[1..], p)
  }

  lemma {:induction false} WhereAppend<T(!new)>(a: seq<T>, b: seq<T>, p: T -> bool)
    ensures Where(a + b, p) == Where(a, p) + Where(b, p)
    decreases |a|
  {
    if |a| == 0 {
      assert a + b == b;
    } else {
      assert (a + b)[1..] == a[1..] + b;
      WhereAppend(a[1..], b, p);
    }
  }

  /** `Where(p)` keeps every row exactly when no row violates `p`. */
  lemma {:induction false} WhereAll<T(!new)>(s: seq<T>, p: T -> bool)
    requires forall i :: 0 <= i < |s| ==> p(s[i])
    ensures Where(s, p) == s
    decreases |s|
  {
    if |s| > 0 {
      WhereAll(s[1..], p);
    }
  }

  /** `Where(p)` keeps nothing when no row satisfies `p`. */
  lemma {:induction false} WhereNone<T(!new)>(s: seq<T>, p: T -> bool)
    requires forall i :: 0 <= i < |s| ==> !p(s[i])
    ensures Where(s, p) == []
    decreases |s|
  {
    if |s| > 0 {
      WhereNone(s[1..], p);
    }
  }

  /** `Count(p)`. */
  function Count<T>(s: seq<T>, p: T -> bool): (n: nat)
    ensures n <= |s|
    ensures n == 0 <==> forall i :: 0 <= i < |s| ==> !p(s[i])
    decreases |s|
  {
    if |s| == 0 then 0 else (if p(s[0]) then 1 else 0) + Count(s[1..], p)
  }

  lemma {:induction false} CountAppend<T>(a: seq<T>, b: seq<T>, p: T -> bool)
    ensures Count(a + b, p) == Count(a, p) + Count(b, p)
    decreases |a|
  {
    if |a| == 0 {
      assert a + b == b;
    } else {
      assert (a + b)[1..] == a[1..] + b;
      CountAppend(a[1..], b, p);
    }
  }

  /** `Any(p)`. */
  predicate Any<T>(s: seq<T>, p: T -> bool) {
    exists i :: 0 <= i < |s| && p(s[i])
  }

  /** `Select(f)`. */
  function Select<T, U>(s: seq<T>, f: T -> U): (r: seq<U>)
    ensures |r| == |s|
    ensures forall i :: 0 <= i < |s| ==> r[i] == f(s[i])
    decreases |s|
  {
    if |s| == 0 then [] else [f(s[0])] + Select(s[1..], f)
  }

  /** `Select` distributes over concatenation. */
  lemma SelectAppend<T, U>(a: seq<T>, b: seq<T>, f: T -> U)
    ensures Select(a + b, f) == Select(a, f) + Select(b, f)
  {
    var l, r := Select(a + b, f), Select(a, f) + Select(b, f);
    forall i | 0 <= i < |l| ensures l[i] == r[i] {
      if i < |a| {
        assert (a + b)[i] == a[i];
      } else {
        assert (a + b)[i] == b[i - |a|];
      }
    }
  }

  /** `Where(p)` on one more row at the end. */
  lemma WhereSnoc<T(!new)>(s: seq<T>, x: T, p: T -> bool)
    ensures Where(s + [x], p) == Where(s, p) + (if p(x) then [x] else [])
  {
    WhereAppend(s, [x], p);
    assert [x][1..] == [];
  }

  /** `Select(f)` on one more row at the end. */
  lemma SelectSnoc<T, U>(s: seq<T>, x: T, f: T -> U)
    ensures Select(s + [x], f) == Select(s, f) + [f(x)]
  {
    SelectAppend(s, [x], f);
  }

  /** The rows from `k` on, after one more row at the end. */
  lemma DropSnoc<T>(s: seq<T>, x: T, k: nat)
    requires k <= |s|
    ensures (s + [x])[k..] == s[k..] + [x]
  {
  }

  /** `Where(p)` keeps exactly `Count(p)` rows. */
  lemma {:induction false} WhereCount<T(!new)>(s: seq<T>, p: T -> bool)
    ensures |Where(s, p)| == Count(s, p)
    decreases |s|
  {
    if |s| > 0 {
      WhereCount(s[1..], p);
    }
  }

  /** `Sum(f)` over decimal amounts. */
  function Sum<T>(s: seq<T>, f: T -> real): real
    decreases |s|
  {
    if |s| == 0 then 0.0 else f(s[0]) + Sum(s[1..], f)
  }

  lemma {:induction false} SumAppend<T>(a: seq<T>, b: seq<T>, f: T -> real)
    ensures Sum(a + b, f) == Sum(a, f) + Sum(b, f)
    decreases |a|
  {
    if |a| == 0 {
      assert a + b == b;
    } else {
      assert (a + b)[1..] == a[1..] + b;
      SumAppend(a[1..], b, f);
    }
  }

  /** The identity value the database gives a new row: one above every id already used. */
  function NextId<T>(s: seq<T>, id: T -> int): (r: int)
    ensures r >= 1
    ensures forall i :: 0 <= i < |s| ==> id(s[i]) < r
    decreases |s|
  {
    if |s| == 0 then 1
    else
      var rest := NextId(s[1..], id);
      if id(s[0]) < rest then rest else id(s[0]) + 1
  }

  /** The rows for which `p` fails, in order: the table after `RemoveRange(Where(p))`. */
  function RemoveWhere<T(!new)>(s: seq<T>, p: T -> bool): (r: seq<T>)
    ensures forall x :: x in r <==> x in s && !p(x)
    ensures |r| + Count(s, p) == |s|
    decreases |s|
  {
    if |s| == 0 then []
    else if p(s[0]) then RemoveWhere(s[1..], p)
    else [s[0]] + RemoveWhere(s[1..], p)
  }

  /** The conjunction of two row filters: `Where(p).Where(q)` keeps the rows satisfying `Both(p, q)`. */
  function Both<T>(p: T -> bool, q: T -> bool): T -> bool {
    (x: T) => p(x) && q(x)
  }

  /** Two chained `Where` filters select exactly the rows of their conjunction, in the same order. */
  lemma {:induction false} WhereWhere<T(!new)>(s: seq<T>, p: T -> bool, q: T -> bool)
    ensures Where(Where(s, p), q) == Where(s, Both(p, q))
    decreases |s|
  {
    if |s| > 0 {
      WhereWhere(s[1..], p, q);
      if p(s[0]) {
        assert Where(s, p) == [s[0]] + Where(s[1..], p);
        assert Where(s, p)[1..] == Where(s[1..], p);
      }
    }
  }

  /** Counting the rows of a filtered table counts the rows satisfying both conditions. */
  lemma {:induction false} CountWhere<T(!new)>(s: seq<T>, p: T -> bool, q: T -> bool)
    ensures Count(Where(s, p), q) == Count(s, Both(p, q))
    decreases |s|
  {
    if |s| > 0 {
      CountWhere(s[1..], p, q);
      if p(s[0]) {
        assert Where(s, p)[1..] == Where(s[1..], p);
      }
    }
  }

  /** Filters that agree on every row count the same rows. */
  lemma {:induction false} CountSame<T>(s: seq<T>, p: T -> bool, q: T -> bool)
    requires forall x :: p(x) == q(x)
    ensures Count(s, p) == Count(s, q)
    decreases |s|
  {
    if |s| > 0 {
      CountSame(s[1..], p, q);
    }
  }

  /** `Where(p).Sum(f)`, stated directly: the sum of `f` over the rows satisfying `p`. */
  function SumIf<T>(s: seq<T>, p: T -> bool, f: T -> real): (r: real)
    ensures (forall i :: 0 <= i < |s| ==> !p(s[i])) ==> r == 0.0
    ensures (forall i :: 0 <= i < |s| ==> f(s[i]) >= 0.0) ==> r >= 0.0
    decreases |s|
  {
    if |s| == 0 then 0.0
    else (if p(s[0]) then f(s[0]) else 0.0) + SumIf(s[1..], p, f)
  }

  /** Summing over a filtered table is summing over the rows satisfying the filter. */
  lemma {:induction false} SumWhere<T(!new)>(s: seq<T>, p: T -> bool, f: T -> real)
    ensures Sum(Where(s, p), f) == SumIf(s, p, f)
    decreases |s|
  {
    if |s| > 0 {
      SumWhere(s[1..], p, f);
      if p(s[0]) {
        assert Where(s, p)[1..] == Where(s[1..], p);
      }
    }
  }

  /** Filters that agree on every row sum the same rows. */
  lemma {:induction false} SumIfSame<T>(s: seq<T>, p: T -> bool, q: T -> bool, f: T -> real)
    requires forall x :: p(x) == q(x)
    ensures SumIf(s, p, f) == SumIf(s, q, f)
    decreases |s|
  {
    if |s| > 0 {
      SumIfSame(s[1..], p, q, f);
    }
  }

  /** Filters that agree on every row keep the same rows. */
  lemma {:induction false} WhereSame<T(!new)>(s: seq<T>, p: T -> bool, q: T -> bool)
    requires forall x :: p(x) == q(x)
    ensures Where(s, p) == Where(s, q)
    decreases |s|
  {
    if |s| > 0 {
      WhereSame(s[1..], p, q);
    }
  }

  /** `if (on) query = query.Where(p);`: a filter applied only when its parameter is given. */
  function Narrow<T(!new)>(s: seq<T>, on: bool, p: T -> bool): seq<T> {
    if on then Where(s, p) else s
  }

  /** The row condition of an optional filter: `p` when the filter is on, no condition otherwise. */
  function When<T>(on: bool, p: T -> bool): T -> bool {
    (x: T) => !on || p(x)
  }

  /** An optional filter after a `Where` keeps the rows satisfying both conditions. */
  lemma NarrowWhere<T(!new)>(s: seq<T>, a: T -> bool, on: bool, p: T -> bool)
    ensures Narrow(Where(s, a), on, p) == Where(s, Both(a, When(on, p)))
  {
    if on {
      WhereWhere(s, a, p);
      WhereSame(s, Both(a, p), Both(a, When(on, p)));
    } else {
      WhereSame(s, a, Both(a, When(on, p)));
    }
  }
}
