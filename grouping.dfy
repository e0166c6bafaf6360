/**
 * `GroupBy(key)` followed by an aggregate per group, and the
 * `FirstOrDefault(g => g.Key == k)?.Value ?? 0` lookup the reports use
 * to read one group's aggregate back.
 */
module Grouping {
  import opened Wrappers
  import opened Tables

  /** One group of a `GroupBy`: its key and its aggregate. */
  datatype Group<V> = Group(key: int, value: V)

  /** The rows whose key is `k`: the members of group `k`. */
  function KeyIs<T>(key: T -> int, k: int): T -> bool {
    (x: T) => key(x) == k
  }

  /** The keys of the groups: each key some row has, once. */
  function Keys<T>(s: seq<T>, key: T -> int): (ks: seq<int>)
    ensures forall i :: 0 <= i < |s| ==> key(s[i]) in ks
    ensures forall k :: k in ks ==> exists i :: 0 <= i < |s| && key(s[i]) == k
    ensures forall i, j :: 0 <= i < j < |ks| ==> ks[i] != ks[j]
    decreases |s|
  {
    if |s| == 0 then []
    else
      var rest := Keys(s[1..], key);
      forall k | k in rest
        ensures exists i :: 0 <= i < |s| && key(s[i]) == k
      {
        var i :| 0 <= i < |s[1..]| && key(s[1..][i]) == k;
        assert key(s[i + 1]) == k;
      }
      if key(s[0]) in rest then rest else [key(s[0])] + rest
  }

  /** `GroupBy(key).Select(g => (g.Key, g.Count()))` over the given keys. */
  function CountGroups<T>(s: seq<T>, key: T -> int, ks: seq<int>): (gs: seq<Group<nat>>)
    ensures |gs| == |ks|
    decreases |ks|
  {
    if |ks| == 0 then []
    else [Group(ks[0], Count(s, KeyIs(key, ks[0])))] + CountGroups(s, key, ks[1..])
  }

  /** `GroupBy(key).Select(g => (g.Key, g.Sum(f)))` over the given keys. */
  function SumGroups<T(!new)>(s: seq<T>, key: T -> int, f: T -> real, ks: seq<int>): (gs: seq<Group<real>>)
    ensures |gs| == |ks|
    decreases |ks|
  {
    if |ks| == 0 then []
    else [Group(ks[0], Sum(Where(s, KeyIs(key, ks[0])), f))] + SumGroups(s, key, f, ks[1..])
  }

  /** `groups.FirstOrDefault(g => g.Key == k)?.Value ?? d`. */
  function Lookup<V>(groups: seq<Group<V>>, k: int, d: V): V {
    match FirstIndex(groups, (g: Group<V>) => g.key == k)
    case None => d
    case Some(i) => groups[i].value
  }

  /** Looking a key up among count groups gives that key's count, or the default for a key not grouped. */
  lemma {:induction false} LookupCountGroups<T>(s: seq<T>, key: T -> int, ks: seq<int>, k: int)
    ensures Lookup(CountGroups(s, key, ks), k, 0) == if k in ks then Count(s, KeyIs(key, k)) else 0
    decreases |ks|
  {
    if |ks| > 0 && ks[0] != k {
      LookupCountGroups(s, key, ks[1..], k);
      var gs := CountGroups(s, key, ks);
      assert gs[1..] == CountGroups(s, key, ks[1..]);
      var p := (g: Group<nat>) => g.key == k;
      assert FirstIndex(gs, p) == (match FirstIndex(gs[1..], p) case None => None case Some(j) => Some(j + 1));
    }
  }

  lemma {:induction false} LookupSumGroups<T(!new)>(s: seq<T>, key: T -> int, f: T -> real, ks: seq<int>, k: int)
    ensures Lookup(SumGroups(s, key, f, ks), k, 0.0) == if k in ks then Sum(Where(s, KeyIs(key, k)), f) else 0.0
    decreases |ks|
  {
    if |ks| > 0 && ks[0] != k {
      LookupSumGroups(s, key, f, ks[1..], k);
      var gs := SumGroups(s, key, f, ks);
      assert gs[1..] == SumGroups(s, key, f, ks[1..]);
      var p := (g: Group<real>) => g.key == k;
      assert FirstIndex(gs, p) == (match FirstIndex(gs[1..], p) case None => None case Some(j) => Some(j + 1));
    }
  }

  /**
   * Zero-filling: reading key `k` back from the groups of `s` gives the
   * number of rows with key `k`, which is 0 when no row has it.
   */
  lemma CountOfGroup<T>(s: seq<T>, key: T -> int, k: int)
    ensures Lookup(CountGroups(s, key, Keys(s, key)), k, 0) == Count(s, KeyIs(key, k))
  {
    LookupCountGroups(s, key, Keys(s, key), k);
    if k !in Keys(s, key) {
      assert forall i :: 0 <= i < |s| ==> !KeyIs(key, k)(s[i]);
    }
  }

  /** The same for sums: the sum of `f` over the rows with key `k`, 0 when there are none. */
  lemma SumOfGroup<T(!new)>(s: seq<T>, key: T -> int, f: T -> real, k: int)
    ensures Lookup(SumGroups(s, key, f, Keys(s, key)), k, 0.0) == SumIf(s, KeyIs(key, k), f)
  {
    LookupSumGroups(s, key, f, Keys(s, key), k);
    SumWhere(s, KeyIs(key, k), f);
    if k !in Keys(s, key) {
      assert forall i :: 0 <= i < |s| ==> !KeyIs(key, k)(s[i]);
    }
  }

  /** Grouping a filtered table by key and reading key `k` back counts the rows passing the filter with key `k`. */
  lemma CountOneFilter<T(!new)>(s: seq<T>, p: T -> bool, key: T -> int, k: int, all: T -> bool)
    requires forall x :: all(x) == (p(x) && key(x) == k)
    ensures Lookup(CountGroups(Where(s, p), key, Keys(Where(s, p), key)), k, 0) == Count(s, all)
  {
    CountOfGroup(Where(s, p), key, k);
    CountWhere(s, p, KeyIs(key, k));
    CountSame(s, Both(p, KeyIs(key, k)), all);
  }

  /** The same for sums: the sum of `f` over the rows passing the filter with key `k`. */
  lemma SumOneFilter<T(!new)>(s: seq<T>, p: T -> bool, key: T -> int, f: T -> real, k: int, all: T -> bool)
    requires forall x :: all(x) == (p(x) && key(x) == k)
    ensures Lookup(SumGroups(Where(s, p), key, f, Keys(Where(s, p), key)), k, 0.0) == SumIf(s, all, f)
  {
    var data := Where(s, p);
    SumOfGroup(data, key, f, k);
    SumWhere(data, KeyIs(key, k), f);
    WhereWhere(s, p, KeyIs(key, k));
    SumWhere(s, Both(p, KeyIs(key, k)), f);
    SumIfSame(s, Both(p, KeyIs(key, k)), all, f);
  }

  /** A row that passes the filter contributes its key to the keys of the filtered rows. */
  lemma FilteredKey<T(!new)>(s: seq<T>, p: T -> bool, key: T -> int, i: int)
    requires 0 <= i < |s| && p(s[i])
    ensures key(s[i]) in Keys(Where(s, p), key)
  {
    var w := Where(s, p);
    assert s[i] in w;
    var k :| 0 <= k < |w| && w[k] == s[i];
  }

  /** A key of the filtered rows is the key of at least one row that passes the filter. */
  lemma FilteredKeyCounted<T(!new)>(s: seq<T>, p: T -> bool, key: T -> int, k: int, all: T -> bool)
    requires forall x :: all(x) == (p(x) && key(x) == k)
    requires k in Keys(Where(s, p), key)
    ensures Count(s, all) > 0
  {
    var w := Where(s, p);
    var j :| 0 <= j < |w| && key(w[j]) == k;
    assert w[j] in s;
    var i :| 0 <= i < |s| && s[i] == w[j];
    assert all(s[i]);
  }
}
