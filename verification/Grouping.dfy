/** Filtering, totalling and grouping lists, as the overview's loops do. */
module Grouping {

  function Filter<T>(s: seq<T>, keep: T -> bool): seq<T> {
    if s == [] then []
    else Filter(s[..|s| - 1], keep) + if keep(s[|s| - 1]) then [s[|s| - 1]] else []
  }

  function Total<T>(s: seq<T>, weight: T -> real): real {
    if s == [] then 0.0 else Total(s[..|s| - 1], weight) + weight(s[|s| - 1])
  }

  /** The distinct keys, in the order they first occur. */
  function Keys<T, K(==)>(s: seq<T>, key: T -> K): seq<K> {
    if s == [] then []
    else
      var earlier := Keys(s[..|s| - 1], key);
      if key(s[|s| - 1]) in earlier then earlier else earlier + [key(s[|s| - 1])]
  }

  function Having<T, K(==)>(s: seq<T>, key: T -> K, k: K): seq<T> {
    Filter(s, x => key(x) == k)
  }

  ghost predicate Distinct<K>(keys: seq<K>) {
    forall i, j :: 0 <= i < j < |keys| ==> keys[i] != keys[j]
  }

  lemma AppendOne<T>(s: seq<T>, x: T)
    ensures (s + [x])[..|s + [x]| - 1] == s && (s + [x])[|s + [x]| - 1] == x
  {
  }

  lemma TotalAppend<T>(s: seq<T>, x: T, weight: T -> real)
    ensures Total(s + [x], weight) == Total(s, weight) + weight(x)
  {
    AppendOne(s, x);
  }

  lemma {:induction false} KeysAreDistinct<T, K>(s: seq<T>, key: T -> K)
    ensures Distinct(Keys(s, key))
    ensures forall k :: k in Keys(s, key) <==> exists x <- s :: key(x) == k
  {
    if s != [] {
      var rest, last := s[..|s| - 1], s[|s| - 1];
      KeysAreDistinct(rest, key);
      assert s == rest + [last];
      forall k ensures k in Keys(s, key) <==> exists x <- s :: key(x) == k {
        if k in Keys(rest, key) {
          var x :| x in rest && key(x) == k;
          assert x in s;
        }
        if k == key(last) {
          assert last in s;
        }
      }
    }
  }

  /** What the groups weigh together. */
  ghost function GroupTotals<T, K>(keys: seq<K>, s: seq<T>, key: T -> K, weight: T -> real): real {
    Total(keys, k => Total(Having(s, key, k), weight))
  }

  lemma {:induction false} TotalsOfGrown<T, K>(keys: seq<K>, s: seq<T>, x: T, key: T -> K, weight: T -> real)
    requires Distinct(keys)
    ensures GroupTotals(keys, s + [x], key, weight)
            == GroupTotals(keys, s, key, weight) + if key(x) in keys then weight(x) else 0.0
  {
    if keys != [] {
      var k, rest := keys[|keys| - 1], keys[..|keys| - 1];
      TotalsOfGrown(rest, s, x, key, weight);
      GrownGroup(s, x, key, k, weight);
      assert keys == rest + [k];
      SplitTotals(keys, s + [x], key, weight);
      SplitTotals(keys, s, key, weight);
    }
  }

  lemma {:induction false} SplitTotals<T, K>(keys: seq<K>, s: seq<T>, key: T -> K, weight: T -> real)
    requires keys != []
    ensures GroupTotals(keys, s, key, weight)
         == GroupTotals(keys[..|keys| - 1], s, key, weight) + Total(Having(s, key, keys[|keys| - 1]), weight)
  {
  }

  lemma GrownGroup<T, K>(s: seq<T>, x: T, key: T -> K, k: K, weight: T -> real)
    ensures Having(s + [x], key, k) == Having(s, key, k) + if key(x) == k then [x] else []
    ensures Total(Having(s + [x], key, k), weight) == Total(Having(s, key, k), weight) + if key(x)
            == k then weight(x) else 0.0
  {
    AppendOne(s, x);
    AppendOne(Having(s, key, k), x);
    assert Having(s, key, k) + [] == Having(s, key, k);
  }

  lemma {:induction false} EmptyGroups<T, K>(keys: seq<K>, key: T -> K, weight: T -> real)
    ensures GroupTotals(keys, [], key, weight) == 0.0
  {
    if keys != [] {
      EmptyGroups(keys[..|keys| - 1], key, weight);
      SplitTotals(keys, [], key, weight);
    }
  }

  /** The weight of the items under one key, the others weighing nothing. */
  function Under<T, K(==)>(key: T -> K, k: K, weight: T -> real): T -> real {
    x => if key(x) == k then weight(x) else 0.0
  }

  /** The weight of the items kept. */
  function Kept<T>(keep: T -> bool, weight: T -> real): T -> real {
    x => if keep(x) then weight(x) else 0.0
  }

  lemma {:induction false} HavingWeighs<T, K>(s: seq<T>, key: T -> K, k: K, weight: T -> real)
    ensures Total(Having(s, key, k), weight) == Total(s, Under(key, k, weight))
  {
    if s != [] {
      var rest, last := s[..|s| - 1], s[|s| - 1];
      HavingWeighs(rest, key, k, weight);
      assert s == rest + [last];
      GrownGroup(rest, last, key, k, weight);
    }
  }

  lemma {:induction false} FilterWeighs<T>(s: seq<T>, keep: T -> bool, weight: T -> real)
    ensures Total(Filter(s, keep), weight) == Total(s, Kept(keep, weight))
  {
    if s != [] {
      var rest, last := s[..|s| - 1], s[|s| - 1];
      FilterWeighs(rest, keep, weight);
      TotalAppend(Filter(rest, keep), last, weight);
      assert Filter(rest, keep) + [] == Filter(rest, keep);
    }
  }

  /** Nothing is lost or counted twice: over any list of distinct keys that covers the items, the groups
      weigh together what the items weigh. */
  lemma {:induction false} GroupsPartition<T, K>(keys: seq<K>, s: seq<T>, key: T -> K, weight: T -> real)
    requires Distinct(keys) && forall x <- s :: key(x) in keys
    ensures GroupTotals(keys, s, key, weight) == Total(s, weight)
  {
    if s == [] {
      EmptyGroups(keys, key, weight);
    } else {
      var rest, last := s[..|s| - 1], s[|s| - 1];
      GroupsPartition(keys, rest, key, weight);
      TotalsOfGrown(keys, rest, last, key, weight);
      assert s == rest + [last];
    }
  }

  lemma {:induction false} TotalConcat<T>(a: seq<T>, b: seq<T>, weight: T -> real)
    ensures Total(a + b, weight) == Total(a, weight) + Total(b, weight)
  {
    if b == [] {
      assert a + b == a;
    } else {
      TotalConcat(a, b[..|b| - 1], weight);
      assert (a + b)[..|a + b| - 1] == a + b[..|b| - 1];
    }
  }

  lemma WithoutOne<T>(rest: seq<T>, x: T, before: seq<T>, after: seq<T>)
    requires multiset(rest + [x]) == multiset(before + [x] + after)
    ensures multiset(rest) == multiset(before + after)
  {
    assert multiset(rest + [x]) == multiset(rest) + multiset{x};
    assert multiset(before + [x] + after) == multiset(before + after) + multiset{x};
    assert multiset(rest) == multiset(rest) + multiset{x} - multiset{x};
    assert multiset(before + after) == multiset(before + after) + multiset{x} - multiset{x};
  }

  /** A total does not depend on the order. */
  lemma {:induction false} TotalOfPermutation<T>(a: seq<T>, b: seq<T>, weight: T -> real)
    requires multiset(a) == multiset(b)
    ensures Total(a, weight) == Total(b, weight)
  {
    if a == [] {
      assert |multiset(b)| == |b| && |multiset(a)| == 0;
    } else {
      var x, rest := a[|a| - 1], a[..|a| - 1];
      assert a == rest + [x] && x in multiset(a) && x in b;
      var i :| 0 <= i < |b| && b[i] == x;
      assert b == b[..i] + [x] + b[i + 1..];
      WithoutOne(rest, x, b[..i], b[i + 1..]);
      TotalOfPermutation(rest, b[..i] + b[i + 1..], weight);
      TotalConcat(b[..i], b[i + 1..], weight);
      TotalConcat(b[..i], [x], weight);
      TotalConcat(b[..i] + [x], b[i + 1..], weight);
    }
  }

  lemma {:induction false} TotalOfFilter<T>(s: seq<T>, keep: T -> bool, weight: T -> real)
    requires forall x <- s :: !keep(x) ==> weight(x) == 0.0
    ensures Total(Filter(s, keep), weight) == Total(s, weight)
  {
    if s != [] {
      var rest, last := s[..|s| - 1], s[|s| - 1];
      assert last in s && forall x <- rest :: x in s;
      TotalOfFilter(rest, keep, weight);
      AppendOne(Filter(rest, keep), last);
      assert Filter(rest, keep) + [] == Filter(rest, keep);
    }
  }
}
