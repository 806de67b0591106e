/**
 * Python's `max(d, key=d.get)` and `sorted(xs, key=..., reverse=True)` as the
 * classifier and the search-query builder rely on them: `max` keeps the first
 * maximal element, and `sorted` is stable, so equal keys keep their input order.
 */
module Ranking {

  /** Position of the first maximal value. */
  function FirstMaxIndex(s: seq<real>): (i: nat)
    requires |s| > 0
    ensures i < |s|
    ensures forall j :: 0 <= j < |s| ==> s[j] <= s[i]
    ensures forall j :: 0 <= j < i ==> s[j] < s[i]
    decreases |s|
  {
    if |s| == 1 then 0
    else
      var k := FirstMaxIndex(s[..|s| - 1]);
      assert forall j :: 0 <= j < |s| - 1 ==> s[..|s| - 1][j] == s[j];
      if s[|s| - 1] > s[k] then |s| - 1 else k
  }

  predicate SortedDesc<T>(s: seq<T>, key: T -> real) {
    forall i, j :: 0 <= i < j < |s| ==> key(s[i]) >= key(s[j])
  }

  /** The elements of `s` whose key is `k`, in order. */
  function WithKey<T>(s: seq<T>, key: T -> real, k: real): seq<T> {
    if s == [] then []
    else (if key(s[0]) == k then [s[0]] else []) + WithKey(s[1..], key, k)
  }

  /** Insert `x` after every element whose key is at least its own. */
  function Insert<T>(x: T, t: seq<T>, key: T -> real): seq<T> {
    if t == [] then [x]
    else if key(t[0]) >= key(x) then [t[0]] + Insert(x, t[1..], key)
    else [x] + t
  }

  /** `sorted(s, key=key, reverse=True)` as a stable insertion sort. */
  function SortDesc<T>(s: seq<T>, key: T -> real): seq<T>
    decreases |s|
  {
    if s == [] then [] else Insert(s[|s| - 1], SortDesc(s[..|s| - 1], key), key)
  }

  lemma {:induction false} InsertPermutes<T>(x: T, t: seq<T>, key: T -> real)
    ensures multiset(Insert(x, t, key)) == multiset(t) + multiset{x}
    ensures |Insert(x, t, key)| == |t| + 1
    decreases |t|
  {
    if t != [] && key(t[0]) >= key(x) {
      InsertPermutes(x, t[1..], key);
      assert t == [t[0]] + t[1..];
    }
  }

  lemma {:induction false} InsertBounded<T>(x: T, t: seq<T>, key: T -> real, b: real)
    requires forall j :: 0 <= j < |t| ==> key(t[j]) <= b
    requires key(x) <= b
    ensures forall j :: 0 <= j < |Insert(x, t, key)| ==> key(Insert(x, t, key)[j]) <= b
    decreases |t|
  {
    if t != [] && key(t[0]) >= key(x) {
      InsertBounded(x, t[1..], key, b);
    }
  }

  lemma {:induction false} InsertSorted<T>(x: T, t: seq<T>, key: T -> real)
    requires SortedDesc(t, key)
    ensures SortedDesc(Insert(x, t, key), key)
    decreases |t|
  {
    if t != [] && key(t[0]) >= key(x) {
      InsertSorted(x, t[1..], key);
      InsertBounded(x, t[1..], key, key(t[0]));
    }
  }

  /** The sort is ordered by descending key and is a permutation of its input. */
  lemma {:induction false} SortDescCorrect<T>(s: seq<T>, key: T -> real)
    ensures SortedDesc(SortDesc(s, key), key)
    ensures multiset(SortDesc(s, key)) == multiset(s)
    ensures |SortDesc(s, key)| == |s|
    decreases |s|
  {
    if s != [] {
      SortDescCorrect(s[..|s| - 1], key);
      InsertSorted(s[|s| - 1], SortDesc(s[..|s| - 1], key), key);
      InsertPermutes(s[|s| - 1], SortDesc(s[..|s| - 1], key), key);
      assert s == s[..|s| - 1] + [s[|s| - 1]];
    }
  }

  lemma {:induction false} WithKeyAppend<T>(a: seq<T>, b: seq<T>, key: T -> real, k: real)
    ensures WithKey(a + b, key, k) == WithKey(a, key, k) + WithKey(b, key, k)
    decreases |a|
  {
    if a != [] {
      assert (a + b)[1..] == a[1..] + b;
      WithKeyAppend(a[1..], b, key, k);
    } else {
      assert a + b == b;
    }
  }

  lemma {:induction false} InsertStable<T>(x: T, t: seq<T>, key: T -> real, k: real)
    requires SortedDesc(t, key)
    ensures WithKey(Insert(x, t, key), key, k)
            == WithKey(t, key, k) + (if key(x) == k then [x] else [])
    decreases |t|
  {
    if t == [] {
      assert WithKey([x], key, k) == (if key(x) == k then [x] else []) + WithKey([], key, k);
    } else if key(t[0]) >= key(x) {
      InsertStable(x, t[1..], key, k);
      WithKeyAppend([t[0]], Insert(x, t[1..], key), key, k);
      assert [t[0]][1..] == [];
    } else {
      WithKeyAppend([x], t, key, k);
      assert [x][1..] == [];
      if key(x) == k {
        // every element of t has a smaller key than x
        NoneWithKey(t, key, k);
      }
    }
  }

  lemma {:induction false} NoneWithKey<T>(t: seq<T>, key: T -> real, k: real)
    requires forall j :: 0 <= j < |t| ==> key(t[j]) < k
    ensures WithKey(t, key, k) == []
    decreases |t|
  {
    if t != [] {
      NoneWithKey(t[1..], key, k);
    }
  }

  /** Stability: for every key, the elements carrying it appear in input order. */
  lemma {:induction false} SortDescStable<T>(s: seq<T>, key: T -> real, k: real)
    ensures WithKey(SortDesc(s, key), key, k) == WithKey(s, key, k)
    decreases |s|
  {
    if s != [] {
      var init, last := s[..|s| - 1], s[|s| - 1];
      SortDescStable(init, key, k);
      SortDescCorrect(init, key);
      InsertStable(last, SortDesc(init, key), key, k);
      assert s == init + [last];
      WithKeyAppend(init, [last], key, k);
      assert [last][1..] == [];
    }
  }

  /** The identity key: `sorted(values, reverse=True)` on plain numbers. */
  function Id(x: real): real { x }

  /** `s` with the element at position `i` removed. */
  function Without<T>(s: seq<T>, i: nat): (r: seq<T>)
    requires i < |s|
    ensures |r| == |s| - 1
    ensures forall j :: 0 <= j < i ==> r[j] == s[j]
    ensures forall j :: i < j < |s| ==> r[j - 1] == s[j]
  {
    s[..i] + s[i + 1..]
  }

  lemma WithoutMultiset<T>(s: seq<T>, i: nat)
    requires i < |s|
    ensures multiset(Without(s, i)) + multiset{s[i]} == multiset(s)
  {
    assert s == s[..i] + [s[i]] + s[i + 1..];
  }

  /** The head of a descending arrangement of `values` is their maximum. */
  lemma HeadIsMax(s: seq<real>, values: seq<real>)
    requires |values| > 0 && SortedDesc(s, Id) && multiset(s) == multiset(values)
    ensures |s| > 0 && s[0] == values[FirstMaxIndex(values)]
  {
    var best := FirstMaxIndex(values);
    assert values[best] in multiset(s);
    assert s[0] in multiset(values);
    var k :| 0 <= k < |s| && s[k] == values[best];
    assert k == 0 || Id(s[0]) >= Id(s[k]);
  }

  lemma MultisetCancel<T>(a: multiset<T>, b: multiset<T>, x: T)
    requires a + multiset{x} == b + multiset{x}
    ensures a == b
  {
    forall y ensures a[y] == b[y] {
      assert (a + multiset{x})[y] == (b + multiset{x})[y];
    }
  }

  /** The second entry of a descending arrangement of `values` is the largest value
      left once one maximal entry is taken out. */
  lemma SecondIsMaxOfRest(s: seq<real>, values: seq<real>)
    requires |values| >= 2 && SortedDesc(s, Id) && multiset(s) == multiset(values)
    ensures var rest := Without(values, FirstMaxIndex(values));
      |s| == |values| && s[0] == values[FirstMaxIndex(values)] && s[1] == rest[FirstMaxIndex(rest)]
  {
    HeadIsMax(s, values);
    assert |s| == |multiset(s)| == |values|;
    var top := values[FirstMaxIndex(values)];
    var rest := Without(values, FirstMaxIndex(values));
    var tail := s[1..];
    WithoutMultiset(values, FirstMaxIndex(values));
    assert s == [top] + tail;
    assert multiset(s) == multiset(tail) + multiset{top};
    MultisetCancel(multiset(tail), multiset(rest), top);
    SortedTail(s);
    HeadIsMax(tail, rest);
  }

  lemma SortedTail(s: seq<real>)
    requires |s| > 0 && SortedDesc(s, Id)
    ensures SortedDesc(s[1..], Id)
  {
    var tail := s[1..];
    forall i, j | 0 <= i < j < |tail| ensures Id(tail[i]) >= Id(tail[j]) {
      assert tail[i] == s[i + 1] && tail[j] == s[j + 1];
    }
  }

  /** The two first entries of the descending sort: the maximum, then the largest value
      left once one maximal entry is taken out. */
  lemma TopTwoOfSorted(values: seq<real>)
    requires |values| >= 2
    ensures var s := SortDesc(values, Id);
      var best := FirstMaxIndex(values);
      var rest := Without(values, best);
      && |s| == |values|
      && s[0] == values[best]
      && s[1] == rest[FirstMaxIndex(rest)]
  {
    SortDescCorrect(values, Id);
    SecondIsMaxOfRest(SortDesc(values, Id), values);
  }

  /** The first two entries of `sorted(values, reverse=True)`. */
  function TopTwo(values: seq<real>): (r: (real, real))
    requires |values| >= 2
    ensures var rest := Without(values, FirstMaxIndex(values));
      && r.0 == values[FirstMaxIndex(values)]
      && r.1 == rest[FirstMaxIndex(rest)]
      && r.1 <= r.0
  {
    var sorted := SortDesc(values, Id);
    TopTwoOfSorted(values);
    (sorted[0], sorted[1])
  }
}
