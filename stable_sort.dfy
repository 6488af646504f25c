/** Python's `list.sort(key=…)`, which is stable: the elements in
    ascending order of the key, with elements of equal key kept in the
    order they had. `reverse=True` is the same sort on the negated key
    (for a stable sort Python keeps equal elements in their original order
    under `reverse` as well). Used by the section chunker (TSE-Project/query2.py)
    for the titles and the chunk starts. */
module StableSort {
  import opened Common

  predicate SortedBy<T>(xs: seq<T>, key: T -> int) {
    forall i, j :: 0 <= i < j < |xs| ==> key(xs[i]) <= key(xs[j])
  }

  /** Places `x` after every element of the sorted `xs` whose key is not
      larger than its own. */
  function Insert<T>(x: T, xs: seq<T>, key: T -> int): (r: seq<T>)
    ensures |r| == |xs| + 1
    ensures multiset(r) == multiset(xs) + multiset{x}
  {
    if xs == [] || key(xs[|xs| - 1]) <= key(x) then xs + [x]
    else
      var init, last := xs[..|xs| - 1], xs[|xs| - 1];
      InitLast(xs);
      Insert(x, init, key) + [last]
  }

  /** Inserting into a sorted list keeps it sorted. */
  lemma {:induction false} InsertSorted<T>(x: T, xs: seq<T>, key: T -> int)
    requires SortedBy(xs, key)
    ensures SortedBy(Insert(x, xs, key), key)
    decreases |xs|
  {
    if xs != [] && key(xs[|xs| - 1]) > key(x) {
      var init, last := xs[..|xs| - 1], xs[|xs| - 1];
      InitLast(xs);
      InsertSorted(x, init, key);
      var mid := Insert(x, init, key);
      forall i | 0 <= i < |mid| ensures key(mid[i]) <= key(last) {
        assert mid[i] in multiset(mid);
        if mid[i] != x {
          var j :| 0 <= j < |init| && init[j] == mid[i];
          assert key(xs[j]) <= key(xs[|xs| - 1]);
        }
      }
    }
  }

  /** The elements in ascending key order, equal keys in their original order. */
  function SortBy<T>(xs: seq<T>, key: T -> int): (r: seq<T>)
    ensures |r| == |xs|
    ensures multiset(r) == multiset(xs)
  {
    if xs == [] then []
    else
      var init, last := xs[..|xs| - 1], xs[|xs| - 1];
      InitLast(xs);
      Insert(last, SortBy(init, key), key)
  }

  /** The sorted list is in ascending key order. */
  lemma {:induction false} SortBySorted<T>(xs: seq<T>, key: T -> int)
    ensures SortedBy(SortBy(xs, key), key)
    decreases |xs|
  {
    if xs != [] {
      var init := xs[..|xs| - 1];
      SortBySorted(init, key);
      InsertSorted(xs[|xs| - 1], SortBy(init, key), key);
    }
  }

  /** The elements whose key is `k`, in order. */
  function WithKey<T>(xs: seq<T>, key: T -> int, k: int): seq<T> {
    if xs == [] then []
    else WithKey(xs[..|xs| - 1], key, k) + (if key(xs[|xs| - 1]) == k then [xs[|xs| - 1]] else [])
  }

  function Keyed<T>(y: T, key: T -> int, k: int): seq<T> {
    if key(y) == k then [y] else []
  }

  lemma WithKeySnoc<T>(s: seq<T>, y: T, key: T -> int, k: int)
    ensures WithKey(s + [y], key, k) == WithKey(s, key, k) + Keyed(y, key, k)
  {
    assert (s + [y])[..|s|] == s;
  }

  /** The step of the insertion past a larger last element. */
  lemma WithKeyPast<T>(x: T, init: seq<T>, last: T, mid: seq<T>, key: T -> int, k: int)
    requires key(last) > key(x)
    requires WithKey(mid, key, k) == WithKey(init, key, k) + Keyed(x, key, k)
    ensures WithKey(mid + [last], key, k) == WithKey(init + [last], key, k) + Keyed(x, key, k)
  {
    WithKeySnoc(mid, last, key, k);
    WithKeySnoc(init, last, key, k);
    var w := WithKey(init, key, k);
    if key(x) == k {
      assert Keyed(last, key, k) == [];
      assert WithKey(mid + [last], key, k) == w + [x] + [];
      assert WithKey(init + [last], key, k) == w + [];
    } else {
      assert Keyed(x, key, k) == [];
      assert WithKey(mid + [last], key, k) == w + [] + Keyed(last, key, k);
      assert WithKey(init + [last], key, k) + [] == w + Keyed(last, key, k) + [];
    }
  }

  /** Inserting `x` puts it after every element of its key. */
  lemma {:induction false} WithKeyInsert<T>(x: T, xs: seq<T>, key: T -> int, k: int)
    requires SortedBy(xs, key)
    ensures WithKey(Insert(x, xs, key), key, k) == WithKey(xs, key, k) + Keyed(x, key, k)
    decreases |xs|
  {
    if xs == [] || key(xs[|xs| - 1]) <= key(x) {
      WithKeySnoc(xs, x, key, k);
    } else {
      var init, last := xs[..|xs| - 1], xs[|xs| - 1];
      InitLast(xs);
      WithKeyInsert(x, init, key, k);
      WithKeyPast(x, init, last, Insert(x, init, key), key, k);
    }
  }

  /** Stability: for every key, the elements with that key appear in the
      sorted list in the order they had. */
  lemma {:induction false} SortStable<T>(xs: seq<T>, key: T -> int, k: int)
    ensures WithKey(SortBy(xs, key), key, k) == WithKey(xs, key, k)
    decreases |xs|
  {
    if xs != [] {
      var init, last := xs[..|xs| - 1], xs[|xs| - 1];
      var sorted := SortBy(init, key);
      SortBySorted(init, key);
      WithKeyInsert(last, sorted, key, k);
      SortStable(init, key, k);
      WithKeySnoc(init, last, key, k);
      InitLast(xs);
    }
  }

  /** Keys pairwise distinct. */
  predicate DistinctKeys<T>(xs: seq<T>, key: T -> int) {
    forall i, j :: 0 <= i < j < |xs| ==> key(xs[i]) != key(xs[j])
  }

  lemma {:induction false} DistinctFewWithKey<T>(xs: seq<T>, key: T -> int, k: int)
    requires DistinctKeys(xs, key)
    ensures |WithKey(xs, key, k)| <= 1
    ensures |WithKey(xs, key, k)| == 1 ==> exists i :: 0 <= i < |xs| && key(xs[i]) == k
    decreases |xs|
  {
    if xs != [] {
      var init := xs[..|xs| - 1];
      DistinctFewWithKey(init, key, k);
      if |WithKey(init, key, k)| == 1 {
        var i :| 0 <= i < |init| && key(init[i]) == k;
        assert key(xs[i]) == k;
      }
    }
  }

  lemma {:induction false} SharedKeyTwice<T>(xs: seq<T>, key: T -> int, i: int, j: int)
    requires 0 <= i < j < |xs| && key(xs[i]) == key(xs[j])
    ensures |WithKey(xs, key, key(xs[i]))| >= 2
    decreases |xs|
  {
    var init := xs[..|xs| - 1];
    if j < |xs| - 1 {
      SharedKeyTwice(init, key, i, j);
    } else {
      OneWithKey(init, key, i);
    }
  }

  lemma {:induction false} OneWithKey<T>(xs: seq<T>, key: T -> int, i: int)
    requires 0 <= i < |xs|
    ensures |WithKey(xs, key, key(xs[i]))| >= 1
    decreases |xs|
  {
    if i < |xs| - 1 {
      OneWithKey(xs[..|xs| - 1], key, i);
    }
  }

  /** Sorting a list whose keys are distinct orders it strictly. */
  lemma SortDistinct<T>(xs: seq<T>, key: T -> int)
    requires DistinctKeys(xs, key)
    ensures DistinctKeys(SortBy(xs, key), key)
    ensures forall i, j :: 0 <= i < j < |xs| ==> key(SortBy(xs, key)[i]) < key(SortBy(xs, key)[j])
  {
    var r := SortBy(xs, key);
    SortBySorted(xs, key);
    forall i, j | 0 <= i < j < |r|
      ensures key(r[i]) != key(r[j])
    {
      if key(r[i]) == key(r[j]) {
        SharedKeyTwice(r, key, i, j);
        SortStable(xs, key, key(r[i]));
        DistinctFewWithKey(xs, key, key(r[i]));
        assert false;
      }
    }
  }
}
