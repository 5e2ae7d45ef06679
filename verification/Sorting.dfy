/** Insertion into sequences sorted by a key, as the library sorts are used here: the result is
sorted and has the same elements; ties come in some order. */
module Sorting {

  ghost predicate SortedBy<T>(key: T -> int, xs: seq<T>) {
    forall i, j :: 0 <= i < j < |xs| ==> key(xs[i]) <= key(xs[j])
  }

  /** Puts one element into a sorted sequence. */
  method Insert<T>(key: T -> int, sorted: seq<T>, x: T) returns (r: seq<T>)
    requires SortedBy(key, sorted)
    ensures SortedBy(key, r) && multiset(r) == multiset(sorted) + multiset{x}
  {
    var k := |sorted|;
    while k > 0 && key(sorted[k - 1]) > key(x)
      invariant 0 <= k <= |sorted|
      invariant forall i :: k <= i < |sorted| ==> key(sorted[i]) > key(x)
    {
      k := k - 1;
    }
    r := sorted[..k] + [x] + sorted[k..];
    InsertedAt(key, sorted, x, k);
  }

  lemma InsertedAt<T>(key: T -> int, sorted: seq<T>, x: T, k: nat)
    requires SortedBy(key, sorted) && k <= |sorted|
    requires k > 0 ==> key(sorted[k - 1]) <= key(x)
    requires forall i :: k <= i < |sorted| ==> key(sorted[i]) > key(x)
    ensures SortedBy(key, sorted[..k] + [x] + sorted[k..])
    ensures multiset(sorted[..k] + [x] + sorted[k..]) == multiset(sorted) + multiset{x}
  {
    var r := sorted[..k] + [x] + sorted[k..];
    forall i, j | 0 <= i < j < |r| ensures key(r[i]) <= key(r[j]) {
      assert r[i] == if i < k then sorted[i] else if i == k then x else sorted[i - 1];
      assert r[j] == if j < k then sorted[j] else if j == k then x else sorted[j - 1];
    }
    InsertionKeepsContents(sorted, x, k);
  }

  lemma InsertionKeepsContents<T>(sorted: seq<T>, x: T, k: nat)
    requires k <= |sorted|
    ensures multiset(sorted[..k] + [x] + sorted[k..]) == multiset(sorted) + multiset{x}
  {
    assert sorted == sorted[..k] + sorted[k..];
  }

  /** Sorts by inserting one element after the other. */
  method Sort<T>(key: T -> int, xs: seq<T>) returns (sorted: seq<T>)
    ensures SortedBy(key, sorted) && multiset(sorted) == multiset(xs) && |sorted| == |xs|
  {
    sorted := [];
    var k := 0;
    while k < |xs|
      invariant 0 <= k <= |xs|
      invariant SortedBy(key, sorted) && multiset(sorted) == multiset(xs[..k])
    {
      sorted := Insert(key, sorted, xs[k]);
      assert xs[..k + 1] == xs[..k] + [xs[k]];
      k := k + 1;
    }
    assert xs[..k] == xs;
    assert |sorted| == |multiset(sorted)| == |multiset(xs)| == |xs|;
  }
}
