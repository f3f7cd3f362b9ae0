/**
 A stable sort by a real key, and the facts that determine its result: it is ordered, it holds
 the same elements, and elements with equal keys keep their order, whatever the type.
*/
module StableSort {

  function Insert<T>(key: T -> real, x: T, xs: seq<T>): seq<T> {
    if xs == [] then [x]
    else if key(x) <= key(xs[0]) then [x] + xs
    else [xs[0]] + Insert(key, x, xs[1..])
  }

  function Sort<T>(key: T -> real, xs: seq<T>): seq<T> {
    if xs == [] then [] else Insert(key, xs[0], Sort(key, xs[1..]))
  }

  predicate Ordered<T>(key: T -> real, xs: seq<T>) {
    forall i, j :: 0 <= i < j < |xs| ==> key(xs[i]) <= key(xs[j])
  }

  /** The elements with one key, in order. */
  function WithKey<T>(key: T -> real, k: real, xs: seq<T>): seq<T> {
    if xs == [] then []
    else if key(xs[0]) == k then [xs[0]] + WithKey(key, k, xs[1..])
    else WithKey(key, k, xs[1..])
  }

  predicate AtLeast<T>(key: T -> real, low: real, xs: seq<T>) {
    forall i :: 0 <= i < |xs| ==> low <= key(xs[i])
  }

  lemma {:induction false} InsertAtLeast<T>(key: T -> real, x: T, xs: seq<T>, low: real)
    requires low <= key(x) && AtLeast(key, low, xs)
    ensures AtLeast(key, low, Insert(key, x, xs))
    decreases |xs|
  {
    if xs != [] { InsertAtLeast(key, x, xs[1..], low); }
  }

  lemma {:induction false} InsertOrdered<T>(key: T -> real, x: T, xs: seq<T>)
    requires Ordered(key, xs)
    ensures Ordered(key, Insert(key, x, xs))
    decreases |xs|
  {
    if xs != [] && key(x) > key(xs[0]) {
      InsertOrdered(key, x, xs[1..]);
      InsertAtLeast(key, x, xs[1..], key(xs[0]));
    }
  }

  lemma {:induction false} InsertElements<T>(key: T -> real, x: T, xs: seq<T>)
    ensures multiset(Insert(key, x, xs)) == multiset{x} + multiset(xs)
    ensures |Insert(key, x, xs)| == |xs| + 1
    decreases |xs|
  {
    if xs != [] {
      assert xs == [xs[0]] + xs[1..];
      InsertElements(key, x, xs[1..]);
    }
  }

  lemma {:induction false} InsertKeepsOrder<T>(key: T -> real, x: T, xs: seq<T>, k: real)
    requires Ordered(key, xs)
    ensures WithKey(key, k, Insert(key, x, xs)) == WithKey(key, k, [x] + xs)
    decreases |xs|
  {
    assert ([x] + xs)[1..] == xs;
    if xs != [] && key(x) > key(xs[0]) {
      InsertKeepsOrder(key, x, xs[1..], k);
      assert ([xs[0]] + Insert(key, x, xs[1..]))[1..] == Insert(key, x, xs[1..]);
      assert ([x] + xs[1..])[1..] == xs[1..];
    }
  }

  lemma {:induction false} SortKeepsOrder<T>(key: T -> real, xs: seq<T>, k: real)
    requires Ordered(key, Sort(key, xs))
    ensures WithKey(key, k, Sort(key, xs)) == WithKey(key, k, xs)
    decreases |xs|
  {
    if xs != [] {
      var rest := Sort(key, xs[1..]);
      SortOrdered(key, xs[1..]);
      SortKeepsOrder(key, xs[1..], k);
      InsertKeepsOrder(key, xs[0], rest, k);
      assert ([xs[0]] + rest)[1..] == rest;
    }
  }

  lemma {:induction false} SortOrdered<T>(key: T -> real, xs: seq<T>)
    ensures Ordered(key, Sort(key, xs))
    decreases |xs|
  {
    if xs != [] {
      SortOrdered(key, xs[1..]);
      InsertOrdered(key, xs[0], Sort(key, xs[1..]));
    }
  }

  lemma {:induction false} SortElements<T>(key: T -> real, xs: seq<T>)
    ensures multiset(Sort(key, xs)) == multiset(xs)
    ensures |Sort(key, xs)| == |xs|
    decreases |xs|
  {
    if xs != [] {
      SortElements(key, xs[1..]);
      InsertElements(key, xs[0], Sort(key, xs[1..]));
      assert xs == [xs[0]] + xs[1..];
    }
  }

  /** The result is ordered, holds the same elements, and keeps equal keys in order. */
  lemma SortMeaning<T>(key: T -> real, xs: seq<T>)
    ensures Ordered(key, Sort(key, xs))
    ensures multiset(Sort(key, xs)) == multiset(xs)
    ensures |Sort(key, xs)| == |xs|
    ensures forall k :: WithKey(key, k, Sort(key, xs)) == WithKey(key, k, xs)
  {
    SortOrdered(key, xs);
    SortElements(key, xs);
    forall k ensures WithKey(key, k, Sort(key, xs)) == WithKey(key, k, xs) {
      SortKeepsOrder(key, xs, k);
    }
  }

  lemma SortTwo<T>(key: T -> real, x: T, y: T)
    requires key(x) <= key(y)
    ensures Sort(key, [x, y]) == [x, y]
  {
    assert [x, y][1..] == [y] && [y][1..] == [];
    assert Sort(key, [y]) == Insert(key, y, []) == [y];
  }
}
