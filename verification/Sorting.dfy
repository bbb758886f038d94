/** The stable sort by a key that the library sort of the original is used as. */
module Sorting {
  import opened Common

  /** Insertion behind everything whose key is not larger. */
  function Insert<T>(xs: seq<T>, x: T, key: T -> real): seq<T> {
    if xs == [] || key(Last(xs)) <= key(x) then xs + [x] else Insert(Front(xs), x, key) + [Last(xs)]
  }

  function SortBy<T>(xs: seq<T>, key: T -> real): (r: seq<T>)
    ensures |r| == |xs|
  {
    if xs == [] then []
    else
      var sorted := SortBy(Front(xs), key);
      InsertLength(sorted, Last(xs), key);
      Insert(sorted, Last(xs), key)
  }

  lemma {:induction false} InsertLength<T>(xs: seq<T>, x: T, key: T -> real)
    ensures |Insert(xs, x, key)| == |xs| + 1
  {
    if xs != [] { InsertLength(Front(xs), x, key); }
  }

  ghost predicate SortedBy<T(!new)>(xs: seq<T>, key: T -> real) {
    forall i, j :: 0 <= i < j < |xs| ==> key(xs[i]) <= key(xs[j])
  }

  lemma {:induction false} InsertKeepsAll<T>(xs: seq<T>, x: T, key: T -> real)
    ensures multiset(Insert(xs, x, key)) == multiset(xs) + multiset{x}
  {
    if xs != [] {
      assert xs == Front(xs) + [Last(xs)];
      InsertKeepsAll(Front(xs), x, key);
    }
  }

  lemma {:induction false} InsertSorts<T(!new)>(xs: seq<T>, x: T, key: T -> real)
    requires SortedBy(xs, key)
    ensures SortedBy(Insert(xs, x, key), key)
  {
    if xs != [] && key(Last(xs)) > key(x) {
      InsertSorts(Front(xs), x, key);
      var front := Insert(Front(xs), x, key);
      InsertKeepsAll(Front(xs), x, key);
      forall i | 0 <= i < |front| ensures key(front[i]) <= key(Last(xs)) {
        assert front[i] in multiset(front);
        assert front[i] in Front(xs) || front[i] == x;
      }
    }
  }

  /** The sort is a sort. */
  lemma {:induction false} SortBySorts<T(!new)>(xs: seq<T>, key: T -> real)
    ensures SortedBy(SortBy(xs, key), key) && multiset(SortBy(xs, key)) == multiset(xs)
  {
    if xs != [] {
      SortBySorts(Front(xs), key);
      InsertSorts(SortBy(Front(xs), key), Last(xs), key);
      InsertKeepsAll(SortBy(Front(xs), key), Last(xs), key);
      assert xs == Front(xs) + [Last(xs)];
    }
  }

  lemma SameMembers<T>(xs: seq<T>, ys: seq<T>)
    requires multiset(xs) == multiset(ys)
    ensures forall x :: x in xs <==> x in ys
  {
    forall x ensures x in xs <==> x in ys {
      assert x in xs <==> x in multiset(xs);
      assert x in ys <==> x in multiset(ys);
    }
  }
}
