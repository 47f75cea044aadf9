/** Insertion sort on sequences: an ordered permutation that keeps ties in order. */
module StableSort {

  type Order<!T> = (T, T) -> bool

  /** A strict weak order: asymmetric, and not preceding is transitive. */
  ghost predicate WeakOrder<T(!new)>(less: Order<T>) {
    && (forall a, b :: less(a, b) ==> !less(b, a))
    && (forall a, b, c :: less(a, c) ==> less(a, b) || less(b, c))
  }

  /** No later element belongs before an earlier one. */
  ghost predicate Ordered<T(!new)>(s: seq<T>, less: Order<T>) {
    forall i, j :: 0 <= i < j < |s| ==> !less(s[j], s[i])
  }

  /** x moves left past every element it precedes. */
  function Insert<T>(s: seq<T>, x: T, less: Order<T>): seq<T> {
    if s == [] || !less(x, s[|s| - 1]) then s + [x]
    else Insert(s[..|s| - 1], x, less) + [s[|s| - 1]]
  }

  function Sort<T>(s: seq<T>, less: Order<T>): seq<T> {
    if s == [] then [] else Insert(Sort(s[..|s| - 1], less), s[|s| - 1], less)
  }

  lemma {:induction false} InsertMultiset<T>(s: seq<T>, x: T, less: Order<T>)
    ensures multiset(Insert(s, x, less)) == multiset(s) + multiset{x}
  {
    if s != [] && less(x, s[|s| - 1]) {
      var n := |s| - 1;
      InsertMultiset(s[..n], x, less);
      assert s == s[..n] + [s[n]];
    }
  }

  lemma {:induction false} InsertOrdered<T(!new)>(s: seq<T>, x: T, less: Order<T>)
    requires WeakOrder(less) && Ordered(s, less)
    ensures Ordered(Insert(s, x, less), less)
  {
    if s != [] {
      var n := |s| - 1;
      if less(x, s[n]) {
        InsertOrdered(s[..n], x, less);
        InsertMultiset(s[..n], x, less);
        var r := Insert(s[..n], x, less);
        forall i | 0 <= i < |r|
          ensures !less(s[n], r[i])
        {
          assert r[i] in multiset(r);
          assert r[i] == x || r[i] in s[..n];
        }
      }
    }
  }

  /** Sorting yields an ordered permutation. */
  lemma {:induction false} SortOrders<T(!new)>(s: seq<T>, less: Order<T>)
    requires WeakOrder(less)
    ensures Ordered(Sort(s, less), less)
    ensures multiset(Sort(s, less)) == multiset(s)
  {
    if s != [] {
      var n := |s| - 1;
      SortOrders(s[..n], less);
      InsertOrdered(Sort(s[..n], less), s[n], less);
      InsertMultiset(Sort(s[..n], less), s[n], less);
      assert s == s[..n] + [s[n]];
    }
  }

  predicate Same<T>(a: T, b: T, less: Order<T>) {
    !less(a, b) && !less(b, a)
  }

  /** The elements that tie with y, in the order they come. */
  function Ties<T>(s: seq<T>, y: T, less: Order<T>): seq<T> {
    if s == [] then []
    else
      var n := |s| - 1;
      Ties(s[..n], y, less) + (if Same(s[n], y, less) then [s[n]] else [])
  }

  lemma TiesSnoc<T>(s: seq<T>, x: T, y: T, less: Order<T>)
    ensures Ties(s + [x], y, less) == Ties(s, y, less) + (if Same(x, y, less) then [x] else [])
  {
    assert (s + [x])[..|s|] == s;
  }

  lemma NotBothTie<T(!new)>(a: T, b: T, y: T, less: Order<T>)
    requires WeakOrder(less) && less(a, b)
    ensures !(Same(a, y, less) && Same(b, y, less))
  {
    assert less(a, y) || less(y, b);
  }

  lemma {:induction false} InsertStable<T(!new)>(s: seq<T>, x: T, y: T, less: Order<T>)
    requires WeakOrder(less)
    ensures Ties(Insert(s, x, less), y, less) == Ties(s + [x], y, less)
  {
    if s != [] && less(x, s[|s| - 1]) {
      var n := |s| - 1;
      var last := s[n];
      InsertStable(s[..n], x, y, less);
      TiesSnoc(Insert(s[..n], x, less), last, y, less);
      TiesSnoc(s[..n], x, y, less);
      TiesSnoc(s, x, y, less);
      TiesSnoc(s[..n], last, y, less);
      assert s[..n] + [last] == s;
      NotBothTie(x, last, y, less);
    }
  }

  /** Sorting is stable: elements that tie keep their order. */
  lemma {:induction false} SortStable<T(!new)>(s: seq<T>, y: T, less: Order<T>)
    requires WeakOrder(less)
    ensures Ties(Sort(s, less), y, less) == Ties(s, y, less)
  {
    if s != [] {
      var n := |s| - 1;
      SortStable(s[..n], y, less);
      InsertStable(Sort(s[..n], less), s[n], y, less);
      TiesSnoc(Sort(s[..n], less), s[n], y, less);
    }
  }
}
