/** Stable insertion sort on a total preorder, filtering, and how the two commute. */
module Sorting {

  type Order<!T> = (T, T) -> bool

  ghost predicate Total<T(!new)>(leq: Order<T>) {
    && (forall a, b :: leq(a, b) || leq(b, a))
    && (forall a, b, c :: leq(a, b) && leq(b, c) ==> leq(a, c))
  }

  ghost predicate Sorted<T>(xs: seq<T>, leq: Order<T>) {
    forall i, j :: 0 <= i < j < |xs| ==> leq(xs[i], xs[j])
  }

  function Insert<T>(x: T, xs: seq<T>, leq: Order<T>): seq<T> {
    if xs == [] || leq(x, xs[0]) then [x] + xs else [xs[0]] + Insert(x, xs[1..], leq)
  }

  function Sort<T>(xs: seq<T>, leq: Order<T>): seq<T> {
    if xs == [] then [] else Insert(xs[0], Sort(xs[1..], leq), leq)
  }

  lemma {:induction false} InsertKeeps<T(!new)>(x: T, xs: seq<T>, leq: Order<T>)
    ensures multiset(Insert(x, xs, leq)) == multiset(xs) + multiset{x}
  {
    if xs != [] && !leq(x, xs[0]) {
      InsertKeeps(x, xs[1..], leq);
      assert xs == [xs[0]] + xs[1..];
    }
  }

  lemma {:induction false} InsertBounds<T(!new)>(x: T, xs: seq<T>, leq: Order<T>, low: T)
    requires leq(low, x) && forall i :: 0 <= i < |xs| ==> leq(low, xs[i])
    ensures forall i :: 0 <= i < |Insert(x, xs, leq)| ==> leq(low, Insert(x, xs, leq)[i])
  {
    if xs != [] && !leq(x, xs[0]) {
      InsertBounds(x, xs[1..], leq, low);
    }
  }

  lemma {:induction false} InsertSorts<T(!new)>(x: T, xs: seq<T>, leq: Order<T>)
    requires Total(leq) && Sorted(xs, leq)
    ensures Sorted(Insert(x, xs, leq), leq)
  {
    if xs != [] && !leq(x, xs[0]) {
      InsertSorts(x, xs[1..], leq);
      InsertBounds(x, xs[1..], leq, xs[0]);
    }
  }

  lemma {:induction false} SortSorts<T(!new)>(xs: seq<T>, leq: Order<T>)
    requires Total(leq)
    ensures Sorted(Sort(xs, leq), leq) && multiset(Sort(xs, leq)) == multiset(xs)
  {
    if xs != [] {
      SortSorts(xs[1..], leq);
      InsertSorts(xs[0], Sort(xs[1..], leq), leq);
      InsertKeeps(xs[0], Sort(xs[1..], leq), leq);
      assert xs == [xs[0]] + xs[1..];
    }
  }

  lemma SortKeeps<T(!new)>(xs: seq<T>, leq: Order<T>)
    requires Total(leq)
    ensures |Sort(xs, leq)| == |xs|
    ensures forall x :: x in Sort(xs, leq) <==> x in xs
  {
    SortSorts(xs, leq);
    assert |multiset(Sort(xs, leq))| == |multiset(xs)|;
    assert forall x :: x in Sort(xs, leq) <==> x in multiset(Sort(xs, leq));
    assert forall x :: x in xs <==> x in multiset(xs);
  }

  function Filter<T>(xs: seq<T>, p: T -> bool): seq<T> {
    if xs == [] then [] else if p(xs[0]) then [xs[0]] + Filter(xs[1..], p) else Filter(xs[1..], p)
  }

  lemma {:induction false} FilterTwice<T>(xs: seq<T>, p: T -> bool, q: T -> bool, both: T -> bool)
    requires forall x :: both(x) <==> p(x) && q(x)
    ensures Filter(Filter(xs, p), q) == Filter(xs, both)
  {
    if xs != [] {
      FilterTwice(xs[1..], p, q, both);
      if p(xs[0]) {
        assert Filter(xs, p)[1..] == Filter(xs[1..], p);
      }
    }
  }

  lemma {:induction false} FilterSuffix<T>(xs: seq<T>, p: T -> bool, k: nat)
    requires k <= |xs| && forall i :: 0 <= i < |xs| ==> (p(xs[i]) <==> i >= k)
    ensures Filter(xs, p) == xs[k..]
  {
    if xs != [] {
      assert p(xs[0]) <==> 0 >= k;
      assert forall i :: 0 <= i < |xs| - 1 ==> xs[1..][i] == xs[i + 1];
      FilterSuffix(xs[1..], p, if k == 0 then 0 else k - 1);
    }
  }

  lemma {:induction false} FilterFrom<T>(xs: seq<T>, p: T -> bool)
    ensures Filter(xs, p) == [] || Filter(xs, p)[0] in xs
  {
    if xs != [] {
      FilterFrom(xs[1..], p);
      assert xs == [xs[0]] + xs[1..];
    }
  }

  lemma {:induction false} InsertOfFilter<T(!new)>(x: T, xs: seq<T>, p: T -> bool, leq: Order<T>)
    requires Total(leq) && Sorted(xs, leq)
    ensures Filter(Insert(x, xs, leq), p) == if p(x) then Insert(x, Filter(xs, p), leq) else Filter(xs, p)
  {
    var inserted := Insert(x, xs, leq);
    if xs == [] || leq(x, xs[0]) {
      assert inserted[1..] == xs;
      FilterFrom(xs, p);
    } else {
      assert inserted[1..] == Insert(x, xs[1..], leq);
      InsertOfFilter(x, xs[1..], p, leq);
      if p(xs[0]) {
        assert Filter(xs, p)[1..] == Filter(xs[1..], p);
      }
    }
  }

  /** Sorting what passes a filter is filtering what was sorted. */
  lemma {:induction false} SortOfFilter<T(!new)>(xs: seq<T>, p: T -> bool, leq: Order<T>)
    requires Total(leq)
    ensures Sort(Filter(xs, p), leq) == Filter(Sort(xs, leq), p)
  {
    if xs != [] {
      SortOfFilter(xs[1..], p, leq);
      SortSorts(xs[1..], leq);
      InsertOfFilter(xs[0], Sort(xs[1..], leq), p, leq);
      if p(xs[0]) {
        assert Filter(xs, p)[1..] == Filter(xs[1..], p);
      }
    }
  }
}
