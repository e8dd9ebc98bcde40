/** Sorting by a comparison, as the Go package sort does it: the result is a permutation in order, and
    the order among equals is left open. */
module Sorting {

  /** A strict weak order, one pair or triple at a time. */
  predicate Asymmetric<T(!new)>(less: (T, T) -> bool, a: T, b: T)
  {
    !(less(a, b) && less(b, a))
  }

  predicate Cuts<T(!new)>(less: (T, T) -> bool, a: T, b: T, c: T)
  {
    less(a, b) ==> less(a, c) || less(c, b)
  }

  ghost predicate StrictWeak<T(!new)>(less: (T, T) -> bool)
  {
    (forall a, b :: Asymmetric(less, a, b)) && (forall a, b, c :: Cuts(less, a, b, c))
  }

  predicate InOrder<T(!new)>(less: (T, T) -> bool, s: seq<T>)
  {
    forall i, j :: 0 <= i < j < |s| ==> !less(s[j], s[i])
  }

  method SortBy<T(!new)>(xs: seq<T>, less: (T, T) -> bool) returns (ys: seq<T>)
    requires StrictWeak(less)
    ensures InOrder(less, ys) && multiset(ys) == multiset(xs)
  {
    ys := [];
    for n := 0 to |xs|
      invariant InOrder(less, ys) && multiset(ys) == multiset(xs[..n])
    {
      assert xs[..n + 1] == xs[..n] + [xs[n]];
      ys := Insert(ys, xs[n], less);
    }
    assert xs[..|xs|] == xs;
  }

  method Insert<T(!new)>(s: seq<T>, x: T, less: (T, T) -> bool) returns (r: seq<T>)
    requires StrictWeak(less) && InOrder(less, s)
    ensures InOrder(less, r) && multiset(r) == multiset(s) + multiset{x}
  {
    var i := |s|;
    while i > 0 && less(x, s[i - 1])
      invariant 0 <= i <= |s|
      invariant forall j :: i <= j < |s| ==> less(x, s[j])
    {
      i := i - 1;
    }
    r := s[..i] + [x] + s[i..];
    InsertedContents(s, x, i);
    InsertedInOrder(s, x, i, less);
  }

  lemma InsertedContents<T>(s: seq<T>, x: T, i: nat)
    requires i <= |s|
    ensures multiset(s[..i] + [x] + s[i..]) == multiset(s) + multiset{x}
  {
    assert s == s[..i] + s[i..];
  }

  lemma InsertedInOrder<T(!new)>(s: seq<T>, x: T, i: nat, less: (T, T) -> bool)
    requires StrictWeak(less) && InOrder(less, s) && i <= |s| && (i > 0 ==> !less(x, s[i - 1]))
    requires forall j :: i <= j < |s| ==> less(x, s[j])
    ensures InOrder(less, s[..i] + [x] + s[i..])
  {
    var r := s[..i] + [x] + s[i..];
    forall j | 0 <= j < i ensures !less(x, s[j]) { assert Cuts(less, x, s[j], s[i - 1]); }
    forall j | i <= j < |s| ensures !less(s[j], x) { assert Asymmetric(less, x, s[j]); }
    assert forall j :: 0 <= j < |r| ==> r[j] == if j < i then s[j] else if j == i then x else s[j - 1];
  }
}
