/** Lists without repetition, and sums over the entries of a Go map, which `range` visits in any order. */
module Counting {
  import Ordering

  predicate DistinctIds(order: seq<string>)
  {
    forall i, j :: 0 <= i < j < |order| ==> order[i] != order[j]
  }

  /** Sorting keeps the elements and keeps them distinct. */
  lemma SameContents(a: seq<string>, b: seq<string>)
    requires multiset(a) == multiset(b)
    ensures Ordering.Elements(a) == Ordering.Elements(b) && (DistinctIds(a) ==> DistinctIds(b))
  {
    assert forall x :: x in a <==> x in multiset(a);
    assert forall x :: x in b <==> x in multiset(b);
    if DistinctIds(a) {
      forall i, j | 0 <= i < j < |b| ensures b[i] != b[j] {
        AtMostOnce(a, b[i]);
        assert b == b[..i] + [b[i]] + b[i + 1..j] + [b[j]] + b[j + 1..];
      }
    }
  }

  lemma {:induction false} AtMostOnce(a: seq<string>, x: string)
    requires DistinctIds(a)
    ensures multiset(a)[x] <= 1
    decreases |a|
  {
    if a != [] {
      var n := |a| - 1;
      assert a == a[..n] + [a[n]];
      if a[n] == x { assert x !in a[..n]; } else { AtMostOnce(a[..n], x); }
    }
  }

  function SizeOf<T>(m: map<string, T>, size: T -> nat, id: string): nat
  {
    if id in m then size(m[id]) else 0
  }

  /** The sizes of the entries listed in `order` whose key is in `ids`. */
  function SumOver<T>(m: map<string, T>, size: T -> nat, order: seq<string>, ids: set<string>): nat
    decreases |order|
  {
    if order == [] then 0 else
    SumOver(m, size, order[..|order| - 1], ids) +
      (if order[|order| - 1] in ids then SizeOf(m, size, order[|order| - 1]) else 0)
  }

  lemma {:induction false} SumNone<T>(m: map<string, T>, size: T -> nat, order: seq<string>, k: string, ids: set<string>)
    requires k !in order
    ensures SumOver(m, size, order, ids - {k}) == SumOver(m, size, order, ids)
    decreases |order|
  {
    if order != [] { SumNone(m, size, order[..|order| - 1], k, ids); }
  }

  lemma {:induction false} SumLess<T>(m: map<string, T>, size: T -> nat, order: seq<string>, k: string, ids: set<string>)
    requires k in order && k in ids && DistinctIds(order)
    ensures SumOver(m, size, order, ids) == SumOver(m, size, order, ids - {k}) + SizeOf(m, size, k)
    decreases |order|
  {
    var n := |order| - 1;
    if order[n] == k {
      SumNone(m, size, order[..n], k, ids);
    } else {
      SumLess(m, size, order[..n], k, ids);
    }
  }

  lemma {:induction false} SumEmpty<T>(m: map<string, T>, size: T -> nat, order: seq<string>)
    ensures SumOver(m, size, order, {}) == 0
    decreases |order|
  {
    if order != [] { SumEmpty(m, size, order[..|order| - 1]); }
  }

  lemma {:induction false} SumZero<T>(m: map<string, T>, size: T -> nat, order: seq<string>, ids: set<string>)
    requires forall k :: k in order && k in ids ==> SizeOf(m, size, k) == 0
    ensures SumOver(m, size, order, ids) == 0
    decreases |order|
  {
    if order != [] {
      assert forall k :: k in order[..|order| - 1] ==> k in order;
      SumZero(m, size, order[..|order| - 1], ids);
    }
  }

  lemma {:induction false} SumOthers<T>(m: map<string, T>, size: T -> nat, order: seq<string>, ids: set<string>, k: string, x: T)
    requires k !in order
    ensures SumOver(m[k := x], size, order, ids) == SumOver(m, size, order, ids)
    decreases |order|
  {
    if order != [] { SumOthers(m, size, order[..|order| - 1], ids, k, x); }
  }

  /** Replacing one entry changes the sum by the difference of its sizes. */
  lemma {:induction false} SumUpdate<T>(m: map<string, T>, size: T -> nat, order: seq<string>, ids: set<string>, k: string, x: T)
    requires k in m && k in order && k in ids && DistinctIds(order)
    ensures SumOver(m[k := x], size, order, ids) + size(m[k]) == SumOver(m, size, order, ids) + size(x)
    decreases |order|
  {
    var n := |order| - 1;
    if order[n] == k {
      SumOthers(m, size, order[..n], ids, k, x);
    } else {
      SumUpdate(m, size, order[..n], ids, k, x);
    }
  }
}
