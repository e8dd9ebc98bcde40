/** The order of Go strings, and the sorted listings that the repository makes from the
    keys of its maps. */
module Ordering {
  import Sorting

  /** Go's `<` on strings: the first differing character decides. */
  predicate Less(a: string, b: string)
    decreases |a|
  {
    |b| > 0 && (|a| == 0 || a[0] < b[0] || (a[0] == b[0] && Less(a[1..], b[1..])))
  }

  /** The strings are the same up to `k`, where the first one ends or has the smaller character. */
  predicate LessAt(a: string, b: string, k: nat)
  {
    k <= |a| && k < |b| && a[..k] == b[..k] && (k == |a| || a[k] < b[k])
  }

  lemma {:induction false} LessMeaning(a: string, b: string)
    ensures Less(a, b) <==> exists k: nat :: LessAt(a, b, k)
    decreases |a|
  {
    if |a| > 0 && |b| > 0 && a[0] == b[0] {
      LessMeaning(a[1..], b[1..]);
      forall k: nat ensures LessAt(a, b, k + 1) <==> LessAt(a[1..], b[1..], k) { LessTail(a, b, k); }
      if Less(a, b) {
        var k: nat :| LessAt(a[1..], b[1..], k);
        assert LessAt(a, b, k + 1);
      }
      if k: nat :| LessAt(a, b, k) {
        assert a[..0] == b[..0];
        if k > 0 { assert LessAt(a[1..], b[1..], k - 1); }
      }
    } else {
      assert Less(a, b) ==> LessAt(a, b, 0);
      forall k: nat | LessAt(a, b, k) ensures k == 0 { HeadsAgree(a, b, k); }
    }
  }

  lemma HeadsAgree(a: string, b: string, k: nat)
    ensures LessAt(a, b, k) && k > 0 ==> |a| > 0 && |b| > 0 && a[0] == b[0]
  {
    if LessAt(a, b, k) && k > 0 { assert a[..k][0] == b[..k][0]; }
  }

  lemma LessTail(a: string, b: string, k: nat)
    requires |a| > 0 && |b| > 0 && a[0] == b[0]
    ensures LessAt(a, b, k + 1) <==> LessAt(a[1..], b[1..], k)
  {
    if k + 1 <= |a| && k + 1 <= |b| {
      assert a[..k + 1] == [a[0]] + a[1..][..k] && b[..k + 1] == [b[0]] + b[1..][..k];
    }
  }

  lemma {:induction false} Irreflexive(a: string)
    ensures !Less(a, a)
  {
    if |a| > 0 { Irreflexive(a[1..]); }
  }

  lemma {:induction false} Total(a: string, b: string)
    ensures Less(a, b) || a == b || Less(b, a)
  {
    if |a| > 0 && |b| > 0 && a[0] == b[0] {
      Total(a[1..], b[1..]);
      assert a == [a[0]] + a[1..] && b == [b[0]] + b[1..];
    }
  }

  lemma {:induction false} Transitive(a: string, b: string, c: string)
    requires Less(a, b) && Less(b, c)
    ensures Less(a, c)
  {
    if |a| > 0 && a[0] == b[0] && b[0] == c[0] {
      Transitive(a[1..], b[1..], c[1..]);
    }
  }

  /** Strictly increasing, so in particular without repetition. */
  predicate StrictlySorted(s: seq<string>)
  {
    forall i, j :: 0 <= i < j < |s| ==> Less(s[i], s[j])
  }

  /** Increasing, with repetitions allowed. */
  predicate Sorted(s: seq<string>)
  {
    forall i, j :: 0 <= i < j < |s| ==> !Less(s[j], s[i])
  }

  function Elements<T>(s: seq<T>): set<T>
  {
    set x | x in s
  }

  lemma StrictlySortedDistinct(s: seq<string>)
    requires StrictlySorted(s)
    ensures forall i, j :: 0 <= i < j < |s| ==> s[i] != s[j]
  {
    forall i, j | 0 <= i < j < |s| ensures s[i] != s[j] { Irreflexive(s[i]); }
  }

  /** A strictly sorted listing is determined by its elements. */
  lemma {:induction false} StrictlySortedUnique(s: seq<string>, t: seq<string>)
    requires StrictlySorted(s) && StrictlySorted(t) && Elements(s) == Elements(t)
    ensures s == t
    decreases |s|
  {
    NoElements(s);
    NoElements(t);
    if |s| > 0 {
      assert forall x :: x in s <==> x in Elements(s);
      assert forall x :: x in t <==> x in Elements(t);
      assert s[0] in t;
      assert t[0] in s;
      SameHead(s, t);
      StrictlySortedDistinct(s);
      StrictlySortedDistinct(t);
      forall x ensures x in s[1..] <==> x in t[1..] {
        assert x in s[1..] <==> x in s && x != s[0];
        assert x in t[1..] <==> x in t && x != t[0];
      }
      assert Elements(s[1..]) == Elements(t[1..]);
      StrictlySortedUnique(s[1..], t[1..]);
      assert s == [s[0]] + s[1..] && t == [t[0]] + t[1..];
    }
  }

  lemma NoElements(s: seq<string>)
    ensures s == [] <==> Elements(s) == {}
  {
    if s != [] { assert s[0] in Elements(s); }
  }

  lemma SameHead(s: seq<string>, t: seq<string>)
    requires StrictlySorted(s) && StrictlySorted(t) && |s| > 0 && |t| > 0
    requires s[0] in t && t[0] in s
    ensures s[0] == t[0]
  {
    if s[0] != t[0] {
      var i :| 0 <= i < |t| && t[i] == s[0];
      var j :| 0 <= j < |s| && s[j] == t[0];
      Transitive(s[0], t[0], s[0]);
      Irreflexive(s[0]);
    }
  }

  /** The keys of a map listed by `range` and sorted with `sort.Strings`. */
  method SortedKeys(keys: set<string>) returns (ids: seq<string>)
    ensures StrictlySorted(ids) && Elements(ids) == keys
  {
    ids := [];
    var rest := keys;
    while rest != {}
      invariant StrictlySorted(ids) && rest <= keys && Elements(ids) == keys - rest
      decreases rest
    {
      var k :| k in rest;
      assert k !in ids by { assert k !in Elements(ids); }
      ghost var before := ids;
      ids := InsertNew(ids, k);
      assert Elements(ids) == Elements(before) + {k} by { assert forall x :: x in ids <==> x in before || x == k; }
      rest := rest - {k};
    }
  }

  method InsertNew(s: seq<string>, k: string) returns (r: seq<string>)
    requires StrictlySorted(s) && k !in s
    ensures StrictlySorted(r) && forall x :: x in r <==> x in s || x == k
  {
    var i := |s|;
    while i > 0 && Less(k, s[i - 1])
      invariant 0 <= i <= |s|
      invariant forall j :: i <= j < |s| ==> Less(k, s[j])
    {
      i := i - 1;
    }
    r := s[..i] + [k] + s[i..];
    forall j | 0 <= j < i ensures Less(s[j], k) {
      Total(s[i - 1], k);
      if j < i - 1 { Transitive(s[j], s[i - 1], k); }
    }
    InsertedElements(s, k, i);
  }

  lemma InsertedElements(s: seq<string>, k: string, i: nat)
    requires i <= |s|
    ensures forall x :: x in s[..i] + [k] + s[i..] <==> x in s || x == k
  {
    assert s == s[..i] + s[i..];
  }

  /** `sort.Strings` on a slice. */
  method Sort(xs: seq<string>) returns (ys: seq<string>)
    ensures Sorted(ys) && multiset(ys) == multiset(xs)
  {
    LessIsStrictWeak();
    ys := Sorting.SortBy(xs, Less);
  }

  lemma LessIsStrictWeak()
    ensures Sorting.StrictWeak(Less)
  {
    forall a, b ensures Sorting.Asymmetric(Less, a, b) { NotBoth(a, b); }
    forall a, b, c ensures Sorting.Cuts(Less, a, b, c) { Between(a, b, c); }
  }

  lemma NotBoth(a: string, b: string)
    ensures !(Less(a, b) && Less(b, a))
  {
    Irreflexive(a);
    if Less(a, b) && Less(b, a) { Transitive(a, b, a); }
  }

  /** Whatever `c` is, it comes after `a` or before `b`. */
  lemma Between(a: string, b: string, c: string)
    ensures Less(a, b) ==> Less(a, c) || Less(c, b)
  {
    if Less(a, b) {
      Total(a, c);
      if Less(c, a) { Transitive(c, a, b); }
    }
  }

  /** A sorted listing without repetitions is strictly sorted. */
  lemma SortedDistinct(s: seq<string>)
    requires Sorted(s) && forall i, j :: 0 <= i < j < |s| ==> s[i] != s[j]
    ensures StrictlySorted(s)
  {
    forall i, j | 0 <= i < j < |s| ensures Less(s[i], s[j]) { Total(s[i], s[j]); }
  }

  // ---- Sorted listings with repetitions ------------------------------------------------------

  /** The listing without adjacent repetitions. */
  function Dedup(s: seq<string>): (d: seq<string>)
    ensures |d| <= |s| && (s != [] ==> d != [] && d[|d| - 1] == s[|s| - 1])
    ensures forall x :: x in d <==> x in s
    decreases |s|
  {
    if s == [] then [] else
    var n := |s| - 1;
    assert forall x :: x in s <==> x in s[..n] || x == s[n];
    if n > 0 && s[n - 1] == s[n] then Dedup(s[..n]) else Dedup(s[..n]) + [s[n]]
  }

  lemma {:induction false} DedupSorted(s: seq<string>)
    requires Sorted(s)
    ensures StrictlySorted(Dedup(s))
    decreases |s|
  {
    if s != [] {
      var n := |s| - 1;
      DedupSorted(s[..n]);
      if n > 0 && s[n - 1] != s[n] {
        var d := Dedup(s[..n]);
        Total(s[n - 1], s[n]);
        forall i | 0 <= i < |d| ensures Less(d[i], s[n]) {
          if i < |d| - 1 { Transitive(d[i], d[|d| - 1], s[n]); }
        }
      }
    }
  }

  lemma {:induction false} DedupPrefix(s: seq<string>, i: nat)
    requires i <= |s|
    ensures |Dedup(s[..i])| <= |Dedup(s)| && Dedup(s)[..|Dedup(s[..i])|] == Dedup(s[..i])
    decreases |s|
  {
    if i == |s| {
      assert s[..i] == s;
    } else {
      var n := |s| - 1;
      DedupPrefix(s[..n], i);
      assert s[..n][..i] == s[..i];
    }
  }

  /** Which of the different elements is at a position. */
  function Block(s: seq<string>, c: nat): nat
    requires c < |s|
  {
    |Dedup(s[..c + 1])| - 1
  }

  lemma BlockAt(s: seq<string>, c: nat)
    requires c < |s|
    ensures Block(s, c) < |Dedup(s)| && Dedup(s)[Block(s, c)] == s[c]
  {
    DedupPrefix(s, c + 1);
    var d := Dedup(s[..c + 1]);
    assert Dedup(s)[|d| - 1] == Dedup(s)[..|d|][|d| - 1];
  }

  lemma BlockEnds(s: seq<string>)
    requires s != []
    ensures Block(s, 0) == 0 && Block(s, |s| - 1) == |Dedup(s)| - 1
  {
    assert s[..1][..0] == [] && s[..|s|] == s;
  }

  lemma BlockNext(s: seq<string>, c: nat)
    requires c + 1 < |s|
    ensures Block(s, c + 1) == if s[c + 1] == s[c] then Block(s, c) else Block(s, c) + 1
  {
    assert s[..c + 2][..c + 1] == s[..c + 1];
  }

  /** How often an element occurs before a position that holds it. */
  function Before(s: seq<string>, c: nat): nat
    requires c < |s|
  {
    multiset(s[..c])[s[c]]
  }

  lemma BeforeBound(s: seq<string>, c: nat)
    requires c < |s|
    ensures Before(s, c) + 1 <= multiset(s)[s[c]] && (c + 1 == |s| ==> Before(s, c) + 1 == multiset(s)[s[c]])
    ensures c + 1 < |s| && s[c + 1] == s[c] ==> Before(s, c + 1) == Before(s, c) + 1
    ensures c == 0 ==> Before(s, c) == 0
  {
    assert s == s[..c] + [s[c]] + s[c + 1..];
    if c + 1 < |s| { assert s[..c + 1] == s[..c] + [s[c]]; }
    if c + 1 == |s| { assert s[c + 1..] == []; }
  }

  /** Between different neighbours one run of copies ends and another begins. */
  lemma BeforeNew(s: seq<string>, c: nat)
    requires Sorted(s) && c + 1 < |s| && s[c + 1] != s[c]
    ensures Before(s, c + 1) == 0 && Before(s, c) + 1 == multiset(s)[s[c]]
  {
    Total(s[c], s[c + 1]);
    assert forall i :: 0 <= i <= c ==> s[i] != s[c + 1];
    assert forall i :: c + 1 <= i < |s| ==> s[i] != s[c];
    assert s[c + 1] !in multiset(s[..c + 1]);
    assert s[c] !in multiset(s[c + 1..]);
    assert s == s[..c] + [s[c]] + s[c + 1..];
  }

  /** How often the element at a position occurs after it. */
  function After(s: seq<string>, c: nat): nat
    requires c < |s|
  {
    BeforeBound(s, c);
    multiset(s)[s[c]] - 1 - Before(s, c)
  }

  /** The next position is in the same run of copies. */
  predicate Again(s: seq<string>, c: nat)
  {
    c + 1 < |s| && s[c + 1] == s[c]
  }

  lemma SameRun(s: seq<string>, c: nat)
    requires Again(s, c)
    ensures Block(s, c + 1) == Block(s, c) && After(s, c) == After(s, c + 1) + 1
  {
    BlockNext(s, c);
    BeforeBound(s, c);
  }

  /** After the last copy comes the first copy of the next element, after the last element the first. */
  lemma NextRun(s: seq<string>, c: nat, n: nat)
    requires Sorted(s) && c < |s| && !Again(s, c) && n == if c + 1 == |s| then 0 else c + 1
    ensures After(s, c) == 0 && Before(s, n) == 0
    ensures Block(s, n) == if Block(s, c) + 1 == |Dedup(s)| then 0 else Block(s, c) + 1
  {
    BeforeBound(s, c);
    BlockAt(s, c);
    if c + 1 == |s| {
      BlockEnds(s);
      BeforeBound(s, 0);
    } else {
      BlockAt(s, c + 1);
      BlockNext(s, c);
      BeforeNew(s, c);
    }
  }

  /** In a listing without repetitions every element occurs once. */
  lemma DedupStrict(s: seq<string>)
    requires StrictlySorted(s)
    ensures Dedup(s) == s
    decreases |s|
  {
    if s != [] {
      StrictlySortedDistinct(s);
      DedupStrict(s[..|s| - 1]);
      assert s == s[..|s| - 1] + [s[|s| - 1]];
    }
  }
}
