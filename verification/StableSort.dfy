/** Sorting by a key, as the sources do it: ascending, and elements of equal key keep their order. */
module StableSort {

  ghost predicate TotalOrder<K(!new)>(le: (K, K) -> bool) {
    && (forall a, b :: le(a, b) || le(b, a))
    && (forall a, b :: le(a, b) && le(b, a) ==> a == b)
    && (forall a, b, c :: le(a, b) && le(b, c) ==> le(a, c))
  }

  predicate IntLe(a: int, b: int) {
    a <= b
  }

  /** Python's order on strings: by the first character that differs, a prefix before its extensions. */
  predicate StringLe(a: string, b: string) {
    a == [] || (b != [] && (a[0] < b[0] || (a[0] == b[0] && StringLe(a[1..], b[1..]))))
  }

  lemma {:induction false} StringLeIsTotal(a: string, b: string)
    ensures StringLe(a, b) || StringLe(b, a)
    ensures StringLe(a, b) && StringLe(b, a) ==> a == b
  {
    if a != [] && b != [] && a[0] == b[0] {
      StringLeIsTotal(a[1..], b[1..]);
      assert a == [a[0]] + a[1..] && b == [b[0]] + b[1..];
    }
  }

  lemma {:induction false} StringLeIsTransitive(a: string, b: string, c: string)
    requires StringLe(a, b) && StringLe(b, c)
    ensures StringLe(a, c)
  {
    if a != [] && a[0] == b[0] == c[0] { StringLeIsTransitive(a[1..], b[1..], c[1..]); }
  }

  lemma StringLeIsOrder()
    ensures TotalOrder(StringLe)
  {
    forall a, b ensures StringLe(a, b) || StringLe(b, a) { StringLeIsTotal(a, b); }
    forall a, b | StringLe(a, b) && StringLe(b, a) ensures a == b { StringLeIsTotal(a, b); }
    forall a, b, c | StringLe(a, b) && StringLe(b, c) ensures StringLe(a, c) { StringLeIsTransitive(a, b, c); }
  }

  lemma SameFirst(x: char, a: string, b: string)
    ensures StringLe([x] + a, [x] + b) <==> StringLe(a, b)
  {
    assert ([x] + a)[1..] == a && ([x] + b)[1..] == b;
  }

  /** What two strings begin with in common does not matter. */
  lemma {:induction false} CommonStartIsIgnored(p: string, a: string, b: string)
    ensures StringLe(p + a, p + b) <==> StringLe(a, b)
  {
    hide StringLe;
    if p == [] {
      assert p + a == a && p + b == b;
    } else {
      CommonStartIsIgnored(p[1..], a, b);
      SameFirst(p[0], p[1..] + a, p[1..] + b);
      assert p + a == [p[0]] + (p[1..] + a) && p + b == [p[0]] + (p[1..] + b);
    }
  }

  /** The first character that differs decides, and a prefix comes first. */
  lemma FirstDifferenceDecides(p: string, a: string, b: string)
    requires a == [] || (b != [] && a[0] < b[0])
    ensures StringLe(p + a, p + b) && (a != b ==> !StringLe(p + b, p + a))
  {
    CommonStartIsIgnored(p, a, b);
    CommonStartIsIgnored(p, b, a);
  }

  // ---------------------------------------------------------------- sorting

  function InsertBy<T, K>(ys: seq<T>, x: T, key: T -> K, le: (K, K) -> bool): (zs: seq<T>) {
    if ys == [] || le(key(ys[|ys| - 1]), key(x)) then ys + [x]
    else InsertBy(ys[..|ys| - 1], x, key, le) + [ys[|ys| - 1]]
  }

  function SortBy<T, K>(xs: seq<T>, key: T -> K, le: (K, K) -> bool): (ys: seq<T>) {
    if xs == [] then [] else InsertBy(SortBy(xs[..|xs| - 1], key, le), xs[|xs| - 1], key, le)
  }

  ghost predicate SortedBy<T, K>(xs: seq<T>, key: T -> K, le: (K, K) -> bool) {
    forall i, j | 0 <= i < j < |xs| :: le(key(xs[i]), key(xs[j]))
  }

  /** The elements with key k, in order. */
  ghost function WithKey<T, K>(xs: seq<T>, key: T -> K, k: K): (ys: seq<T>) {
    if xs == [] then []
    else WithKey(xs[..|xs| - 1], key, k) + (if key(xs[|xs| - 1]) == k then [xs[|xs| - 1]] else [])
  }

  lemma {:induction false} InsertByKeepsAll<T, K>(ys: seq<T>, x: T, key: T -> K, le: (K, K) -> bool)
    ensures multiset(InsertBy(ys, x, key, le)) == multiset(ys) + multiset{x}
  {
    if ys != [] && !le(key(ys[|ys| - 1]), key(x)) {
      var n := |ys| - 1;
      InsertByKeepsAll(ys[..n], x, key, le);
      assert ys == ys[..n] + [ys[n]];
    }
  }

  ghost predicate AtMost<T, K>(xs: seq<T>, key: T -> K, le: (K, K) -> bool, k: K) {
    forall i | 0 <= i < |xs| :: le(key(xs[i]), k)
  }

  lemma {:induction false} InsertByIsBounded<T, K>(ys: seq<T>, x: T, key: T -> K, le: (K, K) -> bool, k: K)
    requires AtMost(ys, key, le, k) && le(key(x), k)
    ensures AtMost(InsertBy(ys, x, key, le), key, le, k)
  {
    if ys != [] && !le(key(ys[|ys| - 1]), key(x)) {
      InsertByIsBounded(ys[..|ys| - 1], x, key, le, k);
    }
  }

  lemma {:induction false} InsertByIsSorted<T, K(!new)>(ys: seq<T>, x: T, key: T -> K, le: (K, K) -> bool)
    requires TotalOrder(le) && SortedBy(ys, key, le)
    ensures SortedBy(InsertBy(ys, x, key, le), key, le)
  {
    if ys != [] && !le(key(ys[|ys| - 1]), key(x)) {
      var n := |ys| - 1;
      InsertByIsSorted(ys[..n], x, key, le);
      InsertByIsBounded(ys[..n], x, key, le, key(ys[n]));
    }
  }

  lemma {:induction false} InsertByIsStable<T, K(!new)>(ys: seq<T>, x: T, key: T -> K, le: (K, K) -> bool, k: K)
    requires TotalOrder(le)
    ensures WithKey(InsertBy(ys, x, key, le), key, k) == WithKey(ys, key, k) + (if key(x) == k then [x] else [])
  {
    if ys == [] || le(key(ys[|ys| - 1]), key(x)) {
      assert (ys + [x])[..|ys|] == ys;
    } else {
      var n := |ys| - 1;
      var zs := InsertBy(ys[..n], x, key, le);
      InsertByIsStable(ys[..n], x, key, le, k);
      assert (zs + [ys[n]])[..|zs|] == zs;
      assert key(ys[n]) != key(x);
    }
  }

  lemma SortedByEmpty<T, K>(xs: seq<T>, key: T -> K, le: (K, K) -> bool)
    requires xs == []
    ensures SortedBy(xs, key, le)
  {
  }

  /** Sorting keeps every element. */
  lemma {:induction false} SortByKeepsAll<T, K>(xs: seq<T>, key: T -> K, le: (K, K) -> bool)
    ensures multiset(SortBy(xs, key, le)) == multiset(xs) && |SortBy(xs, key, le)| == |xs|
  {
    hide InsertBy;
    if xs != [] {
      var n := |xs| - 1;
      SortByKeepsAll(xs[..n], key, le);
      InsertByKeepsAll(SortBy(xs[..n], key, le), xs[n], key, le);
      assert xs == xs[..n] + [xs[n]];
    }
    assert |SortBy(xs, key, le)| == |multiset(SortBy(xs, key, le))|;
  }

  /** Sorting orders by key, keeps every element, and keeps elements of equal key in their order. */
  lemma {:induction false} SortByIsStableSort<T, K(!new)>(xs: seq<T>, key: T -> K, le: (K, K) -> bool, k: K)
    requires TotalOrder(le)
    ensures SortedBy(SortBy(xs, key, le), key, le)
    ensures multiset(SortBy(xs, key, le)) == multiset(xs)
    ensures WithKey(SortBy(xs, key, le), key, k) == WithKey(xs, key, k)
  {
    hide SortedBy, InsertBy, TotalOrder;
    SortByKeepsAll(xs, key, le);
    if xs == [] {
      SortedByEmpty(xs, key, le);
    } else {
      var n := |xs| - 1;
      SortByIsStableSort(xs[..n], key, le, k);
      InsertByIsSorted(SortBy(xs[..n], key, le), xs[n], key, le);
      InsertByIsStable(SortBy(xs[..n], key, le), xs[n], key, le, k);
    }
  }

  /** An element of the one is an element of the other. */
  lemma SortByMember<T, K>(xs: seq<T>, key: T -> K, le: (K, K) -> bool, i: nat)
    requires i < |SortBy(xs, key, le)|
    ensures SortBy(xs, key, le)[i] in xs
  {
    hide SortBy;
    SortByKeepsAll(xs, key, le);
    assert SortBy(xs, key, le)[i] in multiset(SortBy(xs, key, le));
  }

  /** No two elements have the same key. */
  ghost predicate KeysDiffer<T, K>(xs: seq<T>, key: T -> K) {
    forall i, j | 0 <= i < j < |xs| :: key(xs[i]) != key(xs[j])
  }

  lemma {:induction false} InsertByKeepsDifferent<T, K>(ys: seq<T>, x: T, key: T -> K, le: (K, K) -> bool)
    requires KeysDiffer(ys, key) && forall i | 0 <= i < |ys| :: key(ys[i]) != key(x)
    ensures KeysDiffer(InsertBy(ys, x, key, le), key)
  {
    if ys != [] && !le(key(ys[|ys| - 1]), key(x)) {
      var n := |ys| - 1;
      var zs := InsertBy(ys[..n], x, key, le);
      InsertByKeepsDifferent(ys[..n], x, key, le);
      forall i | 0 <= i < |zs| ensures key(zs[i]) != key(ys[n]) { InsertedIsKnown(ys[..n], x, key, le, i); }
    }
  }

  lemma {:induction false} InsertedIsKnown<T, K>(ys: seq<T>, x: T, key: T -> K, le: (K, K) -> bool, i: nat)
    requires i < |InsertBy(ys, x, key, le)|
    ensures InsertBy(ys, x, key, le)[i] == x || exists j :: 0 <= j < |ys| && ys[j] == InsertBy(ys, x, key, le)[i]
  {
    if ys != [] && !le(key(ys[|ys| - 1]), key(x)) {
      var n := |ys| - 1;
      if i < |InsertBy(ys[..n], x, key, le)| {
        InsertedIsKnown(ys[..n], x, key, le, i);
        assert forall j | 0 <= j < n :: ys[..n][j] == ys[j];
      }
    }
  }

  /** Different keys stay different. */
  lemma {:induction false} SortByKeepsDifferent<T, K>(xs: seq<T>, key: T -> K, le: (K, K) -> bool)
    requires KeysDiffer(xs, key)
    ensures KeysDiffer(SortBy(xs, key, le), key)
  {
    if xs != [] {
      var n := |xs| - 1;
      SortByKeepsDifferent(xs[..n], key, le);
      var ys := SortBy(xs[..n], key, le);
      forall i | 0 <= i < |ys| ensures key(ys[i]) != key(xs[n]) {
        SortByMember(xs[..n], key, le, i);
        var j :| 0 <= j < n && xs[..n][j] == ys[i];
      }
      InsertByKeepsDifferent(ys, xs[n], key, le);
    }
  }
}
