/**
  The stable sort behind Python's `sorted` and SQL's `ORDER BY`, on keys that
  are pairs of integers compared lexicographically.
 */
module Sorting {
  import opened Wrappers

  type Key = (int, int)

  predicate KeyLeq(a: Key, b: Key) {
    a.0 < b.0 || (a.0 == b.0 && a.1 <= b.1)
  }

  predicate KeyLess(a: Key, b: Key) {
    a.0 < b.0 || (a.0 == b.0 && a.1 < b.1)
  }

  predicate SortedBy<T>(key: T -> Key, s: seq<T>) {
    forall i, j :: 0 <= i < j < |s| ==> KeyLeq(key(s[i]), key(s[j]))
  }

  predicate StrictlySortedBy<T>(key: T -> Key, s: seq<T>) {
    forall i, j :: 0 <= i < j < |s| ==> KeyLess(key(s[i]), key(s[j]))
  }

  predicate DistinctKeys<T>(key: T -> Key, s: seq<T>) {
    forall i, j :: 0 <= i < j < |s| ==> key(s[i]) != key(s[j])
  }

  /** Insert `x`, which arrived after everything in `s`: equal keys keep it last. */
  function Insert<T>(key: T -> Key, s: seq<T>, x: T): seq<T> {
    if |s| == 0 || KeyLeq(key(s[|s| - 1]), key(x)) then s + [x]
    else Insert(key, s[..|s| - 1], x) + [s[|s| - 1]]
  }

  function Sort<T>(key: T -> Key, s: seq<T>): seq<T> {
    if |s| == 0 then []
    else Insert(key, Sort(key, s[..|s| - 1]), s[|s| - 1])
  }

  /** The first element, in list order, that carries a key. */
  function FirstWith<T>(key: T -> Key, s: seq<T>, k: Key): Option<T> {
    if |s| == 0 then None
    else if key(s[0]) == k then Some(s[0])
    else FirstWith(key, s[1..], k)
  }

  lemma {:induction false} FirstWithAppend<T>(key: T -> Key, s: seq<T>, x: T, k: Key)
    ensures FirstWith(key, s + [x], k) ==
            if FirstWith(key, s, k).Some? then FirstWith(key, s, k)
            else if key(x) == k then Some(x) else None
  {
    if |s| > 0 {
      assert (s + [x])[1..] == s[1..] + [x];
      FirstWithAppend(key, s[1..], x, k);
    }
  }

  lemma {:induction false} FirstWithMember<T>(key: T -> Key, s: seq<T>, k: Key)
    ensures FirstWith(key, s, k).Some? <==> exists x :: x in s && key(x) == k
    ensures FirstWith(key, s, k).Some? ==>
              FirstWith(key, s, k).value in s && key(FirstWith(key, s, k).value) == k
  {
    if |s| > 0 && key(s[0]) != k {
      FirstWithMember(key, s[1..], k);
      assert forall x :: x in s <==> x == s[0] || x in s[1..];
    }
  }

  lemma {:induction false} InsertKeeps<T>(key: T -> Key, s: seq<T>, x: T)
    ensures multiset(Insert(key, s, x)) == multiset(s) + multiset{x}
  {
    hide KeyLeq;
    if |s| > 0 && !KeyLeq(key(s[|s| - 1]), key(x)) {
      var init, last := s[..|s| - 1], s[|s| - 1];
      assert s == init + [last];
      InsertKeeps(key, init, x);
    }
  }

  lemma {:induction false} InsertSorts<T>(key: T -> Key, s: seq<T>, x: T)
    requires SortedBy(key, s)
    ensures SortedBy(key, Insert(key, s, x))
  {
    if |s| > 0 && !KeyLeq(key(s[|s| - 1]), key(x)) {
      var init, last := s[..|s| - 1], s[|s| - 1];
      InsertSorts(key, init, x);
      InsertKeeps(key, init, x);
      InsertedBeforeLast(key, init, x, last, Insert(key, init, x));
      AppendLast(key, Insert(key, init, x), last);
    }
  }

  lemma InsertedBeforeLast<T>(key: T -> Key, init: seq<T>, x: T, last: T, r: seq<T>)
    requires multiset(r) == multiset(init) + multiset{x}
    requires SortedBy(key, init + [last]) && KeyLeq(key(x), key(last))
    ensures forall i :: 0 <= i < |r| ==> KeyLeq(key(r[i]), key(last))
  {
    hide KeyLeq;
    forall i | 0 <= i < |r| ensures KeyLeq(key(r[i]), key(last)) {
      assert r[i] in multiset(r);
      if r[i] != x {
        assert r[i] in init;
        var j :| 0 <= j < |init| && init[j] == r[i];
        assert KeyLeq(key((init + [last])[j]), key((init + [last])[|init|]));
      }
    }
  }

  lemma AppendLast<T>(key: T -> Key, r: seq<T>, last: T)
    requires SortedBy(key, r) && forall i :: 0 <= i < |r| ==> KeyLeq(key(r[i]), key(last))
    ensures SortedBy(key, r + [last])
  {}

  /** Sorting orders the list and loses nothing. */
  lemma {:induction false} SortSorts<T>(key: T -> Key, s: seq<T>)
    ensures SortedBy(key, Sort(key, s))
    ensures multiset(Sort(key, s)) == multiset(s)
    ensures |Sort(key, s)| == |s|
  {
    if |s| > 0 {
      hide SortedBy, Insert;
      var init, last := s[..|s| - 1], s[|s| - 1];
      assert s == init + [last];
      SortSorts(key, init);
      InsertSorts(key, Sort(key, init), last);
      InsertKeeps(key, Sort(key, init), last);
    }
    assert |Sort(key, s)| == |multiset(Sort(key, s))| == |multiset(s)|;
  }

  lemma {:induction false} InsertStable<T>(key: T -> Key, s: seq<T>, x: T, k: Key)
    requires SortedBy(key, s)
    ensures FirstWith(key, Insert(key, s, x), k) == FirstWith(key, s + [x], k)
  {
    if |s| > 0 && !KeyLeq(key(s[|s| - 1]), key(x)) {
      var init, last := s[..|s| - 1], s[|s| - 1];
      assert s == init + [last];
      InsertStable(key, init, x, k);
      FirstWithAppend(key, Insert(key, init, x), last, k);
      FirstWithAppend(key, init, x, k);
      FirstWithAppend(key, s, x, k);
      FirstWithAppend(key, init, last, k);
    }
  }

  /** Stability: among equal keys, the one that came first in the input stays first. */
  lemma {:induction false} SortStable<T>(key: T -> Key, s: seq<T>, k: Key)
    ensures FirstWith(key, Sort(key, s), k) == FirstWith(key, s, k)
  {
    if |s| > 0 {
      var init, last := s[..|s| - 1], s[|s| - 1];
      assert s == init + [last];
      SortSorts(key, init);
      SortStable(key, init, k);
      InsertStable(key, Sort(key, init), last, k);
      FirstWithAppend(key, Sort(key, init), last, k);
      FirstWithAppend(key, init, last, k);
    }
  }

  lemma {:induction false} SortOfSorted<T>(key: T -> Key, s: seq<T>)
    requires SortedBy(key, s)
    ensures Sort(key, s) == s
  {
    hide KeyLeq;
    if |s| > 0 {
      var init, last := s[..|s| - 1], s[|s| - 1];
      assert s == init + [last];
      SortOfSorted(key, init);
      if |init| > 0 {
        assert init[|init| - 1] == s[|s| - 2];
        assert KeyLeq(key(s[|s| - 2]), key(s[|s| - 1]));
      }
    }
  }

  lemma MemberAtMostLast<T>(key: T -> Key, s: seq<T>, x: T)
    requires SortedBy(key, s) && x in s
    ensures KeyLeq(key(x), key(s[|s| - 1]))
  {
    var i :| 0 <= i < |s| && s[i] == x;
    assert i < |s| - 1 ==> KeyLeq(key(s[i]), key(s[|s| - 1]));
  }

  lemma EqualLastKeys<T>(key: T -> Key, s: seq<T>, x: T)
    requires StrictlySortedBy(key, s) && x in s
    requires key(x) == key(s[|s| - 1])
    ensures x == s[|s| - 1]
  {
    var i :| 0 <= i < |s| && s[i] == x;
    assert i < |s| - 1 ==> KeyLess(key(s[i]), key(s[|s| - 1]));
  }

  lemma WithoutLast<T>(s: seq<T>)
    requires |s| > 0
    ensures multiset(s[..|s| - 1]) == multiset(s) - multiset{s[|s| - 1]}
  {
    assert s == s[..|s| - 1] + [s[|s| - 1]];
  }

  /** With distinct keys there is only one sorted arrangement of the same elements. */
  lemma {:induction false} SortedUnique<T>(key: T -> Key, a: seq<T>, b: seq<T>)
    requires StrictlySortedBy(key, a) && SortedBy(key, b)
    requires multiset(a) == multiset(b)
    ensures a == b
  {
    hide StrictlySortedBy, SortedBy;
    assert |a| == |multiset(a)| == |multiset(b)| == |b|;
    if |a| > 0 {
      var p, q := a[..|a| - 1], b[..|b| - 1];
      SameLast(key, a, b);
      PrefixesSorted(key, a, |a| - 1, b, |b| - 1);
      assert a == p + [a[|a| - 1]] && b == q + [b[|b| - 1]];
      WithoutLast(a);
      WithoutLast(b);
      SortedUnique(key, p, q);
    }
  }

  lemma SameLast<T>(key: T -> Key, a: seq<T>, b: seq<T>)
    requires StrictlySortedBy(key, a) && SortedBy(key, b)
    requires multiset(a) == multiset(b) && |a| > 0 && |b| > 0
    ensures a[|a| - 1] == b[|b| - 1]
  {
    StrictIsSorted(key, a);
    hide StrictlySortedBy, SortedBy;
    var x, y := a[|a| - 1], b[|b| - 1];
    assert y in multiset(b) && x in multiset(a);
    assert y in a && x in b;
    MemberAtMostLast(key, b, x);
    MemberAtMostLast(key, a, y);
    EqualLastKeys(key, a, y);
  }

  lemma PrefixesSorted<T>(key: T -> Key, a: seq<T>, m: nat, b: seq<T>, n: nat)
    requires StrictlySortedBy(key, a) && SortedBy(key, b) && m <= |a| && n <= |b|
    ensures StrictlySortedBy(key, a[..m]) && SortedBy(key, b[..n])
  {}

  lemma StrictIsSorted<T>(key: T -> Key, s: seq<T>)
    requires StrictlySortedBy(key, s)
    ensures SortedBy(key, s)
  {}

  lemma SortedDistinctIsStrict<T>(key: T -> Key, s: seq<T>)
    requires SortedBy(key, s) && DistinctKeys(key, s)
    ensures StrictlySortedBy(key, s)
  {}

  /** Distinctness of keys is a property of the bag of elements, not of their order. */
  lemma DistinctKeysOfPermutation<T>(key: T -> Key, a: seq<T>, b: seq<T>)
    requires multiset(a) == multiset(b) && DistinctKeys(key, a)
    ensures DistinctKeys(key, b)
  {
    forall i, j | 0 <= i < j < |b| ensures key(b[i]) != key(b[j]) {
      if key(b[i]) == key(b[j]) {
        assert b[i] in multiset(a) && b[j] in multiset(a);
        var p :| 0 <= p < |a| && a[p] == b[i];
        var q :| 0 <= q < |a| && a[q] == b[j];
        assert p == q;
        TwiceInMultiset(b, i, j);
        OnceInMultiset(key, a, p);
      }
    }
  }

  lemma TwiceInMultiset<T>(s: seq<T>, i: int, j: int)
    requires 0 <= i < j < |s| && s[i] == s[j]
    ensures multiset(s)[s[i]] >= 2
  {
    assert s == s[..j] + [s[j]] + s[j + 1..];
    assert s[i] in multiset(s[..j]) by { assert s[..j][i] == s[i]; }
  }

  lemma OnceInMultiset<T>(key: T -> Key, s: seq<T>, i: int)
    requires 0 <= i < |s| && DistinctKeys(key, s)
    ensures multiset(s)[s[i]] == 1
  {
    assert s == s[..i] + [s[i]] + s[i + 1..];
    assert s[i] !in s[..i];
    assert s[i] !in s[i + 1..];
  }

  /** Sorting two arrangements of the same distinct-key elements gives the same list. */
  lemma SortIgnoresInputOrder<T>(key: T -> Key, a: seq<T>, b: seq<T>)
    requires multiset(a) == multiset(b) && DistinctKeys(key, a)
    ensures Sort(key, a) == Sort(key, b)
  {
    SortSorts(key, a);
    SortSorts(key, b);
    DistinctKeysOfPermutation(key, a, Sort(key, a));
    SortedDistinctIsStrict(key, Sort(key, a));
    SortedUnique(key, Sort(key, a), Sort(key, b));
  }
}
