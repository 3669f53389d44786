/** set_intersection_count: how many elements two sorted ranges have in common. */
module Intersection {
  import opened SortedVector

  /** Elements the comparator does not tell apart have one key, others have different ones. */
  ghost predicate KeysClasses<T(!new), K(!new)>(less: (T, T) -> bool, key: T -> K) {
    forall a, b :: key(a) == key(b) <==> !less(a, b) && !less(b, a)
  }

  /** There are always such keys: the classes themselves. */
  lemma KeyExists<T(!new)>(less: (T, T) -> bool)
    requires StrictWeakOrder(less)
    ensures exists key: T -> iset<T> :: KeysClasses(less, key)
  {
    var key := (a: T) => iset x | !less(a, x) && !less(x, a);
    forall a, b
      ensures key(a) == key(b) <==> !less(a, b) && !less(b, a)
    {
      if key(a) == key(b) { assert b in key(b); }
    }
    assert KeysClasses(less, key);
  }

  ghost function Keys<T, K>(s: seq<T>, key: T -> K): (r: seq<K>)
    ensures |r| == |s| && forall i :: 0 <= i < |s| ==> r[i] == key(s[i])
  {
    seq(|s|, i requires 0 <= i < |s| => key(s[i]))
  }

  /** What two ranges have in common, repetitions included. */
  ghost function Common<T, K>(key: T -> K, a: seq<T>, b: seq<T>): multiset<K> {
    multiset(Keys(a, key)) * multiset(Keys(b, key))
  }

  lemma KeysSplit<T, K>(s: seq<T>, i: nat, key: T -> K)
    requires i < |s|
    ensures multiset(Keys(s[i..], key)) == multiset{key(s[i])} + multiset(Keys(s[i + 1..], key))
  {
    assert Keys(s[i..], key) == [key(s[i])] + Keys(s[i + 1..], key);
  }

  /** An element smaller than all that is left of the other range is in it nowhere. */
  lemma SmallerIsElsewhere<T(!new), K(!new)>(less: (T, T) -> bool, key: T -> K, x: T, b: seq<T>, j: nat)
    requires StrictWeakOrder(less) && KeysClasses(less, key) && Sorted(less, b) && j < |b| && less(x, b[j])
    ensures multiset(Keys(b[j..], key))[key(x)] == 0
  {
    var ks := Keys(b[j..], key);
    forall i | 0 <= i < |ks|
      ensures ks[i] != key(x)
    {
      assert ks[i] == key(b[j + i]);
      assert i > 0 ==> !less(b[j + i], b[j]);
    }
    assert key(x) !in ks;
  }

  lemma SmallerIsNotCommon<K>(k: K, a: multiset<K>, b: multiset<K>)
    requires b[k] == 0
    ensures (multiset{k} + a) * b == a * b && b * (multiset{k} + a) == b * a
  {
  }

  lemma EqualIsCommon<K>(k: K, a: multiset<K>, b: multiset<K>)
    ensures (multiset{k} + a) * (multiset{k} + b) == a * b + multiset{k}
  {
  }

  /** The first element of a, smaller than the first of b, can go. */
  lemma SkipLeft<T(!new), K(!new)>(less: (T, T) -> bool, key: T -> K, a: seq<T>, i: nat, b: seq<T>, j: nat)
    requires StrictWeakOrder(less) && KeysClasses(less, key) && Sorted(less, b)
    requires i < |a| && j < |b| && less(a[i], b[j])
    ensures Common(key, a[i..], b[j..]) == Common(key, a[i + 1..], b[j..])
    ensures Common(key, b[j..], a[i..]) == Common(key, b[j..], a[i + 1..])
  {
    KeysSplit(a, i, key);
    SmallerIsElsewhere(less, key, a[i], b, j);
    SmallerIsNotCommon(key(a[i]), multiset(Keys(a[i + 1..], key)), multiset(Keys(b[j..], key)));
  }

  /** Two first elements that are not told apart are one common element. */
  lemma TakeBoth<T(!new), K(!new)>(key: T -> K, a: seq<T>, i: nat, b: seq<T>, j: nat)
    requires i < |a| && j < |b| && key(a[i]) == key(b[j])
    ensures |Common(key, a[i..], b[j..])| == |Common(key, a[i + 1..], b[j + 1..])| + 1
  {
    KeysSplit(a, i, key);
    KeysSplit(b, j, key);
    EqualIsCommon(key(a[i]), multiset(Keys(a[i + 1..], key)), multiset(Keys(b[j + 1..], key)));
  }

  lemma NothingLeft<T, K>(key: T -> K, a: seq<T>, i: nat, b: seq<T>, j: nat)
    requires i <= |a| && j <= |b| && (i == |a| || j == |b|)
    ensures |Common(key, a[i..], b[j..])| == 0
  {
    assert Common(key, a[i..], b[j..]) == multiset{};
  }

  /** Sorted by the comparator, counted up to what it does not tell apart. */
  method SetIntersectionCount<T(!new), K(!new)>(a: seq<T>, b: seq<T>, compare: (T, T) -> bool, ghost key: T -> K)
    returns (count: nat)
    requires StrictWeakOrder(compare) && KeysClasses(compare, key)
    requires Sorted(compare, a) && Sorted(compare, b)
    ensures count == |multiset(Keys(a, key)) * multiset(Keys(b, key))|
  {
    count := 0;
    var i, j := 0, 0;
    assert a[0..] == a && b[0..] == b;
    while i < |a| && j < |b|
      invariant i <= |a| && j <= |b|
      invariant count + |Common(key, a[i..], b[j..])| == |Common(key, a, b)|
      decreases |a| - i + |b| - j
    {
      if compare(a[i], b[j]) {
        SkipLeft(compare, key, a, i, b, j);
        i := i + 1;
      } else {
        if !compare(b[j], a[i]) {
          TakeBoth(key, a, i, b, j);
          count := count + 1;
          i := i + 1;
        } else {
          SkipLeft(compare, key, b, j, a, i);
        }
        j := j + 1;
      }
    }
    NothingLeft(key, a, i, b, j);
  }

  /** The overload without a comparator, on numbers. */
  method SetIntersectionCountByLess(a: seq<int>, b: seq<int>) returns (count: nat)
    requires Sorted((x: int, y: int) => x < y, a) && Sorted((x: int, y: int) => x < y, b)
    ensures count == |multiset(a) * multiset(b)|
  {
    ghost var key := (x: int) => x;
    count := SetIntersectionCount(a, b, (x: int, y: int) => x < y, key);
    assert Keys(a, key) == a && Keys(b, key) == b;
  }
}
