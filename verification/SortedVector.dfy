/** sorted_vector: a vector kept in order by a comparator. */
module SortedVector {
  import opened Wrappers

  /** What the standard library demands of a comparator: a strict weak order. */
  ghost predicate StrictWeakOrder<T(!new)>(less: (T, T) -> bool) {
    && (forall a :: !less(a, a))
    && (forall a, b :: less(a, b) ==> !less(b, a))
    && (forall a, b, c :: !less(a, b) && !less(b, c) ==> !less(a, c))
  }

  ghost predicate Sorted<T>(less: (T, T) -> bool, s: seq<T>) {
    forall i, j :: 0 <= i < j < |s| ==> !less(s[j], s[i])
  }

  /** std::partition_point over "comes before key". */
  function PartitionPoint<T, K>(s: seq<T>, before: (T, K) -> bool, key: K): (k: nat)
    ensures k <= |s|
    ensures forall i :: 0 <= i < k ==> before(s[i], key)
    ensures k < |s| ==> !before(s[k], key)
  {
    if s == [] || !before(s[0], key) then 0 else 1 + PartitionPoint(s[1..], before, key)
  }

  /** before agrees with the order: what comes before the key is closed downwards. */
  ghost predicate Compatible<T(!new), K(!new)>(less: (T, T) -> bool, before: (T, K) -> bool) {
    forall a, b, k :: !less(b, a) && before(b, k) ==> before(a, k)
  }

  /** equal picks out the elements right behind those that come before the key. */
  ghost predicate FirstsOnly<T(!new), K(!new)>(less: (T, T) -> bool, before: (T, K) -> bool, equal: (T, K) -> bool) {
    && (forall a, k :: equal(a, k) ==> !before(a, k))
    && (forall a, b, k :: equal(a, k) && less(b, a) ==> before(b, k))
    && (forall a, b, k :: equal(a, k) && !less(b, a) && !less(a, b) ==> equal(b, k))
  }

  /** The position at which find looks. */
  ghost predicate FirstNotBefore<T, K>(s: seq<T>, before: (T, K) -> bool, key: K, k: int) {
    0 <= k < |s| && !before(s[k], key) && forall i :: 0 <= i < k ==> before(s[i], key)
  }

  /** With that equality, when the element there is not equal no element is. */
  lemma NoneBehind<T(!new), K(!new)>(s: seq<T>, less: (T, T) -> bool, before: (T, K) -> bool, equal: (T, K) -> bool, key: K, part: nat)
    requires StrictWeakOrder(less) && Sorted(less, s) && part <= |s|
    requires forall i :: 0 <= i < part ==> before(s[i], key)
    requires part < |s| ==> !before(s[part], key) && !equal(s[part], key)
    ensures FirstsOnly(less, before, equal) ==> forall i :: 0 <= i < |s| ==> !equal(s[i], key)
  {
    if FirstsOnly(less, before, equal) {
      forall i | 0 <= i < |s|
        ensures !equal(s[i], key)
      {
        if i > part { assert !less(s[i], s[part]); }
      }
    }
  }

  /**
    An equality finer than the order hides elements: find takes it to its default, which
    compares whole elements, and misses one that is there behind an equivalent one.
    */
  method FindMisses() returns (data: seq<(int, int)>, found: Option<nat>)
    ensures (1, 2) in data && found == None
  {
    var v := new SortedVector<(int, int)>((a: (int, int), b: (int, int)) => a.0 < b.0);
    v.Insert((1, 2));
    v.Insert((1, 1));
    data := v.data;
    assert data == [(1, 1), (1, 2)];
    found := v.Find((1, 2), v.less, (a: (int, int), b: (int, int)) => a == b);
  }

  /** In a sorted vector nothing behind the partition point comes before the key. */
  lemma PartitionPointSplits<T(!new), K(!new)>(s: seq<T>, less: (T, T) -> bool, before: (T, K) -> bool, key: K)
    requires Sorted(less, s) && Compatible(less, before)
    ensures forall i :: PartitionPoint(s, before, key) <= i < |s| ==> !before(s[i], key)
  {
    var k := PartitionPoint(s, before, key);
    forall i | k <= i < |s|
      ensures !before(s[i], key)
    {
      assert k < i ==> !less(s[i], s[k]);
    }
  }

  lemma {:induction false} PartitionPointOfAll<T, K>(s: seq<T>, before: (T, K) -> bool, key: K)
    requires forall i :: 0 <= i < |s| ==> before(s[i], key)
    ensures PartitionPoint(s, before, key) == |s|
  {
    if s != [] { PartitionPointOfAll(s[1..], before, key); }
  }

  function Inserted<T>(s: seq<T>, k: nat, val: T): seq<T>
    requires k <= |s|
  {
    s[..k] + [val] + s[k..]
  }

  lemma InsertedIsSorted<T(!new)>(s: seq<T>, less: (T, T) -> bool, val: T)
    requires StrictWeakOrder(less) && Sorted(less, s)
    ensures var r := Inserted(s, PartitionPoint(s, less, val), val);
            Sorted(less, r) && multiset(r) == multiset(s) + multiset{val}
  {
    var k := PartitionPoint(s, less, val);
    PartitionPointSplits(s, less, less, val);
    InsertedBetween(s, less, k, val);
    InsertedContents(s, k, val);
  }

  lemma InsertedBetween<T>(s: seq<T>, less: (T, T) -> bool, k: nat, val: T)
    requires Sorted(less, s) && k <= |s|
    requires forall i :: 0 <= i < k ==> !less(val, s[i])
    requires forall i :: k <= i < |s| ==> !less(s[i], val)
    ensures Sorted(less, Inserted(s, k, val))
  {
    var r := Inserted(s, k, val);
    assert forall i :: 0 <= i < |r| ==> r[i] == if i < k then s[i] else if i == k then val else s[i - 1];
  }

  lemma InsertedContents<T>(s: seq<T>, k: nat, val: T)
    requires k <= |s|
    ensures multiset(Inserted(s, k, val)) == multiset(s) + multiset{val}
  {
    assert s == s[..k] + s[k..];
  }

  /** now is was with val put in front of the first element that is not less. */
  ghost predicate InsertedBefore<T>(less: (T, T) -> bool, was: seq<T>, now: seq<T>, val: T) {
    && |now| == |was| + 1
    && exists k: nat :: k <= |was| && IsInsertedAt(less, was, now, val, k)
  }

  ghost predicate IsInsertedAt<T>(less: (T, T) -> bool, was: seq<T>, now: seq<T>, val: T, k: nat)
    requires |now| == |was| + 1 && k <= |was|
  {
    && now[k] == val && now[..k] == was[..k] && now[k + 1..] == was[k..]
    && (forall i :: 0 <= i < k ==> less(was[i], val)) && (forall i :: k <= i < |was| ==> !less(was[i], val))
  }

  lemma InsertedInFront<T(!new)>(less: (T, T) -> bool, s: seq<T>, val: T)
    requires StrictWeakOrder(less) && Sorted(less, s)
    ensures InsertedBefore(less, s, Inserted(s, PartitionPoint(s, less, val), val), val)
  {
    var k := PartitionPoint(s, less, val);
    PartitionPointSplits(s, less, less, val);
    assert IsInsertedAt(less, s, Inserted(s, k, val), val, k);
  }

  /** std::inplace_merge: on a tie the first vector's element comes first. */
  function Merged<T>(less: (T, T) -> bool, a: seq<T>, b: seq<T>): seq<T>
    decreases |a| + |b|
  {
    if a == [] then b
    else if b == [] then a
    else if less(b[0], a[0]) then [b[0]] + Merged(less, a, b[1..])
    else [a[0]] + Merged(less, a[1..], b)
  }

  lemma FirstContents<T>(x: T, s: seq<T>)
    ensures multiset([x] + s) == multiset{x} + multiset(s)
  {
  }

  lemma FirstAndRest<T>(s: seq<T>)
    requires s != []
    ensures multiset(s) == multiset{s[0]} + multiset(s[1..])
  {
    assert s == [s[0]] + s[1..];
  }

  lemma {:induction false} MergedContents<T>(less: (T, T) -> bool, a: seq<T>, b: seq<T>)
    ensures multiset(Merged(less, a, b)) == multiset(a) + multiset(b)
    decreases |a| + |b|
  {
    if a != [] && b != [] {
      if less(b[0], a[0]) {
        MergedContents(less, a, b[1..]);
        FirstAndRest(b);
        FirstContents(b[0], Merged(less, a, b[1..]));
      } else {
        MergedContents(less, a[1..], b);
        FirstAndRest(a);
        FirstContents(a[0], Merged(less, a[1..], b));
      }
    }
  }

  lemma MergedMembers<T>(less: (T, T) -> bool, a: seq<T>, b: seq<T>)
    ensures forall x :: x in Merged(less, a, b) <==> x in a || x in b
  {
    MergedContents(less, a, b);
    forall x
      ensures x in Merged(less, a, b) <==> x in a || x in b
    {
      assert x in Merged(less, a, b) <==> x in multiset(Merged(less, a, b));
    }
  }

  lemma {:induction false} MergedIsSorted<T(!new)>(less: (T, T) -> bool, a: seq<T>, b: seq<T>)
    requires StrictWeakOrder(less) && Sorted(less, a) && Sorted(less, b)
    ensures Sorted(less, Merged(less, a, b)) && multiset(Merged(less, a, b)) == multiset(a) + multiset(b)
    decreases |a| + |b|
  {
    MergedContents(less, a, b);
    if a != [] && b != [] {
      if less(b[0], a[0]) {
        MergedIsSorted(less, a, b[1..]);
        MergedMembers(less, a, b[1..]);
        PrependSorted(less, b[0], Merged(less, a, b[1..]), a, b[1..]);
      } else {
        MergedIsSorted(less, a[1..], b);
        MergedMembers(less, a[1..], b);
        PrependSorted(less, a[0], Merged(less, a[1..], b), a[1..], b);
      }
    }
  }

  predicate Equivalent<T>(less: (T, T) -> bool, a: T, b: T) {
    !less(a, b) && !less(b, a)
  }

  /** The elements the order does not tell from x, as they come. */
  function Equivalents<T>(less: (T, T) -> bool, s: seq<T>, x: T): seq<T> {
    if s == [] then [] else (if Equivalent(less, s[0], x) then [s[0]] else []) + Equivalents(less, s[1..], x)
  }

  lemma {:induction false} NoEquivalents<T>(less: (T, T) -> bool, s: seq<T>, x: T)
    requires forall i :: 0 <= i < |s| ==> !Equivalent(less, s[i], x)
    ensures Equivalents(less, s, x) == []
  {
    if s != [] { NoEquivalents(less, s[1..], x); }
  }

  /** What is sorted behind an element of one class is in no way of that class. */
  lemma BehindIsOther<T(!new)>(less: (T, T) -> bool, s: seq<T>, y: T, x: T)
    requires StrictWeakOrder(less) && Sorted(less, s) && s != [] && less(y, s[0]) && Equivalent(less, y, x)
    ensures forall i :: 0 <= i < |s| ==> !Equivalent(less, s[i], x)
  {
    forall i | 0 <= i < |s|
      ensures !Equivalent(less, s[i], x)
    {
      assert !less(s[i], s[0]);
      assert less(y, s[i]);
    }
  }

  lemma EquivalentsFirst<T>(less: (T, T) -> bool, y: T, s: seq<T>, x: T)
    ensures Equivalents(less, [y] + s, x) == (if Equivalent(less, y, x) then [y] else []) + Equivalents(less, s, x)
  {
    assert ([y] + s)[1..] == s;
  }

  lemma EquivalentsOf<T>(less: (T, T) -> bool, s: seq<T>, x: T)
    requires s != []
    ensures Equivalents(less, s, x) == (if Equivalent(less, s[0], x) then [s[0]] else []) + Equivalents(less, s[1..], x)
  {
  }

  /** The merge is stable: of elements the order does not tell apart, the first vector's come first, each side in its order. */
  lemma {:induction false} MergedIsStable<T(!new)>(less: (T, T) -> bool, a: seq<T>, b: seq<T>, x: T)
    requires StrictWeakOrder(less) && Sorted(less, a) && Sorted(less, b)
    ensures Equivalents(less, Merged(less, a, b), x) == Equivalents(less, a, x) + Equivalents(less, b, x)
    decreases |a| + |b|
  {
    if a != [] && b != [] {
      if less(b[0], a[0]) {
        MergedIsStable(less, a, b[1..], x);
        EquivalentsFirst(less, b[0], Merged(less, a, b[1..]), x);
        EquivalentsOf(less, b, x);
        if Equivalent(less, b[0], x) {
          BehindIsOther(less, a, b[0], x);
          NoEquivalents(less, a, x);
        }
      } else {
        MergedIsStable(less, a[1..], b, x);
        EquivalentsFirst(less, a[0], Merged(less, a[1..], b), x);
        EquivalentsOf(less, a, x);
      }
    }
  }

  lemma PrependSorted<T(!new)>(less: (T, T) -> bool, x: T, m: seq<T>, a: seq<T>, b: seq<T>)
    requires StrictWeakOrder(less) && Sorted(less, m) && Sorted(less, a) && Sorted(less, b)
    requires forall y :: y in m <==> y in a || y in b
    requires a != [] ==> !less(a[0], x)
    requires b != [] ==> !less(b[0], x)
    ensures Sorted(less, [x] + m)
  {
    forall i | 0 <= i < |m|
      ensures !less(m[i], x)
    {
      assert m[i] in m;
      if m[i] in a {
        var j :| 0 <= j < |a| && a[j] == m[i];
        assert j > 0 ==> !less(a[j], a[0]);
      } else {
        var j :| 0 <= j < |b| && b[j] == m[i];
        assert j > 0 ==> !less(b[j], b[0]);
      }
    }
  }

  class SortedVector<T(==,!new)> {
    const less: (T, T) -> bool
    var data: seq<T>

    ghost predicate Valid() reads this { StrictWeakOrder(less) && Sorted(less, data) }

    constructor (less: (T, T) -> bool)
      requires StrictWeakOrder(less)
      ensures Valid() && this.less == less && data == []
    {
      this.less := less;
      data := [];
    }

    /** Inserts in front of the first element that is not less, so before its equals. */
    method Insert(val: T)
      requires Valid()
      modifies this
      ensures Valid() && multiset(data) == multiset(old(data)) + multiset{val}
      ensures data == Inserted(old(data), PartitionPoint(old(data), less, val), val)
      ensures InsertedBefore(less, old(data), data, val)
    {
      var k := PartitionPoint(data, less, val);
      InsertedIsSorted(data, less, val);
      InsertedInFront(less, data, val);
      data := data[..k] + [val] + data[k..];
    }

    method InsertAll(vals: seq<T>)
      requires Valid()
      modifies this
      ensures Valid() && multiset(data) == multiset(old(data)) + multiset(vals)
    {
      for i := 0 to |vals|
        invariant Valid() && multiset(data) == multiset(old(data)) + multiset(vals[..i])
      {
        assert vals[..i + 1] == vals[..i] + [vals[i]];
        Insert(vals[i]);
      }
      assert vals[..|vals|] == vals;
    }

    method Erase(k: nat)
      requires Valid() && k < |data|
      modifies this
      ensures Valid() && data == old(data)[..k] + old(data)[k + 1..]
    {
      data := data[..k] + data[k + 1..];
    }

    /**
      Looks at the first element that does not come before the key, and nowhere else.  Where
      equal elements are those the order does not tell from the key, that is enough.
      */
    method Find<K(!new)>(key: K, before: (T, K) -> bool, equal: (T, K) -> bool) returns (found: Option<nat>)
      requires Valid() && Compatible(less, before)
      ensures found.Some? <==> exists k :: FirstNotBefore(data, before, key, k) && equal(data[k], key)
      ensures found.Some? ==> FirstNotBefore(data, before, key, found.value) && equal(data[found.value], key)
      ensures FirstsOnly(less, before, equal) ==>
                && (found.Some? <==> exists i :: 0 <= i < |data| && equal(data[i], key))
                && (found.Some? ==> forall i :: 0 <= i < found.value ==> !equal(data[i], key))
    {
      var part := PartitionPoint(data, before, key);
      PartitionPointSplits(data, less, before, key);
      if part == |data| || !equal(data[part], key) {
        found := None;
        NoneBehind(data, less, before, equal, key, part);
        assert forall k :: FirstNotBefore(data, before, key, k) ==> k == part;
      } else {
        found := Some(part);
      }
    }

    /** merge with a different vector. */
    method Merge(other: SortedVector<T>)
      requires Valid() && other.Valid() && other != this && other.less == less
      modifies this
      ensures Valid() && other.data == old(other.data)
      ensures data == Merged(less, old(data), other.data)
      ensures multiset(data) == multiset(old(data)) + multiset(other.data)
    {
      MergedIsSorted(less, data, other.data);
      data := Merged(less, data, other.data);
    }
  }
}
