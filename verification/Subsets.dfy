/** compute_subsets: every subset of a given size, enumerated by permuting a mask. */
module Subsets {
  import opened Wrappers
  import opened Sequences
  import Bits

  type Mask = seq<bool>

  function Ones(m: Mask): nat {
    if m == [] then 0 else (if m[0] then 1 else 0) + Ones(m[1..])
  }

  /** k leading ones, then zeros: the last mask in lexicographic order. */
  function Largest(n: nat, k: nat): (m: Mask)
    requires k <= n
    ensures |m| == n && forall i :: 0 <= i < n ==> (m[i] <==> i < k)
  {
    seq(n, i => i < k)
  }

  /** Lexicographic order, zero before one. */
  predicate Less(a: Mask, b: Mask)
    requires |a| == |b|
  {
    a != [] && ((!a[0] && b[0]) || (a[0] == b[0] && Less(a[1..], b[1..])))
  }

  /** std::prev_permutation: the preceding permutation, when there is one. */
  function PrevPermutation(m: Mask): (r: Option<Mask>)
    ensures r.Some? ==> |r.value| == |m|
  {
    if m == [] then None
    else
      var tail := PrevPermutation(m[1..]);
      if tail.Some? then Some([m[0]] + tail.value)
      else if m[0] && Ones(m[1..]) < |m| - 1 then Some([false] + Largest(|m| - 1, Ones(m[1..]) + 1))
      else None
  }

  // --- the order -----------------------------------------------------------------------------

  lemma {:induction false} OnesBound(m: Mask)
    ensures Ones(m) <= |m|
    ensures Ones(m) == |m| ==> forall i :: 0 <= i < |m| ==> m[i]
    ensures Ones(m) == 0 ==> forall i :: 0 <= i < |m| ==> !m[i]
  {
    if m != [] {
      OnesBound(m[1..]);
      assert forall i :: 1 <= i < |m| ==> m[i] == m[1..][i - 1];
    }
  }

  lemma {:induction false} OnesLargest(n: nat, k: nat)
    requires k <= n
    ensures Ones(Largest(n, k)) == k
  {
    if n > 0 {
      if k > 0 {
        assert Largest(n, k)[1..] == Largest(n - 1, k - 1);
        OnesLargest(n - 1, k - 1);
      } else {
        assert Largest(n, k)[1..] == Largest(n - 1, 0);
        OnesLargest(n - 1, 0);
      }
    }
  }

  lemma {:induction false} LessTotal(a: Mask, b: Mask)
    requires |a| == |b|
    ensures Less(a, b) || a == b || Less(b, a)
    ensures !(Less(a, b) && Less(b, a)) && (a == b ==> !Less(a, b))
  {
    if a != [] {
      LessTotal(a[1..], b[1..]);
      assert a == [a[0]] + a[1..] && b == [b[0]] + b[1..];
    }
  }

  lemma {:induction false} LessTransitive(a: Mask, b: Mask, c: Mask)
    requires |a| == |b| == |c| && Less(a, b) && Less(b, c)
    ensures Less(a, c)
  {
    if a[0] == b[0] == c[0] { LessTransitive(a[1..], b[1..], c[1..]); }
  }

  /** No mask with as many ones is beyond Largest. */
  lemma {:induction false} LargestIsLast(m: Mask)
    ensures Ones(m) <= |m| && !Less(Largest(|m|, Ones(m)), m)
  {
    OnesBound(m);
    if m != [] {
      var k, n := Ones(m), |m|;
      LargestIsLast(m[1..]);
      if m[0] {
        assert Largest(n, k)[1..] == Largest(n - 1, k - 1);
      } else if k == 0 {
        assert Largest(n, k)[1..] == Largest(n - 1, 0);
      }
    }
  }

  /** With no preceding permutation, a mask is the first of those with as many ones. */
  lemma {:induction false} FirstHasNoPrev(m: Mask, q: Mask)
    requires PrevPermutation(m).None? && |q| == |m| && Ones(q) == Ones(m)
    ensures !Less(q, m)
  {
    if m != [] {
      OnesBound(m[1..]);
      OnesBound(q[1..]);
      if q[0] == m[0] {
        FirstHasNoPrev(m[1..], q[1..]);
      }
    }
  }

  /** The preceding permutation is smaller, keeps the ones, and nothing with as many ones lies between. */
  lemma {:induction false} PrevIsImmediate(m: Mask, q: Mask)
    requires PrevPermutation(m).Some? && |q| == |m| && Ones(q) == Ones(m)
    ensures var p := PrevPermutation(m).value;
            Ones(p) == Ones(m) && Less(p, m) && (Less(q, m) ==> q == p || Less(q, p))
  {
    var p := PrevPermutation(m).value;
    var tail := PrevPermutation(m[1..]);
    if tail.Some? {
      assert p[1..] == tail.value;
      if q[0] == m[0] {
        PrevIsImmediate(m[1..], q[1..]);
        assert q == [q[0]] + q[1..];
      } else {
        PrevIsImmediate(m[1..], m[1..]);
      }
    } else {
      var k := Ones(m[1..]) + 1;
      assert p[1..] == Largest(|m| - 1, k);
      OnesLargest(|m| - 1, k);
      if q[0] {
        FirstHasNoPrev(m[1..], q[1..]);
      } else {
        LargestIsLast(q[1..]);
        LessTotal(q[1..], p[1..]);
        assert q == [q[0]] + q[1..];
      }
    }
  }

  /** The mask as a binary number, which decreases from each mask to the next. */
  function Number(m: Mask): (v: nat)
    ensures v < Bits.Pow2(|m|)
  {
    if m == [] then 0 else (if m[0] then Bits.Pow2(|m| - 1) else 0) + Number(m[1..])
  }

  lemma {:induction false} LessIsNumeric(a: Mask, b: Mask)
    requires |a| == |b|
    ensures Less(a, b) <==> Number(a) < Number(b)
  {
    if a != [] { LessIsNumeric(a[1..], b[1..]); }
  }

  // --- masks and subsets -----------------------------------------------------------------------

  /** The elements whose bit is set. */
  function Chosen<T>(elems: seq<T>, m: Mask): set<T>
    requires |m| == |elems|
  {
    set i | 0 <= i < |elems| && m[i] :: elems[i]
  }

  ghost predicate IsMask(m: Mask, n: nat, k: nat) {
    |m| == n && Ones(m) == k
  }

  /** The masks met so far: the ones down to cur, in decreasing order. */
  ghost predicate DownTo(masks: seq<Mask>, cur: Mask, n: nat, k: nat) {
    && masks != [] && masks[|masks| - 1] == cur && IsMask(cur, n, k)
    && (forall i :: 0 <= i < |masks| ==> IsMask(masks[i], n, k))
    && (forall i, j :: 0 <= i < j < |masks| ==> Less(masks[j], masks[i]))
    && (forall q :: IsMask(q, n, k) && !Less(q, cur) ==> q in masks)
  }

  /** Every mask, once each. */
  ghost predicate Enumerates(masks: seq<Mask>, n: nat, k: nat) {
    && NoRepeats(masks) && (forall i :: 0 <= i < |masks| ==> IsMask(masks[i], n, k))
    && forall q :: IsMask(q, n, k) ==> q in masks
  }

  lemma StartsAtLargest(n: nat, k: nat)
    requires k <= n
    ensures DownTo([Largest(n, k)], Largest(n, k), n, k)
  {
    OnesLargest(n, k);
    forall q | IsMask(q, n, k) && !Less(q, Largest(n, k))
      ensures q in [Largest(n, k)]
    {
      LargestIsLast(q);
      LessTotal(q, Largest(n, k));
    }
  }

  lemma StepsDown(masks: seq<Mask>, cur: Mask, n: nat, k: nat)
    requires DownTo(masks, cur, n, k) && PrevPermutation(cur).Some?
    ensures DownTo(masks + [PrevPermutation(cur).value], PrevPermutation(cur).value, n, k)
    ensures Number(PrevPermutation(cur).value) < Number(cur)
  {
    var p := PrevPermutation(cur).value;
    PrevIsImmediate(cur, cur);
    LessIsNumeric(p, cur);
    var more := masks + [p];
    forall i | 0 <= i < |masks|
      ensures Less(p, masks[i])
    {
      if i < |masks| - 1 { LessTransitive(p, cur, masks[i]); }
    }
    forall q | IsMask(q, n, k) && !Less(q, p)
      ensures q in more
    {
      PrevIsImmediate(cur, q);
    }
  }

  lemma EndsAtFirst(masks: seq<Mask>, cur: Mask, n: nat, k: nat)
    requires DownTo(masks, cur, n, k) && PrevPermutation(cur).None?
    ensures Enumerates(masks, n, k)
  {
    forall q | IsMask(q, n, k)
      ensures q in masks
    {
      FirstHasNoPrev(cur, q);
    }
    forall i, j | 0 <= i < j < |masks|
      ensures masks[i] != masks[j]
    {
      LessTotal(masks[j], masks[i]);
    }
  }

  // --- what the masks stand for ------------------------------------------------------------------

  function Choose(n: nat, k: nat): nat {
    if k == 0 then 1 else if n == 0 then 0 else Choose(n - 1, k - 1) + Choose(n - 1, k)
  }

  ghost function Prefixed(b: bool, ms: set<Mask>): set<Mask> {
    set m | m in ms :: [b] + m
  }

  lemma {:induction false} PrefixedCount(b: bool, ms: set<Mask>)
    ensures |Prefixed(b, ms)| == |ms|
    decreases |ms|
  {
    if ms != {} {
      var m :| m in ms;
      PrefixedCount(b, ms - {m});
      assert Prefixed(b, ms) == Prefixed(b, ms - {m}) + {[b] + m};
      forall x | x in ms - {m}
        ensures [b] + x != [b] + m
      {
        assert ([b] + x)[1..] == x && ([b] + m)[1..] == m;
      }
    }
  }

  lemma PrefixedMembers(b: bool, ms: set<Mask>, q: Mask)
    ensures q in Prefixed(b, ms) <==> q != [] && q[0] == b && q[1..] in ms
  {
    if q != [] { assert q == [q[0]] + q[1..]; }
    if q in Prefixed(b, ms) {
      var m :| m in ms && q == [b] + m;
      assert q[1..] == m;
    }
  }

  lemma PrefixedSum(zero: set<Mask>, one: set<Mask>)
    ensures |Prefixed(false, zero) + Prefixed(true, one)| == |zero| + |one|
  {
    PrefixedCount(false, zero);
    PrefixedCount(true, one);
    forall q
      ensures !(q in Prefixed(false, zero) && q in Prefixed(true, one))
    {
      PrefixedMembers(false, zero, q);
      PrefixedMembers(true, one, q);
    }
    assert Prefixed(false, zero) !! Prefixed(true, one);
  }

  /** One more position: a mask is in the union exactly when its tail is in the right half. */
  lemma UnionMembers(n: nat, k: nat, zero: set<Mask>, one: set<Mask>)
    requires n > 0
    requires forall q: Mask :: q in zero <==> IsMask(q, n - 1, k)
    requires forall q: Mask :: q in one <==> k > 0 && IsMask(q, n - 1, k - 1)
    ensures forall q: Mask :: q in Prefixed(false, zero) + Prefixed(true, one) <==> IsMask(q, n, k)
  {
    forall q: Mask
      ensures q in Prefixed(false, zero) + Prefixed(true, one) <==> IsMask(q, n, k)
    {
      PrefixedMembers(false, zero, q);
      PrefixedMembers(true, one, q);
    }
  }

  /** The masks of length n with k ones: those that start with a zero, and those that start with a one. */
  lemma {:induction false} MasksCounted(n: nat, k: nat) returns (all: set<Mask>)
    ensures |all| == Choose(n, k)
    ensures forall q: Mask :: q in all <==> IsMask(q, n, k)
    decreases n
  {
    if n == 0 {
      all := if k == 0 then {[]} else {};
    } else {
      var zero := MasksCounted(n - 1, k);
      var one: set<Mask> := {};
      if k > 0 { one := MasksCounted(n - 1, k - 1); }
      PrefixedSum(zero, one);
      UnionMembers(n, k, zero, one);
      all := Prefixed(false, zero) + Prefixed(true, one);
    }
  }

  /** A mask chooses as many elements as it has ones, when no element is there twice. */
  lemma {:induction false} ChosenCount<T>(elems: seq<T>, m: Mask)
    requires |m| == |elems| && NoRepeats(elems)
    ensures |Chosen(elems, m)| == Ones(m)
  {
    if m == [] {
      assert Chosen(elems, m) == {};
    } else {
      var rest := Chosen(elems[1..], m[1..]);
      ChosenCount(elems[1..], m[1..]);
      assert forall i :: 1 <= i < |elems| ==> elems[i] == elems[1..][i - 1] && m[i] == m[1..][i - 1];
      assert elems[0] !in rest;
      forall x
        ensures x in Chosen(elems, m) <==> x in rest || (m[0] && x == elems[0])
      {
        if x in rest {
          var i :| 0 <= i < |elems[1..]| && m[1..][i] && elems[1..][i] == x;
          assert m[i + 1] && elems[i + 1] == x;
        }
        if x in Chosen(elems, m) && x != elems[0] {
          var i :| 0 <= i < |elems| && m[i] && elems[i] == x;
          assert m[1..][i - 1] && elems[1..][i - 1] == x;
        }
      }
      assert Chosen(elems, m) == if m[0] then rest + {elems[0]} else rest;
    }
  }

  function MaskOf<T(==)>(elems: seq<T>, s: set<T>): (m: Mask)
    ensures |m| == |elems| && forall i :: 0 <= i < |elems| ==> (m[i] <==> elems[i] in s)
  {
    seq(|elems|, i requires 0 <= i < |elems| => elems[i] in s)
  }

  /** Masks and subsets correspond: each is recovered from the other. */
  lemma MaskOfChosen<T>(elems: seq<T>, m: Mask)
    requires |m| == |elems| && NoRepeats(elems)
    ensures MaskOf(elems, Chosen(elems, m)) == m
  {
    forall i | 0 <= i < |elems|
      ensures elems[i] in Chosen(elems, m) <==> m[i]
    {
    }
  }

  lemma ChosenOfMask<T>(elems: seq<T>, s: set<T>)
    requires s <= Members(elems)
    ensures Chosen(elems, MaskOf(elems, s)) == s
  {
    forall x | x in s
      ensures x in Chosen(elems, MaskOf(elems, s))
    {
      assert x in elems;
      var i :| 0 <= i < |elems| && elems[i] == x;
      assert MaskOf(elems, s)[i];
    }
  }

  /** Every subset of size k, once each. */
  ghost predicate AllSubsets<T(!new)>(subsets: seq<set<T>>, elems: seq<T>, k: nat) {
    && NoRepeats(subsets) && |subsets| == Choose(|elems|, k)
    && forall s: set<T> :: s in subsets <==> s <= Members(elems) && |s| == k
  }

  /** There are as many masks as the binomial coefficient says. */
  lemma EnumerationCount(masks: seq<Mask>, n: nat, k: nat)
    requires Enumerates(masks, n, k)
    ensures |masks| == Choose(n, k)
  {
    MembersCount(masks);
    var all := MasksCounted(n, k);
    assert Members(masks) == all;
  }

  lemma MasksGiveSubsets<T(!new)>(elems: seq<T>, k: nat, masks: seq<Mask>, subsets: seq<set<T>>)
    requires NoRepeats(elems) && Enumerates(masks, |elems|, k) && |subsets| == |masks|
    requires forall i :: 0 <= i < |masks| ==> |masks[i]| == |elems| && subsets[i] == Chosen(elems, masks[i])
    ensures AllSubsets(subsets, elems, k)
  {
    EnumerationCount(masks, |elems|, k);
    forall i, j | 0 <= i < j < |subsets|
      ensures subsets[i] != subsets[j]
    {
      MaskOfChosen(elems, masks[i]);
      MaskOfChosen(elems, masks[j]);
    }
    forall s: set<T>
      ensures s in subsets <==> s <= Members(elems) && |s| == k
    {
      if s in subsets {
        var i :| 0 <= i < |subsets| && subsets[i] == s;
        ChosenCount(elems, masks[i]);
      }
      if s <= Members(elems) && |s| == k {
        ChosenOfMask(elems, s);
        ChosenCount(elems, MaskOf(elems, s));
        assert MaskOf(elems, s) in masks;
        var i :| 0 <= i < |masks| && masks[i] == MaskOf(elems, s);
        assert subsets[i] == s;
      }
    }
  }

  /**
    compute_subsets.  For no elements there is no subset, not even the empty one; a K beyond
    the number of elements counts as that number, because the mask is cut to it.  Elements
    that occur twice count as two when masks are formed, and as one in a subset.
    */
  method ComputeSubsets<T(==,!new)>(elems: seq<T>, K: nat) returns (subsets: seq<set<T>>, ghost masks: seq<Mask>)
    ensures elems == [] ==> subsets == []
    ensures var k := if K <= |elems| then K else |elems|;
            elems != [] ==>
              && Enumerates(masks, |elems|, k) && |subsets| == |masks| == Choose(|elems|, k)
              && forall i :: 0 <= i < |masks| ==> |masks[i]| == |elems| && subsets[i] == Chosen(elems, masks[i])
    ensures elems != [] && NoRepeats(elems) ==> AllSubsets(subsets, elems, if K <= |elems| then K else |elems|)
  {
    masks := [];
    if elems == [] {
      return [], [];
    }
    var n := |elems|;
    var k := if K <= n then K else n;
    var bitmask := Largest(n, k);
    subsets := [];
    var more := true;
    while more
      invariant |bitmask| == n && |subsets| == |masks|
      invariant forall i :: 0 <= i < |masks| ==> |masks[i]| == n && subsets[i] == Chosen(elems, masks[i])
      invariant more ==> if masks == [] then bitmask == Largest(n, k) else DownTo(masks + [bitmask], bitmask, n, k)
      invariant !more ==> Enumerates(masks, n, k)
      decreases more, Number(bitmask)
    {
      var combSet: set<T> := {};
      for i := 0 to n
        invariant combSet == set j | 0 <= j < i && bitmask[j] :: elems[j]
      {
        if bitmask[i] {
          combSet := combSet + {elems[i]};
        }
      }
      assert combSet == Chosen(elems, bitmask);
      if masks == [] {
        StartsAtLargest(n, k);
        assert masks + [bitmask] == [bitmask];
      }
      masks := masks + [bitmask];
      subsets := subsets + [combSet];
      var next := PrevPermutation(bitmask);
      if next.Some? {
        StepsDown(masks, bitmask, n, k);
        bitmask := next.value;
      } else {
        EndsAtFirst(masks, bitmask, n, k);
        more := false;
      }
    }
    EnumerationCount(masks, n, k);
    if NoRepeats(elems) {
      MasksGiveSubsets(elems, k, masks, subsets);
    }
  }
}
