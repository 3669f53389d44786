/** Sequences without repetition, how many elements they have, and increasing ones. */
module Sequences {
  predicate NoRepeats<T(==)>(s: seq<T>) {
    forall i, j :: 0 <= i < j < |s| ==> s[i] != s[j]
  }

  predicate Increasing(s: seq<int>) {
    forall i, j :: 0 <= i < j < |s| ==> s[i] < s[j]
  }

  function Members<T>(s: seq<T>): set<T> {
    set x | x in s
  }

  lemma {:induction false} MembersCount<T>(s: seq<T>)
    requires NoRepeats(s)
    ensures |Members(s)| == |s|
  {
    if s == [] {
      assert Members(s) == {};
    } else {
      var shorter, last := s[..|s| - 1], s[|s| - 1];
      MembersCount(shorter);
      assert s == shorter + [last] && last !in shorter;
      assert Members(s) == Members(shorter) + {last};
    }
  }
}
