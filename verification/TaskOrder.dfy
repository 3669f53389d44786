/** The order in which a payload's continuations are scheduled, and the walk along redirects taken as a whole. */
module TaskOrder {
  import opened Wrappers
  import opened TaskProgram
  import opened TaskPayload
  import opened TaskGraph

  // --- the walk of add_continuations ---------------------------------------------------------

  /** The flight f advanced k times. */
  ghost function Walk(s: State, f: nat, k: nat): State
    requires f in s.flights && s.flights[f].Adding?
    decreases k
  {
    if k == 0 || At(s, s.flights[f].at).redirect.None? then s
    else Walk(AdvanceFlight(s, f), f, k - 1)
  }

  /**
    Taken one lock at a time, the walk does what it does when all locks are held: the batch
    arrives at the end of the chain, reparented to it, and nothing else changes.
    */
  lemma {:induction false} WalkArrives(s: State, f: nat, r: Pid, k: nat)
    requires f in s.flights && s.flights[f].Adding? && Chain(s, s.flights[f].at, r, k)
    requires forall i :: 0 <= i < |s.flights[f].batch| ==> s.flights[f].batch[i].parent == s.flights[f].at
    ensures Walk(s, f, k) == s.(flights := s.flights[f := Adding(r, Reparent(s.flights[f].batch, r))])
    decreases k
  {
    var Adding(at, batch) := s.flights[f];
    if k == 0 {
      assert Reparent(batch, r) == batch;
      assert s.flights[f := Adding(r, batch)] == s.flights;
    } else {
      var q := At(s, at).redirect.value;
      var t := AdvanceFlight(s, f);
      assert forall p :: At(t, p) == At(s, p);
      SameChains(s, t, q, r, k - 1);
      WalkArrives(t, f, r, k - 1);
      assert Reparent(Reparent(batch, q), r) == Reparent(batch, r);
      assert t.flights[f := Adding(r, Reparent(batch, r))] == s.flights[f := Adding(r, Reparent(batch, r))];
    }
  }

  lemma {:induction false} SameChains(s: State, t: State, a: Pid, b: Pid, k: nat)
    requires s.pool == t.pool && Chain(s, a, b, k)
    ensures Chain(t, a, b, k)
    decreases k
  {
    if k > 0 { SameChains(s, t, At(s, a).redirect.value, b, k - 1); }
  }

  // --- collapsing ------------------------------------------------------------------------------

  /** collapse_left_into_right with no other thread in between, for a right payload that is still waiting. */
  ghost function CollapseInto(s: State, left: Pid, right: Pid): State {
    var t := Cannibalize(s, left, Some(right));
    if At(s, left).pending == [] then t else AdvanceFlight(t, s.nextFlight)
  }

  ghost predicate Waiting(s: State, p: Pid) {
    !At(s, p).completed && At(s, p).redirect.None?
  }

  ghost predicate Distinct(chain: seq<Pid>) {
    forall i, j :: 0 <= i < j < |chain| ==> chain[i] != chain[j]
  }

  /** A collapse appends what left had to what right had, and leaves every other payload alone. */
  lemma CollapseAppends(s: State, left: Pid, right: Pid)
    requires Waiting(s, right) && left != right
    ensures var t := CollapseInto(s, left, right);
            && At(t, right).pending == At(s, right).pending + Reparent(At(s, left).pending, right)
            && Waiting(t, right) && At(t, left) == Taken(At(s, left), Some(right))
            && forall p :: p != left && p != right ==> At(t, p) == At(s, p)
  {
    var t := Cannibalize(s, left, Some(right));
    assert forall p :: p != left ==> At(t, p) == At(s, p);
    assert Reparent([], right) == [];
    assert At(s, right).pending + [] == At(s, right).pending;
  }

  /** chain[0] is collapsed into chain[1], the result into chain[2], and so on. */
  ghost function CollapseAll(s: State, chain: seq<Pid>): State {
    if |chain| <= 1 then s else
    var n := |chain|;
    CollapseInto(CollapseAll(s, chain[..n - 1]), chain[n - 2], chain[n - 1])
  }

  /** What the last payload of the chain had first, then what was collapsed into it, nearest first. */
  ghost function Gathered(s: State, chain: seq<Pid>): seq<Cont>
    requires |chain| > 0
  {
    var n := |chain|;
    if n == 1 then At(s, chain[0]).pending
    else At(s, chain[n - 1]).pending + Reparent(Gathered(s, chain[..n - 1]), chain[n - 1])
  }

  lemma ChainBefore(chain: seq<Pid>)
    requires |chain| > 1 && Distinct(chain)
    ensures var before := chain[..|chain| - 1];
            && Distinct(before) && before[|before| - 1] == chain[|chain| - 2]
            && chain[|chain| - 1] !in before && chain[|chain| - 2] in before
            && forall p :: p in chain <==> p in before || p == chain[|chain| - 1]
  {
    var before := chain[..|chain| - 1];
    assert chain == before + [chain[|chain| - 1]];
  }

  /**
    After a chain of collapses the final payload schedules its own earlier continuations
    first, then each absorbed payload's, in the order they were registered.
    */
  lemma {:induction false} CollapseOrder(s: State, chain: seq<Pid>)
    requires |chain| > 0 && Distinct(chain) && forall i :: 0 <= i < |chain| ==> Waiting(s, chain[i])
    ensures var t, last := CollapseAll(s, chain), chain[|chain| - 1];
            && At(t, last).pending == Gathered(s, chain) && Waiting(t, last)
            && forall p :: p !in chain ==> At(t, p) == At(s, p)
    decreases |chain|
  {
    var n := |chain|;
    if n > 1 {
      var before := chain[..n - 1];
      ChainBefore(chain);
      CollapseOrder(s, before);
      var mid := CollapseAll(s, before);
      CollapseAppends(mid, chain[n - 2], chain[n - 1]);
    }
  }
}
