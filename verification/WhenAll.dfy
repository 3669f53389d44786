/** when_all: one task that completes once all its inputs have. */
module WhenAll {
  import opened Expecteds
  import opened Wrappers
  import opened Sequences

  /** when_all_data */
  datatype Data<T> = Data(pendingCount: int, error: Error, results: seq<T>)

  /** The lock-protected part of the callback when_all puts on input idx. */
  function Arrived<T>(d: Data<T>, idx: nat, exp: Expected<T>): Data<T>
    requires idx < |d.results|
  {
    Data(
      d.pendingCount - 1,
      if exp.Err? && d.error == NO_ERROR then exp.error else d.error,
      if exp.Ok? then d.results[idx := exp.value] else d.results)
  }

  function Outcome<T>(d: Data<T>): Expected<seq<T>> {
    if d.error != NO_ERROR then Err(d.error) else Ok(d.results)
  }

  class WhenAllData<T> {
    var pendingCount: int
    var error: Error
    var results: seq<T>

    function View(): Data<T> reads this { Data(pendingCount, error, results) }

    constructor (n: nat, blank: T)
      ensures View() == Data(n, NO_ERROR, seq(n, _ => blank))
    {
      pendingCount, error, results := n, NO_ERROR, seq(n, _ => blank);
    }

    method Arrive(idx: nat, exp: Expected<T>) returns (last: bool)
      requires idx < |results|
      modifies this
      ensures View() == Arrived(old(View()), idx, exp)
      ensures last <==> pendingCount == 0
    {
      pendingCount := pendingCount - 1;
      last := pendingCount == 0;
      if exp.Err? && error == NO_ERROR {
        error := exp.error;
      }
      if exp.Ok? {
        results := results[idx := exp.value];
      }
    }
  }

  // --- callbacks arriving in any order, on any threads -----------------------------------

  /** Where input i's callback is: not called yet, between its two parts, or returned. */
  datatype Phase = Outstanding | Inside(last: bool) | Returned

  datatype Join<T> = Join(
    data: Data<T>,
    phases: seq<Phase>,
    order: seq<nat>,                     // the inputs whose callback has taken the lock
    completions: seq<Expected<seq<T>>>)  // calls of result.complete

  datatype Step = Lock(i: nat) | Leave(i: nat)

  function Initial<T>(n: nat, blank: T): Join<T> {
    Join(Data(n, NO_ERROR, seq(n, _ => blank)), seq(n, _ => Outstanding), [], [])
  }

  ghost predicate Enabled<T>(inputs: seq<Expected<T>>, s: Join<T>, step: Step) {
    |inputs| == |s.phases| == |s.data.results| &&
    match step
    case Lock(i) => i < |inputs| && s.phases[i].Outstanding?
    case Leave(i) => i < |inputs| && s.phases[i].Inside?
  }

  ghost function Do<T>(inputs: seq<Expected<T>>, s: Join<T>, step: Step): Join<T>
    requires Enabled(inputs, s, step)
  {
    match step
    case Lock(i) =>
      var d := Arrived(s.data, i, inputs[i]);
      s.(data := d, phases := s.phases[i := Inside(d.pendingCount == 0)], order := s.order + [i])
    case Leave(i) =>
      s.(phases := s.phases[i := Returned],
         completions := if s.phases[i].last then s.completions + [Outcome(s.data)] else s.completions)
  }

  /** The join after the given steps: each input's callback is called at most once, at any time. */
  ghost function After<T>(inputs: seq<Expected<T>>, blank: T, steps: seq<Step>): Option<Join<T>> {
    if steps == [] then Some(Initial(|inputs|, blank)) else
    var last := |steps| - 1;
    var s := After(inputs, blank, steps[..last]);
    if s.Some? && Enabled(inputs, s.value, steps[last]) then Some(Do(inputs, s.value, steps[last])) else None
  }

  ghost predicate Inv<T>(inputs: seq<Expected<T>>, blank: T, s: Join<T>) {
    var n := |inputs|;
    && |s.phases| == |s.data.results| == n
    && (forall k :: 0 <= k < |s.order| ==> s.order[k] < n)
    && NoRepeats(s.order)
    && (forall i :: 0 <= i < n ==> (i in s.order <==> !s.phases[i].Outstanding?))
    && s.data.pendingCount == n - |s.order|
    && IsFirstError(inputs, s.order, s.data.error)
    && (forall i :: 0 <= i < n ==>
          s.data.results[i] == if i in s.order && inputs[i].Ok? then inputs[i].value else blank)
    && (forall k :: 0 <= k < |s.order| ==>
          s.phases[s.order[k]].Inside? ==> (s.phases[s.order[k]].last <==> k == n - 1))
    && s.completions ==
         if |s.order| == n && n > 0 && s.phases[s.order[n - 1]].Returned? then [Outcome(s.data)] else []
  }

  ghost function Range(n: nat): (r: set<nat>)
    ensures |r| == n && forall i: nat :: i in r <==> i < n
  {
    if n == 0 then {} else Range(n - 1) + {n - 1}
  }

  /** As many inputs as there are, none twice, are all of them. */
  lemma Pigeonhole(order: seq<nat>, n: nat)
    requires NoRepeats(order) && forall k :: 0 <= k < |order| ==> order[k] < n
    ensures |order| <= n
    ensures |order| == n <==> forall i :: 0 <= i < n ==> i in order
  {
    var members := Members(order);
    MembersCount(order);
    assert forall x: nat :: x in members ==> x in Range(n);
    assert Range(n) == members + (Range(n) - members);
    assert |Range(n)| == |members| + |Range(n) - members|;
    if |order| == n {
      assert |Range(n) - members| == 0;
      forall i | 0 <= i < n
        ensures i in order
      {
        assert i in Range(n);
      }
    }
    if forall i :: 0 <= i < n ==> i in order {
      assert members == Range(n);
    }
  }

  lemma LockKeeps<T>(inputs: seq<Expected<T>>, blank: T, s: Join<T>, i: nat)
    requires Inv(inputs, blank, s) && Enabled(inputs, s, Lock(i))
    ensures Inv(inputs, blank, Do(inputs, s, Lock(i)))
  {
    var t := Do(inputs, s, Lock(i));
    FirstErrorGrows(inputs, s.order, s.data.error, i);
    assert i !in s.order;
    Pigeonhole(s.order + [i], |inputs|);
  }

  lemma LeaveKeeps<T>(inputs: seq<Expected<T>>, blank: T, s: Join<T>, i: nat)
    requires Inv(inputs, blank, s) && Enabled(inputs, s, Leave(i))
    ensures Inv(inputs, blank, Do(inputs, s, Leave(i)))
  {
    assert i in s.order;
    var k :| 0 <= k < |s.order| && s.order[k] == i;
    var n := |inputs|;
    Pigeonhole(s.order, n);
    assert s.phases[i].last ==> |s.order| == n && s.order[n - 1] == i;
    assert !s.phases[i].last && |s.order| == n ==> s.order[n - 1] != i;
  }

  lemma {:induction false} AfterInv<T>(inputs: seq<Expected<T>>, blank: T, steps: seq<Step>)
    requires After(inputs, blank, steps).Some?
    ensures Inv(inputs, blank, After(inputs, blank, steps).value)
  {
    if steps != [] {
      var last := |steps| - 1;
      var before := After(inputs, blank, steps[..last]).value;
      AfterInv(inputs, blank, steps[..last]);
      match steps[last]
      case Lock(i) => LockKeeps(inputs, blank, before, i);
      case Leave(i) => LeaveKeeps(inputs, blank, before, i);
    }
  }

  /** The value every input contributes: its own, or the blank of the result vector. */
  function Values<T>(inputs: seq<Expected<T>>, blank: T): seq<T> {
    seq(|inputs|, i requires 0 <= i < |inputs| => if inputs[i].Ok? then inputs[i].value else blank)
  }

  /**
    Whatever the order of completion: the count is the number of callbacks still to come; the
    result is completed at most once, after every input has arrived, and by the time all
    callbacks have returned it has been; with the first error by arrival, or else with every
    input's value in its place.
    */
  lemma JoinTheorem<T>(inputs: seq<Expected<T>>, blank: T, steps: seq<Step>, s: Join<T>)
    requires After(inputs, blank, steps) == Some(s)
    ensures s.data.pendingCount == |inputs| - |s.order| >= 0
    ensures NoRepeats(s.order) && forall k :: 0 <= k < |s.order| ==> s.order[k] < |inputs|
    ensures |s.completions| <= 1
    ensures s.completions != [] ==>
              && s.data.pendingCount == 0 && (forall i :: 0 <= i < |inputs| ==> i in s.order)
              && match s.completions[0]
                 case Err(e) => e != NO_ERROR && IsFirstError(inputs, s.order, e)
                 case Ok(values) =>
                   IsFirstError(inputs, s.order, NO_ERROR) && values == Values(inputs, blank)
    ensures |inputs| > 0 && (forall i :: 0 <= i < |inputs| ==> i < |s.phases| && s.phases[i].Returned?) ==>
              |s.completions| == 1
  {
    AfterInv(inputs, blank, steps);
    Pigeonhole(s.order, |inputs|);
    if |inputs| > 0 && forall i :: 0 <= i < |inputs| ==> s.phases[i].Returned? {
      assert forall i :: 0 <= i < |inputs| ==> i in s.order;
    }
    if s.completions != [] && s.completions[0].Ok? {
      assert s.data.results == Values(inputs, blank);
    }
  }

  /** The joined task fails exactly when some input holds an error that tests true. */
  lemma JoinFailsExactly<T>(inputs: seq<Expected<T>>, blank: T, steps: seq<Step>, s: Join<T>)
    requires After(inputs, blank, steps) == Some(s) && s.completions != []
    ensures s.completions[0].Err? <==> exists i :: 0 <= i < |inputs| && ErrorOf(inputs[i]) != NO_ERROR
  {
    JoinTheorem(inputs, blank, steps, s);
    if s.completions[0].Ok? {
      forall i | 0 <= i < |inputs|
        ensures ErrorOf(inputs[i]) == NO_ERROR
      {
        assert i in s.order;
        var k :| 0 <= k < |s.order| && s.order[k] == i;
        assert ErrorOf(inputs[s.order[k]]) == NO_ERROR;
      }
    }
  }

  /** The inputs in the order their callbacks took the lock, by the schedule. */
  function Locks(steps: seq<Step>): seq<nat> {
    if steps == [] then [] else
    var last := |steps| - 1;
    Locks(steps[..last]) + if steps[last].Lock? then [steps[last].i] else []
  }

  /** The recorded order is the schedule's. */
  lemma {:induction false} OrderBySteps<T>(inputs: seq<Expected<T>>, blank: T, steps: seq<Step>)
    requires After(inputs, blank, steps).Some?
    ensures After(inputs, blank, steps).value.order == Locks(steps)
  {
    if steps != [] { OrderBySteps(inputs, blank, steps[..|steps| - 1]); }
  }

  lemma StepPhase<T>(inputs: seq<Expected<T>>, s: Join<T>, step: Step, i: nat)
    requires Enabled(inputs, s, step) && i < |inputs|
    ensures var t := Do(inputs, s, step);
            && |t.phases| == |inputs|
            && (t.phases[i].Returned? <==> s.phases[i].Returned? || step == Leave(i))
            && (t.phases[i].Outstanding? <==> s.phases[i].Outstanding? && step != Lock(i))
  {
  }

  /** A callback has been called, and has returned, when the schedule says so. */
  lemma {:induction false} PhaseBySteps<T>(inputs: seq<Expected<T>>, blank: T, steps: seq<Step>, i: nat)
    requires After(inputs, blank, steps).Some? && i < |inputs|
    ensures var s := After(inputs, blank, steps).value;
            && |s.phases| == |inputs|
            && (s.phases[i].Returned? <==> Leave(i) in steps) && (s.phases[i].Outstanding? <==> Lock(i) !in steps)
  {
    if steps != [] {
      var last := |steps| - 1;
      PhaseBySteps(inputs, blank, steps[..last], i);
      StepPhase(inputs, After(inputs, blank, steps[..last]).value, steps[last], i);
      assert steps == steps[..last] + [steps[last]];
    }
  }

  /** An input that failed with an error that tests false contributes the blank to a join that succeeds. */
  lemma FalseErrorIsIgnored<T>(blank: T)
    ensures var s := After([Err(NO_ERROR)], blank, [Lock(0), Leave(0)]);
            s.Some? && s.value.completions == [Ok([blank])]
  {
    var inputs: seq<Expected<T>> := [Err(NO_ERROR)];
    var steps := [Lock(0), Leave(0)];
    assert steps[..1][..0] == [] && Initial(1, blank).data.results == [blank];
    assert After(inputs, blank, steps[..1]).Some?;
  }

  /**
    when_all over inputs that are all complete already: every callback runs inside the
    registration loop, and the last one completes the result.
    */
  method WhenAllCompleted<T>(inputs: seq<Expected<T>>, blank: T) returns (result: Expected<seq<T>>)
    ensures match result
            case Err(e) => e != NO_ERROR && IsFirstError(inputs, seq(|inputs|, i => i), e)
            case Ok(values) =>
              values == Values(inputs, blank) && forall i :: 0 <= i < |inputs| ==> ErrorOf(inputs[i]) == NO_ERROR
  {
    if |inputs| == 0 {
      return Ok([]);
    }
    var data := new WhenAllData<T>(|inputs|, blank);
    ghost var order: seq<nat> := [];
    var completed := false;
    result := Ok([]);
    for idx := 0 to |inputs|
      invariant order == seq(idx, i => i)
      invariant data.pendingCount == |inputs| - idx && |data.results| == |inputs|
      invariant IsFirstError(inputs, order, data.error)
      invariant forall i :: 0 <= i < |inputs| ==>
                  data.results[i] == if i < idx && inputs[i].Ok? then inputs[i].value else blank
      invariant completed <==> idx == |inputs|
      invariant completed ==> result == Outcome(data.View())
    {
      FirstErrorGrows(inputs, order, data.error, idx);
      order := order + [idx];
      var last := data.Arrive(idx, inputs[idx]);
      if last {
        result := if data.error != NO_ERROR then Err(data.error) else Ok(data.results);
        completed := true;
      }
    }
    assert order == seq(|inputs|, i => i);
    if result.Ok? {
      forall i | 0 <= i < |inputs|
        ensures ErrorOf(inputs[i]) == NO_ERROR
      {
        assert order[i] == i && ErrorOf(inputs[order[i]]) == NO_ERROR;
      }
      assert data.results == Values(inputs, blank);
    }
  }
}
