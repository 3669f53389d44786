/** pending_task_scope: counts the tasks added to it and completes once, after it starts disposing. */
module PendingScope {
  import opened Wrappers
  import opened Expecteds

  /** The fields guarded by m_mutex. */
  datatype Scope = Scope(pending: int, disposing: bool, setCompletion: bool, error: Error)

  const OPEN: Scope := Scope(0, false, false, NO_ERROR)

  /** operator+=, refused once disposing. */
  function Added(s: Scope): Option<Scope> {
    if s.disposing then None else Some(s.(pending := s.pending + 1))
  }

  /** The lock-protected part of the callback on an added task; completes says it must then complete the scope. */
  function Completes(s: Scope): bool { s.disposing && s.pending - 1 == 0 }

  function Arrived(s: Scope, result: Expected<()>): Scope {
    Scope(
      s.pending - 1, s.disposing, s.setCompletion || Completes(s),
      if result.Err? && s.error == NO_ERROR then result.error else s.error)
  }

  /** when_all, which completes the scope itself when nothing is pending and nobody has. */
  function CompletesNow(s: Scope): bool { s.pending == 0 && !s.setCompletion }

  function Disposed(s: Scope): Scope {
    s.(disposing := true, setCompletion := s.setCompletion || CompletesNow(s))
  }

  /** complete_internal */
  function Outcome(s: Scope): Expected<()> {
    if s.error != NO_ERROR then Err(s.error) else Ok(())
  }

  class PendingTaskScope {
    var pending: int
    var disposing: bool
    var setCompletion: bool
    var error: Error
    var completions: seq<Expected<()>>     // calls of m_completed.complete

    function View(): Scope reads this { Scope(pending, disposing, setCompletion, error) }

    constructor ()
      ensures View() == OPEN && completions == []
    {
      pending, disposing, setCompletion, error, completions := 0, false, false, NO_ERROR, [];
    }

    method Add() returns (ok: bool)
      modifies this
      ensures completions == old(completions)
      ensures ok == !old(disposing)
      ensures View() == if ok then old(View()).(pending := old(pending) + 1) else old(View())
      ensures Added(old(View())) == if ok then Some(View()) else None
    {
      if disposing {
        return false;
      }
      pending := pending + 1;
      return true;
    }

    /** The callback up to the end of its lock; the caller then runs CompleteInternal when asked to. */
    method TaskDone(result: Expected<()>) returns (complete: bool)
      modifies this
      ensures completions == old(completions)
      ensures View() == Arrived(old(View()), result) && complete == Completes(old(View()))
    {
      pending := pending - 1;
      complete := disposing && pending == 0;
      if result.Err? && error == NO_ERROR {
        error := result.error;
      }
      if complete {
        setCompletion := true;
      }
    }

    method CompleteInternal()
      modifies this
      ensures View() == old(View()) && completions == old(completions) + [Outcome(View())]
    {
      if error != NO_ERROR {
        completions := completions + [Err(error)];
      } else {
        completions := completions + [Ok(())];
      }
    }

    method WhenAll()
      modifies this
      ensures View() == Disposed(old(View()))
      ensures completions == old(completions) + if CompletesNow(old(View())) then [Outcome(View())] else []
    {
      disposing := true;
      if pending == 0 && !setCompletion {
        setCompletion := true;
        CompleteInternal();
      }
    }
  }

  // --- adds, callbacks and when_all calls interleaved in any way ---------------------------

  /** Where the callback of an added task is. */
  datatype Phase = Outstanding | Inside(complete: bool) | Returned

  datatype World = World(
    scope: Scope,
    tasks: seq<Phase>,                   // one per successful add
    arrivals: seq<Expected<()>>,         // results in the order their callbacks took the lock
    completions: seq<Expected<()>>)

  const INITIAL := World(OPEN, [], [], [])

  datatype Step = Add | Done(i: nat, result: Expected<()>) | Leave(i: nat) | WhenAll

  predicate Enabled(w: World, step: Step) {
    match step
    case Done(i, _) => i < |w.tasks| && w.tasks[i].Outstanding?
    case Leave(i) => i < |w.tasks| && w.tasks[i].Inside?
    case _ => true
  }

  function Do(w: World, step: Step): World
    requires Enabled(w, step)
  {
    match step
    case Add =>
      (match Added(w.scope)
       case None => w
       case Some(s) => w.(scope := s, tasks := w.tasks + [Outstanding]))
    case Done(i, result) =>
      w.(scope := Arrived(w.scope, result), tasks := w.tasks[i := Inside(Completes(w.scope))],
         arrivals := w.arrivals + [result])
    case Leave(i) =>
      w.(tasks := w.tasks[i := Returned],
         completions := w.completions + if w.tasks[i].complete then [Outcome(w.scope)] else [])
    case WhenAll =>
      var s := Disposed(w.scope);
      w.(scope := s, completions := w.completions + if CompletesNow(w.scope) then [Outcome(s)] else [])
  }

  function After(steps: seq<Step>): Option<World> {
    if steps == [] then Some(INITIAL) else
    var last := |steps| - 1;
    var w := After(steps[..last]);
    if w.Some? && Enabled(w.value, steps[last]) then Some(Do(w.value, steps[last])) else None
  }

  function Count(tasks: seq<Phase>, f: Phase -> bool): nat {
    if tasks == [] then 0 else (if f(tasks[0]) then 1 else 0) + Count(tasks[1..], f)
  }

  lemma {:induction false} CountUpdate(tasks: seq<Phase>, f: Phase -> bool, i: nat, p: Phase)
    requires i < |tasks|
    ensures Count(tasks[i := p], f) + (if f(tasks[i]) then 1 else 0) == Count(tasks, f) + (if f(p) then 1 else 0)
  {
    if i == 0 {
      assert tasks[0 := p][1..] == tasks[1..];
    } else {
      assert tasks[i := p][1..] == tasks[1..][i - 1 := p];
      CountUpdate(tasks[1..], f, i - 1, p);
    }
  }

  lemma {:induction false} CountAppend(tasks: seq<Phase>, f: Phase -> bool, p: Phase)
    ensures Count(tasks + [p], f) == Count(tasks, f) + (if f(p) then 1 else 0)
  {
    if tasks == [] {
      assert tasks + [p] == [p] && [p][1..] == [];
    } else {
      assert (tasks + [p])[1..] == tasks[1..] + [p];
      CountAppend(tasks[1..], f, p);
    }
  }

  lemma {:induction false} CountNone(tasks: seq<Phase>, f: Phase -> bool)
    ensures Count(tasks, f) == 0 <==> forall i :: 0 <= i < |tasks| ==> !f(tasks[i])
  {
    if tasks != [] {
      CountNone(tasks[1..], f);
      assert forall i :: 1 <= i < |tasks| ==> tasks[i] == tasks[1..][i - 1];
      assert (forall i :: 1 <= i < |tasks| ==> !f(tasks[i])) <==> forall i :: 0 <= i < |tasks[1..]| ==> !f(tasks[1..][i]);
    }
  }

  const IsOutstanding := (p: Phase) => p.Outstanding?
  const WillComplete := (p: Phase) => p.Inside? && p.complete

  ghost predicate Inv(w: World) {
    && w.scope.pending == Count(w.tasks, IsOutstanding)
    && (w.scope.setCompletion <==> w.scope.disposing && w.scope.pending == 0)
    && |w.completions| + Count(w.tasks, WillComplete) == (if w.scope.setCompletion then 1 else 0)
    && w.scope.error == FirstOf(w.arrivals)
    && (forall k :: 0 <= k < |w.completions| ==> w.completions[k] == Outcome(w.scope))
  }

  lemma StepKeeps(w: World, step: Step)
    requires Inv(w) && Enabled(w, step)
    ensures Inv(Do(w, step))
  {
    match step
    case Add =>
      CountAppend(w.tasks, IsOutstanding, Outstanding);
      CountAppend(w.tasks, WillComplete, Outstanding);
    case Done(i, result) =>
      var p := Inside(Completes(w.scope));
      CountUpdate(w.tasks, IsOutstanding, i, p);
      CountUpdate(w.tasks, WillComplete, i, p);
      FirstOfGrows(w.arrivals, result);
    case Leave(i) =>
      CountUpdate(w.tasks, IsOutstanding, i, Returned);
      CountUpdate(w.tasks, WillComplete, i, Returned);
    case WhenAll =>
  }

  lemma {:induction false} AfterInv(steps: seq<Step>)
    requires After(steps).Some?
    ensures Inv(After(steps).value)
  {
    if steps != [] {
      var last := |steps| - 1;
      AfterInv(steps[..last]);
      StepKeeps(After(steps[..last]).value, steps[last]);
    }
  }

  /**
    The completion source is completed at most once, only when disposing has begun and no
    task is pending, with the first error recorded; and it has been completed once disposing
    has begun and every callback has returned.
    */
  lemma ScopeTheorem(steps: seq<Step>)
    requires After(steps).Some?
    ensures var w := After(steps).value;
            && w.scope.pending == Count(w.tasks, IsOutstanding)
            && |w.completions| <= 1
            && (w.completions != [] ==>
                  && w.scope.disposing && (forall i :: 0 <= i < |w.tasks| ==> !w.tasks[i].Outstanding?)
                  && w.completions[0] == var e := FirstOf(w.arrivals); if e == NO_ERROR then Ok(()) else Err(e))
            && (w.scope.disposing && (forall i :: 0 <= i < |w.tasks| ==> w.tasks[i].Returned?) ==>
                  |w.completions| == 1)
  {
    AfterInv(steps);
    var w := After(steps).value;
    CountNone(w.tasks, IsOutstanding);
    CountNone(w.tasks, WillComplete);
  }

  /** Once decided, completion is final: the count stays at zero and no later callback changes the outcome. */
  lemma {:induction false} CompletionIsFinal(steps: seq<Step>, more: seq<Step>)
    requires After(steps + more).Some?
    ensures After(steps).Some?
    ensures After(steps).value.scope.setCompletion ==>
              var s := After(steps + more).value.scope;
              s.setCompletion && s.pending == 0 && Outcome(s) == Outcome(After(steps).value.scope)
    decreases |more|
  {
    if more == [] {
      assert steps + more == steps;
      AfterInv(steps);
    } else {
      var last := |more| - 1;
      assert (steps + more)[..|steps + more| - 1] == steps + more[..last];
      CompletionIsFinal(steps, more[..last]);
      AfterInv(steps + more[..last]);
      var w := After(steps + more[..last]).value;
      CountNone(w.tasks, IsOutstanding);
    }
  }

  /** The scope fails exactly when some task's result holds an error that tests true, and then with the first. */
  lemma ScopeFailsExactly(steps: seq<Step>)
    requires After(steps).Some? && After(steps).value.completions != []
    ensures var w := After(steps).value;
            && (w.completions[0].Err? <==> exists k :: 0 <= k < |w.arrivals| && ErrorOf(w.arrivals[k]) != NO_ERROR)
            && (w.completions[0].Err? ==>
                  exists k :: 0 <= k < |w.arrivals| && ErrorOf(w.arrivals[k]) == w.completions[0].error &&
                    forall j :: 0 <= j < k ==> ErrorOf(w.arrivals[j]) == NO_ERROR)
  {
    ScopeTheorem(steps);
    FirstOfIsFirst(After(steps).value.arrivals);
  }

  const FALSE_ERROR: seq<Step> := [Add, Done(0, Err(NO_ERROR)), Leave(0), WhenAll]

  /** A task that failed with an error that tests false leaves the scope successful. */
  lemma FalseErrorIsIgnored()
    ensures After(FALSE_ERROR).Some? && After(FALSE_ERROR).value.completions == [Ok(())]
  {
    assert FALSE_ERROR[..3][..2] == FALSE_ERROR[..2] && FALSE_ERROR[..2][..1] == FALSE_ERROR[..1];
    assert FALSE_ERROR[..1][..0] == [];
    assert After(FALSE_ERROR[..1]).Some?;
    assert After(FALSE_ERROR[..2]).Some?;
    assert After(FALSE_ERROR[..3]).Some?;
  }

  // --- what the schedule says ------------------------------------------------------------------

  /** The results in the order their callbacks were called. */
  function Results(steps: seq<Step>): seq<Expected<()>> {
    if steps == [] then [] else
    var last := |steps| - 1;
    Results(steps[..last]) + if steps[last].Done? then [steps[last].result] else []
  }

  /** How many adds came before the first when_all. */
  ghost function Accepted(steps: seq<Step>): nat {
    if steps == [] then 0 else
    var last := |steps| - 1;
    Accepted(steps[..last]) + if steps[last].Add? && WhenAll !in steps[..last] then 1 else 0
  }

  /** The scope's history is the schedule's: its arrivals are the results given, its tasks the adds before when_all. */
  lemma {:induction false} ScopeBySteps(steps: seq<Step>)
    requires After(steps).Some?
    ensures var w := After(steps).value;
            && w.arrivals == Results(steps) && |w.tasks| == Accepted(steps)
            && (w.scope.disposing <==> WhenAll in steps)
  {
    if steps != [] {
      var last := |steps| - 1;
      ScopeBySteps(steps[..last]);
      assert steps == steps[..last] + [steps[last]];
    }
  }

  /** An add after a when_all changes nothing, however many tasks are outstanding; before one it adds a task. */
  lemma AddRefusedExactly(steps: seq<Step>)
    requires After(steps).Some?
    ensures var w, v := After(steps).value, After(steps + [Add]);
            && v.Some?
            && (WhenAll in steps ==> v.value == w)
            && (WhenAll !in steps ==>
                  |v.value.tasks| == |w.tasks| + 1 && v.value.tasks[|w.tasks|].Outstanding? &&
                  v.value.scope.pending == w.scope.pending + 1)
  {
    ScopeBySteps(steps);
    assert (steps + [Add])[..|steps|] == steps;
  }

  /** In terms of the schedule alone: the scope fails exactly when some callback was given an error that tests true. */
  lemma FailsByResults(steps: seq<Step>)
    requires After(steps).Some? && After(steps).value.completions != []
    ensures WhenAll in steps
    ensures After(steps).value.completions[0] ==
              if forall k :: 0 <= k < |Results(steps)| ==> ErrorOf(Results(steps)[k]) == NO_ERROR then Ok(())
              else Err(FirstOf(Results(steps)))
  {
    ScopeTheorem(steps);
    ScopeBySteps(steps);
    FirstOfIsFirst(Results(steps));
  }
}
