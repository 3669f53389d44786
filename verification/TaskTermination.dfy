/** No run goes on for ever without new tasks: each step uses up something. */
module TaskTermination {
  import opened Wrappers
  import opened TaskProgram
  import opened TaskPayload
  import opened TaskGraph
  import opened TaskInvariant
  import opened TaskTheorems
  import opened TaskForest
  import opened TaskWaiting

  // --- what is left to do --------------------------------------------------------------------

  /** The payloads whose result is still to come. */
  ghost function Unfinished(s: State): set<Pid> {
    set p | p in Everything(s) && At(s, p).result.None?
  }

  ghost predicate EndsIn(s: State, p: Pid, k: nat) {
    exists r :: Chain(s, p, r, k) && IsRoot(s, r)
  }

  /** How many redirects lie between p and its root. */
  ghost function WalkLength(s: State, p: Pid): (k: nat)
    ensures WalkEnds(s, p) ==> EndsIn(s, p, k)
  {
    if WalkEnds(s, p) then
      var r :| Leads(s, p, r) && IsRoot(s, r);
      var k: nat :| Chain(s, p, r, k);
      k
    else 0
  }

  /** The steps a flight takes by itself: down the redirects, over to the schedulers, then one for each continuation. */
  ghost function Weight(s: State, fl: Flight): nat {
    match fl
    case Adding(at, batch) => |batch| + 1 + WalkLength(s, at)
    case Releasing(batch, next) => if next <= |batch| then |batch| - next else 0
  }

  ghost function Tokens(s: State): set<(nat, nat)> {
    set f, i | f in s.flights && 0 <= i < Weight(s, s.flights[f]) :: (f, i)
  }

  /** Fewer results to come, or else fewer completions under way, or else less left for the flights. */
  ghost predicate Descends(s: State, t: State) {
    || |Unfinished(t)| < |Unfinished(s)|
    || (|Unfinished(t)| == |Unfinished(s)| &&
        (|t.completing| < |s.completing| ||
         (|t.completing| == |s.completing| && |Tokens(t)| < |Tokens(s)|)))
  }

  lemma StrictSubset<T>(a: set<T>, b: set<T>, x: T)
    requires a <= b && x in b && x !in a
    ensures |a| < |b|
  {
    assert b == a + (b - a);
    assert |b - a| > 0;
  }

  // --- walks ---------------------------------------------------------------------------------

  lemma WalkLengthUnique(s: State, p: Pid, k: nat)
    requires EndsIn(s, p, k)
    ensures WalkLength(s, p) == k
  {
    var r :| Chain(s, p, r, k) && IsRoot(s, r);
    assert Leads(s, p, r);
    var q :| Chain(s, p, q, WalkLength(s, p)) && IsRoot(s, q);
    RootUnique(s, p, r, k, q, WalkLength(s, p));
  }

  lemma WalkLengthNext(s: State, p: Pid)
    requires WalkEnds(s, p) && At(s, p).redirect.Some?
    ensures WalkLength(s, p) == WalkLength(s, At(s, p).redirect.value) + 1
  {
    var r :| Chain(s, p, r, WalkLength(s, p)) && IsRoot(s, r);
    var q := At(s, p).redirect.value;
    assert Chain(s, q, r, WalkLength(s, p) - 1);
    WalkLengthUnique(s, q, WalkLength(s, p) - 1);
  }

  lemma WalkLengthKept(s: State, t: State, p: Pid)
    requires WalkEnds(s, p) && forall q :: At(t, q).redirect == At(s, q).redirect
    ensures WalkLength(t, p) == WalkLength(s, p)
  {
    var r :| Chain(s, p, r, WalkLength(s, p)) && IsRoot(s, r);
    ChainKept(s, t, p, r, WalkLength(s, p));
    WalkLengthUnique(t, p, WalkLength(s, p));
  }

  // --- every step --------------------------------------------------------------------------------

  /** A step of the flight f that leaves it lighter, or gone, and the other flights alone. */
  lemma FlightDescends(s: State, t: State, f: nat)
    requires Forest(s) && t.created == s.created && t.completing == s.completing && f in s.flights
    requires forall p :: At(t, p).redirect == At(s, p).redirect && At(t, p).result == At(s, p).result
    requires forall g :: g in t.flights ==> g in s.flights && (g != f ==> t.flights[g] == s.flights[g])
    requires Weight(s, s.flights[f]) > 0
    requires f in t.flights ==> Weight(s, t.flights[f]) < Weight(s, s.flights[f])
    ensures Descends(s, t)
  {
    assert Everything(t) == Everything(s);
    assert Unfinished(t) == Unfinished(s);
    forall fl: Flight
      ensures Weight(t, fl) == Weight(s, fl)
    {
      if fl.Adding? {
        assert WalkEnds(s, fl.at);
        WalkLengthKept(s, t, fl.at);
      }
    }
    var top := (f, Weight(s, s.flights[f]) - 1);
    assert top in Tokens(s) && top !in Tokens(t);
    StrictSubset(Tokens(t), Tokens(s), top);
  }

  lemma AdvanceDescends(prog: Program, s: State, f: nat)
    requires Forest(s) && Enabled(prog, s, Advance(f))
    ensures Descends(s, Do(prog, s, Advance(f)))
  {
    var t := Do(prog, s, Advance(f));
    var at := s.flights[f].at;
    assert forall q :: q != at ==> At(t, q) == At(s, q);
    assert WalkEnds(s, at);
    if At(s, at).redirect.Some? { WalkLengthNext(s, at); }
    FlightDescends(s, t, f);
  }

  lemma ReleaseDescends(prog: Program, s: State, f: nat)
    requires Forest(s) && Enabled(prog, s, Release(f))
    ensures Descends(s, Do(prog, s, Release(f)))
  {
    var t := Do(prog, s, Release(f));
    assert forall q :: At(t, q) == At(s, q);
    FlightDescends(s, t, f);
  }

  lemma FinishDescends(prog: Program, s: State, p: Pid)
    requires Enabled(prog, s, Finish(p))
    ensures Descends(s, Do(prog, s, Finish(p)))
  {
    var t := Do(prog, s, Finish(p));
    assert forall q :: q != p ==> At(t, q) == At(s, q);
    assert At(t, p).result == At(s, p).result;
    assert Everything(t) == Everything(s) && Unfinished(t) == Unfinished(s);
    assert t.completing == s.completing - {p};
  }

  /** A step that writes a result to p and unwrites none. */
  lemma ResultDescends(s: State, t: State, p: Pid)
    requires t.created == s.created && p in Everything(s)
    requires At(s, p).result.None? && At(t, p).result.Some?
    requires forall q :: At(s, q).result.Some? ==> At(t, q).result.Some?
    ensures Descends(s, t)
  {
    StrictSubset(Unfinished(t), Unfinished(s), p);
  }

  lemma RunDescends(prog: Program, s: State, job: Job)
    requires Enabled(prog, s, Start(job)) && job.task.Run?
    requires job.task.n in s.created && At(s, job.task).result.None?
    ensures Descends(s, Do(prog, s, Start(job)))
  {
    var t := Do(prog, s, Start(job));
    assert forall q :: q != job.task ==> At(t, q) == At(s, q);
    ResultDescends(s, t, job.task);
  }

  lemma UnwrapDescends(prog: Program, s: State, job: Job)
    requires FieldsOk(s) && Enabled(prog, s, Start(job)) && job.task.Unwrapper?
    requires ReadyToUnwrap(prog, s, job.task.n)
    ensures Descends(s, Do(prog, s, Start(job)))
  {
    UnwrapShape(prog, s, job);
    ResultDescends(s, Do(prog, s, Start(job)), job.task);
  }

  lemma StartDescends(prog: Program, schedule: seq<Step>, s: State, job: Job)
    requires After(prog, schedule) == Some(s) && Enabled(prog, s, Start(job))
    ensures Descends(s, Do(prog, s, Start(job)))
  {
    ReachableInv(prog, schedule);
    QueuedNotRun(prog, s, job);
    if job.task.Unwrapper? {
      UnwrapperInput(prog, s, job);
      UnwrapDescends(prog, s, job);
    } else {
      RunDescends(prog, s, job);
    }
  }

  /** Every step but the creation of a task uses something up, while walks end. */
  lemma StepDescends(prog: Program, schedule: seq<Step>, s: State, step: Step)
    requires After(prog, schedule) == Some(s) && Enabled(prog, s, step) && !step.Create? && Forest(s)
    ensures Descends(s, Do(prog, s, step))
  {
    match step
    case Start(job) => StartDescends(prog, schedule, s, job);
    case Finish(p) => FinishDescends(prog, s, p);
    case Advance(f) => AdvanceDescends(prog, s, f);
    case Release(f) => ReleaseDescends(prog, s, f);
    case Complete(n) =>
      var t := Do(prog, s, step);
      assert forall q :: q != Run(n) ==> At(t, q) == At(s, q);
      ResultDescends(s, t, Run(n));
  }

  // --- every run ---------------------------------------------------------------------------------

  /** Every created task has a value. */
  ghost predicate AllDefined(prog: Program, s: State) {
    forall p :: Exists(prog, s, p) ==> Defined(prog, p)
  }

  /** Where all created tasks have values, walks end. */
  lemma DefinedIsForest(prog: Program, schedule: seq<Step>)
    requires After(prog, schedule).Some? && AllDefined(prog, After(prog, schedule).value)
    ensures Forest(After(prog, schedule).value)
  {
    var s := After(prog, schedule).value;
    forall p
      ensures WalkEnds(s, p)
    {
      if IsRoot(s, p) {
        LeadsToSelf(s, p);
      } else {
        RedirectedExists(prog, schedule, p);
        var fuel: nat :| Eval(prog, p, fuel).Some?;
        DefinedWalkEnds(prog, schedule, p, fuel);
        var r, k: nat :| Chain(s, p, r, k) && IsRoot(s, r);
        assert Leads(s, p, r);
      }
    }
  }

  lemma RedirectedExists(prog: Program, schedule: seq<Step>, p: Pid)
    requires After(prog, schedule).Some? && !IsRoot(After(prog, schedule).value, p)
    ensures Exists(prog, After(prog, schedule).value, p)
  {
    ReachableInv(prog, schedule);
  }

  lemma Extended(prog: Program, schedule: seq<Step>, step: Step)
    ensures After(prog, schedule + [step]) ==
              if After(prog, schedule).Some? && Enabled(prog, After(prog, schedule).value, step)
              then Some(Do(prog, After(prog, schedule).value, step)) else None
  {
    assert (schedule + [step])[..|schedule|] == schedule;
  }

  function Take(steps: nat -> Step, n: nat): (r: seq<Step>)
    ensures |r| == n
  {
    seq(n, i requires i >= 0 => steps(i))
  }

  lemma StepKeepsDefined(prog: Program, s: State, step: Step)
    requires Enabled(prog, s, step) && !step.Create? && AllDefined(prog, s)
    ensures AllDefined(prog, Do(prog, s, step))
  {
    CreatedGrows(prog, s, step);
  }

  /** After one more step, if it is possible, there is less left to do. */
  lemma Descended(prog: Program, schedule: seq<Step>, s: State, step: Step)
    requires After(prog, schedule) == Some(s) && AllDefined(prog, s) && !step.Create?
    ensures var t := After(prog, schedule + [step]);
            t.Some? ==> Descends(s, t.value) && AllDefined(prog, t.value) && t.value.created == s.created
  {
    Extended(prog, schedule, step);
    if Enabled(prog, s, step) {
      DefinedIsForest(prog, schedule);
      StepDescends(prog, schedule, s, step);
      StepKeepsDefined(prog, s, step);
      CreatedGrows(prog, s, step);
    }
  }

  /**
    However it is scheduled, a run whose created tasks all have values, and which creates no
    more, ends: no sequence of steps can be followed for ever.
    */
  lemma {:induction false} RunEnds(prog: Program, schedule: seq<Step>, s: State, steps: nat -> Step)
    requires After(prog, schedule) == Some(s) && AllDefined(prog, s)
    requires forall i: nat :: !steps(i).Create?
    ensures exists n: nat :: After(prog, schedule + Take(steps, n)).None?
    decreases |Unfinished(s)|, |s.completing|, |Tokens(s)|
  {
    var longer := schedule + [steps(0)];
    Descended(prog, schedule, s, steps(0));
    if After(prog, longer).None? {
      assert longer == schedule + Take(steps, 1);
    } else {
      var rest := (i: nat) => steps(i + 1);
      RunEnds(prog, longer, After(prog, longer).value, rest);
      var n: nat :| After(prog, longer + Take(rest, n)).None?;
      TakeNext(schedule, steps, n);
    }
  }

  lemma TakeNext(schedule: seq<Step>, steps: nat -> Step, n: nat)
    ensures schedule + [steps(0)] + Take((i: nat) => steps(i + 1), n) == schedule + Take(steps, n + 1)
  {
  }

  /** Whatever a created callable returns has been created. */
  ghost predicate ReturnsCreated(prog: Program, s: State) {
    forall n, t :: n in s.created && Unwraps(prog, n) && Means(prog, Run(n), Handle(t)) ==> t in s.created
  }

  lemma QueuedReturns(prog: Program, schedule: seq<Step>, s: State, job: Job)
    requires After(prog, schedule) == Some(s) && ReturnsCreated(prog, s) && job in s.ready
    ensures Returnable(prog, s, job)
  {
    ReachableInv(prog, schedule);
    QueuedNotRun(prog, s, job);
    assert JobOk(prog, s, job);
    if job.task.Run? && Unwraps(prog, job.task.n) && InputOf(s, job).Some? {
      var n, input := job.task.n, InputOf(s, job).value;
      if job.parent.None? {
        MeansMake(prog, n);
      } else {
        InputMeans(prog, s, job);
        MeansThen(prog, n, input);
      }
    }
  }

  /** Only the user creates tasks and completes sources. */
  ghost predicate Internal(steps: seq<Step>) {
    forall i :: 0 <= i < |steps| ==> !steps[i].Create? && !steps[i].Complete?
  }

  lemma NextStep(prog: Program, schedule: seq<Step>, s: State) returns (step: Step)
    requires After(prog, schedule) == Some(s) && ReturnsCreated(prog, s) && !Quiet(s)
    ensures !step.Create? && !step.Complete? && After(prog, schedule + [step]).Some?
  {
    forall job | job in s.ready
      ensures Returnable(prog, s, job)
    {
      QueuedReturns(prog, schedule, s, job);
    }
    NeverStuck(prog, schedule);
    step :| !step.Create? && !step.Complete? && Enabled(prog, s, step);
    Extended(prog, schedule, step);
  }

  /** The schedule leads to where nothing is left to do. */
  ghost predicate LeadsToQuiet(prog: Program, schedule: seq<Step>) {
    After(prog, schedule).Some? && Quiet(After(prog, schedule).value)
  }

  lemma Prepended(schedule: seq<Step>, step: Step, rest: seq<Step>)
    requires Internal(rest) && !step.Create? && !step.Complete?
    ensures Internal([step] + rest) && schedule + [step] + rest == schedule + ([step] + rest)
  {
  }

  /** From any state of such a run the library itself gets to where nothing is left to do. */
  lemma {:induction false} Finishes(prog: Program, schedule: seq<Step>, s: State) returns (more: seq<Step>)
    requires After(prog, schedule) == Some(s) && AllDefined(prog, s) && ReturnsCreated(prog, s)
    ensures Internal(more) && LeadsToQuiet(prog, schedule + more)
    decreases |Unfinished(s)|, |s.completing|, |Tokens(s)|
  {
    if Quiet(s) {
      more := [];
      assert schedule + more == schedule;
    } else {
      var step := NextStep(prog, schedule, s);
      Descended(prog, schedule, s, step);
      var t := After(prog, schedule + [step]).value;
      SameReturns(prog, s, t);
      var rest := Finishes(prog, schedule + [step], t);
      more := [step] + rest;
      Prepended(schedule, step, rest);
    }
  }

  lemma SameReturns(prog: Program, s: State, t: State)
    requires ReturnsCreated(prog, s) && t.created == s.created
    ensures ReturnsCreated(prog, t)
  {
  }
}
