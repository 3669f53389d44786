/** Redirects: when they form a forest, what a collapse does to it, and what it does to the order of continuations. */
module TaskForest {
  import opened Wrappers
  import opened TaskProgram
  import opened TaskPayload
  import opened TaskGraph
  import opened TaskInvariant
  import opened TaskTheorems

  // --- single redirects ----------------------------------------------------------------------

  /** A payload with a redirect is a completed stand-in that holds no result and no continuations. */
  lemma RedirectedIsDone(prog: Program, schedule: seq<Step>, p: Pid)
    requires After(prog, schedule).Some? && At(After(prog, schedule).value, p).redirect.Some?
    ensures var s := After(prog, schedule).value;
            && p.StandIn? && At(s, p).completed && At(s, p).pending == [] && At(s, p).result.None?
            && At(s, Run(p.n)).result.Some? && At(s, Run(p.n)).result.value.Handle?
            && Means(prog, Run(p.n), At(s, Run(p.n)).result.value)
            && At(s, p).redirect.value == HandleOf(prog, At(s, Run(p.n)).result.value.t)
  {
    ReachableInv(prog, schedule);
  }

  /** Whose redirect a step sets, and to what. */
  ghost function CollapseOf(prog: Program, s: State, step: Step): Option<(Pid, Pid)> {
    if step.Start? && step.job.task.Unwrapper? && InputOf(s, step.job).Some? && InputOf(s, step.job).value.Handle?
    then Some((StandIn(step.job.task.n), HandleOf(prog, InputOf(s, step.job).value.t)))
    else None
  }

  /** From s to t exactly the redirect named by c is set, on a payload that had none. */
  ghost predicate RedirectsBy(s: State, t: State, c: Option<(Pid, Pid)>) {
    match c
    case None => forall p :: At(t, p).redirect == At(s, p).redirect
    case Some(e) => RedirectedOnly(s, t, e.0, e.1)
  }

  /** t is s with the root p redirected to q. */
  ghost predicate RedirectedOnly(s: State, t: State, p: Pid, q: Pid) {
    && IsRoot(s, p) && At(t, p).redirect == Some(q)
    && forall a :: a != p ==> At(t, a).redirect == At(s, a).redirect
  }

  lemma StartRedirects(prog: Program, s: State, job: Job)
    requires PayloadsOk(prog, s) && PlacesOk(prog, s) && ReadyOk(prog, s) && Enabled(prog, s, Start(job))
    ensures RedirectsBy(s, Do(prog, s, Start(job)), CollapseOf(prog, s, Start(job)))
  {
    var t := Do(prog, s, Start(job));
    if job.task.Unwrapper? {
      UnwrapperInput(prog, s, job);
      UnwrapShape(prog, s, job);
    } else {
      assert forall q :: q != job.task ==> At(t, q) == At(s, q);
    }
  }

  /** A step sets at most one redirect, and never one that is set already. */
  lemma StepRedirects(prog: Program, schedule: seq<Step>, s: State, step: Step)
    requires After(prog, schedule) == Some(s) && Enabled(prog, s, step)
    ensures RedirectsBy(s, Do(prog, s, step), CollapseOf(prog, s, step))
  {
    if step.Start? {
      ReachableInv(prog, schedule);
      StartRedirects(prog, s, step.job);
    } else {
      if step.Finish? { FinishingIsRoot(prog, schedule, s, step.p); }
      OtherRedirects(prog, s, step);
    }
  }

  lemma FinishingIsRoot(prog: Program, schedule: seq<Step>, s: State, p: Pid)
    requires After(prog, schedule) == Some(s) && p in s.completing
    ensures IsRoot(s, p)
  {
    ReachableInv(prog, schedule);
  }

  lemma OtherRedirects(prog: Program, s: State, step: Step)
    requires Enabled(prog, s, step) && !step.Start?
    requires step.Finish? ==> IsRoot(s, step.p)
    ensures RedirectsBy(s, Do(prog, s, step), None)
  {
    var t := Do(prog, s, step);
    match step
    case Create(n) => assert t.pool == s.pool;
    case Complete(n) => assert forall q :: q != Run(n) ==> At(t, q) == At(s, q);
    case Finish(p) => assert forall q :: q != p ==> At(t, q) == At(s, q);
    case Advance(f) => assert forall q :: q != s.flights[f].at ==> At(t, q) == At(s, q);
    case Release(f) => assert t.pool == s.pool;
  }

  /** Redirects are never rewritten, whatever happens next. */
  lemma {:induction false} RedirectsAreFinal(prog: Program, schedule: seq<Step>, more: seq<Step>)
    requires After(prog, schedule + more).Some?
    ensures After(prog, schedule).Some?
    ensures RedirectsKept(After(prog, schedule).value, After(prog, schedule + more).value)
    decreases |more|
  {
    if more == [] {
      assert schedule + more == schedule;
    } else {
      var last := |more| - 1;
      var all := schedule + more;
      assert all[..|all| - 1] == schedule + more[..last];
      RedirectsAreFinal(prog, schedule, more[..last]);
      var s := After(prog, schedule + more[..last]).value;
      StepRedirects(prog, schedule + more[..last], s, all[|all| - 1]);
    }
  }

  // --- the forest --------------------------------------------------------------------------------

  /** The walk in add_continuations ends, wherever it starts. */
  ghost predicate Forest(s: State) {
    forall p :: WalkEnds(s, p)
  }

  ghost predicate WalkEnds(s: State, p: Pid) {
    exists r :: Leads(s, p, r) && IsRoot(s, r)
  }

  /** Along a chain, every payload keeps leading back to p. */
  lemma {:induction false} CycleStep(t: State, p: Pid, a: Pid, x: Pid, k: nat)
    requires At(t, p).redirect.Some? && Leads(t, At(t, p).redirect.value, p)
    requires Leads(t, a, p) && Chain(t, a, x, k)
    ensures Leads(t, x, p) && !IsRoot(t, x)
    decreases k
  {
    var j: nat :| Chain(t, a, p, j);
    if k > 0 {
      var next := At(t, a).redirect.value;
      if j > 0 { assert Chain(t, next, p, j - 1); }
      assert Leads(t, next, p);
      CycleStep(t, p, next, x, k - 1);
    }
  }

  lemma {:induction false} ChainAvoids(s: State, t: State, p: Pid, q: Pid, a: Pid, r: Pid, k: nat)
    requires RedirectedOnly(s, t, p, q) && Chain(s, a, r, k)
    ensures Chain(t, a, r, k)
    decreases k
  {
    if k > 0 { ChainAvoids(s, t, p, q, At(s, a).redirect.value, r, k - 1); }
  }

  lemma {:induction false} ChainJoins(s: State, a: Pid, b: Pid, c: Pid, j: nat, k: nat)
    requires Chain(s, a, b, j) && Chain(s, b, c, k)
    ensures Chain(s, a, c, j + k)
    decreases j
  {
    if j > 0 { ChainJoins(s, At(s, a).redirect.value, b, c, j - 1, k); }
  }

  /** A collapse keeps the forest exactly when its target does not resolve to its source. */
  lemma CollapseKeepsForest(s: State, t: State, p: Pid, q: Pid)
    requires Forest(s) && RedirectedOnly(s, t, p, q)
    ensures Forest(t) <==> !Leads(s, q, p)
  {
    if Leads(s, q, p) {
      CollapseCloses(s, t, p, q);
    } else {
      CollapseJoins(s, t, p, q);
    }
  }

  lemma CollapseCloses(s: State, t: State, p: Pid, q: Pid)
    requires RedirectedOnly(s, t, p, q) && Leads(s, q, p)
    ensures !WalkEnds(t, p)
  {
    var k: nat :| Chain(s, q, p, k);
    ChainAvoids(s, t, p, q, q, p, k);
    LeadsToSelf(t, p);
    forall r | Leads(t, p, r)
      ensures !IsRoot(t, r)
    {
      var j: nat :| Chain(t, p, r, j);
      CycleStep(t, p, p, r, j);
    }
  }

  lemma CollapseJoins(s: State, t: State, p: Pid, q: Pid)
    requires Forest(s) && RedirectedOnly(s, t, p, q) && !Leads(s, q, p)
    ensures Forest(t)
  {
    assert WalkEnds(s, q);
    var top :| Leads(s, q, top) && IsRoot(s, top);
    var m: nat :| Chain(s, q, top, m);
    ChainAvoids(s, t, p, q, q, top, m);
    assert top != p && Chain(t, p, top, m + 1);
    forall a
      ensures WalkEnds(t, a)
    {
      assert WalkEnds(s, a);
      var r :| Leads(s, a, r) && IsRoot(s, r);
      var k: nat :| Chain(s, a, r, k);
      ChainAvoids(s, t, p, q, a, r, k);
      if r == p {
        ChainJoins(t, a, p, top, k, m + 1);
        assert Leads(t, a, top) && IsRoot(t, top);
      } else {
        assert Leads(t, a, r) && IsRoot(t, r);
      }
    }
  }

  /** No step of the schedule collapses a stand-in into something that resolves to it. */
  ghost predicate NoSelfCollapse(prog: Program, schedule: seq<Step>)
    requires After(prog, schedule).Some?
  {
    schedule == [] ||
    (var before := schedule[..|schedule| - 1];
     var s := After(prog, before).value;
     NoSelfCollapse(prog, before) &&
     match CollapseOf(prog, s, schedule[|schedule| - 1])
     case None => true
     case Some(e) => !Leads(s, e.1, e.0))
  }

  /** Redirects form a forest exactly when no task was returned that resolved to its own stand-in. */
  lemma {:induction false} ForestExactly(prog: Program, schedule: seq<Step>)
    requires After(prog, schedule).Some?
    ensures Forest(After(prog, schedule).value) <==> NoSelfCollapse(prog, schedule)
  {
    if schedule == [] {
      forall p
        ensures WalkEnds(INITIAL, p)
      {
        LeadsToSelf(INITIAL, p);
        assert IsRoot(INITIAL, p);
      }
    } else {
      var before, step := schedule[..|schedule| - 1], schedule[|schedule| - 1];
      var s, t := After(prog, before).value, After(prog, schedule).value;
      ForestExactly(prog, before);
      StepRedirects(prog, before, s, step);
      if Forest(s) {
        match CollapseOf(prog, s, step)
        case None => SameForest(s, t);
        case Some(e) => CollapseKeepsForest(s, t, e.0, e.1);
      } else {
        LostForest(s, t);
      }
    }
  }

  lemma SameForest(s: State, t: State)
    requires Forest(s) && forall p :: At(t, p).redirect == At(s, p).redirect
    ensures Forest(t)
  {
    LeadsKept(s, t);
    forall p
      ensures WalkEnds(t, p)
    {
      assert WalkEnds(s, p);
      var r :| Leads(s, p, r) && IsRoot(s, r);
      assert Leads(t, p, r) && IsRoot(t, r);
    }
  }

  /** A cycle of redirects never opens again. */
  lemma LostForest(s: State, t: State)
    requires !Forest(s) && RedirectsKept(s, t)
    ensures !Forest(t)
  {
    var p :| !WalkEnds(s, p);
    LeadsToSelf(s, p);
    forall r | Leads(t, p, r)
      ensures !IsRoot(t, r)
    {
      var k: nat :| Chain(t, p, r, k);
      LostChain(s, t, p, p, r, k);
    }
    assert !WalkEnds(t, p);
  }

  lemma {:induction false} LostChain(s: State, t: State, p: Pid, a: Pid, r: Pid, k: nat)
    requires RedirectsKept(s, t) && Leads(s, p, a) && Chain(t, a, r, k)
    requires forall x :: Leads(s, p, x) ==> !IsRoot(s, x)
    ensures !IsRoot(t, r)
    decreases k
  {
    assert !IsRoot(s, a);
    if k > 0 {
      LeadsOn(s, p, a);
      LostChain(s, t, p, At(s, a).redirect.value, r, k - 1);
    }
  }

  /** A payload with a value is never caught in a cycle: its walk ends within the depth of its meaning. */
  lemma {:induction false} DefinedWalkEnds(prog: Program, schedule: seq<Step>, p: Pid, fuel: nat)
    requires After(prog, schedule).Some? && Eval(prog, p, fuel).Some?
    ensures exists r, k: nat :: k < fuel && Chain(After(prog, schedule).value, p, r, k) && IsRoot(After(prog, schedule).value, r)
    decreases fuel
  {
    var s := After(prog, schedule).value;
    if IsRoot(s, p) {
      assert Chain(s, p, p, 0);
    } else {
      RedirectedIsDone(prog, schedule, p);
      var inner := At(s, Run(p.n)).result.value;
      assert Means(prog, Run(p.n), Eval(prog, Run(p.n), fuel - 1).value);
      MeaningUnique(prog, Run(p.n), inner, Eval(prog, Run(p.n), fuel - 1).value);
      DefinedWalkEnds(prog, schedule, HandleOf(prog, inner.t), fuel - 1);
      var r, k: nat :| k < fuel - 1 && Chain(s, HandleOf(prog, inner.t), r, k) && IsRoot(s, r);
      assert Chain(s, p, r, k + 1);
    }
  }

  // --- a task that returns itself ------------------------------------------------------------

  /** One task, whose callable returns that same task. */
  const OUROBOROS: Program := (n: Name) => Make(Body(false, false, Unwrapping(x => Returned(0))))

  const SELF_COLLAPSE: seq<Step> := [
    Create(0), Advance(0), Start(Job(None, Run(0))), Finish(Run(0)), Release(1),
    Start(Job(Some(Run(0)), Unwrapper(0)))]

  const UNWRAP := Cont(Run(0), Unwrapper(0))
  const RETURNED := NEW.(pending := [UNWRAP], result := Some(Handle(0)))

  /** The states SELF_COLLAPSE passes through before its last step. */
  function Stage(k: nat): State
    requires k <= 5
  {
    var none: map<nat, Flight> := map[];
    if k == 0 then INITIAL
    else if k == 1 then State({0}, map[], map[0 := Adding(Run(0), [UNWRAP])], 1, {Job(None, Run(0))}, {})
    else if k == 2 then State({0}, map[Run(0) := NEW.(pending := [UNWRAP])], none, 1, {Job(None, Run(0))}, {})
    else if k == 3 then State({0}, map[Run(0) := RETURNED], none, 1, {}, {Run(0)})
    else if k == 4 then State({0}, map[Run(0) := Taken(RETURNED, None)], map[1 := Releasing([UNWRAP], 0)], 2, {}, {})
    else State({0}, map[Run(0) := Taken(RETURNED, None)], none, 2, {Job(Some(Run(0)), Unwrapper(0))}, {})
  }

  lemma StageCreate()
    ensures Enabled(OUROBOROS, Stage(0), Create(0)) && Do(OUROBOROS, Stage(0), Create(0)) == Stage(1)
  {
    assert Unwraps(OUROBOROS, 0);
    assert {} + {0} == {0 as Name};
  }

  lemma StageStart()
    ensures Enabled(OUROBOROS, Stage(2), SELF_COLLAPSE[2]) && Do(OUROBOROS, Stage(2), SELF_COLLAPSE[2]) == Stage(3)
  {
    assert Invoke(OUROBOROS(0).body, VALID) == Handle(0);
    assert InputOf(Stage(2), SELF_COLLAPSE[2].job) == Some(VALID);
  }

  lemma StageOther(k: nat)
    requires k == 1 || k == 3 || k == 4
    ensures Enabled(OUROBOROS, Stage(k), SELF_COLLAPSE[k]) && Do(OUROBOROS, Stage(k), SELF_COLLAPSE[k]) == Stage(k + 1)
  {
    assert [] + [UNWRAP] == [UNWRAP];
  }

  lemma {:induction false} Stages(k: nat)
    requires k <= 5
    ensures After(OUROBOROS, Prefix(k)) == Some(Stage(k))
  {
    if k > 0 {
      Stages(k - 1);
      OneMore(k - 1);
      if k == 1 { StageCreate(); } else if k == 3 { StageStart(); } else { StageOther(k - 1); }
    }
  }

  /** A way to lose the forest: the stand-in is redirected to itself, and walks from it never end. */
  lemma SelfCollapseReachable()
    ensures After(OUROBOROS, SELF_COLLAPSE).Some?
    ensures var s := After(OUROBOROS, SELF_COLLAPSE).value;
            At(s, StandIn(0)).redirect == Some(StandIn(0)) && !Forest(s) && !NoSelfCollapse(OUROBOROS, SELF_COLLAPSE)
  {
    Stages(5);
    OneMore(5);
    assert Prefix(6) == SELF_COLLAPSE;
    LeadsToSelf(Stage(5), StandIn(0));
    assert CollapseOf(OUROBOROS, Stage(5), SELF_COLLAPSE[5]) == Some((StandIn(0), HandleOf(OUROBOROS, 0)));
    assert SELF_COLLAPSE[..|SELF_COLLAPSE| - 1] == Prefix(5);
    ForestExactly(OUROBOROS, SELF_COLLAPSE);
  }

  function Prefix(k: nat): seq<Step>
    requires k <= 6
  {
    SELF_COLLAPSE[..k]
  }

  lemma OneMore(k: nat)
    requires k < 6
    ensures var s, step := After(OUROBOROS, Prefix(k)), SELF_COLLAPSE[k];
            After(OUROBOROS, Prefix(k + 1)) ==
            if s.Some? && Enabled(OUROBOROS, s.value, step) then Some(Do(OUROBOROS, s.value, step)) else None
  {
    assert Prefix(k + 1)[..k] == Prefix(k);
  }
}
