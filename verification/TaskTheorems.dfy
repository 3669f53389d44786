/** What every schedule of every task program guarantees. */
module TaskTheorems {
  import opened Wrappers
  import opened TaskProgram
  import opened TaskPayload
  import opened TaskGraph
  import opened TaskInvariant

  /** The payload that stands for p has been completed with v. */
  ghost predicate Resolved(s: State, p: Pid, v: Outcome) {
    exists r :: Leads(s, p, r) && Settled(s, r) && At(s, r).result == Some(v)
  }

  /** The payloads a created task consists of. */
  ghost predicate Exists(prog: Program, s: State, p: Pid) {
    p.n in s.created && (p.Run? || Unwraps(prog, p.n))
  }

  // --- exactly once ------------------------------------------------------------------------

  /** Every created piece of work is in one place, and in no other: pending, carried, queued or run. */
  lemma ExactlyOnce(prog: Program, schedule: seq<Step>, w: Pid)
    requires After(prog, schedule).Some? && IsWork(prog, w)
    ensures var s := After(prog, schedule).value;
            if w.n in s.created
            then exists x :: Occupant(prog, s, x) == Some(w) && forall y :: Occupant(prog, s, y) == Some(w) ==> y == x
            else forall x :: Occupant(prog, s, x) != Some(w)
  {
    ReachableInv(prog, schedule);
    var s := After(prog, schedule).value;
    if w.n in s.created {
      assert Somewhere(prog, s, w);
    }
  }

  /** No payload's Result is written twice and none is completed twice, so cannibalize never throws. */
  lemma CompletedOnce(prog: Program, schedule: seq<Step>, step: Step)
    requires After(prog, schedule).Some? && Enabled(prog, After(prog, schedule).value, step)
    ensures var s := After(prog, schedule).value;
            match step
            case Finish(p) => !At(s, p).completed
            case Complete(n) => At(s, Run(n)).result.None? && !At(s, Run(n)).completed
            case Start(job) =>
              && At(s, job.task).result.None? && !At(s, job.task).completed
              && (job.task.Unwrapper? ==>
                    At(s, StandIn(job.task.n)).result.None? && !At(s, StandIn(job.task.n)).completed)
            case _ => true
  {
    ReachableInv(prog, schedule);
    if step.Start? {
      QueuedNotRun(prog, After(prog, schedule).value, step.job);
    }
  }

  // --- right parent ------------------------------------------------------------------------

  lemma {:induction false} RootUnique(s: State, a: Pid, b: Pid, j: nat, c: Pid, k: nat)
    requires Chain(s, a, b, j) && Chain(s, a, c, k) && IsRoot(s, b) && IsRoot(s, c)
    ensures b == c && j == k
    decreases j
  {
    if j > 0 && k > 0 {
      RootUnique(s, At(s, a).redirect.value, b, j - 1, c, k - 1);
    }
  }

  /**
    A continuation in a scheduler's queue will read a payload that is completed, is the end
    of the redirect chain of the task it was attached to, and has its Result set.
    */
  lemma RightParent(prog: Program, schedule: seq<Step>, job: Job)
    requires After(prog, schedule).Some? && job in After(prog, schedule).value.ready
    ensures var s := After(prog, schedule).value;
            if job.parent.None? then prog(job.task.n).Make?
            else
              && IsAttached(prog, job.task)
              && Leads(s, Origin(prog, job.task), job.parent.value) && Settled(s, job.parent.value)
              && At(s, job.parent.value).result.Some?
              && forall r :: Leads(s, Origin(prog, job.task), r) && IsRoot(s, r) ==> r == job.parent.value
  {
    ReachableInv(prog, schedule);
    var s := After(prog, schedule).value;
    assert JobOk(prog, s, job);
    if job.parent.Some? {
      var a, q := Origin(prog, job.task), job.parent.value;
      forall r | Leads(s, a, r) && IsRoot(s, r)
        ensures r == q
      {
        var j: nat :| Chain(s, a, q, j);
        var k: nat :| Chain(s, a, r, k);
        RootUnique(s, a, q, j, r, k);
      }
    }
  }

  /** A waiting continuation names the payload it waits on, which stands for the task it was attached to. */
  lemma PendingParent(prog: Program, schedule: seq<Step>, p: Pid, k: nat)
    requires After(prog, schedule).Some? && k < |At(After(prog, schedule).value, p).pending|
    ensures var s := After(prog, schedule).value;
            var c := At(s, p).pending[k];
            c.parent == p && IsAttached(prog, c.task) && Leads(s, Origin(prog, c.task), p) && IsRoot(s, p)
  {
    ReachableInv(prog, schedule);
    assert GoodCont(prog, After(prog, schedule).value, At(After(prog, schedule).value, p).pending[k]);
  }

  // --- schedule independence -----------------------------------------------------------------

  /** Whatever a payload resolves to is the value the evaluator gives it. */
  lemma ResolvedMeans(prog: Program, schedule: seq<Step>, p: Pid, v: Outcome)
    requires After(prog, schedule).Some? && Resolved(After(prog, schedule).value, p, v)
    ensures Means(prog, p, v)
  {
    ReachableInv(prog, schedule);
    var s := After(prog, schedule).value;
    var r :| Leads(s, p, r) && Settled(s, r) && At(s, r).result == Some(v);
    MeansAlong(prog, s, p, r, v);
  }

  /** Two runs of a program never disagree about a task, however differently they are scheduled. */
  lemma ScheduleIndependence(prog: Program, one: seq<Step>, two: seq<Step>, p: Pid, v: Outcome, w: Outcome)
    requires After(prog, one).Some? && Resolved(After(prog, one).value, p, v)
    requires After(prog, two).Some? && Resolved(After(prog, two).value, p, w)
    ensures v == w
  {
    ResolvedMeans(prog, one, p, v);
    ResolvedMeans(prog, two, p, w);
    MeaningUnique(prog, p, v, w);
  }

  /** No task anyone holds ever resolves to a task, and no callable but an unwrapper is given one. */
  lemma NeverGivenATask(prog: Program, schedule: seq<Step>)
    requires Flat(prog) && After(prog, schedule).Some?
    ensures var s := After(prog, schedule).value;
            && (forall n, v :: Resolved(s, HandleOf(prog, n), v) ==> !v.Handle?)
            && (forall job :: job in s.ready && job.task.Run? && InputOf(s, job).Some? ==> !InputOf(s, job).value.Handle?)
  {
    var s := After(prog, schedule).value;
    forall n, v | Resolved(s, HandleOf(prog, n), v)
      ensures !v.Handle?
    {
      ResolvedMeans(prog, schedule, HandleOf(prog, n), v);
      var fuel: nat :| Eval(prog, HandleOf(prog, n), fuel) == Some(v);
      NeverATask(prog, n, fuel, v);
    }
    forall job | job in s.ready && job.task.Run? && InputOf(s, job).Some?
      ensures !InputOf(s, job).value.Handle?
    {
      GivenNoTask(prog, schedule, job);
    }
  }

  lemma GivenNoTask(prog: Program, schedule: seq<Step>, job: Job)
    requires Flat(prog) && After(prog, schedule).Some? && job in After(prog, schedule).value.ready
    requires job.task.Run? && InputOf(After(prog, schedule).value, job).Some?
    ensures !InputOf(After(prog, schedule).value, job).value.Handle?
  {
    ReachableInv(prog, schedule);
    var s := After(prog, schedule).value;
    assert JobOk(prog, s, job);
    if job.parent.Some? {
      InputMeans(prog, s, job);
      var m := prog(job.task.n).on;
      var fuel: nat :| Eval(prog, HandleOf(prog, m), fuel) == InputOf(s, job);
      NeverATask(prog, m, fuel, InputOf(s, job).value);
    }
  }

  /** The tasks that exist are those created by a step of the schedule. */
  lemma {:induction false} CreatedBySteps(prog: Program, schedule: seq<Step>)
    requires After(prog, schedule).Some?
    ensures forall n :: n in After(prog, schedule).value.created <==> Create(n) in schedule
  {
    if schedule != [] {
      var last := |schedule| - 1;
      CreatedBySteps(prog, schedule[..last]);
      CreatedGrows(prog, After(prog, schedule[..last]).value, schedule[last]);
      assert schedule == schedule[..last] + [schedule[last]];
    }
  }

  lemma CreatedGrows(prog: Program, s: State, step: Step)
    requires Enabled(prog, s, step)
    ensures Do(prog, s, step).created == if step.Create? then s.created + {step.n} else s.created
    ensures step.Create? ==> Do(prog, s, step).pool == s.pool
  {
  }

  /** A source has a result exactly when the schedule has completed it, and then it is the value it was completed with. */
  lemma {:induction false} CompletedBySteps(prog: Program, schedule: seq<Step>, n: Name)
    requires After(prog, schedule).Some? && prog(n).Source?
    ensures At(After(prog, schedule).value, Run(n)).result == if Complete(n) in schedule then Some(prog(n).value) else None
  {
    if schedule != [] {
      var last := |schedule| - 1;
      CompletedBySteps(prog, schedule[..last], n);
      CompletedNext(prog, After(prog, schedule[..last]).value, schedule[last], n);
      assert schedule == schedule[..last] + [schedule[last]];
    }
  }

  lemma CompletedNext(prog: Program, s: State, step: Step, n: Name)
    requires Enabled(prog, s, step) && prog(n).Source?
    ensures At(Do(prog, s, step), Run(n)).result
         == if step == Complete(n) then Some(prog(n).value) else At(s, Run(n)).result
  {
    var t := Do(prog, s, step);
    match step
    case Create(m) => assert t.pool == s.pool;
    case Complete(m) => assert forall q :: q != Run(m) ==> At(t, q) == At(s, q);
    case Start(job) => assert forall q :: q != job.task && q != StandIn(job.task.n) ==> At(t, q) == At(s, q);
    case Finish(p) => assert forall q :: q != p ==> At(t, q) == At(s, q);
    case Advance(f) => assert forall q :: q != s.flights[f].at ==> At(t, q) == At(s, q);
    case Release(f) => assert t.pool == s.pool;
  }

  /** The user can create any task whose parent exists, once, and complete any created source, once. */
  lemma UserCan(prog: Program, schedule: seq<Step>, n: Name)
    requires After(prog, schedule).Some?
    ensures Enabled(prog, After(prog, schedule).value, Create(n)) <==>
              Create(n) !in schedule && (prog(n).Then? ==> Create(prog(n).on) in schedule)
    ensures Enabled(prog, After(prog, schedule).value, Complete(n)) <==>
              Create(n) in schedule && prog(n).Source? && Complete(n) !in schedule
  {
    CreatedBySteps(prog, schedule);
    if prog(n).Source? { CompletedBySteps(prog, schedule, n); }
  }

  // --- progress --------------------------------------------------------------------------------

  /** No thread is inside the library and every scheduler queue is empty. */
  ghost predicate Quiet(s: State) {
    s.flights == map[] && s.ready == {} && s.completing == {}
  }

  ghost predicate SourcesDone(prog: Program, s: State) {
    forall n :: n in s.created && prog(n).Source? ==> At(s, Run(n)).result.Some?
  }

  lemma HasResolved(prog: Program, s: State, p: Pid)
    requires PayloadsOk(prog, s) && ValuesOk(prog, s) && Quiet(s) && At(s, p).result.Some?
    ensures forall v :: Means(prog, p, v) ==> Resolved(s, p, v)
  {
    LeadsToSelf(s, p);
    assert Settled(s, p);
    forall v | Means(prog, p, v)
      ensures Resolved(s, p, v)
    {
      MeaningUnique(prog, p, v, At(s, p).result.value);
    }
  }

  /** In a quiet state a continuation of a resolved task has run. */
  lemma QuietHasRun(prog: Program, s: State, w: Pid, v: Outcome)
    requires Inv(prog, s) && Quiet(s) && IsAttached(prog, w) && w.n in s.created
    requires Resolved(s, Origin(prog, w), v)
    ensures At(s, w).result.Some?
  {
    var a := Origin(prog, w);
    assert Somewhere(prog, s, w);
    var x :| Occupant(prog, s, x) == Some(w);
    if x.Pending? {
      var c := At(s, x.p).pending[x.k];
      assert GoodCont(prog, s, c);
      var r :| Leads(s, a, r) && Settled(s, r) && At(s, r).result == Some(v);
      var j: nat :| Chain(s, a, r, j);
      var k: nat :| Chain(s, a, x.p, k);
      RootUnique(s, a, r, j, x.p, k);
      assert false;
    }
  }

  /** The schedule has led to s, and nothing more will happen. */
  ghost predicate AtRest(prog: Program, schedule: seq<Step>, s: State) {
    After(prog, schedule) == Some(s) && Quiet(s) && SourcesDone(prog, s)
  }

  lemma {:induction false} QuietResolves(prog: Program, schedule: seq<Step>, s: State, p: Pid, fuel: nat)
    requires AtRest(prog, schedule, s) && Exists(prog, s, p) && Eval(prog, p, fuel).Some?
    ensures Resolved(s, p, Eval(prog, p, fuel).value)
    decreases fuel
  {
    var v := Eval(prog, p, fuel).value;
    assert Means(prog, p, v);
    match p
    case Run(n) =>
      if prog(n).Then? {
        OriginCreated(prog, schedule, s, n);
        var m := HandleOf(prog, prog(n).on);
        QuietResolves(prog, schedule, s, m, fuel - 1);
        QuietRun(prog, schedule, s, n, Eval(prog, m, fuel - 1).value, v);
      } else {
        QuietRun(prog, schedule, s, n, v, v);
      }
    case Unwrapper(n) =>
      QuietResolves(prog, schedule, s, Run(n), fuel - 1);
      QuietUnwrapper(prog, schedule, s, n, Eval(prog, Run(n), fuel - 1).value, v);
    case StandIn(n) =>
      QuietResolves(prog, schedule, s, Run(n), fuel - 1);
      var inner := Eval(prog, Run(n), fuel - 1).value;
      if inner.Handle? {
        ReturnedExists(prog, schedule, s, n, inner.t);
        QuietResolves(prog, schedule, s, HandleOf(prog, inner.t), fuel - 1);
      }
      QuietStandIn(prog, schedule, s, n, inner, v);
  }

  lemma OriginCreated(prog: Program, schedule: seq<Step>, s: State, n: Name)
    requires AtRest(prog, schedule, s) && n in s.created && prog(n).Then?
    ensures prog(n).on in s.created
  {
    ReachableInv(prog, schedule);
  }

  lemma QuietUnwrapper(prog: Program, schedule: seq<Step>, s: State, n: Name, inner: Outcome, v: Outcome)
    requires AtRest(prog, schedule, s) && n in s.created && Unwraps(prog, n)
    requires Means(prog, Unwrapper(n), v) && Resolved(s, Run(n), inner)
    ensures Resolved(s, Unwrapper(n), v)
  {
    ReachableInv(prog, schedule);
    QuietHasRun(prog, s, Unwrapper(n), inner);
    HasResolved(prog, s, Unwrapper(n));
  }

  lemma QuietRun(prog: Program, schedule: seq<Step>, s: State, n: Name, input: Outcome, v: Outcome)
    requires AtRest(prog, schedule, s) && n in s.created && Means(prog, Run(n), v)
    requires prog(n).Then? ==> Resolved(s, HandleOf(prog, prog(n).on), input)
    ensures Resolved(s, Run(n), v)
  {
    ReachableInv(prog, schedule);
    if prog(n).Make? { QuietMakeHasRun(prog, s, n); }
    if prog(n).Then? { QuietHasRun(prog, s, Run(n), input); }
    HasResolved(prog, s, Run(n));
  }

  lemma ReturnedExists(prog: Program, schedule: seq<Step>, s: State, n: Name, t: Name)
    requires AtRest(prog, schedule, s) && Unwraps(prog, n) && Resolved(s, Run(n), Handle(t))
    ensures At(s, Run(n)).result == Some(Handle(t)) && t in s.created
  {
    ReachableInv(prog, schedule);
    var r :| Leads(s, Run(n), r) && Settled(s, r) && At(s, r).result == Some(Handle(t));
    var k: nat :| Chain(s, Run(n), r, k);
    assert IsRoot(s, Run(n));
  }

  /** A stand-in resolves to what the callable's payload, or the task it returned, resolves to. */
  lemma QuietStandIn(prog: Program, schedule: seq<Step>, s: State, n: Name, inner: Outcome, v: Outcome)
    requires AtRest(prog, schedule, s) && n in s.created && Unwraps(prog, n)
    requires Resolved(s, Run(n), inner) && Means(prog, StandIn(n), v)
    requires inner.Handle? ==> Resolved(s, HandleOf(prog, inner.t), v)
    ensures Resolved(s, StandIn(n), v)
  {
    ReachableInv(prog, schedule);
    QuietHasRun(prog, s, Unwrapper(n), inner);
    if At(s, StandIn(n)).result.Some? {
      HasResolved(prog, s, StandIn(n));
    } else {
      var t := At(s, Run(n)).result.value.t;
      var r :| Leads(s, Run(n), r) && Settled(s, r) && At(s, r).result == Some(inner);
      var k: nat :| Chain(s, Run(n), r, k);
      assert IsRoot(s, Run(n));
      ResolvedThrough(s, StandIn(n), HandleOf(prog, t), v);
    }
  }

  lemma MakeNeverPends(prog: Program, s: State, n: Name)
    requires PendingOk(prog, s) && prog(n).Make?
    ensures forall x :: Occupant(prog, s, x) == Some(Run(n)) ==> !x.Pending?
  {
    forall p, k: nat | Occupant(prog, s, Pending(p, k)).Some?
      ensures IsAttached(prog, Occupant(prog, s, Pending(p, k)).value)
    {
      assert GoodCont(prog, s, At(s, p).pending[k]);
    }
  }

  lemma QuietMakeHasRun(prog: Program, s: State, n: Name)
    requires Inv(prog, s) && Quiet(s) && prog(n).Make? && n in s.created
    ensures At(s, Run(n)).result.Some?
  {
    MakeNeverPends(prog, s, n);
    assert Somewhere(prog, s, Run(n));
  }

  lemma ResolvedThrough(s: State, p: Pid, q: Pid, v: Outcome)
    requires At(s, p).redirect == Some(q) && Resolved(s, q, v)
    ensures Resolved(s, p, v)
  {
    var r :| Leads(s, q, r) && Settled(s, r) && At(s, r).result == Some(v);
    var k: nat :| Chain(s, q, r, k);
    assert Chain(s, p, r, k + 1);
  }

  /**
    Once the user has completed the sources and nothing is left to run, a created task has
    resolved exactly when its own definition does not make it wait on itself, and then to
    the evaluator's value.
    */
  lemma Progress(prog: Program, schedule: seq<Step>, p: Pid, v: Outcome)
    requires After(prog, schedule).Some?
    requires AtRest(prog, schedule, After(prog, schedule).value)
    requires Exists(prog, After(prog, schedule).value, p)
    ensures Resolved(After(prog, schedule).value, p, v) <==> Means(prog, p, v)
  {
    if Means(prog, p, v) {
      var fuel: nat :| Eval(prog, p, fuel) == Some(v);
      QuietResolves(prog, schedule, After(prog, schedule).value, p, fuel);
    }
    if Resolved(After(prog, schedule).value, p, v) {
      ResolvedMeans(prog, schedule, p, v);
    }
  }

  /** As long as anything is left to do, some thread can do it. */
  lemma NeverStuck(prog: Program, schedule: seq<Step>)
    requires After(prog, schedule).Some? && !Quiet(After(prog, schedule).value)
    requires forall job :: job in After(prog, schedule).value.ready ==>
               Returnable(prog, After(prog, schedule).value, job)
    ensures exists step: Step :: !step.Create? && !step.Complete? && Enabled(prog, After(prog, schedule).value, step)
  {
    ReachableInv(prog, schedule);
    var s := After(prog, schedule).value;
    if s.completing != {} {
      var p :| p in s.completing;
      assert Enabled(prog, s, Finish(p));
    } else if s.ready != {} {
      var job :| job in s.ready;
      QueuedNotRun(prog, s, job);
      assert JobOk(prog, s, job);
      if job.task.Unwrapper? {
        UnwrapperInput(prog, s, job);
        assert Means(prog, Run(job.task.n), InputOf(s, job).value);
        UnwrappingNeverPlain(prog, job.task.n, InputOf(s, job).value);
      }
      assert Enabled(prog, s, Start(job));
    } else {
      var f :| f in s.flights;
      assert FlightOk(prog, s, s.flights[f]);
      if s.flights[f].Adding? { assert Enabled(prog, s, Advance(f)); } else { assert Enabled(prog, s, Release(f)); }
    }
  }
}
