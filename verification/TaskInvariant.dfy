/** Every step of the task graph keeps its invariant. */
module TaskInvariant {
  import opened Wrappers
  import opened TaskProgram
  import opened TaskPayload
  import opened TaskGraph

  // --- frames ----------------------------------------------------------------------------

  ghost predicate RedirectsKept(s: State, t: State) {
    forall p :: At(s, p).redirect.Some? ==> At(t, p).redirect == At(s, p).redirect
  }

  lemma {:induction false} ChainKept(s: State, t: State, a: Pid, b: Pid, k: nat)
    requires RedirectsKept(s, t) && Chain(s, a, b, k)
    ensures Chain(t, a, b, k)
    decreases k
  {
    if k > 0 {
      ChainKept(s, t, At(s, a).redirect.value, b, k - 1);
    }
  }

  lemma {:induction false} ChainExtends(s: State, a: Pid, b: Pid, k: nat)
    requires Chain(s, a, b, k) && At(s, b).redirect.Some?
    ensures Chain(s, a, At(s, b).redirect.value, k + 1)
    decreases k
  {
    if k > 0 {
      ChainExtends(s, At(s, a).redirect.value, b, k - 1);
    } else {
      assert Chain(s, At(s, b).redirect.value, At(s, b).redirect.value, 0);
    }
  }

  lemma LeadsKept(s: State, t: State)
    requires RedirectsKept(s, t)
    ensures forall a, b :: Leads(s, a, b) ==> Leads(t, a, b)
  {
    forall a, b | Leads(s, a, b)
      ensures Leads(t, a, b)
    {
      var k: nat :| Chain(s, a, b, k);
      ChainKept(s, t, a, b, k);
    }
  }

  lemma LeadsToSelf(s: State, a: Pid)
    ensures Leads(s, a, a)
  {
    assert Chain(s, a, a, 0);
  }

  lemma LeadsOn(s: State, a: Pid, b: Pid)
    requires Leads(s, a, b) && At(s, b).redirect.Some?
    ensures Leads(s, a, At(s, b).redirect.value)
  {
    var k: nat :| Chain(s, a, b, k);
    ChainExtends(s, a, b, k);
  }

  /** What a step must not undo for the continuations it does not touch to stay good. */
  ghost predicate Grows(s: State, t: State) {
    && s.created <= t.created
    && RedirectsKept(s, t)
    && (forall p :: Settled(s, p) ==> Settled(t, p))
  }

  lemma GoodKept(prog: Program, s: State, t: State)
    requires Grows(s, t)
    ensures forall c :: GoodCont(prog, s, c) ==> GoodCont(prog, t, c)
  {
    LeadsKept(s, t);
  }

  lemma FlightKept(prog: Program, s: State, t: State, fl: Flight)
    requires Grows(s, t) && FlightOk(prog, s, fl)
    ensures FlightOk(prog, t, fl)
  {
    GoodKept(prog, s, t);
  }

  lemma FlightsKept(prog: Program, s: State, t: State)
    requires Grows(s, t) && FlightsOk(prog, s)
    requires forall f :: f in t.flights ==> f in s.flights && t.flights[f] == s.flights[f]
    ensures FlightsOk(prog, t)
  {
    forall f | f in t.flights
      ensures FlightOk(prog, t, t.flights[f])
    {
      FlightKept(prog, s, t, s.flights[f]);
    }
  }

  lemma ReadyKept(prog: Program, s: State, t: State)
    requires Grows(s, t) && ReadyOk(prog, s) && t.ready <= s.ready
    ensures ReadyOk(prog, t)
  {
    GoodKept(prog, s, t);
  }

  lemma PendingKept(prog: Program, s: State, t: State)
    requires Grows(s, t) && PendingOk(prog, s)
    requires forall p :: At(t, p).pending == At(s, p).pending || At(t, p).pending == []
    ensures PendingOk(prog, t)
  {
    GoodKept(prog, s, t);
  }

  /** Setting off with good continuations. */
  lemma LaunchKeeps(prog: Program, s: State, fl: Flight)
    requires ContsOk(prog, s)
    requires |fl.batch| > 0 ==> FlightOk(prog, s, fl)
    ensures ContsOk(prog, Launch(s, fl))
  {
    var t := Launch(s, fl);
    assert Grows(s, t);
    PendingKept(prog, s, t);
    ReadyKept(prog, s, t);
    forall f | f in t.flights
      ensures FlightOk(prog, t, t.flights[f])
    {
      if f in s.flights && t.flights[f] == s.flights[f] { FlightKept(prog, s, t, s.flights[f]); }
      else { FlightKept(prog, s, t, fl); }
    }
  }

  // --- moving between places ---------------------------------------------------------------

  /**
    A step that only moves work keeps every piece in exactly one place, when each occupied
    place afterwards was reached from an occupied place before, and the other way round.
    */
  ghost predicate Moves(prog: Program, s: State, t: State, back: Place -> Place, forth: Place -> Place) {
    forall x :: MovesAt(prog, s, t, back, forth, x)
  }

  ghost predicate MovesAt(prog: Program, s: State, t: State, back: Place -> Place, forth: Place -> Place, x: Place) {
    && (Occupant(prog, t, x).Some? ==> Occupant(prog, s, back(x)) == Occupant(prog, t, x) && forth(back(x)) == x)
    && (Occupant(prog, s, x).Some? ==> Occupant(prog, t, forth(x)) == Occupant(prog, s, x))
  }

  lemma PlacesMoved(prog: Program, s: State, t: State, back: Place -> Place, forth: Place -> Place)
    requires PlacesOk(prog, s) && t.created == s.created && Moves(prog, s, t, back, forth)
    ensures PlacesOk(prog, t)
  {
    forall x, y | Occupant(prog, t, x).Some? && Occupant(prog, t, x) == Occupant(prog, t, y)
      ensures x == y
    {
      assert MovesAt(prog, s, t, back, forth, x) && MovesAt(prog, s, t, back, forth, y);
      assert Occupant(prog, s, back(x)) == Occupant(prog, s, back(y));
      assert back(x) == back(y);
    }
    forall x | Occupant(prog, t, x).Some?
      ensures IsWork(prog, Occupant(prog, t, x).value) && Occupant(prog, t, x).value.n in t.created
    {
      assert MovesAt(prog, s, t, back, forth, x);
      assert Occupant(prog, s, back(x)) == Occupant(prog, t, x);
    }
    forall w | IsWork(prog, w) && w.n in t.created
      ensures Somewhere(prog, t, w)
    {
      assert Somewhere(prog, s, w);
      var x :| Occupant(prog, s, x) == Some(w);
      assert MovesAt(prog, s, t, back, forth, x);
      assert Occupant(prog, t, forth(x)) == Some(w);
    }
  }

  /** A step that puts w, found nowhere before, in one new place. */
  lemma PlaceAdded(prog: Program, s: State, t: State, at: Place, w: Pid)
    requires NowhereTwice(prog, s) && OnlyCreated(prog, s) && !Somewhere(prog, s, w)
    requires t.created == s.created && IsWork(prog, w) && w.n in t.created
    requires Occupant(prog, s, at).None? && Occupant(prog, t, at) == Some(w)
    requires forall x :: x != at ==> Occupant(prog, t, x) == Occupant(prog, s, x)
    ensures NowhereTwice(prog, t) && OnlyCreated(prog, t)
    ensures forall v :: Somewhere(prog, t, v) <==> v == w || Somewhere(prog, s, v)
  {
    forall v
      ensures Somewhere(prog, t, v) <==> v == w || Somewhere(prog, s, v)
    {
      if Somewhere(prog, s, v) {
        var x :| Occupant(prog, s, x) == Some(v);
        assert Occupant(prog, t, x) == Some(v);
      }
      if Somewhere(prog, t, v) && v != w {
        var x :| Occupant(prog, t, x) == Some(v);
        assert Occupant(prog, s, x) == Some(v);
      }
    }
    assert forall x :: Occupant(prog, s, x) != Some(w);
  }

  lemma LaunchPlaces(prog: Program, s: State, parent: Pid, w: Pid)
    requires NowhereTwice(prog, s) && OnlyCreated(prog, s) && !Somewhere(prog, s, w)
    requires IsWork(prog, w) && w.n in s.created && FieldsOk(s)
    ensures var t := Launch(s, Adding(parent, [Cont(parent, w)]));
            && NowhereTwice(prog, t) && OnlyCreated(prog, t) && FieldsOk(t)
            && forall v :: Somewhere(prog, t, v) <==> v == w || Somewhere(prog, s, v)
  {
    var t := Launch(s, Adding(parent, [Cont(parent, w)]));
    assert t.pool == s.pool;
    assert forall p :: At(t, p) == At(s, p);
    var at := InFlight(s.nextFlight, 0);
    forall x | x != at
      ensures Occupant(prog, t, x) == Occupant(prog, s, x)
    {
    }
    PlaceAdded(prog, s, t, at, w);
  }

  // --- Create ----------------------------------------------------------------------------

  lemma CreateKeepsPayloads(prog: Program, s: State, n: Name)
    requires PayloadsOk(prog, s) && ValuesOk(prog, s) && Enabled(prog, s, Create(n))
    ensures PayloadsOk(prog, Do(prog, s, Create(n))) && ValuesOk(prog, Do(prog, s, Create(n)))
  {
    var t := CreateTask(prog, s, n);
    assert t.pool == s.pool && t.completing == s.completing && t.created == s.created + {n};
    assert forall f :: f in t.flights ==> f < t.nextFlight;
    SamePool(prog, s, t);
  }

  /** What is said of payloads is kept when none of them changes. */
  lemma SamePool(prog: Program, s: State, t: State)
    requires PayloadsOk(prog, s) && ValuesOk(prog, s) && t.pool == s.pool && t.completing == s.completing
    requires s.created <= t.created && forall f :: f in t.flights ==> f < t.nextFlight
    requires forall n :: n in t.created && prog(n).Then? ==> prog(n).on in t.created
    ensures PayloadsOk(prog, t) && ValuesOk(prog, t)
  {
    assert forall p :: At(t, p) == At(s, p);
    assert NamesOk(prog, t);
    assert StandInsOk(t);
    assert RedirectsOk(prog, t);
  }

  lemma CreateKeepsConts(prog: Program, s: State, n: Name)
    requires ContsOk(prog, s) && Enabled(prog, s, Create(n))
    ensures ContsOk(prog, Do(prog, s, Create(n)))
  {
    var s0 := s.(created := s.created + {n});
    assert forall p :: At(s0, p) == At(s, p);
    PendingKept(prog, s, s0);
    FlightsKept(prog, s, s0);
    ReadyKept(prog, s, s0);
    var s1 := s0;
    if Unwraps(prog, n) {
      LeadsToSelf(s0, Run(n));
      var fl := Adding(Run(n), [Cont(Run(n), Unwrapper(n))]);
      s1 := Launch(s0, fl);
      LaunchKeeps(prog, s0, fl);
    }
    match prog(n)
    case Source(_) =>
    case Make(_) =>
      var t := s1.(ready := s1.ready + {Job(None, Run(n))});
      assert Grows(s1, t);
      PendingKept(prog, s1, t);
      FlightsKept(prog, s1, t);
      GoodKept(prog, s1, t);
    case Then(m, _) =>
      LeadsToSelf(s1, HandleOf(prog, m));
      var fl := Adding(HandleOf(prog, m), [Cont(HandleOf(prog, m), Run(n))]);
      LaunchKeeps(prog, s1, fl);
  }

  lemma CreateKeepsPlaces(prog: Program, s: State, n: Name)
    requires PlacesOk(prog, s) && FieldsOk(s) && Enabled(prog, s, Create(n))
    ensures PlacesOk(prog, Do(prog, s, Create(n)))
  {
    var s0 := s.(created := s.created + {n});
    assert forall p :: At(s0, p) == At(s, p);
    assert forall x :: Occupant(prog, s0, x) == Occupant(prog, s, x);
    forall w | IsWork(prog, w)
      ensures Somewhere(prog, s0, w) <==> w.n in s.created
    {
      if w.n in s.created {
        assert Somewhere(prog, s, w);
        var x :| Occupant(prog, s, x) == Some(w);
        assert Occupant(prog, s0, x) == Some(w);
      }
      if Somewhere(prog, s0, w) {
        var x :| Occupant(prog, s0, x) == Some(w);
        assert Occupant(prog, s, x) == Some(w);
      }
    }
    var s1 := s0;
    if Unwraps(prog, n) {
      s1 := Launch(s0, Adding(Run(n), [Cont(Run(n), Unwrapper(n))]));
      LaunchPlaces(prog, s0, Run(n), Unwrapper(n));
    }
    var t := CreateTask(prog, s, n);
    match prog(n)
    case Source(_) =>
    case Make(_) =>
      assert forall p :: At(t, p) == At(s1, p);
      assert Occupant(prog, t, Queued(Job(None, Run(n)))) == Some(Run(n));
      forall x | x != Queued(Job(None, Run(n)))
        ensures Occupant(prog, t, x) == Occupant(prog, s1, x)
      {
      }
      if Occupant(prog, s1, Queued(Job(None, Run(n)))).Some? {
        assert Somewhere(prog, s1, Run(n));
      }
      PlaceAdded(prog, s1, t, Queued(Job(None, Run(n))), Run(n));
    case Then(m, _) =>
      LaunchPlaces(prog, s1, HandleOf(prog, m), Run(n));
  }

  // --- results -----------------------------------------------------------------------------

  /** A payload has the value of whatever its redirects lead to. */
  lemma {:induction false} MeansAlongChain(prog: Program, s: State, a: Pid, b: Pid, k: nat, v: Outcome)
    requires PayloadsOk(prog, s) && ValuesOk(prog, s)
    requires Chain(s, a, b, k) && Means(prog, b, v)
    ensures Means(prog, a, v)
    decreases k
  {
    if k > 0 {
      MeansAlongChain(prog, s, At(s, a).redirect.value, b, k - 1, v);
      assert a == StandIn(a.n) && Unwraps(prog, a.n);
      MeansStandInHandle(prog, a.n, At(s, Run(a.n)).result.value.t, v);
    }
  }

  lemma MeansAlong(prog: Program, s: State, a: Pid, b: Pid, v: Outcome)
    requires PayloadsOk(prog, s) && ValuesOk(prog, s)
    requires Leads(s, a, b) && Means(prog, b, v)
    ensures Means(prog, a, v)
  {
    var k: nat :| Chain(s, a, b, k);
    MeansAlongChain(prog, s, a, b, k, v);
  }

  /** A queued job has not run, and its payload is untouched. */
  lemma QueuedNotRun(prog: Program, s: State, job: Job)
    requires PlacesOk(prog, s) && PayloadsOk(prog, s) && job in s.ready
    ensures IsWork(prog, job.task) && job.task.n in s.created
    ensures At(s, job.task).result.None? && !At(s, job.task).completed && At(s, job.task).redirect.None?
    ensures job.task !in s.completing
  {
    assert Occupant(prog, s, Queued(job)) == Some(job.task);
    assert Occupant(prog, s, Ran(job.task)) == None;
  }

  lemma SetResultKeepsConts(prog: Program, s: State, p: Pid, v: Outcome)
    requires ContsOk(prog, s)
    ensures ContsOk(prog, SetResult(s, p, v))
  {
    var t := SetResult(s, p, v);
    assert forall q :: q != p ==> At(t, q) == At(s, q);
    assert Grows(s, t);
    PendingKept(prog, s, t);
    FlightsKept(prog, s, t);
    ReadyKept(prog, s, t);
  }

  lemma DropJobKeepsConts(prog: Program, s: State, job: Job)
    requires ContsOk(prog, s)
    ensures ContsOk(prog, s.(ready := s.ready - {job}))
  {
    var t := s.(ready := s.ready - {job});
    assert forall q :: At(t, q) == At(s, q);
    assert Grows(s, t);
    PendingKept(prog, s, t);
    FlightsKept(prog, s, t);
    ReadyKept(prog, s, t);
  }

  /** Writing the result of something no scheduler runs moves nothing. */
  lemma SetResultKeepsPlaces(prog: Program, s: State, p: Pid, v: Outcome)
    requires PlacesOk(prog, s) && !IsWork(prog, p)
    ensures PlacesOk(prog, SetResult(s, p, v))
  {
    var t := SetResult(s, p, v);
    assert forall q :: q != p ==> At(t, q) == At(s, q);
    assert forall x :: Occupant(prog, t, x) == Occupant(prog, s, x);
    PlacesMoved(prog, s, t, x => x, x => x);
  }

  lemma RunMoves(prog: Program, s: State, job: Job, v: Outcome, x: Place)
    requires PlacesOk(prog, s) && PayloadsOk(prog, s) && job in s.ready
    ensures var t := SetResult(s.(ready := s.ready - {job}), job.task, v);
            && (Occupant(prog, t, x).Some? ==>
                  x != Queued(job) && Occupant(prog, s, if x == Ran(job.task) then Queued(job) else x) == Occupant(prog, t, x))
            && (Occupant(prog, s, x).Some? ==>
                  x != Ran(job.task) && Occupant(prog, t, if x == Queued(job) then Ran(job.task) else x) == Occupant(prog, s, x))
  {
    QueuedNotRun(prog, s, job);
    var t := SetResult(s.(ready := s.ready - {job}), job.task, v);
    assert forall q :: q != job.task ==> At(t, q) == At(s, q);
  }

  /** Running a job moves its work from the queue to the finished work. */
  lemma RunKeepsPlaces(prog: Program, s: State, job: Job, v: Outcome)
    requires PlacesOk(prog, s) && PayloadsOk(prog, s) && job in s.ready
    ensures PlacesOk(prog, SetResult(s.(ready := s.ready - {job}), job.task, v))
  {
    var w := job.task;
    var t := SetResult(s.(ready := s.ready - {job}), w, v);
    var back := (x: Place) => if x == Ran(w) then Queued(job) else x;
    var forth := (x: Place) => if x == Queued(job) then Ran(w) else x;
    forall x { RunMoves(prog, s, job, v, x); }
    PlacesMoved(prog, s, t, back, forth);
  }

  lemma CompleteKeeps(prog: Program, s: State, n: Name)
    requires Inv(prog, s) && Enabled(prog, s, Complete(n))
    ensures Inv(prog, Do(prog, s, Complete(n)))
  {
    var t := SetResult(s, Run(n), prog(n).value);
    assert forall q :: q != Run(n) ==> At(t, q) == At(s, q);
    MeansSource(prog, n);
    SetResultKeepsConts(prog, s, Run(n), prog(n).value);
    SetResultKeepsPlaces(prog, s, Run(n), prog(n).value);
    CompleteKeepsPayloads(prog, s, n);
  }

  /** A result written to the payload of n's callable, or source, and nothing else. */
  ghost predicate RanTo(s: State, t: State, n: Name, v: Outcome) {
    && t.created == s.created && t.flights == s.flights && t.nextFlight == s.nextFlight
    && (forall q :: q != Run(n) ==> At(t, q) == At(s, q))
    && At(t, Run(n)) == At(s, Run(n)).(result := Some(v))
    && t.completing == s.completing + {Run(n)}
  }

  lemma RanFields(s: State, t: State, n: Name, v: Outcome)
    requires FieldsOk(s) && RanTo(s, t, n, v)
    requires At(s, Run(n)).result.None? && !At(s, Run(n)).completed
    ensures FieldsOk(t)
  {
  }

  lemma RanNames(prog: Program, s: State, t: State, n: Name, v: Outcome)
    requires RedirectsOk(prog, s) && NamesOk(prog, s) && StandInsOk(s) && RanTo(s, t, n, v)
    requires n in s.created && At(s, Run(n)).result.None?
    requires Unwraps(prog, n) && v.Handle? ==> v.t in s.created
    ensures RedirectsOk(prog, t) && NamesOk(prog, t) && StandInsOk(t)
  {
    assert StandInsOk(t);
    assert RedirectsOk(prog, t);
  }

  lemma CompleteKeepsPayloads(prog: Program, s: State, n: Name)
    requires PayloadsOk(prog, s) && Enabled(prog, s, Complete(n))
    ensures PayloadsOk(prog, Do(prog, s, Complete(n)))
  {
    var t := SetResult(s, Run(n), prog(n).value);
    assert RanTo(s, t, n, prog(n).value);
    RanFields(s, t, n, prog(n).value);
    RanNames(prog, s, t, n, prog(n).value);
  }

  /** What a callable is given is the value of the payload it was attached to. */
  lemma InputMeans(prog: Program, s: State, job: Job)
    requires PayloadsOk(prog, s) && ValuesOk(prog, s) && job in s.ready && JobOk(prog, s, job)
    requires InputOf(s, job).Some? && IsAttached(prog, job.task)
    ensures job.parent.Some? && Means(prog, Origin(prog, job.task), InputOf(s, job).value)
  {
    MeansAlong(prog, s, Origin(prog, job.task), job.parent.value, InputOf(s, job).value);
  }

  lemma StartRunKeepsPayloads(prog: Program, s: State, job: Job)
    requires PayloadsOk(prog, s) && PlacesOk(prog, s) && Enabled(prog, s, Start(job)) && job.task.Run?
    ensures PayloadsOk(prog, Do(prog, s, Start(job)))
  {
    QueuedNotRun(prog, s, job);
    var n := job.task.n;
    var t, v := Do(prog, s, Start(job)), Invoke(prog(n).body, InputOf(s, job).value);
    assert RanTo(s, t, n, v);
    RanFields(s, t, n, v);
    RanNames(prog, s, t, n, v);
  }

  lemma StartRunKeeps(prog: Program, s: State, job: Job)
    requires Inv(prog, s) && Enabled(prog, s, Start(job)) && job.task.Run?
    ensures Inv(prog, Do(prog, s, Start(job)))
  {
    var n, input := job.task.n, InputOf(s, job).value;
    var out := Invoke(prog(n).body, input);
    StartRunKeepsPayloads(prog, s, job);
    assert JobOk(prog, s, job);
    if job.parent.None? {
      MeansMake(prog, n);
    } else {
      InputMeans(prog, s, job);
      MeansThen(prog, n, input);
    }
    var t := Do(prog, s, Start(job));
    assert forall q :: q != job.task ==> At(t, q) == At(s, q);
    DropJobKeepsConts(prog, s, job);
    SetResultKeepsConts(prog, s.(ready := s.ready - {job}), Run(n), out);
    RunKeepsPlaces(prog, s, job, out);
  }

  // --- cannibalize -------------------------------------------------------------------------

  lemma CannibalizeKeepsConts(prog: Program, s: State, p: Pid, redirect: Option<Pid>)
    requires ContsOk(prog, s) && FieldsOk(s) && IsRoot(s, p) && !At(s, p).completed
    ensures ContsOk(prog, Cannibalize(s, p, redirect))
  {
    var batch := At(s, p).pending;
    var t := Put(s, p, Taken(At(s, p), redirect));
    assert forall q :: q != p ==> At(t, q) == At(s, q);
    assert At(t, p) == Taken(At(s, p), redirect);
    assert Grows(s, t);
    PendingKept(prog, s, t);
    FlightsKept(prog, s, t);
    ReadyKept(prog, s, t);
    GoodKept(prog, s, t);
    assert forall i :: 0 <= i < |batch| ==> batch[i].parent == p && GoodCont(prog, t, batch[i]);
    match redirect
    case None =>
      LaunchKeeps(prog, t, Releasing(batch, 0));
    case Some(q) =>
      var moved := Reparent(batch, q);
      forall i | 0 <= i < |moved|
        ensures GoodCont(prog, t, moved[i])
      {
        assert GoodCont(prog, t, batch[i]);
        LeadsOn(t, Origin(prog, batch[i].task), p);
      }
      LaunchKeeps(prog, t, Adding(q, moved));
  }

  lemma CannibalizeMoves(prog: Program, s: State, p: Pid, redirect: Option<Pid>, x: Place)
    requires FieldsOk(s)
    ensures var t, f := Cannibalize(s, p, redirect), s.nextFlight;
            && (Occupant(prog, t, x).Some? ==>
                  && !(x.Pending? && x.p == p)
                  && Occupant(prog, s, if x.InFlight? && x.f == f then Pending(p, x.i) else x) == Occupant(prog, t, x))
            && (Occupant(prog, s, x).Some? ==>
                  && !(x.InFlight? && x.f == f)
                  && Occupant(prog, t, if x.Pending? && x.p == p then InFlight(f, x.k) else x) == Occupant(prog, s, x))
  {
    var t := Cannibalize(s, p, redirect);
    assert forall q :: q != p ==> At(t, q) == At(s, q);
    assert At(t, p) == Taken(At(s, p), redirect);
  }

  lemma CannibalizeKeepsPlaces(prog: Program, s: State, p: Pid, redirect: Option<Pid>)
    requires PlacesOk(prog, s) && FieldsOk(s)
    ensures PlacesOk(prog, Cannibalize(s, p, redirect))
  {
    var t, f := Cannibalize(s, p, redirect), s.nextFlight;
    var back := (x: Place) => if x.InFlight? && x.f == f then Pending(p, x.i) else x;
    var forth := (x: Place) => if x.Pending? && x.p == p then InFlight(f, x.k) else x;
    forall x { CannibalizeMoves(prog, s, p, redirect, x); }
    PlacesMoved(prog, s, t, back, forth);
  }

  lemma FinishKeepsFields(prog: Program, s: State, p: Pid)
    requires FieldsOk(s) && p in s.completing
    ensures FieldsOk(Do(prog, s, Finish(p)))
  {
    var t := Do(prog, s, Finish(p));
    assert forall q :: q != p ==> At(t, q) == At(s, q);
    assert At(t, p) == Taken(At(s, p), None);
  }

  lemma FinishKeepsPayloads(prog: Program, s: State, p: Pid)
    requires PayloadsOk(prog, s) && p in s.completing
    ensures PayloadsOk(prog, Do(prog, s, Finish(p)))
  {
    var t := Do(prog, s, Finish(p));
    FinishKeepsFields(prog, s, p);
    assert forall q :: q != p ==> At(t, q) == At(s, q);
    assert At(t, p) == Taken(At(s, p), None);
    assert NamesOk(prog, t);
  }

  lemma FinishKeeps(prog: Program, s: State, p: Pid)
    requires Inv(prog, s) && Enabled(prog, s, Finish(p))
    ensures Inv(prog, Do(prog, s, Finish(p)))
  {
    var u := Cannibalize(s, p, None);
    var t := Do(prog, s, Finish(p));
    assert t == u.(completing := s.completing - {p});
    assert forall q :: At(t, q) == At(u, q);
    assert forall q :: q != p ==> At(t, q) == At(s, q);
    FinishKeepsPayloads(prog, s, p);
    CannibalizeKeepsConts(prog, s, p, None);
    CannibalizeKeepsPlaces(prog, s, p, None);
    CompletingIrrelevant(prog, u, t);
  }

  /** The set of payloads about to complete is no part of where continuations are. */
  lemma CompletingIrrelevant(prog: Program, s: State, t: State)
    requires ContsOk(prog, s) && PlacesOk(prog, s) && t == s.(completing := t.completing)
    ensures ContsOk(prog, t) && PlacesOk(prog, t)
  {
    assert forall q :: At(t, q) == At(s, q);
    assert Grows(s, t);
    PendingKept(prog, s, t);
    FlightsKept(prog, s, t);
    ReadyKept(prog, s, t);
    assert forall x :: Occupant(prog, t, x) == Occupant(prog, s, x);
    PlacesMoved(prog, s, t, x => x, x => x);
  }

  // --- the unwrapper -----------------------------------------------------------------------

  /** The unwrapper reads the payload of the callable itself. */
  lemma UnwrapperInput(prog: Program, s: State, job: Job)
    requires PayloadsOk(prog, s) && PlacesOk(prog, s) && ReadyOk(prog, s) && job in s.ready && job.task.Unwrapper?
    ensures var n := job.task.n;
            && job.parent == Some(Run(n)) && Settled(s, Run(n)) && ReadyToUnwrap(prog, s, n)
  {
    QueuedNotRun(prog, s, job);
    assert JobOk(prog, s, job);
    var n := job.task.n;
    var k: nat :| Chain(s, Run(n), job.parent.value, k);
    assert IsRoot(s, Run(n));
  }

  /** The unwrapper of n is about to run: neither it nor the stand-in has been touched. */
  ghost predicate ReadyToUnwrap(prog: Program, s: State, n: Name) {
    && n in s.created && Unwraps(prog, n) && At(s, Run(n)).result.Some?
    && At(s, Unwrapper(n)).result.None? && !At(s, Unwrapper(n)).completed && IsRoot(s, Unwrapper(n))
    && At(s, StandIn(n)).result.None? && !At(s, StandIn(n)).completed && IsRoot(s, StandIn(n))
  }

  /** What the unwrapper leaves behind differs from s in these two payloads only. */
  ghost predicate UnwrappedTo(s: State, t: State, n: Name, standIn: Payload) {
    && t.created == s.created
    && (forall q :: q != Unwrapper(n) && q != StandIn(n) ==> At(t, q) == At(s, q))
    && At(t, Unwrapper(n)) == At(s, Unwrapper(n)).(result := Some(VALID))
    && At(t, StandIn(n)) == standIn
    && (forall f :: f in t.flights ==> f < t.nextFlight)
  }

  lemma UnwrapFailedFields(prog: Program, s: State, t: State, n: Name, e: Error)
    requires FieldsOk(s) && ReadyToUnwrap(prog, s, n)
    requires UnwrappedTo(s, t, n, At(s, StandIn(n)).(result := Some(Failed(e))))
    requires t.completing == s.completing + {Unwrapper(n), StandIn(n)}
    ensures FieldsOk(t)
  {
  }

  lemma UnwrapFailedStandIns(prog: Program, s: State, t: State, n: Name, e: Error)
    requires StandInsOk(s) && ReadyToUnwrap(prog, s, n)
    requires UnwrappedTo(s, t, n, At(s, StandIn(n)).(result := Some(Failed(e))))
    ensures StandInsOk(t)
  {
  }

  lemma UnwrapFailedNames(prog: Program, s: State, t: State, n: Name, e: Error)
    requires RedirectsOk(prog, s) && NamesOk(prog, s) && ReadyToUnwrap(prog, s, n)
    requires UnwrappedTo(s, t, n, At(s, StandIn(n)).(result := Some(Failed(e))))
    ensures RedirectsOk(prog, t) && NamesOk(prog, t)
  {
    assert NamesOk(prog, t);
  }

  lemma UnwrapHandleFields(prog: Program, s: State, t: State, n: Name, r: Name)
    requires FieldsOk(s) && ReadyToUnwrap(prog, s, n)
    requires UnwrappedTo(s, t, n, Taken(At(s, StandIn(n)), Some(HandleOf(prog, r))))
    requires t.completing == s.completing + {Unwrapper(n)}
    ensures FieldsOk(t)
  {
  }

  lemma UnwrapHandleNames(prog: Program, s: State, t: State, n: Name, r: Name)
    requires NamesOk(prog, s) && StandInsOk(s) && ReadyToUnwrap(prog, s, n)
    requires UnwrappedTo(s, t, n, Taken(At(s, StandIn(n)), Some(HandleOf(prog, r))))
    ensures NamesOk(prog, t) && StandInsOk(t)
  {
    assert StandInsOk(t);
  }

  lemma UnwrapHandleRedirects(prog: Program, s: State, t: State, n: Name, r: Name)
    requires RedirectsOk(prog, s) && ReadyToUnwrap(prog, s, n) && At(s, Run(n)).result == Some(Handle(r))
    requires UnwrappedTo(s, t, n, Taken(At(s, StandIn(n)), Some(HandleOf(prog, r))))
    ensures RedirectsOk(prog, t)
  {
  }

  lemma UnwrapShape(prog: Program, s: State, job: Job)
    requires FieldsOk(s) && Enabled(prog, s, Start(job)) && job.task.Unwrapper?
    ensures var n, t := job.task.n, Do(prog, s, Start(job));
            match InputOf(s, job).value
            case Failed(e) =>
              UnwrappedTo(s, t, n, At(s, StandIn(n)).(result := Some(Failed(e)))) &&
              t.completing == s.completing + {Unwrapper(n), StandIn(n)}
            case Handle(r) =>
              UnwrappedTo(s, t, n, Taken(At(s, StandIn(n)), Some(HandleOf(prog, r)))) &&
              t.completing == s.completing + {Unwrapper(n)}
            case Value(_) => false
  {
  }

  lemma UnwrapKeepsPayloads(prog: Program, s: State, job: Job)
    requires PayloadsOk(prog, s) && Enabled(prog, s, Start(job)) && job.task.Unwrapper?
    requires ReadyToUnwrap(prog, s, job.task.n) && job.parent == Some(Run(job.task.n))
    ensures PayloadsOk(prog, Do(prog, s, Start(job)))
  {
    UnwrapShape(prog, s, job);
    var n := job.task.n;
    var t := Do(prog, s, Start(job));
    match InputOf(s, job).value
    case Failed(e) =>
      UnwrapFailedFields(prog, s, t, n, e);
      UnwrapFailedNames(prog, s, t, n, e);
      UnwrapFailedStandIns(prog, s, t, n, e);
    case Handle(r) =>
      UnwrapHandleFields(prog, s, t, n, r);
      UnwrapHandleNames(prog, s, t, n, r);
      UnwrapHandleRedirects(prog, s, t, n, r);
  }

  lemma UnwrapKeepsFields(prog: Program, s: State, n: Name, job: Job)
    requires FieldsOk(s) && ReadyToUnwrap(prog, s, n)
    ensures FieldsOk(SetResult(s.(ready := s.ready - {job}), Unwrapper(n), VALID))
  {
    var t := SetResult(s.(ready := s.ready - {job}), Unwrapper(n), VALID);
    assert forall q :: q != Unwrapper(n) ==> At(t, q) == At(s, q);
  }

  lemma UnwrapKeepsValues(prog: Program, s: State, job: Job)
    requires ValuesOk(prog, s) && Enabled(prog, s, Start(job)) && job.task.Unwrapper?
    requires ReadyToUnwrap(prog, s, job.task.n) && job.parent == Some(Run(job.task.n))
    ensures ValuesOk(prog, Do(prog, s, Start(job)))
  {
    var n, input := job.task.n, InputOf(s, job).value;
    MeansUnwrapper(prog, n, input);
    if input.Failed? { MeansStandInFailed(prog, n, input.e); }
    var t := Do(prog, s, Start(job));
    assert forall q :: q != job.task && q != StandIn(n) ==> At(t, q) == At(s, q);
  }

  lemma UnwrapKeepsTheRest(prog: Program, s: State, job: Job)
    requires PayloadsOk(prog, s) && ContsOk(prog, s) && PlacesOk(prog, s)
    requires Enabled(prog, s, Start(job)) && job.task.Unwrapper?
    ensures ContsOk(prog, Do(prog, s, Start(job))) && PlacesOk(prog, Do(prog, s, Start(job)))
  {
    var n, input := job.task.n, InputOf(s, job).value;
    UnwrapperInput(prog, s, job);
    UnwrapKeepsFields(prog, s, n, job);
    var s0 := SetResult(s.(ready := s.ready - {job}), Unwrapper(n), VALID);
    DropJobKeepsConts(prog, s, job);
    SetResultKeepsConts(prog, s.(ready := s.ready - {job}), Unwrapper(n), VALID);
    RunKeepsPlaces(prog, s, job, VALID);
    assert At(s0, StandIn(n)) == At(s, StandIn(n));
    match input
    case Failed(e) =>
      SetResultKeepsConts(prog, s0, StandIn(n), Failed(e));
      SetResultKeepsPlaces(prog, s0, StandIn(n), Failed(e));
    case Handle(r) =>
      CannibalizeKeepsConts(prog, s0, StandIn(n), Some(HandleOf(prog, r)));
      CannibalizeKeepsPlaces(prog, s0, StandIn(n), Some(HandleOf(prog, r)));
  }

  // --- flights -------------------------------------------------------------------------------

  /** A batch taken one redirect further, or handed over to the schedulers. */
  lemma AdvancedFlight(prog: Program, s: State, f: nat)
    requires RedirectsOk(prog, s) && FlightsOk(prog, s) && Enabled(prog, s, Advance(f))
    requires var p := At(s, s.flights[f].at); p.redirect.Some? || p.completed
    ensures FlightOk(prog, s, AdvanceFlight(s, f).flights[f])
  {
    var Adding(at, batch) := s.flights[f];
    assert FlightOk(prog, s, s.flights[f]);
    var p := At(s, at);
    if p.redirect.Some? {
      var moved := Reparent(batch, p.redirect.value);
      forall i | 0 <= i < |moved|
        ensures GoodCont(prog, s, moved[i])
      {
        assert GoodCont(prog, s, batch[i]);
        LeadsOn(s, Origin(prog, batch[i].task), at);
      }
    }
  }

  lemma ParkedConts(prog: Program, s: State, f: nat)
    requires ContsOk(prog, s) && Enabled(prog, s, Advance(f))
    requires var p := At(s, s.flights[f].at); p.redirect.None? && !p.completed
    ensures ContsOk(prog, AdvanceFlight(s, f))
  {
    var Adding(at, batch) := s.flights[f];
    var t := AdvanceFlight(s, f);
    assert FlightOk(prog, s, s.flights[f]);
    assert forall q :: q != at ==> At(t, q) == At(s, q);
    assert At(t, at).pending == At(s, at).pending + batch;
    assert Grows(s, t);
    GoodKept(prog, s, t);
    ReadyKept(prog, s, t);
    FlightsKept(prog, s, t);
  }

  lemma AdvanceKeepsConts(prog: Program, s: State, f: nat)
    requires PayloadsOk(prog, s) && ContsOk(prog, s) && Enabled(prog, s, Advance(f))
    ensures ContsOk(prog, Do(prog, s, Advance(f)))
  {
    var p := At(s, s.flights[f].at);
    if p.redirect.None? && !p.completed {
      ParkedConts(prog, s, f);
      return;
    }
    var t := AdvanceFlight(s, f);
    assert forall q :: At(t, q) == At(s, q);
    assert Grows(s, t);
    PendingKept(prog, s, t);
    ReadyKept(prog, s, t);
    AdvancedFlight(prog, s, f);
    forall g | g in t.flights
      ensures FlightOk(prog, t, t.flights[g])
    {
      FlightKept(prog, s, t, t.flights[g]);
    }
  }

  lemma AdvanceKeepsPayloads(prog: Program, s: State, f: nat)
    requires PayloadsOk(prog, s) && ValuesOk(prog, s) && Enabled(prog, s, Advance(f))
    ensures PayloadsOk(prog, Do(prog, s, Advance(f))) && ValuesOk(prog, Do(prog, s, Advance(f)))
  {
    AdvanceFields(prog, s, f);
    var t := Do(prog, s, Advance(f));
    var at := s.flights[f].at;
    assert forall q :: q != at ==> At(t, q) == At(s, q);
    assert At(t, at) == At(s, at).(pending := At(t, at).pending);
    assert NamesOk(prog, t);
    assert StandInsOk(t);
  }

  lemma AdvanceFields(prog: Program, s: State, f: nat)
    requires FieldsOk(s) && Enabled(prog, s, Advance(f))
    ensures FieldsOk(Do(prog, s, Advance(f)))
  {
    var t := Do(prog, s, Advance(f));
    assert forall q :: q != s.flights[f].at ==> At(t, q) == At(s, q);
  }

  /** A batch that only moves on to the next payload, or to its schedulers, stays where it is. */
  lemma AdvanceStays(prog: Program, s: State, f: nat)
    requires PlacesOk(prog, s) && Enabled(prog, s, Advance(f))
    requires var p := At(s, s.flights[f].at); p.redirect.Some? || p.completed
    ensures PlacesOk(prog, Do(prog, s, Advance(f)))
  {
    var batch := s.flights[f].batch;
    var t := Do(prog, s, Advance(f));
    assert forall q :: At(t, q) == At(s, q);
    assert |t.flights[f].batch| == |batch| && forall i :: 0 <= i < |batch| ==> t.flights[f].batch[i].task == batch[i].task;
    assert forall x :: Occupant(prog, t, x) == Occupant(prog, s, x);
    PlacesMoved(prog, s, t, x => x, x => x);
  }

  function Unparked(f: nat, at: Pid, len: nat): Place -> Place {
    (x: Place) => if x.Pending? && x.p == at && x.k >= len then InFlight(f, x.k - len) else x
  }

  function Parked(f: nat, at: Pid, len: nat): Place -> Place {
    (x: Place) => if x.InFlight? && x.f == f then Pending(at, len + x.i) else x
  }

  lemma AdvanceMoves(prog: Program, s: State, f: nat, x: Place)
    requires Enabled(prog, s, Advance(f))
    requires var p := At(s, s.flights[f].at); p.redirect.None? && !p.completed
    ensures var at := s.flights[f].at;
            var len := |At(s, at).pending|;
            MovesAt(prog, s, Do(prog, s, Advance(f)), Unparked(f, at, len), Parked(f, at, len), x)
  {
    var Adding(at, batch) := s.flights[f];
    var t := Do(prog, s, Advance(f));
    assert forall q :: q != at ==> At(t, q) == At(s, q);
    assert At(t, at).pending == At(s, at).pending + batch;
  }

  /** A batch that is parked is behind what was pending. */
  lemma AdvanceParks(prog: Program, s: State, f: nat)
    requires Enabled(prog, s, Advance(f))
    requires var p := At(s, s.flights[f].at); p.redirect.None? && !p.completed
    ensures var at := s.flights[f].at;
            var len := |At(s, at).pending|;
            Moves(prog, s, Do(prog, s, Advance(f)), Unparked(f, at, len), Parked(f, at, len))
    ensures Do(prog, s, Advance(f)).created == s.created
  {
    forall x { AdvanceMoves(prog, s, f, x); }
  }

  lemma AdvanceKeepsPlaces(prog: Program, s: State, f: nat)
    requires PlacesOk(prog, s) && Enabled(prog, s, Advance(f))
    ensures PlacesOk(prog, Do(prog, s, Advance(f)))
  {
    var at := s.flights[f].at;
    if At(s, at).redirect.Some? || At(s, at).completed {
      AdvanceStays(prog, s, f);
    } else {
      var len := |At(s, at).pending|;
      AdvanceParks(prog, s, f);
      PlacesMoved(prog, s, Do(prog, s, Advance(f)), Unparked(f, at, len), Parked(f, at, len));
    }
  }

  lemma ReleaseKeepsConts(prog: Program, s: State, f: nat)
    requires ContsOk(prog, s) && Enabled(prog, s, Release(f))
    ensures ContsOk(prog, Do(prog, s, Release(f)))
  {
    var t := Do(prog, s, Release(f));
    assert FlightOk(prog, s, s.flights[f]);
    assert forall q :: At(t, q) == At(s, q);
    assert Grows(s, t);
    PendingKept(prog, s, t);
    GoodKept(prog, s, t);
    var c := s.flights[f].batch[s.flights[f].next];
    assert Cont(c.parent, c.task) == c;
    forall g | g in t.flights
      ensures FlightOk(prog, t, t.flights[g])
    {
      if g != f { FlightKept(prog, s, t, s.flights[g]); } else { FlightKept(prog, s, t, s.flights[f]); }
    }
  }

  lemma ReleaseKeepsPayloads(prog: Program, s: State, f: nat)
    requires PayloadsOk(prog, s) && ValuesOk(prog, s) && Enabled(prog, s, Release(f))
    ensures PayloadsOk(prog, Do(prog, s, Release(f))) && ValuesOk(prog, Do(prog, s, Release(f)))
  {
    var t := Do(prog, s, Release(f));
    assert forall q :: At(t, q) == At(s, q);
  }

  lemma ReleaseKeepsPlaces(prog: Program, s: State, f: nat)
    requires PlacesOk(prog, s) && Enabled(prog, s, Release(f))
    ensures PlacesOk(prog, Do(prog, s, Release(f)))
  {
    var t := Do(prog, s, Release(f));
    assert forall q :: At(t, q) == At(s, q);
    var Releasing(batch, k) := s.flights[f];
    var job := Job(Some(batch[k].parent), batch[k].task);
    assert Occupant(prog, s, InFlight(f, k)) == Some(job.task);
    assert Occupant(prog, s, Queued(job)) == None;
    var back := (x: Place) => if x == Queued(job) then InFlight(f, k) else x;
    var forth := (x: Place) => if x == InFlight(f, k) then Queued(job) else x;
    forall x | Occupant(prog, t, x).Some?
      ensures Occupant(prog, s, back(x)) == Occupant(prog, t, x) && forth(back(x)) == x
    {
    }
    forall x | Occupant(prog, s, x).Some?
      ensures Occupant(prog, t, forth(x)) == Occupant(prog, s, x)
    {
    }
    PlacesMoved(prog, s, t, back, forth);
  }

  // --- every step, every schedule ----------------------------------------------------------

  lemma StepKeeps(prog: Program, s: State, step: Step)
    requires Inv(prog, s) && Enabled(prog, s, step)
    ensures Inv(prog, Do(prog, s, step))
  {
    match step
    case Create(n) =>
      CreateKeepsPayloads(prog, s, n);
      CreateKeepsConts(prog, s, n);
      CreateKeepsPlaces(prog, s, n);
    case Complete(n) =>
      CompleteKeeps(prog, s, n);
    case Start(job) =>
      if job.task.Run? {
        StartRunKeeps(prog, s, job);
      } else {
        UnwrapperInput(prog, s, job);
        UnwrapKeepsPayloads(prog, s, job);
        UnwrapKeepsValues(prog, s, job);
        UnwrapKeepsTheRest(prog, s, job);
      }
    case Finish(p) =>
      FinishKeeps(prog, s, p);
    case Advance(f) =>
      AdvanceKeepsPayloads(prog, s, f);
      AdvanceKeepsConts(prog, s, f);
      AdvanceKeepsPlaces(prog, s, f);
    case Release(f) =>
      ReleaseKeepsPayloads(prog, s, f);
      ReleaseKeepsConts(prog, s, f);
      ReleaseKeepsPlaces(prog, s, f);
  }

  /** The invariant holds in every state any schedule of any program reaches. */
  lemma {:induction false} ReachableInv(prog: Program, schedule: seq<Step>)
    requires After(prog, schedule).Some?
    ensures Inv(prog, After(prog, schedule).value)
  {
    if schedule == [] {
      assert forall p :: At(INITIAL, p) == NEW;
      assert forall x :: Occupant(prog, INITIAL, x) == None;
    } else {
      var last := |schedule| - 1;
      ReachableInv(prog, schedule[..last]);
      StepKeeps(prog, After(prog, schedule[..last]).value, schedule[last]);
    }
  }
}
