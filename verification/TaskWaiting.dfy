/** What waits for what: a created task resolves exactly when it waits on no cycle. */
module TaskWaiting {
  import opened Wrappers
  import opened TaskProgram
  import opened TaskPayload
  import opened TaskGraph
  import opened TaskInvariant
  import opened TaskTheorems
  import opened TaskForest

  /**
    A continuation waits for the task it was attached to, an unwrapper and a stand-in for the
    callable's payload, and a redirected stand-in for its target.
    */
  ghost predicate WaitsFor(prog: Program, s: State, p: Pid, q: Pid) {
    Exists(prog, s, p) &&
    match p
    case Run(n) => prog(n).Then? && q == HandleOf(prog, prog(n).on)
    case Unwrapper(n) => q == Run(n)
    case StandIn(n) => q == Run(n) || At(s, p).redirect == Some(q)
  }

  ghost predicate Path(prog: Program, s: State, p: Pid, q: Pid, k: nat)
    decreases k
  {
    if k == 0 then p == q
    else exists c :: WaitsFor(prog, s, p, c) && Path(prog, s, c, q, k - 1)
  }

  /** p waits for q through any number of payloads, or is q. */
  ghost predicate Reaches(prog: Program, s: State, p: Pid, q: Pid) {
    exists k: nat :: Path(prog, s, p, q, k)
  }

  ghost predicate WaitsOnItself(prog: Program, s: State, p: Pid) {
    exists c :: WaitsFor(prog, s, p, c) && Reaches(prog, s, c, p)
  }

  ghost predicate Acyclic(prog: Program, s: State) {
    forall p :: !WaitsOnItself(prog, s, p)
  }

  ghost predicate NoCycleFrom(prog: Program, s: State, p: Pid) {
    forall q :: Reaches(prog, s, p, q) ==> !WaitsOnItself(prog, s, q)
  }

  // --- paths ---------------------------------------------------------------------------------

  lemma {:induction false} PathsJoin(prog: Program, s: State, a: Pid, b: Pid, c: Pid, j: nat, k: nat)
    requires Path(prog, s, a, b, j) && Path(prog, s, b, c, k)
    ensures Path(prog, s, a, c, j + k)
    decreases j
  {
    if j > 0 {
      var d :| WaitsFor(prog, s, a, d) && Path(prog, s, d, b, j - 1);
      PathsJoin(prog, s, d, b, c, j - 1, k);
    }
  }

  lemma ReachesJoin(prog: Program, s: State, a: Pid, b: Pid, c: Pid)
    requires Reaches(prog, s, a, b) && Reaches(prog, s, b, c)
    ensures Reaches(prog, s, a, c)
  {
    var j: nat :| Path(prog, s, a, b, j);
    var k: nat :| Path(prog, s, b, c, k);
    PathsJoin(prog, s, a, b, c, j, k);
  }

  lemma ReachesSelf(prog: Program, s: State, a: Pid)
    ensures Reaches(prog, s, a, a)
  {
    assert Path(prog, s, a, a, 0);
  }

  lemma ReachesNext(prog: Program, s: State, a: Pid, b: Pid)
    requires WaitsFor(prog, s, a, b)
    ensures Reaches(prog, s, a, b)
  {
    assert Path(prog, s, b, b, 0);
    assert Path(prog, s, a, b, 1);
  }

  lemma ReachesFirst(prog: Program, s: State, a: Pid, b: Pid, c: Pid)
    requires WaitsFor(prog, s, a, b) && Reaches(prog, s, b, c)
    ensures Reaches(prog, s, a, c)
  {
    ReachesNext(prog, s, a, b);
    ReachesJoin(prog, s, a, b, c);
  }

  /** What a payload waits for exists too. */
  lemma WaitsForExisting(prog: Program, s: State, p: Pid, q: Pid)
    requires PayloadsOk(prog, s) && WaitsFor(prog, s, p, q)
    ensures Exists(prog, s, q)
  {
  }

  // --- depth ---------------------------------------------------------------------------------

  /** A payload with a value waits only for payloads with a value, of smaller depth. */
  lemma WaitsForShallower(prog: Program, s: State, p: Pid, q: Pid)
    requires PayloadsOk(prog, s) && ValuesOk(prog, s) && WaitsFor(prog, s, p, q) && Defined(prog, p)
    ensures Defined(prog, q) && Depth(prog, q) < Depth(prog, p)
  {
    var fuel := Depth(prog, p) - 1;
    if p.StandIn? && q != Run(p.n) {
      var inner := Eval(prog, Run(p.n), fuel).value;
      assert Means(prog, Run(p.n), inner);
      MeaningUnique(prog, Run(p.n), inner, At(s, Run(p.n)).result.value);
    }
    assert Eval(prog, q, fuel).Some?;
    DepthBelow(prog, q, fuel);
  }

  ghost predicate DepthFalls(prog: Program, s: State) {
    forall a, b :: WaitsFor(prog, s, a, b) && Defined(prog, a) ==> Defined(prog, b) && Depth(prog, b) < Depth(prog, a)
  }

  lemma {:induction false} PathShallower(prog: Program, s: State, p: Pid, q: Pid, k: nat)
    requires DepthFalls(prog, s) && Path(prog, s, p, q, k) && Defined(prog, p)
    ensures Defined(prog, q) && Depth(prog, q) + k <= Depth(prog, p)
    decreases k
  {
    if k > 0 {
      var c :| WaitsFor(prog, s, p, c) && Path(prog, s, c, q, k - 1);
      PathShallower(prog, s, c, q, k - 1);
    }
  }

  lemma ReachableDepthFalls(prog: Program, schedule: seq<Step>)
    requires After(prog, schedule).Some?
    ensures DepthFalls(prog, After(prog, schedule).value)
  {
    ReachableInv(prog, schedule);
    var s := After(prog, schedule).value;
    forall a, b | WaitsFor(prog, s, a, b) && Defined(prog, a)
      ensures Defined(prog, b) && Depth(prog, b) < Depth(prog, a)
    {
      WaitsForShallower(prog, s, a, b);
    }
  }

  /** In no reachable state does a payload with a value wait on a cycle. */
  lemma DefinedWaitsOnNoCycle(prog: Program, schedule: seq<Step>, p: Pid)
    requires After(prog, schedule).Some? && Defined(prog, p)
    ensures NoCycleFrom(prog, After(prog, schedule).value, p)
  {
    ReachableDepthFalls(prog, schedule);
    var s := After(prog, schedule).value;
    forall q | Reaches(prog, s, p, q)
      ensures !WaitsOnItself(prog, s, q)
    {
      var k: nat :| Path(prog, s, p, q, k);
      PathShallower(prog, s, p, q, k);
      forall c | WaitsFor(prog, s, q, c)
        ensures !Reaches(prog, s, c, q)
      {
        forall j: nat
          ensures !Path(prog, s, c, q, j)
        {
          if Path(prog, s, c, q, j) { PathShallower(prog, s, c, q, j); }
        }
      }
    }
  }

  // --- progress ------------------------------------------------------------------------------

  ghost predicate Resolves(s: State, p: Pid) {
    exists v :: Resolved(s, p, v)
  }

  ghost function Everything(s: State): set<Pid> {
    (set n | n in s.created :: Run(n)) + (set n | n in s.created :: StandIn(n)) + (set n | n in s.created :: Unwrapper(n))
  }

  /** Resolving one payload at rest, when everything it waits for has resolved. */
  lemma ResolvesNext(prog: Program, schedule: seq<Step>, s: State, p: Pid)
    requires AtRest(prog, schedule, s) && Exists(prog, s, p)
    requires forall q :: WaitsFor(prog, s, p, q) ==> Resolves(s, q)
    ensures Resolves(s, p)
  {
    ReachableInv(prog, schedule);
    match p
    case Run(n) =>
      if prog(n).Make? { QuietMakeHasRun(prog, s, n); }
      if prog(n).Then? { ResolvedHasRun(prog, schedule, s, p); }
      ResultResolves(prog, schedule, s, p);
    case Unwrapper(n) =>
      ResolvedHasRun(prog, schedule, s, p);
      ResultResolves(prog, schedule, s, p);
    case StandIn(n) =>
      assert WaitsFor(prog, s, p, Run(n));
      ResolvedHasRun(prog, schedule, s, Unwrapper(n));
      if At(s, p).result.Some? {
        ResultResolves(prog, schedule, s, p);
      } else {
        var q := At(s, p).redirect.value;
        assert WaitsFor(prog, s, p, q);
        var v :| Resolved(s, q, v);
        ResolvedThrough(s, p, q, v);
      }
  }

  lemma ResolvedHasRun(prog: Program, schedule: seq<Step>, s: State, w: Pid)
    requires AtRest(prog, schedule, s) && IsAttached(prog, w) && w.n in s.created
    requires Resolves(s, Origin(prog, w))
    ensures At(s, w).result.Some?
  {
    ReachableInv(prog, schedule);
    var v :| Resolved(s, Origin(prog, w), v);
    QuietHasRun(prog, s, w, v);
  }

  lemma ResultResolves(prog: Program, schedule: seq<Step>, s: State, p: Pid)
    requires AtRest(prog, schedule, s) && At(s, p).result.Some?
    ensures Resolves(s, p)
  {
    ReachableInv(prog, schedule);
    HasResolved(prog, s, p);
    assert Resolved(s, p, At(s, p).result.value);
  }

  /** Going down what p waits for; above is the way that led to p, and shares nothing with what is below. */
  lemma {:induction false} ResolvesBelow(prog: Program, schedule: seq<Step>, s: State, p: Pid, above: set<Pid>)
    requires AtRest(prog, schedule, s) && Exists(prog, s, p) && NoCycleFrom(prog, s, p)
    requires above <= Everything(s)
    requires forall a :: a in above ==> exists c :: WaitsFor(prog, s, a, c) && Reaches(prog, s, c, p)
    ensures Resolves(s, p)
    decreases Everything(s) - above
  {
    ReachesSelf(prog, s, p);
    assert !WaitsOnItself(prog, s, p);
    assert p in Everything(s) - above;
    forall q | WaitsFor(prog, s, p, q)
      ensures Resolves(s, q)
    {
      Below(prog, schedule, s, p, q, above);
      ResolvesBelow(prog, schedule, s, q, above + {p});
    }
    ResolvesNext(prog, schedule, s, p);
  }

  lemma Below(prog: Program, schedule: seq<Step>, s: State, p: Pid, q: Pid, above: set<Pid>)
    requires AtRest(prog, schedule, s) && WaitsFor(prog, s, p, q) && NoCycleFrom(prog, s, p)
    requires forall a :: a in above ==> exists c :: WaitsFor(prog, s, a, c) && Reaches(prog, s, c, p)
    ensures Exists(prog, s, q) && NoCycleFrom(prog, s, q)
    ensures forall a :: a in above + {p} ==> exists c :: WaitsFor(prog, s, a, c) && Reaches(prog, s, c, q)
  {
    ReachableInv(prog, schedule);
    WaitsForExisting(prog, s, p, q);
    ReachesSelf(prog, s, q);
    forall x | Reaches(prog, s, q, x)
      ensures !WaitsOnItself(prog, s, x)
    {
      ReachesFirst(prog, s, p, q, x);
    }
    forall a | a in above
      ensures exists c :: WaitsFor(prog, s, a, c) && Reaches(prog, s, c, q)
    {
      var c :| WaitsFor(prog, s, a, c) && Reaches(prog, s, c, p);
      ReachesNext(prog, s, p, q);
      ReachesJoin(prog, s, c, p, q);
    }
  }

  /**
    Once the sources are done and nothing is left to run, a created task has resolved exactly
    when it waits on no cycle.
    */
  lemma ResolvesExactly(prog: Program, schedule: seq<Step>, p: Pid)
    requires After(prog, schedule).Some? && AtRest(prog, schedule, After(prog, schedule).value)
    requires Exists(prog, After(prog, schedule).value, p)
    ensures Resolves(After(prog, schedule).value, p) <==> NoCycleFrom(prog, After(prog, schedule).value, p)
  {
    var s := After(prog, schedule).value;
    if NoCycleFrom(prog, s, p) {
      ResolvesBelow(prog, schedule, s, p, {});
    }
    if Resolves(s, p) {
      var v :| Resolved(s, p, v);
      ResolvedMeans(prog, schedule, p, v);
      DefinedWaitsOnNoCycle(prog, schedule, p);
    }
  }

  /** And all of them have exactly when the waits-for relation is acyclic. */
  lemma AllResolveExactly(prog: Program, schedule: seq<Step>)
    requires After(prog, schedule).Some? && AtRest(prog, schedule, After(prog, schedule).value)
    ensures var s := After(prog, schedule).value;
            (forall p :: Exists(prog, s, p) ==> Resolves(s, p)) <==> Acyclic(prog, s)
  {
    var s := After(prog, schedule).value;
    forall p | Exists(prog, s, p)
      ensures Resolves(s, p) <==> NoCycleFrom(prog, s, p)
    {
      ResolvesExactly(prog, schedule, p);
    }
    forall p
      ensures WaitsOnItself(prog, s, p) ==> Exists(prog, s, p) && !NoCycleFrom(prog, s, p)
    {
      ReachesSelf(prog, s, p);
    }
  }

  lemma {:induction false} PathRanked(prog: Program, s: State, rank: Pid -> nat, p: Pid, q: Pid, k: nat)
    requires (forall a, b :: WaitsFor(prog, s, a, b) ==> rank(b) < rank(a)) && Path(prog, s, p, q, k)
    ensures rank(q) <= rank(p)
    decreases k
  {
    if k > 0 {
      var c :| WaitsFor(prog, s, p, c) && Path(prog, s, c, q, k - 1);
      PathRanked(prog, s, rank, c, q, k - 1);
    }
  }

  /** When what has been created so far can be ranked above what it waits for, every created task resolves. */
  lemma GroundedProgress(prog: Program, rank: Pid -> nat, schedule: seq<Step>, p: Pid)
    requires After(prog, schedule).Some? && AtRest(prog, schedule, After(prog, schedule).value)
    requires forall a, b :: WaitsFor(prog, After(prog, schedule).value, a, b) ==> rank(b) < rank(a)
    requires Exists(prog, After(prog, schedule).value, p)
    ensures exists v :: Resolved(After(prog, schedule).value, p, v) && Means(prog, p, v)
  {
    var s := After(prog, schedule).value;
    forall a, c | WaitsFor(prog, s, a, c)
      ensures !Reaches(prog, s, c, a)
    {
      forall k: nat
        ensures !Path(prog, s, c, a, k)
      {
        if Path(prog, s, c, a, k) { PathRanked(prog, s, rank, c, a, k); }
      }
    }
    ResolvesExactly(prog, schedule, p);
    var v :| Resolved(s, p, v);
    ResolvedMeans(prog, schedule, p, v);
  }

  // --- what each step does to it -------------------------------------------------------------

  lemma {:induction false} PathGrows(prog: Program, s: State, t: State, p: Pid, q: Pid, k: nat)
    requires s.created <= t.created && RedirectsKept(s, t) && Path(prog, s, p, q, k)
    ensures Path(prog, t, p, q, k)
    decreases k
  {
    if k > 0 {
      var c :| WaitsFor(prog, s, p, c) && Path(prog, s, c, q, k - 1);
      PathGrows(prog, s, t, c, q, k - 1);
      assert WaitsFor(prog, t, p, c);
    }
  }

  /** A cycle stays: whatever created tasks wait for, they go on waiting for it. */
  lemma CycleStays(prog: Program, s: State, t: State)
    requires s.created <= t.created && RedirectsKept(s, t)
    ensures Acyclic(prog, t) ==> Acyclic(prog, s)
  {
    forall p | WaitsOnItself(prog, s, p)
      ensures WaitsOnItself(prog, t, p)
    {
      var c :| WaitsFor(prog, s, p, c) && Reaches(prog, s, c, p);
      var k: nat :| Path(prog, s, c, p, k);
      PathGrows(prog, s, t, c, p, k);
      assert WaitsFor(prog, t, p, c);
    }
  }

  /** From a task that existed before n was created, nothing new is reached. */
  lemma {:induction false} OldPath(prog: Program, s: State, t: State, n: Name, p: Pid, q: Pid, k: nat)
    requires PayloadsOk(prog, s) && n !in s.created && t.created == s.created + {n} && t.pool == s.pool
    requires p.n in s.created && Path(prog, t, p, q, k)
    ensures q.n in s.created && Path(prog, s, p, q, k)
    decreases k
  {
    if k > 0 {
      var c :| WaitsFor(prog, t, p, c) && Path(prog, t, c, q, k - 1);
      assert At(t, p) == At(s, p);
      assert WaitsFor(prog, s, p, c);
      WaitsForExisting(prog, s, p, c);
      OldPath(prog, s, t, n, c, q, k - 1);
    }
  }

  lemma NewWaitsForOld(prog: Program, s: State, t: State, n: Name, q: Pid)
    requires PayloadsOk(prog, s) && n !in s.created && t.created == s.created + {n} && t.pool == s.pool
    requires prog(n).Then? ==> prog(n).on in s.created
    ensures WaitsFor(prog, t, Run(n), q) ==> q.n in s.created
    ensures WaitsFor(prog, t, StandIn(n), q) ==> q == Run(n)
    ensures WaitsFor(prog, t, Unwrapper(n), q) ==> q == Run(n)
  {
    assert At(t, StandIn(n)) == At(s, StandIn(n));
    assert At(s, StandIn(n)).redirect.None?;
  }

  /** From the callable's payload of the new task only itself and older tasks are reached. */
  lemma NewPath(prog: Program, s: State, t: State, n: Name, q: Pid, k: nat)
    requires PayloadsOk(prog, s) && n !in s.created && t.created == s.created + {n} && t.pool == s.pool
    requires prog(n).Then? ==> prog(n).on in s.created
    requires Path(prog, t, Run(n), q, k)
    ensures q == Run(n) || q.n in s.created
  {
    if k > 0 {
      var c :| WaitsFor(prog, t, Run(n), c) && Path(prog, t, c, q, k - 1);
      NewWaitsForOld(prog, s, t, n, c);
      OldPath(prog, s, t, n, c, q, k - 1);
    }
  }

  lemma OldCycle(prog: Program, s: State, t: State, n: Name, p: Pid)
    requires PayloadsOk(prog, s) && n !in s.created && t.created == s.created + {n} && t.pool == s.pool
    requires p.n in s.created && WaitsOnItself(prog, t, p)
    ensures WaitsOnItself(prog, s, p)
  {
    var c :| WaitsFor(prog, t, p, c) && Reaches(prog, t, c, p);
    var k: nat :| Path(prog, t, c, p, k);
    assert At(t, p) == At(s, p);
    assert WaitsFor(prog, s, p, c);
    WaitsForExisting(prog, s, p, c);
    OldPath(prog, s, t, n, c, p, k);
  }

  /** A new task waits only for older ones, which do not wait for it. */
  lemma NewWaitsOnNoCycle(prog: Program, s: State, t: State, n: Name, p: Pid)
    requires PayloadsOk(prog, s) && n !in s.created && t.created == s.created + {n} && t.pool == s.pool
    requires prog(n).Then? ==> prog(n).on in s.created
    requires p.n == n
    ensures !WaitsOnItself(prog, t, p)
  {
    forall c | WaitsFor(prog, t, p, c)
      ensures !Reaches(prog, t, c, p)
    {
      NewWaitsForOld(prog, s, t, n, c);
      forall k: nat
        ensures !Path(prog, t, c, p, k)
      {
        if Path(prog, t, c, p, k) {
          if c.n in s.created { OldPath(prog, s, t, n, c, p, k); } else { NewPath(prog, s, t, n, p, k); }
        }
      }
    }
  }

  lemma CreateKeepsAcyclic(prog: Program, s: State, t: State, n: Name)
    requires PayloadsOk(prog, s) && n !in s.created && t.created == s.created + {n} && t.pool == s.pool
    requires prog(n).Then? ==> prog(n).on in s.created
    requires Acyclic(prog, s)
    ensures Acyclic(prog, t)
  {
    forall p
      ensures !WaitsOnItself(prog, t, p)
    {
      if p.n == n { NewWaitsOnNoCycle(prog, s, t, n, p); }
      if p.n in s.created && WaitsOnItself(prog, t, p) { OldCycle(prog, s, t, n, p); }
    }
  }

  /** t waits as s does, except that p also waits for q. */
  ghost predicate WaitAdded(prog: Program, s: State, t: State, p: Pid, q: Pid) {
    && WaitsFor(prog, t, p, q)
    && (forall a, b :: WaitsFor(prog, s, a, b) ==> WaitsFor(prog, t, a, b))
    && (forall a, b :: WaitsFor(prog, t, a, b) ==> WaitsFor(prog, s, a, b) || (a == p && b == q))
  }

  /** A path that uses the new edge goes to p first, and on from q. */
  lemma {:induction false} PathThrough(prog: Program, s: State, t: State, p: Pid, q: Pid, a: Pid, b: Pid, k: nat)
    requires WaitAdded(prog, s, t, p, q) && Path(prog, t, a, b, k)
    ensures Reaches(prog, s, a, b) || (Reaches(prog, s, a, p) && Reaches(prog, s, q, b))
    decreases k
  {
    if k == 0 {
      ReachesSelf(prog, s, a);
    } else {
      var c :| WaitsFor(prog, t, a, c) && Path(prog, t, c, b, k - 1);
      PathThrough(prog, s, t, p, q, c, b, k - 1);
      if WaitsFor(prog, s, a, c) {
        if Reaches(prog, s, c, b) { ReachesFirst(prog, s, a, c, b); } else { ReachesFirst(prog, s, a, c, p); }
      } else {
        ReachesSelf(prog, s, p);
      }
    }
  }

  lemma {:induction false} PathSame(prog: Program, s: State, t: State, p: Pid, q: Pid, a: Pid, b: Pid, k: nat)
    requires WaitAdded(prog, s, t, p, q) && Path(prog, s, a, b, k)
    ensures Path(prog, t, a, b, k)
    decreases k
  {
    if k > 0 {
      var c :| WaitsFor(prog, s, a, c) && Path(prog, s, c, b, k - 1);
      PathSame(prog, s, t, p, q, c, b, k - 1);
      assert WaitsFor(prog, t, a, c);
    }
  }

  /** Making p wait for q closes a cycle exactly when q waits for p already. */
  lemma WaitKeepsAcyclic(prog: Program, s: State, t: State, p: Pid, q: Pid)
    requires Acyclic(prog, s) && WaitAdded(prog, s, t, p, q)
    ensures Acyclic(prog, t) <==> !Reaches(prog, s, q, p)
  {
    if Reaches(prog, s, q, p) {
      var k: nat :| Path(prog, s, q, p, k);
      PathSame(prog, s, t, p, q, q, p, k);
      assert WaitsOnItself(prog, t, p);
    } else {
      forall a, c | WaitsFor(prog, t, a, c) && Reaches(prog, t, c, a)
        ensures false
      {
        var k: nat :| Path(prog, t, c, a, k);
        PathThrough(prog, s, t, p, q, c, a, k);
        if WaitsFor(prog, s, a, c) {
          assert !WaitsOnItself(prog, s, a);
          ReachesNext(prog, s, a, c);
          ReachesJoin(prog, s, q, a, c);
          ReachesJoin(prog, s, q, c, p);
        }
      }
    }
  }

  lemma SameWaits(prog: Program, s: State, t: State)
    requires t.created == s.created && forall p :: At(t, p).redirect == At(s, p).redirect
    ensures Acyclic(prog, s) ==> Acyclic(prog, t)
  {
    forall p, c | WaitsFor(prog, t, p, c) && Reaches(prog, t, c, p)
      ensures WaitsOnItself(prog, s, p)
    {
      var k: nat :| Path(prog, t, c, p, k);
      PathGrows(prog, t, s, c, p, k);
      assert WaitsFor(prog, s, p, c);
    }
  }

  /** A step keeps the relation acyclic exactly when it is not a collapse whose target waits for its source. */
  lemma StepKeepsAcyclic(prog: Program, schedule: seq<Step>, s: State, step: Step)
    requires After(prog, schedule) == Some(s) && Enabled(prog, s, step)
    ensures Acyclic(prog, Do(prog, s, step)) <==>
              Acyclic(prog, s) &&
              match CollapseOf(prog, s, step)
              case None => true
              case Some(e) => !Reaches(prog, s, e.1, e.0)
  {
    ReachableInv(prog, schedule);
    var t := Do(prog, s, step);
    StepRedirects(prog, schedule, s, step);
    CreatedGrows(prog, s, step);
    CycleStays(prog, s, t);
    if Acyclic(prog, s) {
      match CollapseOf(prog, s, step)
      case Some(e) =>
        CollapseWaits(prog, schedule, s, step);
        WaitKeepsAcyclic(prog, s, t, e.0, e.1);
      case None =>
        if step.Create? { CreateKeepsAcyclic(prog, s, t, step.n); } else { SameWaits(prog, s, t); }
    }
  }

  lemma CollapseWaits(prog: Program, schedule: seq<Step>, s: State, step: Step)
    requires After(prog, schedule) == Some(s) && Enabled(prog, s, step) && CollapseOf(prog, s, step).Some?
    ensures var e := CollapseOf(prog, s, step).value; WaitAdded(prog, s, Do(prog, s, step), e.0, e.1)
  {
    ReachableInv(prog, schedule);
    StepRedirects(prog, schedule, s, step);
    CreatedGrows(prog, s, step);
    UnwrapperInput(prog, s, step.job);
  }

  /** No step of the schedule collapses a stand-in into something that waits for it. */
  ghost predicate NoSelfWait(prog: Program, schedule: seq<Step>)
    requires After(prog, schedule).Some?
  {
    schedule == [] ||
    (var before := schedule[..|schedule| - 1];
     var s := After(prog, before).value;
     NoSelfWait(prog, before) &&
     match CollapseOf(prog, s, schedule[|schedule| - 1])
     case None => true
     case Some(e) => !Reaches(prog, s, e.1, e.0))
  }

  /** Waiting is acyclic exactly when no task was returned that waits for its own stand-in. */
  lemma {:induction false} AcyclicExactly(prog: Program, schedule: seq<Step>)
    requires After(prog, schedule).Some?
    ensures Acyclic(prog, After(prog, schedule).value) <==> NoSelfWait(prog, schedule)
  {
    if schedule != [] {
      var before := schedule[..|schedule| - 1];
      AcyclicExactly(prog, before);
      StepKeepsAcyclic(prog, before, After(prog, before).value, schedule[|schedule| - 1]);
    }
  }

  /**
    A run that has come to rest has resolved every task it created exactly when no collapse
    in it was into a task that waited, directly or not, for the stand-in being collapsed.
    */
  lemma ProgressExactly(prog: Program, schedule: seq<Step>)
    requires After(prog, schedule).Some? && AtRest(prog, schedule, After(prog, schedule).value)
    ensures var s := After(prog, schedule).value;
            (forall p :: Exists(prog, s, p) ==> Resolves(s, p)) <==> NoSelfWait(prog, schedule)
  {
    AllResolveExactly(prog, schedule);
    AcyclicExactly(prog, schedule);
  }

  lemma {:induction false} ChainReaches(prog: Program, s: State, a: Pid, b: Pid, k: nat)
    requires PayloadsOk(prog, s) && Chain(s, a, b, k)
    ensures Reaches(prog, s, a, b)
    decreases k
  {
    if k == 0 {
      ReachesSelf(prog, s, a);
    } else {
      var c := At(s, a).redirect.value;
      ChainReaches(prog, s, c, b, k - 1);
      assert WaitsFor(prog, s, a, c);
      ReachesFirst(prog, s, a, c, b);
    }
  }

  lemma LeadingIsWaiting(prog: Program, schedule: seq<Step>, a: Pid, b: Pid)
    requires After(prog, schedule).Some? && Leads(After(prog, schedule).value, a, b)
    ensures Reaches(prog, After(prog, schedule).value, a, b)
  {
    ReachableInv(prog, schedule);
    var k: nat :| Chain(After(prog, schedule).value, a, b, k);
    ChainReaches(prog, After(prog, schedule).value, a, b, k);
  }

  /** Resolving to one's own stand-in is one way of waiting for it: an acyclic state is a forest. */
  lemma {:induction false} NoSelfWaitNoSelfCollapse(prog: Program, schedule: seq<Step>)
    requires After(prog, schedule).Some? && NoSelfWait(prog, schedule)
    ensures NoSelfCollapse(prog, schedule) && Forest(After(prog, schedule).value)
  {
    if schedule != [] {
      var before := schedule[..|schedule| - 1];
      NoSelfWaitNoSelfCollapse(prog, before);
      var e := CollapseOf(prog, After(prog, before).value, schedule[|schedule| - 1]);
      if e.Some? && Leads(After(prog, before).value, e.value.1, e.value.0) {
        LeadingIsWaiting(prog, before, e.value.1, e.value.0);
      }
    }
    ForestExactly(prog, schedule);
  }
}
