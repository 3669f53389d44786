/** A task that returns what waits for it: a run that comes to rest with two tasks unresolved. */
module TaskSelfWait {
  import opened Wrappers
  import opened TaskProgram
  import opened TaskPayload
  import opened TaskGraph
  import opened TaskInvariant
  import opened TaskTheorems
  import opened TaskForest
  import opened TaskWaiting

  /** Task 0 returns task 1, which is a continuation of task 0. */
  const CHASE: Program := (n: Name) =>
    if n == 0 then Make(Body(false, false, Unwrapping(x => Returned(1))))
    else Then(0, Body(false, false, Plain(x => x)))

  const SELF_WAIT: seq<Step> := [
    Create(0), Advance(0), Create(1), Advance(1), Start(Job(None, Run(0))), Finish(Run(0)), Release(2),
    Start(Job(Some(Run(0)), Unwrapper(0))), Finish(Unwrapper(0)), Advance(3)]

  const UNWRAP := Cont(Run(0), Unwrapper(0))
  const WAITING := Cont(StandIn(0), Run(1))
  const CALLED := Payload(false, Some(Handle(1)), [UNWRAP], None)
  const NOFLIGHTS: map<nat, Flight> := map[]

  /** The states SELF_WAIT passes through. */
  function Moment(k: nat): State
    requires k <= 10
  {
    var start, unwrap := Job(None, Run(0)), Job(Some(Run(0)), Unwrapper(0));
    var parked := map[Run(0) := NEW.(pending := [UNWRAP])];
    var waiting := parked[StandIn(0) := NEW.(pending := [WAITING])];
    var called := waiting[Run(0) := CALLED];
    var finished := called[Run(0) := Taken(CALLED, None)];
    var collapsed := finished[Unwrapper(0) := NEW.(result := Some(VALID))][StandIn(0) := Taken(NEW, Some(Run(1)))];
    var unwrapped := collapsed[Unwrapper(0) := Taken(NEW, None).(result := Some(VALID))];
    if k == 0 then INITIAL
    else if k == 1 then State({0}, map[], map[0 := Adding(Run(0), [UNWRAP])], 1, {start}, {})
    else if k == 2 then State({0}, parked, NOFLIGHTS, 1, {start}, {})
    else if k == 3 then State({0, 1}, parked, map[1 := Adding(StandIn(0), [WAITING])], 2, {start}, {})
    else if k == 4 then State({0, 1}, waiting, NOFLIGHTS, 2, {start}, {})
    else if k == 5 then State({0, 1}, called, NOFLIGHTS, 2, {}, {Run(0)})
    else if k == 6 then State({0, 1}, finished, map[2 := Releasing([UNWRAP], 0)], 3, {}, {})
    else if k == 7 then State({0, 1}, finished, NOFLIGHTS, 3, {unwrap}, {})
    else if k == 8 then State({0, 1}, collapsed, map[3 := Adding(Run(1), [Cont(Run(1), Run(1))])], 4, {}, {Unwrapper(0)})
    else if k == 9 then State({0, 1}, unwrapped, map[3 := Adding(Run(1), [Cont(Run(1), Run(1))])], 4, {}, {})
    else State({0, 1}, unwrapped[Run(1) := NEW.(pending := [Cont(Run(1), Run(1))])], NOFLIGHTS, 4, {}, {})
  }

  ghost predicate MomentStep(k: nat)
    requires k < 10
  {
    Enabled(CHASE, Moment(k), SELF_WAIT[k]) && Do(CHASE, Moment(k), SELF_WAIT[k]) == Moment(k + 1)
  }

  lemma MomentCreate()
    ensures MomentStep(0) && MomentStep(2)
  {
    assert Unwraps(CHASE, 0) && !Unwraps(CHASE, 1);
    assert {} + {0} == {0 as Name} && {0 as Name} + {1} == {0, 1};
    assert NOFLIGHTS[1 := Adding(StandIn(0), [WAITING])] == map[1 := Adding(StandIn(0), [WAITING])];
  }

  lemma MomentAdvance()
    ensures MomentStep(1) && MomentStep(3) && MomentStep(9)
  {
    assert [] + [UNWRAP] == [UNWRAP] && [] + [WAITING] == [WAITING];
    assert [] + [Cont(Run(1), Run(1))] == [Cont(Run(1), Run(1))];
  }

  lemma MomentCalled()
    ensures MomentStep(4)
  {
    assert Invoke(CHASE(0).body, VALID) == Handle(1);
    assert InputOf(Moment(4), SELF_WAIT[4].job) == Some(VALID);
  }

  lemma MomentFinish()
    ensures MomentStep(5) && MomentStep(6) && MomentStep(8)
  {
  }

  lemma MomentCollapse()
    ensures MomentStep(7)
  {
    assert HandleOf(CHASE, 1) == Run(1);
    assert InputOf(Moment(7), SELF_WAIT[7].job) == Some(Handle(1));
    assert Reparent([WAITING], Run(1)) == [Cont(Run(1), Run(1))];
  }

  lemma EveryMoment(k: nat)
    requires k < 10
    ensures MomentStep(k)
  {
    MomentCreate();
    MomentAdvance();
    MomentCalled();
    MomentFinish();
    MomentCollapse();
  }

  lemma NextMoment(k: nat)
    requires k < 10 && After(CHASE, SELF_WAIT[..k]) == Some(Moment(k)) && MomentStep(k)
    ensures After(CHASE, SELF_WAIT[..k + 1]) == Some(Moment(k + 1))
  {
    OneMore(CHASE, SELF_WAIT, k, Moment(k), Moment(k + 1));
  }

  lemma OneMore(prog: Program, schedule: seq<Step>, k: nat, s: State, t: State)
    requires k < |schedule| && After(prog, schedule[..k]) == Some(s)
    requires Enabled(prog, s, schedule[k]) && Do(prog, s, schedule[k]) == t
    ensures After(prog, schedule[..k + 1]) == Some(t)
  {
    var longer := schedule[..k + 1];
    assert longer[..k] == schedule[..k] && longer[k] == schedule[k];
  }

  lemma {:induction false} Moments(k: nat)
    requires k <= 10
    ensures After(CHASE, SELF_WAIT[..k]) == Some(Moment(k))
  {
    if k > 0 {
      Moments(k - 1);
      EveryMoment(k - 1);
      NextMoment(k - 1);
    }
  }

  /**
    Waiting for one's own stand-in is not resolving to it: redirects stay a forest, every
    walk ends, the run comes to rest, and neither task ever has a value.
    */
  lemma SelfWaitReachable()
    ensures After(CHASE, SELF_WAIT).Some?
    ensures var s := After(CHASE, SELF_WAIT).value;
            && AtRest(CHASE, SELF_WAIT, s) && Forest(s) && !Acyclic(CHASE, s)
            && Exists(CHASE, s, StandIn(0)) && !Resolves(s, StandIn(0)) && !Defined(CHASE, StandIn(0))
            && Exists(CHASE, s, Run(1)) && !Resolves(s, Run(1)) && !Defined(CHASE, Run(1))
  {
    assert SELF_WAIT[..10] == SELF_WAIT;
    Moments(10);
    var s := Moment(10);
    ChaseCycle(s, StandIn(0), Run(1));
    ChaseCycle(s, Run(1), StandIn(0));
    Neither(StandIn(0));
    Neither(Run(1));
    OneRedirect(s);
  }

  lemma OneRedirect(s: State)
    requires s == Moment(10)
    ensures Forest(s)
  {
    forall p
      ensures WalkEnds(s, p)
    {
      LeadsToSelf(s, p);
      if p == StandIn(0) {
        LeadsOn(s, p, p);
        assert Leads(s, p, Run(1)) && IsRoot(s, Run(1));
      }
    }
  }

  lemma ChaseCycle(s: State, p: Pid, q: Pid)
    requires s == Moment(10) && p in {StandIn(0), Run(1)} && q in {StandIn(0), Run(1)} && p != q
    ensures Exists(CHASE, s, p) && WaitsOnItself(CHASE, s, p)
  {
    assert WaitsFor(CHASE, s, p, q) && WaitsFor(CHASE, s, q, p);
    ReachesNext(CHASE, s, q, p);
  }

  lemma Neither(p: Pid)
    requires After(CHASE, SELF_WAIT).Some? && Exists(CHASE, After(CHASE, SELF_WAIT).value, p)
    requires WaitsOnItself(CHASE, After(CHASE, SELF_WAIT).value, p)
    requires AtRest(CHASE, SELF_WAIT, After(CHASE, SELF_WAIT).value)
    ensures !Defined(CHASE, p) && !Resolves(After(CHASE, SELF_WAIT).value, p)
  {
    var s := After(CHASE, SELF_WAIT).value;
    ReachesSelf(CHASE, s, p);
    if Defined(CHASE, p) { DefinedWaitsOnNoCycle(CHASE, SELF_WAIT, p); }
    ResolvesExactly(CHASE, SELF_WAIT, p);
  }
}
