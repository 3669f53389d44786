/**
  state_machine_driver and state_machine_observer: a rendezvous per state.

  Each meeting of the driver with a state's observer is a round, with its own pair of
  completion sources.  The regime is the one the classes are written for: one driver that
  awaits each move_to, at most one observer per state, and no cancellation before entry.
  */
module StateMachine {
  import opened Wrappers

  type StateId = nat
  type Round = nat
  type Data = int

  /** completions: the pair of sources created together, and whether an observer has claimed it. */
  datatype Entry = Entry(round: Round, workPending: bool)

  /** m_states, with the number the next pair of sources will get. */
  datatype Table = Table(states: map<StateId, Entry>, next: Round)

  /** fetch_state: the table with an entry for st. */
  function Fetched(t: Table, st: StateId): (r: Table)
    ensures st in r.states
  {
    if st in t.states then t else Table(t.states[st := Entry(t.next, false)], t.next + 1)
  }

  function Claimed(t: Table, st: StateId): Table {
    var f := Fetched(t, st);
    f.(states := f.states[st := f.states[st].(workPending := true)])
  }

  function Erased(t: Table, st: StateId): Table {
    t.(states := t.states - {st})
  }

  class StateMachineDriver {
    var states: map<StateId, Entry>
    var next: Round

    function View(): Table reads this { Table(states, next) }

    constructor ()
      ensures View() == Table(map[], 0)
    {
      states, next := map[], 0;
    }

    method FetchState(st: StateId) returns (entry: Entry)
      modifies this
      ensures View() == Fetched(old(View()), st) && entry == View().states[st]
    {
      if st !in states {
        states := states[st := Entry(next, false)];
        next := next + 1;
      }
      entry := states[st];
    }

    /** The locked part of move_to. */
    method MoveTo(st: StateId) returns (round: Round)
      modifies this
      ensures View() == Fetched(old(View()), st) && round == View().states[st].round
    {
      var entry := FetchState(st);
      round := entry.round;
    }

    /** The locked part of enter; free tells whether its assertion holds. */
    method Enter(st: StateId) returns (round: Round, free: bool)
      modifies this
      ensures View() == Claimed(old(View()), st)
      ensures round == View().states[st].round && free == !Fetched(old(View()), st).states[st].workPending
    {
      var entry := FetchState(st);
      free := !entry.workPending;
      states := states[st := entry.(workPending := true)];
      round := entry.round;
    }

    /** The locked part of exit: the round to complete, if the state has an entry. */
    method Exit(st: StateId) returns (round: Option<Round>)
      modifies this
      ensures View() == Erased(old(View()), st)
      ensures round == if st in old(states) then Some(old(states[st].round)) else None
    {
      if st !in states {
        assert states - {st} == states;
        return None;
      }
      round := Some(states[st].round);
      states := states - {st};
    }
  }

  // --- driver and observers interleaved in any way -----------------------------------------

  datatype Driver =
    | Idle
    | Signalling(st: StateId, round: Round)     // between the lock and StateEntered.complete
    | Awaiting(st: StateId, round: Round)

  datatype Observer =
    | Away
    | Registered(round: Round)                  // waiting for StateEntered
    | Working(round: Round)                     // the work body is active
    | Finished(round: Round, data: Data)        // about to call exit
    | Leaving(round: Round, data: Data)         // entry erased, StateExited not yet completed

  datatype World = World(
    table: Table,
    driver: Driver,
    observers: map<StateId, Observer>,
    entered: set<Round>,                        // StateEntered completed
    left: map<Round, Data>,                     // what the work of a round left behind
    exits: seq<(Round, Data)>)                  // calls of StateExited.complete

  const INITIAL := World(Table(map[], 0), Idle, map[], {}, map[], [])

  function ObserverOf(w: World, st: StateId): Observer {
    if st in w.observers then w.observers[st] else Away
  }

  predicate HasExited(w: World, r: Round) {
    exists k :: 0 <= k < |w.exits| && w.exits[k].0 == r
  }

  datatype Step =
    | MoveTo(st: StateId)
    | Signal
    | Resume                                    // the driver's continuation on StateExited
    | Enter(st: StateId)
    | Begin(st: StateId)
    | Skip(st: StateId)                         // token cancelled after entry: the work is not called
    | End(st: StateId, data: Data)
    | ExitLock(st: StateId)
    | ExitComplete(st: StateId)

  predicate Enabled(w: World, step: Step) {
    match step
    case MoveTo(_) => w.driver.Idle?
    case Signal => w.driver.Signalling?
    case Resume => w.driver.Awaiting? && HasExited(w, w.driver.round)
    case Enter(st) => ObserverOf(w, st).Away?
    case Begin(st) => ObserverOf(w, st).Registered? && ObserverOf(w, st).round in w.entered
    case Skip(st) => ObserverOf(w, st).Registered? && ObserverOf(w, st).round in w.entered
    case End(st, _) => ObserverOf(w, st).Working?
    case ExitLock(st) => ObserverOf(w, st).Finished?
    case ExitComplete(st) => ObserverOf(w, st).Leaving?
  }

  function Observe(w: World, st: StateId, o: Observer): World {
    w.(observers := w.observers[st := o])
  }

  function Do(w: World, step: Step): World
    requires Enabled(w, step)
  {
    match step
    case MoveTo(st) =>
      var t := Fetched(w.table, st);
      w.(table := t, driver := Signalling(st, t.states[st].round))
    case Signal =>
      w.(entered := w.entered + {w.driver.round}, driver := Awaiting(w.driver.st, w.driver.round))
    case Resume =>
      w.(driver := Idle)
    case Enter(st) =>
      var t := Claimed(w.table, st);
      Observe(w.(table := t), st, Registered(t.states[st].round))
    case Begin(st) =>
      Observe(w, st, Working(ObserverOf(w, st).round))
    case Skip(st) =>
      var r := ObserverOf(w, st).round;
      Observe(w.(left := w.left[r := 0]), st, Finished(r, 0))
    case End(st, data) =>
      var r := ObserverOf(w, st).round;
      Observe(w.(left := w.left[r := data]), st, Finished(r, data))
    case ExitLock(st) =>
      if st !in w.table.states then Observe(w, st, Away)
      else Observe(w.(table := Erased(w.table, st)), st, Leaving(w.table.states[st].round, ObserverOf(w, st).data))
    case ExitComplete(st) =>
      var Leaving(r, data) := ObserverOf(w, st);
      Observe(w.(exits := w.exits + [(r, data)]), st, Away)
  }

  function After(steps: seq<Step>): Option<World> {
    if steps == [] then Some(INITIAL) else
    var last := |steps| - 1;
    var w := After(steps[..last]);
    if w.Some? && Enabled(w.value, steps[last]) then Some(Do(w.value, steps[last])) else None
  }

  /** The observer of st holds the claim on its entry. */
  predicate Holds(o: Observer) { o.Registered? || o.Working? || o.Finished? }

  ghost predicate TableOk(w: World) {
    && (forall st :: st in w.table.states ==> w.table.states[st].round < w.table.next)
    && (forall a, b :: a in w.table.states && b in w.table.states && w.table.states[a].round == w.table.states[b].round ==> a == b)
    && (forall st :: st in w.table.states ==> (w.table.states[st].workPending <==> Holds(ObserverOf(w, st))))
    && (forall st :: Holds(ObserverOf(w, st)) ==>
          st in w.table.states && w.table.states[st].round == ObserverOf(w, st).round)
    && (forall r :: r in w.entered ==> r < w.table.next)
    && (forall k :: 0 <= k < |w.exits| ==> w.exits[k].0 in w.entered)
    && (forall st :: st in w.table.states ==> !HasExited(w, w.table.states[st].round))
  }

  /** While an observer leaves, its state has no entry and no entry has its round. */
  ghost predicate LeavingOk(w: World) {
    forall st :: ObserverOf(w, st).Leaving? ==>
      && st !in w.table.states
      && forall x :: x in w.table.states ==> w.table.states[x].round != ObserverOf(w, st).round
  }

  ghost predicate DriverOk(w: World) {
    match w.driver
    case Idle => true
    case Signalling(st, r) => st in w.table.states && w.table.states[st].round == r && r !in w.entered
    case Awaiting(st, r) =>
      r in w.entered &&
      (HasExited(w, r) || (st in w.table.states && w.table.states[st].round == r) ||
       (ObserverOf(w, st).Leaving? && ObserverOf(w, st).round == r))
  }

  /** A round that is entered and not exited is the one the driver awaits. */
  ghost predicate RoundsOk(w: World) {
    && (forall r :: r in w.entered && !HasExited(w, r) ==> w.driver.Awaiting? && w.driver.round == r)
    && (forall st :: ObserverOf(w, st).Working? || ObserverOf(w, st).Finished? || ObserverOf(w, st).Leaving? ==>
          ObserverOf(w, st).round in w.entered && !HasExited(w, ObserverOf(w, st).round)
          && w.driver.Awaiting? && w.driver.st == st)
    && (forall j, k :: 0 <= j < k < |w.exits| ==> w.exits[j].0 != w.exits[k].0)
  }

  ghost predicate DataOk(w: World) {
    && (forall st :: ObserverOf(w, st).Finished? || ObserverOf(w, st).Leaving? ==>
          ObserverOf(w, st).round in w.left && w.left[ObserverOf(w, st).round] == ObserverOf(w, st).data)
    && (forall k :: 0 <= k < |w.exits| ==> w.exits[k].0 in w.left && w.left[w.exits[k].0] == w.exits[k].1)
  }

  ghost predicate Inv(w: World) {
    TableOk(w) && LeavingOk(w) && DriverOk(w) && RoundsOk(w) && DataOk(w)
  }

  lemma SameExits(w: World, v: World)
    requires v.exits == w.exits
    ensures forall r :: HasExited(v, r) == HasExited(w, r)
  {
  }

  lemma MoveToKeeps(w: World, st: StateId)
    requires Inv(w) && Enabled(w, MoveTo(st))
    ensures Inv(Do(w, MoveTo(st)))
  {
    var v := Do(w, MoveTo(st));
    SameExits(w, v);
    assert forall x :: ObserverOf(v, x) == ObserverOf(w, x);
  }

  lemma SignalKeeps(w: World)
    requires Inv(w) && Enabled(w, Signal)
    ensures Inv(Do(w, Signal))
  {
    var v := Do(w, Signal);
    SameExits(w, v);
    assert forall x :: ObserverOf(v, x) == ObserverOf(w, x);
  }

  lemma ResumeKeeps(w: World)
    requires Inv(w) && Enabled(w, Resume)
    ensures Inv(Do(w, Resume))
  {
    var v := Do(w, Resume);
    SameExits(w, v);
    assert forall x :: ObserverOf(v, x) == ObserverOf(w, x);
  }

  /** Looking a state up, creating its entry if need be, disturbs nobody. */
  lemma FetchKeeps(w: World, st: StateId)
    requires TableOk(w) && LeavingOk(w) && !ObserverOf(w, st).Leaving?
    requires forall x :: ObserverOf(w, x).Leaving? ==> ObserverOf(w, x).round in w.entered
    ensures var v := w.(table := Fetched(w.table, st)); TableOk(v) && LeavingOk(v)
  {
    var v := w.(table := Fetched(w.table, st));
    SameExits(w, v);
    assert forall x :: ObserverOf(v, x) == ObserverOf(w, x);
  }

  /** The world once the observer has claimed the entry its state already has. */
  ghost function Claiming(w: World, st: StateId): World
    requires st in w.table.states
  {
    var e := w.table.states[st];
    Observe(w.(table := w.table.(states := w.table.states[st := e.(workPending := true)])), st, Registered(e.round))
  }

  lemma ClaimFrame(w: World, st: StateId)
    requires st in w.table.states
    ensures var v := Claiming(w, st);
            && (forall x :: x != st ==> ObserverOf(v, x) == ObserverOf(w, x))
            && ObserverOf(v, st) == Registered(w.table.states[st].round)
            && (forall x :: x in v.table.states <==> x in w.table.states)
            && (forall x :: x in v.table.states ==> v.table.states[x].round == w.table.states[x].round)
            && (forall x :: x in v.table.states && x != st ==> v.table.states[x] == w.table.states[x])
            && v.table.states[st].workPending
            && forall r :: HasExited(v, r) == HasExited(w, r)
  {
    SameExits(w, Claiming(w, st));
  }

  lemma ClaimKeepsTable(w: World, st: StateId)
    requires TableOk(w) && ObserverOf(w, st).Away? && st in w.table.states
    ensures TableOk(Claiming(w, st))
  {
    ClaimFrame(w, st);
  }

  lemma ClaimKeepsLeaving(w: World, st: StateId)
    requires LeavingOk(w) && ObserverOf(w, st).Away? && st in w.table.states
    ensures LeavingOk(Claiming(w, st))
  {
    ClaimFrame(w, st);
  }

  lemma EnterKeepsTable(w: World, st: StateId)
    requires TableOk(w) && LeavingOk(w) && Enabled(w, Enter(st))
    requires forall x :: ObserverOf(w, x).Leaving? ==> ObserverOf(w, x).round in w.entered
    ensures TableOk(Do(w, Enter(st))) && LeavingOk(Do(w, Enter(st)))
  {
    FetchKeeps(w, st);
    ClaimKeepsTable(w.(table := Fetched(w.table, st)), st);
    ClaimKeepsLeaving(w.(table := Fetched(w.table, st)), st);
  }

  lemma EnterKeepsRounds(w: World, st: StateId)
    requires RoundsOk(w) && DataOk(w) && Enabled(w, Enter(st))
    ensures RoundsOk(Do(w, Enter(st))) && DataOk(Do(w, Enter(st)))
  {
    var v := Do(w, Enter(st));
    SameExits(w, v);
    assert forall x :: x != st ==> ObserverOf(v, x) == ObserverOf(w, x);
  }

  lemma EnterKeeps(w: World, st: StateId)
    requires Inv(w) && Enabled(w, Enter(st))
    ensures Inv(Do(w, Enter(st)))
  {
    var v := Do(w, Enter(st));
    EnterKeepsTable(w, st);
    EnterKeepsRounds(w, st);
    SameExits(w, v);
    assert forall x :: x != st ==> ObserverOf(v, x) == ObserverOf(w, x);
    assert DriverOk(v);
  }

  lemma WorkStepKeepsTable(w: World, step: Step)
    requires TableOk(w) && LeavingOk(w) && Enabled(w, step) && (step.Begin? || step.Skip? || step.End?)
    ensures TableOk(Do(w, step)) && LeavingOk(Do(w, step))
  {
    var v := Do(w, step);
    SameExits(w, v);
    assert forall x :: x != step.st ==> ObserverOf(v, x) == ObserverOf(w, x);
  }

  lemma WorkStepKeeps(w: World, step: Step)
    requires Inv(w) && Enabled(w, step) && (step.Begin? || step.Skip? || step.End?)
    ensures Inv(Do(w, step))
  {
    var v := Do(w, step);
    WorkStepKeepsTable(w, step);
    SameExits(w, v);
    assert forall x :: x != step.st ==> ObserverOf(v, x) == ObserverOf(w, x);
    assert RoundsOk(v);
  }

  lemma ExitLockKeeps(w: World, st: StateId)
    requires Inv(w) && Enabled(w, ExitLock(st))
    ensures Inv(Do(w, ExitLock(st)))
  {
    var v := Do(w, ExitLock(st));
    SameExits(w, v);
    assert forall x :: x != st ==> ObserverOf(v, x) == ObserverOf(w, x);
  }

  lemma ExitCompleteKeeps(w: World, st: StateId)
    requires Inv(w) && Enabled(w, ExitComplete(st))
    ensures Inv(Do(w, ExitComplete(st)))
  {
    var v := Do(w, ExitComplete(st));
    var Leaving(own, data) := ObserverOf(w, st);
    assert forall x :: x != st ==> ObserverOf(v, x) == ObserverOf(w, x);
    forall r
      ensures HasExited(v, r) <==> HasExited(w, r) || r == own
    {
      if HasExited(w, r) {
        var k :| 0 <= k < |w.exits| && w.exits[k].0 == r;
        assert v.exits[k].0 == r;
      }
      if r == own { assert v.exits[|w.exits|].0 == r; }
    }
  }

  lemma {:induction false} AfterInv(steps: seq<Step>)
    requires After(steps).Some?
    ensures Inv(After(steps).value)
  {
    if steps != [] {
      var last := |steps| - 1;
      AfterInv(steps[..last]);
      var w, step := After(steps[..last]).value, steps[last];
      match step
      case MoveTo(st) => MoveToKeeps(w, st);
      case Signal => SignalKeeps(w);
      case Resume => ResumeKeeps(w);
      case Enter(st) => EnterKeeps(w, st);
      case Begin(_) => WorkStepKeeps(w, step);
      case Skip(_) => WorkStepKeeps(w, step);
      case End(_, _) => WorkStepKeeps(w, step);
      case ExitLock(st) => ExitLockKeeps(w, st);
      case ExitComplete(st) => ExitCompleteKeeps(w, st);
    }
  }

  /** No two work bodies are ever active at once, and an active one belongs to the driver's current state. */
  lemma MutualExclusion(steps: seq<Step>, a: StateId, b: StateId)
    requires After(steps).Some?
    ensures var w := After(steps).value;
            ObserverOf(w, a).Working? ==>
              && w.driver == Awaiting(a, ObserverOf(w, a).round)
              && (ObserverOf(w, b).Working? ==> b == a)
  {
    AfterInv(steps);
  }

  /**
    What each step finds, however the two sides are interleaved: neither source of a round is
    completed twice, an observer never enters a state already claimed, work runs only after
    StateEntered, and exit finds the entry of its own round.
    */
  lemma Rendezvous(steps: seq<Step>, step: Step)
    requires After(steps).Some? && Enabled(After(steps).value, step)
    ensures var w := After(steps).value;
            match step
            case Signal => w.driver.round !in w.entered
            case Enter(st) => !Fetched(w.table, st).states[st].workPending
            case Begin(st) => w.driver == Awaiting(st, ObserverOf(w, st).round)
            case Skip(st) => w.driver == Awaiting(st, ObserverOf(w, st).round)
            case ExitLock(st) =>
              && st in w.table.states && w.table.states[st].round == ObserverOf(w, st).round
              && w.driver == Awaiting(st, ObserverOf(w, st).round)
            case ExitComplete(st) =>
              && !HasExited(w, ObserverOf(w, st).round) && st !in w.table.states
              && w.driver == Awaiting(st, ObserverOf(w, st).round)
            case _ => true
  {
    AfterInv(steps);
  }

  /** The driver's task for a round is completed once, with the data the work left. */
  lemma ExitsOnceWithData(steps: seq<Step>)
    requires After(steps).Some?
    ensures var w := After(steps).value;
            && (forall j, k :: 0 <= j < k < |w.exits| ==> w.exits[j].0 != w.exits[k].0)
            && (forall k :: 0 <= k < |w.exits| ==>
                  w.exits[k].0 in w.entered && w.exits[k].0 in w.left && w.exits[k].1 == w.left[w.exits[k].0])
  {
    AfterInv(steps);
  }

  // --- what the schedule says ------------------------------------------------------------------

  /** Step i ended the work of round r in state st with the data d, or skipped it, which leaves the initial data. */
  ghost predicate LeftBy(steps: seq<Step>, i: nat, st: StateId, r: Round, d: Data)
    requires i < |steps|
  {
    After(steps[..i]).Some? &&
    var o := ObserverOf(After(steps[..i]).value, st);
    || (steps[i] == End(st, d) && o == Working(r))
    || (steps[i] == Skip(st) && o == Registered(r) && d == 0)
  }

  ghost predicate WasLeft(steps: seq<Step>, r: Round, d: Data) {
    exists i: nat, st :: i < |steps| && LeftBy(steps, i, st, r, d)
  }

  lemma StillLeft(steps: seq<Step>, r: Round, d: Data)
    requires steps != [] && WasLeft(steps[..|steps| - 1], r, d)
    ensures WasLeft(steps, r, d)
  {
    var before := steps[..|steps| - 1];
    var i: nat, st :| i < |before| && LeftBy(before, i, st, r, d);
    assert before[..i] == steps[..i] && before[i] == steps[i];
    assert LeftBy(steps, i, st, r, d);
  }

  predicate Carries(o: Observer, r: Round, d: Data) {
    (o.Finished? || o.Leaving?) && o.round == r && o.data == d
  }

  /** What observers carry and what was handed to the driver is what work left. */
  ghost predicate Carried(steps: seq<Step>, w: World) {
    && (forall st: StateId, r: Round, d: Data :: Carries(ObserverOf(w, st), r, d) ==> WasLeft(steps, r, d))
    && (forall k :: 0 <= k < |w.exits| ==> WasLeft(steps, w.exits[k].0, w.exits[k].1))
  }

  /** What an observer carries after a step it carried before, or the step ended its work. */
  lemma StepCarries(w: World, step: Step, st: StateId, r: Round, d: Data)
    requires Inv(w) && Enabled(w, step) && Carries(ObserverOf(Do(w, step), st), r, d)
    ensures || Carries(ObserverOf(w, st), r, d)
            || (step == End(st, d) && ObserverOf(w, st) == Working(r))
            || (step == Skip(st) && ObserverOf(w, st) == Registered(r) && d == 0)
  {
    if step == ExitLock(st) {
      assert Holds(ObserverOf(w, st));
    }
  }

  lemma StepExits(w: World, step: Step, k: nat)
    requires Enabled(w, step) && k < |Do(w, step).exits|
    ensures var exit := Do(w, step).exits[k];
            (k < |w.exits| && exit == w.exits[k]) ||
            (step.ExitComplete? && Carries(ObserverOf(w, step.st), exit.0, exit.1))
  {
  }

  lemma CarriedOn(steps: seq<Step>, w: World, v: World)
    requires steps != [] && After(steps[..|steps| - 1]) == Some(w) && Carried(steps[..|steps| - 1], w)
    requires Inv(w) && Enabled(w, steps[|steps| - 1]) && v == Do(w, steps[|steps| - 1])
    ensures Carried(steps, v)
  {
    var last := |steps| - 1;
    forall r, d | WasLeft(steps[..last], r, d)
      ensures WasLeft(steps, r, d)
    {
      StillLeft(steps, r, d);
    }
    forall st: StateId, r: Round, d: Data | Carries(ObserverOf(v, st), r, d)
      ensures WasLeft(steps, r, d)
    {
      StepCarries(w, steps[last], st, r, d);
      if !Carries(ObserverOf(w, st), r, d) { assert LeftBy(steps, last, st, r, d); }
    }
    forall k | 0 <= k < |v.exits|
      ensures WasLeft(steps, v.exits[k].0, v.exits[k].1)
    {
      StepExits(w, steps[last], k);
    }
  }

  lemma {:induction false} AfterCarried(steps: seq<Step>)
    requires After(steps).Some?
    ensures Carried(steps, After(steps).value)
  {
    if steps != [] {
      var before := steps[..|steps| - 1];
      AfterCarried(before);
      AfterInv(before);
      CarriedOn(steps, After(before).value, After(steps).value);
    }
  }

  /** The driver's task for a round is completed with what the work of that round ended with. */
  lemma ExitsWithWhatWorkLeft(steps: seq<Step>, k: nat)
    requires After(steps).Some? && k < |After(steps).value.exits|
    ensures var exit := After(steps).value.exits[k];
            exists i: nat, st :: i < |steps| && LeftBy(steps, i, st, exit.0, exit.1)
  {
    AfterCarried(steps);
    var exit := After(steps).value.exits[k];
    assert WasLeft(steps, exit.0, exit.1);
  }

  /** The state of the last move_to. */
  function LastMove(steps: seq<Step>): Option<StateId> {
    if steps == [] then None
    else if steps[|steps| - 1].MoveTo? then Some(steps[|steps| - 1].st)
    else LastMove(steps[..|steps| - 1])
  }

  /** A busy driver is busy with the state it was last moved to, and any work going on is that state's. */
  lemma DriverFollows(steps: seq<Step>)
    requires After(steps).Some?
    ensures var w := After(steps).value;
            && (!w.driver.Idle? ==> LastMove(steps) == Some(w.driver.st))
            && (forall st: StateId :: ObserverOf(w, st).Working? ==> LastMove(steps) == Some(st))
  {
    if !After(steps).value.driver.Idle? { DriverMoved(steps); }
    AfterInv(steps);
  }

  lemma {:induction false} DriverMoved(steps: seq<Step>)
    requires After(steps).Some? && !After(steps).value.driver.Idle?
    ensures LastMove(steps) == Some(After(steps).value.driver.st)
  {
    if steps != [] && !steps[|steps| - 1].MoveTo? {
      DriverMoved(steps[..|steps| - 1]);
    }
  }

  /** How far an observer is from completing the round the driver waits for. */
  function Distance(o: Observer): nat {
    match o
    case Away => 5
    case Registered(_) => 4
    case Working(_) => 3
    case Finished(_, _) => 2
    case Leaving(_, _) => 1
  }

  /** The step an observer takes next, the work ending with the given data. */
  function NextOf(w: World, st: StateId, data: Data): Step {
    match ObserverOf(w, st)
    case Away => Enter(st)
    case Registered(_) => Begin(st)
    case Working(_) => End(st, data)
    case Finished(_, _) => ExitLock(st)
    case Leaving(_, _) => ExitComplete(st)
  }

  /**
    Whichever side comes first, the driver is never left waiting: the observer of its state
    can always go on, and every step it takes is one closer to completing the round.
    */
  lemma RoundAdvances(steps: seq<Step>, data: Data)
    requires After(steps).Some?
    requires var w := After(steps).value; w.driver.Awaiting? && !HasExited(w, w.driver.round)
    ensures var w := After(steps).value;
            var st := w.driver.st;
            var step := NextOf(w, st, data);
            && Enabled(w, step)
            && if ObserverOf(w, st).Leaving? then HasExited(Do(w, step), w.driver.round)
               else Distance(ObserverOf(Do(w, step), st)) == Distance(ObserverOf(w, st)) - 1
  {
    AfterInv(steps);
    var w := After(steps).value;
    if ObserverOf(w, w.driver.st).Leaving? {
      var v := Do(w, ExitComplete(w.driver.st));
      assert v.exits[|w.exits|].0 == w.driver.round;
    }
  }
}
