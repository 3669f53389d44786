/**
  The task graph under an adversarial scheduler.

  Every lock-protected section of base_task_payload is one step.  What a thread carries
  between two sections is a flight: continuations on their way to a payload (the gap
  inside collapse_left_into_right and inside then), or continuations being handed to
  their schedulers one after the other.  Any thread may take the next step at any time.
  */
module TaskGraph {
  import opened Wrappers
  import opened TaskProgram
  import opened TaskPayload

  datatype Flight =
    | Adding(at: Pid, batch: seq<Cont>)          // add_continuations about to lock `at`
    | Releasing(batch: seq<Cont>, next: nat)     // the loop over continuation.run()

  /** A callable in some scheduler's queue, holding on to the parent it will read. */
  datatype Job = Job(parent: Option<Pid>, task: Pid)

  datatype State = State(
    created: set<Name>,
    pool: map<Pid, Payload>,
    flights: map<nat, Flight>,
    nextFlight: nat,            // flights are numbered below this
    ready: set<Job>,
    completing: set<Pid>)       // Result written, do_completion not yet entered

  const INITIAL: State := State({}, map[], map[], 0, {}, {})

  datatype Step =
    | Create(n: Name)           // task_completion_source(), make_task or then
    | Complete(n: Name)         // the user completes source n
    | Start(job: Job)           // a scheduler runs the job's callable
    | Finish(p: Pid)            // do_completion: cannibalize(nullptr)
    | Advance(f: nat)           // one level of add_continuations
    | Release(f: nat)           // one continuation.run()

  function At(s: State, p: Pid): Payload {
    if p in s.pool then s.pool[p] else NEW
  }

  function Put(s: State, p: Pid, q: Payload): State {
    s.(pool := s.pool[p := q])
  }

  function SetResult(s: State, p: Pid, v: Outcome): State {
    Put(s, p, At(s, p).(result := Some(v))).(completing := s.completing + {p})
  }

  /** A thread sets off with a batch; an empty one is dropped on the spot. */
  function Launch(s: State, flight: Flight): State {
    if |flight.batch| == 0 then s
    else s.(flights := s.flights[s.nextFlight := flight], nextFlight := s.nextFlight + 1)
  }

  /** cannibalize, with the continuations it returned carried off as a new flight. */
  function Cannibalize(s: State, p: Pid, redirect: Option<Pid>): State {
    var batch := At(s, p).pending;
    var t := Put(s, p, Taken(At(s, p), redirect));
    match redirect
    case None => Launch(t, Releasing(batch, 0))
    case Some(q) => Launch(t, Adding(q, Reparent(batch, q)))
  }

  // --- the effect of each step ---------------------------------------------------------

  /** then first registers the unwrapper on the new payload, then the payload on its parent. */
  ghost function CreateTask(prog: Program, s: State, n: Name): State {
    var s0 := s.(created := s.created + {n});
    var s1 := if Unwraps(prog, n) then Launch(s0, Adding(Run(n), [Cont(Run(n), Unwrapper(n))])) else s0;
    match prog(n)
    case Source(_) => s1
    case Make(_) => s1.(ready := s1.ready + {Job(None, Run(n))})
    case Then(m, _) =>
      var parent := HandleOf(prog, m);
      Launch(s1, Adding(parent, [Cont(parent, Run(n))]))
  }

  function InputOf(s: State, job: Job): Option<Outcome> {
    if job.parent.None? then Some(VALID) else At(s, job.parent.value).result
  }

  ghost function StartRun(prog: Program, s: State, n: Name, job: Job, input: Outcome): State
    requires !prog(n).Source?
  {
    SetResult(s.(ready := s.ready - {job}), Run(n), Invoke(prog(n).body, input))
  }

  /** The continuation task_factory puts on an unwrapping payload. */
  ghost function StartUnwrapper(prog: Program, s: State, n: Name, job: Job, input: Outcome): State {
    var s0 := SetResult(s.(ready := s.ready - {job}), Unwrapper(n), VALID);
    match input
    case Failed(e) => SetResult(s0, StandIn(n), Failed(e))
    case Handle(t) => Cannibalize(s0, StandIn(n), Some(HandleOf(prog, t)))
    case Value(_) => s0
  }

  function AdvanceFlight(s: State, f: nat): State
    requires f in s.flights && s.flights[f].Adding?
  {
    var Adding(at, batch) := s.flights[f];
    var p := At(s, at);
    if p.redirect.Some? then
      s.(flights := s.flights[f := Adding(p.redirect.value, Reparent(batch, p.redirect.value))])
    else if p.completed then
      s.(flights := s.flights[f := Releasing(batch, 0)])
    else
      Put(s, at, Extended(p, batch)).(flights := s.flights - {f})
  }

  function ReleaseOne(s: State, f: nat): State
    requires f in s.flights && s.flights[f].Releasing? && s.flights[f].next < |s.flights[f].batch|
  {
    var Releasing(batch, k) := s.flights[f];
    var t := s.(ready := s.ready + {Job(Some(batch[k].parent), batch[k].task)});
    if k + 1 == |batch| then t.(flights := s.flights - {f})
    else t.(flights := s.flights[f := Releasing(batch, k + 1)])
  }

  // --- the transition system -----------------------------------------------------------

  /** A callable can only return a task that exists. */
  ghost predicate Returnable(prog: Program, s: State, job: Job) {
    job.task.Run? && Unwraps(prog, job.task.n) ==>
      var input := InputOf(s, job);
      input.Some? ==>
        var out := Invoke(prog(job.task.n).body, input.value);
        out.Handle? ==> out.t in s.created
  }

  ghost predicate Enabled(prog: Program, s: State, step: Step) {
    match step
    case Create(n) =>
      n !in s.created && (prog(n).Then? ==> prog(n).on in s.created)
    case Complete(n) =>
      // each source is completed at most once
      n in s.created && prog(n).Source? && At(s, Run(n)).result.None?
    case Start(job) =>
      job in s.ready && InputOf(s, job).Some? && Returnable(prog, s, job) &&
      (match job.task
       case Run(n) => !prog(n).Source?
       case Unwrapper(n) => !InputOf(s, job).value.Value?
       case StandIn(_) => false)
    case Finish(p) => p in s.completing
    case Advance(f) => f in s.flights && s.flights[f].Adding?
    case Release(f) => f in s.flights && s.flights[f].Releasing? && s.flights[f].next < |s.flights[f].batch|
  }

  ghost function Do(prog: Program, s: State, step: Step): State
    requires Enabled(prog, s, step)
  {
    match step
    case Create(n) => CreateTask(prog, s, n)
    case Complete(n) => SetResult(s, Run(n), prog(n).value)
    case Start(job) =>
      if job.task.Run? then StartRun(prog, s, job.task.n, job, InputOf(s, job).value)
      else StartUnwrapper(prog, s, job.task.n, job, InputOf(s, job).value)
    case Finish(p) => Cannibalize(s, p, None).(completing := s.completing - {p})
    case Advance(f) => AdvanceFlight(s, f)
    case Release(f) => ReleaseOne(s, f)
  }

  /** The state a schedule leads to, or None when one of its steps is not possible. */
  ghost function After(prog: Program, schedule: seq<Step>): Option<State> {
    if schedule == [] then Some(INITIAL) else
    var last := |schedule| - 1;
    var s := After(prog, schedule[..last]);
    if s.Some? && Enabled(prog, s.value, schedule[last]) then Some(Do(prog, s.value, schedule[last])) else None
  }

  // --- redirect chains -----------------------------------------------------------------

  /** Following k redirects from a leads to b. */
  ghost predicate Chain(s: State, a: Pid, b: Pid, k: nat)
    decreases k
  {
    if k == 0 then a == b
    else At(s, a).redirect.Some? && Chain(s, At(s, a).redirect.value, b, k - 1)
  }

  ghost predicate Leads(s: State, a: Pid, b: Pid) {
    exists k: nat :: Chain(s, a, b, k)
  }

  ghost predicate IsRoot(s: State, p: Pid) {
    At(s, p).redirect.None?
  }

  // --- where a continuation is -----------------------------------------------------------

  datatype Place =
    | Pending(p: Pid, k: nat)
    | InFlight(f: nat, i: nat)
    | Queued(job: Job)
    | Ran(w: Pid)

  /** The payloads a scheduler runs: everything except sources, the user's and the stand-ins. */
  ghost predicate IsWork(prog: Program, w: Pid) {
    match w
    case Run(n) => !prog(n).Source?
    case Unwrapper(n) => Unwraps(prog, n)
    case StandIn(_) => false
  }

  ghost function Occupant(prog: Program, s: State, x: Place): Option<Pid> {
    match x
    case Pending(p, k) =>
      if k < |At(s, p).pending| then Some(At(s, p).pending[k].task) else None
    case InFlight(f, i) =>
      if f in s.flights && i < |s.flights[f].batch| && (s.flights[f].Releasing? ==> s.flights[f].next <= i)
      then Some(s.flights[f].batch[i].task) else None
    case Queued(job) => if job in s.ready then Some(job.task) else None
    case Ran(w) => if IsWork(prog, w) && At(s, w).result.Some? then Some(w) else None
  }

  // --- the invariant ---------------------------------------------------------------------

  /** The continuations then and task_factory register, and the payload they were registered on. */
  ghost predicate IsAttached(prog: Program, w: Pid) {
    match w
    case Run(n) => prog(n).Then?
    case Unwrapper(n) => Unwraps(prog, n)
    case StandIn(_) => false
  }

  ghost function Origin(prog: Program, w: Pid): Pid
    requires IsAttached(prog, w)
  {
    if w.Run? then HandleOf(prog, prog(w.n).on) else Run(w.n)
  }

  ghost predicate GoodCont(prog: Program, s: State, c: Cont) {
    IsAttached(prog, c.task) && c.task.n in s.created && Leads(s, Origin(prog, c.task), c.parent)
  }

  ghost predicate Settled(s: State, p: Pid) {
    At(s, p).completed && At(s, p).redirect.None?
  }

  /** Redirects only ever leave a stand-in, for the task its callable returned. */
  ghost predicate RedirectsOk(prog: Program, s: State) {
    forall p :: At(s, p).redirect.Some? ==>
      && p.StandIn? && At(s, p).completed && At(s, p).result.None?
      && At(s, Run(p.n)).result.Some? && At(s, Run(p.n)).result.value.Handle?
      && At(s, p).redirect == Some(HandleOf(prog, At(s, Run(p.n)).result.value.t))
  }

  ghost predicate FieldsOk(s: State) {
    && (forall p :: At(s, p).completed ==> At(s, p).pending == [])
    && (forall p :: p in s.completing <==> At(s, p).result.Some? && !At(s, p).completed)
    && (forall p :: At(s, p).completed ==> At(s, p).result.Some? || At(s, p).redirect.Some?)
    && (forall f :: f in s.flights ==> f < s.nextFlight)
  }

  /** Only created tasks have results, and what a callable returned exists. */
  ghost predicate NamesOk(prog: Program, s: State) {
    && (forall n :: n in s.created && prog(n).Then? ==> prog(n).on in s.created)
    && (forall n :: At(s, Run(n)).result.Some? ==> n in s.created)
    && (forall n :: At(s, Unwrapper(n)).result.Some? ==> n in s.created && Unwraps(prog, n))
    && (forall n :: At(s, Run(n)).result.Some? && Unwraps(prog, n) && At(s, Run(n)).result.value.Handle? ==>
          At(s, Run(n)).result.value.t in s.created)
  }

  /** A stand-in is completed by its unwrapper and by nothing else. */
  ghost predicate StandInsOk(s: State) {
    && (forall n :: At(s, StandIn(n)).result.Some? || At(s, StandIn(n)).completed ==> At(s, Unwrapper(n)).result.Some?)
    && (forall n :: At(s, Unwrapper(n)).result.Some? ==>
          At(s, StandIn(n)).result.Some? || At(s, StandIn(n)).redirect.Some?)
  }

  ghost predicate ValuesOk(prog: Program, s: State) {
    forall p :: At(s, p).result.Some? ==> Means(prog, p, At(s, p).result.value)
  }

  ghost predicate PendingOk(prog: Program, s: State) {
    forall p, k :: 0 <= k < |At(s, p).pending| ==>
      At(s, p).pending[k].parent == p && GoodCont(prog, s, At(s, p).pending[k])
  }

  ghost predicate FlightOk(prog: Program, s: State, fl: Flight) {
    && (forall i :: 0 <= i < |fl.batch| ==> GoodCont(prog, s, fl.batch[i]))
    && match fl
       case Adding(at, batch) =>
         |batch| > 0 && forall i :: 0 <= i < |batch| ==> batch[i].parent == at
       case Releasing(batch, next) =>
         next < |batch| && forall i :: 0 <= i < |batch| ==> Settled(s, batch[i].parent)
  }

  ghost predicate FlightsOk(prog: Program, s: State) {
    forall f :: f in s.flights ==> FlightOk(prog, s, s.flights[f])
  }

  ghost predicate JobOk(prog: Program, s: State, job: Job) {
    match job.parent
    case None => job.task.Run? && prog(job.task.n).Make? && job.task.n in s.created
    case Some(q) => GoodCont(prog, s, Cont(q, job.task)) && Settled(s, q)
  }

  ghost predicate ReadyOk(prog: Program, s: State) {
    forall job :: job in s.ready ==> JobOk(prog, s, job)
  }

  /** No piece of work is in two places. */
  ghost predicate NowhereTwice(prog: Program, s: State) {
    forall x, y :: Occupant(prog, s, x).Some? && Occupant(prog, s, x) == Occupant(prog, s, y) ==> x == y
  }

  /** The occupied places are those of created work. */
  ghost predicate OnlyCreated(prog: Program, s: State) {
    forall x :: Occupant(prog, s, x).Some? ==>
      IsWork(prog, Occupant(prog, s, x).value) && Occupant(prog, s, x).value.n in s.created
  }

  ghost predicate Somewhere(prog: Program, s: State, w: Pid) {
    exists x :: Occupant(prog, s, x) == Some(w)
  }

  ghost predicate NeverLost(prog: Program, s: State) {
    forall w :: IsWork(prog, w) && w.n in s.created ==> Somewhere(prog, s, w)
  }

  ghost predicate PayloadsOk(prog: Program, s: State) {
    RedirectsOk(prog, s) && FieldsOk(s) && NamesOk(prog, s) && StandInsOk(s)
  }

  ghost predicate ContsOk(prog: Program, s: State) {
    PendingOk(prog, s) && FlightsOk(prog, s) && ReadyOk(prog, s)
  }

  ghost predicate PlacesOk(prog: Program, s: State) {
    NowhereTwice(prog, s) && OnlyCreated(prog, s) && NeverLost(prog, s)
  }

  ghost predicate Inv(prog: Program, s: State) {
    PayloadsOk(prog, s) && ValuesOk(prog, s) && ContsOk(prog, s) && PlacesOk(prog, s)
  }
}
