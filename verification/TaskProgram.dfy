/**
  What a program built from tasks means, independently of any scheduler.

  A program names every task that is ever created.  A task is a completion source the
  user completes, a callable started by make_task, or a continuation attached with then.
  The meaning of a task is computed by plain recursion over the tasks it depends on.
  */
module TaskProgram {
  import opened Wrappers

  type Name = nat

  /**
    The payloads behind one task.  Run is the payload that holds the callable (or the
    user's completion source).  When the callable returns a task, task_factory adds a
    StandIn source, which is what the caller gets, and an Unwrapper continuation on Run.
    */
  datatype Pid = Run(n: Name) | StandIn(n: Name) | Unwrapper(n: Name)

  datatype Error = OperationCanceled | Code(code: int)

  /** The contents of a payload's Result: a value, an error, or (for Run of an unwrapping task) a task. */
  datatype Outcome = Value(v: int) | Failed(e: Error) | Handle(t: Name)

  /** basic_expected<void>::make_valid */
  const VALID: Outcome := Value(0)

  datatype Reply = Refused(e: Error) | Returned(t: Name)

  /** A callable that returns a plain result, or one that returns a task. */
  datatype Action = Plain(call: Outcome -> Outcome) | Unwrapping(open: Outcome -> Reply)

  /** A callable with the answer its cancellation token gives throughout the run. */
  datatype Body = Body(takesExpected: bool, cancelled: bool, action: Action)

  datatype Def =
    | Source(value: Outcome)
    | Make(body: Body)
    | Then(on: Name, body: Body)

  type Program = Name -> Def

  ghost predicate Unwraps(prog: Program, n: Name) {
    !prog(n).Source? && prog(n).body.action.Unwrapping?
  }

  /** The payload behind the task object the user holds for n. */
  ghost function HandleOf(prog: Program, n: Name): Pid {
    if Unwraps(prog, n) then StandIn(n) else Run(n)
  }

  /** input_output_wrapper followed by output_wrapper. */
  function Invoke(body: Body, input: Outcome): Outcome {
    if !body.takesExpected && input.Failed? then Failed(input.e)
    else if body.cancelled then Failed(OperationCanceled)
    else
      match body.action
      case Plain(call) => call(input)
      case Unwrapping(open) =>
        match open(input)
        case Refused(e) => Failed(e)
        case Returned(t) => Handle(t)
  }

  /** The recursive evaluator: None when the fuel is too small for the dependencies of p. */
  ghost function Eval(prog: Program, p: Pid, fuel: nat): Option<Outcome>
    decreases fuel
  {
    if fuel == 0 then None else
    match p
    case Run(n) =>
      (match prog(n)
       case Source(v) => Some(v)
       case Make(body) => Some(Invoke(body, VALID))
       case Then(m, body) =>
         var input := Eval(prog, HandleOf(prog, m), fuel - 1);
         if input.None? then None else Some(Invoke(body, input.value)))
    case StandIn(n) =>
      if !Unwraps(prog, n) then None else
      var inner := Eval(prog, Run(n), fuel - 1);
      if inner.None? then None
      else (match inner.value
            case Handle(t) => Eval(prog, HandleOf(prog, t), fuel - 1)
            case Failed(e) => Some(Failed(e))
            case Value(_) => None)
    case Unwrapper(n) =>
      if !Unwraps(prog, n) then None else
      var inner := Eval(prog, Run(n), fuel - 1);
      if inner.None? then None else Some(VALID)
  }

  /** v is the value of payload p. */
  ghost predicate Means(prog: Program, p: Pid, v: Outcome) {
    exists fuel: nat :: Eval(prog, p, fuel) == Some(v)
  }

  ghost predicate Defined(prog: Program, p: Pid) {
    exists fuel: nat :: Eval(prog, p, fuel).Some?
  }

  lemma {:induction false} EvalMonotone(prog: Program, p: Pid, low: nat, high: nat)
    requires low <= high && Eval(prog, p, low).Some?
    ensures Eval(prog, p, high) == Eval(prog, p, low)
    decreases low
  {
    match p
    case Run(n) =>
      if prog(n).Then? {
        EvalMonotone(prog, HandleOf(prog, prog(n).on), low - 1, high - 1);
      }
    case StandIn(n) =>
      EvalMonotone(prog, Run(n), low - 1, high - 1);
      var inner := Eval(prog, Run(n), low - 1).value;
      if inner.Handle? {
        EvalMonotone(prog, HandleOf(prog, inner.t), low - 1, high - 1);
      }
    case Unwrapper(n) =>
      EvalMonotone(prog, Run(n), low - 1, high - 1);
  }

  /** A payload has at most one value. */
  lemma MeaningUnique(prog: Program, p: Pid, v: Outcome, w: Outcome)
    requires Means(prog, p, v) && Means(prog, p, w)
    ensures v == w
  {
    var f: nat :| Eval(prog, p, f) == Some(v);
    var g: nat :| Eval(prog, p, g) == Some(w);
    if f <= g { EvalMonotone(prog, p, f, g); } else { EvalMonotone(prog, p, g, f); }
  }

  // --- introduction rules for Means, one per kind of payload -------------------------

  lemma MeansSource(prog: Program, n: Name)
    requires prog(n).Source?
    ensures Means(prog, Run(n), prog(n).value)
  {
    assert Eval(prog, Run(n), 1) == Some(prog(n).value);
  }

  lemma MeansMake(prog: Program, n: Name)
    requires prog(n).Make?
    ensures Means(prog, Run(n), Invoke(prog(n).body, VALID))
  {
    assert Eval(prog, Run(n), 1) == Some(Invoke(prog(n).body, VALID));
  }

  lemma MeansThen(prog: Program, n: Name, input: Outcome)
    requires prog(n).Then? && Means(prog, HandleOf(prog, prog(n).on), input)
    ensures Means(prog, Run(n), Invoke(prog(n).body, input))
  {
    var f: nat :| Eval(prog, HandleOf(prog, prog(n).on), f) == Some(input);
    assert Eval(prog, Run(n), f + 1) == Some(Invoke(prog(n).body, input));
  }

  /**
    The value a callable gives, test by test: a value-taking one passes an error of its input
    on, whatever its token says; then a cancelled token refuses; then the callable runs.
    */
  ghost predicate MeansCalled(prog: Program, n: Name, input: Outcome)
    requires !prog(n).Source?
  {
    var body := prog(n).body;
    var passesOn := !body.takesExpected && input.Failed?;
    && (passesOn ==> Means(prog, Run(n), Failed(input.e)))
    && (!passesOn && body.cancelled ==> Means(prog, Run(n), Failed(OperationCanceled)))
    && (!passesOn && !body.cancelled ==>
          match body.action
          case Plain(call) => Means(prog, Run(n), call(input))
          case Unwrapping(open) =>
            (match open(input)
             case Refused(e) => Means(prog, Run(n), Failed(e))
             case Returned(t) => Means(prog, Run(n), Handle(t))))
  }

  lemma ThenCalled(prog: Program, n: Name, input: Outcome)
    requires prog(n).Then? && Means(prog, HandleOf(prog, prog(n).on), input)
    ensures MeansCalled(prog, n, input)
  {
    MeansThen(prog, n, input);
  }

  lemma MakeCalled(prog: Program, n: Name)
    requires prog(n).Make?
    ensures MeansCalled(prog, n, VALID)
  {
    MeansMake(prog, n);
  }

  lemma MeansUnwrapper(prog: Program, n: Name, inner: Outcome)
    requires Unwraps(prog, n) && Means(prog, Run(n), inner)
    ensures Means(prog, Unwrapper(n), VALID)
  {
    var f: nat :| Eval(prog, Run(n), f) == Some(inner);
    assert Eval(prog, Unwrapper(n), f + 1) == Some(VALID);
  }

  lemma MeansStandInFailed(prog: Program, n: Name, e: Error)
    requires Unwraps(prog, n) && Means(prog, Run(n), Failed(e))
    ensures Means(prog, StandIn(n), Failed(e))
  {
    var f: nat :| Eval(prog, Run(n), f) == Some(Failed(e));
    assert Eval(prog, StandIn(n), f + 1) == Some(Failed(e));
  }

  /** A returned task is replaced by its own value. */
  lemma MeansStandInHandle(prog: Program, n: Name, t: Name, v: Outcome)
    requires Unwraps(prog, n) && Means(prog, Run(n), Handle(t))
    requires Means(prog, HandleOf(prog, t), v)
    ensures Means(prog, StandIn(n), v)
  {
    var f: nat :| Eval(prog, Run(n), f) == Some(Handle(t));
    var g: nat :| Eval(prog, HandleOf(prog, t), g) == Some(v);
    var m := if f <= g then g else f;
    EvalMonotone(prog, Run(n), f, m);
    EvalMonotone(prog, HandleOf(prog, t), g, m);
    assert Eval(prog, StandIn(n), m + 1) == Some(v);
  }

  /** The callable of an unwrapping task never leaves a plain value in its payload. */
  lemma UnwrappingNeverPlain(prog: Program, n: Name, v: Outcome)
    requires Unwraps(prog, n) && Means(prog, Run(n), v)
    ensures !v.Value?
  {
  }

  /** The same for the task that the caller of make_task or then is given: a returned task stands for its own value. */
  ghost predicate HoldsCalled(prog: Program, n: Name, input: Outcome)
    requires !prog(n).Source?
  {
    var body := prog(n).body;
    var passesOn := !body.takesExpected && input.Failed?;
    var held := HandleOf(prog, n);
    && (passesOn ==> Means(prog, held, Failed(input.e)))
    && (!passesOn && body.cancelled ==> Means(prog, held, Failed(OperationCanceled)))
    && (!passesOn && !body.cancelled ==>
          match body.action
          case Plain(call) => Means(prog, held, call(input))
          case Unwrapping(open) =>
            (match open(input)
             case Refused(e) => Means(prog, held, Failed(e))
             case Returned(t) => forall v :: Means(prog, HandleOf(prog, t), v) ==> Means(prog, held, v)))
  }

  lemma HeldFromCalled(prog: Program, n: Name, input: Outcome)
    requires !prog(n).Source? && MeansCalled(prog, n, input)
    ensures HoldsCalled(prog, n, input)
  {
    if Unwraps(prog, n) {
      forall e | Means(prog, Run(n), Failed(e))
        ensures Means(prog, StandIn(n), Failed(e))
      {
        MeansStandInFailed(prog, n, e);
      }
      forall t, v | Means(prog, Run(n), Handle(t)) && Means(prog, HandleOf(prog, t), v)
        ensures Means(prog, StandIn(n), v)
      {
        MeansStandInHandle(prog, n, t, v);
      }
    }
  }

  lemma ThenHolds(prog: Program, n: Name, input: Outcome)
    requires prog(n).Then? && Means(prog, HandleOf(prog, prog(n).on), input)
    ensures HoldsCalled(prog, n, input)
  {
    ThenCalled(prog, n, input);
    HeldFromCalled(prog, n, input);
  }

  lemma MakeHolds(prog: Program, n: Name)
    requires prog(n).Make?
    ensures HoldsCalled(prog, n, VALID)
  {
    MakeCalled(prog, n);
    HeldFromCalled(prog, n, VALID);
  }

  lemma SourceHolds(prog: Program, n: Name)
    requires prog(n).Source?
    ensures Means(prog, HandleOf(prog, n), prog(n).value)
  {
    MeansSource(prog, n);
  }

  /** Sources and plain callables deal in values and errors; only an unwrapping callable returns a task. */
  ghost predicate Flat(prog: Program) {
    forall n: Name ::
      match prog(n)
      case Source(v) => !v.Handle?
      case Make(body) => FlatBody(body)
      case Then(_, body) => FlatBody(body)
  }

  ghost predicate FlatBody(body: Body) {
    body.action.Plain? ==> forall x: Outcome :: !x.Handle? ==> !body.action.call(x).Handle?
  }

  /** Then no task anyone holds has a task for its value, however deep the returned tasks nest. */
  lemma {:induction false} NeverATask(prog: Program, n: Name, fuel: nat, v: Outcome)
    requires Flat(prog) && Eval(prog, HandleOf(prog, n), fuel) == Some(v)
    ensures !v.Handle?
    decreases fuel
  {
    if Unwraps(prog, n) {
      var inner := Eval(prog, Run(n), fuel - 1).value;
      if inner.Handle? { NeverATask(prog, inner.t, fuel - 1, v); }
    } else if prog(n).Then? {
      var m := prog(n).on;
      NeverATask(prog, m, fuel - 1, Eval(prog, HandleOf(prog, m), fuel - 1).value);
    }
  }

  // --- programs in which no task waits on itself ----------------------------------------

  ghost predicate IsPart(prog: Program, p: Pid) {
    p.Run? || Unwraps(prog, p.n)
  }

  /**
    Every payload ranks above what it waits for: a continuation above the task it is
    attached to, a stand-in above the callable's payload and above the task returned.
    */
  ghost predicate Grounded(prog: Program, rank: Pid -> nat) {
    forall n: Name ::
      && (prog(n).Then? ==> rank(HandleOf(prog, prog(n).on)) < rank(Run(n)))
      && (Unwraps(prog, n) ==>
            && rank(Run(n)) < rank(StandIn(n)) && rank(Run(n)) < rank(Unwrapper(n))
            && forall t :: Means(prog, Run(n), Handle(t)) ==> rank(HandleOf(prog, t)) < rank(StandIn(n)))
  }

  /** A stand-in is defined when the callable is, and with it the task it returned. */
  lemma StandInDefined(prog: Program, rank: Pid -> nat, n: Name)
    requires Grounded(prog, rank) && Unwraps(prog, n) && rank(StandIn(n)) > 0
    requires Eval(prog, Run(n), rank(StandIn(n))).Some?
    requires var inner := Eval(prog, Run(n), rank(StandIn(n))).value;
             inner.Handle? ==> Eval(prog, HandleOf(prog, inner.t), rank(StandIn(n))).Some?
    ensures Eval(prog, StandIn(n), rank(StandIn(n)) + 1).Some?
  {
    var inner := Eval(prog, Run(n), rank(StandIn(n))).value;
    assert Means(prog, Run(n), inner);
    UnwrappingNeverPlain(prog, n, inner);
  }

  lemma {:induction false} GroundedDefined(prog: Program, rank: Pid -> nat, p: Pid)
    requires Grounded(prog, rank) && IsPart(prog, p)
    ensures Eval(prog, p, rank(p) + 1).Some?
    decreases rank(p)
  {
    var n := p.n;
    if p.Run? {
      if prog(n).Then? {
        var m := HandleOf(prog, prog(n).on);
        GroundedDefined(prog, rank, m);
        EvalMonotone(prog, m, rank(m) + 1, rank(p));
      }
    } else {
      GroundedDefined(prog, rank, Run(n));
      EvalMonotone(prog, Run(n), rank(Run(n)) + 1, rank(p));
      if p.StandIn? {
        var inner := Eval(prog, Run(n), rank(p)).value;
        assert Means(prog, Run(n), inner);
        if inner.Handle? {
          var t := HandleOf(prog, inner.t);
          GroundedDefined(prog, rank, t);
          EvalMonotone(prog, t, rank(t) + 1, rank(p));
        }
        StandInDefined(prog, rank, n);
      } else {
        UnwrapperDefined(prog, n, rank(p));
      }
    }
  }

  lemma UnwrapperDefined(prog: Program, n: Name, fuel: nat)
    requires Unwraps(prog, n) && Eval(prog, Run(n), fuel).Some?
    ensures Eval(prog, Unwrapper(n), fuel + 1).Some?
  {
    assert Means(prog, Run(n), Eval(prog, Run(n), fuel).value);
    UnwrappingNeverPlain(prog, n, Eval(prog, Run(n), fuel).value);
  }

  /** The least fuel that gives p a value. */
  ghost function Depth(prog: Program, p: Pid): (k: nat)
    ensures Defined(prog, p) ==> k > 0 && Eval(prog, p, k).Some? && Eval(prog, p, k - 1).None?
  {
    if Defined(prog, p) then
      var fuel: nat :| Eval(prog, p, fuel).Some?;
      Least(prog, p, fuel)
    else 0
  }

  ghost function Least(prog: Program, p: Pid, fuel: nat): (k: nat)
    requires Eval(prog, p, fuel).Some?
    ensures k > 0 && Eval(prog, p, k).Some? && Eval(prog, p, k - 1).None?
  {
    if Eval(prog, p, fuel - 1).None? then fuel else Least(prog, p, fuel - 1)
  }

  /** What p waits for, evaluated in fewer steps, has a smaller depth. */
  lemma DepthBelow(prog: Program, p: Pid, fuel: nat)
    requires Eval(prog, p, fuel).Some?
    ensures Depth(prog, p) <= fuel
  {
    assert Defined(prog, p);
    if fuel < Depth(prog, p) {
      EvalMonotone(prog, p, fuel, Depth(prog, p) - 1);
    }
  }

  lemma DepthGrounds(prog: Program, n: Name)
    requires forall p :: IsPart(prog, p) ==> Defined(prog, p)
    ensures prog(n).Then? ==> Depth(prog, HandleOf(prog, prog(n).on)) < Depth(prog, Run(n))
    ensures Unwraps(prog, n) ==> Depth(prog, Run(n)) < Depth(prog, StandIn(n)) && Depth(prog, Run(n)) < Depth(prog, Unwrapper(n))
    ensures Unwraps(prog, n) ==>
              forall t :: Means(prog, Run(n), Handle(t)) ==> Depth(prog, HandleOf(prog, t)) < Depth(prog, StandIn(n))
  {
    assert Defined(prog, Run(n));
    if prog(n).Then? {
      DepthBelow(prog, HandleOf(prog, prog(n).on), Depth(prog, Run(n)) - 1);
    }
    if Unwraps(prog, n) {
      assert Defined(prog, StandIn(n)) && Defined(prog, Unwrapper(n));
      var d := Depth(prog, StandIn(n));
      DepthBelow(prog, Run(n), d - 1);
      DepthBelow(prog, Run(n), Depth(prog, Unwrapper(n)) - 1);
      forall t | Means(prog, Run(n), Handle(t))
        ensures Depth(prog, HandleOf(prog, t)) < d
      {
        assert Means(prog, Run(n), Eval(prog, Run(n), d - 1).value);
        MeaningUnique(prog, Run(n), Handle(t), Eval(prog, Run(n), d - 1).value);
        DepthBelow(prog, HandleOf(prog, t), d - 1);
      }
    }
  }

  /** Every task of a program has a value exactly when no task waits on itself. */
  lemma GroundedExactly(prog: Program)
    ensures (exists rank: Pid -> nat :: Grounded(prog, rank)) <==> (forall p :: IsPart(prog, p) ==> Defined(prog, p))
  {
    if rank: Pid -> nat :| Grounded(prog, rank) {
      forall p | IsPart(prog, p)
        ensures Defined(prog, p)
      {
        GroundedDefined(prog, rank, p);
      }
    }
    if forall p :: IsPart(prog, p) ==> Defined(prog, p) {
      DepthRanks(prog, p => Depth(prog, p));
    }
  }

  lemma DepthRanks(prog: Program, rank: Pid -> nat)
    requires forall p :: IsPart(prog, p) ==> Defined(prog, p)
    requires forall p :: rank(p) == Depth(prog, p)
    ensures Grounded(prog, rank)
  {
    forall n: Name
      ensures prog(n).Then? ==> rank(HandleOf(prog, prog(n).on)) < rank(Run(n))
      ensures Unwraps(prog, n) ==>
                && rank(Run(n)) < rank(StandIn(n)) && rank(Run(n)) < rank(Unwrapper(n))
                && forall t :: Means(prog, Run(n), Handle(t)) ==> rank(HandleOf(prog, t)) < rank(StandIn(n))
    {
      DepthGrounds(prog, n);
    }
  }
}
