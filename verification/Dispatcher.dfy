/** dispatcher: work queued from any thread and run in ticks. */
module Dispatcher {
  import opened Wrappers
  import BQ = BlockingQueue

  type Work = nat

  /** Everything the given work queues while it runs, in order. */
  function Spawned(ws: seq<Work>, spawns: Work -> seq<Work>): seq<Work> {
    if ws == [] then [] else Spawned(ws[..|ws| - 1], spawns) + spawns(ws[|ws| - 1])
  }

  lemma {:induction false} SpawnedParts(a: seq<Work>, b: seq<Work>, spawns: Work -> seq<Work>)
    ensures Spawned(a + b, spawns) == Spawned(a, spawns) + Spawned(b, spawns)
    ensures forall w :: Spawned([w], spawns) == spawns(w)
    decreases |b|
  {
    forall w
      ensures Spawned([w], spawns) == spawns(w)
    {
      assert [w][..0] == [];
    }
    if b == [] {
      assert a + b == a;
    } else {
      var last := |b| - 1;
      SpawnedParts(a, b[..last], spawns);
      assert (a + b)[..|a + b| - 1] == a + b[..last];
    }
  }

  lemma LatestOnce(s: seq<Work>, more: seq<Work>, max: nat)
    ensures BQ.Latest(BQ.Latest(s, max) + more, max) == BQ.Latest(s + more, max)
  {
  }

  lemma LatestNext(before: seq<Work>, more: seq<Work>, j: nat, max: nat)
    requires j < |more|
    ensures BQ.Latest(BQ.Latest(before + more[..j], max) + [more[j]], max) == BQ.Latest(before + more[..j + 1], max)
  {
    LatestOnce(before + more[..j], [more[j]], max);
    assert before + more[..j + 1] == before + more[..j] + [more[j]];
  }

  /** What has been queued after one more piece of work has run. */
  lemma SpawnedNext(ws: seq<Work>, i: nat, spawns: Work -> seq<Work>, max: nat)
    requires i < |ws|
    ensures ws[..i + 1] == ws[..i] + [ws[i]]
    ensures BQ.Latest(BQ.Latest(Spawned(ws[..i], spawns), max) + spawns(ws[i]), max)
         == BQ.Latest(Spawned(ws[..i + 1], spawns), max)
  {
    assert ws[..i + 1][..i] == ws[..i];
    LatestOnce(Spawned(ws[..i], spawns), spawns(ws[i]), max);
  }

  class Dispatcher {
    const work: BQ.BlockingConcurrentQueue<Work>
    var workload: seq<Work>

    ghost predicate Valid() reads this, work { workload == [] && |work.data| <= work.maxSize }

    constructor (maxSize: nat)
      ensures Valid() && fresh(work) && work.data == [] && work.maxSize == maxSize
    {
      work := new BQ.BlockingConcurrentQueue<Work>(maxSize);
      workload := [];
    }

    method Queue(w: Work)
      requires Valid()
      modifies work
      ensures Valid() && work.data == BQ.Latest(old(work.data) + [w], work.maxSize)
    {
      var _ := work.Push(w);
    }

    /** Running w, which queues spawns(w) on this dispatcher. */
    method Run(w: Work, spawns: Work -> seq<Work>)
      requires |work.data| <= work.maxSize
      modifies work
      ensures |work.data| <= work.maxSize && work.data == BQ.Latest(old(work.data) + spawns(w), work.maxSize)
    {
      var children := spawns(w);
      ghost var before := work.data;
      assert before + children[..0] == before;
      for j := 0 to |children|
        invariant |work.data| <= work.maxSize && work.data == BQ.Latest(before + children[..j], work.maxSize)
      {
        LatestNext(before, children, j, work.maxSize);
        var _ := work.Push(children[j]);
      }
      assert children[..|children|] == children;
    }

    /**
      internal_tick, where running w queues spawns(w) on this dispatcher: it runs what was
      queued when it began, in order, and what that queued is left for the next tick.
      */
    method Tick(cancelled: bool, spawns: Work -> seq<Work>) returns (ran: bool, log: seq<Work>)
      requires Valid()
      modifies this, work
      ensures Valid() && ran == (old(work.data) != [] && !cancelled)
      ensures if ran then log == old(work.data) && work.data == BQ.Latest(Spawned(log, spawns), work.maxSize)
              else log == [] && work.data == old(work.data)
    {
      log := [];
      ran, workload := work.TakeAll(workload, cancelled);
      if !ran {
        return;
      }
      for i := 0 to |workload|
        invariant workload == old(work.data) && log == workload[..i]
        invariant |work.data| <= work.maxSize
        invariant work.data == BQ.Latest(Spawned(workload[..i], spawns), work.maxSize)
      {
        SpawnedNext(workload, i, spawns, work.maxSize);
        log := log + [workload[i]];
        Run(workload[i], spawns);
      }
      assert workload[..|workload|] == workload;
      workload := [];
    }
  }

  // --- ticks with work queued at any time, by callbacks or other threads -------------------

  datatype World = World(
    queued: seq<Work>,
    workload: seq<Work>,
    index: nat,                  // the loop over m_workload
    ticking: bool,
    pushed: seq<Work>,           // everything ever queued
    executed: seq<Work>,
    executedIn: seq<nat>,        // the tick that ran each
    drains: seq<nat>)            // how much had been queued when each tick drained

  const INITIAL := World([], [], 0, false, [], [], [], [])

  datatype Step = Queue(w: Work) | Begin | RunNext | End

  predicate Enabled(s: World, step: Step) {
    match step
    case Queue(_) => true
    case Begin => !s.ticking && s.queued != []
    case RunNext => s.ticking && s.index < |s.workload| && s.drains != []
    case End => s.ticking && s.index >= |s.workload|
  }

  function Do(s: World, step: Step): World
    requires Enabled(s, step)
  {
    match step
    case Queue(w) => s.(queued := s.queued + [w], pushed := s.pushed + [w])
    case Begin =>
      s.(workload := s.workload + s.queued, queued := [], index := 0, ticking := true, drains := s.drains + [|s.pushed|])
    case RunNext =>
      s.(index := s.index + 1, executed := s.executed + [s.workload[s.index]],
         executedIn := s.executedIn + [|s.drains| - 1])
    case End => s.(workload := [], index := 0, ticking := false)
  }

  function After(steps: seq<Step>): Option<World> {
    if steps == [] then Some(INITIAL) else
    var last := |steps| - 1;
    var s := After(steps[..last]);
    if s.Some? && Enabled(s.value, steps[last]) then Some(Do(s.value, steps[last])) else None
  }

  /** How much had been queued when the tick before t drained. */
  function DrainedBefore(s: World, t: nat): nat
    requires t <= |s.drains|
  {
    if t == 0 then 0 else s.drains[t - 1]
  }

  ghost predicate Inv(s: World) {
    && s.index <= |s.workload| && (!s.ticking ==> s.workload == [])
    && s.executed + s.workload[s.index..] + s.queued == s.pushed
    && |s.executedIn| == |s.executed|
    && DrainedBefore(s, |s.drains|) == |s.executed| + (|s.workload| - s.index)
    && (s.ticking ==> s.drains != [] && DrainedBefore(s, |s.drains| - 1) <= |s.executed|)
    && (forall t :: 0 <= t < |s.drains| ==> DrainedBefore(s, t) <= s.drains[t])
    && (forall i :: 0 <= i < |s.executed| ==>
          s.executedIn[i] < |s.drains| && DrainedBefore(s, s.executedIn[i]) <= i < s.drains[s.executedIn[i]])
  }

  lemma QueueKeeps(s: World, w: Work)
    requires Inv(s)
    ensures Inv(Do(s, Queue(w)))
  {
    var t := Do(s, Queue(w));
    assert forall k :: 0 <= k <= |s.drains| ==> DrainedBefore(t, k) == DrainedBefore(s, k);
  }

  lemma BeginKeeps(s: World)
    requires Inv(s) && Enabled(s, Begin)
    ensures Inv(Do(s, Begin))
  {
    var t := Do(s, Begin);
    assert t.workload == s.queued && s.workload[s.index..] == [];
    assert |s.pushed| == |s.executed| + |s.queued|;
    assert forall k :: 0 <= k <= |s.drains| ==> DrainedBefore(t, k) == DrainedBefore(s, k);
    assert DrainedBefore(t, |t.drains|) == |s.pushed|;
    assert t.drains[|s.drains|] == |s.pushed|;
  }

  lemma Moved(executed: seq<Work>, workload: seq<Work>, k: nat)
    requires k < |workload|
    ensures executed + [workload[k]] + workload[k + 1..] == executed + workload[k..]
  {
    assert workload[k..] == [workload[k]] + workload[k + 1..];
  }

  lemma RunNextKeeps(s: World)
    requires Inv(s) && Enabled(s, RunNext)
    ensures Inv(Do(s, RunNext))
  {
    var t := Do(s, RunNext);
    Moved(s.executed, s.workload, s.index);
    assert forall k :: 0 <= k <= |s.drains| ==> DrainedBefore(t, k) == DrainedBefore(s, k);
  }

  lemma EndKeeps(s: World)
    requires Inv(s) && Enabled(s, End)
    ensures Inv(Do(s, End))
  {
    var t := Do(s, End);
    assert s.workload[s.index..] == [] && t.workload[t.index..] == [];
    assert forall k :: 0 <= k <= |s.drains| ==> DrainedBefore(t, k) == DrainedBefore(s, k);
  }

  lemma StepKeeps(s: World, step: Step)
    requires Inv(s) && Enabled(s, step)
    ensures Inv(Do(s, step))
  {
    match step
    case Queue(w) => QueueKeeps(s, w);
    case Begin => BeginKeeps(s);
    case RunNext => RunNextKeeps(s);
    case End => EndKeeps(s);
  }

  lemma {:induction false} AfterInv(steps: seq<Step>)
    requires After(steps).Some?
    ensures Inv(After(steps).value)
  {
    if steps != [] {
      var last := |steps| - 1;
      AfterInv(steps[..last]);
      StepKeeps(After(steps[..last]).value, steps[last]);
    }
  }

  /**
    Work runs in the order it was queued, none twice and none skipped; and a tick runs
    exactly what was queued after the previous tick drained and before it did itself.
    */
  lemma TickGenerations(steps: seq<Step>)
    requires After(steps).Some?
    ensures var s := After(steps).value;
            && s.index <= |s.workload| && s.executed + s.workload[s.index..] + s.queued == s.pushed
            && |s.executedIn| == |s.executed|
            && (forall i :: 0 <= i < |s.executed| ==>
                  s.executedIn[i] < |s.drains| && DrainedBefore(s, s.executedIn[i]) <= i < s.drains[s.executedIn[i]])
            && (!s.ticking ==> |s.executed| == DrainedBefore(s, |s.drains|))
  {
    AfterInv(steps);
  }

  // --- what the schedule says ------------------------------------------------------------------

  /** The work queued, in order. */
  function Queued(steps: seq<Step>): seq<Work> {
    if steps == [] then [] else
    var last := |steps| - 1;
    Queued(steps[..last]) + if steps[last].Queue? then [steps[last].w] else []
  }

  function Begins(steps: seq<Step>): nat {
    if steps == [] then 0 else
    var last := |steps| - 1;
    Begins(steps[..last]) + if steps[last].Begin? then 1 else 0
  }

  function Runs(steps: seq<Step>): nat {
    if steps == [] then 0 else
    var last := |steps| - 1;
    Runs(steps[..last]) + if steps[last].RunNext? then 1 else 0
  }

  /** Tick t began at step k, with that much queued before. */
  ghost predicate BeganAt(steps: seq<Step>, k: nat, t: nat, drained: nat)
    requires k < |steps|
  {
    steps[k] == Begin && Begins(steps[..k]) == t && |Queued(steps[..k])| == drained
  }

  /** The i-th run was step k, in tick t. */
  ghost predicate RanAt(steps: seq<Step>, k: nat, i: nat, t: nat)
    requires k < |steps|
  {
    steps[k] == RunNext && Runs(steps[..k]) == i && Begins(steps[..k]) == t + 1
  }

  ghost predicate Began(steps: seq<Step>, t: nat, drained: nat) {
    exists k: nat :: k < |steps| && BeganAt(steps, k, t, drained)
  }

  ghost predicate Ran(steps: seq<Step>, i: nat, t: nat) {
    exists k: nat :: k < |steps| && RanAt(steps, k, i, t)
  }

  ghost predicate Anchored(steps: seq<Step>, s: World) {
    && s.pushed == Queued(steps) && |s.drains| == Begins(steps)
    && |s.executed| == |s.executedIn| == Runs(steps)
    && (forall t: nat :: t < |s.drains| ==> Began(steps, t, s.drains[t]))
    && (forall i: nat :: i < |s.executed| ==> Ran(steps, i, s.executedIn[i]))
  }

  lemma BeganStill(steps: seq<Step>, t: nat, drained: nat)
    requires steps != [] && Began(steps[..|steps| - 1], t, drained)
    ensures Began(steps, t, drained)
  {
    var before := steps[..|steps| - 1];
    var k: nat :| k < |before| && BeganAt(before, k, t, drained);
    assert before[..k] == steps[..k];
    assert BeganAt(steps, k, t, drained);
  }

  lemma RanStill(steps: seq<Step>, i: nat, t: nat)
    requires steps != [] && Ran(steps[..|steps| - 1], i, t)
    ensures Ran(steps, i, t)
  {
    var before := steps[..|steps| - 1];
    var k: nat :| k < |before| && RanAt(before, k, i, t);
    assert before[..k] == steps[..k];
    assert RanAt(steps, k, i, t);
  }

  lemma AnchoredOn(steps: seq<Step>, s: World)
    requires steps != [] && Anchored(steps[..|steps| - 1], s) && Enabled(s, steps[|steps| - 1])
    ensures Anchored(steps, Do(s, steps[|steps| - 1]))
  {
    var last := |steps| - 1;
    var t := Do(s, steps[last]);
    forall i: nat | i < |t.drains|
      ensures Began(steps, i, t.drains[i])
    {
      if i < |s.drains| { BeganStill(steps, i, s.drains[i]); } else { assert BeganAt(steps, last, i, t.drains[i]); }
    }
    forall i: nat | i < |t.executed|
      ensures Ran(steps, i, t.executedIn[i])
    {
      if i < |s.executed| { RanStill(steps, i, s.executedIn[i]); } else { assert RanAt(steps, last, i, t.executedIn[i]); }
    }
  }

  /**
    The dispatcher's history is the schedule's: what was queued, how much before each tick
    began, and in which tick each piece was run.
    */
  lemma {:induction false} DispatchBySteps(steps: seq<Step>)
    requires After(steps).Some?
    ensures Anchored(steps, After(steps).value)
  {
    if steps != [] {
      DispatchBySteps(steps[..|steps| - 1]);
      AnchoredOn(steps, After(steps[..|steps| - 1]).value);
    }
  }

  /** The i-th run is of the i-th work queued. */
  lemma RunsInOrder(steps: seq<Step>)
    requires After(steps).Some?
    ensures Runs(steps) <= |Queued(steps)| && After(steps).value.executed == Queued(steps)[..Runs(steps)]
  {
    DispatchBySteps(steps);
    AfterInv(steps);
  }
}
