/** blocking_concurrent_queue: a bounded queue behind a mutex, with a condition variable for its consumer. */
module BlockingQueue {
  import opened Wrappers
  import opened Sequences

  /** The last max elements: the oldest are dropped. */
  function Latest<T>(s: seq<T>, max: nat): (r: seq<T>)
    ensures |r| == if |s| <= max then |s| else max
  {
    if |s| <= max then s else s[|s| - max..]
  }

  lemma LatestIsTheEnd<T>(s: seq<T>, max: nat)
    ensures Latest(s, max) == s[|s| - |Latest(s, max)|..]
  {
  }

  /** What a consumer that finds elements is handed: all of them, or the oldest. */
  function Handed<T>(data: seq<T>, drain: bool): (r: seq<T>)
    requires data != []
    ensures 1 <= |r| <= |data| && r == data[..|r|]
  {
    if drain then data else [data[0]]
  }

  /** And what it leaves. */
  function Left<T>(data: seq<T>, drain: bool): seq<T>
    requires data != []
  {
    data[|Handed(data, drain)|..]
  }

  class BlockingConcurrentQueue<T> {
    const maxSize: nat
    var data: seq<T>

    constructor (maxSize: nat)
      ensures this.maxSize == maxSize && data == []
    {
      this.maxSize := maxSize;
      data := [];
    }

    /** The locked part of push; notify asks for a notify_one afterwards. */
    method Push(x: T) returns (notify: bool)
      requires |data| <= maxSize
      modifies this
      ensures |data| <= maxSize && data == Latest(old(data) + [x], maxSize)
      ensures notify == (old(data) == [])
    {
      notify := data == [];
      data := data + [x];
      ghost var all := data;
      while |data| > maxSize
        invariant |data| <= |all| && data == all[|all| - |data|..]
        invariant |all| <= maxSize ==> data == all
        invariant |all| > maxSize ==> |data| >= maxSize
        decreases |data|
      {
        data := data[1..];
      }
    }

    /** internal_pop once it no longer waits. */
    method TakeFront(cancelled: bool) returns (r: Option<T>)
      modifies this
      ensures if old(data) == [] || cancelled then r == None && data == old(data)
              else r == Some(old(data)[0]) && data == old(data)[1..]
      ensures r.Some? ==> [r.value] == Handed(old(data), false) && data == Left(old(data), false)
    {
      if data == [] || cancelled {
        return None;
      }
      r := Some(data[0]);
      data := data[1..];
    }

    /** internal_drain once it no longer waits. */
    method TakeAll(dest: seq<T>, cancelled: bool) returns (ok: bool, filled: seq<T>)
      modifies this
      ensures ok == !(old(data) == [] || cancelled)
      ensures if ok then filled == dest + old(data) && data == [] else filled == dest && data == old(data)
      ensures ok ==> old(data) == Handed(old(data), true) && data == Left(old(data), true)
    {
      filled := dest;
      if data == [] || cancelled {
        return false, dest;
      }
      ghost var was := data;
      while data != []
        invariant filled + data == dest + was
        decreases |data|
      {
        assert data == [data[0]] + data[1..];
        filled := filled + [data[0]];
        data := data[1..];
      }
      return true, filled;
    }

    method Clear()
      modifies this
      ensures data == []
    {
      data := [];
    }
  }

  // --- one consumer, any number of producers -------------------------------------------------

  /** Where the consumer is in blocking_pop or blocking_drain. */
  datatype Consumer =
    | Outside
    | Holding(drain: bool)         // has the mutex, about to test the loop condition
    | AboutToWait(drain: bool)     // has the mutex, found nothing, about to wait
    | Blocked(drain: bool)         // inside wait, mutex released
    | Woken(drain: bool)           // notified, about to take the mutex again

  datatype World<T> = World(
    max: nat,
    data: seq<T>,
    consumer: Consumer,
    cancelled: bool,
    owed: nat,                     // notifications of push and clear not yet made
    cancelOwed: bool,              // cancelled() is about to notify
    missed: bool,                  // cancelled() notified while the consumer was about to wait
    pushed: seq<T>,                // everything ever pushed
    got: seq<T>,                   // everything the consumer was handed
    taken: seq<nat>,               // the positions of that in pushed
    cleared: bool)

  function Initial<T>(max: nat): World<T> {
    World(max, [], Outside, false, 0, false, false, [], [], [], false)
  }

  datatype Step<T> =
    | Push(x: T)
    | Clear
    | Notify
    | Call(drain: bool)            // the consumer takes the mutex
    | Test                         // it tests, and leaves with what there is or goes on to wait
    | Wait
    | Spurious                     // wait returns without a notification
    | Reacquire
    | RequestCancel                // the token is set, without the mutex
    | CancelNotify                 // cancelled()

  predicate LockFree<T>(w: World<T>) {
    !w.consumer.Holding? && !w.consumer.AboutToWait?
  }

  predicate Enabled<T>(w: World<T>, step: Step<T>) {
    match step
    case Push(_) => LockFree(w)
    case Clear => LockFree(w)
    case Notify => w.owed > 0
    case Call(_) => w.consumer.Outside?
    case Test => w.consumer.Holding?
    case Wait => w.consumer.AboutToWait?
    case Spurious => w.consumer.Blocked?
    case Reacquire => w.consumer.Woken?
    case RequestCancel => true
    case CancelNotify => w.cancelOwed
  }

  function Wake(c: Consumer): Consumer {
    if c.Blocked? then Woken(c.drain) else c
  }

  /** Positions lo, lo + 1, ... up to hi. */
  function Positions(lo: nat, hi: nat): (r: seq<nat>)
    ensures |r| == (if lo <= hi then hi - lo else 0) && forall i :: 0 <= i < |r| ==> r[i] == lo + i
  {
    seq(if lo <= hi then hi - lo else 0, i requires 0 <= i => lo + i)
  }

  function Do<T>(w: World<T>, step: Step<T>): World<T>
    requires Enabled(w, step)
  {
    match step
    case Push(x) =>
      w.(data := Latest(w.data + [x], w.max), pushed := w.pushed + [x],
         owed := if w.data == [] then w.owed + 1 else w.owed)
    case Clear => w.(data := [], owed := w.owed + 1, cleared := true)
    case Notify => w.(owed := w.owed - 1, consumer := Wake(w.consumer))
    case Call(drain) => w.(consumer := Holding(drain))
    case Test =>
      if w.cancelled then w.(consumer := Outside)
      else if w.data == [] then w.(consumer := AboutToWait(w.consumer.drain))
      else
        var first := if |w.pushed| >= |w.data| then |w.pushed| - |w.data| else 0;
        var handed := Handed(w.data, w.consumer.drain);
        w.(consumer := Outside, data := Left(w.data, w.consumer.drain), got := w.got + handed,
           taken := w.taken + Positions(first, first + |handed|))
    case Wait => w.(consumer := Blocked(w.consumer.drain))
    case Spurious => w.(consumer := Wake(w.consumer))
    case Reacquire => w.(consumer := Holding(w.consumer.drain))
    case RequestCancel => w.(cancelled := true, cancelOwed := true)
    case CancelNotify =>
      w.(cancelOwed := false, consumer := Wake(w.consumer), missed := w.missed || w.consumer.AboutToWait?)
  }

  function After<T>(max: nat, steps: seq<Step<T>>): Option<World<T>> {
    if steps == [] then Some(Initial(max)) else
    var last := |steps| - 1;
    var w := After(max, steps[..last]);
    if w.Some? && Enabled(w.value, steps[last]) then Some(Do(w.value, steps[last])) else None
  }

  /** The elements at the given positions. */
  function Picked<T>(pushed: seq<T>, taken: seq<nat>): seq<T>
    requires forall i :: 0 <= i < |taken| ==> taken[i] < |pushed|
  {
    seq(|taken|, i requires 0 <= i < |taken| => pushed[taken[i]])
  }

  ghost predicate WakeupsOk<T>(w: World<T>) {
    && (w.consumer.AboutToWait? ==> w.data == [])
    && (w.consumer.Blocked? && w.data != [] ==> w.owed > 0)
    && (w.consumer.Blocked? && w.cancelled ==> w.cancelOwed || w.missed)
    && (w.consumer.AboutToWait? && w.cancelled ==> w.cancelOwed || w.missed)
    && (w.cancelOwed || w.missed ==> w.cancelled)
  }

  ghost predicate FifoOk<T>(w: World<T>) {
    && |w.data| <= w.max && |w.data| <= |w.pushed|
    && w.data == w.pushed[|w.pushed| - |w.data|..]
    && Increasing(w.taken)
    && (forall i :: 0 <= i < |w.taken| ==> w.taken[i] < |w.pushed| - |w.data|)
    && w.got == Picked(w.pushed, w.taken)
    && (|w.pushed| <= w.max && !w.cleared ==> w.taken == Positions(0, |w.pushed| - |w.data|))
  }

  lemma StepKeepsWakeups<T>(w: World<T>, step: Step<T>)
    requires WakeupsOk(w) && Enabled(w, step)
    ensures WakeupsOk(Do(w, step))
  {
  }

  lemma PushKeepsFifo<T>(w: World<T>, x: T)
    requires FifoOk(w) && Enabled(w, Push(x))
    ensures FifoOk(Do(w, Push(x)))
  {
    var v := Do(w, Push(x));
    assert w.data + [x] == v.pushed[|v.pushed| - |w.data| - 1..];
    assert v.data == v.pushed[|v.pushed| - |v.data|..];
    assert |v.pushed| <= v.max ==> |v.pushed| - |v.data| == |w.pushed| - |w.data|;
  }

  /** Taking the next positions keeps them increasing and complete. */
  lemma TakeMore(taken: seq<nat>, first: nat, next: nat)
    requires Increasing(taken) && first <= next && forall i :: 0 <= i < |taken| ==> taken[i] < first
    ensures var more := taken + Positions(first, next);
            && Increasing(more) && (forall i :: 0 <= i < |more| ==> more[i] < next)
            && (taken == Positions(0, first) ==> more == Positions(0, next))
  {
  }

  lemma DroppedMore<T>(pushed: seq<T>, first: nat, k: nat)
    requires first + k <= |pushed|
    ensures pushed[first..][k..] == pushed[first + k..]
  {
  }

  lemma PickedMore<T>(pushed: seq<T>, taken: seq<nat>, first: nat, k: nat)
    requires first + k <= |pushed| && forall i :: 0 <= i < |taken| ==> taken[i] < |pushed|
    ensures Picked(pushed, taken + Positions(first, first + k)) == Picked(pushed, taken) + pushed[first..][..k]
  {
  }

  /** The world after the consumer got the first k queued elements. */
  function Took<T>(w: World<T>, k: nat): World<T>
    requires k <= |w.data| <= |w.pushed|
  {
    var first := |w.pushed| - |w.data|;
    w.(consumer := Outside, data := w.data[k..], got := w.got + w.data[..k],
       taken := w.taken + Positions(first, first + k))
  }

  lemma TookKeepsFifo<T>(w: World<T>, k: nat)
    requires FifoOk(w) && k <= |w.data|
    ensures FifoOk(Took(w, k))
  {
    var first := |w.pushed| - |w.data|;
    TakeMore(w.taken, first, first + k);
    DroppedMore(w.pushed, first, k);
    PickedMore(w.pushed, w.taken, first, k);
  }

  lemma TestKeepsFifo<T>(w: World<T>)
    requires FifoOk(w) && Enabled(w, Test)
    ensures FifoOk(Do(w, Test))
  {
    if !w.cancelled && w.data != [] {
      TookKeepsFifo(w, |Handed(w.data, w.consumer.drain)|);
    }
  }

  lemma StepKeepsFifo<T>(w: World<T>, step: Step<T>)
    requires FifoOk(w) && Enabled(w, step)
    ensures FifoOk(Do(w, step))
  {
    match step
    case Push(x) => PushKeepsFifo(w, x);
    case Test => TestKeepsFifo(w);
    case _ =>
  }

  lemma {:induction false} AfterInv<T>(max: nat, steps: seq<Step<T>>)
    requires After(max, steps).Some?
    ensures WakeupsOk(After(max, steps).value) && FifoOk(After(max, steps).value) && After(max, steps).value.max == max
  {
    if steps != [] {
      var last := |steps| - 1;
      AfterInv(max, steps[..last]);
      StepKeepsWakeups(After(max, steps[..last]).value, steps[last]);
      StepKeepsFifo(After(max, steps[..last]).value, steps[last]);
    }
  }

  /** A consumer blocked on a queue that holds something is about to be woken by a producer. */
  lemma NoPushWakeupLost<T>(max: nat, steps: seq<Step<T>>)
    requires After(max, steps).Some?
    requires After(max, steps).value.consumer.Blocked? && After(max, steps).value.data != []
    ensures Enabled(After(max, steps).value, Notify) && Do(After(max, steps).value, Notify).consumer.Woken?
  {
    AfterInv(max, steps);
  }

  lemma TakenFirst<T>(pushed: seq<T>, taken: seq<nat>, n: nat)
    requires n <= |pushed| && taken == Positions(0, n)
    ensures Picked(pushed, taken) + pushed[n..] == pushed
  {
    assert Picked(pushed, taken) == pushed[..n];
  }

  /** The consumer was handed pushed elements, at increasing positions, and what is queued is the newest of the rest. */
  ghost predicate InPushOrder<T>(w: World<T>) {
    && |w.data| <= |w.pushed| && |w.got| == |w.taken| && Increasing(w.taken)
    && (forall i :: 0 <= i < |w.data| ==> w.data[i] == w.pushed[|w.pushed| - |w.data| + i])
    && (forall i :: 0 <= i < |w.taken| ==> w.taken[i] < |w.pushed| - |w.data| && w.got[i] == w.pushed[w.taken[i]])
  }

  /**
    The consumer gets elements in push order and none twice, and what is queued are the
    newest, in order; what it misses was dropped by the bound or by clear.
    */
  lemma Fifo<T>(max: nat, steps: seq<Step<T>>)
    requires After(max, steps).Some?
    ensures InPushOrder(After(max, steps).value)
  {
    AfterInv(max, steps);
  }

  /** With room for everything and no clear, what it was handed followed by what is queued is what was pushed. */
  lemma NothingDropped<T>(max: nat, steps: seq<Step<T>>)
    requires After(max, steps).Some?
    requires |After(max, steps).value.pushed| <= max && !After(max, steps).value.cleared
    ensures After(max, steps).value.got + After(max, steps).value.data == After(max, steps).value.pushed
  {
    AfterInv(max, steps);
    var w := After(max, steps).value;
    TakenFirst(w.pushed, w.taken, |w.pushed| - |w.data|);
  }

  /**
    A blocked consumer whose cancellation has been notified is left there exactly when a
    notification came between its test and its wait.
    */
  lemma CancelWakeupLostOnlyInWindow<T>(max: nat, steps: seq<Step<T>>)
    requires After(max, steps).Some?
    requires After(max, steps).value.consumer.Blocked? && !After(max, steps).value.cancelOwed
    ensures After(max, steps).value.cancelled <==> After(max, steps).value.missed
  {
    AfterInv(max, steps);
  }

  /** How many steps the consumer can take by itself. */
  function Ahead(c: Consumer): nat {
    match c
    case Outside => 0
    case Blocked(_) => 0
    case AboutToWait(_) => 1
    case Holding(_) => 2
    case Woken(_) => 3
  }

  /** The consumer going on by itself: nobody pushes or notifies, and its wait does not return of its own accord. */
  function Alone<T>(w: World<T>): World<T>
    decreases Ahead(w.consumer)
  {
    match w.consumer
    case Outside => w
    case Blocked(_) => w
    case AboutToWait(_) => Alone(Do(w, Wait))
    case Holding(_) => Alone(Do(w, Test))
    case Woken(_) => Alone(Do(w, Reacquire))
  }

  /**
    The notification of cancelled() gets the consumer out of its call, by its own steps alone,
    exactly when it does not come while the consumer is about to wait.
    */
  lemma {:induction false} CancelWakesExactly<T>(max: nat, steps: seq<Step<T>>)
    requires After(max, steps).Some? && Enabled(After(max, steps).value, CancelNotify)
    ensures var w := After(max, steps).value;
            Alone(Do(w, CancelNotify)).consumer.Outside? <==> !w.consumer.AboutToWait?
  {
    AfterInv(max, steps);
    var v := Do(After(max, steps).value, CancelNotify);
    assert v.cancelled;
    match v.consumer
    case Outside =>
    case Blocked(_) =>
    case AboutToWait(_) => assert Alone(v) == Alone(Do(v, Wait));
    case Holding(_) => assert Alone(v) == Alone(Do(v, Test));
    case Woken(_) =>
      var u := Do(v, Reacquire);
      assert Alone(v) == Alone(u) && Alone(u) == Alone(Do(u, Test));
  }

  const LOST_CANCEL: seq<Step<int>> := [Call(true), Test, RequestCancel, CancelNotify, Wait]

  /** And in that window it is lost: blocked for good, cancelled, with nobody left to notify. */
  lemma CancelWakeupCanBeLost(max: nat)
    ensures var w := After(max, LOST_CANCEL);
            && w.Some? && w.value.consumer.Blocked? && w.value.cancelled
            && w.value.owed == 0 && !w.value.cancelOwed && w.value.missed
  {
    assert LOST_CANCEL[..4][..3] == LOST_CANCEL[..3] && LOST_CANCEL[..3][..2] == LOST_CANCEL[..2];
    assert LOST_CANCEL[..2][..1] == LOST_CANCEL[..1] && LOST_CANCEL[..1][..0] == [];
    assert After(max, LOST_CANCEL[..1]).Some?;
    assert After(max, LOST_CANCEL[..2]).Some?;
    assert After(max, LOST_CANCEL[..3]).Some?;
    assert After(max, LOST_CANCEL[..4]).Some?;
  }

  // --- what the schedule says ------------------------------------------------------------------

  /** The elements of the pushes, in order. */
  function Pushes<T>(steps: seq<Step<T>>): seq<T> {
    if steps == [] then [] else
    var last := |steps| - 1;
    Pushes(steps[..last]) + if steps[last].Push? then [steps[last].x] else []
  }

  /** Whether the consumer's last call was a drain. */
  function LastCallDrains<T>(steps: seq<Step<T>>): Option<bool> {
    if steps == [] then None
    else if steps[|steps| - 1].Call? then Some(steps[|steps| - 1].drain)
    else LastCallDrains(steps[..|steps| - 1])
  }

  lemma StepHistory<T>(w: World<T>, step: Step<T>)
    requires Enabled(w, step)
    ensures var v := Do(w, step);
            && v.pushed == w.pushed + (if step.Push? then [step.x] else []) && v.max == w.max
            && (v.cleared <==> w.cleared || step.Clear?) && (v.cancelled <==> w.cancelled || step.RequestCancel?)
  {
  }

  /** A call goes on as what it began as. */
  lemma StepCall<T>(w: World<T>, step: Step<T>)
    requires Enabled(w, step) && !Do(w, step).consumer.Outside?
    ensures var c := Do(w, step).consumer;
            if step.Call? then c.drain == step.drain else !w.consumer.Outside? && c.drain == w.consumer.drain
  {
  }

  /** The queue's history is the schedule's. */
  lemma {:induction false} QueueBySteps<T>(max: nat, steps: seq<Step<T>>)
    requires After(max, steps).Some?
    ensures var w := After(max, steps).value;
            && w.pushed == Pushes(steps) && w.max == max
            && (w.cleared <==> Clear in steps) && (w.cancelled <==> RequestCancel in steps)
  {
    if steps != [] {
      var last := |steps| - 1;
      QueueBySteps(max, steps[..last]);
      StepHistory(After(max, steps[..last]).value, steps[last]);
      assert steps == steps[..last] + [steps[last]];
    }
  }

  lemma {:induction false} CallBySteps<T>(max: nat, steps: seq<Step<T>>)
    requires After(max, steps).Some? && !After(max, steps).value.consumer.Outside?
    ensures LastCallDrains(steps) == Some(After(max, steps).value.consumer.drain)
  {
    if steps != [] {
      var last := |steps| - 1;
      StepCall(After(max, steps[..last]).value, steps[last]);
      if !steps[last].Call? { CallBySteps(max, steps[..last]); }
    }
  }

  /**
    What a call comes back with: nothing when cancelled; else, once there is something, all of
    it for a drain and the oldest for a pop.  While there is nothing it goes on to wait.
    */
  lemma TestHands<T>(max: nat, steps: seq<Step<T>>)
    requires After(max, steps).Some? && Enabled(After(max, steps).value, Test)
    ensures LastCallDrains(steps).Some?
    ensures var w := After(max, steps).value;
            var v := Do(w, Test);
            if RequestCancel in steps then v == w.(consumer := Outside)
            else if w.data == [] then v.data == [] && v.got == w.got && v.consumer.AboutToWait?
            else
              && v.consumer.Outside?
              && if LastCallDrains(steps).value then v.got == w.got + w.data && v.data == []
                 else v.got == w.got + [w.data[0]] && v.data == w.data[1..]
  {
    CallBySteps(max, steps);
    QueueBySteps(max, steps);
  }

  /** How many elements were pushed since the queue was last cleared. */
  function PushesSinceClear<T>(steps: seq<Step<T>>): nat {
    if steps == [] || steps[|steps| - 1].Clear? then 0
    else PushesSinceClear(steps[..|steps| - 1]) + if steps[|steps| - 1].Push? then 1 else 0
  }

  lemma StepLength<T>(w: World<T>, step: Step<T>)
    requires Enabled(w, step)
    ensures |Do(w, step).data| <= if step.Clear? then 0 else if step.Push? then |w.data| + 1 else |w.data|
  {
  }

  /** Nothing pushed before a clear is queued, or handed to anyone, after it. */
  lemma {:induction false} ClearDrops<T>(max: nat, steps: seq<Step<T>>)
    requires After(max, steps).Some?
    ensures |After(max, steps).value.data| <= PushesSinceClear(steps)
  {
    if steps != [] {
      var before := steps[..|steps| - 1];
      ClearDrops(max, before);
      StepLength(After(max, before).value, steps[|steps| - 1]);
    }
  }

  /** A wakeup, called for or not, lets a blocked consumer go exactly when it is cancelled or something is queued. */
  lemma WakeupRetests<T>(w: World<T>, step: Step<T>)
    requires w.consumer.Blocked? && Enabled(w, step) && (step.Notify? || step.Spurious? || step.CancelNotify?)
    ensures Alone(Do(w, step)).consumer.Outside? <==> w.cancelled || w.data != []
    ensures !w.cancelled && w.data == [] ==> Alone(Do(w, step)).consumer == w.consumer
  {
    var v := Do(w, step);
    var u := Do(v, Reacquire);
    var t := Do(u, Test);
    assert Alone(v) == Alone(u) && Alone(u) == Alone(t);
    if t.consumer.AboutToWait? { assert Alone(t) == Alone(Do(t, Wait)); }
  }

  /** Clearing, and pushing to an empty queue, is followed by a notification. */
  lemma ChangesNotify<T>(w: World<T>, step: Step<T>)
    requires Enabled(w, step) && (step.Clear? || (step.Push? && w.data == []))
    ensures Enabled(Do(w, step), Notify) && Do(w, step).owed == w.owed + 1
  {
  }
}
