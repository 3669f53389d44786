/** The router's history is the schedule's: when listeners were registered and removed, and which fires are on the stack. */
module RouterHistory {
  import opened Wrappers
  import opened Sequences
  import opened Router
  import opened RouterInvariant
  import opened RouterTheorems

  /** The adds of the schedule, each with its event and its time. */
  function Adds(steps: seq<Step>): seq<(Event, nat)> {
    if steps == [] then [] else
    var last := |steps| - 1;
    Adds(steps[..last]) + if steps[last].Add? then [(steps[last].e, last)] else []
  }

  /** The events of the fires in progress, outermost first. */
  function Fires(steps: seq<Step>): seq<Event> {
    if steps == [] then [] else
    var last := |steps| - 1;
    var before := Fires(steps[..last]);
    match steps[last]
    case Fire(e) => before + [e]
    case Return => if before == [] then [] else before[..|before| - 1]
    case _ => before
  }

  /** Ids count adds, from the first id on, and each was registered for its add's event, at its time. */
  ghost predicate AddsOk(seed: Id, steps: seq<Step>, w: World) {
    && w.r.nextId == seed + |Adds(steps)|
    && (forall id: Id :: id in w.registered <==> seed <= id < w.r.nextId)
    && (forall id: Id :: id in w.registered ==> w.registered[id] == Adds(steps)[id - seed])
  }

  /** A listener counts as removed from the step that removed it. */
  ghost predicate RemovesOk(steps: seq<Step>, w: World) {
    forall id: Id :: id in w.removedAt ==>
      && w.removedAt[id] < |steps| && id in w.registered
      && steps[w.removedAt[id]] == Remove(w.registered[id].0, id)
  }

  /** The stack holds the fires in progress, and an active event's outermost fire is a step of it. */
  ghost predicate FiresOk(steps: seq<Step>, w: World) {
    && |w.stack| == |Fires(steps)|
    && (forall k :: 0 <= k < |w.stack| ==> w.stack[k].evt == Fires(steps)[k])
    && (forall e: Event :: e in w.outer ==> w.outer[e] < |steps| && steps[w.outer[e]] == Fire(e))
  }

  lemma AddsOn(seed: Id, steps: seq<Step>, w: World)
    requires steps != [] && AddsOk(seed, steps[..|steps| - 1], w) && w.clock == |steps| - 1
    requires Enabled(w, steps[|steps| - 1])
    ensures AddsOk(seed, steps, Do(w, steps[|steps| - 1]))
  {
    NextId(w, steps[|steps| - 1]);
  }

  lemma NextId(w: World, step: Step)
    requires Enabled(w, step)
    ensures var v := Do(w, step);
            && v.r.nextId == w.r.nextId + (if step.Add? then 1 else 0)
            && v.registered == (if step.Add? then w.registered[w.r.nextId := (step.e, w.clock)] else w.registered)
            && v.clock == w.clock + 1
  {
  }

  lemma RemovesOn(steps: seq<Step>, w: World)
    requires steps != [] && RemovesOk(steps[..|steps| - 1], w) && w.clock == |steps| - 1
    requires Inv(w) && Enabled(w, steps[|steps| - 1])
    ensures RemovesOk(steps, Do(w, steps[|steps| - 1]))
  {
    var last := |steps| - 1;
    var v := Do(w, steps[last]);
    forall id: Id | id in v.removedAt
      ensures v.removedAt[id] < |steps| && id in v.registered && steps[v.removedAt[id]] == Remove(v.registered[id].0, id)
    {
      if id in w.removedAt {
        StepHistoryKept(w, steps[last], id);
      } else {
        RemovedNow(w, steps[last], id);
      }
    }
  }

  lemma StepHistoryKept(w: World, step: Step, id: Id)
    requires ClocksOk(w) && Enabled(w, step) && id in w.removedAt
    ensures var v := Do(w, step);
            && id in v.removedAt && v.removedAt[id] == w.removedAt[id]
            && id in w.registered && id in v.registered && v.registered[id] == w.registered[id]
  {
  }

  lemma RemovedNow(w: World, step: Step, id: Id)
    requires GroupsOk(w) && Enabled(w, step) && id !in w.removedAt && id in Do(w, step).removedAt
    ensures var v := Do(w, step);
            && v.removedAt[id] == w.clock && step.Remove? && step.id == id
            && v.registered == w.registered && RegisteredFor(w, step.e, id)
  {
    var g := GroupOf(w.r, step.e);
    assert GroupOk(w, step.e, g);
    var k :| 0 <= k < |g.listeners| && Ids(g.listeners)[k] == id;
    assert ListenerOk(w, step.e, g.active, g.listeners[k]);
  }

  lemma FiresOn(steps: seq<Step>, w: World)
    requires steps != [] && FiresOk(steps[..|steps| - 1], w) && w.clock == |steps| - 1
    requires Enabled(w, steps[|steps| - 1])
    ensures FiresOk(steps, Do(w, steps[|steps| - 1]))
  {
    var last := |steps| - 1;
    var v := Do(w, steps[last]);
    forall e: Event | e in v.outer
      ensures v.outer[e] < |steps| && steps[v.outer[e]] == Fire(e)
    {
      if e in w.outer && v.outer[e] == w.outer[e] { assert steps[..last][w.outer[e]] == steps[w.outer[e]]; }
    }
  }

  /** All of it, in every reachable state. */
  lemma {:induction false} HistoryBySteps(seed: Id, steps: seq<Step>)
    requires After(seed, steps).Some?
    ensures var w := After(seed, steps).value;
            w.clock == |steps| && AddsOk(seed, steps, w) && RemovesOk(steps, w) && FiresOk(steps, w)
  {
    if steps != [] {
      var before := steps[..|steps| - 1];
      HistoryBySteps(seed, before);
      AfterInv(seed, before);
      var w := After(seed, before).value;
      AddsOn(seed, steps, w);
      RemovesOn(steps, w);
      FiresOn(steps, w);
      NextId(w, steps[|steps| - 1]);
    }
  }

  /** A sentry is active exactly when the schedule has a fire of its event that has not returned. */
  lemma SentryBySteps(seed: Id, steps: seq<Step>, e: Event)
    requires After(seed, steps).Some?
    ensures GroupOf(After(seed, steps).value.r, e).active <==> e in Fires(steps)
  {
    HistoryBySteps(seed, steps);
    SentryMatchesStack(seed, steps, e);
    var w := After(seed, steps).value;
    if OnStack(w.stack, e) {
      var k :| 0 <= k < |w.stack| && w.stack[k].evt == e;
      assert Fires(steps)[k] == e;
    }
    if e in Fires(steps) {
      var k :| 0 <= k < |Fires(steps)| && Fires(steps)[k] == e;
      assert w.stack[k].evt == e;
    }
  }

  /** The fire an active event counts from is its outermost: none was in progress at its step, and one has been ever since. */
  ghost predicate Outermost(steps: seq<Step>, e: Event, k: nat) {
    && k < |steps| && steps[k] == Fire(e) && e !in FiresAt(steps, k)
    && forall j: nat :: k < j <= |steps| ==> e in FiresAt(steps, j)
  }

  /** The fires in progress after the first j steps. */
  ghost function FiresAt(steps: seq<Step>, j: nat): seq<Event>
    requires j <= |steps|
  {
    Fires(steps[..j])
  }

  lemma FiresAtBefore(steps: seq<Step>, j: nat)
    requires j < |steps|
    ensures FiresAt(steps[..|steps| - 1], j) == FiresAt(steps, j)
  {
    assert steps[..|steps| - 1][..j] == steps[..j];
  }

  lemma FiresAtEnd(steps: seq<Step>)
    ensures FiresAt(steps, |steps|) == Fires(steps)
  {
    assert steps[..|steps|] == steps;
  }

  lemma StillOutermost(steps: seq<Step>, e: Event, k: nat)
    requires steps != [] && Outermost(steps[..|steps| - 1], e, k) && e in Fires(steps)
    ensures Outermost(steps, e, k)
  {
    FiresAtBefore(steps, k);
    forall j: nat | k < j <= |steps|
      ensures e in FiresAt(steps, j)
    {
      if j < |steps| {
        FiresAtBefore(steps, j);
        assert e in FiresAt(steps[..|steps| - 1], j);
      } else {
        FiresAtEnd(steps);
      }
    }
  }

  lemma NewlyOutermost(steps: seq<Step>, e: Event)
    requires steps != [] && steps[|steps| - 1] == Fire(e) && e !in Fires(steps[..|steps| - 1]) && e in Fires(steps)
    ensures Outermost(steps, e, |steps| - 1)
  {
    FiresAtEnd(steps);
  }

  lemma {:induction false} OuterIsOutermost(seed: Id, steps: seq<Step>, e: Event)
    requires After(seed, steps).Some? && GroupOf(After(seed, steps).value.r, e).active
    ensures e in After(seed, steps).value.outer && Outermost(steps, e, After(seed, steps).value.outer[e])
  {
    SentryBySteps(seed, steps, e);
    if steps != [] {
      OuterOn(seed, steps, e);
      var before := steps[..|steps| - 1];
      if e in Fires(before) {
        SentryBySteps(seed, before, e);
        OuterIsOutermost(seed, before, e);
        StillOutermost(steps, e, After(seed, before).value.outer[e]);
      } else {
        NewlyOutermost(steps, e);
      }
    }
  }

  /** The last step left the outermost fire as it was, or is it. */
  lemma OuterOn(seed: Id, steps: seq<Step>, e: Event)
    requires steps != [] && After(seed, steps).Some? && GroupOf(After(seed, steps).value.r, e).active
    ensures var w, v := After(seed, steps[..|steps| - 1]).value, After(seed, steps).value;
            && (e in Fires(steps[..|steps| - 1]) && e in w.outer ==> e in v.outer && v.outer[e] == w.outer[e])
            && (e !in Fires(steps[..|steps| - 1]) ==>
                  steps[|steps| - 1] == Fire(e) && e in v.outer && v.outer[e] == |steps| - 1)
  {
    var last := |steps| - 1;
    var w := After(seed, steps[..last]).value;
    SentryBySteps(seed, steps[..last], e);
    HistoryBySteps(seed, steps[..last]);
    AfterInv(seed, steps[..last]);
    if GroupOf(w.r, e).active {
      if e in w.outer { OuterStays(w, steps[last], e); }
    } else {
      OuterStarts(w, steps[last], e);
    }
  }

  lemma OuterStays(w: World, step: Step, e: Event)
    requires Enabled(w, step) && GroupOf(w.r, e).active && e in w.outer
    ensures e in Do(w, step).outer && Do(w, step).outer[e] == w.outer[e]
  {
  }

  lemma OuterStarts(w: World, step: Step, e: Event)
    requires Inv(w) && Enabled(w, step) && !GroupOf(w.r, e).active && GroupOf(Do(w, step).r, e).active
    ensures step == Fire(e) && e in Do(w, step).outer && Do(w, step).outer[e] == w.clock
  {
    assert forall k :: 0 <= k < |w.stack| ==> OnStack(w.stack, w.stack[k].evt);
    if step.Remove? { RemoveKeepsActive(w, step.e, step.id, e); }
  }

  lemma RemoveKeepsActive(w: World, e: Event, id: Id, x: Event)
    ensures GroupOf(Do(w, Remove(e, id)).r, x).active == GroupOf(w.r, x).active
  {
  }

  /** The turns of the d-th fire in progress are steps at which it was the innermost. */
  ghost predicate TurnsOk(steps: seq<Step>, d: nat, f: Frame) {
    forall k :: 0 <= k < |f.turns| ==>
      f.turns[k] < |steps| && steps[f.turns[k]] == Next && |FiresAt(steps, f.turns[k])| == d + 1
  }

  lemma {:induction false} TurnsBySteps(seed: Id, steps: seq<Step>, d: nat)
    requires After(seed, steps).Some? && d < |After(seed, steps).value.stack|
    ensures TurnsOk(steps, d, After(seed, steps).value.stack[d])
  {
    if steps != [] {
      var last := |steps| - 1;
      var before := steps[..last];
      var w := After(seed, before).value;
      HistoryBySteps(seed, before);
      if d < |w.stack| {
        TurnsBySteps(seed, before, d);
        TurnsOn(steps, w, d);
      }
    }
  }

  lemma TurnsOn(steps: seq<Step>, w: World, d: nat)
    requires steps != [] && Enabled(w, steps[|steps| - 1]) && w.clock == |steps| - 1
    requires |Fires(steps[..|steps| - 1])| == |w.stack| && d < |w.stack| && TurnsOk(steps[..|steps| - 1], d, w.stack[d])
    ensures var v := Do(w, steps[|steps| - 1]); d < |v.stack| ==> TurnsOk(steps, d, v.stack[d])
  {
    var last := |steps| - 1;
    var f := w.stack[d];
    FiresAtEnd(steps[..last]);
    forall k | 0 <= k < |f.turns|
      ensures |FiresAt(steps, f.turns[k])| == d + 1
    {
      FiresAtBefore(steps, f.turns[k]);
    }
    FiresAtBefore(steps, last);
  }
}
