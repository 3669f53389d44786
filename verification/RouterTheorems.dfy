/** What callbacks of a router can rely on, however deeply they fire, add and remove. */
module RouterTheorems {
  import opened Wrappers
  import opened Sequences
  import opened Router
  import opened RouterInvariant

  /** A sentry is active exactly when a fire of its event is on the call stack. */
  lemma SentryMatchesStack(seed: Id, steps: seq<Step>, e: Event)
    requires After(seed, steps).Some?
    ensures var w := After(seed, steps).value; GroupOf(w.r, e).active <==> OnStack(w.stack, e)
  {
    AfterInv(seed, steps);
  }

  /** Every suspended fire still iterates the vector it started on, and its index is within it. */
  lemma VectorStable(seed: Id, steps: seq<Step>, k: nat)
    requires After(seed, steps).Some? && k < |After(seed, steps).value.stack|
    ensures var w := After(seed, steps).value; var f := w.stack[k];
            Ids(GroupOf(w.r, f.evt).listeners) == f.ids && f.index <= |f.ids|
  {
    AfterInv(seed, steps);
    assert FrameOk(After(seed, steps).value, After(seed, steps).value.stack[k]);
  }

  /** Listeners, then pending listeners, are always in registration order. */
  lemma AlwaysOrdered(seed: Id, steps: seq<Step>, e: Event)
    requires After(seed, steps).Some?
    ensures Increasing(Ids(All(GroupOf(After(seed, steps).value.r, e))))
  {
    AfterInv(seed, steps);
    assert GroupOk(After(seed, steps).value, e, GroupOf(After(seed, steps).value.r, e));
  }

  lemma {:induction false} DeliveredSubset(ids: seq<Id>, turns: seq<nat>, removedAt: map<Id, nat>)
    requires |ids| == |turns|
    ensures forall id :: id in Delivered(ids, turns, removedAt) ==> id in ids
  {
    if ids != [] { DeliveredSubset(ids[..|ids| - 1], turns[..|ids| - 1], removedAt); }
  }

  lemma {:induction false} DeliveredIncreasing(ids: seq<Id>, turns: seq<nat>, removedAt: map<Id, nat>)
    requires |ids| == |turns| && Increasing(ids)
    ensures Increasing(Delivered(ids, turns, removedAt))
  {
    if ids != [] {
      var last := |ids| - 1;
      DeliveredIncreasing(ids[..last], turns[..last], removedAt);
      DeliveredSubset(ids[..last], turns[..last], removedAt);
      AllBelowLast(ids, Delivered(ids[..last], turns[..last], removedAt));
    }
  }

  lemma {:induction false} DeliveredOne(ids: seq<Id>, turns: seq<nat>, removedAt: map<Id, nat>, k: nat)
    requires |ids| == |turns| && Increasing(ids) && k < |ids|
    ensures ids[k] in Delivered(ids, turns, removedAt) <==> !(ids[k] in removedAt && removedAt[ids[k]] < turns[k])
  {
    var last := |ids| - 1;
    if k < last {
      DeliveredOne(ids[..last], turns[..last], removedAt, k);
      assert ids[..last][k] == ids[k] && turns[..last][k] == turns[k] && ids[k] < ids[last];
    } else {
      DeliveredSubset(ids[..last], turns[..last], removedAt);
      AllBelowLast(ids, Delivered(ids[..last], turns[..last], removedAt));
    }
  }

  lemma DeliveredMembers(ids: seq<Id>, turns: seq<nat>, removedAt: map<Id, nat>)
    requires |ids| == |turns| && Increasing(ids)
    ensures forall k :: 0 <= k < |ids| ==>
              (ids[k] in Delivered(ids, turns, removedAt) <==> !(ids[k] in removedAt && removedAt[ids[k]] < turns[k]))
    ensures forall id :: id in Delivered(ids, turns, removedAt) ==> id in ids
    ensures Increasing(Delivered(ids, turns, removedAt))
  {
    DeliveredSubset(ids, turns, removedAt);
    DeliveredIncreasing(ids, turns, removedAt);
    forall k | 0 <= k < |ids|
      ensures ids[k] in Delivered(ids, turns, removedAt) <==> !(ids[k] in removedAt && removedAt[ids[k]] < turns[k])
    {
      DeliveredOne(ids, turns, removedAt, k);
    }
  }

  lemma AllBelowLast(ids: seq<Id>, front: seq<Id>)
    requires ids != [] && Increasing(ids)
    requires var lower := ids[..|ids| - 1]; forall id :: id in front ==> id in lower
    ensures forall i :: 0 <= i < |front| ==> front[i] < ids[|ids| - 1]
    ensures ids[|ids| - 1] !in front
  {
    forall i | 0 <= i < |front|
      ensures front[i] < ids[|ids| - 1]
    {
      var lower, id := ids[..|ids| - 1], front[i];
      assert id in front;
      assert id in lower;
      var j :| 0 <= j < |lower| && lower[j] == id;
      assert ids[j] == lower[j];
    }
  }

  /**
    When a fire is about to end it has invoked, once each and in registration order, the
    listeners registered before the event's outermost active fire began, except those
    removed before then or before their turn.
    */
  lemma FireDelivers(seed: Id, steps: seq<Step>)
    requires After(seed, steps).Some? && Enabled(After(seed, steps).value, Return)
    ensures var w := After(seed, steps).value; var f := Top(w);
            && |f.turns| == |f.ids| && f.evt in w.outer && Increasing(f.invoked)
            && (forall id :: RegisteredFor(w, f.evt, id) ==>
                  (id in f.ids <==>
                     w.registered[id].1 < w.outer[f.evt] &&
                     (id in w.removedAt ==> w.removedAt[id] >= w.outer[f.evt])))
            && (forall id :: id in f.ids ==> RegisteredFor(w, f.evt, id))
            && (forall id :: id in f.invoked ==> id in f.ids)
            && (forall k :: 0 <= k < |f.ids| ==>
                  (f.ids[k] in f.invoked <==> !(f.ids[k] in w.removedAt && w.removedAt[f.ids[k]] < f.turns[k])))
  {
    AfterInv(seed, steps);
    var w := After(seed, steps).value;
    var f := Top(w);
    var g := GroupOf(w.r, f.evt);
    assert FrameOk(w, f) && GroupOk(w, f.evt, g) && OnStack(w.stack, f.evt);
    assert f.ids[..f.index] == f.ids == Ids(All(g))[..|g.listeners|];
    DeliveredMembers(f.ids, f.turns, w.removedAt);
    FireMembers(w, f, g);
  }

  lemma FireMembers(w: World, f: Frame, g: Group)
    requires GroupOk(w, f.evt, g) && g.active && f.ids == Ids(g.listeners) && f.evt in w.outer
    ensures forall id :: id in f.ids ==> RegisteredFor(w, f.evt, id)
    ensures forall id :: RegisteredFor(w, f.evt, id) ==>
              (id in f.ids <==>
                 w.registered[id].1 < w.outer[f.evt] && (id in w.removedAt ==> w.removedAt[id] >= w.outer[f.evt]))
  {
    forall id | id in f.ids
      ensures RegisteredFor(w, f.evt, id) && w.registered[id].1 < w.outer[f.evt]
      ensures id in w.removedAt ==> w.removedAt[id] >= w.outer[f.evt]
    {
      var k :| 0 <= k < |f.ids| && f.ids[k] == id;
      assert ListenerOk(w, f.evt, true, g.listeners[k]);
    }
    forall id | RegisteredFor(w, f.evt, id) && w.registered[id].1 < w.outer[f.evt]
                && (id in w.removedAt ==> w.removedAt[id] >= w.outer[f.evt])
      ensures id in f.ids
    {
      assert Lingers(w, f.evt, true, id) && Has(g, id);
      var i :| 0 <= i < |All(g)| && All(g)[i].id == id;
      assert forall j :: 0 <= j < |g.pending| ==> PendingOk(w, f.evt, g.pending[j]) && g.pending[j].id != id;
      assert f.ids[i] == id;
    }
  }

  /** The end of the outermost fire leaves exactly the registered listeners that were not removed, in order. */
  lemma OutermostEnds(seed: Id, steps: seq<Step>)
    requires After(seed, steps).Some? && Enabled(After(seed, steps).value, Return)
    requires !Top(After(seed, steps).value).previous
    ensures var w := After(seed, steps).value; var e := Top(w).evt;
            var g, g' := GroupOf(w.r, e), GroupOf(Do(w, Return).r, e);
            && g' == Group(Valids(g.listeners) + g.pending, [], false) && Increasing(Ids(g'.listeners))
            && forall id :: RegisteredFor(w, e, id) ==> (id in Ids(g'.listeners) <==> id !in w.removedAt)
  {
    AfterInv(seed, steps);
    var w := After(seed, steps).value;
    var e := Top(w).evt;
    var v := Do(w, Return);
    ReturnKeepsGroups(w);
    var g' := GroupOf(v.r, e);
    Others(w.r, e, g');
    assert GroupOk(v, e, g');
    assert All(g') == g'.listeners;
    forall id | RegisteredFor(w, e, id)
      ensures id in Ids(g'.listeners) <==> id !in w.removedAt
    {
      if id !in w.removedAt {
        assert RegisteredFor(v, e, id) && Lingers(v, e, false, id) && Has(g', id);
        var i :| 0 <= i < |All(g')| && All(g')[i].id == id;
        assert Ids(g'.listeners)[i] == id;
      }
      if id in Ids(g'.listeners) {
        var k :| 0 <= k < |g'.listeners| && Ids(g'.listeners)[k] == id;
        assert ListenerOk(v, e, false, g'.listeners[k]);
      }
    }
  }

  /** Giving up a ticket removes its listener exactly when the listener is not still pending. */
  lemma RemoveTakesEffect(seed: Id, steps: seq<Step>, e: Event, id: Id)
    requires After(seed, steps).Some?
    requires var w := After(seed, steps).value; RegisteredFor(w, e, id) && id !in w.removedAt
    ensures var w := After(seed, steps).value;
            id in Do(w, Remove(e, id)).removedAt <==> id !in Ids(GroupOf(w.r, e).pending)
  {
    AfterInv(seed, steps);
    var w := After(seed, steps).value;
    var g := GroupOf(w.r, e);
    assert GroupOk(w, e, g) && Lingers(w, e, g.active, id);
    InOnePart(g, id);
    Removing(w, e, id);
  }

  /** Nothing but its own removal changes when a listener was registered or removed. */
  lemma StepHistory(w: World, step: Step, id: Id)
    requires ClocksOk(w) && Enabled(w, step) && id in w.registered && (step.Remove? ==> step.id != id)
    ensures var v := Do(w, step);
            && id in v.registered && v.registered[id] == w.registered[id]
            && (id in v.removedAt <==> id in w.removedAt)
            && (id in w.removedAt ==> v.removedAt[id] == w.removedAt[id])
  {
  }

  lemma {:induction false} HistoryKept(seed: Id, steps: seq<Step>, more: seq<Step>, id: Id)
    requires After(seed, steps).Some? && id in After(seed, steps).value.registered
    requires After(seed, steps + more).Some?
    requires forall i :: 0 <= i < |more| ==> more[i].Remove? ==> more[i].id != id
    ensures var w, u := After(seed, steps).value, After(seed, steps + more).value;
            && id in u.registered && u.registered[id] == w.registered[id]
            && (id in u.removedAt <==> id in w.removedAt)
            && (id in w.removedAt ==> u.removedAt[id] == w.removedAt[id])
    decreases |more|
  {
    if more == [] {
      assert steps + more == steps;
    } else {
      var last := |more| - 1;
      assert (steps + more)[..|steps + more| - 1] == steps + more[..last];
      HistoryKept(seed, steps, more[..last], id);
      AfterInv(seed, steps + more[..last]);
      StepHistory(After(seed, steps + more[..last]).value, more[last], id);
    }
  }

  /**
    A listener whose ticket was given up is called by a fire that is not inside one begun
    before that exactly when the listener was still pending then.
    */
  lemma GivenUpIsCalledExactly(seed: Id, steps: seq<Step>, e: Event, id: Id, more: seq<Step>)
    requires After(seed, steps).Some?
    requires var w := After(seed, steps).value; RegisteredFor(w, e, id) && id !in w.removedAt
    requires forall i :: 0 <= i < |more| ==> more[i].Remove? ==> more[i].id != id
    requires After(seed, steps + [Remove(e, id)] + more).Some?
    requires var w, u := After(seed, steps).value, After(seed, steps + [Remove(e, id)] + more).value;
             Enabled(u, Return) && Top(u).evt == e && e in u.outer && u.outer[e] > w.clock
    ensures var w, u := After(seed, steps).value, After(seed, steps + [Remove(e, id)] + more).value;
            id in Top(u).invoked <==> id in Ids(GroupOf(w.r, e).pending)
  {
    var w, u := After(seed, steps).value, After(seed, steps + [Remove(e, id)] + more).value;
    var v := Do(w, Remove(e, id));
    assert (steps + [Remove(e, id)])[..|steps|] == steps;
    assert After(seed, steps + [Remove(e, id)]) == Some(v);
    AfterInv(seed, steps);
    RemoveTakesEffect(seed, steps, e, id);
    assert id in v.removedAt ==> v.removedAt[id] == w.clock;
    HistoryKept(seed, steps + [Remove(e, id)], more, id);
    FireDelivers(seed, steps + [Remove(e, id)] + more);
    CalledWhenDue(u, Top(u), e, id, w.clock);
  }

  /** What FireDelivers says of a listener that was registered before now and removed now or not at all. */
  lemma CalledWhenDue(u: World, f: Frame, e: Event, id: Id, now: nat)
    requires RegisteredFor(u, e, id) && e in u.outer && u.registered[id].1 < now < u.outer[e]
    requires id in u.removedAt ==> u.removedAt[id] == now
    requires id in f.ids <==>
               u.registered[id].1 < u.outer[e] && (id in u.removedAt ==> u.removedAt[id] >= u.outer[e])
    requires forall x :: x in f.invoked ==> x in f.ids
    requires |f.turns| == |f.ids|
    requires forall k :: 0 <= k < |f.ids| ==>
               (f.ids[k] in f.invoked <==> !(f.ids[k] in u.removedAt && u.removedAt[f.ids[k]] < f.turns[k]))
    ensures id in f.invoked <==> id !in u.removedAt
  {
    if id in f.ids {
      var k :| 0 <= k < |f.ids| && f.ids[k] == id;
      assert f.ids[k] in f.invoked;
    }
  }

  lemma Removing(w: World, e: Event, id: Id)
    requires id !in w.removedAt
    ensures id in Do(w, Remove(e, id)).removedAt <==> id in Ids(GroupOf(w.r, e).listeners)
  {
  }

  lemma InOnePart(g: Group, id: Id)
    requires Increasing(Ids(All(g))) && Has(g, id)
    ensures id in Ids(g.listeners) <==> id !in Ids(g.pending)
  {
    var i :| 0 <= i < |All(g)| && All(g)[i].id == id;
    if i < |g.listeners| {
      assert Ids(g.listeners)[i] == id;
      forall j | 0 <= j < |g.pending|
        ensures Ids(g.pending)[j] != id
      {
        assert Ids(All(g))[i] < Ids(All(g))[|g.listeners| + j];
      }
    } else {
      assert Ids(g.pending)[i - |g.listeners|] == id;
      forall j | 0 <= j < |g.listeners|
        ensures Ids(g.listeners)[j] != id
      {
        assert Ids(All(g))[j] < Ids(All(g))[i];
      }
    }
  }

  const IGNORED: seq<Step> := [Fire(0), Add(0), Remove(0, 0), Return, Fire(0), Next]

  const CALLED := Listener(0, true)

  /** The world while the first fire lasts, with the given listeners pending, and after it. */
  function Firing(pending: seq<Listener>, clock: nat, registered: map<Id, (Event, nat)>): World {
    World(State(map[0 := Group([], pending, true)], |pending|), [Frame(0, false, 0, [], [], [])], clock,
          registered, map[], map[0 := 0])
  }

  function Fired(): World {
    World(State(map[0 := Group([CALLED], [], false)], 1), [], 4, map[0 := (0, 1)], map[], map[0 := 0])
  }

  /** A listener added during a fire whose ticket is given up before that fire ends is called by the next one. */
  lemma PendingTicketIsIgnored()
    ensures After(0, IGNORED).Some? && Top(After(0, IGNORED).value).invoked == [0]
  {
    UntilFired();
    var w := Do(Fired(), Fire(0));
    FiredOnce(Fired(), CALLED);
    OneMore(0, IGNORED, 4, Fired(), w);
    OneMore(0, IGNORED, 5, w, Do(w, Next));
    assert IGNORED[..6] == IGNORED;
  }

  lemma UntilRemoved()
    ensures After(0, IGNORED[..3]) == Some(Firing([CALLED], 3, map[0 := (0, 1)]))
  {
    var registered: map<Id, (Event, nat)> := map[0 := (0, 1)];
    FirstFire(Firing([], 1, map[]));
    AddedPending(Firing([], 1, map[]), Firing([CALLED], 2, registered), CALLED);
    NothingFound(Firing([CALLED], 2, registered), CALLED);
    OneMore(0, IGNORED, 0, Initial(0), Firing([], 1, map[]));
    OneMore(0, IGNORED, 1, Firing([], 1, map[]), Firing([CALLED], 2, registered));
    OneMore(0, IGNORED, 2, Firing([CALLED], 2, registered), Firing([CALLED], 3, registered));
  }

  lemma UntilFired()
    ensures After(0, IGNORED[..4]) == Some(Fired())
  {
    var w := Firing([CALLED], 3, map[0 := (0, 1)]);
    UntilRemoved();
    Compacted(w, Fired(), CALLED);
    OneMore(0, IGNORED, 3, w, Fired());
  }

  lemma FirstFire(w: World)
    requires w == World(State(map[0 := Group([], [], true)], 0), [Frame(0, false, 0, [], [], [])], 1, map[], map[], map[0 := 0])
    ensures After(0, []) == Some(Initial(0)) && Do(Initial(0), Fire(0)) == w
  {
    assert GroupOf(Initial(0).r, 0) == Group([], [], false) && Ids([]) == [];
  }

  lemma AddedPending(w: World, w': World, l: Listener)
    requires w.r == State(map[0 := Group([], [], true)], 0) && w.clock == 1 && w.registered == map[] && l == Listener(0, true)
    requires w' == w.(r := State(map[0 := Group([], [l], true)], 1), clock := 2, registered := map[0 := (0, 1)])
    ensures Do(w, Add(0)) == w'
  {
    assert GroupOf(w.r, 0) == Group([], [], true) && [] + [l] == [l];
    assert w.r.groups[0 := Group([], [l], true)] == w'.r.groups;
  }

  lemma NothingFound(w: World, l: Listener)
    requires w.r.groups == map[0 := Group([], [l], true)]
    ensures Do(w, Remove(0, 0)) == w.(clock := w.clock + 1)
  {
    assert GroupOf(w.r, 0).listeners == [] && 0 !in Ids([]);
  }

  lemma FiredOnce(w: World, l: Listener)
    requires w.stack == [] && w.r.groups == map[0 := Group([l], [], false)] && l.valid
    ensures var v := Do(w, Fire(0)); Enabled(v, Next) && Top(Do(v, Next)).invoked == [l.id]
  {
    var v := Do(w, Fire(0));
    assert GroupOf(v.r, 0) == Group([l], [], true);
    assert Top(v) == Frame(0, false, 0, Ids([l]), [], []);
  }

  lemma Compacted(w: World, w': World, l: Listener)
    requires w.stack == [Frame(0, false, 0, [], [], [])] && w.r.groups == map[0 := Group([], [l], true)]
    requires w' == w.(r := w.r.(groups := map[0 := Group([l], [], false)]), stack := [], clock := w.clock + 1)
    ensures Enabled(w, Return) && Do(w, Return) == w'
  {
    assert Valids([]) + [l] == [l];
    assert w.r.groups[0 := Group([l], [], false)] == w'.r.groups;
  }

  lemma OneMore(seed: Id, steps: seq<Step>, k: nat, w: World, w': World)
    requires k < |steps| && After(seed, steps[..k]) == Some(w) && Enabled(w, steps[k]) && Do(w, steps[k]) == w'
    ensures After(seed, steps[..k + 1]) == Some(w')
  {
    assert steps[..k + 1][..k] == steps[..k];
  }
}
