/** router and sentry: events fired, and listeners added and removed, from inside callbacks. */
module Router {
  import opened Wrappers
  import opened Sequences

  type Event = nat
  type Id = int

  /** A listener; its callback is known by its id. */
  datatype Listener = Listener(id: Id, valid: bool)

  /** The three members the router keeps per event type. */
  datatype Group = Group(listeners: seq<Listener>, pending: seq<Listener>, active: bool)

  datatype State = State(groups: map<Event, Group>, nextId: Id)

  function GroupOf(r: State, e: Event): Group {
    if e in r.groups then r.groups[e] else Group([], [], false)
  }

  function With(r: State, e: Event, g: Group): State {
    r.(groups := r.groups[e := g])
  }

  function Ids(ls: seq<Listener>): (ids: seq<Id>)
    ensures |ids| == |ls| && forall i :: 0 <= i < |ls| ==> ids[i] == ls[i].id
  {
    seq(|ls|, i requires 0 <= i < |ls| => ls[i].id)
  }

  /** What remove_if keeps. */
  function Valids(ls: seq<Listener>): seq<Listener> {
    if ls == [] then []
    else (if ls[0].valid then [ls[0]] else []) + Valids(ls[1..])
  }

  /** find_if: the first listener with the id, or the length. */
  function IndexOf(ls: seq<Listener>, id: Id): (k: nat)
    ensures k <= |ls|
    ensures k < |ls| ==> ls[k].id == id
    ensures forall i :: 0 <= i < k ==> ls[i].id != id
  {
    if ls == [] || ls[0].id == id then 0 else 1 + IndexOf(ls[1..], id)
  }

  /** fire, up to the first callback: sentry::take. */
  function Taken(r: State, e: Event): State {
    With(r, e, GroupOf(r, e).(active := true))
  }

  /** fire, after the last callback: the guard restores the sentry; the outermost fire compacts and merges. */
  function Ended(r: State, e: Event, previous: bool): State {
    var g := GroupOf(r, e);
    With(r, e, if previous then g.(active := true) else Group(Valids(g.listeners) + g.pending, [], false))
  }

  /** internal_add_listener */
  function Added(r: State, e: Event): State {
    var g := GroupOf(r, e);
    var l := Listener(r.nextId, true);
    With(r, e, if g.active then g.(pending := g.pending + [l]) else g.(listeners := g.listeners + [l]))
      .(nextId := r.nextId + 1)
  }

  /** internal_remove_listener; an id that is not among the listeners leaves everything as it was. */
  function Removed(r: State, e: Event, id: Id): State {
    var g := GroupOf(r, e);
    var k := IndexOf(g.listeners, id);
    if k == |g.listeners| then r
    else if g.active then With(r, e, g.(listeners := g.listeners[k := g.listeners[k].(valid := false)]))
    else With(r, e, g.(listeners := g.listeners[..k] + g.listeners[k + 1..]))
  }

  /** sentry: take gives a guard that restores the value it found. */
  class Sentry {
    var value: bool

    constructor ()
      ensures !value
    {
      value := false;
    }

    method Take() returns (previous: bool)
      modifies this
      ensures previous == old(value) && value
    {
      previous := value;
      value := true;
    }

    method Release(previous: bool)
      modifies this
      ensures value == previous
    {
      value := previous;
    }
  }

  class Router {
    var groups: map<Event, Group>
    var nextId: Id

    function View(): State reads this { State(groups, nextId) }

    function Of(e: Event): Group reads this { GroupOf(View(), e) }

    /** The first id is whatever the memory held. */
    constructor (seed: Id)
      ensures View() == State(map[], seed)
    {
      groups, nextId := map[], seed;
    }

    method AddListener(e: Event) returns (id: Id)
      modifies this
      ensures View() == Added(old(View()), e) && id == old(nextId)
    {
      id := nextId;
      nextId := nextId + 1;
      var g := Of(e);
      var l := Listener(id, true);
      if g.active {
        groups := groups[e := g.(pending := g.pending + [l])];
      } else {
        groups := groups[e := g.(listeners := g.listeners + [l])];
      }
    }

    method RemoveListener(e: Event, id: Id) returns (found: bool)
      modifies this
      ensures View() == Removed(old(View()), e, id)
      ensures found == (id in Ids(old(Of(e)).listeners))
    {
      var g := Of(e);
      var k := 0;
      while k < |g.listeners| && g.listeners[k].id != id
        invariant 0 <= k <= |g.listeners|
        invariant forall i :: 0 <= i < k ==> g.listeners[i].id != id
      {
        k := k + 1;
      }
      assert k == IndexOf(g.listeners, id);
      if k == |g.listeners| {
        return false;
      }
      found := true;
      assert Ids(g.listeners)[k] == id;
      if g.active {
        groups := groups[e := g.(listeners := g.listeners[k := g.listeners[k].(valid := false)])];
      } else {
        groups := groups[e := g.(listeners := g.listeners[..k] + g.listeners[k + 1..])];
      }
    }

    method BeginFire(e: Event) returns (previous: bool)
      modifies this
      ensures View() == Taken(old(View()), e) && previous == old(Of(e)).active
    {
      previous := Of(e).active;
      groups := groups[e := Of(e).(active := true)];
    }

    method EndFire(e: Event, previous: bool)
      modifies this
      ensures View() == Ended(old(View()), e, previous)
    {
      var g := Of(e);
      if previous {
        groups := groups[e := g.(active := true)];
        return;
      }
      var kept: seq<Listener> := [];
      var i := |g.listeners|;
      while i > 0
        invariant 0 <= i <= |g.listeners|
        invariant kept == Valids(g.listeners[i..])
      {
        i := i - 1;
        assert g.listeners[i..][1..] == g.listeners[i + 1..];
        if g.listeners[i].valid {
          kept := [g.listeners[i]] + kept;
        }
      }
      assert g.listeners[0..] == g.listeners;
      groups := groups[e := Group(kept + g.pending, [], false)];
    }
  }

  // --- the call stack ------------------------------------------------------------------------

  /**
    A fire in progress.  The history fields are not in the source: ids are those of the
    listeners when the fire began, turns the times at which it passed each of them, and
    invoked the callbacks it called.
    */
  datatype Frame = Frame(evt: Event, previous: bool, index: nat, ids: seq<Id>, turns: seq<nat>, invoked: seq<Id>)

  /** The router, the fires on the call stack, and when things happened. */
  datatype World = World(
    r: State,
    stack: seq<Frame>,
    clock: nat,
    registered: map<Id, (Event, nat)>,     // when, and for which event
    removedAt: map<Id, nat>,
    outer: map<Event, nat>)                // when the event's outermost active fire began

  function Initial(seed: Id): World {
    World(State(map[], seed), [], 0, map[], map[], map[])
  }

  datatype Step =
    | Fire(e: Event)
    | Next                                 // the innermost fire goes on to its next listener
    | Return                               // the innermost fire ends
    | Add(e: Event)
    | Remove(e: Event, id: Id)

  function Top(w: World): Frame
    requires w.stack != []
  {
    w.stack[|w.stack| - 1]
  }

  predicate Enabled(w: World, step: Step) {
    match step
    case Next => w.stack != [] && Top(w).index < |GroupOf(w.r, Top(w).evt).listeners|
    case Return => w.stack != [] && Top(w).index >= |GroupOf(w.r, Top(w).evt).listeners|
    case _ => true
  }

  function Do(w: World, step: Step): World
    requires Enabled(w, step)
  {
    var v := w.(clock := w.clock + 1);
    match step
    case Fire(e) =>
      var g := GroupOf(w.r, e);
      v.(r := Taken(w.r, e),
         stack := w.stack + [Frame(e, g.active, 0, Ids(g.listeners), [], [])],
         outer := if g.active then w.outer else w.outer[e := w.clock])
    case Next =>
      var f := Top(w);
      var l := GroupOf(w.r, f.evt).listeners[f.index];
      var f' := f.(index := f.index + 1, turns := f.turns + [w.clock],
                   invoked := if l.valid then f.invoked + [l.id] else f.invoked);
      v.(stack := w.stack[|w.stack| - 1 := f'])
    case Return =>
      var f := Top(w);
      v.(r := Ended(w.r, f.evt, f.previous), stack := w.stack[..|w.stack| - 1])
    case Add(e) =>
      v.(r := Added(w.r, e), registered := w.registered[w.r.nextId := (e, w.clock)])
    case Remove(e, id) =>
      v.(r := Removed(w.r, e, id),
         removedAt := if id in Ids(GroupOf(w.r, e).listeners) && id !in w.removedAt
                      then w.removedAt[id := w.clock] else w.removedAt)
  }

  function After(seed: Id, steps: seq<Step>): Option<World> {
    if steps == [] then Some(Initial(seed)) else
    var last := |steps| - 1;
    var w := After(seed, steps[..last]);
    if w.Some? && Enabled(w.value, steps[last]) then Some(Do(w.value, steps[last])) else None
  }

  // --- the invariant -------------------------------------------------------------------------

  /** The ids whose listener had not been removed when its turn came. */
  function Delivered(ids: seq<Id>, turns: seq<nat>, removedAt: map<Id, nat>): seq<Id>
    requires |ids| == |turns|
  {
    if ids == [] then [] else
    var last := |ids| - 1;
    Delivered(ids[..last], turns[..last], removedAt) +
    if ids[last] in removedAt && removedAt[ids[last]] < turns[last] then [] else [ids[last]]
  }

  ghost predicate OnStack(stack: seq<Frame>, e: Event) {
    exists k :: 0 <= k < |stack| && stack[k].evt == e
  }

  /** A sentry is active exactly while a fire of its event is on the stack, and each guard knows its elders. */
  ghost predicate SentriesOk(w: World) {
    && (forall e :: GroupOf(w.r, e).active <==> OnStack(w.stack, e))
    && (forall k :: 0 <= k < |w.stack| ==> (w.stack[k].previous <==> OnStack(w.stack[..k], w.stack[k].evt)))
  }

  /** The vector a fire is iterating has not moved under it. */
  ghost predicate FrameOk(w: World, f: Frame) {
    && f.index <= |f.ids| && |f.turns| == f.index
    && f.ids == Ids(GroupOf(w.r, f.evt).listeners)
    && f.invoked == Delivered(f.ids[..f.index], f.turns, w.removedAt)
    && forall k :: 0 <= k < |f.turns| ==> f.turns[k] < w.clock
  }

  ghost predicate FramesOk(w: World) {
    forall k :: 0 <= k < |w.stack| ==> FrameOk(w, w.stack[k])
  }

  ghost predicate ClocksOk(w: World) {
    && (forall id :: id in w.registered ==> id < w.r.nextId && w.registered[id].1 < w.clock)
    && (forall id :: id in w.removedAt ==> id in w.registered && w.removedAt[id] < w.clock)
    && (forall e :: GroupOf(w.r, e).active ==> e in w.outer && w.outer[e] < w.clock)
  }

  function All(g: Group): seq<Listener> { g.listeners + g.pending }

  ghost predicate RegisteredFor(w: World, e: Event, id: Id) {
    id in w.registered && w.registered[id].0 == e
  }

  /** A listener in the vector: valid until removed, and older than the outermost active fire. */
  ghost predicate ListenerOk(w: World, e: Event, active: bool, l: Listener) {
    && RegisteredFor(w, e, l.id) && (l.valid <==> l.id !in w.removedAt)
    && if active then
         e in w.outer && w.registered[l.id].1 < w.outer[e] && (l.id in w.removedAt ==> w.removedAt[l.id] >= w.outer[e])
       else l.valid
  }

  /** A pending one: valid, not removed, and younger. */
  ghost predicate PendingOk(w: World, e: Event, l: Listener) {
    && RegisteredFor(w, e, l.id) && l.valid && l.id !in w.removedAt
    && e in w.outer && w.outer[e] <= w.registered[l.id].1
  }

  ghost predicate Has(g: Group, id: Id) {
    exists i :: 0 <= i < |All(g)| && All(g)[i].id == id
  }

  /** Not removed, or removed only since the outermost active fire of e began. */
  ghost predicate Lingers(w: World, e: Event, active: bool, id: Id) {
    id !in w.removedAt || (active && e in w.outer && w.removedAt[id] >= w.outer[e])
  }

  ghost predicate GroupOk(w: World, e: Event, g: Group) {
    && Increasing(Ids(All(g)))
    && (forall i :: 0 <= i < |g.listeners| ==> ListenerOk(w, e, g.active, g.listeners[i]))
    && (forall i :: 0 <= i < |g.pending| ==> PendingOk(w, e, g.pending[i]))
    && (!g.active ==> g.pending == [])
    && (forall id :: RegisteredFor(w, e, id) && Lingers(w, e, g.active, id) ==> Has(g, id))
  }

  ghost predicate GroupsOk(w: World) {
    forall e :: GroupOk(w, e, GroupOf(w.r, e))
  }

  ghost predicate Inv(w: World) {
    SentriesOk(w) && FramesOk(w) && ClocksOk(w) && GroupsOk(w)
  }
}
