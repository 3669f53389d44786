/** cancellation and cancellation_source: listeners notified once, the most recent first. */
module Cancellation {
  import opened Wrappers
  import opened Sequences
  import TC = TicketedCollection

  type Callback = nat

  function Elements(s: seq<TC.Item<Callback>>): (r: seq<Callback>)
    ensures |r| == |s| && forall i :: 0 <= i < |s| ==> r[i] == s[i].element
  {
    seq(|s|, i requires 0 <= i < |s| => s[i].element)
  }

  function Reversed<T>(s: seq<T>): (r: seq<T>)
    ensures |r| == |s| && forall i :: 0 <= i < |s| ==> r[i] == s[|s| - 1 - i]
  {
    seq(|s|, i requires 0 <= i < |s| => s[|s| - 1 - i])
  }

  class CancellationSource {
    var requested: bool
    var signaled: bool
    const listeners: TC.TicketedCollection<Callback>

    ghost predicate Valid()
      reads this, listeners, listeners.items
    {
      listeners.Valid()
    }

    ghost function Registered(): seq<TC.Item<Callback>>
      reads listeners, listeners.items
    {
      listeners.items.data
    }

    constructor ()
      ensures Valid() && !requested && !signaled && Registered() == []
      ensures fresh(listeners) && fresh(listeners.items)
    {
      requested, signaled := false, false;
      listeners := new TC.TicketedCollection<Callback>();
    }

    /** internal_add_listener: copied tells the caller to call the listener itself. */
    method InternalAddListener(callback: Callback) returns (id: TC.Ticket, copied: bool)
      requires Valid()
      modifies listeners, listeners.items
      ensures Valid() && copied == signaled
      ensures id == old(listeners.seed) && Registered() == old(Registered()) + [TC.Item(id, callback)]
    {
      copied := signaled;
      id := listeners.Insert(callback);
    }

    method Release(id: TC.Ticket) returns (found: bool)
      requires Valid()
      modifies listeners.items
      ensures Valid() && Registered() == TC.Without(old(Registered()), id)
    {
      found := listeners.Release(id);
    }

    /** signal_cancelled with nobody interfering: the callbacks it calls, in order. */
    method SignalCancelled() returns (calls: seq<Callback>)
      requires Valid()
      modifies this`signaled
      ensures Valid() && signaled && |calls| == |Registered()|
      ensures forall i :: 0 <= i < |calls| ==> calls[i] == Registered()[|Registered()| - 1 - i].element
    {
      var items := listeners.items.data;
      var snapshot: seq<Callback> := [];
      for i := 0 to |items|
        invariant snapshot == Elements(items)[..i]
      {
        snapshot := snapshot + [items[i].element];
      }
      assert snapshot == Elements(items);
      signaled := true;
      calls := [];
      var left := |snapshot|;
      while left > 0
        invariant 0 <= left <= |snapshot| && calls == Reversed(snapshot)[..|snapshot| - left]
      {
        left := left - 1;
        calls := calls + [snapshot[left]];
      }
    }

    /** Only the first cancel signals. */
    method Cancel() returns (calls: seq<Callback>)
      requires Valid()
      modifies this`requested, this`signaled
      ensures Valid() && requested
      ensures |calls| == if old(requested) then 0 else |Registered()|
      ensures forall i :: 0 <= i < |calls| ==> calls[i] == Registered()[|Registered()| - 1 - i].element
      ensures signaled == (old(signaled) || !old(requested))
    {
      var before := requested;
      requested := true;
      calls := [];
      if !before {
        calls := SignalCancelled();
      }
    }
  }

  // --- adds, releases and cancels interleaved in any way -----------------------------------

  /** Listeners are known by their tickets, which count registrations. */
  type Id = TC.Ticket

  datatype Canceller =
    | NotYet
    | Won                                         // exchanged the flag, about to take the snapshot
    | Calling(snapshot: seq<TC.Item<Callback>>, left: nat)   // the reverse loop over the copied listeners

  datatype World = World(
    issued: nat,                                  // ids below this have been given out
    items: seq<TC.Item<Callback>>,                // m_listeners
    released: set<Id>,                            // tickets given up
    requested: bool,
    signaled: bool,
    canceller: Canceller,
    copying: map<Id, Callback>,                   // added after the signal, not yet called by their adder
    calls: seq<Id>,                               // whose listener was called, in order
    invoked: seq<Callback>,                       // and what each call called
    fromSnapshot: seq<Id>,                        // those made by signal_cancelled
    bound: nat,                                   // issued, when the snapshot was taken
    gone: set<Id>)                                // released, when the snapshot was taken

  const INITIAL := World(0, [], {}, false, false, NotYet, map[], [], [], [], 0, {})

  datatype Step =
    | Add(callback: Callback)
    | CallCopied(id: Id)
    | Release(id: Id)
    | Cancel
    | Snapshot
    | CallNext

  predicate Enabled(w: World, step: Step) {
    match step
    case Add(_) => true
    case CallCopied(id) => id in w.copying
    case Release(id) => 0 <= id < w.issued && id !in w.released && id !in w.copying   // the adder has the ticket by now
    case Cancel => true
    case Snapshot => w.canceller.Won?
    case CallNext => w.canceller.Calling? && w.canceller.left > 0 && w.canceller.left <= |w.canceller.snapshot|
  }

  function Do(w: World, step: Step): World
    requires Enabled(w, step)
  {
    match step
    case Add(callback) =>
      w.(issued := w.issued + 1, items := w.items + [TC.Item(w.issued, callback)],
         copying := if w.signaled then w.copying[w.issued := callback] else w.copying)
    case CallCopied(id) =>
      w.(copying := w.copying - {id}, calls := w.calls + [id], invoked := w.invoked + [w.copying[id]])
    case Release(id) =>
      w.(items := TC.Without(w.items, id), released := w.released + {id})
    case Cancel =>
      w.(requested := true, canceller := if w.requested then w.canceller else Won)
    case Snapshot =>
      w.(signaled := true, canceller := Calling(w.items, |w.items|), bound := w.issued, gone := w.released)
    case CallNext =>
      var Calling(snapshot, left) := w.canceller;
      var item := snapshot[left - 1];
      w.(canceller := Calling(snapshot, left - 1), calls := w.calls + [item.id],
         invoked := w.invoked + [item.element], fromSnapshot := w.fromSnapshot + [item.id])
  }

  function After(steps: seq<Step>): Option<World> {
    if steps == [] then Some(INITIAL) else
    var last := |steps| - 1;
    var w := After(steps[..last]);
    if w.Some? && Enabled(w.value, steps[last]) then Some(Do(w.value, steps[last])) else None
  }

  ghost predicate LiveOk(w: World) {
    && TC.Ascending(w.items)
    && (forall id: Id :: id in TC.Ids(w.items) <==> 0 <= id < w.issued && id !in w.released)
    && (forall id: Id :: id in w.released ==> 0 <= id < w.issued)
    && (forall id: Id :: id in w.copying ==> w.signaled && w.bound <= id < w.issued)
  }

  ghost predicate SnapshotOk(w: World) {
    && (w.requested <==> !w.canceller.NotYet?)
    && (w.signaled <==> w.canceller.Calling?)
    && match w.canceller
       case Calling(snapshot, left) =>
         && TC.Ascending(snapshot) && left <= |snapshot| && w.bound <= w.issued
         && (forall id: Id :: id in TC.Ids(snapshot) <==> 0 <= id < w.bound && id !in w.gone)
         && w.fromSnapshot == Reversed(TC.Ids(snapshot))[..|snapshot| - left]
       case _ => w.fromSnapshot == []
  }

  ghost predicate CallsOk(w: World) {
    && NoRepeats(w.calls) && (!w.signaled ==> w.calls == [])
    && (forall id: Id :: id in w.calls <==>
          id in w.fromSnapshot || (w.signaled && w.bound <= id < w.issued && id !in w.copying))
  }

  ghost predicate Inv(w: World) {
    LiveOk(w) && SnapshotOk(w) && CallsOk(w)
  }

  lemma ReleaseKeeps(w: World, id: Id)
    requires Inv(w) && Enabled(w, Release(id))
    ensures Inv(Do(w, Release(id)))
  {
    TC.WithoutIds(w.items, id);
    assert forall x: Id :: x in TC.Ids(Do(w, Release(id)).items) <==> x in TC.Ids(w.items) && x != id;
  }

  lemma AddKeeps(w: World, callback: Callback)
    requires Inv(w)
    ensures Inv(Do(w, Add(callback)))
  {
    var v := Do(w, Add(callback));
    SnapshotBelow(w);
    assert TC.Ids(v.items) == TC.Ids(w.items) + [w.issued];
    forall i | 0 <= i < |w.items|
      ensures w.items[i].id < w.issued
    {
      assert TC.Ids(w.items)[i] in TC.Ids(w.items);
    }
  }

  /** The next listener of the reverse loop has not been called, and takes its place behind those that have. */
  lemma NextIsNew(w: World)
    requires SnapshotOk(w) && Enabled(w, CallNext)
    ensures var ids, left := TC.Ids(w.canceller.snapshot), w.canceller.left;
            var id := ids[left - 1];
            && id in ids && id !in w.fromSnapshot
            && w.fromSnapshot + [id] == Reversed(ids)[..|ids| - left + 1]
  {
    var ids, left := TC.Ids(w.canceller.snapshot), w.canceller.left;
    var r, n := Reversed(ids), |ids|;
    assert r[n - left] == ids[left - 1];
    assert r[..n - left + 1] == r[..n - left] + [ids[left - 1]];
    forall i | 0 <= i < n - left
      ensures w.fromSnapshot[i] != ids[left - 1]
    {
      assert ids[left - 1] < ids[n - 1 - i];
    }
  }

  lemma CallNextKeeps(w: World)
    requires Inv(w) && Enabled(w, CallNext)
    ensures Inv(Do(w, CallNext))
  {
    var v := Do(w, CallNext);
    var id := TC.Ids(w.canceller.snapshot)[w.canceller.left - 1];
    NextIsNew(w);
    assert id !in w.calls;
    assert forall x :: x in v.calls <==> x in w.calls || x == id;
    assert forall x :: x in v.fromSnapshot <==> x in w.fromSnapshot || x == id;
  }

  lemma StepKeeps(w: World, step: Step)
    requires Inv(w) && Enabled(w, step)
    ensures Inv(Do(w, step))
  {
    match step
    case Add(callback) =>
      AddKeeps(w, callback);
    case CallCopied(id) =>
      assert id !in w.fromSnapshot by { SnapshotBelow(w); }
      assert id !in w.calls;
    case Release(id) =>
      ReleaseKeeps(w, id);
    case Cancel =>
    case Snapshot =>
      assert w.fromSnapshot == Reversed(TC.Ids(w.items))[..0];
    case CallNext =>
      CallNextKeeps(w);
  }

  lemma SnapshotBelow(w: World)
    requires SnapshotOk(w)
    ensures forall id: Id :: id in w.fromSnapshot ==> 0 <= id < w.bound
  {
    forall id | id in w.fromSnapshot
      ensures 0 <= id < w.bound
    {
      var i :| 0 <= i < |w.fromSnapshot| && w.fromSnapshot[i] == id;
      var s := TC.Ids(w.canceller.snapshot);
      assert id == s[|s| - 1 - i];
      assert id in s;
    }
  }

  lemma {:induction false} AfterInv(steps: seq<Step>)
    requires After(steps).Some?
    ensures Inv(After(steps).value)
  {
    if steps != [] {
      var last := |steps| - 1;
      AfterInv(steps[..last]);
      StepKeeps(After(steps[..last]).value, steps[last]);
    }
  }

  /** The live listeners are exactly those whose ticket is held, in registration order. */
  lemma LiveAreTickets(steps: seq<Step>)
    requires After(steps).Some?
    ensures var w := After(steps).value;
            TC.Ascending(w.items) && forall id: Id :: id in TC.Ids(w.items) <==> 0 <= id < w.issued && id !in w.released
  {
    AfterInv(steps);
  }

  lemma CallsOf(w: World, id: Id)
    requires Inv(w) && w.signaled && 0 <= id < w.issued
    ensures id < w.bound ==> (id in w.calls <==> id in w.fromSnapshot)
    ensures id >= w.bound ==> (id in w.calls <==> id !in w.copying)
  {
    SnapshotBelow(w);
  }

  /** When the reverse loop is done it has called exactly those whose tickets were held at the snapshot. */
  lemma SnapshotDone(w: World, id: Id)
    requires SnapshotOk(w) && w.canceller.Calling? && w.canceller.left == 0 && 0 <= id < w.bound
    ensures id in w.fromSnapshot <==> id !in w.gone
  {
    var s := TC.Ids(w.canceller.snapshot);
    assert w.fromSnapshot == Reversed(s);
    if id in s {
      var i :| 0 <= i < |s| && s[i] == id;
      assert w.fromSnapshot[|s| - 1 - i] == id;
    }
    if id in w.fromSnapshot {
      var i :| 0 <= i < |s| && w.fromSnapshot[i] == id;
      assert s[|s| - 1 - i] in s;
    }
  }

  /**
    No listener is ever called twice.  A listener registered before the snapshot is called
    by signal_cancelled exactly when its ticket was held then and its turn has come; one
    added later is called exactly once, by its adder; before the signal nobody is called.
    */
  lemma NotifiedOnce(steps: seq<Step>, id: Id)
    requires After(steps).Some? && 0 <= id < After(steps).value.issued
    ensures var w := After(steps).value;
            && NoRepeats(w.calls)
            && if !w.signaled then w.calls == []
               else if id < w.bound then
                 (id in w.calls <==> id in w.fromSnapshot) &&
                 (w.canceller.Calling? && w.canceller.left == 0 ==> (id in w.calls <==> id !in w.gone))
               else id in w.calls <==> id !in w.copying
  {
    AfterInv(steps);
    var w := After(steps).value;
    if w.signaled {
      CallsOf(w, id);
      if id < w.bound && w.canceller.left == 0 { SnapshotDone(w, id); }
    }
  }

  /** signal_cancelled calls listeners in strictly decreasing registration order. */
  lemma MostRecentFirst(steps: seq<Step>, i: nat, j: nat)
    requires After(steps).Some? && i < j < |After(steps).value.fromSnapshot|
    ensures var w := After(steps).value; w.fromSnapshot[i] > w.fromSnapshot[j]
  {
    AfterInv(steps);
    var w := After(steps).value;
    var s := TC.Ids(w.canceller.snapshot);
    assert s[|s| - 1 - j] < s[|s| - 1 - i];
  }

  // --- what the schedule says ------------------------------------------------------------------

  /** The callbacks registered, in order: the id of each is its position. */
  function Registrations(steps: seq<Step>): seq<Callback> {
    if steps == [] then [] else
    var last := |steps| - 1;
    Registrations(steps[..last]) + if steps[last].Add? then [steps[last].callback] else []
  }

  /** Every item holds the callback its id was given out for. */
  ghost predicate Own(items: seq<TC.Item<Callback>>, registered: seq<Callback>) {
    forall i :: 0 <= i < |items| ==> 0 <= items[i].id < |registered| && items[i].element == registered[items[i].id]
  }

  ghost predicate Anchored(registered: seq<Callback>, w: World) {
    && w.issued == |registered| && Own(w.items, registered)
    && (w.canceller.Calling? ==> Own(w.canceller.snapshot, registered))
    && (forall id: Id :: id in w.copying ==> 0 <= id < |registered| && w.copying[id] == registered[id])
    && |w.invoked| == |w.calls|
    && (forall i :: 0 <= i < |w.calls| ==> 0 <= w.calls[i] < |registered| && w.invoked[i] == registered[w.calls[i]])
  }

  lemma {:induction false} WithoutOwn(items: seq<TC.Item<Callback>>, id: Id, registered: seq<Callback>)
    requires Own(items, registered)
    ensures Own(TC.Without(items, id), registered)
  {
    if items != [] {
      assert Own(items[1..], registered);
      WithoutOwn(items[1..], id, registered);
    }
  }

  lemma OwnLonger(items: seq<TC.Item<Callback>>, registered: seq<Callback>, more: seq<Callback>)
    requires Own(items, registered)
    ensures Own(items, registered + more)
  {
  }

  lemma AnchoredOn(registered: seq<Callback>, w: World, step: Step)
    requires Anchored(registered, w) && Enabled(w, step)
    ensures Anchored(registered + if step.Add? then [step.callback] else [], Do(w, step))
  {
    match step
    case Add(callback) =>
      OwnLonger(w.items, registered, [callback]);
      if w.canceller.Calling? { OwnLonger(w.canceller.snapshot, registered, [callback]); }
    case Release(id) =>
      WithoutOwn(w.items, id, registered);
      assert registered + [] == registered;
    case _ =>
      assert registered + [] == registered;
  }

  lemma {:induction false} AfterAnchored(steps: seq<Step>)
    requires After(steps).Some?
    ensures Anchored(Registrations(steps), After(steps).value)
  {
    if steps != [] {
      var last := |steps| - 1;
      AfterAnchored(steps[..last]);
      AnchoredOn(Registrations(steps[..last]), After(steps[..last]).value, steps[last]);
    }
  }

  /** Every call, whether from the snapshot or by an adder, calls the callback that was registered under its id. */
  lemma CallsItsOwn(steps: seq<Step>, i: nat)
    requires After(steps).Some? && i < |After(steps).value.calls|
    ensures var w := After(steps).value;
            && |w.invoked| == |w.calls| && 0 <= w.calls[i] < |Registrations(steps)| == w.issued
            && w.invoked[i] == Registrations(steps)[w.calls[i]]
  {
    AfterAnchored(steps);
  }

  /** Tickets are given up, and cancellation requested, by the steps that say so. */
  lemma {:induction false} ReleasedBySteps(steps: seq<Step>)
    requires After(steps).Some?
    ensures forall id: Id :: id in After(steps).value.released <==> Release(id) in steps
    ensures After(steps).value.requested <==> Cancel in steps
  {
    if steps != [] {
      var last := |steps| - 1;
      ReleasedBySteps(steps[..last]);
      assert steps == steps[..last] + [steps[last]];
    }
  }
}
