/** Every step of the router, at any depth of the call stack, keeps its invariant. */
module RouterInvariant {
  import opened Wrappers
  import opened Sequences
  import opened Router

  lemma Others(r: State, e: Event, g: Group)
    ensures GroupOf(With(r, e, g), e) == g
    ensures forall x :: x != e ==> GroupOf(With(r, e, g), x) == GroupOf(r, x)
  {
  }

  lemma OnStackPush(stack: seq<Frame>, f: Frame)
    ensures forall e :: OnStack(stack + [f], e) <==> OnStack(stack, e) || e == f.evt
  {
    forall e
      ensures OnStack(stack + [f], e) <==> OnStack(stack, e) || e == f.evt
    {
      if OnStack(stack, e) {
        var k :| 0 <= k < |stack| && stack[k].evt == e;
        assert (stack + [f])[k].evt == e;
      }
      if e == f.evt { assert (stack + [f])[|stack|].evt == e; }
    }
  }

  lemma {:induction false} ValidsMembers(ls: seq<Listener>, l: Listener)
    ensures l in Valids(ls) <==> l in ls && l.valid
  {
    if ls != [] {
      ValidsMembers(ls[1..], l);
      assert ls == [ls[0]] + ls[1..];
    }
  }

  lemma FirstIsLowest(ls: seq<Listener>, l: Listener)
    requires Increasing(Ids(ls)) && ls != [] && l in ls[1..]
    ensures ls[0].id < l.id
  {
    var rest := ls[1..];
    var j :| 0 <= j < |rest| && rest[j] == l;
    assert Ids(ls)[0] < Ids(ls)[j + 1];
  }

  lemma {:induction false} ValidsIncrease(ls: seq<Listener>)
    requires Increasing(Ids(ls))
    ensures Increasing(Ids(Valids(ls)))
  {
    if ls != [] {
      assert Ids(ls)[1..] == Ids(ls[1..]);
      ValidsIncrease(ls[1..]);
      var rest := Valids(ls[1..]);
      forall i | 0 <= i < |rest|
        ensures ls[0].id < rest[i].id
      {
        ValidsMembers(ls[1..], rest[i]);
        FirstIsLowest(ls, rest[i]);
      }
    }
  }

  /** The compaction keeps exactly the valid listeners, in order. */
  lemma ValidsKeep(ls: seq<Listener>)
    requires Increasing(Ids(ls))
    ensures forall l :: l in Valids(ls) <==> l in ls && l.valid
    ensures Increasing(Ids(Valids(ls)))
  {
    forall l
      ensures l in Valids(ls) <==> l in ls && l.valid
    {
      ValidsMembers(ls, l);
    }
    ValidsIncrease(ls);
  }

  /** Removing a listener after its turn does not change what was delivered. */
  lemma {:induction false} DeliveredStable(ids: seq<Id>, turns: seq<nat>, removedAt: map<Id, nat>, id: Id, now: nat)
    requires |ids| == |turns| && id !in removedAt && forall k :: 0 <= k < |turns| ==> turns[k] < now
    ensures Delivered(ids, turns, removedAt[id := now]) == Delivered(ids, turns, removedAt)
  {
    if ids != [] {
      DeliveredStable(ids[..|ids| - 1], turns[..|turns| - 1], removedAt, id, now);
    }
  }

  /** Groups of other events are untouched by what happens to e. */
  lemma GroupKept(w: World, v: World, x: Event, g: Group)
    requires GroupOk(w, x, g)
    requires forall id :: RegisteredFor(v, x, id) <==> RegisteredFor(w, x, id)
    requires forall id :: RegisteredFor(w, x, id) ==> id in v.registered && v.registered[id] == w.registered[id]
    requires forall id :: RegisteredFor(w, x, id) ==>
               (id in v.removedAt <==> id in w.removedAt) && (id in w.removedAt ==> v.removedAt[id] == w.removedAt[id])
    requires x in w.outer ==> x in v.outer && v.outer[x] == w.outer[x]
    requires x !in w.outer ==> x !in v.outer
    ensures GroupOk(v, x, g)
  {
    forall id | RegisteredFor(v, x, id) && Lingers(v, x, g.active, id)
      ensures Has(g, id)
    {
      assert RegisteredFor(w, x, id) && Lingers(w, x, g.active, id);
    }
    forall i | 0 <= i < |g.listeners|
      ensures ListenerOk(v, x, g.active, g.listeners[i])
    {
      assert ListenerOk(w, x, g.active, g.listeners[i]);
    }
    forall i | 0 <= i < |g.pending|
      ensures PendingOk(v, x, g.pending[i])
    {
      assert PendingOk(w, x, g.pending[i]);
    }
  }

  // --- Fire ----------------------------------------------------------------------------------

  lemma FireKeepsStack(w: World, e: Event)
    requires SentriesOk(w) && FramesOk(w) && ClocksOk(w)
    ensures var v := Do(w, Fire(e)); SentriesOk(v) && FramesOk(v) && ClocksOk(v)
  {
    var v := Do(w, Fire(e));
    Others(w.r, e, GroupOf(w.r, e).(active := true));
    var f := v.stack[|w.stack|];
    OnStackPush(w.stack, f);
    assert forall k :: 0 <= k <= |w.stack| ==> v.stack[..k] == w.stack[..k];
    assert w.stack[..|w.stack|] == w.stack;
    forall k | 0 <= k < |v.stack|
      ensures FrameOk(v, v.stack[k])
    {
      if k < |w.stack| { assert FrameOk(w, w.stack[k]); }
    }
  }

  lemma FireKeepsGroups(w: World, e: Event)
    requires ClocksOk(w) && GroupsOk(w)
    ensures GroupsOk(Do(w, Fire(e)))
  {
    var v := Do(w, Fire(e));
    var g := GroupOf(w.r, e);
    Others(w.r, e, g.(active := true));
    forall x
      ensures GroupOk(v, x, GroupOf(v.r, x))
    {
      assert GroupOk(w, x, GroupOf(w.r, x));
      if x != e || g.active {
        GroupKept(w, v, x, GroupOf(w.r, x));
      } else {
        FiredGroup(w, v, e, g);
      }
    }
  }

  lemma FiredGroup(w: World, v: World, e: Event, g: Group)
    requires ClocksOk(w) && GroupOk(w, e, g) && !g.active
    requires v.registered == w.registered && v.removedAt == w.removedAt && e in v.outer && v.outer[e] == w.clock
    ensures GroupOk(v, e, g.(active := true))
  {
    var g' := g.(active := true);
    assert All(g') == All(g);
    forall id | RegisteredFor(v, e, id) && Lingers(v, e, true, id)
      ensures Has(g', id)
    {
      assert RegisteredFor(w, e, id) && Lingers(w, e, false, id);
      assert Has(g, id);
    }
    forall i | 0 <= i < |g.listeners|
      ensures ListenerOk(v, e, true, g.listeners[i])
    {
      assert ListenerOk(w, e, false, g.listeners[i]);
    }
  }

  // --- Next ----------------------------------------------------------------------------------

  lemma SameStackEvents(a: seq<Frame>, b: seq<Frame>)
    requires |a| == |b| && forall k :: 0 <= k < |a| ==> a[k].evt == b[k].evt
    ensures forall e :: OnStack(a, e) <==> OnStack(b, e)
    ensures forall e, k :: 0 <= k <= |a| ==> (OnStack(a[..k], e) <==> OnStack(b[..k], e))
  {
    forall e, k | 0 <= k <= |a|
      ensures OnStack(a[..k], e) <==> OnStack(b[..k], e)
    {
      if OnStack(a[..k], e) {
        var i :| 0 <= i < |a[..k]| && a[..k][i].evt == e;
        assert b[..k][i].evt == e;
      }
      if OnStack(b[..k], e) {
        var i :| 0 <= i < |b[..k]| && b[..k][i].evt == e;
        assert a[..k][i].evt == e;
      }
    }
    assert a[..|a|] == a && b[..|b|] == b;
  }

  lemma NextFrame(w: World, v: World, f: Frame, l: Listener, f': Frame)
    requires FrameOk(w, f) && f.index < |GroupOf(w.r, f.evt).listeners|
    requires l == GroupOf(w.r, f.evt).listeners[f.index]
    requires l.valid <==> l.id !in w.removedAt
    requires l.id in w.removedAt ==> w.removedAt[l.id] < w.clock
    requires f' == f.(index := f.index + 1, turns := f.turns + [w.clock],
                      invoked := if l.valid then f.invoked + [l.id] else f.invoked)
    requires v.r == w.r && v.removedAt == w.removedAt && w.clock < v.clock
    ensures FrameOk(v, f')
  {
    assert f.ids[f.index] == l.id;
    assert f.ids[..f.index + 1][..f.index] == f.ids[..f.index];
    assert (f.turns + [w.clock])[..f.index] == f.turns;
  }

  lemma NextKeepsFrames(w: World)
    requires FramesOk(w) && ClocksOk(w) && GroupsOk(w) && Enabled(w, Next)
    ensures FramesOk(Do(w, Next))
  {
    var v := Do(w, Next);
    var f := Top(w);
    var g := GroupOf(w.r, f.evt);
    assert FrameOk(w, f) && GroupOk(w, f.evt, g);
    assert ListenerOk(w, f.evt, g.active, g.listeners[f.index]);
    NextFrame(w, v, f, g.listeners[f.index], Top(v));
    forall k | 0 <= k < |v.stack|
      ensures FrameOk(v, v.stack[k])
    {
      if k < |v.stack| - 1 { FrameLater(w, v, w.stack[k]); }
    }
  }

  lemma FrameLater(w: World, v: World, f: Frame)
    requires FrameOk(w, f) && v.r == w.r && v.removedAt == w.removedAt && w.clock <= v.clock
    ensures FrameOk(v, f)
  {
  }

  lemma NextKeepsSentries(w: World)
    requires SentriesOk(w) && ClocksOk(w) && Enabled(w, Next)
    ensures SentriesOk(Do(w, Next)) && ClocksOk(Do(w, Next))
  {
    var v := Do(w, Next);
    SameStackEvents(w.stack, v.stack);
  }

  lemma NextKeepsGroups(w: World)
    requires GroupsOk(w) && Enabled(w, Next)
    ensures GroupsOk(Do(w, Next))
  {
    var v := Do(w, Next);
    forall x
      ensures GroupOk(v, x, GroupOf(v.r, x))
    {
      assert GroupOk(w, x, GroupOf(w.r, x));
      GroupKept(w, v, x, GroupOf(w.r, x));
    }
  }

  // --- Return --------------------------------------------------------------------------------

  lemma ReturnKeepsSentries(w: World)
    requires SentriesOk(w) && ClocksOk(w) && Enabled(w, Return)
    ensures var v := Do(w, Return); SentriesOk(v) && ClocksOk(v)
    ensures !Top(w).previous ==> !OnStack(Do(w, Return).stack, Top(w).evt)
  {
    var v := Do(w, Return);
    var f := Top(w);
    var last := |w.stack| - 1;
    Others(w.r, f.evt, GroupOf(v.r, f.evt));
    assert w.stack == v.stack + [f];
    OnStackPush(v.stack, f);
    assert forall k :: 0 <= k <= last ==> v.stack[..k] == w.stack[..k];
    assert f.previous <==> OnStack(v.stack, f.evt);
  }

  lemma ReturnKeepsFrames(w: World)
    requires FramesOk(w) && Enabled(w, Return)
    requires !Top(w).previous ==> !OnStack(Do(w, Return).stack, Top(w).evt)
    ensures FramesOk(Do(w, Return))
  {
    var v := Do(w, Return);
    var f := Top(w);
    Others(w.r, f.evt, GroupOf(v.r, f.evt));
    forall k | 0 <= k < |v.stack|
      ensures FrameOk(v, v.stack[k])
    {
      assert FrameOk(w, w.stack[k]);
      if v.stack[k].evt == f.evt { assert OnStack(v.stack, f.evt); }
    }
  }

  /** Compacting and merging leaves the valid listeners and then the pending ones, still in id order. */
  lemma MergedIncreasing(g: Group)
    requires Increasing(Ids(All(g)))
    ensures Increasing(Ids(Valids(g.listeners) + g.pending))
  {
    var ids := Ids(All(g));
    assert Ids(g.listeners) == ids[..|g.listeners|];
    ValidsKeep(g.listeners);
    var kept := Valids(g.listeners);
    var merged := kept + g.pending;
    forall i, j | 0 <= i < j < |merged|
      ensures Ids(merged)[i] < Ids(merged)[j]
    {
      if j < |kept| {
        assert Ids(kept)[i] < Ids(kept)[j];
      } else {
        var b := |g.listeners| + (j - |kept|);
        assert All(g)[b] == merged[j];
        if i < |kept| {
          assert kept[i] in g.listeners;
          var a :| 0 <= a < |g.listeners| && g.listeners[a] == kept[i];
          assert ids[a] < ids[b];
        } else {
          assert ids[|g.listeners| + (i - |kept|)] < ids[b];
        }
      }
    }
  }

  lemma MergedListeners(w: World, e: Event, g: Group)
    requires GroupOk(w, e, g)
    ensures var merged := Valids(g.listeners) + g.pending;
            forall i :: 0 <= i < |merged| ==> ListenerOk(w, e, false, merged[i])
  {
    var kept := Valids(g.listeners);
    var merged := kept + g.pending;
    assert Ids(g.listeners) == Ids(All(g))[..|g.listeners|];
    ValidsKeep(g.listeners);
    forall i | 0 <= i < |merged|
      ensures ListenerOk(w, e, false, merged[i])
    {
      if i < |kept| {
        assert kept[i] in g.listeners;
        var a :| 0 <= a < |g.listeners| && g.listeners[a] == kept[i];
        assert ListenerOk(w, e, g.active, g.listeners[a]);
      } else {
        assert PendingOk(w, e, g.pending[i - |kept|]);
      }
    }
  }

  /** Merging keeps every valid listener and every pending one. */
  lemma MergedKeeps(g: Group, i: nat)
    requires Increasing(Ids(All(g))) && i < |All(g)| && (i < |g.listeners| ==> g.listeners[i].valid)
    ensures Has(Group(Valids(g.listeners) + g.pending, [], false), All(g)[i].id)
  {
    var kept := Valids(g.listeners);
    var m := Group(kept + g.pending, [], false);
    assert All(m) == kept + g.pending;
    if i < |g.listeners| {
      assert Ids(g.listeners) == Ids(All(g))[..|g.listeners|];
      ValidsKeep(g.listeners);
      assert g.listeners[i] in kept;
      var j :| 0 <= j < |kept| && kept[j] == g.listeners[i];
      assert All(m)[j] == All(g)[i];
    } else {
      assert All(m)[|kept| + (i - |g.listeners|)] == All(g)[i];
    }
  }

  lemma MergedHas(w: World, e: Event, g: Group, id: Id)
    requires GroupOk(w, e, g) && RegisteredFor(w, e, id) && Lingers(w, e, false, id)
    ensures Has(Group(Valids(g.listeners) + g.pending, [], false), id)
  {
    assert Lingers(w, e, g.active, id) && Has(g, id);
    var i :| 0 <= i < |All(g)| && All(g)[i].id == id;
    if i < |g.listeners| { assert ListenerOk(w, e, g.active, g.listeners[i]); }
    MergedKeeps(g, i);
  }

  lemma MergedGroup(w: World, e: Event, g: Group)
    requires GroupOk(w, e, g)
    ensures GroupOk(w, e, Group(Valids(g.listeners) + g.pending, [], false))
  {
    var m := Group(Valids(g.listeners) + g.pending, [], false);
    MergedIncreasing(g);
    assert All(m) == m.listeners;
    MergedListeners(w, e, g);
    forall id | RegisteredFor(w, e, id) && Lingers(w, e, false, id)
      ensures Has(m, id)
    {
      MergedHas(w, e, g, id);
    }
  }

  lemma ReturnKeepsGroups(w: World)
    requires SentriesOk(w) && GroupsOk(w) && Enabled(w, Return)
    ensures GroupsOk(Do(w, Return))
  {
    var v := Do(w, Return);
    var f := Top(w);
    var e := f.evt;
    var g := GroupOf(w.r, e);
    Others(w.r, e, GroupOf(v.r, e));
    assert OnStack(w.stack, e);
    forall x
      ensures GroupOk(v, x, GroupOf(v.r, x))
    {
      assert GroupOk(w, x, GroupOf(w.r, x));
      if x == e && !f.previous {
        MergedGroup(w, e, g);
      }
      GroupKept(w, v, x, GroupOf(v.r, x));
    }
  }

  // --- Add -----------------------------------------------------------------------------------

  lemma AddKeepsStack(w: World, e: Event)
    requires SentriesOk(w) && FramesOk(w) && ClocksOk(w)
    ensures var v := Do(w, Add(e)); SentriesOk(v) && FramesOk(v) && ClocksOk(v)
  {
    var v := Do(w, Add(e));
    assert forall x :: x != e ==> GroupOf(v.r, x) == GroupOf(w.r, x);
    forall k | 0 <= k < |v.stack|
      ensures FrameOk(v, v.stack[k])
    {
      assert FrameOk(w, w.stack[k]);
      if v.stack[k].evt == e { assert OnStack(v.stack, e); }
    }
  }

  lemma AddedInOrder(w: World, e: Event, g: Group, l: Listener)
    requires ClocksOk(w) && GroupOk(w, e, g) && l.id == w.r.nextId
    ensures Increasing(Ids(All(g) + [l]))
  {
    var ids, more := Ids(All(g)), Ids(All(g) + [l]);
    forall i | 0 <= i < |ids|
      ensures ids[i] < l.id
    {
      if i < |g.listeners| { assert ListenerOk(w, e, g.active, g.listeners[i]); }
      else { assert PendingOk(w, e, g.pending[i - |g.listeners|]); }
    }
    assert forall i :: 0 <= i < |ids| ==> more[i] == ids[i];
  }

  function WithListener(g: Group, l: Listener): Group {
    if g.active then g.(pending := g.pending + [l]) else g.(listeners := g.listeners + [l])
  }

  /** v is w after a listener of e with a new id was registered. */
  ghost predicate AddedTo(w: World, v: World, e: Event, l: Listener) {
    && l == Listener(w.r.nextId, true)
    && v.registered == w.registered[l.id := (e, w.clock)] && v.removedAt == w.removedAt && v.outer == w.outer
  }

  lemma AddedListeners(w: World, v: World, e: Event, g: Group, l: Listener)
    requires ClocksOk(w) && AddedTo(w, v, e, l)
    requires forall i :: 0 <= i < |g.listeners| ==> ListenerOk(w, e, g.active, g.listeners[i])
    ensures var g' := WithListener(g, l); forall i :: 0 <= i < |g'.listeners| ==> ListenerOk(v, e, g.active, g'.listeners[i])
  {
    var g' := WithListener(g, l);
    forall i | 0 <= i < |g'.listeners|
      ensures ListenerOk(v, e, g.active, g'.listeners[i])
    {
      if i < |g.listeners| { assert ListenerOk(w, e, g.active, g.listeners[i]); }
    }
  }

  lemma AddedPending(w: World, v: World, e: Event, g: Group, l: Listener)
    requires ClocksOk(w) && AddedTo(w, v, e, l) && (g.active ==> e in w.outer && w.outer[e] < w.clock)
    requires forall i :: 0 <= i < |g.pending| ==> PendingOk(w, e, g.pending[i])
    ensures var g' := WithListener(g, l); forall i :: 0 <= i < |g'.pending| ==> PendingOk(v, e, g'.pending[i])
  {
    var g' := WithListener(g, l);
    forall i | 0 <= i < |g'.pending|
      ensures PendingOk(v, e, g'.pending[i])
    {
      if i < |g.pending| { assert PendingOk(w, e, g.pending[i]); }
    }
  }

  lemma AddedHas(g: Group, l: Listener, id: Id)
    requires g.active || g.pending == []
    requires Has(g, id) || id == l.id
    ensures Has(WithListener(g, l), id) && All(WithListener(g, l)) == All(g) + [l]
  {
    var g' := WithListener(g, l);
    assert All(g') == All(g) + [l];
    if id == l.id {
      assert All(g')[|All(g)|].id == id;
    } else {
      var i :| 0 <= i < |All(g)| && All(g)[i].id == id;
      assert All(g')[i].id == id;
    }
  }

  lemma AddedGroup(w: World, v: World, e: Event, g: Group, l: Listener)
    requires ClocksOk(w) && GroupOk(w, e, g) && AddedTo(w, v, e, l)
    requires g.active ==> e in w.outer && w.outer[e] < w.clock
    ensures GroupOk(v, e, WithListener(g, l))
  {
    AddedHas(g, l, l.id);
    AddedInOrder(w, e, g, l);
    AddedListeners(w, v, e, g, l);
    AddedPending(w, v, e, g, l);
    forall id | RegisteredFor(v, e, id) && Lingers(v, e, g.active, id)
      ensures Has(WithListener(g, l), id)
    {
      if id != l.id { assert RegisteredFor(w, e, id) && Lingers(w, e, g.active, id); }
      AddedHas(g, l, id);
    }
  }

  lemma AddKeepsGroups(w: World, e: Event)
    requires ClocksOk(w) && GroupsOk(w)
    ensures GroupsOk(Do(w, Add(e)))
  {
    var v := Do(w, Add(e));
    assert forall x :: x != e ==> GroupOf(v.r, x) == GroupOf(w.r, x);
    assert w.r.nextId !in w.registered;
    forall x
      ensures GroupOk(v, x, GroupOf(v.r, x))
    {
      assert GroupOk(w, x, GroupOf(w.r, x));
      if x == e {
        AddedGroup(w, v, e, GroupOf(w.r, e), Listener(w.r.nextId, true));
      } else {
        GroupKept(w, v, x, GroupOf(w.r, x));
      }
    }
  }

  // --- Remove --------------------------------------------------------------------------------

  lemma FoundIsIn(ls: seq<Listener>, id: Id)
    ensures id in Ids(ls) <==> IndexOf(ls, id) < |ls|
  {
    var k := IndexOf(ls, id);
    if k < |ls| { assert Ids(ls)[k] == id; }
  }

  lemma RemovedFrame(w: World, e: Event, id: Id, f: Frame)
    requires FrameOk(w, f) && (f.evt == e ==> GroupOf(w.r, e).active)
    ensures FrameOk(Do(w, Remove(e, id)), f)
  {
    var v := Do(w, Remove(e, id));
    FoundIsIn(GroupOf(w.r, e).listeners, id);
    assert f.evt != e ==> GroupOf(v.r, f.evt) == GroupOf(w.r, f.evt);
    if id !in w.removedAt { DeliveredStable(f.ids[..f.index], f.turns, w.removedAt, id, w.clock); }
  }

  lemma RemoveKeepsFrames(w: World, e: Event, id: Id)
    requires SentriesOk(w) && FramesOk(w)
    ensures FramesOk(Do(w, Remove(e, id)))
  {
    var v := Do(w, Remove(e, id));
    forall j | 0 <= j < |v.stack|
      ensures FrameOk(v, v.stack[j])
    {
      assert FrameOk(w, w.stack[j]) && OnStack(w.stack, w.stack[j].evt);
      RemovedFrame(w, e, id, w.stack[j]);
    }
  }

  lemma RemoveKeepsSentries(w: World, e: Event, id: Id)
    requires SentriesOk(w)
    ensures SentriesOk(Do(w, Remove(e, id)))
  {
    var v := Do(w, Remove(e, id));
    assert forall x :: GroupOf(v.r, x).active == GroupOf(w.r, x).active;
  }

  lemma RemoveKeepsClocks(w: World, e: Event, id: Id)
    requires Inv(w)
    ensures ClocksOk(Do(w, Remove(e, id)))
  {
    var v := Do(w, Remove(e, id));
    var g := GroupOf(w.r, e);
    var k := IndexOf(g.listeners, id);
    FoundIsIn(g.listeners, id);
    assert forall x :: GroupOf(v.r, x).active == GroupOf(w.r, x).active;
    assert GroupOk(w, e, g);
    if k < |g.listeners| { assert ListenerOk(w, e, g.active, g.listeners[k]); }
  }

  /** The removal of g's k-th listener, as the history sees it. */
  ghost predicate RemovedIn(w: World, v: World, g: Group, k: nat)
    requires k < |g.listeners|
  {
    && v.registered == w.registered && v.outer == w.outer
    && v.removedAt == var id := g.listeners[k].id; if id in w.removedAt then w.removedAt else w.removedAt[id := w.clock]
  }

  lemma DisabledGroup(w: World, v: World, e: Event, g: Group, k: nat)
    requires ClocksOk(w) && GroupOk(w, e, g) && g.active && k < |g.listeners| && e in w.outer && w.outer[e] < w.clock
    requires RemovedIn(w, v, g, k)
    ensures GroupOk(v, e, g.(listeners := g.listeners[k := g.listeners[k].(valid := false)]))
  {
    var g' := g.(listeners := g.listeners[k := g.listeners[k].(valid := false)]);
    var id := g.listeners[k].id;
    assert Ids(All(g')) == Ids(All(g));
    forall i | 0 <= i < |All(g)| && i != k
      ensures All(g)[i].id != id
    {
      assert Ids(All(g))[i] != Ids(All(g))[k];
    }
    forall i | 0 <= i < |g.listeners|
      ensures ListenerOk(v, e, true, g'.listeners[i])
    {
      assert ListenerOk(w, e, true, g.listeners[i]);
      assert i != k ==> All(g)[i].id != id;
    }
    forall i | 0 <= i < |g.pending|
      ensures PendingOk(v, e, g.pending[i])
    {
      assert PendingOk(w, e, g.pending[i]);
      assert All(g)[|g.listeners| + i].id != id;
    }
    forall x | RegisteredFor(v, e, x) && Lingers(v, e, true, x)
      ensures Has(g', x)
    {
      if x == id {
        assert All(g')[k].id == x;
      } else {
        assert RegisteredFor(w, e, x) && Lingers(w, e, true, x);
        var i :| 0 <= i < |All(g)| && All(g)[i].id == x;
        assert All(g')[i].id == x;
      }
    }
  }

  lemma ErasedInOrder(ls: seq<Listener>, k: nat)
    requires Increasing(Ids(ls)) && k < |ls|
    ensures Increasing(Ids(ls[..k] + ls[k + 1..]))
  {
    var ids, fewer := Ids(ls), Ids(ls[..k] + ls[k + 1..]);
    assert forall i :: 0 <= i < |fewer| ==> fewer[i] == ids[if i < k then i else i + 1];
  }

  lemma OtherIds(ls: seq<Listener>, k: nat)
    requires Increasing(Ids(ls)) && k < |ls|
    ensures forall i :: 0 <= i < |ls| && i != k ==> ls[i].id != ls[k].id
  {
    forall i | 0 <= i < |ls| && i != k
      ensures ls[i].id != ls[k].id
    {
      assert Ids(ls)[i] != Ids(ls)[k];
    }
  }

  lemma ErasedListeners(w: World, v: World, e: Event, ls: seq<Listener>, g: Group, k: nat)
    requires g.listeners == ls && k < |ls| && RemovedIn(w, v, g, k) && Increasing(Ids(ls))
    requires forall i :: 0 <= i < |ls| ==> ListenerOk(w, e, false, ls[i])
    ensures var kept := ls[..k] + ls[k + 1..]; forall i :: 0 <= i < |kept| ==> ListenerOk(v, e, false, kept[i])
  {
    OtherIds(ls, k);
    var kept := ls[..k] + ls[k + 1..];
    forall i | 0 <= i < |kept|
      ensures ListenerOk(v, e, false, kept[i])
    {
      var j := if i < k then i else i + 1;
      assert kept[i] == ls[j] && ListenerOk(w, e, false, ls[j]);
    }
  }

  lemma ErasedHas(g: Group, k: nat, id: Id)
    requires g.pending == [] && k < |g.listeners| && Has(g, id) && id != g.listeners[k].id
    ensures Has(g.(listeners := g.listeners[..k] + g.listeners[k + 1..]), id)
  {
    var g' := g.(listeners := g.listeners[..k] + g.listeners[k + 1..]);
    assert All(g) == g.listeners && All(g') == g'.listeners;
    var i :| 0 <= i < |All(g)| && All(g)[i].id == id;
    assert All(g')[if i < k then i else i - 1].id == id;
  }

  lemma ErasedGroup(w: World, v: World, e: Event, g: Group, k: nat)
    requires ClocksOk(w) && GroupOk(w, e, g) && !g.active && k < |g.listeners| && RemovedIn(w, v, g, k)
    ensures GroupOk(v, e, g.(listeners := g.listeners[..k] + g.listeners[k + 1..]))
  {
    var g' := g.(listeners := g.listeners[..k] + g.listeners[k + 1..]);
    assert All(g) == g.listeners && All(g') == g'.listeners;
    ErasedListeners(w, v, e, g.listeners, g, k);
    ErasedInOrder(g.listeners, k);
    forall x | RegisteredFor(v, e, x) && Lingers(v, e, false, x)
      ensures Has(g', x)
    {
      assert RegisteredFor(w, e, x) && Lingers(w, e, false, x);
      ErasedHas(g, k, x);
    }
  }

  lemma RemovedOther(w: World, e: Event, id: Id, x: Event)
    requires ClocksOk(w) && GroupOk(w, x, GroupOf(w.r, x)) && GroupOk(w, e, GroupOf(w.r, e))
    requires x != e || id !in Ids(GroupOf(w.r, e).listeners)
    ensures var v := Do(w, Remove(e, id)); GroupOk(v, x, GroupOf(v.r, x))
  {
    var v := Do(w, Remove(e, id));
    var g := GroupOf(w.r, e);
    var k := IndexOf(g.listeners, id);
    FoundIsIn(g.listeners, id);
    assert GroupOf(v.r, x) == GroupOf(w.r, x);
    if k < |g.listeners| { assert ListenerOk(w, e, g.active, g.listeners[k]); }
    GroupKept(w, v, x, GroupOf(w.r, x));
  }

  lemma RemovedState(w: World, e: Event, id: Id)
    requires id in Ids(GroupOf(w.r, e).listeners)
    ensures var v, g := Do(w, Remove(e, id)), GroupOf(w.r, e);
            var k := IndexOf(g.listeners, id);
            && k < |g.listeners| && RemovedIn(w, v, g, k)
            && GroupOf(v.r, e) == if g.active then g.(listeners := g.listeners[k := g.listeners[k].(valid := false)])
                                  else g.(listeners := g.listeners[..k] + g.listeners[k + 1..])
  {
    FoundIsIn(GroupOf(w.r, e).listeners, id);
  }

  lemma RemovedThis(w: World, v: World, e: Event, g: Group, g': Group, k: nat)
    requires ClocksOk(w) && GroupOk(w, e, g) && k < |g.listeners| && RemovedIn(w, v, g, k)
    requires g.active ==> e in w.outer && w.outer[e] < w.clock
    requires g' == if g.active then g.(listeners := g.listeners[k := g.listeners[k].(valid := false)])
                   else g.(listeners := g.listeners[..k] + g.listeners[k + 1..])
    ensures GroupOk(v, e, g')
  {
    if g.active { DisabledGroup(w, v, e, g, k); } else { ErasedGroup(w, v, e, g, k); }
  }

  lemma RemoveKeepsGroups(w: World, e: Event, id: Id)
    requires ClocksOk(w) && GroupsOk(w)
    ensures GroupsOk(Do(w, Remove(e, id)))
  {
    var v := Do(w, Remove(e, id));
    assert GroupOk(w, e, GroupOf(w.r, e));
    forall x
      ensures GroupOk(v, x, GroupOf(v.r, x))
    {
      assert GroupOk(w, x, GroupOf(w.r, x));
      if x == e && id in Ids(GroupOf(w.r, e).listeners) {
        var g := GroupOf(w.r, e);
        RemovedState(w, e, id);
        RemovedThis(w, v, e, g, GroupOf(v.r, e), IndexOf(g.listeners, id));
      } else {
        RemovedOther(w, e, id, x);
      }
    }
  }

  lemma {:induction false} AfterInv(seed: Id, steps: seq<Step>)
    requires After(seed, steps).Some?
    ensures Inv(After(seed, steps).value)
  {
    if steps != [] {
      var last := |steps| - 1;
      AfterInv(seed, steps[..last]);
      var w := After(seed, steps[..last]).value;
      match steps[last]
      case Fire(e) => FireKeepsStack(w, e); FireKeepsGroups(w, e);
      case Next => NextKeepsFrames(w); NextKeepsSentries(w); NextKeepsGroups(w);
      case Return => ReturnKeepsSentries(w); ReturnKeepsFrames(w); ReturnKeepsGroups(w);
      case Add(e) => AddKeepsStack(w, e); AddKeepsGroups(w, e);
      case Remove(e, id) => RemoveKeepsFrames(w, e, id); RemoveKeepsSentries(w, e, id); RemoveKeepsClocks(w, e, id); RemoveKeepsGroups(w, e, id);
    }
  }
}
