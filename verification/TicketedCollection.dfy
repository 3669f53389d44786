/** ticketed_collection: every item inserted gets a ticket; giving the ticket up removes the item. */
module TicketedCollection {
  import opened Wrappers
  import SV = SortedVector

  type Ticket = int

  datatype Item<+T> = Item(id: Ticket, element: T)

  /** The compare functor, on two items and on an item and an id. */
  predicate Less<T>(a: Item<T>, b: Item<T>) { a.id < b.id }
  predicate Before<T>(a: Item<T>, id: Ticket) { a.id < id }
  predicate Same<T>(a: Item<T>, id: Ticket) { a.id == id }

  predicate Ascending<T>(s: seq<Item<T>>) {
    forall i, j :: 0 <= i < j < |s| ==> s[i].id < s[j].id
  }

  /** The items without the one that has the id. */
  function Without<T>(s: seq<Item<T>>, id: Ticket): seq<Item<T>> {
    if s == [] then [] else (if s[0].id == id then [] else [s[0]]) + Without(s[1..], id)
  }

  function Ids<T>(s: seq<Item<T>>): (ids: seq<Ticket>)
    ensures |ids| == |s| && forall i :: 0 <= i < |s| ==> ids[i] == s[i].id
  {
    seq(|s|, i requires 0 <= i < |s| => s[i].id)
  }

  lemma FirstIsLowest<T>(s: seq<Item<T>>, id: Ticket)
    requires Ascending(s) && s != [] && id in Ids(s[1..])
    ensures s[0].id < id
  {
    var ids := Ids(s[1..]);
    var j :| 0 <= j < |ids| && ids[j] == id;
    assert s[j + 1].id == id;
  }

  /** Giving up a ticket takes its id out, and keeps the order. */
  lemma {:induction false} WithoutIds<T>(s: seq<Item<T>>, id: Ticket)
    requires Ascending(s)
    ensures Ascending(Without(s, id))
    ensures forall x :: x in Ids(Without(s, id)) <==> x in Ids(s) && x != id
  {
    if s != [] {
      var rest := s[1..];
      WithoutIds(rest, id);
      var kept := Without(rest, id);
      assert Ids(s) == [s[0].id] + Ids(rest);
      assert Ids(Without(s, id)) == (if s[0].id == id then [] else [s[0].id]) + Ids(kept);
      forall i | 0 <= i < |kept|
        ensures s[0].id < kept[i].id
      {
        assert Ids(kept)[i] in Ids(kept);
        FirstIsLowest(s, kept[i].id);
      }
      if s[0].id in Ids(rest) { FirstIsLowest(s, s[0].id); }
    }
  }

  lemma {:induction false} WithoutAbsent<T>(s: seq<Item<T>>, id: Ticket)
    requires forall i :: 0 <= i < |s| ==> s[i].id != id
    ensures Without(s, id) == s
  {
    if s != [] { WithoutAbsent(s[1..], id); }
  }

  lemma {:induction false} WithoutFound<T>(s: seq<Item<T>>, id: Ticket, k: nat)
    requires Ascending(s) && k < |s| && s[k].id == id
    ensures Without(s, id) == s[..k] + s[k + 1..] && Ascending(Without(s, id))
  {
    if k == 0 {
      WithoutAbsent(s[1..], id);
    } else {
      var tail := s[1..];
      assert tail[k - 1] == s[k] && s[0].id < s[k].id;
      WithoutFound(tail, id, k - 1);
      assert [s[0]] + (tail[..k - 1] + tail[k..]) == s[..k] + s[k + 1..];
    }
    ErasedAscending(s, k);
  }

  lemma ErasedAscending<T>(s: seq<Item<T>>, k: nat)
    requires Ascending(s) && k < |s|
    ensures Ascending(s[..k] + s[k + 1..])
  {
    var r := s[..k] + s[k + 1..];
    assert forall i :: 0 <= i < |r| ==> r[i] == s[if i < k then i else i + 1];
  }

  /** An id above all others belongs at the end. */
  lemma InsertsLast<T(!new)>(s: seq<Item<T>>, item: Item<T>)
    requires forall i :: 0 <= i < |s| ==> s[i].id < item.id
    ensures SV.Inserted(s, SV.PartitionPoint(s, Less, item), item) == s + [item]
  {
    SV.PartitionPointOfAll(s, Less, item);
  }

  class TicketedCollection<T(==,!new)> {
    var seed: Ticket
    const items: SV.SortedVector<Item<T>>

    ghost predicate Valid()
      reads this, items
    {
      && items.less == Less && Ascending(items.data)
      && forall i :: 0 <= i < |items.data| ==> items.data[i].id < seed
    }

    constructor ()
      ensures Valid() && fresh(items) && items.data == [] && seed == 0
    {
      seed := 0;
      items := new SV.SortedVector<Item<T>>(Less);
    }

    /** The ids only grow, so the sorted insert always appends. */
    method Insert(element: T) returns (id: Ticket)
      requires Valid()
      modifies this, items
      ensures Valid() && id == old(seed) && seed == old(seed) + 1
      ensures items.data == old(items.data) + [Item(id, element)]
    {
      id := seed;
      seed := seed + 1;
      InsertsLast(items.data, Item(id, element));
      items.Insert(Item(id, element));
    }

    /** A ticket given up: its item is found exactly when it is still there, and goes. */
    method Release(id: Ticket) returns (found: bool)
      requires Valid()
      modifies items
      ensures Valid() && items.data == Without(old(items.data), id)
      ensures found <==> exists i :: 0 <= i < |old(items.data)| && old(items.data)[i].id == id
    {
      var at := items.Find(id, Before, Same);
      found := at.Some?;
      if found {
        WithoutFound(items.data, id, at.value);
        items.Erase(at.value);
      } else {
        forall i | 0 <= i < |items.data|
          ensures items.data[i].id != id
        {
          assert !Same(items.data[i], id);
        }
        WithoutAbsent(items.data, id);
      }
    }
  }
}
