/** base_task_payload: its fields as a value, and the two ways its lock-protected sections change them. */
module TaskPayload {
  import opened Wrappers
  import opened TaskProgram

  /** A registered continuation: the payload to run, and the payload whose result it will read. */
  datatype Cont = Cont(parent: Pid, task: Pid)

  datatype Payload = Payload(
    completed: bool,
    result: Option<Outcome>,
    pending: seq<Cont>,
    redirect: Option<Pid>)

  const NEW: Payload := Payload(false, None, [], None)

  function Reparent(batch: seq<Cont>, parent: Pid): (r: seq<Cont>)
    ensures |r| == |batch|
    ensures forall i :: 0 <= i < |batch| ==> r[i] == Cont(parent, batch[i].task)
  {
    seq(|batch|, i requires 0 <= i < |batch| => batch[i].(parent := parent))
  }

  /** What cannibalize leaves behind. */
  function Taken(p: Payload, redirect: Option<Pid>): Payload {
    p.(completed := true, pending := [], redirect := redirect)
  }

  /** What internal_add_continuations leaves behind. */
  function Extended(p: Payload, batch: seq<Cont>): Payload {
    p.(pending := p.pending + batch)
  }

  /** m_continuation: a single slot until a second continuation arrives, then a vector. */
  datatype Container = Solo(slot: Option<Cont>) | Many(all: seq<Cont>)

  /** continuation_span */
  function Items(c: Container): seq<Cont> {
    match c
    case Solo(None) => []
    case Solo(Some(cont)) => [cont]
    case Many(all) => all
  }

  datatype Thrown = CompletedTwice

  /** path follows the redirects from its first payload to one that has none. */
  ghost predicate IsWalk(path: seq<BasePayload>)
    reads path
  {
    && |path| > 0
    && (forall i :: 0 <= i < |path| - 1 ==> path[i].redirect == path[i + 1])
    && path[|path| - 1].redirect == null
  }

  /** The batch as it arrives at the end of the path: every hop reparents it. */
  ghost function Arriving(path: seq<BasePayload>, batch: seq<Cont>): (r: seq<Cont>)
    requires |path| > 0
    ensures |r| == |batch|
  {
    if |path| == 1 then batch else Reparent(batch, path[|path| - 1].id)
  }

  lemma FirstHop(path: seq<BasePayload>)
    requires IsWalk(path)
    ensures |path| > 1 ==> path[0].redirect == path[1]
  {
  }

  class BasePayload {
    const id: Pid
    var completed: bool
    var result: Option<Outcome>
    var continuation: Container
    var redirect: BasePayload?

    constructor (id: Pid)
      ensures this.id == id && View() == NEW && redirect == null
    {
      this.id := id;
      completed := false;
      result := None;
      continuation := Solo(None);
      redirect := null;
    }

    ghost function View(): Payload
      reads this, if redirect == null then {} else {redirect}
    {
      Payload(completed, result, Items(continuation), if redirect == null then None else Some(redirect.id))
    }

    /** Marks the payload completed, points it at taskRedirect and hands its continuations over. */
    method Cannibalize(taskRedirect: BasePayload?) returns (r: Result<seq<Cont>, Thrown>)
      modifies this
      ensures old(completed) ==> r == Failure(CompletedTwice) && View() == old(View()) && redirect == old(redirect)
      ensures !old(completed) ==>
                && r == Success(old(View().pending)) && redirect == taskRedirect
                && View() == Taken(old(View()), if taskRedirect == null then None else Some(taskRedirect.id))
    {
      if completed {
        return Failure(CompletedTwice);
      }
      redirect := taskRedirect;
      r := Success(Items(continuation));
      // a moved-from container keeps its shape and holds nothing
      continuation := if continuation.Solo? then Solo(None) else Many([]);
      completed := true;
    }

    /** Whatever shape the container has, the batch ends up behind what it held. */
    method InternalAddContinuations(batch: seq<Cont>) returns (ok: bool)
      requires batch != []
      modifies this`continuation
      ensures ok == !completed
      ensures View() == if ok then Extended(old(View()), batch) else old(View())
    {
      if completed {
        return false;
      }
      ok := true;
      match continuation {
        case Many(all) =>
          continuation := Many(all + batch);
        case Solo(slot) =>
          if slot == None && |batch| == 1 {
            continuation := Solo(Some(batch[0]));
          } else if slot.Some? {
            continuation := Many([slot.value]);
            continuation := Many(continuation.all + batch);
          } else {
            continuation := Many(batch);
          }
      }
    }

    /**
      Registers the batch at the end of the redirect chain.  When that payload is already
      completed its continuations are handed to their schedulers here, in order.
      */
    method AddContinuations(batch: seq<Cont>, ghost path: seq<BasePayload>, ghost root: BasePayload)
      returns (scheduled: seq<Cont>)
      requires |path| > 0 && path[0] == this && path[|path| - 1] == root && (batch != [] ==> IsWalk(path))
      modifies root`continuation
      ensures batch == [] ==> root.View() == old(root.View()) && scheduled == []
      ensures batch != [] ==> IsWalk(path)
      ensures if old(root.completed) then
                root.View() == old(root.View()) && scheduled == Arriving(path, batch)
              else
                root.View() == Extended(old(root.View()), Arriving(path, batch)) && scheduled == []
      decreases |path|
    {
      scheduled := [];
      if batch == [] {
        assert Arriving(path, batch) == [] && root.View() == Extended(root.View(), []);
        return;
      }
      FirstHop(path);
      if redirect != null {
        var moved := Reparent(batch, redirect.id);
        scheduled := redirect.AddContinuations(moved, path[1..], root);
        assert Arriving(path[1..], moved) == Arriving(path, batch);
      } else {
        if completed {
          var i := 0;
          while i < |batch|
            invariant 0 <= i <= |batch| && scheduled == batch[..i]
          {
            scheduled := scheduled + [batch[i]];
            i := i + 1;
          }
          assert batch[..i] == batch;
        } else {
          var _ := InternalAddContinuations(batch);
        }
      }
    }

    /** do_completion: what waited is handed to the schedulers in registration order. */
    method DoCompletion() returns (r: Result<seq<Cont>, Thrown>)
      modifies this
      ensures old(completed) ==> r == Failure(CompletedTwice) && View() == old(View())
      ensures !old(completed) ==> r == Success(old(View().pending)) && View() == Taken(old(View()), None)
    {
      var taken := Cannibalize(null);
      if taken.Failure? {
        return taken;
      }
      var scheduled: seq<Cont> := [];
      for i := 0 to |taken.value|
        invariant scheduled == taken.value[..i]
      {
        scheduled := scheduled + [taken.value[i]];
      }
      assert taken.value[..|taken.value|] == taken.value;
      r := Success(scheduled);
    }

    /** The result is written before the check for a second completion, and stays written. */
    method Complete(value: Outcome) returns (r: Result<seq<Cont>, Thrown>)
      modifies this
      ensures result == Some(value)
      ensures old(completed) ==> r == Failure(CompletedTwice) && View() == old(View()).(result := Some(value))
      ensures !old(completed) ==>
                r == Success(old(View().pending)) && View() == Taken(old(View()), None).(result := Some(value))
    {
      result := Some(value);
      r := DoCompletion();
    }

    /**
      Moves left's continuations behind those of whatever right resolves to.  When left itself
      is on right's path and has continuations to move, the walk has no end to reach.
      */
    static method CollapseLeftIntoRight(left: BasePayload, right: BasePayload, ghost path: seq<BasePayload>, ghost root: BasePayload)
      returns (r: Result<seq<Cont>, Thrown>)
      requires IsWalk(path) && path[0] == right && path[|path| - 1] == root
      requires left.completed || Items(left.continuation) == [] || left !in path
      modifies left, root`continuation
      ensures left !in path ==> IsWalk(path)
      ensures old(left.completed) ==>
                r == Failure(CompletedTwice) && left.View() == old(left.View()) &&
                root.View() == old(root.View())
      ensures !old(left.completed) ==>
                left.redirect == right && left.View() == Taken(old(left.View()), Some(right.id))
      ensures !old(left.completed) && left in path ==>
                r == Success([]) && (root != left ==> root.View() == old(root.View()))
      ensures !old(left.completed) && left !in path ==>
                var moved := Reparent(old(left.View().pending), root.id);
                if old(root.completed) then root.View() == old(root.View()) && r == Success(moved)
                else root.View() == Extended(old(root.View()), moved) && r == Success([])
    {
      var taken := left.Cannibalize(right);
      if taken.Failure? {
        return taken;
      }
      var moved := Reparent(taken.value, right.id);
      assert left !in path ==> Arriving(path, moved) == Reparent(taken.value, path[|path| - 1].id);
      var scheduled := right.AddContinuations(moved, path, root);
      r := Success(scheduled);
    }
  }
}
