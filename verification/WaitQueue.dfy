/** The queue of requests waiting to run, and the running batch (sim/queue.go, sim/batch.go). */
module WaitQueues {
  import opened Requests
  import opened Sequences
  import opened Scheduler

  class Batch {
    var requests: seq<Request>

    constructor ()
      ensures requests == []
    {
      requests := [];
    }
  }

  class WaitQueue {
    var queue: seq<Request>

    constructor ()
      ensures queue == []
    {
      queue := [];
    }

    method Enqueue(r: Request)
      modifies this
      ensures queue == old(queue) + [r]
    {
      queue := queue + [r];
    }

    function Len(): nat
      reads this
    {
      |queue|
    }

    function PeekAt(i: int): Option<Request>
      reads this
    {
      if i < 0 || i >= |queue| then None else Some(queue[i])
    }

    method PrependFront(r: Request)
      modifies this
      ensures queue == [r] + old(queue)
    {
      queue := [r] + queue;
    }

    /** Puts the queue in the scheduler's order, in place. */
    method Reorder(order: QueueOrder)
      modifies this
      ensures queue == Ordered(order, old(queue))
    {
      if queue == [] {
        assert Ordered(order, queue) == queue;
        return;
      }
      var first := queue[0];
      var a := new Request[|queue|](_ => first);
      var i := 0;
      while i < |queue|
        invariant i <= |queue| == a.Length && queue == old(queue)
        invariant a[..i] == queue[..i]
      {
        a[i] := queue[i];
        i := i + 1;
      }
      assert a[..] == queue;
      OrderQueue(order, a);
      queue := a[..];
    }

    /** Removes the first occurrence of `r`, found by identity. */
    method Remove(r: Request) returns (found: bool)
      modifies this
      ensures found <==> r in old(queue)
      ensures !found ==> queue == old(queue)
      ensures found ==> exists i :: 0 <= i < |old(queue)| && old(queue)[i] == r && r !in old(queue)[..i]
                                    && queue == RemoveAt(old(queue), i)
    {
      var i := 0;
      while i < |queue|
        invariant i <= |queue| && queue == old(queue)
        invariant r !in queue[..i]
      {
        if queue[i] == r {
          queue := queue[..i] + queue[i + 1..];
          return true;
        }
        i := i + 1;
      }
      return false;
    }

    /** Takes the head, if there is one. */
    method DequeueBatch() returns (r: Option<Request>)
      modifies this
      ensures old(queue) == [] ==> r == None && queue == []
      ensures old(queue) != [] ==> r == Some(old(queue)[0]) && queue == old(queue)[1..]
    {
      if queue == [] { return None; }
      r := Some(queue[0]);
      queue := queue[1..];
    }
  }
}
