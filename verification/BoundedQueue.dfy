/** queue_t and the critical sections of queue_push and queue_pop, run by the thread that holds the
    lock. Waiting and signalling are the subject of QueueMonitor. */
module BoundedQueue {
  import opened QueueRing

  class Queue {
    var in_: int
    var out: int
    var count: int
    const size: int
    const buffer: array<Elem>

    ghost function View(): Ring
      reads this, buffer
    {
      Ring(in_, out, count, buffer[..])
    }

    /** A queue without slots never leaves its initial state. */
    ghost predicate Valid()
      reads this, buffer
    {
      && size == buffer.Length
      && if size == 0 then in_ == out == count == 0 else RingOk(View())
    }

    /** The queued elements, oldest first. */
    ghost function Queued(): seq<Elem>
      requires Valid()
      reads this, buffer
    {
      if size == 0 then [] else Contents(View())
    }

    constructor (size: int)
      requires 0 <= size
      ensures this.size == size && Valid() && fresh(buffer)
      ensures Queued() == []
    {
      this.size := size;
      in_, out, count := 0, 0, 0;
      buffer := new Elem[size];
    }

    /** One pass of queue_push under the lock: false where it would wait on full. */
    method Push(elem: Elem) returns (done: bool)
      requires Valid()
      modifies this, buffer
      ensures Valid()
      ensures done == (|old(Queued())| < size)
      ensures Queued() == if done then old(Queued()) + [elem] else old(Queued())
      ensures !done ==> View() == old(View())
    {
      if count == size {
        return false;
      }
      ghost var r := View();
      PushRingAppends(r, elem);
      buffer[in_] := elem;
      in_ := (in_ + 1) % size;
      count := count + 1;
      assert View() == PushRing(r, elem);
      return true;
    }

    /** One pass of queue_pop under the lock: false where it would wait on empty. */
    method Pop() returns (done: bool, elem: Elem)
      requires Valid()
      modifies this
      ensures Valid()
      ensures done == (old(Queued()) != [])
      ensures done ==> elem == old(Queued())[0] && Queued() == old(Queued())[1..]
      ensures !done ==> View() == old(View())
    {
      if count == 0 {
        return false, 0;
      }
      ghost var r := View();
      PopRemoves(r);
      elem := buffer[out];
      out := (out + 1) % size;
      count := count - 1;
      assert View() == PopRing(r);
      return true, elem;
    }
  }

  /** queue_push refuses only a null queue. */
  method QueuePush(q: Queue?, elem: Elem) returns (ok: bool, waits: bool)
    requires q != null ==> q.Valid()
    modifies q, if q != null then {q.buffer} else {}
    ensures ok == (q != null)
    ensures ok ==>
      && q.Valid() && waits == (|old(q.Queued())| == q.size)
      && q.Queued() == old(q.Queued()) + if waits then [] else [elem]
  {
    if q == null {
      return false, false;
    }
    var done := q.Push(elem);
    return true, !done;
  }
}
