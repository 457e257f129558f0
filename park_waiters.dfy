/**
 * The FIFO of parked threads kept by the parking mutexes. Each entry is
 * a slot holding the id of a waiting thread; a thread that stops waiting
 * (its reference is dropped, or its slot is emptied) leaves a dead slot
 * behind. Unlock pops from the front, skipping dead slots.
 */
module ParkWaiters {
  import opened Common

  /** A queue entry: the waiting thread while it still waits, `None` once it gave up. */
  type Slot = Option<ThreadId>

  /** A step another thread takes while the modelled thread is parked. */
  datatype ParkOther =
    | OtherUnlock                 // the holder releases the lock
    | OtherLock(id: ThreadId)     // thread `id` calls lock
    | OtherGiveUp(id: ThreadId)   // thread `id` stops waiting (timeout)

  /** The ids in the live slots, front to back. */
  function Waiting(q: seq<Slot>): (ids: seq<ThreadId>)
    ensures |ids| <= |q|
  {
    if q == [] then []
    else (if q[0].Some? then [q[0].value] else []) + Waiting(q[1..])
  }

  /** A thread waits exactly when the queue holds a live slot with its id. */
  lemma {:induction false} WaitingMembers(q: seq<Slot>, id: ThreadId)
    ensures id in Waiting(q) <==> Some(id) in q
    decreases |q|
  {
    if q != [] {
      WaitingMembers(q[1..], id);
      assert q == [q[0]] + q[1..];
    }
  }

  /** `ids` without any occurrence of `id`. */
  function Without(ids: seq<ThreadId>, id: ThreadId): (r: seq<ThreadId>)
    ensures forall x :: x in r <==> x in ids && x != id
  {
    if ids == [] then []
    else (if ids[0] == id then [] else [ids[0]]) + Without(ids[1..], id)
  }

  /**
   * One unlock's walk of the queue: dead slots at the front are dropped,
   * and the first live slot is removed and served; with no live slot the
   * queue is emptied.
   */
  function Serve(q: seq<Slot>): (r: (Option<ThreadId>, seq<Slot>))
    ensures r.0.None? ==> r.1 == []
    ensures |r.1| <= |q| && r.1 == q[|q| - |r.1|..]
    ensures q != [] ==> |r.1| < |q|
  {
    if q == [] then (None, [])
    else if q[0].Some? then (q[0], q[1..])
    else
      var r := Serve(q[1..]);
      assert q[1..][|q| - 1 - |r.1|..] == q[|q| - |r.1|..];
      r
  }

  /**
   * An unlock serves the first waiting thread and leaves the rest waiting
   * in order; it serves nobody exactly when nobody waits.
   */
  lemma {:induction false} ServeFirstLive(q: seq<Slot>)
    ensures Serve(q).0.None? <==> Waiting(q) == []
    ensures Serve(q).0.Some? ==> [Serve(q).0.value] + Waiting(Serve(q).1) == Waiting(q)
    decreases |q|
  {
    if q != [] && q[0].None? {
      ServeFirstLive(q[1..]);
    }
  }

  /** Thread `id` gives up: its slots become dead, every other slot is kept. */
  function Kill(q: seq<Slot>, id: ThreadId): (r: seq<Slot>)
    ensures |r| == |q|
    ensures Waiting(r) == Without(Waiting(q), id)
  {
    if q == [] then []
    else
      var rest := Kill(q[1..], id);
      var r := [if q[0] == Some(id) then None else q[0]] + rest;
      assert r[1..] == rest;
      if q[0].Some? then
        WithoutCons(q[0].value, Waiting(q[1..]), id);
        r
      else
        assert Waiting(r) == Waiting(rest) && Waiting(q) == Waiting(q[1..]);
        r
  }

  /** `id` is the first live waiter and waits nowhere else in the queue. */
  predicate FirstOnce(ids: seq<ThreadId>, id: ThreadId)
  {
    ids != [] && ids[0] == id && id !in ids[1..]
  }

  lemma WithoutCons(x: ThreadId, ids: seq<ThreadId>, id: ThreadId)
    ensures Without([x] + ids, id) == (if x == id then [] else [x]) + Without(ids, id)
  {
    assert ([x] + ids)[1..] == ids;
  }

  lemma {:induction false} WaitingConcat(a: seq<Slot>, b: seq<Slot>)
    ensures Waiting(a + b) == Waiting(a) + Waiting(b)
    decreases |a|
  {
    if a == [] {
      assert a + b == b;
    } else {
      assert (a + b)[1..] == a[1..] + b;
      WaitingConcat(a[1..], b);
      calc {
        Waiting(a + b);
        (if a[0].Some? then [a[0].value] else []) + Waiting(a[1..] + b);
        (if a[0].Some? then [a[0].value] else []) + (Waiting(a[1..]) + Waiting(b));
      }
    }
  }

  /** Joining the queue appends the thread at the back of the live order. */
  lemma WaitingJoin(q: seq<Slot>, id: ThreadId)
    ensures Waiting(q + [Some(id)]) == Waiting(q) + [id]
  {
    WaitingConcat(q, [Some(id)]);
    assert [Some(id)][1..] == [];
  }

  /** A thread that joins a queue with no live waiter is served by the next unlock, which empties the queue. */
  lemma {:induction false} ServeLoneWaiter(q: seq<Slot>, id: ThreadId)
    requires Waiting(q) == []
    ensures Serve(q + [Some(id)]) == (Some(id), [])
    decreases |q|
  {
    if q == [] {
      assert [Some(id)][1..] == [];
    } else {
      assert q[0].None?;
      assert (q + [Some(id)])[1..] == q[1..] + [Some(id)];
      ServeLoneWaiter(q[1..], id);
    }
  }

  /** The threads successive unlocks hand the lock to, until the queue is empty. */
  function HandOrder(q: seq<Slot>): seq<ThreadId>
    decreases |q|
  {
    var r := Serve(q);
    if r.0.None? then [] else [r.0.value] + HandOrder(r.1)
  }

  /** Unlocks serve the waiting threads first in, first out. */
  lemma {:induction false} HandOrderIsFifo(q: seq<Slot>)
    ensures HandOrder(q) == Waiting(q)
    decreases |q|
  {
    var r := Serve(q);
    ServeFirstLive(q);
    if r.0.Some? {
      HandOrderIsFifo(r.1);
    }
  }

  /** A thread that joins is handed the lock after every thread already waiting. */
  lemma JoinServedLast(q: seq<Slot>, id: ThreadId)
    ensures HandOrder(q + [Some(id)]) == HandOrder(q) + [id]
  {
    HandOrderIsFifo(q + [Some(id)]);
    HandOrderIsFifo(q);
    WaitingJoin(q, id);
  }

  /** A thread that gave up is never handed the lock; the others keep their order. */
  lemma KilledNeverServed(q: seq<Slot>, id: ThreadId)
    ensures HandOrder(Kill(q, id)) == Without(HandOrder(q), id)
    ensures id !in HandOrder(Kill(q, id))
  {
    HandOrderIsFifo(Kill(q, id));
    HandOrderIsFifo(q);
  }
}
