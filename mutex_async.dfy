/**
 * The async mutex of `mutex/impls/async_mutex.rs`: a `locked` flag and a
 * queue of completion handles, one per task whose `lock_async` future is
 * waiting. Unlock completes the first handle whose future is still alive,
 * which hands that task the lock; with none, it opens the lock.
 */
module AsyncMutex {
  import opened Common
  import opened ParkWaiters

  /** A queued completion handle and the task whose future it completes. */
  datatype Waiter = Waiter(task: TaskId, handle: Pending)

  /** The queue as wait slots: a live handle is its task, any other handle is dead. */
  function Slots(q: seq<Waiter>): (s: seq<Slot>)
    ensures |s| == |q|
  {
    if q == [] then [] else [if q[0].handle == Live then Some(q[0].task) else None] + Slots(q[1..])
  }

  /** The handles of `task`'s futures after those futures are dropped. */
  function DropIn(q: seq<Waiter>, task: TaskId): (r: seq<Waiter>)
    ensures |r| == |q|
    ensures forall i :: 0 <= i < |q| ==> r[i].task == q[i].task
    ensures Slots(r) == Kill(Slots(q), task)
  {
    if q == [] then []
    else
      var w := if q[0].task == task && q[0].handle == Live then Waiter(task, Dropped) else q[0];
      var rest := DropIn(q[1..], task);
      var r := [w] + rest;
      assert r[1..] == rest;
      assert Slots(q)[1..] == Slots(q[1..]);
      assert Slots(r) == Slots(r)[..1] + Slots(rest);
      r
  }

  lemma {:induction false} SlotsConcat(a: seq<Waiter>, b: seq<Waiter>)
    ensures Slots(a + b) == Slots(a) + Slots(b)
    decreases |a|
  {
    if a == [] {
      assert a + b == b;
    } else {
      assert (a + b)[1..] == a[1..] + b;
      SlotsConcat(a[1..], b);
    }
  }

  /** A task with no handle in the queue is not among the waiting tasks. */
  lemma {:induction false} AbsentNotWaiting(q: seq<Waiter>, task: TaskId)
    requires forall i :: 0 <= i < |q| ==> q[i].task != task
    ensures task !in Waiting(Slots(q))
    decreases |q|
  {
    if q != [] {
      AbsentNotWaiting(q[1..], task);
      assert Slots(q) == Slots(q[..1]) + Slots(q[1..]) by {
        assert q == q[..1] + q[1..];
        SlotsConcat(q[..1], q[1..]);
      }
      WaitingConcat(Slots(q[..1]), Slots(q[1..]));
    }
  }

  /** One pop of the unlock loop, in terms of the wait slots. */
  lemma ServeStep(q: seq<Waiter>)
    requires q != []
    ensures Serve(Slots(q)) == if q[0].handle == Live then (Some(q[0].task), Slots(q[1..])) else Serve(Slots(q[1..]))
  {
    assert Slots(q)[1..] == Slots(q[1..]);
  }

  /**
   * What one unlock does to the queue: the handles before the first live
   * one are popped and dropped, the first live one is popped and its task
   * woken; with no live handle the queue is emptied and nobody is woken.
   */
  function PopLive(q: seq<Waiter>): (r: (Option<TaskId>, seq<Waiter>))
    ensures r.0.None? ==> r.1 == []
    ensures |r.1| <= |q| && r.1 == q[|q| - |r.1|..]
    decreases |q|
  {
    if q == [] then (None, [])
    else if q[0].handle == Live then (Some(q[0].task), q[1..])
    else
      var r := PopLive(q[1..]);
      assert q[1..][|q| - 1 - |r.1|..] == q[|q| - |r.1|..];
      r
  }

  /** On the wait slots, one unlock of the async mutex is one `Serve`. */
  lemma {:induction false} PopLiveServes(q: seq<Waiter>)
    ensures PopLive(q).0 == Serve(Slots(q)).0
    ensures Slots(PopLive(q).1) == Serve(Slots(q)).1
    decreases |q|
  {
    if q != [] {
      ServeStep(q);
      if q[0].handle != Live {
        PopLiveServes(q[1..]);
      }
    }
  }

  /**
   * The loop of `unlock`: pop handles and complete them until one reports
   * its future alive (the debug build asserts it was not complete yet).
   */
  method PopUntilLive(q: seq<Waiter>) returns (woken: Option<TaskId>, rest: seq<Waiter>)
    ensures (woken, rest) == PopLive(q)
  {
    rest := q;
    woken := None;
    while woken.None? && rest != []
      invariant woken.None? ==> PopLive(rest) == PopLive(q)
      invariant woken.Some? ==> (woken, rest) == PopLive(q)
      decreases |rest|
    {
      var w := rest[0];
      rest := rest[1..];
      var result := Complete(w.handle).0;
      if result.Some? {
        assert !result.value;
        woken := Some(w.task);
      }
    }
  }

  class RawFullAsyncMutex {
    /** Whether some task holds the lock. */
    var locked: bool
    /** Handles of waiting `lock_async` futures, front to back. */
    var waiting: seq<Waiter>
    /** Tasks whose `lock_async` future has completed. */
    var done: seq<TaskId>

    /** An open lock has an empty queue: the unlock that opens it drained it. */
    ghost predicate Valid()
      reads this
    {
      waiting != [] ==> locked
    }

    /** `from` an empty queue: open, nobody waiting. */
    constructor ()
      ensures Valid()
      ensures !locked && waiting == [] && done == []
    {
      locked := false;
      waiting := [];
      done := [];
    }

    /** `try_lock`: swap in `true`; the lock is taken iff it was open. */
    method TryLock() returns (ok: bool)
      requires Valid()
      modifies this
      ensures Valid()
      ensures ok == !old(locked) && locked
      ensures waiting == old(waiting) && done == old(done)
    {
      ok := !locked;
      locked := true;
    }

    /**
     * `unlock`: hand the lock to the task of the first live handle, which
     * is returned; with none, open the lock.
     */
    method Unlock() returns (woken: Option<TaskId>)
      requires Valid() && locked
      modifies this
      ensures Valid()
      ensures (woken, waiting) == PopLive(old(waiting))
      ensures woken.None? <==> Waiting(Slots(old(waiting))) == []
      ensures woken.Some? ==> [woken.value] + Waiting(Slots(waiting)) == Waiting(Slots(old(waiting)))
      ensures locked == woken.Some?
      ensures done == old(done) + (if woken.Some? then [woken.value] else [])
    {
      ServeFirstLive(Slots(waiting));
      PopLiveServes(waiting);
      woken, waiting := PopUntilLive(waiting);
      if woken.None? {
        locked := false;
      } else {
        done := done + [woken.value];
      }
    }

    /** The push in `lock_async`: the task's live handle joins the back of the queue. */
    method Enqueue(task: TaskId)
      requires Valid()
      modifies this
      ensures locked == old(locked) && done == old(done)
      ensures locked ==> Valid()
      ensures waiting == old(waiting) + [Waiter(task, Live)]
      ensures Waiting(Slots(waiting)) == Waiting(Slots(old(waiting))) + [task]
    {
      SlotsConcat(waiting, [Waiter(task, Live)]);
      WaitingJoin(Slots(waiting), task);
      assert Slots([Waiter(task, Live)]) == [Some(task)];
      waiting := waiting + [Waiter(task, Live)];
    }

    /**
     * The second `try_lock` of `lock_async`: if the lock was opened after
     * the push, take it and unlock at once, which wakes the front waiter.
     * Until then the queue may be non-empty under an open lock.
     */
    method Recheck() returns (woken: Option<TaskId>)
      requires locked ==> Valid()
      modifies this
      ensures Valid()
      ensures old(locked) ==> woken.None? && locked && waiting == old(waiting) && done == old(done)
      ensures !old(locked) ==> && woken == PopLive(old(waiting)).0
                               && locked == woken.Some?
                               && done == old(done) + (if woken.Some? then [woken.value] else [])
    {
      var again := !locked;
      locked := true;
      woken := None;
      if again {
        woken := Unlock();
      }
    }

    /**
     * `lock_async` up to its await: take the lock if it is open; otherwise
     * queue a handle and, in case the lock was opened meanwhile, take and
     * release it so that some waiter is woken. When `raced`, another task
     * unlocks between the failed `try_lock` and the push. `ready` says the
     * future is already complete.
     */
    method LockAsync(task: TaskId, raced: bool) returns (ready: bool)
      requires Valid()
      requires task !in done && forall i :: 0 <= i < |waiting| ==> waiting[i].task != task
      modifies this
      ensures Valid() && locked
      ensures ready <==> task in done
      ensures ready || (locked && task in Waiting(Slots(waiting)))
      ensures !old(locked) ==> ready && locked && waiting == old(waiting)
      ensures old(locked) && !raced ==> !ready && locked && waiting == old(waiting) + [Waiter(task, Live)]
      ensures old(locked) && raced && Waiting(Slots(old(waiting))) == [] ==> ready && locked
    {
      var ok := TryLock();
      if ok {
        done := done + [task];
        ready := true;
        return;
      }
      if raced {
        AbsentNotWaiting(waiting, task);
        var _ := Unlock();
      }
      assert task !in done;
      ghost var before := waiting;
      Enqueue(task);
      if !locked {
        // The lock is open only if the unlock emptied the queue, so the
        // pushed handle is the one served.
        assert before == [];
        assert waiting == [Waiter(task, Live)];
      }
      var _ := Recheck();
      ready := task in done;
    }

    /** The future of a waiting task is dropped: its handle goes dead. */
    method DropFuture(task: TaskId)
      requires Valid()
      modifies this
      ensures Valid()
      ensures locked == old(locked) && done == old(done)
      ensures waiting == DropIn(old(waiting), task)
      ensures Waiting(Slots(waiting)) == Without(Waiting(Slots(old(waiting))), task)
    {
      waiting := DropIn(waiting, task);
    }
  }

  /** An uncontended `lock_async` completes at once. */
  method UncontendedLockIsReady() returns (ready: bool)
    ensures ready
  {
    var m := new RawFullAsyncMutex();
    ready := m.LockAsync(1, false);
  }
}
