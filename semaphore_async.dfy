/**
 * `semaphore/impls/async_semaphore.rs`: a count of permits and a FIFO of
 * completion handles of waiting `wait_async` futures, behind one spin lock
 * (each method body runs as one step under that lock). At count zero a
 * signal pops handles until one is still awaited and completes it, which
 * hands that task the permit; with no awaited handle left, or with
 * permits already counted, the permit is added to the count.
 */
module AsyncSemaphores {
  import opened Common
  import opened ParkWaiters
  import opened AsyncMutex

  class FullAsyncSemaphore {
    /** The number of permits. */
    var count: nat
    /** Handles of waiting `wait_async` futures, front to back. */
    var waiting: seq<Waiter>
    /** The tasks whose futures were completed, in order. */
    ghost var done: seq<TaskId>

    /** Permits are held only while no handle is queued. */
    ghost predicate Valid()
      reads this
    {
      count > 0 ==> waiting == []
    }

    /** `new(start_count)`. */
    constructor (startCount: nat)
      ensures Valid() && count == startCount && waiting == [] && done == []
    {
      count := startCount;
      waiting := [];
      done := [];
    }

    /** `Default`: no permits. */
    constructor Default()
      ensures Valid() && count == 0 && waiting == [] && done == []
    {
      count := 0;
      waiting := [];
      done := [];
    }

    /** `try_wait`: fail at zero, otherwise take one permit. */
    method TryWait() returns (ok: bool)
      requires Valid()
      modifies this
      ensures Valid()
      ensures ok <==> old(count) > 0
      ensures count == if ok then old(count) - 1 else 0
      ensures waiting == old(waiting) && done == old(done)
    {
      ok := count > 0;
      if ok {
        count := count - 1;
      }
    }

    /**
     * `signal` as evidently intended: at zero, hand the permit to the first
     * task still waiting, skipping and discarding dropped handles; else,
     * or with no such task, add the permit to the count.
     */
    method Signal() returns (woken: Option<TaskId>)
      requires Valid()
      modifies this
      ensures Valid()
      ensures woken.None? <==> old(count) > 0 || Waiting(Slots(old(waiting))) == []
      ensures woken.Some? ==> [woken.value] + Waiting(Slots(waiting)) == Waiting(Slots(old(waiting)))
      ensures old(count) == 0 ==> (woken, waiting) == PopLive(old(waiting))
      ensures old(count) > 0 ==> waiting == old(waiting)
      ensures count == if woken.Some? then 0 else old(count) + 1
      ensures done == old(done) + (if woken.Some? then [woken.value] else [])
    {
      woken := None;
      if count == 0 {
        ServeFirstLive(Slots(waiting));
        PopLiveServes(waiting);
        woken, waiting := PopUntilLive(waiting);
        if woken.Some? {
          done := done + [woken.value];
          return;
        }
      }
      count := count + 1;
    }

    /**
     * `signal` AS WRITTEN: it asserts that completing the handle reported
     * an earlier completion. A handle still awaited reports a fresh one,
     * so every hand-off to a waiting task panics, after the handle has
     * been completed and popped.
     */
    method SignalAsWritten() returns (woken: Option<TaskId>, panicked: bool)
      requires Valid()
      modifies this
      ensures Valid()
      ensures panicked <==> woken.Some?
      ensures woken.None? <==> old(count) > 0 || Waiting(Slots(old(waiting))) == []
      ensures old(count) == 0 ==> (woken, waiting) == PopLive(old(waiting))
      ensures old(count) > 0 ==> waiting == old(waiting)
      ensures count == if woken.Some? then 0 else old(count) + 1
      ensures done == old(done) + (if woken.Some? then [woken.value] else [])
    {
      woken := None;
      panicked := false;
      if count == 0 {
        ServeFirstLive(Slots(waiting));
        PopLiveServes(waiting);
        woken, waiting := PopUntilLive(waiting);
        if woken.Some? {
          done := done + [woken.value];
          // `complete()` reported `Some(false)`: the assertion fails.
          panicked := true;
          return;
        }
      }
      count := count + 1;
    }

    /**
     * `wait_async` for `task` up to its await: take a permit if there is
     * one (ready at once), otherwise queue a live handle at the back.
     */
    method WaitAsync(task: TaskId) returns (ready: bool)
      requires Valid()
      modifies this
      ensures Valid()
      ensures ready <==> old(count) > 0
      ensures ready ==> count == old(count) - 1 && waiting == old(waiting)
      ensures !ready ==> count == 0 && waiting == old(waiting) + [Waiter(task, Live)]
      ensures !ready ==> Waiting(Slots(waiting)) == Waiting(Slots(old(waiting))) + [task]
      ensures done == old(done)
    {
      if count > 0 {
        count := count - 1;
        ready := true;
        return;
      }
      ready := false;
      SlotsConcat(waiting, [Waiter(task, Live)]);
      WaitingJoin(Slots(waiting), task);
      assert Slots([Waiter(task, Live)]) == [Some(task)];
      waiting := waiting + [Waiter(task, Live)];
    }

    /** The future of a waiting task is dropped: its handle goes dead. */
    method DropFuture(task: TaskId)
      requires Valid()
      modifies this
      ensures Valid()
      ensures count == old(count) && done == old(done)
      ensures waiting == DropIn(old(waiting), task)
      ensures Waiting(Slots(waiting)) == Without(Waiting(Slots(old(waiting))), task)
    {
      waiting := DropIn(waiting, task);
    }

    /** `count`. */
    method Count() returns (c: nat)
      ensures c == count
    {
      c := count;
    }
  }

  /** As written: signalling a semaphore that a task waits on panics. */
  method SignalToWaiterPanics() returns (ready: bool, panicked: bool)
    ensures !ready && panicked
  {
    var s := new FullAsyncSemaphore.Default();
    ready := s.WaitAsync(1);
    var woken;
    woken, panicked := s.SignalAsWritten();
  }

  /** Corrected: the signal hands its permit to the waiting task and the count stays zero. */
  method SignalWakesWaiter() returns (ready: bool, woken: Option<TaskId>, left: nat)
    ensures !ready && woken == Some(1) && left == 0
  {
    var s := new FullAsyncSemaphore.Default();
    ready := s.WaitAsync(1);
    woken := s.Signal();
    left := s.Count();
  }

  /** A dropped waiter is skipped: the permit goes to the next task still waiting. */
  method DroppedWaiterSkipped() returns (woken: Option<TaskId>)
    ensures woken == Some(2)
  {
    var s := new FullAsyncSemaphore.Default();
    var r1 := s.WaitAsync(1);
    var r2 := s.WaitAsync(2);
    s.DropFuture(1);
    woken := s.Signal();
  }
}
