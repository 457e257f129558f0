/**
 * The parking mutex of `mutex/impls/park_mutex.rs`: a `locked` flag plus,
 * behind an inner spin lock, the thread the lock was last handed to and a
 * FIFO of weak references to parked threads. Each method body runs under
 * the inner spin lock, so each step between two parks is one atomic step
 * here; while the modelled thread is parked, one step of `others` runs.
 */
module ParkMutex {
  import opened Common
  import opened ParkWaiters

  class RawParkMutex {
    /** Whether some thread holds the lock. */
    var locked: bool
    /** The thread the last unlock handed the lock to. */
    var holder: Option<ThreadId>
    /** Parked threads; a dead slot is a waiter whose reference was dropped. */
    var parkers: seq<Slot>
    /** Raw calls made by the modelled thread, with their outcomes. */
    ghost var calls: seq<MutexCall>

    /** Nobody waits on an open lock, and a hand-off target holds the lock. */
    ghost predicate Valid()
      reads this
    {
      (Waiting(parkers) != [] ==> locked) && (holder.Some? ==> locked)
    }

    /** `Default`: open, no holder, no parked thread. */
    constructor ()
      ensures Valid()
      ensures !locked && holder.None? && parkers == [] && calls == []
    {
      locked := false;
      holder := None;
      parkers := [];
      calls := [];
    }

    /** `try_lock`: swap in `true`; the lock is taken iff it was open. */
    method TryLock() returns (ok: bool)
      requires Valid()
      modifies this
      ensures Valid()
      ensures ok == !old(locked) && locked
      ensures holder == old(holder) && parkers == old(parkers)
      ensures calls == old(calls) + [TriedLock(ok)]
    {
      ok := !locked;
      locked := true;
      calls := calls + [TriedLock(ok)];
    }

    /**
     * The loop of `unlock`: pop slots until a live one is found and hand
     * the lock to it, or clear the flag when the queue runs out.
     */
    method Handoff() returns (unparked: Option<ThreadId>)
      requires locked
      modifies this
      ensures (unparked, parkers) == Serve(old(parkers))
      ensures holder == unparked && locked == unparked.Some?
      ensures calls == old(calls)
    {
      while true
        invariant locked
        invariant Serve(parkers) == Serve(old(parkers))
        invariant calls == old(calls)
        decreases |parkers|
      {
        if parkers == [] {
          locked := false;
          holder := None;
          unparked := None;
          return;
        }
        var parker := parkers[0];
        parkers := parkers[1..];
        if parker.Some? {
          holder := parker;
          unparked := parker;
          return;
        }
      }
    }

    /**
     * `unlock`: hand the lock to the first live parked thread, which is
     * returned (it is the thread unparked); with none, open the lock.
     */
    method Unlock() returns (unparked: Option<ThreadId>)
      requires Valid() && locked
      modifies this
      ensures Valid()
      ensures (unparked, parkers) == Serve(old(parkers))
      ensures unparked.None? <==> old(Waiting(parkers)) == []
      ensures unparked.Some? ==> [unparked.value] + Waiting(parkers) == old(Waiting(parkers))
      ensures holder == unparked && locked == unparked.Some?
      ensures calls == old(calls) + [Unlocked]
    {
      ServeFirstLive(parkers);
      unparked := Handoff();
      calls := calls + [Unlocked];
    }

    /**
     * One step of another thread while `me` is parked. Another thread may
     * unlock only when the lock is held by someone other than `me`.
     */
    method Interfere(o: ParkOther, me: ThreadId)
      requires Valid()
      modifies this
      ensures Valid()
      ensures calls == old(calls)
      ensures old(locked) && me in old(Waiting(parkers)) ==> locked && (holder == Some(me) || me in Waiting(parkers))
      ensures holder == Some(me) ==> old(holder) == Some(me) || me in old(Waiting(parkers))
      ensures o == OtherUnlock && old(locked) && old(holder) != Some(me) ==> (holder, parkers) == Serve(old(parkers))
      ensures o != OtherUnlock ==> holder == old(holder)
      ensures old(locked) && old(holder) != Some(me) && FirstOnce(old(Waiting(parkers)), me) ==>
        if o == OtherUnlock then holder == Some(me) && me !in Waiting(parkers)
        else FirstOnce(Waiting(parkers), me)
    {
      ghost var before := Waiting(parkers);
      match o {
        case OtherUnlock =>
          if locked && holder != Some(me) {
            ServeFirstLive(parkers);
            var _ := Handoff();
          }
        case OtherLock(id) =>
          if id != me {
            if !locked {
              locked := true;
            } else {
              WaitingJoin(parkers, id);
              parkers := parkers + [Some(id)];
              if before != [] {
                assert (before + [id])[1..] == before[1..] + [id];
              }
            }
          }
        case OtherGiveUp(id) =>
          if id != me {
            parkers := Kill(parkers, id);
            if before != [] {
              assert before == [before[0]] + before[1..];
              WithoutCons(before[0], before[1..], id);
            }
          }
      }
    }

    /**
     * The holder's unlock is the first step of the other threads, and no
     * live thread is waiting yet: a thread that parks now is the one the
     * unlock serves.
     */
    ghost predicate FirstStepUnlocks(others: seq<ParkOther>, me: ThreadId)
      reads this
    {
      |others| > 0 && others[0] == OtherUnlock && locked && Waiting(parkers) == [] && holder != Some(me)
    }

    /**
     * `lock`: take the lock if it is open; otherwise join the queue and
     * park until an unlock names this thread as holder. `returned` is
     * false when the schedule runs out while the thread is still parked.
     */
    method Lock(me: ThreadId, others: seq<ParkOther>) returns (returned: bool)
      requires Valid()
      modifies this
      ensures Valid()
      ensures returned ==> locked && (!old(locked) || holder == Some(me))
      ensures !old(locked) ==> returned && holder == old(holder) && parkers == old(parkers)
      ensures !returned ==> locked && me in Waiting(parkers)
      ensures others == [] && old(holder) != Some(me) ==> (returned <==> !old(locked))
      ensures old(FirstStepUnlocks(others, me)) ==> returned && holder == Some(me) && parkers == []
      ensures old(locked) && old(holder) != Some(me) && returned ==> OtherUnlock in others
      ensures calls == old(calls) + (if returned then [Locked] else [])
    {
      if !locked {
        locked := true;
        returned := true;
        calls := calls + [Locked];
        return;
      }
      ghost var alone := FirstStepUnlocks(others, me);
      if alone {
        ServeLoneWaiter(parkers, me);
      }
      WaitingJoin(parkers, me);
      parkers := parkers + [Some(me)];
      returned := false;
      var i := 0;
      while i < |others|
        invariant 0 <= i <= |others|
        invariant Valid() && locked && me in Waiting(parkers)
        invariant calls == old(calls)
        invariant i == 0 ==> holder == old(holder) && parkers == old(parkers) + [Some(me)]
        invariant alone ==> i == 0
        invariant holder == Some(me) && old(holder) != Some(me) ==> OtherUnlock in others[..i]
      {
        Interfere(others[i], me);
        i := i + 1;
        if holder == Some(me) {
          returned := true;
          calls := calls + [Locked];
          return;
        }
      }
    }

    /**
     * `lock_timeout` AS WRITTEN: the test of `try_lock` is inverted. When
     * another thread holds the lock it reports success at once without
     * taking it. When the lock was open it takes the lock and parks at the
     * front of the queue. It then succeeds only if another thread unlocks
     * before the deadline (a thread whose own call the inverted test let
     * through believes it holds the lock and releases it, which hands the
     * lock to this one); otherwise it reports failure and leaves the lock
     * held by nobody.
     */
    method LockTimeoutAsWritten(me: ThreadId, timeout: nat, clock: seq<nat>, others: seq<ParkOther>)
      returns (ok: bool)
      requires Valid() && ClockPasses(clock, timeout)
      modifies this
      ensures Valid()
      ensures old(locked) ==> ok && locked && holder == old(holder) && parkers == old(parkers)
      ensures !old(locked) ==> locked && (ok <==> holder == Some(me)) && me !in Waiting(parkers)
      ensures !old(locked) && !ok ==> holder.None?
      ensures !old(locked) && OtherUnlock !in others ==> !ok
      ensures !old(locked) && |others| > 0 && others[0] == OtherUnlock ==> ok
      ensures calls == old(calls) + [TimedLock(ok)]
    {
      if locked {
        ok := true;
        calls := calls + [TimedLock(ok)];
        return;
      }
      locked := true;
      var end := clock[0] + timeout;
      WaitingJoin(parkers, me);
      parkers := parkers + [Some(me)];
      var k := 1;
      var i := 0;
      while true
        invariant 1 <= k < |clock| && 0 <= i <= |others|
        invariant Valid() && locked && holder.None? && FirstOnce(Waiting(parkers), me)
        invariant OtherUnlock !in others[..i]
        invariant calls == old(calls)
        decreases |clock| - k
      {
        if i < |others| {
          Interfere(others[i], me);
          i := i + 1;
        }
        if holder == Some(me) {
          ok := true;
          calls := calls + [TimedLock(ok)];
          return;
        }
        if k >= |clock| - 1 {
          PastDeadline(clock, timeout, k);
        }
        if Now(clock, k) >= end {
          parkers := Kill(parkers, me);
          ok := false;
          calls := calls + [TimedLock(ok)];
          return;
        }
        k := k + 1;
      }
    }

    /**
     * `lock_timeout` as evidently intended: take the lock if it is open,
     * otherwise wait in the queue until handed the lock or until the
     * deadline, and on timeout leave the queue.
     */
    method LockTimeout(me: ThreadId, timeout: nat, clock: seq<nat>, others: seq<ParkOther>)
      returns (ok: bool)
      requires Valid() && ClockPasses(clock, timeout)
      modifies this
      ensures Valid()
      ensures ok ==> locked && (!old(locked) || holder == Some(me))
      ensures !old(locked) ==> ok && holder == old(holder) && parkers == old(parkers)
      ensures !ok ==> locked && holder != Some(me) && me !in Waiting(parkers)
      ensures others == [] && old(holder) != Some(me) ==> (ok <==> !old(locked))
      ensures calls == old(calls) + [TimedLock(ok)]
    {
      if !locked {
        locked := true;
        ok := true;
        calls := calls + [TimedLock(ok)];
        return;
      }
      var end := clock[0] + timeout;
      WaitingJoin(parkers, me);
      parkers := parkers + [Some(me)];
      var k := 1;
      var i := 0;
      while true
        invariant 1 <= k < |clock| && 0 <= i <= |others|
        invariant Valid() && locked && me in Waiting(parkers)
        invariant calls == old(calls)
        invariant i == 0 ==> holder == old(holder)
        decreases |clock| - k
      {
        if i < |others| {
          Interfere(others[i], me);
          i := i + 1;
        }
        if holder == Some(me) {
          ok := true;
          calls := calls + [TimedLock(ok)];
          return;
        }
        if k >= |clock| - 1 {
          PastDeadline(clock, timeout, k);
        }
        if Now(clock, k) >= end {
          parkers := Kill(parkers, me);
          ok := false;
          calls := calls + [TimedLock(ok)];
          return;
        }
        k := k + 1;
      }
    }
  }

  /** As written: while thread 1 holds the lock, thread 2's lock_timeout reports success. */
  method TimeoutReportsHeldLock() returns (first: bool, second: bool)
    ensures first && second
  {
    var m := new RawParkMutex();
    first := m.TryLock();
    second := m.LockTimeoutAsWritten(2, 5, [0, 5], []);
  }

  /** As written: lock_timeout on an open lock fails and leaves the lock held by nobody. */
  method TimeoutLeaksOpenLock() returns (ok: bool, after: bool)
    ensures !ok && !after
  {
    var m := new RawParkMutex();
    ok := m.LockTimeoutAsWritten(1, 5, [0, 5], []);
    after := m.TryLock();
  }

  /**
   * As written: thread 1's lock_timeout takes the open lock and parks.
   * Another thread whose own lock_timeout the inverted test let through
   * releases the lock, which hands it to thread 1, whose call succeeds.
   */
  method TimeoutHandedOffByIntruder() returns (ok: bool, holder: Option<ThreadId>)
    ensures ok && holder == Some(1)
  {
    var m := new RawParkMutex();
    ok := m.LockTimeoutAsWritten(1, 5, [0, 5], [OtherUnlock]);
    holder := m.holder;
  }

  /** Corrected: lock_timeout takes an open lock and fails on a held one. */
  method TimeoutTakesOpenLock() returns (first: bool, second: bool)
    ensures first && !second
  {
    var m := new RawParkMutex();
    first := m.LockTimeout(1, 5, [0, 5], []);
    second := m.LockTimeout(2, 5, [0, 5], []);
  }
}
