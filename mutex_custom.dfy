/**
 * `CustomMutex`: data paired with a raw mutex, here the parking mutex of
 * `mutex/impls/park_mutex.rs` with its timed lock as evidently intended.
 * A guard remembers its mutex; dropping it is the only release. The
 * `func` variants acquire, run the caller's function on the data and
 * release.
 *
 * A caller's function on the data is a Dafny function that returns the
 * data as it left it together with its output; a function that is told
 * whether the lock was acquired takes `Option<T>` (the data component is
 * not used when it got None).
 */
module CustomMutexes {
  import opened Common
  import opened ParkWaiters
  import opened ParkMutex

  class CustomMutex<T> {
    var data: T
    const rawMutex: RawParkMutex

    /** Whether the raw mutex is held. */
    function IsLocked(): bool
      reads rawMutex
    {
      rawMutex.locked
    }

    /** The raw calls made so far by the modelled thread. */
    ghost function Calls(): seq<MutexCall>
      reads rawMutex
    {
      rawMutex.calls
    }

    /** `from_raw`: stores the given raw mutex and data unchanged. */
    constructor FromRaw(rawMutex: RawParkMutex, data: T)
      ensures this.rawMutex == rawMutex && this.data == data
    {
      this.rawMutex := rawMutex;
      this.data := data;
    }

    /** `new`: the data with a default raw mutex, which is open with nobody waiting. */
    constructor (data: T)
      ensures this.data == data
      ensures fresh(rawMutex) && rawMutex.Valid()
      ensures !IsLocked() && rawMutex.holder.None? && rawMutex.parkers == [] && Calls() == []
    {
      this.data := data;
      this.rawMutex := new RawParkMutex();
    }

    /** `try_lock`: a guard exactly when the raw try_lock succeeded. */
    method TryLock() returns (g: Option<MutexGuard<T>>)
      requires rawMutex.Valid()
      modifies rawMutex
      ensures rawMutex.Valid()
      ensures g.Some? <==> !old(IsLocked())
      ensures g.Some? ==> g.value.mutex == this
      ensures IsLocked() && rawMutex.holder == old(rawMutex.holder) && rawMutex.parkers == old(rawMutex.parkers)
      ensures Calls() == old(Calls()) + [TriedLock(g.Some?)]
    {
      var ok := rawMutex.TryLock();
      g := if ok then Some(MutexGuard(this)) else None;
    }

    /** Store the value func left in the data, then release the raw mutex once. */
    method StoreAndUnlock(value: T)
      requires rawMutex.Valid() && IsLocked()
      modifies this, rawMutex
      ensures rawMutex.Valid() && data == value
      ensures old(Waiting(rawMutex.parkers)) == [] ==> !IsLocked()
      ensures Calls() == old(Calls()) + [Unlocked]
    {
      data := value;
      var _ := rawMutex.Unlock();
    }

    /**
     * `try_lock_func`: on success func may change the data, which it
     * keeps, and unlock follows once, which reopens the lock; on failure
     * func gets None and no further raw call is made.
     */
    method TryLockFunc<O>(func: Option<T> -> (T, O)) returns (out: O)
      requires rawMutex.Valid()
      modifies this, rawMutex
      ensures rawMutex.Valid()
      ensures var ok := !old(IsLocked());
              && (ok ==> data == func(Some(old(data))).0 && out == func(Some(old(data))).1 && !IsLocked())
              && (!ok ==> data == old(data) && out == func(None).1 && IsLocked())
              && Calls() == old(Calls()) + (if ok then [TriedLock(true), Unlocked] else [TriedLock(false)])
    {
      var ok := rawMutex.TryLock();
      if ok {
        var r := func(Some(data));
        StoreAndUnlock(r.0);
        out := r.1;
      } else {
        out := func(None).1;
      }
    }

    /** The trait default of `try_lock_func`: try_lock, run func through the guard, drop it. */
    method TryLockFuncDefault<O>(func: Option<T> -> (T, O)) returns (out: O)
      requires rawMutex.Valid()
      modifies this, rawMutex
      ensures rawMutex.Valid()
      ensures var ok := !old(IsLocked());
              && (ok ==> data == func(Some(old(data))).0 && out == func(Some(old(data))).1 && !IsLocked())
              && (!ok ==> data == old(data) && out == func(None).1 && IsLocked())
              && Calls() == old(Calls()) + (if ok then [TriedLock(true), Unlocked] else [TriedLock(false)])
    {
      var g := TryLock();
      if g.None? {
        out := func(None).1;
        return;
      }
      var guard := g.value;
      var r := func(Some(guard.Deref()));
      WriteThrough(guard, r.0);
      out := r.1;
      DropGuard(guard);
    }

    /**
     * `lock` for thread `me`: raw lock, then a guard. None means the
     * thread was still parked when the other threads' schedule ran out.
     */
    method Lock(me: ThreadId, others: seq<ParkOther>) returns (g: Option<MutexGuard<T>>)
      requires rawMutex.Valid()
      modifies rawMutex
      ensures rawMutex.Valid()
      ensures Calls() == old(Calls()) + (if g.Some? then [Locked] else [])
      ensures g.Some? ==> g.value.mutex == this && IsLocked() && (!old(IsLocked()) || rawMutex.holder == Some(me))
      ensures !old(IsLocked()) ==> g.Some? && rawMutex.holder == old(rawMutex.holder) && rawMutex.parkers == old(rawMutex.parkers)
      ensures others == [] && old(rawMutex.holder) != Some(me) ==> (g.Some? <==> !old(IsLocked()))
      ensures old(IsLocked()) && old(rawMutex.holder) != Some(me) && g.Some? ==> OtherUnlock in others
    {
      var returned := rawMutex.Lock(me, others);
      g := if returned then Some(MutexGuard(this)) else None;
    }

    /**
     * `lock_func` for thread `me`: exactly lock, func on the data (whose
     * change persists), unlock; func's output is returned. When the
     * holder's release is the first thing other threads do and nobody
     * waited before, the lock is handed to `me` and is open afterwards.
     */
    method LockFunc<O>(me: ThreadId, others: seq<ParkOther>, func: T -> (T, O)) returns (out: Option<O>)
      requires rawMutex.Valid()
      modifies this, rawMutex
      ensures rawMutex.Valid()
      ensures out.Some? ==> data == func(old(data)).0 && out == Some(func(old(data)).1)
      ensures out.Some? ==> Calls() == old(Calls()) + [Locked, Unlocked]
      ensures out.None? ==> data == old(data) && Calls() == old(Calls())
      ensures others == [] && old(rawMutex.holder) != Some(me) ==> (out.Some? <==> !old(IsLocked()))
      ensures old(rawMutex.FirstStepUnlocks(others, me)) ==> out.Some? && !IsLocked()
      ensures old(IsLocked()) && old(rawMutex.holder) != Some(me) && out.Some? ==> OtherUnlock in others
    {
      var returned := rawMutex.Lock(me, others);
      if returned {
        var r := func(data);
        StoreAndUnlock(r.0);
        out := Some(r.1);
      } else {
        out := None;
      }
    }

    /** The trait default of `lock_func`: lock, run func through the guard, drop it. */
    method LockFuncDefault<O>(me: ThreadId, others: seq<ParkOther>, func: T -> (T, O)) returns (out: Option<O>)
      requires rawMutex.Valid()
      modifies this, rawMutex
      ensures rawMutex.Valid()
      ensures out.Some? ==> data == func(old(data)).0 && out == Some(func(old(data)).1)
      ensures out.Some? ==> Calls() == old(Calls()) + [Locked, Unlocked]
      ensures out.None? ==> data == old(data) && Calls() == old(Calls())
      ensures others == [] && old(rawMutex.holder) != Some(me) ==> (out.Some? <==> !old(IsLocked()))
    {
      var g := Lock(me, others);
      if g.None? {
        out := None;
        return;
      }
      var guard := g.value;
      var r := func(guard.Deref());
      WriteThrough(guard, r.0);
      out := Some(r.1);
      DropGuard(guard);
    }

    /** `lock_timeout`: a guard exactly when the raw timed lock succeeded. */
    method LockTimeout(me: ThreadId, timeout: nat, clock: seq<nat>, others: seq<ParkOther>)
      returns (g: Option<MutexGuard<T>>)
      requires rawMutex.Valid() && ClockPasses(clock, timeout)
      modifies rawMutex
      ensures rawMutex.Valid()
      ensures Calls() == old(Calls()) + [TimedLock(g.Some?)]
      ensures g.Some? ==> g.value.mutex == this && IsLocked() && (!old(IsLocked()) || rawMutex.holder == Some(me))
      ensures g.None? ==> me !in Waiting(rawMutex.parkers) && rawMutex.holder != Some(me)
      ensures others == [] && old(rawMutex.holder) != Some(me) ==> (g.Some? <==> !old(IsLocked()))
    {
      var ok := rawMutex.LockTimeout(me, timeout, clock, others);
      g := if ok then Some(MutexGuard(this)) else None;
    }

    /**
     * `lock_timeout_func`: on success func may change the data and
     * unlock follows once; on timeout func gets None and nothing is
     * released.
     */
    method LockTimeoutFunc<O>(me: ThreadId, timeout: nat, clock: seq<nat>, func: Option<T> -> (T, O), others: seq<ParkOther>)
      returns (out: O)
      requires rawMutex.Valid() && ClockPasses(clock, timeout)
      modifies this, rawMutex
      ensures rawMutex.Valid()
      ensures || (&& Calls() == old(Calls()) + [TimedLock(true), Unlocked]
                  && data == func(Some(old(data))).0 && out == func(Some(old(data))).1)
              || (&& Calls() == old(Calls()) + [TimedLock(false)]
                  && data == old(data) && out == func(None).1)
      ensures others == [] && old(rawMutex.holder) != Some(me) ==>
                (Calls() == old(Calls()) + [TimedLock(true), Unlocked] <==> !old(IsLocked()))
    {
      var ok := rawMutex.LockTimeout(me, timeout, clock, others);
      if ok {
        var r := func(Some(data));
        StoreAndUnlock(r.0);
        out := r.1;
      } else {
        out := func(None).1;
      }
    }

    /** The trait default of `lock_timeout_func`: lock_timeout, match on the guard, drop it. */
    method LockTimeoutFuncDefault<O>(me: ThreadId, timeout: nat, clock: seq<nat>, func: Option<T> -> (T, O), others: seq<ParkOther>)
      returns (out: O)
      requires rawMutex.Valid() && ClockPasses(clock, timeout)
      modifies this, rawMutex
      ensures rawMutex.Valid()
      ensures || (&& Calls() == old(Calls()) + [TimedLock(true), Unlocked]
                  && data == func(Some(old(data))).0 && out == func(Some(old(data))).1)
              || (&& Calls() == old(Calls()) + [TimedLock(false)]
                  && data == old(data) && out == func(None).1)
      ensures others == [] && old(rawMutex.holder) != Some(me) ==>
                (Calls() == old(Calls()) + [TimedLock(true), Unlocked] <==> !old(IsLocked()))
    {
      var g := LockTimeout(me, timeout, clock, others);
      if g.None? {
        out := func(None).1;
        return;
      }
      var guard := g.value;
      var r := func(Some(guard.Deref()));
      WriteThrough(guard, r.0);
      out := r.1;
      DropGuard(guard);
    }
  }

  /** A guard: access to the data of its mutex while the mutex is held. */
  datatype MutexGuard<T> = MutexGuard(mutex: CustomMutex<T>)
  {
    function Deref(): T
      reads mutex
    {
      mutex.data
    }
  }

  /** `deref_mut` on a guard, used to store a new value. */
  method WriteThrough<T>(g: MutexGuard<T>, value: T)
    modifies g.mutex
    ensures g.mutex.data == value && g.Deref() == value
  {
    g.mutex.data := value;
  }

  /** Dropping a guard: exactly one unlock of its mutex. */
  method DropGuard<T>(g: MutexGuard<T>)
    requires g.mutex.rawMutex.Valid() && g.mutex.IsLocked()
    modifies g.mutex.rawMutex
    ensures g.mutex.rawMutex.Valid()
    ensures g.mutex.IsLocked() <==> old(Waiting(g.mutex.rawMutex.parkers)) != []
    ensures g.mutex.IsLocked() == g.mutex.rawMutex.holder.Some?
    ensures g.mutex.rawMutex.holder.Some? ==>
              [g.mutex.rawMutex.holder.value] + Waiting(g.mutex.rawMutex.parkers) == old(Waiting(g.mutex.rawMutex.parkers))
    ensures g.mutex.Calls() == old(g.mutex.Calls()) + [Unlocked]
  {
    var _ := g.mutex.rawMutex.Unlock();
  }
}
