/**
 * The atomic-flag mutex: a single boolean swapped to `true` to lock and
 * stored back to `false` to unlock. It supports only try operations.
 */
module AtomicMutex {
  import opened Common

  class RawAtomicMutex {
    /** Whether some thread holds the lock. */
    var locked: bool
    /** Raw calls made by the modelled thread, with their outcomes. */
    ghost var calls: seq<MutexCall>

    /** `Default`: the flag starts cleared. */
    constructor ()
      ensures !locked && calls == []
    {
      locked := false;
      calls := [];
    }

    /** `try_lock`: swap in `true`; the lock is taken iff the old value was `false`. */
    method TryLock() returns (ok: bool)
      modifies this
      ensures ok == !old(locked)
      ensures locked
      ensures calls == old(calls) + [TriedLock(ok)]
    {
      ok := !locked;
      locked := true;
      calls := calls + [TriedLock(ok)];
    }

    /** `unlock`: the debug build asserts the flag was set before clearing it. */
    method Unlock()
      requires locked
      modifies this
      ensures !locked
      ensures calls == old(calls) + [Unlocked]
    {
      locked := false;
      calls := calls + [Unlocked];
    }
  }

  /** On a fresh mutex, try_lock, unlock, try_lock: both attempts succeed. */
  method TryLockUnlockTryLock() returns (first: bool, second: bool)
    ensures first && second
  {
    var m := new RawAtomicMutex();
    first := m.TryLock();
    m.Unlock();
    second := m.TryLock();
  }

  /** A second try_lock without an unlock in between fails. */
  method TryLockTwice() returns (first: bool, second: bool)
    ensures first && !second
  {
    var m := new RawAtomicMutex();
    first := m.TryLock();
    second := m.TryLock();
  }
}
