/**
 * The spin lock: a boolean flag; `lock` retries a compare-exchange from
 * `false` to `true`, yielding to other threads after each failure.
 */
module SpinLock {
  import opened Common

  /** A step another thread takes while the modelled thread yields. */
  datatype SpinOther = OtherLock | OtherUnlock

  class RawSpinLock {
    /** Whether some thread holds the lock. */
    var locked: bool
    /** Raw calls made by the modelled thread, with their outcomes. */
    ghost var calls: seq<MutexCall>

    /** `Default` as written: the flag starts SET, so the lock starts held. */
    constructor ()
      ensures locked && calls == []
    {
      locked := true;
      calls := [];
    }

    /** The evidently intended default: the flag starts cleared. */
    constructor Open()
      ensures !locked && calls == []
    {
      locked := false;
      calls := [];
    }

    /** `try_lock`: swap in `true`; the lock is taken iff the old value was `false`. */
    method TryLock() returns (ok: bool)
      modifies this
      ensures ok == !old(locked)
      ensures locked
      ensures calls == old(calls) + [TriedLock(ok)]
    {
      ok := !locked;
      locked := true;
      calls := calls + [TriedLock(ok)];
    }

    /** `unlock`: the debug build asserts the flag was set before clearing it. */
    method Unlock()
      requires locked
      modifies this
      ensures !locked
      ensures calls == old(calls) + [Unlocked]
    {
      locked := false;
      calls := calls + [Unlocked];
    }

    /** One compare-exchange from `false` to `true`. */
    method CompareExchange() returns (ok: bool)
      modifies this
      ensures ok == !old(locked)
      ensures locked
      ensures calls == old(calls) + [Cas(ok)]
    {
      ok := !locked;
      locked := true;
      calls := calls + [Cas(ok)];
    }

    /** Another thread takes or releases the lock. */
    method Interfere(o: SpinOther)
      modifies this
      ensures locked == o.OtherLock?
      ensures calls == old(calls)
    {
      locked := o.OtherLock?;
    }

    /**
     * `lock`: retry the compare-exchange until it succeeds; after each
     * failure one step of `others` runs. `returned` is false when the
     * schedule runs out while the lock is still held elsewhere.
     */
    method Lock(others: seq<SpinOther>) returns (returned: bool, attempts: nat)
      modifies this
      ensures 1 <= attempts <= |others| + 1
      ensures calls == old(calls) + Repeat(Cas(false), attempts - 1) + [Cas(returned)]
      ensures locked
      ensures !returned ==> attempts == |others| + 1
      ensures returned <==> !old(locked) || OtherUnlock in others
      ensures old(locked) && |others| > 0 && others[0] == OtherUnlock ==> returned && attempts == 2
    {
      returned := CompareExchange();
      attempts := 1;
      while !returned && attempts <= |others|
        invariant 1 <= attempts <= |others| + 1
        invariant calls == old(calls) + Repeat(Cas(false), attempts - 1) + [Cas(returned)]
        invariant locked
        invariant returned ==> !old(locked) || OtherUnlock in others[..attempts - 1]
        invariant !returned ==> old(locked) && OtherUnlock !in others[..attempts - 1]
        invariant old(locked) && |others| > 0 && others[0] == OtherUnlock && attempts >= 2 ==> returned && attempts == 2
        decreases |others| + 1 - attempts
      {
        Interfere(others[attempts - 1]);
        returned := CompareExchange();
        attempts := attempts + 1;
      }
    }
  }

  /** As written, the first try_lock on a default spin lock fails. */
  method DefaultRefusesTryLock() returns (ok: bool)
    ensures !ok
  {
    var l := new RawSpinLock();
    ok := l.TryLock();
  }

  /** As written, lock on a default spin lock that nobody releases never returns. */
  method DefaultLockSpins() returns (returned: bool)
    ensures !returned
  {
    var l := new RawSpinLock();
    var attempts;
    returned, attempts := l.Lock([]);
  }

  /** With the lock starting open, the first lock returns at its first attempt. */
  method OpenLockReturns() returns (returned: bool, attempts: nat)
    ensures returned && attempts == 1
  {
    var l := new RawSpinLock.Open();
    returned, attempts := l.Lock([]);
  }
}
