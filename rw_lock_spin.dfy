/**
 * `RawSpinRwLock`: the counter lock plus spinning. The try and remove
 * operations forward to the inner counter; the blocking operations retry
 * until their try operation succeeds, yielding in between, and the
 * timeout operations retry until a deadline taken from the clock.
 *
 * While the modelled thread yields, one operation of another thread
 * (the next element of `others`) runs on the same counter; when `others`
 * is used up the other threads are idle. A blocking call that is still
 * spinning when `others` is used up reports `returned == false`: the
 * source would go on spinning.
 */
module SpinRwLock {
  import opened Common
  import opened AtomicRwLock

  class RawSpinRwLock {
    const lock: RawAtomicRwLock

    /** `Default`: wraps a default (open) counter lock. */
    constructor ()
      ensures fresh(lock)
      ensures Decode(lock.readCount) == Readers(0) && lock.calls == []
    {
      lock := new RawAtomicRwLock();
    }

    method TryAddReader() returns (ok: bool)
      modifies lock
      ensures Step(ok, lock.readCount) == TryAddReaderStep(old(lock.readCount))
      ensures lock.calls == old(lock.calls) + [AddedReader(ok)]
    {
      ok := lock.TryAddReader();
    }

    method TryAddWriter() returns (ok: bool)
      modifies lock
      ensures Step(ok, lock.readCount) == TryAddWriterStep(old(lock.readCount))
      ensures lock.calls == old(lock.calls) + [AddedWriter(ok)]
    {
      ok := lock.TryAddWriter();
    }

    method RemoveReader()
      requires lock.readCount > 1
      modifies lock
      ensures lock.readCount == RemoveReaderStep(old(lock.readCount))
      ensures lock.calls == old(lock.calls) + [RemovedReader]
    {
      lock.RemoveReader();
    }

    method RemoveWriter()
      requires lock.readCount == 0
      modifies lock
      ensures lock.readCount == RemoveWriterStep(old(lock.readCount))
      ensures lock.calls == old(lock.calls) + [RemovedWriter]
    {
      lock.RemoveWriter();
    }

    method TryUpgrade() returns (ok: bool)
      requires lock.readCount > 1
      modifies lock
      ensures Step(ok, lock.readCount) == TryUpgradeStep(old(lock.readCount))
      ensures lock.calls == old(lock.calls) + [Upgraded(ok)]
    {
      ok := lock.TryUpgrade();
    }

    method Downgrade()
      requires lock.readCount == 0
      modifies lock
      ensures lock.readCount == DowngradeStep(old(lock.readCount))
      ensures lock.calls == old(lock.calls) + [Downgraded]
    {
      lock.Downgrade();
    }

    /**
     * `add_reader`: returns only once its own try_add_reader succeeded;
     * every earlier attempt failed.
     */
    method AddReader(others: seq<Other>) returns (returned: bool, attempts: nat)
      modifies lock
      ensures 1 <= attempts <= |others| + 1
      ensures lock.calls == old(lock.calls) + Repeat(AddedReader(false), attempts - 1) + [AddedReader(returned)]
      ensures returned ==> Decode(lock.readCount).Readers? && Decode(lock.readCount).n >= 1
      ensures !returned ==> attempts == |others| + 1
      ensures others == [] ==> Step(returned, lock.readCount) == TryAddReaderStep(old(lock.readCount))
    {
      var ok := lock.TryAddReader();
      attempts := 1;
      while !ok && attempts <= |others|
        invariant 1 <= attempts <= |others| + 1
        invariant lock.calls == old(lock.calls) + Repeat(AddedReader(false), attempts - 1) + [AddedReader(ok)]
        invariant ok ==> lock.readCount > 1
        invariant attempts == 1 ==> Step(ok, lock.readCount) == TryAddReaderStep(old(lock.readCount))
        decreases |others| + 1 - attempts
      {
        lock.Interfere(others[attempts - 1], 0);
        ok := lock.TryAddReader();
        attempts := attempts + 1;
      }
      returned := ok;
    }

    /**
     * `add_writer`: returns only once its own try_add_writer succeeded;
     * every earlier attempt failed.
     */
    method AddWriter(others: seq<Other>) returns (returned: bool, attempts: nat)
      modifies lock
      ensures 1 <= attempts <= |others| + 1
      ensures lock.calls == old(lock.calls) + Repeat(AddedWriter(false), attempts - 1) + [AddedWriter(returned)]
      ensures returned ==> Decode(lock.readCount) == Writer
      ensures !returned ==> attempts == |others| + 1
      ensures others == [] ==> Step(returned, lock.readCount) == TryAddWriterStep(old(lock.readCount))
    {
      var ok := lock.TryAddWriter();
      attempts := 1;
      while !ok && attempts <= |others|
        invariant 1 <= attempts <= |others| + 1
        invariant lock.calls == old(lock.calls) + Repeat(AddedWriter(false), attempts - 1) + [AddedWriter(ok)]
        invariant ok ==> lock.readCount == 0
        invariant attempts == 1 ==> Step(ok, lock.readCount) == TryAddWriterStep(old(lock.readCount))
        decreases |others| + 1 - attempts
      {
        lock.Interfere(others[attempts - 1], 0);
        ok := lock.TryAddWriter();
        attempts := attempts + 1;
      }
      returned := ok;
    }

    /**
     * `add_reader_timeout`: the deadline is the first clock reading plus
     * `timeout`; before each attempt the clock is read again and the loop
     * ends once it is no longer before the deadline. Returns true right
     * after a successful attempt; on false every attempt of the caller
     * failed, so the caller changed nothing.
     */
    method AddReaderTimeout(timeout: nat, clock: seq<nat>, others: seq<Other>) returns (ok: bool, attempts: nat)
      requires ClockPasses(clock, timeout)
      modifies lock
      ensures ok ==> attempts >= 1
      ensures lock.calls == old(lock.calls) + Repeat(AddedReader(false), if ok then attempts - 1 else attempts)
                            + (if ok then [AddedReader(true)] else [])
      ensures ok && others == [] ==> Step(true, lock.readCount) == TryAddReaderStep(old(lock.readCount))
      ensures ok ==> Decode(lock.readCount).Readers? && Decode(lock.readCount).n >= 1
      ensures !ok && others == [] ==> lock.readCount == old(lock.readCount)
      ensures timeout == 0 && clock[1] <= clock[0] ==> !ok && attempts == 0
    {
      var end := clock[0] + timeout;
      var k := 1;
      attempts := 0;
      ok := false;
      while end > clock[k]
        invariant 1 <= k < |clock|
        invariant attempts == k - 1
        invariant k > 1 ==> clock[1] < end
        invariant lock.calls == old(lock.calls) + Repeat(AddedReader(false), attempts)
        invariant others == [] ==> lock.readCount == old(lock.readCount)
        decreases |clock| - k
      {
        var got := lock.TryAddReader();
        attempts := attempts + 1;
        if got {
          ok := true;
          return;
        }
        if attempts - 1 < |others| {
          lock.Interfere(others[attempts - 1], 0);
        }
        k := k + 1;
      }
    }

    /** `add_writer_timeout`: as `add_reader_timeout`, with try_add_writer. */
    method AddWriterTimeout(timeout: nat, clock: seq<nat>, others: seq<Other>) returns (ok: bool, attempts: nat)
      requires ClockPasses(clock, timeout)
      modifies lock
      ensures ok ==> attempts >= 1
      ensures lock.calls == old(lock.calls) + Repeat(AddedWriter(false), if ok then attempts - 1 else attempts)
                            + (if ok then [AddedWriter(true)] else [])
      ensures ok && others == [] ==> Step(true, lock.readCount) == TryAddWriterStep(old(lock.readCount))
      ensures ok ==> Decode(lock.readCount) == Writer
      ensures !ok && others == [] ==> lock.readCount == old(lock.readCount)
      ensures timeout == 0 && clock[1] <= clock[0] ==> !ok && attempts == 0
    {
      var end := clock[0] + timeout;
      var k := 1;
      attempts := 0;
      ok := false;
      while end > clock[k]
        invariant 1 <= k < |clock|
        invariant attempts == k - 1
        invariant k > 1 ==> clock[1] < end
        invariant lock.calls == old(lock.calls) + Repeat(AddedWriter(false), attempts)
        invariant others == [] ==> lock.readCount == old(lock.readCount)
        decreases |clock| - k
      {
        var got := lock.TryAddWriter();
        attempts := attempts + 1;
        if got {
          ok := true;
          return;
        }
        if attempts - 1 < |others| {
          lock.Interfere(others[attempts - 1], 0);
        }
        k := k + 1;
      }
    }

    /**
     * `upgrade`: the caller holds a reader; retries try_upgrade until it
     * succeeds. The caller's reader survives every step of the others.
     */
    method Upgrade(others: seq<Other>) returns (returned: bool, attempts: nat)
      requires lock.readCount > 1
      modifies lock
      ensures 1 <= attempts <= |others| + 1
      ensures lock.calls == old(lock.calls) + Repeat(Upgraded(false), attempts - 1) + [Upgraded(returned)]
      ensures returned ==> Decode(lock.readCount) == Writer
      ensures !returned ==> lock.readCount > 1 && attempts == |others| + 1
      ensures others == [] ==> Step(returned, lock.readCount) == TryUpgradeStep(old(lock.readCount))
    {
      var ok := lock.TryUpgrade();
      attempts := 1;
      while !ok && attempts <= |others|
        invariant 1 <= attempts <= |others| + 1
        invariant lock.calls == old(lock.calls) + Repeat(Upgraded(false), attempts - 1) + [Upgraded(ok)]
        invariant ok ==> lock.readCount == 0
        invariant !ok ==> lock.readCount > 1
        invariant attempts == 1 ==> Step(ok, lock.readCount) == TryUpgradeStep(old(lock.readCount))
        decreases |others| + 1 - attempts
      {
        lock.Interfere(others[attempts - 1], 1);
        ok := lock.TryUpgrade();
        attempts := attempts + 1;
      }
      returned := ok;
    }

    /**
     * `upgrade_timeout`: true only right after a successful try_upgrade
     * before the deadline; on false the caller still holds its reader.
     */
    method UpgradeTimeout(timeout: nat, clock: seq<nat>, others: seq<Other>) returns (ok: bool, attempts: nat)
      requires ClockPasses(clock, timeout)
      requires lock.readCount > 1
      modifies lock
      ensures ok ==> attempts >= 1
      ensures lock.calls == old(lock.calls) + Repeat(Upgraded(false), if ok then attempts - 1 else attempts)
                            + (if ok then [Upgraded(true)] else [])
      ensures ok && others == [] ==> Step(true, lock.readCount) == TryUpgradeStep(old(lock.readCount))
      ensures ok ==> Decode(lock.readCount) == Writer
      ensures !ok ==> lock.readCount > 1
      ensures !ok && others == [] ==> lock.readCount == old(lock.readCount)
      ensures timeout == 0 && clock[1] <= clock[0] ==> !ok && attempts == 0
    {
      var end := clock[0] + timeout;
      var k := 1;
      attempts := 0;
      ok := false;
      while end > clock[k]
        invariant 1 <= k < |clock|
        invariant attempts == k - 1
        invariant k > 1 ==> clock[1] < end
        invariant lock.calls == old(lock.calls) + Repeat(Upgraded(false), attempts)
        invariant lock.readCount > 1
        invariant others == [] ==> lock.readCount == old(lock.readCount)
        decreases |clock| - k
      {
        var got := lock.TryUpgrade();
        attempts := attempts + 1;
        if got {
          ok := true;
          return;
        }
        if attempts - 1 < |others| {
          lock.Interfere(others[attempts - 1], 1);
        }
        k := k + 1;
      }
    }
  }
}
