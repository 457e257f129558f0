/**
 * The tests of `mutex/custom_mutex.rs`, run over the parking mutex with
 * its thread schedule written out.
 */
module CustomMutexTests {
  import opened Common
  import opened ParkWaiters
  import opened CustomMutexes

  /** The test's function: store 300 and return what was there (0 when not locked). */
  function SwapIn300(v: Option<int>): (int, int)
  {
    if v.Some? then (300, v.value) else (0, 0)
  }

  /** The test's function: store 400 and return what was there. */
  function SwapIn400(v: int): (int, int)
  {
    (400, v)
  }

  /**
   * The single-thread test of `try_lock`: read 100 through a guard, write
   * 200 through a second guard, see 200 and store 300 in `try_lock_func`;
   * while a guard is held a further `try_lock` fails, and the guard reads
   * 300.
   */
  method TryMutexTest() returns (first: Option<int>, seen: int, refused: bool, last: int)
    ensures first == Some(100) && seen == 200 && refused && last == 300
  {
    var m := new CustomMutex<int>(100);
    var g1 := m.TryLock();
    first := if g1.Some? then Some(g1.value.Deref()) else None;
    assert g1.Some?;
    DropGuard(g1.value);
    var g2 := m.TryLock();
    assert g2.Some?;
    WriteThrough(g2.value, 200);
    DropGuard(g2.value);
    seen := m.TryLockFunc(SwapIn300);
    var g3 := m.TryLock();
    var g4 := m.TryLock();
    refused := g4.None?;
    assert g3.Some?;
    last := g3.value.Deref();
  }

  /**
   * The two-thread part of the blocking test, on one mutex: thread 1
   * holds a guard; thread 2's `lock_func` finds the mutex held and parks.
   * Its only way on is thread 1's release, which is the one step the
   * other threads take (`lock_func` returns from a held mutex only after
   * such a step). The release hands the lock to thread 2, which sees 300
   * and stores 400; thread 1 then locks again and reads 400.
   */
  method MutexTest() returns (heldByOther: bool, seen: Option<int>, last: int)
    ensures heldByOther && seen == Some(300) && last == 400
  {
    var m := new CustomMutex<int>(300);
    var g := m.Lock(1, []);
    assert g.Some?;
    heldByOther := m.IsLocked() && m.rawMutex.holder != Some(2);
    seen := m.LockFunc(2, [OtherUnlock], SwapIn400);
    var again := m.Lock(1, []);
    assert again.Some?;
    last := again.value.Deref();
  }
}
