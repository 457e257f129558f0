# concurrency_traits, modelled in Dafny

This project models the lock, semaphore and queue implementations of the
Rust crate `concurrency_traits` and proves properties of that model. The
crate defines raw primitives with a few atomic flags and counters, wraps
them in data-holding types, and builds blocking, timed and async
front-ends on top. The modelled parts are:

- **Raw mutexes.**
  - The atomic-flag mutex (try operations only).
  - The spin lock.
  - Both parking mutexes: the one with weak references to parked threads, and the one with swappable id cells.
  - The full async mutex, whose waiters are completion handles.
  - The bridge that turns a blocking mutex into an async one through a message queue and a background thread.
- **The data-holding mutex.** `CustomMutex`, its guards, and the `try`, `lock`, `lock_timeout` and `*_func` operations (the overrides and the trait defaults).
- **Reader-writer locks.**
  - The atomic reader-writer lock.
  - The spin reader-writer lock (with upgrade and downgrade).
  - `CustomRwLock` with its read/write/upgrade guards and the `*_func` operations.
- **Semaphores.** The atomic, parking and async semaphores.
- **Queues.**
  - The semaphore-guarded double-ended queue.
  - The parking queue.
  - The allocating async queue: a bounded backing queue served by a background task through a message channel.

How concurrency is modelled:

- Each raw operation is one atomic step. Where the source runs a step under its inner spin lock, that step is atomic as well.
- A thread that spins, parks or awaits runs a `while` loop. At each turn, one step of the other threads runs, taken from a schedule parameter named `others` or `schedules`.
- A result that says the call has not returned (`returned == false`, `None`, `stuck`) means the schedule ran out while the call was still blocked.
- Time is a sequence of `current_time` readings (`clock`). Those readings never decrease and eventually pass the deadline.
- Ghost logs record what the modelled thread did (`calls`, `trace`, `events`). With them, contracts can say "exactly one unlock" or "no further raw call".

Each blocking method is proved against a recursive specification function
or a queue function (`Run`, `Serve`, `PopLive`, `DrainWrites`, `Step`).
Its ensures ties the new state to that function. Lemmas then prove what
the source promises about the function: FIFO hand-off, at-most-once
completion, conservation of permits and items, and the order of delivery.

Where the code and its documentation disagree, the model follows the
code. The "as written" members under "## Findings" show where the code
departs from what its names and documentation promise. The corrected
members are what the rest of the model builds on.

## Model

| member | source | states |
|---|---|---|
| Common.Complete | src/mutex/impls/async_mutex.rs:72-77 | completing a handle reports None exactly when its future was dropped, Some(false) exactly when it was live and Some(true) exactly when it was already complete; afterwards it is complete unless dropped |
| Common.CompleteAtMostOnce | src/mutex/mutex_alloc.rs:173-177 | a handle that has been completed never again reports a fresh completion, so the "completed already" panic marks a second completion |
| Common.PastDeadline | src/mutex/impls/park_mutex.rs:132-134 | once the clock readings are used up, `current_time` is at or past the deadline, so every timed wait ends |
| ParkWaiters.Serve | src/mutex/impls/park_mutex.rs:52-80 | one unlock only pops from the front of the parker queue; when it serves nobody the queue is left empty, otherwise a strictly shorter suffix remains |
| ParkWaiters.ServeFirstLive | src/mutex/impls/park_mutex.rs:54-77 | an unlock serves nobody exactly when no live thread waits; otherwise it serves the first live waiter and the others keep waiting in order |
| ParkWaiters.Kill | src/mutex/park_mutex.rs:107-113 | emptying a timed-out thread's cell removes exactly that thread from the waiting order and keeps every other waiter in place |
| ParkWaiters.WaitingJoin | src/mutex/impls/park_mutex.rs:90-91 | pushing a parker at the back appends that thread at the end of the waiting order |
| ParkWaiters.ServeLoneWaiter | src/mutex/impls/park_mutex.rs:54-77 | a thread that joins when no live thread waits is served by the next unlock, which leaves the queue empty |
| ParkWaiters.HandOrderIsFifo | src/mutex/impls/park_mutex.rs:52-80 | successive unlocks hand the lock to the waiting threads in the order they joined |
| ParkWaiters.JoinServedLast | src/mutex/impls/park_mutex.rs:87-102 | a thread that joins is handed the lock after every thread already waiting |
| ParkWaiters.KilledNeverServed | src/mutex/park_mutex.rs:55-59 | a thread whose cell was emptied is never handed the lock, and the remaining threads keep their order |
| AtomicMutex.RawAtomicMutex.constructor | src/mutex/impls/atomic_mutex.rs:14-20 | a default mutex starts unlocked |
| AtomicMutex.RawAtomicMutex.TryLock | src/mutex/impls/atomic_mutex.rs:22-25 | try_lock succeeds exactly when the mutex was unlocked, and leaves it locked |
| AtomicMutex.RawAtomicMutex.Unlock | src/mutex/impls/atomic_mutex.rs:27-36 | unlock demands a locked mutex (the debug assertion) and leaves it unlocked |
| AtomicMutex.TryLockUnlockTryLock | src/mutex/impls/atomic_mutex.rs:21-37 | on a fresh mutex, try_lock, unlock, try_lock: both attempts succeed |
| AtomicMutex.TryLockTwice | src/mutex/impls/atomic_mutex.rs:22-25 | a second try_lock without an unlock between fails |
| SpinLock.RawSpinLock.constructor | src/mutex/spin_lock.rs:14-18 | as written, a default spin lock starts locked |
| SpinLock.RawSpinLock.Open | src/mutex/spin_lock.rs:14-18 | the corrected default starts unlocked |
| SpinLock.RawSpinLock.TryLock | src/mutex/spin_lock.rs:20-22 | try_lock succeeds exactly when the lock was free, and leaves it locked |
| SpinLock.RawSpinLock.Unlock | src/mutex/spin_lock.rs:24-31 | unlock demands a locked lock (the debug assertion) and frees it |
| SpinLock.RawSpinLock.CompareExchange | src/mutex/spin_lock.rs:35 | one compare-exchange from false to true succeeds exactly when the lock was free |
| SpinLock.RawSpinLock.Lock | src/mutex/spin_lock.rs:34-36 | lock returns exactly when the lock was free or another thread released it during the spin; the thread's calls are failed compare-exchanges, one per yield, then the successful one; an immediate release costs exactly two attempts |
| SpinLock.DefaultRefusesTryLock | src/mutex/spin_lock.rs:14-22 | as written, the first try_lock on a default spin lock fails |
| SpinLock.DefaultLockSpins | src/mutex/spin_lock.rs:14-18 | as written, lock on a default spin lock that nobody releases never returns |
| SpinLock.OpenLockReturns | src/mutex/spin_lock.rs:34-36 | with the corrected default, the first lock returns at its first attempt |
| ParkMutex.RawParkMutex.constructor | src/mutex/impls/park_mutex.rs:29-42 | a default parking mutex is unlocked, with no holder and no parker |
| ParkMutex.RawParkMutex.TryLock | src/mutex/impls/park_mutex.rs:48-50 | try_lock succeeds exactly when the mutex was unlocked, touching neither holder nor queue |
| ParkMutex.RawParkMutex.Handoff | src/mutex/impls/park_mutex.rs:54-79 | the unlock loop computes `Serve` of the queue: the served thread becomes holder and the lock stays held exactly when someone was served |
| ParkMutex.RawParkMutex.Unlock | src/mutex/impls/park_mutex.rs:52-80 | unlock hands the lock to the first live parked thread and returns it; with no live parker the lock opens; the others keep waiting in order |
| ParkMutex.RawParkMutex.Lock | src/mutex/impls/park_mutex.rs:87-104 | lock returns an open lock at once without touching the queue; otherwise the thread waits in the queue and returns only when an unlock named it holder; when the holder's release comes first and nobody waited, it is handed the lock and the queue is empty |
| ParkMutex.RawParkMutex.LockTimeoutAsWritten | src/mutex/impls/park_mutex.rs:111-137 | as written: on a held lock lock_timeout reports success without taking it; on an open lock it takes the lock, parks first in the queue, and succeeds exactly when another thread's unlock hands it the lock (never without an unlock step, always when the first step is one); on failure it leaves the lock held by nobody |
| ParkMutex.RawParkMutex.LockTimeout | src/mutex/impls/park_mutex.rs:111-137 | corrected: an open lock is taken at once; otherwise success means an unlock named this thread holder, and failure leaves the thread out of the queue and not holder |
| ParkMutex.TimeoutReportsHeldLock | src/mutex/impls/park_mutex.rs:111-115 | as written, while thread 1 holds the lock, thread 2's lock_timeout reports success |
| ParkMutex.TimeoutLeaksOpenLock | src/mutex/impls/park_mutex.rs:113-135 | as written, with no other thread running, lock_timeout on an open lock reports failure and leaves the lock held by nobody |
| ParkMutex.TimeoutHandedOffByIntruder | src/mutex/impls/park_mutex.rs:113-130 | as written, thread 1's lock_timeout takes the open lock and parks; a release by a thread the inverted test let through hands thread 1 the lock, and its call succeeds |
| ParkMutex.TimeoutTakesOpenLock | src/mutex/impls/park_mutex.rs:111-137 | corrected, lock_timeout takes an open lock and fails on a held one when nobody releases it |
| ParkMutexSwap.RawParkMutex.constructor | src/mutex/park_mutex.rs:24-34 | a default parking mutex is unlocked, with no holder and no parker |
| ParkMutexSwap.RawParkMutex.TryLock | src/mutex/park_mutex.rs:36-38 | try_lock succeeds exactly when the mutex was unlocked, touching neither holder nor queue |
| ParkMutexSwap.RawParkMutex.Handoff | src/mutex/park_mutex.rs:42-62 | the unlock loop takes ids out of the popped cells and computes `Serve` of the queue: the served thread becomes holder, and the lock stays held exactly when someone was served |
| ParkMutexSwap.RawParkMutex.Unlock | src/mutex/park_mutex.rs:40-63 | unlock hands the lock to the first thread whose cell still holds its id and returns it; with none, the lock opens; the others keep waiting in order |
| ParkMutexSwap.RawParkMutex.Lock | src/mutex/park_mutex.rs:66-84 | lock returns an open lock at once; otherwise it returns only when an unlock named this thread holder; when the holder's release comes first and nobody waited, it is handed the lock |
| ParkMutexSwap.RawParkMutex.LockTimeoutAsWritten | src/mutex/park_mutex.rs:87-118 | as written: on a held lock lock_timeout reports success without taking it; on an open lock it takes the lock, parks first in the queue, and succeeds exactly when another thread's unlock hands it the lock (never without an unlock step, always when the first step is one); on timeout it empties its own cell and leaves the lock held by nobody |
| ParkMutexSwap.RawParkMutex.LockTimeout | src/mutex/park_mutex.rs:87-118 | corrected: an open lock is taken at once; otherwise success means an unlock named this thread holder; on timeout the thread's cell is emptied, so no later unlock serves it |
| ParkMutexSwap.TimeoutReportsHeldLock | src/mutex/park_mutex.rs:87-91 | as written, while thread 1 holds the lock, thread 2's lock_timeout reports success |
| ParkMutexSwap.TimeoutLeaksOpenLock | src/mutex/park_mutex.rs:89-117 | as written, with no other thread running, lock_timeout on an open lock reports failure and leaves the lock held by nobody |
| ParkMutexSwap.TimeoutHandedOffByIntruder | src/mutex/park_mutex.rs:89-105 | as written, thread 1's lock_timeout takes the open lock and parks; a release by a thread the inverted test let through hands thread 1 the lock, and its call succeeds |
| ParkMutexSwap.TimeoutTakesOpenLock | src/mutex/park_mutex.rs:87-118 | corrected, lock_timeout takes an open lock and fails on a held one when nobody releases it |
| AsyncMutex.PopLiveServes | src/mutex/impls/async_mutex.rs:70-90 | on the waiting tasks, one unlock is one `Serve`: handles of dropped futures are discarded and the first live one is completed |
| AsyncMutex.PopUntilLive | src/mutex/impls/async_mutex.rs:71-89 | the unlock loop pops up to and including the first live handle, exactly as `PopLive` |
| AsyncMutex.DropIn | src/mutex/impls/async_mutex.rs:72-77 | dropping a task's future kills exactly that task's handles, so the waiting order loses exactly that task |
| AsyncMutex.RawFullAsyncMutex.constructor | src/mutex/impls/async_mutex.rs:52-60 | a mutex made from an empty queue is unlocked with nobody waiting |
| AsyncMutex.RawFullAsyncMutex.TryLock | src/mutex/impls/async_mutex.rs:66-68 | try_lock succeeds exactly when the mutex was unlocked, and touches no waiter |
| AsyncMutex.RawFullAsyncMutex.Unlock | src/mutex/impls/async_mutex.rs:70-90 | unlock wakes the first waiting task, which then holds the mutex, and returns it; the mutex opens exactly when no task waits; the rest keep their order |
| AsyncMutex.RawFullAsyncMutex.Enqueue | src/mutex/impls/async_mutex.rs:105-107 | the push in lock_async appends the task at the back of the waiting order |
| AsyncMutex.RawFullAsyncMutex.Recheck | src/mutex/impls/async_mutex.rs:108-111 | the second try_lock changes nothing on a held mutex; on an open one it takes and unlocks it, which wakes the front waiter |
| AsyncMutex.RawFullAsyncMutex.LockAsync | src/mutex/impls/async_mutex.rs:97-115 | lock_async leaves the mutex held and the future either complete or waiting in the queue; an open mutex completes it at once; when another task unlocks between the try_lock and the push, a lone waiter is still woken |
| AsyncMutex.RawFullAsyncMutex.DropFuture | src/mutex/impls/async_mutex.rs:72-77 | dropping a waiting future takes exactly that task out of the waiting order |
| AsyncMutex.UncontendedLockIsReady | src/mutex/impls/async_mutex.rs:99-103 | lock_async on an open mutex completes its future at once |
| CustomMutexes.CustomMutex.FromRaw | src/mutex/custom_mutex.rs:14-20 | from_raw stores the raw mutex and the data unchanged |
| CustomMutexes.CustomMutex.constructor | src/mutex/custom_mutex.rs:22-27 | new wraps the data with a default raw mutex: unlocked, no holder, nobody waiting |
| CustomMutexes.CustomMutex.TryLock | src/mutex/try_mutex.rs:51-56 | try_lock yields a guard on this mutex exactly when the raw try_lock succeeded |
| CustomMutexes.CustomMutex.TryLockFunc | src/mutex/try_mutex.rs:63-72 | on success func sees the data, its change persists, and exactly one unlock follows; on failure func gets None and no further raw call is made |
| CustomMutexes.CustomMutex.TryLockFuncDefault | src/mutex/try_mutex.rs:35-40 | the trait default has the same observable effect as the override |
| CustomMutexes.CustomMutex.Lock | src/mutex/mod.rs:64-67 | lock yields a guard once the raw lock returned: at once on an open mutex, otherwise after an unlock named this thread holder |
| CustomMutexes.CustomMutex.LockFunc | src/mutex/mod.rs:74-79 | lock_func is exactly lock, func on the data (whose change persists), unlock; a thread parked behind a holder that releases first is handed the lock and leaves it open |
| CustomMutexes.CustomMutex.LockFuncDefault | src/mutex/mod.rs:54-56 | the trait default has the same observable effect as the override |
| CustomMutexes.CustomMutex.LockTimeout | src/mutex/timeout_mutex.rs:45-50 | lock_timeout yields a guard exactly when the raw timed lock succeeded; on failure the thread neither waits nor holds the lock |
| CustomMutexes.CustomMutex.LockTimeoutFunc | src/mutex/timeout_mutex.rs:57-70 | on success func's change persists and exactly one unlock follows; on timeout func gets None and nothing is released |
| CustomMutexes.CustomMutex.LockTimeoutFuncDefault | src/mutex/timeout_mutex.rs:28-37 | the trait default has the same observable effect as the override |
| CustomMutexes.WriteThrough | src/mutex/custom_mutex.rs:82-84 | a write through deref_mut is what the mutex holds and what deref reads |
| CustomMutexes.DropGuard | src/mutex/custom_mutex.rs:90-92 | dropping a guard unlocks its mutex exactly once, which hands it to the first waiting thread or opens it |
| CustomMutexTests.TryMutexTest | src/mutex/custom_mutex.rs:139-156 | the single-thread test's expectations hold: reads 100, then 200, then 300, and try_lock fails while a guard is held |
| CustomMutexTests.MutexTest | src/mutex/custom_mutex.rs:227-243 | the two-thread test's expectations hold on one mutex: thread 2's lock_func, started while thread 1 holds the guard, can return only after thread 1's release; it is handed the lock, sees 300 and stores 400, and thread 1 then reads 400 |
| MutexAlloc.TraceAlternates | src/mutex/mutex_alloc.rs:168-181 | for every message the background thread first acquires the blocking mutex, then grants it to the message's task if its future is alive and releases it otherwise |
| MutexAlloc.TraceGrants | src/mutex/mutex_alloc.rs:170-177 | the tasks granted the mutex are the tasks of the live messages, in message order |
| MutexAlloc.GrantedAreLive | src/mutex/mutex_alloc.rs:173-176 | a task is granted the mutex exactly when one of its messages was live |
| MutexAlloc.DroppedNeverGranted | src/mutex/mutex_alloc.rs:173-174 | a task whose future was dropped is never granted the mutex, and every other task still is |
| MutexAlloc.StuckOnlyWhileHeld | src/mutex/mutex_alloc.rs:170-172 | the background thread is left spinning only on a lock that nobody releases while the mutex is held, by the previously granted task or from the start |
| MutexAlloc.UnlocksKeepItRunning | src/mutex/mutex_alloc.rs:168-181 | when every granted task eventually unlocks, the thread handles every message it has a schedule for |
| MutexAlloc.RawCustomAsyncMutex.constructor | src/mutex/mutex_alloc.rs:147-166 | new starts with an unlocked blocking mutex and an empty message queue of the given bound |
| MutexAlloc.RawCustomAsyncMutex.TryLock | src/mutex/mutex_alloc.rs:189-191 | try_lock forwards to the blocking mutex: it succeeds exactly when that mutex was free |
| MutexAlloc.RawCustomAsyncMutex.Unlock | src/mutex/mutex_alloc.rs:194-196 | unlock forwards to the blocking mutex, which is then free |
| MutexAlloc.RawCustomAsyncMutex.Lock | src/mutex/mutex_alloc.rs:204-206 | lock forwards to the blocking mutex: it returns exactly when the mutex was free or released during the spin |
| MutexAlloc.RawCustomAsyncMutex.LockAsync | src/mutex/mutex_alloc.rs:215-222 | lock_async appends one Lock message with a live handle, or panics exactly when the message queue is full, pushing nothing |
| MutexAlloc.RawCustomAsyncMutex.DropFuture | src/mutex/mutex_alloc.rs:173-174 | a dropped future's queued messages carry dead handles |
| MutexAlloc.RawCustomAsyncMutex.HandleMessage | src/mutex/mutex_alloc.rs:172-177 | for one message: lock, then keep the mutex for a live future or release it for a dropped one; the lock returns exactly when the mutex was free or released |
| MutexAlloc.RawCustomAsyncMutex.PopAndHandle | src/mutex/mutex_alloc.rs:170-178 | one turn pops the front message and handles it |
| MutexAlloc.RawCustomAsyncMutex.ThreadFunction | src/mutex/mutex_alloc.rs:168-181 | the thread handles messages strictly in queue order, as `Run` computes; its trace is the alternating acquire/grant-or-release trace of the handled prefix, and only the popped messages leave the queue |
| MutexAlloc.TwoLiveMessages | src/mutex/mutex_alloc.rs:168-181 | with two live messages, the second lock spins until the first task unlocks, and the grants are task 1 then task 2 |
| MutexAlloc.SecondLockSpinsWhileHeld | src/mutex/mutex_alloc.rs:170-172 | two tasks ask; the first is granted at once and the lock for the second spins while the first holds the mutex |
| MutexAlloc.SecondTaskFollowsFirst | src/mutex/mutex_alloc.rs:168-181 | two tasks ask; once the first unlocks, the second is granted the mutex |
| MutexAlloc.CustomAsyncMutex.LockAsyncFunc | src/mutex/mutex_alloc.rs:116-131 | when the raw future is complete, func runs on the data (its change persists) and one unlock hands the mutex on; otherwise the task is still waiting in the queue |
| AtomicRwLock.DecodeEncode | src/rw_lock/atomic_rw_lock.rs:10-13 | the counter encoding of the holders (0 is a writer, 1 is open, x is x - 1 readers) is a bijection: decoding an encoding gives the holders back |
| AtomicRwLock.EncodeDecode | src/rw_lock/atomic_rw_lock.rs:10-13 | every counter value is the encoding of exactly the holders it decodes to |
| AtomicRwLock.TryAddReaderStep | src/rw_lock/atomic_rw_lock.rs:23-34 | try_add_reader succeeds exactly when no writer holds the lock, and then adds exactly one reader; on failure the counter is unchanged |
| AtomicRwLock.TryAddWriterStep | src/rw_lock/atomic_rw_lock.rs:36-47 | try_add_writer succeeds exactly on an open lock, and then a writer holds it; on failure the counter is unchanged |
| AtomicRwLock.RemoveReaderStep | src/rw_lock/atomic_rw_lock.rs:49-56 | remove_reader demands a reader (the debug assertion) and leaves one reader fewer |
| AtomicRwLock.RemoveWriterStep | src/rw_lock/atomic_rw_lock.rs:58-65 | remove_writer demands a writer (the debug assertion) and leaves the lock open |
| AtomicRwLock.TryUpgradeStep | src/rw_lock/upgrade_rw_lock/try.rs:6-11 | try_upgrade, called while holding a reader, succeeds exactly when that reader is the only one and turns it into the writer; on failure nothing changes |
| AtomicRwLock.DowngradeStep | src/rw_lock/upgrade_rw_lock/mod.rs:30-35 | downgrade, called by the writer, leaves exactly one reader |
| AtomicRwLock.ReaderRoundTrip | src/rw_lock/atomic_rw_lock.rs:23-56 | adding and then removing a reader restores the counter |
| AtomicRwLock.WriterRoundTrip | src/rw_lock/atomic_rw_lock.rs:36-65 | adding and then removing a writer restores the counter |
| AtomicRwLock.Exclusion | src/rw_lock/atomic_rw_lock.rs:23-47 | a writer excludes both readers and writers; a reader excludes writers |
| AtomicRwLock.UpgradeRoundTrip | src/rw_lock/upgrade_rw_lock/mod.rs:30-35 | upgrading the only reader and downgrading again restores the counter |
| AtomicRwLock.TryUpgradeKeepsOwed | src/rw_lock/upgrade_rw_lock/try.rs:44-54 | a try_upgrade never changes how many releases are owed: a read guard goes in and one guard comes out |
| AtomicRwLock.RawAtomicRwLock.constructor | src/rw_lock/atomic_rw_lock.rs:15-21 | a default lock is open |
| AtomicRwLock.RawAtomicRwLock.TryAddReader | src/rw_lock/atomic_rw_lock.rs:23-34 | the counter and the result are those of `TryAddReaderStep`, and the call is logged once |
| AtomicRwLock.RawAtomicRwLock.TryAddWriter | src/rw_lock/atomic_rw_lock.rs:36-47 | the counter and the result are those of `TryAddWriterStep`, and the call is logged once |
| AtomicRwLock.RawAtomicRwLock.RemoveReader | src/rw_lock/atomic_rw_lock.rs:49-56 | remove_reader demands a reader and performs `RemoveReaderStep` |
| AtomicRwLock.RawAtomicRwLock.RemoveWriter | src/rw_lock/atomic_rw_lock.rs:58-65 | remove_writer demands a writer and performs `RemoveWriterStep` |
| AtomicRwLock.RawAtomicRwLock.TryUpgrade | src/rw_lock/upgrade_rw_lock/try.rs:6-11 | try_upgrade demands a reader held by the caller and performs `TryUpgradeStep` |
| AtomicRwLock.RawAtomicRwLock.Downgrade | src/rw_lock/upgrade_rw_lock/mod.rs:30-35 | downgrade demands the writer and performs `DowngradeStep` |
| SpinRwLock.RawSpinRwLock.constructor | src/rw_lock/impls/spin_rw_lock.rs:19-26 | a default spin reader-writer lock wraps an open counter lock |
| SpinRwLock.RawSpinRwLock.TryAddReader | src/rw_lock/impls/spin_rw_lock.rs:29-31 | try_add_reader forwards to the counter lock |
| SpinRwLock.RawSpinRwLock.TryAddWriter | src/rw_lock/impls/spin_rw_lock.rs:34-36 | try_add_writer forwards to the counter lock |
| SpinRwLock.RawSpinRwLock.RemoveReader | src/rw_lock/impls/spin_rw_lock.rs:39-41 | remove_reader forwards to the counter lock |
| SpinRwLock.RawSpinRwLock.RemoveWriter | src/rw_lock/impls/spin_rw_lock.rs:44-46 | remove_writer forwards to the counter lock |
| SpinRwLock.RawSpinRwLock.TryUpgrade | src/rw_lock/impls/spin_rw_lock.rs:66-68 | try_upgrade forwards to the counter lock |
| SpinRwLock.RawSpinRwLock.Downgrade | src/rw_lock/impls/spin_rw_lock.rs:97-99 | downgrade forwards to the counter lock |
| SpinRwLock.RawSpinRwLock.AddReader | src/rw_lock/impls/spin_rw_lock.rs:52-56 | add_reader returns only right after its own successful try_add_reader, with every earlier attempt failed; a reader then holds the lock |
| SpinRwLock.RawSpinRwLock.AddWriter | src/rw_lock/impls/spin_rw_lock.rs:58-62 | add_writer returns only right after its own successful try_add_writer, with every earlier attempt failed; the writer then holds the lock |
| SpinRwLock.RawSpinRwLock.AddReaderTimeout | src/rw_lock/impls/spin_rw_lock.rs:105-114 | true only right after a successful attempt before the deadline; false means every attempt failed and the caller changed nothing; a zero timeout makes no attempt |
| SpinRwLock.RawSpinRwLock.AddWriterTimeout | src/rw_lock/impls/spin_rw_lock.rs:116-125 | true only right after a successful attempt before the deadline; false means every attempt failed and the caller changed nothing; a zero timeout makes no attempt |
| SpinRwLock.RawSpinRwLock.Upgrade | src/rw_lock/impls/spin_rw_lock.rs:74-78 | upgrade retries try_upgrade until it succeeds, and the caller's reader survives every step of the other threads; it returns holding the writer |
| SpinRwLock.RawSpinRwLock.UpgradeTimeout | src/rw_lock/impls/spin_rw_lock.rs:84-93 | true only right after a successful try_upgrade before the deadline; on false the caller still holds its reader |
| CustomRw.CustomRwLock.FromRaw | src/rw_lock/mod.rs:295-300 | from_raw stores the raw lock and the data unchanged |
| CustomRw.CustomRwLock.constructor | src/rw_lock/mod.rs:304-309 | new wraps the data with a default, open raw lock |
| CustomRw.CustomRwLock.TryRead | src/rw_lock/mod.rs:320-325 | try_read yields a read guard on this lock exactly when try_add_reader succeeded |
| CustomRw.CustomRwLock.TryWrite | src/rw_lock/mod.rs:327-332 | try_write yields a write guard on this lock exactly when try_add_writer succeeded |
| CustomRw.CustomRwLock.TryReadFunc | src/rw_lock/mod.rs:339-348 | on success func reads the data and exactly one remove_reader follows; on failure func gets None and no further raw call is made; the counter ends as it started |
| CustomRw.CustomRwLock.TryReadFuncDefault | src/rw_lock/mod.rs:46-51 | the trait default has the same observable effect as the override |
| CustomRw.CustomRwLock.TryWriteFunc | src/rw_lock/mod.rs:350-359 | on success func's change persists and exactly one remove_writer follows; on failure func gets None and no further raw call is made |
| CustomRw.CustomRwLock.TryWriteFuncDefault | src/rw_lock/mod.rs:57-62 | the trait default has the same observable effect as the override |
| CustomRw.CustomRwLock.Read | src/rw_lock/mod.rs:366-369 | read yields a read guard once add_reader returned, and a reader then holds the lock |
| CustomRw.CustomRwLock.Write | src/rw_lock/mod.rs:371-374 | write yields a write guard once add_writer returned, and the writer then holds the lock |
| CustomRw.CustomRwLock.ReadFunc | src/rw_lock/mod.rs:381-386 | read_func is exactly add_reader, func on the data, remove_reader, and returns func's output |
| CustomRw.CustomRwLock.ReadFuncDefault | src/rw_lock/mod.rs:85-87 | the trait default has the same observable effect as the override |
| CustomRw.CustomRwLock.WriteFunc | src/rw_lock/mod.rs:388-393 | write_func is exactly add_writer, func on the data (whose change persists), remove_writer |
| CustomRw.CustomRwLock.WriteFuncDefault | src/rw_lock/mod.rs:94-96 | the trait default has the same observable effect as the override |
| CustomRw.CustomRwLock.ReadTimeout | src/rw_lock/mod.rs:401-406 | read_timeout yields a read guard exactly when add_reader_timeout returned true |
| CustomRw.CustomRwLock.WriteTimeout | src/rw_lock/mod.rs:408-413 | write_timeout yields a write guard exactly when add_writer_timeout returned true |
| CustomRw.CustomRwLock.ReadTimeoutFunc | src/rw_lock/mod.rs:420-433 | on success func reads the data and remove_reader follows; on timeout func gets None and nothing is released |
| CustomRw.CustomRwLock.ReadTimeoutFuncDefault | src/rw_lock/mod.rs:183-192 | the trait default has the same observable effect as the override |
| CustomRw.CustomRwLock.WriteTimeoutFunc | src/rw_lock/mod.rs:435-448 | on success func's change persists and remove_writer follows; on timeout func gets None and nothing is released |
| CustomRw.CustomRwLock.WriteTimeoutFuncDefault | src/rw_lock/mod.rs:199-208 | the trait default has the same observable effect as the override |
| CustomRw.WriteThrough | src/rw_lock/mod.rs:500-502 | a write through deref_mut is what the lock holds and what deref reads |
| CustomRw.DropRead | src/rw_lock/mod.rs:473-475 | dropping a read guard calls remove_reader on its lock exactly once |
| CustomRw.DropWrite | src/rw_lock/mod.rs:508-510 | dropping a write guard calls remove_writer on its lock exactly once |
| CustomRw.Upgrade | src/rw_lock/upgrade_rw_lock/mod.rs:85-91 | upgrade yields a write guard over the same lock once the raw upgrade returned; the read guard is consumed without a remove_reader |
| CustomRw.Downgrade | src/rw_lock/upgrade_rw_lock/mod.rs:101-107 | downgrade yields a read guard over the same lock, which is then held by exactly one reader; there is no remove_writer |
| CustomRw.TryUpgrade | src/rw_lock/upgrade_rw_lock/try.rs:44-54 | Ok with a write guard over the same lock exactly when the raw try_upgrade succeeded, otherwise Err with the original read guard; the releases owed do not change |
| CustomRw.UpgradeTimeout | src/rw_lock/upgrade_rw_lock/timeout.rs:40-50 | Ok with a write guard over the same lock when the raw call returned true, otherwise Err with the original read guard, which still holds a reader |
| AtomicSemaphores.ReplayBalance | src/semaphore/impls/atomic_semaphore.rs:22-44 | every permit is accounted for: the count plus the permits taken equals the starting count plus the signals |
| AtomicSemaphores.RefusedOnlyWhenDrained | src/semaphore/impls/atomic_semaphore.rs:26-28 | try_wait refuses only when every permit signalled so far has been taken |
| AtomicSemaphores.SignalsThenTakes | src/semaphore/impls/atomic_semaphore.rs:22-44 | any run of signals followed by no more takes than permits is possible and leaves the start plus the signals minus the takes |
| AtomicSemaphores.AtomicSemaphore.constructor | src/semaphore/impls/atomic_semaphore.rs:11-15 | new starts with the given count |
| AtomicSemaphores.AtomicSemaphore.Default | src/semaphore/impls/atomic_semaphore.rs:17-21 | a default semaphore has no permit |
| AtomicSemaphores.AtomicSemaphore.TryWait | src/semaphore/impls/atomic_semaphore.rs:23-39 | try_wait succeeds exactly when a permit is left, and then takes exactly one |
| AtomicSemaphores.AtomicSemaphore.Signal | src/semaphore/impls/atomic_semaphore.rs:41-43 | signal adds exactly one permit |
| AtomicSemaphores.AtomicSemaphore.Count | src/semaphore/impls/atomic_semaphore.rs:48-50 | count reads the permits left, which balance the calls made so far |
| AtomicSemaphores.TwoSignalsTwoPermits | src/semaphore/impls/atomic_semaphore.rs:17-43 | two signals on a default semaphore allow exactly two takes |
| AsyncSemaphores.FullAsyncSemaphore.constructor | src/semaphore/impls/async_semaphore.rs:19-26 | new starts with the given count and nobody waiting |
| AsyncSemaphores.FullAsyncSemaphore.Default | src/semaphore/impls/async_semaphore.rs:28-35 | a default semaphore has no permit and nobody waiting |
| AsyncSemaphores.FullAsyncSemaphore.TryWait | src/semaphore/impls/async_semaphore.rs:41-49 | try_wait fails exactly at zero, otherwise takes one permit, and touches no waiter |
| AsyncSemaphores.FullAsyncSemaphore.SignalAsWritten | src/semaphore/impls/async_semaphore.rs:51-62 | as written: signal panics exactly when it completes a waiting task's handle, after popping and completing it |
| AsyncSemaphores.FullAsyncSemaphore.Signal | src/semaphore/impls/async_semaphore.rs:51-62 | corrected: at zero the permit goes to the first task still waiting, skipping dropped handles, and the count stays zero; otherwise, or with nobody waiting, the count grows by one |
| AsyncSemaphores.FullAsyncSemaphore.WaitAsync | src/semaphore/impls/async_semaphore.rs:70-80 | wait_async is ready at once exactly when a permit is left, and takes it; otherwise the task joins the back of the waiting order |
| AsyncSemaphores.FullAsyncSemaphore.DropFuture | src/semaphore/impls/async_semaphore.rs:54-58 | dropping a waiting future takes exactly that task out of the waiting order |
| AsyncSemaphores.FullAsyncSemaphore.Count | src/semaphore/impls/async_semaphore.rs:89-91 | count reads the permits left |
| AsyncSemaphores.SignalToWaiterPanics | src/semaphore/impls/async_semaphore.rs:55-56 | as written, signalling a semaphore that a task waits on panics |
| AsyncSemaphores.SignalWakesWaiter | src/semaphore/impls/async_semaphore.rs:51-62 | corrected, the signal hands its permit to the waiting task and the count stays zero |
| AsyncSemaphores.DroppedWaiterSkipped | src/semaphore/impls/async_semaphore.rs:54-58 | a dropped waiter is skipped: the permit goes to the next task still waiting |
| ParkSemaphores.LeaveLast | src/semaphore/impls/park_semaphore.rs:105-113 | a waiter that joined and then leaves restores the queue it joined |
| ParkSemaphores.LeaveKeepsDistinct | src/semaphore/impls/park_semaphore.rs:105-113 | a waiter leaving keeps the other entries in order with distinct flags |
| ParkSemaphores.ParkSemaphore.constructor | src/semaphore/impls/park_semaphore.rs:25-32 | new starts with the given count and nobody parked |
| ParkSemaphores.ParkSemaphore.Default | src/semaphore/impls/park_semaphore.rs:34-42 | a default semaphore has no permit and nobody parked |
| ParkSemaphores.ParkSemaphore.TryWait | src/semaphore/impls/park_semaphore.rs:48-56 | try_wait fails exactly at zero, otherwise takes one permit, and touches no parker |
| ParkSemaphores.ParkSemaphore.Signal | src/semaphore/impls/park_semaphore.rs:58-68 | at zero with a parker queued, the front parker is popped and its flag set, which hands it the permit; otherwise the count grows by one |
| ParkSemaphores.ParkSemaphore.Count | src/semaphore/impls/park_semaphore.rs:129-131 | count reads the permits left |
| ParkSemaphores.ParkSemaphore.TakeOrJoin | src/semaphore/impls/park_semaphore.rs:76-85 | take a permit exactly when one is left; otherwise join the back of the queue with a fresh flag |
| ParkSemaphores.ParkSemaphore.Wait | src/semaphore/impls/park_semaphore.rs:75-92 | wait takes a left permit at once; otherwise it returns only once a signal set its flag, and until then it stays queued; a signal that comes first wakes a lone waiter |
| ParkSemaphores.ParkSemaphore.WaitTimeoutAsWritten | src/semaphore/impls/park_semaphore.rs:99-120 | as written: at the deadline the thread returns false and its entry stays queued, so a later signal can pop it |
| ParkSemaphores.ParkSemaphore.WaitTimeout | src/semaphore/impls/park_semaphore.rs:99-120 | corrected: false means the thread's flag was never set and its entry has left the queue, so no permit is spent on it |
| ParkSemaphores.ParkSemaphore.GiveUp | src/semaphore/impls/park_semaphore.rs:112-114 | the timed-out thread's entry, and only it, leaves the queue |
| ParkSemaphores.TimedOutWaiterSwallowsPermit | src/semaphore/impls/park_semaphore.rs:58-68 | as written, after a waiter times out, a signal goes to its stale entry and a following try_wait fails: the permit is lost |
| ParkSemaphores.TimedOutWaiterLeavesPermit | src/semaphore/impls/park_semaphore.rs:99-120 | corrected, the signal's permit stays available after a waiter timed out |
| ParkSemaphores.SignalWakesWaiter | src/semaphore/impls/park_semaphore.rs:58-92 | a signal wakes the parked waiter, which returns holding the permit, and the count stays zero |
| SemaphoreQueues.SemaphoreQueue.Default | src/queue/impls/semaphore_queue.rs:34-44 | default starts with no item and no permit |
| SemaphoreQueues.SemaphoreQueue.Len | src/queue/impls/semaphore_queue.rs:22-24 | len is the number of items queued |
| SemaphoreQueues.SemaphoreQueue.IsEmpty | src/queue/impls/semaphore_queue.rs:27-32 | is_empty holds exactly when no item is queued |
| SemaphoreQueues.SemaphoreQueue.TryPush | src/queue/impls/semaphore_queue.rs:53-57 | try_push always succeeds and appends the item at the back, keeping the permits equal to the items |
| SemaphoreQueues.SemaphoreQueue.Push | src/queue/impls/semaphore_queue.rs:71-74 | push, push_async and push_timeout append the item at the back |
| SemaphoreQueues.SemaphoreQueue.TryPushFront | src/queue/impls/semaphore_queue.rs:104-108 | try_push_front always succeeds and puts the item at the front |
| SemaphoreQueues.SemaphoreQueue.PushFront | src/queue/impls/semaphore_queue.rs:115-118 | push_front and push_front_async put the item at the front |
| SemaphoreQueues.SemaphoreQueue.TakeFront | src/queue/impls/semaphore_queue.rs:59-64 | holding a permit, the front item is there, so the pop's unwrap cannot fail |
| SemaphoreQueues.SemaphoreQueue.TakeBack | src/queue/impls/semaphore_queue.rs:138-143 | holding a permit, the back item is there, so the unwrap cannot fail |
| SemaphoreQueues.SemaphoreQueue.TryPop | src/queue/impls/semaphore_queue.rs:59-64 | try_pop returns an item exactly when one is queued, and it is the front one, removed; otherwise nothing changes |
| SemaphoreQueues.SemaphoreQueue.TryPopBack | src/queue/impls/semaphore_queue.rs:138-143 | try_pop_back returns an item exactly when one is queued, and it is the back one, removed; otherwise nothing changes |
| SemaphoreQueues.SemaphoreQueue.WaitForItem | src/queue/impls/semaphore_queue.rs:76-79 | the semaphore wait lets other threads run exactly while the queue is empty, and stops at the first moment an item is there |
| SemaphoreQueues.SemaphoreQueue.Pop | src/queue/impls/semaphore_queue.rs:76-79 | pop returns the front item of the queue as it is when the first item appears, and returns at once when one is already queued |
| SemaphoreQueues.SemaphoreQueue.PopAsyncAsWritten | src/queue/impls/semaphore_queue.rs:93-96 | as written, pop_async takes the back item, the newest |
| SemaphoreQueues.SemaphoreQueue.PopAsync | src/queue/impls/semaphore_queue.rs:93-96 | corrected, pop_async waits like pop and returns the front item, the oldest |
| SemaphoreQueues.SemaphoreQueue.PopBackAsWritten | src/queue/impls/semaphore_queue.rs:150-152 | as written, pop_back panics exactly when the queue is empty, and otherwise takes the back item without waiting |
| SemaphoreQueues.SemaphoreQueue.PopBack | src/queue/impls/semaphore_queue.rs:161-164 | pop_back_async, and pop_back as intended: wait for an item, then take the back one |
| SemaphoreQueues.SemaphoreQueue.PopTimeout | src/queue/impls/semaphore_queue.rs:196-201 | pop_timeout waits while the queue is empty and the deadline has not passed; None means the queue stayed empty, Some is the front item then |
| SemaphoreQueues.FifoOrder | src/queue/impls/semaphore_queue.rs:53-64 | items pushed at the back leave from the front in push order, and an empty queue yields none |
| SemaphoreQueues.LenCountsItems | src/queue/impls/semaphore_queue.rs:22-24 | len counts items from both ends, and pop_back takes the one pushed at the back |
| SemaphoreQueues.PopAsyncReturnsNewest | src/queue/impls/semaphore_queue.rs:93-96 | as written, after pushes of 1 then 2, pop_async returns 2 |
| SemaphoreQueues.PopAsyncReturnsOldest | src/queue/impls/semaphore_queue.rs:93-96 | corrected, after pushes of 1 then 2, pop_async returns 1 |
| SemaphoreQueues.PopBackOnEmptyPanics | src/queue/impls/semaphore_queue.rs:150-152 | as written, pop_back on an empty queue panics |
| SemaphoreQueues.PopBackWaitsForPush | src/queue/impls/semaphore_queue.rs:150-152 | corrected, pop_back on an empty queue waits for another thread's push and returns that item |
| ParkQueues.ParkQueue.Default | src/queue/park_queue.rs:21-33 | a default park queue holds no item and no parked popper |
| ParkQueues.ParkQueue.TryPush | src/queue/park_queue.rs:41-52 | try_push never fails, appends the item at the back, and pops parker entries exactly as `Serve` does: dead entries ahead of the first live one are dropped and that one alone gets its wake flag |
| ParkQueues.ParkQueue.Push | src/queue/park_queue.rs:67-70 | push (and push_timeout, which ignores its timeout) appends the item and wakes nobody exactly when no live popper is parked; otherwise it wakes the first one and the rest keep their order |
| ParkQueues.ParkQueue.TryPop | src/queue/park_queue.rs:54-56 | try_pop returns an item exactly when one is queued, and it is the front one, removed; parkers are untouched |
| ParkQueues.ParkQueue.Clear | src/queue/park_queue.rs:58-60 | clear empties the items and leaves the parked poppers and their flags as they were |
| ParkQueues.ParkQueue.Join | src/queue/park_queue.rs:77-78 | a popper that finds the queue empty is appended at the back of the waiting order with its flag clear |
| ParkQueues.ParkQueue.Leave | src/queue/park_queue.rs:84-85 | a returning popper's shared flag is dropped, so every entry of it dies and it leaves the waiting order |
| ParkQueues.ParkQueue.TakeFront | src/queue/park_queue.rs:83-85 | a woken popper takes the front item, and its entries die |
| ParkQueues.ParkQueue.Recheck | src/queue/park_queue.rs:82-89 | after park returns: without its flag the popper changes nothing; with its flag it takes the front item, or, finding the buffer empty, re-registers at the FRONT of the parkers with its flag still set; when expired (pop_timeout) it gives up and its entries die |
| ParkQueues.ParkQueue.Wake | src/queue/park_queue.rs:79-89 | one round of a parked popper: the other threads' step, then `Recheck`; with no step between, a woken popper on an empty buffer is put back at the front of the parkers; a parked popper is never forgotten, and a lone popper receives the value a push brings |
| ParkQueues.ParkQueue.Pop | src/queue/park_queue.rs:72-91 | pop returns the front item at once when there is one; otherwise it returns only after parking, holding an item, with no entry of it left; a lone popper receives the next pushed value |
| ParkQueues.ParkQueue.PopTimeout | src/queue/park_queue.rs:104-132 | pop_timeout returns the front item at once when there is one; None only once the clock reached the deadline; either way no entry of the popper is left behind |
| ParkQueues.LoneWaiterGetsPush | src/queue/park_queue.rs:41-91 | a popper on an empty queue receives the value the next push brings |
| ParkQueues.PushWakesFirstParked | src/queue/park_queue.rs:44-50 | with two poppers parked, a push wakes the one that parked first |
| ParkQueues.TimedPopGivesUp | src/queue/park_queue.rs:104-132 | with nothing pushed, a timed pop returns None at or past the deadline and leaves no entry behind |
| QueueAlloc.HandleWrite | src/queue/queue_alloc.rs:617-651 | a push or push_front succeeds exactly when the backing queue has room; the item goes to the back or the front, and a live future is completed once; on failure nothing changes and the operation is kept |
| QueueAlloc.HandleRead | src/queue/queue_alloc.rs:653-684 | a pop or pop_back succeeds exactly when the backing queue is non-empty; it removes the front or back item, which goes to a live future or is discarded for a dropped one; on failure nothing changes |
| QueueAlloc.DrainWrites | src/queue/queue_alloc.rs:702-722 | draining writes leaves a suffix of the pending writes, in order, and keeps the capacity |
| QueueAlloc.DrainReads | src/queue/queue_alloc.rs:740-760 | draining reads leaves a suffix of the pending reads, in order, and keeps the capacity |
| QueueAlloc.DrainWritesStopsWhenFull | src/queue/queue_alloc.rs:702-722 | each write run adds one item, and writes are left over only when the backing queue is full |
| QueueAlloc.DrainReadsStopsWhenEmpty | src/queue/queue_alloc.rs:740-760 | each read run takes one item, and reads are left over only when the backing queue is empty |
| QueueAlloc.DrainPopsInOrder | src/queue/queue_alloc.rs:724-739 | pending pops receive the front items in FIFO order: the values handed out followed by the rest are the old items |
| QueueAlloc.WriteLoop | src/queue/queue_alloc.rs:686-722 | write_loop and write_prepend_loop run the pending writes in order, stop at the first failure and put it back at the front, as `DrainWrites` |
| QueueAlloc.ReadLoop | src/queue/queue_alloc.rs:724-760 | read_loop and read_back_loop run the pending reads in order, stop at the first failure and put it back at the front, as `DrainReads` |
| QueueAlloc.StepAsWritten | src/queue/queue_alloc.rs:462-484 | as written, a read arriving while reads are pending changes nothing: it is neither run nor queued; every other message is handled as intended |
| QueueAlloc.StepKeepsNoNeedlessWait | src/queue/queue_alloc.rs:433-485 | every message, as written and corrected, keeps reads pending only while the backing queue is empty and writes only while it is full |
| QueueAlloc.QueueTaskFunction | src/queue/queue_alloc.rs:433-485 | as written, the background thread handles its messages in order, as `RunAsWritten` computes, so a read arriving while reads are pending is dropped; it never leaves an operation pending that could proceed |
| QueueAlloc.HandleMessage | src/queue/queue_alloc.rs:437-484 | as written: a write behind pending writes is queued and not attempted; otherwise it runs, is queued alone on failure, and on success drains the pending reads; a read likewise drains the pending writes, but a read behind pending reads changes nothing |
| QueueAlloc.FirstPopWaits | src/queue/queue_alloc.rs:463-472 | a pop on an empty backing queue is queued |
| QueueAlloc.FirstPushServesFirstPop | src/queue/queue_alloc.rs:439-447 | a successful push completes its future and then drains the pending pops: the first one receives the pushed value |
| QueueAlloc.DroppedReadNeverServed | src/queue/queue_alloc.rs:462-484 | as written, with two pops waiting on a queue of capacity one, two pushes serve only the first pop and the second value stays queued |
| QueueAlloc.QueuedReadServed | src/queue/queue_alloc.rs:462-484 | corrected, the same messages deliver the first value to the first pop and the second to the second |
| QueueAlloc.AsyncCustomQueue.constructor | src/queue/queue_alloc.rs:24-40 | new starts with an empty message queue of the given bound |
| QueueAlloc.AsyncCustomQueue.Send | src/queue/queue_alloc.rs:99-122 | sending appends exactly one message, or panics exactly when the message queue is full, appending nothing |
| QueueAlloc.AsyncCustomQueue.PushAsync | src/queue/queue_alloc.rs:99-111 | push_async sends exactly one Push carrying its live future, or panics when the message queue is full |
| QueueAlloc.AsyncCustomQueue.PushFrontAsync | src/queue/queue_alloc.rs:252-264 | push_front_async sends exactly one PushFront carrying its live future, or panics when the message queue is full |
| QueueAlloc.AsyncCustomQueue.PopAsync | src/queue/queue_alloc.rs:113-122 | pop_async sends exactly one Pop carrying its live future, or panics when the message queue is full |
| QueueAlloc.AsyncCustomQueue.PopBackAsync | src/queue/queue_alloc.rs:390-400 | pop_back_async sends exactly one PopBack carrying its live future, or panics when the message queue is full |

## Left out

- Real concurrency: interleavings, memory orderings, and spurious failures of `compare_exchange_weak` are not modelled. Each raw method body, and each body run under an inner spin lock, is one atomic step. A compare-exchange retry loop therefore runs once. The other threads act only between steps, through the `others`/`schedules` parameters.
- The inner `SpinLock` that guards each wait queue is not modelled separately. Holding it is what makes a body atomic.
- `park`, `unpark`, `park_timeout`, `yield_now` and `sleep` are no-ops. While a thread is parked or yielding, one step of the other threads runs. Time is an injected sequence of monotone clock readings.
- Blocking calls are bounded by their schedule. When the schedule runs out while the call is still blocked, the call reports that it has not returned (`returned == false`, `None`, `stuck`). The model says nothing about what happens after that point.
- Debug assertions in `unlock`, `remove_reader` and `remove_writer` are preconditions in every build, so a double release is not modelled.
- `AtomicRwLock.RawAtomicRwLock.TryUpgrade`, `AtomicRwLock.RawAtomicRwLock.Downgrade`: the bodies of `RawAtomicRwLock::try_upgrade` and `downgrade` are not part of this model's source files. The trait text (`src/rw_lock/upgrade_rw_lock/try.rs:6-11`) only says that a reader tries to become the writer, so a `try_upgrade` that always fails would also meet it. The model chooses the natural reading: `try_upgrade` succeeds exactly when the caller's reader is the only one (counter 2 goes to 0), and `downgrade` turns the writer into one reader (0 goes to 2).
- `ParkMutex.RawParkMutex.LockTimeoutAsWritten`: the park condition in `src/mutex/impls/park_mutex.rs:122` is inverted. As written, a thread parks only after the deadline, and before the deadline it spins. Parking is a no-op here, so the model cannot tell spinning from parking. The model also assumes that `end - current_time` at `:123` saturates at zero, as subtraction of `std::time::Instant` values does. With a time type whose subtraction panics on underflow, the as-written path would panic as soon as the deadline passes; that panic is not modelled.
- `ParkMutexSwap.RawParkMutex.LockTimeoutAsWritten`, `ParkMutexSwap.RawParkMutex.LockTimeout`: `src/mutex/park_mutex.rs:99` computes `end - CS::current_time()` on every pass of the loop, with no guard. Once the deadline has passed between the loop's time check and that line, the subtraction underflows. The model assumes it saturates at zero, as subtraction of `std::time::Instant` values does; a panic there is not modelled.
- `AsyncMutex.RawFullAsyncMutex.Enqueue`: the waiting queue is unbounded, so the push never fails. The `.expect("Could not push handle!")` panic in `src/mutex/impls/async_mutex.rs:105-107` is not modelled. The documented use (`:17-27`) puts a `ParkQueue` there, whose `try_push` never fails.
- `CustomMutexes.CustomMutex.LockTimeout`: the wrapper is built on the corrected timed lock (`ParkMutex.RawParkMutex.LockTimeout`). The source's `ParkMutex` type (`src/mutex/impls/park_mutex.rs:18`) wraps the raw lock as written. With it, `lock_timeout` on a lock held by another thread would return a guard while that thread still holds the lock, because the raw call reports success without taking the lock (`ParkMutex.TimeoutReportsHeldLock`).
- `UnsafeCell` aliasing and lifetimes: the protected data is a plain field, and guards are values that name their lock.
- Thread spawning (`ThreadSpawner`, `try_spawn`) is not modelled. Neither is ending the background loops when `Weak::upgrade` fails (`src/mutex/mutex_alloc.rs:147-169`, `src/queue/queue_alloc.rs:24-45`). `QueueAlloc.QueueTaskFunction` and `MutexAlloc.RawCustomAsyncMutex.ThreadFunction` take a finite sequence of messages instead of blocking on the message queue.
- The four `queue_task_function` variants in `src/queue/queue_alloc.rs` are modelled by the double-ended one (`:433-485`). The other three are that one restricted to messages without `PushFront` or `PopBack`, where the source has `unreachable!()`.
- The panics "Future already completed!" (`src/queue/queue_alloc.rs:627,645`) and "Could not set future!" (`:662,678`) are not modelled. A handle in a pending operation is completed or assigned only once, so they cannot occur.
- Futures and executors are not modelled: `lock_async_func` awaits the raw future and then runs `func` synchronously on the data. The async-only wrappers (`src/mutex/async_mutex.rs`, `src/rw_lock/async.rs` and similar files) are not part of this model.
- Adapters to foreign locks and queues, the forwarding implementations through references and smart pointers, and the trait-only interface files are not part of this model. They add no behaviour.
- `src/mutex/atomic_mutex.rs` and `src/rw_lock/spin_rw_lock.rs` are copies of the modelled `src/mutex/impls/atomic_mutex.rs` and `src/rw_lock/impls/spin_rw_lock.rs`, and are covered by the same members.
- Integer widths: counters are unbounded `nat`s. An overflow of `usize` or `isize` after more than 2^63 readers or permits is not modelled.

## Findings

| source | as written | input that shows it | evidently intended | confidence | as-written member | corrected member |
|---|---|---|---|---|---|---|
| src/mutex/spin_lock.rs:16 | `Default` creates the flag set, so a new spin lock is already held | a default `RawSpinLock`, then `try_lock` | a new lock is open, as for every other raw mutex | high, not executed | SpinLock.DefaultRefusesTryLock | SpinLock.OpenLockReturns |
| src/mutex/impls/park_mutex.rs:113-114 | `lock_timeout` returns true when `try_lock` fails, and waits when it succeeds | thread 1 holds the lock; thread 2 calls `lock_timeout` | take an open lock at once, otherwise wait for a hand-off until the deadline | high, not executed | ParkMutex.TimeoutReportsHeldLock | ParkMutex.TimeoutTakesOpenLock |
| src/mutex/park_mutex.rs:89-91 | the same inverted test in the swap-slot parking mutex | thread 1 holds the lock; thread 2 calls `lock_timeout` | the same as above | high, not executed | ParkMutexSwap.TimeoutReportsHeldLock | ParkMutexSwap.TimeoutTakesOpenLock |
| src/semaphore/impls/async_semaphore.rs:56 | `signal` asserts that `complete()` returned `Some(true)` ("already completed") for a fresh waiter | one task waits with `wait_async`, then `signal` | a live waiter reports `Some(false)` and receives the permit | high, not executed | AsyncSemaphores.SignalToWaiterPanics | AsyncSemaphores.SignalWakesWaiter |
| src/semaphore/impls/park_semaphore.rs:61-64,111-113 | a timed-out waiter's entry stays queued, and `signal` hands the permit to it | `wait_timeout` expires, then `signal`, then `try_wait` | the permit stays available to other threads | medium, not executed | ParkSemaphores.TimedOutWaiterSwallowsPermit | ParkSemaphores.TimedOutWaiterLeavesPermit |
| src/queue/impls/semaphore_queue.rs:93-96 | `pop_async` takes the back item | push 1, push 2, `pop_async` | `pop_async` takes the front item, like `pop` | high, not executed | SemaphoreQueues.PopAsyncReturnsNewest | SemaphoreQueues.PopAsyncReturnsOldest |
| src/queue/impls/semaphore_queue.rs:150-152 | `pop_back` pops the buffer without waiting on the semaphore and unwraps | `pop_back` on an empty queue | wait for an item, like `pop_back_async` | high, not executed | SemaphoreQueues.PopBackOnEmptyPanics | SemaphoreQueues.PopBackWaitsForPush |
| src/queue/queue_alloc.rs:64-78 | a Read arriving while reads are pending is neither run nor queued | two `pop_async`, then two `push_async`, on a backing queue of capacity one | the Read is queued behind the pending ones | high, not executed | QueueAlloc.DroppedReadNeverServed | QueueAlloc.QueuedReadServed |
