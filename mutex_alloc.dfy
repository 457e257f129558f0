/**
 * `mutex/mutex_alloc.rs`: the bridge that turns a blocking raw mutex into
 * an async one, and `lock_async_func` on a custom mutex.
 *
 * The bridge keeps a bounded message queue. `lock_async` pushes one Lock
 * message carrying the completion handle of the future it returns. A
 * background thread pops the messages in order; for each it locks the
 * blocking mutex, then completes the handle. If the future is gone the
 * lock is released at once; otherwise the awaiting task now holds the
 * mutex. The blocking mutex here is the spin lock of `mutex/spin_lock.rs`,
 * created open.
 */
module MutexAlloc {
  import opened Common
  import opened SpinLock
  import opened ParkWaiters
  import opened AsyncMutex

  /** A Lock message: the task that awaits it and its completion handle. */
  datatype Message = LockMessage(task: TaskId, handle: Pending)

  /** What the background thread does with the blocking mutex, in order. */
  datatype BridgeEvent =
    | Acquired               // the blocking `lock` returned
    | Granted(task: TaskId)  // the handle was completed: `task` holds the mutex
    | Released               // the future was gone: unlocked at once

  /** The events of handling one message whose lock has been acquired. */
  function Handling(m: Message): (r: seq<BridgeEvent>)
    ensures |r| == 2 && r[0] == Acquired
  {
    [Acquired] + (if m.handle == Live then [Granted(m.task)] else [Released])
  }

  /** The events of handling the messages `ms`, one after the other. */
  function Trace(ms: seq<Message>): seq<BridgeEvent>
  {
    if ms == [] then [] else Trace(ms[..|ms| - 1]) + Handling(ms[|ms| - 1])
  }

  /** The tasks whose futures are completed while handling `ms`, in order. */
  function GrantedTasks(ms: seq<Message>): seq<TaskId>
  {
    if ms == [] then []
    else GrantedTasks(ms[..|ms| - 1]) + (if ms[|ms| - 1].handle == Live then [ms[|ms| - 1].task] else [])
  }

  /**
   * The trace alternates: for every message, the mutex is acquired first,
   * and right after that its task is granted the mutex if its future is
   * alive, or the mutex is released if not.
   */
  lemma {:induction false} TraceAlternates(ms: seq<Message>)
    ensures |Trace(ms)| == 2 * |ms|
    ensures forall i :: 0 <= i < |ms| ==> Trace(ms)[2 * i] == Acquired
    ensures forall i :: 0 <= i < |ms| ==>
              Trace(ms)[2 * i + 1] == (if ms[i].handle == Live then Granted(ms[i].task) else Released)
    decreases |ms|
  {
    if ms != [] {
      var init := ms[..|ms| - 1];
      TraceAlternates(init);
      forall i | 0 <= i < |ms|
        ensures Trace(ms)[2 * i] == Acquired
        ensures Trace(ms)[2 * i + 1] == (if ms[i].handle == Live then Granted(ms[i].task) else Released)
      {
        if i < |ms| - 1 {
          assert ms[i] == init[i];
        }
      }
    }
  }

  /** The tasks granted the mutex in `events`, in order. */
  function Grants(events: seq<BridgeEvent>): (r: seq<TaskId>)
    ensures |r| <= |events|
  {
    if events == [] then []
    else Grants(events[..|events| - 1]) + (if events[|events| - 1].Granted? then [events[|events| - 1].task] else [])
  }

  lemma GrantsConcat(a: seq<BridgeEvent>, b: seq<BridgeEvent>)
    ensures Grants(a + b) == Grants(a) + Grants(b)
    decreases |b|
  {
    if b == [] {
      assert a + b == a;
    } else {
      assert (a + b)[..|a + b| - 1] == a + b[..|b| - 1];
      assert (a + b)[|a + b| - 1] == b[|b| - 1];
      GrantsConcat(a, b[..|b| - 1]);
    }
  }

  /** The grants in the trace of `ms` are the tasks of its live messages, in message order. */
  lemma {:induction false} TraceGrants(ms: seq<Message>)
    ensures Grants(Trace(ms)) == GrantedTasks(ms)
    decreases |ms|
  {
    if ms != [] {
      var m := ms[|ms| - 1];
      TraceGrants(ms[..|ms| - 1]);
      GrantsConcat(Trace(ms[..|ms| - 1]), Handling(m));
      assert Handling(m)[..1] == [Acquired];
    }
  }

  /** Only tasks of live messages are granted the mutex, in message order. */
  lemma {:induction false} GrantedAreLive(ms: seq<Message>, t: TaskId)
    ensures t in GrantedTasks(ms) <==> LockMessage(t, Live) in ms
    decreases |ms|
  {
    if ms != [] {
      var init := ms[..|ms| - 1];
      GrantedAreLive(init, t);
      assert ms == init + [ms[|ms| - 1]];
    }
  }

  lemma AppendAssoc<X>(a: seq<X>, b: seq<X>, c: seq<X>)
    ensures a + b + c == a + (b + c)
  {
  }

  /** Handling message `n` once its lock returns extends the run, the grants and the trace by that message. */
  lemma BridgeStep(locked: bool, ms: seq<Message>, schedules: seq<seq<SpinOther>>, n: nat)
    requires n < |ms| && n < |schedules|
    requires !locked || SpinOther.OtherUnlock in schedules[n]
    ensures var r := Run(ms[n].handle == Live, ms[n + 1..], schedules[n + 1..]);
      Run(locked, ms[n..], schedules[n..]) == (r.0 + 1, r.1)
    ensures GrantedTasks(ms[..n + 1]) == GrantedTasks(ms[..n]) + (if ms[n].handle == Live then [ms[n].task] else [])
    ensures Trace(ms[..n + 1]) == Trace(ms[..n]) + Handling(ms[n])
  {
    assert ms[n..][1..] == ms[n + 1..];
    assert schedules[n..][1..] == schedules[n + 1..];
    assert ms[..n + 1][..n] == ms[..n];
  }

  /**
   * After `n` messages, with the blocking mutex `locked`, what is left of
   * the run from `locked0` is the run from message `n` on.
   */
  ghost predicate Progress(locked0: bool, ms: seq<Message>, schedules: seq<seq<SpinOther>>, n: nat, locked: bool)
    requires n <= |ms| && n <= |schedules|
  {
    var r := Run(locked, ms[n..], schedules[n..]);
    Run(locked0, ms, schedules) == (n + r.0, r.1)
  }

  /** Handling message `n` moves the thread's progress through `Run` on by one message. */
  lemma RunAdvance(locked0: bool, ms: seq<Message>, schedules: seq<seq<SpinOther>>, n: nat, locked: bool)
    requires n < |ms| && n < |schedules|
    requires !locked || SpinOther.OtherUnlock in schedules[n]
    requires Progress(locked0, ms, schedules, n, locked)
    ensures Progress(locked0, ms, schedules, n + 1, ms[n].handle == Live)
  {
    BridgeStep(locked, ms, schedules, n);
  }

  /** The lock for message `n` spins while the mutex is held and nobody releases it. */
  lemma RunStuck(locked0: bool, ms: seq<Message>, schedules: seq<seq<SpinOther>>, n: nat, locked: bool)
    requires n < |ms| && n < |schedules|
    requires locked && SpinOther.OtherUnlock !in schedules[n]
    requires Progress(locked0, ms, schedules, n, locked)
    ensures Run(locked0, ms, schedules) == (n, true)
  {
    assert schedules[n..][0] == schedules[n];
  }

  /** With no message or no schedule left, the run ends after the `n` handled so far. */
  lemma RunFinished(locked0: bool, ms: seq<Message>, schedules: seq<seq<SpinOther>>, n: nat, locked: bool)
    requires n <= |ms| && n <= |schedules| && (n == |ms| || n == |schedules|)
    requires Progress(locked0, ms, schedules, n, locked)
    ensures Run(locked0, ms, schedules) == (n, false)
  {
    assert ms[n..] == [] || schedules[n..] == [];
  }

  /** The queued messages after `task`'s future is dropped: its handles go dead. */
  function DropTask(ms: seq<Message>, task: TaskId): (r: seq<Message>)
    ensures |r| == |ms|
  {
    seq(|ms|, i requires 0 <= i < |ms| => if ms[i].task == task then LockMessage(task, Dropped) else ms[i])
  }

  /** A dropped future's task is never granted the mutex; every other task still is. */
  lemma DroppedNeverGranted(ms: seq<Message>, task: TaskId, t: TaskId)
    ensures t in GrantedTasks(DropTask(ms, task)) <==> t in GrantedTasks(ms) && t != task
  {
    GrantedAreLive(DropTask(ms, task), t);
    GrantedAreLive(ms, t);
    if LockMessage(t, Live) in ms && t != task {
      var i :| 0 <= i < |ms| && ms[i] == LockMessage(t, Live);
      assert DropTask(ms, task)[i] == LockMessage(t, Live);
    }
  }

  /**
   * What `thread_function` does with the queued messages `ms`, when the
   * blocking mutex starts `locked` and `schedules[k]` is what other
   * threads do while the k-th lock spins: the number of messages handled,
   * and whether the thread is left spinning on the next one. A lock
   * returns when the mutex is free or another thread releases it.
   */
  function Run(locked: bool, ms: seq<Message>, schedules: seq<seq<SpinOther>>): (r: (nat, bool))
    ensures r.0 <= |ms| && r.0 <= |schedules|
    ensures r.1 ==> r.0 < |ms| && r.0 < |schedules|
    decreases |ms|
  {
    if ms == [] || schedules == [] then (0, false)
    else if locked && SpinOther.OtherUnlock !in schedules[0] then (0, true)
    else
      var r := Run(ms[0].handle == Live, ms[1..], schedules[1..]);
      (r.0 + 1, r.1)
  }

  /**
   * The thread is left spinning only on a lock that nobody releases while
   * the mutex is held: by the task granted the previous message, or from
   * the start when no message was handled.
   */
  lemma {:induction false} StuckOnlyWhileHeld(locked: bool, ms: seq<Message>, schedules: seq<seq<SpinOther>>)
    ensures var r := Run(locked, ms, schedules);
      r.1 ==> && SpinOther.OtherUnlock !in schedules[r.0]
              && (if r.0 == 0 then locked else ms[r.0 - 1].handle == Live)
    decreases |ms|
  {
    if ms != [] && schedules != [] && !(locked && SpinOther.OtherUnlock !in schedules[0]) {
      StuckOnlyWhileHeld(ms[0].handle == Live, ms[1..], schedules[1..]);
    }
  }

  /**
   * When every granted task eventually unlocks (each schedule holds an
   * unlock), the thread handles every message it has a schedule for.
   */
  lemma {:induction false} UnlocksKeepItRunning(locked: bool, ms: seq<Message>, schedules: seq<seq<SpinOther>>)
    requires forall k :: 0 <= k < |schedules| ==> SpinOther.OtherUnlock in schedules[k]
    ensures var r := Run(locked, ms, schedules);
      !r.1 && (r.0 == |ms| || r.0 == |schedules|)
    decreases |ms|
  {
    if ms != [] && schedules != [] {
      assert SpinOther.OtherUnlock in schedules[0];
      UnlocksKeepItRunning(ms[0].handle == Live, ms[1..], schedules[1..]);
    }
  }

  class RawCustomAsyncMutex {
    /** The wrapped blocking mutex. */
    const rawMutex: RawSpinLock
    /** The message queue's bound. */
    const capacity: nat
    /** Lock messages not yet popped, front to back. */
    var messages: seq<Message>
    /** What the background thread did, in order. */
    ghost var trace: seq<BridgeEvent>

    /** The message queue stays within its bound. */
    ghost predicate Valid()
      reads this
    {
      |messages| <= capacity
    }

    /** `new`: an open blocking mutex and an empty message queue of the given bound. */
    constructor (capacity: nat)
      ensures Valid()
      ensures this.capacity == capacity && messages == [] && trace == []
      ensures fresh(rawMutex) && !rawMutex.locked
    {
      this.capacity := capacity;
      rawMutex := new RawSpinLock.Open();
      messages := [];
      trace := [];
    }

    /** `try_lock` forwards to the blocking mutex. */
    method TryLock() returns (ok: bool)
      modifies rawMutex
      ensures ok == !old(rawMutex.locked) && rawMutex.locked
      ensures rawMutex.calls == old(rawMutex.calls) + [TriedLock(ok)]
    {
      ok := rawMutex.TryLock();
    }

    /** `unlock` forwards to the blocking mutex. */
    method Unlock()
      requires rawMutex.locked
      modifies rawMutex
      ensures !rawMutex.locked
      ensures rawMutex.calls == old(rawMutex.calls) + [Unlocked]
    {
      rawMutex.Unlock();
    }

    /** `lock` forwards to the blocking mutex. */
    method Lock(others: seq<SpinOther>) returns (returned: bool)
      modifies rawMutex
      ensures rawMutex.locked
      ensures returned <==> !old(rawMutex.locked) || SpinOther.OtherUnlock in others
    {
      var attempts;
      returned, attempts := rawMutex.Lock(others);
    }

    /**
     * `lock_async`: push one Lock message with a live handle for `task`.
     * A full queue makes the source panic, reported here as `panicked`
     * with nothing pushed.
     */
    method LockAsync(task: TaskId) returns (panicked: bool)
      requires Valid()
      modifies this
      ensures Valid()
      ensures panicked <==> |old(messages)| == capacity
      ensures messages == old(messages) + (if panicked then [] else [LockMessage(task, Live)])
      ensures trace == old(trace)
    {
      panicked := |messages| == capacity;
      if !panicked {
        messages := messages + [LockMessage(task, Live)];
      }
    }

    /** The future of `task` is dropped before its message is handled. */
    method DropFuture(task: TaskId)
      requires Valid()
      modifies this
      ensures Valid()
      ensures messages == DropTask(old(messages), task)
      ensures trace == old(trace)
    {
      messages := DropTask(messages, task);
    }

    /**
     * The body of `thread_function` for one popped message: lock the
     * blocking mutex, then complete the handle; a gone future's lock is
     * released at once. `returned` is false while the lock still spins.
     */
    method HandleMessage(m: Message, schedule: seq<SpinOther>) returns (returned: bool)
      modifies this, rawMutex
      ensures messages == old(messages)
      ensures returned ==> rawMutex.locked == (m.handle == Live)
      ensures returned ==> trace == old(trace) + Handling(m)
      ensures returned <==> !old(rawMutex.locked) || SpinOther.OtherUnlock in schedule
      ensures !returned ==> rawMutex.locked && trace == old(trace)
    {
      var attempts;
      returned, attempts := rawMutex.Lock(schedule);
      if !returned {
        return;
      }
      trace := trace + [Acquired];
      var result := Complete(m.handle).0;
      match result {
        case None =>
          rawMutex.Unlock();
          trace := trace + [Released];
        case Some(already) =>
          // A queued handle was never completed, so the source's panic
          // on an earlier completion cannot happen.
          assert !already;
          trace := trace + [Granted(m.task)];
      }
    }

    /** One turn of `thread_function`'s loop: pop the front message and handle it. */
    method PopAndHandle(schedule: seq<SpinOther>) returns (returned: bool)
      requires messages != []
      modifies this, rawMutex
      ensures messages == old(messages)[1..]
      ensures returned <==> !old(rawMutex.locked) || SpinOther.OtherUnlock in schedule
      ensures returned ==> rawMutex.locked == (old(messages)[0].handle == Live)
      ensures returned ==> trace == old(trace) + Handling(old(messages)[0])
      ensures !returned ==> rawMutex.locked && trace == old(trace)
    {
      var m := messages[0];
      messages := messages[1..];
      returned := HandleMessage(m, schedule);
    }

    /**
     * The `n`-th turn of `thread_function`'s loop, in terms of the run it
     * belongs to: the messages `ms` queued at the start, on a blocking
     * mutex that was `locked0`, with the trace `trace0` before it.
     */
    method HandleNext(ghost ms: seq<Message>, ghost locked0: bool, ghost trace0: seq<BridgeEvent>,
                      schedules: seq<seq<SpinOther>>, n: nat) returns (returned: bool)
      requires n < |ms| && n < |schedules| && messages == ms[n..]
      requires trace == trace0 + Trace(ms[..n])
      requires Progress(locked0, ms, schedules, n, rawMutex.locked)
      modifies this, rawMutex
      ensures messages == ms[n + 1..]
      ensures returned ==> && trace == trace0 + Trace(ms[..n + 1])
                           && rawMutex.locked == (ms[n].handle == Live)
                           && Progress(locked0, ms, schedules, n + 1, rawMutex.locked)
      ensures !returned ==> Run(locked0, ms, schedules) == (n, true) && trace == old(trace)
    {
      ghost var before := rawMutex.locked;
      returned := PopAndHandle(schedules[n]);
      assert messages == ms[n + 1..];
      if !returned {
        RunStuck(locked0, ms, schedules, n, before);
        return;
      }
      BridgeStep(before, ms, schedules, n);
      RunAdvance(locked0, ms, schedules, n, before);
      AppendAssoc(trace0, Trace(ms[..n]), Handling(ms[n]));
    }

    /**
     * `thread_function` while the mutex is alive: pop messages in order
     * and handle each; `schedules[k]` is what other threads do while the
     * k-th lock spins. The thread stops when the queue is empty (it would
     * block in `pop`), when the schedules run out, or, with `stuck`, while
     * the lock for the last popped message is still spinning.
     */
    method ThreadFunction(schedules: seq<seq<SpinOther>>) returns (handled: nat, stuck: bool)
      requires Valid()
      modifies this, rawMutex
      ensures Valid()
      ensures handled + (if stuck then 1 else 0) <= |old(messages)|
      ensures messages == old(messages)[handled + (if stuck then 1 else 0)..]
      ensures trace == old(trace) + Trace(old(messages)[..handled])
      ensures (handled, stuck) == Run(old(rawMutex.locked), old(messages), schedules)
      ensures handled > 0 && !stuck ==> rawMutex.locked == (old(messages)[handled - 1].handle == Live)
    {
      ghost var ms, locked0, trace0 := messages, rawMutex.locked, trace;
      handled := 0;
      stuck := false;
      assert schedules[0..] == schedules;
      while handled < |schedules| && messages != []
        invariant handled <= |ms| && handled <= |schedules| && messages == ms[handled..]
        invariant trace == trace0 + Trace(ms[..handled])
        invariant rawMutex.locked == (if handled == 0 then locked0 else ms[handled - 1].handle == Live)
        invariant Progress(locked0, ms, schedules, handled, rawMutex.locked)
        decreases |messages|
      {
        var returned := HandleNext(ms, locked0, trace0, schedules, handled);
        if !returned {
          stuck := true;
          return;
        }
        handled := handled + 1;
      }
      RunFinished(locked0, ms, schedules, handled, rawMutex.locked);
    }
  }

  /** How the bridge runs two live Lock messages on an open spin lock. */
  lemma TwoLiveMessages(ms: seq<Message>)
    requires ms == [LockMessage(1, Live), LockMessage(2, Live)]
    ensures Run(false, ms, [[], []]) == (1, true)
    ensures Run(false, ms, [[], [SpinOther.OtherUnlock]]) == (2, false)
    ensures GrantedTasks(ms[..1]) == [1] && GrantedTasks(ms) == [1, 2] && ms[..2] == ms
  {
    assert ms[1..][1..] == [];
    assert ms[..1] == [ms[0]] && ms[..1][..0] == [];
    assert ms[..|ms| - 1] == ms[..1];
  }

  /**
   * Two tasks ask for the mutex. The first is granted it at once; the
   * lock for the second message spins while the first task holds the
   * mutex, with its message already popped.
   */
  method SecondLockSpinsWhileHeld() returns (handled: nat, stuck: bool, ghost order: seq<TaskId>)
    ensures handled == 1 && stuck && order == [1]
  {
    var bridge := new RawCustomAsyncMutex(4);
    var p1 := bridge.LockAsync(1);
    var p2 := bridge.LockAsync(2);
    ghost var ms := [LockMessage(1, Live), LockMessage(2, Live)];
    assert bridge.messages == ms;
    TwoLiveMessages(ms);
    handled, stuck := bridge.ThreadFunction([[], []]);
    order := Grants(bridge.trace);
    TraceGrants(ms[..1]);
    assert bridge.trace == Trace(ms[..1]);
    assert handled == 1 && stuck;
  }

  /**
   * Two tasks ask for the mutex. The first is granted it; once the first
   * task unlocks, the lock for the second message succeeds and the
   * second task is granted the mutex.
   */
  method SecondTaskFollowsFirst() returns (handled: nat, stuck: bool, ghost order: seq<TaskId>)
    ensures handled == 2 && !stuck && order == [1, 2]
  {
    var bridge := new RawCustomAsyncMutex(4);
    var p1 := bridge.LockAsync(1);
    var p2 := bridge.LockAsync(2);
    ghost var ms := [LockMessage(1, Live), LockMessage(2, Live)];
    assert bridge.messages == ms;
    TwoLiveMessages(ms);
    handled, stuck := bridge.ThreadFunction([[], [SpinOther.OtherUnlock]]);
    order := Grants(bridge.trace);
    TraceGrants(ms);
    assert bridge.trace == Trace(ms);
  }

  /**
   * `CustomMutex` over the async mutex of `mutex/impls/async_mutex.rs`,
   * for `lock_async` and `lock_async_func`.
   */
  class CustomAsyncMutex<T> {
    var data: T
    const rawMutex: RawFullAsyncMutex

    constructor (data: T)
      ensures this.data == data && fresh(rawMutex) && rawMutex.Valid()
      ensures !rawMutex.locked && rawMutex.waiting == [] && rawMutex.done == []
    {
      this.data := data;
      rawMutex := new RawFullAsyncMutex();
    }

    /**
     * `lock_async_func` for `task`, up to the await of the raw future. When
     * that future is already complete, func runs on the data (its change
     * persists) and the mutex is unlocked once, which hands it to the
     * first waiting task; otherwise the call is still pending.
     */
    method LockAsyncFunc<O>(task: TaskId, raced: bool, func: T -> (T, O)) returns (out: Option<O>)
      requires rawMutex.Valid()
      requires task !in rawMutex.done && forall i :: 0 <= i < |rawMutex.waiting| ==> rawMutex.waiting[i].task != task
      modifies this, rawMutex
      ensures rawMutex.Valid()
      ensures out.Some? ==> data == func(old(data)).0 && out == Some(func(old(data)).1)
      ensures out.None? ==> data == old(data) && rawMutex.locked && task in Waiting(Slots(rawMutex.waiting))
      ensures !old(rawMutex.locked) ==> out.Some? && !rawMutex.locked && rawMutex.waiting == old(rawMutex.waiting)
    {
      var ready := rawMutex.LockAsync(task, raced);
      if ready {
        var r := func(data);
        data := r.0;
        out := Some(r.1);
        var _ := rawMutex.Unlock();
      } else {
        out := None;
      }
    }
  }
}
