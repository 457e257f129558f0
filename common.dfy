/**
 * Vocabulary shared by every part of the model: optional values and
 * results, thread and task identifiers, one-shot completion handles,
 * the injected clock and a few sequence helpers.
 */
module Common {

  datatype Option<T> = None | Some(value: T)

  datatype Result<T, E> = Ok(value: T) | Err(error: E)

  /** Identity of an OS thread, as returned by the thread functions. */
  type ThreadId = nat

  /** Identity of an async task that awaits a future. */
  type TaskId = nat

  /**
   * State of a one-shot completion handle as seen by the side that
   * completes it: the awaiting future is still there (Live), has been
   * dropped (Dropped), or has already been completed (Completed).
   */
  datatype Handle = Live | Dropped | Completed

  /**
   * A handle still waiting in a queue: only the side that pops a handle
   * completes it, so a queued handle was never completed.
   */
  type Pending = h: Handle | h != Completed witness Live

  /**
   * `complete()` on a handle: the report is None when the awaiting side
   * is gone, Some(false) when this call completed it, Some(true) when it
   * had been completed before; the second component is the new state.
   */
  function Complete(h: Handle): (r: (Option<bool>, Handle))
    ensures r.0.None? <==> h == Dropped
    ensures r.0 == Some(false) <==> h == Live
    ensures r.0 == Some(true) <==> h == Completed
    ensures r.1 == (if h == Dropped then Dropped else Completed)
  {
    match h
    case Live => (Some(false), Completed)
    case Dropped => (None, Dropped)
    case Completed => (Some(true), Completed)
  }

  /** A handle is freshly completed at most once. */
  lemma CompleteAtMostOnce(h: Handle)
    ensures Complete(Complete(h).1).0 != Some(false)
  {
  }

  /**
   * The readings of `current_time` made by one call, in order: at least
   * two of them, never decreasing, and the last one at or past the first
   * reading plus `timeout` (time does pass the deadline).
   */
  predicate ClockPasses(clock: seq<nat>, timeout: nat)
  {
    && |clock| >= 2
    && (forall i, j :: 0 <= i <= j < |clock| ==> clock[i] <= clock[j])
    && clock[0] + timeout <= clock[|clock| - 1]
  }

  /**
   * The reading of `current_time` with index `k`; readings past the end
   * of `clock` repeat its last value.
   */
  function Now(clock: seq<nat>, k: nat): (t: nat)
    requires |clock| > 0
    ensures k >= |clock| - 1 ==> t == clock[|clock| - 1]
  {
    if k < |clock| then clock[k] else clock[|clock| - 1]
  }

  /** Once the readings are used up, time is at or past the deadline. */
  lemma PastDeadline(clock: seq<nat>, timeout: nat, k: nat)
    requires ClockPasses(clock, timeout)
    requires k >= |clock| - 1
    ensures Now(clock, k) >= clock[0] + timeout
  {
  }

  /** A raw call on an exclusive lock made by the modelled thread, with its outcome. */
  datatype MutexCall =
    | TriedLock(ok: bool)
    | Unlocked
    | Cas(ok: bool)
    | Locked
    | TimedLock(ok: bool)

  /** `n` copies of `x`. */
  function Repeat<T>(x: T, n: nat): (s: seq<T>)
    ensures |s| == n
    ensures forall i :: 0 <= i < n ==> s[i] == x
  {
    if n == 0 then [] else Repeat(x, n - 1) + [x]
  }
}
