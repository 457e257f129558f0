/**
 * `semaphore/impls/atomic_semaphore.rs`: a semaphore that is one atomic
 * counter of permits. `try_wait` takes a permit when there is one,
 * `signal` adds one.
 */
module AtomicSemaphores {
  import opened Common

  /** One call on the semaphore, with its outcome. */
  datatype SemOp =
    | Signalled   // `signal` added a permit
    | Took        // `try_wait` took a permit
    | Refused     // `try_wait` found none

  /** How many calls in `h` are `op`. */
  function Occurrences(h: seq<SemOp>, op: SemOp): (n: nat)
    ensures n <= |h|
  {
    if h == [] then 0
    else Occurrences(h[..|h| - 1], op) + (if h[|h| - 1] == op then 1 else 0)
  }

  /**
   * The count after the calls `h`, starting from `start`; `None` when `h`
   * cannot happen (a permit taken at zero, or refused while one was left).
   */
  function Replay(start: nat, h: seq<SemOp>): (r: Option<nat>)
    ensures h == [] ==> r == Some(start)
  {
    if h == [] then Some(start)
    else
      match Replay(start, h[..|h| - 1])
      case None => None
      case Some(c) =>
        match h[|h| - 1]
        case Signalled => Some(c + 1)
        case Took => if c > 0 then Some(c - 1) else None
        case Refused => if c == 0 then Some(c) else None
  }

  /**
   * Every permit is accounted for: the count plus the permits taken is
   * the starting count plus the signals.
   */
  lemma {:induction false} ReplayBalance(start: nat, h: seq<SemOp>)
    requires Replay(start, h).Some?
    ensures Replay(start, h).value + Occurrences(h, Took) == start + Occurrences(h, Signalled)
    decreases |h|
  {
    if h != [] {
      ReplayBalance(start, h[..|h| - 1]);
    }
  }

  /** A refusal happens only when every permit signalled so far has been taken. */
  lemma {:induction false} RefusedOnlyWhenDrained(start: nat, h: seq<SemOp>)
    requires h != [] && h[|h| - 1] == Refused && Replay(start, h).Some?
    ensures start + Occurrences(h, Signalled) == Occurrences(h, Took)
  {
    ReplayBalance(start, h);
    ReplayBalance(start, h[..|h| - 1]);
  }

  /**
   * `s` signals followed by `t` takes, with no more takes than permits,
   * can happen and leave `start + s - t` permits.
   */
  lemma {:induction false} SignalsThenTakes(start: nat, s: nat, t: nat)
    requires t <= start + s
    ensures Replay(start, Signals(s) + Takes(t)) == Some(start + s - t)
    decreases t
  {
    if t == 0 {
      assert Signals(s) + Takes(0) == Signals(s);
      SignalsReplay(start, s);
    } else {
      var h := Signals(s) + Takes(t);
      assert h[..|h| - 1] == Signals(s) + Takes(t - 1);
      SignalsThenTakes(start, s, t - 1);
    }
  }

  /** `n` signals. */
  function Signals(n: nat): (h: seq<SemOp>)
    ensures |h| == n && forall i :: 0 <= i < n ==> h[i] == Signalled
  {
    if n == 0 then [] else Signals(n - 1) + [Signalled]
  }

  /** `n` successful takes. */
  function Takes(n: nat): (h: seq<SemOp>)
    ensures |h| == n && forall i :: 0 <= i < n ==> h[i] == Took
  {
    if n == 0 then [] else Takes(n - 1) + [Took]
  }

  lemma {:induction false} SignalsReplay(start: nat, n: nat)
    ensures Replay(start, Signals(n)) == Some(start + n)
    decreases n
  {
    if n > 0 {
      SignalsReplay(start, n - 1);
    }
  }

  class AtomicSemaphore {
    /** The number of permits. */
    var count: nat
    /** The count it was created with. */
    ghost const start: nat
    /** Every call made on it, in order. */
    ghost var history: seq<SemOp>

    ghost predicate Valid()
      reads this
    {
      Replay(start, history) == Some(count)
    }

    /** `new(start_count)`. */
    constructor (startCount: nat)
      ensures Valid() && count == startCount && start == startCount && history == []
    {
      count := startCount;
      start := startCount;
      history := [];
    }

    /** `Default`: no permits. */
    constructor Default()
      ensures Valid() && count == 0 && start == 0 && history == []
    {
      count := 0;
      start := 0;
      history := [];
    }

    /** `try_wait`: take one permit if there is one. */
    method TryWait() returns (ok: bool)
      requires Valid()
      modifies this
      ensures Valid()
      ensures ok <==> old(count) > 0
      ensures count == if ok then old(count) - 1 else 0
      ensures history == old(history) + [if ok then Took else Refused]
    {
      ok := count > 0;
      var h := history + [if ok then Took else Refused];
      assert h[..|h| - 1] == history;
      if ok {
        count := count - 1;
      }
      history := h;
    }

    /** `signal`: add one permit. */
    method Signal()
      requires Valid()
      modifies this
      ensures Valid()
      ensures count == old(count) + 1
      ensures history == old(history) + [Signalled]
    {
      var h := history + [Signalled];
      assert h[..|h| - 1] == history;
      count := count + 1;
      history := h;
    }

    /** `count`: the permits left, which balance the calls made so far. */
    method Count() returns (c: nat)
      requires Valid()
      ensures c == count
      ensures c + Occurrences(history, Took) == start + Occurrences(history, Signalled)
    {
      c := count;
      ReplayBalance(start, history);
    }
  }

  /** Two signals on a default semaphore allow exactly two takes. */
  method TwoSignalsTwoPermits() returns (first: bool, second: bool, third: bool)
    ensures first && second && !third
  {
    var s := new AtomicSemaphore.Default();
    s.Signal();
    s.Signal();
    first := s.TryWait();
    second := s.TryWait();
    third := s.TryWait();
  }
}
