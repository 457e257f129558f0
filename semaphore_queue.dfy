/**
 * `queue/impls/semaphore_queue.rs`: a deque behind a spin lock and a
 * semaphore whose permits count the items. A push adds the item, then
 * signals. A pop waits on the semaphore (trying, blocking, awaiting or
 * with a timeout), then takes an item, which the permit guarantees is
 * there. The semaphore is a plain count of permits; waiting runs other
 * threads' steps until a permit is there. Each call below runs as one
 * atomic step, so the count always equals the number of items.
 */
module SemaphoreQueues {
  import opened Common

  /** A step of another thread on the same queue. */
  datatype QueueOther<T> =
    | OtherPush(x: T)
    | OtherPushFront(x: T)
    | OtherTryPop
    | OtherTryPopBack

  /** The items after another thread's step. */
  function Apply<T>(b: seq<T>, o: QueueOther<T>): seq<T>
  {
    match o
    case OtherPush(x) => b + [x]
    case OtherPushFront(x) => [x] + b
    case OtherTryPop => if b == [] then b else b[1..]
    case OtherTryPopBack => if b == [] then b else b[..|b| - 1]
  }

  /** The items after the steps `os`, in order. */
  function ApplyAll<T>(b: seq<T>, os: seq<QueueOther<T>>): seq<T>
  {
    if os == [] then b else Apply(ApplyAll(b, os[..|os| - 1]), os[|os| - 1])
  }

  class SemaphoreQueue<T> {
    /** The items, front first. */
    var buffer: seq<T>
    /** The semaphore's count of permits. */
    var permits: nat

    /** One permit per item. */
    ghost predicate Valid()
      reads this
    {
      permits == |buffer|
    }

    /** `Default`: no items, no permits. */
    constructor Default()
      ensures Valid() && buffer == []
    {
      buffer := [];
      permits := 0;
    }

    /** `len`: the semaphore's count, which is the number of items. */
    method Len() returns (n: nat)
      requires Valid()
      ensures n == |buffer|
    {
      n := permits;
    }

    /** `is_empty`: the count is zero exactly when there are no items. */
    method IsEmpty() returns (empty: bool)
      requires Valid()
      ensures empty <==> buffer == []
    {
      empty := permits == 0;
    }

    /** `try_push`: append, then signal. It never fails. */
    method TryPush(x: T)
      requires Valid()
      modifies this
      ensures Valid() && buffer == old(buffer) + [x]
    {
      buffer := buffer + [x];
      permits := permits + 1;
    }

    /**
     * `push`; `push_async`, `push_timeout` and `push_timeout_async` are
     * the same call.
     */
    method Push(x: T)
      requires Valid()
      modifies this
      ensures Valid() && buffer == old(buffer) + [x]
    {
      TryPush(x);
    }

    /** `try_push_front`: prepend, then signal. It never fails. */
    method TryPushFront(x: T)
      requires Valid()
      modifies this
      ensures Valid() && buffer == [x] + old(buffer)
    {
      buffer := [x] + buffer;
      permits := permits + 1;
    }

    /** `push_front`; `push_front_async` is the same call. */
    method PushFront(x: T)
      requires Valid()
      modifies this
      ensures Valid() && buffer == [x] + old(buffer)
    {
      TryPushFront(x);
    }

    /** Take a permit and the front item: the `unwrap` cannot fail. */
    method TakeFront() returns (x: T)
      requires Valid() && permits > 0
      modifies this
      ensures Valid() && old(buffer) != [] && x == old(buffer)[0] && buffer == old(buffer)[1..]
    {
      permits := permits - 1;
      x := buffer[0];
      buffer := buffer[1..];
    }

    /** Take a permit and the back item: the `unwrap` cannot fail. */
    method TakeBack() returns (x: T)
      requires Valid() && permits > 0
      modifies this
      ensures Valid() && old(buffer) != [] && x == old(buffer)[|old(buffer)| - 1] && buffer == old(buffer)[..|old(buffer)| - 1]
    {
      permits := permits - 1;
      x := buffer[|buffer| - 1];
      buffer := buffer[..|buffer| - 1];
    }

    /** `try_pop`: the front item when there is one. */
    method TryPop() returns (r: Option<T>)
      requires Valid()
      modifies this
      ensures Valid()
      ensures r.Some? <==> old(buffer) != []
      ensures r.Some? ==> r.value == old(buffer)[0] && buffer == old(buffer)[1..]
      ensures r.None? ==> buffer == old(buffer)
    {
      if permits > 0 {
        var x := TakeFront();
        r := Some(x);
      } else {
        r := None;
      }
    }

    /** `try_pop_back`: the back item when there is one. */
    method TryPopBack() returns (r: Option<T>)
      requires Valid()
      modifies this
      ensures Valid()
      ensures r.Some? <==> old(buffer) != []
      ensures r.Some? ==> r.value == old(buffer)[|old(buffer)| - 1] && buffer == old(buffer)[..|old(buffer)| - 1]
      ensures r.None? ==> buffer == old(buffer)
    {
      if permits > 0 {
        var x := TakeBack();
        r := Some(x);
      } else {
        r := None;
      }
    }

    /** One step of another thread. */
    method Interfere(o: QueueOther<T>)
      requires Valid()
      modifies this
      ensures Valid() && buffer == Apply(old(buffer), o)
    {
      match o {
        case OtherPush(x) => TryPush(x);
        case OtherPushFront(x) => TryPushFront(x);
        case OtherTryPop => var r := TryPop();
        case OtherTryPopBack => var r := TryPopBack();
      }
    }

    /**
     * The semaphore's `wait`: while there is no permit, the other
     * threads take their next step. It stops at the first moment an
     * item is there, or when the schedule runs out.
     */
    method WaitForItem(others: seq<QueueOther<T>>) returns (steps: nat)
      requires Valid()
      modifies this
      ensures Valid()
      ensures steps <= |others| && buffer == ApplyAll(old(buffer), others[..steps])
      ensures buffer == [] ==> steps == |others|
      ensures forall k :: 0 <= k < steps ==> ApplyAll(old(buffer), others[..k]) == []
    {
      steps := 0;
      while permits == 0 && steps < |others|
        invariant Valid() && steps <= |others|
        invariant buffer == ApplyAll(old(buffer), others[..steps])
        invariant forall k :: 0 <= k < steps ==> ApplyAll(old(buffer), others[..k]) == []
      {
        assert others[..steps + 1][..steps] == others[..steps];
        Interfere(others[steps]);
        steps := steps + 1;
      }
    }

    /**
     * `pop`: wait for a permit, then take the front item. `None` when
     * the schedule runs out while the queue is still empty.
     */
    method Pop(others: seq<QueueOther<T>>) returns (value: Option<T>, steps: nat)
      requires Valid()
      modifies this
      ensures Valid() && steps <= |others|
      ensures forall k :: 0 <= k < steps ==> ApplyAll(old(buffer), others[..k]) == []
      ensures value.Some? ==> var b := ApplyAll(old(buffer), others[..steps]); b != [] && value.value == b[0] && buffer == b[1..]
      ensures value.None? ==> buffer == ApplyAll(old(buffer), others[..steps]) == [] && steps == |others|
      ensures old(buffer) != [] ==> value == Some(old(buffer)[0]) && steps == 0
    {
      assert others[..0] == [];
      steps := WaitForItem(others);
      if permits > 0 {
        var x := TakeFront();
        value := Some(x);
      } else {
        value := None;
      }
    }

    /** `pop_async` as evidently intended: await a permit, then take the front item, as `pop` does. */
    method PopAsync(others: seq<QueueOther<T>>) returns (value: Option<T>, steps: nat)
      requires Valid()
      modifies this
      ensures Valid() && steps <= |others|
      ensures forall k :: 0 <= k < steps ==> ApplyAll(old(buffer), others[..k]) == []
      ensures value.Some? ==> var b := ApplyAll(old(buffer), others[..steps]); b != [] && value.value == b[0] && buffer == b[1..]
      ensures value.None? ==> buffer == ApplyAll(old(buffer), others[..steps]) == [] && steps == |others|
      ensures old(buffer) != [] ==> value == Some(old(buffer)[0]) && steps == 0
    {
      value, steps := Pop(others);
    }

    /** `pop_async` AS WRITTEN: it takes the BACK item, so it reads the newest item, not the oldest. */
    method PopAsyncAsWritten(others: seq<QueueOther<T>>) returns (value: Option<T>, steps: nat)
      requires Valid()
      modifies this
      ensures Valid() && steps <= |others|
      ensures value.Some? ==> var b := ApplyAll(old(buffer), others[..steps]); b != [] && value.value == b[|b| - 1] && buffer == b[..|b| - 1]
      ensures value.None? ==> buffer == [] && steps == |others|
      ensures old(buffer) != [] ==> value == Some(old(buffer)[|old(buffer)| - 1]) && steps == 0
    {
      value, steps := PopBack(others);
    }

    /**
     * `pop_back_async`, and `pop_back` as evidently intended: wait for a
     * permit, then take the back item.
     */
    method PopBack(others: seq<QueueOther<T>>) returns (value: Option<T>, steps: nat)
      requires Valid()
      modifies this
      ensures Valid() && steps <= |others|
      ensures forall k :: 0 <= k < steps ==> ApplyAll(old(buffer), others[..k]) == []
      ensures value.Some? ==> var b := ApplyAll(old(buffer), others[..steps]); b != [] && value.value == b[|b| - 1] && buffer == b[..|b| - 1]
      ensures value.None? ==> buffer == ApplyAll(old(buffer), others[..steps]) == [] && steps == |others|
      ensures old(buffer) != [] ==> value == Some(old(buffer)[|old(buffer)| - 1]) && steps == 0
    {
      assert others[..0] == [];
      steps := WaitForItem(others);
      if permits > 0 {
        var x := TakeBack();
        value := Some(x);
      } else {
        value := None;
      }
    }

    /**
     * `pop_back` AS WRITTEN: `try_pop_back().unwrap()`, which does not
     * wait and panics on an empty queue.
     */
    method PopBackAsWritten() returns (value: Option<T>, panicked: bool)
      requires Valid()
      modifies this
      ensures Valid()
      ensures panicked <==> old(buffer) == []
      ensures !panicked ==> value.Some? && value.value == old(buffer)[|old(buffer)| - 1] && buffer == old(buffer)[..|old(buffer)| - 1]
    {
      value := TryPopBack();
      panicked := value.None?;
    }

    /**
     * `pop_timeout` (and `pop_timeout_async`): the semaphore's
     * `wait_timeout`, then the front item. Each round reads the clock;
     * at or past the deadline with no permit it gives up, otherwise the
     * other threads take a step.
     */
    method PopTimeout(timeout: nat, clock: seq<nat>, others: seq<QueueOther<T>>) returns (value: Option<T>, steps: nat)
      requires Valid() && ClockPasses(clock, timeout)
      modifies this
      ensures Valid() && steps <= |others|
      ensures forall k :: 0 <= k < steps ==> ApplyAll(old(buffer), others[..k]) == []
      ensures value.Some? ==> var b := ApplyAll(old(buffer), others[..steps]); b != [] && value.value == b[0] && buffer == b[1..]
      ensures value.None? ==> buffer == ApplyAll(old(buffer), others[..steps]) == []
      ensures old(buffer) != [] ==> value == Some(old(buffer)[0]) && steps == 0
    {
      var end := clock[0] + timeout;
      var k := 1;
      steps := 0;
      assert others[..0] == [];
      while permits == 0
        invariant 1 <= k && Valid() && steps <= |others|
        invariant buffer == ApplyAll(old(buffer), others[..steps])
        invariant forall j :: 0 <= j < steps ==> ApplyAll(old(buffer), others[..j]) == []
        decreases |clock| - k
      {
        if k >= |clock| - 1 {
          PastDeadline(clock, timeout, k);
        }
        if Now(clock, k) >= end {
          return None, steps;
        }
        if steps < |others| {
          assert others[..steps + 1][..steps] == others[..steps];
          Interfere(others[steps]);
          steps := steps + 1;
        }
        k := k + 1;
      }
      var x := TakeFront();
      value := Some(x);
    }
  }

  /** Items leave in the order they were pushed. */
  method FifoOrder() returns (first: Option<int>, second: Option<int>, third: Option<int>)
    ensures first == Some(1) && second == Some(2) && third == None
  {
    var q := new SemaphoreQueue<int>.Default();
    q.Push(1);
    q.Push(2);
    first := q.TryPop();
    second := q.TryPop();
    third := q.TryPop();
  }

  /** The length is the number of items, whichever end they went in and out. */
  method LenCountsItems() returns (n: nat, back: Option<int>, left: nat)
    ensures n == 2 && back == Some(1) && left == 1
  {
    var q := new SemaphoreQueue<int>.Default();
    q.Push(1);
    q.PushFront(2);
    assert q.buffer == [2, 1];
    n := q.Len();
    back := q.TryPopBack();
    left := q.Len();
  }

  /** As written: after pushes of 1 and 2, `pop_async` returns 2. */
  method PopAsyncReturnsNewest() returns (value: Option<int>)
    ensures value == Some(2)
  {
    var q := new SemaphoreQueue<int>.Default();
    q.Push(1);
    q.Push(2);
    assert q.buffer == [1, 2];
    var steps;
    value, steps := q.PopAsyncAsWritten([]);
  }

  /** Corrected: after pushes of 1 and 2, `pop_async` returns 1. */
  method PopAsyncReturnsOldest() returns (value: Option<int>)
    ensures value == Some(1)
  {
    var q := new SemaphoreQueue<int>.Default();
    q.Push(1);
    q.Push(2);
    assert q.buffer == [1, 2];
    var steps;
    value, steps := q.PopAsync([]);
  }

  /** As written: `pop_back` on an empty queue panics instead of waiting. */
  method PopBackOnEmptyPanics() returns (panicked: bool)
    ensures panicked
  {
    var q := new SemaphoreQueue<int>.Default();
    var value;
    value, panicked := q.PopBackAsWritten();
  }

  /** Corrected: `pop_back` on an empty queue waits for another thread's push of 5 and returns it. */
  method PopBackWaitsForPush() returns (value: Option<int>, left: nat)
    ensures value == Some(5) && left == 0
  {
    var q := new SemaphoreQueue<int>.Default();
    var steps;
    var others := [OtherPush(5)];
    assert others[..1][..0] == [];
    assert ApplyAll([], others[..0]) == [];
    assert others[..1] == others;
    assert ApplyAll([], others) == [5];
    value, steps := q.PopBack(others);
    left := q.Len();
  }
}
