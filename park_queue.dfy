/**
 * `queue/park_queue.rs`: a deque and a FIFO of parked poppers behind one
 * spin lock. Each parked popper is a weak reference to its thread id
 * and a wake flag; the reference dies when the popper returns. A push
 * appends the item, then pops entries until a live one, sets its flag
 * and unparks it. A blocked pop parks; when it finds its flag set, it
 * takes the front item, or re-registers at the front when another
 * thread took it first.
 *
 * Each body between taking and dropping the lock is one atomic step.
 * While the modelled thread is parked, other threads take the steps in
 * `others`, one per park. A thread's flag is modelled by its id in
 * `woken`.
 */
module ParkQueues {
  import opened Common
  import opened ParkWaiters

  /** A step another thread takes while the modelled thread is parked. */
  datatype QueueOther<T> =
    | OtherPush(x: T)             // `try_push` (and `push`, `push_timeout`)
    | OtherTryPop                 // `try_pop`, or a woken popper taking an item
    | OtherClear                  // `clear`
    | OtherJoin(id: ThreadId)     // popper `id` finds the queue empty and parks
    | OtherLeave(id: ThreadId)    // popper `id` returns; its entries die

  /** The steps of other threads never name the modelled thread `me`. */
  predicate NotMe<T>(others: seq<QueueOther<T>>, me: ThreadId)
  {
    forall i :: 0 <= i < |others| ==> (others[i].OtherJoin? || others[i].OtherLeave?) ==> others[i].id != me
  }

  class ParkQueue<T> {
    /** The items, front first. */
    var buffer: seq<T>
    /** The parked poppers, front first; `None` is an entry whose popper returned. */
    var parkers: seq<Slot>
    /** The poppers whose wake flag is set. */
    var woken: set<ThreadId>

    /** `Default`: empty. */
    constructor Default()
      ensures buffer == [] && parkers == [] && woken == {}
    {
      buffer := [];
      parkers := [];
      woken := {};
    }

    /**
     * `try_push`: append, then wake the first live parked popper, dropping
     * the dead entries in front of it. It never fails.
     */
    method TryPush(x: T) returns (unparked: Option<ThreadId>)
      modifies this
      ensures buffer == old(buffer) + [x]
      ensures (unparked, parkers) == Serve(old(parkers))
      ensures woken == old(woken) + (if unparked.Some? then {unparked.value} else {})
    {
      buffer := buffer + [x];
      unparked := None;
      while parkers != []
        invariant Serve(old(parkers)) == Serve(parkers)
        invariant woken == old(woken) && buffer == old(buffer) + [x]
        decreases |parkers|
      {
        var p := parkers[0];
        parkers := parkers[1..];
        if p.Some? {
          unparked := p;
          woken := woken + {p.value};
          return;
        }
      }
    }

    /** `push`, `push_timeout`: the same as `try_push`. */
    method Push(x: T) returns (unparked: Option<ThreadId>)
      modifies this
      ensures buffer == old(buffer) + [x]
      ensures unparked.None? <==> Waiting(old(parkers)) == []
      ensures unparked.Some? ==> [unparked.value] + Waiting(parkers) == Waiting(old(parkers))
      ensures woken == old(woken) + (if unparked.Some? then {unparked.value} else {})
    {
      ServeFirstLive(parkers);
      unparked := TryPush(x);
    }

    /** `try_pop`: the front item when there is one. */
    method TryPop() returns (r: Option<T>)
      modifies this
      ensures r.Some? <==> old(buffer) != []
      ensures r.Some? ==> r.value == old(buffer)[0] && buffer == old(buffer)[1..]
      ensures r.None? ==> buffer == old(buffer)
      ensures parkers == old(parkers) && woken == old(woken)
    {
      if buffer == [] {
        r := None;
      } else {
        r := Some(buffer[0]);
        buffer := buffer[1..];
      }
    }

    /** `clear`: drop every item; parked poppers stay parked. */
    method Clear()
      modifies this
      ensures buffer == [] && parkers == old(parkers) && woken == old(woken)
    {
      buffer := [];
    }

    /** A popper that found the queue empty registers at the back, with its flag clear. */
    method Join(id: ThreadId)
      modifies this
      ensures parkers == old(parkers) + [Some(id)] && buffer == old(buffer) && woken == old(woken)
      ensures Waiting(parkers) == Waiting(old(parkers)) + [id]
    {
      WaitingJoin(parkers, id);
      parkers := parkers + [Some(id)];
    }

    /** A popper returns: its flag is gone and its entries die. */
    method Leave(id: ThreadId)
      modifies this
      ensures parkers == Kill(old(parkers), id) && woken == old(woken) - {id} && buffer == old(buffer)
      ensures id !in Waiting(parkers) && id !in woken
    {
      parkers := Kill(parkers, id);
      woken := woken - {id};
    }

    /**
     * One step of another thread while `me` is parked. A parked `me` is
     * never forgotten: it stays registered unless the step woke it.
     */
    method Interfere(me: ThreadId, o: QueueOther<T>)
      requires (o.OtherJoin? || o.OtherLeave?) ==> o.id != me
      modifies this
      ensures me in old(woken) ==> me in woken
      ensures me in Waiting(old(parkers)) ==> me in woken || me in Waiting(parkers)
      ensures o.OtherPush? ==> buffer == old(buffer) + [o.x]
      ensures o.OtherPush? && Waiting(old(parkers)) != [] ==> Waiting(old(parkers))[0] in woken
    {
      match o {
        case OtherPush(x) =>
          ServeFirstLive(parkers);
          var u := TryPush(x);
        case OtherTryPop =>
          var r := TryPop();
        case OtherClear =>
          Clear();
        case OtherJoin(id) =>
          Join(id);
        case OtherLeave(id) =>
          Leave(id);
      }
    }

    /** A woken popper takes the front item. */
    method TakeFront(me: ThreadId) returns (x: T)
      requires buffer != []
      modifies this
      ensures x == old(buffer)[0] && buffer == old(buffer)[1..]
      ensures parkers == Kill(old(parkers), me) && woken == old(woken) - {me}
      ensures me !in Waiting(parkers) && me !in woken
    {
      x := buffer[0];
      buffer := buffer[1..];
      Leave(me);
    }

    /**
     * What a popper does after `park` returns, under the lock: with its
     * flag set, take the front item; with none there, give up when
     * `expired`, otherwise re-register at the FRONT of the parkers, its
     * flag still set. Without its flag it changes nothing.
     */
    method Recheck(me: ThreadId, expired: bool) returns (got: Option<T>, gaveUp: bool)
      modifies this
      ensures me !in old(woken) ==> got.None? && !gaveUp && buffer == old(buffer) && parkers == old(parkers) && woken == old(woken)
      ensures me in old(woken) && old(buffer) != [] ==>
        && got == Some(old(buffer)[0]) && !gaveUp && buffer == old(buffer)[1..]
        && parkers == Kill(old(parkers), me) && woken == old(woken) - {me}
      ensures me in old(woken) && old(buffer) == [] && expired ==>
        && got.None? && gaveUp && buffer == []
        && parkers == Kill(old(parkers), me) && woken == old(woken) - {me}
      ensures me in old(woken) && old(buffer) == [] && !expired ==>
        && got.None? && !gaveUp && buffer == []
        && parkers == [Some(me)] + old(parkers) && woken == old(woken)
      ensures got.Some? || gaveUp ==> me !in woken && me !in Waiting(parkers)
      ensures got.None? && !gaveUp && (me in old(woken) || me in Waiting(old(parkers))) ==> me in woken || me in Waiting(parkers)
    {
      got, gaveUp := None, false;
      if me in woken {
        if buffer != [] {
          var x := TakeFront(me);
          got := Some(x);
          return;
        }
        if expired {
          Leave(me);
          gaveUp := true;
          return;
        }
        parkers := [Some(me)] + parkers;
      }
    }

    /**
     * One round of a parked popper after it wakes: the other threads'
     * step `o` (none when it did not park), then `Recheck`.
     */
    method Wake(me: ThreadId, o: Option<QueueOther<T>>, expired: bool) returns (got: Option<T>, gaveUp: bool)
      requires o.Some? && (o.value.OtherJoin? || o.value.OtherLeave?) ==> o.value.id != me
      requires me in woken || me in Waiting(parkers)
      modifies this
      ensures got.Some? || gaveUp ==> me !in woken && me !in Waiting(parkers)
      ensures got.None? && !gaveUp ==> me in woken || me in Waiting(parkers)
      ensures gaveUp ==> expired && got.None?
      ensures o.None? && me !in old(woken) ==> got.None? && !gaveUp && me !in woken
      ensures o.None? && me in old(woken) && old(buffer) == [] && !expired ==>
        got.None? && !gaveUp && buffer == [] && parkers == [Some(me)] + old(parkers)
      ensures && old(buffer) == [] && Waiting(old(parkers)) == [me] && me !in old(woken)
              && o.Some? && o.value.OtherPush?
              ==> got == Some(o.value.x) && !gaveUp
    {
      if o.Some? {
        Interfere(me, o.value);
      }
      got, gaveUp := Recheck(me, expired);
    }

    /**
     * `pop`: the front item at once when there is one; otherwise register
     * and park, one round per step of the others. `None` when the
     * schedule runs out while it is still parked.
     */
    method Pop(me: ThreadId, others: seq<QueueOther<T>>) returns (value: Option<T>, steps: nat)
      requires me !in woken && me !in Waiting(parkers) && NotMe(others, me)
      modifies this
      ensures steps <= |others|
      ensures old(buffer) != [] ==> && value == Some(old(buffer)[0]) && steps == 0
                                    && buffer == old(buffer)[1..] && parkers == old(parkers)
      ensures value.Some? ==> me !in woken && me !in Waiting(parkers)
      ensures value.None? ==> steps == |others| && (me in woken || me in Waiting(parkers))
      ensures value.Some? && old(buffer) == [] ==> steps >= 1
      ensures old(buffer) == [] && Waiting(old(parkers)) == [] && others != [] && others[0].OtherPush?
              ==> value == Some(others[0].x) && steps == 1
    {
      steps := 0;
      if buffer != [] {
        value := Some(buffer[0]);
        buffer := buffer[1..];
        return;
      }
      Join(me);
      while steps < |others|
        invariant steps <= |others|
        invariant me in woken || me in Waiting(parkers)
        invariant steps == 0 ==> buffer == [] && Waiting(parkers) == Waiting(old(parkers)) + [me] && me !in woken
        invariant Waiting(old(parkers)) == [] && others != [] && others[0].OtherPush? ==> steps == 0
        decreases |others| - steps
      {
        var got, gaveUp := Wake(me, Some(others[steps]), false);
        steps := steps + 1;
        if got.Some? {
          return got, steps;
        }
      }
      value := None;
    }

    /**
     * `pop_timeout`: the deadline is the first clock reading plus
     * `timeout`. Each round reads the clock and parks (one step of the
     * others) only before the deadline; with its flag set it takes the
     * front item, or gives up when a second reading is past the
     * deadline, or re-registers at the front; then a third reading past
     * the deadline ends it. Every return drops its entries.
     */
    method PopTimeout(me: ThreadId, timeout: nat, clock: seq<nat>, others: seq<QueueOther<T>>)
      returns (value: Option<T>, steps: nat, last: nat)
      requires ClockPasses(clock, timeout)
      requires me !in woken && me !in Waiting(parkers) && NotMe(others, me)
      modifies this
      ensures steps <= |others|
      ensures old(buffer) != [] ==> && value == Some(old(buffer)[0]) && steps == 0
                                    && buffer == old(buffer)[1..] && parkers == old(parkers)
      ensures me !in woken && me !in Waiting(parkers)
      ensures value.None? ==> last >= clock[0] + timeout
      ensures value.Some? && old(buffer) == [] ==> steps >= 1
      ensures old(buffer) == [] && Waiting(old(parkers)) == [] && others != [] && others[0].OtherPush?
              && clock[1] < clock[0] + timeout
              ==> value == Some(others[0].x) && steps == 1
    {
      var end := clock[0] + timeout;
      steps, last := 0, clock[0];
      if buffer != [] {
        value := Some(buffer[0]);
        buffer := buffer[1..];
        return;
      }
      Join(me);
      var k := 1;
      while true
        invariant 1 <= k < |clock| && steps <= |others|
        invariant me in woken || me in Waiting(parkers)
        invariant k == 1 ==> steps == 0 && buffer == [] && Waiting(parkers) == Waiting(old(parkers)) + [me]
        invariant steps == 0 ==> me !in woken
        invariant Waiting(old(parkers)) == [] && others != [] && others[0].OtherPush? && clock[1] < end ==> k == 1
        decreases |clock| - k
      {
        var now := Now(clock, k);
        var o := if now < end && steps < |others| then Some(others[steps]) else None;
        var later := Now(clock, k + 1);
        var got, gaveUp := Wake(me, o, later >= end);
        if o.Some? {
          steps := steps + 1;
        }
        if got.Some? {
          return got, steps, now;
        }
        if gaveUp {
          return None, steps, later;
        }
        if k + 2 >= |clock| - 1 {
          PastDeadline(clock, timeout, k + 2);
        }
        last := Now(clock, k + 2);
        if last >= end {
          Leave(me);
          return None, steps, last;
        }
        k := k + 3;
      }
    }
  }

  /** A lone popper on an empty queue receives the value the next push brings. */
  method LoneWaiterGetsPush() returns (value: Option<int>, steps: nat)
    ensures value == Some(7) && steps == 1
  {
    var q := new ParkQueue<int>.Default();
    value, steps := q.Pop(1, [OtherPush(7)]);
  }

  /** A push wakes the popper that parked first. */
  method PushWakesFirstParked() returns (unparked: Option<ThreadId>)
    ensures unparked == Some(1)
  {
    var q := new ParkQueue<int>.Default();
    q.Join(1);
    q.Join(2);
    unparked := q.Push(7);
    assert ([unparked.value] + Waiting(q.parkers))[0] == unparked.value;
  }

  /** With nothing pushed, a timed pop gives up after the deadline and leaves no entry behind. */
  method TimedPopGivesUp() returns (value: Option<int>, last: nat, registered: bool)
    ensures value == None && last >= 15 && !registered
  {
    var q := new ParkQueue<int>.Default();
    var steps;
    value, steps, last := q.PopTimeout(1, 5, [10, 12, 15, 20], []);
    registered := 1 in Waiting(q.parkers);
  }
}
