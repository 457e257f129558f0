/**
 * `semaphore/impls/park_semaphore.rs`: a count of permits and a FIFO of
 * parked threads, both behind one spin lock (each method body below runs
 * as one step under that lock). A thread that finds no permit joins the
 * queue with a fresh wake flag and parks until `signal` pops its entry
 * and sets the flag: at count zero a signal hands its permit to the
 * front parker instead of adding it to the count.
 */
module ParkSemaphores {
  import opened Common

  /** A queue entry: the parked thread and the identity of its wake flag. */
  datatype Parker = Parker(thread: ThreadId, flag: nat)

  /** A step another thread takes while the modelled thread is parked. */
  datatype SemOther =
    | OtherSignal                         // some thread calls signal
    | OtherTryWait                        // some thread calls try_wait
    | OtherWait(id: ThreadId, flag: nat)  // thread `id` calls wait with a new flag

  /** The wake flags of the queue entries, front to back. */
  function Flags(q: seq<Parker>): (fs: seq<nat>)
    ensures |fs| == |q| && forall i :: 0 <= i < |q| ==> fs[i] == q[i].flag
  {
    if q == [] then [] else [q[0].flag] + Flags(q[1..])
  }

  /** The queue without the entry whose flag is `flag`. */
  function Leave(q: seq<Parker>, flag: nat): (r: seq<Parker>)
    ensures forall p :: p in r <==> p in q && p.flag != flag
    ensures |r| <= |q|
  {
    if q == [] then []
    else (if q[0].flag == flag then [] else [q[0]]) + Leave(q[1..], flag)
  }

  /** Leaving right after joining a queue that held no entry with the same flag restores the queue. */
  lemma {:induction false} LeaveLast(q: seq<Parker>, p: Parker)
    requires forall i :: 0 <= i < |q| ==> q[i].flag != p.flag
    ensures Leave(q + [p], p.flag) == q
    decreases |q|
  {
    if q == [] {
      assert [p][1..] == [];
    } else {
      assert (q + [p])[1..] == q[1..] + [p];
      LeaveLast(q[1..], p);
    }
  }

  /** No flag appears twice in `q`. */
  ghost predicate DistinctFlags(q: seq<Parker>)
  {
    forall i, j :: 0 <= i < j < |q| ==> q[i].flag != q[j].flag
  }

  /** Leaving keeps the other entries in order, so their flags stay distinct. */
  lemma {:induction false} LeaveKeepsDistinct(q: seq<Parker>, flag: nat)
    requires DistinctFlags(q)
    ensures DistinctFlags(Leave(q, flag))
    decreases |q|
  {
    if q != [] {
      LeaveKeepsDistinct(q[1..], flag);
      var rest := Leave(q[1..], flag);
      forall p | p in rest
        ensures p.flag != q[0].flag
      {
        var j :| 0 <= j < |q[1..]| && q[1..][j] == p;
        assert q[j + 1] == p;
      }
    }
  }

  /**
   * The flags of the waits in `others` are new: none is in `used`, and no
   * two are the same (each wait allocates its own flag).
   */
  ghost predicate FreshFlags(others: seq<SemOther>, used: set<nat>)
  {
    forall i :: 0 <= i < |others| && others[i].OtherWait? ==>
      && others[i].flag !in used
      && forall j :: i < j < |others| && others[j].OtherWait? ==> others[j].flag != others[i].flag
  }

  class ParkSemaphore {
    /** The number of permits. */
    var count: nat
    /** The parked threads, front first. */
    var parkers: seq<Parker>
    /** The wake flags that have been set. */
    var woken: set<nat>
    /** Every wake flag created so far. */
    ghost var used: set<nat>

    /**
     * Permits are held only while nobody is queued; queued flags are
     * distinct, were created, and are not set yet.
     */
    ghost predicate Valid()
      reads this
    {
      && (count > 0 ==> parkers == [])
      && DistinctFlags(parkers)
      && (forall i :: 0 <= i < |parkers| ==> parkers[i].flag in used && parkers[i].flag !in woken)
      && woken <= used
    }

    /** `new(start_count)`. */
    constructor (startCount: nat)
      ensures Valid() && count == startCount && parkers == [] && woken == {} && used == {}
    {
      count := startCount;
      parkers := [];
      woken := {};
      used := {};
    }

    /** `Default`: no permits. */
    constructor Default()
      ensures Valid() && count == 0 && parkers == [] && woken == {} && used == {}
    {
      count := 0;
      parkers := [];
      woken := {};
      used := {};
    }

    /** `try_wait`: fail at zero, otherwise take one permit. */
    method TryWait() returns (ok: bool)
      requires Valid()
      modifies this
      ensures Valid()
      ensures ok <==> old(count) > 0
      ensures count == if ok then old(count) - 1 else 0
      ensures parkers == old(parkers) && woken == old(woken) && used == old(used)
    {
      ok := count > 0;
      if ok {
        count := count - 1;
      }
    }

    /**
     * `signal`: at zero, pop the front parker and set its flag, which
     * hands it the permit; otherwise, or with nobody queued, add the
     * permit to the count.
     */
    method Signal() returns (unparked: Option<Parker>)
      requires Valid()
      modifies this
      ensures Valid()
      ensures unparked.Some? <==> old(count) == 0 && old(parkers) != []
      ensures unparked.Some? ==> && unparked.value == old(parkers)[0]
                                 && parkers == old(parkers)[1..]
                                 && woken == old(woken) + {unparked.value.flag}
                                 && count == 0
      ensures unparked.None? ==> count == old(count) + 1 && parkers == old(parkers) && woken == old(woken)
      ensures used == old(used)
    {
      if count == 0 && parkers != [] {
        unparked := Some(parkers[0]);
        woken := woken + {parkers[0].flag};
        parkers := parkers[1..];
        return;
      }
      unparked := None;
      count := count + 1;
    }

    /** `count`. */
    method Count() returns (c: nat)
      ensures c == count
    {
      c := count;
    }

    /**
     * The first half of `wait` and `wait_timeout`: take a permit if there
     * is one, otherwise join the back of the queue with the new flag.
     */
    method TakeOrJoin(me: ThreadId, flag: nat) returns (took: bool)
      requires Valid() && flag !in used
      modifies this
      ensures Valid() && flag in used && used == old(used) + {flag}
      ensures took <==> old(count) > 0
      ensures took ==> count == old(count) - 1 && parkers == old(parkers) && woken == old(woken)
      ensures !took ==> count == 0 && parkers == old(parkers) + [Parker(me, flag)] && woken == old(woken)
    {
      used := used + {flag};
      if count > 0 {
        count := count - 1;
        took := true;
        return;
      }
      took := false;
      parkers := parkers + [Parker(me, flag)];
    }

    /** One step of another thread. */
    method Interfere(o: SemOther)
      requires Valid()
      requires o.OtherWait? ==> o.flag !in used
      modifies this
      ensures Valid() && old(woken) <= woken
      ensures used == old(used) + (if o.OtherWait? then {o.flag} else {})
      ensures forall p :: p in old(parkers) && p.flag !in woken ==> p in parkers
      ensures woken != old(woken) ==> count == 0
      ensures o == OtherSignal && old(count) == 0 && old(parkers) != [] ==> old(parkers)[0].flag in woken
    {
      match o {
        case OtherSignal =>
          var _ := Signal();
        case OtherTryWait =>
          var _ := TryWait();
        case OtherWait(id, f) =>
          var _ := TakeOrJoin(id, f);
      }
    }

    /**
     * `wait`: take a permit, or join the queue and park until a signal
     * sets this thread's flag. `returned` is false when the schedule runs
     * out while the thread is still parked.
     */
    method Wait(me: ThreadId, flag: nat, others: seq<SemOther>) returns (returned: bool)
      requires Valid() && flag !in used && FreshFlags(others, used + {flag})
      modifies this
      ensures Valid()
      ensures old(count) > 0 ==> returned && count == old(count) - 1 && parkers == old(parkers) && woken == old(woken)
      ensures returned && old(count) == 0 ==> flag in woken && count == 0
      ensures !returned ==> flag !in woken && Parker(me, flag) in parkers
      ensures old(count) == 0 && others == [] ==> !returned
      ensures old(count) == 0 && old(parkers) == [] && |others| > 0 && others[0] == OtherSignal ==> returned
    {
      var took := TakeOrJoin(me, flag);
      if took {
        returned := true;
        return;
      }
      ghost var alone := old(parkers) == [] && |others| > 0 && others[0] == OtherSignal;
      var i := 0;
      while true
        invariant 0 <= i <= |others|
        invariant Valid() && flag in used && FreshFlags(others[i..], used)
        invariant flag in woken || Parker(me, flag) in parkers
        invariant i == 0 ==> parkers == old(parkers) + [Parker(me, flag)] && flag !in woken && count == 0
        invariant alone && i > 0 ==> flag in woken
        invariant count == 0
        decreases |others| - i
      {
        if flag in woken {
          returned := true;
          return;
        }
        if i == |others| {
          returned := false;
          return;
        }
        Interfere(others[i]);
        i := i + 1;
      }
    }

    /**
     * `wait_timeout` AS WRITTEN: at the deadline the thread returns false
     * but its entry stays in the queue, so a later signal pops it and
     * spends its permit on a thread that no longer waits.
     */
    method WaitTimeoutAsWritten(me: ThreadId, flag: nat, timeout: nat, clock: seq<nat>, others: seq<SemOther>)
      returns (ok: bool)
      requires Valid() && flag !in used && FreshFlags(others, used + {flag}) && ClockPasses(clock, timeout)
      modifies this
      ensures Valid()
      ensures old(count) > 0 ==> ok && count == old(count) - 1 && parkers == old(parkers) && woken == old(woken)
      ensures ok && old(count) == 0 ==> flag in woken
      ensures !ok ==> old(count) == 0 && (flag in woken || Parker(me, flag) in parkers)
      ensures old(count) == 0 && others == [] ==> !ok && count == 0 && parkers == old(parkers) + [Parker(me, flag)]
    {
      var took := TakeOrJoin(me, flag);
      if took {
        ok := true;
        return;
      }
      var end := clock[0] + timeout;
      var k := 1;
      var i := 0;
      while true
        invariant 1 <= k < |clock| && 0 <= i <= |others|
        invariant Valid() && flag in used && FreshFlags(others[i..], used)
        invariant flag in woken || Parker(me, flag) in parkers
        invariant i == 0 ==> count == 0 && parkers == old(parkers) + [Parker(me, flag)] && flag !in woken
        decreases |clock| - k
      {
        if k >= |clock| - 1 {
          PastDeadline(clock, timeout, k);
        }
        if Now(clock, k) >= end {
          // The entry is left queued, and a permit already handed over
          // by a signal is dropped with it.
          ok := false;
          return;
        }
        if flag in woken {
          ok := true;
          return;
        }
        if i < |others| {
          Interfere(others[i]);
          i := i + 1;
        }
        k := k + 1;
      }
    }

    /**
     * `wait_timeout` as evidently intended: at the deadline the thread
     * takes the lock again; if a signal set its flag meanwhile it keeps
     * that permit, otherwise it leaves the queue and returns false.
     */
    method WaitTimeout(me: ThreadId, flag: nat, timeout: nat, clock: seq<nat>, others: seq<SemOther>)
      returns (ok: bool)
      requires Valid() && flag !in used && FreshFlags(others, used + {flag}) && ClockPasses(clock, timeout)
      modifies this
      ensures Valid()
      ensures old(count) > 0 ==> ok && count == old(count) - 1 && parkers == old(parkers) && woken == old(woken)
      ensures ok && old(count) == 0 ==> flag in woken
      ensures !ok ==> flag !in woken && flag !in Flags(parkers)
      ensures old(count) == 0 && others == [] ==> !ok && count == 0 && parkers == old(parkers)
    {
      var took := TakeOrJoin(me, flag);
      if took {
        ok := true;
        return;
      }
      var end := clock[0] + timeout;
      var k := 1;
      var i := 0;
      while true
        invariant 1 <= k < |clock| && 0 <= i <= |others|
        invariant Valid() && flag in used && FreshFlags(others[i..], used)
        invariant flag in woken || Parker(me, flag) in parkers
        invariant i == 0 ==> count == 0 && parkers == old(parkers) + [Parker(me, flag)] && flag !in woken
        decreases |clock| - k
      {
        if k >= |clock| - 1 {
          PastDeadline(clock, timeout, k);
        }
        if Now(clock, k) >= end {
          ok := flag in woken;
          if !ok {
            if i == 0 {
              LeaveLast(old(parkers), Parker(me, flag));
            }
            GiveUp(flag);
          }
          return;
        }
        if flag in woken {
          ok := true;
          return;
        }
        if i < |others| {
          Interfere(others[i]);
          i := i + 1;
        }
        k := k + 1;
      }
    }

    /** The timed-out thread removes its own entry, under the lock. */
    method GiveUp(flag: nat)
      requires Valid() && flag !in woken
      modifies this
      ensures Valid()
      ensures parkers == Leave(old(parkers), flag) && flag !in Flags(parkers)
      ensures count == old(count) && woken == old(woken) && used == old(used)
    {
      LeaveKeepsDistinct(parkers, flag);
      parkers := Leave(parkers, flag);
      forall i | 0 <= i < |parkers|
        ensures Flags(parkers)[i] != flag
      {
        assert parkers[i] in parkers;
      }
    }
  }

  /**
   * As written: a waiter times out, then a signal comes. The signal goes
   * to the stale entry, so the permit is lost and try_wait fails.
   */
  method TimedOutWaiterSwallowsPermit() returns (waited: bool, took: bool)
    ensures !waited && !took
  {
    var s := new ParkSemaphore.Default();
    waited := s.WaitTimeoutAsWritten(1, 0, 5, [0, 5], []);
    var _ := s.Signal();
    took := s.TryWait();
  }

  /** Corrected: the timed-out waiter left the queue, so the signal's permit stays available. */
  method TimedOutWaiterLeavesPermit() returns (waited: bool, took: bool)
    ensures !waited && took
  {
    var s := new ParkSemaphore.Default();
    waited := s.WaitTimeout(1, 0, 5, [0, 5], []);
    var _ := s.Signal();
    took := s.TryWait();
  }

  /** A signal wakes the parked waiter, which then returns with the permit. */
  method SignalWakesWaiter() returns (returned: bool, left: nat)
    ensures returned && left == 0
  {
    var s := new ParkSemaphore.Default();
    returned := s.Wait(1, 0, [OtherSignal]);
    left := s.Count();
  }
}
