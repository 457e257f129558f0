/**
 * `CustomRwLock`: data paired with a raw reader-writer lock, here the
 * spinning counter lock. A guard remembers its lock; dropping a guard is
 * the only release, and upgrading or downgrading converts a guard
 * without releasing it. The `func` variants acquire, run the caller's
 * function on the data and release.
 *
 * A caller's function on shared data is a Dafny function from
 * `Option<T>` (None when the lock was not acquired) to its output; a
 * function on mutable data also returns the data as it left it (that
 * component is not used when the function got None).
 */
module CustomRw {
  import opened Common
  import opened AtomicRwLock
  import opened SpinRwLock

  class CustomRwLock<T> {
    var data: T
    const rawLock: RawSpinRwLock

    /** The counter of the raw lock. */
    function Count(): nat
      reads rawLock.lock
    {
      rawLock.lock.readCount
    }

    /** The raw calls made so far by the modelled thread. */
    ghost function Calls(): seq<RwCall>
      reads rawLock.lock
    {
      rawLock.lock.calls
    }

    /** `from_raw`: stores the given raw lock and data unchanged. */
    constructor FromRaw(rawLock: RawSpinRwLock, data: T)
      ensures this.rawLock == rawLock && this.data == data
    {
      this.rawLock := rawLock;
      this.data := data;
    }

    /** `new`: the data with a default raw lock, which is open. */
    constructor (data: T)
      ensures this.data == data
      ensures fresh(rawLock) && fresh(rawLock.lock)
      ensures Decode(rawLock.lock.readCount) == Readers(0) && rawLock.lock.calls == []
    {
      this.data := data;
      this.rawLock := new RawSpinRwLock();
    }

    /** `try_read`: a guard exactly when try_add_reader succeeded. */
    method TryRead() returns (g: Option<ReadGuard<T>>)
      modifies rawLock.lock
      ensures Calls() == old(Calls()) + [AddedReader(g.Some?)]
      ensures Step(g.Some?, Count()) == TryAddReaderStep(old(Count()))
      ensures g.Some? ==> g.value.lock == this
    {
      var ok := rawLock.TryAddReader();
      if ok {
        g := Some(ReadGuard(this));
      } else {
        g := None;
      }
    }

    /** `try_write`: a guard exactly when try_add_writer succeeded. */
    method TryWrite() returns (g: Option<WriteGuard<T>>)
      modifies rawLock.lock
      ensures Calls() == old(Calls()) + [AddedWriter(g.Some?)]
      ensures Step(g.Some?, Count()) == TryAddWriterStep(old(Count()))
      ensures g.Some? ==> g.value.lock == this
    {
      var ok := rawLock.TryAddWriter();
      if ok {
        g := Some(WriteGuard(this));
      } else {
        g := None;
      }
    }

    /**
     * `try_read_func`: on success runs func on the data and then calls
     * remove_reader once; on failure runs func on None and makes no
     * further raw call.
     */
    method TryReadFunc<O>(func: Option<T> -> O) returns (out: O)
      modifies rawLock.lock
      ensures var ok := Decode(old(Count())) != Writer;
              && out == func(if ok then Some(data) else None)
              && Calls() == old(Calls()) + (if ok then [AddedReader(true), RemovedReader] else [AddedReader(false)])
      ensures Count() == old(Count())
    {
      var ok := rawLock.TryAddReader();
      if ok {
        out := func(Some(data));
        rawLock.RemoveReader();
      } else {
        out := func(None);
      }
    }

    /** The trait default of `try_read_func`: try_read, run func, drop the guard. */
    method TryReadFuncDefault<O>(func: Option<T> -> O) returns (out: O)
      modifies rawLock.lock
      ensures var ok := Decode(old(Count())) != Writer;
              && out == func(if ok then Some(data) else None)
              && Calls() == old(Calls()) + (if ok then [AddedReader(true), RemovedReader] else [AddedReader(false)])
      ensures Count() == old(Count())
    {
      var g := TryRead();
      match g {
        case None =>
          out := func(None);
        case Some(guard) =>
          out := func(Some(guard.Deref()));
          DropRead(guard);
      }
    }

    /**
     * `try_write_func`: on success func may change the data, which it
     * keeps, and remove_writer follows once; on failure func gets None
     * and no further raw call is made.
     */
    method TryWriteFunc<O>(func: Option<T> -> (T, O)) returns (out: O)
      modifies this, rawLock.lock
      ensures var ok := Decode(old(Count())) == Readers(0);
              && (ok ==> data == func(Some(old(data))).0 && out == func(Some(old(data))).1)
              && (!ok ==> data == old(data) && out == func(None).1)
              && Calls() == old(Calls()) + (if ok then [AddedWriter(true), RemovedWriter] else [AddedWriter(false)])
      ensures Count() == old(Count())
    {
      var ok := rawLock.TryAddWriter();
      if ok {
        var r := func(Some(data));
        data := r.0;
        out := r.1;
        rawLock.RemoveWriter();
      } else {
        out := func(None).1;
      }
    }

    /** The trait default of `try_write_func`: try_write, run func through the guard, drop it. */
    method TryWriteFuncDefault<O>(func: Option<T> -> (T, O)) returns (out: O)
      modifies this, rawLock.lock
      ensures var ok := Decode(old(Count())) == Readers(0);
              && (ok ==> data == func(Some(old(data))).0 && out == func(Some(old(data))).1)
              && (!ok ==> data == old(data) && out == func(None).1)
              && Calls() == old(Calls()) + (if ok then [AddedWriter(true), RemovedWriter] else [AddedWriter(false)])
      ensures Count() == old(Count())
    {
      var g := TryWrite();
      match g {
        case None =>
          out := func(None).1;
        case Some(guard) =>
          var r := func(Some(guard.Deref()));
          WriteThrough(guard, r.0);
          out := r.1;
          DropWrite(guard);
      }
    }

    /**
     * `read`: add_reader, then a guard. None means the call was still
     * spinning when the other threads' schedule ran out.
     */
    method Read(others: seq<Other>) returns (g: Option<ReadGuard<T>>, attempts: nat)
      modifies rawLock.lock
      ensures attempts >= 1
      ensures Calls() == old(Calls()) + Repeat(AddedReader(false), attempts - 1) + [AddedReader(g.Some?)]
      ensures g.Some? ==> g.value.lock == this && Count() > 1
      ensures others == [] ==> Step(g.Some?, Count()) == TryAddReaderStep(old(Count()))
    {
      var returned;
      returned, attempts := rawLock.AddReader(others);
      if returned {
        g := Some(ReadGuard(this));
      } else {
        g := None;
      }
    }

    /** `write`: add_writer, then a guard. */
    method Write(others: seq<Other>) returns (g: Option<WriteGuard<T>>, attempts: nat)
      modifies rawLock.lock
      ensures attempts >= 1
      ensures Calls() == old(Calls()) + Repeat(AddedWriter(false), attempts - 1) + [AddedWriter(g.Some?)]
      ensures g.Some? ==> g.value.lock == this && Decode(Count()) == Writer
      ensures others == [] ==> Step(g.Some?, Count()) == TryAddWriterStep(old(Count()))
    {
      var returned;
      returned, attempts := rawLock.AddWriter(others);
      if returned {
        g := Some(WriteGuard(this));
      } else {
        g := None;
      }
    }

    /** `read_func`: exactly add_reader, func on the data, remove_reader; returns func's output. */
    method ReadFunc<O>(func: T -> O, others: seq<Other>) returns (out: Option<O>, attempts: nat)
      modifies rawLock.lock
      ensures attempts >= 1
      ensures Calls() == old(Calls()) + Repeat(AddedReader(false), attempts - 1)
                         + (if out.Some? then [AddedReader(true), RemovedReader] else [AddedReader(false)])
      ensures out.Some? ==> out.value == func(data)
      ensures others == [] ==> Count() == old(Count()) && (out.Some? <==> Decode(old(Count())) != Writer)
    {
      var returned;
      returned, attempts := rawLock.AddReader(others);
      if returned {
        out := Some(func(data));
        rawLock.RemoveReader();
      } else {
        out := None;
      }
    }

    /** The trait default of `read_func`: read, run func, drop the guard. */
    method ReadFuncDefault<O>(func: T -> O, others: seq<Other>) returns (out: Option<O>, attempts: nat)
      modifies rawLock.lock
      ensures attempts >= 1
      ensures Calls() == old(Calls()) + Repeat(AddedReader(false), attempts - 1)
                         + (if out.Some? then [AddedReader(true), RemovedReader] else [AddedReader(false)])
      ensures out.Some? ==> out.value == func(data)
      ensures others == [] ==> Count() == old(Count()) && (out.Some? <==> Decode(old(Count())) != Writer)
    {
      var g;
      g, attempts := Read(others);
      match g {
        case None =>
          out := None;
        case Some(guard) =>
          out := Some(func(guard.Deref()));
          DropRead(guard);
      }
    }

    /** `write_func`: exactly add_writer, func on the data, remove_writer; func's changes persist. */
    method WriteFunc<O>(func: T -> (T, O), others: seq<Other>) returns (out: Option<O>, attempts: nat)
      modifies this, rawLock.lock
      ensures attempts >= 1
      ensures Calls() == old(Calls()) + Repeat(AddedWriter(false), attempts - 1)
                         + (if out.Some? then [AddedWriter(true), RemovedWriter] else [AddedWriter(false)])
      ensures out.Some? ==> data == func(old(data)).0 && out.value == func(old(data)).1
      ensures out.None? ==> data == old(data)
      ensures others == [] ==> Count() == old(Count()) && (out.Some? <==> Decode(old(Count())) == Readers(0))
    {
      var returned;
      returned, attempts := rawLock.AddWriter(others);
      if returned {
        var r := func(data);
        data := r.0;
        out := Some(r.1);
        rawLock.RemoveWriter();
      } else {
        out := None;
      }
    }

    /** The trait default of `write_func`: write, run func through the guard, drop it. */
    method WriteFuncDefault<O>(func: T -> (T, O), others: seq<Other>) returns (out: Option<O>, attempts: nat)
      modifies this, rawLock.lock
      ensures attempts >= 1
      ensures Calls() == old(Calls()) + Repeat(AddedWriter(false), attempts - 1)
                         + (if out.Some? then [AddedWriter(true), RemovedWriter] else [AddedWriter(false)])
      ensures out.Some? ==> data == func(old(data)).0 && out.value == func(old(data)).1
      ensures out.None? ==> data == old(data)
      ensures others == [] ==> Count() == old(Count()) && (out.Some? <==> Decode(old(Count())) == Readers(0))
    {
      var g;
      g, attempts := Write(others);
      match g {
        case None =>
          out := None;
        case Some(guard) =>
          var r := func(guard.Deref());
          WriteThrough(guard, r.0);
          out := Some(r.1);
          DropWrite(guard);
      }
    }

    /** `read_timeout`: a guard exactly when add_reader_timeout returned true. */
    method ReadTimeout(timeout: nat, clock: seq<nat>, others: seq<Other>) returns (g: Option<ReadGuard<T>>, attempts: nat)
      requires ClockPasses(clock, timeout)
      modifies rawLock.lock
      ensures g.Some? ==> attempts >= 1
      ensures Calls() == old(Calls()) + Repeat(AddedReader(false), if g.Some? then attempts - 1 else attempts)
                         + (if g.Some? then [AddedReader(true)] else [])
      ensures g.Some? ==> g.value.lock == this && Count() > 1
      ensures others == [] ==> (if g.Some? then Step(true, Count()) == TryAddReaderStep(old(Count())) else Count() == old(Count()))
    {
      var ok;
      ok, attempts := rawLock.AddReaderTimeout(timeout, clock, others);
      if ok {
        g := Some(ReadGuard(this));
      } else {
        g := None;
      }
    }

    /** `write_timeout`: a guard exactly when add_writer_timeout returned true. */
    method WriteTimeout(timeout: nat, clock: seq<nat>, others: seq<Other>) returns (g: Option<WriteGuard<T>>, attempts: nat)
      requires ClockPasses(clock, timeout)
      modifies rawLock.lock
      ensures g.Some? ==> attempts >= 1
      ensures Calls() == old(Calls()) + Repeat(AddedWriter(false), if g.Some? then attempts - 1 else attempts)
                         + (if g.Some? then [AddedWriter(true)] else [])
      ensures g.Some? ==> g.value.lock == this && Decode(Count()) == Writer
      ensures others == [] ==> (if g.Some? then Step(true, Count()) == TryAddWriterStep(old(Count())) else Count() == old(Count()))
    {
      var ok;
      ok, attempts := rawLock.AddWriterTimeout(timeout, clock, others);
      if ok {
        g := Some(WriteGuard(this));
      } else {
        g := None;
      }
    }

    /**
     * `read_timeout_func`: on success func runs on the data and
     * remove_reader follows; on timeout func gets None and nothing is
     * released.
     */
    method ReadTimeoutFunc<O>(timeout: nat, clock: seq<nat>, func: Option<T> -> O, others: seq<Other>) returns (out: O, attempts: nat)
      requires ClockPasses(clock, timeout)
      modifies rawLock.lock
      ensures || (&& attempts >= 1
                  && Calls() == old(Calls()) + Repeat(AddedReader(false), attempts - 1) + [AddedReader(true), RemovedReader]
                  && out == func(Some(data)))
              || (&& Calls() == old(Calls()) + Repeat(AddedReader(false), attempts)
                  && out == func(None))
      ensures others == [] ==> Count() == old(Count())
    {
      var ok;
      ok, attempts := rawLock.AddReaderTimeout(timeout, clock, others);
      if ok {
        out := func(Some(data));
        rawLock.RemoveReader();
      } else {
        out := func(None);
      }
    }

    /** The trait default of `read_timeout_func`: read_timeout, match on the guard, drop it. */
    method ReadTimeoutFuncDefault<O>(timeout: nat, clock: seq<nat>, func: Option<T> -> O, others: seq<Other>) returns (out: O, attempts: nat)
      requires ClockPasses(clock, timeout)
      modifies rawLock.lock
      ensures || (&& attempts >= 1
                  && Calls() == old(Calls()) + Repeat(AddedReader(false), attempts - 1) + [AddedReader(true), RemovedReader]
                  && out == func(Some(data)))
              || (&& Calls() == old(Calls()) + Repeat(AddedReader(false), attempts)
                  && out == func(None))
      ensures others == [] ==> Count() == old(Count())
    {
      var g;
      g, attempts := ReadTimeout(timeout, clock, others);
      match g {
        case None =>
          out := func(None);
        case Some(guard) =>
          out := func(Some(guard.Deref()));
          DropRead(guard);
      }
    }

    /**
     * `write_timeout_func`: on success func may change the data and
     * remove_writer follows; on timeout func gets None.
     */
    method WriteTimeoutFunc<O>(timeout: nat, clock: seq<nat>, func: Option<T> -> (T, O), others: seq<Other>) returns (out: O, attempts: nat)
      requires ClockPasses(clock, timeout)
      modifies this, rawLock.lock
      ensures || (&& attempts >= 1
                  && Calls() == old(Calls()) + Repeat(AddedWriter(false), attempts - 1) + [AddedWriter(true), RemovedWriter]
                  && data == func(Some(old(data))).0 && out == func(Some(old(data))).1)
              || (&& Calls() == old(Calls()) + Repeat(AddedWriter(false), attempts)
                  && data == old(data) && out == func(None).1)
      ensures others == [] ==> Count() == old(Count())
    {
      var ok;
      ok, attempts := rawLock.AddWriterTimeout(timeout, clock, others);
      if ok {
        var r := func(Some(data));
        data := r.0;
        out := r.1;
        rawLock.RemoveWriter();
      } else {
        out := func(None).1;
      }
    }

    /** The trait default of `write_timeout_func`: write_timeout, match on the guard, drop it. */
    method WriteTimeoutFuncDefault<O>(timeout: nat, clock: seq<nat>, func: Option<T> -> (T, O), others: seq<Other>) returns (out: O, attempts: nat)
      requires ClockPasses(clock, timeout)
      modifies this, rawLock.lock
      ensures || (&& attempts >= 1
                  && Calls() == old(Calls()) + Repeat(AddedWriter(false), attempts - 1) + [AddedWriter(true), RemovedWriter]
                  && data == func(Some(old(data))).0 && out == func(Some(old(data))).1)
              || (&& Calls() == old(Calls()) + Repeat(AddedWriter(false), attempts)
                  && data == old(data) && out == func(None).1)
      ensures others == [] ==> Count() == old(Count())
    {
      var g;
      g, attempts := WriteTimeout(timeout, clock, others);
      match g {
        case None =>
          out := func(None).1;
        case Some(guard) =>
          var r := func(Some(guard.Deref()));
          WriteThrough(guard, r.0);
          out := r.1;
          DropWrite(guard);
      }
    }
  }

  /** A read guard: shared access to the data of its lock. */
  datatype ReadGuard<T> = ReadGuard(lock: CustomRwLock<T>)
  {
    function Deref(): T
      reads lock
    {
      lock.data
    }
  }

  /** A write guard: shared and mutable access to the data of its lock. */
  datatype WriteGuard<T> = WriteGuard(lock: CustomRwLock<T>)
  {
    function Deref(): T
      reads lock
    {
      lock.data
    }
  }

  /** `deref_mut` on a write guard, used to store a new value. */
  method WriteThrough<T>(g: WriteGuard<T>, value: T)
    modifies g.lock
    ensures g.lock.data == value && g.Deref() == value
  {
    g.lock.data := value;
  }

  /** Dropping a read guard: exactly one remove_reader on its lock. */
  method DropRead<T>(g: ReadGuard<T>)
    requires g.lock.Count() > 1
    modifies g.lock.rawLock.lock
    ensures g.lock.Count() == RemoveReaderStep(old(g.lock.Count()))
    ensures g.lock.Calls() == old(g.lock.Calls()) + [RemovedReader]
  {
    g.lock.rawLock.RemoveReader();
  }

  /** Dropping a write guard: exactly one remove_writer on its lock. */
  method DropWrite<T>(g: WriteGuard<T>)
    requires g.lock.Count() == 0
    modifies g.lock.rawLock.lock
    ensures g.lock.Count() == RemoveWriterStep(old(g.lock.Count()))
    ensures g.lock.Calls() == old(g.lock.Calls()) + [RemovedWriter]
  {
    g.lock.rawLock.RemoveWriter();
  }

  /**
   * `CustomReadGuard::upgrade`: raw upgrade, then a write guard over the
   * same lock; the read guard is consumed without a remove_reader.
   */
  method Upgrade<T>(g: ReadGuard<T>, others: seq<Other>) returns (w: Option<WriteGuard<T>>, attempts: nat)
    requires g.lock.Count() > 1
    modifies g.lock.rawLock.lock
    ensures attempts >= 1
    ensures g.lock.Calls() == old(g.lock.Calls()) + Repeat(Upgraded(false), attempts - 1) + [Upgraded(w.Some?)]
    ensures w.Some? ==> w.value.lock == g.lock && Decode(g.lock.Count()) == Writer
    ensures w.None? ==> g.lock.Count() > 1
  {
    var returned;
    returned, attempts := g.lock.rawLock.Upgrade(others);
    if returned {
      w := Some(WriteGuard(g.lock));
    } else {
      w := None;
    }
  }

  /**
   * `CustomWriteGuard::downgrade`: raw downgrade, then a read guard over
   * the same lock; no failure outcome and no remove_writer.
   */
  method Downgrade<T>(w: WriteGuard<T>) returns (g: ReadGuard<T>)
    requires w.lock.Count() == 0
    modifies w.lock.rawLock.lock
    ensures g.lock == w.lock
    ensures Decode(w.lock.Count()) == Readers(1)
    ensures w.lock.Calls() == old(w.lock.Calls()) + [Downgraded]
  {
    w.lock.rawLock.Downgrade();
    g := ReadGuard(w.lock);
  }

  /**
   * `try_upgrade`: Ok with a write guard over the same lock when the raw
   * try_upgrade succeeded (no remove_reader), otherwise Err with the
   * original read guard. Either way one guard is live, so the releases
   * owed do not change.
   */
  method TryUpgrade<T>(g: ReadGuard<T>) returns (r: Result<WriteGuard<T>, ReadGuard<T>>)
    requires g.lock.Count() > 1
    modifies g.lock.rawLock.lock
    ensures g.lock.Calls() == old(g.lock.Calls()) + [Upgraded(r.Ok?)]
    ensures Step(r.Ok?, g.lock.Count()) == TryUpgradeStep(old(g.lock.Count()))
    ensures r.Ok? ==> r.value.lock == g.lock
    ensures r.Err? ==> r.error == g && g.lock.Count() > 1
    ensures Owed(g.lock.Count()) == Owed(old(g.lock.Count()))
  {
    var ok := g.lock.rawLock.TryUpgrade();
    if ok {
      r := Ok(WriteGuard(g.lock));
    } else {
      r := Err(g);
    }
  }

  /**
   * `upgrade_timeout`: Ok with a write guard over the same lock when the
   * raw call returned true, otherwise Err with the original read guard,
   * which still reads.
   */
  method UpgradeTimeout<T>(g: ReadGuard<T>, timeout: nat, clock: seq<nat>, others: seq<Other>)
    returns (r: Result<WriteGuard<T>, ReadGuard<T>>, attempts: nat)
    requires ClockPasses(clock, timeout)
    requires g.lock.Count() > 1
    modifies g.lock.rawLock.lock
    ensures r.Ok? ==> attempts >= 1
    ensures g.lock.Calls() == old(g.lock.Calls()) + Repeat(Upgraded(false), if r.Ok? then attempts - 1 else attempts)
                              + (if r.Ok? then [Upgraded(true)] else [])
    ensures r.Ok? ==> r.value.lock == g.lock && Decode(g.lock.Count()) == Writer
    ensures r.Err? ==> r.error == g && g.lock.Count() > 1
  {
    var ok;
    ok, attempts := g.lock.rawLock.UpgradeTimeout(timeout, clock, others);
    if ok {
      r := Ok(WriteGuard(g.lock));
    } else {
      r := Err(g);
    }
  }
}
