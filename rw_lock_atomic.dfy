/**
 * The reader-writer counter `RawAtomicRwLock`: one counter where 0 means
 * a writer holds the lock, 1 means open and n >= 2 means n - 1 readers.
 * Each raw method is one atomic step on the counter; the
 * compare-exchange retry loops only retry after another thread changed
 * the counter, so in this sequential model each call is a single step.
 */
module AtomicRwLock {

  /** Who holds the lock. */
  datatype Holders = Writer | Readers(n: nat)

  /** The meaning of a counter value. */
  function Decode(count: nat): (h: Holders)
    ensures h == Writer <==> count == 0
    ensures h.Readers? ==> h.n + 1 == count
  {
    if count == 0 then Writer else Readers(count - 1)
  }

  /** The counter value that stands for the given holders. */
  function Encode(h: Holders): (count: nat)
    ensures count == 0 <==> h == Writer
  {
    match h
    case Writer => 0
    case Readers(n) => n + 1
  }

  lemma DecodeEncode(h: Holders)
    ensures Decode(Encode(h)) == h
  {
  }

  lemma EncodeDecode(count: nat)
    ensures Encode(Decode(count)) == count
  {
  }

  /** Releases still owed by the current holders: one per reader, one for a writer. */
  function Owed(count: nat): (n: nat)
    ensures Decode(count).Readers? ==> n == Decode(count).n
    ensures Decode(count) == Writer ==> n == 1
  {
    if count == 0 then 1 else count - 1
  }

  /** Outcome of a try operation: whether it succeeded and the new counter. */
  datatype Step = Step(ok: bool, count: nat)

  /** `try_add_reader`: succeeds unless a writer holds the lock, and then adds one reader. */
  function TryAddReaderStep(count: nat): (r: Step)
    ensures r.ok <==> Decode(count) != Writer
    ensures r.ok ==> Decode(r.count) == Readers(Decode(count).n + 1)
    ensures !r.ok ==> r.count == count
  {
    if count < 1 then Step(false, count) else Step(true, count + 1)
  }

  /** `try_add_writer`: succeeds only on an open lock, and then a writer holds it. */
  function TryAddWriterStep(count: nat): (r: Step)
    ensures r.ok <==> Decode(count) == Readers(0)
    ensures r.ok ==> Decode(r.count) == Writer
    ensures !r.ok ==> r.count == count
  {
    if count != 1 then Step(false, count) else Step(true, 0)
  }

  /** `remove_reader`: one reader fewer (a reader must exist). */
  function RemoveReaderStep(count: nat): (c: nat)
    requires count > 1
    ensures Decode(c) == Readers(Decode(count).n - 1)
  {
    count - 1
  }

  /** `remove_writer`: the writer leaves and the lock is open (a writer must exist). */
  function RemoveWriterStep(count: nat): (c: nat)
    requires count == 0
    ensures Decode(c) == Readers(0)
  {
    1
  }

  /**
   * `try_upgrade`: while the caller holds a reader, succeeds exactly when
   * that reader is the only one, turning it into the writer.
   */
  function TryUpgradeStep(count: nat): (r: Step)
    requires count > 1
    ensures r.ok <==> Decode(count) == Readers(1)
    ensures r.ok ==> Decode(r.count) == Writer
    ensures !r.ok ==> r.count == count
  {
    if count == 2 then Step(true, 0) else Step(false, count)
  }

  /** `downgrade`: the writer becomes the only reader. */
  function DowngradeStep(count: nat): (c: nat)
    requires count == 0
    ensures Decode(c) == Readers(1)
  {
    2
  }

  /** Adding and then removing a reader restores the counter. */
  lemma ReaderRoundTrip(count: nat)
    requires TryAddReaderStep(count).ok
    ensures RemoveReaderStep(TryAddReaderStep(count).count) == count
  {
  }

  /** Adding and then removing a writer restores the counter. */
  lemma WriterRoundTrip(count: nat)
    requires TryAddWriterStep(count).ok
    ensures RemoveWriterStep(TryAddWriterStep(count).count) == count
  {
  }

  /** A writer excludes everybody; readers exclude a writer. */
  lemma Exclusion(count: nat)
    ensures count == 0 ==> !TryAddReaderStep(count).ok && !TryAddWriterStep(count).ok
    ensures count >= 2 ==> !TryAddWriterStep(count).ok
  {
  }

  /** Upgrading the only reader and downgrading again restores the counter. */
  lemma UpgradeRoundTrip(count: nat)
    requires count > 1 && TryUpgradeStep(count).ok
    ensures DowngradeStep(TryUpgradeStep(count).count) == count
  {
  }

  /** A try_upgrade never changes how many releases are owed: one guard in, one guard out. */
  lemma TryUpgradeKeepsOwed(count: nat)
    requires count > 1 && Decode(count) == Readers(1)
    ensures Owed(TryUpgradeStep(count).count) == Owed(count)
  {
  }

  /** A raw call made by the modelled thread, with its outcome. */
  datatype RwCall =
    | AddedReader(ok: bool)
    | AddedWriter(ok: bool)
    | RemovedReader
    | RemovedWriter
    | Upgraded(ok: bool)
    | Downgraded

  /**
   * One complete operation by another thread on the same lock, run while
   * the modelled thread yields.
   */
  datatype Other = OtherRead | OtherWrite | OtherUnread | OtherUnwrite

  /**
   * Effect of another thread's operation. The modelled thread holds
   * `mine` readers; others only release readers and writers of their own.
   */
  function OtherStep(count: nat, o: Other, mine: nat): (c: nat)
    ensures count > mine > 0 ==> c > mine
  {
    match o
    case OtherRead => TryAddReaderStep(count).count
    case OtherWrite => TryAddWriterStep(count).count
    case OtherUnread => if count > mine + 1 then count - 1 else count
    case OtherUnwrite => if count == 0 && mine == 0 then 1 else count
  }

  /** The raw lock: the counter plus a log of the modelled thread's raw calls. */
  class RawAtomicRwLock {
    var readCount: nat
    ghost var calls: seq<RwCall>

    /** `Default`: an open lock. */
    constructor ()
      ensures Decode(readCount) == Readers(0)
      ensures calls == []
    {
      readCount := 1;
      calls := [];
    }

    method TryAddReader() returns (ok: bool)
      modifies this
      ensures Step(ok, readCount) == TryAddReaderStep(old(readCount))
      ensures calls == old(calls) + [AddedReader(ok)]
    {
      var r := TryAddReaderStep(readCount);
      ok, readCount := r.ok, r.count;
      calls := calls + [AddedReader(ok)];
    }

    method TryAddWriter() returns (ok: bool)
      modifies this
      ensures Step(ok, readCount) == TryAddWriterStep(old(readCount))
      ensures calls == old(calls) + [AddedWriter(ok)]
    {
      ok := readCount == 1;
      if ok {
        readCount := 0;
      }
      calls := calls + [AddedWriter(ok)];
    }

    /** `remove_reader`: the debug assertion that a reader existed is the precondition. */
    method RemoveReader()
      requires readCount > 1
      modifies this
      ensures readCount == RemoveReaderStep(old(readCount))
      ensures calls == old(calls) + [RemovedReader]
    {
      readCount := readCount - 1;
      calls := calls + [RemovedReader];
    }

    /** `remove_writer`: the debug assertion that a writer held the lock is the precondition. */
    method RemoveWriter()
      requires readCount == 0
      modifies this
      ensures readCount == RemoveWriterStep(old(readCount))
      ensures calls == old(calls) + [RemovedWriter]
    {
      readCount := 1;
      calls := calls + [RemovedWriter];
    }

    /** `try_upgrade`: only while the caller holds a reader. */
    method TryUpgrade() returns (ok: bool)
      requires readCount > 1
      modifies this
      ensures Step(ok, readCount) == TryUpgradeStep(old(readCount))
      ensures calls == old(calls) + [Upgraded(ok)]
    {
      ok := readCount == 2;
      if ok {
        readCount := 0;
      }
      calls := calls + [Upgraded(ok)];
    }

    /** `downgrade`: only while the caller holds the writer. */
    method Downgrade()
      requires readCount == 0
      modifies this
      ensures readCount == DowngradeStep(old(readCount))
      ensures calls == old(calls) + [Downgraded]
    {
      readCount := 2;
      calls := calls + [Downgraded];
    }

    /** Another thread's operation; it does not appear in the modelled thread's log. */
    method Interfere(o: Other, mine: nat)
      modifies this
      ensures readCount == OtherStep(old(readCount), o, mine)
      ensures calls == old(calls)
    {
      readCount := OtherStep(readCount, o, mine);
    }
  }
}
