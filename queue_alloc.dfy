/**
 * `queue/queue_alloc.rs`: the bridge that turns a blocking queue into an
 * async one. `push_async`, `push_front_async`, `pop_async` and
 * `pop_back_async` send one message each, carrying the handle of the
 * future they return. A background thread takes the messages in order.
 * It keeps the operations that could not proceed in two deques, one for
 * writes and one for reads. A write that succeeds lets the pending reads
 * run, and a read that succeeds lets the pending writes run. Each drain
 * goes in order and stops at the first operation that still fails.
 *
 * The backing queue is a bounded sequence: a push fails when it is full,
 * a pop when it is empty.
 */
module QueueAlloc {
  import opened Common

  /** A write operation: the task awaiting it, its value, and its completion handle. */
  datatype WriteOp<T> =
    | Push(task: TaskId, value: T, handle: Pending)
    | PushFront(task: TaskId, value: T, handle: Pending)

  /** A read operation: the task awaiting it and the handle its value is assigned to. */
  datatype ReadOp =
    | Pop(task: TaskId, handle: Pending)
    | PopBack(task: TaskId, handle: Pending)

  /** A message to the background thread. */
  datatype Message<T> = Write(write: WriteOp<T>) | Read(read: ReadOp)

  /** What the background thread did for a waiting future. */
  datatype Event<T> =
    | Written(task: TaskId)            // a push future was completed
    | Delivered(task: TaskId, value: T) // a pop future was assigned its value
    | Discarded(value: T)              // a value was popped for a future that was gone

  /** The backing queue: its items, front first, and how many it can hold. */
  datatype Backing<T> = Backing(items: seq<T>, capacity: nat)

  /**
   * `handle_write_push` and `handle_write_push_front`: try the push; on
   * success complete the handle. `None` when the queue is full.
   */
  function HandleWrite<T>(q: Backing<T>, w: WriteOp<T>): (r: Option<(Backing<T>, seq<Event<T>>)>)
    ensures r.Some? <==> |q.items| < q.capacity
    ensures r.Some? ==> r.value.0.capacity == q.capacity
    ensures r.Some? && w.Push? ==> r.value.0.items == q.items + [w.value]
    ensures r.Some? && w.PushFront? ==> r.value.0.items == [w.value] + q.items
    ensures r.Some? ==> r.value.1 == if w.handle == Live then [Written(w.task)] else []
  {
    if |q.items| >= q.capacity then None
    else
      var items := if w.Push? then q.items + [w.value] else [w.value] + q.items;
      // A queued handle was never completed, so `complete()` reports a
      // fresh completion or a gone future, never an earlier one.
      Some((Backing(items, q.capacity), if w.handle == Live then [Written(w.task)] else []))
  }

  /**
   * `handle_read_pop` and `handle_read_pop_back`: try the pop; on success
   * assign the value to the handle, or discard it when the future is
   * gone. `None` when the queue is empty.
   */
  function HandleRead<T>(q: Backing<T>, r: ReadOp): (res: Option<(Backing<T>, seq<Event<T>>)>)
    ensures res.Some? <==> q.items != []
    ensures res.Some? ==> res.value.0.capacity == q.capacity && |res.value.1| == 1
    ensures res.Some? && r.Pop? ==>
      res.value.0.items == q.items[1..] && res.value.1 == [Reading(r, q.items[0])]
    ensures res.Some? && r.PopBack? ==>
      res.value.0.items == q.items[..|q.items| - 1] && res.value.1 == [Reading(r, q.items[|q.items| - 1])]
  {
    if q.items == [] then None
    else if r.Pop? then Some((Backing(q.items[1..], q.capacity), [Reading(r, q.items[0])]))
    else Some((Backing(q.items[..|q.items| - 1], q.capacity), [Reading(r, q.items[|q.items| - 1])]))
  }

  /** The event of read `r` receiving `value`. */
  function Reading<T>(r: ReadOp, value: T): (e: Event<T>)
    ensures e.Delivered? <==> r.handle == Live
    ensures e.Delivered? ==> e.task == r.task && e.value == value
    ensures e.Discarded? ==> e.value == value
  {
    if r.handle == Live then Delivered(r.task, value) else Discarded(value)
  }

  /**
   * `write_prepend_loop` (and `write_loop`, which sees only pushes):
   * run the pending writes in order until one fails, which stays at the
   * front.
   */
  function DrainWrites<T>(q: Backing<T>, ws: seq<WriteOp<T>>): (r: (Backing<T>, seq<WriteOp<T>>, seq<Event<T>>))
    ensures r.0.capacity == q.capacity
    ensures |r.1| <= |ws| && r.1 == ws[|ws| - |r.1|..]
    decreases |ws|
  {
    if ws == [] then (q, [], [])
    else
      match HandleWrite(q, ws[0])
      case None => (q, ws, [])
      case Some(step) =>
        var rest := DrainWrites(step.0, ws[1..]);
        assert ws[1..][|ws| - 1 - |rest.1|..] == ws[|ws| - |rest.1|..];
        (rest.0, rest.1, step.1 + rest.2)
  }

  /**
   * `read_back_loop` (and `read_loop`, which sees only pops): run the
   * pending reads in order until one fails, which stays at the front.
   */
  function DrainReads<T>(q: Backing<T>, rs: seq<ReadOp>): (r: (Backing<T>, seq<ReadOp>, seq<Event<T>>))
    ensures r.0.capacity == q.capacity
    ensures |r.1| <= |rs| && r.1 == rs[|rs| - |r.1|..]
    decreases |rs|
  {
    if rs == [] then (q, [], [])
    else
      match HandleRead(q, rs[0])
      case None => (q, rs, [])
      case Some(step) =>
        var rest := DrainReads(step.0, rs[1..]);
        assert rs[1..][|rs| - 1 - |rest.1|..] == rs[|rs| - |rest.1|..];
        (rest.0, rest.1, step.1 + rest.2)
  }

  /**
   * Draining writes stops only at a full queue: every write it ran added
   * one item, and any write left over could not run.
   */
  lemma {:induction false} DrainWritesStopsWhenFull<T>(q: Backing<T>, ws: seq<WriteOp<T>>)
    requires |q.items| <= q.capacity
    ensures var r := DrainWrites(q, ws);
      && |r.0.items| == |q.items| + (|ws| - |r.1|)
      && |r.0.items| <= q.capacity
      && (r.1 != [] ==> |r.0.items| == q.capacity)
    decreases |ws|
  {
    if ws != [] && |q.items| < q.capacity {
      DrainWritesStopsWhenFull(HandleWrite(q, ws[0]).value.0, ws[1..]);
    }
  }

  /**
   * Draining reads stops only at an empty queue: every read it ran took
   * one item, and any read left over could not run.
   */
  lemma {:induction false} DrainReadsStopsWhenEmpty<T>(q: Backing<T>, rs: seq<ReadOp>)
    ensures var r := DrainReads(q, rs);
      && |r.0.items| + (|rs| - |r.1|) == |q.items|
      && (r.1 != [] ==> r.0.items == [])
    decreases |rs|
  {
    if rs != [] && q.items != [] {
      DrainReadsStopsWhenEmpty(HandleRead(q, rs[0]).value.0, rs[1..]);
    }
  }

  /**
   * Pops drained from a queue hand out its front items in order: the
   * values they receive, followed by what is left, are the old items.
   */
  lemma {:induction false} DrainPopsInOrder<T>(q: Backing<T>, rs: seq<ReadOp>)
    requires forall i :: 0 <= i < |rs| ==> rs[i].Pop?
    ensures var r := DrainReads(q, rs);
      Values(r.2) + r.0.items == q.items
    decreases |rs|
  {
    if rs != [] && q.items != [] {
      var step := HandleRead(q, rs[0]).value;
      DrainPopsInOrder(step.0, rs[1..]);
      ValuesConcat(step.1, DrainReads(step.0, rs[1..]).2);
      assert q.items == [q.items[0]] + q.items[1..];
    }
  }

  /** The values handed out by read events, in order. */
  function Values<T>(es: seq<Event<T>>): (vs: seq<T>)
    ensures |vs| <= |es|
  {
    if es == [] then []
    else (if es[0].Written? then [] else [es[0].value]) + Values(es[1..])
  }

  lemma {:induction false} ValuesConcat<T>(a: seq<Event<T>>, b: seq<Event<T>>)
    ensures Values(a + b) == Values(a) + Values(b)
    decreases |a|
  {
    if a == [] {
      assert a + b == b;
    } else {
      assert (a + b)[1..] == a[1..] + b;
      ValuesConcat(a[1..], b);
    }
  }

  /**
   * `write_prepend_loop` over the local deque of pending writes. The
   * source pops the front and pushes it back on failure; the model looks
   * at the front and leaves it.
   */
  method WriteLoop<T>(q: Backing<T>, ws: seq<WriteOp<T>>) returns (q': Backing<T>, ws': seq<WriteOp<T>>, events: seq<Event<T>>)
    ensures (q', ws', events) == DrainWrites(q, ws)
  {
    q', ws', events := q, ws, [];
    assert events + DrainWrites(q', ws').2 == DrainWrites(q', ws').2;
    while ws' != []
      invariant var d := DrainWrites(q', ws'); DrainWrites(q, ws) == (d.0, d.1, events + d.2)
      decreases |ws'|
    {
      var r := HandleWrite(q', ws'[0]);
      if r.None? {
        assert events + DrainWrites(q', ws').2 == events;
        return;
      }
      var rest := DrainWrites(r.value.0, ws'[1..]);
      assert events + (r.value.1 + rest.2) == (events + r.value.1) + rest.2;
      q', ws', events := r.value.0, ws'[1..], events + r.value.1;
    }
    assert events + DrainWrites(q', ws').2 == events;
  }

  /** `read_back_loop` over the local deque of pending reads, in the same way. */
  method ReadLoop<T>(q: Backing<T>, rs: seq<ReadOp>) returns (q': Backing<T>, rs': seq<ReadOp>, events: seq<Event<T>>)
    ensures (q', rs', events) == DrainReads(q, rs)
  {
    q', rs', events := q, rs, [];
    assert events + DrainReads(q', rs').2 == DrainReads(q', rs').2;
    while rs' != []
      invariant var d := DrainReads(q', rs'); DrainReads(q, rs) == (d.0, d.1, events + d.2)
      decreases |rs'|
    {
      var r := HandleRead(q', rs'[0]);
      if r.None? {
        assert events + DrainReads(q', rs').2 == events;
        return;
      }
      var rest := DrainReads(r.value.0, rs'[1..]);
      assert events + (r.value.1 + rest.2) == (events + r.value.1) + rest.2;
      q', rs', events := r.value.0, rs'[1..], events + r.value.1;
    }
    assert events + DrainReads(q', rs').2 == events;
  }

  /**
   * The state of the background thread: the backing queue, its local
   * deques of pending writes and reads, and what it did so far.
   */
  datatype TaskState<T> = TaskState(q: Backing<T>, pendingWrites: seq<WriteOp<T>>, pendingReads: seq<ReadOp>, events: seq<Event<T>>)

  /**
   * Nothing waits needlessly: reads are pending only while the queue is
   * empty, writes only while it is full.
   */
  ghost predicate NoNeedlessWait<T>(s: TaskState<T>)
  {
    && |s.q.items| <= s.q.capacity
    && (s.pendingReads != [] ==> s.q.items == [])
    && (s.pendingWrites != [] ==> |s.q.items| == s.q.capacity)
  }

  /**
   * One message of `queue_task_function` as evidently intended: a write
   * or read runs at once when nothing of its kind is pending, and on
   * success drains the other kind; otherwise it is queued behind the
   * pending ones.
   */
  function Step<T>(s: TaskState<T>, m: Message<T>): (r: TaskState<T>)
    ensures r.q.capacity == s.q.capacity
  {
    match m
    case Write(w) =>
      if s.pendingWrites != [] then s.(pendingWrites := s.pendingWrites + [w])
      else
        var done := HandleWrite(s.q, w);
        if done.None? then s.(pendingWrites := [w])
        else
          var d := DrainReads(done.value.0, s.pendingReads);
          TaskState(d.0, [], d.1, s.events + done.value.1 + d.2)
    case Read(rd) =>
      if s.pendingReads != [] then s.(pendingReads := s.pendingReads + [rd])
      else
        var done := HandleRead(s.q, rd);
        if done.None? then s.(pendingReads := [rd])
        else
          var d := DrainWrites(done.value.0, s.pendingWrites);
          TaskState(d.0, d.1, [], s.events + done.value.1 + d.2)
  }

  /**
   * One message AS WRITTEN: a read that arrives while reads are pending
   * is neither run nor queued; its handle is dropped.
   */
  function StepAsWritten<T>(s: TaskState<T>, m: Message<T>): (r: TaskState<T>)
    ensures m.Read? && s.pendingReads != [] ==> r == s
    ensures !(m.Read? && s.pendingReads != []) ==> r == Step(s, m)
  {
    if m.Read? && s.pendingReads != [] then s else Step(s, m)
  }

  /** Every message keeps nothing waiting needlessly. */
  lemma StepKeepsNoNeedlessWait<T>(s: TaskState<T>, m: Message<T>)
    requires NoNeedlessWait(s)
    ensures NoNeedlessWait(Step(s, m))
    ensures NoNeedlessWait(StepAsWritten(s, m))
  {
    match m
    case Write(w) =>
      if s.pendingWrites == [] && |s.q.items| < s.q.capacity {
        var done := HandleWrite(s.q, w).value;
        DrainReadsStopsWhenEmpty(done.0, s.pendingReads);
      }
    case Read(rd) =>
      if s.pendingReads == [] && s.q.items != [] {
        var done := HandleRead(s.q, rd).value;
        DrainWritesStopsWhenFull(done.0, s.pendingWrites);
      }
  }

  /** The state after the messages `ms`, from the back. */
  function Run<T>(s: TaskState<T>, ms: seq<Message<T>>): TaskState<T>
  {
    if ms == [] then s else Step(Run(s, ms[..|ms| - 1]), ms[|ms| - 1])
  }

  function RunAsWritten<T>(s: TaskState<T>, ms: seq<Message<T>>): TaskState<T>
  {
    if ms == [] then s else StepAsWritten(RunAsWritten(s, ms[..|ms| - 1]), ms[|ms| - 1])
  }

  /**
   * `queue_task_function`, while the queue is alive: take the messages
   * in order and handle each, as written (a read that arrives while
   * reads are pending is dropped). The thread's deques start empty.
   */
  method QueueTaskFunction<T>(q: Backing<T>, messages: seq<Message<T>>) returns (s: TaskState<T>)
    requires |q.items| <= q.capacity
    ensures s == RunAsWritten(TaskState(q, [], [], []), messages)
    ensures NoNeedlessWait(s)
  {
    s := TaskState(q, [], [], []);
    var i := 0;
    while i < |messages|
      invariant 0 <= i <= |messages|
      invariant s == RunAsWritten(TaskState(q, [], [], []), messages[..i])
      invariant NoNeedlessWait(s)
    {
      assert messages[..i + 1][..i] == messages[..i];
      StepKeepsNoNeedlessWait(s, messages[i]);
      s := HandleMessage(s, messages[i]);
      i := i + 1;
    }
    assert messages[..|messages|] == messages;
  }

  /**
   * The body of `queue_task_function`'s loop for one message, as
   * written: `if read_queue.is_empty()` has no else branch.
   */
  method HandleMessage<T>(s: TaskState<T>, m: Message<T>) returns (r: TaskState<T>)
    ensures r == StepAsWritten(s, m)
  {
    match m {
      case Write(w) =>
        if s.pendingWrites != [] {
          return s.(pendingWrites := s.pendingWrites + [w]);
        }
        var done := HandleWrite(s.q, w);
        if done.None? {
          return s.(pendingWrites := [w]);
        }
        var q', reads', events := ReadLoop(done.value.0, s.pendingReads);
        r := TaskState(q', [], reads', s.events + done.value.1 + events);
      case Read(rd) =>
        if s.pendingReads != [] {
          return s;
        }
        var done := HandleRead(s.q, rd);
        if done.None? {
          return s.(pendingReads := [rd]);
        }
        var q', writes', events := WriteLoop(done.value.0, s.pendingWrites);
        r := TaskState(q', writes', [], s.events + done.value.1 + events);
    }
  }

  /** Two pops on an empty queue of capacity one, then pushes of `x` and `y`. */
  function TwoPopsTwoPushes<T>(x: T, y: T): (ms: seq<Message<T>>)
    ensures |ms| == 4
  {
    [Read(Pop(1, Live)), Read(Pop(2, Live)), Write(Push(3, x, Live)), Write(Push(4, y, Live))]
  }

  /** One more message runs after the ones before it. */
  lemma RunSnoc<T>(s: TaskState<T>, ms: seq<Message<T>>, m: Message<T>)
    ensures Run(s, ms + [m]) == Step(Run(s, ms), m)
  {
    assert (ms + [m])[..|ms|] == ms;
  }

  lemma RunSnocAsWritten<T>(s: TaskState<T>, ms: seq<Message<T>>, m: Message<T>)
    ensures RunAsWritten(s, ms + [m]) == StepAsWritten(RunAsWritten(s, ms), m)
  {
    assert (ms + [m])[..|ms|] == ms;
  }

  /** Four messages run one after another, through the states `s1`, `s2` and `s3`. */
  lemma RunFour<T>(s: TaskState<T>, m0: Message<T>, m1: Message<T>, m2: Message<T>, m3: Message<T>,
                   s1: TaskState<T>, s2: TaskState<T>, s3: TaskState<T>)
    requires Step(s, m0) == s1 && Step(s1, m1) == s2 && Step(s2, m2) == s3
    ensures Run(s, [m0, m1, m2, m3]) == Step(s3, m3)
  {
    RunSnoc(s, [], m0);
    RunSnoc(s, [m0], m1);
    RunSnoc(s, [m0, m1], m2);
    RunSnoc(s, [m0, m1, m2], m3);
    assert [] + [m0] == [m0];
    assert [m0] + [m1] == [m0, m1];
    assert [m0, m1] + [m2] == [m0, m1, m2];
    assert [m0, m1, m2] + [m3] == [m0, m1, m2, m3];
  }

  /** The same for the messages as written. */
  lemma RunFourAsWritten<T>(s: TaskState<T>, m0: Message<T>, m1: Message<T>, m2: Message<T>, m3: Message<T>,
                            s1: TaskState<T>, s2: TaskState<T>, s3: TaskState<T>)
    requires StepAsWritten(s, m0) == s1 && StepAsWritten(s1, m1) == s2 && StepAsWritten(s2, m2) == s3
    ensures RunAsWritten(s, [m0, m1, m2, m3]) == StepAsWritten(s3, m3)
  {
    RunSnocAsWritten(s, [], m0);
    RunSnocAsWritten(s, [m0], m1);
    RunSnocAsWritten(s, [m0, m1], m2);
    RunSnocAsWritten(s, [m0, m1, m2], m3);
    assert [] + [m0] == [m0];
    assert [m0] + [m1] == [m0, m1];
    assert [m0, m1] + [m2] == [m0, m1, m2];
    assert [m0, m1, m2] + [m3] == [m0, m1, m2, m3];
  }

  /** One pop delivers the only item and leaves the queue empty. */
  lemma DrainOneOfOne<T>(task: TaskId, x: T, other: seq<ReadOp>)
    ensures DrainReads(Backing([x], 1), [Pop(task, Live)] + other) == (Backing([], 1), other, [Delivered(task, x)])
  {
    var rs := [Pop(task, Live)] + other;
    assert rs[1..] == other;
    var rest := DrainReads<T>(Backing([], 1), other);
    assert rest == (Backing([], 1), other, []);
    assert [Delivered(task, x)] + rest.2 == [Delivered(task, x)];
  }

  /** The first pop finds the queue empty and waits. */
  lemma FirstPopWaits<T>()
    ensures Step<T>(TaskState(Backing([], 1), [], [], []), Read(Pop(1, Live)))
         == TaskState(Backing([], 1), [], [Pop(1, Live)], [])
  {
  }

  /** The first push fills the queue and the first pending pop takes its value. */
  lemma FirstPushServesFirstPop<T>(x: T, other: seq<ReadOp>)
    ensures Step(TaskState(Backing([], 1), [], [Pop(1, Live)] + other, []), Write(Push(3, x, Live)))
         == TaskState(Backing([], 1), [], other, [Written(3), Delivered(1, x)])
  {
    var s := TaskState(Backing([], 1), [], [Pop(1, Live)] + other, []);
    var done := HandleWrite(s.q, Push(3, x, Live));
    assert [] + [x] == [x];
    assert done.value == (Backing([x], 1), [Written(3)]);
    DrainOneOfOne(1, x, other);
    assert [] + [Written(3)] + [Delivered(1, x)] == [Written(3), Delivered(1, x)];
  }

  /**
   * As written: two pops wait on an empty queue of capacity one; the
   * second is dropped. Two pushes follow: the first pop receives the
   * first value, and the second value stays in the queue with no pop
   * left to take it.
   */
  lemma DroppedReadNeverServed<T>(x: T, y: T)
    ensures var s := RunAsWritten(TaskState(Backing([], 1), [], [], []), TwoPopsTwoPushes(x, y));
      s.events == [Written(3), Delivered(1, x), Written(4)] && s.q.items == [y] && s.pendingReads == []
  {
    var s0 := TaskState(Backing([], 1), [], [], []);
    var s1 := TaskState(Backing([], 1), [], [Pop(1, Live)], []);
    var s3 := TaskState(Backing([], 1), [], [], [Written(3), Delivered(1, x)]);
    FirstPopWaits<T>();
    FirstPushServesFirstPop(x, []);
    assert [Pop(1, Live)] + [] == [Pop(1, Live)];
    SecondPushStays(x, y);
    RunFourAsWritten(s0, Read(Pop(1, Live)), Read(Pop(2, Live)), Write(Push(3, x, Live)), Write(Push(4, y, Live)), s1, s1, s3);
  }

  /** Corrected: the second pop is queued and receives the second value. */
  lemma QueuedReadServed<T>(x: T, y: T)
    ensures var s := Run(TaskState(Backing([], 1), [], [], []), TwoPopsTwoPushes(x, y));
      s.events == [Written(3), Delivered(1, x), Written(4), Delivered(2, y)] && s.q.items == [] && s.pendingReads == []
  {
    var s0 := TaskState(Backing([], 1), [], [], []);
    var s1 := TaskState(Backing([], 1), [], [Pop(1, Live)], []);
    var s2 := TaskState(Backing([], 1), [], [Pop(1, Live)] + [Pop(2, Live)], []);
    var s3 := TaskState(Backing([], 1), [], [Pop(2, Live)], [Written(3), Delivered(1, x)]);
    FirstPopWaits<T>();
    SecondPopQueued<T>();
    FirstPushServesFirstPop(x, [Pop(2, Live)]);
    SecondPushServesSecondPop(x, y);
    RunFour(s0, Read(Pop(1, Live)), Read(Pop(2, Live)), Write(Push(3, x, Live)), Write(Push(4, y, Live)), s1, s2, s3);
  }

  lemma SecondPopQueued<T>()
    ensures Step<T>(TaskState(Backing([], 1), [], [Pop(1, Live)], []), Read(Pop(2, Live)))
         == TaskState(Backing([], 1), [], [Pop(1, Live)] + [Pop(2, Live)], [])
  {
  }

  lemma SecondPushServesSecondPop<T>(x: T, y: T)
    ensures var s := Step(TaskState(Backing([], 1), [], [Pop(2, Live)], [Written(3), Delivered(1, x)]), Write(Push(4, y, Live)));
      s.events == [Written(3), Delivered(1, x), Written(4), Delivered(2, y)] && s.q.items == [] && s.pendingReads == []
  {
    var s := TaskState(Backing([], 1), [], [Pop(2, Live)], [Written(3), Delivered(1, x)]);
    var done := HandleWrite(s.q, Push(4, y, Live));
    assert [] + [y] == [y];
    assert done.value == (Backing([y], 1), [Written(4)]);
    DrainOneOfOne(2, y, []);
    assert [Pop(2, Live)] + [] == [Pop(2, Live)];
    assert s.events + [Written(4)] + [Delivered(2, y)] == [Written(3), Delivered(1, x), Written(4), Delivered(2, y)];
  }

  /** As written, the second push finds no pending pop and its value stays queued. */
  lemma SecondPushStays<T>(x: T, y: T)
    ensures var s := Step(TaskState(Backing([], 1), [], [], [Written(3), Delivered(1, x)]), Write(Push(4, y, Live)));
      s.events == [Written(3), Delivered(1, x), Written(4)] && s.q.items == [y] && s.pendingReads == []
  {
    var s := TaskState(Backing([], 1), [], [], [Written(3), Delivered(1, x)]);
    var done := HandleWrite(s.q, Push(4, y, Live));
    assert [] + [y] == [y];
    assert done.value == (Backing([y], 1), [Written(4)]);
    assert DrainReads(done.value.0, []) == (Backing([y], 1), [], []);
    assert s.events + [Written(4)] + [] == [Written(3), Delivered(1, x), Written(4)];
  }

  /**
   * The front end of `AsyncCustomQueue` and its prepend, reverse and
   * double-ended relatives: every async call sends one message. Sending
   * to a full message queue panics, reported as `panicked` with nothing
   * sent.
   */
  class AsyncCustomQueue<T> {
    /** The message queue, front first. */
    var messages: seq<Message<T>>
    /** How many messages it can hold. */
    const messageCapacity: nat

    constructor (messageCapacity: nat)
      ensures messages == [] && this.messageCapacity == messageCapacity
    {
      messages := [];
      this.messageCapacity := messageCapacity;
    }

    method Send(m: Message<T>) returns (panicked: bool)
      modifies this
      ensures panicked <==> |old(messages)| >= messageCapacity
      ensures messages == old(messages) + (if panicked then [] else [m])
    {
      panicked := |messages| >= messageCapacity;
      if !panicked {
        messages := messages + [m];
      }
    }

    /** `push_async`: send a Push with a live handle for `task`. */
    method PushAsync(task: TaskId, value: T) returns (panicked: bool)
      modifies this
      ensures panicked <==> |old(messages)| >= messageCapacity
      ensures messages == old(messages) + (if panicked then [] else [Write(Push(task, value, Live))])
    {
      panicked := Send(Write(Push(task, value, Live)));
    }

    /** `push_front_async`: send a PushFront with a live handle for `task`. */
    method PushFrontAsync(task: TaskId, value: T) returns (panicked: bool)
      modifies this
      ensures panicked <==> |old(messages)| >= messageCapacity
      ensures messages == old(messages) + (if panicked then [] else [Write(PushFront(task, value, Live))])
    {
      panicked := Send(Write(PushFront(task, value, Live)));
    }

    /** `pop_async`: send a Pop with a live handle for `task`. */
    method PopAsync(task: TaskId) returns (panicked: bool)
      modifies this
      ensures panicked <==> |old(messages)| >= messageCapacity
      ensures messages == old(messages) + (if panicked then [] else [Read(Pop(task, Live))])
    {
      panicked := Send(Read(Pop(task, Live)));
    }

    /** `pop_back_async`: send a PopBack with a live handle for `task`. */
    method PopBackAsync(task: TaskId) returns (panicked: bool)
      modifies this
      ensures panicked <==> |old(messages)| >= messageCapacity
      ensures messages == old(messages) + (if panicked then [] else [Read(PopBack(task, Live))])
    {
      panicked := Send(Read(PopBack(task, Live)));
    }
  }
}
