/** A threaded capture as a system of interleaved steps: one reader thread per source pushes onto the
    bounded queue, the writer pops, anyone may clear the go flag, and at the end the writer joins the
    readers and drains the queue.

    A step is what one thread does to shared data at a time: a test of the go flag, a section under the
    queue's lock, an update of a counter, or a whole call of a write callback. */
module Threads {
  import Bytes
  import opened PcapngFormat
  import opened Engine
  import opened Queue
  import opened Meaning
  import opened MeaningKept
  import opened Reports
  import opened Conservation

  /** Where a reader thread is: between deliveries, past the test of the go flag with a copy of the item,
      or past the queue's lock. */
  datatype Reader = Reading | Checked(item: Item) | Accepted | Refused | Exited

  /** Where the writer is: in its loop, holding an element, waiting for the readers, or draining. */
  datatype Writer = Looping | Holding(e: Entry) | Joining | Draining | HoldingLast(e: Entry) | Done

  /** The shared state, and histories: what the sources delivered, what became of it at the queue's
      entrance, what was taken from the queue, and what the writer did not write. */
  datatype System = System(
    eng: State, queue: PacketQueue, readers: seq<Reader>, writer: Writer,
    delivered: seq<Entry>, accepted: seq<Entry>, refused: seq<Entry>, skipped: seq<Entry>,
    dequeued: seq<Entry>, failed: seq<Entry>, flushed: seq<Entry>)

  datatype Action =
    | Arrive(src: nat, item: Item)
    | Enqueue(src: nat)
    | Count(src: nat)
    | End(src: nat)
    | See(src: nat, swapped: bool)
    | Take
    | Write(io: Io)
    | Look(timers: Timers, io: Io, io': Io)
    | Interrupt
    | Leave

  predicate EntryFits(s: State, e: Entry) {
    && e.src < |s.srcs| && s.srcs[e.src].fromPcapng == e.item.FromPipe?
    && (e.item.FromPipe? ==> |e.item.block.bytes| >= 12)
  }

  /** The first part of a queue callback: the go flag, and the copy.  g_malloc(0) is NULL, so that an
      empty packet counts as a failed allocation. */
  function DoArrive(s: System, i: nat, item: Item): System
    requires i < |s.readers| && i < |s.eng.srcs|
  {
    var e := Entry(i, item);
    var s := s.(delivered := s.delivered + [e]);
    if !s.eng.go then s.(eng := FlushAt(s.eng, i), skipped := s.skipped + [e])
    else if Length(item) == 0 then s.(eng := DropAt(s.eng, i), refused := s.refused + [e])
    else s.(readers := s.readers[i := Checked(item)])
  }

  /** The part under the queue's lock. */
  function DoEnqueue(l: QueueLimits, s: System, i: nat, item: Item): System
    requires i < |s.readers|
  {
    var e := Entry(i, item);
    if HasRoom(l, s.queue)
    then s.(queue := Push(s.queue, e), accepted := s.accepted + [e], readers := s.readers[i := Accepted])
    else s.(refused := s.refused + [e], readers := s.readers[i := Refused])
  }

  /** The last part: the source's counter. */
  function DoCount(s: System, i: nat): System
    requires i < |s.readers| && i < |s.eng.srcs|
  {
    s.(eng := if s.readers[i].Accepted? then ReceiveAt(s.eng, i) else DropAt(s.eng, i),
       readers := s.readers[i := Reading])
  }

  /** The locked part of capture_loop_dequeue_packet. */
  function DoTake(s: System): System
    requires s.queue.elems != []
  {
    var e := s.queue.elems[0];
    s.(queue := Pop(s.queue), dequeued := s.dequeued + [e],
       writer := if s.writer.Looping? then Holding(e) else HoldingLast(e))
  }

  /** The write callback, for the element taken. */
  function DoWrite(o: Options, s: System, e: Entry, io: Io): System {
    var r := Step(o, s.eng, Deliver(e.src, e.item, io));
    if r.aborted then s.(eng := r)
    else
      s.(eng := r, writer := if s.writer.Holding? then Looping else Draining,
         failed := if FateOf(s.eng, r).Dropped? then s.failed + [e] else s.failed,
         flushed := if FateOf(s.eng, r).Skipped? then s.flushed + [e] else s.flushed)
  }

  predicate AllExited(s: System) {
    forall i :: 0 <= i < |s.readers| ==> s.readers[i].Exited?
  }

  /** The writer's own moves: out of the loop, after the joins, after the drain. */
  function DoLeave(s: System): System {
    if s.writer.Looping? && !s.eng.go then s.(writer := Joining)
    else if s.writer.Joining? && AllExited(s) then s.(writer := Draining)
    else if s.writer.Draining? && s.queue.elems == [] then s.(writer := Done)
    else s
  }

  /** One step; an action that is not possible in the state changes nothing. */
  function SystemStep(o: Options, l: QueueLimits, s: System, a: Action): System {
    if !Alive(s.eng) || |s.readers| != |s.eng.srcs| then s
    else
      match a
      case Arrive(i, item) =>
        if i < |s.readers| && s.readers[i].Reading? && EntryFits(s.eng, Entry(i, item)) then DoArrive(s, i, item) else s
      case Enqueue(i) =>
        if i < |s.readers| && s.readers[i].Checked? then DoEnqueue(l, s, i, s.readers[i].item) else s
      case Count(i) =>
        if i < |s.readers| && (s.readers[i].Accepted? || s.readers[i].Refused?) then DoCount(s, i) else s
      case End(i) =>
        if i < |s.readers| && s.readers[i].Reading? then s.(readers := s.readers[i := Exited]) else s
      case See(i, swapped) =>
        if i < |s.readers| && s.readers[i].Reading? then s.(eng := Step(o, s.eng, ShbSeen(i, swapped))) else s
      case Take =>
        if s.queue.elems != [] && (s.writer.Looping? || s.writer.Draining?) then DoTake(s) else s
      case Write(io) =>
        if s.writer.Holding? || s.writer.HoldingLast? then DoWrite(o, s, s.writer.e, io) else s
      case Look(t, io, io') =>
        if s.writer.Looping? then s.(eng := Step(o, s.eng, TimersLooked(t, io, io'))) else s
      case Interrupt => s.(eng := Stop(s.eng))
      case Leave => DoLeave(s)
  }

  function SystemRun(o: Options, l: QueueLimits, s: System, acts: seq<Action>): System {
    if acts == [] then s else SystemStep(o, l, SystemRun(o, l, s, acts[..|acts| - 1]), acts[|acts| - 1])
  }

  /** The threads have been created, and the queue is empty. */
  function Created(s: State): System {
    System(s, EMPTY, seq(|s.srcs|, _ => Reading), Looping, [], [], [], [], [], [], [])
  }

  // ---- The invariant

  /** The elements taken that the write callback has returned from. */
  function Handled(s: System): seq<Entry> {
    if (s.writer.Holding? || s.writer.HoldingLast?) && s.dequeued != [] then s.dequeued[..|s.dequeued| - 1]
    else s.dequeued
  }

  /** First in, first out: what was taken is what was accepted, up to what is still in the queue. */
  ghost predicate Fifo(l: QueueLimits, s: System) {
    && Bounded(l, s.queue) && s.accepted == s.dequeued + s.queue.elems
    && (forall e :: e in s.accepted ==> EntryFits(s.eng, e))
    && (s.writer.Holding? || s.writer.HoldingLast? ==>
          s.dequeued != [] && s.dequeued[|s.dequeued| - 1] == s.writer.e)
    && Sub(s.eng.log, Handled(s))
  }

  ghost predicate Phases(s: System) {
    && Healthy(s.eng) && |s.readers| == |s.eng.srcs|
    && (!s.writer.Looping? && !s.writer.Holding? ==> !s.eng.go)
    && (s.writer.Draining? || s.writer.HoldingLast? || s.writer.Done? ==> AllExited(s))
    && (s.writer.Done? ==> s.queue.elems == [])
    && (forall i :: 0 <= i < |s.readers| && s.readers[i].Checked? ==> EntryFits(s.eng, Entry(i, s.readers[i].item)))
    && s.eng.packetsCaptured == DataEntries(s.eng.log)
  }

  function One(b: bool): nat {
    if b then 1 else 0
  }

  /** The books of source i: nothing it delivered is unaccounted for at the queue's entrance, nor at its
      other end, and the counters say what the histories say. */
  ghost predicate Balanced(o: Options, s: System, i: nat)
    requires i < |s.readers| && i < |s.eng.srcs|
  {
    var r, src := s.readers[i], s.eng.srcs[i];
    && |Of(s.delivered, i)| == |Of(s.accepted, i)| + |Of(s.refused, i)| + |Of(s.skipped, i)| + One(r.Checked?)
    && |Of(s.dequeued, i)| == |Of(s.eng.log, i)| + |Of(s.failed, i)| + |Of(s.flushed, i)| + One(HeldFrom(s, i))
    && src.received == |Of(s.accepted, i)| - One(r.Accepted?)
    && src.dropped == |Of(s.refused, i)| - One(r.Refused?) + |Of(s.failed, i)|
    && src.flushed == |Of(s.skipped, i)| + |Of(s.flushed, i)|
  }

  predicate HeldFrom(s: System, i: nat) {
    (s.writer.Holding? || s.writer.HoldingLast?) && s.writer.e.src == i
  }

  /** What was accepted from source i is a subsequence of what it delivered. */
  ghost predicate InOrder(s: System, i: nat)
    requires i < |s.readers|
  {
    var a, d := Of(s.accepted, i), Of(s.delivered, i);
    if s.readers[i].Checked? then d != [] && d[|d| - 1] == s.readers[i].item && Sub(a, d[..|d| - 1]) else Sub(a, d)
  }

  ghost predicate Books(o: Options, s: System)
    requires |s.readers| == |s.eng.srcs|
  {
    forall i :: 0 <= i < |s.readers| ==> Balanced(o, s, i) && InOrder(s, i)
  }

  ghost predicate Sound(o: Options, l: QueueLimits, s: System) {
    Phases(s) && Fifo(l, s) && Books(o, s)
  }

  // ---- Every step keeps it

  lemma ArriveSound(o: Options, l: QueueLimits, s: System, i: nat, item: Item)
    requires Sound(o, l, s) && i < |s.readers| && s.readers[i].Reading? && EntryFits(s.eng, Entry(i, item))
    ensures Sound(o, l, DoArrive(s, i, item))
  {
    hide Books, Fifo, DataEntries;
    ArriveFifo(l, s, i, item);
    ArriveBooks(o, s, i, item);
  }

  lemma ArriveFifo(l: QueueLimits, s: System, i: nat, item: Item)
    requires Fifo(l, s) && i < |s.readers| && i < |s.eng.srcs|
    ensures Fifo(l, DoArrive(s, i, item))
  {
    hide Sub, Bounded, Length;
  }

  /** The books of source i are the same. */
  ghost predicate SameBook(s: System, s': System, i: nat)
    requires i < |s.readers| && i < |s'.readers| && i < |s.eng.srcs| && i < |s'.eng.srcs|
  {
    && s'.readers[i] == s.readers[i] && SameCounts(s.eng.srcs[i], s'.eng.srcs[i])
    && HeldFrom(s', i) == HeldFrom(s, i) && Of(s'.eng.log, i) == Of(s.eng.log, i)
    && Of(s'.delivered, i) == Of(s.delivered, i) && Of(s'.accepted, i) == Of(s.accepted, i)
    && Of(s'.refused, i) == Of(s.refused, i) && Of(s'.skipped, i) == Of(s.skipped, i)
    && Of(s'.dequeued, i) == Of(s.dequeued, i)
    && Of(s'.failed, i) == Of(s.failed, i) && Of(s'.flushed, i) == Of(s.flushed, i)
  }

  lemma BookFrame(o: Options, s: System, s': System, i: nat)
    requires i < |s.readers| && i < |s'.readers| && i < |s.eng.srcs| && i < |s'.eng.srcs|
    requires Balanced(o, s, i) && InOrder(s, i) && SameBook(s, s', i)
    ensures Balanced(o, s', i) && InOrder(s', i)
  {
    hide Of, Sub, HeldFrom;
  }

  lemma ArriveBooks(o: Options, s: System, i: nat, item: Item)
    requires |s.readers| == |s.eng.srcs| && Books(o, s) && i < |s.readers| && s.readers[i].Reading?
    ensures Books(o, DoArrive(s, i, item))
  {
    hide Books, Length, Balanced, InOrder, Of;
    var s' := DoArrive(s, i, item);
    forall h | 0 <= h < |s'.readers|
      ensures Balanced(o, s', h) && InOrder(s', h)
    {
      BookOf(o, s, h);
      if h == i {
        ArriveOwn(o, s, i, item);
      } else {
        OfSnoc(s.delivered, Entry(i, item), h);
        OfSnoc(s.skipped, Entry(i, item), h);
        OfSnoc(s.refused, Entry(i, item), h);
        BookFrame(o, s, s', h);
      }
    }
    Rebound(o, s');
  }

  lemma {:induction false} ArriveOwn(o: Options, s: System, i: nat, item: Item)
    requires i < |s.readers| == |s.eng.srcs| && Balanced(o, s, i) && InOrder(s, i) && s.readers[i].Reading?
    ensures Balanced(o, DoArrive(s, i, item), i) && InOrder(DoArrive(s, i, item), i)
  {
    hide Of, Sub, Length;
    OfSnoc(s.delivered, Entry(i, item), i);
    OfSnoc(s.skipped, Entry(i, item), i);
    OfSnoc(s.refused, Entry(i, item), i);
    var d := Of(s.delivered, i);
    assert (d + [item])[..|d|] == d;
    SubSkip(Of(s.accepted, i), d, item);
  }

  lemma EnqueueSound(o: Options, l: QueueLimits, s: System, i: nat)
    requires Sound(o, l, s) && i < |s.readers| && s.readers[i].Checked?
    ensures Sound(o, l, DoEnqueue(l, s, i, s.readers[i].item))
  {
    hide Fifo, Books, DataEntries;
    EnqueueFifo(l, s, i);
    EnqueueBooks(o, l, s, i);
  }

  lemma EnqueueFifo(l: QueueLimits, s: System, i: nat)
    requires Phases(s) && Fifo(l, s) && i < |s.readers| && s.readers[i].Checked?
    ensures Fifo(l, DoEnqueue(l, s, i, s.readers[i].item))
  {
    hide Sub, Bounded, DataEntries;
    var s', e := DoEnqueue(l, s, i, s.readers[i].item), Entry(i, s.readers[i].item);
    if HasRoom(l, s.queue) {
      PushKeepsBounds(l, s.queue, e);
      assert s'.accepted == s.dequeued + s'.queue.elems;
    }
  }

  lemma EnqueueBooks(o: Options, l: QueueLimits, s: System, i: nat)
    requires |s.readers| == |s.eng.srcs| && Books(o, s) && i < |s.readers| && s.readers[i].Checked?
    ensures Books(o, DoEnqueue(l, s, i, s.readers[i].item))
  {
    hide Books, Balanced, InOrder, Of, HasRoom, Push;
    var s', e := DoEnqueue(l, s, i, s.readers[i].item), Entry(i, s.readers[i].item);
    forall h | 0 <= h < |s'.readers|
      ensures Balanced(o, s', h) && InOrder(s', h)
    {
      BookOf(o, s, h);
      if h == i {
        EnqueueOwn(o, l, s, i);
      } else {
        OfSnoc(s.accepted, e, h);
        OfSnoc(s.refused, e, h);
        BookFrame(o, s, s', h);
      }
    }
    Rebound(o, s');
  }

  lemma EnqueueOwn(o: Options, l: QueueLimits, s: System, i: nat)
    requires i < |s.readers| == |s.eng.srcs| && Balanced(o, s, i) && InOrder(s, i) && s.readers[i].Checked?
    ensures var s' := DoEnqueue(l, s, i, s.readers[i].item);
            Balanced(o, s', i) && InOrder(s', i)
  {
    hide Of, Sub, HasRoom, Push, InOrder;
    var e := Entry(i, s.readers[i].item);
    OfSnoc(s.accepted, e, i);
    OfSnoc(s.refused, e, i);
    EnqueueOrder(l, s, i);
  }

  lemma EnqueueOrder(l: QueueLimits, s: System, i: nat)
    requires i < |s.readers| && InOrder(s, i) && s.readers[i].Checked?
    ensures InOrder(DoEnqueue(l, s, i, s.readers[i].item), i)
  {
    hide Of, Sub, HasRoom, Push;
    var x := s.readers[i].item;
    OfSnoc(s.accepted, Entry(i, x), i);
    var a, d := Of(s.accepted, i), Of(s.delivered, i);
    assert d == d[..|d| - 1] + [x];
    SubSkip(a, d[..|d| - 1], x);
    SubTake(a, d[..|d| - 1], x);
  }

  lemma CountSound(o: Options, l: QueueLimits, s: System, i: nat)
    requires Sound(o, l, s) && i < |s.readers| && (s.readers[i].Accepted? || s.readers[i].Refused?)
    ensures Sound(o, l, DoCount(s, i))
  {
    hide Of, DataEntries, Sub, Bounded;
    var s' := DoCount(s, i);
    forall h | 0 <= h < |s'.readers|
      ensures Balanced(o, s', h) && InOrder(s', h)
    {
      assert Balanced(o, s, h) && InOrder(s, h);
    }
  }

  lemma EndSound(o: Options, l: QueueLimits, s: System, i: nat)
    requires Sound(o, l, s) && i < |s.readers| && s.readers[i].Reading?
    ensures Sound(o, l, s.(readers := s.readers[i := Exited]))
  {
    hide Of, DataEntries, Sub, Bounded;
    var s' := s.(readers := s.readers[i := Exited]);
    forall h | 0 <= h < |s'.readers|
      ensures Balanced(o, s', h) && InOrder(s', h)
    {
      assert Balanced(o, s, h) && InOrder(s, h);
    }
  }

  lemma TakeSound(o: Options, l: QueueLimits, s: System)
    requires Sound(o, l, s) && s.queue.elems != [] && (s.writer.Looping? || s.writer.Draining?)
    ensures Sound(o, l, DoTake(s))
  {
    hide Fifo, Books, DataEntries;
    TakeFifo(l, s);
    TakeBooks(o, s);
  }

  lemma TakeFifo(l: QueueLimits, s: System)
    requires Fifo(l, s) && s.queue.elems != [] && (s.writer.Looping? || s.writer.Draining?)
    ensures Fifo(l, DoTake(s))
  {
    hide Sub, Bounded;
    var s', e := DoTake(s), s.queue.elems[0];
    PopKeepsBounds(l, s.queue);
    assert s.queue.elems == [e] + s'.queue.elems;
    assert Handled(s') == s.dequeued;
  }

  lemma TakeBooks(o: Options, s: System)
    requires |s.readers| == |s.eng.srcs| && Books(o, s)
    requires s.queue.elems != [] && (s.writer.Looping? || s.writer.Draining?)
    ensures Books(o, DoTake(s))
  {
    hide Of, Sub, Books, Pop;
    forall h | 0 <= h < |s.readers|
      ensures Balanced(o, DoTake(s), h) && InOrder(DoTake(s), h)
    {
      BookOf(o, s, h);
      OfSnoc(s.dequeued, s.queue.elems[0], h);
    }
    Rebound(o, DoTake(s));
  }

  /** The element the writer holds was accepted, so that it fits its source. */
  lemma HeldFits(l: QueueLimits, s: System)
    requires Fifo(l, s) && (s.writer.Holding? || s.writer.HoldingLast?)
    ensures EntryFits(s.eng, s.writer.e) && s.dequeued == Handled(s) + [s.writer.e]
  {
    hide Sub, Bounded, EntryFits;
    assert s.accepted[|s.dequeued| - 1] == s.writer.e;
    assert s.writer.e in s.accepted;
  }

  /** The write callback settles the element it is given. */
  lemma WriteSound(o: Options, l: QueueLimits, s: System, io: Io)
    requires Sound(o, l, s) && Alive(s.eng) && o.useThreads && (s.writer.Holding? || s.writer.HoldingLast?)
    ensures Sound(o, l, DoWrite(o, s, s.writer.e, io))
  {
    hide Fifo, Books, Bounded, Step, Settled, FateOf;
    var s', e := DoWrite(o, s, s.writer.e, io), s.writer.e;
    HeldFits(l, s);
    DeliveryOutcome(o, s.eng, e.src, e.item, io);
    WriteFifo(o, l, s, e, s');
    WritePhases(o, s, e, s');
    WriteBooks(o, s, e, s');
  }

  /** The shape of the state after a write callback. */
  ghost predicate Wrote(s: System, e: Entry, s': System) {
    && (s.writer.Holding? || s.writer.HoldingLast?) && s.writer.e == e
    && s' == s.(eng := s'.eng, writer := s'.writer, failed := s'.failed, flushed := s'.flushed)
    && s'.writer == (if s'.eng.aborted then s.writer else if s.writer.Holding? then Looping else Draining)
    && var fate := FateOf(s.eng, s'.eng);
       && s'.failed == (if !s'.eng.aborted && fate.Dropped? then s.failed + [e] else s.failed)
       && s'.flushed == (if !s'.eng.aborted && fate.Skipped? then s.flushed + [e] else s.flushed)
  }

  lemma {:induction false} LogAfter(o: Options, s: State, r: State, i: nat, item: Item)
    requires i < |s.srcs| && Settled(o, s, r, i, item) && Alive(s)
    ensures r.log == s.log || (r.log == s.log + [Entry(i, item)] && !r.aborted)
    ensures forall e :: EntryFits(s, e) ==> EntryFits(r, e)
  {
    hide IsData;
    FitsStill(s, r, i);
  }

  lemma {:induction false} WriteFifo(o: Options, l: QueueLimits, s: System, e: Entry, s': System)
    requires Fifo(l, s) && Wrote(s, e, s') && EntryFits(s.eng, e) && Alive(s.eng) && s.dequeued == Handled(s) + [e]
    requires Settled(o, s.eng, s'.eng, e.src, e.item)
    ensures Fifo(l, s')
  {
    hide Sub, Bounded, Settled, FateOf, OthersSame, SameCounts;
    LogAfter(o, s.eng, s'.eng, e.src, e.item);
    assert e == Entry(e.src, e.item);
    SubSkip(s.eng.log, Handled(s), e);
    SubTake(s.eng.log, Handled(s), e);
  }

  lemma WritePhases(o: Options, s: System, e: Entry, s': System)
    requires Phases(s) && Wrote(s, e, s') && EntryFits(s.eng, e) && Alive(s.eng)
    requires Settled(o, s.eng, s'.eng, e.src, e.item)
    ensures Phases(s')
  {
    hide DataEntries, IsData;
    FitsStill(s.eng, s'.eng, e.src);
    DataSnoc(s.eng.log, e);
  }

  lemma WriteBooks(o: Options, s: System, e: Entry, s': System)
    requires |s.readers| == |s.eng.srcs| && Books(o, s) && Wrote(s, e, s') && EntryFits(s.eng, e) && Alive(s.eng)
    requires Settled(o, s.eng, s'.eng, e.src, e.item) && o.useThreads
    ensures |s'.readers| == |s'.eng.srcs| && Books(o, s')
  {
    hide Of, IsData, Books, Balanced, InOrder;
    forall h | 0 <= h < |s'.readers|
      ensures Balanced(o, s', h) && InOrder(s', h)
    {
      BookOf(o, s, h);
      if h == e.src {
        WriteOwn(o, s, e, s');
      } else {
        OfSnoc(s.eng.log, e, h);
        OfSnoc(s.failed, e, h);
        OfSnoc(s.flushed, e, h);
        BookFrame(o, s, s', h);
      }
    }
    Rebound(o, s');
  }

  lemma WriteOwn(o: Options, s: System, e: Entry, s': System)
    requires e.src < |s.readers| == |s.eng.srcs| && Wrote(s, e, s') && Alive(s.eng)
    requires Balanced(o, s, e.src) && InOrder(s, e.src)
    requires Settled(o, s.eng, s'.eng, e.src, e.item) && o.useThreads
    ensures e.src < |s'.eng.srcs| && Balanced(o, s', e.src) && InOrder(s', e.src)
  {
    hide Of, IsData, Sub;
    OfSnoc(s.eng.log, e, e.src);
    OfSnoc(s.failed, e, e.src);
    OfSnoc(s.flushed, e, e.src);
  }

  lemma BookOf(o: Options, s: System, i: nat)
    requires |s.readers| == |s.eng.srcs| && Books(o, s) && i < |s.readers|
    ensures Balanced(o, s, i) && InOrder(s, i)
  {
  }

  lemma Rebound(o: Options, s: System)
    requires |s.readers| == |s.eng.srcs|
    requires forall i :: 0 <= i < |s.readers| ==> Balanced(o, s, i) && InOrder(s, i)
    ensures Books(o, s)
  {
  }

  /** What fits the sources fits them after a step. */
  lemma FitsStill(s: State, r: State, i: nat)
    requires OthersSame(s, r, i) && i < |s.srcs| && r.srcs[i].fromPcapng == s.srcs[i].fromPcapng
    ensures forall e :: EntryFits(s, e) ==> EntryFits(r, e)
  {
  }

  lemma LookSound(o: Options, l: QueueLimits, s: System, e: Event)
    requires Sound(o, l, s) && !e.Deliver? && !e.ShbSeen? && (s.writer.Looping? || e.StopRequest?)
    ensures Sound(o, l, s.(eng := Step(o, s.eng, e)))
  {
    hide Of, DataEntries, Sub, Bounded, Step;
    OtherOutcome(o, s.eng, e);
    var s' := s.(eng := Step(o, s.eng, e));
    forall h | 0 <= h < |s'.readers|
      ensures Balanced(o, s', h) && InOrder(s', h)
    {
      assert Balanced(o, s, h) && InOrder(s, h);
    }
  }

  lemma SeeSound(o: Options, l: QueueLimits, s: System, i: nat, swapped: bool)
    requires Sound(o, l, s)
    ensures Sound(o, l, s.(eng := Step(o, s.eng, ShbSeen(i, swapped))))
  {
    hide Of, DataEntries, Sub, Bounded, Step, Books, Fifo;
    SeenOutcome(o, s.eng, ShbSeen(i, swapped));
    var s' := s.(eng := Step(o, s.eng, ShbSeen(i, swapped)));
    SeeFifo(l, s, s');
    forall h | 0 <= h < |s'.readers|
      ensures Balanced(o, s', h) && InOrder(s', h)
    {
      BookOf(o, s, h);
      BookFrame(o, s, s', h);
    }
    Rebound(o, s');
  }

  lemma SeeFifo(l: QueueLimits, s: System, s': System)
    requires Fifo(l, s) && s' == s.(eng := s'.eng) && s'.eng == s.eng.(srcs := s'.eng.srcs)
    requires |s'.eng.srcs| == |s.eng.srcs|
    requires forall i :: 0 <= i < |s.eng.srcs| ==> s'.eng.srcs[i].fromPcapng == s.eng.srcs[i].fromPcapng
    ensures Fifo(l, s')
  {
    hide Sub, Bounded;
  }

  lemma LeaveSound(o: Options, l: QueueLimits, s: System)
    requires Sound(o, l, s)
    ensures Sound(o, l, DoLeave(s))
  {
    hide Of, DataEntries, Sub, Bounded;
    var s' := DoLeave(s);
    forall h | 0 <= h < |s'.readers|
      ensures Balanced(o, s', h) && InOrder(s', h)
    {
      assert Balanced(o, s, h) && InOrder(s, h);
    }
  }

  lemma StepSound(o: Options, l: QueueLimits, s: System, a: Action)
    requires Sound(o, l, s) && o.useThreads
    ensures Sound(o, l, SystemStep(o, l, s, a))
  {
    hide Sound, DoArrive, DoEnqueue, DoCount, DoTake, DoWrite, DoLeave, Step;
    if Alive(s.eng) {
      ShapeOf(o, l, s);
      match a
      case Arrive(i, item) =>
        if i < |s.readers| && s.readers[i].Reading? && EntryFits(s.eng, Entry(i, item)) { ArriveSound(o, l, s, i, item); }
      case Enqueue(i) => if i < |s.readers| && s.readers[i].Checked? { EnqueueSound(o, l, s, i); }
      case Count(i) =>
        if i < |s.readers| && (s.readers[i].Accepted? || s.readers[i].Refused?) { CountSound(o, l, s, i); }
      case End(i) => if i < |s.readers| && s.readers[i].Reading? { EndSound(o, l, s, i); }
      case See(i, swapped) => if i < |s.readers| && s.readers[i].Reading? { SeeSound(o, l, s, i, swapped); }
      case Take => if s.queue.elems != [] && (s.writer.Looping? || s.writer.Draining?) { TakeSound(o, l, s); }
      case Write(io) => if s.writer.Holding? || s.writer.HoldingLast? { WriteSound(o, l, s, io); }
      case Look(t, io, io') => if s.writer.Looping? { LookSound(o, l, s, TimersLooked(t, io, io')); }
      case Interrupt =>
        StopStep(o, s.eng);
        LookSound(o, l, s, StopRequest);
      case Leave => LeaveSound(o, l, s);
    }
  }

  lemma ShapeOf(o: Options, l: QueueLimits, s: System)
    requires Sound(o, l, s)
    ensures |s.readers| == |s.eng.srcs| && s.eng.files != []
  {
  }

  lemma StopStep(o: Options, s: State)
    requires Alive(s) && s.files != []
    ensures Step(o, s, StopRequest) == Stop(s)
  {
  }

  lemma {:induction false} RunSound(o: Options, l: QueueLimits, s: System, acts: seq<Action>)
    requires Sound(o, l, s) && o.useThreads
    ensures Sound(o, l, SystemRun(o, l, s, acts))
  {
    hide Sound, SystemStep;
    if acts != [] {
      RunSound(o, l, s, acts[..|acts| - 1]);
      StepSound(o, l, SystemRun(o, l, s, acts[..|acts| - 1]), acts[|acts| - 1]);
    }
  }

  lemma CreatedSound(o: Options, l: QueueLimits, pcapng: seq<bool>, io: Io)
    requires OptionsFit(o, pcapng) && Started(o, pcapng, io).1
    ensures Sound(o, l, Created(Started(o, pcapng, io).0))
    ensures |Started(o, pcapng, io).0.srcs| == |pcapng|
  {
    hide Started;
    StartAccounted(o, pcapng, io);
    var s := Created(Started(o, pcapng, io).0);
    forall i | 0 <= i < |s.readers|
      ensures Balanced(o, s, i) && InOrder(s, i)
    {
    }
  }

  // ---- Theorems over all interleavings

  /** The states of a threaded capture. */
  function Threaded(o: Options, l: QueueLimits, pcapng: seq<bool>, io: Io, acts: seq<Action>): System {
    SystemRun(o, l, Created(Started(o, pcapng, io).0), acts)
  }

  lemma ThreadedSound(o: Options, l: QueueLimits, pcapng: seq<bool>, io: Io, acts: seq<Action>)
    requires OptionsFit(o, pcapng) && Started(o, pcapng, io).1 && o.useThreads
    ensures Sound(o, l, Threaded(o, l, pcapng, io, acts)) && |Threaded(o, l, pcapng, io, acts).readers| == |pcapng|
  {
    hide Started, Sound;
    CreatedSound(o, l, pcapng, io);
    RunSound(o, l, Created(Started(o, pcapng, io).0), acts);
    SameThreads(o, l, Created(Started(o, pcapng, io).0), acts);
  }

  lemma {:induction false} SameThreads(o: Options, l: QueueLimits, s: System, acts: seq<Action>)
    ensures |SystemRun(o, l, s, acts).readers| == |s.readers|
  {
    if acts != [] {
      SameThreads(o, l, s, acts[..|acts| - 1]);
    }
  }

  /** At every point of every interleaving the queue's counts are exact, it holds no more packets than the
      limit, and it exceeds the byte limit by less than the element queued last. */
  lemma QueueBounded(o: Options, l: QueueLimits, pcapng: seq<bool>, io: Io, acts: seq<Action>)
    requires OptionsFit(o, pcapng) && Started(o, pcapng, io).1 && o.useThreads
    ensures var q := Threaded(o, l, pcapng, io, acts).queue;
            && q.bytes == TotalLength(q.elems) && q.packets == |q.elems|
            && (l.packets > 0 ==> q.packets <= l.packets)
            && (l.bytes > 0 && q.elems != [] ==> q.bytes <= l.bytes - 1 + Length(q.elems[|q.elems| - 1].item))
  {
    hide Threaded, Started, Phases, Books, Sub;
    ThreadedSound(o, l, pcapng, io, acts);
  }

  // ---- The entrance of the queue

  /** What a step does at the entrance: an item is skipped only after the stop, and refused only because it
      is empty or because the elements in the queue have reached a limit. */
  lemma {:induction false} Entrance(o: Options, l: QueueLimits, s: System, a: Action)
    requires Sound(o, l, s) && Alive(s.eng)
    ensures var r := SystemStep(o, l, s, a);
            if a.Arrive? && a.src < |s.readers| && s.readers[a.src].Reading? && EntryFits(s.eng, Entry(a.src, a.item)) then
              var e := Entry(a.src, a.item);
              && r.accepted == s.accepted && r.queue == s.queue
              && r.skipped == (if s.eng.go then s.skipped else s.skipped + [e])
              && r.refused == (if s.eng.go && Length(a.item) == 0 then s.refused + [e] else s.refused)
              && r.readers[a.src] == (if s.eng.go && Length(a.item) > 0 then Checked(a.item) else Reading)
            else if a.Enqueue? && a.src < |s.readers| && s.readers[a.src].Checked? then
              var e, full := Entry(a.src, s.readers[a.src].item), Full(l, s.queue.elems);
              && r.skipped == s.skipped
              && r.refused == (if full then s.refused + [e] else s.refused)
              && r.accepted == (if full then s.accepted else s.accepted + [e])
              && r.queue.elems == (if full then s.queue.elems else s.queue.elems + [e])
              && r.readers[a.src] == if full then Refused else Accepted
            else r.accepted == s.accepted && r.refused == s.refused && r.skipped == s.skipped
  {
    hide Books, Step, HasRoom, Length, Full, EntryFits;
    RoomUnlessFull(l, s.queue);
  }

  lemma Halted(o: Options, l: QueueLimits, s: System, a: Action)
    requires !Alive(s.eng)
    ensures SystemStep(o, l, s, a) == s
  {
  }

  /** The k-th refusal happened at step n of the run, when the elements in the queue had reached a limit. */
  ghost predicate FullAt(o: Options, l: QueueLimits, s: System, acts: seq<Action>, n: nat, k: nat) {
    && n < |acts| && acts[n].Enqueue? && |SystemRun(o, l, s, acts[..n]).refused| == k
    && Full(l, SystemRun(o, l, s, acts[..n]).queue.elems)
  }

  lemma {:induction false} RefusalsOf(o: Options, l: QueueLimits, s: System, acts: seq<Action>, k: nat)
    requires Sound(o, l, s) && o.useThreads && s.refused == []
    requires k < |SystemRun(o, l, s, acts).refused| && Length(SystemRun(o, l, s, acts).refused[k].item) > 0
    ensures exists n: nat :: FullAt(o, l, s, acts, n, k)
  {
    hide Sound, SystemStep, Length, Full;
    if acts != [] {
      var before, a, m := acts[..|acts| - 1], acts[|acts| - 1], |acts| - 1;
      var r := SystemRun(o, l, s, before);
      RunSound(o, l, s, before);
      if Alive(r.eng) {
        Entrance(o, l, r, a);
      } else {
        Halted(o, l, r, a);
      }
      if k < |r.refused| {
        RefusalsOf(o, l, s, before, k);
        var n: nat :| FullAt(o, l, s, before, n, k);
        assert acts[..n] == before[..n];
        assert FullAt(o, l, s, acts, n, k);
      } else {
        assert FullAt(o, l, s, acts, m, k);
      }
    }
  }

  /** Under every interleaving, an item that is not empty is refused at the queue's entrance only when the
      elements in the queue have reached the byte limit or the packet limit. */
  lemma {:induction false} RefusedOnlyWhenFull(o: Options, l: QueueLimits, pcapng: seq<bool>, io: Io, acts: seq<Action>, k: nat)
    requires OptionsFit(o, pcapng) && Started(o, pcapng, io).1 && o.useThreads
    requires k < |Threaded(o, l, pcapng, io, acts).refused|
    requires Length(Threaded(o, l, pcapng, io, acts).refused[k].item) > 0
    ensures exists n: nat :: n < |acts| && acts[n].Enqueue? &&
              var q := Threaded(o, l, pcapng, io, acts[..n]).queue.elems;
              |Threaded(o, l, pcapng, io, acts[..n]).refused| == k
              && ((l.bytes > 0 && TotalLength(q) >= l.bytes) || (l.packets > 0 && |q| >= l.packets))
  {
    hide Started, Sound, SystemRun, TotalLength, Length;
    CreatedSound(o, l, pcapng, io);
    var s := Created(Started(o, pcapng, io).0);
    RefusalsOf(o, l, s, acts, k);
    var n: nat :| FullAt(o, l, s, acts, n, k);
    assert Threaded(o, l, pcapng, io, acts[..n]) == SystemRun(o, l, s, acts[..n]);
  }

  /** Without limits nothing is refused but empty packets. */
  lemma {:induction false} UnlimitedRefusesNothing(o: Options, l: QueueLimits, pcapng: seq<bool>, io: Io, acts: seq<Action>, k: nat)
    requires OptionsFit(o, pcapng) && Started(o, pcapng, io).1 && o.useThreads && l.bytes == l.packets == 0
    requires k < |Threaded(o, l, pcapng, io, acts).refused|
    ensures Length(Threaded(o, l, pcapng, io, acts).refused[k].item) == 0
  {
    hide Started, Threaded, Length;
    if Length(Threaded(o, l, pcapng, io, acts).refused[k].item) > 0 {
      RefusedOnlyWhenFull(o, l, pcapng, io, acts, k);
    }
  }

  /** While the capture goes on, what the write callback was given has taken effect, and nothing was skipped. */
  ghost predicate Lossless(s: System) {
    s.eng.go && Alive(s.eng) ==> s.skipped == [] && s.failed == [] && s.flushed == [] && s.eng.log == Handled(s)
  }

  lemma {:induction false} StepLossless(o: Options, l: QueueLimits, s: System, a: Action)
    requires Sound(o, l, s) && Lossless(s) && o.useThreads
    ensures Lossless(SystemStep(o, l, s, a))
  {
    hide Books, Step, Settled, HasRoom, Length, Push, Sub, Bounded, DataEntries;
    if !Alive(s.eng) {
      Halted(o, l, s, a);
    } else if a.Write? && (s.writer.Holding? || s.writer.HoldingLast?) {
      var e := s.writer.e;
      HeldFits(l, s);
      DeliveryOutcome(o, s.eng, e.src, e.item, a.io);
      WriteLossless(o, s, e, a.io);
    } else if a.See? {
      SeenOutcome(o, s.eng, ShbSeen(a.src, a.swapped));
    } else if a.Look? {
      OtherOutcome(o, s.eng, TimersLooked(a.timers, a.io, a.io'));
    }
  }

  lemma {:induction false} WriteLossless(o: Options, s: System, e: Entry, io: Io)
    requires Lossless(s) && Alive(s.eng) && (s.writer.Holding? || s.writer.HoldingLast?) && s.writer.e == e
    requires EntryFits(s.eng, e) && s.dequeued == Handled(s) + [e]
    requires Settled(o, s.eng, Step(o, s.eng, Deliver(e.src, e.item, io)), e.src, e.item)
    ensures Lossless(DoWrite(o, s, e, io))
  {
    hide Step, IsData, EntryFits;
  }

  lemma {:induction false} RunLossless(o: Options, l: QueueLimits, s: System, acts: seq<Action>)
    requires Sound(o, l, s) && Lossless(s) && o.useThreads
    ensures Lossless(SystemRun(o, l, s, acts))
  {
    hide Sound, SystemStep, Lossless;
    if acts != [] {
      RunLossless(o, l, s, acts[..|acts| - 1]);
      RunSound(o, l, s, acts[..|acts| - 1]);
      StepLossless(o, l, SystemRun(o, l, s, acts[..|acts| - 1]), acts[|acts| - 1]);
    }
  }

  /** The element the writer holds. */
  function Held(s: System): seq<Entry> {
    if s.writer.Holding? || s.writer.HoldingLast? then [s.writer.e] else []
  }

  /** As long as nobody stops the capture: what took effect, what the writer holds and what is queued are, in
      order, all that was accepted; and a source of which nothing was refused has lost nothing, apart from the
      item its reader is about to queue. */
  lemma {:induction false} NothingLostWhileCapturing(o: Options, l: QueueLimits, pcapng: seq<bool>, io: Io,
                                                     acts: seq<Action>, i: nat)
    requires OptionsFit(o, pcapng) && Started(o, pcapng, io).1 && o.useThreads && i < |pcapng|
    requires var s := Threaded(o, l, pcapng, io, acts).eng; s.go && Alive(s)
    ensures var s := Threaded(o, l, pcapng, io, acts);
            && i < |s.readers| && s.accepted == s.eng.log + Held(s) + s.queue.elems && s.skipped == []
            && (Of(s.refused, i) == [] ==>
                  Of(s.delivered, i) == Of(s.accepted, i) + if s.readers[i].Checked? then [s.readers[i].item] else [])
  {
    hide Started, Threaded, Of, Sub, EntryFits, DataEntries, Bounded, SystemRun;
    CreatedSound(o, l, pcapng, io);
    var s := Threaded(o, l, pcapng, io, acts);
    ThreadedSound(o, l, pcapng, io, acts);
    ThreadedLossless(o, l, pcapng, io, acts);
    assert Balanced(o, s, i) && InOrder(s, i);
    NoneOf(i);
    var a, d := Of(s.accepted, i), Of(s.delivered, i);
    if s.readers[i].Checked? {
      SubIsShorter(a, d[..|d| - 1]);
      assert d == d[..|d| - 1] + [d[|d| - 1]];
    } else {
      SubIsShorter(a, d);
    }
  }

  lemma NoneOf(i: nat)
    ensures Of([], i) == []
  {
  }

  lemma ThreadedLossless(o: Options, l: QueueLimits, pcapng: seq<bool>, io: Io, acts: seq<Action>)
    requires OptionsFit(o, pcapng) && Started(o, pcapng, io).1 && o.useThreads
    ensures Lossless(Threaded(o, l, pcapng, io, acts))
  {
    hide Started, Sound;
    CreatedSound(o, l, pcapng, io);
    StartAccounted(o, pcapng, io);
    RunLossless(o, l, Created(Started(o, pcapng, io).0), acts);
  }

  /** After the stop, the write callback writes nothing. */
  lemma {:induction false} StoppedSystem(o: Options, l: QueueLimits, s: System, a: Action)
    requires Sound(o, l, s) && !s.eng.go
    ensures var r := SystemStep(o, l, s, a).eng; !r.go && r.log == s.eng.log
  {
    hide Books, Fifo, Step, HasRoom, Length, EntryFits, Push;
    ShapeOf(o, l, s);
    match a
    case Write(io) =>
      if s.writer.Holding? || s.writer.HoldingLast? {
        StoppedStep(o, s.eng, Deliver(s.writer.e.src, s.writer.e.item, io));
      }
    case Look(t, io, io') => StoppedStep(o, s.eng, TimersLooked(t, io, io'));
    case See(i, swapped) => StoppedStep(o, s.eng, ShbSeen(i, swapped));
    case _ =>
  }

  lemma {:induction false} StoppedSystemRun(o: Options, l: QueueLimits, s: System, acts: seq<Action>)
    requires Sound(o, l, s) && !s.eng.go && o.useThreads
    ensures var r := SystemRun(o, l, s, acts).eng; !r.go && r.log == s.eng.log
  {
    hide Sound, SystemStep;
    if acts != [] {
      var before := acts[..|acts| - 1];
      StoppedSystemRun(o, l, s, before);
      RunSound(o, l, s, before);
      StoppedSystem(o, l, SystemRun(o, l, s, before), acts[|acts| - 1]);
    }
  }

  lemma {:induction false} SystemRunOn(o: Options, l: QueueLimits, s: System, before: seq<Action>, later: seq<Action>)
    ensures SystemRun(o, l, s, before + later) == SystemRun(o, l, SystemRun(o, l, s, before), later)
    decreases |later|
  {
    hide SystemStep;
    if later == [] {
      assert before + later == before;
    } else {
      var n := |later| - 1;
      SystemRunOn(o, l, s, before, later[..n]);
      assert (before + later)[..|before| + n] == before + later[..n];
    }
  }

  /** Once anyone has stopped the capture, nothing more takes effect under any interleaving, not even what is in
      the queue or in the writer's hands. */
  lemma {:induction false} InterruptEnds(o: Options, l: QueueLimits, pcapng: seq<bool>, io: Io,
                                         before: seq<Action>, later: seq<Action>)
    requires OptionsFit(o, pcapng) && Started(o, pcapng, io).1 && o.useThreads
    requires Alive(Threaded(o, l, pcapng, io, before).eng)
    ensures var s, r := Threaded(o, l, pcapng, io, before), Threaded(o, l, pcapng, io, before + [Interrupt] + later);
            !r.eng.go && r.eng.log == s.eng.log
  {
    hide Started, Sound, DoArrive, DoEnqueue, DoCount, DoTake, DoWrite, DoLeave, Step;
    var s0 := Created(Started(o, pcapng, io).0);
    CreatedSound(o, l, pcapng, io);
    SystemRunOn(o, l, s0, before + [Interrupt], later);
    assert (before + [Interrupt])[..|before|] == before;
    RunSound(o, l, s0, before);
    ShapeOf(o, l, SystemRun(o, l, s0, before));
    RunSound(o, l, s0, before + [Interrupt]);
    StoppedSystemRun(o, l, SystemRun(o, l, s0, before + [Interrupt]), later);
  }

  lemma {:induction false} OfConcat(a: seq<Entry>, b: seq<Entry>, i: nat)
    ensures Of(a + b, i) == Of(a, i) + Of(b, i)
    decreases |b|
  {
    if b == [] {
      assert a + b == a;
    } else {
      var n := |b| - 1;
      OfConcat(a, b[..n], i);
      assert a + b == (a + b[..n]) + [b[n]];
      OfSnoc(a + b[..n], b[n], i);
    }
  }

  /** A source's part of a subsequence is a subsequence of the source's part. */
  lemma {:induction false} SubOf(a: seq<Entry>, d: seq<Entry>, i: nat)
    requires Sub(a, d)
    ensures Sub(Of(a, i), Of(d, i))
    decreases |d|
  {
    if a != [] {
      var d', e := d[..|d| - 1], d[|d| - 1];
      if Sub(a, d') {
        SubOf(a, d', i);
        SubSkip(Of(a, i), Of(d', i), e.item);
      } else {
        SubOf(a[..|a| - 1], d', i);
        SubSkip(Of(a[..|a| - 1], i), Of(d', i), e.item);
        SubTake(Of(a[..|a| - 1], i), Of(d', i), e.item);
      }
    }
  }

  /** First in, first out: what was taken from a source's items is a prefix of those accepted, which are
      a subsequence of those delivered; and so are those that took effect. */
  lemma OrderKept(o: Options, l: QueueLimits, pcapng: seq<bool>, io: Io, acts: seq<Action>, i: nat)
    requires OptionsFit(o, pcapng) && Started(o, pcapng, io).1 && o.useThreads && i < |pcapng|
    ensures var s := Threaded(o, l, pcapng, io, acts);
            && Of(s.dequeued, i) <= Of(s.accepted, i)
            && Sub(Of(s.accepted, i), Of(s.delivered, i))
            && Sub(Of(s.eng.log, i), Of(s.delivered, i))
  {
    hide Threaded, Started, Of, Sub, Bounded, Balanced, EntryFits;
    ThreadedSound(o, l, pcapng, io, acts);
    var s := Threaded(o, l, pcapng, io, acts);
    assert InOrder(s, i);
    OfConcat(s.dequeued, s.queue.elems, i);
    var a, d := Of(s.accepted, i), Of(s.delivered, i);
    if s.readers[i].Checked? {
      assert d == d[..|d| - 1] + [d[|d| - 1]];
      SubSkip(a, d[..|d| - 1], d[|d| - 1]);
    }
    var h := Handled(s);
    assert s.accepted == h + s.accepted[|h|..];
    OfConcat(h, s.accepted[|h|..], i);
    SubOf(s.eng.log, h, i);
    SubAppend(Of(s.eng.log, i), Of(h, i), Of(s.accepted[|h|..], i));
    SubTrans(Of(s.eng.log, i), a, d);
  }

  /** When the readers have been joined and the queue has been drained, the queue is empty and the books of
      every source balance: deliveries = written + dropped + flushed, and received = written + dropped by
      the writer + flushed by the writer; the packets counted are the data items written. */
  lemma AllAccountedFor(o: Options, l: QueueLimits, pcapng: seq<bool>, io: Io, acts: seq<Action>, i: nat)
    requires OptionsFit(o, pcapng) && Started(o, pcapng, io).1 && o.useThreads && i < |pcapng|
    requires Threaded(o, l, pcapng, io, acts).writer.Done?
    ensures var s := Threaded(o, l, pcapng, io, acts);
            && i < |s.eng.srcs| && s.queue == EMPTY && AllExited(s) && !s.eng.go
            && var src, written := s.eng.srcs[i], |Of(s.eng.log, i)|;
            && |Of(s.delivered, i)| == written + src.dropped + src.flushed
            && src.received == written + |Of(s.failed, i)| + |Of(s.flushed, i)|
            && s.eng.packetsCaptured == DataEntries(s.eng.log)
  {
    hide Threaded, Started, Of, Sub, EntryFits, DataEntries;
    ThreadedSound(o, l, pcapng, io, acts);
    var s := Threaded(o, l, pcapng, io, acts);
    assert Balanced(o, s, i);
    assert s.accepted == s.dequeued;
  }

  // ---- The drain

  /** The moves the writer still has to make. */
  function DrainLeft(s: System): nat {
    match s.writer
    case Done => 0
    case HoldingLast(_) => 2 * |s.queue.elems| + 2
    case _ => 2 * |s.queue.elems| + 1
  }

  /** The writer's next move in the drain. */
  function DrainMove(s: System, io: Io): Action {
    if s.writer.HoldingLast? then Write(io) else if s.queue.elems != [] then Take else Leave
  }

  /** Whether an action is a move of the writer in the drain. */
  predicate IsDrainMove(s: System, a: Action) {
    if s.writer.HoldingLast? then a.Write? else if !s.writer.Draining? then false
    else if s.queue.elems != [] then a.Take? else a.Leave?
  }

  ghost predicate InDrain(s: System) {
    Alive(s.eng) && (s.writer.Draining? || s.writer.HoldingLast? || s.writer.Done?)
  }

  /** In the drain each move of the writer brings it one step closer to the end; until the end it has one;
      and nothing else changes what is left to do. */
  lemma {:induction false} DrainStep(o: Options, l: QueueLimits, s: System, a: Action, io: Io)
    requires Sound(o, l, s) && InDrain(s)
    ensures InDrain(SystemStep(o, l, s, a))
    ensures DrainLeft(SystemStep(o, l, s, a)) == DrainLeft(s) - One(IsDrainMove(s, a))
    ensures !s.writer.Done? ==> IsDrainMove(s, DrainMove(s, io))
  {
    hide Books, Fifo, Step, HasRoom, Length, EntryFits, Phases;
    DrainFacts(o, l, s);
    if a.Write? && s.writer.HoldingLast? {
      HeldFits(l, s);
      DrainWrite(o, s.eng, s.writer.e, a.io);
    } else if a.See? {
      SeenOutcome(o, s.eng, ShbSeen(a.src, a.swapped));
    } else if a.Interrupt? {
      StopStep(o, s.eng);
    }
  }

  lemma DrainFacts(o: Options, l: QueueLimits, s: System)
    requires Sound(o, l, s) && InDrain(s)
    ensures !s.eng.go && AllExited(s) && |s.readers| == |s.eng.srcs| && Healthy(s.eng) && Fifo(l, s)
    ensures s.writer.Done? ==> s.queue.elems == []
  {
    hide Books, Fifo;
  }

  /** After the stop, the write callback only flushes. */
  lemma {:induction false} DrainWrite(o: Options, s: State, e: Entry, io: Io)
    requires Healthy(s) && Alive(s) && !s.go && EntryFits(s, e)
    ensures Alive(Step(o, s, Deliver(e.src, e.item, io)))
  {
  }

  /** The moves of the writer among the actions. */
  function DrainMoves(o: Options, l: QueueLimits, s: System, acts: seq<Action>): nat {
    if acts == [] then 0
    else
      var before := acts[..|acts| - 1];
      DrainMoves(o, l, s, before) + One(IsDrainMove(SystemRun(o, l, s, before), acts[|acts| - 1]))
  }

  /** The drain ends: from the moment the writer has joined the readers, whatever else happens, exactly
      DrainLeft moves of the writer lead to the end, where the queue is empty. */
  lemma {:induction false} DrainEnds(o: Options, l: QueueLimits, s: System, acts: seq<Action>)
    requires Sound(o, l, s) && InDrain(s) && o.useThreads
    ensures var r, n := SystemRun(o, l, s, acts), DrainMoves(o, l, s, acts);
            && InDrain(r) && n <= DrainLeft(s) && DrainLeft(r) == DrainLeft(s) - n
            && (n == DrainLeft(s) <==> r.writer.Done?) && (r.writer.Done? ==> r.queue.elems == [])
  {
    hide Sound, SystemStep, IsDrainMove;
    if acts != [] {
      var before, a := acts[..|acts| - 1], acts[|acts| - 1];
      DrainEnds(o, l, s, before);
      RunSound(o, l, s, before);
      DrainStep(o, l, SystemRun(o, l, s, before), a, Io(true, 0, true, 0));
      RunSound(o, l, s, acts);
    }
    DrainFacts(o, l, SystemRun(o, l, s, acts));
  }

  // ---- The meaning of interface references

  /** A block of a multiplexed source as its reader frames it: in the byte order of the host. */
  ghost predicate Framed(item: Item) {
    item.FromPipe? ==>
      var b := item.block;
      && |b.bytes| >= 12
      && if IsShb(b.bytes) then b.btype == BLOCK_TYPE_SHB && Bytes.Word(b.bytes, 8, false) == PCAPNG_MAGIC
         else b.btype == TypeOf(b.bytes, false) && b.btype != BLOCK_TYPE_SHB
  }

  ghost predicate AllFramed(s: System) {
    && (forall e :: e in s.accepted ==> Framed(e.item))
    && (forall i :: 0 <= i < |s.readers| && s.readers[i].Checked? ==> Framed(s.readers[i].item))
  }

  /** The invariants of the engine hold in every state of the system, whatever the queue drops. */
  ghost predicate Meant(o: Options, s: System) {
    Inv(o, s.eng) && Counted(o, s.eng) && AllFramed(s) && !s.eng.passthrough
  }

  lemma {:induction false} CountersMeant(o: Options, s: State, r: State)
    requires Inv(o, s) && Counted(o, s) && |r.srcs| == |s.srcs|
    requires r == s.(srcs := r.srcs)
    requires forall i :: 0 <= i < |s.srcs| ==> r.srcs[i] == s.srcs[i].(received := r.srcs[i].received,
               dropped := r.srcs[i].dropped, flushed := r.srcs[i].flushed, byteSwapped := r.srcs[i].byteSwapped)
    ensures Inv(o, r) && Counted(o, r)
  {
    hide Inv, Counted;
    CounterFrame(o, s, r);
    LedgerOpen(o, s);
    CountedFrame(o, s, r);
  }

  lemma LedgerOpen(o: Options, s: State)
    requires Counted(o, s)
    ensures s.go ==> s.open
  {
  }

  /** What a pcapng reader of a multiplexed capture frames is legal, whatever was lost before it. */
  lemma FramedIsLegal(o: Options, s: State, i: nat, item: Item, io: Io)
    requires Inv(o, s) && EntryFits(s, Entry(i, item)) && Framed(item) && !s.passthrough && |s.savedIdbs| < 0xFFFF_FFFF
    ensures Legal(s, Deliver(i, item, io))
  {
    hide ReadInputs, SameMeaning, ReadFile, ReplaySafe, TypeOf, IsShb;
    if s.go && item.FromPipe? {
      assert PipeLinked(s, i, Current(s), ReadInputs(|s.srcs|, s.log).tabs[i]);
    }
  }

  lemma {:induction false} WriteMeant(o: Options, l: QueueLimits, s: System, io: Io)
    requires Sound(o, l, s) && Meant(o, s) && Alive(s.eng) && (s.writer.Holding? || s.writer.HoldingLast?)
    requires |s.eng.savedIdbs| < 0xFFFF_FFFF
    ensures Meant(o, DoWrite(o, s, s.writer.e, io))
  {
    hide Inv, Counted, Books, Framed, Sub, Bounded, Step, DataEntries, Settled, FateOf;
    var e := s.writer.e;
    HeldFits(l, s);
    assert e in s.accepted by {
      assert s.accepted[|s.dequeued| - 1] == e;
    }
    var event := Deliver(e.src, e.item, io);
    FramedIsLegal(o, s.eng, e.src, e.item, io);
    StepKeeps(o, s.eng, event);
    StepCounts(o, s.eng, event);
    DeliveryPassthrough(o, s.eng, e, io);
  }

  lemma {:induction false} DeliveryPassthrough(o: Options, s: State, e: Entry, io: Io)
    requires Healthy(s) && Alive(s) && EntryFits(s, e)
    ensures Step(o, s, Deliver(e.src, e.item, io)).passthrough == s.passthrough
  {
    hide Step;
    DeliveryOutcome(o, s, e.src, e.item, io);
  }

  lemma {:induction false} LookMeant(o: Options, s: System, e: Event)
    requires Healthy(s.eng) && Meant(o, s) && !e.Deliver? && !e.ShbSeen?
    ensures Meant(o, s.(eng := Step(o, s.eng, e)))
  {
    hide Inv, Counted, Framed, Step;
    OtherOutcome(o, s.eng, e);
    LegalOther(s.eng, e);
    StepKeeps(o, s.eng, e);
    StepCounts(o, s.eng, e);
  }

  lemma LegalOther(s: State, e: Event)
    requires !s.passthrough && !e.Deliver?
    ensures Legal(s, e)
  {
  }

  /** A reader changes counters and histories only. */
  ghost predicate ReaderMoved(s: System, r: System) {
    && |r.eng.srcs| == |s.eng.srcs| && r.eng == s.eng.(srcs := r.eng.srcs)
    && (forall i :: 0 <= i < |s.eng.srcs| ==>
          r.eng.srcs[i] == s.eng.srcs[i].(received := r.eng.srcs[i].received,
                                          dropped := r.eng.srcs[i].dropped, flushed := r.eng.srcs[i].flushed,
                                          byteSwapped := r.eng.srcs[i].byteSwapped))
  }

  lemma ReaderMoves(o: Options, l: QueueLimits, s: System, a: Action)
    requires a.Arrive? || a.Enqueue? || a.Count? || a.End? || a.See?
    ensures ReaderMoved(s, SystemStep(o, l, s, a))
  {
    hide HasRoom, EntryFits, Push, Step, DoArrive, DoCount;
    match a
    case Arrive(i, item) => if i < |s.readers| && i < |s.eng.srcs| { ArriveMoves(s, i, item); }
    case Count(i) => if i < |s.readers| && i < |s.eng.srcs| { CountMoves(s, i); }
    case See(i, swapped) => SeeMoves(o, s.eng, i, swapped);
    case _ =>
  }

  lemma ArriveMoves(s: System, i: nat, item: Item)
    requires i < |s.readers| && i < |s.eng.srcs|
    ensures ReaderMoved(s, DoArrive(s, i, item))
  {
    hide Length;
  }

  lemma CountMoves(s: System, i: nat)
    requires i < |s.readers| && i < |s.eng.srcs|
    ensures ReaderMoved(s, DoCount(s, i))
  {
  }

  lemma SeeMoves(o: Options, s: State, i: nat, swapped: bool)
    ensures var r := Step(o, s, ShbSeen(i, swapped));
            && |r.srcs| == |s.srcs| && r == s.(srcs := r.srcs)
            && (forall h :: 0 <= h < |s.srcs| ==> r.srcs[h] == s.srcs[h].(byteSwapped := r.srcs[h].byteSwapped))
  {
  }

  lemma ReaderFrames(o: Options, l: QueueLimits, s: System, a: Action)
    requires AllFramed(s) && |s.readers| == |s.eng.srcs| && (a.Arrive? || a.Enqueue? || a.Count? || a.End? || a.See?)
    requires a.Arrive? ==> Framed(a.item)
    ensures AllFramed(SystemStep(o, l, s, a))
  {
    hide HasRoom, Length, EntryFits, Push, Framed;
  }

  lemma {:induction false} ReaderMeant(o: Options, l: QueueLimits, s: System, a: Action)
    requires Sound(o, l, s) && Meant(o, s) && Alive(s.eng)
    requires a.Arrive? || a.Enqueue? || a.Count? || a.End? || a.See?
    requires a.Arrive? ==> Framed(a.item)
    ensures Meant(o, SystemStep(o, l, s, a))
  {
    hide Inv, Counted, Framed, Sound, AllFramed, SystemStep;
    ShapeOf(o, l, s);
    ReaderMoves(o, l, s, a);
    ReaderFrames(o, l, s, a);
    CountersMeant(o, s.eng, SystemStep(o, l, s, a).eng);
  }

  lemma {:induction false} StepMeant(o: Options, l: QueueLimits, s: System, a: Action)
    requires Sound(o, l, s) && Meant(o, s) && |s.eng.savedIdbs| < 0xFFFF_FFFF
    requires a.Arrive? ==> Framed(a.item)
    ensures Meant(o, SystemStep(o, l, s, a))
  {
    hide Inv, Counted, Framed, Sound, DoArrive, DoEnqueue, DoCount, DoWrite, Step;
    if Alive(s.eng) {
      ShapeOf(o, l, s);
      match a
      case Arrive(i, item) => ReaderMeant(o, l, s, a);
      case Enqueue(i) => ReaderMeant(o, l, s, a);
      case Count(i) => ReaderMeant(o, l, s, a);
      case End(i) => ReaderMeant(o, l, s, a);
      case See(i, swapped) => ReaderMeant(o, l, s, a);
      case Take =>
      case Write(io) => if s.writer.Holding? || s.writer.HoldingLast? { WriteMeant(o, l, s, io); }
      case Look(t, io, io') =>
        HealthOf(o, l, s);
        LookMeant(o, s, TimersLooked(t, io, io'));
      case Interrupt =>
        HealthOf(o, l, s);
        StopStep(o, s.eng);
        LookMeant(o, s, StopRequest);
      case Leave =>
    }
  }

  lemma HealthOf(o: Options, l: QueueLimits, s: System)
    requires Sound(o, l, s)
    ensures Healthy(s.eng)
  {
  }

  /** There is room for the interface IDs of the saved IDBs, in every state before an action. */
  ghost predicate RoomForIds(o: Options, l: QueueLimits, s: System, acts: seq<Action>) {
    acts != [] ==>
      var before := acts[..|acts| - 1];
      RoomForIds(o, l, s, before) && |SystemRun(o, l, s, before).eng.savedIdbs| < 0xFFFF_FFFF
  }

  /** What the readers deliver is framed, and there is room for interface IDs. */
  ghost predicate LegalActions(o: Options, l: QueueLimits, s: System, acts: seq<Action>) {
    && (forall k :: 0 <= k < |acts| && acts[k].Arrive? ==> Framed(acts[k].item))
    && RoomForIds(o, l, s, acts)
  }

  lemma {:induction false} RunMeant(o: Options, l: QueueLimits, s: System, acts: seq<Action>)
    requires Sound(o, l, s) && Meant(o, s) && o.useThreads && LegalActions(o, l, s, acts)
    ensures Meant(o, SystemRun(o, l, s, acts))
  {
    hide Sound, Meant, SystemStep, Framed;
    if acts != [] {
      var before := acts[..|acts| - 1];
      RunMeant(o, l, s, before);
      RunSound(o, l, s, before);
      StepMeant(o, l, SystemRun(o, l, s, before), acts[|acts| - 1]);
    }
  }

  lemma ThreadedMeant(o: Options, l: QueueLimits, pcapng: seq<bool>, io: Io, acts: seq<Action>)
    requires OptionsFit(o, pcapng) && Started(o, pcapng, io).1 && o.useThreads && pcapng != [true]
    requires LegalActions(o, l, Created(Started(o, pcapng, io).0), acts)
    ensures Meant(o, Threaded(o, l, pcapng, io, acts))
  {
    hide Started, LegalActions, Inv, Counted, AllFramed, Sound;
    var s0 := Created(Started(o, pcapng, io).0);
    CreatedSound(o, l, pcapng, io);
    StartKeeps(o, pcapng, io);
    StartCounts(o, pcapng, io);
    StartAccounted(o, pcapng, io);
    StartFramed(s0.eng);
    RunMeant(o, l, s0, acts);
  }

  /** Under every interleaving of readers and writer, whatever the queue drops and whenever the capture is
      stopped: a multiplexed capture's files read exactly as its sources' items that took effect, each with
      the interface its own source gave it; the packets under a pcap source's interface are those of its
      deliveries that took effect, in order; and the packets in the files are those counted. */
  lemma {:induction false} MeaningUnderThreads(o: Options, l: QueueLimits, pcapng: seq<bool>, io: Io, acts: seq<Action>, i: nat)
    requires OptionsFit(o, pcapng) && Started(o, pcapng, io).1 && o.useThreads && pcapng != [true]
    requires LegalActions(o, l, Created(Started(o, pcapng, io).0), acts) && i < |pcapng|
    ensures var s := Threaded(o, l, pcapng, io, acts);
            && ReadFiles(s.eng.files) == ReadInputs(|pcapng|, s.eng.log).seen
            && PacketsOf(ReadFiles(s.eng.files), i) == PacketItems(Of(s.eng.log, i))
            && Sum(PerFile(s.eng.files)) == s.eng.packetsCaptured
  {
    hide Started, LegalActions, Linked, ReplaySafe, ReadFiles, ReadInputs, PerFile, Sum, PacketsOf, PacketItems, Of, Room,
         AllFramed, Threaded;
    ThreadedMeant(o, l, pcapng, io, acts);
    ThreadedSound(o, l, pcapng, io, acts);
    FilesHoldTheLog(o, Threaded(o, l, pcapng, io, acts).eng, i);
  }

  /** Under every interleaving the limits hold, the packets reported and those still to be reported are the
      packets captured, and the counts sent to the parent follow the files they are about. */
  lemma ReportsUnderThreads(o: Options, l: QueueLimits, pcapng: seq<bool>, io: Io, acts: seq<Action>)
    requires OptionsFit(o, pcapng) && Started(o, pcapng, io).1 && o.useThreads && pcapng != [true]
    requires LegalActions(o, l, Created(Started(o, pcapng, io).0), acts)
    ensures var s := Threaded(o, l, pcapng, io, acts).eng;
            && WithinLimits(o, s)
            && (o.captureChild && !o.quiet ==>
                  SumOfCounts(s.messages) + s.inpktsToSyncPipe == s.packetsCaptured && FollowsFiles(o, s))
  {
    hide Started, LegalActions, Inv, Threaded, WithinLimits, FollowsFiles, PerFile, Room, AllFramed;
    ThreadedMeant(o, l, pcapng, io, acts);
    var s := Threaded(o, l, pcapng, io, acts).eng;
    CountedWithinLimits(o, s);
    if o.captureChild && !o.quiet {
      CountedFollows(o, s);
    }
  }

  lemma StartFramed(s: State)
    ensures AllFramed(Created(s))
  {
  }
}
