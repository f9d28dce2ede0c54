/** The queue of a threaded capture as it is written: the callbacks that readers push with, the writer's
    dequeuing, and the drain after the readers have been joined. */
module QueueLoop {
  import opened PcapngFormat
  import opened Engine
  import opened Queue
  import opened CaptureLoop
  import Bytes
  import Conservation
  import Threads

  /** What a queue callback does to the source and to the queue, when nothing comes in between: after the stop
      the item is flushed; it is dropped if it is empty or the elements have reached a limit; otherwise it is
      the last element. */
  function QueueOutcome(l: QueueLimits, s: State, q: PacketQueue, e: Entry): (State, PacketQueue)
    requires e.src < |s.srcs|
  {
    if !s.go then (FlushAt(s, e.src), q)
    else if Length(e.item) == 0 || Full(l, q.elems) then (DropAt(s, e.src), q)
    else (ReceiveAt(s, e.src), Push(q, e))
  }

  /** It is what the three steps of a reader amount to. */
  lemma CallbackIsThreeSteps(o: Options, l: QueueLimits, s: Threads.System, e: Entry)
    requires Alive(s.eng) && |s.readers| == |s.eng.srcs| && Threads.EntryFits(s.eng, e) && s.readers[e.src].Reading?
    requires Bounded(l, s.queue)
    ensures var r := Threads.SystemRun(o, l, s, [Threads.Arrive(e.src, e.item), Threads.Enqueue(e.src), Threads.Count(e.src)]);
            (r.eng, r.queue) == QueueOutcome(l, s.eng, s.queue, e) && r.readers == s.readers && r.writer == s.writer
  {
    hide Length, HasRoom, Push, Threads.SystemStep, Full, Bounded;
    var a, b, c := Threads.Arrive(e.src, e.item), Threads.Enqueue(e.src), Threads.Count(e.src);
    var s1 := Threads.SystemStep(o, l, s, a);
    var s2 := Threads.SystemStep(o, l, s1, b);
    var s3 := Threads.SystemStep(o, l, s2, c);
    assert Threads.SystemRun(o, l, s, [a, b, c]) == s3 by {
      assert [a, b, c][..2] == [a, b] && [a, b][..1] == [a] && [a][..0] == [];
      assert Threads.SystemRun(o, l, s, [a]) == s1;
      assert Threads.SystemRun(o, l, s, [a, b]) == s2;
    }
    ThreeSteps(o, l, s, e, s1, s2, s3);
  }

  lemma ThreeSteps(o: Options, l: QueueLimits, s: Threads.System, e: Entry,
                   s1: Threads.System, s2: Threads.System, s3: Threads.System)
    requires Alive(s.eng) && |s.readers| == |s.eng.srcs| && Threads.EntryFits(s.eng, e) && s.readers[e.src].Reading?
    requires Bounded(l, s.queue)
    requires s1 == Threads.SystemStep(o, l, s, Threads.Arrive(e.src, e.item))
    requires s2 == Threads.SystemStep(o, l, s1, Threads.Enqueue(e.src))
    requires s3 == Threads.SystemStep(o, l, s2, Threads.Count(e.src))
    ensures (s3.eng, s3.queue) == QueueOutcome(l, s.eng, s.queue, e) && s3.readers == s.readers && s3.writer == s.writer
  {
    hide Length, HasRoom, Push, Full, Bounded;
    RoomUnlessFull(l, s.queue);
    assert s.readers[e.src := Threads.Reading] == s.readers;
  }

  ghost predicate AllFit(s: State, es: seq<Entry>) {
    forall k :: 0 <= k < |es| ==> Threads.EntryFits(s, es[k])
  }

  /** The writer after the stop: everything is flushed. */
  ghost function FlushAll(s: State, es: seq<Entry>): (r: State)
    requires AllFit(s, es)
    ensures |r.srcs| == |s.srcs|
  {
    if es == [] then s else FlushAt(FlushAll(s, es[..|es| - 1]), es[|es| - 1].src)
  }

  /** A drain only counts: every element goes to the flushed count of its source. */
  lemma {:induction false} FlushedCounts(s: State, es: seq<Entry>, i: nat)
    requires AllFit(s, es) && i < |s.srcs|
    ensures var r := FlushAll(s, es);
            && r == s.(srcs := r.srcs)
            && r.srcs[i] == s.srcs[i].(flushed := s.srcs[i].flushed + |Conservation.Of(es, i)|)
  {
    if es != [] {
      FlushedCounts(s, es[..|es| - 1], i);
    }
  }

  /** pcap_queue with its limits and counts. */
  class PcapQueue {
    const limits: QueueLimits
    var elems: seq<Entry>
    var bytes: int
    var packets: int

    constructor (limits: QueueLimits)
      ensures Valid() && View() == EMPTY && this.limits == limits
    {
      this.limits, elems, bytes, packets := limits, [], 0, 0;
    }

    function View(): PacketQueue
      reads this
    {
      PacketQueue(elems, bytes, packets)
    }

    /** The counts are exact and within the limits. */
    ghost predicate Valid()
      reads this
    {
      Bounded(limits, View())
    }

    /** The part of both callbacks that runs under the queue's lock. */
    method Accept(e: Entry) returns (limitReached: bool)
      requires Valid()
      modifies this
      ensures Valid() && limitReached == Full(limits, old(elems))
      ensures View() == if limitReached then old(View()) else Push(old(View()), e)
    {
      hide Bounded, Full;
      RoomUnlessFull(limits, View());
      if (limits.bytes == 0 || bytes < limits.bytes) && (limits.packets == 0 || packets < limits.packets) {
        PushKeepsBounds(limits, View(), e);
        limitReached := false;
        elems := elems + [e];
        bytes := bytes + Length(e.item);
        packets := packets + 1;
      } else {
        limitReached := true;
      }
    }

    /** capture_loop_queue_packet_cb. */
    method QueuePacket(c: Capture, src: CaptureSrc, p: Packet)
      requires Valid() && c.Valid() && src in c.pcaps
      modifies this, src`received, src`dropped, src`flushed
      ensures Valid() && c.Valid() && src.interfaceId < |c.pcaps|
      ensures (c.View(), View()) == QueueOutcome(limits, old(c.View()), old(View()), Entry(src.interfaceId, FromPcap(p)))
    {
      hide Values, Bounded, Full, Push;
      if !c.go {
        c.Flush(src);
        return;
      }
      if p.caplen == 0 {
        c.Drop(src);
        return;
      }
      var limitReached := Accept(Entry(src.interfaceId, FromPcap(p)));
      if limitReached {
        c.Drop(src);
      } else {
        c.Receive(src);
      }
    }

    /** capture_loop_queue_pcapng_cb: the element gets its own copy of the block. */
    method QueuePcapng(c: Capture, src: CaptureSrc, bh: BlockHeader, pd: array<Bytes.byte>)
      requires Valid() && c.Valid() && src in c.pcaps && 12 <= bh.length <= pd.Length
      modifies this, src`received, src`dropped, src`flushed
      ensures Valid() && c.Valid() && src.interfaceId < |c.pcaps|
      ensures (c.View(), View()) == QueueOutcome(limits, old(c.View()), old(View()),
                                                 Entry(src.interfaceId, FromPipe(Block(bh.btype, pd[..bh.length]))))
    {
      hide Values, Bounded, Full, Push;
      if !c.go {
        c.Flush(src);
        return;
      }
      var limitReached := Accept(Entry(src.interfaceId, FromPipe(Block(bh.btype, pd[..bh.length]))));
      if limitReached {
        c.Drop(src);
      } else {
        c.Receive(src);
      }
    }

    /** The locked part of capture_loop_dequeue_packet. */
    method Remove() returns (e: Entry)
      requires Valid() && elems != []
      modifies this
      ensures Valid() && e == old(elems)[0] && View() == Pop(old(View()))
    {
      hide Bounded;
      PopKeepsBounds(limits, View());
      e := elems[0];
      elems := elems[1..];
      bytes := bytes - Length(e.item);
      packets := packets - 1;
    }

    /** capture_loop_dequeue_packet: the element at the head is written, as one event of the engine. */
    method DequeuePacket(c: Capture, io: Io) returns (dequeued: bool)
      requires Valid() && c.Valid() && Alive(c.View())
      requires AllFit(c.View(), elems)
      requires elems != [] && c.go ==> MayHandleHead(c)
      modifies this, c, c.pcaps
      ensures Valid() && c.Valid() && dequeued == (old(elems) != [])
      ensures !dequeued ==> View() == old(View()) && c.View() == old(c.View())
      ensures dequeued ==>
                && View() == Pop(old(View()))
                && c.View() == Step(c.o, old(c.View()), Deliver(old(elems)[0].src, old(elems)[0].item, io))
    {
      hide Values, Bounded, Step, Owned;
      if elems == [] {
        return false;
      }
      var e := Remove();
      c.HandleEvent(Deliver(e.src, e.item, io));
      return true;
    }

    /** The head of the queue is a packet, or a block whose source owns its slots. */
    ghost predicate MayHandleHead(c: Capture)
      reads this, c, c.pcaps
    {
      elems != [] && (elems[0].item.FromPipe? ==> Owned(c.View(), elems[0].src) && c.o.usePcapng)
    }

    /** The drain at the end of capture_loop_start: the queue ends empty, and every element is counted as
        flushed by its source. */
    method Drain(c: Capture, io: Io)
      requires Valid() && c.Valid() && Alive(c.View()) && !c.go
      requires AllFit(c.View(), elems)
      modifies this, c, c.pcaps
      ensures Valid() && c.Valid() && View() == EMPTY
      ensures c.View() == FlushAll(old(c.View()), old(elems))
    {
      hide Values, Threads.EntryFits, Owned;
      ghost var s, es, k := c.View(), elems, 0;
      FlushNone(s, es);
      while true
        invariant Valid() && c.Valid() && Alive(c.View()) && !c.go && k <= |es| && elems == es[k..]
        invariant AllFit(s, es) && AllFit(s, es[..k])
        invariant c.View() == FlushAll(s, es[..k])
        decreases |elems|
      {
        StillFits(s, es, k);
        var dequeued := DequeuePacket(c, io);
        if !dequeued {
          break;
        }
        FlushStep(c.o, s, es, k, io);
        k := k + 1;
      }
      assert es[..k] == es;
      NoBytes(limits, View());
    }
  }

  lemma NoBytes(l: QueueLimits, q: PacketQueue)
    requires Bounded(l, q) && q.elems == []
    ensures q == EMPTY
  {
  }

  lemma FlushNone(s: State, es: seq<Entry>)
    requires AllFit(s, es)
    ensures es[..0] == [] && FlushAll(s, es[..0]) == s
  {
  }

  /** Flushing changes no source's kind. */
  lemma {:induction false} StillFits(s: State, es: seq<Entry>, k: nat)
    requires k <= |es| && AllFit(s, es)
    ensures AllFit(s, es[..k]) && AllFit(FlushAll(s, es[..k]), es)
    ensures FlushAll(s, es[..k]).go == s.go && Alive(FlushAll(s, es[..k])) == Alive(s)
    ensures FlushAll(s, es[..k]).files == s.files
  {
    if k > 0 {
      StillFits(s, es, k - 1);
      assert es[..k][..k - 1] == es[..k - 1];
    } else {
      assert es[..k] == [];
    }
  }

  lemma FlushStep(o: Options, s: State, es: seq<Entry>, k: nat, io: Io)
    requires k < |es| && !s.go && Alive(s) && s.files != []
    requires AllFit(s, es)
    ensures AllFit(s, es[..k]) && AllFit(s, es[..k + 1])
    ensures Step(o, FlushAll(s, es[..k]), Deliver(es[k].src, es[k].item, io)) == FlushAll(s, es[..k + 1])
  {
    StillFits(s, es, k);
    assert es[..k + 1][..k] == es[..k];
    assert Threads.EntryFits(FlushAll(s, es[..k]), es[k]);
  }
}
