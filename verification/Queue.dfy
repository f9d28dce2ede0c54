/** The queue between the reader threads and the writer: pcap_queue with its byte and packet counts. */
module Queue {
  import opened Engine

  /** The limits; 0 means none. */
  datatype QueueLimits = QueueLimits(bytes: nat, packets: nat)

  /** pcap_queue, pcap_queue_bytes and pcap_queue_packets. */
  datatype PacketQueue = PacketQueue(elems: seq<Entry>, bytes: int, packets: int)

  const EMPTY := PacketQueue([], 0, 0)

  /** What an element counts for: block_total_length or caplen. */
  function Length(item: Item): nat {
    match item
    case FromPipe(b) => |b.bytes|
    case FromPcap(p) => p.caplen
  }

  predicate HasRoom(l: QueueLimits, q: PacketQueue) {
    (l.bytes == 0 || q.bytes < l.bytes) && (l.packets == 0 || q.packets < l.packets)
  }

  /** The elements have reached one of the limits. */
  predicate Full(l: QueueLimits, elems: seq<Entry>) {
    (l.bytes > 0 && TotalLength(elems) >= l.bytes) || (l.packets > 0 && |elems| >= l.packets)
  }

  function Push(q: PacketQueue, e: Entry): PacketQueue {
    PacketQueue(q.elems + [e], q.bytes + Length(e.item), q.packets + 1)
  }

  function Pop(q: PacketQueue): PacketQueue
    requires q.elems != []
  {
    PacketQueue(q.elems[1..], q.bytes - Length(q.elems[0].item), q.packets - 1)
  }

  function TotalLength(es: seq<Entry>): nat {
    if es == [] then 0 else TotalLength(es[..|es| - 1]) + Length(es[|es| - 1].item)
  }

  /** The counts are exact, and without its last element the queue would be within its byte limit. */
  ghost predicate Bounded(l: QueueLimits, q: PacketQueue) {
    && q.bytes == TotalLength(q.elems) && q.packets == |q.elems|
    && (l.packets > 0 ==> q.packets <= l.packets)
    && (l.bytes > 0 && q.elems != [] ==> TotalLength(q.elems[..|q.elems| - 1]) < l.bytes)
  }

  /** What the counts say about the room left is true of the elements. */
  lemma RoomUnlessFull(l: QueueLimits, q: PacketQueue)
    requires Bounded(l, q)
    ensures HasRoom(l, q) <==> !Full(l, q.elems)
  {
    hide TotalLength;
  }

  lemma PushKeepsBounds(l: QueueLimits, q: PacketQueue, e: Entry)
    requires Bounded(l, q) && HasRoom(l, q)
    ensures Bounded(l, Push(q, e))
  {
    assert (q.elems + [e])[..|q.elems|] == q.elems;
  }

  lemma {:induction false} TotalWithoutFirst(es: seq<Entry>)
    requires es != []
    ensures TotalLength(es) == Length(es[0].item) + TotalLength(es[1..])
  {
    if |es| > 1 {
      var before := es[..|es| - 1];
      TotalWithoutFirst(before);
      assert before[1..] == es[1..][..|es| - 2];
    } else {
      assert es[..0] == [];
    }
  }

  lemma PopKeepsBounds(l: QueueLimits, q: PacketQueue)
    requires Bounded(l, q) && q.elems != []
    ensures Bounded(l, Pop(q))
  {
    TotalWithoutFirst(q.elems);
    var n := |q.elems|;
    if n > 1 {
      var before := q.elems[..n - 1];
      TotalWithoutFirst(before);
      assert before[1..] == q.elems[1..][..n - 2];
    }
  }

  /** The byte limit is exceeded by less than the element that was queued last. */
  lemma BytesBounded(l: QueueLimits, q: PacketQueue)
    requires Bounded(l, q) && l.bytes > 0 && q.elems != []
    ensures q.bytes <= l.bytes - 1 + Length(q.elems[|q.elems| - 1].item)
  {
  }

  // ---- Subsequences

  /** a is d with some elements left out. */
  ghost predicate Sub<T>(a: seq<T>, d: seq<T>)
    decreases |d|
  {
    a == [] ||
    (d != [] &&
     var d' := d[..|d| - 1];
     Sub(a, d') || (a[|a| - 1] == d[|d| - 1] && Sub(a[..|a| - 1], d')))
  }

  lemma SubSkip<T>(a: seq<T>, d: seq<T>, x: T)
    requires Sub(a, d)
    ensures Sub(a, d + [x])
  {
    assert (d + [x])[..|d|] == d;
  }

  lemma SubTake<T>(a: seq<T>, d: seq<T>, x: T)
    requires Sub(a, d)
    ensures Sub(a + [x], d + [x])
  {
    assert (d + [x])[..|d|] == d && (a + [x])[..|a|] == a;
  }

  lemma {:induction false} SubIsShorter<T>(a: seq<T>, d: seq<T>)
    requires Sub(a, d)
    ensures |a| <= |d| && (|a| == |d| ==> a == d)
    decreases |d|
  {
    if a != [] {
      var a', d' := a[..|a| - 1], d[..|d| - 1];
      if Sub(a, d') {
        SubIsShorter(a, d');
      } else {
        SubIsShorter(a', d');
        assert a == a' + [a[|a| - 1]] && d == d' + [d[|d| - 1]];
      }
    }
  }

  lemma {:induction false} SubAppend<T>(a: seq<T>, d: seq<T>, more: seq<T>)
    requires Sub(a, d)
    ensures Sub(a, d + more)
    decreases |more|
  {
    if more == [] {
      assert d + more == d;
    } else {
      var n := |more| - 1;
      SubAppend(a, d, more[..n]);
      SubSkip(a, d + more[..n], more[n]);
      assert d + more == (d + more[..n]) + [more[n]];
    }
  }

  lemma {:induction false} SubTrans<T>(a: seq<T>, b: seq<T>, c: seq<T>)
    requires Sub(a, b) && Sub(b, c)
    ensures Sub(a, c)
    decreases |c|
  {
    if a != [] && b != [] {
      var c' := c[..|c| - 1];
      if Sub(b, c') {
        SubTrans(a, b, c');
      } else {
        var b' := b[..|b| - 1];
        if Sub(a, b') {
          SubTrans(a, b', c');
        } else {
          SubTrans(a[..|a| - 1], b', c');
        }
      }
    }
  }
}
