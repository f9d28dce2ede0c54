/** The pcap record stream that follows a pcap file header, as a whole-stream parser and an encoder. */
module PcapFormat {
  import opened Bytes

  /** What the file header and its magic number say about the records. */
  datatype FileInfo = FileInfo(major: nat, minor: nat, swapped: bool, modified: bool, maxPacket: u32)

  /** struct pcaprec_hdr. */
  datatype RecordHeader = RecordHeader(sec: u32, usec: u32, incl: u32, orig: u32)

  datatype Packet = Packet(sec: u32, usec: u32, caplen: u32, len: u32, data: seq<byte>)

  /** sizeof(struct pcaprec_modified_hdr) or sizeof(struct pcaprec_hdr). */
  function HeaderLength(f: FileInfo): nat {
    if f.modified then 24 else 16
  }

  /** Whether the two length fields, in file order, are "original, captured". */
  predicate LengthsReversed(f: FileInfo, first: u32, second: u32) {
    f.major == 2 && (f.minor < 3 || (f.minor == 3 && first > second))
  }

  /** The header a record means. */
  function DecodeHeader(f: FileInfo, b: seq<byte>): RecordHeader
    requires |b| >= 16
  {
    var first, second := Word(b, 8, f.swapped), Word(b, 12, f.swapped);
    var reversed := LengthsReversed(f, first, second);
    RecordHeader(Word(b, 0, f.swapped), Word(b, 4, f.swapped),
                 if reversed then second else first, if reversed then first else second)
  }

  function MakePacket(h: RecordHeader, data: seq<byte>): Packet {
    Packet(h.sec, h.usec, h.incl, h.orig, data)
  }

  /** The first record of a stream: complete, not all there yet, or too long to be accepted. */
  datatype Next = NeedMore | TooLong | Got(packet: Packet, size: nat)

  function NextRecord(f: FileInfo, s: seq<byte>): (r: Next)
    ensures r.Got? ==> 0 < r.size <= |s|
  {
    var n := HeaderLength(f);
    if |s| < n then NeedMore
    else
      var h := DecodeHeader(f, s);
      if h.incl > f.maxPacket then TooLong
      else if |s| < n + h.incl then NeedMore
      else Got(MakePacket(h, s[n..n + h.incl]), n + h.incl)
  }

  lemma NothingYet(f: FileInfo)
    ensures NextRecord(f, []) == NeedMore
  {
  }

  /** The packets of a stream, the incomplete record at its end, and whether that record is too long. */
  datatype Parsed = Parsed(packets: seq<Packet>, rest: seq<byte>, tooLong: bool)

  function Parse(f: FileInfo, s: seq<byte>): (r: Parsed)
    decreases |s|
  {
    match NextRecord(f, s)
    case NeedMore => Parsed([], s, false)
    case TooLong => Parsed([], s, true)
    case Got(p, size) => After(p, Parse(f, s[size..]))
  }

  function After(p: Packet, tail: Parsed): Parsed {
    tail.(packets := [p] + tail.packets)
  }

  function Chain(now: Parsed, later: Parsed): Parsed {
    later.(packets := now.packets + later.packets)
  }

  /** A header depends only on the first sixteen bytes. */
  lemma HeaderOfPrefix(f: FileInfo, s: seq<byte>, t: seq<byte>)
    requires 16 <= |s| && s <= t
    ensures DecodeHeader(f, s) == DecodeHeader(f, t)
  {
    assert forall k :: 0 <= k < 16 ==> s[k] == t[k];
  }

  /** More bytes after a complete record do not change it. */
  lemma NextOfPrefix(f: FileInfo, s: seq<byte>, more: seq<byte>)
    requires NextRecord(f, s).Got?
    ensures NextRecord(f, s + more) == NextRecord(f, s)
  {
    HeaderOfPrefix(f, s, s + more);
    var n, end := HeaderLength(f), NextRecord(f, s).size;
    assert (s + more)[n..end] == s[n..end];
  }

  /** Parsing can stop anywhere and resume from the incomplete record. */
  lemma {:induction false} ParseResumes(f: FileInfo, s: seq<byte>, more: seq<byte>)
    requires !Parse(f, s).tooLong
    ensures Parse(f, s + more) == Chain(Parse(f, s), Parse(f, Parse(f, s).rest + more))
    decreases |s|
  {
    hide NextRecord;
    var next, now := NextRecord(f, s), Parse(f, s);
    var later := Parse(f, now.rest + more);
    if next.Got? {
      var t := s[next.size..];
      var rest := Parse(f, t);
      assert now == After(next.packet, rest);
      assert Parse(f, s + more) == After(next.packet, Parse(f, t + more)) by {
        NextOfPrefix(f, s, more);
        assert (s + more)[next.size..] == t + more;
      }
      ParseResumes(f, t, more);
      assert [next.packet] + (rest.packets + later.packets) == [next.packet] + rest.packets + later.packets;
    } else {
      assert now == Parsed([], s, false);
      assert [] + later.packets == later.packets;
    }
  }

  /** One complete record parses to its packet. */
  lemma {:induction false} ParseOne(f: FileInfo, head: seq<byte>, data: seq<byte>)
    requires |head| == HeaderLength(f)
    requires DecodeHeader(f, head).incl == |data| <= f.maxPacket
    ensures Parse(f, head + data) == Parsed([MakePacket(DecodeHeader(f, head), data)], [], false)
  {
    hide DecodeHeader;
    var s, n := head + data, HeaderLength(f);
    HeaderOfPrefix(f, head, s);
    assert s[n..n + |data|] == data;
    assert NextRecord(f, s) == Got(MakePacket(DecodeHeader(f, head), data), |s|);
    assert s[|s|..] == [];
    assert NextRecord(f, []) == NeedMore;
  }

  /** An incomplete record stays in the rest. */
  lemma {:induction false} ParsePartial(f: FileInfo, head: seq<byte>, data: seq<byte>)
    requires |head| == HeaderLength(f)
    requires |data| < DecodeHeader(f, head).incl <= f.maxPacket
    ensures Parse(f, head + data) == Parsed([], head + data, false)
  {
    HeaderOfPrefix(f, head, head + data);
    assert NextRecord(f, head + data) == NeedMore;
  }

  // ---- Writing records

  /** The order in which a writer puts the two lengths. */
  datatype Layout = CapturedFirst | OriginalFirst

  /** A record; the modified header has eight more bytes that carry nothing we keep. */
  function EncodeRecord(f: FileInfo, layout: Layout, p: Packet, extra: seq<byte>): (b: seq<byte>)
    requires |extra| == HeaderLength(f) - 16
    ensures |b| == HeaderLength(f) + |p.data|
  {
    EncodeHeader(f, layout, p) + extra + p.data
  }

  function EncodeHeader(f: FileInfo, layout: Layout, p: Packet): (b: seq<byte>)
    ensures |b| == 16
  {
    Encode(p.sec, f.swapped) + Encode(p.usec, f.swapped)
    + Encode(if layout.CapturedFirst? then p.caplen else p.len, f.swapped)
    + Encode(if layout.CapturedFirst? then p.len else p.caplen, f.swapped)
  }

  /** One layout and eight, or no, extra header bytes for each packet. */
  predicate Matched(f: FileInfo, layouts: seq<Layout>, ps: seq<Packet>, extras: seq<seq<byte>>) {
    |layouts| == |ps| == |extras| && forall k :: 0 <= k < |ps| ==> |extras[k]| == HeaderLength(f) - 16
  }

  /** Records one after another, each in a layout of its own. */
  function EncodeAll(f: FileInfo, layouts: seq<Layout>, ps: seq<Packet>, extras: seq<seq<byte>>): seq<byte>
    requires Matched(f, layouts, ps, extras)
    decreases |ps|
  {
    if ps == [] then []
    else EncodeRecord(f, layouts[0], ps[0], extras[0]) + EncodeAll(f, layouts[1..], ps[1..], extras[1..])
  }

  /** A record whose data has the length it claims, no longer than a pipe accepts. */
  predicate WellFormed(f: FileInfo, p: Packet) {
    |p.data| == p.caplen <= f.maxPacket
  }

  /** When the layout of a record's lengths can be told apart: version 2.3 was written both ways. */
  predicate LayoutFits(f: FileInfo, layout: Layout, p: Packet) {
    if f.major == 2 && f.minor == 3 then p.caplen <= p.len
    else p.caplen == p.len || (layout.OriginalFirst? <==> f.major == 2 && f.minor < 3)
  }

  lemma HeaderWords(f: FileInfo, layout: Layout, p: Packet, t: seq<byte>)
    ensures var b := EncodeHeader(f, layout, p) + t;
            Word(b, 0, f.swapped) == p.sec && Word(b, 4, f.swapped) == p.usec &&
            Word(b, 8, f.swapped) == (if layout.CapturedFirst? then p.caplen else p.len) &&
            Word(b, 12, f.swapped) == (if layout.CapturedFirst? then p.len else p.caplen)
  {
    hide Encode, Word;
    var w := f.swapped;
    var x, y := if layout.CapturedFirst? then p.caplen else p.len, if layout.CapturedFirst? then p.len else p.caplen;
    var e0, e1, e2, e3 := Encode(p.sec, w), Encode(p.usec, w), Encode(x, w), Encode(y, w);
    var b := EncodeHeader(f, layout, p) + t;
    assert b == [] + e0 + (e1 + e2 + e3 + t);
    WordAfter([], p.sec, e1 + e2 + e3 + t, w);
    assert b == e0 + e1 + (e2 + e3 + t);
    WordAfter(e0, p.usec, e2 + e3 + t, w);
    assert b == e0 + e1 + e2 + (e3 + t);
    WordAfter(e0 + e1, x, e3 + t, w);
    assert b == e0 + e1 + e2 + e3 + t;
    WordAfter(e0 + e1 + e2, y, t, w);
  }

  /** A header is read back exactly when its lengths are in an order the reader can recognise. */
  lemma HeaderReadsBack(f: FileInfo, layout: Layout, p: Packet, t: seq<byte>)
    ensures DecodeHeader(f, EncodeHeader(f, layout, p) + t) == RecordHeader(p.sec, p.usec, p.caplen, p.len)
            <==> LayoutFits(f, layout, p)
  {
    hide EncodeHeader, Word;
    HeaderWords(f, layout, p, t);
  }

  lemma {:induction false} RecordReadsBack(f: FileInfo, layout: Layout, p: Packet, extra: seq<byte>, tail: seq<byte>)
    requires |extra| == HeaderLength(f) - 16
    requires WellFormed(f, p) && LayoutFits(f, layout, p)
    ensures NextRecord(f, EncodeRecord(f, layout, p, extra) + tail) == Got(p, HeaderLength(f) + |p.data|)
  {
    var s, n := EncodeRecord(f, layout, p, extra) + tail, HeaderLength(f);
    hide DecodeHeader, EncodeHeader, LengthsReversed;
    HeaderReadsBack(f, layout, p, extra + p.data + tail);
    assert s == EncodeHeader(f, layout, p) + (extra + p.data + tail);
    assert s[n..n + |p.data|] == p.data;
  }

  /** Every record can be told apart. */
  predicate Readable(f: FileInfo, layouts: seq<Layout>, ps: seq<Packet>, extras: seq<seq<byte>>) {
    && Matched(f, layouts, ps, extras)
    && forall k :: 0 <= k < |ps| ==> WellFormed(f, ps[k]) && LayoutFits(f, layouts[k], ps[k])
  }

  /** A record whose layout cannot be told apart is not read back, whatever follows. */
  lemma {:induction false} RecordMisread(f: FileInfo, layout: Layout, p: Packet, extra: seq<byte>, tail: seq<byte>)
    requires |extra| == HeaderLength(f) - 16 && !LayoutFits(f, layout, p)
    ensures var n := NextRecord(f, EncodeRecord(f, layout, p, extra) + tail); n.Got? ==> n.packet != p
  {
    hide DecodeHeader, EncodeHeader, LengthsReversed, LayoutFits;
    HeaderReadsBack(f, layout, p, extra + p.data + tail);
    assert EncodeRecord(f, layout, p, extra) + tail == EncodeHeader(f, layout, p) + (extra + p.data + tail);
  }

  /** A list of packets, each with the data it claims, is read back if and only if the layout of each record
      can be told apart. */
  lemma {:induction false} ParseReadsBackIff(f: FileInfo, layouts: seq<Layout>, ps: seq<Packet>, extras: seq<seq<byte>>)
    requires Matched(f, layouts, ps, extras) && forall k :: 0 <= k < |ps| ==> WellFormed(f, ps[k])
    ensures Parse(f, EncodeAll(f, layouts, ps, extras)) == Parsed(ps, [], false) <==> Readable(f, layouts, ps, extras)
    decreases |ps|
  {
    hide NextRecord, EncodeRecord, WellFormed, LayoutFits;
    if ps == [] {
      NothingYet(f);
    } else {
      var p, r := ps[0], EncodeRecord(f, layouts[0], ps[0], extras[0]);
      var tail := EncodeAll(f, layouts[1..], ps[1..], extras[1..]);
      ParseReadsBackIff(f, layouts[1..], ps[1..], extras[1..]);
      assert Readable(f, layouts, ps, extras) <==>
             LayoutFits(f, layouts[0], p) && Readable(f, layouts[1..], ps[1..], extras[1..]);
      assert [p] + ps[1..] == ps && (r + tail)[|r|..] == tail;
      if LayoutFits(f, layouts[0], p) {
        RecordReadsBack(f, layouts[0], p, extras[0], tail);
        FirstRead(f, r + tail, p, |r|, ps);
      } else {
        RecordMisread(f, layouts[0], p, extras[0], tail);
        FirstMisread(f, r + tail, ps);
      }
    }
  }

  lemma FirstRead(f: FileInfo, s: seq<byte>, p: Packet, size: nat, ps: seq<Packet>)
    requires NextRecord(f, s) == Got(p, size) && ps != [] && ps[0] == p
    ensures Parse(f, s) == Parsed(ps, [], false) <==> Parse(f, s[size..]) == Parsed(ps[1..], [], false)
  {
    hide NextRecord;
    var rest := Parse(f, s[size..]);
    assert Parse(f, s).packets == [p] + rest.packets && ([p] + rest.packets)[1..] == rest.packets;
    assert [p] + ps[1..] == ps;
  }

  lemma FirstMisread(f: FileInfo, s: seq<byte>, ps: seq<Packet>)
    requires ps != [] && (NextRecord(f, s).Got? ==> NextRecord(f, s).packet != ps[0])
    ensures Parse(f, s).packets != ps
  {
    hide NextRecord;
    if NextRecord(f, s).Got? {
      assert Parse(f, s).packets[0] == NextRecord(f, s).packet;
    }
  }

  /** The parser reads back every list of packets a writer of either byte order can have written, even if the
      layouts are mixed. */
  lemma {:induction false} ParseReadsBack(f: FileInfo, layouts: seq<Layout>, ps: seq<Packet>, extras: seq<seq<byte>>)
    requires Readable(f, layouts, ps, extras)
    ensures Parse(f, EncodeAll(f, layouts, ps, extras)) == Parsed(ps, [], false)
  {
    hide Parse, EncodeAll, WellFormed, LayoutFits;
    ParseReadsBackIff(f, layouts, ps, extras);
  }

  /** The version 2.3 guess fails on every record that claims more captured bytes than it had. */
  lemma {:induction false} AmbiguousVersion23(f: FileInfo, layout: Layout, p: Packet, extra: seq<byte>)
    requires |extra| == HeaderLength(f) - 16
    requires f.major == 2 && f.minor == 3 && p.caplen > p.len
    ensures Parse(f, EncodeAll(f, [layout], [p], [extra])).packets != [p]
  {
    var s := EncodeRecord(f, layout, p, extra) + [];
    assert EncodeAll(f, [layout], [p], [extra]) == s;
    assert s == EncodeHeader(f, layout, p) + (extra + p.data);
    HeaderReadsBack(f, layout, p, extra + p.data);
    var next := NextRecord(f, s);
    if next.Got? {
      assert next.packet != p;
      assert Parse(f, s).packets[0] == next.packet;
    }
  }
}
