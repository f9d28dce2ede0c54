/** The bytes dumpcap writes for a packet of its own, in either format, and what they say to a reader. */
module OwnBlocks {
  import opened Bytes
  import opened PcapngFormat
  import opened Engine
  import opened PcapngWriter
  import opened Meaning
  import opened MeaningKept
  import opened Conservation
  import PcapFormat
  import FileStarts

  /** Zero bytes up to the next word. */
  function Padding(n: nat): (z: seq<byte>)
    ensures |z| == PaddedTo4(n) - n
  {
    seq(PaddedTo4(n) - n, _ => 0)
  }

  /** The time of a packet in units of its interface: microseconds or nanoseconds. */
  function Stamp(p: Packet, unit: nat): nat {
    p.sec * unit + p.usec
  }

  /** What stands between the lengths of an EPB. */
  function EpbBody(id: u32, p: Packet, unit: nat): (r: seq<byte>)
    ensures |r| == 20 + |p.data| + PaddedTo4(p.caplen) - p.caplen
  {
    var t := Stamp(p, unit);
    Encode(id, false) + Encode(ToU32(t / 0x1_0000_0000), false) + Encode(ToU32(t), false)
    + Encode(p.caplen, false) + Encode(p.len, false) + p.data + Padding(p.caplen)
  }

  /** pcapng_write_enhanced_packet_block, without options. */
  function EpbBytes(id: u32, p: Packet, unit: nat): seq<byte>
    requires |p.data| == p.caplen < 0xFFFF_FF00
  {
    EncodeBlock(false, BLOCK_TYPE_EPB, EpbBody(id, p, unit))
  }

  /** A time in whole seconds, and the rest. */
  function Split(t: nat, unit: nat): (r: (nat, nat))
    requires unit > 0
    ensures t == r.0 * unit + r.1 && r.1 < unit
  {
    (t / unit, t % unit)
  }

  /** A reader of an EPB, section 4.3 of draft-ietf-opsawg-pcapng: the interface and the packet. */
  function DecodeEpb(bytes: seq<byte>, unit: nat): (u32, Packet)
    requires |bytes| >= 32 && 28 + Word(bytes, 20, false) <= |bytes| && unit > 0
  {
    var t := Word(bytes, 12, false) * 0x1_0000_0000 + Word(bytes, 16, false);
    var n := Word(bytes, 20, false);
    (Word(bytes, 8, false),
     PcapFormat.Packet(ToU32(Split(t, unit).0), ToU32(Split(t, unit).1), n, Word(bytes, 24, false), bytes[28..28 + n]))
  }

  lemma Padded(n: nat)
    ensures n <= PaddedTo4(n) <= n + 3
  {
  }

  lemma {:induction false} EpbWords(id: u32, p: Packet, unit: nat)
    requires |p.data| == p.caplen < 0xFFFF_FF00
    ensures var r, t := EpbBytes(id, p, unit), Stamp(p, unit);
            && |r| == 32 + PaddedTo4(p.caplen) && Word(r, 8, false) == id
            && Word(r, 12, false) == ToU32(t / 0x1_0000_0000) && Word(r, 16, false) == ToU32(t)
            && Word(r, 20, false) == p.caplen && Word(r, 24, false) == p.len && r[28..28 + p.caplen] == p.data
  {
    hide Encode, Word, Stamp, ToU32, PaddedTo4, Padding;
    var t := Stamp(p, unit);
    Padded(p.caplen);
    var n := 12 + |EpbBody(id, p, unit)|;
    var e0, e1 := Encode(BLOCK_TYPE_EPB, false), Encode(n, false);
    var e2, e3, e4 := Encode(id, false), Encode(ToU32(t / 0x1_0000_0000), false), Encode(ToU32(t), false);
    var e5, e6, z := Encode(p.caplen, false), Encode(p.len, false), Padding(p.caplen) + e1;
    var r := EpbBytes(id, p, unit);
    assert r == e0 + e1 + e2 + e3 + e4 + e5 + e6 + p.data + z;
    assert Word(r, 8, false) == id by {
      WordIn(r, e0 + e1, id, e3 + e4 + e5 + e6 + p.data + z);
    }
    assert Word(r, 12, false) == ToU32(t / 0x1_0000_0000) by {
      WordIn(r, e0 + e1 + e2, ToU32(t / 0x1_0000_0000), e4 + e5 + e6 + p.data + z);
    }
    assert Word(r, 16, false) == ToU32(t) by {
      WordIn(r, e0 + e1 + e2 + e3, ToU32(t), e5 + e6 + p.data + z);
    }
    assert Word(r, 20, false) == p.caplen by {
      WordIn(r, e0 + e1 + e2 + e3 + e4, p.caplen, e6 + p.data + z);
    }
    assert Word(r, 24, false) == p.len by {
      WordIn(r, e0 + e1 + e2 + e3 + e4 + e5, p.len, p.data + z);
    }
  }

  lemma WordIn(r: seq<byte>, before: seq<byte>, x: u32, after: seq<byte>)
    requires r == before + Encode(x, false) + after
    ensures |before| + 4 <= |r| && Word(r, |before|, false) == x
  {
    hide Encode, Word;
    WordAfter(before, x, after, false);
  }

  lemma {:induction false} StampReads(p: Packet, unit: nat)
    requires p.usec < unit <= 1000000000
    ensures var t := Stamp(p, unit);
            ToU32(t / 0x1_0000_0000) * 0x1_0000_0000 + ToU32(t) == t && Split(t, unit) == (p.sec as nat, p.usec as nat)
  {
    var t := Stamp(p, unit);
    assert p.sec * unit <= 0xFFFF_FFFF * 1000000000 by {
      Products(p.sec, 0xFFFF_FFFF, unit, 1000000000);
    }
    assert t / 0x1_0000_0000 < 0x1_0000_0000;
    Quotient(p.sec, p.usec, unit);
  }

  lemma Products(a: nat, b: nat, c: nat, d: nat)
    requires a <= b && c <= d
    ensures a * c <= b * d
  {
    assert a * c <= b * c <= b * d;
  }

  lemma Quotient(q: nat, r: nat, unit: nat)
    requires r < unit
    ensures Split(q * unit + r, unit) == (q, r)
  {
    hide Split;
    var (d, m) := Split(q * unit + r, unit);
    if d > q {
      Products(q + 1, d, unit, unit);
    } else if d < q {
      Products(d + 1, q, unit, unit);
    }
  }

  /** What is written for a packet is what a reader gets back: the interface, the time to the unit, both lengths
      and the data; it is as long as the engine counts, has the same length at both ends, and is a block that
      the pipe reader takes for an EPB. */
  lemma {:induction false} EpbReadsBack(o: Options, id: u32, p: Packet, unit: nat, section: Section)
    requires |p.data| == p.caplen < 0xFFFF_FF00 && p.usec < unit <= 1000000000
    ensures var r := EpbBytes(id, p, unit);
            && |r| == Size(o, OwnEpb(id, p)) && FileStarts.LengthsAgree(r)
            && 28 + Word(r, 20, false) <= |r| && DecodeEpb(r, unit) == (id, p)
            && (!section.swapped && |r| <= section.maxBlock ==>
                  AsWritten(false, section, Block(BLOCK_TYPE_EPB, r)))
  {
    hide Encode, Word, ToU32, Stamp, EpbBody;
    var r := EpbBytes(id, p, unit);
    EpbWords(id, p, unit);
    StampReads(p, unit);
    EncodedEnds(false, BLOCK_TYPE_EPB, EpbBody(id, p, unit));
    EpbIsData();
    assert ToU32(p.sec) == p.sec && ToU32(p.usec) == p.usec by { SmallWords(p.sec); SmallWords(p.usec); }
    if !section.swapped {
      EncodedIsWritten(false, section, BLOCK_TYPE_EPB, EpbBody(id, p, unit));
    }
  }

  lemma SmallWords(x: u32)
    ensures ToU32(x) == x
  {
  }

  lemma EpbIsData()
    ensures IsDataBlock(BLOCK_TYPE_EPB)
  {
  }

  lemma {:induction false} EncodedEnds(swapped: bool, btype: u32, body: seq<byte>)
    requires |body| < 0xFFFF_FFF0 && |body| % 4 == 0
    ensures FileStarts.LengthsAgree(EncodeBlock(swapped, btype, body))
  {
    hide Encode;
    var t, n, r := Encode(btype, swapped), Encode(12 + |body|, swapped), EncodeBlock(swapped, btype, body);
    assert r[4..8] == n && r[|r| - 4..] == n;
  }

  // ---- pcap

  /** The files dumpcap writes are version 2.4, in host order; the limit on packets is the reader's own. */
  const HOST_FILE := PcapFormat.FileInfo(2, 4, false, false, 0xFFFF_FFFF)

  /** libpcap_write_packet. */
  function RecordBytes(p: Packet): seq<byte> {
    PcapFormat.EncodeRecord(HOST_FILE, PcapFormat.CapturedFirst, p, [])
  }

  /** The records of a pcap file, after its header. */
  function Records(f: seq<OutBlock>): seq<byte> {
    if f == [] then []
    else Records(f[..|f| - 1]) + if f[|f| - 1].PcapRecord? then RecordBytes(f[|f| - 1].packet) else []
  }

  function RecordPackets(f: seq<OutBlock>): seq<Packet> {
    if f == [] then []
    else RecordPackets(f[..|f| - 1]) + if f[|f| - 1].PcapRecord? then [f[|f| - 1].packet] else []
  }

  /** A pcap file: its header and records of packets with all of their data. */
  ghost predicate PcapFile(f: seq<OutBlock>) {
    && f != [] && f[0] == PcapHeader
    && forall k :: 1 <= k < |f| ==> f[k].PcapRecord? && |f[k].packet.data| == f[k].packet.caplen
  }

  lemma {:induction false} RecordReads(p: Packet)
    requires |p.data| == p.caplen
    ensures PcapFormat.Parse(HOST_FILE, RecordBytes(p)) == PcapFormat.Parsed([p], [], false)
  {
    hide PcapFormat.NextRecord, PcapFormat.EncodeRecord;
    PcapFormat.RecordReadsBack(HOST_FILE, PcapFormat.CapturedFirst, p, [], []);
    var r := RecordBytes(p);
    assert r + [] == r && r[|r|..] == [];
    PcapFormat.NothingYet(HOST_FILE);
  }

  /** The records of a file are read back as its packets, in order, and the file is as long as the engine
      counts. */
  lemma {:induction false} PcapFileReadsBack(o: Options, f: seq<OutBlock>)
    requires PcapFile(f)
    ensures PcapFormat.Parse(HOST_FILE, Records(f)) == PcapFormat.Parsed(RecordPackets(f), [], false)
    ensures TotalSize(o, f) == 24 + |Records(f)|
  {
    hide PcapFormat.Parse, RecordBytes;
    var n := |f| - 1;
    if n == 0 {
      assert f[..0] == [];
      NoRecords();
      assert TotalSize(o, f[..0]) == 0;
    } else {
      var p := f[n].packet;
      PcapFileReadsBack(o, f[..n]);
      RecordLength(p);
      RecordAppended(Records(f[..n]), RecordPackets(f[..n]), p);
    }
  }

  lemma {:induction false} RecordAppended(s: seq<byte>, ps: seq<Packet>, p: Packet)
    requires PcapFormat.Parse(HOST_FILE, s) == PcapFormat.Parsed(ps, [], false) && |p.data| == p.caplen
    ensures PcapFormat.Parse(HOST_FILE, s + RecordBytes(p)) == PcapFormat.Parsed(ps + [p], [], false)
  {
    hide PcapFormat.Parse, RecordBytes;
    RecordReads(p);
    PcapFormat.ParseResumes(HOST_FILE, s, RecordBytes(p));
    assert [] + RecordBytes(p) == RecordBytes(p);
  }

  lemma RecordLength(p: Packet)
    ensures |RecordBytes(p)| == 16 + |p.data|
  {
  }

  lemma NoRecords()
    ensures PcapFormat.Parse(HOST_FILE, []) == PcapFormat.Parsed([], [], false)
  {
    PcapFormat.NothingYet(HOST_FILE);
  }

  /** A file that may have been left without its header. */
  ghost predicate RecordFile(f: seq<OutBlock>) {
    f == [] || PcapFile(f)
  }

  /** Every file of a pcap capture, and the current one has its header. */
  ghost predicate AllRecords(s: State) {
    && s.files != [] && (forall k :: 0 <= k < |s.files| ==> RecordFile(s.files[k]))
    && (s.go ==> s.open && PcapFile(s.files[|s.files| - 1]))
    && forall i :: 0 <= i < |s.srcs| ==> !s.srcs[i].fromPcapng
  }

  lemma RecordsFrame(s: State, r: State)
    requires AllRecords(s) && r.files == s.files && |r.srcs| == |s.srcs| && (r.go ==> s.go && r.open)
    requires forall i :: 0 <= i < |s.srcs| ==> r.srcs[i].fromPcapng == s.srcs[i].fromPcapng
    ensures AllRecords(r)
  {
    hide RecordFile, PcapFile;
  }

  lemma {:induction false} SwitchRecords(o: Options, s: State, io: Io)
    requires AllRecords(s) && !o.usePcapng
    ensures AllRecords(SwitchOrStop(o, s, io).0)
  {
    hide SwitchOrStop, PcapFile;
    var r := SwitchOrStop(o, s, io).0;
    SwitchShape(o, s, io);
    if |r.files| > |s.files| {
      var f := r.files[|s.files|];
      HeaderFile();
      assert f == [] || f == [PcapHeader];
      assert r.files == s.files + [f];
    }
  }

  lemma HeaderFile()
    ensures PcapFile([PcapHeader])
  {
  }

  lemma FileGrows(f: seq<OutBlock>, p: Packet)
    requires PcapFile(f) && |p.data| == p.caplen
    ensures PcapFile(f + [PcapRecord(p)])
  {
  }

  lemma RecordAdded(o: Options, s: State, i: nat, p: Packet)
    requires AllRecords(s) && s.go && |p.data| == p.caplen && i < |s.srcs|
    ensures AllRecords(Logged(Put(o, s, PcapRecord(p)), i, FromPcap(p)))
  {
    hide PcapFile;
    var n := |s.files| - 1;
    var r := Put(o, s, PcapRecord(p));
    FileGrows(s.files[n], p);
    assert r.files[n] == s.files[n] + [PcapRecord(p)];
    assert forall k :: 0 <= k < n ==> r.files[k] == s.files[k];
  }

  lemma {:induction false} StepRecords(o: Options, s: State, e: Event)
    requires AllRecords(s) && !o.usePcapng
    requires e.Deliver? && e.item.FromPcap? ==> |e.item.packet.data| == e.item.packet.caplen
    ensures AllRecords(Step(o, s, e))
  {
    hide AllRecords, SwitchOrStop, ReportPackets;
    RecordParts(s);
    if Alive(s) && EventFits(s, e) {
      match e
      case Deliver(i, item, io) =>
        RecordsFrame(s, FlushAt(s, i));
        if s.go {
          var w := Logged(Put(o, s, PcapRecord(item.packet)), i, item);
          RecordsFrame(s, WriteFailed(o, s, i, PcapRecord(item.packet), io));
          RecordAdded(o, s, i, item.packet);
          var counted := WithPacket(o, w, i);
          RecordsFrame(w, counted);
          RecordsFrame(w, Stop(counted));
          SwitchRecords(o, counted, io);
        }
      case ShbSeen(i, swapped) =>
      case StopRequest => RecordsFrame(s, Stop(s));
      case TimersLooked(t, io, io') =>
        var r := ReportPackets(o, s);
        ReportAside(o, s);
        RecordsFrame(s, r);
        RecordsFrame(s, Stop(r));
        SwitchRecords(o, r, io);
        SwitchRecords(o, r, io');
        SwitchRecords(o, SwitchOrStop(o, r, io).0, io');
    }
  }

  lemma RecordParts(s: State)
    requires AllRecords(s)
    ensures s.files != [] && (s.go ==> s.open)
    ensures forall i :: 0 <= i < |s.srcs| ==> !s.srcs[i].fromPcapng
  {
    hide RecordFile, PcapFile;
  }

  lemma {:induction false} RunRecords(o: Options, s: State, es: seq<Event>)
    requires AllRecords(s) && !o.usePcapng
    requires forall k :: 0 <= k < |es| && es[k].Deliver? && es[k].item.FromPcap? ==>
               |es[k].item.packet.data| == es[k].item.packet.caplen
    ensures AllRecords(Run(o, s, es))
  {
    hide AllRecords, Step;
    if es != [] {
      RunRecords(o, s, es[..|es| - 1]);
      StepRecords(o, Run(o, s, es[..|es| - 1]), es[|es| - 1]);
    }
  }

  /** The model's reader finds the packets of the records. */
  lemma {:induction false} RecordMeaning(f: seq<OutBlock>)
    requires RecordFile(f)
    ensures PacketsOf(ReadFile(f).1, 0) == RecordPackets(f)
    ensures f != [] ==> ReadFile(f).0.table == [CaptureInterface(0)]
  {
    hide PacketsOf;
    NoPackets(0);
    if |f| == 1 {
      PcapHeaderReads();
      assert f == [PcapHeader] && f[..0] == [];
    } else if f != [] {
      var n := |f| - 1;
      RecordMeaning(f[..n]);
      var x := Seen(PacketPayload(f[n].packet), To(CaptureInterface(0)));
      assert f == f[..n] + [f[n]];
      ReadFileSnoc(f[..n], f[n]);
      PacketsOfMore(ReadFile(f[..n]).1, [x], 0);
      OnePacket(x, 0);
    }
  }

  /** What a pcap reader finds in the bytes of the files, one after another. */
  function ReadRecords(files: seq<seq<OutBlock>>): seq<Packet> {
    if files == [] then []
    else ReadRecords(files[..|files| - 1]) + PcapFormat.Parse(HOST_FILE, Records(files[|files| - 1])).packets
  }

  lemma {:induction false} RecordsAreRead(o: Options, files: seq<seq<OutBlock>>)
    requires forall k :: 0 <= k < |files| ==> RecordFile(files[k])
    ensures ReadRecords(files) == PacketsOf(ReadFiles(files), 0)
  {
    hide PacketsOf, PcapFormat.Parse, ReadFile, PcapFile, Records;
    NoPackets(0);
    if files != [] {
      var n := |files| - 1;
      RecordsAreRead(o, files[..n]);
      RecordMeaning(files[n]);
      SeenOfMore(ReadFiles(files[..n]), ReadFile(files[n]).1, 0);
      FileIsRead(o, files[n]);
    }
  }

  lemma FileIsRead(o: Options, f: seq<OutBlock>)
    requires RecordFile(f)
    ensures PcapFormat.Parse(HOST_FILE, Records(f)).packets == RecordPackets(f)
  {
    hide PcapFormat.Parse;
    if f == [] {
      NoRecords();
    } else {
      PcapFileReadsBack(o, f);
    }
  }

  lemma {:induction false} SeenOfMore(seen: seq<Seen>, more: seq<Seen>, i: nat)
    ensures PacketsOf(seen + more, i) == PacketsOf(seen, i) + PacketsOf(more, i)
    decreases |more|
  {
    if more == [] {
      assert seen + more == seen;
    } else {
      var n := |more| - 1;
      SeenOfMore(seen, more[..n], i);
      assert (seen + more)[..|seen| + n] == seen + more[..n];
    }
  }

  /** A pcap capture, down to the bytes: whatever is rotated, dropped or stopped, a pcap reader finds in the records
      of the files, one file after another, exactly the packets that took effect, in order. */
  lemma {:induction false} PcapCaptureReadsBack(o: Options, io: Io, es: seq<Event>)
    requires !o.usePcapng && Started(o, [false], io).1
    requires forall k :: 0 <= k < |es| && es[k].Deliver? && es[k].item.FromPcap? ==>
               |es[k].item.packet.data| == es[k].item.packet.caplen
    ensures var s := Run(o, Started(o, [false], io).0, es);
            ReadRecords(s.files) == PacketItems(Of(s.log, 0))
  {
    hide Started, Run, AllRecords, PacketsOf, PacketItems, Of, ReadFiles, RecordFile;
    var s0 := Started(o, [false], io).0;
    StartKeeps(o, [false], io);
    StartAccounted(o, [false], io);
    StartRecords(o, io);
    AlwaysLegal(o, s0, es);
    RunKeeps(o, s0, es);
    RunRecords(o, s0, es);
    var s := Run(o, s0, es);
    OnlyOne(o, s);
    FilesHoldTheLog(o, s, 0);
    RecordsAreRead(o, s.files) by {
      FilesOf(s);
    }
  }

  lemma FilesOf(s: State)
    requires AllRecords(s)
    ensures forall k :: 0 <= k < |s.files| ==> RecordFile(s.files[k])
  {
    hide RecordFile, PcapFile;
  }

  lemma OnlyOne(o: Options, s: State)
    requires Inv(o, s) && !o.usePcapng
    ensures |s.srcs| == 1 && !s.srcs[0].fromPcapng
  {
    hide Linked, ReplaySafe, SameMeaning;
  }

  lemma {:induction false} StartRecords(o: Options, io: Io)
    requires !o.usePcapng && Started(o, [false], io).1
    ensures AllRecords(Started(o, [false], io).0)
  {
    hide Started, PcapFile;
    FileStarts.CaptureStartsIff(o, [false], io);
    StartAccounted(o, [false], io);
    HeaderFile();
  }

  /** Packets are always framed. */
  lemma {:induction false} AlwaysLegal(o: Options, s: State, es: seq<Event>)
    requires Inv(o, s) && !o.usePcapng
    ensures LegalRun(o, s, es)
  {
    hide Inv, Step;
    if es != [] {
      var before := es[..|es| - 1];
      AlwaysLegal(o, s, before);
      RunKeeps(o, s, before);
      OnlyOne(o, Run(o, s, before));
    }
  }
}
