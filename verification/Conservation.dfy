/** Where every delivery goes: it takes effect, is dropped, or is flushed; and what takes effect is what a
    reader finds in the output files. */
module Conservation {
  import opened PcapngFormat
  import opened Engine
  import opened Meaning
  import opened MeaningKept

  /** What a log has of source i, in order. */
  function Of(log: seq<Entry>, i: nat): seq<Item> {
    if log == [] then []
    else
      var before, e := Of(log[..|log| - 1], i), log[|log| - 1];
      if e.src == i then before + [e.item] else before
  }

  lemma OfSnoc(log: seq<Entry>, e: Entry, i: nat)
    ensures Of(log + [e], i) == if e.src == i then Of(log, i) + [e.item] else Of(log, i)
  {
    assert (log + [e])[..|log|] == log;
  }

  predicate IsData(item: Item) {
    item.FromPipe? ==> IsDataBlock(item.block.btype)
  }

  /** The entries that count as packets. */
  function DataEntries(log: seq<Entry>): nat {
    if log == [] then 0 else DataEntries(log[..|log| - 1]) + if IsData(log[|log| - 1].item) then 1 else 0
  }

  lemma DataSnoc(log: seq<Entry>, e: Entry)
    ensures DataEntries(log + [e]) == DataEntries(log) + if IsData(e.item) then 1 else 0
  {
    assert (log + [e])[..|log|] == log;
  }

  // ---- One step

  /** A running capture has an output file, and one that was thrown off its course has none. */
  ghost predicate Healthy(s: State) {
    s.files != [] && (s.go ==> s.open) && (s.open ==> s.fault.NoFault?)
  }

  ghost predicate SameCounts(a: Src, b: Src) {
    a.fromPcapng == b.fromPcapng && a.received == b.received && a.dropped == b.dropped && a.flushed == b.flushed
  }

  /** Nothing is counted, apart from what source i counts. */
  ghost predicate OthersSame(s: State, r: State, i: nat) {
    |r.srcs| == |s.srcs| && forall h :: 0 <= h < |s.srcs| && h != i ==> SameCounts(s.srcs[h], r.srcs[h])
  }

  /** Switching files is not the sources' business. */
  lemma {:induction false} SwitchAside(o: Options, s: State, io: Io)
    requires s.files != []
    ensures var r := SwitchOrStop(o, s, io).0;
            && r.srcs == s.srcs && r.log == s.log && r.packetsCaptured == s.packetsCaptured && r.aborted == s.aborted
            && r.passthrough == s.passthrough && r.savedIdbs == s.savedIdbs && r.savedShb == s.savedShb
            && r.files != [] && (r.go ==> r.open && s.go) && (r.open ==> s.open && r.fault == s.fault)
  {
    hide StartBlocks, StartOutput, ReportNewFile, ReportPackets, SwitchOrStop;
    SwitchCases(o, s, io);
    if !MustStop(o, s, io) {
      var next := NextFile(CountFile(o, s));
      StartShape(o, next, io);
      ReportsShape(o, StartOutput(o, next, io).0);
    } else {
      StopOpen(o, s, io);
    }
  }

  lemma StopOpen(o: Options, s: State, io: Io)
    requires s.files != [] && MustStop(o, s, io)
    ensures SwitchOrStop(o, s, io).0 == StopInstead(o, s)
  {
    hide SwitchFile;
  }

  /** The effect of counting a packet. */
  ghost predicate PacketCounted(o: Options, s: State, r: State, i: nat)
    requires i < |s.srcs|
  {
    && OthersSame(s, r, i) && r.log == s.log && r.aborted == s.aborted && r.packetsCaptured == s.packetsCaptured + 1
    && r.passthrough == s.passthrough && r.savedIdbs == s.savedIdbs
    && SameCounts(s.srcs[i].(received := s.srcs[i].received + if o.useThreads then 0 else 1), r.srcs[i])
    && Healthy(r)
  }

  lemma {:induction false} WroteOutcome(o: Options, s: State, i: nat, io: Io)
    requires Healthy(s) && s.go && i < |s.srcs|
    ensures PacketCounted(o, s, WroteOnePacket(o, s, i, io), i)
  {
    hide SwitchOrStop;
    var counted := WithPacket(o, s, i);
    SwitchAside(o, counted, io);
  }

  /** What became of an item. */
  datatype Fate = Effective | Dropped | Skipped | Fatal

  function FateOf(s: State, r: State): Fate {
    if !s.go then Skipped else if r.aborted then Fatal else if |r.log| > |s.log| then Effective else Dropped
  }

  /** How a delivery changes the counters and the log, according to its fate. */
  ghost predicate Settled(o: Options, s: State, r: State, i: nat, item: Item)
    requires i < |s.srcs|
  {
    && OthersSame(s, r, i) && Healthy(r) && r.passthrough == s.passthrough && (r.go ==> s.go)
    && match FateOf(s, r)
       case Skipped =>
         && SameCounts(s.srcs[i].(flushed := s.srcs[i].flushed + 1), r.srcs[i])
         && r.log == s.log && r.packetsCaptured == s.packetsCaptured && r.aborted == s.aborted
       case Dropped =>
         && SameCounts(s.srcs[i].(dropped := s.srcs[i].dropped + 1), r.srcs[i]) && !r.go
         && r.log == s.log && r.packetsCaptured == s.packetsCaptured
       case Fatal =>
         && item.FromPipe? && SameCounts(s.srcs[i], r.srcs[i])
         && r.log == s.log && r.packetsCaptured == s.packetsCaptured
       case Effective =>
         && r.log == s.log + [Entry(i, item)]
         && r.packetsCaptured == s.packetsCaptured + (if IsData(item) then 1 else 0)
         && SameCounts(s.srcs[i].(received := s.srcs[i].received + if IsData(item) && !o.useThreads then 1 else 0), r.srcs[i])
  }

  lemma {:induction false} PipeOutcome(o: Options, s: State, i: nat, b: Block, io: Io)
    requires Healthy(s) && Alive(s) && i < |s.srcs| && |b.bytes| >= 12
    ensures Settled(o, s, WritePcapng(o, s, i, b, io), i, FromPipe(b))
  {
    hide AdjustBlock, WroteOnePacket, CanCopy, IsDataBlock;
    ShbIsNoData();
    if s.go {
      AdjustOutcome(s, i, b);
      var a := AdjustBlock(s, i, b);
      if s.open && a.ok {
        var w := Logged(Put(o, a.state, Copied(a.bytes)), i, FromPipe(b));
        WroteOutcome(o, w, i, io);
      }
    }
  }

  lemma ShbIsNoData()
    ensures !IsDataBlock(BLOCK_TYPE_SHB)
  {
  }

  lemma AdjustOutcome(s: State, i: nat, b: Block)
    requires i < |s.srcs| && |b.bytes| >= 12
    ensures var r := AdjustBlock(s, i, b).state;
            && OthersSame(s, r, i) && SameCounts(s.srcs[i], r.srcs[i]) && r.log == s.log && r.aborted == s.aborted
            && r.packetsCaptured == s.packetsCaptured && r.go == s.go && r.open == s.open && r.files == s.files
            && r.fault == s.fault
            && r.passthrough == s.passthrough && |r.savedIdbs| <= |s.savedIdbs| + 1
  {
    hide Bytes.Word, WithInterfaceId, DeleteSlots;
  }

  lemma {:induction false} PcapOutcome(o: Options, s: State, i: nat, p: Packet, io: Io)
    requires Healthy(s) && Alive(s) && i < |s.srcs|
    ensures Settled(o, s, WritePacket(o, s, i, p, io), i, FromPcap(p))
    ensures WritePacket(o, s, i, p, io).savedIdbs == s.savedIdbs
  {
    hide WroteOnePacket;
    if s.go {
      WroteOutcome(o, Logged(Put(o, s, PacketBlock(o, s.srcs[i], p)), i, FromPcap(p)), i, io);
    }
  }

  lemma {:induction false} DeliveryOutcome(o: Options, s: State, i: nat, item: Item, io: Io)
    requires Healthy(s) && Alive(s) && EventFits(s, Deliver(i, item, io))
    ensures Settled(o, s, Step(o, s, Deliver(i, item, io)), i, item)
  {
    hide WritePcapng, WritePacket, Settled;
    match item
    case FromPipe(b) => PipeOutcome(o, s, i, b, io);
    case FromPcap(p) => PcapOutcome(o, s, i, p, io);
  }

  /** Timers and stop requests deliver nothing. */
  lemma {:induction false} OtherOutcome(o: Options, s: State, e: Event)
    requires Healthy(s) && !e.Deliver? && !e.ShbSeen?
    ensures var r := Step(o, s, e);
            && r.srcs == s.srcs && r.log == s.log && r.packetsCaptured == s.packetsCaptured && r.aborted == s.aborted
            && r.passthrough == s.passthrough && r.savedIdbs == s.savedIdbs && Healthy(r) && (r.go ==> s.go)
  {
    hide SwitchOrStop, ReportPackets;
    if e.TimersLooked? && Alive(s) {
      var r := ReportPackets(o, s);
      ReportAside(o, s);
      SwitchAside(o, r, e.io);
      SwitchAside(o, r, e.io');
      SwitchAside(o, SwitchOrStop(o, r, e.io).0, e.io');
    }
  }

  lemma ReportAside(o: Options, s: State)
    ensures var r := ReportPackets(o, s);
            r == s.(messages := r.messages, inpktsToSyncPipe := r.inpktsToSyncPipe)
  {
  }

  /** Nothing is counted when a reader learns the byte order of a section. */
  lemma SeenOutcome(o: Options, s: State, e: Event)
    requires Healthy(s) && e.ShbSeen?
    ensures var r := Step(o, s, e);
            && Healthy(r) && r == s.(srcs := r.srcs) && |r.srcs| == |s.srcs|
            && forall i :: 0 <= i < |s.srcs| ==> r.srcs[i] == s.srcs[i].(byteSwapped := r.srcs[i].byteSwapped)
  {
  }

  // ---- Runs in one thread

  /** The deliveries of source i that reached a process that was still alive. */
  function Deliveries(o: Options, s: State, es: seq<Event>, i: nat): nat {
    if es == [] then 0
    else
      var before, e := es[..|es| - 1], es[|es| - 1];
      Deliveries(o, s, before, i)
      + if e.Deliver? && e.src == i && Alive(Run(o, s, before)) && EventFits(Run(o, s, before), e) then 1 else 0
  }

  /** Source i of a run: every delivery is in the log, or counted as dropped or flushed. */
  ghost predicate Accounted(o: Options, s: State, i: nat, deliveries: nat)
    requires i < |s.srcs|
  {
    var src := s.srcs[i];
    && !src.fromPcapng
    && deliveries == |Of(s.log, i)| + src.dropped + src.flushed
    && (!o.useThreads ==> src.received == |Of(s.log, i)|)
  }

  lemma {:induction false} RunAccounted(o: Options, s: State, es: seq<Event>, i: nat)
    requires Healthy(s) && i < |s.srcs| && Accounted(o, s, i, 0) && s.packetsCaptured == DataEntries(s.log)
    ensures var r := Run(o, s, es);
            && Healthy(r) && |r.srcs| == |s.srcs| && Accounted(o, r, i, Deliveries(o, s, es, i))
            && r.packetsCaptured == DataEntries(r.log)
  {
    hide Of, DataEntries, Step, IsDataBlock, EventFits;
    if es != [] {
      var before, e := es[..|es| - 1], es[|es| - 1];
      var b, r := Run(o, s, before), Run(o, s, es);
      RunAccounted(o, s, before, i);
      if !Alive(b) {
        Dead(o, b, e);
      } else if e.ShbSeen? {
        SeenOutcome(o, b, e);
      } else if !e.Deliver? {
        OtherOutcome(o, b, e);
      } else if !EventFits(b, e) {
        Unfit(o, b, e);
      } else {
        DeliveryAccounted(o, b, e, i, Deliveries(o, s, before, i));
      }
    }
  }

  lemma Dead(o: Options, s: State, e: Event)
    requires !Alive(s)
    ensures Step(o, s, e) == s
  {
  }

  lemma Unfit(o: Options, s: State, e: Event)
    requires !EventFits(s, e)
    ensures Step(o, s, e) == s
  {
  }

  lemma {:induction false} DeliveryAccounted(o: Options, s: State, e: Event, i: nat, n: nat)
    requires Healthy(s) && Alive(s) && e.Deliver? && EventFits(s, e) && i < |s.srcs| && Accounted(o, s, i, n)
    requires s.packetsCaptured == DataEntries(s.log)
    ensures var r := Step(o, s, e);
            && Healthy(r) && |r.srcs| == |s.srcs| && Accounted(o, r, i, n + if e.src == i then 1 else 0)
            && r.packetsCaptured == DataEntries(r.log)
  {
    hide Of, DataEntries, Step, IsDataBlock;
    DeliveryOutcome(o, s, e.src, e.item, e.io);
    OfSnoc(s.log, Entry(e.src, e.item), i);
    DataSnoc(s.log, Entry(e.src, e.item));
  }

  lemma {:induction false} StartAccounted(o: Options, pcapng: seq<bool>, io: Io)
    requires pcapng != []
    ensures var s := Started(o, pcapng, io).0;
            && s.files != [] && s.go && |s.srcs| == |pcapng| && s.log == [] && s.packetsCaptured == 0
            && !s.aborted && s.savedShb == []
            && (forall i :: 0 <= i < |s.srcs| ==> !s.srcs[i].byteSwapped)
            && s.passthrough == (pcapng == [true]) && s.savedIdbs == OpenedIdbs(pcapng)
            && (forall i :: 0 <= i < |pcapng| ==>
                  SameCounts(s.srcs[i], Src(pcapng[i], 0, [], false, 0, 0, 0)))
    ensures Started(o, pcapng, io).1 ==> Healthy(Started(o, pcapng, io).0) && Alive(Started(o, pcapng, io).0)
  {
    hide StartBlocks, StartOutput, OpenedIdbs;
    FreshCounts(pcapng);
    StartShape(o, OpenInput(pcapng), io);
  }

  lemma {:induction false} FreshCounts(pcapng: seq<bool>)
    ensures forall i :: 0 <= i < |pcapng| ==> SameCounts(OpenedSrcs(pcapng)[i], Src(pcapng[i], 0, [], false, 0, 0, 0))
                                              && !OpenedSrcs(pcapng)[i].byteSwapped
  {
    hide OpenedIdbs;
    if pcapng != [] {
      FreshCounts(pcapng[..|pcapng| - 1]);
      assert forall i :: 0 <= i < |pcapng| - 1 ==> OpenedSrcs(pcapng)[i] == OpenedSrcs(pcapng[..|pcapng| - 1])[i];
    }
  }

  /** Every packet a pcap source delivered took effect, was dropped or was flushed; without threads those
      received are exactly those that took effect; and packets_captured counts the data entries. */
  lemma {:induction false} NothingIsLost(o: Options, pcapng: seq<bool>, io: Io, es: seq<Event>, i: nat)
    requires OptionsFit(o, pcapng) && Started(o, pcapng, io).1 && i < |pcapng| && !pcapng[i]
    ensures var s0 := Started(o, pcapng, io).0;
            var s := Run(o, s0, es);
            && |s.srcs| == |pcapng|
            && Deliveries(o, s0, es, i) == |Of(s.log, i)| + s.srcs[i].dropped + s.srcs[i].flushed
            && (!o.useThreads ==> s.srcs[i].received == |Of(s.log, i)|)
            && s.packetsCaptured == DataEntries(s.log)
  {
    hide Started, Run;
    StartAccounted(o, pcapng, io);
    RunAccounted(o, Started(o, pcapng, io).0, es, i);
  }

  // ---- The log and the files

  /** The packets in what was read that refer to interface i of the command line. */
  function PacketsOf(seen: seq<Seen>, i: nat): seq<Packet> {
    if seen == [] then []
    else
      var before, x := PacketsOf(seen[..|seen| - 1], i), seen[|seen| - 1];
      if x.payload.PacketPayload? && x.reference == To(CaptureInterface(i)) then before + [x.payload.packet] else before
  }

  lemma {:induction false} PacketsOfMore(seen: seq<Seen>, more: seq<Seen>, i: nat)
    requires |more| <= 1
    ensures PacketsOf(seen + more, i) == PacketsOf(seen, i) + PacketsOf(more, i)
  {
    if more == [] {
      assert seen + more == seen;
    } else {
      assert (seen + more)[..|seen|] == seen && more[..0] == [];
    }
  }

  /** The packets among items. */
  function PacketItems(items: seq<Item>): seq<Packet> {
    if items == [] then []
    else
      var before, x := PacketItems(items[..|items| - 1]), items[|items| - 1];
      if x.FromPcap? then before + [x.packet] else before
  }

  lemma {:induction false} InputPackets(n: nat, log: seq<Entry>, i: nat)
    requires i < n
    ensures PacketsOf(ReadInputs(n, log).seen, i) == PacketItems(Of(log, i))
  {
    hide PacketsOf;
    if log == [] {
      NoPackets(i);
    } else {
      var before, e := log[..|log| - 1], log[|log| - 1];
      InputPackets(n, before, i);
      EntryPackets(ReadInputs(n, before), e, i);
      assert log == before + [e];
      OfSnoc(before, e, i);
      PacketItemsSnoc(Of(before, i), e.item);
    }
  }

  lemma NoPackets(i: nat)
    ensures PacketsOf([], i) == []
  {
  }

  lemma PacketItemsSnoc(items: seq<Item>, x: Item)
    ensures PacketItems(items + [x]) == PacketItems(items) + if x.FromPcap? then [x.packet] else []
  {
    assert (items + [x])[..|items|] == items;
  }

  lemma EntryPackets(ins: Inputs, e: Entry, i: nat)
    requires i < |ins.tabs|
    ensures PacketsOf(ReadEntry(ins, e).seen, i)
            == PacketsOf(ins.seen, i) + if e.src == i && e.item.FromPcap? then [e.item.packet] else []
  {
    hide PacketsOf, IsShb, IsIdb, TypeOf;
    if e.src < |ins.tabs| {
      if e.item.FromPipe? {
        var more := ReadBytes(ins.tabs[e.src], e.item.block.bytes).1;
        BlocksAreNoPackets(ins.tabs[e.src], e.item.block.bytes, i);
        PacketsOfMore(ins.seen, more, i);
      } else {
        var x := Seen(PacketPayload(e.item.packet), To(CaptureInterface(e.src)));
        PacketsOfMore(ins.seen, [x], i);
        OnePacket(x, i);
      }
    }
  }

  lemma OnePacket(x: Seen, i: nat)
    requires x.payload.PacketPayload?
    ensures PacketsOf([x], i) == if x.reference == To(CaptureInterface(i)) then [x.payload.packet] else []
  {
    assert [x][..0] == [];
  }

  lemma BlocksAreNoPackets(t: Tab, bytes: seq<Bytes.byte>, i: nat)
    ensures |ReadBytes(t, bytes).1| <= 1 && PacketsOf(ReadBytes(t, bytes).1, i) == []
  {
    hide IsShb, IsIdb, TypeOf;
  }

  /** The packets a reader finds under the interface of a pcap source, over all files in order, are exactly
      the packets of that source that took effect, in order. */
  lemma FilesHoldTheLog(o: Options, s: State, i: nat)
    requires Inv(o, s) && i < |s.srcs|
    ensures PacketsOf(ReadFiles(s.files), i) == PacketItems(Of(s.log, i))
  {
    hide PacketsOf, ReadInputs, ReadFiles, Linked, ReplaySafe;
    InputPackets(|s.srcs|, s.log, i);
  }
}
