/** Limits on packets and files, and what the parent process is told: every run of the engine keeps the
    captured packets, the packets in each file, and the counts sent between file names in agreement. */
module Reports {
  import opened PcapngFormat
  import opened Engine
  import opened Meaning
  import opened MeaningKept
  import References

  // ---- Packets in the files

  predicate IsPacket(x: Seen) {
    match x.payload
    case PacketPayload(_) => true
    case BlockPayload(btype, _) => IsDataBlock(btype)
  }

  function Packets(seen: seq<Seen>): nat {
    if seen == [] then 0 else Packets(seen[..|seen| - 1]) + (if IsPacket(seen[|seen| - 1]) then 1 else 0)
  }

  /** The packets in each file, as a reader of the file counts them. */
  function PerFile(files: seq<seq<OutBlock>>): (r: seq<nat>)
    ensures |r| == |files|
  {
    if files == [] then [] else PerFile(files[..|files| - 1]) + [Packets(ReadFile(files[|files| - 1]).1)]
  }

  function Sum(c: seq<nat>): nat {
    if c == [] then 0 else Sum(c[..|c| - 1]) + c[|c| - 1]
  }

  // ---- Messages

  /** The files announced, in order. */
  function Announced(ms: seq<Message>): seq<nat> {
    if ms == [] then []
    else
      var before := Announced(ms[..|ms| - 1]);
      if ms[|ms| - 1].SpFile? then before + [ms[|ms| - 1].file] else before
  }

  /** The sum of the counts sent while exactly n files had been announced. */
  function SumAfter(ms: seq<Message>, n: nat): nat {
    if ms == [] then 0
    else
      var before, m := ms[..|ms| - 1], ms[|ms| - 1];
      SumAfter(before, n) + (if m.SpPacketCount? && |Announced(before)| == n then m.count else 0)
  }

  function SumOfCounts(ms: seq<Message>): nat {
    if ms == [] then 0
    else SumOfCounts(ms[..|ms| - 1]) + (match ms[|ms| - 1] case SpFile(_) => 0 case SpPacketCount(n) => n)
  }

  lemma MessageSnoc(ms: seq<Message>, m: Message)
    ensures Announced(ms + [m]) == if m.SpFile? then Announced(ms) + [m.file] else Announced(ms)
    ensures SumOfCounts(ms + [m]) == SumOfCounts(ms) + if m.SpFile? then 0 else m.count
    ensures forall n: nat ::
              SumAfter(ms + [m], n) == SumAfter(ms, n) + if m.SpPacketCount? && |Announced(ms)| == n then m.count else 0
  {
    assert (ms + [m])[..|ms|] == ms;
  }

  // ---- The invariant, on the packets per file

  predicate Within(limit: Limit, n: nat, open: bool) {
    limit.Limit? && limit.n > 0 ==> n <= limit.n && (open ==> n < limit.n)
  }

  /** The files announced are the files opened, up to one whose start failed; the counts sent after each
      announcement are the packets of that file, apart from those not reported yet. */
  ghost predicate Attributed(c: seq<nat>, s: State) {
    var a := Announced(s.messages);
    && 0 < |a| <= |c| && (s.open ==> |a| == |c|)
    && (forall k :: 0 <= k < |a| ==> a[k] == k)
    && SumAfter(s.messages, 0) == 0
    && (forall k {:trigger c[k]} :: 0 <= k < |a| - 1 ==> SumAfter(s.messages, k + 1) == c[k])
    && SumAfter(s.messages, |a|) + s.inpktsToSyncPipe == c[|a| - 1]
    && (forall k :: |a| <= k < |c| ==> c[k] == 0)
    && (forall n :: n > |a| ==> SumAfter(s.messages, n) == 0)
  }

  ghost predicate Base(o: Options, c: seq<nat>, s: State) {
    && |c| == |s.files| > 0 && (s.go ==> s.open)
    && s.packetsCaptured == Sum(c) && s.packetsWritten == c[|c| - 1]
    && Within(o.autostopPackets, s.packetsCaptured, s.go)
    && Within(o.autostopWrittenPackets, s.packetsCaptured, s.go)
    && (forall k :: 0 <= k < |c| ==> Within(o.filePackets, c[k], false))
    && (if o.multiFiles then o.autostopFiles.Limit? ==> Within(o.autostopFiles, |c|, false) && |c| <= s.fileCount + 1
        else |c| == 1)
    && (o.captureChild && !o.quiet ==>
          && SumOfCounts(s.messages) + s.inpktsToSyncPipe == s.packetsCaptured
          && (!s.passthrough ==> Attributed(c, s)))
  }

  /** While capturing, the current file has room for a packet. */
  ghost predicate Room(o: Options, c: seq<nat>, s: State) {
    c != [] && Within(o.filePackets, c[|c| - 1], s.go)
  }

  /** States that differ in nothing the ledger looks at. */
  ghost predicate SameLedger(s: State, s': State) {
    && |s'.files| == |s.files| && s'.passthrough == s.passthrough && s'.messages == s.messages
    && s'.packetsCaptured == s.packetsCaptured && s'.packetsWritten == s.packetsWritten
    && s'.inpktsToSyncPipe == s.inpktsToSyncPipe && s.fileCount <= s'.fileCount
    && (s'.go ==> s.go) && (s'.open ==> s.open) && (s'.go ==> s'.open)
  }

  lemma LedgerFrame(o: Options, c: seq<nat>, s: State, s': State)
    requires Base(o, c, s) && SameLedger(s, s')
    ensures Base(o, c, s')
    ensures Room(o, c, s) ==> Room(o, c, s')
  {
  }

  lemma ReportLedger(o: Options, c: seq<nat>, s: State)
    requires Base(o, c, s)
    ensures Base(o, c, ReportPackets(o, s)) && ReportPackets(o, s).inpktsToSyncPipe == 0
    ensures Room(o, c, s) ==> Room(o, c, ReportPackets(o, s))
  {
    hide Announced, SumAfter, SumOfCounts;
    MessageSnoc(s.messages, SpPacketCount(s.inpktsToSyncPipe));
  }

  lemma SumSnoc(c: seq<nat>, n: nat)
    ensures Sum(c + [n]) == Sum(c) + n
  {
    assert (c + [n])[..|c|] == c;
  }

  /** A new file: announced, once everything about the old one has been reported, or lost at its start. */
  lemma NewFileLedger(o: Options, c: seq<nat>, s: State, s': State)
    requires Base(o, c, s) && s.open && o.multiFiles && !Reached(o.autostopFiles, s.fileCount + 1)
    requires s'.open ==> s.inpktsToSyncPipe == 0
    requires |s'.files| == |s.files| + 1 && s'.passthrough == s.passthrough && s'.packetsWritten == 0
    requires s'.packetsCaptured == s.packetsCaptured && s'.inpktsToSyncPipe == s.inpktsToSyncPipe
    requires o.autostopFiles.Limit? ==> s'.fileCount == s.fileCount + 1
    requires s'.go ==> s.go && s'.open
    requires s'.messages == s.messages + (if o.captureChild && !s.passthrough && s'.open then [SpFile(|c|)] else [])
    ensures Base(o, c + [0], s') && Room(o, c + [0], s')
  {
    hide Announced, SumAfter, SumOfCounts;
    SumSnoc(c, 0);
    MessageSnoc(s.messages, SpFile(|c|));
    assert s.messages + [] == s.messages;
  }

  lemma SwitchLedger(o: Options, c: seq<nat>, s: State, io: Io) returns (c': seq<nat>)
    requires Base(o, c, s) && s.files != []
    ensures var r := SwitchOrStop(o, s, io).0;
            Base(o, c', r) && Room(o, c', r) && (if |r.files| == |s.files| then c' == c else c' == c + [0])
  {
    hide Base, Room, SwitchFile, SwitchOrStop;
    var r := SwitchOrStop(o, s, io).0;
    BaseFacts(o, c, s);
    SwitchCases(o, s, io);
    if MustStop(o, s, io) {
      c' := c;
      LedgerFrame(o, c, s, r);
      StoppedHasRoom(o, c, r);
    } else {
      c' := c + [0];
      SwitchFileLedger(o, c, s, io);
    }
  }

  lemma {:induction false} SwitchFileLedger(o: Options, c: seq<nat>, s: State, io: Io)
    requires Base(o, c, s) && !MustStop(o, s, io)
    ensures var r := SwitchFile(o, NextFile(CountFile(o, s)), io).0;
            Base(o, c + [0], r) && Room(o, c + [0], r) && |r.files| == |s.files| + 1
  {
    hide Base, Room, StartBlocks, StartOutput, ReportPackets, ReportNewFile;
    var next := NextFile(CountFile(o, s));
    var (started, ok) := StartOutput(o, next, io);
    var r := SwitchFile(o, next, io).0;
    BaseFacts(o, c, s);
    StartShape(o, next, io);
    if !ok {
      assert s.messages + [] == s.messages;
      NewFileLedger(o, c, s, r);
    } else {
      ReportLedger(o, c, s);
      ReportsSame(o, s, started);
      NewFileLedger(o, c, ReportPackets(o, s), r);
    }
  }

  lemma BaseFacts(o: Options, c: seq<nat>, s: State)
    requires Base(o, c, s)
    ensures |c| == |s.files| > 0 && (s.go ==> s.open)
  {
  }

  lemma StoppedHasRoom(o: Options, c: seq<nat>, s: State)
    requires Base(o, c, s) && !s.go
    ensures Room(o, c, s)
  {
  }

  /** A report says the same before and after the next file is opened. */
  lemma ReportsSame(o: Options, s: State, t: State)
    requires t.files != []
    requires t.inpktsToSyncPipe == s.inpktsToSyncPipe && t.messages == s.messages && t.passthrough == s.passthrough
    ensures var p, r := ReportPackets(o, s), ReportNewFile(o, ReportPackets(o, t));
            && p == s.(messages := p.messages, inpktsToSyncPipe := 0)
            && r == t.(messages := r.messages, inpktsToSyncPipe := 0, pendingFile := r.pendingFile)
            && r.messages == p.messages + if o.captureChild && !s.passthrough then [SpFile(|t.files| - 1)] else []
  {
    var p := ReportPackets(o, s).messages;
    assert ReportPackets(o, t).messages == p && p + [] == p;
  }

  /** One more packet in the current file. */
  function OneMore(c: seq<nat>): seq<nat>
    requires c != []
  {
    c[|c| - 1 := c[|c| - 1] + 1]
  }

  lemma WroteLedger(o: Options, c: seq<nat>, s: State, i: nat, io: Io) returns (c': seq<nat>)
    requires Base(o, c, s) && Room(o, c, s) && s.go && i < |s.srcs|
    ensures var r := WroteOnePacket(o, s, i, io);
            Base(o, c', r) && Room(o, c', r)
            && (if |r.files| == |s.files| then c' == OneMore(c) else c' == OneMore(c) + [0])
  {
    hide Base, Room, SwitchOrStop;
    var counted := WithPacket(o, s, i);
    BaseFacts(o, c, s);
    var c1 := OneMore(c);
    if Reached(o.autostopPackets, counted.packetsCaptured) || Reached(o.autostopWrittenPackets, counted.packetsCaptured) {
      CountedLedger(o, c, s, Stop(counted));
      StoppedHasRoom(o, c1, Stop(counted));
      c' := c1;
    } else {
      CountedLedger(o, c, s, counted);
      if Reached(o.filePackets, counted.packetsWritten) || FilesizeReached(o, counted.bytesWritten) {
        c' := SwitchLedger(o, c1, counted, io);
      } else {
        c' := c1;
        RoomLeft(o, c, s, counted);
      }
    }
  }

  lemma RoomLeft(o: Options, c: seq<nat>, s: State, s': State)
    requires Base(o, c, s) && s'.packetsWritten == s.packetsWritten + 1 && !Reached(o.filePackets, s'.packetsWritten)
    ensures Room(o, OneMore(c), s')
  {
  }

  lemma {:induction false} SumUpdate(c: seq<nat>, k: nat, n: nat)
    requires k < |c|
    ensures Sum(c[k := n]) == Sum(c) - c[k] + n
  {
    var d, last := c[k := n], |c| - 1;
    if k == last {
      assert d[..last] == c[..last];
    } else {
      assert d[..last] == c[..last][k := n];
      SumUpdate(c[..last], k, n);
    }
  }

  lemma CountedLedger(o: Options, c: seq<nat>, s: State, s': State)
    requires Base(o, c, s) && Room(o, c, s) && s.go
    requires |s'.files| == |s.files| && s'.passthrough == s.passthrough && s'.messages == s.messages
    requires s'.packetsCaptured == s.packetsCaptured + 1 && s'.packetsWritten == s.packetsWritten + 1
    requires s'.inpktsToSyncPipe == s.inpktsToSyncPipe + 1 && s'.fileCount == s.fileCount && s'.open == s.open
    requires s'.go ==> !Reached(o.autostopPackets, s'.packetsCaptured)
                       && !Reached(o.autostopWrittenPackets, s'.packetsCaptured)
    ensures Base(o, OneMore(c), s')
  {
    hide Announced, SumAfter, SumOfCounts;
    SumUpdate(c, |c| - 1, c[|c| - 1] + 1);
  }

  // ---- Steps

  ghost predicate Counted(o: Options, s: State) {
    Base(o, PerFile(s.files), s) && Room(o, PerFile(s.files), s)
  }

  lemma PacketsSnoc(seen: seq<Seen>, x: Seen)
    ensures Packets(seen + [x]) == Packets(seen) + if IsPacket(x) then 1 else 0
  {
    assert (seen + [x])[..|seen|] == seen;
  }

  lemma PerFileSnoc(files: seq<seq<OutBlock>>, f: seq<OutBlock>)
    ensures PerFile(files + [f]) == PerFile(files) + [Packets(ReadFile(f).1)]
  {
    hide ReadFile, Packets;
    assert (files + [f])[..|files|] == files;
  }

  /** Putting a block adds one packet to the current file, or none. */
  lemma PutCounts(o: Options, s: State, b: OutBlock)
    requires s.files != []
    ensures var more, c := ReadBlock(Current(s), b).1, PerFile(s.files);
            |more| <= 1
            && PerFile(Put(o, s, b).files) == if more != [] && IsPacket(more[0]) then OneMore(c) else c
  {
    hide ReadFile, Packets, IsPacket, ReadBlock, PerFile;
    var n := |s.files| - 1;
    var last, more := s.files[n], ReadBlock(Current(s), b).1;
    assert s.files == s.files[..n] + [last];
    PerFileSnoc(s.files[..n], last);
    assert Put(o, s, b).files == s.files[..n] + [last + [b]];
    PerFileSnoc(s.files[..n], last + [b]);
    ReadFileSnoc(last, b);
    AtMostOne(Current(s), b);
    MorePackets(ReadFile(last).1, more);
  }

  lemma AtMostOne(t: Tab, b: OutBlock)
    ensures |ReadBlock(t, b).1| <= 1
  {
  }

  lemma MorePackets(seen: seq<Seen>, more: seq<Seen>)
    requires |more| <= 1
    ensures Packets(seen + more) == Packets(seen) + if more != [] && IsPacket(more[0]) then 1 else 0
  {
    if more == [] {
      assert seen + more == seen;
    } else {
      assert more == [more[0]];
      PacketsSnoc(seen, more[0]);
    }
  }

  /** A new file starts without packets. */
  lemma NewFileCounts(o: Options, s: State, r: State)
    requires Shape(o, s) && ReplaySafe(s) && Switched(o, s, r)
    ensures PerFile(r.files) == if |r.files| == |s.files| then PerFile(s.files) else PerFile(s.files) + [0]
  {
    hide StartBlocks, ReadFile, SameLinks, IsIdb, IsShb;
    if |r.files| != |s.files| {
      var f := r.files[|s.files|];
      assert f == StartBlocks(o, s)[..|f|];
      StartPrefixSaysNothing(o, s, |f|);
      assert r.files == s.files + [f];
      PerFileSnoc(s.files, f);
    }
  }

  lemma {:induction false} SwitchCounts(o: Options, s: State, io: Io)
    requires Shape(o, s) && ReplaySafe(s) && Base(o, PerFile(s.files), s)
    ensures Counted(o, SwitchOrStop(o, s, io).0)
  {
    hide Base, Room, PerFile, SwitchOrStop, IsIdb, IsShb, Switched;
    var c' := SwitchLedger(o, PerFile(s.files), s, io);
    SwitchShape(o, s, io);
    NewFileCounts(o, s, SwitchOrStop(o, s, io).0);
  }

  /** A data block was put into the file: the counters follow. */
  lemma {:induction false} WroteCounts(o: Options, s: State, w: State, i: nat, io: Io)
    requires Counted(o, s) && s.go && i < |s.srcs| && |w.srcs| == |s.srcs| && Shape(o, w) && ReplaySafe(w)
    requires SameLedger(s, w) && w.go && w.fileCount == s.fileCount && PerFile(w.files) == OneMore(PerFile(s.files))
    ensures Counted(o, WroteOnePacket(o, w, i, io))
  {
    hide Base, Room, PerFile, IsIdb, IsShb, SwitchOrStop, Switched;
    var c := PerFile(s.files);
    LedgerFrame(o, c, s, w);
    var c' := WroteLedger(o, c, w, i, io);
    var counted := WithPacket(o, w, i);
    SwitchShape(o, counted, io);
    NewFileCounts(o, counted, SwitchOrStop(o, counted, io).0);
  }

  /** The bytes that are written are a packet exactly when the delivered block is one. */
  lemma CopiedCounts(o: Options, s: State, i: nat, b: Block)
    requires Inv(o, s) && s.go && i < |s.srcs| && s.srcs[i].fromPcapng
    requires WellFramed(s, ReadInputs(|s.srcs|, s.log).tabs[i], b)
    requires AdjustBlock(s, i, b).ok && (b.btype == BLOCK_TYPE_SHB ==> s.passthrough)
    ensures var more := ReadBlock(Current(s), Copied(AdjustBlock(s, i, b).bytes)).1;
            more != [] && IsPacket(more[0]) <==> IsDataBlock(b.btype)
  {
    hide Bytes.Word, ReadFile, ReadFiles, ReadInputs, SameMeaning, ReplaySafe, IsShb, WithInterfaceId;
    var own := ReadInputs(|s.srcs|, s.log).tabs;
    assert !s.passthrough ==> PipeLinked(s, i, Current(s), own[i]);
    if RefersToInterface(b.btype) && !s.passthrough {
      RewrittenReads(b.bytes, ToU32(s.srcs[i].ifaceToGlobal[Bytes.Word(b.bytes, 8, false)]), false);
    }
  }

  /** A step that leaves the files and the ledger alone. */
  lemma CountedFrame(o: Options, s: State, s': State)
    requires Counted(o, s) && SameLedger(s, s') && PerFile(s'.files) == PerFile(s.files)
    ensures Counted(o, s')
  {
    hide Base, Room, PerFile;
    LedgerFrame(o, PerFile(s.files), s, s');
  }

  lemma {:induction false} WritePcapngCounts(o: Options, s: State, i: nat, b: Block, io: Io)
    requires Inv(o, s) && Counted(o, s) && i < |s.srcs| && s.srcs[i].fromPcapng && |b.bytes| >= 12
    requires s.go ==> WellFramed(s, ReadInputs(|s.srcs|, s.log).tabs[i], b) && (!s.passthrough ==> |s.savedIdbs| < 0xFFFF_FFFF)
    ensures Counted(o, WritePcapng(o, s, i, b, io))
  {
    hide ReadFile, ReadFiles, ReadInputs, PerFile, Counted, WroteOnePacket, AdjustBlock, Linked, IsShb, CanCopy, ReadBlock,
         IsPacket, IsDataBlock, IsIdb, SameMeaning;
    if !s.go {
      CountedFrame(o, s, FlushAt(s, i));
    } else {
      var a := AdjustBlock(s, i, b);
      var out := Copied(a.bytes);
      var w := Logged(Put(o, a.state, out), i, FromPipe(b));
      Adjusts(o, s, i, b);
      AdjustLedger(s, i, b);
      CountedFrame(o, s, a.state.(aborted := true));
      CountedFrame(o, s, a.state);
      if a.ok && (b.btype == BLOCK_TYPE_SHB ==> s.passthrough) {
        AdjustSafe(o, s, i, b);
        CopiedCounts(o, s, i, b);
        PutCounts(o, a.state, out);
        SameParts(a.state, w);
        CountedFrame(o, s, WriteFailed(o, a.state, i, out, io));
        ShbIsNoPacket();
        if IsDataBlock(b.btype) {
          WroteCounts(o, s, w, i, io);
        } else {
          CountedFrame(o, s, w);
          if s.passthrough {
            ShbCounts(o, w);
          }
        }
      } else if b.btype == BLOCK_TYPE_SHB {
        CountedFrame(o, s, Logged(a.state, i, FromPipe(b)));
      }
    }
  }

  lemma ShbIsNoPacket()
    ensures !IsDataBlock(BLOCK_TYPE_SHB)
  {
  }

  lemma AdjustLedger(s: State, i: nat, b: Block)
    requires i < |s.srcs| && |b.bytes| >= 12 && (s.go ==> s.open)
    ensures SameLedger(s, AdjustBlock(s, i, b).state) && AdjustBlock(s, i, b).state.fileCount == s.fileCount
  {
    hide Bytes.Word, WithInterfaceId, DeleteSlots;
  }

  /** The announcement that passthrough puts off is not one of those that are attributed. */
  lemma ShbCounts(o: Options, s: State)
    requires Counted(o, s) && s.passthrough
    ensures Counted(o, ShbWritten(s))
  {
    hide Announced, SumAfter, SumOfCounts, PerFile;
    if s.pendingFile.Limit? {
      MessageSnoc(s.messages, SpFile(s.pendingFile.n));
    }
  }

  lemma {:induction false} WritePacketCounts(o: Options, s: State, i: nat, p: Packet, io: Io)
    requires Inv(o, s) && Counted(o, s) && i < |s.srcs| && !s.srcs[i].fromPcapng
    ensures Counted(o, WritePacket(o, s, i, p, io))
  {
    hide ReadFile, ReadFiles, ReadInputs, PerFile, Counted, WroteOnePacket, Linked, IsIdb, IsShb, SameMeaning;
    if !s.go {
      CountedFrame(o, s, FlushAt(s, i));
    } else {
      var out := PacketBlock(o, s.srcs[i], p);
      var w := Logged(Put(o, s, out), i, FromPcap(p));
      CountedFrame(o, s, WriteFailed(o, s, i, out, io));
      PutCounts(o, s, out);
      SameParts(s, w);
      WroteCounts(o, s, w, i, io);
    }
  }

  lemma {:induction false} TickCounts(o: Options, s: State, t: Timers, io: Io, io': Io)
    requires Inv(o, s) && Counted(o, s)
    ensures Counted(o, Tick(o, s, t, io, io'))
  {
    hide Base, Room, Linked, PerFile, SameMeaning, SwitchOrStop, IsIdb, IsShb;
    var r := ReportPackets(o, s);
    ReportLedger(o, PerFile(s.files), s);
    SameParts(s, r);
    CountedFrame(o, r, Stop(r));
    SwitchCounts(o, r, io);
    SwitchCounts(o, r, io');
    var u := SwitchOrStop(o, r, io).0;
    CounterFrame(o, s, r);
    SwitchKeeps(o, r, io);
    SwitchCounts(o, u, io');
  }

  lemma {:induction false} StepCounts(o: Options, s: State, e: Event)
    requires Inv(o, s) && Counted(o, s) && Legal(s, e)
    ensures Counted(o, Step(o, s, e))
  {
    hide Counted, WritePcapng, WritePacket, Tick, ReadInputs, WellFramed, Inv;
    if Alive(s) && s.files != [] && EventFits(s, e) {
      match e
      case Deliver(i, FromPipe(b), io) =>
        WritePcapngCounts(o, s, i, b, io);
      case Deliver(i, FromPcap(p), io) =>
        WritePacketCounts(o, s, i, p, io);
      case ShbSeen(i, swapped) =>
        SeenCounts(o, s, i, swapped);
      case StopRequest =>
        StopCounts(o, s);
      case TimersLooked(t, io, io') =>
        TickCounts(o, s, t, io, io');
    }
  }

  lemma {:induction false} SeenCounts(o: Options, s: State, i: nat, swapped: bool)
    requires Counted(o, s) && i < |s.srcs|
    ensures Counted(o, Learnt(s, i, swapped))
  {
    hide PerFile;
    CountedFrame(o, s, Learnt(s, i, swapped));
  }

  lemma {:induction false} StopCounts(o: Options, s: State)
    requires Counted(o, s)
    ensures Counted(o, Stop(s))
  {
    hide PerFile;
    CountedFrame(o, s, Stop(s));
  }

  lemma {:induction false} RunCounts(o: Options, s: State, es: seq<Event>)
    requires Inv(o, s) && Counted(o, s) && LegalRun(o, s, es)
    ensures Inv(o, Run(o, s, es)) && Counted(o, Run(o, s, es))
  {
    hide Inv, Counted, Legal, Step;
    if es != [] {
      var before := es[..|es| - 1];
      RunCounts(o, s, before);
      StepKeeps(o, Run(o, s, before), es[|es| - 1]);
      StepCounts(o, Run(o, s, before), es[|es| - 1]);
    }
  }

  /** The capture starts with one file, announced unless passthrough waits for the SHB. */
  lemma StartCounts(o: Options, pcapng: seq<bool>, io: Io)
    requires OptionsFit(o, pcapng) && Started(o, pcapng, io).1
    ensures Counted(o, Started(o, pcapng, io).0)
  {
    hide StartBlocks, StartOutput, ReadFile, Announced, SumAfter, SumOfCounts, OpenedSrcs, OpenedIdbs, IsIdb, IsShb;
    var s := OpenInput(pcapng);
    var (started, ok) := StartOutput(o, s, io);
    StartShape(o, s, io);
    OpenedTab(o, pcapng);
    var f := StartBlocks(o, s);
    assert f[..|f|] == f;
    StartPrefixSaysNothing(o, s, |f|);
    assert started.files == [] + [f];
    PerFileSnoc([], f);
    assert PerFile(started.files) == [0] by {
      assert Packets([]) == 0 && PerFile([]) == [];
    }
    NoMessages();
    assert [] + [SpFile(0)] == [SpFile(0)];
    MessageSnoc([], SpFile(0));
    SumSnoc([], 0);
  }

  lemma NoMessages()
    ensures Announced([]) == [] && SumOfCounts([]) == 0 && forall n: nat :: SumAfter([], n) == 0
    ensures Sum([]) == 0
  {
  }

  // ---- Theorems over whole runs

  /** The last report, after the output is closed. */
  function Finished(o: Options, s: State): State {
    ReportPackets(o, s)
  }

  /** The counts reported and the packets not reported yet add up to the packets captured; at the end the
      reports account for all of them. */
  lemma {:induction false} CountsAddUp(o: Options, pcapng: seq<bool>, io: Io, es: seq<Event>)
    requires OptionsFit(o, pcapng) && Started(o, pcapng, io).1 && o.captureChild && !o.quiet
    requires LegalRun(o, Started(o, pcapng, io).0, es)
    ensures var s := Run(o, Started(o, pcapng, io).0, es);
            && SumOfCounts(s.messages) + s.inpktsToSyncPipe == s.packetsCaptured == Sum(PerFile(s.files))
            && SumOfCounts(Finished(o, s).messages) == s.packetsCaptured
  {
    hide Inv, PerFile, Run, LegalRun, Started, Sum, SumOfCounts, Room;
    StartKeeps(o, pcapng, io);
    StartCounts(o, pcapng, io);
    RunCounts(o, Started(o, pcapng, io).0, es);
    var s := Run(o, Started(o, pcapng, io).0, es);
    ReportLedger(o, PerFile(s.files), s);
  }

  /** The files announced, and the counts sent after announcing one and before announcing the next, once
      the last report has been sent. */
  ghost predicate FollowsFiles(o: Options, s: State) {
    var ms, c := Finished(o, s).messages, PerFile(s.files);
    var a := Announced(ms);
    && a == seq(|a|, k => k) && |a| <= |c|
    && (forall k: nat :: k < |a| ==> SumAfter(ms, k + 1) == c[k])
    && (forall k: nat :: |a| <= k < |c| ==> c[k] == 0)
  }

  lemma CountedFollows(o: Options, s: State)
    requires Counted(o, s) && o.captureChild && !o.quiet && !s.passthrough
    ensures FollowsFiles(o, s)
  {
    hide PerFile, Sum, SumOfCounts, SumAfter, Announced, Room;
    ReportLedger(o, PerFile(s.files), s);
  }

  /** Unless it passes sections through, a capture child announces every file it writes packets to, in
      order, and once it has finished the counts it sent after announcing a file, and before announcing
      the next one, add up to the packets of exactly that file. */
  lemma {:induction false} CountsFollowFiles(o: Options, pcapng: seq<bool>, io: Io, es: seq<Event>)
    requires OptionsFit(o, pcapng) && Started(o, pcapng, io).1 && o.captureChild && !o.quiet
    requires LegalRun(o, Started(o, pcapng, io).0, es) && pcapng != [true]
    ensures FollowsFiles(o, Run(o, Started(o, pcapng, io).0, es))
  {
    hide Inv, Counted, Run, LegalRun, Started, FollowsFiles;
    StartKeeps(o, pcapng, io);
    StartCounts(o, pcapng, io);
    RunCounts(o, Started(o, pcapng, io).0, es);
    StartedPassthrough(o, pcapng, io);
    NeverPassthrough(o, Started(o, pcapng, io).0, es);
    CountedFollows(o, Run(o, Started(o, pcapng, io).0, es));
  }

  lemma {:induction false} NeverPassthrough(o: Options, s: State, es: seq<Event>)
    requires Inv(o, s) && LegalRun(o, s, es) && !s.passthrough
    ensures !Run(o, s, es).passthrough
  {
    hide Linked, ReplaySafe, SameMeaning, Legal, Step, IsIdb;
    if es != [] {
      var before := es[..|es| - 1];
      NeverPassthrough(o, s, before);
      RunKeeps(o, s, before);
      References.SlotsAreNotReused(o, Run(o, s, before), es[|es| - 1]);
    }
  }

  lemma StartedPassthrough(o: Options, pcapng: seq<bool>, io: Io)
    ensures Started(o, pcapng, io).0.passthrough == (pcapng == [true])
  {
    StartShape(o, OpenInput(pcapng), io);
  }

  lemma {:induction false} SumBound(c: seq<nat>, p: nat)
    requires forall k :: 0 <= k < |c| ==> c[k] <= p
    ensures Sum(c) <= |c| * p
  {
    if c != [] {
      SumBound(c[..|c| - 1], p);
      assert |c| * p == (|c| - 1) * p + p;
    }
  }

  /** The promises of the limits: packets in all, packets per file, files, and so packets in those files. */
  ghost predicate WithinLimits(o: Options, s: State) {
    var c := PerFile(s.files);
    && Within(o.autostopPackets, s.packetsCaptured, s.go)
    && Within(o.autostopWrittenPackets, s.packetsCaptured, s.go)
    && (forall k :: 0 <= k < |c| ==> Within(o.filePackets, c[k], false))
    && (o.multiFiles ==> Within(o.autostopFiles, |s.files|, false)) && (!o.multiFiles ==> |s.files| == 1)
    && (o.multiFiles && o.filePackets.Limit? && o.filePackets.n > 0 && o.autostopFiles.Limit? && o.autostopFiles.n > 0
        ==> s.packetsCaptured <= o.autostopFiles.n * o.filePackets.n)
  }

  lemma CountedWithinLimits(o: Options, s: State)
    requires Counted(o, s)
    ensures WithinLimits(o, s)
  {
    hide PerFile, Sum, Attributed;
    if o.multiFiles && o.filePackets.Limit? && o.filePackets.n > 0 && o.autostopFiles.Limit? && o.autostopFiles.n > 0 {
      SumBound(PerFile(s.files), o.filePackets.n);
      Product(|s.files|, o.autostopFiles.n, o.filePackets.n);
    }
  }

  lemma {:induction false} LimitsHold(o: Options, pcapng: seq<bool>, io: Io, es: seq<Event>)
    requires OptionsFit(o, pcapng) && Started(o, pcapng, io).1
    requires LegalRun(o, Started(o, pcapng, io).0, es)
    ensures WithinLimits(o, Run(o, Started(o, pcapng, io).0, es))
  {
    hide Inv, Counted, Run, LegalRun, Started, WithinLimits;
    StartKeeps(o, pcapng, io);
    StartCounts(o, pcapng, io);
    RunCounts(o, Started(o, pcapng, io).0, es);
    CountedWithinLimits(o, Run(o, Started(o, pcapng, io).0, es));
  }

  lemma Product(a: nat, b: nat, p: nat)
    requires a <= b
    ensures a * p <= b * p
  {
  }

  /** Once the capture has been told to stop, it never starts again, and no packet is written any more. */
  lemma {:induction false} StopIsFinal(o: Options, s: State, es: seq<Event>)
    requires !s.go && s.files != []
    ensures var r := Run(o, s, es);
            !r.go && r.files != [] && r.packetsCaptured == s.packetsCaptured && r.log == s.log
  {
    hide Step;
    if es != [] {
      StopIsFinal(o, s, es[..|es| - 1]);
      StoppedStep(o, Run(o, s, es[..|es| - 1]), es[|es| - 1]);
    }
  }

  lemma {:induction false} StoppedStep(o: Options, s: State, e: Event)
    requires !s.go && s.files != []
    ensures var r := Step(o, s, e);
            !r.go && r.files != [] && r.packetsCaptured == s.packetsCaptured && r.log == s.log
  {
    hide SwitchOrStop, SameLinks, StartBlocks;
    if e.TimersLooked? && Alive(s) {
      var r := ReportPackets(o, s);
      var u := SwitchOrStop(o, r, e.io).0;
      SwitchStops(o, r, e.io);
      SwitchStops(o, r, e.io');
      SwitchStops(o, u, e.io');
    }
  }

  lemma {:induction false} SwitchStops(o: Options, s: State, io: Io)
    requires s.files != []
    ensures var r := SwitchOrStop(o, s, io).0;
            (r.go ==> s.go) && r.files != [] && r.packetsCaptured == s.packetsCaptured && r.log == s.log
  {
    hide SwitchOrStop, StartOutput, ReportNewFile, ReportPackets, MustStop;
    SwitchCases(o, s, io);
    if !MustStop(o, s, io) {
      var next := NextFile(CountFile(o, s));
      StartShape(o, next, io);
      ReportsShape(o, StartOutput(o, next, io).0);
    }
  }
}
