/** When a capture stops and when it goes on in another file: exactly at the limits. */
module Stopping {
  import opened PcapngFormat
  import opened Engine
  import opened Meaning
  import opened MeaningKept
  import opened Conservation
  import opened Reports
  import opened FileStarts
  import opened Fates
  import References

  /** A limit on the packets of the whole capture. */
  predicate PacketsReached(o: Options, n: nat) {
    (o.autostopPackets.Limit? && n >= o.autostopPackets.n)
    || (o.autostopWrittenPackets.Limit? && n >= o.autostopWrittenPackets.n)
  }

  /** The packets a reader finds in a file. */
  function PacketsIn(f: seq<OutBlock>): nat {
    Packets(ReadFile(f).1)
  }

  lemma {:induction false} PerFileAt(files: seq<seq<OutBlock>>, k: nat)
    requires k < |files|
    ensures PerFile(files)[k] == PacketsIn(files[k])
  {
    hide ReadFile, Packets;
    if k < |files| - 1 {
      PerFileAt(files[..|files| - 1], k);
    }
  }

  /** The file holds as many packets, or bytes, as the options allow. */
  predicate FileFull(o: Options, f: seq<OutBlock>) {
    || (o.filePackets.Limit? && PacketsIn(f) >= o.filePackets.n)
    || (o.autostopFilesize.Limit? && o.autostopFilesize.n > 0 && TotalSize(o, f) >= 1000 * o.autostopFilesize.n)
  }

  // ---- What one packet leads to

  /** n is the number of packets captured, s the state before the packet, and f the file it was put in. */
  ghost predicate Decided(o: Options, s: State, r: State, n: nat, f: seq<OutBlock>, io: Io) {
    if PacketsReached(o, n) then !r.go && |r.files| == |s.files|
    else if FileFull(o, f) then
      if MaySwitch(o, s, io) then r.go && |r.files| == |s.files| + 1 && IsStart(o, s, r.files[|s.files|])
      else !r.go && |s.files| <= |r.files| <= |s.files| + 1
    else r.go && |r.files| == |s.files|
  }

  lemma {:induction false} WroteDecides(o: Options, w: State, i: nat, io: Io)
    requires Shape(o, w) && ReplaySafe(w) && Ready(o, w) && w.go && i < |w.srcs|
    requires w.packetsWritten + 1 == PacketsIn(w.files[|w.files| - 1])
    ensures Decided(o, w, WroteOnePacket(o, w, i, io), w.packetsCaptured + 1, w.files[|w.files| - 1], io)
  {
    hide SwitchOrStop, TotalSize, IsIdb, IsShb, PacketsIn, SavedAgree, MaySwitch, IsStart;
    var counted := WithPacket(o, w, i);
    CountedParts(o, w, i);
    SwitchIff(o, counted, io);
    CountedSwitch(o, w, i, io);
    if MaySwitch(o, counted, io) {
      SameStart(o, w, counted, SwitchOrStop(o, counted, io).0.files[|w.files|]);
    }
  }

  lemma CountedParts(o: Options, w: State, i: nat)
    requires Shape(o, w) && ReplaySafe(w) && Ready(o, w) && w.go && i < |w.srcs|
    ensures var c := WithPacket(o, w, i); Shape(o, c) && ReplaySafe(c) && Ready(o, c)
  {
    hide IsIdb, IsShb, TotalSize, LengthsAgree;
  }

  lemma CountedSwitch(o: Options, w: State, i: nat, io: Io)
    requires i < |w.srcs|
    ensures MaySwitch(o, WithPacket(o, w, i), io) == MaySwitch(o, w, io)
  {
  }

  /** A packet was put in the file, on top of those counted before. */
  lemma CountInFile(o: Options, s: State, w: State)
    requires Counted(o, s) && |w.files| == |s.files| && PerFile(w.files) == OneMore(PerFile(s.files))
    ensures w.files != [] && s.packetsWritten + 1 == PacketsIn(w.files[|w.files| - 1])
  {
    hide PacketsIn, Attributed;
    PerFileAt(w.files, |w.files| - 1);
  }

  lemma {:induction false} PacketDecides(o: Options, s: State, i: nat, p: Packet, io: Io)
    requires Inv(o, s) && Counted(o, s) && Ready(o, s) && s.go && i < |s.srcs| && !s.srcs[i].fromPcapng && io.writeOk
    ensures var r, n := WritePacket(o, s, i, p, io), |s.files| - 1;
            |s.files| <= |r.files| && Decided(o, s, r, s.packetsCaptured + 1, r.files[n], io)
  {
    hide ReadFile, ReadFiles, ReadInputs, PerFile, Counted, WroteOnePacket, Linked, IsIdb, IsShb, SameMeaning, Decided, Ready,
         PacketsIn;
    var out := PacketBlock(o, s.srcs[i], p);
    var w := Logged(Put(o, s, out), i, FromPcap(p));
    PutCounts(o, s, out);
    SameParts(s, w);
    CountInFile(o, s, w);
    PutReady(o, s, out, i, FromPcap(p));
    WroteDecides(o, w, i, io);
    WroteFiles(o, w, i, io);
    DecidedBefore(o, s, w, WritePacket(o, s, i, p, io), io);
  }

  lemma DecidedBefore(o: Options, s: State, w: State, r: State, io: Io)
    requires w == s.(files := w.files, bytesWritten := w.bytesWritten, log := w.log)
    requires s.files != [] && |w.files| == |s.files| && |w.files| <= |r.files| && r.files[..|w.files|] == w.files
    requires Decided(o, w, r, w.packetsCaptured + 1, w.files[|w.files| - 1], io)
    ensures Decided(o, s, r, s.packetsCaptured + 1, r.files[|s.files| - 1], io)
  {
    hide PacketsReached, FileFull, IsStart;
    var n := |s.files| - 1;
    assert r.files[n] == r.files[..|w.files|][n];
    if |r.files| > |s.files| {
      SameStart(o, s, w, r.files[|s.files|]);
    }
  }

  /** A data block saves nothing. */
  lemma DataSavesNothing(s: State, i: nat, b: Block)
    requires i < |s.srcs| && |b.bytes| >= 12 && IsDataBlock(b.btype)
    ensures AdjustBlock(s, i, b).state == s
  {
    hide Bytes.Word, WithInterfaceId;
  }

  lemma {:induction false} BlockDecides(o: Options, s: State, i: nat, b: Block, io: Io)
    requires Inv(o, s) && Counted(o, s) && Ready(o, s) && s.go && i < |s.srcs| && s.srcs[i].fromPcapng && io.writeOk
    requires WellFramed(s, ReadInputs(|s.srcs|, s.log).tabs[i], b) && (!s.passthrough ==> |s.savedIdbs| < 0xFFFF_FFFF)
    requires IsDataBlock(b.btype) && AdjustBlock(s, i, b).ok && CanCopy(AdjustBlock(s, i, b).bytes)
    ensures var r, n := WritePcapng(o, s, i, b, io), |s.files| - 1;
            |s.files| <= |r.files| && Decided(o, s, r, s.packetsCaptured + 1, r.files[n], io)
  {
    hide ReadFile, ReadFiles, ReadInputs, PerFile, Counted, WroteOnePacket, AdjustBlock, Linked, IsShb, CanCopy, ReadBlock,
         IsPacket, IsDataBlock, IsIdb, SameMeaning, Decided, Ready, PacketsIn;
    var a := AdjustBlock(s, i, b);
    var out := Copied(a.bytes);
    var w := Logged(Put(o, s, out), i, FromPipe(b));
    ShbIsNoPacket();
    DataSavesNothing(s, i, b);
    CopiedCounts(o, s, i, b);
    PutCounts(o, s, out);
    SameParts(s, w);
    CountInFile(o, s, w);
    PutReady(o, s, out, i, FromPipe(b));
    WroteDecides(o, w, i, io);
    WroteFiles(o, w, i, io);
    DecidedBefore(o, s, w, WritePcapng(o, s, i, b, io), io);
  }

  /** A block that is no packet changes neither the files nor the course of the capture. */
  lemma {:induction false} OtherGoesOn(o: Options, s: State, i: nat, b: Block, io: Io)
    requires Healthy(s) && s.go && i < |s.srcs| && |b.bytes| >= 12 && !IsDataBlock(b.btype)
    requires WritePcapng(o, s, i, b, io).log != s.log
    ensures var r := WritePcapng(o, s, i, b, io); r.go && |r.files| == |s.files|
  {
    hide WroteOnePacket, IsDataBlock, CanCopy, AdjustBlock;
    AdjustOutcome(s, i, b);
  }

  lemma {:induction false} ItemDecides(o: Options, s: State, i: nat, item: Item, io: Io)
    requires Inv(o, s) && Counted(o, s) && Ready(o, s) && s.go && Alive(s)
    requires EventFits(s, Deliver(i, item, io)) && Legal(s, Deliver(i, item, io))
    requires Step(o, s, Deliver(i, item, io)).log != s.log
    ensures var r, n := Step(o, s, Deliver(i, item, io)), |s.files| - 1;
            && s.files != [] && |s.files| <= |r.files| && r.files[..n] == s.files[..n]
            && if IsData(item) then Decided(o, s, r, s.packetsCaptured + 1, r.files[n], io)
               else r.go && |r.files| == |s.files|
  {
    hide WritePcapng, WritePacket, Inv, Counted, Ready, Decided, WellFramed, ReadInputs, IsDataBlock;
    Healths(o, s);
    if item.FromPcap? {
      PacketFate(o, s, i, item.packet, io);
      PacketDecides(o, s, i, item.packet, io);
    } else {
      BlockFate(o, s, i, item.block, io);
      if IsData(item) {
        WrittenBlock(o, s, i, item.block, io);
        BlockDecides(o, s, i, item.block, io);
      } else {
        OtherGoesOn(o, s, i, item.block, io);
      }
    }
  }

  lemma WrittenBlock(o: Options, s: State, i: nat, b: Block, io: Io)
    requires s.files != [] && s.go && s.open && i < |s.srcs| && |b.bytes| >= 12 && IsDataBlock(b.btype)
    requires WritePcapng(o, s, i, b, io).log != s.log
    ensures io.writeOk && AdjustBlock(s, i, b).ok && CanCopy(AdjustBlock(s, i, b).bytes)
  {
    hide WroteOnePacket, CanCopy, AdjustBlock;
    AdjustOutcome(s, i, b);
    ShbIsNoPacket();
  }

  /** When an item has taken effect: the capture stops after a packet with which the packets captured reach a
      limit, or with which the file is full while no other file can be started; it goes on in another file
      when one can; and otherwise it goes on in the same file. */
  lemma {:induction false} LimitsDecide(o: Options, s: State, i: nat, item: Item, io: Io)
    requires References.Reachable(o, s) && s.go && Alive(s)
    requires EventFits(s, Deliver(i, item, io)) && Legal(s, Deliver(i, item, io))
    requires Step(o, s, Deliver(i, item, io)).log != s.log
    ensures var r, n := Step(o, s, Deliver(i, item, io)), |s.files| - 1;
            && 0 <= n < |r.files|
            && if !IsData(item) then r.go && |r.files| == |s.files|
               else if PacketsReached(o, s.packetsCaptured + 1) then !r.go && |r.files| == |s.files|
               else if FileFull(o, r.files[n]) then
                 if MaySwitch(o, s, io) then r.go && |r.files| == |s.files| + 1 && IsStart(o, s, r.files[|s.files|])
                 else !r.go
               else r.go && |r.files| == |s.files|
  {
    hide References.Reachable, Step, Inv, Counted, Ready, FileFull, MaySwitch, IsStart, Legal, IsData;
    ReachableReady(o, s);
    ReachableCounted(o, s);
    ItemDecides(o, s, i, item, io);
  }

  lemma ReachableCounted(o: Options, s: State)
    requires References.Reachable(o, s)
    ensures Inv(o, s) && Counted(o, s)
  {
    hide Inv, Counted, Started, Run, LegalRun;
    var pcapng: seq<bool>, io: Io, es: seq<Event> :| References.ReachedBy(o, s, pcapng, io, es);
    StartKeeps(o, pcapng, io);
    StartCounts(o, pcapng, io);
    RunCounts(o, Started(o, pcapng, io).0, es);
  }

  ghost predicate Exactly(limit: Limit, n: nat) {
    limit.Limit? && n >= limit.n && (limit.n > 0 ==> n == limit.n)
  }

  /** A capture that is stopped by an item that took effect has captured exactly as many packets as a limit says;
      or the file is full and no other file can be started. */
  lemma {:induction false} WhyStopped(o: Options, s: State, i: nat, item: Item, io: Io)
    requires References.Reachable(o, s) && s.go && Alive(s)
    requires EventFits(s, Deliver(i, item, io)) && Legal(s, Deliver(i, item, io))
    requires Step(o, s, Deliver(i, item, io)).log != s.log && !Step(o, s, Deliver(i, item, io)).go
    ensures var r, n := Step(o, s, Deliver(i, item, io)), |s.files| - 1;
            && IsData(item) && 0 <= n < |r.files|
            && (Exactly(o.autostopPackets, r.packetsCaptured) || Exactly(o.autostopWrittenPackets, r.packetsCaptured)
                || (FileFull(o, r.files[n]) && !MaySwitch(o, s, io)))
  {
    hide References.Reachable, Step, Inv, Counted, Ready, FileFull, MaySwitch, IsStart, Legal, IsData, Settled;
    LimitsDecide(o, s, i, item, io);
    ReachableReady(o, s);
    ReachableCounted(o, s);
    Healths(o, s);
    DeliveryOutcome(o, s, i, item, io);
    CapturedOne(o, s, Step(o, s, Deliver(i, item, io)), i, item);
    StepCounts(o, s, Deliver(i, item, io));
    CountedWithinLimits(o, Step(o, s, Deliver(i, item, io)));
  }

  lemma CapturedOne(o: Options, s: State, r: State, i: nat, item: Item)
    requires i < |s.srcs| && Settled(o, s, r, i, item) && r.log != s.log && s.go && IsData(item)
    ensures r.packetsCaptured == s.packetsCaptured + 1
  {
  }

  // ---- Stop requests

  lemma {:induction false} RunOn(o: Options, s: State, before: seq<Event>, later: seq<Event>)
    ensures Run(o, s, before + later) == Run(o, Run(o, s, before), later)
    decreases |later|
  {
    hide Step;
    if later == [] {
      assert before + later == before;
    } else {
      var n := |later| - 1;
      RunOn(o, s, before, later[..n]);
      assert (before + later)[..|before| + n] == before + later[..n];
    }
  }

  lemma RequestStops(o: Options, s: State)
    requires s.files != []
    ensures var r := Step(o, s, StopRequest); r.log == s.log && r.files == s.files && (Alive(s) ==> !r.go && Alive(r))
    ensures !Alive(s) ==> Step(o, s, StopRequest) == s
  {
  }

  /** A process that is gone stays gone. */
  lemma {:induction false} DeadRun(o: Options, s: State, es: seq<Event>)
    requires !Alive(s)
    ensures Run(o, s, es) == s
  {
    hide Step;
    if es != [] {
      DeadRun(o, s, es[..|es| - 1]);
      Dead(o, s, es[|es| - 1]);
    }
  }

  /** A stop request ends the capture: whatever is delivered after it, and whatever the timers do, nothing more
      takes effect. */
  lemma {:induction false} StopRequestEnds(o: Options, pcapng: seq<bool>, io: Io, before: seq<Event>, later: seq<Event>)
    requires OptionsFit(o, pcapng) && Started(o, pcapng, io).1
    ensures var s0 := Started(o, pcapng, io).0;
            var s, r := Run(o, s0, before), Run(o, s0, before + [StopRequest] + later);
            r.log == s.log && (Alive(s) ==> !r.go)
  {
    hide Started, Ready, Step;
    var s0 := Started(o, pcapng, io).0;
    StartReady(o, pcapng, io);
    RunReady(o, s0, before);
    var s := Run(o, s0, before);
    Healths(o, s);
    RunOn(o, s0, before + [StopRequest], later);
    assert (before + [StopRequest])[..|before|] == before;
    var u := Step(o, s, StopRequest);
    RequestStops(o, s);
    if Alive(s) {
      StopIsFinal(o, u, later);
    } else {
      DeadRun(o, u, later);
    }
  }

  // ---- Files are left when they are full

  ghost predicate LeftFull(o: Options, s: State) {
    forall k :: 0 <= k < |s.files| - 1 ==> FileFull(o, s.files[k])
  }

  /** No timer makes dumpcap leave a file. */
  predicate NoFileTimer(e: Event) {
    e.TimersLooked? ==> !e.timers.fileDuration && !e.timers.interval
  }

  lemma {:induction false} StepLeft(o: Options, s: State, e: Event)
    requires Inv(o, s) && Counted(o, s) && Ready(o, s) && LeftFull(o, s) && Legal(s, e) && NoFileTimer(e)
    ensures LeftFull(o, Step(o, s, e))
  {
    hide Inv, Counted, Ready, FileFull, MaySwitch, IsStart, Legal, IsData, WritePcapng, WritePacket, ReportPackets;
    if Alive(s) && EventFits(s, e) {
      Healths(o, s);
      match e
      case Deliver(i, item, io) =>
        if s.go {
          if Step(o, s, e).log != s.log {
            ItemDecides(o, s, i, item, io);
            LeftOne(o, s, Step(o, s, e));
          } else {
            NothingWritten(o, s, i, item, io);
          }
        } else {
          Flushed(o, s, i, item, io);
        }
      case TimersLooked(t, io, io') => ReportAside(o, s);
      case _ =>
    }
  }

  lemma LeftOne(o: Options, s: State, r: State)
    requires LeftFull(o, s) && s.files != []
    requires var n := |s.files| - 1;
             |s.files| <= |r.files| <= |s.files| + 1 && r.files[..n] == s.files[..n]
             && (|r.files| > |s.files| ==> FileFull(o, r.files[n]))
    ensures LeftFull(o, r)
  {
    hide FileFull;
    var n := |s.files| - 1;
    forall k | 0 <= k < |r.files| - 1
      ensures FileFull(o, r.files[k])
    {
      if k < n {
        assert r.files[k] == r.files[..n][k] && s.files[k] == s.files[..n][k];
      }
    }
  }

  lemma {:induction false} NothingWritten(o: Options, s: State, i: nat, item: Item, io: Io)
    requires Healthy(s) && Alive(s) && s.go && EventFits(s, Deliver(i, item, io))
    requires Step(o, s, Deliver(i, item, io)).log == s.log
    ensures Step(o, s, Deliver(i, item, io)).files == s.files
  {
    hide WritePcapng, WritePacket, IsData;
    if item.FromPcap? {
      PacketFate(o, s, i, item.packet, io);
    } else {
      BlockFate(o, s, i, item.block, io);
    }
  }

  lemma {:induction false} Flushed(o: Options, s: State, i: nat, item: Item, io: Io)
    requires s.files != [] && !s.go && EventFits(s, Deliver(i, item, io))
    ensures Step(o, s, Deliver(i, item, io)).files == s.files && !Step(o, s, Deliver(i, item, io)).go
    ensures Step(o, s, Deliver(i, item, io)).log == s.log
  {
  }

  lemma {:induction false} RunLeft(o: Options, s: State, es: seq<Event>)
    requires Inv(o, s) && Counted(o, s) && Ready(o, s) && LeftFull(o, s) && LegalRun(o, s, es)
    requires forall k :: 0 <= k < |es| ==> NoFileTimer(es[k])
    ensures LeftFull(o, Run(o, s, es))
  {
    hide Inv, Counted, Ready, LeftFull, Legal, Step;
    if es != [] {
      var before := es[..|es| - 1];
      RunLeft(o, s, before);
      RunCounts(o, s, before);
      RunReady(o, s, before);
      StepLeft(o, Run(o, s, before), es[|es| - 1]);
    }
  }

  /** Without file timers every file but the last has been left because it was full: it has exactly as many
      packets as the limit says, or at least as many bytes. */
  lemma {:induction false} FilesLeftAreFull(o: Options, pcapng: seq<bool>, io: Io, es: seq<Event>, k: nat)
    requires OptionsFit(o, pcapng) && Started(o, pcapng, io).1 && LegalRun(o, Started(o, pcapng, io).0, es)
    requires forall j :: 0 <= j < |es| ==> NoFileTimer(es[j])
    requires k < |Run(o, Started(o, pcapng, io).0, es).files| - 1
    ensures var f := Run(o, Started(o, pcapng, io).0, es).files[k];
            || Exactly(o.filePackets, PacketsIn(f))
            || (o.autostopFilesize.Limit? && o.autostopFilesize.n > 0 && TotalSize(o, f) >= 1000 * o.autostopFilesize.n)
  {
    hide Inv, Counted, Ready, Run, LegalRun, Started, PacketsIn, PerFile, TotalSize;
    var s0 := Started(o, pcapng, io).0;
    StartKeeps(o, pcapng, io);
    StartCounts(o, pcapng, io);
    StartReady(o, pcapng, io);
    OneFile(o, pcapng, io);
    RunLeft(o, s0, es);
    RunCounts(o, s0, es);
    var s := Run(o, s0, es);
    CountedWithinLimits(o, s);
    PerFileAt(s.files, k);
  }

  lemma {:induction false} OneFile(o: Options, pcapng: seq<bool>, io: Io)
    requires OptionsFit(o, pcapng) && Started(o, pcapng, io).1
    ensures LeftFull(o, Started(o, pcapng, io).0)
  {
    hide FileFull, FirstStart, Started;
    CaptureStartsIff(o, pcapng, io);
  }
}
