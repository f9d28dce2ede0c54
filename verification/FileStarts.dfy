/** File starts and switches do their work: a file is started in full, or the next one opened, exactly when
    the system lets dumpcap write and the options leave a file; and so do the timers. */
module FileStarts {
  import opened Bytes
  import opened PcapngFormat
  import opened Engine
  import opened Meaning
  import opened MeaningKept
  import opened Conservation
  import FileSizes
  import References

  /** The lengths before and after the body of a block are the same four bytes. */
  predicate LengthsAgree(bytes: seq<byte>) {
    |bytes| >= 12 && |bytes| % 4 == 0 && bytes[4..8] == bytes[|bytes| - 4..]
  }

  /** This is what decides whether a block can be written. */
  lemma {:induction false} CanCopyIff(bytes: seq<byte>)
    requires |bytes| >= 12
    ensures CanCopy(bytes) <==> LengthsAgree(bytes)
  {
    hide Join;
    var n := |bytes| - 4;
    SplitJoins(bytes[4], bytes[5], bytes[6], bytes[7]);
    SplitJoins(bytes[n], bytes[n + 1], bytes[n + 2], bytes[n + 3]);
    assert bytes[4..8] == [bytes[4], bytes[5], bytes[6], bytes[7]];
    assert bytes[n..] == [bytes[n], bytes[n + 1], bytes[n + 2], bytes[n + 3]];
    WordInSlice(bytes, 4, false);
    WordInSlice(bytes, n, false);
    assert bytes[n..n + 4] == bytes[n..];
  }

  // ---- What holds while capturing

  /** Every block that a file start would copy was copied once before. */
  ghost predicate SavedAgree(s: State) {
    && (s.savedShb != [] ==> LengthsAgree(s.savedShb))
    && forall k :: 0 <= k < |s.savedIdbs| && s.savedIdbs[k].idb != [] ==> LengthsAgree(s.savedIdbs[k].idb)
  }

  /** The byte count is the size of the current file, and the file count, where it is kept, the number of the
      files before it. */
  ghost predicate Ready(o: Options, s: State) {
    Healthy(s) &&
    (s.go ==>
       && SavedAgree(s) && s.bytesWritten == TotalSize(o, s.files[|s.files| - 1])
       && (o.multiFiles && o.autostopFiles.Limit? ==> s.fileCount == |s.files| - 1))
  }

  lemma ReadyFrame(o: Options, s: State, r: State)
    requires Ready(o, s) && Healthy(r)
    requires r.go ==> s.go && r.files == s.files && r.savedShb == s.savedShb && r.savedIdbs == s.savedIdbs
                      && r.bytesWritten == s.bytesWritten && r.fileCount == s.fileCount
    ensures Ready(o, r)
  {
    hide TotalSize, LengthsAgree;
  }

  lemma {:induction false} SwitchReady(o: Options, s: State, io: Io)
    requires Ready(o, s)
    ensures Ready(o, SwitchOrStop(o, s, io).0)
  {
    hide SwitchOrStop, TotalSize, LengthsAgree, StartBlocks, NewFile, StartOutput, ReportNewFile, ReportPackets;
    var r := SwitchOrStop(o, s, io).0;
    SwitchAside(o, s, io);
    if r.go {
      FileSizes.FreshSize(o, s, io);
      SwitchCases(o, s, io);
      var next := NextFile(CountFile(o, s));
      var started := StartOutput(o, next, io).0;
      StartShape(o, next, io);
      ReportsShape(o, started);
    }
  }

  /** A block is written and the limits are looked at. */
  lemma {:induction false} WroteReady(o: Options, s: State, i: nat, io: Io)
    requires Ready(o, s) && s.go && i < |s.srcs|
    ensures Ready(o, WroteOnePacket(o, s, i, io)) && Ready(o, WithPacket(o, s, i))
  {
    hide SwitchOrStop, TotalSize, SavedAgree, Ready;
    Healths(o, s);
    var w := WithPacket(o, s, i);
    ReadyFrame(o, s, w);
    ReadyFrame(o, s, Stop(w));
    SwitchReady(o, w, io);
  }

  lemma Healths(o: Options, s: State)
    requires Ready(o, s)
    ensures Healthy(s)
  {
  }

  lemma PutReady(o: Options, s: State, b: OutBlock, i: nat, item: Item)
    requires Ready(o, s) && s.go
    ensures Ready(o, Logged(Put(o, s, b), i, item))
  {
    hide TotalSize, LengthsAgree, Size;
    FileSizes.TotalSnoc(o, s.files[|s.files| - 1], b);
  }

  lemma {:induction false} PacketReady(o: Options, s: State, i: nat, p: Packet, io: Io)
    requires Ready(o, s) && i < |s.srcs|
    ensures Ready(o, WritePacket(o, s, i, p, io))
  {
    hide Ready, WroteOnePacket, PacketBlock;
    Healths(o, s);
    if !s.go {
      ReadyFrame(o, s, FlushAt(s, i));
    } else {
      var out := PacketBlock(o, s.srcs[i], p);
      var w := Logged(Put(o, s, out), i, FromPcap(p));
      ReadyFrame(o, s, WriteFailed(o, s, i, out, io));
      PutReady(o, s, out, i, FromPcap(p));
      WroteReady(o, w, i, io);
    }
  }

  /** What is saved is about to be written. */
  lemma {:induction false} AdjustReady(o: Options, s: State, i: nat, b: Block)
    requires Ready(o, s) && s.go && i < |s.srcs| && |b.bytes| >= 12
    requires var a := AdjustBlock(s, i, b); CanCopy(a.bytes) || (b.btype == BLOCK_TYPE_SHB && !s.passthrough) || !a.ok
    ensures Ready(o, AdjustBlock(s, i, b).state)
  {
    hide TotalSize, LengthsAgree, CanCopy, WithInterfaceId, Word;
    CanCopyIff(b.bytes);
  }

  lemma {:induction false} BlockReady(o: Options, s: State, i: nat, b: Block, io: Io)
    requires Ready(o, s) && i < |s.srcs| && |b.bytes| >= 12
    ensures Ready(o, WritePcapng(o, s, i, b, io))
  {
    hide Ready, WroteOnePacket, AdjustBlock, CanCopy, IsDataBlock;
    Healths(o, s);
    if !s.go {
      ReadyFrame(o, s, FlushAt(s, i));
    } else {
      var a := AdjustBlock(s, i, b);
      AdjustOutcome(s, i, b);
      ReadyFrame(o, s, WriteFailed(o, a.state, i, Copied(a.bytes), io));
      if !a.ok || (b.btype == BLOCK_TYPE_SHB && !s.passthrough) {
        AdjustReady(o, s, i, b);
        ReadyFrame(o, a.state, a.state.(aborted := true));
        ReadyFrame(o, a.state, Logged(a.state, i, FromPipe(b)));
      } else if CanCopy(a.bytes) {
        AdjustReady(o, s, i, b);
        var w := Logged(Put(o, a.state, Copied(a.bytes)), i, FromPipe(b));
        PutReady(o, a.state, Copied(a.bytes), i, FromPipe(b));
        WroteReady(o, w, i, io);
        ReadyFrame(o, w, ShbWritten(w));
      }
    }
  }

  lemma {:induction false} TickReady(o: Options, s: State, t: Timers, io: Io, io': Io)
    requires Ready(o, s)
    ensures Ready(o, Tick(o, s, t, io, io'))
  {
    hide Ready, SwitchOrStop, ReportPackets;
    Healths(o, s);
    var r := ReportPackets(o, s);
    ReportAside(o, s);
    ReadyFrame(o, s, r);
    ReadyFrame(o, s, Stop(r));
    SwitchReady(o, r, io);
    SwitchReady(o, r, io');
    SwitchReady(o, SwitchOrStop(o, r, io).0, io');
    Healths(o, SwitchOrStop(o, r, io).0);
  }

  lemma {:induction false} StepReady(o: Options, s: State, e: Event)
    requires Ready(o, s)
    ensures Ready(o, Step(o, s, e))
  {
    hide Ready, WritePcapng, WritePacket, Tick;
    Healths(o, s);
    if Alive(s) && EventFits(s, e) {
      match e
      case Deliver(i, FromPipe(b), io) => BlockReady(o, s, i, b, io);
      case Deliver(i, FromPcap(p), io) => PacketReady(o, s, i, p, io);
      case ShbSeen(i, swapped) => ReadyFrame(o, s, Learnt(s, i, swapped));
      case StopRequest => ReadyFrame(o, s, Stop(s));
      case TimersLooked(t, io, io') => TickReady(o, s, t, io, io');
    }
  }

  lemma {:induction false} RunReady(o: Options, s: State, es: seq<Event>)
    requires Ready(o, s)
    ensures Ready(o, Run(o, s, es))
  {
    hide Ready, Step;
    if es != [] {
      RunReady(o, s, es[..|es| - 1]);
      StepReady(o, Run(o, s, es[..|es| - 1]), es[|es| - 1]);
    }
  }

  // ---- File starts

  /** How many blocks the next file starts with. */
  function StartLength(o: Options, s: State): nat {
    if !o.usePcapng then 1 else if s.passthrough && s.savedShb == [] then 0 else 1 + |s.savedIdbs|
  }

  /** What the next file starts with: a pcap header; or nothing, while a passed-through stream has not shown
      its SHB; or an SHB and one IDB per saved entry. */
  ghost predicate IsStart(o: Options, s: State, f: seq<OutBlock>) {
    && |f| == StartLength(o, s)
    && (!o.usePcapng ==> f[0] == PcapHeader)
    && (o.usePcapng && |f| > 0 ==>
          && f[0] == (if s.passthrough then Copied(s.savedShb) else OwnShb)
          && forall k :: 0 <= k < |s.savedIdbs| ==>
               var e := s.savedIdbs[k];
               && (e.deleted ==> f[k + 1] == DummyIdb)
               && (!e.deleted && e.idb != [] ==> f[k + 1] == Copied(e.idb))
               && (!e.deleted && e.idb == [] ==> f[k + 1] == OwnIdb(e.interfaceId)))
  }

  /** The saved SHB's length, as the reader's byte order flag reads it, is its length. */
  predicate ReplayFits(s: State) {
    s.passthrough && |s.savedShb| >= 12 && s.srcs != [] ==>
      Word(s.savedShb, 4, s.srcs[0].byteSwapped) == |s.savedShb|
  }

  lemma {:induction false} WrittenIff(blocks: seq<OutBlock>, io: Io)
    ensures WrittenBlocks(blocks, io) == |blocks| <==>
            |blocks| <= io.startBlocks && forall k :: 0 <= k < |blocks| ==> CanWrite(blocks[k])
  {
    hide CanWrite;
    if blocks != [] {
      WrittenIff(blocks[..|blocks| - 1], io);
    }
  }

  lemma {:induction false} StartsInFull(o: Options, s: State)
    requires Shape(o, s) && ReplaySafe(s)
    ensures IsStart(o, s, StartBlocks(o, s))
  {
    hide IsIdb, IsShb;
    OneIdbPerEntry(|s.srcs|, s.savedIdbs);
  }

  lemma {:induction false} StartCanBeWritten(o: Options, s: State)
    requires Shape(o, s) && ReplaySafe(s) && SavedAgree(s)
    ensures forall k :: 0 <= k < |StartBlocks(o, s)| ==> CanWrite(StartBlocks(o, s)[k])
  {
    hide StartBlocks, CanCopy, LengthsAgree, IsIdb, IsShb;
    StartsInFull(o, s);
    forall k | 0 <= k < |StartBlocks(o, s)|
      ensures CanWrite(StartBlocks(o, s)[k])
    {
      if k == 0 {
        if s.savedShb != [] {
          AtLeast12(s.savedShb);
          CanCopyIff(s.savedShb);
        }
      } else {
        var e := s.savedIdbs[k - 1];
        if e.idb != [] {
          AtLeast12(e.idb);
          CanCopyIff(e.idb);
        }
      }
    }
  }

  lemma AtLeast12(bytes: seq<byte>)
    requires LengthsAgree(bytes)
    ensures |bytes| >= 12
  {
  }

  /** A file is started in full exactly when the system lets every block be written and the saved SHB is
      read with its own length. */
  lemma {:induction false} StartIff(o: Options, s: State, io: Io)
    requires Shape(o, s) && ReplaySafe(s) && SavedAgree(s)
    ensures StartOutput(o, s, io).1 <==> StartLength(o, s) <= io.startBlocks && ReplayFits(s)
  {
    hide StartBlocks, CanWrite, TotalSize, IsIdb, SavedAgree, WrittenBlocks;
    StartsInFull(o, s);
    StartCanBeWritten(o, s);
    WrittenIff(StartBlocks(o, s), io);
  }

  /** The interfaces of the command line that are not pcapng pipes, in order. */
  function OwnIdbs(pcapng: seq<bool>): seq<OutBlock> {
    if pcapng == [] then []
    else
      var n := |pcapng| - 1;
      OwnIdbs(pcapng[..n]) + if pcapng[n] then [] else [OwnIdb(n)]
  }

  lemma {:induction false} OpenedBlocks(pcapng: seq<bool>, interfaces: nat)
    requires |pcapng| <= interfaces
    ensures IdbBlocks(interfaces, OpenedIdbs(pcapng)) == OwnIdbs(pcapng)
  {
    if pcapng != [] {
      var n := |pcapng| - 1;
      var before := OpenedIdbs(pcapng[..n]);
      OpenedBlocks(pcapng[..n], interfaces);
      assert (before + [SavedIdb(false, n, [])])[..|before|] == before;
    }
  }

  /** The first blocks of the first file. */
  function FirstStart(o: Options, pcapng: seq<bool>): seq<OutBlock> {
    if !o.usePcapng then [PcapHeader] else if pcapng == [true] then [] else [OwnShb] + OwnIdbs(pcapng)
  }

  /** A capture starts if and only if the blocks its first file starts with can be written; the file then has
      these blocks: the pcap header, nothing, or dumpcap's SHB and an IDB for each source that is no pipe
      with IDBs of its own. */
  lemma {:induction false} CaptureStartsIff(o: Options, pcapng: seq<bool>, io: Io)
    requires OptionsFit(o, pcapng)
    ensures Started(o, pcapng, io).1 <==> |FirstStart(o, pcapng)| <= io.startBlocks
    ensures Started(o, pcapng, io).1 ==> Started(o, pcapng, io).0.files == [FirstStart(o, pcapng)]
  {
    hide OpenedIdbs, OpenedSrcs, IsIdb, IsShb, Linked, IdbBlocks, OwnIdbs, StartOutput, StartTab;
    var s := OpenInput(pcapng);
    OpenedTab(o, pcapng);
    OpenedLinks(pcapng);
    StartIff(o, s, io);
    StartsInFull(o, s);
    OpenedBlocks(pcapng, |pcapng|);
    StartShape(o, s, io);
    var started := StartOutput(o, s, io).0;
    assert started.files == started.files[..0] + [started.files[0]];
  }

  lemma {:induction false} StartReady(o: Options, pcapng: seq<bool>, io: Io)
    requires OptionsFit(o, pcapng) && Started(o, pcapng, io).1
    ensures Ready(o, Started(o, pcapng, io).0)
  {
    hide StartBlocks, TotalSize, OpenedSrcs, OpenedIdbs, WrittenBlocks, NextReplay;
    StartAccounted(o, pcapng, io);
    OpenedLinks(pcapng);
    var s := OpenInput(pcapng);
    var f := StartBlocks(o, s);
    assert f[..|f|] == f;
  }

  lemma ReachableReady(o: Options, s: State)
    requires References.Reachable(o, s)
    ensures Ready(o, s)
  {
    hide Ready, Started, Run, LegalRun;
    var pcapng: seq<bool>, io: Io, es: seq<Event> :| References.ReachedBy(o, s, pcapng, io, es);
    StartReady(o, pcapng, io);
    RunReady(o, Started(o, pcapng, io).0, es);
  }

  /** While capturing, every SHB and IDB that is saved has equal lengths at both ends; the byte count is the size
      of the current file; and the file count, if there is a limit, is the number of the files before it. */
  lemma {:induction false} KeptWhileCapturing(o: Options, s: State)
    requires References.Reachable(o, s) && s.go
    ensures s.files != [] && s.bytesWritten == TotalSize(o, s.files[|s.files| - 1])
    ensures o.multiFiles && o.autostopFiles.Limit? ==> s.fileCount == |s.files| - 1
    ensures s.savedShb != [] ==> LengthsAgree(s.savedShb)
    ensures forall k :: 0 <= k < |s.savedIdbs| && s.savedIdbs[k].idb != [] ==> LengthsAgree(s.savedIdbs[k].idb)
  {
    hide References.Reachable, TotalSize, LengthsAgree;
    ReachableReady(o, s);
  }

  // ---- Switches

  /** What has to be so for a switch to another file. */
  ghost predicate MaySwitch(o: Options, s: State, io: Io) {
    && o.multiFiles && (o.autostopFiles.Limit? ==> |s.files| < o.autostopFiles.n) && io.switchOk
    && StartLength(o, s) <= io.startBlocks && ReplayFits(s)
  }

  /** Capturing goes on in a new file. */
  ghost predicate Opened(o: Options, s: State, r: State) {
    && r.go && r.open && r.fault.NoFault?
    && |r.files| == |s.files| + 1 && r.files[..|s.files|] == s.files && IsStart(o, s, r.files[|s.files|])
  }

  /** A switch is made, or the capture stops. */
  ghost predicate Rotated(o: Options, s: State, r: State, io: Io) {
    && (if MaySwitch(o, s, io) then Opened(o, s, r) else !r.go && s.files <= r.files && |r.files| <= |s.files| + 1)
    && r.srcs == s.srcs && r.log == s.log && r.passthrough == s.passthrough
    && r.savedShb == s.savedShb && r.savedIdbs == s.savedIdbs
  }

  lemma {:induction false} SwitchIff(o: Options, s: State, io: Io)
    requires Shape(o, s) && ReplaySafe(s) && Ready(o, s) && s.go
    ensures SwitchOrStop(o, s, io).1 == MaySwitch(o, s, io)
    ensures Rotated(o, s, SwitchOrStop(o, s, io).0, io)
  {
    hide SwitchOrStop, StartOutput, StartBlocks, TotalSize, IsIdb, IsShb, ReplayFits, IsStart, SavedAgree, StartLength;
    var r := SwitchOrStop(o, s, io).0;
    SwitchResult(o, s, io);
    SwitchAside(o, s, io);
    SwitchShape(o, s, io);
    StartsInFull(o, s);
    if !MustStop(o, s, io) {
      var next := NextFile(CountFile(o, s));
      SameStarts(o, s, next);
      StartIff(o, next, io);
      StartShape(o, next, io);
      ReportsShape(o, StartOutput(o, next, io).0);
    }
  }

  lemma SwitchResult(o: Options, s: State, io: Io)
    requires s.files != []
    ensures var (r, ok) := SwitchOrStop(o, s, io);
            if MustStop(o, s, io) then !ok && !r.go
            else var (started, whole) := StartOutput(o, NextFile(CountFile(o, s)), io);
                 ok == whole && r == if whole then ReportNewFile(o, ReportPackets(o, started)) else Stop(started).(open := false)
  {
    hide StartOutput, ReportNewFile, ReportPackets, MustStop;
  }

  lemma SameStarts(o: Options, s: State, r: State)
    requires r == s.(files := r.files, bytesWritten := r.bytesWritten, packetsWritten := r.packetsWritten,
                     fileCount := r.fileCount) && r.files != []
    ensures Shape(o, s) && ReplaySafe(s) ==> Shape(o, r) && ReplaySafe(r)
    ensures SavedAgree(r) == SavedAgree(s) && StartLength(o, r) == StartLength(o, s) && ReplayFits(r) == ReplayFits(s)
  {
    hide IsIdb, IsShb, LengthsAgree;
  }

  /** do_file_switch_or_stop switches if and only if there may be several files, the file limit leaves one, the
      next file can be opened, what it starts with can be written, and a saved SHB is read with its own
      length; the new file then has the whole start; otherwise the capture stops. */
  lemma {:induction false} SwitchesIff(o: Options, s: State, io: Io)
    requires References.Reachable(o, s) && s.go
    ensures s.files != []
    ensures SwitchOrStop(o, s, io).1 == MaySwitch(o, s, io)
    ensures Rotated(o, s, SwitchOrStop(o, s, io).0, io)
  {
    hide References.Reachable, SwitchOrStop, ReadFiles, ReadInputs, Linked, IsIdb, IsShb, MaySwitch, Rotated, Ready;
    ReachableReady(o, s);
    References.ReachableInv(o, s);
    SwitchIff(o, s, io);
  }

  // ---- Timers

  /** When both timers have expired, the second switch follows a first one that was made. */
  ghost predicate RotatedTwice(o: Options, s: State, u: State, r: State, io: Io, io': Io) {
    Rotated(o, s, u, io) && if u.go then Rotated(o, u, r, io') else r == u
  }

  lemma {:induction false} TickActs(o: Options, s: State, t: Timers, io: Io, io': Io)
    requires Inv(o, s) && Ready(o, s) && s.go
    ensures var r := Tick(o, s, t, io, io');
            if t.autostop then !r.go && r.files == s.files && r.log == s.log
            else if !t.fileDuration && !t.interval then r == ReportPackets(o, s)
            else if !t.fileDuration then Rotated(o, s, r, io')
            else if !t.interval then Rotated(o, s, r, io)
            else exists u: State :: RotatedTwice(o, s, u, r, io, io')
  {
    hide ReportPackets, SwitchOrStop, Inv, Ready, Rotated, MaySwitch;
    var p := ReportPackets(o, s);
    ReportAside(o, s);
    Parts(o, s);
    ReadyFrame(o, s, p);
    CounterFrame(o, s, p);
    Parts(o, p);
    SwitchIff(o, p, io);
    SwitchIff(o, p, io');
    var u := SwitchOrStop(o, p, io).0;
    var r := Tick(o, s, t, io, io');
    RotatedFrom(o, s, p, u, io);
    RotatedFrom(o, s, p, SwitchOrStop(o, p, io').0, io');
    SwitchKeeps(o, p, io);
    SwitchReady(o, p, io);
    Parts(o, u);
    GoIffSwitched(o, p, u, io);
    if !t.autostop && t.fileDuration && t.interval {
      if u.go {
        SwitchIff(o, u, io');
      }
      assert RotatedTwice(o, s, u, r, io, io');
    }
  }

  lemma GoIffSwitched(o: Options, s: State, r: State, io: Io)
    requires Rotated(o, s, r, io)
    ensures r.go == MaySwitch(o, s, io)
  {
    hide IsStart, MaySwitch;
  }

  lemma Parts(o: Options, s: State)
    requires Inv(o, s) && Ready(o, s)
    ensures Shape(o, s) && ReplaySafe(s) && Healthy(s)
  {
    hide ReplaySafe, SameMeaning, Linked, TotalSize, SavedAgree;
  }

  /** Reports do not matter to a switch. */
  lemma RotatedFrom(o: Options, s: State, p: State, r: State, io: Io)
    requires Rotated(o, p, r, io) && p == s.(messages := p.messages, inpktsToSyncPipe := p.inpktsToSyncPipe)
    ensures Rotated(o, s, r, io)
  {
    hide IsStart;
    assert MaySwitch(o, s, io) == MaySwitch(o, p, io);
    if MaySwitch(o, p, io) {
      SameStart(o, s, p, r.files[|s.files|]);
    }
  }

  lemma SameStart(o: Options, s: State, s': State, f: seq<OutBlock>)
    requires s'.passthrough == s.passthrough && s'.savedShb == s.savedShb && s'.savedIdbs == s.savedIdbs
    ensures IsStart(o, s, f) == IsStart(o, s', f)
  {
  }

  /** The timed part of the loop: the autostop timer stops the capture; an expired file timer switches files, or
      stops the capture where no switch can be made; and without an expired timer it only reports. */
  lemma {:induction false} TimersAct(o: Options, s: State, t: Timers, io: Io, io': Io)
    requires References.Reachable(o, s) && s.go && Alive(s)
    ensures var r := Step(o, s, TimersLooked(t, io, io'));
            if t.autostop then !r.go && r.files == s.files && r.log == s.log
            else if !t.fileDuration && !t.interval then r.go && r.files == s.files && r.log == s.log
            else if !t.fileDuration then Rotated(o, s, r, io')
            else if !t.interval then Rotated(o, s, r, io)
            else exists u: State :: RotatedTwice(o, s, u, r, io, io')
  {
    hide References.Reachable, Tick, Inv, Ready, Rotated, RotatedTwice, ReportPackets;
    ReachableReady(o, s);
    References.ReachableInv(o, s);
    Parts(o, s);
    TickActs(o, s, t, io, io');
    ReportAside(o, s);
    assert Step(o, s, TimersLooked(t, io, io')) == Tick(o, s, t, io, io');
  }
}
