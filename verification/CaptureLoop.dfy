/** The capture loop of dumpcap as it is written: sources and loop data that are updated in place, blocks
    that are patched in their buffer, and the loops over interfaces, saved IDBs and queued elements.
    Every method is proved against the transition of Engine that specifies it. */
module CaptureLoop {
  import opened Bytes
  import opened PcapngFormat
  import opened Engine
  import opened Meaning
  import opened Queue
  import opened MeaningKept
  import Conservation
  import FileSizes
  import References

  /** capture_src, as far as the engine uses it. */
  class CaptureSrc {
    const interfaceId: nat
    const fromPcapng: bool
    const idbId: nat
    var ifaceToGlobal: seq<nat>
    var byteSwapped: bool              // cap_pipe_info.pcapng.byte_swapped
    var received: nat
    var dropped: nat
    var flushed: nat

    constructor (interfaceId: nat, fromPcapng: bool, idbId: nat)
      ensures Value() == Src(fromPcapng, idbId, [], false, 0, 0, 0) && this.interfaceId == interfaceId
    {
      this.interfaceId, this.fromPcapng, this.idbId := interfaceId, fromPcapng, idbId;
      ifaceToGlobal, byteSwapped, received, dropped, flushed := [], false, 0, 0, 0;
    }

    ghost function Value(): Src
      reads this
    {
      Src(fromPcapng, idbId, ifaceToGlobal, byteSwapped, received, dropped, flushed)
    }
  }

  ghost function Values(ps: seq<CaptureSrc>): (r: seq<Src>)
    reads ps
    ensures |r| == |ps| && forall i :: 0 <= i < |r| ==> r[i] == ps[i].Value()
  {
    if ps == [] then [] else Values(ps[..|ps| - 1]) + [ps[|ps| - 1].Value()]
  }

  /** Sources are told apart by their interface number. */
  predicate Numbered(ps: seq<CaptureSrc>) {
    forall i :: 0 <= i < |ps| ==> ps[i].interfaceId == i
  }

  /** One source was updated. */
  lemma OneChanged(ps: seq<CaptureSrc>, i: nat, was: seq<Src>)
    requires i < |ps| == |was| && forall j :: 0 <= j < |ps| && j != i ==> ps[j].Value() == was[j]
    ensures Values(ps) == was[i := ps[i].Value()]
  {
  }

  /** pcapng_block_header_t. */
  datatype BlockHeader = BlockHeader(btype: u32, length: nat)

  // ---- File starts

  lemma WrittenSnoc(blocks: seq<OutBlock>, b: OutBlock, io: Io)
    ensures WrittenBlocks(blocks + [b], io) ==
            var n := WrittenBlocks(blocks, io);
            if n == |blocks| && n < io.startBlocks && CanWrite(b) then n + 1 else n
  {
    hide CanWrite;
    assert (blocks + [b])[..|blocks|] == blocks;
  }

  /** The first block that cannot be written ends a file start. */
  lemma {:induction false} WrittenStops(blocks: seq<OutBlock>, n: nat, io: Io)
    requires n < |blocks| && WrittenBlocks(blocks[..n], io) == n
    requires !(n < io.startBlocks && CanWrite(blocks[n]))
    ensures WrittenBlocks(blocks, io) == n
  {
    hide CanWrite;
    var before := blocks[..|blocks| - 1];
    if n < |before| {
      assert before[..n] == blocks[..n];
      WrittenStops(before, n, io);
    }
  }

  lemma NothingWritten(o: Options, io: Io)
    ensures WrittenBlocks([], io) == 0 && TotalSize(o, []) == 0
  {
  }

  lemma {:induction false} IdbBlocksPrefix(interfaces: nat, idbs: seq<SavedIdb>, n: nat)
    requires n <= |idbs|
    ensures IdbBlocks(interfaces, idbs[..n]) <= IdbBlocks(interfaces, idbs)
  {
    hide IdbBlock;
    if n == |idbs| {
      assert idbs[..n] == idbs;
    } else {
      var before := idbs[..|idbs| - 1];
      assert before[..n] == idbs[..n];
      IdbBlocksPrefix(interfaces, before, n);
    }
  }

  /** The map of source i leads to its own slots, none of them twice. */
  ghost predicate Owned(s: State, i: nat) {
    i < |s.srcs| && !s.passthrough ==>
      && Increasing(s.srcs[i].ifaceToGlobal)
      && forall k :: k in s.srcs[i].ifaceToGlobal ==> k < |s.savedIdbs| && s.savedIdbs[k].interfaceId == i
  }

  lemma SlotsAreOwned(o: Options, s: State, i: nat)
    requires Inv(o, s) && s.go && i < |s.srcs| && s.srcs[i].fromPcapng
    ensures Owned(s, i) && o.usePcapng
  {
    hide ReadFile, ReadFiles, ReadInputs, SameMeaning, ReplaySafe;
    if !s.passthrough {
      References.OwnSlots(s, i);
    }
  }

  lemma SingleStops(o: Options, s: State, io: Io)
    requires !o.multiFiles && s.files != []
    ensures MustStop(o, s, io) && StopInstead(o, s) == s.(go := false)
  {
  }

  /** What becomes of a capture with many files, once the file that ends has been counted. */
  lemma CountedStops(o: Options, s: State, io: Io)
    requires o.multiFiles && s.files != []
    ensures var c := CountFile(o, s);
            var last := Reached(o.autostopFiles, c.fileCount);
            && MustStop(o, s, io) == (last || !io.switchOk || !s.open)
            && c == s.(fileCount := c.fileCount)
            && StopInstead(o, s) == if last then c.(go := false)
                                    else c.(go := false, open := false, fault := if s.open then s.fault else HandleFault)
  {
  }

  lemma DeleteSnoc(idbs: seq<SavedIdb>, slots: seq<nat>, n: nat)
    requires n < |slots| && slots[n] < |idbs|
    ensures DeleteSlots(idbs, slots[..n + 1]) == DeleteSlots(idbs, slots[..n])[slots[n] := DELETED]
  {
    assert slots[..n + 1][..n] == slots[..n];
  }

  /** global_ld, with what the engine does to the output files and to the sync pipe. */
  class Capture {
    const o: Options
    const pcaps: seq<CaptureSrc>
    var go: bool
    var open: bool                     // pdh != NULL
    var aborted: bool
    ghost var fault: Fault
    var passthrough: bool
    var savedShb: seq<byte>
    var savedIdbs: seq<SavedIdb>
    var packetsCaptured: nat
    var packetsWritten: nat
    var bytesWritten: nat
    var fileCount: nat
    var inpktsToSyncPipe: nat
    var reportCaptureFilename: Limit
    var files: seq<seq<OutBlock>>
    var messages: seq<Message>
    ghost var log: seq<Entry>

    ghost function View(): State
      reads this, pcaps
    {
      State(go, open, aborted, fault, passthrough, savedShb, savedIdbs, Values(pcaps), packetsCaptured, packetsWritten,
            bytesWritten, fileCount, inpktsToSyncPipe, reportCaptureFilename, files, messages, log)
    }

    ghost predicate Valid()
      reads this
    {
      Sane() && (open ==> fault.NoFault?)
    }

    ghost predicate Sane()
      reads this
    {
      && files != [] && pcaps != [] && Numbered(pcaps)
      && (savedShb != [] ==> passthrough && |savedShb| >= 12)
    }

    /** capture_loop_open_input: every source is opened, and those that are not pcapng get an IDB. */
    constructor (o: Options, pcapng: seq<bool>)
      requires OptionsFit(o, pcapng)
      ensures Valid() && this.o == o && View() == OpenInput(pcapng)
      ensures forall p :: p in pcaps ==> fresh(p)
    {
      hide OpenedSrcs, OpenedIdbs;
      var sources, idbs, through := OpenSources(pcapng);
      this.o, pcaps, go, open, aborted, passthrough := o, sources, true, true, false, through;
      fault := NoFault;
      savedShb, savedIdbs := [], idbs;
      packetsCaptured, packetsWritten, bytesWritten, fileCount, inpktsToSyncPipe := 0, 0, 0, 0, 0;
      reportCaptureFilename, files, messages, log := NoLimit, [[]], [], [];
    }

    /** The loop over the interfaces, and what follows it: only a single pcapng source is passed through. */
    static method OpenSources(pcapng: seq<bool>)
      returns (sources: seq<CaptureSrc>, idbs: seq<SavedIdb>, through: bool)
      requires pcapng != []
      ensures Numbered(sources) && forall p :: p in sources ==> fresh(p)
      ensures Values(sources) == OpenedSrcs(pcapng) && idbs == OpenedIdbs(pcapng)
      ensures through == (pcapng == [true])
    {
      through := |pcapng| == 1;
      sources, idbs := [], [];
      var pcapngSources := 0;
      for i := 0 to |pcapng|
        invariant |sources| == i && Numbered(sources) && forall p :: p in sources ==> fresh(p)
        invariant Values(sources) == OpenedSrcs(pcapng[..i]) && idbs == OpenedIdbs(pcapng[..i])
        invariant |pcapng| == 1 ==> pcapngSources == if i == 1 && pcapng[0] then 1 else 0
        invariant through == (|pcapng| == 1 && (i == 1 ==> pcapng[0]))
      {
        var source := new CaptureSrc(i, pcapng[i], if pcapng[i] then 0 else |idbs|);
        ghost var before := pcapng[..i];
        assert pcapng[..i + 1][..i] == before;
        assert (sources + [source])[..i] == sources;
        sources := sources + [source];
        if pcapng[i] {
          pcapngSources := pcapngSources + 1;
        } else {
          through := false;
          idbs := idbs + [SavedIdb(false, i, [])];
        }
      }
      assert pcapng[..|pcapng|] == pcapng;
      if |pcapng| == 1 && pcapngSources == 1 {
        assert through && idbs == [] by {
          assert pcapng[..0] == [];
        }
      } else {
        assert !through;
      }
    }

    // ---- File starts

    /** One block of a file start is written, or the start fails. */
    method PutStart(b: OutBlock, io: Io) returns (ok: bool)
      requires Valid()
      modifies this`files, this`bytesWritten
      ensures Valid() && ok == (|old(Last())| < io.startBlocks && CanWrite(b))
      ensures files == if ok then old(files)[|old(files)| - 1 := old(Last()) + [b]] else old(files)
      ensures bytesWritten == old(bytesWritten) + if ok then Size(o, b) else io.tornBytes
    {
      hide Values, Size, CanWrite;
      ok := |Last()| < io.startBlocks && CanWrite(b);
      if ok {
        files := files[|files| - 1 := Last() + [b]];
        bytesWritten := bytesWritten + Size(o, b);
      } else {
        bytesWritten := bytesWritten + io.tornBytes;
      }
    }

    /** The file being written. */
    function Last(): seq<OutBlock>
      reads this
      requires files != []
    {
      files[|files| - 1]
    }

    /** The file so far is the start of blocks: all of done, when nothing failed yet. */
    ghost predicate Writing(blocks: seq<OutBlock>, done: seq<OutBlock>, io: Io, ok: bool)
      reads this
    {
      && files != [] && done <= blocks
      && if ok then Last() == done && WrittenBlocks(done, io) == |done| && bytesWritten == TotalSize(o, done)
         else var n := WrittenBlocks(blocks, io);
              n < |blocks| && Last() == blocks[..n] && bytesWritten == TotalSize(o, blocks[..n]) + io.tornBytes
    }

    /** The next block of a file start. */
    method PutNext(b: OutBlock, io: Io, ghost blocks: seq<OutBlock>, ghost done: seq<OutBlock>) returns (ok: bool)
      requires Valid() && Writing(blocks, done, io, true) && done + [b] <= blocks
      modifies this`files, this`bytesWritten
      ensures Valid() && Writing(blocks, if ok then done + [b] else done, io, ok)
      ensures |files| == |old(files)| && files[..|files| - 1] == old(files)[..|old(files)| - 1]
    {
      hide Values, TotalSize, Size, CanWrite, WrittenBlocks;
      ok := PutStart(b, io);
      WrittenSnoc(done, b, io);
      FileSizes.TotalSnoc(o, done, b);
      assert blocks[..|done|] == done && blocks[|done|] == b;
      if !ok {
        WrittenStops(blocks, |done|, io);
      }
    }

    /** The outcome of a file start, for the last file of was. */
    ghost predicate Outcome(was: State, io: Io, ok: bool)
      reads this
    {
      var blocks, replay := StartBlocks(o, was), NextReplay(o, was);
      var n := if replay.Whole? then WrittenBlocks(blocks, io) else 0;
      && was.files != [] && ok == (replay.Whole? && n == |blocks|)
      && fault == (if replay.Astray? then ReplayFault else was.fault)
      && files == was.files[|was.files| - 1 := blocks[..n]]
      && bytesWritten == TotalSize(o, blocks[..n]) + if ok then 0 else io.tornBytes
    }

    /** capture_file_start_output. */
    method FileStartOutput(io: Io) returns (ok: bool)
      requires Valid() && Last() == [] && bytesWritten == 0 && open
      modifies this`files, this`bytesWritten, this`fault
      ensures Sane() && (View(), ok) == StartOutput(o, old(View()), io)
      ensures ok ==> Valid()
    {
      hide Values, TotalSize, StartBlocks, WrittenBlocks, NextReplay;
      if o.usePcapng {
        ok := StartOutputPcapng(io);
      } else {
        ok := StartOutputPcap(io);
      }
    }

    /** capture_file_start_output_pcap. */
    method StartOutputPcap(io: Io) returns (ok: bool)
      requires Valid() && Last() == [] && bytesWritten == 0 && !o.usePcapng
      modifies this`files, this`bytesWritten, this`fault
      ensures Valid() && Outcome(old(View()), io, ok)
    {
      hide Values, TotalSize, WrittenBlocks;
      NothingWritten(o, io);
      ghost var was := files;
      assert [] + [PcapHeader] == [PcapHeader];
      ok := PutNext(PcapHeader, io, [PcapHeader], []);
      StartDone([PcapHeader], io, ok, was);
    }

    /** The length of the saved SHB, as the reader's byte order says. */
    method SavedLength() returns (length: u32)
      requires Valid() && savedShb != []
      ensures length == ReplayLength(savedShb, pcaps[0].byteSwapped)
    {
      hide Word, Swap, Values;
      length := Word(savedShb, 4, false);
      if pcaps[0].byteSwapped {
        SwapReads(savedShb, 4);
        length := Swap(length);
      }
    }

    lemma FirstFlag()
      requires Valid()
      ensures |View().srcs| == |pcaps| && View().srcs[0].byteSwapped == pcaps[0].byteSwapped
    {
    }

    /** pcapng_write_block is given another length than that of the saved SHB. */
    method ReplayOtherLength(io: Io)
      requires Valid() && Last() == [] && bytesWritten == 0 && o.usePcapng && savedShb != []
      requires ReplayLength(savedShb, pcaps[0].byteSwapped) != |savedShb|
      modifies this`bytesWritten, this`fault
      ensures Sane() && Outcome(old(View()), io, false)
    {
      hide Values, StartBlocks, WrittenBlocks;
      FirstFlag();
      ghost var was := View();
      bytesWritten := io.tornBytes;
      fault := if ReplayOf(savedShb, pcaps[0].byteSwapped).Astray? then ReplayFault else fault;
      NothingWritten(o, io);
      assert StartBlocks(o, was)[..0] == [] && was.files[|was.files| - 1 := []] == was.files;
    }

    /** capture_file_start_output_pcapng. */
    method StartOutputPcapng(io: Io) returns (ok: bool)
      requires Valid() && Last() == [] && bytesWritten == 0 && o.usePcapng
      modifies this`files, this`bytesWritten, this`fault
      ensures Sane() && Outcome(old(View()), io, ok)
    {
      hide Values, TotalSize, Size, IdbBlocks, WrittenBlocks, Word;
      ghost var was := View();
      ghost var blocks := StartBlocks(o, was);
      NothingWritten(o, io);
      FirstFlag();
      if passthrough && savedShb == [] {
        StartDone(blocks, io, true, was.files);
        return true;
      }
      var first := if savedShb != [] then Copied(savedShb) else OwnShb;
      if savedShb != [] {
        var length := SavedLength();
        if length != |savedShb| {
          ReplayOtherLength(io);
          return false;
        }
      }
      assert NextReplay(o, was).Whole?;
      assert [] + [first] == [first];
      ok := PutNext(first, io, blocks, []);
      assert savedIdbs[..|savedIdbs|] == savedIdbs;
      ok := ReplayIdbs(first, io, ok, blocks);
      StartDone(blocks, io, ok, was.files);
    }

    /** What a file start has written when the loop is at entry i. */
    ghost function Done(first: OutBlock, i: nat): seq<OutBlock>
      reads this
      requires i <= |savedIdbs|
    {
      [first] + IdbBlocks(|pcaps|, savedIdbs[..i])
    }

    /** One entry of the saved IDBs. */
    method ReplayIdb(ghost first: OutBlock, io: Io, i: nat, ghost blocks: seq<OutBlock>) returns (ok: bool)
      requires Valid() && i < |savedIdbs| && blocks == Done(first, |savedIdbs|)
      requires Writing(blocks, Done(first, i), io, true)
      modifies this`files, this`bytesWritten
      ensures Valid() && Writing(blocks, if ok then Done(first, i + 1) else Done(first, i), io, ok)
      ensures |files| == |old(files)| && files[..|files| - 1] == old(files)[..|old(files)| - 1]
    {
      hide TotalSize, Size, WrittenBlocks, Writing, CanWrite;
      var e := savedIdbs[i];
      ghost var done := Done(first, i);
      assert savedIdbs[..i + 1][..i] == savedIdbs[..i] && savedIdbs[..|savedIdbs|] == savedIdbs;
      IdbBlocksPrefix(|pcaps|, savedIdbs, i + 1);
      assert done + [IdbBlock(e)] == [first] + (IdbBlocks(|pcaps|, savedIdbs[..i]) + [IdbBlock(e)]);
      if e.deleted {
        ok := PutNext(DummyIdb, io, blocks, done);
      } else if e.idb != [] {
        ok := PutNext(Copied(e.idb), io, blocks, done);
      } else if e.interfaceId < |pcaps| {
        ok := PutNext(OwnIdb(e.interfaceId), io, blocks, done);
      } else {
        ok := true;
      }
    }

    /** The loop over the saved IDBs. */
    method ReplayIdbs(ghost first: OutBlock, io: Io, started: bool, ghost blocks: seq<OutBlock>) returns (ok: bool)
      requires Valid() && blocks == Done(first, |savedIdbs|)
      requires Writing(blocks, if started then [first] else [], io, started)
      modifies this`files, this`bytesWritten
      ensures Valid() && Writing(blocks, if ok then blocks else [], io, ok)
      ensures |files| == |old(files)| && files[..|files| - 1] == old(files)[..|old(files)| - 1]
    {
      hide TotalSize, Size, WrittenBlocks;
      ok := started;
      var i := 0;
      assert savedIdbs[..0] == [] && [first] + [] == [first];
      while ok && i < |savedIdbs|
        invariant Valid() && i <= |savedIdbs|
        invariant Writing(blocks, if ok then Done(first, i) else [], io, ok)
        invariant |files| == |old(files)| && files[..|files| - 1] == old(files)[..|old(files)| - 1]
      {
        ok := ReplayIdb(first, io, i, blocks);
        i := i + 1;
      }
    }

    /** What has been written is what the specification says. */
    lemma StartDone(blocks: seq<OutBlock>, io: Io, ok: bool, was: seq<seq<OutBlock>>)
      requires Writing(blocks, if ok then blocks else [], io, ok)
      requires |files| == |was| && files[..|files| - 1] == was[..|was| - 1]
      ensures var n := WrittenBlocks(blocks, io);
              && ok == (n == |blocks|) && was != [] && files == was[|was| - 1 := blocks[..n]]
              && bytesWritten == TotalSize(o, blocks[..n]) + if ok then 0 else io.tornBytes
    {
      hide TotalSize, WrittenBlocks;
      assert blocks[..|blocks|] == blocks;
    }

    // ---- Messages to the parent

    /** report_packet_count. */
    method ReportPacketCount(count: nat)
      modifies this`messages
      ensures messages == if o.captureChild then old(messages) + [SpPacketCount(count)] else old(messages)
    {
      hide Values;
      if o.captureChild {
        messages := messages + [SpPacketCount(count)];
      }
    }

    /** Tells the parent about the packets written since the last report. */
    method SendPacketCount()
      requires Valid()
      modifies this`messages, this`inpktsToSyncPipe
      ensures Valid() && View() == ReportPackets(o, old(View()))
    {
      hide Values;
      if inpktsToSyncPipe > 0 {
        if !o.quiet {
          ReportPacketCount(inpktsToSyncPipe);
        }
        inpktsToSyncPipe := 0;
      }
    }

    /** report_new_capture_file. */
    method ReportNewCaptureFile()
      requires Valid()
      modifies this`messages, this`reportCaptureFilename
      ensures Valid() && View() == ReportNewFile(o, old(View()))
    {
      hide Values;
      if o.captureChild {
        if passthrough {
          reportCaptureFilename := Limit(|files| - 1);
        } else {
          messages := messages + [SpFile(|files| - 1)];
        }
      }
    }

    // ---- Switching and stopping

    /** do_file_switch_or_stop. */
    method DoFileSwitchOrStop(io: Io) returns (more: bool)
      requires Valid()
      modifies this
      ensures Valid() && (View(), more) == SwitchOrStop(o, old(View()), io)
    {
      hide Values, SwitchFile, NextFile, Numbered, MustStop, StopInstead, CountFile;
      var stop := NoOtherFile(io);
      if stop {
        return false;
      }
      more := DoSwitch(io);
    }

    /** Counts the file that ends, and stops if no other can follow it: closing it a second time, after a
        switch that failed, is a fault. */
    method NoOtherFile(io: Io) returns (stop: bool)
      requires Valid()
      modifies this`go, this`open, this`fault, this`fileCount
      ensures Valid() && stop == MustStop(o, old(View()), io) && (!stop ==> open)
      ensures View() == if stop then StopInstead(o, old(View())) else CountFile(o, old(View()))
    {
      hide Values, Numbered, StopInstead, CountFile, MustStop;
      ghost var s := View();
      if !o.multiFiles {
        go := false;
        SingleStops(o, s, io);
        return true;
      }
      var last := CountThisFile();
      CountedStops(o, s, io);
      if last {
        go := false;
        return true;
      }
      if !io.switchOk || !open {
        fault := if open then fault else HandleFault;
        go, open := false, false;
        return true;
      }
      return false;
    }

    /** The count of files, and whether it has reached its limit. */
    method CountThisFile() returns (last: bool)
      requires Valid()
      modifies this`fileCount
      ensures Valid() && View() == CountFile(o, old(View())) && last == Reached(o.autostopFiles, fileCount)
    {
      hide Values, Numbered;
      if o.autostopFiles.Limit? {
        fileCount := fileCount + 1;
      }
      last := o.autostopFiles.Limit? && fileCount >= o.autostopFiles.n;
    }

    /** The next file is open: start it, and tell the parent. */
    method DoSwitch(io: Io) returns (ok: bool)
      requires Valid() && open
      modifies this
      ensures Valid() && (View(), ok) == SwitchFile(o, NextFile(old(View())), io)
    {
      hide Values, StartOutput, ReportNewFile, ReportPackets;
      ClearFile();
      ok := FileStartOutput(io);
      if ok {
        Announce();
      } else {
        open, go := false, false;
      }
    }

    method ClearFile()
      requires Valid()
      modifies this`files, this`bytesWritten, this`packetsWritten
      ensures Valid() && Last() == [] && bytesWritten == 0 && View() == NextFile(old(View()))
    {
      hide Values;
      files, bytesWritten, packetsWritten := files + [[]], 0, 0;
    }

    /** What the parent is told about a switch: the packets of the old file, then the new file. */
    method Announce()
      requires Valid()
      modifies this`messages, this`inpktsToSyncPipe, this`reportCaptureFilename
      ensures Valid() && View() == ReportNewFile(o, ReportPackets(o, old(View())))
    {
      hide Values, ReportNewFile, ReportPackets;
      SendPacketCount();
      ReportNewCaptureFile();
    }

    /** capture_loop_wrote_one_packet. */
    method LoopWroteOnePacket(src: CaptureSrc, io: Io)
      requires Valid() && src in pcaps
      modifies this, src`received
      ensures Valid() && src.interfaceId < |pcaps|
      ensures View() == WroteOnePacket(o, old(View()), src.interfaceId, io)
    {
      hide Values, SwitchOrStop, WithPacket;
      CountPacket(src);
      if Reached(o.autostopPackets, packetsCaptured) {
        go := false;
      } else if Reached(o.autostopWrittenPackets, packetsCaptured) {
        go := false;
      } else if Reached(o.filePackets, packetsWritten) {
        var _ := DoFileSwitchOrStop(io);
      } else if FilesizeReached(o, bytesWritten) {
        var _ := DoFileSwitchOrStop(io);
      }
    }

    method CountPacket(src: CaptureSrc)
      requires Valid() && src in pcaps
      modifies this`packetsCaptured, this`packetsWritten, this`inpktsToSyncPipe, src`received
      ensures Valid() && src.interfaceId < |pcaps|
      ensures View() == WithPacket(o, old(View()), src.interfaceId)
    {
      hide Values, ReceiveAt;
      if !o.useThreads {
        Receive(src);
      }
      packetsCaptured, packetsWritten := packetsCaptured + 1, packetsWritten + 1;
      inpktsToSyncPipe := inpktsToSyncPipe + 1;
    }

    // ---- The counters of the sources

    method Receive(src: CaptureSrc)
      requires Valid() && src in pcaps
      modifies src`received
      ensures Valid() && src.interfaceId < |pcaps| && View() == ReceiveAt(old(View()), src.interfaceId)
    {
      hide Values;
      ghost var was := Values(pcaps);
      src.received := src.received + 1;
      OneChanged(pcaps, src.interfaceId, was);
    }

    method Drop(src: CaptureSrc)
      requires Valid() && src in pcaps
      modifies src`dropped
      ensures Valid() && src.interfaceId < |pcaps| && View() == DropAt(old(View()), src.interfaceId)
    {
      hide Values;
      ghost var was := Values(pcaps);
      src.dropped := src.dropped + 1;
      OneChanged(pcaps, src.interfaceId, was);
    }

    /** pcapng_read_shb sets the byte order of its source. */
    method LearnOrder(src: CaptureSrc, swapped: bool)
      requires Valid() && src in pcaps
      modifies src`byteSwapped
      ensures Valid() && src.interfaceId < |pcaps| && View() == Learnt(old(View()), src.interfaceId, swapped)
    {
      hide Values;
      ghost var was := Values(pcaps);
      src.byteSwapped := swapped;
      OneChanged(pcaps, src.interfaceId, was);
    }

    method Flush(src: CaptureSrc)
      requires Valid() && src in pcaps
      modifies src`flushed
      ensures Valid() && src.interfaceId < |pcaps| && View() == FlushAt(old(View()), src.interfaceId)
    {
      hide Values;
      ghost var was := Values(pcaps);
      src.flushed := src.flushed + 1;
      OneChanged(pcaps, src.interfaceId, was);
    }

    // ---- pcapng sources

    /** pcapng_adjust_block: the interface ID is overwritten in the caller's buffer. */
    method PcapngAdjustBlock(src: CaptureSrc, bh: BlockHeader, pd: array<byte>) returns (ok: bool)
      requires Valid() && src in pcaps && 12 <= bh.length <= pd.Length && Owned(View(), src.interfaceId)
      modifies this`savedShb, this`savedIdbs, src`ifaceToGlobal, pd
      ensures Valid() && src.interfaceId < |pcaps|
      ensures var a := AdjustBlock(old(View()), src.interfaceId, Block(bh.btype, old(pd[..bh.length])));
              ok == a.ok && View() == a.state && pd[..bh.length] == a.bytes
    {
      hide Values, Encode, Word;
      ghost var i, was := src.interfaceId, Values(pcaps);
      if bh.btype == BLOCK_TYPE_SHB {
        if passthrough {
          savedShb, savedIdbs := pd[..bh.length], [];
        } else {
          DeleteOwn(src);
        }
        src.ifaceToGlobal := [];
        OneChanged(pcaps, i, was);
      } else if bh.btype == BLOCK_TYPE_IDB {
        savedIdbs := savedIdbs + [SavedIdb(false, src.interfaceId, pd[..bh.length])];
        src.ifaceToGlobal := src.ifaceToGlobal + [|savedIdbs| - 1];
        OneChanged(pcaps, i, was);
      } else if RefersToInterface(bh.btype) && !passthrough {
        var id := Word(pd[..bh.length], 8, false);
        if id >= |src.ifaceToGlobal| {
          return false;
        }
        ghost var bytes := pd[..bh.length];
        PatchId(pd, ToU32(src.ifaceToGlobal[id]));
        assert pd[..bh.length] == WithInterfaceId(bytes, ToU32(src.ifaceToGlobal[id]));
      }
      ok := true;
    }

    /** The IDBs collected from a source go out of scope; they are its own. */
    method DeleteOwn(src: CaptureSrc)
      requires Valid() && src in pcaps && Owned(View(), src.interfaceId) && !passthrough
      modifies this`savedIdbs
      ensures Valid() && savedIdbs == DeleteSlots(old(savedIdbs), src.ifaceToGlobal)
    {
      hide Values;
      ghost var m, i := src.ifaceToGlobal, src.interfaceId;
      assert Values(pcaps)[i] == src.Value();
      var k := 0;
      assert DeleteSlots(savedIdbs, m[..0]) == savedIdbs;
      while k < |src.ifaceToGlobal|
        invariant k <= |m| && Valid() && savedIdbs == DeleteSlots(old(savedIdbs), m[..k])
      {
        var slot := src.ifaceToGlobal[k];
        assert slot in m && slot !in m[..k];
        assert savedIdbs[slot].interfaceId == src.interfaceId;
        DeleteSnoc(old(savedIdbs), m, k);
        savedIdbs := savedIdbs[slot := DELETED];
        k := k + 1;
      }
      assert m[..k] == m;
    }

    /** memcpy of the new ID behind the block header. */
    method PatchId(pd: array<byte>, id: u32)
      requires pd.Length >= 12
      modifies pd
      ensures pd[..] == old(pd[..8]) + Encode(id, false) + old(pd[12..])
    {
      hide Values, Encode;
      var e := Encode(id, false);
      pd[8], pd[9], pd[10], pd[11] := e[0], e[1], e[2], e[3];
    }

    /** A block goes to the output file. */
    method Append(src: CaptureSrc, b: OutBlock, ghost item: Item)
      requires Valid()
      modifies this`files, this`bytesWritten, this`log
      ensures Valid() && View() == Logged(Put(o, old(View()), b), src.interfaceId, item)
    {
      hide Values, Size;
      files := files[|files| - 1 := files[|files| - 1] + [b]];
      bytesWritten := bytesWritten + Size(o, b);
      log := log + [Entry(src.interfaceId, item)];
    }

    /** What fails to be written stops the capture. */
    method Fail(src: CaptureSrc, b: OutBlock, io: Io)
      requires Valid() && src in pcaps
      modifies this`bytesWritten, this`go, src`dropped
      ensures Valid() && src.interfaceId < |pcaps|
      ensures View() == WriteFailed(o, old(View()), src.interfaceId, b, io)
    {
      hide Values, Size, Min;
      Drop(src);
      go, bytesWritten := false, bytesWritten + Min(io.tornBytes, Size(o, b));
    }

    /** capture_loop_write_pcapng_cb. */
    method WritePcapngCb(src: CaptureSrc, bh: BlockHeader, pd: array<byte>, io: Io)
      requires Valid() && src in pcaps && 12 <= bh.length <= pd.Length && (go ==> Owned(View(), src.interfaceId))
      requires go ==> o.usePcapng
      modifies this, src, pd
      ensures Valid() && src.interfaceId < |pcaps|
      ensures View() == WritePcapng(o, old(View()), src.interfaceId, Block(bh.btype, old(pd[..bh.length])), io)
    {
      hide Values, AdjustBlock, WroteOnePacket, CanCopy, IsDataBlock, Owned, Put, WriteFailed, FlushAt, ShbWritten;
      ghost var b := Block(bh.btype, pd[..bh.length]);
      if !go {
        Flush(src);
        return;
      }
      var ok := PcapngAdjustBlock(src, bh, pd);
      if !ok {
        aborted := true;
        return;
      }
      if bh.btype == BLOCK_TYPE_SHB && !passthrough {
        log := log + [Entry(src.interfaceId, FromPipe(b))];
        return;
      }
      if open {
        WriteAdjusted(src, bh, pd, io, b);
      }
    }

    /** pcapng_write_block, and what its result means. */
    method WriteAdjusted(src: CaptureSrc, bh: BlockHeader, pd: array<byte>, io: Io, ghost b: Block)
      requires Valid() && src in pcaps && 12 <= bh.length <= pd.Length
      modifies this, src
      ensures Valid() && src.interfaceId < |pcaps|
      ensures var out, i := Copied(old(pd[..bh.length])), src.interfaceId;
              var w := Logged(Put(o, old(View()), out), i, FromPipe(b));
              View() == if !CanWrite(out) || !io.writeOk then WriteFailed(o, old(View()), i, out, io)
                        else if IsDataBlock(bh.btype) then WroteOnePacket(o, w, i, io)
                        else if bh.btype == BLOCK_TYPE_SHB then ShbWritten(w)
                        else w
    {
      hide Values, WroteOnePacket, CanWrite, IsDataBlock, Put, WriteFailed, Logged;
      var out := Copied(pd[..bh.length]);
      if !CanWrite(out) || !io.writeOk {
        Fail(src, out, io);
        return;
      }
      Append(src, out, FromPipe(b));
      if IsDataBlock(bh.btype) {
        LoopWroteOnePacket(src, io);
      } else if bh.btype == BLOCK_TYPE_SHB && reportCaptureFilename.Limit? {
        messages := messages + [SpFile(reportCaptureFilename.n)];
        reportCaptureFilename := NoLimit;
      }
    }

    /** capture_loop_write_packet_cb. */
    method WritePacketCb(src: CaptureSrc, p: Packet, io: Io)
      requires Valid() && src in pcaps
      modifies this, src
      ensures Valid() && src.interfaceId < |pcaps|
      ensures View() == WritePacket(o, old(View()), src.interfaceId, p, io)
    {
      hide Values, WroteOnePacket, Put, WriteFailed, FlushAt, Logged;
      if !go {
        Flush(src);
        return;
      }
      if open {
        var out := if o.usePcapng then OwnEpb(src.idbId, p) else PcapRecord(p);
        if !io.writeOk {
          Fail(src, out, io);
        } else {
          Append(src, out, FromPcap(p));
          LoopWroteOnePacket(src, io);
        }
      }
    }

    // ---- The capture loop

    /** The part of the loop that runs after each update interval. */
    method CheckTimers(t: Timers, io: Io, io': Io)
      requires Valid()
      modifies this
      ensures Valid() && View() == Tick(o, old(View()), t, io, io')
    {
      hide Values, SwitchOrStop, ReportPackets;
      SendPacketCount();
      if t.autostop {
        go := false;
        return;
      }
      if t.fileDuration {
        var more := DoFileSwitchOrStop(io);
        if !more {
          return;
        }
      }
      if t.interval {
        var _ := DoFileSwitchOrStop(io');
      }
    }

    /** What happens next in one round of the loop: an item is delivered, the timers are looked at, or
        someone clears the go flag. */
    method HandleEvent(e: Event)
      requires Valid() && Alive(View()) && EventFits(View(), e)
      requires e.Deliver? && e.item.FromPipe? && go ==> Owned(View(), e.src) && o.usePcapng
      modifies this, pcaps
      ensures Valid() && View() == Step(o, old(View()), e)
    {
      hide Values, WritePcapng, WritePacket, Tick, Owned;
      match e
      case Deliver(i, FromPcap(p), io) =>
        WritePacketCb(pcaps[i], p, io);
      case Deliver(i, FromPipe(b), io) =>
        var pd := new byte[|b.bytes|](k requires 0 <= k < |b.bytes| => b.bytes[k]);
        assert pd[..|b.bytes|] == b.bytes;
        WritePcapngCb(pcaps[i], BlockHeader(b.btype, |b.bytes|), pd, io);
      case ShbSeen(i, swapped) =>
        LearnOrder(pcaps[i], swapped);
      case StopRequest =>
        go := false;
      case TimersLooked(t, io, io') =>
        CheckTimers(t, io, io');
    }

    /** The event comes from a source there is, in that source's form. */
    predicate Fits(e: Event)
      reads this, pcaps
      ensures Fits(e) <==> EventFits(View(), e)
    {
      && (e.Deliver? ==>
            && e.src < |pcaps| && pcaps[e.src].fromPcapng == e.item.FromPipe?
            && (e.item.FromPipe? ==> |e.item.block.bytes| >= 12))
      && (e.ShbSeen? ==> e.src < |pcaps| && pcaps[e.src].fromPcapng)
    }

    /** The loop of capture_loop_start without threads, for what happens in it: it stops at the first event
        that finds the go flag cleared, and no assertion on the way fails. */
    method Run(es: seq<Event>) returns (n: nat)
      requires Valid() && Inv(o, View()) && LegalRun(o, View(), es)
      modifies this, pcaps
      ensures Valid() && n <= |es| && View() == Engine.Run(o, old(View()), es[..n])
      ensures Inv(o, View()) && (n < |es| ==> !go || !Alive(View()))
    {
      hide Values, Inv, Step, Legal, Owned, EventFits;
      n := 0;
      assert es[..0] == [];
      while n < |es| && go && !aborted
        invariant Valid() && n <= |es| && View() == Engine.Run(o, old(View()), es[..n])
        invariant Inv(o, View())
      {
        assert es[..n + 1][..n] == es[..n];
        LegalPrefix(o, old(View()), es, n + 1);
        StepKeeps(o, View(), es[n]);
        if Fits(es[n]) {
          MayHandle(o, View(), es[n]);
          HandleEvent(es[n]);
        } else {
          Conservation.Unfit(o, View(), es[n]);
        }
        n := n + 1;
      }
    }
  }

  lemma MayHandle(o: Options, s: State, e: Event)
    requires Inv(o, s) && s.go && EventFits(s, e)
    ensures e.Deliver? && e.item.FromPipe? ==> Owned(s, e.src) && o.usePcapng
    ensures s.open
  {
    hide Linked, ReplaySafe, SameMeaning, Owned;
    if e.Deliver? && e.item.FromPipe? {
      SlotsAreOwned(o, s, e.src);
    }
  }

  lemma {:induction false} LegalPrefix(o: Options, s: State, es: seq<Event>, n: nat)
    requires LegalRun(o, s, es) && n <= |es|
    ensures LegalRun(o, s, es[..n])
  {
    hide Legal, Engine.Run;
    if n < |es| {
      LegalPrefix(o, s, es[..|es| - 1], n);
      assert es[..|es| - 1][..n] == es[..n];
    } else {
      assert es[..n] == es;
    }
  }
}
