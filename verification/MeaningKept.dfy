/** The engine keeps the meaning of interface references: every step preserves Meaning.Inv. */
module MeaningKept {
  import opened Bytes
  import opened PcapngFormat
  import opened Engine
  import opened Meaning

  // ---- Reading files that grow

  lemma ReadFileSnoc(f: seq<OutBlock>, b: OutBlock)
    ensures ReadFile(f + [b]) ==
            var (t, seen) := ReadFile(f); var (t', more) := ReadBlock(t, b); (t', seen + more)
  {
    hide ReadBlock;
    assert (f + [b])[..|f|] == f;
  }

  lemma ReadFilesLast(files: seq<seq<OutBlock>>, f: seq<OutBlock>)
    requires files != []
    ensures ReadFiles(files[|files| - 1 := f]) == ReadFiles(files[..|files| - 1]) + ReadFile(f).1
  {
    hide ReadFile;
    var g := files[|files| - 1 := f];
    assert g[..|g| - 1] == files[..|files| - 1];
  }

  lemma ReadInputsSnoc(n: nat, log: seq<Entry>, e: Entry)
    ensures ReadInputs(n, log + [e]) == ReadEntry(ReadInputs(n, log), e)
  {
    hide ReadEntry;
    assert (log + [e])[..|log|] == log;
  }

  /** Putting a block adds what that block says to what the files say. */
  lemma PutReads(o: Options, s: State, b: OutBlock)
    requires s.files != []
    ensures var (t, more) := ReadBlock(Current(s), b);
            Current(Put(o, s, b)) == t && ReadFiles(Put(o, s, b).files) == ReadFiles(s.files) + more
  {
    hide ReadBlock, ReadFile, ReadFiles;
    var last := s.files[|s.files| - 1];
    ReadFileSnoc(last, b);
    ReadFilesLast(s.files, last + [b]);
    ReadFilesLast(s.files, last);
    assert s.files[|s.files| - 1 := last] == s.files;
  }

  // ---- File starts

  /** The interface an entry's replayed block stands for. */
  function EntryMeaning(e: SavedIdb): Interface {
    if e.deleted then OutOfScope else if e.idb != [] then SourceIdb(e.idb) else CaptureInterface(e.interfaceId)
  }

  ghost predicate EntrySafe(interfaces: nat, e: SavedIdb, swapped: bool) {
    !e.deleted ==> e.interfaceId < interfaces && (e.idb != [] ==> IsIdb(e.idb, swapped))
  }

  /** The replay writes one IDB per entry, in index order. */
  lemma {:induction false} OneIdbPerEntry(interfaces: nat, idbs: seq<SavedIdb>)
    requires forall k :: 0 <= k < |idbs| && !idbs[k].deleted ==> idbs[k].interfaceId < interfaces
    ensures |IdbBlocks(interfaces, idbs)| == |idbs|
    ensures forall k :: 0 <= k < |idbs| ==> IdbBlocks(interfaces, idbs)[k] == IdbBlock(idbs[k])
  {
    if idbs != [] {
      var before := idbs[..|idbs| - 1];
      OneIdbPerEntry(interfaces, before);
      assert forall k :: 0 <= k < |before| ==> idbs[k] == before[k];
    }
  }

  /** The interfaces a replay of the entries describes. */
  function Meanings(idbs: seq<SavedIdb>): (r: seq<Interface>)
    ensures |r| == |idbs|
    ensures forall k :: 0 <= k < |r| ==> r[k] == EntryMeaning(idbs[k])
  {
    if idbs == [] then [] else Meanings(idbs[..|idbs| - 1]) + [EntryMeaning(idbs[|idbs| - 1])]
  }

  ghost predicate EntriesSafe(interfaces: nat, idbs: seq<SavedIdb>, swapped: bool) {
    forall k :: 0 <= k < |idbs| ==> EntrySafe(interfaces, idbs[k], swapped)
  }

  /** The replay is read as the table of the entries, and carries nothing else. */
  lemma {:induction false} ReplayReads(first: OutBlock, swapped: bool, interfaces: nat, idbs: seq<SavedIdb>)
    requires ReadBlock(NO_TAB, first) == (Tab(true, swapped, []), [])
    requires EntriesSafe(interfaces, idbs, swapped)
    ensures ReadFile([first] + IdbBlocks(interfaces, idbs)) == (Tab(true, swapped, Meanings(idbs)), [])
  {
    if idbs == [] {
      assert [first] + IdbBlocks(interfaces, idbs) == [] + [first];
      ReadFileSnoc([], first);
      var none: seq<Seen> := [];
      assert none + [] == none;
      assert ReadFile([] + [first]) == (Tab(true, swapped, []), []);
    } else {
      var before, e := idbs[..|idbs| - 1], idbs[|idbs| - 1];
      assert EntrySafe(interfaces, idbs[|idbs| - 1], swapped);
      forall k | 0 <= k < |before|
        ensures EntrySafe(interfaces, before[k], swapped)
      {
        assert EntrySafe(interfaces, idbs[k], swapped);
      }
      ReplayReads(first, swapped, interfaces, before);
      var f := [first] + IdbBlocks(interfaces, before);
      assert [first] + IdbBlocks(interfaces, idbs) == f + [IdbBlock(e)];
      ReadFileSnoc(f, IdbBlock(e));
      IdbBlockReads(ReadFile(f).0, e);
    }
  }

  lemma IdbBlockReads(t: Tab, e: SavedIdb)
    requires !e.deleted && e.idb != [] ==> IsIdb(e.idb, t.swapped)
    ensures ReadBlock(t, IdbBlock(e)) == (AddInterface(t, EntryMeaning(e)), [])
  {
    hide TypeOf, IsShb;
  }

  /** So does every part of it that a failed start leaves behind. */
  lemma StartPrefixSaysNothing(o: Options, s: State, n: nat)
    requires Shape(o, s) && ReplaySafe(s) && n <= |StartBlocks(o, s)|
    ensures ReadFile(StartBlocks(o, s)[..n]).1 == []
    ensures n == |StartBlocks(o, s)| ==> ReadFile(StartBlocks(o, s)[..n]).0 == StartTab(o, s)
  {
    hide IsIdb, IsShb, ShbSwapped, ReadFile, ReadBlock;
    var blocks := StartBlocks(o, s);
    if n == 0 {
      NothingRead();
    } else if !o.usePcapng {
      assert blocks[..n] == [PcapHeader];
      PcapHeaderReads();
    } else {
      EntriesAreSafe(s);
      OneIdbPerEntry(|s.srcs|, s.savedIdbs);
      var idbs := s.savedIdbs[..n - 1];
      OneIdbPerEntry(|s.srcs|, idbs);
      assert blocks[..n] == [blocks[0]] + IdbBlocks(|s.srcs|, idbs);
      FirstBlockReads(o, s);
      ReplayReads(blocks[0], ReplaySwapped(s), |s.srcs|, idbs);
      if n == |blocks| {
        assert idbs == s.savedIdbs;
      }
    }
  }

  lemma NothingRead()
    ensures ReadFile([]) == (NO_TAB, [])
  {
  }

  lemma PcapHeaderReads()
    ensures ReadFile([PcapHeader]) == (Tab(true, false, [CaptureInterface(0)]), [])
  {
    assert [PcapHeader] == [] + [PcapHeader];
    ReadFileSnoc([], PcapHeader);
    var none: seq<Seen> := [];
    assert none + [] == none;
  }

  lemma EntriesAreSafe(s: State)
    requires ReplaySafe(s)
    ensures EntriesSafe(|s.srcs|, s.savedIdbs, ReplaySwapped(s))
  {
    hide IsIdb, IsShb;
  }

  lemma FirstBlockReads(o: Options, s: State)
    requires ReplaySafe(s) && o.usePcapng && StartBlocks(o, s) != []
    ensures ReadBlock(NO_TAB, StartBlocks(o, s)[0]) == (Tab(true, ReplaySwapped(s), []), [])
  {
  }

  /** The section a complete file start leaves open. */
  function StartTab(o: Options, s: State): Tab {
    if !o.usePcapng then Tab(true, false, [CaptureInterface(0)])
    else if s.passthrough && s.savedShb == [] then NO_TAB
    else Tab(true, ReplaySwapped(s), Meanings(s.savedIdbs))
  }

  /** A complete file start serves every source as well as the file before it did. */
  lemma StartTabLinks(o: Options, s: State, file: Tab, own: seq<Tab>)
    requires Shape(o, s) && ReplaySafe(s) && Linked(o, s, file, own)
    ensures Linked(o, s, StartTab(o, s), own)
  {
    var t := StartTab(o, s);
    if o.usePcapng && !s.passthrough {
      forall i | 0 <= i < |s.srcs|
        ensures if s.srcs[i].fromPcapng then PipeLinked(s, i, t, own[i]) else PcapLinked(s, i, t)
      {
        var m := s.srcs[i].ifaceToGlobal;
        if s.srcs[i].fromPcapng {
          forall j | 0 <= j < |m|
            ensures SlotLinked(s, i, m[j], t, own[i].table[j])
          {
            assert SlotLinked(s, i, m[j], file, own[i].table[j]);
          }
        }
      }
    } else if o.usePcapng {
      assert t.table == own[0].table;
    }
  }

  // ---- Steps

  /** The parts of the state the links are about are the same. */
  ghost predicate SameLinks(s: State, s': State) {
    && s'.passthrough == s.passthrough && s'.savedShb == s.savedShb && s'.savedIdbs == s.savedIdbs
    && |s'.srcs| == |s.srcs|
    && (forall i :: 0 <= i < |s.srcs| ==>
          s'.srcs[i].fromPcapng == s.srcs[i].fromPcapng && s'.srcs[i].idbId == s.srcs[i].idbId
          && s'.srcs[i].ifaceToGlobal == s.srcs[i].ifaceToGlobal)
  }

  lemma LinksFrame(o: Options, s: State, s': State, file: Tab, own: seq<Tab>)
    requires Linked(o, s, file, own) && SameLinks(s, s')
    ensures Linked(o, s', file, own)
  {
    if o.usePcapng && !s.passthrough {
      forall i | 0 <= i < |s'.srcs|
        ensures if s'.srcs[i].fromPcapng then PipeLinked(s', i, file, own[i]) else PcapLinked(s', i, file)
      {
        var m := s.srcs[i].ifaceToGlobal;
        if s.srcs[i].fromPcapng {
          forall j | 0 <= j < |m|
            ensures SlotLinked(s', i, m[j], file, own[i].table[j])
          {
            assert SlotLinked(s, i, m[j], file, own[i].table[j]);
          }
        }
      }
    }
  }

  lemma Frame(o: Options, s: State, s': State)
    requires Inv(o, s) && SameLinks(s, s')
    requires s'.files == s.files && s'.log == s.log && (s'.go ==> s.go && s'.open == s.open)
    ensures Inv(o, s')
  {
    hide Linked, IsIdb, IsShb, ReadFile, ReadFiles, ReadInputs;
    if s'.go {
      LinksFrame(o, s, s', Current(s), ReadInputs(|s.srcs|, s.log).tabs);
    }
  }

  /** A switch adds a file that starts with the replay, or stops the capture. */
  ghost predicate Switched(o: Options, s: State, s': State) {
    && SameLinks(s, s') && s'.log == s.log && (s'.go ==> s.go && s'.open)
    && (if |s'.files| == |s.files| then s'.files == s.files && !s'.go
        else NewFile(s.files, s'.files, StartBlocks(o, s), s'.go))
  }

  ghost predicate NewFile(files: seq<seq<OutBlock>>, files': seq<seq<OutBlock>>, start: seq<OutBlock>, whole: bool) {
    && |files'| == |files| + 1 && files'[..|files|] == files
    && files'[|files|] <= start && (whole ==> files'[|files|] == start)
  }

  /** The two ways a switch can go. */
  lemma SwitchCases(o: Options, s: State, io: Io)
    requires s.files != []
    ensures var r := SwitchOrStop(o, s, io).0;
            if MustStop(o, s, io)
            then r == s.(go := false, open := r.open, fileCount := r.fileCount, fault := r.fault)
                 && s.fileCount <= r.fileCount && (r.open ==> s.open)
            else r == SwitchFile(o, NextFile(CountFile(o, s)), io).0
  {
    hide SwitchFile, MustStop, StopInstead;
    StopShape(o, s);
  }

  lemma StopShape(o: Options, s: State)
    ensures var r := StopInstead(o, s);
            r == s.(go := false, open := r.open, fileCount := r.fileCount, fault := r.fault)
            && s.fileCount <= r.fileCount && (r.open ==> s.open)
  {
    hide Reached;
  }

  lemma {:induction false} SwitchShape(o: Options, s: State, io: Io)
    requires s.files != []
    ensures Switched(o, s, SwitchOrStop(o, s, io).0)
  {
    hide StartBlocks, StartOutput, ReportNewFile, ReportPackets, Switched, NewFile, SwitchOrStop;
    var s' := SwitchOrStop(o, s, io).0;
    SwitchCases(o, s, io);
    if MustStop(o, s, io) {
      NotSwitched(o, s, s');
    } else {
      var next := NextFile(CountFile(o, s));
      var (started, ok) := StartOutput(o, next, io);
      StartFrame(o, s, next);
      StartShape(o, next, io);
      StartedFile(s.files, started.files, StartBlocks(o, s), ok);
      ReportsShape(o, started);
      DidSwitch(o, s, s', ok);
    }
  }

  lemma StartedFile(files: seq<seq<OutBlock>>, files': seq<seq<OutBlock>>, start: seq<OutBlock>, whole: bool)
    requires |files'| == |files| + 1 && files'[..|files|] == (files + [[]])[..|files|]
    requires files'[|files|] <= start && (whole ==> files'[|files|] == start)
    ensures NewFile(files, files', start, whole)
  {
    assert (files + [[]])[..|files|] == files;
  }

  lemma NotSwitched(o: Options, s: State, s': State)
    requires s' == s.(go := false, open := s'.open, fileCount := s'.fileCount, fault := s'.fault)
    ensures Switched(o, s, s')
  {
    hide StartBlocks;
  }

  lemma DidSwitch(o: Options, s: State, s': State, whole: bool)
    requires NewFile(s.files, s'.files, StartBlocks(o, s), whole) && s.open
    requires s' == s.(go := whole && s.go, open := whole, fault := s'.fault, files := s'.files, fileCount := s'.fileCount,
                      bytesWritten := s'.bytesWritten, packetsWritten := s'.packetsWritten,
                      messages := s'.messages, inpktsToSyncPipe := s'.inpktsToSyncPipe, pendingFile := s'.pendingFile)
    ensures Switched(o, s, s')
  {
    hide StartBlocks;
  }

  /** Reports only concern the parent. */
  lemma ReportsShape(o: Options, s: State)
    requires s.files != []
    ensures var r := ReportNewFile(o, ReportPackets(o, s));
            r == s.(messages := r.messages, inpktsToSyncPipe := 0, pendingFile := r.pendingFile)
  {
  }

  /** A file start only writes to the last file, which it fills when it succeeds. */
  lemma StartShape(o: Options, s: State, io: Io)
    requires s.files != []
    ensures var (s', ok) := StartOutput(o, s, io);
            var n := |s.files| - 1;
            s'.files != [] && s' == s.(files := s'.files, bytesWritten := s'.bytesWritten, fault := s'.fault)
            && (ok ==> s'.fault == s.fault)
            && |s'.files| == |s.files| && s'.files[..n] == s.files[..n]
            && s'.files[n] <= StartBlocks(o, s) && (ok ==> s'.files[n] == StartBlocks(o, s))
  {
    hide StartBlocks, TotalSize, NextReplay;
    var n := |s.files| - 1;
    var k := if NextReplay(o, s).Whole? then WrittenBlocks(StartBlocks(o, s), io) else 0;
    assert StartBlocks(o, s)[..k] <= StartBlocks(o, s);
    assert s.files[n := StartBlocks(o, s)[..k]][..n] == s.files[..n];
  }

  lemma StartFrame(o: Options, s: State, s': State)
    requires s'.passthrough == s.passthrough && s'.savedShb == s.savedShb && s'.savedIdbs == s.savedIdbs
    requires s'.srcs == s.srcs
    ensures StartBlocks(o, s') == StartBlocks(o, s)
  {
  }

  lemma SilentFile(files: seq<seq<OutBlock>>, f: seq<OutBlock>)
    requires ReadFile(f).1 == []
    ensures ReadFiles(files + [f]) == ReadFiles(files)
  {
    assert (files + [f])[..|files|] == files;
    assert ReadFiles(files) + [] == ReadFiles(files);
  }

  lemma SwitchKeeps(o: Options, s: State, io: Io)
    requires Inv(o, s)
    ensures Inv(o, SwitchOrStop(o, s, io).0)
  {
    hide SwitchOrStop, Linked, IsIdb, IsShb, ReadFile, ReadFiles, ReadInputs, StartBlocks, StartTab;
    var s' := SwitchOrStop(o, s, io).0;
    SwitchShape(o, s, io);
    if |s'.files| == |s.files| {
      Frame(o, s, s');
    } else {
      var f := s'.files[|s.files|];
      assert f == StartBlocks(o, s)[..|f|];
      StartPrefixSaysNothing(o, s, |f|);
      assert s'.files == s'.files[..|s.files|] + [f];
      SilentFile(s.files, f);
      if s'.go {
        var own := ReadInputs(|s.srcs|, s.log).tabs;
        StartTabLinks(o, s, Current(s), own);
        LinksFrame(o, s, s', StartTab(o, s), own);
      }
    }
  }

  lemma {:induction false} WroteKeeps(o: Options, s: State, i: nat, io: Io)
    requires Inv(o, s) && i < |s.srcs|
    ensures Inv(o, WroteOnePacket(o, s, i, io))
  {
    hide Inv, SwitchOrStop;
    var counted := WithPacket(o, s, i);
    CounterFrame(o, s, counted);
    CounterFrame(o, counted, Stop(counted));
    SwitchKeeps(o, counted, io);
  }

  /** Counters, reports and a stop do not matter to the invariant. */
  lemma CounterFrame(o: Options, s: State, s': State)
    requires Inv(o, s)
    requires s'.files == s.files && s'.log == s.log && s'.passthrough == s.passthrough
    requires s'.savedShb == s.savedShb && s'.savedIdbs == s.savedIdbs && |s'.srcs| == |s.srcs|
    requires forall i :: 0 <= i < |s.srcs| ==> s'.srcs[i] == s.srcs[i].(received := s'.srcs[i].received,
               dropped := s'.srcs[i].dropped, flushed := s'.srcs[i].flushed, byteSwapped := s'.srcs[i].byteSwapped)
    requires s'.go ==> s.go && s'.open == s.open
    ensures Inv(o, s')
  {
    hide Inv;
    Frame(o, s, s');
  }

  /** An item takes effect: the block that is written says in the file what the item says at its source,
      and the links hold for the sections after it. */
  lemma {:induction false} ItemKeeps(o: Options, s: State, a: State, out: OutBlock, i: nat, item: Item)
    requires Inv(o, s) && s.go && i < |s.srcs|
    requires a.files == s.files && a.log == s.log && Shape(o, a) && ReplaySafe(a) && |a.srcs| == |s.srcs|
    requires var ins := ReadInputs(|s.srcs|, s.log);
             var ins' := ReadEntry(ins, Entry(i, item));
             var (t, more) := ReadBlock(Current(s), out);
             ins'.seen == ins.seen + more && Linked(o, a, t, ins'.tabs)
    ensures Inv(o, Logged(Put(o, a, out), i, item))
  {
    hide Linked, ReplaySafe, ReadBlock, ReadFiles, ReadFile, ReadEntry, ReadInputs;
    var r := Logged(Put(o, a, out), i, item);
    PutReads(o, a, out);
    ReadInputsSnoc(|s.srcs|, s.log, Entry(i, item));
    SameParts(a, r);
    LinksFrame(o, a, r, Current(r), ReadInputs(|s.srcs|, r.log).tabs);
  }

  lemma SameParts(s: State, s': State)
    requires s'.passthrough == s.passthrough && s'.savedShb == s.savedShb && s'.savedIdbs == s.savedIdbs
    requires s'.srcs == s.srcs
    ensures SameLinks(s, s') && ReplaySafe(s) == ReplaySafe(s')
  {
  }

  /** A pcap source's packet refers to the source's own interface. */
  lemma PacketKeeps(o: Options, s: State, i: nat, p: Packet)
    requires Inv(o, s) && s.go && i < |s.srcs| && !s.srcs[i].fromPcapng
    ensures Inv(o, Logged(Put(o, s, PacketBlock(o, s.srcs[i], p)), i, FromPcap(p)))
  {
    hide ReplaySafe, ReadFiles, ReadFile, ReadInputs;
    assert o.usePcapng ==> PcapLinked(s, i, Current(s));
    ItemKeeps(o, s, s, PacketBlock(o, s.srcs[i], p), i, FromPcap(p));
  }

  /** An SHB of a multiplexed source ends its section: its slots die, and nobody else's. */
  lemma MuxShbLinks(s: State, i: nat, a: State, file: Tab, own: seq<Tab>)
    requires MuxLinked(s, file, own) && i < |s.srcs| && s.srcs[i].fromPcapng
    requires a == s.(srcs := s.srcs[i := s.srcs[i].(ifaceToGlobal := [])],
                     savedIdbs := DeleteSlots(s.savedIdbs, s.srcs[i].ifaceToGlobal))
    ensures MuxLinked(a, file, own[i := Tab(true, false, [])])
  {
    var mi, own' := s.srcs[i].ifaceToGlobal, own[i := Tab(true, false, [])];
    assert PipeLinked(s, i, file, own[i]);
    forall k | 0 <= k < |s.savedIdbs| && k in mi
      ensures s.savedIdbs[k].interfaceId == i
    {
      var j :| 0 <= j < |mi| && mi[j] == k;
      assert SlotLinked(s, i, mi[j], file, own[i].table[j]);
    }
    forall h | 0 <= h < |a.srcs|
      ensures if a.srcs[h].fromPcapng then PipeLinked(a, h, file, own'[h]) else PcapLinked(a, h, file)
    {
      if h != i && s.srcs[h].fromPcapng {
        assert PipeLinked(s, h, file, own[h]);
        var m := s.srcs[h].ifaceToGlobal;
        forall j | 0 <= j < |m|
          ensures SlotLinked(a, h, m[j], file, own[h].table[j])
        {
          assert SlotLinked(s, h, m[j], file, own[h].table[j]);
        }
      } else if h != i {
        assert PcapLinked(s, h, file);
      }
    }
  }

  /** An IDB of a multiplexed source gets the next slot, in the table and in the file. */
  lemma MuxIdbLinks(s: State, i: nat, bytes: seq<byte>, a: State, file: Tab, own: seq<Tab>)
    requires MuxLinked(s, file, own) && i < |s.srcs| && s.srcs[i].fromPcapng && bytes != []
    requires a == s.(savedIdbs := s.savedIdbs + [SavedIdb(false, i, bytes)],
                     srcs := s.srcs[i := s.srcs[i].(ifaceToGlobal := s.srcs[i].ifaceToGlobal + [|s.savedIdbs|])])
    ensures MuxLinked(a, AddInterface(file, SourceIdb(bytes)), own[i := AddInterface(own[i], SourceIdb(bytes))])
  {
    var file', own' := AddInterface(file, SourceIdb(bytes)), own[i := AddInterface(own[i], SourceIdb(bytes))];
    forall h | 0 <= h < |a.srcs|
      ensures if a.srcs[h].fromPcapng then PipeLinked(a, h, file', own'[h]) else PcapLinked(a, h, file')
    {
      if s.srcs[h].fromPcapng {
        assert PipeLinked(s, h, file, own[h]);
        var m, m' := s.srcs[h].ifaceToGlobal, a.srcs[h].ifaceToGlobal;
        forall j | 0 <= j < |m|
          ensures SlotLinked(a, h, m[j], file', own[h].table[j]) && m[j] < |s.savedIdbs|
        {
          assert SlotLinked(s, h, m[j], file, own[h].table[j]);
        }
        forall j | 0 <= j < |m'|
          ensures SlotLinked(a, h, m'[j], file', own'[h].table[j])
        {
        }
      } else {
        assert PcapLinked(s, h, file);
      }
    }
  }

  /** After an adjustment the saved blocks are still read as a section with only interfaces. */
  lemma AdjustSafe(o: Options, s: State, i: nat, b: Block)
    requires Inv(o, s) && s.go && i < |s.srcs| && s.srcs[i].fromPcapng
    requires WellFramed(s, ReadInputs(|s.srcs|, s.log).tabs[i], b)
    ensures ReplaySafe(AdjustBlock(s, i, b).state)
  {
    hide Word, ReadFile, ReadFiles, ReadInputs, SameMeaning;
    var own := ReadInputs(|s.srcs|, s.log).tabs;
    if b.btype == BLOCK_TYPE_IDB {
      assert own[i].swapped == ReplaySwapped(s) by {
        assert !s.passthrough ==> PipeLinked(s, i, Current(s), own[i]);
      }
    }
  }

  /** The rewritten block differs from the original in its interface ID only. */
  lemma RewrittenReads(bytes: seq<byte>, id: u32, swapped: bool)
    requires |bytes| >= 12
    ensures var w := WithInterfaceId(bytes, id);
            && IsShb(w) == IsShb(bytes) && TypeOf(w, swapped) == TypeOf(bytes, swapped)
            && Word(w, 8, false) == id && w[..8] + w[12..] == bytes[..8] + bytes[12..]
  {
    hide Encode, Word;
    var w := WithInterfaceId(bytes, id);
    WordAfter(bytes[..8], id, bytes[12..], false);
    assert w[0..4] == bytes[0..4];
    WordOfSlice(w, bytes, 0, false);
    WordOfSlice(w, bytes, 0, swapped);
  }

  /** Multiplexed, a block other than an SHB: an IDB becomes the next interface of the file, an EPB or ISB
      refers to the slot of the interface it meant, and anything else stays as it is. */
  lemma {:induction false} MuxBlockKeeps(o: Options, s: State, i: nat, b: Block)
    requires Inv(o, s) && s.go && !s.passthrough && o.usePcapng && i < |s.srcs| && s.srcs[i].fromPcapng
    requires WellFramed(s, ReadInputs(|s.srcs|, s.log).tabs[i], b) && !IsShb(b.bytes)
    requires AdjustBlock(s, i, b).ok && |s.savedIdbs| < 0xFFFF_FFFF
    ensures var a := AdjustBlock(s, i, b);
            Inv(o, Logged(Put(o, a.state, Copied(a.bytes)), i, FromPipe(b)))
  {
    hide Word, ReadFile, ReadFiles, ReadInputs, SameMeaning, ReplaySafe, IsShb, WithInterfaceId;
    var own, file, a := ReadInputs(|s.srcs|, s.log).tabs, Current(s), AdjustBlock(s, i, b);
    AdjustSafe(o, s, i, b);
    assert PipeLinked(s, i, file, own[i]);
    if b.btype == BLOCK_TYPE_IDB {
      MuxIdbLinks(s, i, b.bytes, a.state, file, own);
    } else if RefersToInterface(b.btype) {
      var m, id := s.srcs[i].ifaceToGlobal, Word(b.bytes, 8, false);
      assert SlotLinked(s, i, m[id], file, own[i].table[id]);
      RewrittenReads(b.bytes, ToU32(m[id]), false);
      assert own[i := own[i]] == own;
    } else {
      assert own[i := own[i]] == own;
    }
    ItemKeeps(o, s, a.state, Copied(a.bytes), i, FromPipe(b));
  }

  /** Multiplexed, an SHB: it is not copied; its source starts a new section. */
  lemma MuxShbKeeps(o: Options, s: State, i: nat, b: Block)
    requires Inv(o, s) && s.go && !s.passthrough && o.usePcapng && i < |s.srcs| && s.srcs[i].fromPcapng
    requires WellFramed(s, ReadInputs(|s.srcs|, s.log).tabs[i], b) && IsShb(b.bytes)
    ensures Inv(o, Logged(AdjustBlock(s, i, b).state, i, FromPipe(b)))
  {
    hide ReadFile, ReadFiles, ReadInputs, MuxLinked;
    var ins, a := ReadInputs(|s.srcs|, s.log), AdjustBlock(s, i, b).state;
    AdjustSafe(o, s, i, b);
    ReadInputsSnoc(|s.srcs|, s.log, Entry(i, FromPipe(b)));
    assert PCAPNG_MAGIC != PCAPNG_SWAPPED_MAGIC;
    MuxShbLinks(s, i, a, Current(s), ins.tabs);
    SameParts(a, Logged(a, i, FromPipe(b)));
    LinksFrame(o, a, Logged(a, i, FromPipe(b)), Current(s), ins.tabs[i := Tab(true, false, [])]);
    assert ins.seen + [] == ins.seen;
  }

  /** Passthrough: the block is copied as it is, and the file's section follows the source's. */
  lemma {:induction false} PassBlockKeeps(o: Options, s: State, b: Block)
    requires Inv(o, s) && s.go && s.passthrough
    requires WellFramed(s, ReadInputs(|s.srcs|, s.log).tabs[0], b)
    ensures var a := AdjustBlock(s, 0, b);
            a.ok && Inv(o, Logged(Put(o, a.state, Copied(a.bytes)), 0, FromPipe(b)))
  {
    hide Word, ReadFile, ReadFiles, ReadInputs, SameMeaning, ReplaySafe;
    var own, a := ReadInputs(|s.srcs|, s.log).tabs, AdjustBlock(s, 0, b);
    AdjustSafe(o, s, 0, b);
    assert own == [own[0]];
    ItemKeeps(o, s, a.state, Copied(a.bytes), 0, FromPipe(b));
  }

  lemma {:induction false} WritePcapngKeeps(o: Options, s: State, i: nat, b: Block, io: Io)
    requires Inv(o, s) && i < |s.srcs| && s.srcs[i].fromPcapng && |b.bytes| >= 12
    requires s.go ==> WellFramed(s, ReadInputs(|s.srcs|, s.log).tabs[i], b) && (!s.passthrough ==> |s.savedIdbs| < 0xFFFF_FFFF)
    ensures Inv(o, WritePcapng(o, s, i, b, io))
  {
    hide ReadFile, ReadFiles, ReadInputs, WroteOnePacket, AdjustBlock, Linked, ReplaySafe, IsShb, CanCopy;
    if !s.go {
      CounterFrame(o, s, FlushAt(s, i));
    } else {
      var a := AdjustBlock(s, i, b);
      var w := Logged(Put(o, a.state, Copied(a.bytes)), i, FromPipe(b));
      Adjusts(o, s, i, b);
      if !a.ok {
        CounterFrame(o, s, a.state.(aborted := true));
      } else if b.btype == BLOCK_TYPE_SHB && !s.passthrough {
        MuxShbKeeps(o, s, i, b);
      } else {
        if s.passthrough {
          PassBlockKeeps(o, s, b);
        } else {
          MuxBlockKeeps(o, s, i, b);
        }
        AdjustSafe(o, s, i, b);
        FailureKeeps(o, s, i, a.state, Copied(a.bytes), io);
        WroteKeeps(o, w, i, io);
        CounterFrame(o, w, ShbWritten(w));
      }
    }
  }

  /** After a failed write nothing more is written from the sources. */
  lemma FailureKeeps(o: Options, s: State, i: nat, a: State, out: OutBlock, io: Io)
    requires Inv(o, s) && i < |s.srcs| && ReplaySafe(a) && Shape(o, a)
    requires a.files == s.files && a.log == s.log && |a.srcs| == |s.srcs|
    ensures Inv(o, WriteFailed(o, a, i, out, io))
  {
    hide ReadFile, ReadFiles, ReadInputs, Linked, IsIdb, IsShb;
  }

  /** What an adjustment leaves alone. */
  lemma Adjusts(o: Options, s: State, i: nat, b: Block)
    requires Shape(o, s) && i < |s.srcs| && s.srcs[i].fromPcapng && |b.bytes| >= 12
    ensures var a := AdjustBlock(s, i, b);
            && Shape(o, a.state) && a.state.files == s.files && a.state.log == s.log && |a.state.srcs| == |s.srcs|
            && a.state.go == s.go && a.state.open == s.open
            && (!a.ok ==> a.state == s)
  {
  }

  lemma {:induction false} WritePacketKeeps(o: Options, s: State, i: nat, p: Packet, io: Io)
    requires Inv(o, s) && i < |s.srcs| && !s.srcs[i].fromPcapng
    ensures Inv(o, WritePacket(o, s, i, p, io))
  {
    hide ReadFile, ReadFiles, ReadInputs, WroteOnePacket, Linked, ReplaySafe;
    if !s.go {
      CounterFrame(o, s, FlushAt(s, i));
    } else {
      var out := PacketBlock(o, s.srcs[i], p);
      PacketKeeps(o, s, i, p);
      WroteKeeps(o, Logged(Put(o, s, out), i, FromPcap(p)), i, io);
      FailureKeeps(o, s, i, s, out, io);
    }
  }

  lemma {:induction false} TickKeeps(o: Options, s: State, t: Timers, io: Io, io': Io)
    requires Inv(o, s)
    ensures Inv(o, Tick(o, s, t, io, io'))
  {
    hide Linked, ReplaySafe, SameMeaning, SwitchOrStop;
    var r := ReportPackets(o, s);
    CounterFrame(o, s, r);
    CounterFrame(o, r, Stop(r));
    SwitchKeeps(o, r, io);
    SwitchKeeps(o, r, io');
    SwitchKeeps(o, SwitchOrStop(o, r, io).0, io');
  }

  lemma {:induction false} StepKeeps(o: Options, s: State, e: Event)
    requires Inv(o, s) && Legal(s, e)
    ensures Inv(o, Step(o, s, e))
  {
    hide Inv, WritePcapng, WritePacket, Tick, ReadInputs, WellFramed;
    if Alive(s) && s.files != [] && EventFits(s, e) {
      match e
      case Deliver(i, FromPipe(b), io) =>
        WritePcapngKeeps(o, s, i, b, io);
      case Deliver(i, FromPcap(p), io) =>
        WritePacketKeeps(o, s, i, p, io);
      case ShbSeen(i, swapped) =>
        CounterFrame(o, s, Learnt(s, i, swapped));
      case StopRequest =>
        CounterFrame(o, s, Stop(s));
      case TimersLooked(t, io, io') =>
        TickKeeps(o, s, t, io, io');
    }
  }

  // ---- Whole runs

  lemma {:induction false} RunKeeps(o: Options, s: State, es: seq<Event>)
    requires Inv(o, s) && LegalRun(o, s, es)
    ensures Inv(o, Run(o, s, es))
  {
    hide Inv, Legal, Step;
    if es != [] {
      var before := es[..|es| - 1];
      RunKeeps(o, s, before);
      StepKeeps(o, Run(o, s, before), es[|es| - 1]);
    }
  }

  /** The entries registered at the start belong to the sources that are not pcapng. */
  lemma OpenedLinks(pcapng: seq<bool>)
    ensures forall i :: 0 <= i < |pcapng| && !pcapng[i] ==>
              var k := OpenedSrcs(pcapng)[i].idbId;
              k < |OpenedIdbs(pcapng)| && OpenedIdbs(pcapng)[k] == SavedIdb(false, i, [])
    ensures forall i :: 0 <= i < |pcapng| ==> OpenedSrcs(pcapng)[i].ifaceToGlobal == []
    ensures forall k :: 0 <= k < |OpenedIdbs(pcapng)| ==>
              var e := OpenedIdbs(pcapng)[k]; e == SavedIdb(false, e.interfaceId, []) && e.interfaceId < |pcapng|
  {
    hide OpenedSrcs, OpenedIdbs;
    OpenedSlots(pcapng);
    OpenedEntries(pcapng);
  }

  lemma {:induction false} OpenedSlots(pcapng: seq<bool>)
    ensures forall i :: 0 <= i < |pcapng| && !pcapng[i] ==>
              var k := OpenedSrcs(pcapng)[i].idbId;
              k < |OpenedIdbs(pcapng)| && OpenedIdbs(pcapng)[k] == SavedIdb(false, i, [])
    ensures forall i :: 0 <= i < |pcapng| ==> OpenedSrcs(pcapng)[i].ifaceToGlobal == []
  {
    if pcapng != [] {
      var before := pcapng[..|pcapng| - 1];
      OpenedSlots(before);
      assert forall i :: 0 <= i < |before| ==> OpenedSrcs(pcapng)[i] == OpenedSrcs(before)[i] && before[i] == pcapng[i];
    }
  }

  lemma {:induction false} OpenedEntries(pcapng: seq<bool>)
    ensures forall k :: 0 <= k < |OpenedIdbs(pcapng)| ==>
              var e := OpenedIdbs(pcapng)[k]; e == SavedIdb(false, e.interfaceId, []) && e.interfaceId < |pcapng|
  {
    if pcapng != [] {
      OpenedEntries(pcapng[..|pcapng| - 1]);
    }
  }

  lemma StartKeeps(o: Options, pcapng: seq<bool>, io: Io)
    requires OptionsFit(o, pcapng) && Started(o, pcapng, io).1
    ensures Inv(o, Started(o, pcapng, io).0)
    ensures |Started(o, pcapng, io).0.srcs| == |pcapng| && Started(o, pcapng, io).0.log == []
  {
    hide StartBlocks, StartTab, StartOutput, SlotLinked, ReadFile, ReadFiles;
    var s := OpenInput(pcapng);
    OpenedLinks(pcapng);
    StartShape(o, s, io);
    var (started, ok) := StartOutput(o, s, io);
    StartPrefixSaysNothing(o, s, |StartBlocks(o, s)|);
    OpenedTab(o, pcapng);
    assert StartBlocks(o, s)[..|StartBlocks(o, s)|] == StartBlocks(o, s);
    assert started.files == [] + [StartBlocks(o, s)];
    SilentFile([], StartBlocks(o, s));
    NoFiles();
    LinksFrame(o, s, started, StartTab(o, s), ReadInputs(|pcapng|, []).tabs);
    CounterFrame(o, started, ReportNewFile(o, started));
  }

  lemma NoFiles()
    ensures ReadFiles([]) == []
  {
  }

  lemma {:induction false} OpenedTab(o: Options, pcapng: seq<bool>)
    requires OptionsFit(o, pcapng)
    ensures var s := OpenInput(pcapng);
            Shape(o, s) && ReplaySafe(s) && Linked(o, s, StartTab(o, s), ReadInputs(|pcapng|, []).tabs)
  {
    hide OpenedSrcs, OpenedIdbs, IsIdb, IsShb, MuxLinked, Meanings;
    OpenedLinks(pcapng);
    if pcapng == [true] {
      OpenedPass(o);
    } else if o.usePcapng {
      OpenedMux(o, pcapng, StartTab(o, OpenInput(pcapng)));
    }
  }

  lemma OpenedPass(o: Options)
    ensures PassLinked(OpenInput([true]), NO_TAB, NO_TAB) && OpenInput([true]).savedIdbs == []
    ensures ReadInputs(1, []).tabs == [NO_TAB]
  {
    PassthroughOpens();
  }

  lemma {:induction false} OpenedMux(o: Options, pcapng: seq<bool>, t: Tab)
    requires t == Tab(true, false, Meanings(OpenedIdbs(pcapng)))
    ensures MuxLinked(OpenInput(pcapng), t, ReadInputs(|pcapng|, []).tabs)
  {
    hide OpenedSrcs, OpenedIdbs, Meanings;
    OpenedLinks(pcapng);
    var s, own := OpenInput(pcapng), ReadInputs(|pcapng|, []).tabs;
    forall i | 0 <= i < |pcapng|
      ensures if pcapng[i] then PipeLinked(s, i, t, own[i]) else PcapLinked(s, i, t)
    {
      assert own[i] == NO_TAB && s.srcs[i].ifaceToGlobal == [];
      if !pcapng[i] {
        assert t.table[s.srcs[i].idbId] == EntryMeaning(s.savedIdbs[s.srcs[i].idbId]);
      }
    }
  }

  lemma PassthroughOpens()
    ensures OpenedIdbs([true]) == [] && OpenedSrcs([true]) == [Src(true, 0, [], false, 0, 0, 0)]
  {
    assert [true][..0] == [];
    assert OpenedIdbs([]) == [] && OpenedSrcs([]) == [];
  }

  /** Whatever the sources, the section restarts and the file switches: reading the output files gives the
      blocks and packets of the sources, in the order the writer saw them, each with the interface that
      its own source gave it. */
  lemma {:induction false} MeaningPreserved(o: Options, pcapng: seq<bool>, io: Io, es: seq<Event>)
    requires OptionsFit(o, pcapng) && Started(o, pcapng, io).1
    requires LegalRun(o, Started(o, pcapng, io).0, es)
    ensures var s := Run(o, Started(o, pcapng, io).0, es);
            ReadFiles(s.files) == ReadInputs(|s.srcs|, s.log).seen
  {
    StartKeeps(o, pcapng, io);
    RunKeeps(o, Started(o, pcapng, io).0, es);
  }
}
