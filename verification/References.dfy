/** What the kept meanings say about single states: interface IDs, slots, file starts and passthrough. */
module References {
  import opened Bytes
  import opened PcapngFormat
  import opened Engine
  import opened Meaning
  import opened MeaningKept

  ghost predicate ReachedBy(o: Options, s: State, pcapng: seq<bool>, io: Io, es: seq<Event>) {
    && OptionsFit(o, pcapng) && Started(o, pcapng, io).1
    && LegalRun(o, Started(o, pcapng, io).0, es) && s == Run(o, Started(o, pcapng, io).0, es)
  }

  /** A state some legal run of a capture reaches. */
  ghost predicate Reachable(o: Options, s: State) {
    exists pcapng: seq<bool>, io: Io, es: seq<Event> :: ReachedBy(o, s, pcapng, io, es)
  }

  lemma ReachableInv(o: Options, s: State)
    requires Reachable(o, s)
    ensures Inv(o, s)
  {
    hide Inv;
    var pcapng: seq<bool>, io: Io, es: seq<Event> :| ReachedBy(o, s, pcapng, io, es);
    StartKeeps(o, pcapng, io);
    RunKeeps(o, Started(o, pcapng, io).0, es);
  }

  /** Source i's section, as far as its blocks have reached the writer. */
  function OwnTab(s: State, i: nat): Tab
    requires i < |s.srcs|
  {
    ReadInputs(|s.srcs|, s.log).tabs[i]
  }

  /** Two blocks that differ in their interface IDs at most, which mean the same interface. */
  ghost predicate SameReference(bytes: seq<byte>, t: Tab, bytes': seq<byte>, t': Tab) {
    && |bytes| == |bytes'| >= 12
    && bytes'[..8] == bytes[..8] && bytes'[12..] == bytes[12..]
    && Lookup(t', Word(bytes', 8, false)) == Lookup(t, Word(bytes, 8, false)) != Unresolved
  }

  /** An EPB or ISB of a multiplexed pcapng source that names interface j of its section is written with
      an ID k such that IDB number k of the current file is IDB number j of that section. */
  lemma {:induction false} RewrittenReference(o: Options, s: State, i: nat, b: Block)
    requires Reachable(o, s) && s.go && !s.passthrough && i < |s.srcs| && s.srcs[i].fromPcapng
    requires |b.bytes| >= 12 && RefersToInterface(b.btype) && |s.savedIdbs| < 0xFFFF_FFFF
    ensures AdjustBlock(s, i, b).ok == (Word(b.bytes, 8, false) < |OwnTab(s, i).table|)
    ensures AdjustBlock(s, i, b).ok ==>
              SameReference(b.bytes, OwnTab(s, i), AdjustBlock(s, i, b).bytes, Current(s))
  {
    hide ReachedBy, Word, ReadFile, ReadFiles, ReadInputs, SameMeaning, ReplaySafe;
    ReachableInv(o, s);
    var j, own, m := Word(b.bytes, 8, false), OwnTab(s, i), s.srcs[i].ifaceToGlobal;
    assert PipeLinked(s, i, Current(s), own);
    if j < |m| {
      assert SlotLinked(s, i, m[j], Current(s), own.table[j]);
      RewrittenReads(b.bytes, m[j], false);
    }
  }

  /** A block that names an interface its section does not have is never written: dumpcap aborts. */
  lemma {:induction false} UnmappedIsNotWritten(o: Options, s: State, i: nat, b: Block, io: Io, later: seq<Event>)
    requires Reachable(o, s) && s.go && Alive(s) && !s.passthrough && i < |s.srcs| && s.srcs[i].fromPcapng
    requires |b.bytes| >= 12 && RefersToInterface(b.btype)
    requires Word(b.bytes, 8, false) >= |OwnTab(s, i).table|
    ensures Run(o, Step(o, s, Deliver(i, FromPipe(b), io)), later) == s.(aborted := true)
    decreases |later|
  {
    hide ReachedBy, Word, ReadFile, ReadFiles, ReadInputs, SameMeaning, ReplaySafe;
    ReachableInv(o, s);
    assert PipeLinked(s, i, Current(s), OwnTab(s, i));
    if later != [] {
      UnmappedIsNotWritten(o, s, i, b, io, later[..|later| - 1]);
    }
  }

  /** The packet of a pcap source is written with the ID of the source's own interface. */
  lemma PacketReference(o: Options, s: State, i: nat)
    requires Reachable(o, s) && s.go && o.usePcapng && i < |s.srcs| && !s.srcs[i].fromPcapng
    ensures Lookup(Current(s), s.srcs[i].idbId) == To(CaptureInterface(i))
  {
    hide ReachedBy, ReadFile, ReadFiles, ReadInputs, SameMeaning, ReplaySafe;
    ReachableInv(o, s);
    assert PcapLinked(s, i, Current(s));
  }

  /** The maps of a multiplexed capture: strictly increasing, disjoint, in range, to live slots of their
      own source, and clear of the slots of pcap sources. */
  lemma {:induction false} MapsAreSound(o: Options, s: State, i: nat, h: nat)
    requires Reachable(o, s) && s.go && !s.passthrough && o.usePcapng && i < |s.srcs| && h < |s.srcs|
    requires s.srcs[i].fromPcapng
    ensures var m := s.srcs[i].ifaceToGlobal;
            && Increasing(m)
            && (forall k :: k in m ==> k < |s.savedIdbs| && !s.savedIdbs[k].deleted
                                       && s.savedIdbs[k].idb != [] && s.savedIdbs[k].interfaceId == i)
            && (h != i && s.srcs[h].fromPcapng ==> forall k :: k in m ==> k !in s.srcs[h].ifaceToGlobal)
            && (!s.srcs[h].fromPcapng ==> s.srcs[h].idbId !in m)
  {
    hide ReachedBy, ReadFile, ReadFiles, ReadInputs, SameMeaning, ReplaySafe;
    ReachableInv(o, s);
    var m := s.srcs[i].ifaceToGlobal;
    OwnSlots(s, i);
    if s.srcs[h].fromPcapng {
      OwnSlots(s, h);
    } else {
      assert PcapLinked(s, h, Current(s));
    }
  }

  lemma OwnSlots(s: State, i: nat)
    requires s.files != [] && MuxLinked(s, Current(s), ReadInputs(|s.srcs|, s.log).tabs)
    requires i < |s.srcs| && s.srcs[i].fromPcapng
    ensures forall k :: k in s.srcs[i].ifaceToGlobal ==>
              k < |s.savedIdbs| && !s.savedIdbs[k].deleted
              && s.savedIdbs[k].idb != [] && s.savedIdbs[k].interfaceId == i
    ensures Increasing(s.srcs[i].ifaceToGlobal)
  {
    hide ReadFile, ReadInputs;
    var m := s.srcs[i].ifaceToGlobal;
    assert PipeLinked(s, i, Current(s), OwnTab(s, i));
    forall k | k in m
      ensures k < |s.savedIdbs| && s.savedIdbs[k].interfaceId == i && !s.savedIdbs[k].deleted && s.savedIdbs[k].idb != []
    {
      var j :| 0 <= j < |m| && m[j] == k;
      assert SlotLinked(s, i, m[j], Current(s), OwnTab(s, i).table[j]);
    }
  }

  /** No slot of a multiplexed capture is ever used again: an entry stays what it is or goes out of scope. */
  lemma {:induction false} SlotsAreNotReused(o: Options, s: State, e: Event)
    requires s.files != [] && !s.passthrough
    ensures KeepsSlots(s, Step(o, s, e))
  {
    hide SwitchOrStop, WroteOnePacket, AdjustBlock, StartBlocks, CanCopy, IsDataBlock;
    if Alive(s) && EventFits(s, e) {
      match e
      case Deliver(i, item, io) =>
        if s.go {
          if item.FromPipe? {
            AdjustSaves(s, i, item.block);
            WroteSaves(o, Logged(Put(o, AdjustBlock(s, i, item.block).state,
                                     Copied(AdjustBlock(s, i, item.block).bytes)), i, item), i, io);
          } else {
            WroteSaves(o, Logged(Put(o, s, PacketBlock(o, s.srcs[i], item.packet)), i, item), i, io);
          }
        }
      case ShbSeen(_, _) =>
      case StopRequest =>
      case TimersLooked(t, io, io') =>
        var r := ReportPackets(o, s);
        SwitchShape(o, r, io);
        SwitchShape(o, r, io');
        SwitchShape(o, SwitchOrStop(o, r, io).0, io');
    }
  }

  /** The entries of s are still there, or gone out of scope. */
  ghost predicate KeepsSlots(s: State, s': State) {
    && s'.passthrough == s.passthrough && |s.savedIdbs| <= |s'.savedIdbs|
    && forall k :: 0 <= k < |s.savedIdbs| ==> s'.savedIdbs[k] == s.savedIdbs[k] || s'.savedIdbs[k] == DELETED
  }

  lemma AdjustSaves(s: State, i: nat, b: Block)
    requires i < |s.srcs| && |b.bytes| >= 12 && !s.passthrough
    ensures KeepsSlots(s, AdjustBlock(s, i, b).state)
  {
    hide WithInterfaceId;
  }

  lemma {:induction false} WroteSaves(o: Options, s: State, i: nat, io: Io)
    requires s.files != [] && i < |s.srcs|
    ensures var s' := WroteOnePacket(o, s, i, io); s'.savedIdbs == s.savedIdbs && s'.passthrough == s.passthrough
  {
    hide SwitchOrStop, StartBlocks;
    var c := WithPacket(o, s, i);
    SwitchShape(o, c, io);
  }

  ghost predicate StartsWithIdbs(f: seq<OutBlock>, idbs: seq<SavedIdb>) {
    && |f| == 1 + |idbs| && f[0] == OwnShb
    && forall k :: 0 <= k < |idbs| ==> f[k + 1] == IdbBlock(idbs[k])
  }

  /** A multiplexed file starts with dumpcap's SHB and one IDB per saved entry, in index order: a dummy for
      a deleted one, the saved bytes for a pcapng source, a generated one for the command line. */
  lemma FileStart(o: Options, s: State)
    requires Reachable(o, s) && !s.passthrough && o.usePcapng
    ensures StartsWithIdbs(StartBlocks(o, s), s.savedIdbs)
  {
    hide ReadFile, ReadFiles, ReadInputs, SameMeaning, Linked, IsIdb, IsShb, ReachedBy;
    ReachableInv(o, s);
    OneIdbPerEntry(|s.srcs|, s.savedIdbs);
  }

  /** While capturing, the current multiplexed file has one IDB per saved entry. */
  lemma {:induction false} OneIdbPerSavedEntry(o: Options, s: State)
    requires Reachable(o, s) && s.go && !s.passthrough && o.usePcapng
    ensures |Current(s).table| == |s.savedIdbs|
  {
    hide ReachedBy, ReadFile, ReadFiles, ReadInputs, SameMeaning, ReplaySafe;
    ReachableInv(o, s);
  }

  /** The saved blocks and the map of the one source describe a section. */
  ghost predicate IdentityMap(s: State, own: Tab)
    requires s.srcs != []
  {
    var m := s.srcs[0].ifaceToGlobal;
    && |m| == |s.savedIdbs| == |own.table|
    && (forall j :: 0 <= j < |m| ==> m[j] == j && own.table[j] == SourceIdb(s.savedIdbs[j].idb))
    && own.started == (s.savedShb != [])
    && (s.savedShb != [] ==> |s.savedShb| >= 12 && own.swapped == ShbSwapped(s.savedShb))
  }

  /** Passthrough with rotation: the map is the identity, and the last section of the current file, the
      saved blocks and the source's current section list the same IDBs in the same byte order. */
  lemma PassthroughInStep(o: Options, s: State)
    requires Reachable(o, s) && s.go && s.passthrough
    ensures s.srcs != [] && IdentityMap(s, OwnTab(s, 0)) && Current(s) == OwnTab(s, 0)
  {
    hide ReachedBy, ReadFile, ReadFiles, ReadInputs, SameMeaning, ReplaySafe, ShbSwapped;
    ReachableInv(o, s);
  }

  /** A saved SHB is replayed in full exactly when the byte order flag is that of the section it starts, or
      its length reads the same both ways. */
  lemma {:induction false} ReplayIsWholeIff(shb: seq<byte>, byteSwapped: bool)
    requires |shb| >= 12 && Word(shb, 4, ShbSwapped(shb)) == |shb|
    ensures ReplayOf(shb, byteSwapped).Whole? <==> byteSwapped == ShbSwapped(shb) || Swap(|shb|) == |shb|
  {
    hide Word, Swap, ShbSwapped;
    SwapReads(shb, 4);
    SwapTwice(Word(shb, 4, false));
  }
}
