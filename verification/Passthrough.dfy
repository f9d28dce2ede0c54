/** A single pcapng source that is passed through: from the bytes of its pipe to the output files. */
module Passthrough {
  import opened Bytes
  import opened PcapngFormat
  import opened Engine
  import opened Meaning
  import opened MeaningKept
  import opened Conservation
  import Threads

  // ---- What the pipe delivers

  /** The blocks are framed for a reader that has got as far as t: each has the type and the byte order
      that its section gives it. */
  ghost predicate FramedFrom(passthrough: bool, t: Tab, blocks: seq<Block>)
    decreases |blocks|
  {
    blocks == [] || (FramedBlock(passthrough, t, blocks[0]) && FramedFrom(passthrough, TabAfter(t, blocks[0]), blocks[1..]))
  }

  ghost predicate FramedBlock(passthrough: bool, t: Tab, b: Block) {
    && |b.bytes| >= 12
    && if IsShb(b.bytes)
       then b.btype == BLOCK_TYPE_SHB
            && (Word(b.bytes, 8, false) == PCAPNG_MAGIC || (passthrough && ShbSwapped(b.bytes)))
            && Word(b.bytes, 4, ShbSwapped(b.bytes)) == |b.bytes|
       else b.btype == TypeOf(b.bytes, t.swapped) && b.btype != BLOCK_TYPE_SHB && t.started
  }

  function TabAfter(t: Tab, b: Block): Tab {
    ReadBytes(t, b.bytes).0
  }

  /** The stream is in a section, or starts with one: cap_pipe_open has looked at the first word. */
  ghost predicate Begun(t: Tab, s: seq<byte>) {
    t.started || (|s| >= 4 && Word(s, 0, false) == BLOCK_TYPE_SHB)
  }

  /** The first block of a stream is framed, and leaves its reader in the section the parser is in. */
  lemma NextFramed(passthrough: bool, section: Section, t: Tab, s: seq<byte>)
    requires NextBlock(passthrough, section, s).Got? && t.swapped == section.swapped && Begun(t, s)
    ensures var n := NextBlock(passthrough, section, s);
            && FramedBlock(passthrough, t, n.block) && TabAfter(t, n.block).swapped == n.section.swapped
            && TabAfter(t, n.block).started
  {
    hide Word, IsDataBlock;
    var n := NextBlock(passthrough, section, s);
    var bytes := n.block.bytes;
    assert bytes <= s;
    WordOfPrefix(bytes, s, 0, false);
    WordOfPrefix(bytes, s, 0, true);
    WordOfPrefix(bytes, s, 8, false);
    WordOfPrefix(bytes, s, 4, ShbSwapped(bytes));
    SwappedShbType(s);
  }

  lemma {:induction false} ParseFramed(passthrough: bool, section: Section, t: Tab, s: seq<byte>)
    requires t.swapped == section.swapped && Begun(t, s)
    ensures FramedFrom(passthrough, t, Parse(passthrough, section, s).blocks)
    decreases |s|
  {
    hide NextBlock, FramedBlock, TabAfter;
    var n := NextBlock(passthrough, section, s);
    if n.Got? {
      NextFramed(passthrough, section, t, s);
      var rest := s[|n.block.bytes|..];
      ParseFramed(passthrough, n.section, TabAfter(t, n.block), rest);
      var blocks := Parse(passthrough, section, s).blocks;
      assert blocks == [n.block] + Parse(passthrough, n.section, rest).blocks;
      assert blocks[1..] == Parse(passthrough, n.section, rest).blocks;
    }
  }

  /** Without passthrough every block is in the byte order of the host, wherever the writer starts. */
  lemma {:induction false} NativeBlocks(t: Tab, blocks: seq<Block>, k: nat)
    requires FramedFrom(false, t, blocks) && !t.swapped && k < |blocks|
    ensures Threads.Framed(FromPipe(blocks[k]))
    decreases |blocks|
  {
    hide Word, IsIdb;
    if k > 0 {
      assert PCAPNG_MAGIC != PCAPNG_SWAPPED_MAGIC;
      NativeBlocks(TabAfter(t, blocks[0]), blocks[1..], k - 1);
    }
  }

  /** What the pipe reader of a multiplexed source delivers is what the writer's invariant needs. */
  lemma MultiplexedPipeIsFramed(s: seq<byte>, k: nat)
    requires |s| >= 4 && Word(s, 0, false) == BLOCK_TYPE_SHB && k < |Parse(false, NoSection, s).blocks|
    ensures Threads.Framed(FromPipe(Parse(false, NoSection, s).blocks[k]))
  {
    hide Parse, Word;
    ParseFramed(false, NoSection, NO_TAB, s);
    NativeBlocks(NO_TAB, Parse(false, NoSection, s).blocks, k);
  }

  // ---- Runs that deliver the blocks of a stream

  /** The blocks that the events of a run deliver, in order. */
  function Delivered(es: seq<Event>): seq<Block> {
    if es == [] then []
    else
      var before, e := Delivered(es[..|es| - 1]), es[|es| - 1];
      if e.Deliver? && e.src == 0 && e.item.FromPipe? then before + [e.item.block] else before
  }

  function LoggedBlocks(log: seq<Entry>): seq<Block> {
    if log == [] then []
    else
      var before, e := LoggedBlocks(log[..|log| - 1]), log[|log| - 1];
      if e.item.FromPipe? then before + [e.item.block] else before
  }

  lemma LoggedSnoc(log: seq<Entry>, e: Entry)
    ensures LoggedBlocks(log + [e]) == LoggedBlocks(log) + if e.item.FromPipe? then [e.item.block] else []
  {
    assert (log + [e])[..|log|] == log;
  }

  /** The one source of a capture that passes it through. */
  ghost predicate Single(s: State) {
    s.passthrough && |s.srcs| == 1 && s.srcs[0].fromPcapng && Healthy(s)
  }

  /** The log is the delivered blocks, up to where the capture stopped. */
  ghost predicate Follows(s: State, blocks: seq<Block>) {
    Single(s) && LoggedBlocks(s.log) <= blocks && (s.go ==> LoggedBlocks(s.log) == blocks)
  }

  /** In passthrough no block is fatal. */
  lemma NeverFatal(o: Options, s: State, b: Block, io: Io)
    requires Single(s) && !s.aborted && |b.bytes| >= 12
    ensures !Step(o, s, Deliver(0, FromPipe(b), io)).aborted
  {
    hide WroteOnePacket, IsDataBlock, CanCopy;
    if s.go {
      var a := AdjustBlock(s, 0, b);
      WroteOutcome(o, Logged(Put(o, a.state, Copied(a.bytes)), 0, FromPipe(b)), 0, io);
    }
  }

  lemma {:induction false} FollowStep(o: Options, s: State, blocks: seq<Block>, e: Event)
    requires Follows(s, blocks) && !s.aborted
    requires e.Deliver? && e.src == 0 && e.item.FromPipe? ==> |e.item.block.bytes| >= 12
    ensures var r := Step(o, s, e);
            !r.aborted && Follows(r, blocks + if e.Deliver? && e.src == 0 && e.item.FromPipe? then [e.item.block] else [])
  {
    hide Step, LoggedBlocks, IsData;
    if !Alive(s) {
      Dead(o, s, e);
      assert blocks + [] == blocks;
    } else if e.ShbSeen? {
      SeenOutcome(o, s, e);
      assert blocks + [] == blocks;
    } else if !e.Deliver? {
      OtherOutcome(o, s, e);
      assert blocks + [] == blocks;
    } else if !EventFits(s, e) {
      Unfit(o, s, e);
      assert blocks + [] == blocks;
    } else {
      var b := e.item.block;
      DeliveryOutcome(o, s, 0, e.item, e.io);
      NeverFatal(o, s, b, e.io);
      LoggedSnoc(s.log, Entry(0, e.item));
    }
  }

  lemma {:induction false} FollowRun(o: Options, s: State, es: seq<Event>)
    requires Follows(s, []) && !s.aborted
    requires forall k :: 0 <= k < |Delivered(es)| ==> |Delivered(es)[k].bytes| >= 12
    ensures var r := Run(o, s, es); !r.aborted && Follows(r, Delivered(es))
  {
    hide Step, Follows;
    if es != [] {
      var before, e := es[..|es| - 1], es[|es| - 1];
      assert Delivered(before) <= Delivered(es);
      assert forall k :: 0 <= k < |Delivered(before)| ==> Delivered(before)[k] == Delivered(es)[k];
      FollowRun(o, s, before);
      var more: seq<Block> := if e.Deliver? && e.src == 0 && e.item.FromPipe? then [e.item.block] else [];
      assert Delivered(es) == Delivered(before) + more;
      if more != [] {
        assert Delivered(es)[|Delivered(before)|] == e.item.block;
      }
      FollowStep(o, Run(o, s, before), Delivered(before), e);
    }
  }

  lemma NextFits(passthrough: bool, section: Section, s: seq<byte>)
    requires NextBlock(passthrough, section, s).Got?
    ensures |NextBlock(passthrough, section, s).block.bytes| >= 12
  {
    hide ReadHeader;
    assert ReadHeader(passthrough, section, s).length % 4 == 0;
  }

  lemma {:induction false} ParsedFit(passthrough: bool, section: Section, s: seq<byte>)
    ensures var blocks := Parse(passthrough, section, s).blocks;
            forall k :: 0 <= k < |blocks| ==> |blocks[k].bytes| >= 12
    decreases |s|
  {
    hide NextBlock;
    var n := NextBlock(passthrough, section, s);
    if n.Got? {
      NextFits(passthrough, section, s);
      ParsedFit(passthrough, n.section, s[|n.block.bytes|..]);
      assert Parse(passthrough, section, s).blocks == [n.block] + Parse(passthrough, n.section, s[|n.block.bytes|..]).blocks;
    }
  }

  lemma StartFollows(o: Options, io: Io)
    requires OptionsFit(o, [true]) && Started(o, [true], io).1
    ensures Follows(Started(o, [true], io).0, []) && !Started(o, [true], io).0.aborted
  {
    hide Started, OpenedIdbs;
    StartAccounted(o, [true], io);
    var s := Started(o, [true], io).0;
    assert SameCounts(s.srcs[0], Src(true, 0, [], false, 0, 0, 0));
    assert LoggedBlocks(s.log) == [];
  }

  // ---- One file

  /** The bytes of a file that has only copied blocks. */
  function FileBytes(f: seq<OutBlock>): seq<byte> {
    if f == [] then []
    else FileBytes(f[..|f| - 1]) + if f[|f| - 1].Copied? then f[|f| - 1].bytes else []
  }

  lemma {:induction false} FlattenSnoc(blocks: seq<Block>, b: Block)
    ensures Flatten(blocks + [b]) == Flatten(blocks) + b.bytes
    decreases |blocks|
  {
    if blocks == [] {
      assert [b][1..] == [] && [] + [b] == [b];
    } else {
      FlattenSnoc(blocks[1..], b);
      assert (blocks + [b])[1..] == blocks[1..] + [b];
    }
  }

  /** The one file has the logged blocks, each byte for byte. */
  ghost predicate OneFile(s: State) {
    Single(s) && |s.files| == 1 && s.files[0] == Copies(LoggedBlocks(s.log))
  }

  function Copies(blocks: seq<Block>): (f: seq<OutBlock>)
    ensures |f| == |blocks| && forall k :: 0 <= k < |f| ==> f[k] == Copied(blocks[k].bytes)
  {
    if blocks == [] then [] else Copies(blocks[..|blocks| - 1]) + [Copied(blocks[|blocks| - 1].bytes)]
  }

  lemma {:induction false} CopiedBytes(blocks: seq<Block>)
    ensures FileBytes(Copies(blocks)) == Flatten(blocks)
  {
    if blocks != [] {
      var before, b := blocks[..|blocks| - 1], blocks[|blocks| - 1];
      CopiedBytes(before);
      assert blocks == before + [b];
      FlattenSnoc(before, b);
      assert Copies(blocks)[..|blocks| - 1] == Copies(before);
    }
  }

  /** With a single file, a switch is a stop. */
  lemma OnlyStops(o: Options, s: State, io: Io)
    requires s.files != [] && !o.multiFiles
    ensures SwitchOrStop(o, s, io) == (s.(go := false), false)
  {
  }

  lemma OneFileWrote(o: Options, s: State, i: nat, io: Io)
    requires s.files != [] && !o.multiFiles && i < |s.srcs|
    ensures var r := WroteOnePacket(o, s, i, io); r.files == s.files && r.log == s.log
  {
    hide SwitchOrStop;
    OnlyStops(o, WithPacket(o, s, i), io);
  }

  /** A block is copied to the file and logged, or neither. */
  ghost predicate CopiedOrNot(s: State, r: State, b: Block)
    requires s.files != []
  {
    || (r.files == s.files && r.log == s.log)
    || (r.files == [s.files[0] + [Copied(b.bytes)]] && r.log == s.log + [Entry(0, FromPipe(b))])
  }

  lemma {:induction false} PassWrites(o: Options, s: State, b: Block, io: Io)
    requires Single(s) && |s.files| == 1 && !o.multiFiles && |b.bytes| >= 12
    ensures CopiedOrNot(s, WritePcapng(o, s, 0, b, io), b)
  {
    hide AdjustBlock, WroteOnePacket, IsDataBlock, CanCopy;
    if s.go {
      PassAdjusts(s, b);
      var a := AdjustBlock(s, 0, b);
      OneFileWrote(o, Logged(Put(o, a.state, Copied(a.bytes)), 0, FromPipe(b)), 0, io);
    }
  }

  lemma PassAdjusts(s: State, b: Block)
    requires Single(s) && |b.bytes| >= 12
    ensures var a := AdjustBlock(s, 0, b);
            a.ok && a.bytes == b.bytes && a.state.files == s.files && a.state.log == s.log && |a.state.srcs| == 1
            && a.state.passthrough && a.state.open == s.open
  {
  }

  lemma {:induction false} OneFileStep(o: Options, s: State, e: Event)
    requires OneFile(s) && !o.multiFiles
    ensures OneFile(Step(o, s, e))
  {
    hide WritePcapng, Step;
    if !Alive(s) {
      Dead(o, s, e);
    } else if e.ShbSeen? {
      SeenOutcome(o, s, e);
    } else if e.Deliver? {
      if EventFits(s, e) {
        OneFileDelivery(o, s, e.item.block, e.io);
      } else {
        Unfit(o, s, e);
      }
    } else {
      OtherOutcome(o, s, e);
      OneFileTick(o, s, e);
    }
  }

  lemma OneFileTick(o: Options, s: State, e: Event)
    requires s.files != [] && Alive(s) && !o.multiFiles && !e.Deliver? && !e.ShbSeen?
    ensures Step(o, s, e).files == s.files
  {
    hide SwitchOrStop;
    if e.TimersLooked? {
      var r := ReportPackets(o, s);
      OnlyStops(o, r, e.io);
      OnlyStops(o, r, e.io');
    }
  }

  lemma {:induction false} OneFileDelivery(o: Options, s: State, b: Block, io: Io)
    requires OneFile(s) && Alive(s) && !o.multiFiles && |b.bytes| >= 12
    ensures OneFile(Step(o, s, Deliver(0, FromPipe(b), io)))
  {
    hide WritePcapng, LoggedBlocks;
    StillSingle(o, s, Deliver(0, FromPipe(b), io));
    PassWrites(o, s, b, io);
    LoggedSnoc(s.log, Entry(0, FromPipe(b)));
    assert Copies(LoggedBlocks(s.log) + [b]) == Copies(LoggedBlocks(s.log)) + [Copied(b.bytes)];
  }

  lemma {:induction false} StillSingle(o: Options, s: State, e: Event)
    requires Single(s) && Alive(s) && e.Deliver? && EventFits(s, e)
    ensures Single(Step(o, s, e))
  {
    hide Step, IsData;
    DeliveryOutcome(o, s, 0, e.item, e.io);
  }

  lemma {:induction false} OneFileRun(o: Options, s: State, es: seq<Event>)
    requires OneFile(s) && Follows(s, []) && !s.aborted && !o.multiFiles
    requires forall k :: 0 <= k < |Delivered(es)| ==> |Delivered(es)[k].bytes| >= 12
    ensures OneFile(Run(o, s, es))
  {
    hide Step, Follows, OneFile, Delivered;
    if es != [] {
      var before := es[..|es| - 1];
      DeliveredBefore(es);
      OneFileRun(o, s, before);
      FollowRun(o, s, before);
      OneFileStep(o, Run(o, s, before), es[|es| - 1]);
    }
  }

  lemma DeliveredBefore(es: seq<Event>)
    requires es != []
    ensures Delivered(es[..|es| - 1]) <= Delivered(es)
  {
  }

  lemma StartOneFile(o: Options, io: Io)
    requires OptionsFit(o, [true]) && Started(o, [true], io).1
    ensures OneFile(Started(o, [true], io).0)
  {
    hide OpenedIdbs, OpenedSrcs, StartOutput;
    StartAccounted(o, [true], io);
    StartShape(o, OpenInput([true]), io);
    assert LoggedBlocks([]) == [] && Copies([]) == [];
  }

  lemma {:induction false} FlattenPrefix(a: seq<Block>, b: seq<Block>)
    requires a <= b
    ensures Flatten(a) <= Flatten(b)
    decreases |a|
  {
    if a != [] {
      FlattenPrefix(a[1..], b[1..]);
    }
  }

  /** Passthrough into one file: whatever the sections of the stream and their byte orders, the file is,
      byte for byte, a prefix of the stream that ends with a block; and as long as the capture has not
      stopped, it has every block that the pipe reader delivered. */
  lemma {:induction false} OutputIsPrefixOfStream(o: Options, io: Io, es: seq<Event>, stream: seq<byte>)
    requires OptionsFit(o, [true]) && Started(o, [true], io).1 && !o.multiFiles
    requires Delivered(es) <= Parse(true, NoSection, stream).blocks
    ensures var s := Run(o, Started(o, [true], io).0, es);
            var n := |LoggedBlocks(s.log)|;
            && |s.files| == 1 && n <= |Delivered(es)| && (s.go ==> n == |Delivered(es)|)
            && FileBytes(s.files[0]) == Flatten(Delivered(es)[..n]) <= stream
  {
    hide Started, Run, Parse, Delivered, FileBytes, Flatten, LoggedBlocks;
    var s0 := Started(o, [true], io).0;
    var s := Run(o, s0, es);
    ParsedFit(true, NoSection, stream);
    StartFollows(o, io);
    StartOneFile(o, io);
    FollowRun(o, s0, es);
    OneFileRun(o, s0, es);
    CopiedBytes(LoggedBlocks(s.log));
    ParseKeepsBytes(true, NoSection, stream);
    FlattenPrefix(LoggedBlocks(s.log), Parse(true, NoSection, stream).blocks);
    assert Delivered(es)[..|LoggedBlocks(s.log)|] == LoggedBlocks(s.log);
  }
}
