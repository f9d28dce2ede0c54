/** Passthrough with file rotation: what the pipe reader has learnt when a file starts, when the replay of the
    saved section header goes astray, and that all else keeps its meaning. */
module Rotation {
  import opened Bytes
  import opened PcapngFormat
  import opened Engine
  import opened Meaning
  import opened MeaningKept
  import opened Conservation
  import opened Passthrough
  import References

  // ---- Delivering the blocks of a stream is legal

  /** The section after a list of blocks. */
  function TabOf(blocks: seq<Block>): Tab {
    if blocks == [] then NO_TAB else TabAfter(TabOf(blocks[..|blocks| - 1]), blocks[|blocks| - 1])
  }

  /** A block in a framed list is framed for the section before it. */
  lemma {:induction false} FramedAt(blocks: seq<Block>, k: nat)
    requires FramedFrom(true, NO_TAB, blocks) && k <= |blocks|
    ensures FramedFrom(true, TabOf(blocks[..k]), blocks[k..])
    ensures k < |blocks| ==> FramedBlock(true, TabOf(blocks[..k]), blocks[k])
  {
    hide FramedBlock, TabAfter;
    if k > 0 {
      FramedAt(blocks, k - 1);
      var rest := blocks[k - 1..];
      assert rest[0] == blocks[k - 1] && rest[1..] == blocks[k..];
      assert blocks[..k][..k - 1] == blocks[..k - 1];
    } else {
      assert blocks[0..] == blocks;
    }
  }

  /** The source's section, as the writer has seen it. */
  lemma {:induction false} OwnTabOf(log: seq<Entry>)
    requires forall k :: 0 <= k < |log| ==> log[k].src == 0 && log[k].item.FromPipe?
    ensures ReadInputs(1, log).tabs == [TabOf(LoggedBlocks(log))]
  {
    hide ReadBytes;
    if log != [] {
      OwnTabOf(log[..|log| - 1]);
    }
  }

  /** The log holds blocks of the one source only. */
  ghost predicate PipeLog(s: State) {
    forall k :: 0 <= k < |s.log| ==> s.log[k].src == 0 && s.log[k].item.FromPipe?
  }

  lemma {:induction false} PipeLogStep(o: Options, s: State, e: Event)
    requires Single(s) && PipeLog(s)
    ensures PipeLog(Step(o, s, e))
  {
    hide Step, IsData;
    if !Alive(s) {
      Dead(o, s, e);
    } else if e.ShbSeen? {
      SeenOutcome(o, s, e);
    } else if !e.Deliver? {
      OtherOutcome(o, s, e);
    } else if EventFits(s, e) {
      DeliveryOutcome(o, s, e.src, e.item, e.io);
    } else {
      Unfit(o, s, e);
    }
  }

  lemma {:induction false} StreamIsLegal(o: Options, s: State, es: seq<Event>, stream: seq<byte>)
    requires Follows(s, []) && !s.aborted && s.log == []
    requires |stream| >= 4 && Word(stream, 0, false) == BLOCK_TYPE_SHB
    requires Delivered(es) <= Parse(true, NoSection, stream).blocks
    ensures LegalRun(o, s, es) && PipeLog(Run(o, s, es))
  {
    hide Word, Parse, Step, Follows, FramedBlock, Delivered, PipeLog, Legal;
    if es != [] {
      var before, e := es[..|es| - 1], es[|es| - 1];
      var r := Run(o, s, before);
      DeliveredBefore(es);
      StreamIsLegal(o, s, before, stream);
      ParsedFit(true, NoSection, stream);
      FollowRun(o, s, before);
      ParseFramed(true, NoSection, NO_TAB, stream);
      assert es == before + [e];
      EventIsLegal(o, r, before, e, Parse(true, NoSection, stream).blocks);
      SingleOf(r, Delivered(before));
      PipeLogStep(o, r, e);
    } else {
      EmptyLog(s);
    }
  }

  lemma EmptyLog(s: State)
    requires s.log == []
    ensures PipeLog(s)
  {
  }

  lemma SingleOf(s: State, blocks: seq<Block>)
    requires Follows(s, blocks)
    ensures Single(s)
  {
  }

  lemma EventIsLegal(o: Options, r: State, before: seq<Event>, e: Event, blocks: seq<Block>)
    requires Follows(r, Delivered(before)) && PipeLog(r)
    requires Delivered(before + [e]) <= blocks && FramedFrom(true, NO_TAB, blocks)
    ensures Legal(r, e)
  {
    hide Word, FramedBlock, FramedFrom, TabOf, ReadInputs, Legal, LoggedBlocks;
    assert (before + [e])[..|before|] == before;
    if r.go && EventFits(r, e) && e.Deliver? {
      var n := |Delivered(before)|;
      assert Delivered(before + [e]) == Delivered(before) + [e.item.block];
      assert blocks[n] == e.item.block && blocks[..n] == LoggedBlocks(r.log);
      FramedAt(blocks, n);
      OwnTabOf(r.log);
      FramedIsLegal(r, e, TabOf(LoggedBlocks(r.log)));
    } else {
      OthersAreLegal(r, e);
    }
  }

  lemma FramedIsLegal(r: State, e: Event, own: Tab)
    requires Single(r) && EventFits(r, e) && e.Deliver? && FramedBlock(true, own, e.item.block)
    requires ReadInputs(1, r.log).tabs == [own]
    ensures Legal(r, e)
  {
    hide Word, IsShb, TypeOf, ReadInputs;
  }

  lemma OthersAreLegal(r: State, e: Event)
    requires !(r.go && EventFits(r, e) && e.Deliver?)
    ensures Legal(r, e)
  {
  }

  // ---- The reader's side of a run

  predicate Delivers(e: Event) {
    e.Deliver? && e.src == 0 && e.item.FromPipe?
  }

  /** What the pipe reader of the one source did in a run. */
  function ReaderEvents(es: seq<Event>): seq<Happening> {
    if es == [] then []
    else
      var before, e := ReaderEvents(es[..|es| - 1]), es[|es| - 1];
      if Delivers(e) then before + [GotBlock(e.item.block)]
      else if e.ShbSeen? && e.src == 0 then before + [SawShb(e.swapped)]
      else before
  }

  /** The blocks among happenings. */
  function BlocksOf(hs: seq<Happening>): seq<Block> {
    if hs == [] then []
    else
      var before, h := BlocksOf(hs[..|hs| - 1]), hs[|hs| - 1];
      if h.GotBlock? then before + [h.block] else before
  }

  lemma BlocksSnoc(hs: seq<Happening>, h: Happening)
    ensures BlocksOf(hs + [h]) == if h.GotBlock? then BlocksOf(hs) + [h.block] else BlocksOf(hs)
  {
    assert (hs + [h])[..|hs|] == hs;
  }

  lemma {:induction false} EventsDeliver(es: seq<Event>)
    ensures BlocksOf(ReaderEvents(es)) == Delivered(es)
  {
    if es != [] {
      var before, e := es[..|es| - 1], es[|es| - 1];
      EventsDeliver(before);
      if Delivers(e) {
        BlocksSnoc(ReaderEvents(before), GotBlock(e.item.block));
      } else if e.ShbSeen? {
        BlocksSnoc(ReaderEvents(before), SawShb(e.swapped));
      }
    }
  }

  lemma {:induction false} BlocksOfHappenings(blocks: seq<Block>)
    ensures BlocksOf(HappeningsOf(blocks)) == blocks
  {
    hide Word, BlocksOf;
    if blocks == [] {
      NoBlocks();
    } else {
      var before, b := blocks[..|blocks| - 1], blocks[|blocks| - 1];
      BlocksOfHappenings(before);
      var hs := HappeningsOf(before);
      BlocksSnoc(hs, GotBlock(b));
      if b.btype == BLOCK_TYPE_SHB && |b.bytes| >= 12 {
        var saw := SawShb(ShbSwapped(b.bytes));
        BlocksSnoc(hs, saw);
        BlocksSnoc(hs + [saw], GotBlock(b));
        assert hs + [saw] + [GotBlock(b)] == hs + [saw, GotBlock(b)];
      }
    }
  }

  lemma NoBlocks()
    ensures BlocksOf([]) == []
  {
  }

  /** Part way through the happenings of blocks one is between two blocks, or ahead of the body of an SHB. */
  lemma {:induction false} Position(hs: seq<Happening>, blocks: seq<Block>)
    requires hs <= HappeningsOf(blocks)
    ensures BlocksOf(hs) <= blocks
    ensures hs == HappeningsOf(BlocksOf(hs))
            || (hs != [] && hs[|hs| - 1].SawShb? && hs[..|hs| - 1] == HappeningsOf(BlocksOf(hs)))
    decreases |blocks|
  {
    hide Word, BlocksOf;
    if blocks == [] {
      NoBlocks();
    } else {
      var before, b := blocks[..|blocks| - 1], blocks[|blocks| - 1];
      var past := HappeningsOf(before);
      if |hs| <= |past| {
        assert hs <= past;
        Position(hs, before);
      } else if |hs| == |HappeningsOf(blocks)| {
        assert hs == HappeningsOf(blocks);
        BlocksOfHappenings(blocks);
      } else {
        var saw := SawShb(ShbSwapped(b.bytes));
        assert hs == past + [saw] && hs[..|hs| - 1] == past;
        BlocksOfHappenings(before);
        BlocksSnoc(past, saw);
      }
    }
  }

  lemma {:induction false} PositionInStream(hs: seq<Happening>, stream: seq<byte>)
    requires hs <= Happenings(true, stream)
    ensures BlocksOf(hs) <= Parse(true, NoSection, stream).blocks
    ensures hs == HappeningsOf(BlocksOf(hs))
            || (hs != [] && hs[|hs| - 1].SawShb? && hs[..|hs| - 1] == HappeningsOf(BlocksOf(hs)))
  {
    hide Parse, Word, HappeningsOf, BlocksOf;
    var blocks := Parse(true, NoSection, stream).blocks;
    if |hs| <= |HappeningsOf(blocks)| {
      Position(hs, blocks);
    } else {
      var past, saw := HappeningsOf(blocks), hs[|hs| - 1];
      assert hs == past + [saw] && hs[..|hs| - 1] == past;
      BlocksOfHappenings(blocks);
      BlocksSnoc(past, saw);
    }
  }

  lemma {:induction false} EventsBefore(es: seq<Event>, k: nat)
    requires k <= |es|
    ensures ReaderEvents(es[..k]) <= ReaderEvents(es)
    decreases |es|
  {
    if k < |es| {
      EventsBefore(es[..|es| - 1], k);
      assert es[..|es| - 1][..k] == es[..k];
    } else {
      assert es[..k] == es;
    }
  }

  // ---- The saved header and the flag

  /** A section header whose length field, in its own byte order, is its length. */
  ghost predicate WellShb(b: seq<byte>) {
    |b| >= 12 && IsShb(b) && Word(b, 4, ShbSwapped(b)) == |b|
  }

  ghost predicate WellBlocks(blocks: seq<Block>) {
    forall k :: 0 <= k < |blocks| ==> WellBlock(blocks[k])
  }

  ghost predicate WellBlock(b: Block) {
    |b.bytes| >= 12 && (b.btype == BLOCK_TYPE_SHB ==> WellShb(b.bytes))
  }

  /** The last section header among blocks, or nothing. */
  function LastShb(blocks: seq<Block>): seq<byte> {
    if blocks == [] then []
    else if blocks[|blocks| - 1].btype == BLOCK_TYPE_SHB then blocks[|blocks| - 1].bytes
    else LastShb(blocks[..|blocks| - 1])
  }

  lemma LastShbSnoc(blocks: seq<Block>, b: Block)
    ensures LastShb(blocks + [b]) == if b.btype == BLOCK_TYPE_SHB then b.bytes else LastShb(blocks)
  {
    assert (blocks + [b])[..|blocks|] == blocks;
  }

  lemma {:induction false} ParsedWell(stream: seq<byte>)
    requires |stream| >= 4 && Word(stream, 0, false) == BLOCK_TYPE_SHB
    ensures WellBlocks(Parse(true, NoSection, stream).blocks)
  {
    hide Parse, Word, FramedFrom, TabOf, IsShb, TypeOf;
    ParseFramed(true, NoSection, NO_TAB, stream);
    var blocks := Parse(true, NoSection, stream).blocks;
    forall k | 0 <= k < |blocks|
      ensures WellBlock(blocks[k])
    {
      FramedAt(blocks, k);
    }
  }

  /** Between two blocks the flag is that of the last section header delivered. */
  lemma {:induction false} FlagOfBlocks(blocks: seq<Block>)
    requires WellBlocks(blocks)
    ensures LastShb(blocks) != [] ==> WellShb(LastShb(blocks))
    ensures FlagAfter(HappeningsOf(blocks)) == (|LastShb(blocks)| >= 12 && ShbSwapped(LastShb(blocks)))
  {
    hide Word, IsShb, FlagAfter;
    if blocks == [] {
      NoFlag();
    } else {
      var before, b := blocks[..|blocks| - 1], blocks[|blocks| - 1];
      assert WellBlocks(before) && WellBlock(b);
      FlagOfBlocks(before);
      var hs := HappeningsOf(before);
      FlagSnoc(hs, GotBlock(b));
      if b.btype == BLOCK_TYPE_SHB {
        var saw := SawShb(ShbSwapped(b.bytes));
        FlagSnoc(hs, saw);
        FlagSnoc(hs + [saw], GotBlock(b));
        assert hs + [saw] + [GotBlock(b)] == hs + [saw, GotBlock(b)];
      }
    }
  }

  lemma NoFlag()
    ensures !FlagAfter([])
  {
  }

  /** Counting a packet and switching files touch neither. */
  lemma WroteSaves(o: Options, s: State, i: nat, io: Io)
    requires s.files != [] && |s.srcs| == 1 && i == 0
    ensures var r := WroteOnePacket(o, s, i, io);
            r.savedShb == s.savedShb && |r.srcs| == 1 && r.srcs[0].byteSwapped == s.srcs[0].byteSwapped
  {
    hide SwitchOrStop;
    SwitchAside(o, WithPacket(o, s, i), io);
  }

  /** The saved header after a step, and the flag. */
  ghost predicate Remembers(s: State, r: State, e: Event)
    requires |s.srcs| == 1
  {
    && |r.srcs| == 1
    && r.savedShb == (if s.go && Delivers(e) && e.item.block.btype == BLOCK_TYPE_SHB then e.item.block.bytes else s.savedShb)
    && r.srcs[0].byteSwapped == if e.ShbSeen? && e.src == 0 then e.swapped else s.srcs[0].byteSwapped
  }

  lemma {:induction false} StepRemembers(o: Options, s: State, e: Event)
    requires Single(s) && Alive(s) && (Delivers(e) ==> |e.item.block.bytes| >= 12)
    ensures Remembers(s, Step(o, s, e), e)
  {
    hide WritePcapng, Tick;
    match e
    case Deliver(i, item, io) =>
      if EventFits(s, e) {
        WriteRemembers(o, s, item.block, io);
      }
    case ShbSeen(_, _) =>
    case StopRequest =>
    case TimersLooked(t, io, io') => TickRemembers(o, s, t, io, io');
  }

  lemma {:induction false} TickRemembers(o: Options, s: State, t: Timers, io: Io, io': Io)
    requires Single(s)
    ensures var r := Tick(o, s, t, io, io'); r.srcs == s.srcs && r.savedShb == s.savedShb
  {
    hide SwitchOrStop, ReportPackets;
    var r := ReportPackets(o, s);
    ReportAside(o, s);
    SwitchAside(o, r, io);
    SwitchAside(o, r, io');
    SwitchAside(o, SwitchOrStop(o, r, io).0, io');
  }

  lemma {:induction false} WriteRemembers(o: Options, s: State, b: Block, io: Io)
    requires Single(s) && |b.bytes| >= 12
    ensures Remembers(s, WritePcapng(o, s, 0, b, io), Deliver(0, FromPipe(b), io))
  {
    hide AdjustBlock, WroteOnePacket, CanCopy, IsDataBlock;
    ShbIsNoData();
    if s.go {
      AdjustRemembers(s, b);
      PassAdjusts(s, b);
      var a := AdjustBlock(s, 0, b);
      WroteSaves(o, Logged(Put(o, a.state, Copied(a.bytes)), 0, FromPipe(b)), 0, io);
    }
  }

  lemma AdjustRemembers(s: State, b: Block)
    requires Single(s) && |b.bytes| >= 12
    ensures var r := AdjustBlock(s, 0, b).state;
            && |r.srcs| == 1 && r.srcs[0].byteSwapped == s.srcs[0].byteSwapped
            && r.savedShb == if b.btype == BLOCK_TYPE_SHB then b.bytes else s.savedShb
  {
  }

  /** What a run that delivers the blocks of a stream keeps: the flag is what the reader saw last, and while
      capturing the saved header is the last one delivered. */
  ghost predicate Known(s: State, es: seq<Event>) {
    && Follows(s, Delivered(es)) && !s.aborted
    && (Alive(s) ==> s.srcs[0].byteSwapped == FlagAfter(ReaderEvents(es)))
    && (s.savedShb != [] ==> WellShb(s.savedShb)) && (s.go ==> s.savedShb == LastShb(Delivered(es)))
  }

  lemma {:induction false} StepKnown(o: Options, s: State, before: seq<Event>, e: Event)
    requires Known(s, before) && (Delivers(e) ==> WellBlock(e.item.block))
    ensures Known(Step(o, s, e), before + [e])
  {
    hide Step, FlagAfter, LastShb, WellShb, LoggedBlocks;
    assert (before + [e])[..|before|] == before;
    FollowStep(o, s, Delivered(before), e);
    assert Delivered(before) + [] == Delivered(before);
    if Alive(s) {
      StepRemembers(o, s, e);
      if Delivers(e) {
        LastShbSnoc(Delivered(before), e.item.block);
        FlagSnoc(ReaderEvents(before), GotBlock(e.item.block));
      } else if e.ShbSeen? {
        FlagSnoc(ReaderEvents(before), SawShb(e.swapped));
      }
      NeverStartsAgain(o, s, e);
    } else {
      Dead(o, s, e);
    }
  }

  lemma {:induction false} NeverStartsAgain(o: Options, s: State, e: Event)
    requires Single(s) && Alive(s)
    ensures Step(o, s, e).go ==> s.go
  {
    hide Step, IsData;
    if e.ShbSeen? {
      SeenOutcome(o, s, e);
    } else if !e.Deliver? {
      OtherOutcome(o, s, e);
    } else if EventFits(s, e) {
      DeliveryOutcome(o, s, e.src, e.item, e.io);
    } else {
      Unfit(o, s, e);
    }
  }

  lemma {:induction false} RunKnown(o: Options, s: State, es: seq<Event>)
    requires Known(s, []) && WellBlocks(Delivered(es))
    ensures Known(Run(o, s, es), es)
  {
    hide Step, Known, WellBlock;
    if es != [] {
      var before, e := es[..|es| - 1], es[|es| - 1];
      DeliveredBefore(es);
      assert WellBlocks(Delivered(before));
      assert Delivers(e) ==> WellBlock(e.item.block) by {
        if Delivers(e) {
          assert Delivered(es)[|Delivered(before)|] == e.item.block;
        }
      }
      RunKnown(o, s, before);
      StepKnown(o, Run(o, s, before), before, e);
      assert es == before + [e];
    } else {
      assert es == [];
    }
  }

  lemma StartKnown(o: Options, io: Io)
    requires OptionsFit(o, [true]) && Started(o, [true], io).1
    ensures Known(Started(o, [true], io).0, [])
  {
    hide Started, OpenedIdbs;
    StartFollows(o, io);
    StartAccounted(o, [true], io);
    NoFlag();
    assert Delivered([]) == [] && ReaderEvents([]) == [] && LastShb([]) == [];
  }

  /** The events come from reading the stream. */
  ghost predicate Reads(o: Options, io: Io, es: seq<Event>, stream: seq<byte>) {
    && OptionsFit(o, [true]) && Started(o, [true], io).1
    && |stream| >= 4 && Word(stream, 0, false) == BLOCK_TYPE_SHB
    && ReaderEvents(es) <= Happenings(true, stream)
  }

  function After(o: Options, io: Io, es: seq<Event>): State {
    Run(o, Started(o, [true], io).0, es)
  }

  lemma {:induction false} ReadsKnown(o: Options, io: Io, es: seq<Event>, stream: seq<byte>)
    requires Reads(o, io, es, stream)
    ensures Known(After(o, io, es), es) && WellBlocks(Delivered(es))
    ensures Delivered(es) <= Parse(true, NoSection, stream).blocks
  {
    hide Started, Run, Parse, Known, Word, Delivered, ReaderEvents, WellBlock, Happenings;
    PositionInStream(ReaderEvents(es), stream);
    EventsDeliver(es);
    ParsedWell(stream);
    StartKnown(o, io);
    RunKnown(o, Started(o, [true], io).0, es);
  }

  lemma {:induction false} ReadsBefore(o: Options, io: Io, es: seq<Event>, stream: seq<byte>, k: nat)
    requires Reads(o, io, es, stream) && k <= |es|
    ensures Reads(o, io, es[..k], stream)
  {
    hide Started, Word, Happenings, ReaderEvents;
    EventsBefore(es, k);
  }

  // ---- When a replay is whole

  /** The reader's byte order is not that of the section the writer saved, and the length of the saved header
      does not read the same both ways. */
  ghost predicate Gap(o: Options, io: Io, es: seq<Event>) {
    var s := After(o, io, es);
    |s.savedShb| >= 12 && FlagAfter(ReaderEvents(es)) != ShbSwapped(s.savedShb)
    && |s.savedShb| < 0x1_0000_0000 && Swap(|s.savedShb|) != |s.savedShb|
  }

  /** A replay at this point would write the whole saved header, and nothing else, exactly outside gaps. */
  lemma {:induction false} WholeIffNoGap(o: Options, io: Io, es: seq<Event>, stream: seq<byte>)
    requires Reads(o, io, es, stream) && Alive(After(o, io, es))
    ensures NextReplay(o, After(o, io, es)).Whole? <==> !Gap(o, io, es)
  {
    hide Started, Run, Word, Swap, ShbSwapped, Happenings, FlagAfter, LoggedBlocks;
    ReadsKnown(o, io, es, stream);
    var s := After(o, io, es);
    if s.savedShb != [] {
      References.ReplayIsWholeIff(s.savedShb, s.srcs[0].byteSwapped);
    }
  }

  /** The reader has seen the header of an SHB of the other byte order, and not delivered its body. */
  ghost predicate BetweenHeaderAndBody(hs: seq<Happening>) {
    var shb := LastShb(BlocksOf(hs));
    hs != [] && hs[|hs| - 1].SawShb? && |shb| >= 12 && ShbSwapped(shb) != hs[|hs| - 1].swapped
  }

  /** While capturing, a gap is the time between the header and the body of an SHB of the other byte order. */
  lemma {:induction false} GapIsBetween(o: Options, io: Io, es: seq<Event>, stream: seq<byte>)
    requires Reads(o, io, es, stream) && After(o, io, es).go
    ensures var hs, n := ReaderEvents(es), |LastShb(Delivered(es))|;
            Gap(o, io, es) <==> BetweenHeaderAndBody(hs) && n < 0x1_0000_0000 && Swap(n) != n
  {
    hide Started, Run, Word, Swap, ShbSwapped, Happenings, LoggedBlocks, LastShb, HappeningsOf, Parse, IsShb, FlagAfter;
    ReadsKnown(o, io, es, stream);
    EventsDeliver(es);
    var hs := ReaderEvents(es);
    PositionInStream(hs, stream);
    FlagOfBlocks(Delivered(es));
    if hs != [] && hs[|hs| - 1].SawShb? {
      assert hs == hs[..|hs| - 1] + [hs[|hs| - 1]];
      FlagSnoc(hs[..|hs| - 1], hs[|hs| - 1]);
    }
  }

  /** Step k of the run starts a new file. */
  ghost predicate Opens(o: Options, io: Io, es: seq<Event>, k: nat) {
    k < |es| && |After(o, io, es[..k]).files| < |After(o, io, es[..k + 1]).files|
  }

  lemma OpensInStep(o: Options, io: Io, es: seq<Event>, k: nat)
    requires k < |es|
    ensures After(o, io, es[..k + 1]) == Step(o, After(o, io, es[..k]), es[k])
    ensures Opens(o, io, es, k) ==> Alive(After(o, io, es[..k]))
  {
    hide Started;
    assert es[..k + 1][..k] == es[..k];
    if !Alive(After(o, io, es[..k])) {
      Dead(o, After(o, io, es[..k]), es[k]);
    }
  }

  /** A switch and the replay. */
  ghost predicate Replayed(o: Options, s: State, r: State) {
    && (r.fault.ReplayFault? <==> |s.files| < |r.files| && NextReplay(o, s).Astray?)
    && (|s.files| < |r.files| && !NextReplay(o, s).Whole? ==> r.files == s.files + [[]] && !r.open && !r.go)
    && NextReplay(o, r) == NextReplay(o, s) && |s.files| <= |r.files|
    && (r.open ==> r.fault.NoFault? && s.open) && r.files != []
  }

  lemma {:induction false} SwitchReplays(o: Options, s: State, io: Io)
    requires s.files != [] && s.fault.NoFault?
    ensures Replayed(o, s, SwitchOrStop(o, s, io).0) && (SwitchOrStop(o, s, io).1 ==> SwitchOrStop(o, s, io).0.open)
    ensures SwitchOrStop(o, s, io).1 ==> NextReplay(o, s).Whole?
  {
    hide SwitchOrStop, SwitchFile, NextReplay;
    SwitchAside(o, s, io);
    SameReplay(o, s, SwitchOrStop(o, s, io).0);
    StopOrSwitch(o, s, io);
    if !MustStop(o, s, io) {
      SwitchFileReplays(o, s, io);
    }
  }

  lemma {:induction false} SwitchFileReplays(o: Options, s: State, io: Io)
    requires s.files != [] && s.fault.NoFault? && s.open
    ensures var (r, more) := SwitchFile(o, NextFile(CountFile(o, s)), io);
            && (r.fault.ReplayFault? <==> NextReplay(o, s).Astray?) && |r.files| == |s.files| + 1
            && (!NextReplay(o, s).Whole? ==> r.files == s.files + [[]] && !r.open && !r.go)
            && (r.open ==> r.fault.NoFault?) && (more ==> r.open && NextReplay(o, s).Whole?)
  {
    hide StartBlocks, ReportNewFile, ReportPackets, StartOutput, NextReplay;
    var next := NextFile(CountFile(o, s));
    SameReplay(o, s, next);
    StartReplays(o, next, io);
    StartShape(o, next, io);
    ReportsShape(o, StartOutput(o, next, io).0);
  }

  lemma StopOrSwitch(o: Options, s: State, io: Io)
    requires s.files != []
    ensures SwitchOrStop(o, s, io) ==
            if MustStop(o, s, io) then (StopInstead(o, s), false) else SwitchFile(o, NextFile(CountFile(o, s)), io)
  {
    hide SwitchFile, MustStop, StopInstead;
  }

  lemma SameReplay(o: Options, s: State, r: State)
    requires r.srcs == s.srcs && r.savedShb == s.savedShb && r.passthrough == s.passthrough
    ensures NextReplay(o, r) == NextReplay(o, s)
  {
    hide ReplayOf;
  }

  lemma StartReplays(o: Options, s: State, io: Io)
    requires s.files != [] && s.files[|s.files| - 1] == [] && s.fault.NoFault?
    ensures var (r, ok) := StartOutput(o, s, io);
            && r.fault == (if NextReplay(o, s).Astray? then ReplayFault else NoFault)
            && (ok ==> NextReplay(o, s).Whole?) && (!NextReplay(o, s).Whole? ==> r.files == s.files)
  {
    hide StartBlocks, NextReplay, TotalSize, WrittenBlocks;
    var f := StartBlocks(o, s)[..0];
    assert s.files[|s.files| - 1 := f] == s.files;
  }

  /** In every step a fault of the replay is a file start whose replay goes astray. */
  lemma {:induction false} StepReplays(o: Options, s: State, e: Event)
    requires Single(s) && Alive(s) && (Delivers(e) ==> |e.item.block.bytes| >= 12)
    ensures var r := Step(o, s, e);
            && (r.fault.ReplayFault? <==> |s.files| < |r.files| && NextReplay(o, s).Astray?)
            && (|s.files| < |r.files| ==> e.TimersLooked? || (Delivers(e) && s.go && IsDataBlock(e.item.block.btype)))
            && (|s.files| < |r.files| && !NextReplay(o, s).Whole? ==> !r.go && r.files[|r.files| - 1] == [])
  {
    hide WritePcapng, Tick, NextReplay, IsDataBlock;
    match e
    case Deliver(i, item, io) =>
      if EventFits(s, e) {
        WriteReplays(o, s, item.block, io);
      }
    case ShbSeen(_, _) =>
    case StopRequest =>
    case TimersLooked(t, io, io') => TickReplays(o, s, t, io, io');
  }

  lemma {:induction false} TickReplays(o: Options, s: State, t: Timers, io: Io, io': Io)
    requires Single(s) && Alive(s)
    ensures var r := Tick(o, s, t, io, io');
            && (r.fault.ReplayFault? <==> |s.files| < |r.files| && NextReplay(o, s).Astray?)
            && (|s.files| < |r.files| && !NextReplay(o, s).Whole? ==> !r.go && r.files[|r.files| - 1] == [])
  {
    hide SwitchOrStop, ReportPackets, NextReplay;
    var r := ReportPackets(o, s);
    ReportAside(o, s);
    SameReplay(o, s, r);
    SwitchReplays(o, r, io);
    SwitchReplays(o, r, io');
    var (u, more) := SwitchOrStop(o, r, io);
    if more {
      SwitchReplays(o, u, io');
    }
  }

  lemma {:induction false} WriteReplays(o: Options, s: State, b: Block, io: Io)
    requires Single(s) && Alive(s) && |b.bytes| >= 12
    ensures var r := WritePcapng(o, s, 0, b, io);
            && (r.fault.ReplayFault? <==> |s.files| < |r.files| && NextReplay(o, s).Astray?)
            && (|s.files| < |r.files| ==> s.go && IsDataBlock(b.btype))
            && (|s.files| < |r.files| && !NextReplay(o, s).Whole? ==> !r.go && r.files[|r.files| - 1] == [])
  {
    hide AdjustBlock, SwitchOrStop, CanCopy, IsDataBlock, NextReplay, ReplayOf;
    ShbIsNoData();
    if s.go {
      PassAdjusts(s, b);
      AdjustRemembers(s, b);
      AdjustFault(s, b);
      var a := AdjustBlock(s, 0, b);
      var w := WithPacket(o, Logged(Put(o, a.state, Copied(a.bytes)), 0, FromPipe(b)), 0);
      SwitchReplays(o, w, io);
      if IsDataBlock(b.btype) {
        SameSources(o, s, w);
      }
    }
  }

  lemma AdjustFault(s: State, b: Block)
    requires Single(s) && |b.bytes| >= 12
    ensures AdjustBlock(s, 0, b).state.fault == s.fault
  {
  }

  lemma SameSources(o: Options, s: State, r: State)
    requires |s.srcs| == |r.srcs| == 1 && r.srcs[0].byteSwapped == s.srcs[0].byteSwapped
    requires r.savedShb == s.savedShb && r.passthrough == s.passthrough
    ensures NextReplay(o, r) == NextReplay(o, s)
  {
    hide ReplayOf;
  }

  /** A file that starts because of a data block starts outside gaps: the reader was not ahead of the body of
      an SHB when it delivered the block. */
  lemma {:induction false} GapsAreForTimers(o: Options, io: Io, es: seq<Event>, stream: seq<byte>, k: nat)
    requires Reads(o, io, es, stream) && Opens(o, io, es, k) && Gap(o, io, es[..k])
    ensures es[k].TimersLooked?
  {
    hide Started, Run, Word, Swap, ShbSwapped, Happenings, LastShb, HappeningsOf, Parse, IsShb, FlagAfter, IsDataBlock,
         Gap, Step, NextReplay;
    ReadsBefore(o, io, es, stream, k);
    ReadsBefore(o, io, es, stream, k + 1);
    OpensInStep(o, io, es, k);
    ReadsKnown(o, io, es[..k], stream);
    ReadsKnown(o, io, es[..k + 1], stream);
    var s, e := After(o, io, es[..k]), es[k];
    assert es[..k + 1][..k] == es[..k];
    assert Delivers(e) ==> |e.item.block.bytes| >= 12 by {
      if Delivers(e) {
        var d := Delivered(es[..k + 1]);
        assert d == Delivered(es[..k]) + [e.item.block];
        assert WellBlock(d[|d| - 1]);
      }
    }
    StepReplays(o, s, e);
    if Delivers(e) && s.go && IsDataBlock(e.item.block.btype) {
      ShbIsNoData();
      GapIsBetween(o, io, es[..k], stream);
      NotAheadOfData(ReaderEvents(es[..k]), e.item.block, stream);
    }
  }

  /** Every block but an SHB is delivered when the reader is between two blocks. */
  lemma {:induction false} BetweenBlocks(hs: seq<Happening>, b: Block, stream: seq<byte>)
    requires hs + [GotBlock(b)] <= Happenings(true, stream) && b.btype != BLOCK_TYPE_SHB
    ensures hs == HappeningsOf(BlocksOf(hs))
  {
    hide Word, ShbSwapped, Happenings, LastShb, HappeningsOf, BlocksOf;
    var more := hs + [GotBlock(b)];
    PositionInStream(more, stream);
    BlocksSnoc(hs, GotBlock(b));
    HappeningsSnoc(BlocksOf(hs), b);
    assert hs == more[..|hs|] == HappeningsOf(BlocksOf(hs));
  }

  lemma {:induction false} NotAheadOfData(hs: seq<Happening>, b: Block, stream: seq<byte>)
    requires hs + [GotBlock(b)] <= Happenings(true, stream) && b.btype != BLOCK_TYPE_SHB
    ensures !BetweenHeaderAndBody(hs)
  {
    hide Word, ShbSwapped, Happenings, LastShb, HappeningsOf, BlocksOf;
    BetweenBlocks(hs, b, stream);
    EndsWithBlock(BlocksOf(hs));
  }

  /** Every block but an SHB, and so every data block, is delivered in step: the reader's flag is the byte
      order of the section the block is in. */
  lemma {:induction false} BlocksAreInStep(o: Options, io: Io, es: seq<Event>, stream: seq<byte>, k: nat)
    requires Reads(o, io, es, stream) && k < |es| && Delivers(es[k]) && es[k].item.block.btype != BLOCK_TYPE_SHB
    ensures var shb := LastShb(Delivered(es[..k]));
            FlagAfter(ReaderEvents(es[..k])) == (|shb| >= 12 && ShbSwapped(shb))
  {
    hide Started, Run, Word, ShbSwapped, Happenings, LastShb, HappeningsOf, Parse, FlagAfter, BlocksOf;
    ReadsBefore(o, io, es, stream, k);
    ReadsBefore(o, io, es, stream, k + 1);
    ReadsKnown(o, io, es[..k], stream);
    assert es[..k + 1][..k] == es[..k];
    BetweenBlocks(ReaderEvents(es[..k]), es[k].item.block, stream);
    EventsDeliver(es[..k]);
    FlagOfBlocks(Delivered(es[..k]));
  }

  lemma EndsWithBlock(blocks: seq<Block>)
    ensures var hs := HappeningsOf(blocks); hs != [] ==> hs[|hs| - 1].GotBlock?
  {
    hide Word;
  }

  // ---- Theorems over runs

  ghost predicate EveryReplayWhole(o: Options, io: Io, es: seq<Event>) {
    forall k: nat :: Opens(o, io, es, k) ==> NextReplay(o, After(o, io, es[..k])).Whole?
  }

  ghost predicate NoFileInGap(o: Options, io: Io, es: seq<Event>) {
    forall k: nat :: Opens(o, io, es, k) ==> !Gap(o, io, es[..k])
  }

  /** Over a whole run, every file start replays the saved section header in full if and only if no file is
      started in a gap; and a file started in a gap was started by a timer. */
  lemma {:induction false} ReplaysAreWholeIff(o: Options, io: Io, es: seq<Event>, stream: seq<byte>)
    requires Reads(o, io, es, stream)
    ensures EveryReplayWhole(o, io, es) <==> NoFileInGap(o, io, es)
    ensures forall k: nat :: Opens(o, io, es, k) && Gap(o, io, es[..k]) ==> es[k].TimersLooked?
  {
    hide Reads, NextReplay, Gap, Started, Run;
    forall k: nat | Opens(o, io, es, k)
      ensures NextReplay(o, After(o, io, es[..k])).Whole? <==> !Gap(o, io, es[..k])
      ensures Gap(o, io, es[..k]) ==> es[k].TimersLooked?
    {
      OpensInStep(o, io, es, k);
      ReadsBefore(o, io, es, stream, k);
      WholeIffNoGap(o, io, es[..k], stream);
      if Gap(o, io, es[..k]) {
        GapsAreForTimers(o, io, es, stream, k);
      }
    }
  }

  /** Step k starts a file whose replay goes astray. */
  ghost predicate AstrayAt(o: Options, io: Io, es: seq<Event>, k: nat) {
    Opens(o, io, es, k) && NextReplay(o, After(o, io, es[..k])).Astray?
  }

  lemma AstrayBefore(o: Options, io: Io, es: seq<Event>, k: nat)
    requires es != []
    ensures k < |es| - 1 ==> AstrayAt(o, io, es, k) == AstrayAt(o, io, es[..|es| - 1], k)
    ensures k >= |es| ==> !AstrayAt(o, io, es, k)
    ensures k >= |es| - 1 ==> !AstrayAt(o, io, es[..|es| - 1], k)
  {
    hide Started, Run, NextReplay;
    if k < |es| - 1 {
      var before := es[..|es| - 1];
      assert before[..k] == es[..k] && before[..k + 1] == es[..k + 1];
    }
  }

  /** The run goes astray exactly when the replay of some file start does. */
  lemma {:induction false} AstrayIff(o: Options, io: Io, es: seq<Event>, stream: seq<byte>)
    requires Reads(o, io, es, stream)
    ensures After(o, io, es).fault.ReplayFault? <==> exists k: nat :: AstrayAt(o, io, es, k)
    decreases |es|
  {
    hide AstrayAt, Started, Run, Reads;
    if es == [] {
      NotAstrayYet(o, io, stream);
    } else {
      var n := |es| - 1;
      ReadsBefore(o, io, es, stream, n);
      AstrayIff(o, io, es[..n], stream);
      LastReplay(o, io, es, stream);
      forall k: nat
        ensures AstrayAt(o, io, es, k) <==> AstrayAt(o, io, es[..n], k) || (k == n && AstrayAt(o, io, es, n))
      {
        AstrayBefore(o, io, es, k);
      }
    }
  }

  lemma NotAstrayYet(o: Options, io: Io, stream: seq<byte>)
    requires Reads(o, io, [], stream)
    ensures After(o, io, []).fault.NoFault? && forall k: nat :: !AstrayAt(o, io, [], k)
  {
    hide Started, NextReplay;
    StartAccounted(o, [true], io);
  }

  /** The last step of a run. */
  lemma {:induction false} LastReplay(o: Options, io: Io, es: seq<Event>, stream: seq<byte>)
    requires Reads(o, io, es, stream) && es != []
    ensures var n := |es| - 1;
            var s, r := After(o, io, es[..n]), After(o, io, es);
            r.fault.ReplayFault? <==> s.fault.ReplayFault? || AstrayAt(o, io, es, n)
  {
    hide NextReplay, Started, Step, Word, Happenings, WellBlock, LastShb;
    var n := |es| - 1;
    assert es[..n + 1] == es;
    var s, e := After(o, io, es[..n]), es[n];
    ReadsBefore(o, io, es, stream, n);
    ReadsKnown(o, io, es[..n], stream);
    ReadsKnown(o, io, es, stream);
    OpensInStep(o, io, es, n);
    if Alive(s) {
      assert Delivers(e) ==> |e.item.block.bytes| >= 12 by {
        if Delivers(e) {
          var d := Delivered(es);
          assert d == Delivered(es[..n]) + [e.item.block];
          LongBlock(d, |d| - 1);
        }
      }
      StepReplays(o, s, e);
    } else {
      Dead(o, s, e);
    }
  }

  lemma LongBlock(blocks: seq<Block>, k: nat)
    requires WellBlocks(blocks) && k < |blocks|
    ensures |blocks[k].bytes| >= 12
  {
    assert WellBlock(blocks[k]);
  }

  /** Passthrough with any number of files, not threaded: reading the output files, each for itself, gives
      the blocks of the stream that took effect, each EPB and ISB with the interface it had in its own
      section, although no interface ID is rewritten; and the run does not go astray if no file is started
      between the header and the body of an SHB of the other byte order. */
  lemma {:induction false} RotationKeepsMeaning(o: Options, io: Io, es: seq<Event>, stream: seq<byte>)
    requires Reads(o, io, es, stream)
    ensures var s := After(o, io, es);
            && ReadFiles(s.files) == ReadInputs(1, s.log).seen && LoggedBlocks(s.log) <= Delivered(es)
            && (NoFileInGap(o, io, es) ==> !s.fault.ReplayFault?)
  {
    hide Started, Parse, Word, Step, Delivered, ReadFiles, ReadInputs, LegalRun, Run, Linked, ReplaySafe, Happenings,
         NextReplay, Gap, Opens;
    StartFollows(o, io);
    StartAccounted(o, [true], io);
    ReadsKnown(o, io, es, stream);
    StreamIsLegal(o, Started(o, [true], io).0, es, stream);
    MeaningPreserved(o, [true], io, es);
    ReplaysAreWholeIff(o, io, es, stream);
    AstrayIff(o, io, es, stream);
  }

  // ---- A run that goes astray

  /** The smallest section headers, in the two byte orders. */
  const LITTLE: seq<byte> := [0x0A, 0x0D, 0x0D, 0x0A, 28, 0, 0, 0, 0x4D, 0x3C, 0x2B, 0x1A, 1, 0, 0, 0,
                              255, 255, 255, 255, 255, 255, 255, 255, 28, 0, 0, 0]
  const BIG: seq<byte> := [0x0A, 0x0D, 0x0D, 0x0A, 0, 0, 0, 28, 0x1A, 0x2B, 0x3C, 0x4D, 0, 1, 0, 0,
                           255, 255, 255, 255, 255, 255, 255, 255, 0, 0, 0, 28]

  lemma HeaderWords()
    ensures Word(LITTLE, 0, false) == Word(BIG, 0, false) == BLOCK_TYPE_SHB
    ensures Word(LITTLE, 8, false) == PCAPNG_MAGIC && Word(BIG, 8, false) == PCAPNG_SWAPPED_MAGIC
    ensures Word(LITTLE, 4, false) == Word(LITTLE, 24, false) == 28 && Word(BIG, 4, true) == 28
    ensures Word(LITTLE, 4, true) == 0x1C00_0000
  {
  }

  /** A complete section header at the start of a stream. */
  lemma NextShb(section: Section, shb: seq<byte>, rest: seq<byte>)
    requires |shb| == 28 && Word(shb, 0, false) == BLOCK_TYPE_SHB && Word(shb, 4, ShbSwapped(shb)) == 28
    requires Word(shb, 8, false) == PCAPNG_MAGIC || ShbSwapped(shb)
    ensures NextBlock(true, section, shb + rest)
            == Got(Block(BLOCK_TYPE_SHB, shb), Section(ShbSwapped(shb), WTAP_MAX_PACKET_SIZE_STANDARD))
  {
    hide Word;
    WordOfPrefix(shb, shb + rest, 0, false);
    WordOfPrefix(shb, shb + rest, 4, ShbSwapped(shb));
    WordOfPrefix(shb, shb + rest, 8, false);
    assert (shb + rest)[..28] == shb;
  }

  lemma TwoHeaders()
    ensures Parse(true, NoSection, LITTLE + BIG)
            == Parsed([Block(BLOCK_TYPE_SHB, LITTLE), Block(BLOCK_TYPE_SHB, BIG)],
                      Section(true, WTAP_MAX_PACKET_SIZE_STANDARD), [], false)
    ensures Happenings(true, LITTLE + BIG)
            == [SawShb(false), GotBlock(Block(BLOCK_TYPE_SHB, LITTLE)),
                SawShb(true), GotBlock(Block(BLOCK_TYPE_SHB, BIG))]
  {
    hide Word, NextBlock;
    HeaderWords();
    assert PCAPNG_MAGIC != PCAPNG_SWAPPED_MAGIC;
    var a, b := Block(BLOCK_TYPE_SHB, LITTLE), Block(BLOCK_TYPE_SHB, BIG);
    NextShb(NoSection, LITTLE, BIG);
    var native, other := Section(false, WTAP_MAX_PACKET_SIZE_STANDARD), Section(true, WTAP_MAX_PACKET_SIZE_STANDARD);
    NextShb(native, BIG, []);
    assert (LITTLE + BIG)[28..] == BIG && BIG + [] == BIG && BIG[28..] == [];
    NothingLeft(other);
    assert Parse(true, native, BIG) == Parsed([b], other, [], false);
    HappeningsSnoc([], a);
    HappeningsSnoc([a], b);
    assert [] + [a] == [a] && [a] + [b] == [a, b];
    assert HappeningsOf([]) == [];
    assert HappeningsOf([a, b]) == [SawShb(false), GotBlock(a)] + [SawShb(true), GotBlock(b)];
    assert HappeningsOf([a, b]) + [] == HappeningsOf([a, b]);
  }

  lemma NothingLeft(section: Section)
    ensures Parse(true, section, []) == Parsed([], section, [], false)
  {
  }

  /** The first header is delivered, the second one has only been read, and the file's time is up. */
  function AstrayEvents(io: Io): seq<Event> {
    [ShbSeen(0, false), Deliver(0, FromPipe(Block(BLOCK_TYPE_SHB, LITTLE)), io), ShbSeen(0, true),
     TimersLooked(Timers(false, true, false), io, io)]
  }

  lemma {:induction false} ReaderOfAstrayEvents(io: Io)
    ensures ReaderEvents(AstrayEvents(io))
            == [SawShb(false), GotBlock(Block(BLOCK_TYPE_SHB, LITTLE)), SawShb(true)]
  {
    var es := AstrayEvents(io);
    assert es[..3][..2] == es[..2] && es[..2][..1] == es[..1] && es[..1][..0] == [];
    assert ReaderEvents(es[..1]) == [SawShb(false)];
    assert ReaderEvents(es[..2]) == [SawShb(false), GotBlock(Block(BLOCK_TYPE_SHB, LITTLE))];
    assert ReaderEvents(es[..3]) == [SawShb(false), GotBlock(Block(BLOCK_TYPE_SHB, LITTLE)), SawShb(true)];
  }

  /** The header is copied to the file and saved, and the capture goes on. */
  lemma {:induction false} FirstHeader(o: Options, s: State, io: Io)
    requires Single(s) && Alive(s) && s.go && io.writeOk
    ensures var r := Step(o, s, Deliver(0, FromPipe(Block(BLOCK_TYPE_SHB, LITTLE)), io));
            r.go && Single(r) && Alive(r) && r.savedShb == LITTLE
  {
    hide Word;
    HeaderWords();
    var e := Deliver(0, FromPipe(Block(BLOCK_TYPE_SHB, LITTLE)), io);
    StepRemembers(o, s, e);
    StillSingle(o, s, e);
    ShbIsNoData();
  }

  /** With the other byte order's flag the replay goes astray. */
  lemma {:induction false} TimerInGap(o: Options, s: State, io: Io)
    requires Single(s) && Alive(s) && s.go && s.savedShb == LITTLE && s.srcs[0].byteSwapped
    requires o.usePcapng && o.multiFiles && o.autostopFiles.NoLimit? && io.switchOk
    ensures Step(o, s, TimersLooked(Timers(false, true, false), io, io)).fault.ReplayFault?
  {
    hide Word, SwitchFile, StartOutput, ReportPackets;
    HeaderWords();
    var r := ReportPackets(o, s);
    ReportAside(o, s);
    SameReplay(o, s, r);
    assert NextReplay(o, s).Astray?;
    StopOrSwitch(o, r, io);
    SwitchFileReplays(o, r, io);
  }

  /** For all options that rotate files without a limit on their number, there is a stream, and there are
      events that come from reading it, with which dumpcap writes a saved header with the wrong length. */
  lemma {:induction false} ARunGoesAstray(o: Options, io: Io)
    requires OptionsFit(o, [true]) && Started(o, [true], io).1 && o.multiFiles && o.autostopFiles.NoLimit?
    requires io.writeOk && io.switchOk
    ensures Reads(o, io, AstrayEvents(io), LITTLE + BIG) && After(o, io, AstrayEvents(io)).fault.ReplayFault?
  {
    hide Started, Step, Parse, Happenings;
    HeaderWords();
    WordOfPrefix(LITTLE, LITTLE + BIG, 0, false);
    TwoHeaders();
    ReaderOfAstrayEvents(io);
    StartFollows(o, io);
    StartAccounted(o, [true], io);
    var es, s0 := AstrayEvents(io), Started(o, [true], io).0;
    assert es[..3][..2] == es[..2] && es[..2][..1] == es[..1] && es[..1][..0] == [];
    var s1 := Step(o, s0, es[0]);
    Sees(o, s0, false);
    FirstHeader(o, s1, io);
    var s2 := Step(o, s1, es[1]);
    Sees(o, s2, true);
    var s3 := Step(o, s2, es[2]);
    TimerInGap(o, s3, io);
    assert Run(o, s0, es[..1]) == s1 && Run(o, s0, es[..2]) == s2 && Run(o, s0, es[..3]) == s3;
  }

  lemma {:induction false} Sees(o: Options, s: State, swapped: bool)
    requires Single(s) && Alive(s)
    ensures var r := Step(o, s, ShbSeen(0, swapped));
            Single(r) && Alive(r) && r.go == s.go && r.savedShb == s.savedShb && r.srcs[0].byteSwapped == swapped
  {
  }
}
