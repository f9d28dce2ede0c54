/** What a capture does when nothing goes wrong: everything its sources deliver is in the files, in order, up to
    the packet at which the limit on packets is reached, and the files read as the sources said. */
module SmoothRuns {
  import opened Bytes
  import opened PcapngFormat
  import opened Engine
  import opened Meaning
  import opened MeaningKept
  import opened Conservation
  import opened Reports
  import opened FileStarts
  import opened Fates
  import opened Stopping

  // ---- What the sources deliver

  /** Everything delivered, in order. */
  function DeliveredBy(es: seq<Event>): seq<Entry> {
    if es == [] then []
    else
      var before, e := DeliveredBy(es[..|es| - 1]), es[|es| - 1];
      if e.Deliver? then before + [Entry(e.src, e.item)] else before
  }

  /** The byte order in the SHB that the reader of the one source has seen last. */
  function LastSeen(es: seq<Event>): bool {
    if es == [] then false
    else if es[|es| - 1].ShbSeen? && es[|es| - 1].src == 0 then es[|es| - 1].swapped
    else LastSeen(es[..|es| - 1])
  }

  /** The section that source i is in. */
  function SectionOf(sources: nat, es: seq<Event>, i: nat): Tab
    requires i < sources
  {
    ReadInputs(sources, DeliveredBy(es)).tabs[i]
  }

  /** Every system call of this step succeeds. */
  predicate CallsWork(io: Io, blocks: nat) {
    io.writeOk && io.switchOk && io.startBlocks > blocks
  }

  /** A block as it should be: framed by its reader, with the same length at both ends, naming only an
      interface that its section has described. */
  ghost predicate Intact(s: State, own: Tab, b: Block) {
    && WellFramed(s, own, b) && LengthsAgree(b.bytes)
    && (IsShb(b.bytes) ==> Word(b.bytes, 4, ShbSwapped(b.bytes)) == |b.bytes|)
    && (Renumbered(s, b) ==> |b.bytes| > 12 && Word(b.bytes, 8, false) < |own.table|)
  }

  /** Where a file may be started in passthrough: the reader has not gone on to a section of another order. */
  ghost predicate NotBetween(s: State, es: seq<Event>) {
    s.passthrough && s.srcs != [] ==>
      var own := SectionOf(|s.srcs|, es, 0);
      own.started ==> LastSeen(es) == own.swapped
  }

  /** Nothing goes wrong and nobody stops the capture: event e after the events before it, for a capture that
      starts in s. */
  ghost predicate Smooth(o: Options, s: State, before: seq<Event>, e: Event) {
    EventFits(s, e) &&
    match e
    case Deliver(i, item, io) =>
      && CallsWork(io, |s.srcs| + |before|)
      && (item.FromPipe? ==> Intact(s, SectionOf(|s.srcs|, before, i), item.block))
      && (IsData(item) ==> NotBetween(s, before))
    case ShbSeen(_, _) => true
    case StopRequest => false
    case TimersLooked(t, io, io') =>
      && !t.autostop
      && (t.fileDuration || t.interval ==>
            o.multiFiles && NotBetween(s, before)
            && CallsWork(io, |s.srcs| + |before|) && CallsWork(io', |s.srcs| + |before|))
  }

  ghost predicate SmoothRun(o: Options, s: State, es: seq<Event>) {
    forall k :: 0 <= k < |es| ==> Smooth(o, s, es[..k], es[k])
  }

  /** A full file can always be followed by another one. */
  predicate FilesNeverEnd(o: Options) {
    if o.multiFiles then o.autostopFiles.NoLimit?
    else o.filePackets.NoLimit? && !(o.autostopFilesize.Limit? && o.autostopFilesize.n > 0)
  }

  // ---- The limit on packets

  function AtMost(limit: Limit, n: nat): nat {
    if limit.Limit? && limit.n > 0 then Min(limit.n, n) else if limit.Limit? then Min(1, n) else n
  }

  /** How many of n packets are captured; even a limit of 0 is met only after a packet. */
  function Captured(o: Options, n: nat): nat {
    AtMost(o.autostopPackets, AtMost(o.autostopWrittenPackets, n))
  }

  /** One more packet is captured as long as no limit has been reached. */
  lemma CapturedNext(o: Options, n: nat)
    ensures Captured(o, n) <= n && Captured(o, n) <= Captured(o, n + 1)
    ensures Captured(o, n) < n || (n > 0 && PacketsReached(o, n)) ==> Captured(o, n + 1) == Captured(o, n)
    ensures Captured(o, n) == n && (n > 0 ==> !PacketsReached(o, n)) ==> Captured(o, n + 1) == n + 1
  {
  }

  /** The capture goes on. */
  predicate GoesOn(o: Options, n: nat) {
    n > 0 ==> !PacketsReached(o, n)
  }

  // ---- The invariant

  /** What holds after smooth events of a capture that starts in s. */
  ghost predicate Kept(o: Options, s: State, r: State, es: seq<Event>) {
    && Inv(o, r) && Counted(o, r) && Ready(o, r)
    && SameSources(s, r) && Followed(o, r, DeliveredBy(es)) && (r.go ==> Prepared(s, r, es))
  }

  ghost predicate SameSources(s: State, r: State) {
    && |r.srcs| == |s.srcs| && r.passthrough == s.passthrough
    && forall i :: 0 <= i < |s.srcs| ==> r.srcs[i].fromPcapng == s.srcs[i].fromPcapng
  }

  /** The log is what has been delivered, up to the packet that met the limit; until then nothing is dropped or
      flushed. */
  ghost predicate Followed(o: Options, r: State, d: seq<Entry>) {
    && r.packetsCaptured == DataEntries(r.log) == Captured(o, DataEntries(d)) && r.log <= d
    && r.go == GoesOn(o, DataEntries(d))
    && (r.go ==> r.log == d && forall i :: 0 <= i < |r.srcs| ==> r.srcs[i].dropped == 0 && r.srcs[i].flushed == 0)
    && (!r.go ==> r.log != [] && IsData(r.log[|r.log| - 1].item))
  }

  /** While capturing: what the next file start will need. */
  ghost predicate Prepared(s: State, r: State, es: seq<Event>) {
    && Alive(r) && |r.savedIdbs| <= |s.srcs| + |es|
    && (r.passthrough && r.srcs != [] ==> r.srcs[0].byteSwapped == LastSeen(es))
    && (r.passthrough && r.savedShb != [] ==>
          |r.savedShb| >= 12 && Word(r.savedShb, 4, ShbSwapped(r.savedShb)) == |r.savedShb|)
  }

  lemma DeliveredSnoc(es: seq<Event>, e: Event)
    ensures DeliveredBy(es + [e]) == if e.Deliver? then DeliveredBy(es) + [Entry(e.src, e.item)] else DeliveredBy(es)
    ensures LastSeen(es + [e]) == if e.ShbSeen? && e.src == 0 then e.swapped else LastSeen(es)
  {
    assert (es + [e])[..|es|] == es;
  }

  /** A switch that is called for is made. */
  lemma {:induction false} CanSwitch(o: Options, s: State, r: State, es: seq<Event>, io: Io)
    requires Kept(o, s, r, es) && r.go && FilesNeverEnd(o) && o.multiFiles
    requires CallsWork(io, |s.srcs| + |es|) && NotBetween(s, es)
    ensures MaySwitch(o, r, io)
  {
    hide Counted, Ready, ReadFile, ReadFiles, ReadInputs, SameMeaning, ReplaySafe, Word, ShbSwapped, DataEntries,
         LastSeen, DeliveredBy, MuxLinked;
  }

  /** After the stop only the deliveries go on. */
  lemma {:induction false} StoppedFollows(o: Options, r: State, d: seq<Entry>, e: Event)
    requires Followed(o, r, d) && !r.go && r.files != []
    ensures Followed(o, Step(o, r, e), if e.Deliver? then d + [Entry(e.src, e.item)] else d)
  {
    hide Step, IsData, DataEntries;
    StoppedStep(o, r, e);
    if e.Deliver? {
      DataSnoc(d, Entry(e.src, e.item));
      CapturedNext(o, DataEntries(d));
    }
  }

  /** An item takes effect, and is the last one if it meets the limit. */
  lemma {:induction false} EffectFollows(o: Options, r: State, d: seq<Entry>, i: nat, item: Item, r': State)
    requires Followed(o, r, d) && r.go && i < |r.srcs| && TookEffect(o, r, r', i, item)
    requires r'.packetsCaptured == r.packetsCaptured + if IsData(item) then 1 else 0
    requires r'.go == (IsData(item) ==> !PacketsReached(o, r.packetsCaptured + 1))
    ensures Followed(o, r', d + [Entry(i, item)])
  {
    hide IsData, DataEntries;
    DataSnoc(d, Entry(i, item));
    CapturedNext(o, DataEntries(d));
    forall h | 0 <= h < |r'.srcs|
      ensures r'.go ==> r'.srcs[h].dropped == 0 && r'.srcs[h].flushed == 0
    {
      if h != i {
        assert SameCounts(r.srcs[h], r'.srcs[h]);
      }
    }
  }

  /** What a delivery saves. */
  lemma {:induction false} DeliverySaves(o: Options, s: State, i: nat, item: Item, io: Io)
    requires Healthy(s) && Alive(s) && s.go && EventFits(s, Deliver(i, item, io))
    ensures var r := Step(o, s, Deliver(i, item, io));
            && |r.savedIdbs| <= |s.savedIdbs| + 1 && |r.srcs| == |s.srcs| && r.passthrough == s.passthrough
            && (forall h :: 0 <= h < |s.srcs| ==>
                  r.srcs[h].byteSwapped == s.srcs[h].byteSwapped && r.srcs[h].fromPcapng == s.srcs[h].fromPcapng)
            && r.savedShb == if s.passthrough && item.FromPipe? && item.block.btype == BLOCK_TYPE_SHB
                             then item.block.bytes else s.savedShb
  {
    hide WroteOnePacket, AdjustBlock, CanCopy, IsDataBlock;
    if item.FromPipe? {
      var b := item.block;
      AdjustSaves(s, i, b);
      AdjustOutcome(s, i, b);
      var a := AdjustBlock(s, i, b);
      WroteSaves(o, Logged(Put(o, a.state, Copied(a.bytes)), i, item), i, io);
    } else {
      WroteSaves(o, Logged(Put(o, s, PacketBlock(o, s.srcs[i], item.packet)), i, item), i, io);
    }
  }

  lemma AdjustSaves(s: State, i: nat, b: Block)
    requires i < |s.srcs| && |b.bytes| >= 12
    ensures var r := AdjustBlock(s, i, b).state;
            && (forall h :: 0 <= h < |s.srcs| ==>
                  r.srcs[h].byteSwapped == s.srcs[h].byteSwapped && r.srcs[h].fromPcapng == s.srcs[h].fromPcapng)
            && r.savedShb == if s.passthrough && b.btype == BLOCK_TYPE_SHB then b.bytes else s.savedShb
  {
    hide Word, WithInterfaceId, DeleteSlots;
  }

  lemma {:induction false} WroteSaves(o: Options, s: State, i: nat, io: Io)
    requires s.files != [] && i < |s.srcs|
    ensures var r := WroteOnePacket(o, s, i, io);
            && r.savedIdbs == s.savedIdbs && r.savedShb == s.savedShb && r.passthrough == s.passthrough
            && |r.srcs| == |s.srcs|
            && (forall h :: 0 <= h < |s.srcs| ==>
                  r.srcs[h].byteSwapped == s.srcs[h].byteSwapped && r.srcs[h].fromPcapng == s.srcs[h].fromPcapng)
  {
    hide SwitchOrStop;
    SwitchAside(o, WithPacket(o, s, i), io);
  }

  // ---- Steps

  lemma {:induction false} SmoothIsLegal(o: Options, s: State, r: State, es: seq<Event>, e: Event)
    requires Kept(o, s, r, es) && Smooth(o, s, es, e) && |s.srcs| + |es| < 0xFFFF_FFFF
    ensures EventFits(r, e) && Legal(r, e)
  {
    hide Inv, Counted, Ready, ReadInputs, IsShb, TypeOf, LengthsAgree, DataEntries, DeliveredBy, LastSeen, NotBetween;
  }

  /** A smooth delivery takes effect. */
  lemma {:induction false} SmoothEffect(o: Options, s: State, r: State, es: seq<Event>, i: nat, item: Item, io: Io)
    requires Kept(o, s, r, es) && r.go && Smooth(o, s, es, Deliver(i, item, io)) && EventFits(r, Deliver(i, item, io))
    ensures TookEffect(o, r, Step(o, r, Deliver(i, item, io)), i, item)
  {
    hide Counted, Step, ReadFiles, ReadFile, ReadInputs, IsShb, TypeOf, Word, ReplaySafe, SameMeaning, DataEntries,
         DeliveredBy, LastSeen, NotBetween, TookEffect, LengthsAgree, TotalSize;
    if item.FromPcap? {
      PacketFate(o, r, i, item.packet, io);
    } else {
      assert !r.passthrough ==> PipeLinked(r, i, Current(r), ReadInputs(|r.srcs|, r.log).tabs[i]);
      BlockFate(o, r, i, item.block, io);
    }
  }

  lemma {:induction false} SmoothDelivery(o: Options, s: State, r: State, es: seq<Event>, i: nat, item: Item, io: Io)
    requires Kept(o, s, r, es) && r.go && Smooth(o, s, es, Deliver(i, item, io)) && FilesNeverEnd(o)
    requires |s.srcs| + |es| < 0xFFFF_FFFF
    ensures var e := Deliver(i, item, io);
            Followed(o, Step(o, r, e), DeliveredBy(es + [e])) && SameSources(s, Step(o, r, e))
            && (Step(o, r, e).go ==> Prepared(s, Step(o, r, e), es + [e]))
  {
    hide Inv, Counted, Ready, Step, Smooth, IsData, DataEntries, DeliveredBy, LastSeen, TookEffect, Settled, FileFull,
         IsStart, MaySwitch, PacketsReached;
    var e := Deliver(i, item, io);
    var r' := Step(o, r, e);
    SmoothIsLegal(o, s, r, es, e);
    Healths(o, r);
    SmoothEffect(o, s, r, es, i, item, io);
    DeliveryOutcome(o, r, i, item, io);
    Effects(o, r, r', i, item);
    ItemDecides(o, r, i, item, io);
    DeliverySaves(o, r, i, item, io);
    DeliveredSnoc(es, e);
    if IsData(item) && FileFull(o, r'.files[|r.files| - 1]) {
      FullCanSwitch(o, s, r, es, i, item, io, r'.files[|r.files| - 1]);
    }
    EffectFollows(o, r, DeliveredBy(es), i, item, r');
    if r'.passthrough && item.FromPipe? && item.block.btype == BLOCK_TYPE_SHB {
      SavedShbFramed(o, s, es, i, item, io);
    }
  }

  lemma Effects(o: Options, r: State, r': State, i: nat, item: Item)
    requires i < |r.srcs| && r.go && Alive(r) && TookEffect(o, r, r', i, item) && Settled(o, r, r', i, item)
    ensures r'.log != r.log && r'.packetsCaptured == r.packetsCaptured + if IsData(item) then 1 else 0
    ensures r'.go ==> Alive(r')
  {
    hide IsData;
  }

  lemma {:induction false} FullCanSwitch(o: Options, s: State, r: State, es: seq<Event>, i: nat, item: Item, io: Io,
                                         f: seq<OutBlock>)
    requires Kept(o, s, r, es) && r.go && Smooth(o, s, es, Deliver(i, item, io)) && FilesNeverEnd(o)
    requires IsData(item) && FileFull(o, f)
    ensures MaySwitch(o, r, io)
  {
    hide Kept, PacketsIn, TotalSize, MaySwitch, NotBetween;
    CanSwitch(o, s, r, es, io);
  }

  lemma SavedShbFramed(o: Options, s: State, es: seq<Event>, i: nat, item: Item, io: Io)
    requires Smooth(o, s, es, Deliver(i, item, io)) && item.FromPipe? && item.block.btype == BLOCK_TYPE_SHB
    ensures |item.block.bytes| >= 12
    ensures Word(item.block.bytes, 4, ShbSwapped(item.block.bytes)) == |item.block.bytes|
  {
    hide ReadInputs, TypeOf;
  }

  /** A smooth look at the timers leaves the capture running. */
  lemma {:induction false} SmoothLook(o: Options, s: State, r: State, es: seq<Event>, t: Timers, io: Io, io': Io)
    requires Kept(o, s, r, es) && r.go && Smooth(o, s, es, TimersLooked(t, io, io')) && FilesNeverEnd(o)
    ensures Tick(o, r, t, io, io').go
  {
    hide Kept, Inv, Ready, Tick, MaySwitch, IsStart, ReportPackets, NotBetween;
    KeptParts(o, s, r, es);
    TickActs(o, r, t, io, io');
    ReportAside(o, r);
    if t.fileDuration || t.interval {
      CanSwitch(o, s, r, es, io);
      CanSwitch(o, s, r, es, io');
      if t.fileDuration && t.interval {
        var u: State :| RotatedTwice(o, r, u, Tick(o, r, t, io, io'), io, io');
        SwitchAgain(o, r, u, io');
      }
    }
  }

  lemma KeptParts(o: Options, s: State, r: State, es: seq<Event>)
    requires Kept(o, s, r, es)
    ensures Inv(o, r) && Counted(o, r) && Ready(o, r)
  {
    hide Inv, Counted, Ready, SameSources, Followed, Prepared;
  }

  lemma SwitchAgain(o: Options, r: State, u: State, io: Io)
    requires MaySwitch(o, r, io) && o.autostopFiles.NoLimit? && u.srcs == r.srcs
    requires u.passthrough == r.passthrough && u.savedShb == r.savedShb && u.savedIdbs == r.savedIdbs
    ensures MaySwitch(o, u, io)
  {
  }

  lemma {:induction false} SmoothOther(o: Options, s: State, r: State, es: seq<Event>, e: Event)
    requires Kept(o, s, r, es) && r.go && Smooth(o, s, es, e) && FilesNeverEnd(o) && e.TimersLooked?
    ensures Followed(o, Step(o, r, e), DeliveredBy(es + [e])) && SameSources(s, Step(o, r, e))
    ensures Step(o, r, e).go ==> Prepared(s, Step(o, r, e), es + [e])
  {
    hide Inv, Counted, Ready, Tick, Smooth, IsData, DataEntries, DeliveredBy, LastSeen, SwitchOrStop;
    Healths(o, r);
    SmoothLook(o, s, r, es, e.timers, e.io, e.io');
    OtherOutcome(o, r, e);
    DeliveredSnoc(es, e);
    TickSaves(o, r, e.timers, e.io, e.io');
  }

  lemma {:induction false} TickSaves(o: Options, s: State, t: Timers, io: Io, io': Io)
    requires s.files != []
    ensures var r := Tick(o, s, t, io, io'); r.savedShb == s.savedShb && (r.open ==> s.open && r.fault == s.fault)
  {
    hide SwitchOrStop, ReportPackets;
    var r := ReportPackets(o, s);
    ReportAside(o, s);
    SwitchAside(o, r, io);
    SwitchAside(o, r, io');
    SwitchAside(o, SwitchOrStop(o, r, io).0, io');
  }

  lemma {:induction false} SmoothSeen(o: Options, s: State, r: State, es: seq<Event>, e: Event)
    requires Kept(o, s, r, es) && r.go && Smooth(o, s, es, e) && e.ShbSeen?
    ensures Followed(o, Step(o, r, e), DeliveredBy(es + [e])) && SameSources(s, Step(o, r, e))
    ensures Step(o, r, e).go ==> Prepared(s, Step(o, r, e), es + [e])
  {
    hide Inv, Counted, IsData, DataEntries, DeliveredBy, LastSeen, TotalSize, SavedAgree, Word, ShbSwapped;
    DeliveredSnoc(es, e);
    KeptParts(o, s, r, es);
    OneSource(o, r);
  }

  lemma OneSource(o: Options, r: State)
    requires Inv(o, r)
    ensures r.files != [] && (r.passthrough ==> |r.srcs| == 1)
  {
    hide Linked, ReplaySafe, SameMeaning;
  }

  lemma {:induction false} StoppedSources(o: Options, r: State, e: Event)
    requires Healthy(r)
    ensures SameSources(r, Step(o, r, e))
  {
    hide Step, Settled;
    if !Alive(r) {
      Dead(o, r, e);
    } else if e.ShbSeen? {
      SeenOutcome(o, r, e);
    } else if !e.Deliver? {
      OtherOutcome(o, r, e);
    } else if EventFits(r, e) {
      DeliveryOutcome(o, r, e.src, e.item, e.io);
      SettledSources(o, r, Step(o, r, e), e.src, e.item);
    } else {
      Unfit(o, r, e);
    }
  }

  lemma SettledSources(o: Options, s: State, r: State, i: nat, item: Item)
    requires i < |s.srcs| && Settled(o, s, r, i, item)
    ensures SameSources(s, r)
  {
    hide IsData;
  }

  lemma {:induction false} StepKept(o: Options, s: State, r: State, es: seq<Event>, e: Event)
    requires Kept(o, s, r, es) && Smooth(o, s, es, e) && FilesNeverEnd(o) && |s.srcs| + |es| < 0xFFFF_FFFF
    ensures Kept(o, s, Step(o, r, e), es + [e])
  {
    hide Inv, Counted, Ready, Step, Smooth, Followed, Prepared, DeliveredBy, Legal;
    SmoothIsLegal(o, s, r, es, e);
    Healths(o, r);
    StepKeeps(o, r, e);
    StepCounts(o, r, e);
    StepReady(o, r, e);
    if !r.go {
      OneSource(o, r);
      DeliveredSnoc(es, e);
      StoppedFollows(o, r, DeliveredBy(es), e);
      StoppedStep(o, r, e);
      StoppedSources(o, r, e);
    } else if e.Deliver? {
      SmoothDelivery(o, s, r, es, e.src, e.item, e.io);
    } else if e.ShbSeen? {
      SmoothSeen(o, s, r, es, e);
    } else {
      NoStopRequest(o, s, es, e);
      SmoothOther(o, s, r, es, e);
    }
  }

  lemma NoStopRequest(o: Options, s: State, es: seq<Event>, e: Event)
    requires Smooth(o, s, es, e)
    ensures !e.StopRequest?
  {
  }

  // ---- Runs

  lemma {:induction false} RunKept(o: Options, s: State, es: seq<Event>)
    requires Kept(o, s, s, []) && SmoothRun(o, s, es) && FilesNeverEnd(o) && |s.srcs| + |es| < 0xFFFF_FFFF
    ensures Kept(o, s, Run(o, s, es), es)
  {
    hide Kept, Smooth, Step;
    if es != [] {
      var before, e := es[..|es| - 1], es[|es| - 1];
      forall k | 0 <= k < |before|
        ensures Smooth(o, s, before[..k], before[k])
      {
        assert before[..k] == es[..k];
      }
      RunKept(o, s, before);
      StepKept(o, s, Run(o, s, before), before, e);
      assert before + [e] == es;
    }
  }

  lemma {:induction false} StartKept(o: Options, pcapng: seq<bool>, io: Io)
    requires OptionsFit(o, pcapng) && Started(o, pcapng, io).1
    ensures var s := Started(o, pcapng, io).0; Kept(o, s, s, [])
  {
    hide Started, Inv, Counted, Ready;
    StartKeeps(o, pcapng, io);
    StartCounts(o, pcapng, io);
    StartReady(o, pcapng, io);
    StartAccounted(o, pcapng, io);
    OpenedLength(pcapng);
  }

  lemma {:induction false} OpenedLength(pcapng: seq<bool>)
    ensures |OpenedIdbs(pcapng)| <= |pcapng|
  {
    if pcapng != [] {
      OpenedLength(pcapng[..|pcapng| - 1]);
    }
  }

  /** When every system call works, the sources deliver intact blocks, nobody stops the capture and there is
      always another file: everything delivered is in the log, in order, up to the packet with which the limit
      on packets is met; the capture goes on exactly until then, and nothing is dropped or flushed before; and the
      output files read exactly as the sources said, each block with the interface its own source gave it. */
  lemma {:induction false} NothingGoesWrong(o: Options, pcapng: seq<bool>, io: Io, es: seq<Event>)
    requires OptionsFit(o, pcapng) && |FirstStart(o, pcapng)| <= io.startBlocks && FilesNeverEnd(o)
    requires SmoothRun(o, Started(o, pcapng, io).0, es) && |pcapng| + |es| < 0xFFFF_FFFF
    ensures var s, d := Run(o, Started(o, pcapng, io).0, es), DeliveredBy(es);
            && s.log <= d && s.packetsCaptured == DataEntries(s.log) == Captured(o, DataEntries(d))
            && (s.go <==> DataEntries(d) > 0 ==> !PacketsReached(o, DataEntries(d)))
            && (s.go ==> s.log == d && forall i :: 0 <= i < |s.srcs| ==> s.srcs[i].dropped == 0 && s.srcs[i].flushed == 0)
            && (!s.go ==> s.log != [] && IsData(s.log[|s.log| - 1].item))
            && |s.srcs| == |pcapng| && ReadFiles(s.files) == ReadInputs(|pcapng|, s.log).seen
            && Sum(PerFile(s.files)) == s.packetsCaptured
  {
    hide Started, Run, SmoothRun, DataEntries, DeliveredBy, IsData, PacketsReached, Captured, Prepared, Ready, ReadFiles,
         ReadInputs, Linked, ReplaySafe, Room, FirstStart;
    CaptureStartsIff(o, pcapng, io);
    StartKept(o, pcapng, io);
    StartAccounted(o, pcapng, io);
    RunKept(o, Started(o, pcapng, io).0, es);
  }

  /** So with a limit of N packets, and no other, a capture to which N packets or more are delivered stops with
      exactly N packets, and one to which fewer are delivered goes on with all of them. */
  lemma {:induction false} StopsAtExactly(o: Options, pcapng: seq<bool>, io: Io, es: seq<Event>)
    requires OptionsFit(o, pcapng) && |FirstStart(o, pcapng)| <= io.startBlocks && FilesNeverEnd(o)
    requires SmoothRun(o, Started(o, pcapng, io).0, es) && |pcapng| + |es| < 0xFFFF_FFFF
    requires o.autostopPackets.Limit? && o.autostopPackets.n > 0 && o.autostopWrittenPackets.NoLimit?
    ensures var s, delivered := Run(o, Started(o, pcapng, io).0, es), DataEntries(DeliveredBy(es));
            && (s.go <==> delivered < o.autostopPackets.n)
            && s.packetsCaptured == (if delivered < o.autostopPackets.n then delivered else o.autostopPackets.n)
            && Sum(PerFile(s.files)) == s.packetsCaptured
  {
    hide Started, Run, SmoothRun, DataEntries, DeliveredBy, IsData, ReadFiles, ReadInputs, FirstStart, PerFile, Sum;
    NothingGoesWrong(o, pcapng, io, es);
  }
}
