/** The capture engine of dumpcap as transitions on values: what each callback of the capture loop does
    to the loop data, to the sources, to the output files and to the messages sent to the parent.

    What the outside world decides is a parameter: whether a write or a file switch succeeds, how much of
    a failed write reached the file, and when timers expire.  CaptureLoop has the code these specify. */
module Engine {
  import opened Bytes
  import opened PcapngFormat
  import PcapFormat

  type Packet = PcapFormat.Packet

  datatype Limit = NoLimit | Limit(n: nat)

  predicate Reached(limit: Limit, n: nat) {
    limit.Limit? && n >= limit.n
  }

  /** The capture options the engine looks at, and the sizes of the blocks dumpcap makes up itself. */
  datatype Options = Options(
    useThreads: bool, usePcapng: bool, multiFiles: bool, captureChild: bool, quiet: bool,
    autostopPackets: Limit, autostopWrittenPackets: Limit, filePackets: Limit, autostopFilesize: Limit,
    autostopFiles: Limit, shbSize: nat, dummyIdbSize: nat, idbSize: nat)

  /** One entry of saved_idbs; an empty idb stands for NULL, an interface of the command line. */
  datatype SavedIdb = SavedIdb(deleted: bool, interfaceId: nat, idb: seq<byte>)

  /** What memset leaves of an entry that went out of scope. */
  const DELETED := SavedIdb(true, 0, [])

  /** A source; byteSwapped is what its pipe reader last learnt from an SHB, which the writer looks at too. */
  datatype Src = Src(fromPcapng: bool, idbId: nat, ifaceToGlobal: seq<nat>, byteSwapped: bool,
                     received: nat, dropped: nat, flushed: nat)

  /** A block of an output file: made by dumpcap, or copied from a source. */
  datatype OutBlock =
    | OwnShb
    | DummyIdb
    | OwnIdb(interfaceId: nat)
    | OwnEpb(idbId: nat, packet: Packet)
    | Copied(bytes: seq<byte>)
    | PcapHeader
    | PcapRecord(packet: Packet)

  /** A message on the sync pipe: a new file, by its number, or a count of packets. */
  datatype Message = SpFile(file: nat) | SpPacketCount(count: nat)

  /** Something a source delivered. */
  datatype Item = FromPipe(block: Block) | FromPcap(packet: Packet)

  datatype Entry = Entry(src: nat, item: Item)

  /** What takes the process out of what its code defines: a replay of a saved SHB with the wrong length, or
      another switch after one that failed and left a closed file behind. */
  datatype Fault = NoFault | ReplayFault | HandleFault

  datatype State = State(
    go: bool, open: bool, aborted: bool, fault: Fault, passthrough: bool,
    savedShb: seq<byte>, savedIdbs: seq<SavedIdb>, srcs: seq<Src>,
    packetsCaptured: nat, packetsWritten: nat, bytesWritten: nat, fileCount: nat,
    inpktsToSyncPipe: nat, pendingFile: Limit,
    files: seq<seq<OutBlock>>,      // every file opened so far; the last one is being written
    messages: seq<Message>,
    log: seq<Entry>)                // the items that took effect, in the order the writer saw them

  /** The process is still there, and does what its code says. */
  predicate Alive(s: State) {
    !s.aborted && s.fault.NoFault?
  }

  /** The outcome of the system calls one step makes. */
  datatype Io = Io(writeOk: bool, tornBytes: nat, switchOk: bool, startBlocks: nat)

  // ---- Output

  function PaddedTo4(n: nat): nat {
    (n + 3) / 4 * 4
  }

  function Size(o: Options, b: OutBlock): nat {
    match b
    case OwnShb => o.shbSize
    case DummyIdb => o.dummyIdbSize
    case OwnIdb(_) => o.idbSize
    case OwnEpb(_, p) => 28 + PaddedTo4(p.caplen) + 4
    case Copied(bytes) => |bytes|
    case PcapHeader => 24
    case PcapRecord(p) => 16 + p.caplen
  }

  function TotalSize(o: Options, f: seq<OutBlock>): nat {
    if f == [] then 0 else TotalSize(o, f[..|f| - 1]) + Size(o, f[|f| - 1])
  }

  /** pcapng_write_block refuses a block whose two length fields differ. */
  predicate CanCopy(bytes: seq<byte>) {
    |bytes| >= 8 && |bytes| % 4 == 0 && Word(bytes, 4, false) == Word(bytes, |bytes| - 4, false)
  }

  predicate CanWrite(b: OutBlock) {
    b.Copied? ==> CanCopy(b.bytes)
  }

  function Min(a: nat, b: nat): nat {
    if a < b then a else b
  }

  /** A block goes to the end of the current file. */
  function Put(o: Options, s: State, b: OutBlock): State
    requires s.files != []
  {
    var last := |s.files| - 1;
    s.(files := s.files[last := s.files[last] + [b]], bytesWritten := s.bytesWritten + Size(o, b))
  }

  // ---- File starts

  /** What capture_file_start_output_pcapng writes for one entry. */
  function IdbBlock(e: SavedIdb): OutBlock {
    if e.deleted then DummyIdb
    else if e.idb != [] then Copied(e.idb)
    else OwnIdb(e.interfaceId)
  }

  function IdbBlocks(interfaces: nat, idbs: seq<SavedIdb>): seq<OutBlock> {
    if idbs == [] then []
    else
      var before, e := IdbBlocks(interfaces, idbs[..|idbs| - 1]), idbs[|idbs| - 1];
      if !e.deleted && e.idb == [] && e.interfaceId >= interfaces then before else before + [IdbBlock(e)]
  }

  /** The length the replayed SHB is written with: the reader's current byte order decides how the
      saved block's length field is read. */
  function ReplayLength(shb: seq<byte>, byteSwapped: bool): u32
    requires |shb| >= 8
  {
    Word(shb, 4, byteSwapped)
  }

  /** The first blocks of a file. */
  function StartBlocks(o: Options, s: State): seq<OutBlock> {
    if !o.usePcapng then [PcapHeader]
    else if s.passthrough && s.savedShb == [] then []
    else [if s.savedShb != [] then Copied(s.savedShb) else OwnShb] + IdbBlocks(|s.srcs|, s.savedIdbs)
  }

  /** How many of the blocks are written before the first failure. */
  function WrittenBlocks(blocks: seq<OutBlock>, io: Io): (n: nat)
    ensures n <= |blocks|
  {
    if blocks == [] then 0
    else
      var n := WrittenBlocks(blocks[..|blocks| - 1], io);
      if n == |blocks| - 1 && n < io.startBlocks && CanWrite(blocks[n]) then |blocks| else n
  }

  /** What becomes of the saved SHB, written with the length n that was read from it: pcapng_write_block
      writes all of it or refuses; or it writes another number of bytes, from the block or from beyond. */
  datatype Replay = Whole | Rejected | Astray

  function ReplayOf(shb: seq<byte>, byteSwapped: bool): Replay
    requires |shb| >= 8
  {
    var n := ReplayLength(shb, byteSwapped);
    if n == |shb| then Whole
    else if n % 4 != 0 then Rejected
    else if 4 <= n <= |shb| && Word(shb, 4, false) != Word(shb, n - 4, false) then Rejected
    else Astray
  }

  /** The replay with which the next file would start. */
  function NextReplay(o: Options, s: State): Replay {
    if o.usePcapng && s.passthrough && |s.savedShb| >= 8 && s.srcs != []
    then ReplayOf(s.savedShb, s.srcs[0].byteSwapped) else Whole
  }

  /** capture_file_start_output, for the empty file at the end of s.files.  What a replay gone astray writes
      is not in the model, which ends there. */
  function StartOutput(o: Options, s: State, io: Io): (r: (State, bool))
    requires s.files != []
    ensures |r.0.files| == |s.files|
  {
    var blocks, replay := StartBlocks(o, s), NextReplay(o, s);
    var n := if replay.Whole? then WrittenBlocks(blocks, io) else 0;
    var started := s.(files := s.files[|s.files| - 1 := blocks[..n]], bytesWritten := TotalSize(o, blocks[..n]));
    if n == |blocks| && replay.Whole? then (started, true)
    else (started.(bytesWritten := started.bytesWritten + io.tornBytes,
                   fault := if replay.Astray? then ReplayFault else s.fault), false)
  }

  // ---- Messages to the parent

  /** Report the packets written since the last report. */
  function ReportPackets(o: Options, s: State): (r: State)
    ensures r.files == s.files
  {
    if s.inpktsToSyncPipe == 0 then s
    else s.(inpktsToSyncPipe := 0,
            messages := if o.captureChild && !o.quiet
                        then s.messages + [SpPacketCount(s.inpktsToSyncPipe)] else s.messages)
  }

  /** report_new_capture_file: passthrough waits for the source's SHB. */
  function ReportNewFile(o: Options, s: State): (r: State)
    requires s.files != []
    ensures r.files == s.files
  {
    if !o.captureChild then s
    else if s.passthrough then s.(pendingFile := Limit(|s.files| - 1))
    else s.(messages := s.messages + [SpFile(|s.files| - 1)])
  }

  // ---- Switching and stopping

  function Stop(s: State): State {
    s.(go := false)
  }

  /** A new, empty file. */
  function NextFile(s: State): State {
    s.(files := s.files + [[]], bytesWritten := 0, packetsWritten := 0)
  }

  /** The part of a switch that follows the opening of the next file. */
  function SwitchFile(o: Options, s: State, io: Io): (r: (State, bool))
    requires s.files != []
    ensures r.0.files != []
  {
    var (started, ok) := StartOutput(o, s, io);
    if !ok then (Stop(started).(open := false), false)
    else (ReportNewFile(o, ReportPackets(o, started)), true)
  }

  /** The file count is kept only when there is a limit on it. */
  function CountFile(o: Options, s: State): State {
    if o.autostopFiles.Limit? then s.(fileCount := s.fileCount + 1) else s
  }

  /** The conditions under which the capture stops instead of switching. */
  predicate MustStop(o: Options, s: State, io: Io) {
    !o.multiFiles || Reached(o.autostopFiles, CountFile(o, s).fileCount) || !io.switchOk || !s.open
  }

  /** No other file: because there is only one, no file is left, or the next one could not be opened, after
      which there is no open file.  Switching once more would close it again. */
  function StopInstead(o: Options, s: State): State {
    var n := if o.multiFiles then CountFile(o, s).fileCount else s.fileCount;
    var stays := !o.multiFiles || Reached(o.autostopFiles, n);
    s.(go := false, fileCount := n, open := s.open && stays,
       fault := if s.open || stays then s.fault else HandleFault)
  }

  /** do_file_switch_or_stop, and its result. */
  function SwitchOrStop(o: Options, s: State, io: Io): (r: (State, bool))
    requires s.files != []
    ensures r.0.files != []
  {
    if MustStop(o, s, io) then (StopInstead(o, s), false)
    else SwitchFile(o, NextFile(CountFile(o, s)), io)
  }

  predicate FilesizeReached(o: Options, bytes: nat) {
    o.autostopFilesize.Limit? && o.autostopFilesize.n > 0 && bytes / 1000 >= o.autostopFilesize.n
  }

  /** One more packet on the counters, before the limits are looked at. */
  function WithPacket(o: Options, s: State, i: nat): State
    requires i < |s.srcs|
  {
    (if o.useThreads then s else ReceiveAt(s, i)).(
      packetsCaptured := s.packetsCaptured + 1, packetsWritten := s.packetsWritten + 1,
      inpktsToSyncPipe := s.inpktsToSyncPipe + 1)
  }

  /** The limits are looked at in this order, and the first one reached decides. */
  function CheckLimits(o: Options, s: State, io: Io): State
    requires s.files != []
  {
    if Reached(o.autostopPackets, s.packetsCaptured) then Stop(s)
    else if Reached(o.autostopWrittenPackets, s.packetsCaptured) then Stop(s)
    else if Reached(o.filePackets, s.packetsWritten) then SwitchOrStop(o, s, io).0
    else if FilesizeReached(o, s.bytesWritten) then SwitchOrStop(o, s, io).0
    else s
  }

  /** capture_loop_wrote_one_packet. */
  function WroteOnePacket(o: Options, s: State, i: nat, io: Io): State
    requires s.files != [] && i < |s.srcs|
  {
    CheckLimits(o, WithPacket(o, s, i), io)
  }

  // ---- pcapng sources

  /** Every entry a source mapped goes out of scope, one after another. */
  function DeleteSlots(idbs: seq<SavedIdb>, slots: seq<nat>): (r: seq<SavedIdb>)
    ensures |r| == |idbs|
    ensures forall k :: 0 <= k < |r| ==> r[k] == if k in slots then DELETED else idbs[k]
  {
    if slots == [] then idbs
    else
      var before, k := DeleteSlots(idbs, slots[..|slots| - 1]), slots[|slots| - 1];
      if k < |idbs| then before[k := DELETED] else before
  }

  /** The block with another interface ID. */
  function WithInterfaceId(bytes: seq<byte>, id: u32): (r: seq<byte>)
    requires |bytes| >= 12
    ensures |r| == |bytes|
  {
    bytes[..8] + Encode(id, false) + bytes[12..]
  }

  /** An array index as a uint32_t. */
  function ToU32(n: nat): u32 {
    n % 0x1_0000_0000
  }

  predicate RefersToInterface(btype: u32) {
    btype == BLOCK_TYPE_EPB || btype == BLOCK_TYPE_ISB
  }

  datatype Adjusted = Adjusted(state: State, bytes: seq<byte>, ok: bool)

  /** pcapng_adjust_block. */
  function AdjustBlock(s: State, i: nat, b: Block): (r: Adjusted)
    requires i < |s.srcs| && |b.bytes| >= 12
    ensures r.state.files == s.files && |r.state.srcs| == |s.srcs|
  {
    var src := s.srcs[i];
    if b.btype == BLOCK_TYPE_SHB then
      var cleared := s.(srcs := s.srcs[i := src.(ifaceToGlobal := [])]);
      Adjusted(if s.passthrough then cleared.(savedShb := b.bytes, savedIdbs := [])
               else cleared.(savedIdbs := DeleteSlots(s.savedIdbs, src.ifaceToGlobal)), b.bytes, true)
    else if b.btype == BLOCK_TYPE_IDB then
      Adjusted(s.(savedIdbs := s.savedIdbs + [SavedIdb(false, i, b.bytes)],
                  srcs := s.srcs[i := src.(ifaceToGlobal := src.ifaceToGlobal + [|s.savedIdbs|])]), b.bytes, true)
    else if RefersToInterface(b.btype) && !s.passthrough then
      var id := Word(b.bytes, 8, false);
      if id < |src.ifaceToGlobal|
      then Adjusted(s, WithInterfaceId(b.bytes, ToU32(src.ifaceToGlobal[id])), true)
      else Adjusted(s, b.bytes, false)
    else Adjusted(s, b.bytes, true)
  }

  function FlushAt(s: State, i: nat): State
    requires i < |s.srcs|
  {
    s.(srcs := s.srcs[i := s.srcs[i].(flushed := s.srcs[i].flushed + 1)])
  }

  function DropAt(s: State, i: nat): State
    requires i < |s.srcs|
  {
    s.(srcs := s.srcs[i := s.srcs[i].(dropped := s.srcs[i].dropped + 1)])
  }

  function ReceiveAt(s: State, i: nat): State
    requires i < |s.srcs|
  {
    s.(srcs := s.srcs[i := s.srcs[i].(received := s.srcs[i].received + 1)])
  }

  /** A failed write stops the capture. */
  function WriteFailed(o: Options, s: State, i: nat, b: OutBlock, io: Io): State
    requires i < |s.srcs|
  {
    DropAt(s, i).(go := false, bytesWritten := s.bytesWritten + Min(io.tornBytes, Size(o, b)))
  }

  function Logged(s: State, i: nat, item: Item): State {
    s.(log := s.log + [Entry(i, item)])
  }

  /** After an SHB was copied, the parent may open the file. */
  function ShbWritten(s: State): State {
    if s.pendingFile.Limit?
    then s.(messages := s.messages + [SpFile(s.pendingFile.n)], pendingFile := NoLimit) else s
  }

  /** capture_loop_write_pcapng_cb. */
  function WritePcapng(o: Options, s: State, i: nat, b: Block, io: Io): State
    requires s.files != [] && i < |s.srcs| && |b.bytes| >= 12
  {
    if !s.go then FlushAt(s, i)
    else
      var a := AdjustBlock(s, i, b);
      if !a.ok then a.state.(aborted := true)
      else if b.btype == BLOCK_TYPE_SHB && !s.passthrough then Logged(a.state, i, FromPipe(b))
      else if !s.open then a.state
      else
        var out := Copied(a.bytes);
        if !CanWrite(out) || !io.writeOk then WriteFailed(o, a.state, i, out, io)
        else
          var w := Logged(Put(o, a.state, out), i, FromPipe(b));
          if IsDataBlock(b.btype) then WroteOnePacket(o, w, i, io)
          else if b.btype == BLOCK_TYPE_SHB then ShbWritten(w)
          else w
  }

  // ---- pcap sources

  function PacketBlock(o: Options, src: Src, p: Packet): OutBlock {
    if o.usePcapng then OwnEpb(src.idbId, p) else PcapRecord(p)
  }

  /** capture_loop_write_packet_cb. */
  function WritePacket(o: Options, s: State, i: nat, p: Packet, io: Io): State
    requires s.files != [] && i < |s.srcs|
  {
    if !s.go then FlushAt(s, i)
    else if !s.open then s
    else
      var out := PacketBlock(o, s.srcs[i], p);
      if !io.writeOk then WriteFailed(o, s, i, out, io)
      else WroteOnePacket(o, Logged(Put(o, s, out), i, FromPcap(p)), i, io)
  }

  // ---- The timed part of the capture loop

  /** Which timers have expired when the loop looks at them. */
  datatype Timers = Timers(autostop: bool, fileDuration: bool, interval: bool)

  function Tick(o: Options, s: State, t: Timers, io: Io, io': Io): State
    requires s.files != []
  {
    var s := ReportPackets(o, s);
    if t.autostop then Stop(s)
    else
      var (s, more) := if t.fileDuration then SwitchOrStop(o, s, io) else (s, true);
      if more && t.interval then SwitchOrStop(o, s, io').0 else s
  }

  // ---- Runs

  datatype Event =
    | Deliver(src: nat, item: Item, io: Io)
    | ShbSeen(src: nat, swapped: bool)
    | StopRequest
    | TimersLooked(timers: Timers, io: Io, io': Io)

  /** pcapng_read_shb has read the fixed part of an SHB, ahead of its body. */
  function Learnt(s: State, i: nat, swapped: bool): State
    requires i < |s.srcs|
  {
    s.(srcs := s.srcs[i := s.srcs[i].(byteSwapped := swapped)])
  }

  /** One step of a capture.  A process that is gone does nothing, and a source delivers only its own kind. */
  function Step(o: Options, s: State, e: Event): State {
    if !Alive(s) || s.files == [] || !EventFits(s, e) then s
    else
      match e
      case Deliver(i, FromPipe(b), io) => WritePcapng(o, s, i, b, io)
      case Deliver(i, FromPcap(p), io) => WritePacket(o, s, i, p, io)
      case ShbSeen(i, swapped) => Learnt(s, i, swapped)
      case StopRequest => Stop(s)
      case TimersLooked(t, io, io') => Tick(o, s, t, io, io')
  }

  function Run(o: Options, s: State, es: seq<Event>): State {
    if es == [] then s else Step(o, Run(o, s, es[..|es| - 1]), es[|es| - 1])
  }

  /** The event comes from a source there is, in the form that source delivers. */
  predicate EventFits(s: State, e: Event) {
    && (e.Deliver? ==>
          && e.src < |s.srcs|
          && s.srcs[e.src].fromPcapng == e.item.FromPipe?
          && (e.item.FromPipe? ==> |e.item.block.bytes| >= 12))
    && (e.ShbSeen? ==> e.src < |s.srcs| && s.srcs[e.src].fromPcapng)
  }

  // ---- The start of a capture

  /** The entries registered for the first n interfaces: one for every source that is not pcapng. */
  function OpenedIdbs(pcapng: seq<bool>): (r: seq<SavedIdb>)
  {
    if pcapng == [] then []
    else
      var n := |pcapng| - 1;
      if pcapng[n] then OpenedIdbs(pcapng[..n]) else OpenedIdbs(pcapng[..n]) + [SavedIdb(false, n, [])]
  }

  function OpenedSrcs(pcapng: seq<bool>): (r: seq<Src>)
    ensures |r| == |pcapng|
    ensures forall i :: 0 <= i < |r| ==> r[i].fromPcapng == pcapng[i]
  {
    if pcapng == [] then []
    else
      var n := |pcapng| - 1;
      OpenedSrcs(pcapng[..n]) + [Src(pcapng[n], if pcapng[n] then 0 else |OpenedIdbs(pcapng[..n])|, [], false, 0, 0, 0)]
  }

  /** capture_loop_open_input. */
  function OpenInput(pcapng: seq<bool>): State {
    State(true, true, false, NoFault, pcapng == [true], [], OpenedIdbs(pcapng), OpenedSrcs(pcapng),
          0, 0, 0, 0, 0, NoLimit, [[]], [], [])
  }

  /** The state in which the capture loop starts, when the first file could be started. */
  function Started(o: Options, pcapng: seq<bool>, io: Io): (r: (State, bool)) {
    var (s, ok) := StartOutput(o, OpenInput(pcapng), io);
    (if ok then ReportNewFile(o, s) else s, ok)
  }

  /** The options fit the sources: pcapng sources and several sources need pcapng output. */
  predicate OptionsFit(o: Options, pcapng: seq<bool>) {
    && pcapng != []
    && (true in pcapng || |pcapng| > 1 ==> o.usePcapng)
    && (|pcapng| > 1 ==> o.useThreads)
  }
}
