/** What a capture file says: a reader of pcapng, sections 4.1 to 4.6 of draft-ietf-opsawg-pcapng, that
    gives every block the interface it refers to; and the proof that the engine keeps these meanings. */
module Meaning {
  import opened Bytes
  import opened PcapngFormat
  import opened Engine

  /** The interfaces a block can refer to. */
  datatype Interface = SourceIdb(bytes: seq<byte>) | CaptureInterface(id: nat) | OutOfScope

  datatype Reference = NoReference | Unresolved | To(iface: Interface)

  /** What a block carries, apart from its interface ID. */
  datatype Payload = BlockPayload(btype: u32, bytes: seq<byte>) | PacketPayload(packet: Packet)

  datatype Seen = Seen(payload: Payload, reference: Reference)

  /** The section being read: whether one has started, its byte order, and its interfaces in order. */
  datatype Tab = Tab(started: bool, swapped: bool, table: seq<Interface>)

  const NO_TAB := Tab(false, false, [])

  function Lookup(t: Tab, id: nat): Reference {
    if id < |t.table| then To(t.table[id]) else Unresolved
  }

  function AddInterface(t: Tab, x: Interface): Tab {
    t.(table := t.table + [x])
  }

  predicate IsShb(bytes: seq<byte>) {
    |bytes| >= 12 && Word(bytes, 0, false) == BLOCK_TYPE_SHB
  }

  /** The block type, for a block that is not an SHB. */
  function TypeOf(bytes: seq<byte>, swapped: bool): u32
    requires |bytes| >= 12
  {
    Word(bytes, 0, swapped)
  }

  predicate IsIdb(bytes: seq<byte>, swapped: bool) {
    |bytes| >= 12 && !IsShb(bytes) && TypeOf(bytes, swapped) == BLOCK_TYPE_IDB
  }

  /** One block as it stands in a section: the section after it, and what it says. */
  function ReadBytes(t: Tab, bytes: seq<byte>): (Tab, seq<Seen>) {
    if |bytes| < 12 then (t, [])
    else if IsShb(bytes) then (Tab(true, ShbSwapped(bytes), []), [])
    else if IsIdb(bytes, t.swapped) then (AddInterface(t, SourceIdb(bytes)), [])
    else if RefersToInterface(TypeOf(bytes, t.swapped)) then
      (t, [Seen(BlockPayload(TypeOf(bytes, t.swapped), bytes[..8] + bytes[12..]), Lookup(t, Word(bytes, 8, t.swapped)))])
    else (t, [Seen(BlockPayload(TypeOf(bytes, t.swapped), bytes), NoReference)])
  }

  function ReadBlock(t: Tab, b: OutBlock): (Tab, seq<Seen>) {
    match b
    case OwnShb => (Tab(true, false, []), [])
    case DummyIdb => (AddInterface(t, OutOfScope), [])
    case OwnIdb(i) => (AddInterface(t, CaptureInterface(i)), [])
    case OwnEpb(id, p) => (t, [Seen(PacketPayload(p), Lookup(t, id))])
    case Copied(bytes) => ReadBytes(t, bytes)
    case PcapHeader => (Tab(true, false, [CaptureInterface(0)]), [])
    case PcapRecord(p) => (t, [Seen(PacketPayload(p), Lookup(t, 0))])
  }

  /** A file, read from its start. */
  function ReadFile(f: seq<OutBlock>): (Tab, seq<Seen>) {
    if f == [] then (NO_TAB, [])
    else
      var (t, seen) := ReadFile(f[..|f| - 1]);
      var (t', more) := ReadBlock(t, f[|f| - 1]);
      (t', seen + more)
  }

  function ReadFiles(files: seq<seq<OutBlock>>): seq<Seen> {
    if files == [] then [] else ReadFiles(files[..|files| - 1]) + ReadFile(files[|files| - 1]).1
  }

  /** The same reader on the input side, with one section per source. */
  datatype Inputs = Inputs(tabs: seq<Tab>, seen: seq<Seen>)

  function ReadEntry(r: Inputs, e: Entry): Inputs {
    if e.src >= |r.tabs| then r
    else
      match e.item
      case FromPipe(b) =>
        var (t, more) := ReadBytes(r.tabs[e.src], b.bytes);
        Inputs(r.tabs[e.src := t], r.seen + more)
      case FromPcap(p) =>
        Inputs(r.tabs, r.seen + [Seen(PacketPayload(p), To(CaptureInterface(e.src)))])
  }

  function ReadInputs(sources: nat, log: seq<Entry>): (r: Inputs)
    ensures |r.tabs| == sources
  {
    if log == [] then Inputs(seq(sources, _ => NO_TAB), [])
    else ReadEntry(ReadInputs(sources, log[..|log| - 1]), log[|log| - 1])
  }

  // ---- The invariant

  /** Source i's slot k stands for interface x, in the saved table and in the current file. */
  ghost predicate SlotLinked(s: State, i: nat, k: nat, file: Tab, x: Interface) {
    && k < |s.savedIdbs| && k < |file.table|
    && x.SourceIdb? && x.bytes != []
    && s.savedIdbs[k] == SavedIdb(false, i, x.bytes) && file.table[k] == x
  }

  ghost predicate Increasing(m: seq<nat>) {
    forall j, k :: 0 <= j < k < |m| ==> m[j] < m[k]
  }

  /** The map of a pcapng source takes its own interfaces to the slots that stand for them. */
  ghost predicate PipeLinked(s: State, i: nat, file: Tab, own: Tab)
    requires i < |s.srcs|
  {
    var m := s.srcs[i].ifaceToGlobal;
    && !own.swapped && |m| == |own.table| && Increasing(m)
    && forall j :: 0 <= j < |m| ==> SlotLinked(s, i, m[j], file, own.table[j])
  }

  /** A pcap source has a slot of its own for the whole capture. */
  ghost predicate PcapLinked(s: State, i: nat, file: Tab)
    requires i < |s.srcs|
  {
    var k := s.srcs[i].idbId;
    && k < |s.savedIdbs| && k < |file.table|
    && s.savedIdbs[k] == SavedIdb(false, i, []) && file.table[k] == CaptureInterface(i)
  }

  /** Multiplexed: the current file has one IDB per saved entry, and all sources are linked to them. */
  ghost predicate MuxLinked(s: State, file: Tab, own: seq<Tab>) {
    && |own| == |s.srcs| && !file.swapped && |file.table| == |s.savedIdbs|
    && forall i :: 0 <= i < |s.srcs| ==>
         if s.srcs[i].fromPcapng then PipeLinked(s, i, file, own[i]) else PcapLinked(s, i, file)
  }

  /** Passthrough: the current file's last section is the source's current section, which the saved
      blocks describe, and the map is the identity. */
  ghost predicate PassLinked(s: State, file: Tab, own: Tab)
    requires |s.srcs| == 1
  {
    var m := s.srcs[0].ifaceToGlobal;
    && file == own && |s.savedIdbs| == |own.table| == |m|
    && own.started == (s.savedShb != []) && (own.started ==> |s.savedShb| >= 12)
    && own.swapped == (own.started && ShbSwapped(s.savedShb))
    && forall j :: 0 <= j < |m| ==>
         m[j] == j && s.savedIdbs[j].idb != [] && s.savedIdbs[j] == SavedIdb(false, 0, s.savedIdbs[j].idb)
         && own.table[j] == SourceIdb(s.savedIdbs[j].idb)
  }

  ghost predicate Linked(o: Options, s: State, file: Tab, own: seq<Tab>) {
    if !o.usePcapng then |s.srcs| == 1 && !s.srcs[0].fromPcapng && file.table == [CaptureInterface(0)]
    else if s.passthrough then |s.srcs| == |own| == 1 && PassLinked(s, file, own[0])
    else MuxLinked(s, file, own)
  }

  predicate ReplaySwapped(s: State) {
    |s.savedShb| >= 12 && ShbSwapped(s.savedShb)
  }

  /** What a file starts with is read as a section with only interfaces, even after a failure. */
  ghost predicate ReplaySafe(s: State) {
    && (s.passthrough ==> s.savedShb != [] || s.savedIdbs == [])
    && (s.savedShb != [] ==> s.passthrough && IsShb(s.savedShb))
    && forall k :: 0 <= k < |s.savedIdbs| && !s.savedIdbs[k].deleted ==>
         && s.savedIdbs[k].interfaceId < |s.srcs|
         && (s.savedIdbs[k].idb != [] ==> IsIdb(s.savedIdbs[k].idb, ReplaySwapped(s)))
  }

  ghost predicate Shape(o: Options, s: State) {
    && s.files != [] && s.srcs != []
    && (s.passthrough ==> |s.srcs| == 1 && s.srcs[0].fromPcapng && o.usePcapng)
    && (!o.usePcapng ==> |s.srcs| == 1 && !s.srcs[0].fromPcapng)
    && (s.go ==> s.open)
  }

  function Current(s: State): Tab {
    if s.files == [] then NO_TAB else ReadFile(s.files[|s.files| - 1]).0
  }

  /** Reading the output files gives exactly what the sources said, in the order the writer saw it. */
  ghost predicate SameMeaning(s: State) {
    ReadFiles(s.files) == ReadInputs(|s.srcs|, s.log).seen
  }

  ghost predicate Inv(o: Options, s: State) {
    && Shape(o, s) && ReplaySafe(s) && SameMeaning(s)
    && (s.go ==> Linked(o, s, Current(s), ReadInputs(|s.srcs|, s.log).tabs))
  }

  // ---- What the pipe readers guarantee about the blocks they deliver

  /** A block as pcapng_pipe_dispatch delivers it: its type is decoded in the byte order of its section,
      an SHB comes first, and only passthrough lets the opposite byte order in. */
  ghost predicate WellFramed(s: State, own: Tab, b: Block) {
    && |b.bytes| >= 12
    && if IsShb(b.bytes)
       then b.btype == BLOCK_TYPE_SHB
            && (Word(b.bytes, 8, false) == PCAPNG_MAGIC || (s.passthrough && ShbSwapped(b.bytes)))
       else b.btype == TypeOf(b.bytes, own.swapped) && b.btype != BLOCK_TYPE_SHB
            && (s.passthrough ==> own.started)
  }

  /** What holds of every event: the pipe readers framed the block, and there is room for an interface ID
      that will be rewritten. */
  ghost predicate Legal(s: State, e: Event) {
    EventFits(s, e) && e.Deliver? && s.go && e.item.FromPipe? ==>
      && WellFramed(s, ReadInputs(|s.srcs|, s.log).tabs[e.src], e.item.block)
      && (!s.passthrough ==> |s.savedIdbs| < 0xFFFF_FFFF)
  }

  ghost predicate LegalRun(o: Options, s: State, es: seq<Event>) {
    es != [] ==>
      var before := es[..|es| - 1];
      LegalRun(o, s, before) && Legal(Run(o, s, before), es[|es| - 1])
  }
}
