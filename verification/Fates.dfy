/** Which fate an item has: what a caller can check before a write callback decides whether the item takes
    effect, what is written for it, and whether the capture goes on. */
module Fates {
  import opened Bytes
  import opened PcapngFormat
  import opened Engine
  import opened Meaning
  import opened MeaningKept
  import opened Conservation
  import opened Reports
  import opened FileStarts
  import FileSizes
  import References

  // ---- Written or not

  /** A block was put at the end of the current file; a new file may have followed. */
  ghost predicate Appended(s: State, r: State, b: OutBlock)
    requires s.files != []
  {
    var n := |s.files| - 1;
    n < |r.files| && r.files[..n] == s.files[..n] && r.files[n] == s.files[n] + [b]
  }

  /** The item took effect, and was counted as received where the writer counts. */
  ghost predicate TookEffect(o: Options, s: State, r: State, i: nat, item: Item)
    requires i < |s.srcs|
  {
    && r.log == s.log + [Entry(i, item)] && OthersSame(s, r, i) && r.aborted == s.aborted
    && SameCounts(s.srcs[i].(received := s.srcs[i].received + if IsData(item) && !o.useThreads then 1 else 0), r.srcs[i])
  }

  /** The item was dropped, which stops the capture. */
  ghost predicate WasDropped(s: State, r: State, i: nat)
    requires i < |s.srcs|
  {
    && !r.go && r.log == s.log && r.files == s.files && OthersSame(s, r, i)
    && SameCounts(s.srcs[i].(dropped := s.srcs[i].dropped + 1), r.srcs[i])
  }

  ghost predicate WasFlushed(s: State, r: State, i: nat)
    requires i < |s.srcs|
  {
    r == s.(srcs := s.srcs[i := s.srcs[i].(flushed := s.srcs[i].flushed + 1)])
  }

  /** Counting a packet may open another file, after what has been written. */
  lemma {:induction false} WroteFiles(o: Options, s: State, i: nat, io: Io)
    requires s.files != [] && i < |s.srcs|
    ensures var r := WroteOnePacket(o, s, i, io);
            |s.files| <= |r.files| && r.files[..|s.files|] == s.files
  {
    hide SwitchOrStop, SameLinks, StartBlocks;
    SwitchShape(o, WithPacket(o, s, i), io);
  }

  lemma {:induction false} PutAppends(o: Options, s: State, b: OutBlock, i: nat, item: Item, r: State)
    requires s.files != []
    requires var w := Logged(Put(o, s, b), i, item); |w.files| <= |r.files| && r.files[..|w.files|] == w.files
    ensures Appended(s, r, b)
  {
    hide Size;
    var w, n := Put(o, s, b), |s.files| - 1;
    assert r.files[n] == r.files[..|w.files|][n];
    assert r.files[..n] == w.files[..n];
  }

  /** A packet of a pcap source takes effect if and only if it comes before the stop and its write succeeds: it
      is then the last packet of the file that was current.  If the write fails, it is dropped and the capture
      stops; after the stop it is flushed. */
  lemma {:induction false} PacketFate(o: Options, s: State, i: nat, p: Packet, io: Io)
    requires Healthy(s) && Alive(s) && i < |s.srcs| && !s.srcs[i].fromPcapng
    ensures var r := Step(o, s, Deliver(i, FromPcap(p), io));
            if !s.go then WasFlushed(s, r, i)
            else if !io.writeOk then WasDropped(s, r, i)
            else TookEffect(o, s, r, i, FromPcap(p))
                 && Appended(s, r, if o.usePcapng then OwnEpb(s.srcs[i].idbId, p) else PcapRecord(p))
  {
    hide WroteOnePacket;
    if s.go {
      var out := PacketBlock(o, s.srcs[i], p);
      var w := Logged(Put(o, s, out), i, FromPcap(p));
      WroteOutcome(o, w, i, io);
      WroteFiles(o, w, i, io);
      if io.writeOk {
        PutAppends(o, s, out, i, FromPcap(p), WroteOnePacket(o, w, i, io));
      }
    }
  }

  /** The block names an interface in the third word, which a multiplexed capture renumbers. */
  predicate Renumbered(s: State, b: Block) {
    !s.passthrough && (b.btype == BLOCK_TYPE_EPB || b.btype == BLOCK_TYPE_ISB)
  }

  /** w is the block with another third word. */
  ghost predicate PassedOn(bytes: seq<byte>, w: seq<byte>, id: nat) {
    |w| == |bytes| >= 12 && w[..8] == bytes[..8] && w[12..] == bytes[12..] && Word(w, 8, false) == id
  }

  /** A block whose lengths agree is written; in a block of twelve bytes the new ID takes the place of the
      second length. */
  predicate CanBeWritten(s: State, i: nat, b: Block)
    requires i < |s.srcs| && |b.bytes| >= 12
    requires Renumbered(s, b) ==> Word(b.bytes, 8, false) < |s.srcs[i].ifaceToGlobal|
  {
    if Renumbered(s, b) && |b.bytes| == 12
    then Word(b.bytes, 4, false) == s.srcs[i].ifaceToGlobal[Word(b.bytes, 8, false)] % 0x1_0000_0000
    else LengthsAgree(b.bytes)
  }

  lemma {:induction false} RewrittenAgrees(bytes: seq<byte>, id: u32)
    requires |bytes| >= 12
    ensures var w := WithInterfaceId(bytes, id);
            && PassedOn(bytes, w, id)
            && (CanCopy(w) <==> if |bytes| == 12 then Word(bytes, 4, false) == id else LengthsAgree(bytes))
  {
    hide Encode, Word;
    var w, n := WithInterfaceId(bytes, id), |bytes| - 4;
    RewrittenReads(bytes, id, false);
    assert w[..8] == bytes[..8] && w[12..] == bytes[12..];
    assert w[4..8] == w[..8][4..] && bytes[4..8] == bytes[..8][4..];
    WordOfSlice(w, bytes, 4, false);
    CanCopyIff(w);
    CanCopyIff(bytes);
    if |bytes| > 12 {
      if |bytes| >= 16 {
        assert w[n..] == w[12..][n - 12..] && bytes[n..] == bytes[12..][n - 12..];
      }
    }
  }

  /** A multiplexed SHB takes effect without being written. */
  ghost predicate Absorbed(o: Options, s: State, r: State, i: nat, b: Block)
    requires i < |s.srcs|
  {
    TookEffect(o, s, r, i, FromPipe(b)) && r.files == s.files && r.go
  }

  /** A block of a pcapng source: one that names an interface its source has not described ends the process; a
      multiplexed SHB takes effect without being written; any other block takes effect if and only if its
      lengths agree and its write succeeds, and is then the last block of the file that was current, the
      same but for the interface it names; otherwise it is dropped and the capture stops. */
  lemma {:induction false} BlockFate(o: Options, s: State, i: nat, b: Block, io: Io)
    requires Healthy(s) && Alive(s) && s.go && i < |s.srcs| && s.srcs[i].fromPcapng && |b.bytes| >= 12
    ensures var r := Step(o, s, Deliver(i, FromPipe(b), io));
            var m := s.srcs[i].ifaceToGlobal;
            if Renumbered(s, b) && Word(b.bytes, 8, false) >= |m| then r == s.(aborted := true)
            else if b.btype == BLOCK_TYPE_SHB && !s.passthrough then Absorbed(o, s, r, i, b)
            else if !CanBeWritten(s, i, b) || !io.writeOk then WasDropped(s, r, i)
            else TookEffect(o, s, r, i, FromPipe(b))
                 && exists w: seq<byte> ::
                      Appended(s, r, Copied(w))
                      && if Renumbered(s, b) then PassedOn(b.bytes, w, m[Word(b.bytes, 8, false)] % 0x1_0000_0000) else w == b.bytes
  {
    hide WroteOnePacket, IsDataBlock, CanCopy, LengthsAgree, WithInterfaceId, Word, PassedOn;
    var r := Step(o, s, Deliver(i, FromPipe(b), io));
    var m := s.srcs[i].ifaceToGlobal;
    ShbIsNoData();
    AdjustOutcome(s, i, b);
    var a := AdjustBlock(s, i, b);
    if Renumbered(s, b) {
      if Word(b.bytes, 8, false) < |m| {
        RewrittenAgrees(b.bytes, ToU32(m[Word(b.bytes, 8, false)]));
      }
    } else {
      CanCopyIff(b.bytes);
    }
    if a.ok && !(b.btype == BLOCK_TYPE_SHB && !s.passthrough) && CanCopy(a.bytes) && io.writeOk {
      PutBlock(o, s, i, b, io);
    }
  }

  lemma {:induction false} PutBlock(o: Options, s: State, i: nat, b: Block, io: Io)
    requires Healthy(s) && Alive(s) && s.go && i < |s.srcs| && s.srcs[i].fromPcapng && |b.bytes| >= 12 && io.writeOk
    requires var a := AdjustBlock(s, i, b); a.ok && CanCopy(a.bytes) && !(b.btype == BLOCK_TYPE_SHB && !s.passthrough)
    ensures var r := Step(o, s, Deliver(i, FromPipe(b), io));
            TookEffect(o, s, r, i, FromPipe(b)) && Appended(s, r, Copied(AdjustBlock(s, i, b).bytes))
  {
    hide WroteOnePacket, IsDataBlock, CanCopy, AdjustBlock;
    var r := Step(o, s, Deliver(i, FromPipe(b), io));
    ShbIsNoData();
    AdjustOutcome(s, i, b);
    var a := AdjustBlock(s, i, b);
    var out := Copied(a.bytes);
    var w := Logged(Put(o, a.state, out), i, FromPipe(b));
    WroteOutcome(o, w, i, io);
    WroteFiles(o, w, i, io);
    assert |w.files| <= |r.files| && r.files[..|w.files|] == w.files;
    PutAppends(o, a.state, out, i, FromPipe(b), r);
  }
}
