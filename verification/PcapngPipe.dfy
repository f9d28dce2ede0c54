/** pcapng_pipe_dispatch: a reader of a pcapng block stream over an in-place, growing buffer. */
module PcapngPipe {
  import opened Bytes
  import opened PcapngFormat
  import opened Pipe
  import BufferGrowth

  class Source {
    const passthrough: bool
    const width: BufferGrowth.SizeWidth
    const pipe: Stream
    var databuf: array<byte>           // cap_pipe_databuf
    var state: PipeState               // cap_pipe_state
    var toRead: nat                    // cap_pipe_bytes_to_read
    var bytesRead: nat                 // cap_pipe_bytes_read
    var err: PipeError                 // cap_pipe_err
    var btype: u32                     // bh.block_type
    var length: u32                    // bh.block_total_length
    var byteSwapped: bool              // cap_pipe_info.pcapng.byte_swapped
    var maxPacket: nat                 // cap_pipe_max_pkt_size
    var out: seq<Block>                // the blocks handed to the capture loop so far
    ghost var readFailed: bool         // a read of the pipe returned an error
    ghost var start: nat               // where the block being read starts in the stream
    ghost var seen: seq<Happening>     // what the reader has learnt and delivered

    ghost function Done(): Parsed
      reads this, pipe
      requires start <= |pipe.bytes|
    {
      Parse(passthrough, NoSection, pipe.bytes[..start])
    }

    /** The header of the block being read, from as much of it as has arrived. */
    ghost function Current(): Header
      reads this, pipe
      requires start <= pipe.pos <= |pipe.bytes|
    {
      ReadHeader(passthrough, Done().section, pipe.bytes[start..pipe.pos])
    }

    /** While no error has occurred: the buffer holds the part of the current block that was read. */
    ghost predicate Framed()
      reads this, pipe, databuf
      requires start <= pipe.pos <= |pipe.bytes|
    {
      match state
      case ExpectRecHdr =>
        start == pipe.pos && Done().section == Section(byteSwapped, maxPacket)
      case ReadRecHdr =>
        && bytesRead < toRead == BLOCK_HEADER_SIZE && Buffered()
        && Done().section == Section(byteSwapped, maxPacket)
      case ExpectData =>
        BlockAnnounced()
      case ReadData =>
        BlockAnnounced() && toRead == length
    }

    ghost predicate Buffered()
      reads this, pipe, databuf
      requires start <= pipe.pos <= |pipe.bytes|
    {
      bytesRead <= databuf.Length && pipe.bytes[start..pipe.pos] == databuf[..bytesRead]
    }

    ghost predicate BlockAnnounced()
      reads this, pipe, databuf
      requires start <= pipe.pos <= |pipe.bytes|
    {
      && Buffered() && bytesRead < length && length <= databuf.Length
      && Current() == Header(btype, length, Section(byteSwapped, maxPacket))
    }

    /** The byte order flag is what the reader saw last: the current section's, or that of an SHB whose body
        has not been delivered. */
    ghost predicate Traced()
      reads this, pipe
      requires start <= pipe.pos <= |pipe.bytes|
    {
      && byteSwapped == FlagAfter(seen)
      && (seen == HappeningsOf(out) || Ahead())
      && (err == PipeOk ==>
            if (state == ExpectData || state == ReadData) && btype == BLOCK_TYPE_SHB then Ahead()
            else seen == HappeningsOf(out))
    }

    ghost predicate Ahead()
      reads this, pipe
      requires start <= pipe.pos <= |pipe.bytes|
    {
      && ShowsOrder(passthrough, pipe.bytes[start..]) && ShbSwapped(pipe.bytes[start..]) == byteSwapped
      && seen == HappeningsOf(out) + [SawShb(byteSwapped)]
    }

    /** Between blocks, or once the first half of a header is there. */
    ghost predicate NotAhead()
      reads this
    {
      seen == HappeningsOf(out) && byteSwapped == FlagAfter(seen)
    }

    /** The blocks emitted are those of the parsed part of the stream, which ends at a block boundary;
        after an error, other than a failed read, nothing more of the stream could be parsed. */
    ghost predicate Valid()
      reads this, pipe, databuf
    {
      && start <= pipe.pos <= |pipe.bytes| && databuf.Length >= 2048
      && Done().blocks == out && Done().rest == [] && !Done().bad && Traced()
      && if err == PipeOk then Framed() else
           readFailed || Parse(passthrough, Done().section, pipe.bytes[start..]).blocks == []
    }

    /** cap_pipe_ensure_databuf_size. */
    method EnsureDatabufSize()
      requires bytesRead <= databuf.Length
      modifies this`databuf
      ensures (databuf == old(databuf) || fresh(databuf)) && old(databuf.Length) <= databuf.Length
      ensures length <= databuf.Length && databuf[..bytesRead] == old(databuf[..bytesRead])
    {
      var grown := EnsureSize(databuf, length, width);
      assert grown[..bytesRead] == databuf[..bytesRead];
      databuf := grown;
    }

    /** cap_pipe_read_data_bytes: reads until toRead bytes are buffered, in chunks of any size. */
    method ReadDataBytes() returns (ok: bool)
      requires start <= pipe.pos <= |pipe.bytes| && Buffered() && err == PipeOk
      requires bytesRead <= toRead <= databuf.Length
      modifies this`bytesRead, this`err, this`readFailed, pipe, databuf
      ensures start <= old(pipe.pos) <= pipe.pos <= |pipe.bytes|
      ensures ok ==> err == PipeOk && readFailed == old(readFailed) && Buffered() && bytesRead == toRead
      ensures ok ==> pipe.pos == old(pipe.pos) + toRead - old(bytesRead)
      ensures !ok ==> err != PipeOk
      ensures !ok && !readFailed ==> |pipe.bytes| - start < toRead
    {
      var sz, got := toRead - bytesRead, 0;
      while got < sz
        invariant bytesRead == old(bytesRead) && err == PipeOk && readFailed == old(readFailed)
        invariant 0 <= got <= sz && start <= pipe.pos <= |pipe.bytes|
        invariant pipe.pos == old(pipe.pos) + got
        invariant databuf[..bytesRead + got] == pipe.bytes[start..pipe.pos]
      {
        ghost var seen, at := databuf[..bytesRead + got], pipe.pos;
        var b := pipe.Read(databuf, bytesRead + got, sz - got);
        if b <= 0 {
          err := if b == 0 then PipeEof else PipeErr;
          readFailed := b < 0;
          return false;
        }
        got := got + b;
        assert databuf[..bytesRead + got] == seen + pipe.bytes[at..pipe.pos];
      }
      bytesRead := bytesRead + got;
      return true;
    }

    /** The source when cap_pipe_open has read the first word of the stream and found an SHB. */
    constructor (pipe: Stream, passthrough: bool, width: BufferGrowth.SizeWidth)
      requires pipe.pos == 4 <= |pipe.bytes| && pipe.bytes[..4] == Encode(BLOCK_TYPE_SHB, false)
      ensures Opening() && fresh(databuf)
      ensures this.pipe == pipe && this.passthrough == passthrough && this.width == width
    {
      this.pipe, this.passthrough, this.width := pipe, passthrough, width;
      databuf := new byte[2048];
      state, toRead, bytesRead, err, out := ExpectRecHdr, 0, 0, PipeOk, [];
      btype, length, byteSwapped, maxPacket := BLOCK_TYPE_SHB, 0, false, 0;
      readFailed, start, seen := false, 0, [];
      new;
      NothingYet(passthrough);
      assert pipe.bytes[..0] == [];
    }

    ghost predicate Opening()
      reads this, pipe
    {
      && databuf.Length == 2048 && start == 0 && pipe.pos == 4 <= |pipe.bytes|
      && pipe.bytes[..4] == Encode(BLOCK_TYPE_SHB, false)
      && state == ExpectRecHdr && err == PipeOk && out == [] && !readFailed
      && !byteSwapped && maxPacket == 0 && seen == []
      && Done() == Parsed([], NoSection, [], false)
    }

    /** pcapng_pipe_finish_reading_shb. */
    method Open() returns (ok: bool)
      requires Opening()
      modifies this, pipe, databuf
      ensures Valid() && ok == (err == PipeOk) && (databuf == old(databuf) || fresh(databuf))
    {
      hide Parse, Encode, ReadHeader, Word, HappeningsOf, FlagAfter, ShowsOrder, ShbSwapped;
      NothingSeen();
      var magic := Encode(BLOCK_TYPE_SHB, false);
      forall i | 0 <= i < 4 {
        databuf[i] := magic[i];
      }
      bytesRead, toRead := 4, BLOCK_HEADER_SIZE;
      assert databuf[..4] == magic == pipe.bytes[0..4];
      ok := ReadDataBytes();
      if !ok {
        if !readFailed {
          TooShort(passthrough, Done().section, pipe.bytes[start..], 8);
        }
        err := PipeErr;
        return;
      }
      assert databuf[..8][0..4] == magic[0..4] by {
        assert pipe.bytes[0..8][0..4] == pipe.bytes[..4];
      }
      WordOfSlice(databuf[..8], magic, 0, false);
      WordOfEncode(BLOCK_TYPE_SHB, false);
      btype, length := WordAt(databuf, 0), WordAt(databuf, 4);
      ok := ReadShb();
      if !ok {
        err := PipeErr;
      }
    }

    /** pcapng_read_shb: the fixed part of an SHB, which gives the byte order of its section. */
    method ReadShb() returns (ok: bool)
      requires start <= pipe.pos <= |pipe.bytes| && databuf.Length >= 2048 && err == PipeOk
      requires Buffered() && bytesRead == BLOCK_HEADER_SIZE
      requires Word(databuf[..8], 0, false) == BLOCK_TYPE_SHB == btype && length == Word(databuf[..8], 4, false)
      requires Done().blocks == out && Done().rest == [] && !Done().bad && NotAhead()
      modifies this, pipe, databuf
      ensures databuf == old(databuf) || fresh(databuf)
      ensures start == old(start) <= old(pipe.pos) <= pipe.pos <= |pipe.bytes| && databuf.Length >= 2048
      ensures ok ==> old(pipe.pos) < pipe.pos
      ensures out == old(out) && byteSwapped == FlagAfter(seen)
      ensures seen == HappeningsOf(out) || Ahead()
      ensures ok ==> Valid() && err == PipeOk && state == ExpectData
      ensures !ok && !readFailed ==> Parse(passthrough, Done().section, pipe.bytes[start..]).blocks == []
    {
      hide Parse, Word, ReadHeader, Swap, IsDataBlock, HappeningsOf, FlagAfter, ShowsOrder, ShbSwapped;
      ghost var section, head := Done().section, databuf[..8];
      toRead := SHB_FIXED_SIZE;
      ok := ReadDataBytes();
      if !ok {
        if !readFailed {
          ShortShb(passthrough, section, pipe.bytes[start..], head);
        }
        return;
      }
      assert databuf[..24][..8] == head;
      WordOfPrefix(head, databuf[..24], 0, false);
      WordOfPrefix(head, databuf[..24], 4, false);
      ok := ShbRead();
    }

    /** The magic number of the buffered SHB decides the byte order, and with it the length. */
    method TakeOrder() returns (ok: bool)
      requires start <= pipe.pos <= |pipe.bytes| && databuf.Length >= 2048
      requires Buffered() && bytesRead == SHB_FIXED_SIZE && NotAhead()
      requires Word(databuf[..24], 0, false) == BLOCK_TYPE_SHB && length == Word(databuf[..24], 4, false)
      modifies this`byteSwapped, this`length, this`seen
      ensures ok == ShowsOrder(passthrough, databuf[..24]) && (!ok ==> NotAhead())
      ensures ok ==> Ahead() && byteSwapped == FlagAfter(seen) && byteSwapped == ShbSwapped(databuf[..24])
      ensures ok ==> length == Word(databuf[..24], 4, byteSwapped)
    {
      hide Word, Swap, HappeningsOf, FlagAfter;
      ghost var head, before := databuf[..24], seen;
      assert head == pipe.bytes[start..pipe.pos] <= pipe.bytes[start..];
      var magic := WordAt(databuf, 8);
      if magic == PCAPNG_MAGIC {
        byteSwapped := false;
      } else if magic == PCAPNG_SWAPPED_MAGIC {
        if !passthrough {
          return false;
        }
        byteSwapped := true;
        SwapReads(head, 4);
        length := Swap(length);
      } else {
        return false;
      }
      seen := seen + [SawShb(byteSwapped)];
      FlagSnoc(before, SawShb(byteSwapped));
      ShowsInStream(passthrough, head, pipe.bytes[start..]);
      return true;
    }

    /** The fixed part of the SHB is buffered: decide its byte order and check its length. */
    method ShbRead() returns (ok: bool)
      requires start <= pipe.pos <= |pipe.bytes| && databuf.Length >= 2048 && err == PipeOk
      requires Buffered() && bytesRead == SHB_FIXED_SIZE
      requires Word(databuf[..24], 0, false) == BLOCK_TYPE_SHB == btype && length == Word(databuf[..24], 4, false)
      requires Done().blocks == out && Done().rest == [] && !Done().bad && NotAhead()
      modifies this
      ensures databuf == old(databuf) || fresh(databuf)
      ensures start == old(start) && databuf.Length >= 2048 && out == old(out) && readFailed == old(readFailed)
      ensures byteSwapped == FlagAfter(seen) && (seen == HappeningsOf(out) || Ahead())
      ensures ok ==> Valid() && err == PipeOk && state == ExpectData
      ensures !ok ==> Parse(passthrough, Done().section, pipe.bytes[start..]).blocks == []
    {
      hide Parse, Word, ReadHeader, Swap, IsDataBlock, HappeningsOf, FlagAfter;
      ghost var section, head := Done().section, databuf[..24];
      ShbHeader(passthrough, section, head);
      assert head == pipe.bytes[start..pipe.pos] <= pipe.bytes[start..];
      ok := TakeOrder();
      ok := ok && length % 4 == 0;
      if ok {
        ok := PrepareBlock();
      }
      if !ok {
        Refused(passthrough, section, head, pipe.bytes[start..]);
      }
    }

    /** Room for the rest of the SHB, if its length is sane. */
    method PrepareBlock() returns (ok: bool)
      requires start <= pipe.pos <= |pipe.bytes| && databuf.Length >= 2048 && err == PipeOk
      requires Buffered() && bytesRead == SHB_FIXED_SIZE && length % 4 == 0 && btype == BLOCK_TYPE_SHB
      requires Done().blocks == out && Done().rest == [] && !Done().bad && Ahead() && byteSwapped == FlagAfter(seen)
      requires length >= 28 ==>
                 Current() == Header(btype, length, Section(byteSwapped, WTAP_MAX_PACKET_SIZE_STANDARD))
      modifies this`databuf, this`maxPacket, this`err, this`state
      ensures (databuf == old(databuf) || fresh(databuf)) && databuf.Length >= 2048
      ensures ok == (length >= 28) && (ok ==> Valid() && err == PipeOk && state == ExpectData)
    {
      hide Parse, ReadHeader, HappeningsOf, FlagAfter, ShowsOrder, ShbSwapped;
      maxPacket := WTAP_MAX_PACKET_SIZE_STANDARD;
      EnsureDatabufSize();
      if length < 28 {
        err := PipeEof;
        return false;
      }
      state := ExpectData;
      return true;
    }

    /** One call of pcapng_pipe_dispatch: a failure is -1; 1 does not always mean that a block came out. */
    method Dispatch() returns (r: int)
      requires Valid() && err == PipeOk
      modifies this, pipe, databuf
      ensures Valid() && (databuf == old(databuf) || fresh(databuf))
      ensures r < 0 <==> err != PipeOk
      ensures old(pipe.pos) <= pipe.pos
      ensures r >= 0 ==> old(pipe.pos) < pipe.pos
      ensures |out| == |old(out)| || |out| == |old(out)| + 1
      ensures old(out) <= out
    {
      hide Parse, ReadHeader, HappeningsOf, FlagAfter, ShowsOrder, ShbSwapped;
      if state == ExpectRecHdr {
        state, toRead, bytesRead := ReadRecHdr, BLOCK_HEADER_SIZE, 0;
        assert pipe.bytes[start..pipe.pos] == databuf[..0];
      } else if state == ExpectData {
        state, toRead := ReadData, length;
      }
      if state == ReadRecHdr {
        r := DispatchHeader();
      } else {
        r := DispatchData();
      }
    }

    method DispatchHeader() returns (r: int)
      requires Valid() && err == PipeOk && state == ReadRecHdr
      modifies this, pipe, databuf
      ensures Valid() && (databuf == old(databuf) || fresh(databuf))
      ensures r < 0 <==> err != PipeOk
      ensures old(pipe.pos) <= pipe.pos
      ensures r >= 0 ==> old(pipe.pos) < pipe.pos
      ensures out == old(out)
    {
      hide Parse, ReadHeader, Word, IsDataBlock, Swap, HappeningsOf, FlagAfter, ShowsOrder, ShbSwapped;
      ghost var section := Done().section;
      var ok := ReadDataBytes();
      if !ok {
        if !readFailed {
          TooShort(passthrough, section, pipe.bytes[start..], 8);
        }
        return -1;
      }
      btype, length := WordAt(databuf, 0), WordAt(databuf, 4);
      if btype == BLOCK_TYPE_SHB {
        ok := ReadShb();
        if !ok {
          err := PipeErr;
          return -1;
        }
        return 1;
      }
      r := HeaderRead();
    }

    /** PD_REC_HDR_READ for a block other than an SHB. */
    method HeaderRead() returns (r: int)
      requires start <= pipe.pos <= |pipe.bytes| && databuf.Length >= 2048 && err == PipeOk
      requires Buffered() && bytesRead == BLOCK_HEADER_SIZE
      requires btype == Word(databuf[..8], 0, false) != BLOCK_TYPE_SHB && length == Word(databuf[..8], 4, false)
      requires Done().blocks == out && Done().rest == [] && !Done().bad && NotAhead()
      requires Done().section == Section(byteSwapped, maxPacket)
      modifies this
      ensures Valid() && (databuf == old(databuf) || fresh(databuf))
      ensures r < 0 <==> err != PipeOk
      ensures out == old(out)
    {
      hide Parse, ReadHeader, Word, IsDataBlock, Swap, HappeningsOf, FlagAfter, ShowsOrder, ShbSwapped;
      ghost var section, head := Done().section, databuf[..8];
      SwapReads(head, 0);
      SwapReads(head, 4);
      SwappedShbType(head);
      OtherHeader(passthrough, section, head);
      assert head == pipe.bytes[start..pipe.pos] <= pipe.bytes[start..];
      if ReadHeader(passthrough, section, head).Malformed? {
        Refused(passthrough, section, head, pipe.bytes[start..]);
      }
      if byteSwapped {
        btype, length := Swap(btype), Swap(length);
      }
      if length % 4 != 0 || (IsDataBlock(btype) && length > maxPacket) {
        err := PipeErr;
        return -1;
      }
      EnsureDatabufSize();
      if length < 12 {
        err := PipeEof;
        return -1;
      }
      state := ExpectData;
      return 0;
    }

    method DispatchData() returns (r: int)
      requires Valid() && err == PipeOk && state == ReadData
      modifies this, pipe, databuf
      ensures Valid() && databuf == old(databuf)
      ensures r < 0 <==> err != PipeOk
      ensures old(pipe.pos) <= pipe.pos
      ensures r >= 0 ==> old(pipe.pos) < pipe.pos
      ensures r < 0 ==> out == old(out)
      ensures r >= 0 ==> |out| == |old(out)| + 1 && out[..|out| - 1] == old(out)
    {
      hide Parse, ReadHeader, HappeningsOf, FlagAfter, ShowsOrder, ShbSwapped;
      ghost var section, head := Done().section, pipe.bytes[start..pipe.pos];
      var ok := ReadDataBytes();
      if !ok {
        if !readFailed {
          assert head <= pipe.bytes[start..];
          Unfinished(passthrough, section, head, pipe.bytes[start..]);
        }
        return -1;
      }
      Emit(old(pipe.pos));
      return 1;
    }

    /** The block is complete: it is handed to the capture loop. */
    method Emit(ghost m: nat)
      requires start <= m <= pipe.pos <= |pipe.bytes| && databuf.Length >= 2048 && err == PipeOk
      requires Buffered() && bytesRead == length && length <= databuf.Length
      requires Done().blocks == out && Done().rest == [] && !Done().bad && byteSwapped == FlagAfter(seen)
      requires ReadHeader(passthrough, Done().section, pipe.bytes[start..m])
               == Header(btype, length, Section(byteSwapped, maxPacket))
      requires if btype == BLOCK_TYPE_SHB then Ahead() else seen == HappeningsOf(out)
      modifies this`start, this`out, this`seen, this`state
      ensures Valid() && |out| == |old(out)| + 1 && out[..|out| - 1] == old(out)
    {
      hide Parse, ReadHeader, HappeningsOf, FlagAfter, ShbSwapped, ShowsOrder;
      ghost var section, head := Done().section, pipe.bytes[start..m];
      BlockDone(passthrough, pipe.bytes, start, m, pipe.pos);
      var b := Block(btype, databuf[..length]);
      assert head <= pipe.bytes[start..] && b.bytes == pipe.bytes[start..pipe.pos] <= pipe.bytes[start..];
      Delivered(passthrough, section, head, pipe.bytes[start..], b.bytes, out, b, seen);
      start := pipe.pos;
      out, seen := out + [b], seen + [GotBlock(b)];
      state := ExpectRecHdr;
    }

    /** Dispatches until the pipe ends or fails: every complete block of the stream comes out. */
    method Drive()
      requires Valid()
      modifies this, pipe, databuf
      ensures Valid() && err != PipeOk && old(out) <= out
      ensures Flatten(out) <= pipe.bytes
      ensures out <= Parse(passthrough, NoSection, pipe.bytes).blocks && seen <= Happenings(passthrough, pipe.bytes)
      ensures byteSwapped == FlagAfter(seen)
      ensures !readFailed ==> out == Parse(passthrough, NoSection, pipe.bytes).blocks
    {
      hide Parse, ReadHeader, Flatten;
      ghost var bufs := databuf;
      while err == PipeOk
        invariant Valid() && (databuf == bufs || fresh(databuf)) && old(out) <= out
        decreases |pipe.bytes| - pipe.pos, if err == PipeOk then 1 else 0
      {
        var _ := Dispatch();
      }
      BlocksArePrefix(passthrough, pipe.bytes, start);
      SeenIsPrefix(passthrough, pipe.bytes, start, seen != HappeningsOf(out));
      assert HappeningsOf(out) + [] == HappeningsOf(out);
      if !readFailed {
        assert pipe.bytes == pipe.bytes[..start] + pipe.bytes[start..] && [] + pipe.bytes[start..] == pipe.bytes[start..];
        ParseResumes(passthrough, NoSection, pipe.bytes[..start], pipe.bytes[start..]);
        assert out + [] == out;
      }
    }
  }

  lemma NothingSeen()
    ensures HappeningsOf([]) == [] && !FlagAfter([])
  {
  }

  /** The fixed part of an SHB at the start of a stream. */
  lemma ShowsInStream(passthrough: bool, head: seq<byte>, s: seq<byte>)
    requires |head| == SHB_FIXED_SIZE && head <= s && Word(head, 0, false) == BLOCK_TYPE_SHB
    requires Word(head, 8, false) == PCAPNG_MAGIC || (passthrough && Word(head, 8, false) == PCAPNG_SWAPPED_MAGIC)
    ensures ShowsOrder(passthrough, s) && ShbSwapped(s) == (Word(head, 8, false) == PCAPNG_SWAPPED_MAGIC)
  {
    hide Word;
    WordOfPrefix(head, s, 0, false);
    WordOfPrefix(head, s, 8, false);
  }

  /** What has been seen when a block is delivered. */
  lemma Delivered(passthrough: bool, section: Section, head: seq<byte>, s: seq<byte>, bytes: seq<byte>,
                  out: seq<Block>, b: Block, seen: seq<Happening>)
    requires head <= s && bytes <= s && b.bytes == bytes && |head| <= |bytes|
    requires var h := ReadHeader(passthrough, section, head); h.Header? && h.btype == b.btype && h.length == |bytes|
    requires if b.btype == BLOCK_TYPE_SHB then |s| >= 12 && seen == HappeningsOf(out) + [SawShb(ShbSwapped(s))]
             else seen == HappeningsOf(out)
    ensures seen + [GotBlock(b)] == HappeningsOf(out + [b])
    ensures FlagAfter(seen + [GotBlock(b)]) == FlagAfter(seen)
  {
    hide ReadHeader, Word, HappeningsOf;
    HappeningsSnoc(out, b);
    FlagSnoc(seen, GotBlock(b));
    if b.btype == BLOCK_TYPE_SHB {
      ShbHeaderOrder(passthrough, section, head);
      WordOfPrefix(bytes, s, 8, false);
      assert seen + [GotBlock(b)] == HappeningsOf(out) + [SawShb(ShbSwapped(s)), GotBlock(b)];
    }
  }

  lemma NothingYet(passthrough: bool)
    ensures Parse(passthrough, NoSection, []) == Parsed([], NoSection, [], false)
  {
  }

  /** The blocks parsed up to a block boundary are a prefix of the stream, byte for byte. */
  lemma BlocksArePrefix(passthrough: bool, s: seq<byte>, start: nat)
    requires start <= |s| && Parse(passthrough, NoSection, s[..start]).rest == []
    ensures Flatten(Parse(passthrough, NoSection, s[..start]).blocks) == s[..start]
  {
    hide Parse;
    ParseKeepsBytes(passthrough, NoSection, s[..start]);
  }

  /** A stream that ends within a block header has no further block. */
  lemma TooShort(passthrough: bool, section: Section, s: seq<byte>, n: nat)
    requires |s| < n <= BLOCK_HEADER_SIZE
    ensures Parse(passthrough, section, s).blocks == []
  {
  }

  lemma ShortShb(passthrough: bool, section: Section, s: seq<byte>, head: seq<byte>)
    requires |head| == BLOCK_HEADER_SIZE && head <= s && |s| < SHB_FIXED_SIZE
    requires Word(head, 0, false) == BLOCK_TYPE_SHB
    ensures Parse(passthrough, section, s).blocks == []
  {
    hide Word;
    WordOfPrefix(head, s, 0, false);
  }

  /** A malformed header ends the parse. */
  lemma Refused(passthrough: bool, section: Section, head: seq<byte>, s: seq<byte>)
    requires head <= s && ReadHeader(passthrough, section, head).Malformed?
    ensures Parse(passthrough, section, s).blocks == []
  {
    HeaderOfPrefix(passthrough, section, head, s);
    hide ReadHeader;
  }

  lemma Unfinished(passthrough: bool, section: Section, head: seq<byte>, s: seq<byte>)
    requires head <= s && ReadHeader(passthrough, section, head).Header?
    requires |s| < ReadHeader(passthrough, section, head).length
    ensures Parse(passthrough, section, s).blocks == []
  {
    HeaderOfPrefix(passthrough, section, head, s);
    hide ReadHeader;
  }

  lemma Finished(passthrough: bool, section: Section, head: seq<byte>, s: seq<byte>)
    requires head <= s && ReadHeader(passthrough, section, head).Header?
    requires |s| == ReadHeader(passthrough, section, head).length
    ensures var h := ReadHeader(passthrough, section, head);
            Parse(passthrough, section, s) == Parsed([Block(h.btype, s)], h.section, [], false)
  {
    HeaderOfPrefix(passthrough, section, head, s);
    hide ReadHeader;
    assert s[..|s|] == s && s[|s|..] == [];
    NothingFollows(passthrough, ReadHeader(passthrough, section, head).section);
  }

  /** A complete block after a block boundary makes the next boundary. */
  lemma {:induction false} BlockDone(passthrough: bool, s: seq<byte>, a: nat, m: nat, b: nat)
    requires a <= m <= b <= |s|
    requires Parse(passthrough, NoSection, s[..a]).rest == [] && !Parse(passthrough, NoSection, s[..a]).bad
    requires var h := ReadHeader(passthrough, Parse(passthrough, NoSection, s[..a]).section, s[a..m]);
             h.Header? && h.length == b - a
    ensures var done := Parse(passthrough, NoSection, s[..a]);
            var h := ReadHeader(passthrough, done.section, s[a..m]);
            Parse(passthrough, NoSection, s[..b])
            == Parsed(done.blocks + [Block(h.btype, s[a..b])], h.section, [], false)
  {
    hide ReadHeader, Parse;
    var chunk := s[a..b];
    assert s[a..m] <= chunk;
    Finished(passthrough, Parse(passthrough, NoSection, s[..a]).section, s[a..m], chunk);
    assert s[..b] == s[..a] + chunk && [] + chunk == chunk;
    ParseResumes(passthrough, NoSection, s[..a], chunk);
  }

  lemma NothingFollows(passthrough: bool, section: Section)
    ensures Parse(passthrough, section, []) == Parsed([], section, [], false)
  {
  }

  lemma ShbHeader(passthrough: bool, section: Section, s: seq<byte>)
    requires |s| == SHB_FIXED_SIZE && Word(s, 0, false) == BLOCK_TYPE_SHB
    ensures ReadHeader(passthrough, section, s) ==
            var magic := Word(s, 8, false);
            var swapped := magic == PCAPNG_SWAPPED_MAGIC;
            var length := Word(s, 4, swapped);
            if (magic != PCAPNG_MAGIC && !(swapped && passthrough)) || length % 4 != 0 || length < 28 then Malformed
            else Header(BLOCK_TYPE_SHB, length, Section(swapped, WTAP_MAX_PACKET_SIZE_STANDARD))
  {
    hide Word;
  }

  lemma OtherHeader(passthrough: bool, section: Section, s: seq<byte>)
    requires |s| == BLOCK_HEADER_SIZE && Word(s, 0, false) != BLOCK_TYPE_SHB
    ensures ReadHeader(passthrough, section, s) ==
            var btype, length := Word(s, 0, section.swapped), Word(s, 4, section.swapped);
            if length % 4 != 0 || (IsDataBlock(btype) && length > section.maxBlock) || length < 12 then Malformed
            else Header(btype, length, section)
  {
    hide Word, IsDataBlock;
  }
}
