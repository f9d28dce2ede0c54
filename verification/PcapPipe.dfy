/** pcap_pipe_dispatch: a resumable reader of a pcap record stream over an in-place buffer. */
module PcapPipe {
  import opened Bytes
  import opened PcapFormat
  import opened Pipe
  import BufferGrowth

  class Source {
    const info: FileInfo
    const width: BufferGrowth.SizeWidth
    const pipe: Stream
    const rechdrBuf: array<byte>       // cap_pipe_info.pcap.rechdr as it arrives
    var rechdr: RecordHeader           // the same header once its byte order is taken care of
    var databuf: array<byte>           // cap_pipe_databuf
    var state: PipeState               // cap_pipe_state
    var toRead: nat                    // cap_pipe_bytes_to_read
    var bytesRead: nat                 // cap_pipe_bytes_read
    var err: PipeError                 // cap_pipe_err
    var out: seq<Packet>               // the packets handed to the capture loop so far
    ghost var readFailed: bool         // a read of the pipe returned an error

    /** The reader as cap_pipe_open leaves it, once the file header has been read. */
    constructor (pipe: Stream, info: FileInfo, width: BufferGrowth.SizeWidth)
      requires pipe.pos == 0
      ensures Valid() && fresh(databuf) && fresh(rechdrBuf)
      ensures this.pipe == pipe && this.info == info && this.width == width
      ensures err == PipeOk && out == [] && !readFailed
    {
      this.pipe, this.info, this.width := pipe, info, width;
      rechdrBuf := new byte[24];
      rechdr := RecordHeader(0, 0, 0, 0);
      databuf := new byte[2048];
      state, toRead, bytesRead, err, out := ExpectRecHdr, 0, 0, PipeOk, [];
      readFailed := false;
      new;
      NothingYet(info);
      assert pipe.bytes[..0] == [];
    }

    /** The bytes of the record being read. */
    ghost function Pending(): seq<byte>
      reads this, databuf, rechdrBuf
      requires rechdrBuf.Length == 24
      requires state.ReadRecHdr? ==> bytesRead <= 24
      requires state.ReadData? ==> bytesRead <= databuf.Length
    {
      match state
      case ExpectRecHdr => []
      case ReadRecHdr => rechdrBuf[..bytesRead]
      case ExpectData => rechdrBuf[..HeaderLength(info)]
      case ReadData => rechdrBuf[..HeaderLength(info)] + databuf[..bytesRead]
    }

    /** What each state says about the counters and the buffers. */
    ghost predicate Framed()
      reads this, databuf, rechdrBuf
    {
      && rechdrBuf.Length == 24 && databuf != rechdrBuf
      && match state
         case ExpectRecHdr => true
         case ReadRecHdr =>
           && bytesRead <= toRead == HeaderLength(info)
           && (err == PipeOk ==> bytesRead < toRead)
         case ExpectData => HeaderDone()
         case ReadData => HeaderDone() && bytesRead < toRead == rechdr.incl
    }

    /** A complete, acceptable header announces data that fits the buffer. */
    ghost predicate HeaderDone()
      reads this, databuf, rechdrBuf
      requires rechdrBuf.Length == 24
    {
      && rechdr == DecodeHeader(info, rechdrBuf[..HeaderLength(info)])
      && 0 < rechdr.incl <= info.maxPacket && rechdr.incl <= databuf.Length
    }

    /** The packets emitted so far and the buffered bytes are the parse of what was read. */
    ghost predicate Valid()
      reads this, pipe, databuf, rechdrBuf
    {
      && pipe.Valid() && Framed()
      && var done := Parse(info, pipe.bytes[..pipe.pos]);
         && done.packets == out && done.rest == Pending()
         && (done.tooLong ==> err == PipeErr)
         && (err == PipeErr ==> done.tooLong || readFailed)
         && (err == PipeEof ==> pipe.pos == |pipe.bytes|)
    }

    /** cap_pipe_adjust_pcap_header. */
    method AdjustHeader()
      requires rechdrBuf.Length == 24
      requires var b := rechdrBuf[..HeaderLength(info)];
               rechdr == RecordHeader(Word(b, 0, false), Word(b, 4, false), Word(b, 8, false), Word(b, 12, false))
      modifies this`rechdr
      ensures rechdr == DecodeHeader(info, rechdrBuf[..HeaderLength(info)])
    {
      hide Word, Swap;
      ghost var b := rechdrBuf[..HeaderLength(info)];
      if info.swapped {
        SwapReads(b, 0);
        SwapReads(b, 4);
        SwapReads(b, 8);
        SwapReads(b, 12);
        rechdr := RecordHeader(Swap(rechdr.sec), Swap(rechdr.usec), Swap(rechdr.incl), Swap(rechdr.orig));
      }
      if info.major == 2 && (info.minor < 3 || (info.minor == 3 && rechdr.incl > rechdr.orig)) {
        rechdr := rechdr.(incl := rechdr.orig, orig := rechdr.incl);
      }
    }

    /** One call of pcap_pipe_dispatch: 1 when it emits a packet, 0 when it needs more, -1 at the end. */
    method Dispatch() returns (r: int)
      requires Valid() && err == PipeOk
      modifies this, pipe, databuf, rechdrBuf
      ensures Valid() && (databuf == old(databuf) || fresh(databuf))
      ensures r == -1 || r == 0 || r == 1
      ensures r < 0 <==> err != PipeOk
      ensures r <= 0 ==> out == old(out)
      ensures r == 1 ==> |out| == |old(out)| + 1 && out[..|out| - 1] == old(out)
      ensures if r < 0 then old(pipe.pos) <= pipe.pos else old(pipe.pos) < pipe.pos
    {
      hide Parse, DecodeHeader;
      if state == ExpectRecHdr {
        state, toRead, bytesRead := ReadRecHdr, HeaderLength(info), 0;
        assert rechdrBuf[..0] == [];
      } else if state == ExpectData {
        state, toRead, bytesRead := ReadData, rechdr.incl, 0;
        assert rechdrBuf[..HeaderLength(info)] + databuf[..0] == rechdrBuf[..HeaderLength(info)];
      }
      if state == ReadRecHdr {
        r := DispatchHeader();
      } else {
        r := DispatchData();
      }
    }

    method DispatchHeader() returns (r: int)
      requires Valid() && err == PipeOk && state == ReadRecHdr
      modifies this, pipe, databuf, rechdrBuf
      ensures Valid() && (databuf == old(databuf) || fresh(databuf))
      ensures r == -1 || r == 0 || r == 1
      ensures r < 0 <==> err != PipeOk
      ensures r <= 0 ==> out == old(out)
      ensures r == 1 ==> |out| == |old(out)| + 1 && out[..|out| - 1] == old(out)
      ensures if r < 0 then old(pipe.pos) <= pipe.pos else old(pipe.pos) < pipe.pos
    {
      hide Parse, DecodeHeader;
      var b := pipe.Read(rechdrBuf, bytesRead, toRead - bytesRead);
      if b <= 0 {
        err := if b == 0 then PipeEof else PipeErr;
        readFailed := b < 0;
        return -1;
      }
      ghost var was := old(rechdrBuf[..bytesRead]);
      ParseExtends(info, pipe.bytes, old(pipe.pos), pipe.pos);
      bytesRead := bytesRead + b;
      assert rechdrBuf[..bytesRead] == was + pipe.bytes[old(pipe.pos)..pipe.pos];
      if bytesRead < toRead {
        ShortHeader(info, rechdrBuf[..bytesRead]);
        assert out + [] == out;
        return 0;
      }
      r := HeaderRead();
    }

    /** PD_REC_HDR_READ: the header is complete. */
    method HeaderRead() returns (r: int)
      requires pipe.Valid() && rechdrBuf.Length == 24 && databuf != rechdrBuf
      requires err == PipeOk && state == ReadRecHdr && bytesRead == toRead == HeaderLength(info)
      requires Parse(info, pipe.bytes[..pipe.pos])
            == Chain(Parsed(out, [], false), Parse(info, rechdrBuf[..HeaderLength(info)]))
      modifies this
      ensures Valid() && (databuf == old(databuf) || fresh(databuf))
      ensures r == -1 || r == 0 || r == 1
      ensures r < 0 <==> err != PipeOk
      ensures r <= 0 ==> out == old(out)
      ensures r == 1 ==> |out| == |old(out)| + 1 && out[..|out| - 1] == old(out)
    {
      hide Parse, DecodeHeader, Word;
      ghost var head := rechdrBuf[..toRead];
      assert head + [] == head && out + [] == out;
      rechdr := RecordHeader(WordAt(rechdrBuf, 0), WordAt(rechdrBuf, 4), WordAt(rechdrBuf, 8), WordAt(rechdrBuf, 12));
      AdjustHeader();
      if rechdr.incl > info.maxPacket {
        LongRecord(info, head);
        err := PipeErr;
        return -1;
      }
      databuf := EnsureSize(databuf, rechdr.incl, width);
      if rechdr.incl > 0 {
        ParsePartial(info, head, []);
        state := ExpectData;
        return 0;
      }
      ParseOne(info, head, []);
      out := out + [MakePacket(rechdr, [])];
      state := ExpectRecHdr;
      return 1;
    }

    method DispatchData() returns (r: int)
      requires Valid() && err == PipeOk && state == ReadData
      modifies this, pipe, databuf
      ensures Valid() && databuf == old(databuf)
      ensures r == -1 || r == 0 || r == 1
      ensures r < 0 <==> err != PipeOk
      ensures r <= 0 ==> out == old(out)
      ensures r == 1 ==> |out| == |old(out)| + 1 && out[..|out| - 1] == old(out)
      ensures if r < 0 then old(pipe.pos) <= pipe.pos else old(pipe.pos) < pipe.pos
    {
      hide Parse, DecodeHeader;
      var b := pipe.Read(databuf, bytesRead, toRead - bytesRead);
      if b <= 0 {
        err := if b == 0 then PipeEof else PipeErr;
        readFailed := b < 0;
        assert old(databuf[..bytesRead]) == databuf[..bytesRead];
        return -1;
      }
      ghost var head, was := rechdrBuf[..HeaderLength(info)], old(databuf[..bytesRead]);
      ParseExtends(info, pipe.bytes, old(pipe.pos), pipe.pos);
      bytesRead := bytesRead + b;
      assert head + was + pipe.bytes[old(pipe.pos)..pipe.pos] == head + databuf[..bytesRead];
      if bytesRead < toRead {
        ParsePartial(info, head, databuf[..bytesRead]);
        assert old(out) + [] == out;
        return 0;
      }
      ParseOne(info, head, databuf[..bytesRead]);
      out := out + [MakePacket(rechdr, databuf[..rechdr.incl])];
      state := ExpectRecHdr;
      return 1;
    }

    /** Dispatches until the pipe ends or fails, however its reads are split into chunks. */
    method Drive()
      requires Valid()
      modifies this, pipe, databuf, rechdrBuf
      ensures Valid() && err != PipeOk
      ensures out == Parse(info, pipe.bytes[..pipe.pos]).packets
      ensures !readFailed ==> out == Parse(info, pipe.bytes).packets
    {
      ghost var bufs := databuf;
      while err == PipeOk
        invariant Valid() && (databuf == bufs || fresh(databuf))
        decreases |pipe.bytes| - pipe.pos, if err == PipeOk then 1 else 0
      {
        var _ := Dispatch();
      }
      if !readFailed {
        StreamEnded(info, pipe.bytes, pipe.pos, err == PipeErr);
      }
    }
  }

  /** Parsing a longer part of a stream continues from what the shorter part left over. */
  lemma {:induction false} ParseExtends(f: FileInfo, s: seq<byte>, p: nat, q: nat)
    requires p <= q <= |s| && !Parse(f, s[..p]).tooLong
    ensures Parse(f, s[..q]) == Chain(Parse(f, s[..p]), Parse(f, Parse(f, s[..p]).rest + s[p..q]))
  {
    hide Parse;
    assert s[..q] == s[..p] + s[p..q];
    ParseResumes(f, s[..p], s[p..q]);
  }

  lemma ShortHeader(f: FileInfo, b: seq<byte>)
    requires |b| < HeaderLength(f)
    ensures Parse(f, b) == Parsed([], b, false)
  {
  }

  lemma LongRecord(f: FileInfo, head: seq<byte>)
    requires |head| == HeaderLength(f) && DecodeHeader(f, head).incl > f.maxPacket
    ensures Parse(f, head) == Parsed([], head, true)
  {
  }

  /** Once a record is too long, or the stream is used up, the rest of the stream adds nothing. */
  lemma {:induction false} StreamEnded(f: FileInfo, s: seq<byte>, pos: nat, tooLong: bool)
    requires pos <= |s|
    requires if tooLong then Parse(f, s[..pos]).tooLong else pos == |s|
    ensures Parse(f, s).packets == Parse(f, s[..pos]).packets
  {
    hide Parse;
    if tooLong {
      assert s == s[..pos] + s[pos..];
      TooLongStays(f, s[..pos], s[pos..]);
    } else {
      assert s[..pos] == s;
    }
  }

  lemma {:induction false} TooLongStays(f: FileInfo, s: seq<byte>, more: seq<byte>)
    requires Parse(f, s).tooLong
    ensures Parse(f, s + more).packets == Parse(f, s).packets
    decreases |s|
  {
    hide DecodeHeader;
    var next := NextRecord(f, s);
    if next.Got? {
      NextOfPrefix(f, s, more);
      assert (s + more)[next.size..] == s[next.size..] + more;
      TooLongStays(f, s[next.size..], more);
    } else {
      HeaderOfPrefix(f, s, s + more);
    }
  }

  /** Reading part of a well-formed stream delivers part of its packets. */
  lemma PartDelivered(f: FileInfo, s: seq<byte>, pos: nat)
    requires pos <= |s|
    ensures Parse(f, s[..pos]).packets <= Parse(f, s).packets
  {
    hide Parse;
    assert s == s[..pos] + s[pos..];
    if Parse(f, s[..pos]).tooLong {
      TooLongStays(f, s[..pos], s[pos..]);
    } else {
      ParseResumes(f, s[..pos], s[pos..]);
    }
  }

  /** The chunked reader delivers exactly the packets that were written to the pipe, in order. */
  method DeliverAll(f: FileInfo, layouts: seq<Layout>, ps: seq<Packet>, extras: seq<seq<byte>>,
                    width: BufferGrowth.SizeWidth)
    returns (out: seq<Packet>, ghost failed: bool)
    requires Readable(f, layouts, ps, extras)
    ensures out <= ps
    ensures !failed ==> out == ps
  {
    hide Parse, EncodeAll, WellFormed, LayoutFits;
    ParseReadsBack(f, layouts, ps, extras);
    var pipe := new Stream(EncodeAll(f, layouts, ps, extras), 0);
    var source := new Source(pipe, f, width);
    source.Drive();
    out, failed := source.out, source.readFailed;
    PartDelivered(f, pipe.bytes, pipe.pos);
  }
}
