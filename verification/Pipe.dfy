/** The operating system's side of a capture pipe: a read returns any non-empty part of what is
    asked for, end of file once the stream is used up, or an error at any time. */
module Pipe {
  import opened Bytes
  import BufferGrowth

  datatype PipeState = ExpectRecHdr | ReadRecHdr | ExpectData | ReadData
  datatype PipeError = PipeOk | PipeEof | PipeErr

  class Stream {
    const bytes: seq<byte>
    var pos: nat

    constructor (bytes: seq<byte>, pos: nat)
      ensures this.bytes == bytes && this.pos == pos
    {
      this.bytes := bytes;
      this.pos := pos;
    }

    predicate Valid()
      reads this
    {
      pos <= |bytes|
    }

    /** read(2): -1 on an error, 0 at the end of the stream, else the number of bytes stored. */
    method Read(buf: array<byte>, off: nat, max: nat) returns (b: int)
      requires Valid() && off + max <= buf.Length && 0 < max
      modifies this, buf
      ensures Valid() && -1 <= b <= max
      ensures b <= 0 ==> pos == old(pos) && buf[..] == old(buf[..])
      ensures b == 0 ==> pos == |bytes|
      ensures b > 0 ==> pos == old(pos) + b
      ensures b > 0 ==> buf[..] == old(buf[..off]) + bytes[old(pos)..pos] + old(buf[off + b..])
    {
      var failed: bool := *;
      if failed {
        return -1;
      }
      if pos == |bytes| {
        return 0;
      }
      var n: nat :| 1 <= n <= max && n <= |bytes| - pos;
      forall i | 0 <= i < n {
        buf[off + i] := bytes[pos + i];
      }
      pos := pos + n;
      b := n;
    }
  }

  /** The word in a buffer, in host order. */
  function WordAt(b: array<byte>, at: nat): (w: u32)
    requires at + 4 <= b.Length
    reads b
    ensures forall n: nat :: at + 4 <= n <= b.Length ==> w == Word(b[..n], at, false)
  {
    Word(b[..], at, false)
  }

  /** cap_pipe_ensure_databuf_size: a buffer at least as large as the block, with the old contents. */
  method EnsureSize(buf: array<byte>, length: u32, width: BufferGrowth.SizeWidth) returns (grown: array<byte>)
    ensures grown == buf || fresh(grown)
    ensures grown.Length == BufferGrowth.EnsuredSize(buf.Length, length, width)
    ensures grown.Length >= length && buf[..] <= grown[..]
  {
    BufferGrowth.EnsuredSizeSuffices(buf.Length, length, width);
    grown := buf;
    if length > buf.Length {
      grown := new byte[BufferGrowth.Grown(length, width)];
      forall i | 0 <= i < buf.Length {
        grown[i] := buf[i];
      }
    }
  }
}
