/** Streams as a writer of pcapng makes them, and the proof that they are read back: block by block, in either
    byte order, and through the buffered reader whatever chunks its reads return. */
module PcapngWriter {
  import opened Bytes
  import opened PcapngFormat
  import Pipe
  import PcapngPipe
  import BufferGrowth

  /** The byte order in which a section is written. */
  predicate OrderOf(bytes: seq<byte>, swapped: bool) {
    |bytes| >= 12 && Word(bytes, 8, swapped) == PCAPNG_MAGIC
  }

  /** A block as sections 3.1 and 4.1 of draft-ietf-opsawg-pcapng have it, in a section that the reader accepts:
      its type and its length are in the order of the section, which an SHB sets with its magic number. */
  ghost predicate AsWritten(passthrough: bool, section: Section, b: Block) {
    && 12 <= |b.bytes| < 0x1_0000_0000 && |b.bytes| % 4 == 0
    && if b.btype == BLOCK_TYPE_SHB then
         && |b.bytes| >= 28 && Word(b.bytes, 0, false) == BLOCK_TYPE_SHB
         && exists swapped :: OrderOf(b.bytes, swapped) && (swapped ==> passthrough) && Word(b.bytes, 4, swapped) == |b.bytes|
       else
         && b.btype == Word(b.bytes, 0, section.swapped) && Word(b.bytes, 4, section.swapped) == |b.bytes|
         && (IsDataBlock(b.btype) ==> |b.bytes| <= section.maxBlock)
  }

  /** The section that the next block is in. */
  function SectionAfter(section: Section, b: Block): Section {
    if b.btype == BLOCK_TYPE_SHB then Section(OrderOf(b.bytes, true), WTAP_MAX_PACKET_SIZE_STANDARD) else section
  }

  ghost predicate AllWritten(passthrough: bool, section: Section, blocks: seq<Block>)
    decreases |blocks|
  {
    blocks != [] ==>
      AsWritten(passthrough, section, blocks[0])
      && AllWritten(passthrough, SectionAfter(section, blocks[0]), blocks[1..])
  }

  function LastSection(section: Section, blocks: seq<Block>): Section
    decreases |blocks|
  {
    if blocks == [] then section else LastSection(SectionAfter(section, blocks[0]), blocks[1..])
  }

  /** The magic number in the other order. */
  lemma {:induction false} MagicOrders(bytes: seq<byte>)
    requires |bytes| >= 12
    ensures OrderOf(bytes, true) <==> Word(bytes, 8, false) == PCAPNG_SWAPPED_MAGIC
    ensures OrderOf(bytes, false) <==> Word(bytes, 8, false) == PCAPNG_MAGIC
    ensures !(OrderOf(bytes, true) && OrderOf(bytes, false))
  {
    hide Word, Swap;
    SwapReads(bytes, 8);
    MagicSwaps();
    SwapTwice(Word(bytes, 8, false));
    SwapTwice(PCAPNG_MAGIC);
  }

  lemma {:induction false} MagicSwaps()
    ensures Swap(PCAPNG_MAGIC) == PCAPNG_SWAPPED_MAGIC
  {
    SplitJoins(0x4D, 0x3C, 0x2B, 0x1A);
  }

  /** The next block is b exactly when b is as written. */
  lemma {:induction false} NextIff(passthrough: bool, section: Section, b: Block, tail: seq<byte>)
    requires b.bytes != []
    ensures var n := NextBlock(passthrough, section, b.bytes + tail);
            n.Got? && n.block == b <==> AsWritten(passthrough, section, b)
    ensures var n := NextBlock(passthrough, section, b.bytes + tail);
            AsWritten(passthrough, section, b) ==> n.section == SectionAfter(section, b)
  {
    hide ReadHeader;
    var s := b.bytes + tail;
    var h := ReadHeader(passthrough, section, s);
    if |b.bytes| >= 12 {
      HeaderIff(passthrough, section, b, s);
    }
    if h.Header? && h.length <= |s| && h.length == |b.bytes| {
      assert s[..h.length] == b.bytes;
    }
  }

  lemma {:induction false} HeaderIff(passthrough: bool, section: Section, b: Block, s: seq<byte>)
    requires |b.bytes| >= 12 && b.bytes <= s
    ensures var h := ReadHeader(passthrough, section, s);
            h.Header? && h.btype == b.btype && h.length == |b.bytes| <==> AsWritten(passthrough, section, b)
    ensures var h := ReadHeader(passthrough, section, s);
            AsWritten(passthrough, section, b) ==> h.section == SectionAfter(section, b)
  {
    hide Word, IsDataBlock;
    WordOfPrefix(b.bytes, s, 0, false);
    WordOfPrefix(b.bytes, s, 0, section.swapped);
    WordOfPrefix(b.bytes, s, 4, section.swapped);
    WordOfPrefix(b.bytes, s, 4, false);
    WordOfPrefix(b.bytes, s, 4, true);
    WordOfPrefix(b.bytes, s, 8, false);
    MagicOrders(b.bytes);
    SwappedShbType(b.bytes);
    if Word(s, 0, false) == BLOCK_TYPE_SHB && |s| >= SHB_FIXED_SIZE {
      assert OrderOf(b.bytes, Word(s, 8, false) == PCAPNG_SWAPPED_MAGIC)
             <==> Word(s, 8, false) == PCAPNG_MAGIC || Word(s, 8, false) == PCAPNG_SWAPPED_MAGIC;
    }
  }

  /** A list of blocks is read back from its bytes if and only if each of them is as written. */
  lemma {:induction false} ParseReadsBackIff(passthrough: bool, section: Section, blocks: seq<Block>)
    requires forall k :: 0 <= k < |blocks| ==> blocks[k].bytes != []
    ensures Parse(passthrough, section, Flatten(blocks)).blocks == blocks <==> AllWritten(passthrough, section, blocks)
    ensures AllWritten(passthrough, section, blocks) ==>
              Parse(passthrough, section, Flatten(blocks))
              == Parsed(blocks, LastSection(section, blocks), [], false)
    decreases |blocks|
  {
    hide NextBlock, AsWritten, SectionAfter;
    if blocks == [] {
      PcapngPipe.NothingFollows(passthrough, section);
    } else {
      var b, tail := blocks[0], Flatten(blocks[1..]);
      var s := b.bytes + tail;
      assert Flatten(blocks) == s;
      NextIff(passthrough, section, b, tail);
      var n := NextBlock(passthrough, section, s);
      if n.Got? {
        var rest := Parse(passthrough, n.section, s[|n.block.bytes|..]);
        assert Parse(passthrough, section, s) == After(n.block, rest);
        assert Parse(passthrough, section, s).blocks == [n.block] + rest.blocks;
        assert ([n.block] + rest.blocks)[1..] == rest.blocks && ([n.block] + rest.blocks)[0] == n.block;
        assert s[|b.bytes|..] == tail;
      }
      ParseReadsBackIff(passthrough, SectionAfter(section, b), blocks[1..]);
      assert blocks == [b] + blocks[1..];
    }
  }

  // ---- Writing blocks

  /** A block with its type, its length and, again, its length around the body. */
  function EncodeBlock(swapped: bool, btype: u32, body: seq<byte>): (r: seq<byte>)
    requires |body| < 0xFFFF_FFF0
    ensures |r| == 12 + |body|
  {
    Encode(btype, swapped) + Encode(12 + |body|, swapped) + body + Encode(12 + |body|, swapped)
  }

  /** An SHB of a version, a section length and options. */
  function EncodeShb(swapped: bool, body: seq<byte>): seq<byte>
    requires |body| < 0xFFFF_FF00
  {
    EncodeBlock(swapped, BLOCK_TYPE_SHB, Encode(PCAPNG_MAGIC, swapped) + body)
  }

  lemma {:induction false} EncodedWords(swapped: bool, btype: u32, body: seq<byte>)
    requires |body| < 0xFFFF_FFF0
    ensures var r := EncodeBlock(swapped, btype, body);
            Word(r, 0, swapped) == btype && Word(r, 4, swapped) == |r| == Word(r, |r| - 4, swapped)
  {
    hide Encode, Word;
    var t, n, r := Encode(btype, swapped), Encode(12 + |body|, swapped), EncodeBlock(swapped, btype, body);
    assert r == [] + t + (n + body + n);
    WordAfter([], btype, n + body + n, swapped);
    assert r == t + n + (body + n);
    WordAfter(t, 12 + |body|, body + n, swapped);
    assert r == t + n + body + n + [];
    WordAfter(t + n + body, 12 + |body|, [], swapped);
  }

  /** A block written in the order of its section is as written, unless it is a data block too long to be
      accepted, or ends off a word. */
  lemma {:induction false} EncodedIsWritten(passthrough: bool, section: Section, btype: u32, body: seq<byte>)
    requires |body| < 0xFFFF_FFF0 && btype != BLOCK_TYPE_SHB
    ensures AsWritten(passthrough, section, Block(btype, EncodeBlock(section.swapped, btype, body))) <==>
            |body| % 4 == 0 && (IsDataBlock(btype) ==> 12 + |body| <= section.maxBlock)
  {
    hide Encode, Word, IsDataBlock;
    EncodedWords(section.swapped, btype, body);
  }

  /** An SHB is as written in host order, and for passthrough in either order. */
  lemma {:induction false} EncodedShbIsWritten(passthrough: bool, section: Section, swapped: bool, body: seq<byte>)
    requires |body| < 0xFFFF_FF00
    ensures var b := Block(BLOCK_TYPE_SHB, EncodeShb(swapped, body));
            && (AsWritten(passthrough, section, b) <==> |body| % 4 == 0 && |body| >= 12 && (swapped ==> passthrough))
            && SectionAfter(section, b).swapped == swapped
  {
    hide Encode, Word, Swap;
    var m := Encode(PCAPNG_MAGIC, swapped);
    var r := EncodeShb(swapped, body);
    EncodedWords(swapped, BLOCK_TYPE_SHB, m + body);
    var t, n := Encode(BLOCK_TYPE_SHB, swapped), Encode(12 + |m + body|, swapped);
    assert r == (t + n) + m + (body + n);
    WordAfter(t + n, PCAPNG_MAGIC, body + n, swapped);
    MagicOrders(r);
    SwappedShbType(r);
    assert OrderOf(r, swapped);
  }

  // ---- Through the reader

  /** A stream that starts with an SHB, as cap_pipe_open recognises it. */
  lemma {:induction false} StartsWithShb(blocks: seq<Block>)
    requires blocks != [] && blocks[0].btype == BLOCK_TYPE_SHB && AsWritten(true, NoSection, blocks[0])
    ensures |Flatten(blocks)| >= 4 && Flatten(blocks)[..4] == Encode(BLOCK_TYPE_SHB, false)
  {
    hide Encode;
    var s := blocks[0].bytes;
    SplitJoins(s[0], s[1], s[2], s[3]);
    assert Flatten(blocks)[..4] == [s[0], s[1], s[2], s[3]];
  }

  /** What every reader accepts, passthrough accepts. */
  lemma MoreIsAccepted(passthrough: bool, section: Section, b: Block)
    requires AsWritten(passthrough, section, b)
    ensures AsWritten(true, section, b)
  {
    hide Word, IsDataBlock;
  }

  lemma {:induction false} WrittenBytes(passthrough: bool, section: Section, blocks: seq<Block>)
    requires AllWritten(passthrough, section, blocks)
    ensures forall k :: 0 <= k < |blocks| ==> blocks[k].bytes != []
    decreases |blocks|
  {
    hide Word, IsDataBlock;
    if blocks != [] {
      WrittenBytes(passthrough, SectionAfter(section, blocks[0]), blocks[1..]);
      assert forall k :: 0 < k < |blocks| ==> blocks[k] == blocks[1..][k - 1];
    }
  }

  /** The buffered reader delivers exactly the blocks that were written to the pipe, in order, up to where a read
      fails. */
  method DeliverAll(passthrough: bool, blocks: seq<Block>, width: BufferGrowth.SizeWidth)
    returns (out: seq<Block>, ghost failed: bool)
    requires blocks != [] && blocks[0].btype == BLOCK_TYPE_SHB && AllWritten(passthrough, NoSection, blocks)
    ensures out <= blocks
    ensures !failed ==> out == blocks
  {
    hide Parse, AsWritten, AllWritten, Flatten, Encode;
    assert AsWritten(passthrough, NoSection, blocks[0]) by { FirstWritten(passthrough, NoSection, blocks); }
    WrittenBytes(passthrough, NoSection, blocks);
    ParseReadsBackIff(passthrough, NoSection, blocks);
    MoreIsAccepted(passthrough, NoSection, blocks[0]);
    StartsWithShb(blocks);
    var pipe := new Pipe.Stream(Flatten(blocks), 4);
    var source := new PcapngPipe.Source(pipe, passthrough, width);
    var _ := source.Open();
    source.Drive();
    out, failed := source.out, source.readFailed;
  }

  lemma FirstWritten(passthrough: bool, section: Section, blocks: seq<Block>)
    requires AllWritten(passthrough, section, blocks) && blocks != []
    ensures AsWritten(passthrough, section, blocks[0])
  {
    hide AsWritten;
  }
}
