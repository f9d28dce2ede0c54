/** The pcapng block stream, section 3.1 and 4.1 of draft-ietf-opsawg-pcapng, as a whole-stream parser. */
module PcapngFormat {
  import opened Bytes

  const BLOCK_TYPE_SHB: u32 := 0x0A0D0D0A
  const BLOCK_TYPE_IDB: u32 := 0x00000001
  const BLOCK_TYPE_PB: u32 := 0x00000002
  const BLOCK_TYPE_SPB: u32 := 0x00000003
  const BLOCK_TYPE_ISB: u32 := 0x00000005
  const BLOCK_TYPE_EPB: u32 := 0x00000006
  const BLOCK_TYPE_SYSTEMD_JOURNAL_EXPORT: u32 := 0x00000009
  const BLOCK_TYPE_SYSDIG_EVENT: u32 := 0x00000204
  const BLOCK_TYPE_SYSDIG_EVENT_V2: u32 := 0x00000216
  const BLOCK_TYPE_SYSDIG_EVENT_V2_LARGE: u32 := 0x00000221
  const BLOCK_TYPE_CB_COPY: u32 := 0x00000BAD
  const BLOCK_TYPE_CB_NO_COPY: u32 := 0x40000BAD

  const PCAPNG_MAGIC: u32 := 0x1A2B3C4D
  const PCAPNG_SWAPPED_MAGIC: u32 := 0x4D3C2B1A
  const WTAP_MAX_PACKET_SIZE_STANDARD := 262144

  const BLOCK_HEADER_SIZE := 8
  const SHB_FIXED_SIZE := 24

  /** is_data_block: blocks that count as packets. */
  predicate IsDataBlock(btype: u32) {
    btype in {BLOCK_TYPE_PB, BLOCK_TYPE_EPB, BLOCK_TYPE_SPB, BLOCK_TYPE_CB_COPY, BLOCK_TYPE_CB_NO_COPY,
              BLOCK_TYPE_SYSTEMD_JOURNAL_EXPORT, BLOCK_TYPE_SYSDIG_EVENT, BLOCK_TYPE_SYSDIG_EVENT_V2,
              BLOCK_TYPE_SYSDIG_EVENT_V2_LARGE}
  }

  /** A complete block: its type in the reader's terms, and its bytes as they stand in the stream. */
  datatype Block = Block(btype: u32, bytes: seq<byte>)

  /** What a section says about the blocks in it: their byte order, and the longest data block. */
  datatype Section = Section(swapped: bool, maxBlock: nat)

  /** Before the first SHB. */
  const NoSection := Section(false, 0)

  /** What the start of a block says. */
  datatype Header = Short | Malformed | Header(btype: u32, length: u32, section: Section)

  /** The header of the block at the start of s.  An SHB's type reads the same in either order, and its
      magic number gives the order of its length; only passthrough accepts the opposite order. */
  function ReadHeader(passthrough: bool, section: Section, s: seq<byte>): (h: Header)
    ensures h.Header? ==> BLOCK_HEADER_SIZE <= |s| && BLOCK_HEADER_SIZE < h.length && h.length % 4 == 0
    ensures h.Header? && h.btype == BLOCK_TYPE_SHB && Word(s, 0, false) == BLOCK_TYPE_SHB ==> SHB_FIXED_SIZE < h.length
  {
    if |s| < BLOCK_HEADER_SIZE then Short
    else if Word(s, 0, false) == BLOCK_TYPE_SHB then
      if |s| < SHB_FIXED_SIZE then Short
      else
        var magic := Word(s, 8, false);
        var swapped := magic == PCAPNG_SWAPPED_MAGIC;
        var length := Word(s, 4, swapped);
        if magic != PCAPNG_MAGIC && !(swapped && passthrough) then Malformed
        else if length % 4 != 0 || length < 28 then Malformed
        else Header(BLOCK_TYPE_SHB, length, Section(swapped, WTAP_MAX_PACKET_SIZE_STANDARD))
    else
      var btype, length := Word(s, 0, section.swapped), Word(s, 4, section.swapped);
      if length % 4 != 0 || (IsDataBlock(btype) && length > section.maxBlock) || length < 12 then Malformed
      else Header(btype, length, section)
  }

  datatype Next = NeedMore | Bad | Got(block: Block, section: Section)

  function NextBlock(passthrough: bool, section: Section, s: seq<byte>): (n: Next)
    ensures n.Got? ==> 0 < |n.block.bytes| <= |s|
  {
    match ReadHeader(passthrough, section, s)
    case Short => NeedMore
    case Malformed => Bad
    case Header(btype, length, section') =>
      if |s| < length then NeedMore else Got(Block(btype, s[..length]), section')
  }

  /** The blocks of a stream, the section it ends in, the incomplete block, and whether that is malformed. */
  datatype Parsed = Parsed(blocks: seq<Block>, section: Section, rest: seq<byte>, bad: bool)

  function Parse(passthrough: bool, section: Section, s: seq<byte>): Parsed
    decreases |s|
  {
    match NextBlock(passthrough, section, s)
    case NeedMore => Parsed([], section, s, false)
    case Bad => Parsed([], section, s, true)
    case Got(b, section') => After(b, Parse(passthrough, section', s[|b.bytes|..]))
  }

  function After(b: Block, tail: Parsed): Parsed {
    tail.(blocks := [b] + tail.blocks)
  }

  function Chain(now: Parsed, later: Parsed): Parsed {
    later.(blocks := now.blocks + later.blocks)
  }

  lemma WordOfPrefix(s: seq<byte>, t: seq<byte>, at: nat, swapped: bool)
    requires s <= t && at + 4 <= |s|
    ensures Word(s, at, swapped) == Word(t, at, swapped)
  {
    assert s[at..at + 4] == t[at..at + 4];
    WordOfSlice(s, t, at, swapped);
  }

  /** A header that can be read does not depend on what follows. */
  lemma HeaderOfPrefix(passthrough: bool, section: Section, s: seq<byte>, t: seq<byte>)
    requires s <= t && !ReadHeader(passthrough, section, s).Short?
    ensures ReadHeader(passthrough, section, t) == ReadHeader(passthrough, section, s)
  {
    hide Word, IsDataBlock;
    WordOfPrefix(s, t, 0, false);
    WordOfPrefix(s, t, 0, section.swapped);
    WordOfPrefix(s, t, 4, section.swapped);
    if Word(s, 0, false) == BLOCK_TYPE_SHB {
      WordOfPrefix(s, t, 8, false);
      WordOfPrefix(s, t, 4, true);
      WordOfPrefix(s, t, 4, false);
    }
  }

  lemma NextOfPrefix(passthrough: bool, section: Section, s: seq<byte>, more: seq<byte>)
    requires NextBlock(passthrough, section, s).Got?
    ensures NextBlock(passthrough, section, s + more) == NextBlock(passthrough, section, s)
  {
    hide ReadHeader;
    HeaderOfPrefix(passthrough, section, s, s + more);
    var n := |NextBlock(passthrough, section, s).block.bytes|;
    assert (s + more)[..n] == s[..n];
  }

  /** Parsing takes one block, or stops. */
  lemma ParseStep(passthrough: bool, section: Section, s: seq<byte>)
    ensures Parse(passthrough, section, s) ==
            match NextBlock(passthrough, section, s)
            case NeedMore => Parsed([], section, s, false)
            case Bad => Parsed([], section, s, true)
            case Got(b, section') => After(b, Parse(passthrough, section', s[|b.bytes|..]))
  {
    hide NextBlock;
  }

  /** Parsing can stop at a block boundary and resume there. */
  lemma {:induction false} ParseResumes(passthrough: bool, section: Section, s: seq<byte>, more: seq<byte>)
    requires !Parse(passthrough, section, s).bad
    ensures var now := Parse(passthrough, section, s);
            Parse(passthrough, section, s + more) == Chain(now, Parse(passthrough, now.section, now.rest + more))
    decreases |s|
  {
    hide NextBlock, Parse;
    var next, now := NextBlock(passthrough, section, s), Parse(passthrough, section, s);
    var later := Parse(passthrough, now.section, now.rest + more);
    ParseStep(passthrough, section, s);
    if next.Got? {
      var t := s[|next.block.bytes|..];
      var rest := Parse(passthrough, next.section, t);
      NextOfPrefix(passthrough, section, s, more);
      ParseStep(passthrough, section, s + more);
      assert (s + more)[|next.block.bytes|..] == t + more;
      ParseResumes(passthrough, next.section, t, more);
      assert [next.block] + (rest.blocks + later.blocks) == [next.block] + rest.blocks + later.blocks;
    } else {
      assert [] + later.blocks == later.blocks;
    }
  }

  /** The bytes of a list of blocks, one after another. */
  function Flatten(blocks: seq<Block>): seq<byte> {
    if blocks == [] then [] else blocks[0].bytes + Flatten(blocks[1..])
  }

  /** Parsing loses no bytes: the blocks and the incomplete rest are the stream. */
  lemma {:induction false} ParseKeepsBytes(passthrough: bool, section: Section, s: seq<byte>)
    ensures var p := Parse(passthrough, section, s); Flatten(p.blocks) + p.rest == s
    decreases |s|
  {
    hide ReadHeader;
    var next := NextBlock(passthrough, section, s);
    if next.Got? {
      var b, t := next.block, s[|next.block.bytes|..];
      ParseKeepsBytes(passthrough, next.section, t);
      var rest := Parse(passthrough, next.section, t);
      assert Parse(passthrough, section, s).blocks == [b] + rest.blocks;
      assert ([b] + rest.blocks)[1..] == rest.blocks;
      assert b.bytes + t == s;
    }
  }

  // ---- What the reader of a stream learns, in order

  /** The byte order an SHB announces. */
  predicate ShbSwapped(bytes: seq<byte>)
    requires |bytes| >= 12
  {
    Word(bytes, 8, false) == PCAPNG_SWAPPED_MAGIC
  }

  /** The header of an SHB is read ahead of its body, and sets the reader's byte order; a block is delivered
      when it is complete. */
  datatype Happening = SawShb(swapped: bool) | GotBlock(block: Block)

  function HappeningsOf(blocks: seq<Block>): seq<Happening> {
    if blocks == [] then []
    else
      var before, b := HappeningsOf(blocks[..|blocks| - 1]), blocks[|blocks| - 1];
      before + if b.btype == BLOCK_TYPE_SHB && |b.bytes| >= 12 then [SawShb(ShbSwapped(b.bytes)), GotBlock(b)]
               else [GotBlock(b)]
  }

  /** The fixed part of an SHB, in a byte order that is accepted. */
  predicate ShowsOrder(passthrough: bool, s: seq<byte>) {
    && |s| >= SHB_FIXED_SIZE && Word(s, 0, false) == BLOCK_TYPE_SHB
    && (Word(s, 8, false) == PCAPNG_MAGIC || (passthrough && ShbSwapped(s)))
  }

  /** What happens in the reading of a stream; at its end there may be an SHB without its body. */
  function Happenings(passthrough: bool, s: seq<byte>): seq<Happening> {
    var p := Parse(passthrough, NoSection, s);
    HappeningsOf(p.blocks) + if ShowsOrder(passthrough, p.rest) then [SawShb(ShbSwapped(p.rest))] else []
  }

  /** The reader's byte order flag. */
  function FlagAfter(hs: seq<Happening>): bool {
    if hs == [] then false
    else if hs[|hs| - 1].SawShb? then hs[|hs| - 1].swapped else FlagAfter(hs[..|hs| - 1])
  }

  lemma FlagSnoc(hs: seq<Happening>, h: Happening)
    ensures FlagAfter(hs + [h]) == if h.SawShb? then h.swapped else FlagAfter(hs)
  {
    assert (hs + [h])[..|hs|] == hs;
  }

  lemma HappeningsSnoc(blocks: seq<Block>, b: Block)
    ensures HappeningsOf(blocks + [b]) == HappeningsOf(blocks)
            + if b.btype == BLOCK_TYPE_SHB && |b.bytes| >= 12 then [SawShb(ShbSwapped(b.bytes)), GotBlock(b)]
              else [GotBlock(b)]
  {
    hide Word;
    assert (blocks + [b])[..|blocks|] == blocks;
  }

  lemma {:induction false} HappeningsPrefix(a: seq<Block>, b: seq<Block>)
    requires a <= b
    ensures HappeningsOf(a) <= HappeningsOf(b)
    decreases |b|
  {
    hide Word;
    if |a| < |b| {
      HappeningsPrefix(a, b[..|b| - 1]);
    } else {
      assert a == b;
    }
  }

  lemma SwappedShbType(s: seq<byte>)
    requires |s| >= 4
    ensures Word(s, 0, true) == BLOCK_TYPE_SHB <==> Word(s, 0, false) == BLOCK_TYPE_SHB
  {
    hide Word, Swap;
    SwapReads(s, 0);
    ShbIsPalindrome();
    if Word(s, 0, true) == BLOCK_TYPE_SHB {
      SwapInjective(Word(s, 0, false), BLOCK_TYPE_SHB);
    }
  }

  lemma {:induction false} ShbIsPalindrome()
    ensures Swap(BLOCK_TYPE_SHB) == BLOCK_TYPE_SHB
  {
    SplitJoins(0x0A, 0x0D, 0x0D, 0x0A);
  }

  /** A header that is accepted as an SHB's shows the byte order of the section it starts. */
  lemma ShbHeaderOrder(passthrough: bool, section: Section, s: seq<byte>)
    requires var h := ReadHeader(passthrough, section, s); h.Header? && h.btype == BLOCK_TYPE_SHB
    ensures ShowsOrder(passthrough, s) && ReadHeader(passthrough, section, s).section.swapped == ShbSwapped(s)
  {
    hide Word, IsDataBlock;
    SwappedShbType(s);
  }

  /** If the next block shows the order of an SHB, that is what happens next. */
  lemma NextHappening(passthrough: bool, section: Section, s: seq<byte>)
    requires ShowsOrder(passthrough, s)
    ensures var n := NextBlock(passthrough, section, s);
            n.Got? ==> n.block.btype == BLOCK_TYPE_SHB && |n.block.bytes| >= 12
                       && ShbSwapped(n.block.bytes) == ShbSwapped(s)
  {
    hide Word, IsDataBlock;
    var n := NextBlock(passthrough, section, s);
    if n.Got? {
      WordOfPrefix(n.block.bytes, s, 8, false);
    }
  }

  /** Stopping between two blocks of a stream, ahead or not ahead of a body, one has seen the first of what
      happens in it. */
  lemma SeenIsPrefix(passthrough: bool, s: seq<byte>, start: nat, ahead: bool)
    requires start <= |s|
    requires var done := Parse(passthrough, NoSection, s[..start]); !done.bad && done.rest == []
    requires ahead ==> ShowsOrder(passthrough, s[start..])
    ensures var blocks := Parse(passthrough, NoSection, s[..start]).blocks;
            && blocks <= Parse(passthrough, NoSection, s).blocks
            && HappeningsOf(blocks) + (if ahead then [SawShb(ShbSwapped(s[start..]))] else []) <= Happenings(passthrough, s)
  {
    hide Parse, Word, HappeningsOf, NextBlock;
    var done, rest := Parse(passthrough, NoSection, s[..start]), s[start..];
    assert s == s[..start] + rest && [] + rest == rest;
    ParseResumes(passthrough, NoSection, s[..start], rest);
    var all, later := Parse(passthrough, NoSection, s), Parse(passthrough, done.section, rest);
    assert all == Chain(done, later);
    HappeningsPrefix(done.blocks, all.blocks);
    if ahead {
      AheadOf(passthrough, done.section, rest);
      if later.blocks == [] {
        assert all.blocks == done.blocks;
      } else {
        var first := done.blocks + [later.blocks[0]];
        HappeningsSnoc(done.blocks, later.blocks[0]);
        HappeningsPrefix(first, all.blocks);
      }
    } else {
      assert HappeningsOf(done.blocks) + [] == HappeningsOf(done.blocks);
    }
  }

  lemma AheadOf(passthrough: bool, section: Section, s: seq<byte>)
    requires ShowsOrder(passthrough, s)
    ensures var p := Parse(passthrough, section, s);
            if p.blocks == [] then p.rest == s
            else p.blocks[0].btype == BLOCK_TYPE_SHB && |p.blocks[0].bytes| >= 12
                 && ShbSwapped(p.blocks[0].bytes) == ShbSwapped(s)
  {
    hide Word, NextBlock;
    NextHappening(passthrough, section, s);
  }
}
