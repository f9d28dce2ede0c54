# Verified model of dumpcap's capture engine

This project models the parts of Wireshark that move captured packets from their sources into capture
files, and proves what those parts are for. The core is `dumpcap.c`: the pipe readers, the multiplexer that
merges pcap and pcapng sources into one output, the bounded queue between reader threads and the writer,
and the protocol by which files are rotated, the capture is stopped and the parent process is told. Two
smaller cores are the record loop of `capinfos.c` and the file sets of `fileset.c`.

`dafny verify dfyconfig.toml` checks everything.

## How it is organised

- `Bytes`, `BufferGrowth`: words in either byte order; the bit trick that rounds a buffer size up to a power
  of two.
- `PcapFormat`, `PcapngFormat`: a whole-stream parser of pcap records (section 5 of draft-ietf-opsawg-pcap)
  and of pcapng blocks (sections 3.1 and 4.1 of draft-ietf-opsawg-pcapng), and an encoder of pcap records.
- `PcapngWriter`: pcapng streams as a writer makes them, in either byte order, and their round trip through the
  parser and through the buffered reader.
- `Pipe`, `PcapPipe`, `PcapngPipe`: the resumable readers, as classes over a buffer that is filled in place
  by reads of any size. `Valid()` ties what they have emitted to the parse of what they have read, and
  every array access and subtraction in them is proved to be in range.
- `Engine`: every callback of the capture loop as a transition on values; a run is a sequence of events.
  What the outside world decides (whether a write or a switch succeeds, which timers have expired, what a
  source delivers, when somebody stops the capture) is a parameter of the event.
- `CaptureLoop`, `QueueLoop`: the same code as it is written, as classes with loops, in-place patching of
  the block buffer and a queue with counters, each method proved to be the transition of `Engine` or
  `Queue` that specifies it.
- `Meaning`, `MeaningKept`, `References`: an independent reader of pcapng files, which gives every block the
  interface it refers to, and the proof that reading the output gives what reading the inputs gives.
- `Reports`, `Announcements`, `FileSizes`, `Conservation`: limits, messages to the parent, file sizes, and where every
  delivery goes, over whole runs.
- `FileStarts`, `Fates`, `Stopping`, `SmoothRuns`: that the engine does its work. When file starts and switches
  succeed; which fate an item has, from what a caller can check before; when a capture stops and when it changes
  files; and what whole runs do in which nothing goes wrong.
- `OwnBlocks`: the bytes dumpcap writes for a packet, and a pcap capture down to the bytes of its files.
- `Queue`, `Threads`: the threaded capture as a system of interleaved steps, and theorems over all
  interleavings.
- `Passthrough`, `Rotation`: from the bytes of a single pcapng pipe to the bytes of the output, and, with many
  files, to what the files mean; what the pipe reader has learnt when a file starts.
- `Capinfos`, `FileSet`.

Some results say that the code does not quite do what is said of it, and when it does:

- `Rotation.ReplaysAreWholeIff`, `Rotation.ARunGoesAstray`: a new passthrough file starts with the saved SHB,
  written with a length that is read in the byte order the pipe reader saw last (dumpcap.c:3533-3541). That is
  the whole SHB, in every file of a run, if and only if no file is started in a gap between that byte order and
  the saved section's; while capturing, a gap is the time between the header and the body of an SHB of the
  other byte order, and only timers start files in it.
- `PcapFormat.ParseReadsBackIff`, `PcapFormat.AmbiguousVersion23`: which records, of version 2.3 above all, are
  read back (dumpcap.c:1660-1672).
- `Capinfos.DocumentedOrderIffForAll`, `Capinfos.DocumentedOrderFails`: when the order that capinfos reports is
  the documented one (capinfos.c:163-171).
- `FileSet.SuffixIsLost`: the suffix by which file sets are told apart never carries the file name extension
  (fileset.c:120-137).
- `Announcements.AnnouncedExactly`: passthrough files that only replay an earlier SHB are never announced to the
  parent (dumpcap.c:5023-5029, 6438-6443).

## Model

| member | source | states |
|---|---|---|
| BufferGrowth.SmearFills | dumpcap.c:1626-1632 | the or-shift cascade fills a 32-bit value with ones below its highest bit |
| BufferGrowth.GrownIsLeastPowerOfTwo | dumpcap.c:1603-1632 | with 64-bit sizes the new size is the least power of two not below the request, for every 32-bit request |
| BufferGrowth.GrownIn32Bits | dumpcap.c:1629-1638 | with 32-bit sizes it is the same below 2^31 and the wrap to 0 is repaired to UINT32_MAX, which suffices |
| BufferGrowth.EnsuredSizeSuffices | dumpcap.c:1600-1642 | the buffer never shrinks and holds the block |
| Pipe.EnsureSize | dumpcap.c:1600-1642 | the grown buffer keeps its contents and has room for the block |
| Pipe.Stream.Read | dumpcap.c:1827-1841 | a read stores a non-empty part of the stream, or reports the end or an error and stores nothing |
| PcapFormat.ParseResumes | dumpcap.c:2822-3029 | parsing can stop anywhere in a stream and resume from the incomplete record |
| PcapFormat.HeaderReadsBack | dumpcap.c:1646-1673 | a header, in either byte order and either layout of its lengths, is decoded to what was written if and only if the version tells the layout apart |
| PcapFormat.ParseReadsBackIff | dumpcap.c:1646-1673 | a list of packets, encoded in either byte order with a layout of its own for each record, is read back if and only if every record's layout can be told apart |
| PcapFormat.ParseReadsBack | dumpcap.c:1646-1673 | the parser reads back every list of well-formed packets whose layouts fit the version, mixed or not |
| PcapFormat.AmbiguousVersion23 | dumpcap.c:1660-1672 | a version 2.3 record with captured length above original length is never read back |
| PcapPipe.Source.constructor | dumpcap.c:3295-3300 | the reader starts at a record boundary with nothing emitted |
| PcapPipe.Source.AdjustHeader | dumpcap.c:1646-1673 | the header words in host order become the header the record means |
| PcapPipe.Source.Dispatch | dumpcap.c:2822-3029 | one dispatch keeps "emitted packets and buffered bytes are the parse of the bytes read"; 1 means one packet more, 0 means progress without one, -1 means the end or an error |
| PcapPipe.Source.DispatchHeader | dumpcap.c:2840-2986 | the header states keep the invariant, for reads of any size |
| PcapPipe.Source.HeaderRead | dumpcap.c:2952-3008 | a complete header is accepted, refused as too long, or completes an empty record, as the parser decides |
| PcapPipe.Source.DispatchData | dumpcap.c:2890-3012 | the data states keep the invariant; a complete record is emitted once |
| PcapPipe.Source.Drive | dumpcap.c:2822-3029 | fed any chunks until the pipe ends, the machine emits exactly the packets of the whole-stream parse |
| PcapPipe.ParseExtends | dumpcap.c:2822-3029 | the packets of a longer prefix of the stream extend those of a shorter one |
| PcapPipe.DeliverAll | dumpcap.c:2822-3029 | whatever list of packets was written to the pipe, in whatever byte order, layouts and chunks, is delivered as it was, unless a read fails, and up to where it fails |
| PcapngFormat.ParseResumes | dumpcap.c:3032-3251 | parsing can stop at a block boundary and resume there in the section it was in |
| PcapngFormat.ParseKeepsBytes | dumpcap.c:3032-3251 | the blocks and the incomplete rest are the stream, byte for byte |
| PcapngPipe.Source.constructor | dumpcap.c:2235-2350 | the reader starts when the first word of the stream was read and is that of an SHB |
| PcapngPipe.Source.Open | dumpcap.c:2750-2815 | reads the first SHB, after which the reader is in its section, or fails because no block can be parsed |
| PcapngPipe.Source.EnsureDatabufSize | dumpcap.c:1600-1642 | the buffer holds the block and keeps the bytes read |
| PcapngPipe.Source.ReadDataBytes | dumpcap.c:1800-1850 | reads until the bytes asked for are buffered, whatever the chunks, without leaving the buffer |
| PcapngPipe.Source.ReadShb | dumpcap.c:2514-2543 | reads the fixed part of an SHB, or shows that the stream ends within it |
| PcapngPipe.Source.TakeOrder | dumpcap.c:2543-2590 | the magic number decides the byte order flag and how the copied length is read; the opposite order is accepted in passthrough only; the flag is set ahead of the body |
| PcapngPipe.Source.ShbRead | dumpcap.c:2543-2615 | an SHB is refused exactly where the parser refuses it, and otherwise announces a block that fits the buffer |
| PcapngPipe.Source.Dispatch | dumpcap.c:3032-3251 | one dispatch keeps "emitted blocks are the parse of the stream up to the current block" and adds at most one block |
| PcapngPipe.Source.DispatchHeader | dumpcap.c:3047-3175 | the header states keep the invariant |
| PcapngPipe.Source.HeaderRead | dumpcap.c:3177-3213 | type and length are taken in the byte order of the section, and what is refused is what the parser refuses |
| PcapngPipe.Source.DispatchData | dumpcap.c:3096-3230 | the data states keep the invariant; a complete block is handed on once |
| PcapngPipe.Source.Emit | dumpcap.c:3215-3230 | the block handed on has the bytes of the stream, unchanged, and its section's type |
| PcapngPipe.Source.Drive | dumpcap.c:3032-3251 | the blocks are, byte for byte, a prefix of the stream, and a prefix of the blocks of the whole-stream parse, all of them unless a read fails; the byte order flag is that of the last SHB header seen, and what is seen and delivered comes in the order of the stream |
| PcapngWriter.NextIff | dumpcap.c:3156-3230 | a block at the start of a stream is taken for what it is if and only if type and length are written in the order of its section, the length is its length, a data block is not too long, and an SHB's byte order is accepted |
| PcapngWriter.ParseReadsBackIff | dumpcap.c:3032-3251 | a list of blocks is read back from its bytes if and only if every block is written that way, in the section that the SHBs before it set |
| PcapngWriter.EncodedIsWritten | dumpcap.c:3177-3213 | what an encoder puts between two lengths is such a block exactly if it ends on a word and, for a data block, is not too long |
| PcapngWriter.EncodedShbIsWritten | dumpcap.c:2543-2615 | an encoded SHB is one exactly if it has room for its fixed part, ends on a word, and is in host order or passed through |
| PcapngWriter.DeliverAll | dumpcap.c:3032-3251 | whatever blocks were written to the pipe, in whatever byte orders and chunks, are delivered as they were, unless a read fails, and up to where it fails |
| PcapngFormat.SeenIsPrefix | dumpcap.c:3156-3230 | wherever the reader stops, ahead of a body or not, it has seen a first part of what happens in the stream |
| PcapngPipe.BlockDone | dumpcap.c:3215-3230 | a complete block after a block boundary makes the next boundary |
| MeaningKept.OneIdbPerEntry | dumpcap.c:3563-3618 | the replay writes one IDB per saved entry, in index order |
| MeaningKept.ReplayReads | dumpcap.c:3507-3624 | a replay is read as a section whose interfaces are those of the saved entries |
| MeaningKept.StartPrefixSaysNothing | dumpcap.c:3507-3655 | every part of a file start that a failure leaves behind is read as no packet |
| MeaningKept.SwitchShape | dumpcap.c:4153-4201 | a switch adds one file that starts with the replay, or stops the capture, and changes nothing about the sources |
| MeaningKept.SwitchKeeps | dumpcap.c:4153-4201 | a switch keeps the invariant that links sources, saved IDBs and current file |
| MeaningKept.MuxShbLinks | dumpcap.c:2646-2667 | an SHB ends the section of its own source, and no other source loses a slot |
| MeaningKept.MuxIdbLinks | dumpcap.c:2669-2681 | an IDB gets the next slot, which is its position in the current file |
| MeaningKept.MuxBlockKeeps | dumpcap.c:2682-2704 | a multiplexed block says in the file what it says at its source |
| MeaningKept.PassBlockKeeps | dumpcap.c:2627-2642 | a passed-through block is copied unchanged and the section of the file follows that of the source |
| MeaningKept.WritePcapngKeeps | dumpcap.c:4970-5031 | writing a pcapng block keeps the invariant, whether it is written, skipped, refused or fails |
| MeaningKept.WritePacketKeeps | dumpcap.c:5034-5110 | writing a pcap packet keeps the invariant |
| MeaningKept.TickKeeps | dumpcap.c:4541-4600 | the timed part of the loop keeps the invariant |
| MeaningKept.StepKeeps | dumpcap.c:4470-4600 | every step of the engine keeps the invariant |
| MeaningKept.MeaningPreserved | dumpcap.c:2616-2710 | over every run, with any sources, section restarts, file switches and failures: reading the output files gives the blocks and packets of the sources in the order the writer saw them, each with the interface its own source gave it |
| References.RewrittenReference | dumpcap.c:2682-2704 | in every reachable multiplexed state an EPB or ISB is passed on exactly if its section has the interface, and then with the ID of that very IDB in the current file and nothing else changed |
| References.UnmappedIsNotWritten | dumpcap.c:4983-4992 | a block with an unmapped ID is never written: the process ends there |
| References.PacketReference | dumpcap.c:3365-3376 | the packet of a pcap source refers to the source's own IDB in every file |
| References.MapsAreSound | dumpcap.c:2652-2681 | the maps are strictly increasing, pairwise disjoint, in range, lead to live slots of their own source and avoid the slots of pcap sources |
| References.OwnSlots | dumpcap.c:2655-2659 | every mapped slot belongs to its source, so that the ownership assertion never fails |
| References.SlotsAreNotReused | dumpcap.c:2652-2681 | a step keeps every saved entry or marks it deleted, and never uses a slot again |
| References.FileStart | dumpcap.c:3563-3618 | a multiplexed file starts with dumpcap's SHB and exactly one IDB per saved entry in index order: dummy, saved bytes or generated |
| References.OneIdbPerSavedEntry | dumpcap.c:3563-3618 | at every moment of the capture the current file has as many IDBs as there are saved entries |
| References.PassthroughInStep | dumpcap.c:2627-2642 | passthrough: the map is the identity, and current file, saved blocks and source list the same IDBs in the same byte order |
| References.ReplayIsWholeIff | dumpcap.c:3533-3541 | a saved SHB is written in full if and only if the flag is the byte order of its section, or its length reads the same both ways |
| Reports.SwitchLedger | dumpcap.c:4153-4201 | a switch reports everything about the old file before it announces the new one |
| Reports.WroteLedger | dumpcap.c:4932-4967 | counting a packet keeps limits, counts and announcements in agreement |
| Reports.StepCounts | dumpcap.c:4470-4600 | every step keeps the ledger, with the packets of each file counted by a reader of the file |
| Reports.CountsAddUp | dumpcap.c:4562-4572 | counts reported plus packets not reported yet are the packets captured and the packets in the files, and the last report completes them |
| Reports.CountsFollowFiles | dumpcap.c:4153-4201 | not in passthrough: the counts sent between two file names sum to the packets of exactly the first of these files |
| Reports.LimitsHold | dumpcap.c:4932-4967 | total packets, packets per file, number of files and so their product stay within the limits in every run |
| Reports.StopIsFinal | dumpcap.c:4975-4981 | once cleared, the go flag is never set again and nothing more is written from the sources |
| Announcements.AnnouncedExactly | dumpcap.c:5023-5029 | passthrough: a file is announced if and only if an SHB delivered by the source took effect while it was the current file |
| Announcements.AnnouncedWithHeader | dumpcap.c:5023-5029 | passthrough: files are announced in order, at most once, and have a section header |
| Announcements.SwitchDefers | dumpcap.c:6434-6446 | a switch in passthrough puts the announcement of the new file off, and forgets one that was never made |
| FileSizes.SizesBounded | dumpcap.c:4960-4966 | under a size limit of 1000*S every file without its last block is below the limit, or no longer than its start |
| FileSizes.SwitchedWhenFull | dumpcap.c:4960-4966 | when only the size causes switches, every file but the last has reached the limit |
| FileStarts.CanCopyIff | writecap/pcapio.c:280-306 | a saved or delivered block can be written exactly if it ends on a word and the same four bytes stand before and after its body |
| FileStarts.CaptureStartsIff | dumpcap.c:3507-3655 | a capture starts if and only if the blocks of its first file can be written, and the file has them: the pcap header, nothing in passthrough, or dumpcap's SHB and an IDB for each source without IDBs of its own |
| FileStarts.KeptWhileCapturing | dumpcap.c:2622-2681 | while capturing, every saved SHB and IDB has equal lengths at both ends, the byte count is the size of the current file, and the file count the number of the files before it |
| FileStarts.StartIff | dumpcap.c:3507-3655 | a file is started in full exactly when the system lets every block be written and the saved SHB is read with its own length |
| FileStarts.SwitchesIff | dumpcap.c:4153-4201 | while capturing, a switch succeeds if and only if several files are allowed, the file limit leaves one, it can be opened, its start can be written and a saved SHB is read with its own length; capturing then goes on in a file with the whole start, and otherwise stops |
| FileStarts.TimersAct | dumpcap.c:4573-4592 | the autostop timer stops the capture; an expired file timer switches files or, where no switch can be made, stops it; without one the capture goes on in the same file |
| Fates.PacketFate | dumpcap.c:5034-5110 | a packet takes effect if and only if it comes before the stop and its write succeeds, and is then the last one in the file that was current; otherwise it is dropped and the capture stops, or it is flushed after the stop |
| Fates.BlockFate | dumpcap.c:4970-5031 | a block takes effect if and only if its lengths agree and its write succeeds, and is then the last one in the file that was current, the same but for the interface it names; a multiplexed SHB always takes effect; an unknown interface ends the process |
| Stopping.LimitsDecide | dumpcap.c:4932-4967 | after an item took effect: the capture stops if the packets captured reach a limit, or the file is full and no switch can be made; it goes on in a new file if the file is full and one can; and else in the same file |
| Stopping.WhyStopped | dumpcap.c:4942-4966 | a capture that an item stops although it took effect has exactly as many packets as a limit says, or a full file and no other one |
| Stopping.StopRequestEnds | dumpcap.c:4975-4981 | whatever is delivered after a stop request, and whatever the timers do, nothing more takes effect |
| Stopping.FilesLeftAreFull | dumpcap.c:4955-4966 | without file timers every file but the last has exactly as many packets as its limit says, or reaches the size limit |
| SmoothRuns.NothingGoesWrong | dumpcap.c:4470-4600 | when the system calls work, blocks are intact and nobody stops the capture: everything delivered is in the log in order, up to the packet that meets the limit, nothing is dropped or flushed before, and the files read as the sources said |
| SmoothRuns.StopsAtExactly | dumpcap.c:4942-4947 | such a capture with a limit of N packets stops with exactly N, in its files too, as soon as N are delivered, and not before |
| OwnBlocks.EpbReadsBack | writecap/pcapio.c:543-609 | what is written for a packet is decoded to its interface, time, lengths and data, is as long as is counted, and is a block the pipe reader accepts |
| OwnBlocks.PcapFileReadsBack | writecap/pcapio.c:214-231 | the records of a pcap file are read back as its packets by the reader of pipes, and are as long as is counted |
| OwnBlocks.PcapCaptureReadsBack | dumpcap.c:5092-5108 | over every run of a pcap capture, with rotation, failures and stops, a reader finds in the bytes of the files exactly the packets that took effect, in order |
| Conservation.DeliveryOutcome | dumpcap.c:4970-5110 | every delivery is exactly one of written, dropped, flushed or fatal, with the counters that go with it; which one, see Fates.PacketFate and Fates.BlockFate |
| Conservation.NothingIsLost | dumpcap.c:5034-5110 | over every run the deliveries of a pcap source are those written, dropped and flushed; without threads those received are those written; packets_captured counts the data items |
| Conservation.FilesHoldTheLog | dumpcap.c:5062-5108 | the packets a reader finds under a pcap source's interface are exactly those of the source that took effect, in order |
| Queue.PushKeepsBounds | dumpcap.c:5143-5153 | an element accepted by the limits keeps the counts exact and the bounds |
| Queue.PopKeepsBounds | dumpcap.c:4230-4240 | taking the head keeps the counts exact and the bounds |
| Queue.BytesBounded | dumpcap.c:5143-5153 | the byte limit is exceeded by less than the element queued last |
| Threads.StepSound | dumpcap.c:4204-4263 | every step of every thread keeps the books of every source, the order of the queue and the phases of the shutdown |
| Threads.QueueBounded | dumpcap.c:5143-5153 | at every point of every interleaving: exact counts, packets within the limit, bytes at most limit - 1 plus the last element |
| Queue.RoomUnlessFull | dumpcap.c:5144-5145 | the counts leave room exactly when the elements have reached neither limit |
| Threads.Entrance | dumpcap.c:5113-5160 | what a step does at the queue's entrance: an item is skipped exactly after the stop, refused exactly if it is empty or the elements have reached a limit, and otherwise the last element of the queue |
| Threads.RefusedOnlyWhenFull | dumpcap.c:5143-5160 | under every interleaving, each refusal of an item that is not empty happened while the queued elements reached the byte or packet limit |
| Threads.UnlimitedRefusesNothing | dumpcap.c:5143-5160 | without limits only empty packets are refused |
| Threads.NothingLostWhileCapturing | dumpcap.c:4204-4263 | until the capture stops: what took effect, what the writer holds and what is queued are, in order, all that was accepted, and a source of which nothing was refused has lost nothing |
| Threads.InterruptEnds | dumpcap.c:4204-4263 | once anyone has stopped the capture, nothing more takes effect under any interleaving, not even what is queued |
| Threads.OrderKept | dumpcap.c:4227-4263 | what was taken from a source is a prefix of what was accepted, which is a subsequence of what it delivered; and so is what took effect |
| Threads.AllAccountedFor | dumpcap.c:4597-4620 | after the joins and the drain: empty queue; deliveries = written + dropped + flushed; received = written + writer-side dropped + writer-side flushed; packets_captured = data items written |
| Threads.DrainStep | dumpcap.c:4597-4615 | in the drain every writer move brings the end one step closer, there is one until the end, and no other step changes what is left |
| Threads.DrainEnds | dumpcap.c:4597-4615 | once the readers are joined, whatever else happens, exactly the moves that are left lead to the end, where the queue is empty |
| Threads.MeaningUnderThreads | dumpcap.c:4204-4263 | under every interleaving, whatever the queue drops, the files of a multiplexed capture read as the items that took effect, with their own interfaces |
| Threads.ReportsUnderThreads | dumpcap.c:4932-4967 | under every interleaving the limits hold and the counts sent to the parent follow the files |
| CaptureLoop.Capture.constructor | dumpcap.c:3256-3412 | the loop over the interfaces leaves the state in which a capture opens |
| CaptureLoop.Capture.OpenSources | dumpcap.c:3283-3401 | pcap sources get consecutive IDBs, and passthrough is left on exactly for a single pcapng source; the assertions about it hold |
| CaptureLoop.Capture.FileStartOutput | dumpcap.c:3642-3655 | is the specified file start, for every point at which a write can fail; by FileStarts.StartIff it succeeds exactly when the blocks can be written |
| CaptureLoop.Capture.StartOutputPcap | dumpcap.c:3629-3640 | writes the pcap header or fails |
| CaptureLoop.Capture.StartOutputPcapng | dumpcap.c:3507-3624 | skips, replays or generates the SHB and goes through the saved IDBs, as specified; by FileStarts.CaptureStartsIff and SwitchesIff nothing but the system keeps the start from being complete |
| CaptureLoop.Capture.SavedLength | dumpcap.c:3533-3539 | the length is read from the saved SHB in the byte order of the reader's flag |
| CaptureLoop.Capture.ReplayOtherLength | dumpcap.c:3541-3545 | with any other length than the SHB's the write is refused or goes astray |
| CaptureLoop.Capture.LearnOrder | dumpcap.c:2544-2584 | the pipe reader sets the flag of its source |
| CaptureLoop.Capture.ReplayIdbs | dumpcap.c:3563-3618 | the loop over the saved IDBs writes the specified blocks up to the first failure |
| CaptureLoop.Capture.SendPacketCount | dumpcap.c:4186-4190 | reports the packets since the last report and starts again at 0 |
| CaptureLoop.Capture.ReportPacketCount | dumpcap.c:6418-6432 | only a capture child sends a message |
| CaptureLoop.Capture.ReportNewCaptureFile | dumpcap.c:6434-6447 | announces the file, or puts that off in passthrough |
| CaptureLoop.Capture.DoFileSwitchOrStop | dumpcap.c:4151-4201 | is the specified switch or stop |
| CaptureLoop.Capture.NoOtherFile | dumpcap.c:4155-4200 | stops for want of another file exactly when specified; a switch after one that failed is a fault |
| CaptureLoop.Capture.LoopWroteOnePacket | dumpcap.c:4928-4967 | counts the packet and checks the limits in their order; by Stopping.LimitsDecide the capture stops at the limits and not before |
| CaptureLoop.Capture.PcapngAdjustBlock | dumpcap.c:2622-2710 | updates the saved blocks and the map, patches the ID in the caller's buffer, and refuses an unmapped ID |
| CaptureLoop.Capture.DeleteOwn | dumpcap.c:2652-2665 | the deletion loop; its ownership assertion holds |
| CaptureLoop.Capture.WritePcapngCb | dumpcap.c:4970-5031 | is the specified transition for a pcapng block, with the fate that Fates.BlockFate gives it |
| CaptureLoop.Capture.WritePacketCb | dumpcap.c:5034-5110 | is the specified transition for a packet, with the fate that Fates.PacketFate gives it |
| CaptureLoop.Capture.CheckTimers | dumpcap.c:4552-4600 | is the specified transition for the timed part |
| CaptureLoop.Capture.Run | dumpcap.c:4470-4600 | the loop is the specified run up to the event that finds it stopped, keeps the invariant, and no assertion fails |
| QueueLoop.CallbackIsThreeSteps | dumpcap.c:5113-5226 | a queue callback that is not interrupted is the three steps of a reader thread |
| QueueLoop.PcapQueue.QueuePacket | dumpcap.c:5113-5168 | after the stop the packet is flushed; it is dropped if it is empty (a failed allocation) or the queued elements have reached a limit; otherwise it is received and the last element |
| QueueLoop.PcapQueue.QueuePcapng | dumpcap.c:5171-5226 | the same for a copied block |
| QueueLoop.PcapQueue.DequeuePacket | dumpcap.c:4225-4263 | takes the head and writes it as one event of the engine, or finds the queue empty |
| QueueLoop.PcapQueue.Drain | dumpcap.c:4606-4615 | the drain loop ends with an empty queue and flushes every element |
| QueueLoop.FlushedCounts | dumpcap.c:4978-4981 | a drain adds to each source's flushed count the elements it had in the queue and changes nothing else |
| Passthrough.MultiplexedPipeIsFramed | dumpcap.c:2544-2590 | every block that the reader of a multiplexed source delivers is in host byte order with the type its bytes have |
| Passthrough.ParseFramed | dumpcap.c:3032-3251 | every block is delivered with the type and the byte order of its own section |
| Passthrough.OutputIsPrefixOfStream | dumpcap.c:4970-5012 | passthrough into one file: the output is byte for byte a prefix of the stream ending with a block, and complete until the capture stops |
| Rotation.StepReplays | dumpcap.c:3516-3545 | a step goes astray exactly if it starts a file whose replay does; files are started by data blocks and timers only; a file whose replay is not whole stays empty and ends the capture |
| Rotation.WholeIffNoGap | dumpcap.c:3533-3541 | at every point of every run over a stream, a replay would be whole exactly outside gaps |
| Rotation.GapIsBetween | dumpcap.c:3156-3175 | while capturing, a gap is the time between the header and the body of an SHB of the other byte order whose length is no palindrome |
| Rotation.GapsAreForTimers | dumpcap.c:4573-4590 | a file started in a gap was started by a timer |
| Rotation.BlocksAreInStep | dumpcap.c:3156-3230 | every block but an SHB is delivered while the reader's flag is the byte order of the section it is in |
| Rotation.ReplaysAreWholeIff | dumpcap.c:3516-3545 | over a whole run, every file start replays the SHB in full if and only if no file is started in a gap |
| Rotation.AstrayIff | dumpcap.c:3533-3545 | the process goes astray exactly when the replay of some file start does |
| Rotation.ARunGoesAstray | dumpcap.c:3533-3545 | a stream of 56 bytes and four events with which it does |
| Rotation.RotationKeepsMeaning | dumpcap.c:3516-3598 | passthrough into many files: each file read for itself gives the blocks of the stream with the interfaces of their own sections, and the run does not go astray if no file is started in a gap |
| Capinfos.ProcessCapFile | capinfos.c:1173-1280 | order state, times, totals, minimum, maximum, inferred lengths and interface counts of the loop are their declarative definitions |
| Capinfos.CountPacket | capinfos.c:1243-1276 | while the interface list only grows, per-interface counts plus unknown are the packets, and each count is that of its interface |
| Capinfos.OrderOfPackets | capinfos.c:1174-1200 | for a file of packets: "not in order" if and only if the times are not sorted, or the first packet has no time and the first time is before zero |
| Capinfos.OrderIsSortedness | capinfos.c:1174-1200 | for every list of records the verdict is whether the times are sorted, from the last one before the first packet on, or from the zero time if that has none |
| Capinfos.DocumentedOrderIffForAll | capinfos.c:163-177 | exactly when the documented meaning of the order holds, for every list of records |
| Capinfos.DocumentedOrderIff | capinfos.c:163-177 | the same for a file of packets |
| Capinfos.DocumentedOrderFails | capinfos.c:163-177 | two families of files for which it does not hold |
| Capinfos.TrueMinimumAndMaximum | capinfos.c:1177-1194 | with a time in every packet, earliest and latest are the true extremes, each with the precision of the first record that attains it |
| FileSet.OneSplit | fileset.c:69-72 | a name matches a pattern if and only if it can be split, and then in one way only |
| FileSet.PatternsExclude | fileset.c:69-72 | no name matches two of the patterns |
| FileSet.CutName | fileset.c:115-140 | the copy of the name is cut in place at its extension and before a compression extension |
| FileSet.FilenameMatchPattern | fileset.c:61-197 | returns what FileSet.MatchIsSplit and NoMatchIffNoSplit say of the name |
| FileSet.MatchIsSplit | fileset.c:61-197 | a name that a pattern splits is matched with the kind of that pattern, its prefix, and the number that is the time, cut to 14 digits where there are more |
| FileSet.NoMatchIffNoSplit | fileset.c:139-157 | there is no match if and only if no pattern splits the name |
| FileSet.StemOfName | fileset.c:115-137 | what is split is the name without its extension, and without another one before an extension of a compression type |
| FileSet.LowerIsCaseless | fileset.c:119-124 | capital letters in an extension do not matter for whether it is one of a compression type |
| FileSet.SameSetIff | fileset.c:200-231 | two names that can be split are in one set if and only if their patterns are of one kind, their prefixes are equal, and both or neither keep a suffix |
| FileSet.SuffixIsLost | fileset.c:120-137 | the returned suffix is empty, or missing when the only extension is a compression type |
| FileSet.IsFileInSet | fileset.c:200-231 | decides membership, which FileSet.SameSetIff describes in terms of the two names |
| FileSet.MembershipIsEquivalence | fileset.c:200-231 | membership is an equivalence on the names that match |
| FileSet.NameOrderIsNumeric | fileset.c:318-327 | names of one pattern and prefix are ordered by their two numbers, field by field, before anything else matters |
| FileSet.SortSorts | fileset.c:388-389 | sorting by name keeps the entries and puts them in order |
| FileSet.Files.AddFile | fileset.c:271-314 | a file that opens is appended, another one is left out |
| FileSet.Files.AddDir | fileset.c:345-393 | the list becomes the sorted entries of the directory that belong to the set and open, or the file alone |
| FileSet.Files.FileOpened | ui/qt/file_set_dialog.cpp:86-90 | the old set goes, and the set of the new file is there, in order and without duplicates |
| FileSet.Files.GetCurrent | fileset.c:402-421 | the first current entry |
| FileSet.Files.GetNext | fileset.c:424-442 | the entry with the least name beyond the current one, and none without a current one |
| FileSet.Files.GetPrevious | fileset.c:445-464 | the entry with the greatest name before the current one, and none without a current one |
| FileSet.ListOfTheSet | fileset.c:345-393 | opening a file of a set lists exactly the files of its set that open, in order, with the file as the only current entry |

## Left out

- The system and the libraries: select, read, sockets, signals, libpcap, GLib, the file writers and the ring
  buffer are contracts (append these bytes or fail, switch or fail); Windows pipes and their threads are not
  modelled, nor is opening a pipe before the first word of its stream is known.
- The host is little-endian.
- Threads share memory one atomic step at a time: a test of the go flag, a section under the queue's lock, a
  counter update, or a whole write callback. Data races on counters and flags are not modelled.
- Counters are unbounded. An interface ID is a 32-bit number: where IDs are rewritten, the theorems require fewer
  than 2^32 - 1 saved IDBs in every state of the run (Meaning.Legal, Threads.RoomForIds).
- Only EPB and ISB interface IDs are rewritten by dumpcap (dumpcap.c:2683-2703), so that blocks of other types
  are read here as having no reference; the interfaces of a source are those whose blocks reach the writer.
- Engine.StartOutput: what a replay gone astray writes, from beyond the saved SHB or without its end, is not in
  the model. The process has a fault from then on and the model does nothing more; the file that was being
  started has no blocks in it. The same holds for a switch after one that failed, which closes a closed file.
- MeaningKept.MeaningPreserved: the bytes that a failed write may leave at the end of a file are counted, but
  are not blocks for the reader; the same holds for Passthrough.OutputIsPrefixOfStream.
- CaptureLoop.Capture.DoFileSwitchOrStop: flushing the output is not modelled, nor is what the end of the capture
  does with the handle that a failed switch leaves behind.
- Rotation.RotationKeepsMeaning: not for threads, because the queue may drop an SHB and the reader may be several
  sections ahead of the writer.
- Reports.CountsFollowFiles: not in passthrough, where a file is announced only when an SHB has been written
  to it, see Announcements.AnnouncedExactly.
- The check of pcapng_write_block that the data are aligned in memory, since buffers here have no addresses.
- Blocks that attribute packets to processes, and the interface statistics that dumpcap itself writes at the
  end of a single file, which use the number of the source and not its IDB (dumpcap.c:3744-3745).
- Capinfos.ProcessCapFile: comments, encapsulation counts, rates, hashes and printing are left out; a time is
  one number.
- SmoothRuns.NothingGoesWrong: an EPB or ISB is longer than the twelve bytes around an empty body (what becomes of
  a shorter one is in Fates.BlockFate), sources and events together number fewer than 2^32 - 1, and in
  passthrough no file is started while the reader is ahead in a section of the other byte order, which for data
  blocks is Rotation.BlocksAreInStep.
- OwnBlocks.EpbReadsBack: an EPB has no options, and its length fits 32 bits; the bytes of dumpcap's own SHB and IDBs
  are not in the model, only their sizes.
- FileSet.FilenameMatchPattern: names are the last components of paths, without newlines, and the regular
  expression engine is replaced by the relation it decides.
- Options, privileges, the statistics loop, ring buffer deletion and error texts.
