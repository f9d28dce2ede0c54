/** Passthrough puts off the announcement of a file until a source's SHB has been copied to it: what the
    parent is told, and when. */
module Announcements {
  import opened PcapngFormat
  import opened Engine
  import opened Meaning
  import opened MeaningKept
  import opened Reports
  import Bytes
  import Conservation

  /** A section starts in the file with a header copied from the source. */
  ghost predicate HasShb(f: seq<OutBlock>) {
    exists k :: 0 <= k < |f| && f[k].Copied? && IsShb(f[k].bytes)
  }

  /** Files are announced in order, each at most once, and only with an SHB in them; the announcement still
      to be made, if there is one, is that of the current file. */
  ghost predicate Deferred(s: State) {
    var a := Announced(s.messages);
    && s.files != []
    && (forall i, j :: 0 <= i < j < |a| ==> a[i] < a[j])
    && (forall i :: 0 <= i < |a| ==> a[i] < |s.files| && HasShb(s.files[a[i]]))
    && (s.pendingFile.Limit? ==>
          && s.pendingFile.n < |s.files| && (forall i :: 0 <= i < |a| ==> a[i] < s.pendingFile.n)
          && (s.go ==> s.pendingFile.n == |s.files| - 1))
  }

  /** Files are only added to. */
  ghost predicate FilesGrow(s: State, r: State) {
    |s.files| <= |r.files| && forall k :: 0 <= k < |s.files| ==> s.files[k] <= r.files[k]
  }

  lemma GrownShb(f: seq<OutBlock>, g: seq<OutBlock>)
    requires HasShb(f) && f <= g
    ensures HasShb(g)
  {
    hide IsShb;
    var k :| 0 <= k < |f| && f[k].Copied? && IsShb(f[k].bytes);
    assert g[k] == f[k];
  }

  /** More blocks in the files, and no news for the parent. */
  lemma DeferredFrame(s: State, r: State)
    requires Deferred(s) && FilesGrow(s, r) && Announced(r.messages) == Announced(s.messages)
    requires r.pendingFile == s.pendingFile && (r.go ==> s.go && |r.files| == |s.files|)
    ensures Deferred(r)
  {
    hide HasShb, Announced;
    var a := Announced(s.messages);
    forall i | 0 <= i < |a|
      ensures HasShb(r.files[a[i]])
    {
      GrownShb(s.files[a[i]], r.files[a[i]]);
    }
  }

  /** A new file is waiting to be announced. */
  lemma DeferredNext(s: State, r: State)
    requires Deferred(s) && FilesGrow(s, r) && |r.files| == |s.files| + 1
    requires Announced(r.messages) == Announced(s.messages) && r.pendingFile == Limit(|r.files| - 1)
    ensures Deferred(r)
  {
    hide HasShb, Announced;
    var a := Announced(s.messages);
    forall i | 0 <= i < |a|
      ensures HasShb(r.files[a[i]])
    {
      GrownShb(s.files[a[i]], r.files[a[i]]);
    }
  }

  lemma ReportDefers(o: Options, s: State)
    ensures var r := ReportPackets(o, s);
            && Announced(r.messages) == Announced(s.messages) && r == s.(messages := r.messages, inpktsToSyncPipe := 0)
  {
    hide Announced;
    MessageSnoc(s.messages, SpPacketCount(s.inpktsToSyncPipe));
  }

  /** Without a parent there are no announcements to put off. */
  ghost predicate Childless(o: Options, s: State) {
    !o.captureChild ==> s.pendingFile.NoLimit?
  }

  lemma SwitchDefers(o: Options, s: State, io: Io)
    requires Deferred(s) && s.passthrough && Childless(o, s)
    ensures var r := SwitchOrStop(o, s, io).0; Deferred(r) && r.passthrough && Childless(o, r)
  {
    hide SwitchOrStop, StartOutput, StartBlocks, Announced, HasShb, MustStop, ReportPackets, Switched;
    var r := SwitchOrStop(o, s, io).0;
    SwitchCases(o, s, io);
    if MustStop(o, s, io) {
      DeferredFrame(s, r);
    } else {
      SwitchFileDefers(o, s, io);
    }
  }

  lemma SwitchFileDefers(o: Options, s: State, io: Io)
    requires Deferred(s) && s.passthrough && Childless(o, s)
    ensures var r := SwitchFile(o, NextFile(CountFile(o, s)), io).0; Deferred(r) && r.passthrough && Childless(o, r)
  {
    hide StartOutput, StartBlocks, Announced, HasShb, ReportPackets, Deferred;
    var next := NextFile(CountFile(o, s));
    var (started, ok) := StartOutput(o, next, io);
    var r := SwitchFile(o, next, io).0;
    StartShape(o, next, io);
    StartGrows(s, next, started);
    ReportDefers(o, started);
    if ok && o.captureChild {
      DeferredNext(s, r);
    } else {
      NotAnnounced(o, s, r);
    }
  }

  lemma StartGrows(s: State, next: State, started: State)
    requires next.files == s.files + [[]] && |started.files| == |s.files| + 1
    requires started.files[..|s.files|] == next.files[..|s.files|]
    ensures FilesGrow(s, started)
  {
    forall k | 0 <= k < |s.files|
      ensures started.files[k] == s.files[k]
    {
      assert started.files[k] == started.files[..|s.files|][k] == next.files[..|s.files|][k] == next.files[k];
    }
  }

  /** A new file that nobody will be told about. */
  lemma NotAnnounced(o: Options, s: State, r: State)
    requires Deferred(s) && FilesGrow(s, r) && Announced(r.messages) == Announced(s.messages)
    requires r.pendingFile == s.pendingFile && (r.go ==> s.pendingFile.NoLimit?)
    ensures Deferred(r)
  {
    hide HasShb, Announced;
    var a := Announced(s.messages);
    forall i | 0 <= i < |a|
      ensures HasShb(r.files[a[i]])
    {
      GrownShb(s.files[a[i]], r.files[a[i]]);
    }
  }

  /** The SHB is in the file, and the parent is told. */
  lemma ShbDefers(s: State)
    requires Deferred(s) && s.go && HasShb(s.files[|s.files| - 1])
    ensures Deferred(ShbWritten(s))
  {
    hide HasShb, Announced;
    if s.pendingFile.Limit? {
      MessageSnoc(s.messages, SpFile(s.pendingFile.n));
    }
  }

  lemma PutGrows(o: Options, s: State, b: OutBlock)
    requires s.files != []
    ensures FilesGrow(s, Put(o, s, b)) && Put(o, s, b).files[|s.files| - 1] == s.files[|s.files| - 1] + [b]
  {
    hide Size;
  }

  lemma WroteDefers(o: Options, s: State, i: nat, io: Io)
    requires Deferred(s) && s.passthrough && Childless(o, s) && i < |s.srcs|
    ensures var r := WroteOnePacket(o, s, i, io); Deferred(r) && r.passthrough && Childless(o, r)
  {
    hide SwitchOrStop, Deferred;
    var c := WithPacket(o, s, i);
    DeferredFrame(s, c);
    DeferredFrame(c, Stop(c));
    SwitchDefers(o, c, io);
  }

  lemma WriteDefers(o: Options, s: State, i: nat, b: Block, io: Io)
    requires Deferred(s) && s.passthrough && Childless(o, s) && i < |s.srcs| && |b.bytes| >= 12
    requires b.btype == BLOCK_TYPE_SHB ==> IsShb(b.bytes)
    ensures var r := WritePcapng(o, s, i, b, io); Deferred(r) && r.passthrough && Childless(o, r)
  {
    hide AdjustBlock, WroteOnePacket, IsDataBlock, CanCopy, Deferred, IsShb, FilesGrow, ShbWritten;
    if !s.go {
      Same(s);
      DeferredFrame(s, FlushAt(s, i));
    } else {
      AdjustDefers(s, i, b);
      SomeFile(s);
      var a := AdjustBlock(s, i, b);
      var out := Copied(a.bytes);
      var w := Logged(Put(o, a.state, out), i, FromPipe(b));
      Same(s);
      DeferredFrame(s, a.state);
      DeferredFrame(s, a.state.(aborted := true));
      if s.open && a.ok {
        PutGrows(o, a.state, out);
        SameGrowth(a.state, Put(o, a.state, out), w);
        DeferredFrame(a.state, w);
        SameGrowth(s, s, WriteFailed(o, a.state, i, out, io));
        DeferredFrame(s, WriteFailed(o, a.state, i, out, io));
        WroteDefers(o, w, i, io);
        if b.btype == BLOCK_TYPE_SHB {
          ShbInFile(w, out);
          ShbDefers(w);
          ShbChildless(o, w);
        }
      }
    }
  }

  lemma SomeFile(s: State)
    requires Deferred(s)
    ensures s.files != []
  {
  }

  lemma ShbChildless(o: Options, s: State)
    requires Childless(o, s)
    ensures Childless(o, ShbWritten(s)) && ShbWritten(s).passthrough == s.passthrough
  {
  }

  lemma Same(s: State)
    ensures forall r: State :: r.files == s.files ==> FilesGrow(s, r)
  {
  }

  lemma SameGrowth(s: State, r: State, r': State)
    requires FilesGrow(s, r) && r'.files == r.files
    ensures FilesGrow(s, r')
  {
  }

  lemma ShbInFile(w: State, out: OutBlock)
    requires w.files != [] && out.Copied? && IsShb(out.bytes)
    requires w.files[|w.files| - 1] != [] && w.files[|w.files| - 1][|w.files[|w.files| - 1]| - 1] == out
    ensures HasShb(w.files[|w.files| - 1])
  {
    hide IsShb;
  }

  lemma AdjustDefers(s: State, i: nat, b: Block)
    requires i < |s.srcs| && |b.bytes| >= 12 && s.passthrough
    ensures var a := AdjustBlock(s, i, b);
            && a.ok && a.bytes == b.bytes && |a.state.srcs| == |s.srcs| && a.state.files == s.files
            && a.state.messages == s.messages && a.state.pendingFile == s.pendingFile
            && a.state.go == s.go && a.state.open == s.open && a.state.passthrough
  {
  }

  lemma TickDefers(o: Options, s: State, t: Timers, io: Io, io': Io)
    requires Deferred(s) && s.passthrough && Childless(o, s)
    ensures var r := Tick(o, s, t, io, io'); Deferred(r) && r.passthrough && Childless(o, r)
  {
    hide SwitchOrStop, Deferred, ReportPackets;
    var r := ReportPackets(o, s);
    SomeFile(s);
    ReportDefers(o, s);
    DeferredFrame(s, r);
    DeferredFrame(r, Stop(r));
    SwitchDefers(o, r, io);
    SwitchDefers(o, r, io');
    SwitchDefers(o, SwitchOrStop(o, r, io).0, io');
  }

  lemma StepDefers(o: Options, s: State, e: Event)
    requires Deferred(s) && s.passthrough && Childless(o, s) && Shape(o, s) && Legal(s, e)
    ensures var r := Step(o, s, e); Deferred(r) && r.passthrough && Childless(o, r)
  {
    hide Deferred, Childless, WritePcapng, Tick, IsShb;
    if Alive(s) && EventFits(s, e) {
      match e
      case Deliver(i, FromPipe(b), io) =>
        if s.go {
          WriteDefers(o, s, i, b, io);
        } else {
          FlushDefers(o, s, i, b, io);
        }
      case Deliver(i, FromPcap(p), io) =>
      case ShbSeen(i, swapped) => SeenDefers(o, s, i, swapped);
      case StopRequest =>
        StopDefers(o, s);
      case TimersLooked(t, io, io') => TickDefers(o, s, t, io, io');
    }
  }

  lemma FlushDefers(o: Options, s: State, i: nat, b: Block, io: Io)
    requires Deferred(s) && s.passthrough && Childless(o, s) && i < |s.srcs| && |b.bytes| >= 12 && !s.go
    ensures var r := WritePcapng(o, s, i, b, io); Deferred(r) && r.passthrough && Childless(o, r)
  {
    hide Deferred;
    DeferredFrame(s, FlushAt(s, i));
  }

  lemma SeenDefers(o: Options, s: State, i: nat, swapped: bool)
    requires Deferred(s) && Childless(o, s) && i < |s.srcs|
    ensures Deferred(Learnt(s, i, swapped)) && Childless(o, Learnt(s, i, swapped))
  {
    hide Deferred;
    DeferredFrame(s, Learnt(s, i, swapped));
  }

  lemma StopDefers(o: Options, s: State)
    requires Deferred(s) && Childless(o, s)
    ensures Deferred(Stop(s)) && Childless(o, Stop(s))
  {
    hide Deferred;
    DeferredFrame(s, Stop(s));
  }

  lemma {:induction false} RunDefers(o: Options, s: State, es: seq<Event>)
    requires Deferred(s) && s.passthrough && Childless(o, s) && Inv(o, s) && LegalRun(o, s, es)
    ensures var r := Run(o, s, es); Deferred(r) && r.passthrough && Childless(o, r)
  {
    hide Deferred, Childless, Step, Legal, Linked, ReplaySafe, SameMeaning;
    if es != [] {
      var before := es[..|es| - 1];
      RunDefers(o, s, before);
      RunKeeps(o, s, before);
      StepDefers(o, Run(o, s, before), es[|es| - 1]);
    }
  }

  /** In every passthrough run files are announced in order, none twice, and none before it has a section
      header of the source in it. */
  lemma {:induction false} AnnouncedWithHeader(o: Options, io: Io, es: seq<Event>)
    requires OptionsFit(o, [true]) && Started(o, [true], io).1
    requires LegalRun(o, Started(o, [true], io).0, es)
    ensures var s := Run(o, Started(o, [true], io).0, es);
            var a := Announced(s.messages);
            && (forall i, j :: 0 <= i < j < |a| ==> a[i] < a[j])
            && (forall i :: 0 <= i < |a| ==> a[i] < |s.files| && HasShb(s.files[a[i]]))
  {
    hide Inv, Run, LegalRun, HasShb, StartOutput, StartBlocks, OpenedSrcs, OpenedIdbs;
    StartKeeps(o, [true], io);
    StartShape(o, OpenInput([true]), io);
    assert Announced([]) == [];
    RunDefers(o, Started(o, [true], io).0, es);
  }

  // ---- Which files are announced

  /** An SHB of the source takes effect. */
  predicate TookShb(o: Options, s: State, e: Event) {
    && e.Deliver? && e.item.FromPipe? && e.item.block.btype == BLOCK_TYPE_SHB && s.files != []
    && |s.log| < |Step(o, s, e).log|
  }

  /** The files that were being written when an SHB of the source took effect. */
  function ShbFiles(o: Options, s: State, es: seq<Event>): set<nat> {
    if es == [] then {}
    else
      var before, e := es[..|es| - 1], es[|es| - 1];
      var r := Run(o, s, before);
      ShbFiles(o, s, before) + if TookShb(o, r, e) then {|r.files| - 1} else {}
  }

  /** The files announced are those in f, and while capturing the current file waits unless it is in f. */
  ghost predicate Tracks(s: State, f: set<nat>) {
    && s.files != []
    && (forall k: nat :: k in Announced(s.messages) <==> k in f)
    && (forall k: nat :: k in f ==> k < |s.files|)
    && (s.go ==> s.pendingFile == if |s.files| - 1 in f then NoLimit else Limit(|s.files| - 1))
  }

  lemma TracksFrame(s: State, r: State, f: set<nat>)
    requires Tracks(s, f) && |s.files| <= |r.files| && Announced(r.messages) == Announced(s.messages)
    requires r.go ==> s.go && |r.files| == |s.files| && r.pendingFile == s.pendingFile
    ensures Tracks(r, f)
  {
    hide Announced;
  }

  lemma TracksNext(s: State, r: State, f: set<nat>)
    requires Tracks(s, f) && |r.files| == |s.files| + 1 && Announced(r.messages) == Announced(s.messages)
    requires r.pendingFile == Limit(|r.files| - 1)
    ensures Tracks(r, f)
  {
    hide Announced;
  }

  lemma {:induction false} SwitchTracks(o: Options, s: State, io: Io, f: set<nat>)
    requires Tracks(s, f) && s.passthrough && o.captureChild
    ensures Tracks(SwitchOrStop(o, s, io).0, f)
  {
    hide SwitchOrStop, SwitchFile, MustStop, Tracks;
    Tracked(s, f);
    var r := SwitchOrStop(o, s, io).0;
    SwitchCases(o, s, io);
    if MustStop(o, s, io) {
      TracksFrame(s, r, f);
    } else {
      SwitchFileTracks(o, s, io, f);
    }
  }

  lemma Tracked(s: State, f: set<nat>)
    requires Tracks(s, f)
    ensures s.files != []
  {
  }

  lemma {:induction false} SwitchFileTracks(o: Options, s: State, io: Io, f: set<nat>)
    requires Tracks(s, f) && s.passthrough && o.captureChild
    ensures Tracks(SwitchFile(o, NextFile(CountFile(o, s)), io).0, f)
  {
    hide StartOutput, StartBlocks, Announced, ReportPackets, Tracks;
    var next := NextFile(CountFile(o, s));
    var (started, ok) := StartOutput(o, next, io);
    var r := SwitchFile(o, next, io).0;
    StartShape(o, next, io);
    ReportDefers(o, started);
    if ok {
      TracksNext(s, r, f);
    } else {
      TracksFrame(s, r, f);
    }
  }

  lemma {:induction false} WroteTracks(o: Options, s: State, i: nat, io: Io, f: set<nat>)
    requires Tracks(s, f) && s.passthrough && o.captureChild && i < |s.srcs|
    ensures Tracks(WroteOnePacket(o, s, i, io), f)
  {
    hide SwitchOrStop, Tracks;
    var c := WithPacket(o, s, i);
    Tracked(s, f);
    TracksFrame(s, c, f);
    TracksFrame(c, Stop(c), f);
    SwitchTracks(o, c, io, f);
  }

  /** The SHB is in the file: it is announced now, or has been. */
  lemma ShbTracks(s: State, f: set<nat>)
    requires Tracks(s, f) && s.go
    ensures Tracks(ShbWritten(s), f + {|s.files| - 1})
  {
    hide Announced;
    if s.pendingFile.Limit? {
      MessageSnoc(s.messages, SpFile(s.pendingFile.n));
    }
  }

  /** The files in f after a delivery. */
  function WithShb(s: State, b: Block, r: State, f: set<nat>): set<nat>
    requires s.files != []
  {
    f + if b.btype == BLOCK_TYPE_SHB && |s.log| < |r.log| then {|s.files| - 1} else {}
  }

  lemma {:induction false} WriteTracks(o: Options, s: State, i: nat, b: Block, io: Io, f: set<nat>)
    requires Tracks(s, f) && s.passthrough && o.captureChild && i < |s.srcs| && |b.bytes| >= 12
    requires s.go ==> s.open
    ensures s.files != [] && Tracks(WritePcapng(o, s, i, b, io), WithShb(s, b, WritePcapng(o, s, i, b, io), f))
  {
    hide AdjustBlock, WroteOnePacket, IsDataBlock, CanCopy, Tracks;
    Tracked(s, f);
    assert f + {} == f;
    if !s.go {
      TracksFrame(s, FlushAt(s, i), f);
    } else {
      AdjustDefers(s, i, b);
      AdjustLog(s, i, b);
      ShbIsNoPacket();
      var a := AdjustBlock(s, i, b);
      var out := Copied(a.bytes);
      var w := Logged(Put(o, a.state, out), i, FromPipe(b));
      TracksFrame(s, w, f);
      TracksFrame(s, WriteFailed(o, a.state, i, out, io), f);
      WroteTracks(o, w, i, io, f);
      WroteLog(o, w, i, io);
      ShbTracks(w, f);
    }
  }

  lemma AdjustLog(s: State, i: nat, b: Block)
    requires i < |s.srcs| && |b.bytes| >= 12
    ensures AdjustBlock(s, i, b).state.log == s.log
  {
    hide Bytes.Word, WithInterfaceId, DeleteSlots;
  }

  lemma {:induction false} WroteLog(o: Options, s: State, i: nat, io: Io)
    requires s.files != [] && i < |s.srcs|
    ensures WroteOnePacket(o, s, i, io).log == s.log
  {
    hide SwitchOrStop;
    Conservation.SwitchAside(o, WithPacket(o, s, i), io);
  }

  lemma {:induction false} TickTracks(o: Options, s: State, t: Timers, io: Io, io': Io, f: set<nat>)
    requires Tracks(s, f) && s.passthrough && o.captureChild
    ensures Tracks(Tick(o, s, t, io, io'), f)
  {
    hide SwitchOrStop, Tracks, ReportPackets;
    var r := ReportPackets(o, s);
    Tracked(s, f);
    ReportDefers(o, s);
    TracksFrame(s, r, f);
    TracksFrame(r, Stop(r), f);
    SwitchTracks(o, r, io, f);
    SwitchTracks(o, r, io', f);
    Conservation.SwitchAside(o, r, io);
    SwitchTracks(o, SwitchOrStop(o, r, io).0, io', f);
  }

  lemma {:induction false} StepTracks(o: Options, s: State, e: Event, f: set<nat>)
    requires Tracks(s, f) && s.passthrough && o.captureChild && Shape(o, s) && ReplaySafe(s)
    ensures s.files != [] && Tracks(Step(o, s, e), f + if TookShb(o, s, e) then {|s.files| - 1} else {})
  {
    hide Tracks, WritePcapng, Tick, IsShb, IsIdb, Step;
    assert f + {} == f;
    Tracked(s, f);
    if !Alive(s) {
      Conservation.Dead(o, s, e);
    } else if !EventFits(s, e) {
      Conservation.Unfit(o, s, e);
    } else {
      match e
      case Deliver(i, FromPipe(b), io) =>
        StepIsWrite(o, s, i, b, io);
        WriteTracks(o, s, i, b, io, f);
      case Deliver(i, FromPcap(p), io) =>
      case ShbSeen(i, swapped) => OtherTracks(o, s, e, f);
      case StopRequest => OtherTracks(o, s, e, f);
      case TimersLooked(t, io, io') =>
        OtherTracks(o, s, e, f);
    }
  }

  lemma StepIsWrite(o: Options, s: State, i: nat, b: Block, io: Io)
    requires Alive(s) && s.files != [] && EventFits(s, Deliver(i, FromPipe(b), io))
    ensures Step(o, s, Deliver(i, FromPipe(b), io)) == WritePcapng(o, s, i, b, io)
  {
  }

  lemma {:induction false} OtherTracks(o: Options, s: State, e: Event, f: set<nat>)
    requires Tracks(s, f) && s.passthrough && o.captureChild && Alive(s) && EventFits(s, e) && !e.Deliver?
    ensures Tracks(Step(o, s, e), f)
  {
    hide Tracks, Tick;
    Tracked(s, f);
    match e
    case ShbSeen(i, swapped) => TracksFrame(s, Learnt(s, i, swapped), f);
    case StopRequest => TracksFrame(s, Stop(s), f);
    case TimersLooked(t, io, io') => TickTracks(o, s, t, io, io', f);
  }

  lemma {:induction false} RunTracks(o: Options, s: State, es: seq<Event>)
    requires Tracks(s, {}) && s.passthrough && o.captureChild && Inv(o, s) && LegalRun(o, s, es)
    requires Deferred(s) && Childless(o, s)
    ensures Tracks(Run(o, s, es), ShbFiles(o, s, es))
  {
    hide Tracks, Step, Legal, Linked, SameMeaning, TookShb, Deferred, Childless, ReplaySafe, Shape;
    if es != [] {
      var before := es[..|es| - 1];
      RunTracks(o, s, before);
      RunKeeps(o, s, before);
      RunDefers(o, s, before);
      StepTracks(o, Run(o, s, before), es[|es| - 1], ShbFiles(o, s, before));
    }
  }

  /** In passthrough a capture child announces exactly the files in which a section header delivered by the
      source took effect while they were being written: not those that only replay an earlier one. */
  lemma {:induction false} AnnouncedExactly(o: Options, io: Io, es: seq<Event>, k: nat)
    requires OptionsFit(o, [true]) && Started(o, [true], io).1 && o.captureChild
    requires LegalRun(o, Started(o, [true], io).0, es)
    ensures k in Announced(Run(o, Started(o, [true], io).0, es).messages)
            <==> k in ShbFiles(o, Started(o, [true], io).0, es)
  {
    hide Inv, Run, LegalRun, HasShb, StartOutput, StartBlocks, OpenedSrcs, OpenedIdbs, ShbFiles;
    StartKeeps(o, [true], io);
    StartShape(o, OpenInput([true]), io);
    assert Announced([]) == [];
    RunTracks(o, Started(o, [true], io).0, es);
  }
}
