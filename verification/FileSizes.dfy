/** Rotation by file size, for sources that deliver packets rather than pcapng blocks: a file ends with
    the first packet that makes it reach the limit. */
module FileSizes {
  import opened Engine
  import opened MeaningKept

  /** The limit in bytes: autostop_filesize counts units of 1000 bytes. */
  function Bytes(o: Options): nat {
    if o.autostopFilesize.Limit? then 1000 * o.autostopFilesize.n else 0
  }

  predicate SizeLimited(o: Options) {
    o.autostopFilesize.Limit? && o.autostopFilesize.n > 0
  }

  /** After its start, the file stays below the limit for each of its first n blocks. */
  ghost predicate BelowUpTo(o: Options, start: seq<OutBlock>, f: seq<OutBlock>, n: nat) {
    start <= f && forall m :: |start| < m <= n && m <= |f| ==> TotalSize(o, f[..m]) < Bytes(o)
  }

  /** The start was not completed, or only the last packet may have reached the limit. */
  ghost predicate Sized(o: Options, start: seq<OutBlock>, f: seq<OutBlock>) {
    f <= start || (f != [] && BelowUpTo(o, start, f, |f| - 1))
  }

  ghost predicate AllSized(o: Options, start: seq<OutBlock>, s: State) {
    && s.files != [] && s.srcs != [] && StartBlocks(o, s) == start
    && (forall i :: 0 <= i < |s.srcs| ==> !s.srcs[i].fromPcapng)
    && (forall k :: 0 <= k < |s.files| ==> Sized(o, start, s.files[k]))
    && (s.go ==> s.open && GrowingFile(o, start, s))
  }

  /** While capturing, the current file is complete up to its last block and below the limit. */
  ghost predicate GrowingFile(o: Options, start: seq<OutBlock>, s: State)
    requires s.files != []
  {
    var last := s.files[|s.files| - 1];
    BelowUpTo(o, start, last, |last|) && s.bytesWritten == TotalSize(o, last)
  }

  lemma TotalSnoc(o: Options, f: seq<OutBlock>, b: OutBlock)
    ensures TotalSize(o, f + [b]) == TotalSize(o, f) + Size(o, b)
  {
    assert (f + [b])[..|f|] == f;
  }

  /** One more block on a file that is below the limit. */
  lemma {:induction false} Grow(o: Options, start: seq<OutBlock>, f: seq<OutBlock>, b: OutBlock)
    requires BelowUpTo(o, start, f, |f|)
    ensures Sized(o, start, f + [b])
    ensures TotalSize(o, f + [b]) < Bytes(o) ==> BelowUpTo(o, start, f + [b], |f| + 1)
  {
    hide TotalSize;
    var g := f + [b];
    forall m | |start| < m <= |f|
      ensures TotalSize(o, g[..m]) < Bytes(o)
    {
      assert g[..m] == f[..m];
    }
    assert g[..|g|] == g;
  }

  lemma {:induction false} SwitchSizes(o: Options, start: seq<OutBlock>, s: State, io: Io)
    requires AllSized(o, start, s.(go := false)) && (s.go ==> s.open)
    ensures AllSized(o, start, SwitchOrStop(o, s, io).0)
  {
    hide SwitchOrStop, StartBlocks, TotalSize;
    var r := SwitchOrStop(o, s, io).0;
    SwitchShape(o, s, io);
    SameStart(o, s.(go := false), s);
    SameStart(o, s, r);
    if |r.files| != |s.files| {
      var f := r.files[|s.files|];
      assert r.files == s.files + [f];
      if r.go {
        FreshSize(o, s, io);
      }
    }
  }

  lemma SameStart(o: Options, s: State, r: State)
    requires SameLinks(s, r)
    ensures StartBlocks(o, r) == StartBlocks(o, s)
  {
  }

  /** The byte count starts again with the new file. */
  lemma FreshSize(o: Options, s: State, io: Io)
    requires s.files != [] && SwitchOrStop(o, s, io).0.go
    ensures var r := SwitchOrStop(o, s, io).0;
            r.files != [] && r.bytesWritten == TotalSize(o, r.files[|r.files| - 1])
  {
    hide TotalSize, StartBlocks, WrittenBlocks, ReportNewFile, ReportPackets, SwitchOrStop, MustStop, NextReplay;
    SwitchCases(o, s, io);
    if !MustStop(o, s, io) {
      var started := StartOutput(o, NextFile(CountFile(o, s)), io).0;
      ReportsShape(o, started);
    }
  }

  /** A packet is written to the file; if it is full now, the file is left or the capture stops. */
  lemma WritePacketSizes(o: Options, start: seq<OutBlock>, s: State, i: nat, p: Packet, io: Io)
    requires AllSized(o, start, s) && i < |s.srcs| && SizeLimited(o)
    ensures AllSized(o, start, WritePacket(o, s, i, p, io))
  {
    hide SwitchOrStop, StartBlocks, TotalSize, Size, WroteOnePacket, Sized, BelowUpTo;
    if !s.go {
      SizesFrame(o, start, s, FlushAt(s, i));
    } else {
      var out, n := PacketBlock(o, s.srcs[i], p), |s.files| - 1;
      var w := Logged(Put(o, s, out), i, FromPcap(p));
      SizesFrame(o, start, s, WriteFailed(o, s, i, out, io));
      TotalSnoc(o, s.files[n], out);
      Grow(o, start, s.files[n], out);
      SameStart(o, s, w);
      SameStart(o, s, w.(go := false));
      WroteSizes(o, start, w, i, io);
    }
  }

  /** Counters do not matter. */
  lemma SizesFrame(o: Options, start: seq<OutBlock>, s: State, s': State)
    requires AllSized(o, start, s) && s'.files == s.files && SameLinks(s, s')
    requires s'.go ==> s.go && s'.open == s.open && s'.bytesWritten == s.bytesWritten
    ensures AllSized(o, start, s')
  {
    hide StartBlocks, TotalSize, Sized, BelowUpTo;
    SameStart(o, s, s');
  }

  lemma {:induction false} WroteSizes(o: Options, start: seq<OutBlock>, s: State, i: nat, io: Io)
    requires AllSized(o, start, s.(go := false)) && i < |s.srcs| && s.go && s.open && SizeLimited(o)
    requires s.bytesWritten == TotalSize(o, s.files[|s.files| - 1])
    requires s.bytesWritten < Bytes(o) ==> GrowingFile(o, start, s)
    ensures AllSized(o, start, WroteOnePacket(o, s, i, io))
  {
    hide SwitchOrStop, StartBlocks, TotalSize, Sized, BelowUpTo;
    var counted := WithPacket(o, s, i);
    SizesFrame(o, start, s.(go := false), Stop(counted));
    SwitchSizes(o, start, counted, io);
    if s.bytesWritten < Bytes(o) {
      SameStart(o, s, s.(go := false));
      SizesFrame(o, start, s, counted);
    } else {
      assert FilesizeReached(o, counted.bytesWritten);
    }
  }

  lemma {:induction false} TickSizes(o: Options, start: seq<OutBlock>, s: State, t: Timers, io: Io, io': Io)
    requires AllSized(o, start, s)
    ensures AllSized(o, start, Tick(o, s, t, io, io'))
  {
    hide SwitchOrStop, StartBlocks, AllSized, SameLinks;
    var r := ReportPackets(o, s);
    Unhurt(s, r);
    SizesFrame(o, start, s, r);
    Stopped(o, start, r);
    SwitchSizes(o, start, r, io);
    SwitchSizes(o, start, r, io');
    var u := SwitchOrStop(o, r, io).0;
    Stopped(o, start, u);
    SwitchSizes(o, start, u, io');
  }

  lemma Stopped(o: Options, start: seq<OutBlock>, s: State)
    requires AllSized(o, start, s)
    ensures AllSized(o, start, Stop(s)) && s.files != [] && (s.go ==> s.open)
  {
    hide StartBlocks;
    SizesFrame(o, start, s, Stop(s));
  }

  lemma Unhurt(s: State, s': State)
    requires s'.passthrough == s.passthrough && s'.savedShb == s.savedShb && s'.savedIdbs == s.savedIdbs
    requires s'.srcs == s.srcs
    ensures SameLinks(s, s')
  {
  }

  lemma StepSizes(o: Options, start: seq<OutBlock>, s: State, e: Event)
    requires AllSized(o, start, s) && SizeLimited(o)
    ensures AllSized(o, start, Step(o, s, e))
  {
    hide AllSized, WritePacket, Tick;
    Stopped(o, start, s);
    if Alive(s) && EventFits(s, e) {
      match e
      case Deliver(i, FromPcap(p), io) => WritePacketSizes(o, start, s, i, p, io);
      case Deliver(i, FromPipe(b), io) => OnlyPcap(o, start, s, i);
      case ShbSeen(i, swapped) => OnlyPcap(o, start, s, i);
      case StopRequest =>
      case TimersLooked(t, io, io') => TickSizes(o, start, s, t, io, io');
    }
  }

  lemma OnlyPcap(o: Options, start: seq<OutBlock>, s: State, i: nat)
    requires AllSized(o, start, s) && i < |s.srcs|
    ensures !s.srcs[i].fromPcapng
  {
  }

  lemma {:induction false} RunSizes(o: Options, start: seq<OutBlock>, s: State, es: seq<Event>)
    requires AllSized(o, start, s) && SizeLimited(o)
    ensures AllSized(o, start, Run(o, s, es))
  {
    hide AllSized, Step;
    if es != [] {
      RunSizes(o, start, s, es[..|es| - 1]);
      StepSizes(o, start, Run(o, s, es[..|es| - 1]), es[|es| - 1]);
    }
  }

  // ---- Files are left only when they are full

  ghost predicate ClosedFull(o: Options, s: State) {
    forall k :: 0 <= k < |s.files| - 1 ==> Bytes(o) <= TotalSize(o, s.files[k])
  }

  /** Nothing but the size of a file makes dumpcap leave it. */
  ghost predicate OnlySize(o: Options, e: Event) {
    o.filePackets.NoLimit? && (e.TimersLooked? ==> !e.timers.fileDuration && !e.timers.interval)
  }

  lemma SwitchFull(o: Options, s: State, io: Io)
    requires ClosedFull(o, s) && s.files != [] && Bytes(o) <= TotalSize(o, s.files[|s.files| - 1])
    ensures ClosedFull(o, SwitchOrStop(o, s, io).0)
  {
    hide SwitchOrStop, StartBlocks, TotalSize, SameLinks;
    SwitchShape(o, s, io);
    var r := SwitchOrStop(o, s, io).0;
    assert forall k :: 0 <= k < |s.files| ==> r.files[k] == s.files[k];
  }

  lemma {:induction false} StepFull(o: Options, start: seq<OutBlock>, s: State, e: Event)
    requires AllSized(o, start, s) && SizeLimited(o) && ClosedFull(o, s) && OnlySize(o, e)
    ensures ClosedFull(o, Step(o, s, e))
  {
    hide SwitchOrStop, StartBlocks, TotalSize, Size, Sized, BelowUpTo;
    if Alive(s) && EventFits(s, e) && e.Deliver? && s.go {
      var i, p := e.src, e.item.packet;
      var out, n := PacketBlock(o, s.srcs[i], p), |s.files| - 1;
      var w := Logged(Put(o, s, out), i, FromPcap(p));
      TotalSnoc(o, s.files[n], out);
      if FilesizeReached(o, w.bytesWritten) {
        SwitchFull(o, WithPacket(o, w, i), e.io);
      }
    }
  }

  lemma {:induction false} RunFull(o: Options, start: seq<OutBlock>, s: State, es: seq<Event>)
    requires AllSized(o, start, s) && SizeLimited(o) && ClosedFull(o, s)
    requires forall k :: 0 <= k < |es| ==> OnlySize(o, es[k])
    ensures ClosedFull(o, Run(o, s, es))
  {
    hide AllSized, Step, ClosedFull, OnlySize;
    if es != [] {
      RunFull(o, start, s, es[..|es| - 1]);
      RunSizes(o, start, s, es[..|es| - 1]);
      StepFull(o, start, Run(o, s, es[..|es| - 1]), es[|es| - 1]);
    }
  }

  // ---- Theorems over whole runs

  /** What a fresh file of this capture starts with. */
  function StartOf(o: Options, pcapng: seq<bool>): seq<OutBlock> {
    StartBlocks(o, OpenInput(pcapng))
  }

  lemma StartSizes(o: Options, pcapng: seq<bool>, io: Io)
    requires OptionsFit(o, pcapng) && Started(o, pcapng, io).1 && true !in pcapng
    ensures AllSized(o, StartOf(o, pcapng), Started(o, pcapng, io).0)
    ensures ClosedFull(o, Started(o, pcapng, io).0)
  {
    hide StartBlocks, TotalSize, OpenedSrcs, OpenedIdbs, WrittenBlocks, NextReplay;
    var s := OpenInput(pcapng);
    var started := StartOutput(o, s, io).0;
    StartShape(o, s, io);
    Unhurt(s, started);
    SameStart(o, s, started);
    var f := StartOf(o, pcapng);
    assert started.files == [f] && started.bytesWritten == TotalSize(o, f) by {
      assert f[..|f|] == f;
    }
    assert forall i :: 0 <= i < |s.srcs| ==> s.srcs[i].fromPcapng == pcapng[i];
    assert AllSized(o, f, started);
    SizesFrame(o, f, started, ReportNewFile(o, started));
  }

  lemma {:induction false} PrefixSize(o: Options, f: seq<OutBlock>, n: nat)
    requires n <= |f|
    ensures TotalSize(o, f[..n]) <= TotalSize(o, f)
  {
    hide Size;
    if n < |f| {
      PrefixSize(o, f[..|f| - 1], n);
      assert f[..|f| - 1][..n] == f[..n];
    } else {
      assert f[..n] == f;
    }
  }

  function Max(a: int, b: int): int {
    if a < b then b else a
  }

  /** Under a file size limit of 1000*S bytes and without pcapng sources, every file without its last block
      is below the limit, or no longer than what every file starts with. */
  lemma {:induction false} SizesBounded(o: Options, pcapng: seq<bool>, io: Io, es: seq<Event>, k: nat)
    requires OptionsFit(o, pcapng) && Started(o, pcapng, io).1 && true !in pcapng && SizeLimited(o)
    requires k < |Run(o, Started(o, pcapng, io).0, es).files|
    ensures var f := Run(o, Started(o, pcapng, io).0, es).files[k];
            f != [] ==> TotalSize(o, f[..|f| - 1]) <= Max(TotalSize(o, StartOf(o, pcapng)), Bytes(o) - 1)
  {
    hide TotalSize, StartOf, Started, Run;
    var start := StartOf(o, pcapng);
    StartSizes(o, pcapng, io);
    RunSizes(o, start, Started(o, pcapng, io).0, es);
    var f := Run(o, Started(o, pcapng, io).0, es).files[k];
    assert Sized(o, start, f);
    if f != [] {
      if |f| <= |start| {
        PrefixSize(o, start, |f| - 1);
        assert f[..|f| - 1] == start[..|f| - 1];
      } else if |f| - 1 == |start| {
        assert f[..|f| - 1] == start;
      }
    }
  }

  /** When only the size of a file makes dumpcap leave it, every file but the last has reached the limit;
      by SizesBounded it did so with its last packet. */
  lemma {:induction false} SwitchedWhenFull(o: Options, pcapng: seq<bool>, io: Io, es: seq<Event>, k: nat)
    requires OptionsFit(o, pcapng) && Started(o, pcapng, io).1 && true !in pcapng && SizeLimited(o)
    requires forall j :: 0 <= j < |es| ==> OnlySize(o, es[j])
    requires k < |Run(o, Started(o, pcapng, io).0, es).files| - 1
    ensures 1000 * o.autostopFilesize.n <= TotalSize(o, Run(o, Started(o, pcapng, io).0, es).files[k])
  {
    hide TotalSize, StartOf, Started, Run, OnlySize;
    StartSizes(o, pcapng, io);
    RunFull(o, StartOf(o, pcapng), Started(o, pcapng, io).0, es);
  }
}
