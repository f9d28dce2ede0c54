/** capinfos: the loop over the records of a capture file, and what the statistics it keeps mean.

    Times are points on a line with a total order, as nstime_cmp compares them; 0 is the zero time. */
module Capinfos {

  datatype Order = InOrder | NotInOrder | OrderUnknown

  const TSPREC_UNKNOWN := -2

  /** One record, and the number of interfaces the reader knows after reading it. */
  datatype Record = Record(
    hasTime: bool, time: int, tsprec: int, isPacket: bool, len: nat, caplen: nat,
    hasInterface: bool, interface: nat, interfaces: nat)

  /** A time and its precision. */
  datatype Stamp = Stamp(time: int, tsprec: int)

  datatype Info = Info(
    order: Order, timesKnown: bool, packets: nat, bytes: nat, earliest: Stamp, latest: Stamp,
    snaplenMin: nat, snaplenMax: nat, interfaceCounts: seq<nat>, interfaceUnknown: nat)

  // ---- Definitions

  function Packets(rs: seq<Record>): nat {
    if rs == [] then 0 else Packets(rs[..|rs| - 1]) + if rs[|rs| - 1].isPacket then 1 else 0
  }

  function TotalBytes(rs: seq<Record>): nat {
    if rs == [] then 0 else TotalBytes(rs[..|rs| - 1]) + if rs[|rs| - 1].isPacket then rs[|rs| - 1].len else 0
  }

  /** The time of the last record that has one, and zero before there is one. */
  function LastTime(rs: seq<Record>): int {
    if rs == [] then 0 else if rs[|rs| - 1].hasTime then rs[|rs| - 1].time else LastTime(rs[..|rs| - 1])
  }

  /** Record k is earlier than the record before it that has a time, and a packet came before it. */
  predicate Inverted(rs: seq<Record>, k: nat) {
    k < |rs| && rs[k].hasTime && Packets(rs[..k]) > 0 && rs[k].time < LastTime(rs[..k])
  }

  ghost predicate OutOfOrder(rs: seq<Record>) {
    exists k: nat :: Inverted(rs, k)
  }

  predicate AllTimed(rs: seq<Record>) {
    forall k :: 0 <= k < |rs| ==> rs[k].hasTime
  }

  ghost function OrderOf(rs: seq<Record>): Order {
    if OutOfOrder(rs) then NotInOrder else if AllTimed(rs) then InOrder else OrderUnknown
  }

  /** The times the minimum and the maximum are taken of: those after the first packet, together with the
      last one before the second, or the zero time when that has none. */
  function Candidates(rs: seq<Record>): (c: seq<Stamp>)
    ensures c != []
  {
    if rs == [] then [Stamp(0, TSPREC_UNKNOWN)]
    else
      var before, r := rs[..|rs| - 1], rs[|rs| - 1];
      var s := Stamp(r.time, r.tsprec);
      if !r.hasTime then Candidates(before) else if Packets(before) == 0 then [s] else Candidates(before) + [s]
  }

  /** s is the minimum, as it occurs first. */
  ghost predicate FirstMin(c: seq<Stamp>, s: Stamp) {
    exists k :: 0 <= k < |c| && IsFirstMin(c, s, k)
  }

  ghost predicate IsFirstMin(c: seq<Stamp>, s: Stamp, k: nat)
    requires k < |c|
  {
    c[k] == s && (forall j :: 0 <= j < |c| ==> s.time <= c[j].time) && (forall j :: 0 <= j < k ==> s.time < c[j].time)
  }

  ghost predicate FirstMax(c: seq<Stamp>, s: Stamp) {
    exists k :: 0 <= k < |c| && IsFirstMax(c, s, k)
  }

  ghost predicate IsFirstMax(c: seq<Stamp>, s: Stamp, k: nat)
    requires k < |c|
  {
    c[k] == s && (forall j :: 0 <= j < |c| ==> c[j].time <= s.time) && (forall j :: 0 <= j < k ==> c[j].time < s.time)
  }

  /** A packet that was cut off when it was captured. */
  predicate Truncated(r: Record) {
    r.isPacket && r.caplen < r.len
  }

  ghost predicate InferredSnaplens(rs: seq<Record>, low: nat, high: nat) {
    && (forall k :: 0 <= k < |rs| && Truncated(rs[k]) ==> low <= rs[k].caplen <= high)
    && (low == 0xFFFF_FFFF || exists k :: 0 <= k < |rs| && Truncated(rs[k]) && rs[k].caplen == low)
    && (high == 0 || exists k :: 0 <= k < |rs| && Truncated(rs[k]) && rs[k].caplen == high)
  }

  /** The number of interfaces fetched so far: again whenever a packet names one beyond it. */
  function Fetched(initial: nat, rs: seq<Record>): nat {
    if rs == [] then initial
    else
      var n, r := Fetched(initial, rs[..|rs| - 1]), rs[|rs| - 1];
      if r.isPacket && r.hasInterface && r.interface >= n then r.interfaces else n
  }

  /** The interface a packet is for: the one it names, or the first one. */
  function InterfaceOf(r: Record): nat {
    if r.hasInterface then r.interface else 0
  }

  /** The packets of interface i that were counted for it when they were read. */
  function CountOf(initial: nat, rs: seq<Record>, i: nat): nat {
    if rs == [] then 0
    else
      var r := rs[|rs| - 1];
      CountOf(initial, rs[..|rs| - 1], i)
      + if r.isPacket && InterfaceOf(r) == i && i < Fetched(initial, rs) then 1 else 0
  }

  function Sum(c: seq<nat>): nat {
    if c == [] then 0 else Sum(c[..|c| - 1]) + c[|c| - 1]
  }

  /** The reader's list of interfaces only grows. */
  predicate NeverShrinks(initial: nat, rs: seq<Record>) {
    forall k :: 0 <= k < |rs| ==> Fetched(initial, rs[..k]) <= rs[k].interfaces
  }

  // ---- The loop

  /** g_array_set_size. */
  function SetSize(c: seq<nat>, n: nat): (r: seq<nat>)
    ensures |r| == n
    ensures forall i :: 0 <= i < n ==> r[i] == if i < |c| then c[i] else 0
  {
    if n <= |c| then c[..n] else c + seq(n - |c|, _ => 0)
  }

  lemma {:induction false} SumOfZeros(c: seq<nat>)
    requires forall i :: 0 <= i < |c| ==> c[i] == 0
    ensures Sum(c) == 0
  {
    if c != [] {
      SumOfZeros(c[..|c| - 1]);
    }
  }

  lemma {:induction false} SumOfMore(a: seq<nat>, b: seq<nat>)
    ensures Sum(a + b) == Sum(a) + Sum(b)
    decreases |b|
  {
    if b == [] {
      assert a + b == a;
    } else {
      SumOfMore(a, b[..|b| - 1]);
      assert (a + b)[..|a + b| - 1] == a + b[..|b| - 1];
    }
  }

  lemma {:induction false} GrowKeepsSum(c: seq<nat>, n: nat)
    requires |c| <= n
    ensures Sum(SetSize(c, n)) == Sum(c)
  {
    if n == |c| {
      assert c[..n] == c;
    } else {
      var zeros := seq(n - |c|, _ => 0);
      SumOfMore(c, zeros);
      SumOfZeros(zeros);
    }
  }

  lemma {:induction false} SumOfOneMore(c: seq<nat>, i: nat)
    requires i < |c|
    ensures Sum(c[i := c[i] + 1]) == Sum(c) + 1
  {
    var d, last := c[i := c[i] + 1], |c| - 1;
    if i == last {
      assert d[..last] == c[..last];
    } else {
      assert d[..last] == c[..last][i := c[i] + 1];
      SumOfOneMore(c[..last], i);
    }
  }

  lemma Snoc(rs: seq<Record>, n: nat)
    requires n < |rs|
    ensures rs[..n + 1] == rs[..n] + [rs[n]] && rs[..n + 1][..n] == rs[..n]
  {
  }

  /** The order after one more record. */
  lemma OutOfOrderSnoc(rs: seq<Record>, n: nat)
    requires n < |rs|
    ensures OutOfOrder(rs[..n + 1]) <==> OutOfOrder(rs[..n]) || Inverted(rs, n)
  {
    hide Packets, LastTime;
    var s, t := rs[..n], rs[..n + 1];
    forall k | 0 <= k <= n
      ensures Inverted(t, k) == Inverted(rs, k) && (k < n ==> Inverted(s, k) == Inverted(rs, k))
    {
      assert t[..k] == rs[..k] && (k < n ==> s[..k] == rs[..k]);
    }
    if OutOfOrder(s) {
      var k: nat :| Inverted(s, k);
      assert Inverted(t, k);
    }
    if Inverted(rs, n) {
      assert Inverted(t, n);
    }
  }

  lemma FirstMinSnoc(c: seq<Stamp>, s: Stamp, x: Stamp)
    requires FirstMin(c, s)
    ensures FirstMin(c + [x], if x.time < s.time then x else s)
  {
    var k :| 0 <= k < |c| && IsFirstMin(c, s, k);
    var d := c + [x];
    if x.time < s.time {
      assert IsFirstMin(d, x, |c|);
    } else {
      assert IsFirstMin(d, s, k);
    }
  }

  lemma FirstMaxSnoc(c: seq<Stamp>, s: Stamp, x: Stamp)
    requires FirstMax(c, s)
    ensures FirstMax(c + [x], if x.time > s.time then x else s)
  {
    var k :| 0 <= k < |c| && IsFirstMax(c, s, k);
    var d := c + [x];
    if x.time > s.time {
      assert IsFirstMax(d, x, |c|);
    } else {
      assert IsFirstMax(d, s, k);
    }
  }

  lemma OneStamp(s: Stamp)
    ensures FirstMin([s], s) && FirstMax([s], s)
  {
    assert IsFirstMin([s], s, 0) && IsFirstMax([s], s, 0);
  }

  /** What the table of counts means while the list of interfaces has only grown. */
  ghost predicate Tallied(initial: nat, rs: seq<Record>, counts: seq<nat>, unknown: nat) {
    && |counts| == Fetched(initial, rs)
    && (NeverShrinks(initial, rs) ==>
          && Sum(counts) + unknown == Packets(rs)
          && forall i :: 0 <= i < |counts| ==> counts[i] == CountOf(initial, rs, i))
  }

  /** The counting of one packet. */
  method CountPacket(ghost initial: nat, ghost rs: seq<Record>, ghost n: nat, r: Record,
                     counts: seq<nat>, unknown: nat)
    returns (counts': seq<nat>, unknown': nat)
    requires n < |rs| && r == rs[n] && r.isPacket && Tallied(initial, rs[..n], counts, unknown)
    ensures Tallied(initial, rs[..n + 1], counts', unknown')
  {
    hide Sum, Packets, Fetched, CountOf, NeverShrinks;
    counts', unknown' := counts, unknown;
    if r.hasInterface {
      if r.interface >= |counts'| {
        counts' := SetSize(counts', r.interfaces);
      }
      if r.interface < |counts'| {
        counts' := counts'[r.interface := counts'[r.interface] + 1];
      } else {
        unknown' := unknown' + 1;
      }
    } else {
      if |counts'| != 0 {
        counts' := counts'[0 := counts'[0] + 1];
      } else {
        unknown' := unknown' + 1;
      }
    }
    TallyOne(initial, rs, n, counts, unknown);
  }

  /** The table after a packet of interface i. */
  function Grown(r: Record, counts: seq<nat>): seq<nat> {
    if r.hasInterface && r.interface >= |counts| then SetSize(counts, r.interfaces) else counts
  }

  lemma TallyOne(initial: nat, rs: seq<Record>, n: nat, counts: seq<nat>, unknown: nat)
    requires n < |rs| && rs[n].isPacket && Tallied(initial, rs[..n], counts, unknown)
    ensures var r := rs[n];
            var c, i := Grown(r, counts), InterfaceOf(r);
            if i < |c| then Tallied(initial, rs[..n + 1], c[i := c[i] + 1], unknown)
            else Tallied(initial, rs[..n + 1], c, unknown + 1)
  {
    hide Sum, NeverShrinks;
    var r := rs[n];
    var c, i := Grown(r, counts), InterfaceOf(r);
    Snoc(rs, n);
    assert |c| == Fetched(initial, rs[..n + 1]);
    if NeverShrinks(initial, rs[..n + 1]) {
      ShrinksBefore(initial, rs, n);
      if r.hasInterface && r.interface >= |counts| {
        GrowKeepsSum(counts, r.interfaces);
      }
      if i < |c| {
        SumOfOneMore(c, i);
      }
      forall j | 0 <= j < |c|
        ensures CountOf(initial, rs[..n + 1], j) == c[j] + if i == j then 1 else 0
      {
        if j >= |counts| {
          NotCounted(initial, rs[..n], j);
        }
      }
    }
  }

  lemma ShrinksBefore(initial: nat, rs: seq<Record>, n: nat)
    requires n < |rs| && NeverShrinks(initial, rs[..n + 1])
    ensures NeverShrinks(initial, rs[..n]) && Fetched(initial, rs[..n]) <= rs[n].interfaces
  {
    hide Fetched;
    var t := rs[..n + 1];
    assert t[..n] == rs[..n] && t[n] == rs[n];
    forall k | 0 <= k < n
      ensures Fetched(initial, rs[..n][..k]) <= rs[..n][k].interfaces
    {
      assert t[..k] == rs[..n][..k] && t[k] == rs[..n][k];
    }
  }

  /** While the list grows, nothing is counted for an interface that is beyond it. */
  lemma {:induction false} NotCounted(initial: nat, rs: seq<Record>, i: nat)
    requires NeverShrinks(initial, rs) && i >= Fetched(initial, rs)
    ensures CountOf(initial, rs, i) == 0
  {
    hide NeverShrinks;
    if rs != [] {
      var n := |rs| - 1;
      assert rs[..n + 1] == rs;
      ShrinksBefore(initial, rs, n);
      NotCounted(initial, rs[..n], i);
    }
  }

  /** The statistics are those of the records. */
  ghost predicate Describes(initial: nat, rs: seq<Record>, info: Info) {
    && info.order == OrderOf(rs) && info.timesKnown == AllTimed(rs)
    && info.packets == Packets(rs) && info.bytes == TotalBytes(rs)
    && FirstMin(Candidates(rs), info.earliest) && FirstMax(Candidates(rs), info.latest)
    && InferredSnaplens(rs, info.snaplenMin, info.snaplenMax)
    && Tallied(initial, rs, info.interfaceCounts, info.interfaceUnknown)
  }

  /** The loop of process_cap_file. */
  method ProcessCapFile(initial: nat, records: seq<Record>) returns (info: Info)
    ensures Describes(initial, records, info)
  {
    hide Packets, TotalBytes, LastTime, OutOfOrder, FirstMin, FirstMax, Tallied, Sum, Candidates, InferredSnaplens;
    var order, haveTimes, packets, bytes := InOrder, true, 0, 0;
    var earliest, latest := Stamp(0, TSPREC_UNKNOWN), Stamp(0, TSPREC_UNKNOWN);
    var curTime, prevTime, low, high := 0, 0, 0xFFFF_FFFF, 0;
    var counts, unknown := SetSize([], initial), 0;
    var n := 0;
    StartOfLoop(initial, records);
    while n < |records|
      invariant n <= |records|
      invariant order == OrderOf(records[..n]) && haveTimes == AllTimed(records[..n])
      invariant packets == Packets(records[..n]) && bytes == TotalBytes(records[..n])
      invariant curTime == LastTime(records[..n])
      invariant FirstMin(Candidates(records[..n]), earliest) && FirstMax(Candidates(records[..n]), latest)
      invariant InferredSnaplens(records[..n], low, high)
      invariant Tallied(initial, records[..n], counts, unknown)
    {
      var rec := records[n];
      Snoc(records, n);
      OutOfOrderSnoc(records, n);
      StepOf(records, n, earliest, latest);
      if rec.hasTime {
        prevTime := curTime;
        curTime := rec.time;
        if packets == 0 {
          earliest, latest := Stamp(rec.time, rec.tsprec), Stamp(rec.time, rec.tsprec);
          prevTime := rec.time;
        }
        if curTime < prevTime {
          order := NotInOrder;
        }
        if curTime < earliest.time {
          earliest := Stamp(curTime, rec.tsprec);
        }
        if curTime > latest.time {
          latest := Stamp(curTime, rec.tsprec);
        }
      } else {
        haveTimes := false;
        if order != NotInOrder {
          order := OrderUnknown;
        }
      }
      SnaplenStep(records, n, low, high);
      if rec.isPacket {
        bytes := bytes + rec.len;
        packets := packets + 1;
        if rec.caplen < rec.len {
          if rec.caplen < low {
            low := rec.caplen;
          }
          if rec.caplen > high {
            high := rec.caplen;
          }
        }
        counts, unknown := CountPacket(initial, records, n, rec, counts, unknown);
      } else {
        NoPacket(initial, records, n, counts, unknown);
      }
      n := n + 1;
    }
    assert records[..n] == records;
    info := Info(order, haveTimes, packets, bytes, earliest, latest, low, high, counts, unknown);
  }

  lemma StartOfLoop(initial: nat, rs: seq<Record>)
    ensures rs[..0] == [] && !OutOfOrder([]) && Packets([]) == 0 && TotalBytes([]) == 0 && LastTime([]) == 0
    ensures Candidates([]) == [Stamp(0, TSPREC_UNKNOWN)]
    ensures FirstMin(Candidates([]), Stamp(0, TSPREC_UNKNOWN)) && FirstMax(Candidates([]), Stamp(0, TSPREC_UNKNOWN))
    ensures InferredSnaplens([], 0xFFFF_FFFF, 0) && Tallied(initial, [], SetSize([], initial), 0)
  {
    OneStamp(Stamp(0, TSPREC_UNKNOWN));
    SumOfZeros(SetSize([], initial));
  }

  /** The definitions, one record further. */
  lemma StepOf(rs: seq<Record>, n: nat, earliest: Stamp, latest: Stamp)
    requires n < |rs| && FirstMin(Candidates(rs[..n]), earliest) && FirstMax(Candidates(rs[..n]), latest)
    ensures var r, p := rs[n], Packets(rs[..n]);
            && Packets(rs[..n + 1]) == p + (if r.isPacket then 1 else 0)
            && TotalBytes(rs[..n + 1]) == TotalBytes(rs[..n]) + (if r.isPacket then r.len else 0)
            && LastTime(rs[..n + 1]) == (if r.hasTime then r.time else LastTime(rs[..n]))
    ensures var r, c, c' := rs[n], Candidates(rs[..n]), Candidates(rs[..n + 1]);
            var s := Stamp(r.time, r.tsprec);
            if !r.hasTime then FirstMin(c', earliest) && FirstMax(c', latest)
            else if Packets(rs[..n]) == 0 then FirstMin(c', s) && FirstMax(c', s)
            else FirstMin(c', if r.time < earliest.time then s else earliest)
                 && FirstMax(c', if r.time > latest.time then s else latest)
  {
    hide FirstMin, FirstMax;
    Snoc(rs, n);
    var s := Stamp(rs[n].time, rs[n].tsprec);
    OneStamp(s);
    FirstMinSnoc(Candidates(rs[..n]), earliest, s);
    FirstMaxSnoc(Candidates(rs[..n]), latest, s);
  }

  lemma SnaplenStep(rs: seq<Record>, n: nat, low: nat, high: nat)
    requires n < |rs| && InferredSnaplens(rs[..n], low, high)
    ensures var r := rs[n];
            if Truncated(r)
            then InferredSnaplens(rs[..n + 1], if r.caplen < low then r.caplen else low,
                                               if r.caplen > high then r.caplen else high)
            else InferredSnaplens(rs[..n + 1], low, high)
  {
    var s, t := rs[..n], rs[..n + 1];
    assert t[n] == rs[n] && forall k :: 0 <= k < n ==> t[k] == s[k];
  }

  lemma NoPacket(initial: nat, rs: seq<Record>, n: nat, counts: seq<nat>, unknown: nat)
    requires n < |rs| && !rs[n].isPacket && Tallied(initial, rs[..n], counts, unknown)
    ensures Tallied(initial, rs[..n + 1], counts, unknown)
  {
    hide NeverShrinks, Sum;
    Snoc(rs, n);
    if NeverShrinks(initial, rs[..n + 1]) {
      ShrinksBefore(initial, rs, n);
    }
  }

  // ---- What the documentation promises

  predicate OnlyPackets(rs: seq<Record>) {
    forall k :: 0 <= k < |rs| ==> rs[k].isPacket
  }

  /** The times there are do not go back. */
  predicate Sorted(rs: seq<Record>) {
    forall i, j :: 0 <= i < j < |rs| && rs[i].hasTime && rs[j].hasTime ==> rs[i].time <= rs[j].time
  }

  /** The first packet has no time, and the first time is before the zero time. */
  ghost predicate StartsBeforeZero(rs: seq<Record>) {
    rs != [] && !rs[0].hasTime && exists k :: 0 < k < |rs| && FirstTimed(rs, k) && rs[k].time < 0
  }

  ghost predicate FirstTimed(rs: seq<Record>, k: nat)
    requires k < |rs|
  {
    rs[k].hasTime && forall j :: 0 <= j < k ==> !rs[j].hasTime
  }

  lemma {:induction false} SomePackets(rs: seq<Record>)
    requires OnlyPackets(rs)
    ensures Packets(rs) == |rs|
  {
    if rs != [] {
      SomePackets(rs[..|rs| - 1]);
    }
  }

  /** The last time is that of a record, with none after it; or there is none. */
  lemma {:induction false} LastTimed(rs: seq<Record>) returns (k: int)
    ensures -1 <= k < |rs| && forall j :: k < j < |rs| ==> !rs[j].hasTime
    ensures if k == -1 then LastTime(rs) == 0 else rs[k].hasTime && LastTime(rs) == rs[k].time
  {
    if rs == [] {
      k := -1;
    } else if rs[|rs| - 1].hasTime {
      k := |rs| - 1;
    } else {
      k := LastTimed(rs[..|rs| - 1]);
      assert forall j :: k < j < |rs| - 1 ==> rs[j] == rs[..|rs| - 1][j];
    }
  }

  /** For a file of packets the order is "not in order" exactly when the times are not sorted, or the first
      packet lacks a time and the first time there is lies before the zero time. */
  lemma OrderOfPackets(rs: seq<Record>)
    requires OnlyPackets(rs)
    ensures OutOfOrder(rs) <==> !Sorted(rs) || StartsBeforeZero(rs)
  {
    if OutOfOrder(rs) {
      var k: nat :| Inverted(rs, k);
      Unsorted(rs, k);
    }
    if StartsBeforeZero(rs) {
      var k :| 0 < k < |rs| && FirstTimed(rs, k) && rs[k].time < 0;
      SomePackets(rs[..k]);
      var j := LastTimed(rs[..k]);
      assert Inverted(rs, k);
    }
    if !Sorted(rs) {
      var i, j :| 0 <= i < j < |rs| && rs[i].hasTime && rs[j].hasTime && rs[i].time > rs[j].time;
      Descent(rs, i, j);
    }
  }

  lemma Unsorted(rs: seq<Record>, k: nat)
    requires OnlyPackets(rs) && Inverted(rs, k)
    ensures !Sorted(rs) || StartsBeforeZero(rs)
  {
    SomePackets(rs[..k]);
    var j := LastTimed(rs[..k]);
    if j >= 0 {
      assert rs[j].hasTime && rs[j].time > rs[k].time;
    } else {
      assert forall h :: 0 <= h < k ==> rs[h] == rs[..k][h];
      assert FirstTimed(rs, k);
    }
  }

  // ---- Files with records other than packets

  predicate StampsSorted(c: seq<Stamp>) {
    forall i, j :: 0 <= i < j < |c| ==> c[i].time <= c[j].time
  }

  lemma {:induction false} StampsSnoc(c: seq<Stamp>, s: Stamp)
    requires c != []
    ensures StampsSorted(c + [s]) <==> StampsSorted(c) && c[|c| - 1].time <= s.time
  {
    var d := c + [s];
    if StampsSorted(d) {
      assert forall i :: 0 <= i < |c| ==> d[i] == c[i];
      assert d[|c| - 1].time <= d[|c|].time;
    }
  }

  lemma NothingInverted(rs: seq<Record>)
    requires rs == []
    ensures !OutOfOrder(rs)
  {
  }

  /** For every list of records the loop's verdict is whether the times from the last one before the first
      packet on, or from the zero time, are sorted. */
  lemma {:induction false} OrderIsSortedness(rs: seq<Record>)
    ensures OutOfOrder(rs) <==> !StampsSorted(Candidates(rs))
    ensures var c := Candidates(rs); c[|c| - 1].time == LastTime(rs)
    ensures Packets(rs) == 0 ==> |Candidates(rs)| == 1
  {
    hide OutOfOrder, StampsSorted;
    if rs == [] {
      NothingInverted(rs);
      OneIsSorted(Candidates(rs));
    } else {
      var n := |rs| - 1;
      var before, r := rs[..n], rs[n];
      OrderIsSortedness(before);
      assert rs[..n + 1] == rs;
      OutOfOrderSnoc(rs, n);
      StampsSnoc(Candidates(before), Stamp(r.time, r.tsprec));
      OneIsSorted(Candidates(rs));
      OneIsSorted(Candidates(before));
    }
  }

  lemma OneIsSorted(c: seq<Stamp>)
    ensures |c| == 1 ==> StampsSorted(c)
  {
  }

  /** The times of the packets that have one do not go back. */
  predicate PacketsSorted(rs: seq<Record>) {
    forall i, j :: 0 <= i < j < |rs| && TimedPacket(rs[i]) && TimedPacket(rs[j]) ==> rs[i].time <= rs[j].time
  }

  predicate TimedPacket(r: Record) {
    r.isPacket && r.hasTime
  }

  predicate PacketsTimed(rs: seq<Record>) {
    forall k :: 0 <= k < |rs| && rs[k].isPacket ==> rs[k].hasTime
  }

  /** What the comment on order_t says, which speaks of packets. */
  function Documented(rs: seq<Record>): Order {
    if !PacketsSorted(rs) then NotInOrder else if PacketsTimed(rs) then InOrder else OrderUnknown
  }

  lemma {:induction false} PacketsBefore(rs: seq<Record>, i: nat)
    requires i < |rs| && rs[i].isPacket
    ensures Packets(rs) > 0
  {
    if i < |rs| - 1 {
      PacketsBefore(rs[..|rs| - 1], i);
    }
  }

  /** Times that go back after a packet go back between two neighbours. */
  lemma {:induction false} Descent(rs: seq<Record>, i: nat, j: nat)
    requires i < j < |rs| && rs[i].isPacket && rs[i].hasTime && rs[j].hasTime && rs[i].time > rs[j].time
    ensures OutOfOrder(rs)
    decreases j
  {
    PacketsBefore(rs[..j], i);
    var p := LastTimed(rs[..j]);
    assert p >= i;
    if rs[p].time > rs[j].time {
      assert Inverted(rs, j);
    } else {
      Descent(rs, i, p);
    }
  }

  /** For every list of records: the order that is reported has its documented meaning exactly when the times
      of the packets do go back, or the times the loop compares are sorted and, if every packet has a time,
      so has every other record. */
  lemma {:induction false} DocumentedOrderIffForAll(rs: seq<Record>)
    ensures OrderOf(rs) == Documented(rs) <==>
            !PacketsSorted(rs) || (StampsSorted(Candidates(rs)) && (PacketsTimed(rs) ==> AllTimed(rs)))
  {
    hide OutOfOrder, StampsSorted;
    OrderIsSortedness(rs);
    if !PacketsSorted(rs) {
      var i, j :| 0 <= i < j < |rs| && TimedPacket(rs[i]) && TimedPacket(rs[j]) && rs[i].time > rs[j].time;
      Descent(rs, i, j);
    }
  }

  /** For a file of packets that is: unless sorted times start before the zero time after a packet without
      one. */
  lemma {:induction false} DocumentedOrderIff(rs: seq<Record>)
    requires OnlyPackets(rs)
    ensures OrderOf(rs) == Documented(rs) <==> !(Sorted(rs) && StartsBeforeZero(rs))
    ensures (forall k :: 0 <= k < |rs| && rs[k].hasTime ==> rs[k].time >= 0) ==> OrderOf(rs) == Documented(rs)
  {
    hide OutOfOrder;
    OrderOfPackets(rs);
    assert PacketsSorted(rs) == Sorted(rs);
  }

  /** The documented meaning is not kept in general: sorted times after a packet without one, and packets in
      order with another record between them, are both reported as not in order. */
  lemma DocumentedOrderFails(p: Record, q: Record, r: Record)
    requires p.isPacket && !p.hasTime && q.isPacket && q.hasTime && q.time < 0
    requires !r.isPacket && r.hasTime && r.time < q.time
    ensures Sorted([p, q]) && OrderOf([p, q]) == NotInOrder
    ensures var first := q.(time := q.time - 1);
            var rs := [first, r.(time := first.time - 1), q];
            PacketsSorted(rs) && OrderOf(rs) == NotInOrder
  {
    var first := q.(time := q.time - 1);
    var other := r.(time := first.time - 1);
    assert [p, q][..1] == [p] && [p][..0] == [];
    assert Inverted([p, q], 1);
    var rs := [first, other, q];
    assert rs[..1] == [first] && [first][..0] == [];
    assert Inverted(rs, 1);
  }

  /** When every record is a packet with a time, the candidates are all the times, in order. */
  lemma {:induction false} AllTimesCount(rs: seq<Record>)
    requires OnlyPackets(rs) && AllTimed(rs) && rs != []
    ensures |Candidates(rs)| == |rs|
    ensures forall k :: 0 <= k < |rs| ==> Candidates(rs)[k] == Stamp(rs[k].time, rs[k].tsprec)
  {
    var before := rs[..|rs| - 1];
    SomePackets(before);
    if before != [] {
      AllTimesCount(before);
    }
  }

  /** Then the earliest and the latest time are the true minimum and maximum, with the precision of the
      first record that has them. */
  lemma {:induction false} TrueMinimumAndMaximum(rs: seq<Record>, earliest: Stamp, latest: Stamp)
    requires OnlyPackets(rs) && AllTimed(rs) && rs != []
    requires FirstMin(Candidates(rs), earliest) && FirstMax(Candidates(rs), latest)
    ensures forall k :: 0 <= k < |rs| ==> earliest.time <= rs[k].time <= latest.time
    ensures exists k :: 0 <= k < |rs| && Stamp(rs[k].time, rs[k].tsprec) == earliest
                        && forall j :: 0 <= j < k ==> earliest.time < rs[j].time
    ensures exists k :: 0 <= k < |rs| && Stamp(rs[k].time, rs[k].tsprec) == latest
                        && forall j :: 0 <= j < k ==> rs[j].time < latest.time
  {
    AllTimesCount(rs);
    hide Candidates;
    var c := Candidates(rs);
    var k :| 0 <= k < |c| && IsFirstMin(c, earliest, k);
    var h :| 0 <= h < |c| && IsFirstMax(c, latest, h);
    assert c[k] == earliest && c[h] == latest;
  }
}
