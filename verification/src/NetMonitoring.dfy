/** Per-interface deltas of /proc/net/dev counters (worker/src/monitor/net_monitor.cpp). */
module NetMonitoring {
  import opened Words
  import opened Collections
  import opened Deltas

  datatype NetRaw = NetRaw(rxBytes: U64, rxPackets: U64, rxErrors: U64, rxDropped: U64,
                           txBytes: U64, txPackets: U64, txErrors: U64, txDropped: U64)

  datatype NetStats = NetStats(iface: string, rxMbps: real, txMbps: real, rxPackets: U64, txPackets: U64,
                               rxDropped: U64, txDropped: U64, rxErrors: U64, txErrors: U64)

  type Snapshot = map<string, NetRaw>

  /** A parsed line: the trimmed interface name and its counters. */
  datatype Line = Line(iface: string, raw: NetRaw)

  function TableOf(lines: seq<Line>): Snapshot {
    if lines == [] then map[] else TableOf(Front(lines))[Last(lines).iface := Last(lines).raw]
  }

  function StatsFor(iface: string, cur: NetRaw, prev: NetRaw): NetStats {
    NetStats(iface,
             Sub64(cur.rxBytes, prev.rxBytes) as real * 8.0 / 1048576.0,
             Sub64(cur.txBytes, prev.txBytes) as real * 8.0 / 1048576.0,
             Sub64(cur.rxPackets, prev.rxPackets), Sub64(cur.txPackets, prev.txPackets),
             Sub64(cur.rxDropped, prev.rxDropped), Sub64(cur.txDropped, prev.txDropped),
             Sub64(cur.rxErrors, prev.rxErrors), Sub64(cur.txErrors, prev.txErrors))
  }

  /** Every interface but the loopback. */
  predicate IsReported(iface: string) {
    iface != "lo"
  }

  function NameOf(s: NetStats): string {
    s.iface
  }

  function Report(prev: Snapshot, cur: Snapshot): map<string, NetStats> {
    Compare(StatsFor, IsReported, prev, cur)
  }

  lemma StatsNamed(iface: string, cur: NetRaw, prev: NetRaw)
    ensures NameOf(StatsFor(iface, cur, prev)) == iface
  {
  }

  // ------------------------------------------------------------------------------------------
  // Telescoping over a stretch in which the interface stays present
  // ------------------------------------------------------------------------------------------

  datatype Counter = RxPackets | TxPackets | RxDropped | TxDropped | RxErrors | TxErrors

  function RawOf(c: Counter, r: NetRaw): U64 {
    match c
    case RxPackets => r.rxPackets
    case TxPackets => r.txPackets
    case RxDropped => r.rxDropped
    case TxDropped => r.txDropped
    case RxErrors => r.rxErrors
    case TxErrors => r.txErrors
  }

  function Reported(c: Counter, s: NetStats): U64 {
    match c
    case RxPackets => s.rxPackets
    case TxPackets => s.txPackets
    case RxDropped => s.rxDropped
    case TxDropped => s.txDropped
    case RxErrors => s.rxErrors
    case TxErrors => s.txErrors
  }

  ghost predicate Present(snaps: seq<Snapshot>, iface: string) {
    forall i :: 0 <= i < |snaps| ==> iface in snaps[i]
  }

  /** One reading of the interface per snapshot. */
  function Readings(c: Counter, snaps: seq<Snapshot>, iface: string): seq<U64>
    requires forall i :: 0 <= i < |snaps| ==> iface in snaps[i]
  {
    seq(|snaps|, i requires 0 <= i < |snaps| => RawOf(c, snaps[i][iface]))
  }

  /** What the reports of consecutive snapshots say about the interface, added up. */
  function SumReported(c: Counter, snaps: seq<Snapshot>, iface: string): nat
    requires iface != "lo" && forall i :: 0 <= i < |snaps| ==> iface in snaps[i]
  {
    if |snaps| < 2 then 0
    else SumReported(c, Front(snaps), iface) + Reported(c, Report(snaps[|snaps| - 2], Last(snaps))[iface])
  }

  lemma {:induction false} SumOfReports(c: Counter, snaps: seq<Snapshot>, iface: string)
    requires iface != "lo" && Present(snaps, iface)
    ensures SumReported(c, snaps, iface) == SumDeltas(Readings(c, snaps, iface))
  {
    if |snaps| >= 2 {
      SumOfReports(c, Front(snaps), iface);
      assert Front(Readings(c, snaps, iface)) == Readings(c, Front(snaps), iface);
    }
  }

  /** Over any stretch of snapshots in which an interface stays present, its reported packet, drop and error
      deltas add up to last minus first modulo 2^64, and exactly when the counter never decreases. */
  lemma ReportsTelescope(c: Counter, snaps: seq<Snapshot>, iface: string)
    requires snaps != [] && iface != "lo" && Present(snaps, iface)
    ensures var total, change := SumReported(c, snaps, iface), Change(RawOf(c, snaps[0][iface]), RawOf(c, Last(snaps)[iface]));
            && Same64(total, change)
            && (NonDecreasing(Readings(c, snaps, iface)) ==> total == change)
  {
    hide Wrap64, SumReported, SumDeltas, RawOf, NonDecreasing;
    SumOfReports(c, snaps, iface);
    DeltasTelescope(Readings(c, snaps, iface));
  }

  datatype Direction = Rx | Tx

  function ByteReadings(d: Direction, snaps: seq<Snapshot>, iface: string): seq<U64>
    requires forall i :: 0 <= i < |snaps| ==> iface in snaps[i]
  {
    seq(|snaps|, i requires 0 <= i < |snaps| => if d == Rx then snaps[i][iface].rxBytes else snaps[i][iface].txBytes)
  }

  function SumMbps(d: Direction, snaps: seq<Snapshot>, iface: string): real
    requires iface != "lo" && forall i :: 0 <= i < |snaps| ==> iface in snaps[i]
  {
    if |snaps| < 2 then 0.0
    else
      var ns := Report(snaps[|snaps| - 2], Last(snaps))[iface];
      SumMbps(d, Front(snaps), iface) + (if d == Rx then ns.rxMbps else ns.txMbps)
  }

  /** The reported megabits add up to the bytes moved over the stretch, times 8 over 2^20. */
  lemma {:induction false} MbpsTelescope(d: Direction, snaps: seq<Snapshot>, iface: string)
    requires snaps != [] && iface != "lo" && Present(snaps, iface)
    ensures var bytes := ByteReadings(d, snaps, iface);
            && SumMbps(d, snaps, iface) == SumDeltas(bytes) as real * 8.0 / 1048576.0
            && (NonDecreasing(bytes) ==> SumMbps(d, snaps, iface) == Change(bytes[0], Last(bytes)) as real * 8.0 / 1048576.0)
  {
    hide Wrap64;
    if |snaps| >= 2 {
      MbpsTelescope(d, Front(snaps), iface);
      assert Front(ByteReadings(d, snaps, iface)) == ByteReadings(d, Front(snaps), iface);
    }
    DeltasTelescope(ByteReadings(d, snaps, iface));
  }

  /** An interface is reported for an interval exactly when both its snapshots read it and it is not "lo". */
  lemma ReportedExactly(before: seq<Line>, now: seq<Line>, iface: string)
    ensures iface in Report(TableOf(before), TableOf(now))
            <==> iface != "lo" && (exists l :: l in before && l.iface == iface) && (exists l :: l in now && l.iface == iface)
  {
    TableHolds(before, iface);
    TableHolds(now, iface);
  }

  lemma {:induction false} TableHolds(lines: seq<Line>, iface: string)
    ensures iface in TableOf(lines) <==> exists l :: l in lines && l.iface == iface
  {
    if lines != [] {
      TableHolds(Front(lines), iface);
      assert lines == Front(lines) + [Last(lines)];
    }
  }

  /** A snapshot holds the latest line of each interface. */
  lemma {:induction false} TableHoldsLatest(lines: seq<Line>, i: nat)
    requires i < |lines| && forall j :: i < j < |lines| ==> lines[j].iface != lines[i].iface
    ensures lines[i].iface in TableOf(lines) && TableOf(lines)[lines[i].iface] == lines[i].raw
  {
    if i < |lines| - 1 {
      TableHoldsLatest(Front(lines), i);
    }
  }

  // ------------------------------------------------------------------------------------------
  // The monitor
  // ------------------------------------------------------------------------------------------

  class NetMonitor {
    var interfaces: seq<NetStats>
    var prevNetMap: Snapshot
    ghost var snaps: seq<Snapshot>

    /** `snaps` are the snapshots since seeding; the list is the report on the latest two. */
    ghost predicate Valid()
      reads this
    {
      && snaps != [] && prevNetMap == Last(snaps)
      && (|snaps| >= 2 ==> Lists(NameOf, interfaces, Report(snaps[|snaps| - 2], Last(snaps))))
    }

    constructor ()
      ensures Valid() && snaps == [map[]] && interfaces == []
    {
      interfaces, prevNetMap, snaps := [], map[], [map[]];
    }

    /** Seeds the previous snapshot; entries it does not read are kept. */
    method Init(lines: seq<Line>)
      requires Valid()
      modifies this
      ensures Valid() && interfaces == old(interfaces)
      ensures snaps == [old(prevNetMap) + TableOf(lines)]
    {
      assert lines[..0] == [];
      for i := 0 to |lines|
        invariant prevNetMap == old(prevNetMap) + TableOf(lines[..i]) && interfaces == old(interfaces)
      {
        assert Front(lines[..i + 1]) == lines[..i];
        prevNetMap := prevNetMap[lines[i].iface := lines[i].raw];
      }
      assert lines[..|lines|] == lines;
      snaps := [prevNetMap];
    }

    method ReadTable(lines: seq<Line>) returns (curMap: Snapshot)
      ensures curMap == TableOf(lines)
    {
      curMap := map[];
      for i := 0 to |lines|
        invariant curMap == TableOf(lines[..i])
      {
        assert Front(lines[..i + 1]) == lines[..i];
        curMap := curMap[lines[i].iface := lines[i].raw];
      }
      assert lines[..|lines|] == lines;
    }

    /** Reports each interface present in both snapshots once, in any order, and keeps the new snapshot. */
    method Collect(lines: seq<Line>)
      requires Valid()
      modifies this
      ensures Valid() && snaps == old(snaps) + [TableOf(lines)]
    {
      hide StatsFor, TableOf, Compare, Lists;
      var curMap := ReadTable(lines);
      interfaces := [];
      var rest := curMap.Keys;
      ghost var done: map<string, NetStats> := map[];
      ListsNothing(NameOf);
      CompareNothing(StatsFor, IsReported, prevNetMap, curMap);
      while rest != {}
        invariant rest <= curMap.Keys && prevNetMap == old(prevNetMap) && snaps == old(snaps)
        invariant done == Report(prevNetMap, curMap - rest)
        invariant Lists(NameOf, interfaces, done)
        decreases rest
      {
        var iface :| iface in rest;
        CompareExtend(StatsFor, IsReported, prevNetMap, curMap, rest, iface);
        rest := rest - {iface};
        if iface != "lo" && iface in prevNetMap {
          var ns := StatsFor(iface, curMap[iface], prevNetMap[iface]);
          StatsNamed(iface, curMap[iface], prevNetMap[iface]);
          ListsAppend(NameOf, interfaces, done, ns);
          interfaces := interfaces + [ns];
          done := done[iface := ns];
        }
      }
      assert curMap - {} == curMap;
      prevNetMap := curMap;
      snaps := snaps + [curMap];
    }
  }
}
