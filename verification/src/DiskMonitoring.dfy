/** Per-device deltas of /proc/diskstats counters (worker/src/monitor/disk_monitor.cpp). */
module DiskMonitoring {
  import opened Words
  import opened Collections
  import opened Deltas

  datatype DiskRaw = DiskRaw(readsDone: U64, writesDone: U64, readSectors: U64, writeSectors: U64, ioTicks: U64)

  datatype DiskStats = DiskStats(device: string, readMbps: real, writeMbps: real, iops: real, ioLatencyMs: real)

  type Snapshot = map<string, DiskRaw>

  /** A parsed line: the device name and its counters. */
  datatype Line = Line(device: string, raw: DiskRaw)

  predicate Excluded(device: string) {
    device == "" || "loop" <= device || "ram" <= device
  }

  function TableOf(lines: seq<Line>): Snapshot {
    if lines == [] then map[]
    else if Excluded(Last(lines).device) then TableOf(Front(lines))
    else TableOf(Front(lines))[Last(lines).device := Last(lines).raw]
  }

  function StatsFor(device: string, cur: DiskRaw, prev: DiskRaw): DiskStats {
    DiskStats(device,
              Sub64(cur.readSectors, prev.readSectors) as real * 512.0 / 1048576.0,
              Sub64(cur.writeSectors, prev.writeSectors) as real * 512.0 / 1048576.0,
              Sub64(Wrap64(cur.readsDone + cur.writesDone), Wrap64(prev.readsDone + prev.writesDone)) as real,
              Sub64(cur.ioTicks, prev.ioTicks) as real * 1.0)
  }

  /** Every device read: the excluded ones are left out of the snapshots. */
  predicate IsReported(device: string) {
    true
  }

  function NameOf(s: DiskStats): string {
    s.device
  }

  function Report(prev: Snapshot, cur: Snapshot): map<string, DiskStats> {
    Compare(StatsFor, IsReported, prev, cur)
  }

  lemma StatsNamed(device: string, cur: DiskRaw, prev: DiskRaw)
    ensures NameOf(StatsFor(device, cur, prev)) == device
  {
  }

  /** The operations are the reads and writes done together. */
  lemma OperationsExactly(device: string, cur: DiskRaw, prev: DiskRaw)
    ensures StatsFor(device, cur, prev).iops
            == Wrap64((cur.readsDone - prev.readsDone) + (cur.writesDone - prev.writesDone)) as real
  {
    hide Wrap64;
    WrapsTogether(cur.readsDone + cur.writesDone, prev.readsDone + prev.writesDone);
  }

  lemma InReport(prev: Snapshot, cur: Snapshot, device: string)
    requires device in prev && device in cur
    ensures device in Report(prev, cur) && Report(prev, cur)[device] == StatsFor(device, cur[device], prev[device])
  {
  }

  // ------------------------------------------------------------------------------------------
  // Telescoping over a stretch in which the device stays present
  // ------------------------------------------------------------------------------------------

  datatype Counter = Ops | IoTicks | ReadSectors | WriteSectors

  /** The counter behind each reported figure; operations are reads plus writes, wrapped. */
  function RawOf(c: Counter, r: DiskRaw): U64 {
    match c
    case Ops => Wrap64(r.readsDone + r.writesDone)
    case IoTicks => r.ioTicks
    case ReadSectors => r.readSectors
    case WriteSectors => r.writeSectors
  }

  function Reported(c: Counter, s: DiskStats): real {
    match c
    case Ops => s.iops
    case IoTicks => s.ioLatencyMs
    case ReadSectors => s.readMbps
    case WriteSectors => s.writeMbps
  }

  /** Figures per counter unit: a sector is 512 bytes, a megabyte 2^20. */
  function Scale(c: Counter): real {
    if c == Ops || c == IoTicks then 1.0 else 512.0 / 1048576.0
  }

  ghost predicate Present(snaps: seq<Snapshot>, device: string) {
    forall i :: 0 <= i < |snaps| ==> device in snaps[i]
  }

  function Readings(c: Counter, snaps: seq<Snapshot>, device: string): seq<U64>
    requires forall i :: 0 <= i < |snaps| ==> device in snaps[i]
  {
    seq(|snaps|, i requires 0 <= i < |snaps| => RawOf(c, snaps[i][device]))
  }

  function SumReported(c: Counter, snaps: seq<Snapshot>, device: string): real
    requires forall i :: 0 <= i < |snaps| ==> device in snaps[i]
  {
    if |snaps| < 2 then 0.0
    else SumReported(c, Front(snaps), device) + Reported(c, Report(snaps[|snaps| - 2], Last(snaps))[device])
  }

  lemma ReportedIsScaledDelta(c: Counter, device: string, cur: DiskRaw, prev: DiskRaw)
    ensures Reported(c, StatsFor(device, cur, prev)) == Sub64(RawOf(c, cur), RawOf(c, prev)) as real * Scale(c)
  {
  }

  lemma {:induction false} SumOfReports(c: Counter, snaps: seq<Snapshot>, device: string)
    requires Present(snaps, device)
    ensures SumReported(c, snaps, device) == SumDeltas(Readings(c, snaps, device)) as real * Scale(c)
  {
    hide Wrap64, StatsFor, RawOf, Reported, Scale, Report;
    if |snaps| >= 2 {
      InReport(snaps[|snaps| - 2], Last(snaps), device);
      SumOfReports(c, Front(snaps), device);
      assert Front(Readings(c, snaps, device)) == Readings(c, Front(snaps), device);
      ReportedIsScaledDelta(c, device, Last(snaps)[device], snaps[|snaps| - 2][device]);
    }
  }

  /** Over any stretch of snapshots in which a device stays present, each reported figure adds up to the scaled
      sum of its counter's deltas, which is last minus first modulo 2^64, and exactly so when the counter never
      decreases. */
  lemma ReportsTelescope(c: Counter, snaps: seq<Snapshot>, device: string)
    requires snaps != [] && Present(snaps, device)
    ensures var readings := Readings(c, snaps, device);
            && SumReported(c, snaps, device) == SumDeltas(readings) as real * Scale(c)
            && Same64(SumDeltas(readings), Change(readings[0], Last(readings)))
            && (NonDecreasing(readings) ==> SumReported(c, snaps, device) == Change(readings[0], Last(readings)) as real * Scale(c))
  {
    hide Wrap64, SumReported, SumDeltas, RawOf, NonDecreasing, Scale;
    SumOfReports(c, snaps, device);
    DeltasTelescope(Readings(c, snaps, device));
  }

  /** A device is reported for an interval exactly when both its snapshots read it, it has a name, and the name does not
      begin with "loop" or "ram". */
  lemma ReportedExactly(before: seq<Line>, now: seq<Line>, device: string)
    ensures device in Report(TableOf(before), TableOf(now))
            <==> |device| > 0 && !(|device| >= 4 && device[..4] == "loop") && !(|device| >= 3 && device[..3] == "ram")
                 && (exists l :: l in before && l.device == device) && (exists l :: l in now && l.device == device)
  {
    TableHolds(before, device);
    TableHolds(now, device);
  }

  lemma {:induction false} TableHolds(lines: seq<Line>, device: string)
    ensures device in TableOf(lines) <==> !Excluded(device) && exists l :: l in lines && l.device == device
  {
    if lines != [] {
      TableHolds(Front(lines), device);
      assert lines == Front(lines) + [Last(lines)];
    }
  }

  /** A snapshot holds the latest line of each device. */
  lemma {:induction false} TableHoldsLatest(lines: seq<Line>, i: nat)
    requires i < |lines| && forall j :: i < j < |lines| ==> lines[j].device != lines[i].device
    ensures lines[i].device in TableOf(lines) ==> TableOf(lines)[lines[i].device] == lines[i].raw
  {
    hide Excluded;
    TableHolds(lines, lines[i].device);
    if i < |lines| - 1 {
      TableHoldsLatest(Front(lines), i);
    }
  }

  // ------------------------------------------------------------------------------------------
  // The monitor
  // ------------------------------------------------------------------------------------------

  class DiskMonitor {
    var disks: seq<DiskStats>
    var prevMap: Snapshot
    ghost var snaps: seq<Snapshot>

    /** `snaps` are the snapshots since seeding; the list is the report on the latest two. */
    ghost predicate Valid()
      reads this
    {
      && snaps != [] && prevMap == Last(snaps)
      && (|snaps| >= 2 ==> Lists(NameOf, disks, Report(snaps[|snaps| - 2], Last(snaps))))
    }

    constructor ()
      ensures Valid() && snaps == [map[]] && disks == []
    {
      disks, prevMap, snaps := [], map[], [map[]];
    }

    /** Seeds the previous snapshot; entries it does not read are kept. */
    method Init(lines: seq<Line>)
      requires Valid()
      modifies this
      ensures Valid() && disks == old(disks)
      ensures snaps == [old(prevMap) + TableOf(lines)]
    {
      hide Excluded;
      assert lines[..0] == [];
      for i := 0 to |lines|
        invariant prevMap == old(prevMap) + TableOf(lines[..i]) && disks == old(disks)
      {
        assert Front(lines[..i + 1]) == lines[..i];
        if !Excluded(lines[i].device) {
          prevMap := prevMap[lines[i].device := lines[i].raw];
        }
      }
      assert lines[..|lines|] == lines;
      snaps := [prevMap];
    }

    method ReadTable(lines: seq<Line>) returns (curMap: Snapshot)
      ensures curMap == TableOf(lines)
    {
      hide Excluded;
      curMap := map[];
      for i := 0 to |lines|
        invariant curMap == TableOf(lines[..i])
      {
        assert Front(lines[..i + 1]) == lines[..i];
        if !Excluded(lines[i].device) {
          curMap := curMap[lines[i].device := lines[i].raw];
        }
      }
      assert lines[..|lines|] == lines;
    }

    /** Reports each device present in both snapshots once, in any order, and keeps the new snapshot. */
    method Collect(lines: seq<Line>)
      requires Valid()
      modifies this
      ensures Valid() && snaps == old(snaps) + [TableOf(lines)]
    {
      hide StatsFor, TableOf, Compare, Lists;
      var curMap := ReadTable(lines);
      disks := [];
      var rest := curMap.Keys;
      ghost var done: map<string, DiskStats> := map[];
      ListsNothing(NameOf);
      CompareNothing(StatsFor, IsReported, prevMap, curMap);
      while rest != {}
        invariant rest <= curMap.Keys && prevMap == old(prevMap) && snaps == old(snaps)
        invariant done == Report(prevMap, curMap - rest)
        invariant Lists(NameOf, disks, done)
        decreases rest
      {
        var device :| device in rest;
        CompareExtend(StatsFor, IsReported, prevMap, curMap, rest, device);
        rest := rest - {device};
        if device in prevMap {
          var ns := StatsFor(device, curMap[device], prevMap[device]);
          StatsNamed(device, curMap[device], prevMap[device]);
          ListsAppend(NameOf, disks, done, ns);
          disks := disks + [ns];
          done := done[device := ns];
        }
      }
      assert curMap - {} == curMap;
      prevMap := curMap;
      snaps := snaps + [curMap];
    }
  }
}
