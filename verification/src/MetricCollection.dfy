/** The first-layer monitors together (worker/src/monitor/metric_collector.cpp). */
module MetricCollection {
  import opened Collections
  import opened Deltas
  import NetMonitoring
  import DiskMonitoring
  import CpuStat

  /** What is found out about the host once, at the start. */
  datatype Host = Host(hostname: string, ip: string)

  /** What the monitors read in one round. */
  datatype Reading = Reading(net: seq<NetMonitoring.Line>, disk: seq<DiskMonitoring.Line>, cpu: CpuStat.CpuStatRaw,
                             load1m: real, memUsedPct: real)

  /** The first-layer figures that go into a request. */
  datatype Metrics = Metrics(hostname: string, ip: string, load1m: real, idlePct: real, memUsedPct: real,
                             disks: seq<DiskMonitoring.DiskStats>, nets: seq<NetMonitoring.NetStats>)

  function NetTable(r: Reading): NetMonitoring.Snapshot {
    NetMonitoring.TableOf(r.net)
  }

  function DiskTable(r: Reading): DiskMonitoring.Snapshot {
    DiskMonitoring.TableOf(r.disk)
  }

  function CpuReading(r: Reading): CpuStat.CpuStatRaw {
    r.cpu
  }

  /** What the latest of the readings amounts to; interfaces and disks come in any order. */
  ghost predicate Measures(host: Host, readings: seq<Reading>, m: Metrics) {
    && |readings| >= 2
    && var before, now := readings[|readings| - 2], Last(readings);
       && m.hostname == host.hostname && m.ip == host.ip
       && m.load1m == now.load1m && m.memUsedPct == now.memUsedPct
       && m.idlePct == CpuStat.Run(Map(CpuReading, readings)).pct.idle
       && Lists(NetMonitoring.NameOf, m.nets, NetMonitoring.Report(NetTable(before), NetTable(now)))
       && Lists(DiskMonitoring.NameOf, m.disks, DiskMonitoring.Report(DiskTable(before), DiskTable(now)))
  }

  class MetricCollector {
    const host: Host
    const cpuStat: CpuStat.CpuStatMonitor
    const disk: DiskMonitoring.DiskMonitor
    const net: NetMonitoring.NetMonitor
    var load1m: real
    var memUsedPct: real
    ghost var readings: seq<Reading>

    ghost predicate Valid()
      reads this, cpuStat, disk, net
    {
      && cpuStat.Valid() && disk.Valid() && net.Valid()
      && cpuStat.readings == Map(CpuReading, readings)
      && disk.snaps == Map(DiskTable, readings) && net.snaps == Map(NetTable, readings)
    }

    function Figures(): Metrics
      reads this, cpuStat, disk, net
    {
      Metrics(host.hostname, host.ip, load1m, cpuStat.pct.idle, memUsedPct, disk.disks, net.interfaces)
    }

    /** Construction followed by Init, which seeds the monitors that compare readings. */
    constructor Init(host: Host, seed: Reading)
      ensures Valid() && readings == [seed] && this.host == host
    {
      hide NetMonitoring.TableOf, DiskMonitoring.TableOf, CpuStat.Run;
      this.host, load1m, memUsedPct, readings := host, 0.0, 0.0, [seed];
      var c := new CpuStat.CpuStatMonitor.Init(seed.cpu);
      var d := new DiskMonitoring.DiskMonitor();
      var n := new NetMonitoring.NetMonitor();
      d.Init(seed.disk);
      n.Init(seed.net);
      OneReading(seed);
      cpuStat, disk, net := c, d, n;
    }

    method Collect(r: Reading)
      requires Valid()
      modifies this, cpuStat, disk, net
      ensures Valid() && readings == old(readings) + [r]
      ensures Measures(host, readings, Figures())
    {
      hide NetTable, DiskTable, NetMonitoring.TableOf, DiskMonitoring.TableOf, CpuStat.Run, Lists, NetMonitoring.Report,
           DiskMonitoring.Report, CpuStat.Step, Measures, Map, CpuReading;
      NextReading(readings, r);
      load1m := r.load1m;
      cpuStat.Collect(r.cpu);
      memUsedPct := r.memUsedPct;
      disk.Collect(r.disk);
      net.Collect(r.net);
      readings := readings + [r];
      LatestMeasures(host, readings, Figures());
    }
  }

  lemma OneReading(seed: Reading)
    ensures map[] + NetMonitoring.TableOf(seed.net) == NetTable(seed) && map[] + DiskMonitoring.TableOf(seed.disk) == DiskTable(seed)
    ensures Map(CpuReading, [seed]) == [seed.cpu] && Map(NetTable, [seed]) == [NetTable(seed)] && Map(DiskTable, [seed]) == [DiskTable(seed)]
  {
    hide NetMonitoring.TableOf, DiskMonitoring.TableOf;
  }

  lemma NextReading(readings: seq<Reading>, r: Reading)
    ensures Map(CpuReading, readings + [r]) == Map(CpuReading, readings) + [r.cpu]
    ensures Map(NetTable, readings + [r]) == Map(NetTable, readings) + [NetMonitoring.TableOf(r.net)]
    ensures Map(DiskTable, readings + [r]) == Map(DiskTable, readings) + [DiskMonitoring.TableOf(r.disk)]
  {
    hide NetMonitoring.TableOf, DiskMonitoring.TableOf;
  }

  lemma LatestMeasures(host: Host, readings: seq<Reading>, m: Metrics)
    requires |readings| >= 2
    requires m.hostname == host.hostname && m.ip == host.ip
    requires m.load1m == Last(readings).load1m && m.memUsedPct == Last(readings).memUsedPct
    requires m.idlePct == CpuStat.Run(Map(CpuReading, readings)).pct.idle
    requires var nets, disks := Map(NetTable, readings), Map(DiskTable, readings);
             && Lists(NetMonitoring.NameOf, m.nets, NetMonitoring.Report(nets[|nets| - 2], Last(nets)))
             && Lists(DiskMonitoring.NameOf, m.disks, DiskMonitoring.Report(disks[|disks| - 2], Last(disks)))
    ensures Measures(host, readings, m)
  {
    hide NetMonitoring.Report, DiskMonitoring.Report, CpuStat.Run, Lists, NetTable, DiskTable;
  }
}
