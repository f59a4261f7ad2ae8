/** What the requests say of an interface, a disk or the processor, against what the monitors read, over every run. */
module Figures {
  import opened Words
  import opened Collections
  import opened Deltas
  import opened Rotation
  import opened MetricCollection
  import opened MonitorPush
  import opened Deployment
  import ManagerService
  import NetMonitoring
  import DiskMonitoring
  import CpuStat
  import Protocol

  /** A reported figure: packets, drops and errors of an interface, its traffic, or a figure of a disk. */
  datatype Figure =
    | Packets(counter: NetMonitoring.Counter)
    | Traffic(direction: NetMonitoring.Direction)
    | Disk(diskCounter: DiskMonitoring.Counter)

  /** The reading has the name, and it is one that is reported. */
  predicate Reads(f: Figure, r: Reading, name: string) {
    if f.Disk? then name in DiskTable(r) else name != "lo" && name in NetTable(r)
  }

  /** The kernel's counter behind the figure. */
  function CounterIn(f: Figure, r: Reading, name: string): U64
    requires Reads(f, r, name)
  {
    match f
    case Packets(c) => NetMonitoring.RawOf(c, NetTable(r)[name])
    case Traffic(d) => if d == NetMonitoring.Rx then NetTable(r)[name].rxBytes else NetTable(r)[name].txBytes
    case Disk(c) => DiskMonitoring.RawOf(c, DiskTable(r)[name])
  }

  /** The figure per unit of its counter. */
  function UnitOf(f: Figure): real {
    match f
    case Packets(_) => 1.0
    case Traffic(_) => 8.0 / 1048576.0
    case Disk(c) => DiskMonitoring.Scale(c)
  }

  ghost predicate AllRead(f: Figure, readings: seq<Reading>, name: string) {
    forall k :: 0 <= k < |readings| ==> Reads(f, readings[k], name)
  }

  ghost function Counters(f: Figure, readings: seq<Reading>, name: string): seq<U64>
    requires AllRead(f, readings, name)
  {
    seq(|readings|, k requires 0 <= k < |readings| => CounterIn(f, readings[k], name))
  }

  // ------------------------------------------------------------------------------------------
  // What a request says
  // ------------------------------------------------------------------------------------------

  function NetName(n: Protocol.NetInfo): string {
    n.iface
  }

  function DiskName(d: Protocol.DiskInfo): string {
    d.device
  }

  function NetFigure(f: Figure, n: Protocol.NetInfo): real {
    match f
    case Packets(RxPackets) => n.rxPackets as real
    case Packets(TxPackets) => n.txPackets as real
    case Packets(RxDropped) => n.rxDropped as real
    case Packets(TxDropped) => n.txDropped as real
    case Packets(RxErrors) => n.rxErrors as real
    case Packets(TxErrors) => n.txErrors as real
    case Traffic(d) => if d == NetMonitoring.Rx then n.rxMbps else n.txMbps
    case Disk(_) => 0.0
  }

  function DiskFigure(f: Figure, d: Protocol.DiskInfo): real {
    match f
    case Disk(Ops) => d.iops
    case Disk(IoTicks) => d.ioLatencyMs
    case Disk(ReadSectors) => d.readMbps
    case Disk(WriteSectors) => d.writeMbps
    case _ => 0.0
  }

  /** The figure a request carries for the name, over all entries of that name. */
  function Carried(f: Figure, info: Protocol.MonitorInfo, name: string): real {
    if f.Disk? then SumNamed(DiskName, (d: Protocol.DiskInfo) => DiskFigure(f, d), info.disks, name)
    else SumNamed(NetName, (n: Protocol.NetInfo) => NetFigure(f, n), info.nets, name)
  }

  /** Added up over the requests that reached the manager, or over those that did not. */
  function SumCarried(f: Figure, sent: seq<Dispatch>, name: string, reached: bool): real {
    if sent == [] then 0.0
    else SumCarried(f, Front(sent), name, reached)
         + (if (Last(sent).link == Delivered) == reached then Carried(f, Last(sent).info, name) else 0.0)
  }

  /** One request carries the scaled change of the counter since the reading before. */
  lemma CarriedIsDelta(f: Figure, host: Host, readings: seq<Reading>, m: Metrics, info: Protocol.MonitorInfo, name: string)
    requires Measures(host, readings, m)
    requires info.nets == Map(NetMsg, m.nets) && info.disks == Map(DiskMsg, m.disks)
    requires Reads(f, readings[|readings| - 2], name) && Reads(f, Last(readings), name)
    ensures Carried(f, info, name)
            == Sub64(CounterIn(f, Last(readings), name), CounterIn(f, readings[|readings| - 2], name)) as real * UnitOf(f)
  {
    hide Sub64, NetTable, DiskTable, SumNamed, Lists, CpuStat.Run, DiskMonitoring.RawOf, NetMonitoring.RawOf;
    var before, now := readings[|readings| - 2], Last(readings);
    if f.Disk? {
      var report := DiskMonitoring.Report(DiskTable(before), DiskTable(now));
      ListedOnce(DiskMonitoring.NameOf, DiskMsg, DiskName, (d: Protocol.DiskInfo) => DiskFigure(f, d), m.disks, report, name);
      DiskFigureIsDelta(f, name, DiskTable(now)[name], DiskTable(before)[name]);
    } else {
      var report := NetMonitoring.Report(NetTable(before), NetTable(now));
      ListedOnce(NetMonitoring.NameOf, NetMsg, NetName, (n: Protocol.NetInfo) => NetFigure(f, n), m.nets, report, name);
      NetFigureIsDelta(f, name, NetTable(now)[name], NetTable(before)[name]);
    }
  }

  lemma DiskFigureIsDelta(f: Figure, name: string, cur: DiskMonitoring.DiskRaw, prev: DiskMonitoring.DiskRaw)
    requires f.Disk?
    ensures DiskFigure(f, DiskMsg(DiskMonitoring.StatsFor(name, cur, prev)))
            == Sub64(DiskMonitoring.RawOf(f.diskCounter, cur), DiskMonitoring.RawOf(f.diskCounter, prev)) as real * UnitOf(f)
  {
    DiskMonitoring.ReportedIsScaledDelta(f.diskCounter, name, cur, prev);
  }

  lemma NetFigureIsDelta(f: Figure, name: string, cur: NetMonitoring.NetRaw, prev: NetMonitoring.NetRaw)
    requires !f.Disk?
    ensures NetFigure(f, NetMsg(NetMonitoring.StatsFor(name, cur, prev)))
            == (match f
                case Packets(c) => Sub64(NetMonitoring.RawOf(c, cur), NetMonitoring.RawOf(c, prev)) as real
                case Traffic(d) =>
                  if d == NetMonitoring.Rx then Sub64(cur.rxBytes, prev.rxBytes) as real * UnitOf(f)
                  else Sub64(cur.txBytes, prev.txBytes) as real * UnitOf(f)
                case Disk(_) => 0.0)
  {
    hide Sub64;
  }

  // ------------------------------------------------------------------------------------------
  // Every run
  // ------------------------------------------------------------------------------------------

  lemma RequestFigures(cfg: Config, w: World, i: PushInput, m: Metrics, files: Files)
    ensures var info := Request(cfg, w, i, m, files).info;
            && info.nets == Map(NetMsg, m.nets) && info.disks == Map(DiskMsg, m.disks) && info.idlePct == m.idlePct
            && info.hostname == m.hostname && info.ip == m.ip && info.load1m == m.load1m && info.memUsedPct == m.memUsedPct
            && info.timestamp == i.timestamp
  {
    hide Gathered, Raced, Map, NetMsg, DiskMsg;
  }

  ghost predicate Telescoped(f: Figure, w: World, name: string)
    requires AllRead(f, w.readings, name)
  {
    SumCarried(f, w.sent, name, true) + SumCarried(f, w.sent, name, false)
    == SumDeltas(Counters(f, w.readings, name)) as real * UnitOf(f)
  }

  lemma PushTelescopes(f: Figure, cfg: Config, w: World, i: PushInput, m: Metrics, files: Files, name: string)
    requires w.readings != [] && AllRead(f, w.readings + [i.reading], name)
    requires Measures(cfg.host, w.readings + [i.reading], m)
    requires AllRead(f, w.readings, name) ==> Telescoped(f, w, name)
    ensures var w' := PushStep(cfg, w, i, m, files); AllRead(f, w'.readings, name) && Telescoped(f, w', name)
  {
    hide Request, PushStep, Carried, Measures, Sub64, CounterIn, AllRead, UnitOf, SumCarried, SumDeltas, Counters, Telescoped, Reads;
    var s := Request(cfg, w, i, m, files);
    PushParts(cfg, w, i, m, files);
    RequestFigures(cfg, w, i, m, files);
    CountersOneMore(f, w.readings, i.reading, name);
    CarriedIsDelta(f, cfg.host, w.readings + [i.reading], m, s.info, name);
    OneMoreTelescopes(f, w, PushStep(cfg, w, i, m, files), i.reading, s, name);
  }

  lemma OneMoreTelescopes(f: Figure, w: World, w': World, r: Reading, s: Dispatch, name: string)
    requires w.readings != [] && AllRead(f, w.readings, name) && AllRead(f, w'.readings, name) && Telescoped(f, w, name)
    requires w'.readings == w.readings + [r] && w'.sent == w.sent + [s]
    requires Reads(f, r, name) && Reads(f, Last(w.readings), name)
    requires Carried(f, s.info, name) == Sub64(CounterIn(f, r, name), CounterIn(f, Last(w.readings), name)) as real * UnitOf(f)
    ensures Telescoped(f, w', name)
  {
    hide Carried, Sub64, CounterIn, AllRead, UnitOf, SumCarried, SumDeltas, Counters, Reads;
    CountersOneMore(f, w.readings, r, name);
    CarriedOneMore(f, w.sent, s, name);
    Distribute(SumDeltas(Counters(f, w.readings, name)), Sub64(CounterIn(f, r, name), CounterIn(f, Last(w.readings), name)), UnitOf(f));
  }

  lemma CarriedOneMore(f: Figure, sent: seq<Dispatch>, s: Dispatch, name: string)
    ensures SumCarried(f, sent + [s], name, true) + SumCarried(f, sent + [s], name, false)
            == SumCarried(f, sent, name, true) + SumCarried(f, sent, name, false) + Carried(f, s.info, name)
  {
    hide Carried;
    FrontOfAppend(sent, s);
  }

  lemma CountersOneMore(f: Figure, readings: seq<Reading>, r: Reading, name: string)
    requires readings != [] && AllRead(f, readings + [r], name)
    ensures AllRead(f, readings, name) && Reads(f, r, name) && Reads(f, Last(readings), name)
    ensures Last(readings + [r]) == r && (readings + [r])[|readings + [r]| - 2] == Last(readings)
    ensures SumDeltas(Counters(f, readings + [r], name))
            == SumDeltas(Counters(f, readings, name)) + Sub64(CounterIn(f, r, name), CounterIn(f, Last(readings), name))
  {
    hide Sub64, CounterIn, Reads;
    var all := readings + [r];
    assert forall k :: 0 <= k < |readings| ==> all[k] == readings[k];
    assert all[|readings|] == r;
    assert Front(Counters(f, all, name)) == Counters(f, readings, name);
  }

  lemma Distribute(a: nat, b: nat, unit: real)
    ensures (a + b) as real * unit == a as real * unit + b as real * unit
  {
  }

  lemma OthersReadNothing(cfg: Config, w: World, a: Action)
    requires !a.Push?
    ensures var w' := Deployment.Step(cfg, w, a); w'.readings == w.readings && w'.sent == w.sent
  {
    hide KernelStep;
    if a.Kernel? {
      KernelKeeps(w, a.step, a.bufferHasRoom);
    }
  }

  lemma {:induction false} FiguresInRun(f: Figure, cfg: Config, actions: seq<Action>, name: string)
    requires Measured(cfg, actions) && AllRead(f, RunWorld(cfg, actions).readings, name)
    ensures RunWorld(cfg, actions).readings != [] && Telescoped(f, RunWorld(cfg, actions), name)
  {
    hide Telescoped, Deployment.Step, AllRead, Measures;
    if actions == [] {
      AtStart(cfg);
      NothingCarried(f, cfg, name);
    } else {
      var w, a := RunWorld(cfg, Front(actions)), Last(actions);
      match a
      case Push(i, m, files) =>
        StepOfPush(cfg, w, i, m, files);
        ReadBefore(f, w.readings, i.reading, name);
        FiguresInRun(f, cfg, Front(actions), name);
        PushTelescopes(f, cfg, w, i, m, files, name);
      case _ =>
        OthersReadNothing(cfg, w, a);
        FiguresInRun(f, cfg, Front(actions), name);
        SameTelescoped(f, w, Deployment.Step(cfg, w, a), name);
    }
  }

  lemma ReadBefore(f: Figure, readings: seq<Reading>, r: Reading, name: string)
    requires AllRead(f, readings + [r], name)
    ensures AllRead(f, readings, name)
  {
    assert forall k :: 0 <= k < |readings| ==> (readings + [r])[k] == readings[k];
  }

  lemma SameTelescoped(f: Figure, w: World, w': World, name: string)
    requires AllRead(f, w.readings, name) && w'.readings == w.readings && w'.sent == w.sent && Telescoped(f, w, name)
    ensures Telescoped(f, w', name)
  {
  }

  lemma StepOfPush(cfg: Config, w: World, i: PushInput, m: Metrics, files: Files)
    ensures Deployment.Step(cfg, w, Push(i, m, files)) == PushStep(cfg, w, i, m, files)
    ensures PushStep(cfg, w, i, m, files).readings == w.readings + [i.reading]
  {
    hide Request, Reaping;
  }

  lemma NothingCarried(f: Figure, cfg: Config, name: string)
    requires AllRead(f, Start(cfg).readings, name)
    ensures Telescoped(f, Start(cfg), name)
  {
  }

  /** In every run in which an interface or disk stays present, what the requests report of it, whether they reached the
      manager or were lost, adds up to the change of the kernel's counter since the worker started: modulo 2^64, and
      exactly when the counter never decreases. */
  lemma FiguresTelescope(f: Figure, cfg: Config, actions: seq<Action>, name: string)
    requires Measured(cfg, actions) && AllRead(f, RunWorld(cfg, actions).readings, name)
    ensures var w := RunWorld(cfg, actions);
            var counters := Counters(f, w.readings, name);
            var reported := SumCarried(f, w.sent, name, true) + SumCarried(f, w.sent, name, false);
            && counters != [] && reported == SumDeltas(counters) as real * UnitOf(f)
            && Same64(SumDeltas(counters), Change(counters[0], Last(counters)))
            && (NonDecreasing(counters) ==> reported == Change(counters[0], Last(counters)) as real * UnitOf(f))
  {
    hide RunWorld, Measured, AllRead, SumDeltas, Same64, NonDecreasing, SumCarried, UnitOf, CounterIn;
    FiguresInRun(f, cfg, actions, name);
    DeltasTelescope(Counters(f, RunWorld(cfg, actions).readings, name));
  }

  // ------------------------------------------------------------------------------------------
  // The processor
  // ------------------------------------------------------------------------------------------

  ghost predicate IdleIsShare(s: Dispatch) {
    && 0.0 <= s.info.idlePct <= 100.0
    && forall now :: 0.0 <= ManagerService.SnapshotOf(s.info, now).cpuUsedPct <= 100.0
  }

  lemma PushedIdleIsShare(cfg: Config, w: World, i: PushInput, m: Metrics, files: Files)
    requires Measures(cfg.host, w.readings + [i.reading], m)
    requires CpuStat.Steady(Map(CpuReading, w.readings + [i.reading]))
    ensures IdleIsShare(Request(cfg, w, i, m, files))
  {
    hide Request, CpuStat.Run, CpuStat.Steady, CpuStat.SumOfPct, Map, Lists;
    var readings := Map(CpuReading, w.readings + [i.reading]);
    assert |readings| == |w.readings| + 1;
    CpuStat.ReportedPercentagesAreShares(readings);
    assert CpuStat.PctOf(CpuStat.Idle, CpuStat.Run(readings).pct) == m.idlePct;
    RequestFigures(cfg, w, i, m, files);
  }

  lemma SteadyBefore(readings: seq<Reading>, r: Reading)
    requires CpuStat.Steady(Map(CpuReading, readings + [r]))
    ensures CpuStat.Steady(Map(CpuReading, readings))
  {
    hide CpuStat.Unsaturated, CpuStat.NoneDecreases;
    MapAppend(CpuReading, readings, [r]);
    var all, before := Map(CpuReading, readings + [r]), Map(CpuReading, readings);
    assert forall k :: 0 <= k < |before| ==> all[k] == before[k];
  }

  /** In every run with a steady processor clock, every request sent carries an idle share within [0, 100], and so does
      the used share of any snapshot the manager makes of it. */
  lemma {:induction false} SentIdleIsShare(cfg: Config, actions: seq<Action>)
    requires Measured(cfg, actions) && CpuStat.Steady(Map(CpuReading, RunWorld(cfg, actions).readings))
    ensures forall k :: 0 <= k < |RunWorld(cfg, actions).sent| ==> IdleIsShare(RunWorld(cfg, actions).sent[k])
  {
    hide IdleIsShare, Deployment.Step, CpuStat.Steady, Measures, Map;
    if actions != [] {
      var w, a := RunWorld(cfg, Front(actions)), Last(actions);
      match a
      case Push(i, m, files) =>
        StepOfPush(cfg, w, i, m, files);
        PushParts(cfg, w, i, m, files);
        SteadyBefore(w.readings, i.reading);
        SentIdleIsShare(cfg, Front(actions));
        PushedIdleIsShare(cfg, w, i, m, files);
      case _ =>
        OthersReadNothing(cfg, w, a);
        SentIdleIsShare(cfg, Front(actions));
    }
  }

  // ------------------------------------------------------------------------------------------
  // Host, load and memory
  // ------------------------------------------------------------------------------------------

  /** In every run there is one request per reading after the first, and it carries the host's name and address and that
      reading's load and memory. */
  lemma {:induction false} SentCarriesReadings(cfg: Config, actions: seq<Action>)
    requires Measured(cfg, actions)
    ensures var w := RunWorld(cfg, actions);
            && |w.readings| == |w.sent| + 1
            && forall k :: 0 <= k < |w.sent| ==>
                 && w.sent[k].info.hostname == cfg.host.hostname && w.sent[k].info.ip == cfg.host.ip
                 && w.sent[k].info.load1m == w.readings[k + 1].load1m && w.sent[k].info.memUsedPct == w.readings[k + 1].memUsedPct
  {
    hide Deployment.Step, Lists, CpuStat.Run, Map;
    if actions == [] {
      AtStart(cfg);
    } else {
      var w, a := RunWorld(cfg, Front(actions)), Last(actions);
      SentCarriesReadings(cfg, Front(actions));
      match a
      case Push(i, m, files) =>
        StepOfPush(cfg, w, i, m, files);
        PushParts(cfg, w, i, m, files);
        RequestFigures(cfg, w, i, m, files);
      case _ => OthersReadNothing(cfg, w, a);
    }
  }
}
