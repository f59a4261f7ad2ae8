/** One push: collect, build the request, clear every buffer, send (worker/src/rpc/monitor_pusher.cpp). */
module MonitorPush {
  import opened Words
  import opened Collections
  import opened Diagnosis
  import opened Rotation
  import opened MetricCollection
  import Observe
  import Protocol
  import DiskMonitoring
  import NetMonitoring
  import Bpf = BpfDiagnosis
  import PerfTrigger = PerfDiagnosis
  import TcpFlow

  /** The events waiting on the worker. */
  datatype Buffers = Buffers(processEvents: seq<Observe.CppProcessEvent>, flowEvents: seq<Observe.CppFlowEvent>,
                             bpfEvents: seq<DiagEvent>, perfEvents: seq<DiagEvent>)

  const EMPTY_BUFFERS: Buffers := Buffers([], [], [], [])

  function DiskMsg(d: DiskMonitoring.DiskStats): Protocol.DiskInfo {
    Protocol.DiskInfo(d.device, d.readMbps, d.writeMbps, d.iops, d.ioLatencyMs)
  }

  function NetMsg(n: NetMonitoring.NetStats): Protocol.NetInfo {
    Protocol.NetInfo(n.iface, n.rxMbps, n.txMbps, n.rxPackets, n.txPackets, n.rxDropped, n.txDropped, n.rxErrors, n.txErrors)
  }

  function ProcessMsg(p: Observe.CppProcessEvent): Protocol.ProcessEvent {
    Protocol.ProcessEvent(p.comm, p.pid, p.ppid, p.filename, p.event, p.tsNs)
  }

  function FlowMsg(f: Observe.CppFlowEvent): Protocol.FlowEvent {
    Protocol.FlowEvent(f.pid, f.comm, f.srcIp, f.srcPort, f.dstIp, f.dstPort, f.bytesSent, f.bytesRecv,
                       f.connectLatencyNs, f.state, f.startNs, f.lastNs)
  }

  function DiagMsg(e: DiagEvent): Protocol.DiagnoseEvent {
    Protocol.DiagnoseEvent(e.kind, e.processName, e.threadName, e.filePath, e.timestamp, e.cpuPercent)
  }

  /** The request for what is waiting: the BPF events come before the perf events. */
  function BuildInfo(m: Metrics, timestamp: I64, b: Buffers): Protocol.MonitorInfo {
    Protocol.MonitorInfo(m.hostname, m.ip, timestamp, m.load1m, m.idlePct, m.memUsedPct,
                         Map(DiskMsg, m.disks), Map(NetMsg, m.nets),
                         Some(Protocol.ObserveBatch(Map(ProcessMsg, b.processEvents), Map(FlowMsg, b.flowEvents))),
                         Map(DiagMsg, b.bpfEvents) + Map(DiagMsg, b.perfEvents))
  }

  /** The round of the perf thread that falls within a push, if one does. */
  function RaceRounds(race: Option<PerfTrigger.Outside>, files: Files): seq<PerfTrigger.Action> {
    if race.Some? then [PerfTrigger.Round(race.value, files)] else []
  }

  method AddDisks(disks: seq<DiskMonitoring.DiskStats>) returns (msgs: seq<Protocol.DiskInfo>)
    ensures msgs == Map(DiskMsg, disks)
  {
    msgs := [];
    for i := 0 to |disks|
      invariant msgs == Map(DiskMsg, disks[..i])
    {
      var d := disks[i];
      MapPrefix(DiskMsg, disks, i);
      msgs := msgs + [Protocol.DiskInfo(d.device, d.readMbps, d.writeMbps, d.iops, d.ioLatencyMs)];
    }
    assert disks[..|disks|] == disks;
  }

  method AddNets(nets: seq<NetMonitoring.NetStats>) returns (msgs: seq<Protocol.NetInfo>)
    ensures msgs == Map(NetMsg, nets)
  {
    msgs := [];
    for i := 0 to |nets|
      invariant msgs == Map(NetMsg, nets[..i])
    {
      var n := nets[i];
      MapPrefix(NetMsg, nets, i);
      msgs := msgs + [Protocol.NetInfo(n.iface, n.rxMbps, n.txMbps, n.rxPackets, n.txPackets,
                                       n.rxDropped, n.txDropped, n.rxErrors, n.txErrors)];
    }
    assert nets[..|nets|] == nets;
  }

  method AddProcesses(events: seq<Observe.CppProcessEvent>) returns (msgs: seq<Protocol.ProcessEvent>)
    ensures msgs == Map(ProcessMsg, events)
  {
    msgs := [];
    for i := 0 to |events|
      invariant msgs == Map(ProcessMsg, events[..i])
    {
      var p := events[i];
      MapPrefix(ProcessMsg, events, i);
      msgs := msgs + [Protocol.ProcessEvent(p.comm, p.pid, p.ppid, p.filename, p.event, p.tsNs)];
    }
    assert events[..|events|] == events;
  }

  method AddFlows(events: seq<Observe.CppFlowEvent>) returns (msgs: seq<Protocol.FlowEvent>)
    ensures msgs == Map(FlowMsg, events)
  {
    msgs := [];
    for i := 0 to |events|
      invariant msgs == Map(FlowMsg, events[..i])
    {
      var f := events[i];
      MapPrefix(FlowMsg, events, i);
      msgs := msgs + [Protocol.FlowEvent(f.pid, f.comm, f.srcIp, f.srcPort, f.dstIp, f.dstPort, f.bytesSent, f.bytesRecv,
                                         f.connectLatencyNs, f.state, f.startNs, f.lastNs)];
    }
    assert events[..|events|] == events;
  }

  method AddDiagnoses(msgs0: seq<Protocol.DiagnoseEvent>, events: seq<DiagEvent>) returns (msgs: seq<Protocol.DiagnoseEvent>)
    ensures msgs == msgs0 + Map(DiagMsg, events)
  {
    msgs := msgs0;
    for i := 0 to |events|
      invariant msgs == msgs0 + Map(DiagMsg, events[..i])
    {
      var e := events[i];
      MapPrefix(DiagMsg, events, i);
      msgs := msgs + [Protocol.DiagnoseEvent(e.kind, e.processName, e.threadName, e.filePath, e.timestamp, e.cpuPercent)];
    }
    assert events[..|events|] == events;
  }

  class MonitorPusher {
    const collector: MetricCollector
    const observer: Observe.ObserveCollector
    const bpfDiagnoser: Bpf.BpfDiagnoser
    const perfDiagnoser: PerfTrigger.PerfDiagnoser

    ghost predicate Valid()
      reads this, collector, collector.cpuStat, collector.disk, collector.net, bpfDiagnoser, perfDiagnoser
    {
      collector.Valid() && bpfDiagnoser.Valid() && perfDiagnoser.Valid()
    }

    /** A pusher owns its collectors and diagnosers. */
    constructor (host: Host, seed: Reading, bpf: Bpf.Settings, perf: PerfTrigger.Settings)
      ensures Valid() && Waiting() == EMPTY_BUFFERS
      ensures collector.host == host && bpfDiagnoser.settings == bpf && perfDiagnoser.settings == perf
      ensures collector.readings == [seed] && bpfDiagnoser.actions == [] && perfDiagnoser.actions == []
    {
      hide MetricCollector.Valid, Bpf.BpfDiagnoser.Valid, PerfTrigger.PerfDiagnoser.Valid;
      collector := new MetricCollector.Init(host, seed);
      observer := new Observe.ObserveCollector();
      bpfDiagnoser := new Bpf.BpfDiagnoser(bpf);
      perfDiagnoser := new PerfTrigger.PerfDiagnoser(perf);
    }

    ghost function Waiting(): Buffers
      reads this, observer, bpfDiagnoser, perfDiagnoser
    {
      Buffers(observer.processEvents, observer.flowEvents, bpfDiagnoser.events, perfDiagnoser.events)
    }

    /** One push up to the request: collect the figures, then from the perf buffers and the BPF diagnosers, copy
        everything waiting into the request and clear it. `race` is a round of the perf thread that falls between the
        copy of its events and their clearing. */
    method DoPush(r: Reading, timestamp: I64, processes: seq<Observe.RawProcess>, flows: seq<TcpFlow.FlowEvent>,
                  o: Bpf.Outside, fs: FileStore, race: Option<PerfTrigger.Outside>)
      returns (m: Metrics, info: Protocol.MonitorInfo)
      requires Valid()
      modifies collector, collector.cpuStat, collector.disk, collector.net, observer, bpfDiagnoser, perfDiagnoser, fs
      ensures Valid() && Waiting() == EMPTY_BUFFERS
      ensures collector.readings == old(collector.readings) + [r] && Measures(collector.host, collector.readings, m)
      ensures var b, reaped := old(Waiting()), Bpf.Reap(bpfDiagnoser.settings, o, old(bpfDiagnoser.runners), old(fs.files));
              && info == BuildInfo(m, timestamp, Buffers(
                           b.processEvents + Map(Observe.ToProcess, processes),
                           b.flowEvents + Map(Observe.ToFlow, flows),
                           b.bpfEvents + reaped.emitted,
                           b.perfEvents))
              && bpfDiagnoser.actions == old(bpfDiagnoser.actions) + [Bpf.Collect(o, old(fs.files)), Bpf.Reset]
              && perfDiagnoser.actions == old(perfDiagnoser.actions) + RaceRounds(race, reaped.files) + [PerfTrigger.Reset]
    {
      hide Bpf.Reap, Bpf.Run, PerfTrigger.Run, Observe.ToProcess, Observe.ToFlow, Map, RaceRounds, BuildInfo, Measures,
           MetricCollector.Valid, MetricCollector.Figures;
      collector.Collect(r);
      m := collector.Figures();
      info := Build(m, timestamp, processes, flows, o, fs, race);
    }

    method Build(m: Metrics, timestamp: I64, processes: seq<Observe.RawProcess>, flows: seq<TcpFlow.FlowEvent>,
                 o: Bpf.Outside, fs: FileStore, race: Option<PerfTrigger.Outside>) returns (info: Protocol.MonitorInfo)
      requires bpfDiagnoser.Valid() && perfDiagnoser.Valid()
      modifies observer, bpfDiagnoser, perfDiagnoser, fs
      ensures bpfDiagnoser.Valid() && perfDiagnoser.Valid() && Waiting() == EMPTY_BUFFERS
      ensures var b, reaped := old(Waiting()), Bpf.Reap(bpfDiagnoser.settings, o, old(bpfDiagnoser.runners), old(fs.files));
              && info == BuildInfo(m, timestamp, Buffers(
                           b.processEvents + Map(Observe.ToProcess, processes),
                           b.flowEvents + Map(Observe.ToFlow, flows),
                           b.bpfEvents + reaped.emitted,
                           b.perfEvents))
              && bpfDiagnoser.actions == old(bpfDiagnoser.actions) + [Bpf.Collect(o, old(fs.files)), Bpf.Reset]
              && perfDiagnoser.actions == old(perfDiagnoser.actions) + RaceRounds(race, reaped.files) + [PerfTrigger.Reset]
    {
      hide Bpf.Reap, Bpf.Run, PerfTrigger.Run, Observe.ToProcess, Observe.ToFlow, FlowMsg, ProcessMsg, DiagMsg, NetMsg, DiskMsg;
      observer.Collect(processes, flows);
      bpfDiagnoser.CollectEvents(o, fs);
      var disks := AddDisks(m.disks);
      var nets := AddNets(m.nets);
      var ps, fe := TakeObserved();
      var diag := TakeDiagnosed(fs, race);
      info := Protocol.MonitorInfo(m.hostname, m.ip, timestamp, m.load1m, m.idlePct, m.memUsedPct, disks, nets,
                                   Some(Protocol.ObserveBatch(ps, fe)), diag);
    }

    method TakeObserved() returns (ps: seq<Protocol.ProcessEvent>, fe: seq<Protocol.FlowEvent>)
      modifies observer
      ensures ps == Map(ProcessMsg, old(observer.processEvents)) && fe == Map(FlowMsg, old(observer.flowEvents))
      ensures observer.processEvents == [] && observer.flowEvents == []
    {
      ps := AddProcesses(observer.processEvents);
      fe := AddFlows(observer.flowEvents);
      observer.Reset();
    }

    method TakeDiagnosed(fs: FileStore, race: Option<PerfTrigger.Outside>) returns (diag: seq<Protocol.DiagnoseEvent>)
      requires bpfDiagnoser.Valid() && perfDiagnoser.Valid()
      modifies bpfDiagnoser, perfDiagnoser, fs
      ensures bpfDiagnoser.Valid() && perfDiagnoser.Valid() && bpfDiagnoser.events == [] && perfDiagnoser.events == []
      ensures diag == Map(DiagMsg, old(bpfDiagnoser.events)) + Map(DiagMsg, old(perfDiagnoser.events))
      ensures bpfDiagnoser.actions == old(bpfDiagnoser.actions) + [Bpf.Reset]
      ensures perfDiagnoser.actions == old(perfDiagnoser.actions) + RaceRounds(race, old(fs.files)) + [PerfTrigger.Reset]
    {
      hide Bpf.Run, PerfTrigger.Run, DiagMsg;
      diag := AddDiagnoses([], bpfDiagnoser.events);
      bpfDiagnoser.ResetEvents();
      diag := AddDiagnoses(diag, perfDiagnoser.events);
      if race.Some? {
        perfDiagnoser.LoopBody(race.value, fs);
      }
      perfDiagnoser.ResetEvents();
    }
  }
}
