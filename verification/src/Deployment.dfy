/** One worker and its manager: the kernel's probes, both diagnosers, the pushes, and the manager's calls, as one
    state machine (worker/src/main.cpp, worker/src/rpc/monitor_pusher.cpp, manager/src/main.cpp). */
module Deployment {
  import opened Words
  import opened Collections
  import opened TcpFlow
  import opened Diagnosis
  import opened Rotation
  import opened MetricCollection
  import opened HostTable
  import opened ManagerService
  import opened MonitorPush
  import Bpf = BpfDiagnosis
  import PerfTrigger = PerfDiagnosis
  import Observe
  import Protocol

  /** What stays fixed while a worker runs: its host, the reading its monitors start from, the diagnosers' settings,
      and whether its one attempt to connect succeeded. */
  datatype Config = Config(host: Host, seed: Reading, bpf: Bpf.Settings, perf: PerfTrigger.Settings, connected: bool)

  /** What becomes of a built request: never sent because the worker has no connection, lost on the way, or
      handled by the manager (whatever status the worker then sees: it ignores it). */
  datatype Link = NoStub | Lost | Delivered

  /** What one push finds outside: what its monitors read, the clocks, how many flow events it polls and which process
      events, the state of the tools, a round of the perf thread that falls within it, and whether the call arrives. */
  datatype PushInput = PushInput(reading: Reading, timestamp: I64, polled: nat, processes: seq<Observe.RawProcess>,
                                 outside: Bpf.Outside, race: Option<PerfTrigger.Outside>, arrives: bool, now: I64)

  /** A push is recorded with the figures it made of its reading, in the order they came in; `Elsewhere` is any other worker's call and the manager's own eviction. */
  datatype Action =
    | Kernel(step: TcpFlow.Step, bufferHasRoom: bool)
    | StartOffcpu(offcpuCfg: Bpf.OffcpuConfig, launch: Bpf.Launch)
    | StartProfile(profileCfg: Bpf.ProfileConfig, launch: Bpf.Launch)
    | PerfRound(outside: PerfTrigger.Outside, files: Files)
    | Push(input: PushInput, metrics: Metrics, files: Files)
    | Elsewhere(call: Call)

  /** A request with its place in the run: how many of its diagnose events came from the BPF diagnosers, and
      the perf events that arrived between the copy and the clearing of the perf buffer. */
  datatype Dispatch = Dispatch(info: Protocol.MonitorInfo, bpfCount: nat, raced: seq<DiagEvent>, link: Link, now: I64)

  /** The probes fired, the flow events waiting in and lost by the perf buffer, what the monitors read and each
      diagnoser has done,
      the requests built, and the calls the manager has handled. */
  datatype World = World(trace: seq<TcpFlow.Step>, buffer: seq<TcpFlow.FlowEvent>, dropped: seq<TcpFlow.FlowEvent>,
                         readings: seq<Reading>, bpfActions: seq<Bpf.Action>, perfActions: seq<PerfTrigger.Action>,
                         sent: seq<Dispatch>, calls: seq<Call>)

  function Start(cfg: Config): World {
    World([], [], [], [cfg.seed], [], [], [], [])
  }

  ghost function BpfOf(cfg: Config, w: World): Bpf.Bpf {
    Bpf.Run(cfg.bpf, w.bpfActions)
  }

  ghost function PerfOf(cfg: Config, w: World): PerfTrigger.PerfState {
    PerfTrigger.Run(cfg.perf, w.perfActions)
  }

  function Ops(w: World): seq<HostTable.Op> {
    Map(OpOf, w.calls)
  }

  // ------------------------------------------------------------------------------------------
  // One action
  // ------------------------------------------------------------------------------------------

  /** What the push's poll of the BPF tools finds finished. */
  ghost function Reaping(cfg: Config, w: World, i: PushInput, files: Files): Bpf.Reaped {
    Bpf.Reap(cfg.bpf, i.outside, BpfOf(cfg, w).runners, files)
  }

  function Polled(w: World, i: PushInput): seq<TcpFlow.FlowEvent> {
    w.buffer[..Min(i.polled, |w.buffer|)]
  }

  ghost function Gathered(cfg: Config, w: World, i: PushInput, files: Files): Buffers {
    Buffers(Map(Observe.ToProcess, i.processes), Map(Observe.ToFlow, Polled(w, i)),
            BpfOf(cfg, w).events + Reaping(cfg, w, i, files).emitted, PerfOf(cfg, w).events)
  }

  /** The perf events the racing round emits, which the push clears without having copied them. */
  ghost function Raced(cfg: Config, w: World, i: PushInput, files: Files): seq<DiagEvent> {
    if i.race.Some? then PerfTrigger.Emission(i.race.value, PerfOf(cfg, w), Reaping(cfg, w, i, files).files) else []
  }

  function LinkOf(cfg: Config, i: PushInput): Link {
    if !cfg.connected then NoStub else if i.arrives then Delivered else Lost
  }

  ghost function Request(cfg: Config, w: World, i: PushInput, m: Metrics, files: Files): Dispatch {
    var b := Gathered(cfg, w, i, files);
    Dispatch(BuildInfo(m, i.timestamp, b), |b.bpfEvents|, Raced(cfg, w, i, files), LinkOf(cfg, i), i.now)
  }

  ghost function KernelStep(w: World, s: TcpFlow.Step, bufferHasRoom: bool): World {
    var out := match Emitted(TcpFlow.Run(w.trace), s) case Some(e) => [e] case None => [];
    w.(trace := w.trace + [s],
       buffer := w.buffer + (if bufferHasRoom then out else []),
       dropped := w.dropped + (if bufferHasRoom then [] else out))
  }

  function CallOf(s: Dispatch): seq<Call> {
    if s.link == Delivered then [Set(s.info, s.now)] else []
  }

  ghost function PushStep(cfg: Config, w: World, i: PushInput, m: Metrics, files: Files): World {
    var s := Request(cfg, w, i, m, files);
    w.(buffer := w.buffer[Min(i.polled, |w.buffer|)..], readings := w.readings + [i.reading],
       bpfActions := w.bpfActions + [Bpf.Collect(i.outside, files), Bpf.Reset],
       perfActions := w.perfActions + RaceRounds(i.race, Reaping(cfg, w, i, files).files) + [PerfTrigger.Reset],
       sent := w.sent + [s], calls := w.calls + CallOf(s))
  }

  ghost function Step(cfg: Config, w: World, a: Action): World {
    match a
    case Kernel(s, room) => KernelStep(w, s, room)
    case StartOffcpu(c, l) => w.(bpfActions := w.bpfActions + [Bpf.StartOffcpu(c, l)])
    case StartProfile(c, l) => w.(bpfActions := w.bpfActions + [Bpf.StartProfile(c, l)])
    case PerfRound(o, files) => w.(perfActions := w.perfActions + [PerfTrigger.Round(o, files)])
    case Push(i, m, files) => PushStep(cfg, w, i, m, files)
    case Elsewhere(call) => w.(calls := w.calls + [call])
  }

  ghost function RunWorld(cfg: Config, actions: seq<Action>): World {
    if actions == [] then Start(cfg) else Step(cfg, RunWorld(cfg, Front(actions)), Last(actions))
  }

  /** The figures of every push are what its readings amount to. */
  ghost predicate Measured(cfg: Config, actions: seq<Action>) {
    actions == []
    || (Measured(cfg, Front(actions))
        && (Last(actions).Push? ==> Measures(cfg.host, RunWorld(cfg, Front(actions)).readings + [Last(actions).input.reading],
                                             Last(actions).metrics)))
  }

  /** What a push changes. */
  lemma PushParts(cfg: Config, w: World, i: PushInput, m: Metrics, files: Files)
    ensures var w', s := PushStep(cfg, w, i, m, files), Request(cfg, w, i, m, files);
            && w'.sent == w.sent + [s] && w'.calls == w.calls + CallOf(s)
            && w'.buffer == w.buffer[Min(i.polled, |w.buffer|)..] && w'.dropped == w.dropped && w'.trace == w.trace
            && w'.readings == w.readings + [i.reading]
            && w'.bpfActions == w.bpfActions + [Bpf.Collect(i.outside, files), Bpf.Reset]
            && w'.perfActions == w.perfActions + RaceRounds(i.race, Reaping(cfg, w, i, files).files) + [PerfTrigger.Reset]
            && s.info.hostname == m.hostname && s.link == LinkOf(cfg, i) && s.now == i.now
  {
    hide Reaping, Gathered, Raced, Map, BpfOf, PerfOf;
  }

  // ------------------------------------------------------------------------------------------
  // Which requests reach the manager
  // ------------------------------------------------------------------------------------------

  /** The calls that are not this worker's. */
  function Foreign(actions: seq<Action>): seq<Call> {
    if actions == [] then []
    else Foreign(Front(actions)) + (if Last(actions).Elsewhere? then [Last(actions).call] else [])
  }

  /** This worker's own calls. */
  function Own(sent: seq<Dispatch>): seq<Call> {
    if sent == [] then [] else Own(Front(sent)) + CallOf(Last(sent))
  }

  /** How many pushes would get through to the manager. */
  function Arriving(actions: seq<Action>): nat {
    if actions == [] then 0
    else Arriving(Front(actions)) + (if Last(actions).Push? && Last(actions).input.arrives then 1 else 0)
  }

  /** The connection is tried once, and never again: the manager handles the calls of others and this worker's own, which
      are as many as the pushes that would get through if that one attempt succeeded, and none at all otherwise. */
  lemma {:induction false} ReportsExactly(cfg: Config, actions: seq<Action>)
    ensures var w := RunWorld(cfg, actions);
            && multiset(w.calls) == multiset(Foreign(actions)) + multiset(Own(w.sent))
            && |Own(w.sent)| == if cfg.connected then Arriving(actions) else 0
  {
    hide Step;
    if actions != [] {
      ReportsExactly(cfg, Front(actions));
      CallsOfStep(cfg, RunWorld(cfg, Front(actions)), Foreign(Front(actions)), Last(actions));
    }
  }

  /** An action adds to the manager's calls a foreign one or this worker's own. */
  lemma CallsOfStep(cfg: Config, w: World, foreign: seq<Call>, a: Action)
    requires multiset(w.calls) == multiset(foreign) + multiset(Own(w.sent))
    ensures var w' := Step(cfg, w, a);
            && multiset(w'.calls) == multiset(foreign + (if a.Elsewhere? then [a.call] else [])) + multiset(Own(w'.sent))
            && |Own(w'.sent)| == |Own(w.sent)| + (if a.Push? && cfg.connected && a.input.arrives then 1 else 0)
  {
    hide PushStep, KernelStep, Own;
    assert foreign + [] == foreign;
    match a
    case Push(i, m, files) => CallsOfPush(cfg, w, foreign, i, m, files);
    case Kernel(s, room) => KernelKeeps(w, s, room);
    case _ =>
  }

  lemma CallsOfPush(cfg: Config, w: World, foreign: seq<Call>, i: PushInput, m: Metrics, files: Files)
    requires multiset(w.calls) == multiset(foreign) + multiset(Own(w.sent))
    ensures var w' := PushStep(cfg, w, i, m, files);
            && multiset(w'.calls) == multiset(foreign) + multiset(Own(w'.sent))
            && |Own(w'.sent)| == |Own(w.sent)| + (if cfg.connected && i.arrives then 1 else 0)
  {
    hide PushStep, Request;
    PushParts(cfg, w, i, m, files);
    FrontOfAppend(w.sent, Request(cfg, w, i, m, files));
  }

  /** In particular a worker whose first connection failed never reports: no request of the whole run is even sent. */
  lemma {:induction false} UnconnectedNeverReports(cfg: Config, actions: seq<Action>)
    requires !cfg.connected
    ensures var w := RunWorld(cfg, actions);
            w.calls == Foreign(actions) && forall k :: 0 <= k < |w.sent| ==> w.sent[k].link == NoStub
  {
    hide PushStep, KernelStep, Request, BpfOf, PerfOf;
    if actions != [] {
      var w := RunWorld(cfg, Front(actions));
      UnconnectedNeverReports(cfg, Front(actions));
      match Last(actions)
      case Push(i, m, files) => PushParts(cfg, w, i, m, files);
      case Kernel(s, room) => KernelKeeps(w, s, room);
      case _ =>
    }
  }

  /** What a probe leaves alone. */
  lemma KernelKeeps(w: World, s: TcpFlow.Step, room: bool)
    ensures var w' := KernelStep(w, s, room);
            w'.bpfActions == w.bpfActions && w'.perfActions == w.perfActions && w'.sent == w.sent && w'.calls == w.calls
            && w'.readings == w.readings
  {
  }

  // ------------------------------------------------------------------------------------------
  // The running system
  // ------------------------------------------------------------------------------------------

  class MonitorSystem {
    const cfg: Config
    const tracker: FlowTracker
    const pusher: MonitorPusher
    const server: GrpcServer
    var flowBuffer: seq<TcpFlow.FlowEvent>
    ghost var dropped: seq<TcpFlow.FlowEvent>
    ghost var sent: seq<Dispatch>
    ghost var actions: seq<Action>

    ghost function View(): World
      reads this, tracker, pusher.collector, pusher.bpfDiagnoser, pusher.perfDiagnoser, server
    {
      World(tracker.trace, flowBuffer, dropped, pusher.collector.readings, pusher.bpfDiagnoser.actions, pusher.perfDiagnoser.actions, sent, server.calls)
    }

    /** Every part is where its own history has taken it, the collector is empty, and the whole is where the
        actions have taken it. */
    ghost predicate Valid()
      reads this, tracker, pusher, pusher.collector, pusher.collector.cpuStat, pusher.collector.disk, pusher.collector.net,
            pusher.observer, pusher.bpfDiagnoser, pusher.perfDiagnoser, server, server.hostMgr
    {
      && tracker.Valid() && pusher.Valid() && server.Valid()
      && pusher.collector.host == cfg.host && pusher.bpfDiagnoser.settings == cfg.bpf && pusher.perfDiagnoser.settings == cfg.perf
      && pusher.observer.processEvents == [] && pusher.observer.flowEvents == []
      && View() == RunWorld(cfg, actions) && Measured(cfg, actions)
    }

    constructor (cfg: Config)
      ensures Valid() && actions == [] && this.cfg == cfg
    {
      hide MonitorPusher.Valid, RunWorld, Measured, Measures, PushStep, RunOps, Map, FlowTracker.Valid, MetricCollector.Valid, Bpf.BpfDiagnoser.Valid,
           PerfTrigger.PerfDiagnoser.Valid, GrpcServer.Valid, KernelStep;
      AtStart(cfg);
      this.cfg := cfg;
      var hosts := new HostManager();
      tracker := new FlowTracker();
      pusher := new MonitorPusher(cfg.host, cfg.seed, cfg.bpf, cfg.perf);
      server := new GrpcServer(hosts);
      flowBuffer, dropped, sent, actions := [], [], [], [];
    }

    /** One kprobe; an event it emits enters the perf buffer if there is room. */
    method KernelProbe(s: TcpFlow.Step, bufferHasRoom: bool)
      requires Valid()
      modifies this, tracker
      ensures Valid() && actions == old(actions) + [Kernel(s, bufferHasRoom)]
    {
      hide RunWorld, Measured, Measures, PushStep, RunOps, Map, TcpFlow.Run, MetricCollector.Valid, Bpf.BpfDiagnoser.Valid,
           PerfTrigger.PerfDiagnoser.Valid, GrpcServer.Valid;
      Advance(cfg, actions, Kernel(s, bufferHasRoom));
      actions := actions + [Kernel(s, bufferHasRoom)];
      var out := Fire(s);
      if out.Some? {
        if bufferHasRoom {
          flowBuffer := flowBuffer + [out.value];
        } else {
          dropped := dropped + [out.value];
        }
      }
    }

    method Fire(s: TcpFlow.Step) returns (out: Option<TcpFlow.FlowEvent>)
      requires tracker.Valid()
      modifies tracker
      ensures tracker.Valid() && tracker.trace == old(tracker.trace) + [s]
      ensures out == Emitted(old(tracker.View()), s)
    {
      hide TcpFlow.Run;
      out := None;
      match s.probe {
        case SendMsg(size, startNs, lastNs) => tracker.TcpSendmsg(s.pidTgid, s.sk, size, startNs, lastNs);
        case CleanupRbuf(copied, lastNs) => tracker.TcpCleanupRbuf(s.pidTgid, s.sk, copied, lastNs);
        case SetState(state, lastNs, connectNs) => tracker.TcpSetState(s.pidTgid, s.sk, state, lastNs, connectNs);
        case Done(comm, nowNs) => out := tracker.TcpDone(s.pidTgid, s.sk, comm, nowNs);
      }
    }

    /** `Run`: start each configured off-CPU tool. */
    method StartOffcpuTool(c: Bpf.OffcpuConfig, l: Bpf.Launch)
      requires Valid()
      modifies this, pusher.bpfDiagnoser
      ensures Valid() && actions == old(actions) + [StartOffcpu(c, l)]
    {
      hide RunWorld, Measured, Measures, PushStep, RunOps, Map, FlowTracker.Valid, MetricCollector.Valid, Bpf.BpfDiagnoser.Valid,
           PerfTrigger.PerfDiagnoser.Valid, GrpcServer.Valid, KernelStep;
      Advance(cfg, actions, StartOffcpu(c, l));
      actions := actions + [StartOffcpu(c, l)];
      pusher.bpfDiagnoser.StartOffcpuTool(c, l);
    }

    method StartProfileTool(c: Bpf.ProfileConfig, l: Bpf.Launch)
      requires Valid()
      modifies this, pusher.bpfDiagnoser
      ensures Valid() && actions == old(actions) + [StartProfile(c, l)]
    {
      hide RunWorld, Measured, Measures, PushStep, RunOps, Map, FlowTracker.Valid, MetricCollector.Valid, Bpf.BpfDiagnoser.Valid,
           PerfTrigger.PerfDiagnoser.Valid, GrpcServer.Valid, KernelStep;
      Advance(cfg, actions, StartProfile(c, l));
      actions := actions + [StartProfile(c, l)];
      pusher.bpfDiagnoser.StartProfileTool(c, l);
    }

    method PerfLoop(o: PerfTrigger.Outside, fs: FileStore)
      requires Valid()
      modifies this, pusher.perfDiagnoser, fs
      ensures Valid() && actions == old(actions) + [PerfRound(o, old(fs.files))]
    {
      hide RunWorld, Measured, Measures, PushStep, RunOps, Map, FlowTracker.Valid, MetricCollector.Valid, Bpf.BpfDiagnoser.Valid,
           PerfTrigger.PerfDiagnoser.Valid, GrpcServer.Valid, KernelStep;
      Advance(cfg, actions, PerfRound(o, fs.files));
      actions := actions + [PerfRound(o, fs.files)];
      pusher.perfDiagnoser.LoopBody(o, fs);
    }

    /** One push: poll, build and clear, then call the manager if there is a connection. */
    method PushOnce(i: PushInput, fs: FileStore) returns (m: Metrics, info: Protocol.MonitorInfo)
      requires Valid()
      modifies this, pusher.collector, pusher.collector.cpuStat, pusher.collector.disk, pusher.collector.net, pusher.observer, pusher.bpfDiagnoser, pusher.perfDiagnoser, server, server.hostMgr, fs
      ensures Valid() && actions == old(actions) + [Push(i, m, old(fs.files))]
      ensures info == Request(cfg, RunWorld(cfg, old(actions)), i, m, old(fs.files)).info
      ensures sent == old(sent) + [Request(cfg, RunWorld(cfg, old(actions)), i, m, old(fs.files))]
    {
      hide RunWorld, Measured, Measures, PushStep, RunOps, Map, FlowTracker.Valid, MonitorPusher.Valid, GrpcServer.Valid, KernelStep,
           Request, Reaping, RaceRounds, BpfOf, PerfOf;
      ghost var w, files := View(), fs.files;
      m, info := Gather(i, fs);
      Advance(cfg, actions, Push(i, m, files));
      PushParts(cfg, w, i, m, files);
      flowBuffer := flowBuffer[Min(i.polled, |flowBuffer|)..];
      Send(info, i);
      sent := sent + [Request(cfg, w, i, m, files)];
      actions := actions + [Push(i, m, files)];
    }

    method Gather(i: PushInput, fs: FileStore) returns (m: Metrics, info: Protocol.MonitorInfo)
      requires Valid()
      modifies pusher.collector, pusher.collector.cpuStat, pusher.collector.disk, pusher.collector.net,
               pusher.observer, pusher.bpfDiagnoser, pusher.perfDiagnoser, fs
      ensures pusher.Valid() && pusher.observer.processEvents == [] && pusher.observer.flowEvents == []
      ensures pusher.collector.readings == old(pusher.collector.readings) + [i.reading]
      ensures Measures(cfg.host, pusher.collector.readings, m)
      ensures pusher.bpfDiagnoser.actions == old(pusher.bpfDiagnoser.actions) + [Bpf.Collect(i.outside, old(fs.files)), Bpf.Reset]
      ensures pusher.perfDiagnoser.actions
              == old(pusher.perfDiagnoser.actions) + RaceRounds(i.race, Reaping(cfg, old(View()), i, old(fs.files)).files) + [PerfTrigger.Reset]
      ensures info == Request(cfg, old(View()), i, m, old(fs.files)).info
    {
      hide RunWorld, Measured, Measures, RunOps, Map, FlowTracker.Valid, MetricCollector.Valid, GrpcServer.Valid,
           Bpf.Run, PerfTrigger.Run, Request, BuildInfo, Bpf.Reap, Polled, RaceRounds, Reaping;
      ghost var w, files := View(), fs.files;
      ghost var bpf, perf := pusher.bpfDiagnoser.View(), pusher.perfDiagnoser.View();
      m, info := pusher.DoPush(i.reading, i.timestamp, i.processes, flowBuffer[..Min(i.polled, |flowBuffer|)], i.outside, fs, i.race);
      RequestIs(cfg, w, i, m, files, bpf, perf);
    }

    method Send(info: Protocol.MonitorInfo, i: PushInput)
      requires server.Valid()
      modifies server, server.hostMgr
      ensures server.Valid()
      ensures server.calls == old(server.calls) + (if LinkOf(cfg, i) == Delivered then [Set(info, i.now)] else [])
    {
      hide RunOps;
      if cfg.connected && i.arrives {
        var ok := server.SetMonitorInfo(info, i.now);
      }
    }

    /** A call from elsewhere: another worker's report, or an eviction. */
    method HandleCall(call: Call)
      requires Valid()
      modifies this, server, server.hostMgr
      ensures Valid() && actions == old(actions) + [Elsewhere(call)]
    {
      hide RunWorld, Measured, Measures, PushStep, RunOps, Map, FlowTracker.Valid, MetricCollector.Valid, Bpf.BpfDiagnoser.Valid,
           PerfTrigger.PerfDiagnoser.Valid, GrpcServer.Valid, KernelStep;
      Advance(cfg, actions, Elsewhere(call));
      actions := actions + [Elsewhere(call)];
      match call {
        case Set(request, now) => var ok := server.SetMonitorInfo(request, now);
        case Evict(now, maxAge) => server.RemoveExpired(now, maxAge);
      }
    }
  }

  /** The request in terms of the diagnosers' own fields. */
  lemma RequestIs(cfg: Config, w: World, i: PushInput, m: Metrics, files: Files, bpf: Bpf.Bpf, perf: PerfTrigger.PerfState)
    requires bpf == BpfOf(cfg, w) && perf == PerfOf(cfg, w)
    ensures Reaping(cfg, w, i, files) == Bpf.Reap(cfg.bpf, i.outside, bpf.runners, files)
    ensures Request(cfg, w, i, m, files).info
            == BuildInfo(m, i.timestamp, Buffers(
                 [] + Map(Observe.ToProcess, i.processes), [] + Map(Observe.ToFlow, w.buffer[..Min(i.polled, |w.buffer|)]),
                 bpf.events + Bpf.Reap(cfg.bpf, i.outside, bpf.runners, files).emitted, perf.events))
  {
    hide Map, BuildInfo, Bpf.Reap, BpfOf, PerfOf;
    assert forall s: seq<Observe.CppProcessEvent> :: [] + s == s;
    assert forall s: seq<Observe.CppFlowEvent> :: [] + s == s;
  }

  lemma AtStart(cfg: Config)
    ensures RunWorld(cfg, []) == Start(cfg) && Measured(cfg, [])
  {
    hide Step;
  }

  lemma Advance(cfg: Config, actions: seq<Action>, a: Action)
    ensures RunWorld(cfg, actions + [a]) == Step(cfg, RunWorld(cfg, actions), a)
    ensures Measured(cfg, actions + [a])
            <==> Measured(cfg, actions)
                 && (a.Push? ==> Measures(cfg.host, RunWorld(cfg, actions).readings + [a.input.reading], a.metrics))
  {
    hide Step, Measures;
    FrontOfAppend(actions, a);
  }
}
