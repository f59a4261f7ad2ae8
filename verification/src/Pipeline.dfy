/** Byte conservation from the kernel's probes, through the worker's pushes, to the manager's snapshots, over every
    run; and what of a flow and of the figures survives the way. */
module Pipeline {
  import opened Words
  import opened Collections
  import opened TcpFlow
  import opened TcpFlowRuns
  import opened Rotation
  import opened MetricCollection
  import opened HostTable
  import opened ManagerService
  import opened MonitorPush
  import opened Deployment
  import Observe
  import Protocol

  // ------------------------------------------------------------------------------------------
  // Byte lists: the same figures at every stage
  // ------------------------------------------------------------------------------------------

  function RawBytes(side: Side): TcpFlow.FlowEvent -> U64 {
    if side == Side.Sent then (e: TcpFlow.FlowEvent) => e.bytesSent else (e: TcpFlow.FlowEvent) => e.bytesRecv
  }

  function MsgBytes(side: Side): Protocol.FlowEvent -> U64 {
    if side == Side.Sent then ManagerService.BytesSent else ManagerService.BytesRecv
  }

  function RawTotal(side: Side, es: seq<TcpFlow.FlowEvent>): nat {
    Total(Map(RawBytes(side), es))
  }

  lemma {:induction false} TotalAppend(a: seq<U64>, b: seq<U64>)
    ensures Total(a + b) == Total(a) + Total(b)
  {
    if b == [] {
      assert a + b == a;
    } else {
      TotalAppend(a, Front(b));
      assert Front(a + b) == a + Front(b) && Last(a + b) == Last(b);
    }
  }

  lemma RawTotalAppend(side: Side, a: seq<TcpFlow.FlowEvent>, b: seq<TcpFlow.FlowEvent>)
    ensures RawTotal(side, a + b) == RawTotal(side, a) + RawTotal(side, b)
  {
    MapAppend(RawBytes(side), a, b);
    TotalAppend(Map(RawBytes(side), a), Map(RawBytes(side), b));
  }

  /** Collecting and packing change no byte count. */
  lemma StagesKeepBytes(side: Side, raw: seq<TcpFlow.FlowEvent>)
    ensures Total(Map(MsgBytes(side), Map(FlowMsg, Map(Observe.ToFlow, raw)))) == RawTotal(side, raw)
  {
    assert Map(MsgBytes(side), Map(FlowMsg, Map(Observe.ToFlow, raw))) == Map(RawBytes(side), raw);
  }

  /** The message sent for a flow. */
  function MessageOf(key: FlowKey, val: FlowVal, comm: string, latency: U64): Protocol.FlowEvent {
    FlowMsg(Observe.ToFlow(EventOf(key, val, comm, latency)))
  }

  /** Between the kernel's event and the message on the wire no figure or time is lost or exchanged. */
  lemma FiguresSurvive(key: FlowKey, val: FlowVal, comm: string, latency: U64)
    ensures var msg := MessageOf(key, val, comm, latency);
            && msg.bytesSent == val.bytesSent && msg.bytesRecv == val.bytesRecv && msg.connectLatencyNs == latency
            && msg.startNs == val.startNs && msg.lastNs == val.lastNs && msg.state == Observe.StateName(val.state)
            && msg.comm == Observe.CString(comm, Observe.MAX_COMM_LEN)
  {
  }

  /** Nor is any identity: two IPv4 TCP flows send messages with the same process, addresses and ports if and only if
      they are the same flow. */
  lemma IdentitySurvives(k: FlowKey, v: FlowVal, comm: string, latency: U64, k': FlowKey, v': FlowVal, comm': string, latency': U64)
    requires k.family == AF_INET && k'.family == AF_INET && k.protocol == IPPROTO_TCP && k'.protocol == IPPROTO_TCP
    ensures var m, m' := MessageOf(k, v, comm, latency), MessageOf(k', v', comm', latency');
            m.pid == m'.pid && m.srcIp == m'.srcIp && m.srcPort == m'.srcPort && m.dstIp == m'.dstIp && m.dstPort == m'.dstPort
            <==> k == k'
  {
    hide Observe.Dotted, Observe.CString, Observe.StateName;
    Observe.DottedIsInjective(k.saddr, k'.saddr);
    Observe.DottedIsInjective(k.daddr, k'.daddr);
  }

  /** The message's process, addresses, ports and command name are those of the tcp_done. */
  ghost predicate MessageOfSocket(m: Protocol.FlowEvent, s: TcpFlow.Step) {
    && s.probe.Done? && m.pid == s.pidTgid / 0x1_0000_0000 && m.comm <= s.probe.comm
    && Observe.IsAddress(m.srcIp, s.sk.rcvSaddr) && Observe.IsAddress(m.dstIp, s.sk.daddr)
    && m.srcPort == s.sk.num && m.dstPort == s.sk.dport % 0x100 * 0x100 + s.sk.dport / 0x100
  }

  lemma MessageKeepsSocket(e: TcpFlow.FlowEvent, s: TcpFlow.Step)
    requires OfSocket(e, s)
    ensures MessageOfSocket(FlowMsg(Observe.ToFlow(e)), s)
  {
    hide Observe.Dotted, Observe.CString, Observe.StateName, Observe.IsAddress;
    Observe.DottedIsAddress(e.saddr);
    Observe.DottedIsAddress(e.daddr);
  }

  ghost predicate EventSeen(e: TcpFlow.FlowEvent, trace: seq<TcpFlow.Step>) {
    exists n :: 0 <= n < |trace| && OfSocket(e, trace[n])
  }

  ghost predicate MessageSeen(m: Protocol.FlowEvent, trace: seq<TcpFlow.Step>) {
    exists n :: 0 <= n < |trace| && MessageOfSocket(m, trace[n])
  }

  ghost predicate AllSeen(w: World) {
    && (forall e :: e in w.buffer ==> EventSeen(e, w.trace))
    && (forall k, m :: 0 <= k < |w.sent| && m in FlowsOf(w.sent[k]) ==> MessageSeen(m, w.trace))
  }

  lemma KernelSees(w: World, s: TcpFlow.Step, room: bool)
    requires AllSeen(w)
    ensures AllSeen(KernelStep(w, s, room))
  {
    hide TcpFlow.Run, Emitted, OfSocket, MessageOfSocket, FlowsOf;
    var w' := KernelStep(w, s, room);
    assert w'.trace[|w.trace|] == s && forall n :: 0 <= n < |w.trace| ==> w'.trace[n] == w.trace[n];
    if Emitted(TcpFlow.Run(w.trace), s).Some? {
      EmittedIsOfSocket(TcpFlow.Run(w.trace), s);
    }
    forall k, m | 0 <= k < |w.sent| && m in FlowsOf(w.sent[k])
      ensures MessageSeen(m, w'.trace)
    {
      assert MessageSeen(m, w.trace);
      var n :| 0 <= n < |w.trace| && MessageOfSocket(m, w.trace[n]);
      assert MessageOfSocket(m, w'.trace[n]);
    }
    forall e | e in w'.buffer
      ensures EventSeen(e, w'.trace)
    {
      if e in w.buffer {
        var n :| 0 <= n < |w.trace| && OfSocket(e, w.trace[n]);
        assert OfSocket(e, w'.trace[n]);
      } else {
        assert OfSocket(e, w'.trace[|w.trace|]);
      }
    }
  }

  lemma RequestFlows(cfg: Config, w: World, i: PushInput, m: Metrics, files: Files)
    ensures FlowsOf(Request(cfg, w, i, m, files)) == Map(FlowMsg, Map(Observe.ToFlow, Polled(w, i)))
  {
    hide FlowMsg, Observe.ToFlow, Raced, Reaping, BpfOf, PerfOf, Map, Polled;
  }

  lemma PushSees(cfg: Config, w: World, i: PushInput, m: Metrics, files: Files)
    requires AllSeen(w)
    ensures AllSeen(PushStep(cfg, w, i, m, files))
  {
    hide PushStep, Request, OfSocket, MessageOfSocket, FlowMsg, Observe.ToFlow, FlowsOf;
    var w', s := PushStep(cfg, w, i, m, files), Request(cfg, w, i, m, files);
    var polled := Polled(w, i);
    PushParts(cfg, w, i, m, files);
    RequestFlows(cfg, w, i, m, files);
    forall k, msg | 0 <= k < |w'.sent| && msg in FlowsOf(w'.sent[k])
      ensures MessageSeen(msg, w'.trace)
    {
      if k == |w.sent| {
        var j :| 0 <= j < |polled| && msg == FlowMsg(Observe.ToFlow(polled[j]));
        assert polled[j] in w.buffer;
        var n :| 0 <= n < |w.trace| && OfSocket(polled[j], w.trace[n]);
        MessageKeepsSocket(polled[j], w.trace[n]);
      }
    }
  }

  /** In every run, every flow message of every request names the process, the local and remote address and the ports of
      a socket that a tcp_done of the run was called on. */
  lemma {:induction false} SentFlowsAreOfSockets(cfg: Config, actions: seq<Action>)
    ensures var w := RunWorld(cfg, actions);
            forall k, m :: 0 <= k < |w.sent| && m in FlowsOf(w.sent[k]) ==>
              exists n :: 0 <= n < |w.trace| && MessageOfSocket(m, w.trace[n])
  {
    hide RunWorld, FlowsOf, MessageOfSocket;
    AllSeenInRun(cfg, actions);
    var w := RunWorld(cfg, actions);
    forall k, m | 0 <= k < |w.sent| && m in FlowsOf(w.sent[k])
      ensures exists n :: 0 <= n < |w.trace| && MessageOfSocket(m, w.trace[n])
    {
      assert MessageSeen(m, w.trace);
    }
  }

  lemma {:induction false} AllSeenInRun(cfg: Config, actions: seq<Action>)
    ensures AllSeen(RunWorld(cfg, actions))
  {
    hide AllSeen, PushStep, KernelStep;
    if actions == [] {
      NothingSeen(cfg);
    } else {
      var w := RunWorld(cfg, Front(actions));
      AllSeenInRun(cfg, Front(actions));
      match Last(actions)
      case Kernel(s, room) => KernelSees(w, s, room);
      case Push(i, m, files) => PushSees(cfg, w, i, m, files);
      case _ => SeenIgnores(cfg, w, Last(actions));
    }
  }

  lemma NothingSeen(cfg: Config)
    ensures AllSeen(Start(cfg))
  {
  }

  lemma SeenIgnores(cfg: Config, w: World, a: Action)
    requires !a.Kernel? && !a.Push? && AllSeen(w)
    ensures AllSeen(Deployment.Step(cfg, w, a))
  {
    hide EventSeen, MessageSeen, FlowsOf;
  }

  // ------------------------------------------------------------------------------------------
  // Flow events keep their order, and none is lost or doubled
  // ------------------------------------------------------------------------------------------

  function MessageFor(e: TcpFlow.FlowEvent): Protocol.FlowEvent {
    FlowMsg(Observe.ToFlow(e))
  }

  /** The flow messages of all requests, in order. */
  function FlowStream(sent: seq<Dispatch>): seq<Protocol.FlowEvent> {
    if sent == [] then [] else FlowStream(Front(sent)) + FlowsOf(Last(sent))
  }

  /** Sent, then waiting. */
  function OnTheWay(w: World): seq<Protocol.FlowEvent> {
    FlowStream(w.sent) + Map(MessageFor, w.buffer)
  }

  ghost predicate Ordered(w: World) {
    && Subsequence(OnTheWay(w), Map(MessageFor, Output(w.trace)))
    && multiset(Map(MessageFor, Output(w.trace))) == multiset(OnTheWay(w)) + multiset(Map(MessageFor, w.dropped))
  }

  lemma KernelOrders(w: World, s: TcpFlow.Step, room: bool)
    requires Ordered(w)
    ensures Ordered(KernelStep(w, s, room))
  {
    hide TcpFlow.Run, Emitted, MessageFor, FlowStream, Subsequence;
    var e := Emitted(TcpFlow.Run(w.trace), s);
    FrontOfAppend(w.trace, s);
    if e.Some? {
      var out, m := [e.value], Map(MessageFor, [e.value]);
      MapAppend(MessageFor, Output(w.trace), out);
      MapAppend(MessageFor, w.buffer, out);
      MapAppend(MessageFor, w.dropped, out);
      SubsequenceKeep(OnTheWay(w), Map(MessageFor, Output(w.trace)), m);
      SubsequenceSkip(OnTheWay(w), Map(MessageFor, Output(w.trace)), m);
      assert FlowStream(w.sent) + (Map(MessageFor, w.buffer) + m) == OnTheWay(w) + m;
      assert w.buffer + [] == w.buffer && w.dropped + [] == w.dropped;
    } else {
      assert w.buffer + [] == w.buffer && w.dropped + [] == w.dropped;
      assert Output(w.trace + [s]) == Output(w.trace);
    }
  }

  lemma PushOrders(cfg: Config, w: World, i: PushInput, m: Metrics, files: Files)
    ensures OnTheWay(PushStep(cfg, w, i, m, files)) == OnTheWay(w)
  {
    hide Request, PushStep, MessageFor, FlowsOf;
    var n := Min(i.polled, |w.buffer|);
    var s := Request(cfg, w, i, m, files);
    PushParts(cfg, w, i, m, files);
    FrontOfAppend(w.sent, s);
    assert w.buffer == w.buffer[..n] + w.buffer[n..];
    MapAppend(MessageFor, w.buffer[..n], w.buffer[n..]);
    RequestMessages(cfg, w, i, m, files);
  }

  lemma RequestMessages(cfg: Config, w: World, i: PushInput, m: Metrics, files: Files)
    ensures FlowsOf(Request(cfg, w, i, m, files)) == Map(MessageFor, w.buffer[..Min(i.polled, |w.buffer|)])
  {
    hide FlowMsg, Observe.ToFlow, Request;
    RequestFlows(cfg, w, i, m, files);
  }

  /** In every run, the flow events sent in requests and those waiting are, in order, events the tracker emitted; and each
      one it emitted is in exactly one request, waiting, or lost to a full perf buffer. */
  lemma {:induction false} FlowsKeepOrder(cfg: Config, actions: seq<Action>)
    ensures var w := RunWorld(cfg, actions);
            var emitted := Map(MessageFor, Output(w.trace));
            && Subsequence(FlowStream(w.sent) + Map(MessageFor, w.buffer), emitted)
            && multiset(emitted)
               == multiset(FlowStream(w.sent)) + multiset(Map(MessageFor, w.buffer)) + multiset(Map(MessageFor, w.dropped))
  {
    hide RunWorld, MessageFor, FlowStream, Subsequence, Output;
    OrderedInRun(cfg, actions);
  }

  lemma {:induction false} OrderedInRun(cfg: Config, actions: seq<Action>)
    ensures Ordered(RunWorld(cfg, actions))
  {
    hide Ordered, PushStep, KernelStep;
    if actions == [] {
      NothingOrdered(cfg);
    } else {
      var w := RunWorld(cfg, Front(actions));
      OrderedInRun(cfg, Front(actions));
      match Last(actions)
      case Kernel(s, room) => KernelOrders(w, s, room);
      case Push(i, m, files) =>
        PushParts(cfg, w, i, m, files);
        PushOrders(cfg, w, i, m, files);
        SameOrder(w, PushStep(cfg, w, i, m, files));
      case _ => OrderIgnores(cfg, w, Last(actions));
    }
  }

  lemma SameOrder(w: World, w': World)
    requires Ordered(w) && w'.trace == w.trace && w'.dropped == w.dropped && OnTheWay(w') == OnTheWay(w)
    ensures Ordered(w')
  {
  }

  lemma NothingOrdered(cfg: Config)
    ensures Ordered(Start(cfg))
  {
  }

  lemma OrderIgnores(cfg: Config, w: World, a: Action)
    requires !a.Kernel? && !a.Push? && Ordered(w)
    ensures Ordered(Deployment.Step(cfg, w, a))
  {
    hide Subsequence, Output, FlowStream, MessageFor;
  }

  // ------------------------------------------------------------------------------------------
  // Process events
  // ------------------------------------------------------------------------------------------

  /** The message is about this process event: exec exactly for type 0, its texts cut at the first NUL or the field's end. */
  predicate MessageOfProcess(m: Protocol.ProcessEvent, raw: Observe.RawProcess) {
    && m.pid == raw.pid && m.ppid == raw.ppid
    && m.event == (if raw.eventType == 0 then "exec" else "exit")
    && (raw.tsNs < 0x8000_0000_0000_0000 ==> m.tsNs == raw.tsNs)
    && m.comm <= raw.comm && |m.comm| <= 16 && (|m.comm| == 16 || |m.comm| == |raw.comm| || raw.comm[|m.comm|] == '\0')
    && m.filename <= raw.filename && |m.filename| <= 128
    && (|m.filename| == 128 || |m.filename| == |raw.filename| || raw.filename[|m.filename|] == '\0')
  }

  lemma ProcessSurvives(raw: Observe.RawProcess)
    ensures MessageOfProcess(ProcessMsg(Observe.ToProcess(raw)), raw)
  {
    hide Observe.CString;
    WrapWord(raw.tsNs);
  }

  /** A request carries the process events the push collected, in order, each about its own. */
  lemma RequestProcesses(cfg: Config, w: World, i: PushInput, m: Metrics, files: Files)
    ensures var info := Request(cfg, w, i, m, files).info;
            && info.observe.Some? && |info.observe.value.processEvents| == |i.processes|
            && forall j :: 0 <= j < |i.processes| ==> MessageOfProcess(info.observe.value.processEvents[j], i.processes[j])
  {
    hide FlowMsg, Observe.ToFlow, Raced, Reaping, BpfOf, PerfOf, MessageOfProcess, ProcessMsg, Observe.ToProcess;
    forall j | 0 <= j < |i.processes|
      ensures MessageOfProcess(ProcessMsg(Observe.ToProcess(i.processes[j])), i.processes[j])
    {
      ProcessSurvives(i.processes[j]);
    }
  }

  lemma {:induction false} OutputBytes(side: Side, es: seq<TcpFlow.FlowEvent>)
    ensures TotalBytes(side, es) == RawTotal(side, es)
  {
    if es != [] {
      OutputBytes(side, Front(es));
      assert Front(Map(RawBytes(side), es)) == Map(RawBytes(side), Front(es));
    }
  }

  // ------------------------------------------------------------------------------------------
  // End-to-end byte conservation
  // ------------------------------------------------------------------------------------------

  function FlowsOf(s: Dispatch): seq<Protocol.FlowEvent> {
    if s.info.observe.Some? then s.info.observe.value.flowEvents else []
  }

  /** The byte figure of the snapshot the manager makes of a request. */
  function SnapshotBytes(side: Side, s: Dispatch): I64 {
    if side == Side.Sent then SnapshotOf(s.info, s.now).tcpBytesSent else SnapshotOf(s.info, s.now).tcpBytesRecv
  }

  /** Bytes summed into snapshots by the requests the manager accepted. */
  function Accepted(side: Side, sent: seq<Dispatch>): int {
    if sent == [] then 0
    else Accepted(side, Front(sent)) + (if Last(sent).link == Delivered then SnapshotBytes(side, Last(sent)) else 0)
  }

  /** Bytes in requests that never reached the manager. */
  function LostInPush(side: Side, sent: seq<Dispatch>): nat {
    if sent == [] then 0
    else LostInPush(side, Front(sent))
         + (if Last(sent).link == Delivered then 0 else Total(Map(MsgBytes(side), FlowsOf(Last(sent)))))
  }

  /** Where the emitted bytes are: waiting in the perf buffer, in snapshots, or lost. */
  ghost function Downstream(side: Side, w: World): int {
    RawTotal(side, w.buffer) + Accepted(side, w.sent) + RawTotal(side, w.dropped) + LostInPush(side, w.sent)
  }

  lemma RequestBytes(side: Side, s: Dispatch)
    ensures Same64(SnapshotBytes(side, s), Total(Map(MsgBytes(side), FlowsOf(s))))
  {
    hide Total, Map;
    SameWrap(Total(Map(BytesSent, FlowsOf(s))));
    SameWrap(Total(Map(BytesRecv, FlowsOf(s))));
  }

  lemma SentOneMore(side: Side, sent: seq<Dispatch>, s: Dispatch)
    ensures Same64(Accepted(side, sent + [s]) + LostInPush(side, sent + [s]),
                   Accepted(side, sent) + LostInPush(side, sent) + Total(Map(MsgBytes(side), FlowsOf(s))))
  {
    hide SnapshotBytes, Total, Map, FlowsOf;
    FrontOfAppend(sent, s);
    RequestBytes(side, s);
    var before, bytes := Accepted(side, sent) + LostInPush(side, sent), Total(Map(MsgBytes(side), FlowsOf(s)));
    SameSelf(before + bytes);
    SameDifference(SnapshotBytes(side, s), bytes, before + SnapshotBytes(side, s), before + bytes);
  }

  /** Polling, packing and clearing move bytes from the perf buffer into the request. */
  lemma GatheredBytes(side: Side, cfg: Config, w: World, i: PushInput, m: Metrics, files: Files)
    ensures RawTotal(side, w.buffer)
            == RawTotal(side, PushStep(cfg, w, i, m, files).buffer) + Total(Map(MsgBytes(side), FlowsOf(Request(cfg, w, i, m, files))))
  {
    hide Total, Map, Observe.ToFlow, FlowMsg, MsgBytes, ProcessMsg, DiagMsg, Observe.ToProcess, Raced, Reaping, BpfOf, PerfOf, PushStep;
    var n := Min(i.polled, |w.buffer|);
    assert w.buffer == w.buffer[..n] + w.buffer[n..];
    PushParts(cfg, w, i, m, files);
    RawTotalAppend(side, w.buffer[..n], w.buffer[n..]);
    StagesKeepBytes(side, w.buffer[..n]);
  }

  lemma PushKeepsBytes(side: Side, cfg: Config, w: World, i: PushInput, m: Metrics, files: Files)
    ensures Same64(Downstream(side, PushStep(cfg, w, i, m, files)), Downstream(side, w))
  {
    hide PushStep, Request, Accepted, LostInPush, RawTotal, Total, Map, FlowsOf;
    var w', s := PushStep(cfg, w, i, m, files), Request(cfg, w, i, m, files);
    PushParts(cfg, w, i, m, files);
    GatheredBytes(side, cfg, w, i, m, files);
    SentOneMore(side, w.sent, s);
    SameDifference(Accepted(side, w'.sent) + LostInPush(side, w'.sent),
                   Accepted(side, w.sent) + LostInPush(side, w.sent) + Total(Map(MsgBytes(side), FlowsOf(s))),
                   Downstream(side, w'), Downstream(side, w));
  }

  lemma NoBytes(side: Side)
    ensures RawTotal(side, []) == 0
  {
  }

  lemma KernelKeepsBytes(side: Side, w: World, s: TcpFlow.Step, room: bool)
    ensures Downstream(side, KernelStep(w, s, room)) == Downstream(side, w) + EmittedBytes(side, Emitted(TcpFlow.Run(w.trace), s))
  {
    hide Accepted, LostInPush, RawTotal, TcpFlow.Run, Emitted;
    var e := Emitted(TcpFlow.Run(w.trace), s);
    var out := match e case Some(ev) => [ev] case None => [];
    RawTotalAppend(side, w.buffer, if room then out else []);
    RawTotalAppend(side, w.dropped, if room then [] else out);
    OneEvent(side, e);
    NoBytes(side);
  }

  lemma OneEvent(side: Side, e: Option<TcpFlow.FlowEvent>)
    ensures RawTotal(side, match e case Some(ev) => [ev] case None => []) == EmittedBytes(side, e)
  {
    if e.Some? {
      OutputBytes(side, [e.value]);
      assert Front([e.value]) == [];
    } else {
      OutputBytes(side, []);
    }
  }

  /** Everything the tracker emitted is downstream, modulo 2^64. */
  lemma {:induction false} EmittedBytesAreDownstream(side: Side, cfg: Config, actions: seq<Action>)
    ensures var w := RunWorld(cfg, actions); Same64(TotalBytes(side, Output(w.trace)), Downstream(side, w))
  {
    hide Downstream, PushStep, KernelStep, Output, TotalBytes, Wrap64, Emitted, TcpFlow.Run;
    if actions == [] {
      NothingDownstream(side, cfg);
    } else {
      var w := RunWorld(cfg, Front(actions));
      EmittedBytesAreDownstream(side, cfg, Front(actions));
      match Last(actions)
      case Kernel(s, room) =>
        KernelKeepsBytes(side, w, s, room);
        OutputStep(side, w, s, room);
        SameDifference(TotalBytes(side, Output(w.trace)), Downstream(side, w),
                       TotalBytes(side, Output(w.trace + [s])), Downstream(side, KernelStep(w, s, room)));
      case Push(i, m, files) =>
        var w' := PushStep(cfg, w, i, m, files);
        PushKeepsBytes(side, cfg, w, i, m, files);
        PushParts(cfg, w, i, m, files);
        SameSymmetric(Downstream(side, w'), Downstream(side, w));
        SameTransitive(TotalBytes(side, Output(w.trace)), Downstream(side, w), Downstream(side, w'));
      case _ => DownstreamIgnores(side, cfg, w, Last(actions));
    }
  }

  lemma NothingDownstream(side: Side, cfg: Config)
    ensures Same64(TotalBytes(side, Output([])), Downstream(side, Start(cfg)))
  {
    NoBytes(side);
    SameSelf(0);
  }

  lemma DownstreamIgnores(side: Side, cfg: Config, w: World, a: Action)
    requires !a.Kernel? && !a.Push?
    ensures var w' := Deployment.Step(cfg, w, a); Downstream(side, w') == Downstream(side, w) && w'.trace == w.trace
  {
  }

  lemma OutputStep(side: Side, w: World, s: TcpFlow.Step, room: bool)
    ensures KernelStep(w, s, room).trace == w.trace + [s]
    ensures TotalBytes(side, Output(w.trace + [s])) == TotalBytes(side, Output(w.trace)) + EmittedBytes(side, Emitted(TcpFlow.Run(w.trace), s))
  {
    hide TcpFlow.Run, Emitted;
    FrontOfAppend(w.trace, s);
    var e := Emitted(TcpFlow.Run(w.trace), s);
    if e.Some? {
      FrontOfAppend(Output(w.trace), e.value);
    } else {
      assert Output(w.trace + [s]) == Output(w.trace);
    }
  }

  /** In every run, modulo 2^64, the bytes offered by IPv4 probes are the bytes in live entries, in flow events
      waiting in the perf buffer, in the snapshots of accepted requests, and in the counted losses: sends and
      receives the tracker had no entry for, events the perf buffer had no room for, and requests that never
      reached the manager. */
  lemma BytesAreConserved(side: Side, cfg: Config, actions: seq<Action>)
    ensures var w := RunWorld(cfg, actions);
            Same64(TotalOffered(side, w.trace),
                   LiveBytes(side, TcpFlow.Run(w.trace).flows) + RawTotal(side, w.buffer) + Accepted(side, w.sent)
                   + TotalMissed(side, w.trace) + RawTotal(side, w.dropped) + LostInPush(side, w.sent))
  {
    hide Wrap64, RunWorld, TotalOffered, LiveBytes, TcpFlow.Run, RawTotal, Accepted, TotalMissed, LostInPush, Output, TotalBytes;
    var w := RunWorld(cfg, actions);
    TrackerConserves(side, w.trace);
    EmittedBytesAreDownstream(side, cfg, actions);
    var tracked := LiveBytes(side, TcpFlow.Run(w.trace).flows) + Settled(side, w.trace);
    var whole := tracked - TotalBytes(side, Output(w.trace)) + Downstream(side, w);
    SameDifference(TotalBytes(side, Output(w.trace)), Downstream(side, w), tracked, whole);
    SameTransitive(TotalOffered(side, w.trace), tracked, whole);
  }

  // ------------------------------------------------------------------------------------------
  // Figures measured on the worker, as the manager holds and returns them
  // ------------------------------------------------------------------------------------------

  function CountExec(es: seq<Observe.CppProcessEvent>): nat {
    if es == [] then 0 else CountExec(Front(es)) + (if Last(es).event == "exec" then 1 else 0)
  }

  lemma {:induction false} ExecsSurvive(es: seq<Observe.CppProcessEvent>)
    ensures CountExecs(Map(ProcessMsg, es)) == CountExec(es)
  {
    if es != [] {
      ExecsSurvive(Front(es));
      assert Front(Map(ProcessMsg, es)) == Map(ProcessMsg, Front(es));
    }
  }

  /** A pushed request becomes a snapshot of the worker's own figures: the load and memory as measured, the
      CPU share that is not idle, the totals over its disks and interfaces, and the counts of what it observed;
      and a query for the worker then returns its load, idle and memory figures unchanged. */
  lemma MetricsReachManager(m: Metrics, timestamp: I64, b: Buffers, now: I64, hosts: Hosts)
    ensures var snap := SnapshotOf(BuildInfo(m, timestamp, b), now);
            && snap.load1m == m.load1m && snap.cpuUsedPct == 100.0 - m.idlePct && snap.memUsedPct == m.memUsedPct
            && snap.diskIops == Sum(seq(|m.disks|, i requires 0 <= i < |m.disks| => m.disks[i].iops))
            && snap.netRxMbps == Sum(seq(|m.nets|, i requires 0 <= i < |m.nets| => m.nets[i].rxMbps))
            && snap.netTxMbps == Sum(seq(|m.nets|, i requires 0 <= i < |m.nets| => m.nets[i].txMbps))
            && snap.netRxDropped == Sum(seq(|m.nets|, i requires 0 <= i < |m.nets| => m.nets[i].rxDropped as real))
            && snap.procExecCount == CountExec(b.processEvents)
            && snap.procExecCount + snap.procExitCount == |b.processEvents| && snap.tcpFlowCount == |b.flowEvents|
    ensures var after := Apply(hosts, OpOf(Set(BuildInfo(m, timestamp, b), now)));
            var reply := ReplyOf(after, m.hostname);
            reply.load1m == m.load1m && reply.idlePct == m.idlePct && reply.memUsedPct == m.memUsedPct && reply.timestamp == now
  {
    hide Sum, Total, CountExecs, CountExec, Signed64, Health;
    ExecsSurvive(b.processEvents);
    assert Map(Iops, Map(DiskMsg, m.disks)) == seq(|m.disks|, i requires 0 <= i < |m.disks| => m.disks[i].iops);
    assert Map(RxMbps, Map(NetMsg, m.nets)) == seq(|m.nets|, i requires 0 <= i < |m.nets| => m.nets[i].rxMbps);
    assert Map(TxMbps, Map(NetMsg, m.nets)) == seq(|m.nets|, i requires 0 <= i < |m.nets| => m.nets[i].txMbps);
    assert Map(RxDropped, Map(NetMsg, m.nets)) == seq(|m.nets|, i requires 0 <= i < |m.nets| => m.nets[i].rxDropped as real);
  }
}
