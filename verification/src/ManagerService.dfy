/** The manager's two remote calls (manager/src/rpc/grpc_server.cpp). */
module ManagerService {
  import opened Words
  import opened Collections
  import opened Protocol
  import opened HostTable

  // ------------------------------------------------------------------------------------------
  // What a request amounts to
  // ------------------------------------------------------------------------------------------

  function Sum(s: seq<real>): real {
    if s == [] then 0.0 else Sum(Front(s)) + Last(s)
  }

  /** The exact, unbounded total of a list of 64-bit counters. */
  function Total(s: seq<U64>): nat {
    if s == [] then 0 else Total(Front(s)) + Last(s)
  }

  function CountExecs(s: seq<ProcessEvent>): (n: nat)
    ensures n <= |s|
  {
    if s == [] then 0 else CountExecs(Front(s)) + (if Last(s).event == "exec" then 1 else 0)
  }

  function Iops(d: DiskInfo): real { d.iops }
  function RxMbps(n: NetInfo): real { n.rxMbps }
  function TxMbps(n: NetInfo): real { n.txMbps }
  function RxDropped(n: NetInfo): real { n.rxDropped as real }
  function BytesSent(f: FlowEvent): U64 { f.bytesSent }
  function BytesRecv(f: FlowEvent): U64 { f.bytesRecv }

  function RecordOf(e: DiagnoseEvent): DiagnoseRecord {
    DiagnoseRecord(e.kind, e.processName, e.filePath, e.timestamp, e.cpuPercent)
  }

  /** The snapshot a request is aggregated into. The two 64-bit byte totals wrap as `int64_t`. */
  function SnapshotOf(req: MonitorInfo, now: I64): HostSnapshot {
    var batch := if req.observe.Some? then req.observe.value else ObserveBatch([], []);
    HostSnapshot(req.load1m, 100.0 - req.idlePct, req.memUsedPct, Sum(Map(Iops, req.disks)),
                 Sum(Map(RxMbps, req.nets)), Sum(Map(TxMbps, req.nets)), Sum(Map(RxDropped, req.nets)),
                 now, 100.0, "",
                 CountExecs(batch.processEvents), |batch.processEvents| - CountExecs(batch.processEvents),
                 |batch.flowEvents|,
                 Signed64(Total(Map(BytesSent, batch.flowEvents))), Signed64(Total(Map(BytesRecv, batch.flowEvents))),
                 Map(RecordOf, req.diagnoseEvents))
  }

  /** The reply to a query about `hostname`. */
  function ReplyOf(hosts: Hosts, hostname: string): MonitorInfo {
    var snap := if hostname in hosts then hosts[hostname] else NO_SNAPSHOT;
    MonitorInfo(hostname, "", snap.lastUpdate, snap.load1m, 100.0 - snap.cpuUsedPct, snap.memUsedPct, [], [], None, [])
  }

  // ------------------------------------------------------------------------------------------
  // Runs of calls
  // ------------------------------------------------------------------------------------------

  datatype Call =
    | Set(request: MonitorInfo, now: I64)
    | Evict(now: I64, maxAge: I64)

  function OpOf(c: Call): Op {
    match c
    case Set(req, now) => Report(req.hostname, SnapshotOf(req, now))
    case Evict(now, maxAge) => Expire(now, maxAge)
  }

  /** The last report `h` made that no later eviction was old enough to drop. */
  ghost function LastReport(calls: seq<Call>, h: string): Option<Call>
    ensures LastReport(calls, h).Some? ==> LastReport(calls, h).value.Set?
  {
    if calls == [] then None
    else
      var before := LastReport(Front(calls), h);
      match Last(calls)
      case Set(req, now) => if req.hostname == h then Some(Last(calls)) else before
      case Evict(now, maxAge) => if before.Some? && now - before.value.now > maxAge then None else before
  }

  lemma {:induction false} LogFollowsReports(calls: seq<Call>, h: string)
    ensures match LastReport(calls, h)
            case None => LogOf(Map(OpOf, calls), h) == Absent
            case Some(c) => LogOf(Map(OpOf, calls), h).Present? && LogOf(Map(OpOf, calls), h).last == SnapshotOf(c.request, c.now)
  {
    hide SnapshotOf;
    if calls != [] {
      LogFollowsReports(Front(calls), h);
      assert Front(Map(OpOf, calls)) == Map(OpOf, Front(calls)) && Last(Map(OpOf, calls)) == OpOf(Last(calls));
      LastUpdateOf(Last(calls));
      if LastReport(Front(calls), h).Some? {
        LastUpdateOf(LastReport(Front(calls), h).value);
      }
    } else {
      assert Map(OpOf, calls) == [];
    }
  }

  lemma LastUpdateOf(c: Call)
    ensures c.Set? ==> SnapshotOf(c.request, c.now).lastUpdate == c.now
  {
  }

  /** A query returns the load, idle and memory figures of the host's last report, as sent, or the
      defaults when there is none or it has been evicted. */
  lemma QueryReturnsLastReport(calls: seq<Call>, h: string)
    ensures ReplyOf(RunOps(Map(OpOf, calls)), h)
            == match LastReport(calls, h)
               case Some(c) => MonitorInfo(h, "", c.now, c.request.load1m, c.request.idlePct, c.request.memUsedPct, [], [], None, [])
               case None => MonitorInfo(h, "", 0, 0.0, 100.0, 0.0, [], [], None, [])
  {
    LogFollowsReports(calls, h);
    HostsRefineLogs(Map(OpOf, calls), h);
  }

  /** The stored byte totals are congruent to the true totals, and equal to them while those fit in 63 bits. */
  lemma ByteTotalsWrap(req: MonitorInfo, now: I64)
    requires req.observe.Some?
    ensures var sent := Total(Map(BytesSent, req.observe.value.flowEvents));
            && Same64(SnapshotOf(req, now).tcpBytesSent, sent)
            && (sent < 0x8000_0000_0000_0000 ==> SnapshotOf(req, now).tcpBytesSent == sent)
    ensures var recv := Total(Map(BytesRecv, req.observe.value.flowEvents));
            && Same64(SnapshotOf(req, now).tcpBytesRecv, recv)
            && (recv < 0x8000_0000_0000_0000 ==> SnapshotOf(req, now).tcpBytesRecv == recv)
  {
    SameWrap(Total(Map(BytesSent, req.observe.value.flowEvents)));
    SameWrap(Total(Map(BytesRecv, req.observe.value.flowEvents)));
  }

  // ------------------------------------------------------------------------------------------
  // Are the counters cumulative?
  // ------------------------------------------------------------------------------------------

  /** The counters described as cumulative. */
  datatype Counter = Execs | Exits | SentBytes | ReceivedBytes

  function BatchOf(req: MonitorInfo): ObserveBatch {
    if req.observe.Some? then req.observe.value else ObserveBatch([], [])
  }

  /** What one report adds to a counter, exactly. */
  function Amount(c: Counter, req: MonitorInfo): nat {
    match c
    case Execs => CountExecs(BatchOf(req).processEvents)
    case Exits => |BatchOf(req).processEvents| - CountExecs(BatchOf(req).processEvents)
    case SentBytes => Total(Map(BytesSent, BatchOf(req).flowEvents))
    case ReceivedBytes => Total(Map(BytesRecv, BatchOf(req).flowEvents))
  }

  predicate IsBytes(c: Counter) {
    c == SentBytes || c == ReceivedBytes
  }

  /** An amount as a snapshot field holds it: byte totals wrap as `int64_t`. */
  function Held(c: Counter, amount: nat): int {
    if IsBytes(c) then Signed64(amount) else amount
  }

  function FieldOf(c: Counter, s: HostSnapshot): int {
    match c
    case Execs => s.procExecCount
    case Exits => s.procExitCount
    case SentBytes => s.tcpBytesSent
    case ReceivedBytes => s.tcpBytesRecv
  }

  /** What `h` has reported since its latest eviction, before its last report. */
  ghost function Earlier(c: Counter, calls: seq<Call>, h: string): nat {
    if calls == [] then 0
    else
      var before := LastReport(Front(calls), h);
      match Last(calls)
      case Set(req, _) =>
        if req.hostname == h && before.Some? then Earlier(c, Front(calls), h) + Amount(c, before.value.request)
        else Earlier(c, Front(calls), h)
      case Evict(_, _) => if LastReport(calls, h).None? then 0 else Earlier(c, Front(calls), h)
  }

  /** Each report replaces the stored counters: one is the total over everything the host has reported since its
      latest eviction if and only if its earlier reports add up to nothing (modulo 2^64 for the byte totals). */
  lemma CumulativeExactly(c: Counter, calls: seq<Call>, h: string)
    requires LastReport(calls, h).Some?
    ensures var ops, last, earlier := Map(OpOf, calls), Amount(c, LastReport(calls, h).value.request), Earlier(c, calls, h);
            && h in RunOps(ops)
            && FieldOf(c, RunOps(ops)[h]) == Held(c, last)
            && (FieldOf(c, RunOps(ops)[h]) == Held(c, earlier + last)
                <==> if IsBytes(c) then Same64(earlier, 0) else earlier == 0)
  {
    hide Total, Earlier, Signed64, Wrap64, SnapshotOf, Health, LastReport, CountExecs, Amount, FieldOf;
    LogFollowsReports(calls, h);
    HostsRefineLogs(Map(OpOf, calls), h);
    var call := LastReport(calls, h).value;
    FieldOfSnapshot(c, call.request, call.now, RunOps(Map(OpOf, calls))[h]);
    SignedSum(Earlier(c, calls, h), Amount(c, call.request));
  }

  lemma FieldOfSnapshot(c: Counter, req: MonitorInfo, now: I64, stored: HostSnapshot)
    requires stored == SnapshotOf(req, now).(hostname := stored.hostname, healthScore := stored.healthScore,
                                             diagnoseEvents := stored.diagnoseEvents)
    ensures FieldOf(c, stored) == Held(c, Amount(c, req))
  {
    hide Signed64, Total, CountExecs;
  }

  /** A report of one exec, one exit and one flow. */
  function SmallReport(h: string): MonitorInfo {
    MonitorInfo(h, "", 0, 0.0, 100.0, 0.0, [], [],
                Some(ObserveBatch([ProcessEvent("a", 1, 1, "a", "exec", 0), ProcessEvent("a", 1, 1, "a", "exit", 0)],
                                  [FlowEvent(1, "a", "", 1, "", 1, 5, 7, 0, "", 0, 0)])), [])
  }

  /** Two reports for which no counter is cumulative. */
  lemma CountersAreNotCumulative(c: Counter, h: string)
    ensures var calls := [Set(SmallReport(h), 0), Set(SmallReport(h), 10)];
            var stored := RunOps(Map(OpOf, calls));
            && h in stored && Earlier(c, calls, h) == Amount(c, SmallReport(h)) > 0
            && FieldOf(c, stored[h]) != Held(c, Earlier(c, calls, h) + Amount(c, SmallReport(h)))
  {
    hide SmallReport, Amount, FieldOf, Held, SnapshotOf, RunOps;
    var r := SmallReport(h);
    var calls := [Set(r, 0), Set(r, 10)];
    assert Front(calls) == [Set(r, 0)] && Front([Set(r, 0)]) == [];
    SmallAmounts(c, h);
    assert LastReport([], h) == None && LastReport([Set(r, 0)], h) == Some(Set(r, 0));
    assert Earlier(c, [], h) == 0 && Earlier(c, [Set(r, 0)], h) == 0;
    CumulativeExactly(c, calls, h);
    SmallIsNotZero(Amount(c, r));
  }

  lemma SmallAmounts(c: Counter, h: string)
    ensures 0 < Amount(c, SmallReport(h)) < 10 && SmallReport(h).hostname == h
  {
    var batch := SmallReport(h).observe.value;
    assert Front(batch.processEvents) == [batch.processEvents[0]] && Front([batch.processEvents[0]]) == [];
    assert Map(BytesSent, batch.flowEvents) == [5] && Map(BytesRecv, batch.flowEvents) == [7];
    assert Front([5]) == [] && Front([7]) == [];
    assert Total([5]) == 5 && Total([7]) == 7;
  }

  lemma SmallIsNotZero(a: int)
    requires 0 < a < 10
    ensures !Same64(a, 0)
  {
  }

  lemma SignedSum(a: int, b: int)
    ensures Signed64(b) == Signed64(a + b) <==> Same64(a, 0)
  {
    SignedIsInjective(a + b, b);
    if Same64(a + b, b) {
      SameDifference(a + b, b, a, 0);
    }
    if Same64(a, 0) {
      SameDifference(a, 0, a + b, b);
    }
  }

  lemma SignedIsInjective(a: int, b: int)
    ensures Signed64(a) == Signed64(b) <==> Same64(a, b)
  {
    SameIsEqualWrap(a, b);
  }

  // ------------------------------------------------------------------------------------------
  // The service
  // ------------------------------------------------------------------------------------------

  method AggregateDisks(disks: seq<DiskInfo>) returns (iops: real)
    ensures iops == Sum(Map(Iops, disks))
  {
    iops := 0.0;
    for i := 0 to |disks|
      invariant iops == Sum(Map(Iops, disks[..i]))
    {
      MapPrefix(Iops, disks, i);
      iops := iops + disks[i].iops;
    }
    assert disks[..|disks|] == disks;
  }

  method AggregateNets(nets: seq<NetInfo>) returns (rx: real, tx: real, rxDropped: real)
    ensures rx == Sum(Map(RxMbps, nets)) && tx == Sum(Map(TxMbps, nets)) && rxDropped == Sum(Map(RxDropped, nets))
  {
    rx, tx, rxDropped := 0.0, 0.0, 0.0;
    for i := 0 to |nets|
      invariant rx == Sum(Map(RxMbps, nets[..i]))
      invariant tx == Sum(Map(TxMbps, nets[..i]))
      invariant rxDropped == Sum(Map(RxDropped, nets[..i]))
    {
      MapPrefix(RxMbps, nets, i);
      MapPrefix(TxMbps, nets, i);
      MapPrefix(RxDropped, nets, i);
      rx := rx + nets[i].rxMbps;
      tx := tx + nets[i].txMbps;
      rxDropped := rxDropped + nets[i].rxDropped as real;
    }
    assert nets[..|nets|] == nets;
  }

  method CountProcesses(events: seq<ProcessEvent>) returns (execs: nat, exits: nat)
    ensures execs == CountExecs(events) && execs + exits == |events|
  {
    execs, exits := 0, 0;
    for i := 0 to |events|
      invariant execs == CountExecs(events[..i]) && execs + exits == i
    {
      assert Front(events[..i + 1]) == events[..i];
      if events[i].event == "exec" {
        execs := execs + 1;
      } else {
        exits := exits + 1;
      }
    }
    assert events[..|events|] == events;
  }

  /** `int64_t += uint64_t`. */
  lemma AccumulateSigned(sum: nat, x: U64)
    ensures Signed64(Signed64(sum) + x) == Signed64(sum + x)
  {
    hide Signed64;
    SameWrap(sum);
    SameDifference(Signed64(sum), sum, Signed64(sum) + x, sum + x);
    SignedIsInjective(Signed64(sum) + x, sum + x);
  }

  method SumFlows(events: seq<FlowEvent>) returns (count: nat, sent: I64, recv: I64)
    ensures count == |events|
    ensures sent == Signed64(Total(Map(BytesSent, events))) && recv == Signed64(Total(Map(BytesRecv, events)))
  {
    hide Signed64, Wrap64;
    count, sent, recv := 0, 0, 0;
    SignedZero();
    for i := 0 to |events|
      invariant count == i
      invariant sent == Signed64(Total(Map(BytesSent, events[..i])))
      invariant recv == Signed64(Total(Map(BytesRecv, events[..i])))
    {
      MapPrefix(BytesSent, events, i);
      MapPrefix(BytesRecv, events, i);
      AccumulateSigned(Total(Map(BytesSent, events[..i])), events[i].bytesSent);
      AccumulateSigned(Total(Map(BytesRecv, events[..i])), events[i].bytesRecv);
      count := count + 1;
      sent := Signed64(sent + events[i].bytesSent);
      recv := Signed64(recv + events[i].bytesRecv);
    }
    assert events[..|events|] == events;
  }

  lemma NothingObserved()
    ensures CountExecs([]) == 0 && Total(Map(BytesSent, [])) == 0 && Total(Map(BytesRecv, [])) == 0
  {
  }

  lemma SignedZero()
    ensures Signed64(0) == 0
  {
  }

  method RecordEvents(events: seq<DiagnoseEvent>) returns (records: seq<DiagnoseRecord>)
    ensures records == Map(RecordOf, events)
  {
    records := [];
    for i := 0 to |events|
      invariant records == Map(RecordOf, events[..i])
    {
      var de := events[i];
      MapPrefix(RecordOf, events, i);
      records := records + [DiagnoseRecord(de.kind, de.processName, de.filePath, de.timestamp, de.cpuPercent)];
    }
    assert events[..|events|] == events;
  }

  class GrpcServer {
    const hostMgr: HostManager
    ghost var calls: seq<Call>

    ghost predicate Valid()
      reads this, hostMgr
    {
      hostMgr.Valid() && hostMgr.ops == Map(OpOf, calls)
    }

    constructor (hostMgr: HostManager)
      requires hostMgr.Valid() && hostMgr.ops == []
      ensures Valid() && calls == [] && this.hostMgr == hostMgr
    {
      this.hostMgr, calls := hostMgr, [];
    }

    method SetMonitorInfo(request: MonitorInfo, now: I64) returns (ok: bool)
      requires Valid()
      modifies this, hostMgr
      ensures Valid() && calls == old(calls) + [Set(request, now)]
      ensures ok
    {
      hide Signed64, Wrap64, Total, Sum, CountExecs, RunOps;
      SignedZero();
      NothingObserved();
      var snap := NO_SNAPSHOT.(lastUpdate := now, load1m := request.load1m, cpuUsedPct := 100.0 - request.idlePct,
                               memUsedPct := request.memUsedPct);
      var iops := AggregateDisks(request.disks);
      snap := snap.(diskIops := iops);
      var rx, tx, dropped := AggregateNets(request.nets);
      snap := snap.(netRxMbps := rx, netTxMbps := tx, netRxDropped := dropped);
      if request.observe.Some? {
        var execs, exits := CountProcesses(request.observe.value.processEvents);
        var count, sent, recv := SumFlows(request.observe.value.flowEvents);
        snap := snap.(procExecCount := execs, procExitCount := exits, tcpFlowCount := count,
                      tcpBytesSent := sent, tcpBytesRecv := recv);
      }
      var records := RecordEvents(request.diagnoseEvents);
      snap := snap.(diagnoseEvents := records);
      assert snap == SnapshotOf(request, now);
      MapAppend(OpOf, calls, [Set(request, now)]);
      hostMgr.Update(request.hostname, snap);
      calls := calls + [Set(request, now)];
      ok := true;
    }

    /** Answers from the host's last report. */
    method GetMonitorInfo(hostname: string) returns (response: MonitorInfo)
      requires Valid()
      ensures response == ReplyOf(hostMgr.hosts, hostname)
      ensures response.hostname == hostname
      ensures match LastReport(calls, hostname)
              case Some(c) => response.load1m == c.request.load1m && response.idlePct == c.request.idlePct
                              && response.memUsedPct == c.request.memUsedPct && response.timestamp == c.now
              case None => response.load1m == 0.0 && response.idlePct == 100.0 && response.memUsedPct == 0.0
    {
      QueryReturnsLastReport(calls, hostname);
      HostsRefineLogs(hostMgr.ops, hostname);
      var snap := hostMgr.Get(hostname);
      response := MonitorInfo(hostname, "", 0, 0.0, 0.0, 0.0, [], [], None, []);
      response := response.(timestamp := snap.lastUpdate);
      response := response.(load1m := snap.load1m);
      response := response.(idlePct := 100.0 - snap.cpuUsedPct);
      response := response.(memUsedPct := snap.memUsedPct);
    }

    /** The manager's periodic eviction, every 10 seconds with a limit of 60. */
    method RemoveExpired(now: I64, maxAge: I64)
      requires Valid()
      modifies this, hostMgr
      ensures Valid() && calls == old(calls) + [Evict(now, maxAge)]
    {
      MapAppend(OpOf, calls, [Evict(now, maxAge)]);
      hostMgr.RemoveExpired(now, maxAge);
      calls := calls + [Evict(now, maxAge)];
    }
  }
}
