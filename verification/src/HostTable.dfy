/** Per-host snapshots on the manager: the merged tail of diagnose events, time-based eviction and the
    health score (manager/src/host_manager.cpp). */
module HostTable {
  import opened Words
  import opened Collections

  const HISTORY: nat := 20

  datatype DiagnoseRecord = DiagnoseRecord(kind: string, processName: string, filePath: string,
                                           timestamp: I64, cpuPercent: real)

  datatype HostSnapshot = HostSnapshot(load1m: real, cpuUsedPct: real, memUsedPct: real, diskIops: real,
                                       netRxMbps: real, netTxMbps: real, netRxDropped: real,
                                       lastUpdate: I64, healthScore: real, hostname: string,
                                       procExecCount: int, procExitCount: int, tcpFlowCount: int,
                                       tcpBytesSent: I64, tcpBytesRecv: I64,
                                       diagnoseEvents: seq<DiagnoseRecord>)

  /** A default-constructed snapshot. */
  const NO_SNAPSHOT: HostSnapshot :=
    HostSnapshot(0.0, 0.0, 0.0, 0.0, 0.0, 0.0, 0.0, 0, 100.0, "", 0, 0, 0, 0, 0, [])

  type Hosts = map<string, HostSnapshot>

  // ------------------------------------------------------------------------------------------
  // Health score
  // ------------------------------------------------------------------------------------------

  function Excess(x: real, threshold: real): real {
    if x > threshold then x - threshold else 0.0
  }

  function Penalty(s: HostSnapshot): real {
    Excess(s.load1m, 8.0) * 5.0 + Excess(s.cpuUsedPct, 90.0) * 2.0 + Excess(s.memUsedPct, 85.0) * 2.0
    + (if s.netRxDropped > 100.0 then 10.0 else 0.0)
  }

  /** 100 minus the total penalty, floored at 0. */
  function Health(s: HostSnapshot): real {
    if Penalty(s) > 100.0 then 0.0 else 100.0 - Penalty(s)
  }

  lemma HealthInRange(s: HostSnapshot)
    ensures 0.0 <= Health(s) <= 100.0
    ensures Health(s) == 100.0
            <==> s.load1m <= 8.0 && s.cpuUsedPct <= 90.0 && s.memUsedPct <= 85.0 && s.netRxDropped <= 100.0
  {
    assert Excess(s.load1m, 8.0) >= 0.0 && Excess(s.cpuUsedPct, 90.0) >= 0.0 && Excess(s.memUsedPct, 85.0) >= 0.0;
  }

  /** A host that is no better off in any metric scores no higher. */
  lemma HealthIsAntitone(a: HostSnapshot, b: HostSnapshot)
    requires a.load1m <= b.load1m && a.cpuUsedPct <= b.cpuUsedPct
    requires a.memUsedPct <= b.memUsedPct && a.netRxDropped <= b.netRxDropped
    ensures Health(a) >= Health(b)
  {
    assert Excess(a.load1m, 8.0) <= Excess(b.load1m, 8.0);
    assert Excess(a.cpuUsedPct, 90.0) <= Excess(b.cpuUsedPct, 90.0);
    assert Excess(a.memUsedPct, 85.0) <= Excess(b.memUsedPct, 85.0);
  }

  // ------------------------------------------------------------------------------------------
  // The rates: what one more unit of load, one more point or one more dropped packet costs
  // ------------------------------------------------------------------------------------------

  datatype Metric = Load | Cpu | Memory

  function Scored(m: Metric, s: HostSnapshot): real {
    match m
    case Load => s.load1m
    case Cpu => s.cpuUsedPct
    case Memory => s.memUsedPct
  }

  function Threshold(m: Metric): real {
    match m
    case Load => 8.0
    case Cpu => 90.0
    case Memory => 85.0
  }

  function Rate(m: Metric): real {
    match m
    case Load => 5.0
    case Cpu => 2.0
    case Memory => 2.0
  }

  /** Among the four scored metrics, the two differ in this one at most. */
  ghost predicate DifferOnlyIn(m: Metric, a: HostSnapshot, b: HostSnapshot) {
    a.netRxDropped == b.netRxDropped && forall other :: other != m ==> Scored(other, a) == Scored(other, b)
  }

  /** While the score stays above 0, it falls by 5 per unit of load above 8, by 2 per point of CPU above 90 and by
      2 per point of memory above 85; below its threshold a metric does not matter. */
  lemma HealthRates(m: Metric, a: HostSnapshot, b: HostSnapshot)
    requires DifferOnlyIn(m, a, b)
    ensures Threshold(m) <= Scored(m, a) && Threshold(m) <= Scored(m, b) && Health(a) > 0.0 && Health(b) > 0.0 ==>
              Health(a) - Health(b) == Rate(m) * (Scored(m, b) - Scored(m, a))
    ensures Scored(m, a) <= Threshold(m) && Scored(m, b) <= Threshold(m) ==> Health(a) == Health(b)
  {
    assert Scored(Load, a) == a.load1m && Scored(Load, b) == b.load1m;
    assert Scored(Cpu, a) == a.cpuUsedPct && Scored(Cpu, b) == b.cpuUsedPct;
    assert Scored(Memory, a) == a.memUsedPct && Scored(Memory, b) == b.memUsedPct;
  }

  /** Crossing 100 dropped packets costs exactly 10, however many more they are. */
  lemma DropsCostTen(a: HostSnapshot, b: HostSnapshot)
    requires forall m :: Scored(m, a) == Scored(m, b)
    ensures (a.netRxDropped <= 100.0 <==> b.netRxDropped <= 100.0) ==> Health(a) == Health(b)
    ensures a.netRxDropped <= 100.0 < b.netRxDropped && Health(b) > 0.0 ==> Health(a) - Health(b) == 10.0
  {
    assert Scored(Load, a) == a.load1m && Scored(Load, b) == b.load1m;
    assert Scored(Cpu, a) == a.cpuUsedPct && Scored(Cpu, b) == b.cpuUsedPct;
    assert Scored(Memory, a) == a.memUsedPct && Scored(Memory, b) == b.memUsedPct;
  }

  /** The points a metric above its threshold takes off. */
  function PointsOff(m: Metric, s: HostSnapshot): real {
    if Scored(m, s) <= Threshold(m) then 0.0 else Rate(m) * (Scored(m, s) - Threshold(m))
  }

  /** The score is 0 exactly when the deductions reach 100, and otherwise what they leave of 100. */
  lemma HealthIsWhatIsLeft(s: HostSnapshot)
    ensures var off := PointsOff(Load, s) + PointsOff(Cpu, s) + PointsOff(Memory, s) + (if s.netRxDropped > 100.0 then 10.0 else 0.0);
            && (Health(s) == 0.0 <==> off >= 100.0)
            && (off < 100.0 ==> Health(s) == 100.0 - off)
  {
  }

  method ComputeHealth(snap: HostSnapshot) returns (r: real)
    ensures r == Health(snap)
  {
    var score := 100.0;
    if snap.load1m > 8.0 {
      score := score - (snap.load1m - 8.0) * 5.0;
    }
    if snap.cpuUsedPct > 90.0 {
      score := score - (snap.cpuUsedPct - 90.0) * 2.0;
    }
    if snap.memUsedPct > 85.0 {
      score := score - (snap.memUsedPct - 85.0) * 2.0;
    }
    if snap.netRxDropped > 100.0 {
      score := score - 10.0;
    }
    r := if score < 0.0 then 0.0 else score;
  }

  // ------------------------------------------------------------------------------------------
  // The host table, operation by operation
  // ------------------------------------------------------------------------------------------

  datatype Op =
    | Report(hostname: string, snap: HostSnapshot)
    | Expire(now: I64, maxAge: I64)

  function Merged(hosts: Hosts, hostname: string, snap: HostSnapshot): HostSnapshot {
    var before := if hostname in hosts then hosts[hostname].diagnoseEvents else [];
    snap.(hostname := hostname, healthScore := Health(snap),
          diagnoseEvents := Tail(before + snap.diagnoseEvents, HISTORY))
  }

  predicate Expired(s: HostSnapshot, now: I64, maxAge: I64) {
    now - s.lastUpdate > maxAge
  }

  function Apply(hosts: Hosts, op: Op): Hosts {
    match op
    case Report(h, snap) => hosts[h := Merged(hosts, h, snap)]
    case Expire(now, maxAge) => map h | h in hosts && !Expired(hosts[h], now, maxAge) :: hosts[h]
  }

  ghost function RunOps(ops: seq<Op>): Hosts {
    if ops == [] then map[] else Apply(RunOps(Front(ops)), Last(ops))
  }

  // ------------------------------------------------------------------------------------------
  // The simple specification: one unbounded log per host
  // ------------------------------------------------------------------------------------------

  /** What has been submitted for one host since its latest eviction. */
  datatype HostLog = Absent | Present(last: HostSnapshot, submitted: seq<DiagnoseRecord>)

  function LogAfter(log: HostLog, h: string, op: Op): HostLog {
    match op
    case Report(h', snap) =>
      if h' != h then log
      else Present(snap, (if log.Present? then log.submitted else []) + snap.diagnoseEvents)
    case Expire(now, maxAge) =>
      if log.Present? && now - log.last.lastUpdate > maxAge then Absent else log
  }

  ghost function LogOf(ops: seq<Op>, h: string): HostLog {
    if ops == [] then Absent else LogAfter(LogOf(Front(ops), h), h, Last(ops))
  }

  /** The snapshot a log stands for: the last report, scored, with the last 20 events submitted. */
  function Render(log: HostLog, h: string): Option<HostSnapshot> {
    match log
    case Absent => None
    case Present(last, submitted) =>
      Some(last.(hostname := h, healthScore := Health(last), diagnoseEvents := Tail(submitted, HISTORY)))
  }

  /** The host table refines the per-host logs: for any run of operations over any hosts, a host's entry
      is the rendering of its own log, whatever happened to other hosts. */
  lemma {:induction false} HostsRefineLogs(ops: seq<Op>, h: string)
    ensures Lookup(RunOps(ops), h) == Render(LogOf(ops, h), h)
  {
    if ops != [] {
      HostsRefineLogs(Front(ops), h);
      var log, op := LogOf(Front(ops), h), Last(ops);
      if op.Report? && op.hostname == h && log.Present? {
        TailOfTail(log.submitted, op.snap.diagnoseEvents, HISTORY);
      }
    }
  }

  /** Operations that neither report for `h` nor evict it leave its entry alone. */
  lemma OthersUnaffected(hosts: Hosts, op: Op, h: string)
    ensures Lookup(Apply(hosts, op), h) != Lookup(hosts, h)
            ==> (op.Report? && op.hostname == h) || (op.Expire? && h in hosts && Expired(hosts[h], op.now, op.maxAge))
  {
  }

  /** Two runs whose stored snapshots of `h` differ in one scored metric only, above its threshold: their stored scores
      differ at the metric's rate, while both are above 0. */
  lemma StoredRates(m: Metric, ops: seq<Op>, ops': seq<Op>, h: string)
    requires h in RunOps(ops) && h in RunOps(ops') && DifferOnlyIn(m, RunOps(ops)[h], RunOps(ops')[h])
    ensures var a, b := RunOps(ops)[h], RunOps(ops')[h];
            Threshold(m) <= Scored(m, a) && Threshold(m) <= Scored(m, b) && a.healthScore > 0.0 && b.healthScore > 0.0 ==>
              a.healthScore - b.healthScore == Rate(m) * (Scored(m, b) - Scored(m, a))
  {
    StoredScores(ops, h);
    StoredScores(ops', h);
    HealthRates(m, RunOps(ops)[h], RunOps(ops')[h]);
  }

  /** A host is evicted exactly when it was last heard of longer ago than allowed. */
  lemma EvictedExactly(hosts: Hosts, now: I64, maxAge: I64, h: string)
    requires h in hosts
    ensures h !in Apply(hosts, Expire(now, maxAge)) <==> now - hosts[h].lastUpdate > maxAge
    ensures h in Apply(hosts, Expire(now, maxAge)) ==> Apply(hosts, Expire(now, maxAge))[h] == hosts[h]
  {
  }

  /** Every stored score is the health of the stored metrics and lies in [0, 100]: 0 exactly when the deductions reach
      100, and otherwise what they leave of 100. */
  lemma StoredScores(ops: seq<Op>, h: string)
    requires h in RunOps(ops)
    ensures RunOps(ops)[h].healthScore == Health(RunOps(ops)[h])
    ensures 0.0 <= RunOps(ops)[h].healthScore <= 100.0
    ensures |RunOps(ops)[h].diagnoseEvents| <= 20 && RunOps(ops)[h].hostname == h
    ensures var s := RunOps(ops)[h];
            var off := PointsOff(Load, s) + PointsOff(Cpu, s) + PointsOff(Memory, s) + (if s.netRxDropped > 100.0 then 10.0 else 0.0);
            s.healthScore == if off >= 100.0 then 0.0 else 100.0 - off
  {
    hide Health, RunOps, PointsOff, LogOf;
    HostsRefineLogs(ops, h);
    HealthOfStored(RunOps(ops)[h], LogOf(ops, h), h);
    HealthInRange(RunOps(ops)[h]);
    HealthIsWhatIsLeft(RunOps(ops)[h]);
  }

  lemma HealthOfStored(s: HostSnapshot, log: HostLog, h: string)
    requires Render(log, h) == Some(s)
    ensures s.healthScore == Health(s) && s.hostname == h && |s.diagnoseEvents| <= HISTORY
  {
  }

  // ------------------------------------------------------------------------------------------
  // The class
  // ------------------------------------------------------------------------------------------

  class HostManager {
    var hosts: Hosts
    ghost var ops: seq<Op>

    ghost predicate Valid()
      reads this
    {
      hosts == RunOps(ops)
    }

    constructor ()
      ensures Valid() && ops == []
    {
      hosts, ops := map[], [];
    }

    method Update(hostname: string, snap: HostSnapshot)
      requires Valid()
      modifies this
      ensures Valid() && ops == old(ops) + [Report(hostname, snap)]
      ensures hosts == Apply(old(hosts), Report(hostname, snap))
    {
      FrontOfAppend(ops, Report(hostname, snap));
      ops := ops + [Report(hostname, snap)];
      var prevDiag: seq<DiagnoseRecord> := [];
      if hostname in hosts {
        prevDiag := hosts[hostname].diagnoseEvents;
      }
      var entry := snap;
      entry := entry.(hostname := hostname);
      var score := ComputeHealth(snap);
      entry := entry.(healthScore := score);
      prevDiag := prevDiag + snap.diagnoseEvents;
      if |prevDiag| > 20 {
        prevDiag := prevDiag[|prevDiag| - 20..];
      }
      entry := entry.(diagnoseEvents := prevDiag);
      hosts := hosts[hostname := entry];
    }

    /** A copy of the host's entry, or a default snapshot: what the host's own log says. */
    method Get(hostname: string) returns (r: HostSnapshot)
      requires Valid()
      ensures r == match Render(LogOf(ops, hostname), hostname) case Some(s) => s case None => NO_SNAPSHOT
    {
      HostsRefineLogs(ops, hostname);
      if hostname in hosts {
        return hosts[hostname];
      }
      r := NO_SNAPSHOT;
    }

    /** Erases while iterating, in any order, and removes exactly the expired entries. */
    method RemoveExpired(now: I64, maxAge: I64)
      requires Valid()
      modifies this
      ensures Valid() && ops == old(ops) + [Expire(now, maxAge)]
      ensures hosts == Apply(old(hosts), Expire(now, maxAge))
    {
      FrontOfAppend(ops, Expire(now, maxAge));
      ops := ops + [Expire(now, maxAge)];
      var rest := hosts.Keys;
      while rest != {}
        invariant ops == old(ops) + [Expire(now, maxAge)]
        invariant rest <= hosts.Keys <= old(hosts).Keys
        invariant forall h :: h in hosts ==> hosts[h] == old(hosts)[h]
        invariant forall h :: h in old(hosts) && h !in rest ==>
                    (h in hosts <==> !Expired(old(hosts)[h], now, maxAge))
        decreases rest
      {
        var it :| it in rest;
        rest := rest - {it};
        if now - hosts[it].lastUpdate > maxAge {
          hosts := hosts - {it};
        }
      }
    }
  }
}
