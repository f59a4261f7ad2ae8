/** CPU percentages from consecutive /proc/stat readings (worker/src/monitor/cpu_stat_monitor.cpp). */
module CpuStat {
  import opened Words
  import opened Collections
  import opened Deltas

  datatype CpuStatRaw = CpuStatRaw(user: U64, nice: U64, system: U64, idle: U64, iowait: U64, irq: U64,
                                   softirq: U64, steal: U64)

  datatype CpuStatPct = CpuStatPct(user: real, system: real, idle: real, iowait: real, steal: real, softirq: real)

  const NO_READING: CpuStatRaw := CpuStatRaw(0, 0, 0, 0, 0, 0, 0, 0)
  const NO_PCT: CpuStatPct := CpuStatPct(0.0, 0.0, 0.0, 0.0, 0.0, 0.0)

  function Ticks(r: CpuStatRaw): nat {
    r.user + r.nice + r.system + r.idle + r.iowait + r.irq + r.softirq + r.steal
  }

  /** The wrapped total the monitor works with. */
  function Total(r: CpuStatRaw): U64 {
    Wrap64(Ticks(r))
  }

  /** Share of `totalDelta` taken by one component; a component that went backwards counts as 0. */
  function Calc(val: U64, prev: U64, totalDelta: U64): real
    requires totalDelta != 0
  {
    var d := Signed64(val) as int - Signed64(prev) as int;
    if d < 0 then 0.0 else 100.0 * d as real / totalDelta as real
  }

  datatype Cpu = Cpu(prev: CpuStatRaw, pct: CpuStatPct)

  function TotalDelta(c: Cpu, cur: CpuStatRaw): U64 {
    Sub64(Total(cur), Total(c.prev))
  }

  function Step(c: Cpu, cur: CpuStatRaw): Cpu {
    var td := TotalDelta(c, cur);
    if td == 0 then c
    else Cpu(cur, CpuStatPct(Calc(cur.user, c.prev.user, td), Calc(cur.system, c.prev.system, td),
                             Calc(cur.idle, c.prev.idle, td), Calc(cur.iowait, c.prev.iowait, td),
                             Calc(cur.steal, c.prev.steal, td), Calc(cur.softirq, c.prev.softirq, td)))
  }

  /** The monitor after an initial reading and any number of further ones. */
  ghost function Run(readings: seq<CpuStatRaw>): Cpu {
    if readings == [] then Cpu(NO_READING, NO_PCT)
    else if |readings| == 1 then Cpu(readings[0], NO_PCT)
    else Step(Run(Front(readings)), Last(readings))
  }

  // ------------------------------------------------------------------------------------------
  // One interval
  // ------------------------------------------------------------------------------------------

  datatype Component = User | System | Idle | Iowait | Steal | Softirq

  function RawOf(k: Component, r: CpuStatRaw): U64 {
    match k
    case User => r.user
    case System => r.system
    case Idle => r.idle
    case Iowait => r.iowait
    case Steal => r.steal
    case Softirq => r.softirq
  }

  function PctOf(k: Component, p: CpuStatPct): real {
    match k
    case User => p.user
    case System => p.system
    case Idle => p.idle
    case Iowait => p.iowait
    case Steal => p.steal
    case Softirq => p.softirq
  }

  /** The total has not reached 2^63 ticks. */
  predicate Unsaturated(r: CpuStatRaw) {
    Ticks(r) < 0x8000_0000_0000_0000
  }

  predicate NoneDecreases(a: CpuStatRaw, b: CpuStatRaw) {
    && a.user <= b.user && a.nice <= b.nice && a.system <= b.system && a.idle <= b.idle
    && a.iowait <= b.iowait && a.irq <= b.irq && a.softirq <= b.softirq && a.steal <= b.steal
  }

  lemma TrueTotalDelta(prev: CpuStatRaw, cur: CpuStatRaw)
    requires NoneDecreases(prev, cur) && Unsaturated(cur)
    ensures Sub64(Total(cur), Total(prev)) == Ticks(cur) - Ticks(prev)
  {
    WrapWord(Ticks(cur));
    WrapWord(Ticks(prev));
    WrapWord(Ticks(cur) - Ticks(prev));
  }

  lemma CalcIsShare(val: U64, prev: U64, td: U64)
    requires prev <= val < 0x8000_0000_0000_0000 && td != 0
    ensures Calc(val, prev, td) * td as real == 100.0 * (val - prev) as real
    ensures Calc(val, prev, td) >= 0.0
    ensures val - prev <= td ==> Calc(val, prev, td) <= 100.0
  {
    WrapWord(val);
    WrapWord(prev);
    ShareOf(val - prev, td, Calc(val, prev, td));
  }

  lemma ShareOf(d: nat, td: nat, q: real)
    requires td > 0 && q == 100.0 * d as real / td as real
    ensures q * td as real == 100.0 * d as real && q >= 0.0
    ensures d <= td ==> q <= 100.0
  {
    assert q * td as real == 100.0 * d as real;
    if d <= td {
      AtMostHundred(q, td, d);
    }
  }

  lemma StepShares(c: Cpu, cur: CpuStatRaw, k: Component)
    requires NoneDecreases(c.prev, cur) && Unsaturated(cur) && cur != c.prev
    ensures TotalDelta(c, cur) != 0
    ensures var pct := PctOf(k, Step(c, cur).pct);
            && 0.0 <= pct <= 100.0
            && pct * TotalDelta(c, cur) as real == 100.0 * (RawOf(k, cur) - RawOf(k, c.prev)) as real
  {
    hide Calc, TotalDelta, Step, PctOf, RawOf, NoneDecreases, Unsaturated;
    ZeroDeltaMeansNoChange(c, cur);
    ComponentDelta(c, cur, k);
    StepPct(c, cur, k);
    CalcIsShare(RawOf(k, cur), RawOf(k, c.prev), TotalDelta(c, cur));
  }

  lemma StepPct(c: Cpu, cur: CpuStatRaw, k: Component)
    ensures PctOf(k, Step(c, cur).pct)
            == if TotalDelta(c, cur) == 0 then PctOf(k, c.pct)
               else Calc(RawOf(k, cur), RawOf(k, c.prev), TotalDelta(c, cur))
  {
    hide Calc, TotalDelta;
  }

  lemma ComponentDelta(c: Cpu, cur: CpuStatRaw, k: Component)
    requires NoneDecreases(c.prev, cur) && Unsaturated(cur)
    ensures RawOf(k, c.prev) <= RawOf(k, cur) < 0x8000_0000_0000_0000
    ensures RawOf(k, cur) - RawOf(k, c.prev) <= TotalDelta(c, cur)
  {
    hide Sub64, Total;
    TrueTotalDelta(c.prev, cur);
  }

  function SumOfPct(p: CpuStatPct): real {
    p.user + p.system + p.idle + p.iowait + p.steal + p.softirq
  }

  /** When counters do not go backwards or overflow and some counter has moved, every reported component lies in
      [0, 100] and the six add up to at most 100. */
  lemma PercentagesAreShares(c: Cpu, cur: CpuStatRaw)
    requires NoneDecreases(c.prev, cur) && Unsaturated(cur) && cur != c.prev
    ensures forall k :: 0.0 <= PctOf(k, Step(c, cur).pct) <= 100.0
    ensures SumOfPct(Step(c, cur).pct) <= 100.0
  {
    hide Step, TotalDelta, NoneDecreases, Unsaturated, PctOf, SumOfPct;
    forall k {
      StepShares(c, cur, k);
    }
    SharesSumToAtMostAll(c, cur);
  }

  lemma SharesSumToAtMostAll(c: Cpu, cur: CpuStatRaw)
    requires NoneDecreases(c.prev, cur) && Unsaturated(cur) && cur != c.prev
    ensures SumOfPct(Step(c, cur).pct) <= 100.0
  {
    hide Step, TotalDelta, NoneDecreases, Unsaturated, SumOfPct;
    var td, p := TotalDelta(c, cur), Step(c, cur).pct;
    StepShares(c, cur, User);
    StepShares(c, cur, System);
    StepShares(c, cur, Idle);
    StepShares(c, cur, Iowait);
    StepShares(c, cur, Steal);
    StepShares(c, cur, Softirq);
    var reported := (cur.user - c.prev.user) + (cur.system - c.prev.system) + (cur.idle - c.prev.idle)
                    + (cur.iowait - c.prev.iowait) + (cur.steal - c.prev.steal) + (cur.softirq - c.prev.softirq);
    DeltaCoversReported(c, cur, reported);
    Distribute(p, td as real);
    AtMostHundred(SumOfPct(p), td, reported);
  }

  lemma DeltaCoversReported(c: Cpu, cur: CpuStatRaw, reported: int)
    requires NoneDecreases(c.prev, cur) && Unsaturated(cur)
    requires reported == (cur.user - c.prev.user) + (cur.system - c.prev.system) + (cur.idle - c.prev.idle)
                         + (cur.iowait - c.prev.iowait) + (cur.steal - c.prev.steal) + (cur.softirq - c.prev.softirq)
    ensures 0 <= reported <= TotalDelta(c, cur)
  {
    hide Sub64, Total;
    TrueTotalDelta(c.prev, cur);
  }

  lemma Distribute(p: CpuStatPct, td: real)
    ensures SumOfPct(p) * td == p.user * td + p.system * td + p.idle * td + p.iowait * td + p.steal * td + p.softirq * td
  {
  }

  lemma AtMostHundred(sum: real, td: nat, reported: nat)
    requires td > 0 && reported <= td && sum * td as real == 100.0 * reported as real
    ensures sum <= 100.0
  {
    assert (100.0 - sum) * td as real >= 0.0;
  }

  /** The early return on an unchanged total loses nothing: every component is unchanged too. */
  lemma ZeroDeltaMeansNoChange(c: Cpu, cur: CpuStatRaw)
    requires NoneDecreases(c.prev, cur) && Unsaturated(cur)
    ensures TotalDelta(c, cur) == 0 <==> cur == c.prev
  {
    hide Sub64, Total;
    TrueTotalDelta(c.prev, cur);
  }

  // ------------------------------------------------------------------------------------------
  // Whole runs
  // ------------------------------------------------------------------------------------------

  ghost predicate Steady(readings: seq<CpuStatRaw>) {
    && (forall i :: 0 <= i < |readings| ==> Unsaturated(readings[i]))
    && (forall i :: 0 < i < |readings| ==> NoneDecreases(readings[i - 1], readings[i]))
  }

  lemma {:induction false} LatestReadingIsKept(readings: seq<CpuStatRaw>)
    requires readings != [] && Steady(readings)
    ensures Run(readings).prev == Last(readings)
  {
    hide TotalDelta, Unsaturated, NoneDecreases;
    if |readings| > 1 {
      assert Steady(Front(readings)) && NoneDecreases(readings[|readings| - 2], readings[|readings| - 1]);
      LatestReadingIsKept(Front(readings));
      ZeroDeltaMeansNoChange(Run(Front(readings)), Last(readings));
    }
  }

  /** In every state a steady run reaches, each reported component lies in [0, 100] and the six sum to at most 100. */
  lemma {:induction false} ReportedPercentagesAreShares(readings: seq<CpuStatRaw>)
    requires readings != [] && Steady(readings)
    ensures forall k :: 0.0 <= PctOf(k, Run(readings).pct) <= 100.0
    ensures SumOfPct(Run(readings).pct) <= 100.0
  {
    hide TotalDelta, Unsaturated, NoneDecreases;
    if |readings| > 1 {
      var front, cur := Front(readings), Last(readings);
      assert Steady(front) && NoneDecreases(readings[|readings| - 2], readings[|readings| - 1]);
      ReportedPercentagesAreShares(front);
      LatestReadingIsKept(front);
      ZeroDeltaMeansNoChange(Run(front), cur);
      if cur != Run(front).prev {
        PercentagesAreShares(Run(front), cur);
      }
    }
  }

  /** One interval, whatever the readings: the reported component is 100 times its change, counted as a signed number and as
      0 when it went back, over the change of all eight counters together; nothing changes when that is 0. */
  lemma ShareExactly(c: Cpu, cur: CpuStatRaw, k: Component)
    ensures var total := Wrap64((cur.user - c.prev.user) + (cur.nice - c.prev.nice) + (cur.system - c.prev.system)
                                + (cur.idle - c.prev.idle) + (cur.iowait - c.prev.iowait) + (cur.irq - c.prev.irq)
                                + (cur.softirq - c.prev.softirq) + (cur.steal - c.prev.steal));
            var change := Signed64(RawOf(k, cur)) as int - Signed64(RawOf(k, c.prev)) as int;
            if total == 0 then Step(c, cur) == c
            else Step(c, cur).prev == cur
                 && PctOf(k, Step(c, cur).pct) * total as real == 100.0 * (if change < 0 then 0 else change) as real
  {
    hide Wrap64, Signed64, Step, PctOf, RawOf, Calc;
    WrapsTogether(Ticks(cur), Ticks(c.prev));
    StepOutcome(c, cur);
    if TotalDelta(c, cur) != 0 {
      StepPct(c, cur, k);
      CalcExactly(RawOf(k, cur), RawOf(k, c.prev), TotalDelta(c, cur));
    }
  }

  lemma StepOutcome(c: Cpu, cur: CpuStatRaw)
    ensures TotalDelta(c, cur) == Sub64(Wrap64(Ticks(cur)), Wrap64(Ticks(c.prev)))
    ensures if TotalDelta(c, cur) == 0 then Step(c, cur) == c else Step(c, cur).prev == cur
  {
    hide Wrap64, Sub64, Calc, Ticks;
  }

  lemma CalcExactly(val: U64, prev: U64, td: U64)
    requires td != 0
    ensures var change := Signed64(val) as int - Signed64(prev) as int;
            Calc(val, prev, td) * td as real == 100.0 * (if change < 0 then 0 else change) as real
  {
    hide Signed64;
  }

  /** In a steady run, the latest interval that moved the clock is reported as each component's share of all eight counters. */
  lemma LatestShareExactly(readings: seq<CpuStatRaw>, k: Component)
    requires |readings| >= 2 && Steady(readings) && Last(readings) != readings[|readings| - 2]
    ensures var a, b := readings[|readings| - 2], Last(readings);
            PctOf(k, Run(readings).pct)
            * ((b.user - a.user) + (b.nice - a.nice) + (b.system - a.system) + (b.idle - a.idle)
               + (b.iowait - a.iowait) + (b.irq - a.irq) + (b.softirq - a.softirq) + (b.steal - a.steal)) as real
            == 100.0 * (RawOf(k, b) - RawOf(k, a)) as real
  {
    hide Step, PctOf, RawOf, Steady, Unsaturated, NoneDecreases, TotalDelta, Run;
    var a, b := readings[|readings| - 2], Last(readings);
    SteadyFront(readings);
    LatestReadingIsKept(Front(readings));
    RunsOn(readings);
    StepShares(Run(Front(readings)), b, k);
    EightTogether(Run(Front(readings)), b);
  }

  lemma RunsOn(readings: seq<CpuStatRaw>)
    requires |readings| >= 2
    ensures Run(readings) == Step(Run(Front(readings)), Last(readings)) && Last(Front(readings)) == readings[|readings| - 2]
  {
    hide Step;
  }

  lemma EightTogether(c: Cpu, b: CpuStatRaw)
    requires NoneDecreases(c.prev, b) && Unsaturated(b)
    ensures var a := c.prev;
            TotalDelta(c, b)
            == (b.user - a.user) + (b.nice - a.nice) + (b.system - a.system) + (b.idle - a.idle)
               + (b.iowait - a.iowait) + (b.irq - a.irq) + (b.softirq - a.softirq) + (b.steal - a.steal)
  {
    hide Wrap64;
    TrueTotalDelta(c.prev, b);
  }

  /** Reported percentage times total ticks, over the rounds that report. */
  ghost function WeightedSum(k: Component, readings: seq<CpuStatRaw>): real {
    if |readings| < 2 then 0.0
    else
      var c, cur := Run(Front(readings)), Last(readings);
      WeightedSum(k, Front(readings))
      + (if TotalDelta(c, cur) == 0 then 0.0 else PctOf(k, Step(c, cur).pct) * TotalDelta(c, cur) as real)
  }

  /** Over any run the percentages weighted by their intervals give back 100 times the component's total change. */
  lemma {:induction false} PercentagesTelescope(k: Component, readings: seq<CpuStatRaw>)
    requires readings != [] && Steady(readings)
    ensures WeightedSum(k, readings) == 100.0 * Change(RawOf(k, readings[0]), RawOf(k, Last(readings))) as real
  {
    hide TotalDelta, Step, Unsaturated, NoneDecreases, Run, RawOf, Steady, WeightedSum;
    if |readings| == 1 {
      NothingWeighted(k, readings);
    } else {
      SteadyFront(readings);
      PercentagesTelescope(k, Front(readings));
      WeightedNext(k, readings);
    }
  }

  lemma NothingWeighted(k: Component, readings: seq<CpuStatRaw>)
    requires |readings| < 2
    ensures WeightedSum(k, readings) == 0.0
  {
  }

  lemma SteadyFront(readings: seq<CpuStatRaw>)
    requires |readings| > 1 && Steady(readings)
    ensures Steady(Front(readings)) && NoneDecreases(readings[|readings| - 2], Last(readings)) && Unsaturated(Last(readings))
  {
    hide NoneDecreases, Unsaturated;
    assert NoneDecreases(readings[|readings| - 2], readings[|readings| - 1]);
  }

  lemma WeightedNext(k: Component, readings: seq<CpuStatRaw>)
    requires |readings| > 1 && Steady(readings)
    ensures WeightedSum(k, readings)
            == WeightedSum(k, Front(readings)) + 100.0 * (RawOf(k, Last(readings)) - RawOf(k, readings[|readings| - 2])) as real
  {
    hide TotalDelta, Step, Unsaturated, NoneDecreases, Run, RawOf, PctOf, Steady;
    var c, cur := Run(Front(readings)), Last(readings);
    SteadyFront(readings);
    LatestReadingIsKept(Front(readings));
    ZeroDeltaMeansNoChange(c, cur);
    if TotalDelta(c, cur) != 0 {
      StepShares(c, cur, k);
    }
  }

  // ------------------------------------------------------------------------------------------
  // The monitor
  // ------------------------------------------------------------------------------------------

  class CpuStatMonitor {
    var pct: CpuStatPct
    var prev: CpuStatRaw
    ghost var readings: seq<CpuStatRaw>

    ghost predicate Valid()
      reads this
    {
      readings != [] && Cpu(prev, pct) == Run(readings)
    }

    /** Construction followed by Init's first reading. */
    constructor Init(first: CpuStatRaw)
      ensures Valid() && readings == [first]
    {
      prev, pct, readings := first, NO_PCT, [first];
    }

    method Collect(cur: CpuStatRaw)
      requires Valid()
      modifies this
      ensures Valid() && readings == old(readings) + [cur]
      ensures Cpu(prev, pct) == Step(Cpu(old(prev), old(pct)), cur)
    {
      hide Calc, Total, Sub64;
      FrontOfAppend(readings, cur);
      readings := readings + [cur];
      var totalDelta := Sub64(Total(cur), Total(prev));
      if totalDelta == 0 {
        return;
      }
      pct := pct.(user := Calc(cur.user, prev.user, totalDelta));
      pct := pct.(system := Calc(cur.system, prev.system, totalDelta));
      pct := pct.(idle := Calc(cur.idle, prev.idle, totalDelta));
      pct := pct.(iowait := Calc(cur.iowait, prev.iowait, totalDelta));
      pct := pct.(steal := Calc(cur.steal, prev.steal, totalDelta));
      pct := pct.(softirq := Calc(cur.softirq, prev.softirq, totalDelta));
      prev := cur;
    }
  }
}
