/** What every run of the TCP flow tracker keeps, whatever the interleaving of flows. */
module TcpFlowRuns {
  import opened Words
  import opened Collections
  import opened TcpFlow

  // ------------------------------------------------------------------------------------------
  // A live entry is the fold of its own flow's steps since it was created
  // ------------------------------------------------------------------------------------------

  /** At `t`, step `s` is a first send of its flow: the tracker tries to insert an entry. */
  predicate Inserts(t: Tracker, s: Step) {
    Key(s).family == AF_INET && s.probe.SendMsg? && Key(s) !in t.flows
  }

  predicate Refused(t: Tracker, s: Step) {
    Inserts(t, s) && |t.flows| >= MAX_ENTRIES
  }

  predicate Creates(t: Tracker, s: Step) {
    Inserts(t, s) && |t.flows| < MAX_ENTRIES
  }

  /** Step `i` created an entry for `k` and no later tcp_done on `k` removed it. */
  ghost predicate CreatedAt(trace: seq<Step>, k: FlowKey, i: nat) {
    && i < |trace| && Key(trace[i]) == k && Creates(Run(trace[..i]), trace[i])
    && forall j :: i < j < |trace| && Key(trace[j]) == k ==> !trace[j].probe.Done?
  }

  function SentBy(s: Step): nat {
    if s.probe.SendMsg? then s.probe.size else 0
  }

  function ReceivedBy(s: Step): nat {
    if s.probe.CleanupRbuf? then Max(s.probe.copied, 0) else 0
  }

  /** Unbounded sums over the steps of `k` from step `i` on. */
  ghost function SentSince(trace: seq<Step>, k: FlowKey, i: nat): nat {
    if |trace| <= i then 0
    else SentSince(Front(trace), k, i) + (if Key(Last(trace)) == k then SentBy(Last(trace)) else 0)
  }

  ghost function ReceivedSince(trace: seq<Step>, k: FlowKey, i: nat): nat {
    if |trace| <= i then 0
    else ReceivedSince(Front(trace), k, i) + (if Key(Last(trace)) == k then ReceivedBy(Last(trace)) else 0)
  }

  /** The last state set for `k` from step `i` on, truncated to 8 bits, or 0. */
  ghost function StateSince(trace: seq<Step>, k: FlowKey, i: nat): U8 {
    if |trace| <= i then 0
    else if Key(Last(trace)) == k && Last(trace).probe.SetState? then Last(trace).probe.state % 0x100
    else StateSince(Front(trace), k, i)
  }

  function FirstClock(p: Probe): U64 {
    match p
    case SendMsg(_, start, _) => start
    case CleanupRbuf(_, last) => last
    case SetState(_, last, _) => last
    case Done(_, now) => now
  }

  function LastClock(p: Probe): U64 {
    match p
    case SendMsg(_, _, last) => last
    case CleanupRbuf(_, last) => last
    case SetState(_, _, ts) => ts
    case Done(_, now) => now
  }

  /** The `last_ns` a step leaves in its flow's entry. */
  function TouchClock(p: Probe): U64 {
    if p.SetState? then p.lastNs else LastClock(p)
  }

  ghost function LastSince(trace: seq<Step>, k: FlowKey, i: nat): U64 {
    if |trace| <= i then 0
    else if Key(Last(trace)) == k then TouchClock(Last(trace).probe)
    else LastSince(Front(trace), k, i)
  }

  ghost function FoldSince(trace: seq<Step>, k: FlowKey, i: nat): FlowVal
    requires i < |trace|
  {
    FlowVal(Wrap64(SentSince(trace, k, i)), Wrap64(ReceivedSince(trace, k, i)), FirstClock(trace[i].probe),
            LastSince(trace, k, i), StateSince(trace, k, i))
  }

  lemma CreatedEarlier(trace: seq<Step>, k: FlowKey, i: nat)
    requires trace != [] && i < |trace| - 1
    ensures CreatedAt(trace, k, i) <==>
            CreatedAt(Front(trace), k, i) && !(Key(Last(trace)) == k && Last(trace).probe.Done?)
  {
    assert Front(trace)[..i] == trace[..i];
    assert forall j :: 0 <= j < |trace| - 1 ==> Front(trace)[j] == trace[j];
  }

  lemma RunStep(trace: seq<Step>)
    requires trace != []
    ensures |Front(trace)| < |trace| && Run(trace) == Next(Run(Front(trace)), Last(trace))
  {
  }

  /** An entry that some step created and none has removed holds exactly the fold of its steps. */
  lemma {:induction false} CreatedEntryIsFold(trace: seq<Step>, k: FlowKey, i: nat)
    requires CreatedAt(trace, k, i)
    ensures Lookup(Run(trace).flows, k) == Some(FoldSince(trace, k, i))
  {
    hide Next, EntryAfter, FoldSince, FillFlowKey, Creates;
    assert trace[..|trace| - 1] == Front(trace);
    if i < |trace| - 1 {
      CreatedEarlier(trace, k, i);
      CreatedEntryIsFold(Front(trace), k, i);
      NextEntry(Run(Front(trace)), Last(trace), k);
      FoldStep(trace, k, i, |Run(Front(trace)).flows| < MAX_ENTRIES);
      CreatedFamily(Run(trace[..i]), trace[i]);
    } else {
      FoldStart(trace, k);
    }
  }

  lemma CreatedFamily(t: Tracker, s: Step)
    requires Creates(t, s)
    ensures Key(s).family == AF_INET
  {
  }

  lemma FoldStart(trace: seq<Step>, k: FlowKey)
    requires trace != [] && Key(Last(trace)) == k && Creates(Run(Front(trace)), Last(trace))
    ensures Lookup(Next(Run(Front(trace)), Last(trace)).flows, k) == Some(FoldSince(trace, k, |trace| - 1))
  {
    hide Run, Next, FillFlowKey;
    var i := |trace| - 1;
    NextEntry(Run(Front(trace)), Last(trace), k);
    assert SentSince(Front(trace), k, i) == 0 && ReceivedSince(Front(trace), k, i) == 0;
    assert StateSince(Front(trace), k, i) == 0;
  }

  lemma FoldStep(trace: seq<Step>, k: FlowKey, i: nat, room: bool)
    requires i < |trace| - 1 && (Key(Last(trace)) == k ==> !Last(trace).probe.Done?)
    ensures Some(FoldSince(trace, k, i))
            == if Key(Last(trace)) == k then EntryAfter(Some(FoldSince(Front(trace), k, i)), room, Last(trace).probe)
               else Some(FoldSince(Front(trace), k, i))
  {
    hide FillFlowKey, Wrap64;
    var s := Last(trace);
    WrapAdd(SentSince(Front(trace), k, i), SentBy(s));
    WrapAdd(ReceivedSince(Front(trace), k, i), ReceivedBy(s));
    WrapAdd(SentSince(Front(trace), k, i), 0);
    WrapAdd(ReceivedSince(Front(trace), k, i), 0);
  }

  /** A step changes the entry of its own flow only. */
  lemma NextEntry(t: Tracker, s: Step, k: FlowKey)
    ensures Lookup(Next(t, s).flows, k)
            == if Key(s) == k && k.family == AF_INET
               then EntryAfter(Lookup(t.flows, k), |t.flows| < MAX_ENTRIES, s.probe)
               else Lookup(t.flows, k)
  {
  }

  /** In every reachable state the flow map holds an entry for `k` exactly when some step created
      one that no tcp_done has removed since, and that entry is the fold of the flow's own steps. */
  lemma {:induction false} LiveEntryIsFold(trace: seq<Step>, k: FlowKey)
    ensures k in Run(trace).flows <==> exists i: nat :: CreatedAt(trace, k, i)
    ensures forall i: nat :: CreatedAt(trace, k, i) ==> Run(trace).flows[k] == FoldSince(trace, k, i)
  {
    forall i: nat | CreatedAt(trace, k, i)
      ensures k in Run(trace).flows && Run(trace).flows[k] == FoldSince(trace, k, i)
    {
      CreatedEntryIsFold(trace, k, i);
    }
    if k in Run(trace).flows {
      LiveWasCreated(trace, k);
    }
  }

  lemma {:induction false} LiveWasCreated(trace: seq<Step>, k: FlowKey)
    requires k in Run(trace).flows
    ensures exists i: nat :: CreatedAt(trace, k, i)
  {
    var n := |trace| - 1;
    assert trace[..n] == Front(trace);
    if k in Run(Front(trace)).flows {
      LiveWasCreated(Front(trace), k);
      var i: nat :| CreatedAt(Front(trace), k, i);
      CreatedEarlier(trace, k, i);
    } else {
      assert CreatedAt(trace, k, n);
    }
  }

  // ------------------------------------------------------------------------------------------
  // Creations, emissions, bounds and clocks
  // ------------------------------------------------------------------------------------------

  ghost function CreateCount(trace: seq<Step>, k: FlowKey): nat {
    if trace == [] then 0
    else CreateCount(Front(trace), k)
         + (if Key(Last(trace)) == k && Creates(Run(Front(trace)), Last(trace)) then 1 else 0)
  }

  /** Everything handed to the perf output, in order. */
  ghost function Output(trace: seq<Step>): seq<FlowEvent> {
    if trace == [] then []
    else Output(Front(trace)) + (match Emitted(Run(Front(trace)), Last(trace)) case Some(e) => [e] case None => [])
  }

  function EventKey(e: FlowEvent): FlowKey {
    FlowKey(e.pid, e.saddr, e.daddr, e.sport, e.dport, e.family, e.protocol)
  }

  /** The statistics emitted for `k`, in order, without the latency and command name, which are not kept per flow. */
  ghost function StatsOf(events: seq<FlowEvent>, k: FlowKey): seq<FlowVal> {
    if events == [] then []
    else var e := Last(events);
         StatsOf(Front(events), k)
         + (if EventKey(e) == k then [FlowVal(e.bytesSent, e.bytesRecv, e.startNs, e.lastNs, e.state)] else [])
  }

  lemma StatsOfAppend(events: seq<FlowEvent>, e: FlowEvent, k: FlowKey)
    ensures StatsOf(events + [e], k) == StatsOf(events, k)
            + (if EventKey(e) == k then [FlowVal(e.bytesSent, e.bytesRecv, e.startNs, e.lastNs, e.state)] else [])
  {
    FrontOfAppend(events, e);
  }

  /** What a step adds to the statistics of `k`: the entry it removes. */
  lemma StatsStep(trace: seq<Step>, k: FlowKey)
    requires trace != []
    ensures StatsOf(Output(trace), k) == StatsOf(Output(Front(trace)), k)
            + (if Key(Last(trace)) == k && k.family == AF_INET && Last(trace).probe.Done? && k in Run(Front(trace)).flows
               then [Run(Front(trace)).flows[k]] else [])
  {
    var e := Emitted(Run(Front(trace)), Last(trace));
    if e.Some? {
      StatsOfAppend(Output(Front(trace)), e.value, k);
      assert EventKey(e.value) == Key(Last(trace));
    } else {
      assert Output(trace) == Output(Front(trace));
    }
  }

  /** Every entry ever created is either still live or was emitted, once. */
  lemma {:induction false} CreatesAreEmittedOrLive(trace: seq<Step>, k: FlowKey)
    ensures CreateCount(trace, k) == |StatsOf(Output(trace), k)| + (if k in Run(trace).flows then 1 else 0)
  {
    hide Next, FillFlowKey;
    if trace != [] {
      CreatesAreEmittedOrLive(Front(trace), k);
      StatsStep(trace, k);
      NextEntry(Run(Front(trace)), Last(trace), k);
    }
  }

  lemma PutSize<K, V>(m: map<K, V>, k: K, v: Option<V>)
    ensures |Put(m, k, v)| == |m| + (if v.Some? && k !in m then 1 else 0) - (if v.None? && k in m then 1 else 0)
  {
    if v.Some? {
      assert m[k := v.value].Keys == m.Keys + {k};
      assert |m[k := v.value].Keys| == |m.Keys + {k}|;
    } else {
      assert (m - {k}).Keys == m.Keys - {k};
      assert |(m - {k}).Keys| == |m.Keys - {k}|;
    }
  }

  /** Both maps stay within their bound and only IPv4 TCP flows are tracked. */
  lemma {:induction false} MapsAreBounded(trace: seq<Step>)
    ensures |Run(trace).flows| <= 65536 && |Run(trace).connects| <= 65536
    ensures forall k :: k in Run(trace).flows ==> k.family == AF_INET && k.protocol == IPPROTO_TCP
  {
    if trace != [] {
      MapsAreBounded(Front(trace));
      var t, s := Run(Front(trace)), Last(trace);
      PutSize(t.flows, Key(s), EntryAfter(Lookup(t.flows, Key(s)), |t.flows| < MAX_ENTRIES, s.probe));
      PutSize(t.connects, Key(s).pid, Lookup(Run(trace).connects, Key(s).pid));
    }
  }

  /** The kernel clock never goes backwards, within a probe or from one probe to the next. */
  ghost predicate Clocked(trace: seq<Step>) {
    && (forall i :: 0 <= i < |trace| ==> FirstClock(trace[i].probe) <= TouchClock(trace[i].probe) <= LastClock(trace[i].probe))
    && (forall i, j :: 0 <= i < j < |trace| ==> LastClock(trace[i].probe) <= FirstClock(trace[j].probe))
  }

  /** Under a monotone clock every entry has start_ns <= last_ns <= now and every connect time is in the past. */
  lemma {:induction false} TimesAreOrdered(trace: seq<Step>, now: U64)
    requires Clocked(trace) && (trace != [] ==> LastClock(Last(trace).probe) <= now)
    ensures forall k :: k in Run(trace).flows ==> Run(trace).flows[k].startNs <= Run(trace).flows[k].lastNs <= now
    ensures forall pid :: pid in Run(trace).connects ==> Run(trace).connects[pid] <= now
  {
    hide Next, FillFlowKey;
    if trace != [] {
      var t, s := Run(Front(trace)), Last(trace);
      var before := FirstClock(s.probe);
      assert Clocked(Front(trace)) && (Front(trace) != [] ==> LastClock(Last(Front(trace)).probe) <= before);
      TimesAreOrdered(Front(trace), before);
      forall k | k in Run(trace).flows
        ensures Run(trace).flows[k].startNs <= Run(trace).flows[k].lastNs <= now
      {
        NextEntry(t, s, k);
      }
      NextConnects(t, s);
    }
  }

  lemma NextConnects(t: Tracker, s: Step)
    ensures Next(t, s).connects == if Key(s).family == AF_INET then ConnectsAfter(t, s) else t.connects
  {
  }

  /** An emitted event has ordered times, and its connect latency is the true difference: the unsigned
      subtraction never wraps. */
  lemma EventTimes(trace: seq<Step>, s: Step)
    requires Clocked(trace + [s]) && Emitted(Run(trace), s).Some?
    ensures var e := Emitted(Run(trace), s).value;
            && e.startNs <= e.lastNs <= s.probe.nowNs
            && (e.pid in Run(trace).connects ==>
                  e.connectLatencyNs == s.probe.nowNs - Run(trace).connects[e.pid] >= 0)
  {
    hide Run, Next, FillFlowKey, Wrap64;
    FrontOfAppend(trace, s);
    assert forall i :: 0 <= i < |trace| ==> (trace + [s])[i] == trace[i];
    assert (trace + [s])[|trace|] == s;
    TimesAreOrdered(trace, s.probe.nowNs);
    TrueLatency(Run(trace), s);
  }

  lemma TrueLatency(t: Tracker, s: Step)
    requires Emitted(t, s).Some? && (Key(s).pid in t.connects ==> t.connects[Key(s).pid] <= s.probe.nowNs)
    ensures var e := Emitted(t, s).value;
            && e.pid == Key(s).pid && Key(s) in t.flows && e.startNs == t.flows[Key(s)].startNs && e.lastNs == t.flows[Key(s)].lastNs
            && (e.pid in t.connects ==> e.connectLatencyNs == s.probe.nowNs - t.connects[e.pid])
  {
    hide FillFlowKey, Wrap64;
    if Key(s).pid in t.connects {
      WrapWord(s.probe.nowNs - t.connects[Key(s).pid]);
    }
  }

  /** At `t`, step `s` records a SYN_SENT time for the process: its flow is tracked and the table has room. */
  predicate Records(t: Tracker, s: Step, pid: U32) {
    && Key(s).family == AF_INET && Key(s).pid == pid && s.probe.SetState? && s.probe.state == TCP_SYN_SENT
    && Key(s) in t.flows && (pid in t.connects || |t.connects| < MAX_ENTRIES)
  }

  /** Step `i` recorded a SYN_SENT time for the process, and no later step recorded another. */
  ghost predicate RecordedAt(trace: seq<Step>, pid: U32, i: nat) {
    && i < |trace| && Records(Run(trace[..i]), trace[i], pid)
    && forall j :: i < j < |trace| ==> !Records(Run(trace[..j]), trace[j], pid)
  }

  /** Connect times are kept per process, not per flow: the entry of a pid is the time of the latest SYN_SENT
      recorded for any of its flows, and it is never removed. */
  lemma {:induction false} ConnectIsLatestSyn(trace: seq<Step>, pid: U32)
    ensures pid in Run(trace).connects <==> exists i: nat :: RecordedAt(trace, pid, i)
    ensures forall i: nat :: RecordedAt(trace, pid, i) ==> Lookup(Run(trace).connects, pid) == Some(trace[i].probe.connectNs)
  {
    hide Next, FillFlowKey, Records, RecordedAt;
    if trace != [] {
      var front := Front(trace);
      ConnectIsLatestSyn(front, pid);
      NextConnect(Run(front), Last(trace), pid);
      RecordedOneMore(trace, pid);
      assert Records(Run(front), Last(trace), pid) ==> RecordedAt(trace, pid, |trace| - 1);
    } else {
      NeverRecorded(pid);
    }
  }

  lemma NeverRecorded(pid: U32)
    ensures forall i: nat :: !RecordedAt([], pid, i)
  {
  }

  /** The latest step either takes over as the one that recorded, or changes nothing about which did. */
  lemma RecordedOneMore(trace: seq<Step>, pid: U32)
    requires trace != []
    ensures var front, n := Front(trace), |trace| - 1;
            if Records(Run(front), Last(trace), pid) then forall i: nat :: RecordedAt(trace, pid, i) <==> i == n
            else forall i: nat :: RecordedAt(trace, pid, i) <==> RecordedAt(front, pid, i)
    ensures forall i: nat :: RecordedAt(Front(trace), pid, i) ==> i < |trace| - 1 && Front(trace)[i] == trace[i]
  {
    hide Run, Records;
    var front, n := Front(trace), |trace| - 1;
    assert trace[..n] == front && trace[n] == Last(trace);
    assert forall i :: 0 <= i < n ==> front[..i] == trace[..i] && front[i] == trace[i];
  }

  lemma NextConnect(t: Tracker, s: Step, pid: U32)
    ensures if Records(t, s, pid) then Lookup(Next(t, s).connects, pid) == Some(s.probe.connectNs)
            else Lookup(Next(t, s).connects, pid) == Lookup(t.connects, pid)
  {
    NextConnects(t, s);
  }

  // ------------------------------------------------------------------------------------------
  // When the connect latency is the flow's own
  // ------------------------------------------------------------------------------------------

  /** A SYN_SENT of the flow that ends with `s`. */
  predicate OwnSyn(trace: seq<Step>, s: Step, i: nat) {
    && i < |trace| && Key(trace[i]) == Key(s)
    && trace[i].probe.SetState? && trace[i].probe.state == TCP_SYN_SENT
  }

  /** For a SYN_SENT of the flow itself, with a time of its own and before the end, the latency emitted is the time
      since it if and only if it was recorded and no later SYN_SENT of the process was. */
  lemma LatencyIsOwnExactly(trace: seq<Step>, s: Step, i: nat)
    requires Clocked(trace + [s]) && Emitted(Run(trace), s).Some? && OwnSyn(trace, s, i)
    requires trace[i].probe.connectNs < s.probe.nowNs
    requires forall j :: 0 <= j < |trace| && j != i && trace[j].probe.SetState? ==>
               trace[j].probe.connectNs != trace[i].probe.connectNs
    ensures Emitted(Run(trace), s).value.connectLatencyNs == s.probe.nowNs - trace[i].probe.connectNs
            <==> RecordedAt(trace, Key(s).pid, i)
  {
    hide Run, Next, FillFlowKey, Wrap64;
    var pid := Key(s).pid;
    ConnectIsLatestSyn(trace, pid);
    EventTimes(trace, s);
    if pid in Run(trace).connects {
      var r: nat :| RecordedAt(trace, pid, r);
      assert Lookup(Run(trace).connects, pid) == Some(trace[r].probe.connectNs);
    }
  }

  /** The documented figure, from SYN_SENT to ESTABLISHED: when the flow's SYN_SENT is the one recorded, the latency
      is never less, and equals it if and only if tcp_done comes at the very time the flow was established. */
  lemma LatencyToEstablishedExactly(trace: seq<Step>, s: Step, i: nat, e: nat)
    requires Clocked(trace + [s]) && Emitted(Run(trace), s).Some?
    requires OwnSyn(trace, s, i) && RecordedAt(trace, Key(s).pid, i)
    requires i < e < |trace| && Key(trace[e]) == Key(s)
    requires trace[e].probe.SetState? && trace[e].probe.state == TCP_ESTABLISHED
    ensures var latency := Emitted(Run(trace), s).value.connectLatencyNs;
            var documented := trace[e].probe.lastNs as int - trace[i].probe.connectNs as int;
            && 0 <= documented <= latency
            && (latency == documented <==> s.probe.nowNs == trace[e].probe.lastNs)
  {
    hide Run, Next, FillFlowKey, Wrap64;
    ConnectIsLatestSyn(trace, Key(s).pid);
    EventTimes(trace, s);
    assert (trace + [s])[i] == trace[i] && (trace + [s])[e] == trace[e] && (trace + [s])[|trace|] == s;
  }

  /** A failing input in the usual order of events: a connection whose SYN_SENT comes before its first send is not
      tracked yet, so nothing is recorded and the latency emitted is 0. */
  lemma ConnectBeforeSendReportsZero(p: U64, sk: Sock, size: U64, t: seq<U64>, comm: string)
    requires sk.family == AF_INET && |t| == 5 && t[0] <= t[1] <= t[2] <= t[3] <= t[4]
    ensures var trace := [Step(p, sk, SetState(TCP_SYN_SENT, t[0], t[1])), Step(p, sk, SendMsg(size, t[2], t[3]))];
            var s := Step(p, sk, Done(comm, t[4]));
            && Clocked(trace + [s]) && OwnSyn(trace, s, 0)
            && Emitted(Run(trace), s).Some? && Emitted(Run(trace), s).value.connectLatencyNs == 0
  {
    hide FillFlowKey, Wrap64;
    var syn, send := Step(p, sk, SetState(TCP_SYN_SENT, t[0], t[1])), Step(p, sk, SendMsg(size, t[2], t[3]));
    assert [] + [syn] == [syn] && [syn] + [send] == [syn, send];
    FamilyOfKey(p, sk);
    RunAppend([], syn);
    RunAppend([syn], send);
    NextUntracked(EMPTY, syn);
    NextEntry(EMPTY, send, Key(send));
    NextConnects(EMPTY, send);
  }

  lemma FamilyOfKey(p: U64, sk: Sock)
    ensures FillFlowKey(p, sk).family == sk.family
  {
  }

  /** Another: with two live flows of one process, the one that connected first is charged from the other's SYN_SENT. */
  lemma LaterConnectIsChargedToEarlierFlow(p: U64, a: Sock, b: Sock, ta: U64, tb: U64, now: U64, comm: string)
    requires a.family == AF_INET && b.family == AF_INET && a != b && ta < tb <= now
    ensures var trace := [Step(p, a, SendMsg(1, 0, 0)), Step(p, b, SendMsg(1, 0, 0)),
                          Step(p, a, SetState(TCP_SYN_SENT, ta, ta)), Step(p, b, SetState(TCP_SYN_SENT, tb, tb))];
            var s := Step(p, a, Done(comm, now));
            && Clocked(trace + [s]) && OwnSyn(trace, s, 2)
            && Emitted(Run(trace), s).Some? && Emitted(Run(trace), s).value.connectLatencyNs == now - tb < now - ta
  {
    hide FillFlowKey, Wrap64, Next;
    var s0, s1 := Step(p, a, SendMsg(1, 0, 0)), Step(p, b, SendMsg(1, 0, 0));
    var s2, s3 := Step(p, a, SetState(TCP_SYN_SENT, ta, ta)), Step(p, b, SetState(TCP_SYN_SENT, tb, tb));
    var trace, s := [s0, s1, s2, s3], Step(p, a, Done(comm, now));
    assert [] + [s0] == [s0] && [s0] + [s1] == [s0, s1] && [s0, s1] + [s2] == [s0, s1, s2] && [s0, s1, s2] + [s3] == trace;
    FamilyOfKey(p, a);
    FamilyOfKey(p, b);
    KeyIdentifiesFlow(p, a, p, b);
    SamePid(p, a, b);
    TwoFlows(s0, s1, s2, s3);
    assert Clocked(trace + [s]);
    EventTimes(trace, s);
  }

  /** A flow with no SYN_SENT of its own, such as an accepted connection, has no connect time to report: its latency is
      0 if and only if the process has none recorded, or recorded it at the very end. */
  lemma LatencyWithoutSynExactly(trace: seq<Step>, s: Step)
    requires Clocked(trace + [s]) && Emitted(Run(trace), s).Some?
    requires forall i: nat :: !OwnSyn(trace, s, i)
    ensures Emitted(Run(trace), s).value.connectLatencyNs == 0
            <==> forall i: nat :: RecordedAt(trace, Key(s).pid, i) ==> trace[i].probe.connectNs == s.probe.nowNs
    ensures forall i: nat :: RecordedAt(trace, Key(s).pid, i) ==> Key(trace[i]) != Key(s)
  {
    hide Run, Next, FillFlowKey, Wrap64;
    var pid := Key(s).pid;
    ConnectIsLatestSyn(trace, pid);
    EventTimes(trace, s);
    if pid in Run(trace).connects {
      var r: nat :| RecordedAt(trace, pid, r);
      assert Lookup(Run(trace).connects, pid) == Some(trace[r].probe.connectNs);
    }
    forall i: nat | RecordedAt(trace, pid, i)
      ensures Key(trace[i]) != Key(s)
    {
      assert !OwnSyn(trace, s, i);
    }
  }

  /** A third: an accepted connection is charged from the SYN_SENT of another flow of its process. */
  lemma AcceptedConnectionIsCharged(p: U64, a: Sock, b: Sock, ta: U64, tb: U64, now: U64, comm: string)
    requires a.family == AF_INET && b.family == AF_INET && a != b && ta <= tb < now
    ensures var trace := [Step(p, a, SendMsg(1, 0, 0)), Step(p, b, SendMsg(1, 0, 0)),
                          Step(p, a, SetState(TCP_ESTABLISHED, ta, ta)), Step(p, b, SetState(TCP_SYN_SENT, tb, tb))];
            var s := Step(p, a, Done(comm, now));
            && Clocked(trace + [s]) && (forall i: nat :: !OwnSyn(trace, s, i))
            && Emitted(Run(trace), s).Some? && Emitted(Run(trace), s).value.connectLatencyNs == now - tb > 0
  {
    hide FillFlowKey, Wrap64, Next;
    var s0, s1 := Step(p, a, SendMsg(1, 0, 0)), Step(p, b, SendMsg(1, 0, 0));
    var s2, s3 := Step(p, a, SetState(TCP_ESTABLISHED, ta, ta)), Step(p, b, SetState(TCP_SYN_SENT, tb, tb));
    var trace, s := [s0, s1, s2, s3], Step(p, a, Done(comm, now));
    assert [] + [s0] == [s0] && [s0] + [s1] == [s0, s1] && [s0, s1] + [s2] == [s0, s1, s2] && [s0, s1, s2] + [s3] == trace;
    FamilyOfKey(p, a);
    FamilyOfKey(p, b);
    KeyIdentifiesFlow(p, a, p, b);
    SamePid(p, a, b);
    TwoFlows(s0, s1, s2, s3);
    assert Clocked(trace + [s]);
    EventTimes(trace, s);
  }

  lemma SamePid(p: U64, a: Sock, b: Sock)
    ensures FillFlowKey(p, a).pid == FillFlowKey(p, b).pid
  {
  }

  lemma TwoFlows(s0: Step, s1: Step, s2: Step, s3: Step)
    requires s0.probe.SendMsg? && s1.probe.SendMsg? && s2.probe.SetState? && s3.probe.SetState?
    requires Key(s0) == Key(s2) != Key(s1) == Key(s3) && Key(s0).pid == Key(s1).pid
    requires Key(s0).family == AF_INET && Key(s1).family == AF_INET && s3.probe.state == TCP_SYN_SENT
    ensures var t := Run([s0, s1, s2, s3]);
            Key(s0) in t.flows && Lookup(t.connects, Key(s0).pid) == Some(s3.probe.connectNs)
  {
    hide FillFlowKey, Next;
    var t0, t1 := Next(EMPTY, s0), Next(Next(EMPTY, s0), s1);
    var t2 := Next(t1, s2);
    assert [] + [s0] == [s0] && [s0] + [s1] == [s0, s1] && [s0, s1] + [s2] == [s0, s1, s2];
    assert [s0, s1, s2] + [s3] == [s0, s1, s2, s3];
    RunAppend([], s0);
    RunAppend([s0], s1);
    RunAppend([s0, s1], s2);
    RunAppend([s0, s1, s2], s3);
    OneMoreFlow(EMPTY, s0);
    OneMoreFlow(t0, s1);
    NextEntry(EMPTY, s0, Key(s0));
    NextEntry(t0, s1, Key(s0));
    NextEntry(t0, s1, Key(s1));
    NextEntry(t1, s2, Key(s0));
    NextEntry(t1, s2, Key(s1));
    NextEntry(t2, s3, Key(s0));
    NextConnect(EMPTY, s0, Key(s0).pid);
    NextConnect(t0, s1, Key(s0).pid);
    NextConnect(t1, s2, Key(s0).pid);
    NextConnect(t2, s3, Key(s0).pid);
    MapsAreBounded([s0, s1]);
    NextConnects(EMPTY, s0);
    NextConnects(t0, s1);
    NextConnects(t1, s2);
    assert t1.connects == map[];
  }

  /** A step adds at most one entry. */
  lemma OneMoreFlow(t: Tracker, s: Step)
    ensures |Next(t, s).flows| <= |t.flows| + 1
    ensures Creates(t, s) ==> |Next(t, s).flows| == |t.flows| + 1
  {
    hide FillFlowKey;
    PutSize(t.flows, Key(s), EntryAfter(Lookup(t.flows, Key(s)), |t.flows| < MAX_ENTRIES, s.probe));
  }

  // ------------------------------------------------------------------------------------------
  // Flow independence
  // ------------------------------------------------------------------------------------------

  /** Only the steps of `k`, with their own timestamps. */
  ghost function Project(trace: seq<Step>, k: FlowKey): seq<Step> {
    if trace == [] then []
    else Project(Front(trace), k) + (if Key(Last(trace)) == k then [Last(trace)] else [])
  }

  /** Some insert of `k` was refused by a full map. */
  ghost predicate RefusedFor(trace: seq<Step>, k: FlowKey) {
    exists i :: 0 <= i < |trace| && Key(trace[i]) == k && Refused(Run(trace[..i]), trace[i])
  }

  lemma ProjectStep(trace: seq<Step>, k: FlowKey)
    requires trace != [] && Key(Last(trace)) == k
    ensures Project(trace, k) != [] && Front(Project(trace, k)) == Project(Front(trace), k)
    ensures Last(Project(trace, k)) == Last(trace)
  {
    FrontOfAppend(Project(Front(trace), k), Last(trace));
  }

  /** Run alone, a flow never sees a full map. */
  lemma {:induction false} AloneIsSmall(trace: seq<Step>, k: FlowKey)
    ensures forall k' :: k' in Run(Project(trace, k)).flows ==> k' == k
    ensures |Run(Project(trace, k)).flows| < MAX_ENTRIES
  {
    if trace != [] {
      AloneIsSmall(Front(trace), k);
      if Key(Last(trace)) == k {
        ProjectStep(trace, k);
        forall k' {
          NextEntry(Run(Project(Front(trace), k)), Last(trace), k');
        }
      } else {
        assert Project(trace, k) == Project(Front(trace), k);
      }
    }
    AtMostOne(Run(Project(trace, k)).flows, k);
  }

  lemma AtMostOne<V>(m: map<FlowKey, V>, k: FlowKey)
    requires forall k' :: k' in m ==> k' == k
    ensures |m| <= 1
  {
    assert m.Keys == if k in m then {k} else {};
    assert |m.Keys| <= 1;
  }

  /** The tracker treats `k` after `trace` as if its steps were the only ones. */
  ghost predicate Independent(trace: seq<Step>, k: FlowKey) {
    && Lookup(Run(trace).flows, k) == Lookup(Run(Project(trace, k)).flows, k)
    && StatsOf(Output(trace), k) == StatsOf(Output(Project(trace, k)), k)
  }

  lemma IndependenceStep(trace: seq<Step>, k: FlowKey)
    requires trace != [] && Independent(Front(trace), k)
    ensures Independent(trace, k) <==> !(Key(Last(trace)) == k && Refused(Run(Front(trace)), Last(trace)))
  {
    StatsStep(trace, k);
    NextEntry(Run(Front(trace)), Last(trace), k);
    if Key(Last(trace)) == k {
      ProjectStep(trace, k);
      StatsStep(Project(trace, k), k);
      OwnStep(trace, k);
    } else {
      assert Project(trace, k) == Project(Front(trace), k);
    }
  }

  /** A step of `k` itself leaves the entry it leaves when run alone, unless the map refuses it. */
  lemma OwnStep(trace: seq<Step>, k: FlowKey)
    requires trace != [] && Key(Last(trace)) == k
    requires Lookup(Run(Front(trace)).flows, k) == Lookup(Run(Project(Front(trace), k)).flows, k)
    ensures Lookup(Run(trace).flows, k) == Lookup(Run(Project(trace, k)).flows, k)
            <==> !Refused(Run(Front(trace)), Last(trace))
  {
    AloneIsSmall(Front(trace), k);
    ProjectStep(trace, k);
    NextEntry(Run(Front(trace)), Last(trace), k);
    NextEntry(Run(Project(Front(trace), k)), Last(trace), k);
  }

  lemma RefusedForFront(trace: seq<Step>, k: FlowKey)
    requires trace != []
    ensures RefusedFor(trace, k) <==>
            RefusedFor(Front(trace), k) || (Key(Last(trace)) == k && Refused(Run(Front(trace)), Last(trace)))
  {
    var n := |trace| - 1;
    assert trace[..n] == Front(trace);
    assert forall i :: 0 <= i < n ==> trace[..i] == Front(trace)[..i] && trace[i] == Front(trace)[i];
  }

  /** As long as no insert of `k` was refused, its entry and the statistics emitted for it are those of
      its own steps run alone, however the other flows are interleaved. */
  lemma {:induction false} FlowIndependence(trace: seq<Step>, k: FlowKey)
    requires !RefusedFor(trace, k)
    ensures Independent(trace, k)
  {
    if trace != [] {
      RefusedForFront(trace, k);
      FlowIndependence(Front(trace), k);
      IndependenceStep(trace, k);
    }
  }

  /** The condition is exact: a flow is independent at every moment of a run if and only if the full map
      never refused it. */
  lemma {:induction false} FlowIndependenceExactly(trace: seq<Step>, k: FlowKey)
    ensures (forall n :: 0 <= n <= |trace| ==> Independent(trace[..n], k)) <==> !RefusedFor(trace, k)
  {
    if !RefusedFor(trace, k) {
      forall n | 0 <= n <= |trace|
        ensures Independent(trace[..n], k)
      {
        assert forall i :: 0 <= i < n ==> trace[..n][..i] == trace[..i];
        FlowIndependence(trace[..n], k);
      }
    } else {
      var i :| 0 <= i < |trace| && Key(trace[i]) == k && Refused(Run(trace[..i]), trace[i]);
      var upTo := trace[..i + 1];
      assert Front(upTo) == trace[..i] && Last(upTo) == trace[i];
      if Independent(trace[..i], k) {
        IndependenceStep(upTo, k);
      }
    }
  }

  /** The n-th of a family of processes, each sending once on the same tuple. */
  function NthSend(n: nat): Step
    requires n <= MAX_ENTRIES
  {
    Step(n * 0x1_0000_0000, Sock(0, 0, 0, 0, AF_INET), SendMsg(1, 0, 0))
  }

  ghost function Fill(n: nat): seq<Step>
    requires n <= MAX_ENTRIES + 1
  {
    if n == 0 then [] else Fill(n - 1) + [NthSend(n - 1)]
  }

  lemma NthKey(n: nat)
    requires n <= MAX_ENTRIES
    ensures Key(NthSend(n)).pid == n && Key(NthSend(n)).family == AF_INET
  {
  }

  lemma {:induction false} FillSize(n: nat)
    requires n <= MAX_ENTRIES
    ensures |Fill(n)| == n && |Run(Fill(n)).flows| == n
    ensures forall k :: k in Run(Fill(n)).flows ==> k.pid < n
  {
    hide Key, Next, NthSend;
    if n > 0 {
      var t, s := Run(Fill(n - 1)), NthSend(n - 1);
      FillSize(n - 1);
      NthKey(n - 1);
      RunAppend(Fill(n - 1), s);
      NthIsSend(n - 1);
      NextFilled(t, s, n - 1);
    }
  }

  lemma NextFilled(t: Tracker, s: Step, n: nat)
    requires |t.flows| == n < MAX_ENTRIES && forall k :: k in t.flows ==> k.pid < n
    requires s.probe.SendMsg? && Key(s).pid == n && Key(s).family == AF_INET
    ensures |Next(t, s).flows| == n + 1 && forall k :: k in Next(t, s).flows ==> k.pid < n + 1
  {
    hide Key, Next;
    OneMoreFlow(t, s);
    forall k | k in Next(t, s).flows
      ensures k.pid < n + 1
    {
      NextEntry(t, s, k);
    }
  }

  lemma NthIsSend(n: nat)
    requires n <= MAX_ENTRIES
    ensures NthSend(n).probe.SendMsg?
  {
  }

  /** A refusal is reachable: after 65536 processes have each sent once, the next one's flow is refused, and from
      then on it is not treated as it would be alone. */
  lemma RefusalIsReachable()
    ensures var trace, k := Fill(65537), Key(NthSend(65536));
            RefusedFor(trace, k) && k !in Run(trace).flows && !Independent(trace, k)
  {
    hide Run, Next, NthSend, FillFlowKey, Independent;
    var full, s := Fill(MAX_ENTRIES), NthSend(MAX_ENTRIES);
    var trace, k := Fill(MAX_ENTRIES + 1), Key(s);
    FillSize(MAX_ENTRIES);
    NthKey(MAX_ENTRIES);
    NthIsSend(MAX_ENTRIES);
    assert trace == full + [s];
    FrontOfAppend(full, s);
    assert trace[..MAX_ENTRIES] == full && trace[MAX_ENTRIES] == s;
    assert Refused(Run(trace[..MAX_ENTRIES]), trace[MAX_ENTRIES]);
    RunAppend(full, s);
    NextEntry(Run(full), s, k);
    NotRefusedBefore(full, k);
    FlowIndependence(full, k);
    IndependenceStep(trace, k);
  }

  lemma NotRefusedBefore(full: seq<Step>, k: FlowKey)
    requires |full| <= MAX_ENTRIES
    ensures !RefusedFor(full, k)
  {
    hide Run, FillFlowKey;
    forall i | 0 <= i < |full|
      ensures !Refused(Run(full[..i]), full[i])
    {
      NoMoreFlowsThanSteps(full[..i]);
    }
  }

  lemma {:induction false} NoMoreFlowsThanSteps(trace: seq<Step>)
    ensures |Run(trace).flows| <= |trace|
  {
    hide Next;
    if trace != [] {
      NoMoreFlowsThanSteps(Front(trace));
      OneMoreFlow(Run(Front(trace)), Last(trace));
    }
  }

  // ------------------------------------------------------------------------------------------
  // Byte conservation inside the tracker
  // ------------------------------------------------------------------------------------------

  datatype Side = Sent | Received

  function Bytes(side: Side, v: FlowVal): nat {
    if side == Sent then v.bytesSent else v.bytesRecv
  }

  function EventBytes(side: Side, e: FlowEvent): nat {
    if side == Sent then e.bytesSent else e.bytesRecv
  }

  /** The bytes a step brings to the tracker. */
  function Offered(side: Side, s: Step): nat {
    if Key(s).family != AF_INET then 0 else if side == Sent then SentBy(s) else ReceivedBy(s)
  }

  /** The bytes a step brings that are counted nowhere: a refused first send, or a receive of an untracked flow. */
  function Missed(side: Side, t: Tracker, s: Step): nat {
    if Refused(t, s) || (s.probe.CleanupRbuf? && Key(s) !in t.flows) then Offered(side, s) else 0
  }

  ghost function LiveBytes(side: Side, flows: map<FlowKey, FlowVal>): nat
    decreases |flows|
  {
    if flows == map[] then 0
    else var k :| k in flows;
         assert |flows - {k}| < |flows| by { PutSize(flows, k, None); }
         Bytes(side, flows[k]) + LiveBytes(side, flows - {k})
  }

  lemma {:induction false} LiveBytesSplit(side: Side, flows: map<FlowKey, FlowVal>, k: FlowKey)
    requires k in flows
    ensures LiveBytes(side, flows) == Bytes(side, flows[k]) + LiveBytes(side, flows - {k})
    decreases |flows|
  {
    var k0 :| k0 in flows && LiveBytes(side, flows) == Bytes(side, flows[k0]) + LiveBytes(side, flows - {k0});
    PutSize(flows, k0, None);
    PutSize(flows, k, None);
    if k0 != k {
      LiveBytesSplit(side, flows - {k0}, k);
      LiveBytesSplit(side, flows - {k}, k0);
      assert flows - {k0} - {k} == flows - {k} - {k0};
    }
  }

  function EntryBytes(side: Side, v: Option<FlowVal>): nat {
    if v.Some? then Bytes(side, v.value) else 0
  }

  lemma LiveBytesPut(side: Side, flows: map<FlowKey, FlowVal>, k: FlowKey, v: Option<FlowVal>)
    ensures LiveBytes(side, Put(flows, k, v)) + EntryBytes(side, Lookup(flows, k))
            == LiveBytes(side, flows) + EntryBytes(side, v)
  {
    if k in flows {
      LiveBytesSplit(side, flows, k);
    } else {
      assert flows - {k} == flows;
    }
    if v.Some? {
      LiveBytesSplit(side, flows[k := v.value], k);
      assert flows[k := v.value] - {k} == flows - {k};
    }
  }

  function EmittedBytes(side: Side, e: Option<FlowEvent>): nat {
    if e.Some? then EventBytes(side, e.value) else 0
  }

  /** Bytes that leave the map in a step: emitted, or never counted. */
  function Gone(side: Side, t: Tracker, s: Step): nat {
    EmittedBytes(side, Emitted(t, s)) + Missed(side, t, s)
  }

  lemma EntryConserves(side: Side, t: Tracker, s: Step)
    requires Key(s).family == AF_INET
    ensures var entry := Lookup(t.flows, Key(s));
            var after := EntryAfter(entry, |t.flows| < MAX_ENTRIES, s.probe);
            Same64(EntryBytes(side, entry) + Offered(side, s), EntryBytes(side, after) + Gone(side, t, s))
  {
    hide FillFlowKey, Wrap64;
    var entry := Lookup(t.flows, Key(s));
    var after := EntryAfter(entry, |t.flows| < MAX_ENTRIES, s.probe);
    var x := EntryBytes(side, entry) + Offered(side, s);
    SameWrap(x);
    SameSymmetric(Wrap64(x), x);
    SameSelf(x);
    if entry.Some? && !s.probe.Done? {
      WrapWord(EntryBytes(side, entry));
      assert EntryBytes(side, after) + Gone(side, t, s) == Wrap64(x);
    } else {
      assert EntryBytes(side, after) + Gone(side, t, s) == x;
    }
  }

  lemma Rebalance(live: int, entry: int, offered: int, live': int, entry': int, out: int)
    requires live' + entry == live + entry' && Same64(entry + offered, entry' + out)
    ensures Same64(live + offered, live' + out)
  {
    SameDifference(entry + offered, entry' + out, live + offered, live' + out);
  }

  /** One step conserves bytes: what was live and what is offered is afterwards live, emitted or missed. */
  lemma StepConserves(side: Side, t: Tracker, s: Step)
    ensures Same64(LiveBytes(side, t.flows) + Offered(side, s), LiveBytes(side, Next(t, s).flows) + Gone(side, t, s))
  {
    hide *;
    if Key(s).family == AF_INET {
      TrackedStep(t, s);
      TrackedConserves(side, t, s, Next(t, s).flows);
    } else {
      ForeignStep(side, t, s);
    }
  }

  lemma TrackedStep(t: Tracker, s: Step)
    requires Key(s).family == AF_INET
    ensures Next(t, s).flows == Put(t.flows, Key(s), EntryAfter(Lookup(t.flows, Key(s)), |t.flows| < MAX_ENTRIES, s.probe))
  {
  }

  /** Probes of other address families change and count nothing. */
  lemma ForeignStep(side: Side, t: Tracker, s: Step)
    requires Key(s).family != AF_INET
    ensures Next(t, s) == t && Emitted(t, s).None? && Gone(side, t, s) == 0 && Offered(side, s) == 0
    ensures Same64(LiveBytes(side, t.flows), LiveBytes(side, t.flows))
  {
    hide FillFlowKey, LiveBytes, Wrap64;
    SameSelf(LiveBytes(side, t.flows));
  }

  lemma TrackedConserves(side: Side, t: Tracker, s: Step, next: map<FlowKey, FlowVal>)
    requires Key(s).family == AF_INET
    requires next == Put(t.flows, Key(s), EntryAfter(Lookup(t.flows, Key(s)), |t.flows| < MAX_ENTRIES, s.probe))
    ensures Same64(LiveBytes(side, t.flows) + Offered(side, s), LiveBytes(side, next) + Gone(side, t, s))
  {
    hide *;
    EntryConserves(side, t, s);
    PutConserves(side, t.flows, Key(s), EntryAfter(Lookup(t.flows, Key(s)), |t.flows| < MAX_ENTRIES, s.probe),
                 Offered(side, s), Gone(side, t, s));
  }

  lemma PutConserves(side: Side, flows: map<FlowKey, FlowVal>, k: FlowKey, after: Option<FlowVal>, offered: nat, gone: nat)
    requires Same64(EntryBytes(side, Lookup(flows, k)) + offered, EntryBytes(side, after) + gone)
    ensures Same64(LiveBytes(side, flows) + offered, LiveBytes(side, Put(flows, k, after)) + gone)
  {
    LiveBytesPut(side, flows, k, after);
    Rebalance(LiveBytes(side, flows), EntryBytes(side, Lookup(flows, k)), offered,
              LiveBytes(side, Put(flows, k, after)), EntryBytes(side, after), gone);
  }

  // ------------------------------------------------------------------------------------------
  // Whole runs
  // ------------------------------------------------------------------------------------------

  ghost function TotalOffered(side: Side, trace: seq<Step>): nat {
    if trace == [] then 0 else TotalOffered(side, Front(trace)) + Offered(side, Last(trace))
  }

  ghost function TotalMissed(side: Side, trace: seq<Step>): nat {
    if trace == [] then 0 else TotalMissed(side, Front(trace)) + Missed(side, Run(Front(trace)), Last(trace))
  }

  ghost function TotalBytes(side: Side, events: seq<FlowEvent>): nat {
    if events == [] then 0 else TotalBytes(side, Front(events)) + EventBytes(side, Last(events))
  }

  /** Bytes that have left the map in a run. */
  ghost function Settled(side: Side, trace: seq<Step>): nat {
    TotalBytes(side, Output(trace)) + TotalMissed(side, trace)
  }

  lemma SettledStep(side: Side, trace: seq<Step>)
    requires trace != []
    ensures Settled(side, trace) == Settled(side, Front(trace)) + Gone(side, Run(Front(trace)), Last(trace))
  {
    var e := Emitted(Run(Front(trace)), Last(trace));
    if e.Some? {
      FrontOfAppend(Output(Front(trace)), e.value);
    } else {
      assert Output(trace) == Output(Front(trace));
    }
  }

  lemma Carry(total: int, live: int, settled: int, offered: int, live': int, gone: int)
    requires Same64(total, live + settled) && Same64(live + offered, live' + gone)
    ensures Same64(total + offered, live' + (settled + gone))
  {
    SameAdd(total, live + settled, live + offered, live' + gone);
    SameDifference(total + (live + offered), (live + settled) + (live' + gone), total + offered, live' + (settled + gone));
  }

  lemma NothingOffered(side: Side)
    ensures Same64(TotalOffered(side, []), LiveBytes(side, Run([]).flows) + Settled(side, []))
  {
    SameSelf(0);
  }

  /** Over any run, modulo 2^64, every byte offered by an IPv4 probe is in a live entry, in an emitted
      event, or in an explicitly counted miss. */
  lemma {:induction false} TrackerConserves(side: Side, trace: seq<Step>)
    ensures Same64(TotalOffered(side, trace), LiveBytes(side, Run(trace).flows) + Settled(side, trace))
    decreases |trace|
  {
    hide *;
    if trace == [] {
      NothingOffered(side);
    } else {
      RunStep(trace);
      var t, s := Run(Front(trace)), Last(trace);
      TrackerConserves(side, Front(trace));
      StepConserves(side, t, s);
      SettledStep(side, trace);
      OfferedStep(side, trace);
      Carry(TotalOffered(side, Front(trace)), LiveBytes(side, t.flows), Settled(side, Front(trace)),
            Offered(side, s), LiveBytes(side, Next(t, s).flows), Gone(side, t, s));
    }
  }

  lemma OfferedStep(side: Side, trace: seq<Step>)
    requires trace != []
    ensures TotalOffered(side, trace) == TotalOffered(side, Front(trace)) + Offered(side, Last(trace))
  {
  }
}
