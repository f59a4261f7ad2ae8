/** The TCP flow tracker: four kprobes over a bounded flow map and a bounded per-pid
    connect-time map (worker/src/ebpf/tcp_flow.bpf.c). Each kprobe is one atomic step. */
module TcpFlow {
  import opened Words
  import opened Collections

  const AF_INET: U16 := 2
  const IPPROTO_TCP: U8 := 6
  const TCP_ESTABLISHED: I32 := 1
  const TCP_SYN_SENT: I32 := 2
  const MAX_ENTRIES: nat := 65536

  /** The socket fields a key is read from; `dport` is in network byte order. */
  datatype Sock = Sock(rcvSaddr: U32, daddr: U32, num: U16, dport: U16, family: U16)

  datatype FlowKey = FlowKey(pid: U32, saddr: U32, daddr: U32, sport: U16, dport: U16,
                             family: U16, protocol: U8)

  datatype FlowVal = FlowVal(bytesSent: U64, bytesRecv: U64, startNs: U64, lastNs: U64, state: U8)

  datatype FlowEvent = FlowEvent(pid: U32, comm: string, saddr: U32, daddr: U32, sport: U16, dport: U16,
                                 family: U16, protocol: U8, state: U8, bytesSent: U64, bytesRecv: U64,
                                 connectLatencyNs: U64, startNs: U64, lastNs: U64)

  /** The arguments of a kprobe together with the clock readings it takes, in the order it takes them. */
  datatype Probe =
    | SendMsg(size: U64, startNs: U64, lastNs: U64)
    | CleanupRbuf(copied: I32, lastNs: U64)
    | SetState(state: I32, lastNs: U64, connectNs: U64)
    | Done(comm: string, nowNs: U64)

  datatype Step = Step(pidTgid: U64, sk: Sock, probe: Probe)

  function Ntohs(x: U16): U16 {
    x % 0x100 * 0x100 + x / 0x100
  }

  function FillFlowKey(pidTgid: U64, sk: Sock): FlowKey {
    FlowKey(pidTgid / 0x1_0000_0000, sk.rcvSaddr, sk.daddr, sk.num, Ntohs(sk.dport), sk.family, IPPROTO_TCP)
  }

  /** A port whose two bytes are those of the other in reverse. */
  predicate BytesExchanged(x: U16, y: U16) {
    x / 0x100 == y % 0x100 && x % 0x100 == y / 0x100
  }

  /** The event's process, addresses, ports and command name are those of the tcp_done that emitted it. */
  predicate OfSocket(e: FlowEvent, s: Step) {
    && s.probe.Done? && e.comm == s.probe.comm && e.pid == s.pidTgid / 0x1_0000_0000
    && e.saddr == s.sk.rcvSaddr && e.daddr == s.sk.daddr && e.sport == s.sk.num && BytesExchanged(e.dport, s.sk.dport)
    && e.family == s.sk.family == 2 && e.protocol == 6
  }

  lemma EmittedIsOfSocket(t: Tracker, s: Step)
    requires Emitted(t, s).Some?
    ensures OfSocket(Emitted(t, s).value, s)
  {
    NtohsSwaps(s.sk.dport);
  }

  lemma NtohsSwaps(x: U16)
    ensures BytesExchanged(Ntohs(x), x)
  {
  }

  /** Two probes share a map entry exactly when they come from one process and one socket tuple, which the key holds:
      the local address and port as the source, the remote ones, in host byte order, as the destination. */
  lemma KeyIdentifiesFlow(p: U64, sk: Sock, p': U64, sk': Sock)
    ensures FillFlowKey(p, sk) == FillFlowKey(p', sk') <==> p / 0x1_0000_0000 == p' / 0x1_0000_0000 && sk == sk'
    ensures var k := FillFlowKey(p, sk);
            && k.pid == p / 0x1_0000_0000 && k.saddr == sk.rcvSaddr && k.daddr == sk.daddr && k.sport == sk.num
            && BytesExchanged(k.dport, sk.dport) && k.family == sk.family && k.protocol == 6
  {
    NtohsTwice(sk.dport);
    NtohsTwice(sk'.dport);
    NtohsSwaps(sk.dport);
  }

  lemma NtohsTwice(x: U16)
    ensures Ntohs(Ntohs(x)) == x
  {
    var lo, hi := x % 0x100, x / 0x100;
    assert Ntohs(x) % 0x100 == hi && Ntohs(x) / 0x100 == lo;
  }

  function Key(s: Step): FlowKey {
    FillFlowKey(s.pidTgid, s.sk)
  }

  /** What tcp_done hands to the perf output for an entry. */
  function EventOf(key: FlowKey, val: FlowVal, comm: string, latency: U64): FlowEvent {
    FlowEvent(key.pid, comm, key.saddr, key.daddr, key.sport, key.dport, key.family, key.protocol,
              val.state, val.bytesSent, val.bytesRecv, latency, val.startNs, val.lastNs)
  }

  // ------------------------------------------------------------------------------------------
  // Specification: one flow at a time
  // ------------------------------------------------------------------------------------------

  datatype Tracker = Tracker(flows: map<FlowKey, FlowVal>, connects: map<U32, U64>)

  const EMPTY: Tracker := Tracker(map[], map[])

  /** The entry of the probe's own flow after the probe; `room` tells whether an insert is accepted. */
  function EntryAfter(entry: Option<FlowVal>, room: bool, p: Probe): Option<FlowVal> {
    match (p, entry)
    case (SendMsg(size, start, last), None) =>
      if room then Some(FlowVal(size, 0, start, last, 0)) else None
    case (SendMsg(size, _, last), Some(v)) =>
      Some(v.(bytesSent := Wrap64(v.bytesSent + size), lastNs := last))
    case (CleanupRbuf(copied, last), Some(v)) =>
      Some(v.(bytesRecv := Wrap64(v.bytesRecv + Max(copied, 0)), lastNs := last))
    case (SetState(state, last, _), Some(v)) =>
      Some(v.(state := state % 0x100, lastNs := last))
    case (Done(_, _), Some(_)) => None
    case (_, None) => None
  }

  function Put<K, V>(m: map<K, V>, k: K, v: Option<V>): map<K, V> {
    if v.Some? then m[k := v.value] else m - {k}
  }

  function ConnectsAfter(t: Tracker, s: Step): map<U32, U64> {
    var pid := Key(s).pid;
    if s.probe.SetState? && s.probe.state == TCP_SYN_SENT && Key(s) in t.flows
       && (pid in t.connects || |t.connects| < MAX_ENTRIES)
    then t.connects[pid := s.probe.connectNs] else t.connects
  }

  function Next(t: Tracker, s: Step): Tracker {
    if Key(s).family != AF_INET then t
    else Tracker(Put(t.flows, Key(s), EntryAfter(Lookup(t.flows, Key(s)), |t.flows| < MAX_ENTRIES, s.probe)),
                 ConnectsAfter(t, s))
  }

  /** Time since the process's last recorded connect, or 0. */
  function Latency(connects: map<U32, U64>, pid: U32, nowNs: U64): U64 {
    if pid in connects then Wrap64(nowNs - connects[pid]) else 0
  }

  /** The event a step hands to the perf output, if any. */
  function Emitted(t: Tracker, s: Step): Option<FlowEvent> {
    if Key(s).family == AF_INET && s.probe.Done? && Key(s) in t.flows
    then Some(EventOf(Key(s), t.flows[Key(s)], s.probe.comm, Latency(t.connects, Key(s).pid, s.probe.nowNs)))
    else None
  }

  lemma NextForeign(t: Tracker, s: Step)
    requires Key(s).family != AF_INET
    ensures Next(t, s) == t
  {
  }

  lemma NextUntracked(t: Tracker, s: Step)
    requires Key(s) !in t.flows && !s.probe.SendMsg?
    ensures Next(t, s) == t
  {
    assert t.flows - {Key(s)} == t.flows;
  }

  lemma NextOfDone(t: Tracker, s: Step)
    requires Key(s).family == AF_INET && s.probe.Done?
    ensures Next(t, s) == Tracker(t.flows - {Key(s)}, t.connects)
  {
  }

  lemma NextOfSetState(t: Tracker, s: Step)
    requires Key(s).family == AF_INET && s.probe.SetState? && Key(s) in t.flows
    ensures Next(t, s) == Tracker(
              t.flows[Key(s) := t.flows[Key(s)].(state := s.probe.state % 0x100, lastNs := s.probe.lastNs)],
              ConnectsAfter(t, s))
  {
  }

  ghost function Run(trace: seq<Step>): Tracker {
    if trace == [] then EMPTY else Next(Run(Front(trace)), Last(trace))
  }

  lemma RunAppend(trace: seq<Step>, s: Step)
    ensures Run(trace + [s]) == Next(Run(trace), s) && Last(trace + [s]) == s
  {
    FrontOfAppend(trace, s);
  }

  // ------------------------------------------------------------------------------------------
  // The kprobes
  // ------------------------------------------------------------------------------------------

  class FlowTracker {
    var flowMap: map<FlowKey, FlowVal>
    var connectStart: map<U32, U64>
    ghost var trace: seq<Step>

    ghost function View(): Tracker
      reads this
    {
      Tracker(flowMap, connectStart)
    }

    /** The maps are what the probes fired so far have made of them. */
    ghost predicate Valid()
      reads this
    {
      View() == Run(trace)
    }

    constructor ()
      ensures Valid() && trace == []
    {
      flowMap, connectStart, trace := map[], map[], [];
    }

    /** bpf_map_update_elem on `flow_map` with BPF_NOEXIST. */
    method InsertFlow(key: FlowKey, val: FlowVal)
      modifies this`flowMap
      ensures flowMap == if key in old(flowMap) || |old(flowMap)| >= MAX_ENTRIES then old(flowMap)
                         else old(flowMap)[key := val]
    {
      if key !in flowMap && |flowMap| < MAX_ENTRIES {
        flowMap := flowMap[key := val];
      }
    }

    /** bpf_map_update_elem on `connect_start` with BPF_ANY. */
    method StoreConnect(pid: U32, ts: U64)
      modifies this`connectStart
      ensures connectStart == if pid in old(connectStart) || |old(connectStart)| < MAX_ENTRIES
                              then old(connectStart)[pid := ts] else old(connectStart)
    {
      if pid in connectStart || |connectStart| < MAX_ENTRIES {
        connectStart := connectStart[pid := ts];
      }
    }

    method TcpSendmsg(pidTgid: U64, sk: Sock, size: U64, startNs: U64, lastNs: U64)
      requires Valid()
      modifies this
      ensures Valid() && trace == old(trace) + [Step(pidTgid, sk, SendMsg(size, startNs, lastNs))]
    {
      hide FillFlowKey, Run, Wrap64;
      ghost var s := Step(pidTgid, sk, SendMsg(size, startNs, lastNs));
      trace := trace + [s];
      RunAppend(old(trace), s);
      var key := FillFlowKey(pidTgid, sk);
      if key.family != AF_INET {
        return;
      }
      if key !in flowMap {
        InsertFlow(key, FlowVal(0, 0, startNs, 0, 0));
        if key !in flowMap {
          assert flowMap - {key} == flowMap;
          return;
        }
      }
      var val := flowMap[key];
      WrapWord(size);
      val := val.(bytesSent := Wrap64(val.bytesSent + size));
      val := val.(lastNs := lastNs);
      flowMap := flowMap[key := val];
    }

    method TcpCleanupRbuf(pidTgid: U64, sk: Sock, copied: I32, lastNs: U64)
      requires Valid()
      modifies this
      ensures Valid() && trace == old(trace) + [Step(pidTgid, sk, CleanupRbuf(copied, lastNs))]
    {
      hide FillFlowKey, Run, Wrap64;
      ghost var s := Step(pidTgid, sk, CleanupRbuf(copied, lastNs));
      trace := trace + [s];
      RunAppend(old(trace), s);
      var key := FillFlowKey(pidTgid, sk);
      if key.family != AF_INET {
        return;
      }
      if key !in flowMap {
        assert flowMap - {key} == flowMap;
        return;
      }
      var val := flowMap[key];
      WrapWord(val.bytesRecv);
      if copied > 0 {
        val := val.(bytesRecv := Wrap64(val.bytesRecv + copied));
      }
      val := val.(lastNs := lastNs);
      flowMap := flowMap[key := val];
    }

    method TcpSetState(pidTgid: U64, sk: Sock, state: I32, lastNs: U64, connectNs: U64)
      requires Valid()
      modifies this
      ensures Valid() && trace == old(trace) + [Step(pidTgid, sk, SetState(state, lastNs, connectNs))]
    {
      hide FillFlowKey, Run, Wrap64, Next;
      ghost var s := Step(pidTgid, sk, SetState(state, lastNs, connectNs));
      trace := trace + [s];
      RunAppend(old(trace), s);
      var key := FillFlowKey(pidTgid, sk);
      if key.family != AF_INET {
        NextForeign(old(View()), s);
        return;
      }
      if key !in flowMap {
        NextUntracked(old(View()), s);
        return;
      }
      NextOfSetState(old(View()), s);
      var val := flowMap[key];
      val := val.(state := state % 0x100);
      val := val.(lastNs := lastNs);
      flowMap := flowMap[key := val];
      if state == TCP_SYN_SENT {
        StoreConnect(key.pid, connectNs);
      }
    }

    method TcpDone(pidTgid: U64, sk: Sock, comm: string, nowNs: U64) returns (output: Option<FlowEvent>)
      requires Valid()
      modifies this
      ensures Valid() && trace == old(trace) + [Step(pidTgid, sk, Done(comm, nowNs))]
      ensures output == Emitted(old(View()), Step(pidTgid, sk, Done(comm, nowNs)))
      ensures output.Some? ==> OfSocket(output.value, Step(pidTgid, sk, Done(comm, nowNs)))
    {
      hide FillFlowKey, Run, Wrap64, Next, EventOf, OfSocket;
      ghost var s := Step(pidTgid, sk, Done(comm, nowNs));
      trace := trace + [s];
      RunAppend(old(trace), s);
      var key := FillFlowKey(pidTgid, sk);
      if key.family != AF_INET {
        NextForeign(old(View()), s);
        return None;
      }
      if key !in flowMap {
        NextUntracked(old(View()), s);
        return None;
      }
      NextOfDone(old(View()), s);
      EmittedIsOfSocket(old(View()), s);
      var latency: U64 := 0;
      if key.pid in connectStart {
        latency := Wrap64(nowNs - connectStart[key.pid]);
      }
      output := Some(EventOf(key, flowMap[key], comm, latency));
      flowMap := flowMap - {key};
    }
  }
}
