/** The collector between the kernel's perf buffers and the pusher (worker/src/observe/observe_collector.cpp). */
module Observe {
  import opened Words
  import opened Collections
  import opened Text
  import TcpFlow

  const FLOW_EVENT_SIZE: U32 := 248
  const PROCESS_EVENT_SIZE: U32 := 168
  const MAX_COMM_LEN: nat := 16
  const MAX_FILENAME_LEN: nat := 128

  /** A raw process event; event type 0 is an exec. */
  datatype RawProcess = RawProcess(pid: U32, ppid: U32, comm: string, filename: string, eventType: U32, tsNs: U64)

  datatype CppProcessEvent = CppProcessEvent(comm: string, pid: U32, ppid: U32, filename: string, event: string, tsNs: I64)

  datatype CppFlowEvent = CppFlowEvent(pid: U32, comm: string, srcIp: string, dstIp: string, srcPort: U32, dstPort: U32,
                                       bytesSent: U64, bytesRecv: U64, connectLatencyNs: U64, state: string,
                                       startNs: U64, lastNs: U64)

  function StateName(state: U8): string {
    match state
    case 1 => "ESTABLISHED"
    case 2 => "SYN_SENT"
    case 3 => "SYN_RECV"
    case 4 => "FIN_WAIT1"
    case 5 => "FIN_WAIT2"
    case 6 => "TIME_WAIT"
    case 7 => "CLOSE"
    case 8 => "CLOSE_WAIT"
    case 9 => "LAST_ACK"
    case 10 => "LISTEN"
    case 11 => "CLOSING"
    case _ => "UNKNOWN"
  }

  /** strnlen: the text up to the first NUL within the first `max` characters. */
  function CString(buf: string, max: nat): (r: string)
    ensures r <= buf && |r| <= max && '\0' !in r
    ensures |r| == max || |r| == |buf| || buf[|r|] == '\0'
  {
    var head := if |buf| <= max then buf else buf[..max];
    match FindChar(head, '\0', 0)
    case Some(i) => head[..i]
    case None => head
  }

  /** inet_ntop of an address held in network byte order on a little-endian machine. */
  function Dotted(addr: U32): string {
    Quad(addr % 0x100, addr / 0x100 % 0x100, addr / 0x1_0000 % 0x100, addr / 0x100_0000)
  }

  function Quad(a: nat, b: nat, c: nat, d: nat): string {
    Digits(a) + (['.'] + (Digits(b) + (['.'] + (Digits(c) + (['.'] + Digits(d))))))
  }

  lemma QuadIsInjective(a: nat, b: nat, c: nat, d: nat, a': nat, b': nat, c': nat, d': nat)
    requires Quad(a, b, c, d) == Quad(a', b', c', d')
    ensures a == a' && b == b' && c == c' && d == d'
  {
    hide Digits;
    var d1, d1' := Digits(d), Digits(d');
    var c1, c1' := Digits(c) + (['.'] + d1), Digits(c') + (['.'] + d1');
    var b1, b1' := Digits(b) + (['.'] + c1), Digits(b') + (['.'] + c1');
    SplitAt(Digits(a), b1, Digits(a'), b1', '.');
    SplitAt(Digits(b), c1, Digits(b'), c1', '.');
    SplitAt(Digits(c), d1, Digits(c'), d1', '.');
    DigitsAreInjective(a, a');
    DigitsAreInjective(b, b');
    DigitsAreInjective(c, c');
    DigitsAreInjective(d, d');
  }

  /** Two addresses print alike only when they are the same. */
  lemma DottedIsInjective(x: U32, y: U32)
    ensures Dotted(x) == Dotted(y) <==> x == y
  {
    hide Quad;
    if Dotted(x) == Dotted(y) {
      QuadIsInjective(x % 0x100, x / 0x100 % 0x100, x / 0x1_0000 % 0x100, x / 0x100_0000,
                      y % 0x100, y / 0x100 % 0x100, y / 0x1_0000 % 0x100, y / 0x100_0000);
      OctetsDecide(x);
      OctetsDecide(y);
    }
  }

  /** The four bytes of an address, the lowest first. */
  predicate OctetsOf(addr: U32, a: U8, b: U8, c: U8, d: U8) {
    addr == a + b * 0x100 + c * 0x1_0000 + d * 0x100_0000
  }

  /** The text is the address's four bytes, in the order of the network, printed with dots between. */
  ghost predicate IsAddress(text: string, addr: U32) {
    exists a: U8, b: U8, c: U8, d: U8 ::
      OctetsOf(addr, a, b, c, d) && text == Digits(a) + "." + Digits(b) + "." + Digits(c) + "." + Digits(d)
  }

  lemma DottedIsAddress(addr: U32)
    ensures IsAddress(Dotted(addr), addr)
  {
    hide Digits;
    var a, b, c, d := addr % 0x100, addr / 0x100 % 0x100, addr / 0x1_0000 % 0x100, addr / 0x100_0000;
    OctetsDecide(addr);
    assert OctetsOf(addr, a, b, c, d);
    QuadText(a, b, c, d);
  }

  lemma QuadText(a: nat, b: nat, c: nat, d: nat)
    ensures Quad(a, b, c, d) == Digits(a) + "." + Digits(b) + "." + Digits(c) + "." + Digits(d)
  {
    hide Digits;
  }

  lemma OctetsDecide(x: U32)
    ensures x == x % 0x100 + x / 0x100 % 0x100 * 0x100 + x / 0x1_0000 % 0x100 * 0x1_0000 + x / 0x100_0000 * 0x100_0000
  {
    DivTwice(x, 0x100, 0x100);
    DivTwice(x, 0x1_0000, 0x100);
  }

  lemma DivTwice(x: nat, a: nat, b: nat)
    requires a == 0x100 || a == 0x1_0000
    requires b == 0x100
    ensures x / a / b == x / (a * b)
  {
  }

  function ToProcess(raw: RawProcess): CppProcessEvent {
    CppProcessEvent(CString(raw.comm, MAX_COMM_LEN), raw.pid, raw.ppid, CString(raw.filename, MAX_FILENAME_LEN),
                    if raw.eventType == 0 then "exec" else "exit", Signed64(raw.tsNs))
  }

  function ToFlow(raw: TcpFlow.FlowEvent): CppFlowEvent {
    CppFlowEvent(raw.pid, CString(raw.comm, MAX_COMM_LEN), Dotted(raw.saddr), Dotted(raw.daddr), raw.sport, raw.dport,
                 raw.bytesSent, raw.bytesRecv, raw.connectLatencyNs, StateName(raw.state), raw.startNs, raw.lastNs)
  }

  /** The kernel's names of its TCP states, by number. */
  const KERNEL_STATES: seq<string> := ["UNKNOWN", "ESTABLISHED", "SYN_SENT", "SYN_RECV", "FIN_WAIT1", "FIN_WAIT2", "TIME_WAIT",
                                       "CLOSE", "CLOSE_WAIT", "LAST_ACK", "LISTEN", "CLOSING"]

  /** States are named as the kernel numbers them, and the tracker's two are among them. */
  lemma StatesAreKernels(state: U8)
    ensures StateName(state) == if state < 12 then KERNEL_STATES[state] else "UNKNOWN"
    ensures StateName(TcpFlow.TCP_SYN_SENT) == "SYN_SENT" && StateName(TcpFlow.TCP_ESTABLISHED) == "ESTABLISHED"
  {
  }

  /** A record is ignored when it is shorter than its structure as laid out: fields in order, 64-bit ones aligned to 8. */
  lemma SizesAreLayouts()
    ensures PROCESS_EVENT_SIZE == 4 + 4 + MAX_COMM_LEN + MAX_FILENAME_LEN + 4 + 4 + 8
    ensures FLOW_EVENT_SIZE == 4 + 2 * MAX_COMM_LEN + MAX_FILENAME_LEN + 2 * 16 + 3 * 2 + 2 * 1 + 4 + 5 * 8
  {
  }

  class ObserveCollector {
    var processEvents: seq<CppProcessEvent>
    var flowEvents: seq<CppFlowEvent>

    constructor ()
      ensures processEvents == [] && flowEvents == []
    {
      processEvents, flowEvents := [], [];
    }

    /** Perf-buffer callback; a short record is ignored. */
    method OnProcessEvent(raw: RawProcess, sz: U32)
      modifies this`processEvents
      ensures processEvents == old(processEvents) + (if sz < PROCESS_EVENT_SIZE then [] else [ToProcess(raw)])
    {
      if sz < PROCESS_EVENT_SIZE {
        return;
      }
      processEvents := processEvents + [ToProcess(raw)];
    }

    method OnFlowEvent(raw: TcpFlow.FlowEvent, sz: U32)
      modifies this`flowEvents
      ensures flowEvents == old(flowEvents) + (if sz < FLOW_EVENT_SIZE then [] else [ToFlow(raw)])
    {
      if sz < FLOW_EVENT_SIZE {
        return;
      }
      flowEvents := flowEvents + [ToFlow(raw)];
    }

    /** Drains what the two perf buffers hold, in order; the kernel side always submits whole records. */
    method Collect(processes: seq<RawProcess>, flows: seq<TcpFlow.FlowEvent>)
      modifies this
      ensures processEvents == old(processEvents) + Map(ToProcess, processes)
      ensures flowEvents == old(flowEvents) + Map(ToFlow, flows)
    {
      hide ToProcess, ToFlow;
      for i := 0 to |processes|
        invariant processEvents == old(processEvents) + Map(ToProcess, processes[..i]) && flowEvents == old(flowEvents)
      {
        OnProcessEvent(processes[i], PROCESS_EVENT_SIZE);
        MapPrefix(ToProcess, processes, i);
      }
      assert processes[..|processes|] == processes;
      for i := 0 to |flows|
        invariant processEvents == old(processEvents) + Map(ToProcess, processes)
        invariant flowEvents == old(flowEvents) + Map(ToFlow, flows[..i])
      {
        OnFlowEvent(flows[i], FLOW_EVENT_SIZE);
        MapPrefix(ToFlow, flows, i);
      }
      assert flows[..|flows|] == flows;
    }

    method Reset()
      modifies this
      ensures processEvents == [] && flowEvents == []
    {
      processEvents := [];
      flowEvents := [];
    }
  }
}
