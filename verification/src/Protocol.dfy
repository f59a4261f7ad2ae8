/** The messages a worker sends (proto/monitor_info.proto and the messages it imports), with the fields
    that either end acts on. */
module Protocol {
  import opened Words
  import opened Collections

  datatype DiskInfo = DiskInfo(device: string, readMbps: real, writeMbps: real, iops: real, ioLatencyMs: real)

  datatype NetInfo = NetInfo(iface: string, rxMbps: real, txMbps: real, rxPackets: U64, txPackets: U64,
                             rxDropped: U64, txDropped: U64, rxErrors: U64, txErrors: U64)

  datatype ProcessEvent = ProcessEvent(comm: string, pid: U32, ppid: U32, filename: string, event: string, tsNs: I64)

  datatype FlowEvent = FlowEvent(pid: U32, comm: string, srcIp: string, srcPort: U32, dstIp: string, dstPort: U32,
                                 bytesSent: U64, bytesRecv: U64, connectLatencyNs: U64, state: string,
                                 startNs: U64, lastNs: U64)

  datatype ObserveBatch = ObserveBatch(processEvents: seq<ProcessEvent>, flowEvents: seq<FlowEvent>)

  datatype DiagnoseEvent = DiagnoseEvent(kind: string, processName: string, threadName: string, filePath: string,
                                         timestamp: I64, cpuPercent: real)

  datatype MonitorInfo = MonitorInfo(hostname: string, ip: string, timestamp: I64,
                                     load1m: real, idlePct: real, memUsedPct: real,
                                     disks: seq<DiskInfo>, nets: seq<NetInfo>,
                                     observe: Option<ObserveBatch>, diagnoseEvents: seq<DiagnoseEvent>)
}
