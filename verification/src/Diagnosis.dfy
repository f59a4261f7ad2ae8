/** The event a finished diagnostic tool leaves behind (worker/include/diagnose/bpf_diagnoser.h). */
module Diagnosis {
  import opened Words

  datatype DiagEvent = DiagEvent(kind: string, processName: string, threadName: string, filePath: string,
                                 timestamp: I64, cpuPercent: real)
}
