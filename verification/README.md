# PerfMonitor in Dafny

PerfMonitor is a two-tier monitor. A worker traces TCP flows in the kernel, samples /proc, runs BPF and perf
profilers as subprocesses and pushes a report every few seconds; a manager keeps one snapshot per host and serves
queries, metrics and flame graphs. This project models the stateful parts of both tiers and the way between them, and
proves what every run of them keeps.

Objects whose methods update their fields are classes. `FlowTracker`, `BpfDiagnoser`, `PerfDiagnoser`, `NetMonitor`,
`DiskMonitor`, `CpuStatMonitor`, `MetricCollector`, `HostManager`, `GrpcServer`, the load generator's `Metrics` and
`MonitorSystem` each carry a ghost history of what has happened to them, and their `Valid()` says that their fields are
what the specification computes from it; `ObserveCollector` and `MonitorPusher` carry none of their own.
`MonitorSystem` puts a worker's kernel side, monitors, diagnosers and pusher together with the manager: each of its
methods drives the real objects and extends the history of the whole by one action, so the theorems of `Pipeline`,
`Figures` and `Delivery` about `RunWorld` are theorems about every reachable `MonitorSystem`. Clock readings, /proc
readings, fork outcomes, child liveness, file sizes and times, directory order, perf-buffer room, the first connection
attempt and the fate of a push are inputs. Doubles are reals, and `uint64_t` arithmetic wraps modulo 2^64.

- `Words`, `Collections`, `Text`: machine integers, sequences and maps, std::string operations.
- `TcpFlow`, `TcpFlowRuns`: the four kprobes, and their runs.
- `Observe`, `BpfDiagnosis`, `PerfDiagnosis`, `PerfWatch`, `Rotation`, `Diagnosis`, `MonitorPush`: the worker's collector,
  diagnosers, file rotation and push; `PerfWatch` tells the perf trigger from the readings alone.
- `NetMonitoring`, `DiskMonitoring`, `CpuStat`, `MetricCollection`, `Deltas`: the delta monitors, alone and together.
- `Protocol`, `HostTable`, `ManagerService`: messages, the host table and the remote calls of the manager.
- `FileNames`, `HttpRequest`: the naming contract between diagnosers and manager, and request parsing.
- `Deployment`: a worker and its manager as one state machine, and the objects that run it.
- `Pipeline`, `Figures`, `Delivery`: bytes, the monitors' figures and diagnose events on the whole way from the probes,
  monitors and diagnosers to the manager.
- `FakeWorkers`: the load generator.

`dafny verify dfyconfig.toml` checks the whole project.

## Where the code and its documentation differ

The model follows the code.

- The repository's README.md:179 and the metric texts at manager/src/rpc/metrics_exporter.cpp:162-166 and :175-181 call
  the exec, exit and TCP byte counters cumulative. Each report replaces the stored counters: `CumulativeExactly` gives,
  for all four, the exact condition under which the stored figure is cumulative all the same, and
  `CountersAreNotCumulative` is a run for which none is.
- manager/src/rpc/metrics_exporter.cpp:32 and :91 describe `parse_param` as reading one query parameter. It searches for
  the text `file=` anywhere in the query. `ParamsAreRead` gives its result for any list of parameters and any key,
  `ParamExactly` says exactly when that is the value of the first parameter of that name, and `FileParamCanBeHidden` is
  a query for which it is not: `profile=x&file=y`. `HostQueryIsRead` and `FileParamExactly` say the same for the query
  the manager itself publishes.
- worker/src/ebpf/tcp_flow.bpf.c:152 speaks of connect latency from SYN_SENT to ESTABLISHED. The figure emitted is the time
  from the process's latest recorded SYN_SENT, on any of its flows, to tcp_done (`ConnectIsLatestSyn`, `EventTimes`).
  It is the time since the flow's own SYN_SENT exactly when that one is the latest recorded (`LatencyIsOwnExactly`), and
  then the documented figure exactly when tcp_done comes the moment the flow is established
  (`LatencyToEstablishedExactly`). A flow without a SYN_SENT of its own reports 0 exactly when its process has none
  recorded, or recorded it at the very end (`LatencyWithoutSynExactly`). Three inputs on which it fails: a SYN_SENT before the flow's first send is not
  recorded, because tcp_set_state returns early for an untracked flow (:146-147), and the latency is 0
  (`ConnectBeforeSendReportsZero`); a later SYN_SENT of another flow of the process replaces the recorded time
  (`LaterConnectIsChargedToEarlierFlow`); and an accepted connection is charged from another flow's SYN_SENT
  (`AcceptedConnectionIsCharged`).
- A flow is tracked independently of others only while the bounded map accepts its inserts: `FlowIndependenceExactly`
  makes that condition exact, and `RefusalIsReachable` is a run in which it fails.
- worker/src/rpc/monitor_pusher.cpp:37 announces that a failed first connection is retried. It is not: `Run` connects
  once. `ReportsExactly` says how many requests then reach the manager, whatever the run: as many as pushes would get
  through if that attempt succeeded, and none at all otherwise.
- The published file name is meant to fetch its file (manager/src/rpc/metrics_exporter.cpp:73-79, :91). `WrittenFileIsServedExactly`:
  it does exactly when the process and thread names are clean and hold no '&', at which `parse_param` stops.
- benchmarks/manager_fake_worker.cpp:159 strides with an `int`. `StrideFitsExactly`: it stays within one exactly when workers
  and concurrency add up to at most 2^31; `StrideCanOverflow` gives accepted options for which it does not, and
  there the source's behaviour is undefined.

## Model

| member | source | states |
|---|---|---|
| TcpFlow.KeyIdentifiesFlow | worker/src/ebpf/tcp_flow.bpf.c:68-76 | two probes share a map entry exactly when process and socket tuple agree; the key holds the local address and port as source and the remote ones as destination, the port's bytes exchanged |
| TcpFlow.EmittedIsOfSocket | worker/src/ebpf/tcp_flow.bpf.c:78-101 | an emitted event has the process, addresses, ports and command name of the tcp_done's own socket |
| TcpFlow.FlowTracker.InsertFlow | worker/src/ebpf/tcp_flow.bpf.c:115 | an insert that must not exist yet is refused by a present key or a full map |
| TcpFlow.FlowTracker.StoreConnect | worker/src/ebpf/tcp_flow.bpf.c:156 | an update is refused only for a new key in a full map |
| TcpFlow.FlowTracker.TcpSendmsg | worker/src/ebpf/tcp_flow.bpf.c:104-122 | the handler takes the tracker to the state its extended trace determines |
| TcpFlow.FlowTracker.TcpCleanupRbuf | worker/src/ebpf/tcp_flow.bpf.c:124-137 | the same for received bytes |
| TcpFlow.FlowTracker.TcpSetState | worker/src/ebpf/tcp_flow.bpf.c:139-159 | the same for state changes and connect times |
| TcpFlow.FlowTracker.TcpDone | worker/src/ebpf/tcp_flow.bpf.c:161-174 | the same for removal, and the event handed to the perf output, of that very socket |
| TcpFlowRuns.LiveEntryIsFold | worker/src/ebpf/tcp_flow.bpf.c:104-174 | a key is live exactly when some step created it and no tcp_done followed, and its entry is the fold of its own steps since: exact sums wrapped, last state, first and last time |
| TcpFlowRuns.CreatedEntryIsFold | worker/src/ebpf/tcp_flow.bpf.c:111-135 | the entry of any created, unremoved flow is that fold |
| TcpFlowRuns.CreatesAreEmittedOrLive | worker/src/ebpf/tcp_flow.bpf.c:161-174 | creations of a key are its emissions plus one if it is live |
| TcpFlowRuns.StatsStep | worker/src/ebpf/tcp_flow.bpf.c:78-95 | the event emitted for a flow carries that flow's key and exactly the entry removed |
| TcpFlowRuns.MapsAreBounded | worker/src/ebpf/tcp_flow.bpf.c:44-63 | at most 65536 entries in either map, all IPv4 TCP |
| TcpFlowRuns.TimesAreOrdered | worker/src/ebpf/tcp_flow.bpf.c:111-158 | under a monotone clock start_ns <= last_ns <= now, and connect times lie in the past |
| TcpFlowRuns.EventTimes | worker/src/ebpf/tcp_flow.bpf.c:91-99 | emitted times are ordered and the latency subtraction never wraps |
| TcpFlowRuns.ConnectIsLatestSyn | worker/src/ebpf/tcp_flow.bpf.c:152-157 | a connect time is that of the process's latest recorded SYN_SENT on any flow, and is never removed |
| TcpFlowRuns.LatencyIsOwnExactly | worker/src/ebpf/tcp_flow.bpf.c:96-99 | the latency emitted is the time since the flow's own SYN_SENT if and only if that one was recorded and no later one of the process was |
| TcpFlowRuns.LatencyToEstablishedExactly | worker/src/ebpf/tcp_flow.bpf.c:152-157 | it is the documented SYN_SENT to ESTABLISHED time if and only if tcp_done comes at the time the flow was established, and never less |
| TcpFlowRuns.ConnectBeforeSendReportsZero | worker/src/ebpf/tcp_flow.bpf.c:144-147 | connecting before the first send, with any times, emits latency 0 |
| TcpFlowRuns.LaterConnectIsChargedToEarlierFlow | worker/src/ebpf/tcp_flow.bpf.c:155-157 | with two flows of one process the first is charged from the second's SYN_SENT |
| TcpFlowRuns.LatencyWithoutSynExactly | worker/src/ebpf/tcp_flow.bpf.c:96-99 | a flow with no SYN_SENT of its own reports 0 if and only if its process has none recorded, or recorded it at the end; whichever is recorded is another flow's |
| TcpFlowRuns.AcceptedConnectionIsCharged | worker/src/ebpf/tcp_flow.bpf.c:96-99 | an accepted connection is charged from the SYN_SENT of another flow of its process |
| TcpFlowRuns.FlowIndependence | worker/src/ebpf/tcp_flow.bpf.c:104-174 | in any interleaving, a flow that was never refused has the entry and the emitted statistics of its own steps run alone |
| TcpFlowRuns.FlowIndependenceExactly | worker/src/ebpf/tcp_flow.bpf.c:111-118 | independence at every moment of a run holds if and only if the full map never refused the flow |
| TcpFlowRuns.RefusalIsReachable | worker/src/ebpf/tcp_flow.bpf.c:44-49 | after 65536 sending processes the next flow is refused, and is then not tracked as it would be alone |
| TcpFlowRuns.TrackerConserves | worker/src/ebpf/tcp_flow.bpf.c:104-174 | offered bytes are live, emitted or counted as missed, modulo 2^64, for both directions |
| Observe.ObserveCollector.OnProcessEvent | worker/src/observe/observe_collector.cpp:101-106 | a full record is appended converted, a short one ignored |
| Observe.ObserveCollector.OnFlowEvent | worker/src/observe/observe_collector.cpp:108-113 | a full record is appended converted, a short one ignored |
| Observe.ObserveCollector.Collect | worker/src/observe/observe_collector.cpp:185-201 | both buffers are drained in order |
| Observe.ObserveCollector.Reset | worker/src/observe/observe_collector.cpp:203-206 | both event lists are emptied |
| Observe.DottedIsInjective | worker/src/observe/observe_collector.cpp:48-71 | two IPv4 addresses print alike only when they are the same |
| Observe.DottedIsAddress | worker/src/observe/observe_collector.cpp:57-62 | the text is the address's four bytes in network order, in decimal, with dots between |
| Observe.StatesAreKernels | worker/src/observe/observe_collector.cpp:20-35 | states are named as the kernel numbers them, UNKNOWN beyond |
| Observe.SizesAreLayouts | worker/src/ebpf/observe_events.h:14-41 | the shortest accepted records are the structures as laid out |
| Observe.CString | worker/src/observe/observe_collector.cpp:41-42 | the longest start of a field without a NUL |
| Text.DigitsAreRead | worker/src/observe/observe_collector.cpp:57-62 | a printed number reads back digit by digit |
| BpfDiagnosis.BpfDiagnoser.StartOffcpuTool | worker/src/diagnose/bpf_diagnoser.cpp:132-136 | the configuration is kept and launched once |
| BpfDiagnosis.BpfDiagnoser.StartProfileTool | worker/src/diagnose/bpf_diagnoser.cpp:176-180 | the configuration is kept and launched once |
| BpfDiagnosis.BpfDiagnoser.LaunchTool | worker/src/diagnose/bpf_diagnoser.cpp:149-173 | a successful fork adds one runner with the event it will leave, a failed one nothing |
| BpfDiagnosis.BpfDiagnoser.ReapFinished | worker/src/diagnose/bpf_diagnoser.cpp:101-113 | the erase-in-loop reaper polls each runner once, in order, and keeps, emits or drops it |
| BpfDiagnosis.BpfDiagnoser.CollectEvents | worker/src/diagnose/bpf_diagnoser.cpp:100-120 | reaping and relaunching take the scheduler to the state its history determines |
| BpfDiagnosis.BpfDiagnoser.ResetEvents | worker/src/diagnose/bpf_diagnoser.cpp:122-126 | only the events are cleared |
| BpfDiagnosis.ReapPartitions | worker/src/diagnose/bpf_diagnoser.cpp:102-113 | the live runners stay in order, every finished one's event is emitted in order or dropped, none twice |
| BpfDiagnosis.DataDecides | worker/src/diagnose/bpf_diagnoser.cpp:104-110 | an emitted event's file exists with size above 0; a dropped one's is empty or absent at the end; without rotation the emitted are exactly the finished tools that left data, in order |
| BpfDiagnosis.CollectEmitsData | worker/src/diagnose/bpf_diagnoser.cpp:100-113 | the same of what one Collect adds to the events emitted, waiting and dropped |
| BpfDiagnosis.EmittedHadData | worker/src/diagnose/bpf_diagnoser.cpp:104-108 | in every run every emitted event had a non-empty file when it was collected |
| BpfDiagnosis.LaunchAllStartsSlots | worker/src/diagnose/bpf_diagnoser.cpp:115-119 | relaunching starts each configured tool once, off-CPU ones first, in order, leaving the event with its type, names, path and time |
| BpfDiagnosis.StartsExactly | worker/src/diagnose/bpf_diagnoser.cpp:132-180 | starting a tool configures and starts exactly it |
| BpfDiagnosis.EveryLaunchIsAccounted | worker/src/diagnose/bpf_diagnoser.cpp:100-217 | in every run: runners <= configurations, and the events launched are those emitted, dropped or still running, as multisets |
| BpfDiagnosis.RelaunchExactlyWhenAllReaped | worker/src/diagnose/bpf_diagnoser.cpp:115-119 | every configured tool is started again, once and in order, exactly when no earlier runner is alive, otherwise nothing is |
| BpfDiagnosis.EmittedTypesAreRotated | worker/src/diagnose/bpf_diagnoser.cpp:104-108 | a Collect leaves at most the configured number of files of every type it emitted, and otherwise only removes files |
| BpfDiagnosis.OnlyEmittedTypesRotate | worker/src/diagnose/bpf_diagnoser.cpp:104-109 | a file that reaping removes is one whose name starts with the type of an event it emitted |
| BpfDiagnosis.EveryEventIsWellNamed | worker/src/diagnose/bpf_diagnoser.cpp:149-171 | in every run each event launched or emitted carries its type and the path of the naming scheme |
| PerfDiagnosis.PerfDiagnoser.SettleFinished | worker/src/diagnose/perf_diagnoser.cpp:136-152 | a finished recording is emitted if its file has data, rotated, and every tag re-armed |
| PerfDiagnosis.PerfDiagnoser.SampleTarget | worker/src/diagnose/perf_diagnoser.cpp:155-222 | one target's timer, trigger and pending event after one reading |
| PerfDiagnosis.PerfDiagnoser.LoopBody | worker/src/diagnose/perf_diagnoser.cpp:128-226 | one round takes the state to what its history determines |
| PerfDiagnosis.PerfDiagnoser.ResetEvents | worker/src/diagnose/perf_diagnoser.cpp:108-112 | only the events are cleared |
| PerfDiagnosis.DebounceIsExact | worker/src/diagnose/perf_diagnoser.cpp:191-221 | over every run, a launch is attempted at a valid sample if and only if the latest ceil(D/5) valid samples of the tag since its previous attempt all reached the threshold; timers are multiples of 5 in [0, D) |
| PerfWatch.DebounceFollowsReadings | worker/src/diagnose/perf_diagnoser.cpp:128-226 | in every run the recordings started for a process are exactly those the window of ceil(D/5) busy readings calls for on its own readings, in order and under its own name, path and figures, and it is armed exactly when that rule says so |
| PerfWatch.SampleIsExact | worker/src/diagnose/perf_diagnoser.cpp:155-222 | a sample of an armed process with a reading adds exactly one note, a hit exactly when raw * 1000 >= threshold * hz (or raw >= threshold without a tick rate); any other adds nothing |
| PerfDiagnosis.LaunchesAreAccounted | worker/src/diagnose/perf_diagnoser.cpp:136-218 | in every run, an event is pending exactly when some tag is triggered, its own tag among them; two launches of a tag are separated by a settlement; and the events launched are those emitted, dropped for an empty file, overwritten or pending, as multisets, with those waiting the latest emitted |
| PerfDiagnosis.SettlingRotates | worker/src/diagnose/perf_diagnoser.cpp:137-150 | settling a recording leaves at most the configured number of perf files, and nothing else touches a file |
| PerfDiagnosis.OneNameNeverOverwrites | worker/src/diagnose/perf_diagnoser.cpp:155-218 | targets sharing one name never overwrite a pending event |
| PerfDiagnosis.EveryEventIsWellNamed | worker/src/diagnose/perf_diagnoser.cpp:198-218 | in every run, every event ever launched, and so every one emitted, waiting or pending, is named by the naming scheme |
| PerfDiagnosis.RoundEmits | worker/src/diagnose/perf_diagnoser.cpp:134-152 | a round adds to the waiting and emitted events exactly the pending one, when its recorder has finished and its file exists with size above 0, and nothing else |
| Rotation.CleanupFiles | worker/src/diagnose/bpf_diagnoser.cpp:224-251 | scan, sort and unlink leave the files that the rank rule keeps |
| Rotation.ScanDirectory | worker/src/diagnose/perf_diagnoser.cpp:233-243 | each visible matching file is found once, in any directory order |
| Rotation.RotationKeepsNewest | worker/src/diagnose/bpf_diagnoser.cpp:244-250 | with a positive limit min(limit, n) of n are kept, and every kept file was modified later than every deleted one, or at the same time and comes after it by path |
| Rotation.RotationCorrect | worker/src/diagnose/bpf_diagnoser.cpp:224-251 | the same for the directory, in modification times; other files and non-positive limits are left alone |
| Rotation.StuckFilesStay | worker/src/diagnose/bpf_diagnoser.cpp:248-250 | a path that cannot be unlinked stays, and makes no difference to the others |
| Rotation.MatchesExactly | worker/src/diagnose/bpf_diagnoser.cpp:233-239 | a file is rotated by a prefix exactly when its name is visible, in the directory itself, and starts with it |
| Text.LexLessExactly | worker/src/diagnose/bpf_diagnoser.cpp:247 | the order of paths is that of the first character that differs, or of the shorter one |
| Rotation.RotationSparesOtherTypes | worker/src/diagnose/perf_diagnoser.cpp:229-250 | rotating one diagnoser's files never deletes another's |
| FileNames.NameContract | manager/src/rpc/metrics_exporter.cpp:42-50 | every written name is accepted exactly when process and thread names are clean, published whole exactly when they hold no '/', rotated by its own type only, taken for perf data exactly when perf wrote it, and rebuilt exactly under the default directory |
| FileNames.AcceptedExactly | manager/src/rpc/metrics_exporter.cpp:42-50 | between prefix and suffix a name is accepted if and only if it is clean and does not end in a dot |
| Text.ToStringIsRead | worker/src/diagnose/bpf_diagnoser.cpp:150-152 | the time in a file name reads back as the time |
| FileNames.BasenameOf | manager/src/rpc/metrics_exporter.cpp:73-77 | the published name is the written one exactly when it holds no '/' |
| HttpRequest.RequestIsTakenApart | manager/src/rpc/metrics_exporter.cpp:243-258 | reading, line cut, first/last-space split and '?' split recover the target of any sendable GET request |
| HttpRequest.MalformedTargets | manager/src/rpc/metrics_exporter.cpp:252-258 | a request line with fewer than two spaces asks for "/", and a target without '?' has no query |
| HttpRequest.Received | manager/src/rpc/metrics_exporter.cpp:243-247 | the longest start of what was read of at most 4095 bytes without a NUL |
| HttpRequest.RequestLine | manager/src/rpc/metrics_exporter.cpp:248-250 | everything before the first line break |
| HttpRequest.ParamIsRead | manager/src/rpc/metrics_exporter.cpp:33-40 | a lone parameter is read back |
| HttpRequest.ParamsAreRead | manager/src/rpc/metrics_exporter.cpp:33-40 | the exact result for every list of parameters and every key without an ampersand |
| HttpRequest.ParamExactly | manager/src/rpc/metrics_exporter.cpp:32-40 | the first parameter of that name is returned if and only if no earlier parameter's text contains the key and "=", or the tail found there is the same |
| HttpRequest.RequestRoundTrip | manager/src/rpc/metrics_exporter.cpp:243-258 | path and file name come back as sent |
| HttpRequest.HostQueryIsRead | manager/src/rpc/metrics_exporter.cpp:33-40 | the exact result for every host and file value |
| HttpRequest.FileParamExactly | manager/src/rpc/metrics_exporter.cpp:91-93 | the file parameter is returned if and only if the host value does not contain its text first, or ends in the same name |
| HttpRequest.FileParamCanBeHidden | manager/src/rpc/metrics_exporter.cpp:33-40 | the query profile=x&file=y, whose file parameter is not returned |
| HttpRequest.OnlyDirectChildrenAreServed | manager/src/rpc/metrics_exporter.cpp:91-114 | whatever the query, a served path is a non-empty file directly in the default directory with a known prefix and suffix, and goes through the pipeline of its kind |
| HttpRequest.WrittenFileIsServed | manager/src/rpc/metrics_exporter.cpp:92-112 | a non-empty file a diagnoser wrote is served from the path written, by the pipeline for its kind |
| HttpRequest.WrittenFileIsServedExactly | manager/src/rpc/metrics_exporter.cpp:91-114 | for any names whose request can be sent, the published name fetches the non-empty file written if and only if process and thread names are clean and hold no '&' |
| MonitorPush.MonitorPusher.DoPush | worker/src/rpc/monitor_pusher.cpp:97-219 | the figures are what the monitors' readings amount to; the request holds them and everything waiting, BPF events before perf events; every buffer is empty afterwards, and each diagnoser has done exactly the collect, racing round and reset that its history then ends with |
| MonitorPush.AddDisks | worker/src/rpc/monitor_pusher.cpp:141-148 | one message per disk, field for field |
| MonitorPush.AddNets | worker/src/rpc/monitor_pusher.cpp:150-161 | one message per interface, field for field |
| MonitorPush.AddProcesses | worker/src/rpc/monitor_pusher.cpp:167-175 | one message per process event |
| MonitorPush.AddFlows | worker/src/rpc/monitor_pusher.cpp:176-192 | one message per flow event |
| MonitorPush.AddDiagnoses | worker/src/rpc/monitor_pusher.cpp:198-206 | one message per diagnose event, appended in order |
| ManagerService.GrpcServer.SetMonitorInfo | manager/src/rpc/grpc_server.cpp:8-67 | the request is aggregated and recorded as the host's report |
| ManagerService.GrpcServer.GetMonitorInfo | manager/src/rpc/grpc_server.cpp:69-87 | the reply holds the last report's load, idle and memory figures, or defaults |
| ManagerService.AggregateDisks | manager/src/rpc/grpc_server.cpp:18-21 | the IOPS total |
| ManagerService.AggregateNets | manager/src/rpc/grpc_server.cpp:23-32 | the receive, transmit and drop totals |
| ManagerService.CountProcesses | manager/src/rpc/grpc_server.cpp:37-43 | execs, and everything else as exits |
| ManagerService.SumFlows | manager/src/rpc/grpc_server.cpp:44-48 | the flow count and the byte totals, wrapped as int64 |
| ManagerService.RecordEvents | manager/src/rpc/grpc_server.cpp:51-60 | one record per diagnose event, in order |
| Delivery.DiagnosesSurvive | manager/src/rpc/grpc_server.cpp:51-60 | a request holds one message about each event it takes and the snapshot one record about each message, field for field, in order |
| ManagerService.QueryReturnsLastReport | manager/src/rpc/grpc_server.cpp:69-87 | over any run of calls a query returns the host's last unevicted report as sent, or the defaults |
| ManagerService.ByteTotalsWrap | manager/src/rpc/grpc_server.cpp:44-48 | stored totals are congruent to the true ones, and equal while those fit in 63 bits |
| ManagerService.CumulativeExactly | manager/src/host_manager.cpp:12-15 | each of the four counters is cumulative since the latest eviction if and only if the earlier reports add up to 0, modulo 2^64 for the byte totals |
| ManagerService.CountersAreNotCumulative | manager/src/rpc/metrics_exporter.cpp:162-181 | two reports after which none of the four counters is cumulative |
| HostTable.ComputeHealth | manager/src/host_manager.cpp:55-62 | the stepped score is 100 minus the total penalty, floored at 0 |
| HostTable.HealthInRange | manager/src/host_manager.cpp:55-62 | the score lies in [0, 100], and is 100 exactly when no threshold is exceeded |
| HostTable.HealthIsAntitone | manager/src/host_manager.cpp:55-62 | a host worse in every metric never scores higher |
| HostTable.HealthRates | manager/src/host_manager.cpp:55-62 | while the score stays above 0 it falls by 5 per unit of load above 8, 2 per point of CPU above 90 and 2 per point of memory above 85; below its threshold a metric does not matter |
| HostTable.DropsCostTen | manager/src/host_manager.cpp:55-62 | crossing 100 dropped packets costs exactly 10 |
| HostTable.HealthIsWhatIsLeft | manager/src/host_manager.cpp:55-62 | the score is 0 exactly when the deductions reach 100, otherwise what they leave of 100 |
| HostTable.StoredRates | manager/src/host_manager.cpp:13-15 | two runs whose stored snapshots differ in one metric store scores that differ at its rate |
| HostTable.HostManager.Update | manager/src/host_manager.cpp:7-23 | the entry is replaced, scored, and its history merged to the last 20 |
| Collections.TailEnds | manager/src/host_manager.cpp:18-21 | what is kept of a merged history is its end, of the given length at most |
| HostTable.HostManager.Get | manager/src/host_manager.cpp:25-30 | a host's snapshot is the rendering of its own log, or the default |
| HostTable.HostManager.RemoveExpired | manager/src/host_manager.cpp:42-53 | erase-while-iterating removes exactly the expired entries, in any order |
| HostTable.HostsRefineLogs | manager/src/host_manager.cpp:7-53 | for any operations over any hosts, a host's entry is its last report with the last 20 events submitted since its latest eviction |
| HostTable.OthersUnaffected | manager/src/host_manager.cpp:7-53 | an entry changes only by its own report or its own expiry |
| HostTable.EvictedExactly | manager/src/host_manager.cpp:42-53 | a host is evicted exactly when it was last heard of longer ago than allowed |
| HostTable.StoredScores | manager/src/host_manager.cpp:13-15 | in every reachable state a stored score is what the stored metrics' deductions leave of 100, or 0, with at most 20 events kept |
| NetMonitoring.NetMonitor.Init | worker/src/monitor/net_monitor.cpp:21-46 | seeds the previous snapshot |
| NetMonitoring.NetMonitor.Collect | worker/src/monitor/net_monitor.cpp:48-92 | lists each reported interface once, in any order, and keeps the new snapshot |
| NetMonitoring.ReportsTelescope | worker/src/monitor/net_monitor.cpp:72-91 | while an interface stays present its reported deltas sum to last minus first modulo 2^64, exactly for a non-decreasing counter |
| NetMonitoring.MbpsTelescope | worker/src/monitor/net_monitor.cpp:81-82 | the reported megabits sum to the bytes moved |
| NetMonitoring.ReportedExactly | worker/src/monitor/net_monitor.cpp:73-76 | reported exactly when read in both snapshots and not "lo" |
| NetMonitoring.TableHoldsLatest | worker/src/monitor/net_monitor.cpp:55-70 | a snapshot holds each interface's latest line |
| DiskMonitoring.DiskMonitor.Init | worker/src/monitor/disk_monitor.cpp:34-48 | seeds the previous snapshot without excluded devices |
| DiskMonitoring.DiskMonitor.Collect | worker/src/monitor/disk_monitor.cpp:50-85 | lists each reported device once, in any order, and keeps the new snapshot |
| DiskMonitoring.ReportsTelescope | worker/src/monitor/disk_monitor.cpp:65-84 | while a device stays present each figure sums to its scaled counter change, modulo 2^64 and exactly when non-decreasing |
| DiskMonitoring.OperationsExactly | worker/src/monitor/disk_monitor.cpp:73-74 | the operations reported are the change of reads and writes together, modulo 2^64 |
| DiskMonitoring.ReportedExactly | worker/src/monitor/disk_monitor.cpp:61-68 | reported exactly when read in both snapshots, named, and the name does not begin with "loop" or "ram" |
| DiskMonitoring.TableHoldsLatest | worker/src/monitor/disk_monitor.cpp:56-63 | a snapshot holds each device's latest line |
| CpuStat.CpuStatMonitor.Collect | worker/src/monitor/cpu_stat_monitor.cpp:24-54 | one reading takes the monitor to the state its readings determine |
| CpuStat.ReportedPercentagesAreShares | worker/src/monitor/cpu_stat_monitor.cpp:38-51 | in every state a steady run reaches, each component lies in [0, 100] and the six sum to at most 100 |
| CpuStat.ShareExactly | worker/src/monitor/cpu_stat_monitor.cpp:38-53 | whatever the readings, a reported component is 100 times its signed change, 0 when it went back, over the change of all eight counters together; nothing changes when that is 0 |
| CpuStat.LatestShareExactly | worker/src/monitor/cpu_stat_monitor.cpp:38-53 | in a steady run the latest interval that moved the clock is reported as each component's share of all eight counters |
| CpuStat.ZeroDeltaMeansNoChange | worker/src/monitor/cpu_stat_monitor.cpp:38-39 | the early return happens exactly when no component changed |
| CpuStat.PercentagesTelescope | worker/src/monitor/cpu_stat_monitor.cpp:41-53 | percentages weighted by their intervals sum to 100 times the component's change |
| MetricCollection.MetricCollector.Init | worker/src/monitor/metric_collector.cpp:5-13 | every monitor starts from the seeding reading |
| MetricCollection.MetricCollector.Collect | worker/src/monitor/metric_collector.cpp:15-21 | the figures are what the readings so far amount to, with interfaces and disks in any order |
| Deployment.MonitorSystem.constructor | worker/src/main.cpp:48-49 | a fresh worker and manager with nothing in flight |
| Deployment.MonitorSystem.KernelProbe | worker/src/ebpf/tcp_flow.bpf.c:78-101 | a probe drives the tracker; its event is waiting, or lost when the perf buffer is full |
| Deployment.MonitorSystem.StartOffcpuTool | worker/src/rpc/monitor_pusher.cpp:69-73 | starting a configured tool extends the run by that action |
| Deployment.MonitorSystem.StartProfileTool | worker/src/rpc/monitor_pusher.cpp:74-77 | the same for the profiler |
| Deployment.MonitorSystem.PerfLoop | worker/src/diagnose/perf_diagnoser.cpp:128-226 | a round of the perf thread extends the run by that action |
| Deployment.MonitorSystem.PushOnce | worker/src/rpc/monitor_pusher.cpp:97-230 | the request built and sent is the one the run so far determines, and the manager has handled it exactly when connected and not lost |
| Deployment.MonitorSystem.HandleCall | manager/src/main.cpp:55-58 | other workers' reports and evictions extend the run by that action |
| Deployment.ReportsExactly | worker/src/rpc/monitor_pusher.cpp:35-38 | in every run the manager's calls are others' and this worker's own, and the latter are as many as the pushes that would get through if the one connection attempt succeeded, and none otherwise |
| Deployment.UnconnectedNeverReports | worker/src/rpc/monitor_pusher.cpp:221-229 | without the connection no request of the whole run is even sent |
| Pipeline.BytesAreConserved | worker/src/rpc/monitor_pusher.cpp:97-230 | in every run, modulo 2^64, bytes offered by IPv4 probes are live, waiting, in accepted snapshots, or in counted losses |
| Pipeline.EmittedBytesAreDownstream | worker/src/rpc/monitor_pusher.cpp:176-229 | everything the tracker emitted is waiting, accepted or lost |
| Pipeline.FlowsKeepOrder | worker/src/rpc/monitor_pusher.cpp:176-229 | in every run the flow events sent and those waiting are, in order, events the tracker emitted; each one emitted is in exactly one request, waiting, or lost to a full perf buffer |
| Pipeline.FiguresSurvive | worker/src/observe/observe_collector.cpp:48-71 | from the kernel's event to the message sent, figures, times, state and command name arrive in their own fields |
| Pipeline.IdentitySurvives | worker/src/observe/observe_collector.cpp:48-71 | two IPv4 TCP flows send the same process, addresses and ports if and only if they are the same flow |
| Pipeline.SentFlowsAreOfSockets | worker/src/ebpf/tcp_flow.bpf.c:71-101 | in every run every flow message of every request names the process, local and remote address and ports of a socket that a tcp_done of the run was called on |
| Pipeline.RequestProcesses | worker/src/observe/observe_collector.cpp:37-46 | a request carries one message about each process event collected, in order, exec exactly for type 0 |
| Pipeline.MetricsReachManager | manager/src/rpc/grpc_server.cpp:12-49 | a snapshot holds the worker's own figures and totals, and a query returns load, idle and memory unchanged |
| Figures.FiguresTelescope | worker/src/rpc/monitor_pusher.cpp:141-161 | in every run in which an interface or disk stays present, each of its figures, added up over the requests that arrived and those lost, is the scaled change of the kernel's counter: modulo 2^64, and exactly when the counter never decreases |
| Figures.CarriedIsDelta | worker/src/rpc/monitor_pusher.cpp:141-161 | one request carries the scaled counter difference of its last two readings, in exactly one entry |
| Figures.SentIdleIsShare | worker/src/rpc/monitor_pusher.cpp:122-128 | in every run with a steady processor clock every request's idle share, and the used share of any snapshot of it, lies in [0, 100] |
| Figures.SentCarriesReadings | worker/src/rpc/monitor_pusher.cpp:109-139 | in every run there is one request per reading, with the host's name and address and that reading's load and memory |
| Delivery.RequestParts | worker/src/rpc/monitor_pusher.cpp:196-219 | a request's events are the BPF events waiting and just reaped, then the perf events waiting |
| Delivery.EveryEventIsCollectedOnce | worker/src/rpc/monitor_pusher.cpp:196-219 | in every run the BPF batches of the requests are what the BPF diagnosers emitted, each event once and in order; the perf batches, what raced each push and what waits are what the perf thread emitted, likewise |
| Delivery.EveryLaunchIsDeliveredOrAccounted | worker/src/rpc/monitor_pusher.cpp:97-219 | in every run each launched BPF event is in exactly one request, dropped or running; each launched recording is in exactly one request, lost in a race, waiting, dropped, overwritten or pending |
| Delivery.ReportedAreEmitted | worker/src/rpc/monitor_pusher.cpp:221-229 | over any run with evictions and other hosts, the events in the manager's reports for a name are exactly those of this worker's accepted requests, in order; their BPF part is a subsequence of what the BPF diagnosers emitted and their perf part of what the perf thread emitted |
| Delivery.StoredHistoryIsTailOfAccepted | manager/src/host_manager.cpp:11-22 | without eviction the stored history is the last 20 accepted events, however many pushes failed |
| FakeWorkers.WorkIsPartitioned | benchmarks/manager_fake_worker.cpp:155-180 | the started threads visit every worker exactly once per iteration and no other index |
| FakeWorkers.StrideFitsExactly | benchmarks/manager_fake_worker.cpp:159 | no value of any started thread's loop variable exceeds an int if and only if workers + concurrency <= 2^31 |
| FakeWorkers.StrideCanOverflow | benchmarks/manager_fake_worker.cpp:57-59 | with --workers 2 --concurrency 2147483647 thread 1 overflows |
| FakeWorkers.ReportCount | benchmarks/manager_fake_worker.cpp:190-207 | any interleaving makes workers * iterations reports |
| FakeWorkers.Metrics.RunThread | benchmarks/manager_fake_worker.cpp:155-180 | one thread makes its strided visits, each counted once as what it came to |
| FakeWorkers.Metrics.RunAll | benchmarks/manager_fake_worker.cpp:190-195 | however the threads interleave, each advancing its own loop variables, every visit is made once; ok counts the successful ones, failed the others, ok + failed = workers * iterations, and every time is kept |
| FakeWorkers.Percentile | benchmarks/manager_fake_worker.cpp:75-80 | a sample such that at least idx + 1 samples are no larger and at least n - idx no smaller, idx the truncated rank; 0 without samples |
| FakeWorkers.PercentileIsOrderStatistic | benchmarks/manager_fake_worker.cpp:75-80 | the index is in range, at least idx + 1 samples are no larger and n - idx no smaller |
| FakeWorkers.OrderStatisticIsUnique | benchmarks/manager_fake_worker.cpp:75-80 | no other sample has those counts |
| FakeWorkers.PercentileIgnoresOrder | benchmarks/manager_fake_worker.cpp:75-80 | the order of the samples does not matter |
| FakeWorkers.PercentilesAreOrdered | benchmarks/manager_fake_worker.cpp:220-223 | percentiles grow with the rank and the last is the maximum |

## Left out

- gRPC, protobuf, sockets, popen, libbpf, the JSON library, and the fork/exec/waitpid/kill side of `CmdRunner`: foreign calls; only the data they hand across is modelled.
- /proc scans and the parsing of stat files: the parsed lines, pids and CPU readings are inputs, including that `PerfDiagnoser` reads each sample twice.
- The command-line arguments of the launched tools, the configuration loading, and `stop_all`, which nothing calls.
- Load averages over 5 and 15 minutes, core count, memory sizes and CPU shares other than idle: carried in the request, never read by the manager.
- Prometheus and JSON text, environment and option parsing, `MemMonitor`, `CpuLoadMonitor`, `HostInfoMonitor`, and process_trace.bpf.c beyond its events: formatting or straight-line code.
- More than one worker under `MonitorSystem`: the calls of others are its `HandleCall`, with any contents.
- Two CPUs updating one BPF map value at once, and unsynchronised access to the perf event list: every probe, round and clear is one atomic step.
- `PerfDiagnoser::Stop`, which clears the triggered tags but not the pending event: the trigger invariants are for runs before it.
- TcpFlow.FlowTracker.InsertFlow: refuses only a present key or a full map, not an allocation failure or a busy bucket.
- Delivery.EveryEventIsCollectedOnce: perf events are delivered at most once, because a round of the perf thread can fall between the copy and the clearing of its events; the events lost this way are named in the statement.
- PerfDiagnosis.DebounceIsExact: the timer is an unbounded integer; it stays below D + 5, so a 32-bit `int` overflows only for D within 5 of its maximum.
- FakeWorkers.WorkIsPartitioned: the loop variable is unbounded; `StrideFitsExactly` says when an `int` does.
- FakeWorkers.Metrics.RunThread: the same, and so are the counters, where the source's `int` ones hold up to 2^31 - 1 reports.
- FakeWorkers.Metrics.RunAll: the same.
- ManagerService.CountProcesses: counts are unbounded; the source's are `int`, which a request would need 2^31 events to exceed.
- CpuStat.CpuStatMonitor.Collect: the signed difference of two components is unbounded, where the source's overflow is undefined.
- HostTable.HostManager.RemoveExpired: `now - last_update` is unbounded, where the source's overflow is undefined.
- The contents of the load generator's reports, and its timing.
- FakeWorkers.Percentile: ranks are exact reals; the source rounds the product in double precision.
- Files that change between being listed and being examined, and directory entries that are not plain files: the directory is one consistent map while it is rotated.
- Uniqueness of file names within one second, and whether a file just written survives the rotation that follows: the code guarantees neither.
