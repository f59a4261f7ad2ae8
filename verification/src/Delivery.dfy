/** What becomes of every diagnose event, from its launch to the manager's history, over every run. */
module Delivery {
  import opened Words
  import opened Collections
  import opened FileNames
  import opened Rotation
  import opened MetricCollection
  import opened Diagnosis
  import opened HostTable
  import opened ManagerService
  import opened MonitorPush
  import opened Deployment
  import Bpf = BpfDiagnosis
  import PerfTrigger = PerfDiagnosis
  import Protocol

  // ------------------------------------------------------------------------------------------
  // What the requests carry
  // ------------------------------------------------------------------------------------------

  function BpfPart(s: Dispatch): seq<Protocol.DiagnoseEvent> {
    if s.bpfCount <= |s.info.diagnoseEvents| then s.info.diagnoseEvents[..s.bpfCount] else s.info.diagnoseEvents
  }

  function PerfPart(s: Dispatch): seq<Protocol.DiagnoseEvent> {
    if s.bpfCount <= |s.info.diagnoseEvents| then s.info.diagnoseEvents[s.bpfCount..] else []
  }

  /** The perf events cleared without having been copied. */
  function LostInRace(s: Dispatch): seq<Protocol.DiagnoseEvent> {
    Map(DiagMsg, s.raced)
  }

  function PerfPartAndRaced(s: Dispatch): seq<Protocol.DiagnoseEvent> {
    PerfPart(s) + LostInRace(s)
  }

  /** The events the manager accepted under the name `h` from this request, if it did. */
  function AcceptedFor(h: string): Dispatch -> seq<Protocol.DiagnoseEvent> {
    (s: Dispatch) => if s.link == Delivered && s.info.hostname == h then s.info.diagnoseEvents else []
  }

  function Stream(part: Dispatch -> seq<Protocol.DiagnoseEvent>, sent: seq<Dispatch>): seq<Protocol.DiagnoseEvent> {
    if sent == [] then [] else Stream(part, Front(sent)) + part(Last(sent))
  }

  lemma StreamOneMore(part: Dispatch -> seq<Protocol.DiagnoseEvent>, sent: seq<Dispatch>, s: Dispatch)
    ensures Stream(part, sent + [s]) == Stream(part, sent) + part(s)
  {
    FrontOfAppend(sent, s);
  }

  /** A request is its BPF batch, the events waiting and those just reaped, followed by its perf batch. */
  lemma RequestParts(cfg: Config, w: World, i: PushInput, m: Metrics, files: Files)
    ensures var s := Request(cfg, w, i, m, files);
            && BpfPart(s) == Map(DiagMsg, BpfOf(cfg, w).events + Reaping(cfg, w, i, files).emitted)
            && PerfPart(s) == Map(DiagMsg, PerfOf(cfg, w).events)
            && s.info.diagnoseEvents == BpfPart(s) + PerfPart(s)
            && LostInRace(s) == Map(DiagMsg, Raced(cfg, w, i, files))
  {
    hide DiagMsg, BpfOf, PerfOf, Reaping, Raced;
  }

  /** The message is about this event, and the record about this message. */
  predicate MessageOfEvent(m: Protocol.DiagnoseEvent, e: DiagEvent) {
    && m.kind == e.kind && m.processName == e.processName && m.threadName == e.threadName && m.filePath == e.filePath
    && m.timestamp == e.timestamp && m.cpuPercent == e.cpuPercent
  }

  predicate RecordOfMessage(r: DiagnoseRecord, m: Protocol.DiagnoseEvent) {
    && r.kind == m.kind && r.processName == m.processName && r.filePath == m.filePath
    && r.timestamp == m.timestamp && r.cpuPercent == m.cpuPercent
  }

  /** A request holds one message about each event it takes, in order, and the manager's snapshot of it one record about
      each message, in order. */
  lemma DiagnosesSurvive(cfg: Config, w: World, i: PushInput, m: Metrics, files: Files, now: I64)
    ensures var info := Request(cfg, w, i, m, files).info;
            var events := BpfOf(cfg, w).events + Reaping(cfg, w, i, files).emitted + PerfOf(cfg, w).events;
            var records := SnapshotOf(info, now).diagnoseEvents;
            && |info.diagnoseEvents| == |records| == |events|
            && forall j :: 0 <= j < |events| ==>
                 MessageOfEvent(info.diagnoseEvents[j], events[j]) && RecordOfMessage(records[j], info.diagnoseEvents[j])
  {
    hide BpfOf, PerfOf, Reaping, Raced, Request;
    RequestParts(cfg, w, i, m, files);
    SnapshotEvents(Request(cfg, w, i, m, files).info, now);
    MapAppend(DiagMsg, BpfOf(cfg, w).events + Reaping(cfg, w, i, files).emitted, PerfOf(cfg, w).events);
  }

  // ------------------------------------------------------------------------------------------
  // Every emitted event is collected once
  // ------------------------------------------------------------------------------------------

  /** The BPF batches of the requests are what the BPF diagnosers emitted, each event once and in order; the perf
      batches, each followed by what raced it, and what still waits are what the perf thread emitted, likewise. */
  ghost predicate Collected(cfg: Config, w: World) {
    && BpfOf(cfg, w).events == []
    && Stream(BpfPart, w.sent) == Map(DiagMsg, BpfOf(cfg, w).emitted)
    && Stream(PerfPartAndRaced, w.sent) + Map(DiagMsg, PerfOf(cfg, w).events)
       == Map(DiagMsg, PerfTrigger.EmittedIn(PerfOf(cfg, w)))
  }

  /** A Collect followed by a Reset adds what was reaped to what was emitted, and leaves nothing waiting. */
  lemma BpfCycle(s: Bpf.Settings, actions: seq<Bpf.Action>, o: Bpf.Outside, files: Files)
    ensures var b, b' := Bpf.Run(s, actions), Bpf.Run(s, actions + [Bpf.Collect(o, files), Bpf.Reset]);
            b'.events == [] && b'.emitted == b.emitted + Bpf.Reap(s, o, b.runners, files).emitted
  {
    hide Bpf.Reap, Bpf.Relaunches, Bpf.Pending;
    assert actions + [Bpf.Collect(o, files), Bpf.Reset] == (actions + [Bpf.Collect(o, files)]) + [Bpf.Reset];
    FrontOfAppend(actions + [Bpf.Collect(o, files)], Bpf.Reset);
    FrontOfAppend(actions, Bpf.Collect(o, files));
  }

  /** A Reset, after a racing round if there was one, adds that round's emission and leaves nothing waiting. */
  lemma PerfCycle(s: PerfTrigger.Settings, actions: seq<PerfTrigger.Action>, race: Option<PerfTrigger.Outside>, files: Files)
    ensures var p, p' := PerfTrigger.Run(s, actions), PerfTrigger.Run(s, actions + RaceRounds(race, files) + [PerfTrigger.Reset]);
            p'.events == []
            && PerfTrigger.EmittedIn(p')
               == PerfTrigger.EmittedIn(p) + if race.Some? then PerfTrigger.Emission(race.value, p, files) else []
  {
    hide PerfTrigger.Emission, PerfTrigger.Gather, PerfTrigger.SampleAll, PerfTrigger.SettleStep;
    FrontOfAppend(actions + RaceRounds(race, files), PerfTrigger.Reset);
    if race.Some? {
      FrontOfAppend(actions, PerfTrigger.Round(race.value, files));
      PerfTrigger.RoundEmits(s, race.value, PerfTrigger.Run(s, actions), files);
    } else {
      assert actions + [] == actions;
    }
  }

  lemma PushCollects(cfg: Config, w: World, i: PushInput, m: Metrics, files: Files)
    requires Collected(cfg, w)
    ensures Collected(cfg, PushStep(cfg, w, i, m, files))
  {
    hide Request, PushStep, BpfPart, PerfPart, LostInRace, DiagMsg, Stream, PerfTrigger.EmittedIn, Bpf.Run, PerfTrigger.Run,
         PerfTrigger.Emission, RaceRounds;
    var s, reaped, raced := Request(cfg, w, i, m, files), Reaping(cfg, w, i, files), Raced(cfg, w, i, files);
    var bpf, perf := BpfOf(cfg, w).emitted, PerfTrigger.EmittedIn(PerfOf(cfg, w));
    PushParts(cfg, w, i, m, files);
    RequestParts(cfg, w, i, m, files);
    BpfCycle(cfg.bpf, w.bpfActions, i.outside, files);
    PerfCycle(cfg.perf, w.perfActions, i.race, reaped.files);
    StreamOneMore(BpfPart, w.sent, s);
    StreamOneMore(PerfPartAndRaced, w.sent, s);
    assert [] + reaped.emitted == reaped.emitted;
    MapAppend(DiagMsg, bpf, reaped.emitted);
    MapAppend(DiagMsg, perf, raced);
  }

  lemma RoundCollects(cfg: Config, w: World, o: PerfTrigger.Outside, files: Files)
    requires Collected(cfg, w)
    ensures Collected(cfg, Deployment.Step(cfg, w, PerfRound(o, files)))
  {
    hide DiagMsg, Stream, PerfTrigger.Emission, PerfTrigger.EmittedIn, PerfTrigger.SampleAll, PerfTrigger.SettleStep, Bpf.Run, PerfPartAndRaced, BpfPart;
    var p := PerfOf(cfg, w);
    FrontOfAppend(w.perfActions, PerfTrigger.Round(o, files));
    PerfTrigger.RoundEmits(cfg.perf, o, p, files);
    MapAppend(DiagMsg, p.events, PerfTrigger.Emission(o, p, files));
    MapAppend(DiagMsg, PerfTrigger.EmittedIn(p), PerfTrigger.Emission(o, p, files));
  }

  /** Starting a tool emits nothing. */
  lemma StartEmitsNothing(s: Bpf.Settings, actions: seq<Bpf.Action>, a: Bpf.Action)
    requires a.StartOffcpu? || a.StartProfile?
    ensures var b, b' := Bpf.Run(s, actions), Bpf.Run(s, actions + [a]); b'.events == b.events && b'.emitted == b.emitted
  {
    hide Bpf.Launched, Bpf.Pending, Bpf.CollectStep;
    FrontOfAppend(actions, a);
  }

  lemma OthersCollect(cfg: Config, w: World, a: Action)
    requires !a.Push? && !a.PerfRound? && Collected(cfg, w)
    ensures Collected(cfg, Deployment.Step(cfg, w, a))
  {
    hide DiagMsg, Stream, PerfTrigger.EmittedIn, Bpf.Run, PerfTrigger.Run, KernelStep, PerfPartAndRaced, BpfPart;
    match a
    case Kernel(s, room) => KernelKeeps(w, s, room);
    case StartOffcpu(c, l) => StartEmitsNothing(cfg.bpf, w.bpfActions, Bpf.StartOffcpu(c, l));
    case StartProfile(c, l) => StartEmitsNothing(cfg.bpf, w.bpfActions, Bpf.StartProfile(c, l));
    case Elsewhere(call) =>
  }

  /** In every run, however pushes fail: every event the BPF diagnosers emit is in exactly one request, in order,
      and every event the perf thread emits is in exactly one request, still waiting, or lost to the race with
      one push. */
  lemma {:induction false} EveryEventIsCollectedOnce(cfg: Config, actions: seq<Action>)
    ensures Collected(cfg, RunWorld(cfg, actions))
  {
    hide Collected, Deployment.Step;
    if actions == [] {
      NothingCollected(cfg);
    } else {
      var w, a := RunWorld(cfg, Front(actions)), Last(actions);
      EveryEventIsCollectedOnce(cfg, Front(actions));
      match a
      case Push(i, m, files) =>
        StepOfPush(cfg, w, i, m, files);
        PushCollects(cfg, w, i, m, files);
      case PerfRound(o, files) => RoundCollects(cfg, w, o, files);
      case _ => OthersCollect(cfg, w, a);
    }
  }

  lemma StepOfPush(cfg: Config, w: World, i: PushInput, m: Metrics, files: Files)
    ensures Deployment.Step(cfg, w, Push(i, m, files)) == PushStep(cfg, w, i, m, files)
  {
    hide PushStep;
  }

  lemma NothingCollected(cfg: Config)
    ensures Collected(cfg, Start(cfg))
  {
  }

  // ------------------------------------------------------------------------------------------
  // Every launched event is somewhere, once
  // ------------------------------------------------------------------------------------------

  /** In every run, the events of all tools ever launched by the BPF diagnosers are, each exactly once, in the
      requests, dropped for an empty file, or those of the tools still running; and the events of all recordings
      ever launched are, each exactly once, in the requests, lost to the race with a push, waiting for a push,
      dropped for an empty file, overwritten by a later launch, or pending. */
  lemma EveryLaunchIsDeliveredOrAccounted(cfg: Config, actions: seq<Action>)
    ensures var w := RunWorld(cfg, actions);
            var b, p := BpfOf(cfg, w), PerfOf(cfg, w);
            && multiset(Map(DiagMsg, b.launched))
               == multiset(Stream(BpfPart, w.sent)) + multiset(Map(DiagMsg, b.dropped)) + multiset(Map(DiagMsg, Bpf.Pending(b.runners)))
            && multiset(Map(DiagMsg, PerfTrigger.LaunchedIn(p)))
               == multiset(Stream(PerfPart, w.sent)) + multiset(Stream(LostInRace, w.sent)) + multiset(Map(DiagMsg, p.events))
                  + multiset(Map(DiagMsg, PerfTrigger.DroppedIn(p))) + multiset(Map(DiagMsg, PerfTrigger.OverwrittenIn(p)))
                  + multiset(Map(DiagMsg, PerfTrigger.One(p.pending)))
  {
    hide RunWorld, DiagMsg, Stream, PerfTrigger.EmittedIn, PerfTrigger.LaunchedIn, PerfTrigger.DroppedIn, PerfTrigger.OverwrittenIn,
         PerfTrigger.TriggerInv, Bpf.Run, PerfTrigger.Run, Bpf.Pending;
    var w := RunWorld(cfg, actions);
    var b, p := BpfOf(cfg, w), PerfOf(cfg, w);
    EveryEventIsCollectedOnce(cfg, actions);
    Bpf.EveryLaunchIsAccounted(cfg.bpf, w.bpfActions);
    PerfTrigger.LaunchesAreAccounted(cfg.perf, w.perfActions);
    MapParts(DiagMsg, b.launched, b.emitted, b.dropped, Bpf.Pending(b.runners));
    PerfParts(p);
    RacedApart(w.sent);
  }

  lemma PerfParts(p: PerfTrigger.PerfState)
    requires PerfTrigger.Balanced(p)
    ensures multiset(Map(DiagMsg, PerfTrigger.LaunchedIn(p)))
            == multiset(Map(DiagMsg, PerfTrigger.EmittedIn(p))) + multiset(Map(DiagMsg, PerfTrigger.DroppedIn(p)))
               + multiset(Map(DiagMsg, PerfTrigger.OverwrittenIn(p))) + multiset(Map(DiagMsg, PerfTrigger.One(p.pending)))
  {
    hide Map, DiagMsg, PerfTrigger.EmittedIn, PerfTrigger.LaunchedIn, PerfTrigger.DroppedIn, PerfTrigger.OverwrittenIn, PerfTrigger.One;
    var settled := PerfTrigger.EmittedIn(p) + PerfTrigger.DroppedIn(p);
    MapParts(DiagMsg, PerfTrigger.LaunchedIn(p), settled, PerfTrigger.OverwrittenIn(p), PerfTrigger.One(p.pending));
    MapAppend(DiagMsg, PerfTrigger.EmittedIn(p), PerfTrigger.DroppedIn(p));
  }

  lemma {:induction false} RacedApart(sent: seq<Dispatch>)
    ensures multiset(Stream(PerfPartAndRaced, sent)) == multiset(Stream(PerfPart, sent)) + multiset(Stream(LostInRace, sent))
  {
    hide PerfPart, LostInRace;
    if sent != [] {
      RacedApart(Front(sent));
    }
  }

  // ------------------------------------------------------------------------------------------
  // What the manager is told
  // ------------------------------------------------------------------------------------------

  function Filter<T>(keep: T -> bool, s: seq<T>): seq<T> {
    if s == [] then [] else Filter(keep, Front(s)) + (if keep(Last(s)) then [Last(s)] else [])
  }

  lemma {:induction false} FilterAppend<T>(keep: T -> bool, a: seq<T>, b: seq<T>)
    ensures Filter(keep, a + b) == Filter(keep, a) + Filter(keep, b)
  {
    if b == [] {
      assert a + b == a;
    } else {
      FilterAppend(keep, a, Front(b));
      assert Front(a + b) == a + Front(b) && Last(a + b) == Last(b);
    }
  }

  lemma {:induction false} FilterAll<T>(keep: T -> bool, s: seq<T>, yes: bool)
    requires forall x :: x in s ==> keep(x) == yes
    ensures Filter(keep, s) == if yes then s else []
  {
    if s != [] {
      FilterAll(keep, Front(s), yes);
      assert s == Front(s) + [Last(s)] && Last(s) in s;
    }
  }

  predicate OfPerf(e: Protocol.DiagnoseEvent) {
    e.kind == "perf"
  }

  predicate OfBpf(e: Protocol.DiagnoseEvent) {
    !OfPerf(e)
  }

  /** The events of all reports the manager has handled for `h`, in order, evictions or not. */
  function ReportedEvents(ops: seq<HostTable.Op>, h: string): seq<DiagnoseRecord> {
    if ops == [] then []
    else ReportedEvents(Front(ops), h)
         + (if Last(ops).Report? && Last(ops).hostname == h then Last(ops).snap.diagnoseEvents else [])
  }

  /** No other worker reports under the name `h`. */
  ghost predicate OnlyThisReports(actions: seq<Action>, h: string) {
    forall k :: 0 <= k < |actions| && actions[k].Elsewhere? && actions[k].call.Set? ==> actions[k].call.request.hostname != h
  }

  /** A kind tells which diagnosers an event is from. */
  lemma KindsTellApart(cfg: Config, w: World)
    ensures forall e :: e in Map(DiagMsg, BpfOf(cfg, w).emitted) ==> OfBpf(e)
    ensures forall e :: e in Map(DiagMsg, PerfTrigger.EmittedIn(PerfOf(cfg, w))) ==> OfPerf(e)
  {
    hide Bpf.Run, PerfTrigger.Run, PerfTrigger.EmittedIn, PerfTrigger.LaunchedIn, FilePath, MakeTag;
    var bpf, perf := BpfOf(cfg, w).emitted, PerfTrigger.EmittedIn(PerfOf(cfg, w));
    Bpf.EveryEventIsWellNamed(cfg.bpf, w.bpfActions);
    PerfTrigger.EveryEventIsWellNamed(cfg.perf, w.perfActions);
    forall e | e in Map(DiagMsg, bpf)
      ensures OfBpf(e)
    {
      var k :| 0 <= k < |bpf| && e == DiagMsg(bpf[k]);
      assert bpf[k] in bpf && Bpf.WellNamed(cfg.bpf, bpf[k]);
    }
    forall e | e in Map(DiagMsg, perf)
      ensures OfPerf(e)
    {
      var k :| 0 <= k < |perf| && e == DiagMsg(perf[k]);
      assert perf[k] in perf && PerfTrigger.WellNamed(cfg.perf, perf[k]);
    }
  }

  /** Filtering what is accepted, request by request. */
  lemma {:induction false} FilteredStream(keep: Protocol.DiagnoseEvent -> bool, part: Dispatch -> seq<Protocol.DiagnoseEvent>,
                                          sent: seq<Dispatch>, h: string)
    requires forall k :: 0 <= k < |sent| ==> Subsequence(Filter(keep, AcceptedFor(h)(sent[k])), part(sent[k]))
    ensures Subsequence(Filter(keep, Stream(AcceptedFor(h), sent)), Stream(part, sent))
  {
    hide Subsequence, Filter, AcceptedFor;
    if sent == [] {
      NothingIsFiltered(keep);
    } else {
      var front, s := Front(sent), Last(sent);
      FilteredStream(keep, part, front, h);
      FilterAppend(keep, Stream(AcceptedFor(h), front), AcceptedFor(h)(s));
      SubsequenceConcat(Filter(keep, Stream(AcceptedFor(h), front)), Stream(part, front), Filter(keep, AcceptedFor(h)(s)), part(s));
    }
  }

  lemma NothingIsFiltered<T>(keep: T -> bool)
    ensures Filter(keep, []) == [] && Subsequence<T>([], [])
  {
  }

  lemma {:induction false} PartInStream(part: Dispatch -> seq<Protocol.DiagnoseEvent>, sent: seq<Dispatch>, k: nat)
    requires k < |sent|
    ensures forall e :: e in part(sent[k]) ==> e in Stream(part, sent)
  {
    if k < |sent| - 1 {
      PartInStream(part, Front(sent), k);
    }
  }

  /** Whatever is accepted, its BPF events come from the BPF batches and its perf events from the perf batches, in order. */
  lemma AcceptedComeFromBatches(sent: seq<Dispatch>, h: string)
    requires forall e :: e in Stream(BpfPart, sent) ==> OfBpf(e)
    requires forall e :: e in Stream(PerfPartAndRaced, sent) ==> OfPerf(e)
    ensures Subsequence(Filter(OfBpf, Stream(AcceptedFor(h), sent)), Stream(BpfPart, sent))
    ensures Subsequence(Filter(OfPerf, Stream(AcceptedFor(h), sent)), Stream(PerfPartAndRaced, sent))
  {
    hide OfBpf, OfPerf, BpfPart, PerfPartAndRaced, Subsequence, Filter, Stream, AcceptedFor;
    forall k | 0 <= k < |sent|
      ensures Subsequence(Filter(OfBpf, AcceptedFor(h)(sent[k])), BpfPart(sent[k]))
      ensures Subsequence(Filter(OfPerf, AcceptedFor(h)(sent[k])), PerfPartAndRaced(sent[k]))
    {
      PartInStream(BpfPart, sent, k);
      PartInStream(PerfPartAndRaced, sent, k);
      BatchesApart(sent[k], h);
    }
    FilteredStream(OfBpf, BpfPart, sent, h);
    FilteredStream(OfPerf, PerfPartAndRaced, sent, h);
  }

  lemma FilterParts<T>(keep: T -> bool, a: seq<T>, b: seq<T>, first: bool)
    requires forall x :: x in a ==> keep(x) == first
    requires forall x :: x in b ==> keep(x) != first
    ensures Filter(keep, a + b) == if first then a else b
  {
    hide Filter;
    FilterAppend(keep, a, b);
    FilterAll(keep, a, first);
    FilterAll(keep, b, !first);
    assert a + [] == a && [] + b == b;
  }

  lemma PartsOf(s: Dispatch)
    ensures s.info.diagnoseEvents == BpfPart(s) + PerfPart(s)
  {
  }

  lemma BatchesApart(s: Dispatch, h: string)
    requires forall e :: e in BpfPart(s) ==> OfBpf(e)
    requires forall e :: e in PerfPartAndRaced(s) ==> OfPerf(e)
    ensures Subsequence(Filter(OfBpf, AcceptedFor(h)(s)), BpfPart(s))
    ensures Subsequence(Filter(OfPerf, AcceptedFor(h)(s)), PerfPartAndRaced(s))
  {
    hide OfPerf, Filter, Subsequence, LostInRace, BpfPart, PerfPart;
    var bpf, perf := BpfPart(s), PerfPart(s);
    if s.link == Delivered && s.info.hostname == h {
      PartsOf(s);
      FilterParts(OfBpf, bpf, perf, true);
      FilterParts(OfPerf, bpf, perf, false);
      SubsequenceSelf(bpf);
      SubsequenceSelf(perf);
      SubsequenceSkip(perf, perf, LostInRace(s));
    } else {
      NothingIsFiltered(OfBpf);
      NothingIsFiltered(OfPerf);
      NothingIsWithin(bpf);
      NothingIsWithin(PerfPartAndRaced(s));
    }
  }

  lemma NothingIsWithin<T>(s: seq<T>)
    ensures Subsequence([], s)
  {
    SubsequenceSkip([], [], s);
    assert [] + s == s;
  }

  lemma PushReports(cfg: Config, w: World, i: PushInput, m: Metrics, files: Files, h: string)
    requires ReportedEvents(Ops(w), h) == Map(RecordOf, Stream(AcceptedFor(h), w.sent))
    ensures var w' := PushStep(cfg, w, i, m, files); ReportedEvents(Ops(w'), h) == Map(RecordOf, Stream(AcceptedFor(h), w'.sent))
  {
    hide Request, PushStep, Stream, RecordOf, SnapshotOf, BuildInfo;
    var s := Request(cfg, w, i, m, files);
    PushParts(cfg, w, i, m, files);
    StreamOneMore(AcceptedFor(h), w.sent, s);
    MapAppend(RecordOf, Stream(AcceptedFor(h), w.sent), AcceptedFor(h)(s));
    SnapshotEvents(s.info, s.now);
    MapAppend(OpOf, w.calls, CallOf(s));
    if s.link == Delivered {
      FrontOfAppend(Ops(w), OpOf(Set(s.info, s.now)));
      assert Map(OpOf, CallOf(s)) == [OpOf(Set(s.info, s.now))];
    } else {
      assert w.calls + [] == w.calls;
    }
  }

  lemma SnapshotEvents(info: Protocol.MonitorInfo, now: I64)
    ensures SnapshotOf(info, now).diagnoseEvents == Map(RecordOf, info.diagnoseEvents)
  {
  }

  lemma CallReports(w: World, call: Call, h: string)
    requires call.Set? ==> call.request.hostname != h
    ensures ReportedEvents(Ops(w.(calls := w.calls + [call])), h) == ReportedEvents(Ops(w), h)
  {
    hide SnapshotOf;
    MapAppend(OpOf, w.calls, [call]);
    assert Map(OpOf, [call]) == [OpOf(call)];
    FrontOfAppend(Ops(w), OpOf(call));
  }

  lemma OthersKeepCalls(cfg: Config, w: World, a: Action)
    requires !a.Push? && !a.Elsewhere?
    ensures var w' := Deployment.Step(cfg, w, a); w'.calls == w.calls && w'.sent == w.sent
  {
    hide KernelStep;
    if a.Kernel? {
      KernelKeeps(w, a.step, a.bufferHasRoom);
    }
  }

  lemma {:induction false} ReportedAreAccepted(cfg: Config, actions: seq<Action>, h: string)
    requires OnlyThisReports(actions, h)
    ensures var w := RunWorld(cfg, actions); ReportedEvents(Ops(w), h) == Map(RecordOf, Stream(AcceptedFor(h), w.sent))
  {
    hide PushStep, KernelStep, Stream, ReportedEvents, RecordOf, AcceptedFor, OpOf;
    if actions == [] {
      NothingReported(cfg, h);
    } else {
      var w, a := RunWorld(cfg, Front(actions)), Last(actions);
      ReportedAreAccepted(cfg, Front(actions), h);
      match a
      case Push(i, m, files) => PushReports(cfg, w, i, m, files, h);
      case Elsewhere(call) => CallReports(w, call, h);
      case _ => OthersKeepCalls(cfg, w, a);
    }
  }

  lemma NothingReported(cfg: Config, h: string)
    ensures ReportedEvents(Ops(Start(cfg)), h) == Map(RecordOf, Stream(AcceptedFor(h), []))
  {
  }

  /** At-most-once, ordered delivery over every run: when no other worker reports under the name, the events in
      the manager's reports for it are exactly those of this worker's accepted requests, in order; and of these,
      the BPF events are a subsequence of what the BPF diagnosers emitted and the perf events of what the perf
      thread emitted. */
  lemma ReportedAreEmitted(cfg: Config, actions: seq<Action>, h: string)
    requires OnlyThisReports(actions, h)
    ensures var w := RunWorld(cfg, actions);
            var accepted := Stream(AcceptedFor(h), w.sent);
            && ReportedEvents(Ops(w), h) == Map(RecordOf, accepted)
            && Subsequence(Filter(OfBpf, accepted), Map(DiagMsg, BpfOf(cfg, w).emitted))
            && Subsequence(Filter(OfPerf, accepted), Map(DiagMsg, PerfTrigger.EmittedIn(PerfOf(cfg, w))))
  {
    hide RunWorld, Stream, ReportedEvents, RecordOf, AcceptedFor, Subsequence, Filter, DiagMsg, BpfOf, PerfOf, OfPerf, OfBpf,
         PerfTrigger.EmittedIn;
    var w := RunWorld(cfg, actions);
    var perf, waiting := Stream(PerfPartAndRaced, w.sent), Map(DiagMsg, PerfOf(cfg, w).events);
    ReportedAreAccepted(cfg, actions, h);
    EveryEventIsCollectedOnce(cfg, actions);
    KindsTellApart(cfg, w);
    assert forall e :: e in perf ==> e in perf + waiting;
    AcceptedComeFromBatches(w.sent, h);
    SubsequenceSkip(Filter(OfPerf, Stream(AcceptedFor(h), w.sent)), perf, waiting);
  }

  // ------------------------------------------------------------------------------------------
  // What the manager stores
  // ------------------------------------------------------------------------------------------

  /** The action does not disturb the manager's record of `h`: no other worker reports under the name, and no
      eviction finds it too old. */
  ghost predicate Undisturbed(w: World, a: Action, h: string) {
    match a
    case Elsewhere(Set(req, _)) => req.hostname != h
    case Elsewhere(Evict(now, maxAge)) => h in RunOps(Ops(w)) ==> !Expired(RunOps(Ops(w))[h], now, maxAge)
    case _ => true
  }

  ghost predicate UndisturbedRun(cfg: Config, actions: seq<Action>, h: string) {
    forall k :: 0 <= k < |actions| ==> Undisturbed(RunWorld(cfg, actions[..k]), actions[k], h)
  }

  predicate AnyAccepted(sent: seq<Dispatch>, h: string) {
    sent != [] && ((Last(sent).link == Delivered && Last(sent).info.hostname == h) || AnyAccepted(Front(sent), h))
  }

  ghost predicate SubmittedIsAccepted(w: World, h: string) {
    match LogOf(Ops(w), h)
    case Absent => Stream(AcceptedFor(h), w.sent) == [] && !AnyAccepted(w.sent, h)
    case Present(_, submitted) => submitted == Map(RecordOf, Stream(AcceptedFor(h), w.sent)) && AnyAccepted(w.sent, h)
  }

  lemma PushSubmits(cfg: Config, w: World, i: PushInput, m: Metrics, files: Files, h: string)
    requires SubmittedIsAccepted(w, h)
    ensures SubmittedIsAccepted(PushStep(cfg, w, i, m, files), h)
  {
    hide Request, PushStep, SubmittedIsAccepted, BuildInfo;
    var w', s := PushStep(cfg, w, i, m, files), Request(cfg, w, i, m, files);
    PushParts(cfg, w, i, m, files);
    if s.link == Delivered {
      DeliveredSubmits(w, w', s, h);
    } else {
      LostSubmits(w, w', s, h);
    }
  }

  lemma DeliveredSubmits(w: World, w': World, s: Dispatch, h: string)
    requires SubmittedIsAccepted(w, h) && s.link == Delivered
    requires w'.sent == w.sent + [s] && w'.calls == w.calls + [Set(s.info, s.now)]
    ensures SubmittedIsAccepted(w', h)
  {
    hide Stream, RecordOf, SnapshotOf;
    StreamOneMore(AcceptedFor(h), w.sent, s);
    FrontOfAppend(w.sent, s);
    MapAppend(RecordOf, Stream(AcceptedFor(h), w.sent), AcceptedFor(h)(s));
    SnapshotEvents(s.info, s.now);
    OpsOneMore(w.calls, Set(s.info, s.now));
    NothingMore(Stream(AcceptedFor(h), w.sent));
  }

  lemma LostSubmits(w: World, w': World, s: Dispatch, h: string)
    requires SubmittedIsAccepted(w, h) && s.link != Delivered
    requires w'.sent == w.sent + [s] && w'.calls == w.calls + []
    ensures SubmittedIsAccepted(w', h)
  {
    hide Stream, RecordOf, SnapshotOf, LogOf;
    StreamOneMore(AcceptedFor(h), w.sent, s);
    FrontOfAppend(w.sent, s);
    NothingMore(Stream(AcceptedFor(h), w.sent));
    NothingMore(w.calls);
  }

  lemma NothingMore<T>(s: seq<T>)
    ensures s + [] == s
  {
  }

  lemma OpsOneMore(calls: seq<Call>, call: Call)
    ensures var ops := Map(OpOf, calls + [call]);
            ops == Map(OpOf, calls) + [OpOf(call)] && ops != [] && Front(ops) == Map(OpOf, calls) && Last(ops) == OpOf(call)
  {
    hide OpOf;
  }

  lemma CallSubmits(w: World, call: Call, h: string)
    requires SubmittedIsAccepted(w, h) && Undisturbed(w, Elsewhere(call), h)
    ensures SubmittedIsAccepted(w.(calls := w.calls + [call]), h)
  {
    hide Stream, RecordOf, Render, RunOps, SnapshotOf;
    MapAppend(OpOf, w.calls, [call]);
    assert Map(OpOf, [call]) == [OpOf(call)];
    FrontOfAppend(Ops(w), OpOf(call));
    HostsRefineLogs(Ops(w), h);
    RenderedUpdate(LogOf(Ops(w), h), h);
  }

  lemma RenderedUpdate(log: HostLog, h: string)
    ensures match log
            case Absent => Render(log, h).None?
            case Present(last, _) => Render(log, h).Some? && Render(log, h).value.lastUpdate == last.lastUpdate
  {
  }

  lemma {:induction false} SubmittedInRun(cfg: Config, actions: seq<Action>, h: string)
    requires UndisturbedRun(cfg, actions, h)
    ensures SubmittedIsAccepted(RunWorld(cfg, actions), h)
  {
    hide PushStep, KernelStep, Stream, LogOf, RecordOf, AcceptedFor, OpOf, AnyAccepted, RunOps;
    if actions == [] {
      NothingSubmitted(cfg, h);
    } else {
      var front, a := Front(actions), Last(actions);
      assert actions[..|front|] == front && actions[|front|] == a;
      assert forall k :: 0 <= k < |front| ==> actions[..k] == front[..k] && actions[k] == front[k];
      SubmittedInRun(cfg, front, h);
      match a
      case Push(i, m, files) => PushSubmits(cfg, RunWorld(cfg, front), i, m, files, h);
      case Elsewhere(call) => CallSubmits(RunWorld(cfg, front), call, h);
      case _ => OthersKeepCalls(cfg, RunWorld(cfg, front), a);
    }
  }

  lemma NothingSubmitted(cfg: Config, h: string)
    ensures SubmittedIsAccepted(Start(cfg), h)
  {
  }

  /** With no eviction and no other worker under the name, the manager knows the name exactly when it has
      accepted a request under it, and then its history for it is the last 20 of the events it accepted,
      in order, however many pushes failed. */
  lemma StoredHistoryIsTailOfAccepted(cfg: Config, actions: seq<Action>, h: string)
    requires UndisturbedRun(cfg, actions, h)
    ensures var w := RunWorld(cfg, actions);
            && (h in RunOps(Ops(w)) <==> AnyAccepted(w.sent, h))
            && (h in RunOps(Ops(w)) ==>
                  RunOps(Ops(w))[h].diagnoseEvents == Tail(Map(RecordOf, Stream(AcceptedFor(h), w.sent)), 20))
  {
    hide RunWorld, UndisturbedRun, Stream, RecordOf, RunOps, LogOf, AnyAccepted;
    SubmittedInRun(cfg, actions, h);
    HostsRefineLogs(Ops(RunWorld(cfg, actions)), h);
  }
}
