/** The batch scheduler of the BPF diagnosers: launch every configured tool, reap the finished ones,
    relaunch when all are reaped (worker/src/diagnose/bpf_diagnoser.cpp). */
module BpfDiagnosis {
  import opened Words
  import opened Collections
  import opened Diagnosis
  import opened Text
  import opened FileNames
  import opened Rotation

  datatype OffcpuConfig = OffcpuConfig(process: string, thread: string, minBlockUs: int, maxBlockUs: int, intervalS: int)

  datatype ProfileConfig = ProfileConfig(process: string, thread: string, maxNr: int, maxSizeKb: int, cpus: string)

  /** A running subprocess with the event to emit when it completes. */
  datatype RunnerEntry = RunnerEntry(pid: nat, pendingEv: DiagEvent)

  /** The outcome of one launch: the child's pid unless the fork failed, and the two clock readings. */
  datatype Launch = Launch(pid: Option<nat>, fileTime: I64, eventTime: I64)

  datatype Settings = Settings(outputDir: string, limitFileNum: int)

  /** What one Collect finds outside: which runners are still alive, by their position when it starts,
      the outcomes of any relaunches, and the paths that cannot be unlinked. */
  datatype Outside = Outside(alive: seq<bool>, launches: seq<Launch>, stuck: set<string>)

  predicate AliveAt(o: Outside, i: nat) {
    i < |o.alive| && o.alive[i]
  }

  function LaunchAt(o: Outside, i: nat): Launch {
    if i < |o.launches| then o.launches[i] else Launch(None, 0, 0)
  }

  // ------------------------------------------------------------------------------------------
  // Specification
  // ------------------------------------------------------------------------------------------

  function Pending(rs: seq<RunnerEntry>): seq<DiagEvent> {
    seq(|rs|, i requires 0 <= i < |rs| => rs[i].pendingEv)
  }

  function EventFor(s: Settings, k: Kind, process: string, thread: string, l: Launch): DiagEvent {
    DiagEvent(KindName(k), process, thread, FilePath(s.outputDir, k, MakeTag(process, thread), l.fileTime), l.eventTime, 0.0)
  }

  function Launched(s: Settings, k: Kind, process: string, thread: string, l: Launch): seq<RunnerEntry> {
    if l.pid.Some? then [RunnerEntry(l.pid.value, EventFor(s, k, process, thread, l))] else []
  }

  datatype Reaped = Reaped(kept: seq<RunnerEntry>, emitted: seq<DiagEvent>, dropped: seq<DiagEvent>, files: Files)

  /** One poll: a live runner stays; a finished one emits its event and rotates its type if its file has
      data, and is dropped otherwise. */
  function ReapOne(s: Settings, stuck: set<string>, alive: bool, e: RunnerEntry, r: Reaped): Reaped {
    var ev := e.pendingEv;
    if alive then r.(kept := r.kept + [e])
    else if HasData(r.files, ev.filePath) then
      r.(emitted := r.emitted + [ev], files := Rotated(r.files, s.outputDir, ev.kind, s.limitFileNum, stuck))
    else r.(dropped := r.dropped + [ev])
  }

  function Reap(s: Settings, o: Outside, rs: seq<RunnerEntry>, files: Files): Reaped {
    if rs == [] then Reaped([], [], [], files)
    else ReapOne(s, o.stuck, AliveAt(o, |rs| - 1), Last(rs), Reap(s, o, Front(rs), files))
  }

  function LaunchOffcpus(s: Settings, o: Outside, cfgs: seq<OffcpuConfig>): seq<RunnerEntry> {
    if cfgs == [] then []
    else LaunchOffcpus(s, o, Front(cfgs))
         + Launched(s, Offcpu, Last(cfgs).process, Last(cfgs).thread, LaunchAt(o, |cfgs| - 1))
  }

  function LaunchProfiles(s: Settings, o: Outside, cfgs: seq<ProfileConfig>, base: nat): seq<RunnerEntry> {
    if cfgs == [] then []
    else LaunchProfiles(s, o, Front(cfgs), base)
         + Launched(s, Profile, Last(cfgs).process, Last(cfgs).thread, LaunchAt(o, base + |cfgs| - 1))
  }

  function LaunchAll(s: Settings, o: Outside, offcpu: seq<OffcpuConfig>, profile: seq<ProfileConfig>): seq<RunnerEntry> {
    LaunchOffcpus(s, o, offcpu) + LaunchProfiles(s, o, profile, |offcpu|)
  }

  /** The scheduler's fields, and every event ever launched, emitted and dropped. */
  datatype Bpf = Bpf(runners: seq<RunnerEntry>, offcpu: seq<OffcpuConfig>, profile: seq<ProfileConfig>,
                     events: seq<DiagEvent>,
                     launched: seq<DiagEvent>, emitted: seq<DiagEvent>, dropped: seq<DiagEvent>)

  const IDLE: Bpf := Bpf([], [], [], [], [], [], [])

  function Relaunches(s: Settings, o: Outside, b: Bpf, files: Files): seq<RunnerEntry> {
    if Reap(s, o, b.runners, files).kept == [] then LaunchAll(s, o, b.offcpu, b.profile) else []
  }

  function CollectStep(s: Settings, o: Outside, b: Bpf, files: Files): Bpf {
    var r := Reap(s, o, b.runners, files);
    var again := Relaunches(s, o, b, files);
    b.(runners := r.kept + again, events := b.events + r.emitted,
       launched := b.launched + Pending(again), emitted := b.emitted + r.emitted, dropped := b.dropped + r.dropped)
  }

  function StartStep(b: Bpf, rs: seq<RunnerEntry>): Bpf {
    b.(runners := b.runners + rs, launched := b.launched + Pending(rs))
  }

  datatype Action =
    | StartOffcpu(offcpuCfg: OffcpuConfig, launch: Launch)
    | StartProfile(profileCfg: ProfileConfig, launch: Launch)
    | Collect(outside: Outside, files: Files)
    | Reset

  function Step(s: Settings, b: Bpf, a: Action): Bpf {
    match a
    case StartOffcpu(cfg, l) =>
      StartStep(b.(offcpu := b.offcpu + [cfg]), Launched(s, Offcpu, cfg.process, cfg.thread, l))
    case StartProfile(cfg, l) =>
      StartStep(b.(profile := b.profile + [cfg]), Launched(s, Profile, cfg.process, cfg.thread, l))
    case Collect(o, files) => CollectStep(s, o, b, files)
    case Reset => b.(events := [])
  }

  ghost function Run(s: Settings, actions: seq<Action>): Bpf {
    if actions == [] then IDLE else Step(s, Run(s, Front(actions)), Last(actions))
  }

  // ------------------------------------------------------------------------------------------
  // What reaping does
  // ------------------------------------------------------------------------------------------

  lemma PendingAppend(a: seq<RunnerEntry>, b: seq<RunnerEntry>)
    ensures Pending(a + b) == Pending(a) + Pending(b)
  {
  }

  lemma PendingSize(rs: seq<RunnerEntry>)
    ensures |Pending(rs)| == |rs|
  {
  }

  lemma PendingNone()
    ensures Pending([]) == []
  {
  }

  lemma PendingLast(rs: seq<RunnerEntry>)
    requires rs != []
    ensures Pending(rs) == Pending(Front(rs)) + [Last(rs).pendingEv]
  {
  }

  /** The runners a Collect polls as alive, in order. */
  function StillAlive(o: Outside, rs: seq<RunnerEntry>): seq<RunnerEntry> {
    if rs == [] then []
    else StillAlive(o, Front(rs)) + (if AliveAt(o, |rs| - 1) then [Last(rs)] else [])
  }

  /** The live ones stay, in order, and every finished one's event is either emitted or dropped, in order. */
  ghost predicate Partitioned(o: Outside, rs: seq<RunnerEntry>, r: Reaped) {
    && r.kept == StillAlive(o, rs)
    && multiset(Pending(rs)) == multiset(Pending(r.kept)) + multiset(r.emitted) + multiset(r.dropped)
    && Subsequence(r.emitted, Pending(rs))
    && |rs| == |r.kept| + |r.emitted| + |r.dropped|
  }

  lemma ReapOnePartitions(s: Settings, o: Outside, rs: seq<RunnerEntry>, r: Reaped)
    requires rs != [] && Partitioned(o, Front(rs), r)
    ensures Partitioned(o, rs, ReapOne(s, o.stuck, AliveAt(o, |rs| - 1), Last(rs), r))
  {
    hide HasData, AliveAt, Rotated, Pending, Subsequence;
    var last := Last(rs);
    PendingLast(rs);
    PendingLast(r.kept + [last]);
    FrontOfAppend(r.kept, last);
    SubsequenceKeep(r.emitted, Pending(Front(rs)), [last.pendingEv]);
    SubsequenceSkip(r.emitted, Pending(Front(rs)), [last.pendingEv]);
  }

  /** Each runner is visited exactly once. */
  lemma {:induction false} ReapPartitions(s: Settings, o: Outside, rs: seq<RunnerEntry>, files: Files)
    ensures Partitioned(o, rs, Reap(s, o, rs, files))
  {
    hide ReapOne;
    if rs != [] {
      ReapPartitions(s, o, Front(rs), files);
      ReapOnePartitions(s, o, rs, Reap(s, o, Front(rs), files));
    }
  }

  /** Reaping only removes files, and leaves at most the configured number of each type it emitted. */
  lemma {:induction false} EmittedTypesAreRotated(s: Settings, o: Outside, rs: seq<RunnerEntry>, files: Files)
    requires s.limitFileNum > 0 && o.stuck == {}
    ensures var r := Reap(s, o, rs, files);
            && r.files.Keys <= files.Keys && (forall p :: p in r.files ==> r.files[p] == files[p])
            && forall i :: 0 <= i < |r.emitted| ==> |Matching(r.files, s.outputDir, r.emitted[i].kind)| <= s.limitFileNum
  {
    hide Matching, Rotated, HasData, AliveAt;
    if rs != [] {
      var before, after := Reap(s, o, Front(rs), files), Reap(s, o, rs, files);
      EmittedTypesAreRotated(s, o, Front(rs), files);
      if after.files != before.files {
        var kind := Last(rs).pendingEv.kind;
        RotationCorrect(before.files, s.outputDir, kind, s.limitFileNum);
        forall i | 0 <= i < |after.emitted|
          ensures |Matching(after.files, s.outputDir, after.emitted[i].kind)| <= s.limitFileNum
        {
          FewerFilesFewerMatches(before.files, after.files, s.outputDir, after.emitted[i].kind);
        }
      } else if |after.emitted| > |before.emitted| {
        RotationCorrect(before.files, s.outputDir, Last(rs).pendingEv.kind, s.limitFileNum);
      }
    }
  }

  /** The finished tools that left a non-empty file, in order. */
  function FinishedWithData(o: Outside, rs: seq<RunnerEntry>, files: Files): seq<DiagEvent> {
    if rs == [] then []
    else
      var n, ev := |rs| - 1, Last(rs).pendingEv;
      FinishedWithData(o, Front(rs), files)
      + (if !(n < |o.alive| && o.alive[n]) && ev.filePath in files && files[ev.filePath].size > 0 then [ev] else [])
  }

  /** Which finished tools emit: one that emits left a non-empty file; one that is dropped left an empty one, or none that
      the reaping did not itself rotate away; and without rotation the emitted are exactly those with data, in order. */
  lemma {:induction false} DataDecides(s: Settings, o: Outside, rs: seq<RunnerEntry>, files: Files)
    ensures var r := Reap(s, o, rs, files);
            && r.files.Keys <= files.Keys && (forall p :: p in r.files ==> r.files[p] == files[p])
            && (forall ev :: ev in r.emitted ==> ev.filePath in files && files[ev.filePath].size > 0)
            && (forall ev :: ev in r.dropped ==> ev.filePath !in r.files || r.files[ev.filePath].size == 0)
            && (s.limitFileNum <= 0 ==> r.files == files && r.emitted == FinishedWithData(o, rs, files))
  {
    hide Rotated;
    if rs != [] {
      var r := Reap(s, o, Front(rs), files);
      DataDecides(s, o, Front(rs), files);
      RotatedShrinks(r.files, s.outputDir, Last(rs).pendingEv.kind, s.limitFileNum, o.stuck);
    }
  }

  /** Only what is emitted rotates: a file that reaping removes is one of the directory whose name starts with the type of
      an event it emitted. */
  lemma {:induction false} OnlyEmittedTypesRotate(s: Settings, o: Outside, rs: seq<RunnerEntry>, files: Files, p: string)
    requires p in files && p !in Reap(s, o, rs, files).files
    ensures exists ev :: ev in Reap(s, o, rs, files).emitted && Matches(s.outputDir, ev.kind, p)
  {
    hide Matches, HasData, AliveAt, Rotated;
    var before, after := Reap(s, o, Front(rs), files), Reap(s, o, rs, files);
    if p !in before.files {
      OnlyEmittedTypesRotate(s, o, Front(rs), files, p);
      var ev :| ev in before.emitted && Matches(s.outputDir, ev.kind, p);
      assert ev in after.emitted;
    } else {
      var ev := Last(rs).pendingEv;
      RotatedMatches(before.files, s.outputDir, ev.kind, s.limitFileNum, o.stuck, p);
      assert after.emitted[|after.emitted| - 1] == ev;
    }
  }

  /** The same of one Collect: what it adds to the events emitted, waiting and dropped. */
  lemma CollectEmitsData(s: Settings, b: Bpf, o: Outside, files: Files)
    ensures var b', r := Step(s, b, Collect(o, files)), Reap(s, o, b.runners, files);
            && b'.emitted == b.emitted + r.emitted && b'.events == b.events + r.emitted && b'.dropped == b.dropped + r.dropped
            && (forall ev :: ev in r.emitted ==> ev.filePath in files && files[ev.filePath].size > 0)
            && (forall ev :: ev in r.dropped ==> ev.filePath !in r.files || r.files[ev.filePath].size == 0)
            && (s.limitFileNum <= 0 ==> r.emitted == FinishedWithData(o, b.runners, files))
  {
    hide Reap, Relaunches, FinishedWithData, Pending;
    DataDecides(s, o, b.runners, files);
  }

  /** In every run, every event emitted had a non-empty file when it was collected. */
  ghost predicate HadData(actions: seq<Action>, ev: DiagEvent) {
    exists n :: 0 <= n < |actions| && actions[n].Collect? && ev.filePath in actions[n].files && actions[n].files[ev.filePath].size > 0
  }

  lemma {:induction false} EmittedHadData(s: Settings, actions: seq<Action>)
    ensures forall ev :: ev in Run(s, actions).emitted ==> HadData(actions, ev)
  {
    hide Reap, Relaunches, Launched, Pending, FinishedWithData;
    if actions != [] {
      var front, b, a := Front(actions), Run(s, Front(actions)), Last(actions);
      EmittedHadData(s, front);
      if a.Collect? {
        CollectEmitsData(s, b, a.outside, a.files);
      }
      forall ev | ev in Run(s, actions).emitted
        ensures HadData(actions, ev)
      {
        if ev in b.emitted {
          var n :| 0 <= n < |front| && front[n].Collect? && ev.filePath in front[n].files && front[n].files[ev.filePath].size > 0;
          assert actions[n] == front[n];
        } else {
          assert actions[|actions| - 1] == a;
        }
      }
    }
  }

  // ------------------------------------------------------------------------------------------
  // What is launched
  // ------------------------------------------------------------------------------------------

  /** A configured tool. */
  datatype Slot = Slot(kind: string, process: string, thread: string)

  /** The tools in the order they are started in: the off-CPU ones, then the profilers. */
  function SlotsOf(offcpu: seq<OffcpuConfig>, profile: seq<ProfileConfig>): seq<Slot> {
    seq(|offcpu|, i requires 0 <= i < |offcpu| => Slot("offcpu", offcpu[i].process, offcpu[i].thread))
    + seq(|profile|, i requires 0 <= i < |profile| => Slot("profile", profile[i].process, profile[i].thread))
  }

  /** What starting a tool leaves: nothing when the fork fails, otherwise its process and the event that names its file. */
  function StartedAs(dir: string, slot: Slot, l: Launch): seq<RunnerEntry> {
    if l.pid.None? then []
    else
      var thread := if slot.thread == "" then "" else "_" + slot.thread;
      var path := dir + "/" + slot.kind + "_" + slot.process + thread + "_" + ToString(l.fileTime) + ".data";
      [RunnerEntry(l.pid.value, DiagEvent(slot.kind, slot.process, slot.thread, path, l.eventTime, 0.0))]
  }

  /** One attempt per slot, in order; `launches` are their outcomes. */
  function StartedAll(dir: string, slots: seq<Slot>, launches: seq<Launch>): seq<RunnerEntry> {
    if slots == [] then []
    else
      var n := |slots| - 1;
      StartedAll(dir, Front(slots), launches) + (if n < |launches| then StartedAs(dir, slots[n], launches[n]) else [])
  }

  lemma LaunchedIsStarted(s: Settings, k: Kind, process: string, thread: string, l: Launch)
    requires k != Perf
    ensures Launched(s, k, process, thread, l)
            == StartedAs(s.outputDir, Slot(if k == Offcpu then "offcpu" else "profile", process, thread), l)
  {
    hide ToString;
    var t, kind := if thread == "" then "" else "_" + thread, if k == Offcpu then "offcpu" else "profile";
    PathText(s.outputDir, kind, process, t, ToString(l.fileTime));
    assert KindPrefix(k) == kind + "_" && KindName(k) == kind && MakeTag(process, thread) == process + t;
  }

  lemma PathText(dir: string, kind: string, process: string, thread: string, time: string)
    ensures dir + "/" + ((kind + "_") + (process + thread) + "_" + time + ".data")
            == dir + "/" + kind + "_" + process + thread + "_" + time + ".data"
  {
  }

  /** Relaunching starts every configured tool once, off-CPU ones first, each in the order configured. */
  lemma LaunchAllStartsSlots(s: Settings, o: Outside, offcpu: seq<OffcpuConfig>, profile: seq<ProfileConfig>)
    ensures LaunchAll(s, o, offcpu, profile) == StartedAll(s.outputDir, SlotsOf(offcpu, profile), o.launches)
  {
    hide StartedAll, LaunchOffcpus, LaunchProfiles;
    OffcpusStart(s, o, offcpu);
    ProfilesStart(s, o, offcpu, profile);
    assert SlotsOf(offcpu, []) == SlotsOf(offcpu, []) + [];
  }

  lemma {:induction false} OffcpusStart(s: Settings, o: Outside, offcpu: seq<OffcpuConfig>)
    ensures LaunchOffcpus(s, o, offcpu) == StartedAll(s.outputDir, SlotsOf(offcpu, []), o.launches)
  {
    hide Launched, StartedAs;
    if offcpu != [] {
      var cfg := Last(offcpu);
      OffcpusStart(s, o, Front(offcpu));
      assert SlotsOf(offcpu, []) == SlotsOf(Front(offcpu), []) + [Slot("offcpu", cfg.process, cfg.thread)];
      LaunchedIsStarted(s, Offcpu, cfg.process, cfg.thread, LaunchAt(o, |offcpu| - 1));
      NoFork(s.outputDir, Slot("offcpu", cfg.process, cfg.thread));
    }
  }

  lemma {:induction false} ProfilesStart(s: Settings, o: Outside, offcpu: seq<OffcpuConfig>, profile: seq<ProfileConfig>)
    ensures StartedAll(s.outputDir, SlotsOf(offcpu, []), o.launches) + LaunchProfiles(s, o, profile, |offcpu|)
            == StartedAll(s.outputDir, SlotsOf(offcpu, profile), o.launches)
  {
    hide Launched, StartedAs;
    if profile != [] {
      var cfg := Last(profile);
      ProfilesStart(s, o, offcpu, Front(profile));
      assert SlotsOf(offcpu, profile) == SlotsOf(offcpu, Front(profile)) + [Slot("profile", cfg.process, cfg.thread)];
      LaunchedIsStarted(s, Profile, cfg.process, cfg.thread, LaunchAt(o, |offcpu| + |profile| - 1));
      NoFork(s.outputDir, Slot("profile", cfg.process, cfg.thread));
    }
  }

  lemma NoFork(dir: string, slot: Slot)
    ensures StartedAs(dir, slot, Launch(None, 0, 0)) == []
  {
  }

  /** Starting a tool configures it and starts it, and does nothing else. */
  lemma StartsExactly(s: Settings, b: Bpf, a: Action)
    requires a.StartOffcpu? || a.StartProfile?
    ensures var slot := if a.StartOffcpu? then Slot("offcpu", a.offcpuCfg.process, a.offcpuCfg.thread)
                        else Slot("profile", a.profileCfg.process, a.profileCfg.thread);
            var started := StartedAs(s.outputDir, slot, a.launch);
            Step(s, b, a) == b.(runners := b.runners + started, launched := b.launched + Pending(started),
                                offcpu := b.offcpu + (if a.StartOffcpu? then [a.offcpuCfg] else []),
                                profile := b.profile + (if a.StartProfile? then [a.profileCfg] else []))
  {
    hide Launched, StartedAs, Pending;
    assert b.offcpu + [] == b.offcpu && b.profile + [] == b.profile;
    match a
    case StartOffcpu(cfg, l) => LaunchedIsStarted(s, Offcpu, cfg.process, cfg.thread, l);
    case StartProfile(cfg, l) => LaunchedIsStarted(s, Profile, cfg.process, cfg.thread, l);
  }

  lemma AtMostOnePerConfig(s: Settings, o: Outside, offcpu: seq<OffcpuConfig>, profile: seq<ProfileConfig>)
    ensures |LaunchAll(s, o, offcpu, profile)| <= |offcpu| + |profile|
  {
    AtMostOneOffcpu(s, o, offcpu);
    AtMostOneProfile(s, o, profile, |offcpu|);
  }

  lemma {:induction false} AtMostOneOffcpu(s: Settings, o: Outside, cfgs: seq<OffcpuConfig>)
    ensures |LaunchOffcpus(s, o, cfgs)| <= |cfgs|
  {
    if cfgs != [] {
      AtMostOneOffcpu(s, o, Front(cfgs));
    }
  }

  lemma {:induction false} AtMostOneProfile(s: Settings, o: Outside, cfgs: seq<ProfileConfig>, base: nat)
    ensures |LaunchProfiles(s, o, cfgs, base)| <= |cfgs|
  {
    if cfgs != [] {
      AtMostOneProfile(s, o, Front(cfgs), base);
    }
  }

  // ------------------------------------------------------------------------------------------
  // Every run
  // ------------------------------------------------------------------------------------------

  /** Bounded, and every successful launch is accounted for exactly once. */
  ghost predicate Accounted(b: Bpf) {
    && |b.runners| <= |b.offcpu| + |b.profile|
    && multiset(b.launched) == multiset(b.emitted) + multiset(b.dropped) + multiset(Pending(b.runners))
    && |b.launched| == |b.emitted| + |b.dropped| + |b.runners|
    && |b.events| <= |b.emitted| && b.events == b.emitted[|b.emitted| - |b.events|..]
  }

  lemma StartAccounted(b: Bpf, rs: seq<RunnerEntry>)
    requires Accounted(b) && |b.runners| + |rs| <= |b.offcpu| + |b.profile|
    ensures Accounted(StartStep(b, rs))
  {
    PendingAppend(b.runners, rs);
  }

  lemma CollectAccounted(s: Settings, o: Outside, b: Bpf, files: Files)
    requires Accounted(b)
    ensures Accounted(CollectStep(s, o, b, files))
  {
    hide Reap, LaunchAll, StillAlive, Pending, Subsequence;
    var r, again := Reap(s, o, b.runners, files), Relaunches(s, o, b, files);
    ReapPartitions(s, o, b.runners, files);
    AtMostOnePerConfig(s, o, b.offcpu, b.profile);
    Recount(b, o, r, again);
  }

  lemma Recount(b: Bpf, o: Outside, r: Reaped, again: seq<RunnerEntry>)
    requires Accounted(b) && Partitioned(o, b.runners, r)
    requires again == [] || (r.kept == [] && |again| <= |b.offcpu| + |b.profile|)
    ensures Accounted(b.(runners := r.kept + again, events := b.events + r.emitted, launched := b.launched + Pending(again),
                         emitted := b.emitted + r.emitted, dropped := b.dropped + r.dropped))
  {
    hide StillAlive, Pending, Subsequence;
    PendingAppend(r.kept, again);
    PendingSize(again);
    SuffixGrows(b.events, b.emitted, r.emitted);
    Regroup(b.launched, b.emitted, b.dropped, Pending(b.runners), Pending(r.kept), r.emitted, r.dropped, Pending(again));
  }

  lemma SuffixGrows<T>(events: seq<T>, emitted: seq<T>, more: seq<T>)
    requires |events| <= |emitted| && events == emitted[|emitted| - |events|..]
    ensures |events + more| <= |emitted + more|
    ensures events + more == (emitted + more)[|emitted + more| - |events + more|..]
  {
  }

  lemma Regroup<T>(all: seq<T>, emitted: seq<T>, dropped: seq<T>, pending: seq<T>, kept: seq<T>, more: seq<T>, lost: seq<T>, again: seq<T>)
    requires multiset(all) == multiset(emitted) + multiset(dropped) + multiset(pending)
    requires multiset(pending) == multiset(kept) + multiset(more) + multiset(lost)
    ensures multiset(all + again) == multiset(emitted + more) + multiset(dropped + lost) + multiset(kept + again)
  {
  }

  lemma {:induction false} EveryLaunchIsAccounted(s: Settings, actions: seq<Action>)
    ensures Accounted(Run(s, actions))
  {
    hide CollectStep, StartStep, Launched;
    if actions == [] {
      assert Pending([]) == [];
    } else {
      var b := Run(s, Front(actions));
      EveryLaunchIsAccounted(s, Front(actions));
      match Last(actions)
      case StartOffcpu(cfg, l) =>
        LaunchedAtMostOne(s, Offcpu, cfg.process, cfg.thread, l);
        StartAccounted(b.(offcpu := b.offcpu + [cfg]), Launched(s, Offcpu, cfg.process, cfg.thread, l));
      case StartProfile(cfg, l) =>
        LaunchedAtMostOne(s, Profile, cfg.process, cfg.thread, l);
        StartAccounted(b.(profile := b.profile + [cfg]), Launched(s, Profile, cfg.process, cfg.thread, l));
      case Collect(o, files) => CollectAccounted(s, o, b, files);
      case Reset =>
    }
  }

  lemma LaunchedAtMostOne(s: Settings, k: Kind, process: string, thread: string, l: Launch)
    ensures |Launched(s, k, process, thread, l)| <= 1
  {
  }

  /** Collect relaunches every configured tool exactly when it finds no runner alive, that is after every
      earlier one has been reaped; otherwise it launches nothing and keeps exactly the live ones. */
  lemma RelaunchExactlyWhenAllReaped(s: Settings, o: Outside, b: Bpf, files: Files)
    ensures var after := CollectStep(s, o, b, files);
            if forall i :: 0 <= i < |b.runners| ==> !AliveAt(o, i) then
              && after.runners == StartedAll(s.outputDir, SlotsOf(b.offcpu, b.profile), o.launches)
              && after.launched == b.launched + Pending(after.runners)
            else after.runners == StillAlive(o, b.runners) && after.launched == b.launched
  {
    hide Reap, LaunchAll, StartedAll, SlotsOf;
    LaunchAllStartsSlots(s, o, b.offcpu, b.profile);
    ReapPartitions(s, o, b.runners, files);
    PendingNone();
    NoneAlive(o, b.runners);
  }

  lemma {:induction false} NoneAlive(o: Outside, rs: seq<RunnerEntry>)
    ensures StillAlive(o, rs) == [] <==> forall i :: 0 <= i < |rs| ==> !AliveAt(o, i)
  {
    if rs != [] {
      NoneAlive(o, Front(rs));
    }
  }

  /** The event names its tool's file by the writer's naming scheme. */
  ghost predicate WellNamed(s: Settings, ev: DiagEvent) {
    exists k, time :: k != Perf && ev.kind == KindName(k) == RotationPrefix(k)
                      && ev.filePath == FilePath(s.outputDir, k, MakeTag(ev.processName, ev.threadName), time)
  }

  ghost predicate AllWellNamed(s: Settings, rs: seq<RunnerEntry>) {
    forall i :: 0 <= i < |rs| ==> WellNamed(s, rs[i].pendingEv)
  }

  lemma LaunchedIsWellNamed(s: Settings, k: Kind, process: string, thread: string, l: Launch)
    requires k != Perf
    ensures AllWellNamed(s, Launched(s, k, process, thread, l))
  {
    hide FilePath, MakeTag;
    var ev := EventFor(s, k, process, thread, l);
    assert WellNamed(s, ev) by {
      assert ev.filePath == FilePath(s.outputDir, k, MakeTag(process, thread), l.fileTime);
    }
  }

  lemma {:induction false} LaunchAllIsWellNamed(s: Settings, o: Outside, offcpu: seq<OffcpuConfig>, profile: seq<ProfileConfig>)
    ensures AllWellNamed(s, LaunchAll(s, o, offcpu, profile))
    decreases |offcpu| + |profile|
  {
    hide WellNamed, Launched;
    OffcpusAreWellNamed(s, o, offcpu);
    ProfilesAreWellNamed(s, o, profile, |offcpu|);
  }

  lemma {:induction false} OffcpusAreWellNamed(s: Settings, o: Outside, cfgs: seq<OffcpuConfig>)
    ensures AllWellNamed(s, LaunchOffcpus(s, o, cfgs))
  {
    hide WellNamed, Launched;
    if cfgs != [] {
      OffcpusAreWellNamed(s, o, Front(cfgs));
      LaunchedIsWellNamed(s, Offcpu, Last(cfgs).process, Last(cfgs).thread, LaunchAt(o, |cfgs| - 1));
    }
  }

  lemma {:induction false} ProfilesAreWellNamed(s: Settings, o: Outside, cfgs: seq<ProfileConfig>, base: nat)
    ensures AllWellNamed(s, LaunchProfiles(s, o, cfgs, base))
  {
    hide WellNamed, Launched;
    if cfgs != [] {
      ProfilesAreWellNamed(s, o, Front(cfgs), base);
      LaunchedIsWellNamed(s, Profile, Last(cfgs).process, Last(cfgs).thread, LaunchAt(o, base + |cfgs| - 1));
    }
  }

  /** In every run, every event ever launched, and hence every event emitted, is named by the writer's scheme. */
  lemma {:induction false} EveryEventIsWellNamed(s: Settings, actions: seq<Action>)
    ensures forall ev :: ev in Run(s, actions).launched ==> WellNamed(s, ev)
    ensures forall ev :: ev in Run(s, actions).emitted ==> WellNamed(s, ev)
  {
    hide WellNamed, Reap, LaunchAll, Launched, MakeTag, FilePath;
    EveryLaunchIsAccounted(s, actions);
    if actions != [] {
      var b := Run(s, Front(actions));
      EveryEventIsWellNamed(s, Front(actions));
      match Last(actions)
      case StartOffcpu(cfg, l) => LaunchedIsWellNamed(s, Offcpu, cfg.process, cfg.thread, l);
      case StartProfile(cfg, l) => LaunchedIsWellNamed(s, Profile, cfg.process, cfg.thread, l);
      case Collect(o, files) => LaunchAllIsWellNamed(s, o, b.offcpu, b.profile);
      case Reset =>
    }
    EmittedWereLaunched(Run(s, actions));
  }

  lemma EmittedWereLaunched(b: Bpf)
    requires Accounted(b)
    ensures forall ev :: ev in b.emitted ==> ev in b.launched
  {
    forall ev | ev in b.emitted
      ensures ev in b.launched
    {
      assert ev in multiset(b.emitted);
      assert ev in multiset(b.launched);
    }
  }

  // ------------------------------------------------------------------------------------------
  // The class
  // ------------------------------------------------------------------------------------------

  class BpfDiagnoser {
    var events: seq<DiagEvent>
    const settings: Settings
    var runners: seq<RunnerEntry>
    var offcpuConfigs: seq<OffcpuConfig>
    var profileConfigs: seq<ProfileConfig>
    ghost var launched: seq<DiagEvent>
    ghost var emitted: seq<DiagEvent>
    ghost var dropped: seq<DiagEvent>
    ghost var actions: seq<Action>

    ghost function View(): Bpf
      reads this
    {
      Bpf(runners, offcpuConfigs, profileConfigs, events, launched, emitted, dropped)
    }

    ghost predicate Valid()
      reads this
    {
      View() == Run(settings, actions)
    }

    constructor (settings: Settings)
      ensures Valid() && actions == [] && this.settings == settings && events == []
    {
      this.settings := settings;
      events, runners, offcpuConfigs, profileConfigs := [], [], [], [];
      launched, emitted, dropped, actions := [], [], [], [];
    }

    /** `launch_offcpu` and `launch_profile`: start the tool and remember the event it will leave. */
    method LaunchTool(k: Kind, process: string, thread: string, l: Launch)
      modifies this`runners, this`launched
      ensures runners == old(runners) + Launched(settings, k, process, thread, l)
      ensures launched == old(launched) + Pending(Launched(settings, k, process, thread, l))
    {
      var tag := MakeTag(process, thread);
      var outFile := FilePath(settings.outputDir, k, tag, l.fileTime);
      if l.pid.Some? {
        var ev := DiagEvent(KindName(k), process, thread, outFile, l.eventTime, 0.0);
        runners := runners + [RunnerEntry(l.pid.value, ev)];
        launched := launched + [ev];
      }
    }

    method StartOffcpuTool(cfg: OffcpuConfig, l: Launch)
      requires Valid()
      modifies this
      ensures Valid() && actions == old(actions) + [StartOffcpu(cfg, l)]
    {
      hide Launched;
      FrontOfAppend(actions, StartOffcpu(cfg, l));
      actions := actions + [StartOffcpu(cfg, l)];
      offcpuConfigs := offcpuConfigs + [cfg];
      LaunchTool(Offcpu, cfg.process, cfg.thread, l);
    }

    method StartProfileTool(cfg: ProfileConfig, l: Launch)
      requires Valid()
      modifies this
      ensures Valid() && actions == old(actions) + [StartProfile(cfg, l)]
    {
      hide Launched;
      FrontOfAppend(actions, StartProfile(cfg, l));
      actions := actions + [StartProfile(cfg, l)];
      profileConfigs := profileConfigs + [cfg];
      LaunchTool(Profile, cfg.process, cfg.thread, l);
    }

    method ResetEvents()
      requires Valid()
      modifies this
      ensures Valid() && actions == old(actions) + [Reset] && events == []
    {
      FrontOfAppend(actions, Reset);
      actions := actions + [Reset];
      events := [];
    }

    /** The event buffers and the directory are where reaping so far has taken them from `before`. */
    ghost predicate Tracks(before: Bpf, r: Reaped, fs: FileStore)
      reads this, fs
    {
      && events == before.events + r.emitted && emitted == before.emitted + r.emitted
      && dropped == before.dropped + r.dropped && fs.files == r.files
    }

    /** A finished runner: emit and rotate if its file has data, otherwise drop it. */
    method Finish(entry: RunnerEntry, stuck: set<string>, fs: FileStore, ghost before: Bpf, ghost r: Reaped)
      requires Tracks(before, r, fs)
      modifies this`events, this`emitted, this`dropped, fs
      ensures Tracks(before, ReapOne(settings, stuck, false, entry, r), fs)
    {
      hide Rotated;
      var ev := entry.pendingEv;
      if ev.filePath in fs.files && fs.files[ev.filePath].size > 0 {
        events := events + [ev];
        emitted := emitted + [ev];
        CleanupFiles(fs, settings.outputDir, ev.kind, settings.limitFileNum, stuck);
      } else {
        dropped := dropped + [ev];
      }
    }

    /** The erase-while-iterating reaper: `polls` counts the runners it has asked about. */
    method ReapFinished(o: Outside, fs: FileStore) returns (polls: nat)
      modifies this`runners, this`events, this`emitted, this`dropped, fs
      ensures polls == |old(runners)|
      ensures runners == Reap(settings, o, old(runners), old(fs.files)).kept
      ensures Tracks(old(View()), Reap(settings, o, old(runners), old(fs.files)), fs)
    {
      hide ReapOne, Reap, Rotated;
      var it := 0;
      polls := 0;
      ghost var before, all, r := View(), runners, Reaped([], [], [], fs.files);
      ReapNothing(settings, o, fs.files);
      assert all[..0] == [];
      while it < |runners|
        invariant polls <= |all| && r == Reap(settings, o, all[..polls], old(fs.files))
        invariant it == |r.kept| && runners == r.kept + all[polls..]
        invariant Tracks(before, r, fs)
        decreases |all| - polls
      {
        var entry := runners[it];
        EraseOrAdvance(r.kept, all, polls);
        ReapNext(settings, o, all, polls, old(fs.files));
        KeptAfter(settings, o.stuck, AliveAt(o, polls), entry, r);
        if !AliveAt(o, polls) {
          Finish(entry, o.stuck, fs, before, r);
          runners := runners[..it] + runners[it + 1..];
        } else {
          it := it + 1;
        }
        r := ReapOne(settings, o.stuck, AliveAt(o, polls), entry, r);
        polls := polls + 1;
      }
      Exhausted(r.kept, all, polls);
    }

    method RelaunchOffcpus(o: Outside)
      modifies this`runners, this`launched
      ensures runners == old(runners) + LaunchOffcpus(settings, o, offcpuConfigs)
      ensures launched == old(launched) + Pending(LaunchOffcpus(settings, o, offcpuConfigs))
    {
      hide Launched, Pending;
      PendingNone();
      for i := 0 to |offcpuConfigs|
        invariant runners == old(runners) + LaunchOffcpus(settings, o, offcpuConfigs[..i])
        invariant launched == old(launched) + Pending(LaunchOffcpus(settings, o, offcpuConfigs[..i]))
      {
        var cfg := offcpuConfigs[i];
        assert Front(offcpuConfigs[..i + 1]) == offcpuConfigs[..i];
        PendingAppend(LaunchOffcpus(settings, o, offcpuConfigs[..i]), Launched(settings, Offcpu, cfg.process, cfg.thread, LaunchAt(o, i)));
        LaunchTool(Offcpu, cfg.process, cfg.thread, LaunchAt(o, i));
      }
      assert offcpuConfigs[..|offcpuConfigs|] == offcpuConfigs;
    }

    method RelaunchProfiles(o: Outside, base: nat)
      modifies this`runners, this`launched
      ensures runners == old(runners) + LaunchProfiles(settings, o, profileConfigs, base)
      ensures launched == old(launched) + Pending(LaunchProfiles(settings, o, profileConfigs, base))
    {
      hide Launched, Pending;
      PendingNone();
      for i := 0 to |profileConfigs|
        invariant runners == old(runners) + LaunchProfiles(settings, o, profileConfigs[..i], base)
        invariant launched == old(launched) + Pending(LaunchProfiles(settings, o, profileConfigs[..i], base))
      {
        var cfg := profileConfigs[i];
        assert Front(profileConfigs[..i + 1]) == profileConfigs[..i];
        PendingAppend(LaunchProfiles(settings, o, profileConfigs[..i], base),
                      Launched(settings, Profile, cfg.process, cfg.thread, LaunchAt(o, base + i)));
        LaunchTool(Profile, cfg.process, cfg.thread, LaunchAt(o, base + i));
      }
      assert profileConfigs[..|profileConfigs|] == profileConfigs;
    }

    method RelaunchAll(o: Outside)
      modifies this`runners, this`launched
      ensures runners == old(runners) + LaunchAll(settings, o, offcpuConfigs, profileConfigs)
      ensures launched == old(launched) + Pending(LaunchAll(settings, o, offcpuConfigs, profileConfigs))
    {
      hide LaunchOffcpus, LaunchProfiles, Pending;
      PendingAppend(LaunchOffcpus(settings, o, offcpuConfigs), LaunchProfiles(settings, o, profileConfigs, |offcpuConfigs|));
      RelaunchOffcpus(o);
      RelaunchProfiles(o, |offcpuConfigs|);
    }

    method CollectEvents(o: Outside, fs: FileStore)
      requires Valid()
      modifies this, fs
      ensures Valid() && actions == old(actions) + [Collect(o, old(fs.files))]
      ensures events == old(events) + Reap(settings, o, old(runners), old(fs.files)).emitted
      ensures fs.files == Reap(settings, o, old(runners), old(fs.files)).files
    {
      hide Reap, LaunchAll, Pending;
      PendingNone();
      FrontOfAppend(actions, Collect(o, fs.files));
      actions := actions + [Collect(o, fs.files)];
      var polls := ReapFinished(o, fs);
      NothingConfigured(settings, o);
      if runners == [] && (offcpuConfigs != [] || profileConfigs != []) {
        RelaunchAll(o);
      }
    }
  }

  lemma EraseOrAdvance<T>(kept: seq<T>, all: seq<T>, i: nat)
    requires i < |all|
    ensures var s := kept + all[i..];
            && s[|kept|] == all[i]
            && s[..|kept|] + s[|kept| + 1..] == kept + all[i + 1..]
            && s == kept + [all[i]] + all[i + 1..]
  {
  }

  lemma Exhausted<T>(kept: seq<T>, all: seq<T>, i: nat)
    requires i <= |all| && |kept + all[i..]| <= |kept|
    ensures i == |all| && all[..i] == all && kept + all[i..] == kept
  {
  }

  lemma KeptAfter(s: Settings, stuck: set<string>, alive: bool, e: RunnerEntry, r: Reaped)
    ensures ReapOne(s, stuck, alive, e, r).kept == r.kept + (if alive then [e] else [])
    ensures alive ==> ReapOne(s, stuck, alive, e, r) == r.(kept := r.kept + [e])
  {
  }

  lemma ReapNothing(s: Settings, o: Outside, files: Files)
    ensures Reap(s, o, [], files) == Reaped([], [], [], files)
  {
  }

  lemma ReapNext(s: Settings, o: Outside, rs: seq<RunnerEntry>, i: nat, files: Files)
    requires i < |rs|
    ensures Reap(s, o, rs[..i + 1], files) == ReapOne(s, o.stuck, AliveAt(o, i), rs[i], Reap(s, o, rs[..i], files))
  {
    assert Front(rs[..i + 1]) == rs[..i];
  }

  lemma NothingConfigured(s: Settings, o: Outside)
    ensures LaunchAll(s, o, [], []) == []
  {
  }
}
