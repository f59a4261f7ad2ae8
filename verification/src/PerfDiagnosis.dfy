/** The debounced trigger of `perf record` (worker/src/diagnose/perf_diagnoser.cpp): each round of the
    worker loop settles a finished recording, then samples every target process. */
module PerfDiagnosis {
  import opened Words
  import opened Collections
  import opened Diagnosis
  import opened FileNames
  import opened Rotation

  const SAMPLE_PERIOD_S: int := 5

  datatype Settings = Settings(outputDir: string, thresholdPct: int, durationS: int, limitFileNum: int,
                               targets: seq<string>)

  /** One target in one round: not running, or a CPU reading (negative when there is no delta yet), the
      clock tick rate, and what forking and the clock would answer. */
  datatype Reading =
    | NoProcess
    | Sample(raw: real, hz: int, forkOk: bool, fileTime: I64, eventTime: I64)

  /** What one round finds outside: whether the recorder is alive, the readings by target position, and
      the paths that cannot be unlinked. */
  datatype Outside = Outside(recording: bool, readings: seq<Reading>, stuck: set<string>)

  function ReadingAt(o: Outside, i: nat): Reading {
    if i < |o.readings| then o.readings[i] else NoProcess
  }

  predicate ValidReading(r: Reading) {
    r.Sample? && r.raw >= 0.0
  }

  /** The reading scaled from clock ticks to milliseconds. */
  function CpuPct(r: Reading): real
    requires r.Sample?
  {
    if r.hz > 0 then r.raw * 1000.0 / r.hz as real else r.raw
  }

  function TagOf(process: string): string {
    process + "_proc"
  }

  function EventFor(s: Settings, process: string, r: Reading): DiagEvent
    requires r.Sample?
  {
    DiagEvent("perf", process, "", FilePath(s.outputDir, Perf, process, r.fileTime), r.eventTime, CpuPct(r))
  }

  // ------------------------------------------------------------------------------------------
  // Specification
  // ------------------------------------------------------------------------------------------

  /** The history: a valid sample of a tag, with the event it launched and the pending event that one replaced,
      or a finished recording. */
  datatype Note =
    | Sampled(tag: string, hit: bool, attempted: bool, launched: Option<DiagEvent>, overwrote: Option<DiagEvent>)
    | Settled(event: DiagEvent, emitted: bool)

  datatype PerfState = PerfState(timers: map<string, int>, triggered: set<string>, pending: Option<DiagEvent>,
                                 events: seq<DiagEvent>, notes: seq<Note>)

  const IDLE: PerfState := PerfState(map[], {}, None, [], [])

  function TimerOf(p: PerfState, tag: string): int {
    if tag in p.timers then p.timers[tag] else 0
  }

  /** A finished recording emits its event if its file has data, rotates, and re-arms every tag. */
  function SettleStep(o: Outside, p: PerfState, files: Files): PerfState {
    if p.triggered == {} || o.recording then p
    else match p.pending
      case None => p.(triggered := {})
      case Some(ev) =>
        var data := HasData(files, ev.filePath);
        PerfState(p.timers, {}, None, p.events + (if data then [ev] else []), p.notes + [Settled(ev, data)])
  }

  function SettleFiles(s: Settings, o: Outside, p: PerfState, files: Files): Files {
    if p.triggered == {} || o.recording || p.pending.None? then files
    else Rotated(files, s.outputDir, "perf_", s.limitFileNum, o.stuck)
  }

  function SampleStep(s: Settings, p: PerfState, process: string, r: Reading): PerfState {
    var tag := TagOf(process);
    if tag in p.triggered || !ValidReading(r) then p
    else
      var hit := CpuPct(r) >= s.thresholdPct as real;
      var timer := if hit then TimerOf(p, tag) + SAMPLE_PERIOD_S else 0;
      if timer < s.durationS then
        p.(timers := p.timers[tag := timer], notes := p.notes + [Sampled(tag, hit, false, None, None)])
      else if !r.forkOk then
        p.(timers := p.timers[tag := 0], notes := p.notes + [Sampled(tag, hit, true, None, None)])
      else
        var ev := EventFor(s, process, r);
        PerfState(p.timers[tag := 0], p.triggered + {tag}, Some(ev), p.events,
                  p.notes + [Sampled(tag, hit, true, Some(ev), p.pending)])
  }

  function SampleAll(s: Settings, o: Outside, p: PerfState, targets: seq<string>): PerfState {
    if targets == [] then p
    else SampleStep(s, SampleAll(s, o, p, Front(targets)), Last(targets), ReadingAt(o, |targets| - 1))
  }

  datatype Action =
    | Round(outside: Outside, files: Files)
    | Reset

  function Step(s: Settings, p: PerfState, a: Action): PerfState {
    match a
    case Round(o, files) => SampleAll(s, o, SettleStep(o, p, files), s.targets)
    case Reset => p.(events := [])
  }

  ghost function Run(s: Settings, actions: seq<Action>): PerfState {
    if actions == [] then IDLE else Step(s, Run(s, Front(actions)), Last(actions))
  }

  // ------------------------------------------------------------------------------------------
  // Debouncing, tag by tag
  // ------------------------------------------------------------------------------------------

  datatype Verdict = Verdict(hit: bool, attempted: bool)

  /** The valid samples of one tag, in order. */
  function TagLog(notes: seq<Note>, tag: string): seq<Verdict> {
    if notes == [] then []
    else TagLog(Front(notes), tag)
         + (if Last(notes).Sampled? && Last(notes).tag == tag then [Verdict(Last(notes).hit, Last(notes).attempted)] else [])
  }

  /** ceil(duration / 5), or 0 for a non-positive duration. */
  function SamplesNeeded(durationS: int): (n: nat)
    ensures 5 * n >= durationS && (n > 0 ==> 5 * (n - 1) < durationS)
  {
    if durationS <= 0 then 0 else (durationS + SAMPLE_PERIOD_S - 1) / SAMPLE_PERIOD_S
  }

  /** The latest `n` samples up to the i-th all reached the threshold, and no attempt lies before it among them. */
  predicate Due(log: seq<Verdict>, i: nat, n: nat)
    requires i < |log|
  {
    && n <= i + 1
    && (forall j :: i + 1 - n <= j <= i ==> log[j].hit)
    && (forall j :: i + 1 - n <= j < i ==> !log[j].attempted)
  }

  /** A launch is attempted at a sample exactly when it is due. */
  ghost predicate Debounced(log: seq<Verdict>, n: nat) {
    forall i :: 0 <= i < |log| ==> (log[i].attempted <==> Due(log, i, n))
  }

  /** How many samples in a row, up to the latest, reached the threshold without an attempt. */
  function Trailing(log: seq<Verdict>): nat {
    if log == [] || !Last(log).hit || Last(log).attempted then 0 else 1 + Trailing(Front(log))
  }

  lemma {:induction false} TrailingMeans(log: seq<Verdict>, m: nat)
    ensures Trailing(log) >= m
            <==> m <= |log| && forall j :: |log| - m <= j < |log| ==> log[j].hit && !log[j].attempted
  {
    if log != [] && m > 0 {
      TrailingMeans(Front(log), m - 1);
      assert Last(log) == log[|log| - 1];
      assert forall j :: 0 <= j < |log| - 1 ==> Front(log)[j] == log[j];
    }
  }

  lemma DueForLatest(log: seq<Verdict>, v: Verdict, n: nat)
    requires n > 0
    ensures Due(log + [v], |log|, n) <==> v.hit && Trailing(log) >= n - 1
  {
    TrailingMeans(log, n - 1);
    assert (log + [v])[|log|] == v;
    assert forall j :: 0 <= j < |log| ==> (log + [v])[j] == log[j];
    if v.hit && Trailing(log) >= n - 1 {
      assert forall j :: |log| + 1 - n <= j < |log| ==> log[j].hit && !log[j].attempted;
    }
  }

  lemma DueForEarlier(log: seq<Verdict>, v: Verdict, i: nat, n: nat)
    requires i < |log|
    ensures Due(log + [v], i, n) <==> Due(log, i, n)
  {
    assert forall j :: 0 <= j < |log| ==> (log + [v])[j] == log[j];
  }

  lemma TimerCountsSamples(t: nat, d: int)
    requires d > 0
    ensures SAMPLE_PERIOD_S * t >= d <==> t >= SamplesNeeded(d)
    ensures SamplesNeeded(d) > 0
  {
  }

  /** The timer rule decides as the window rule does. */
  lemma DebounceNext(log: seq<Verdict>, v: Verdict, d: int)
    requires Debounced(log, SamplesNeeded(d))
    requires v.attempted <==> (if v.hit then SAMPLE_PERIOD_S * (Trailing(log) + 1) else 0) >= d
    ensures Debounced(log + [v], SamplesNeeded(d))
  {
    hide Trailing;
    var n, log' := SamplesNeeded(d), log + [v];
    if d > 0 {
      TimerCountsSamples(Trailing(log) + 1, d);
      DueForLatest(log, v, n);
    }
    forall i | 0 <= i < |log|
      ensures log'[i].attempted <==> Due(log', i, n)
    {
      DueForEarlier(log, v, i, n);
    }
    assert log'[|log|] == v;
  }

  /** What the machine keeps about one tag. */
  ghost predicate TagInv(s: Settings, p: PerfState, tag: string) {
    var log := TagLog(p.notes, tag);
    && Debounced(log, SamplesNeeded(s.durationS))
    && TimerOf(p, tag) == SAMPLE_PERIOD_S * Trailing(log)
    && (if s.durationS > 0 then 0 <= TimerOf(p, tag) < s.durationS else TimerOf(p, tag) == 0)
  }

  lemma TagLogAppend(notes: seq<Note>, n: Note, tag: string)
    ensures TagLog(notes + [n], tag)
            == TagLog(notes, tag) + (if n.Sampled? && n.tag == tag then [Verdict(n.hit, n.attempted)] else [])
  {
    FrontOfAppend(notes, n);
  }

  lemma TrailingAppend(log: seq<Verdict>, v: Verdict)
    ensures Trailing(log + [v]) == if v.hit && !v.attempted then Trailing(log) + 1 else 0
  {
    FrontOfAppend(log, v);
  }

  lemma SampleKeepsTag(s: Settings, p: PerfState, process: string, r: Reading, tag: string)
    requires TagInv(s, p, tag)
    ensures TagInv(s, SampleStep(s, p, process, r), tag)
  {
    hide TagLog, Trailing, Debounced, CpuPct, EventFor;
    var p' := SampleStep(s, p, process, r);
    if p' != p {
      var note := Last(p'.notes);
      assert p'.notes == p.notes + [note];
      TagLogAppend(p.notes, note, tag);
      if note.tag == tag {
        var log, v := TagLog(p.notes, tag), Verdict(note.hit, note.attempted);
        TrailingAppend(log, v);
        DebounceNext(log, v, s.durationS);
      } else {
        assert TagLog(p.notes, tag) + [] == TagLog(p.notes, tag);
      }
    }
  }

  lemma SettleKeepsTag(s: Settings, o: Outside, p: PerfState, files: Files, tag: string)
    requires TagInv(s, p, tag)
    ensures TagInv(s, SettleStep(o, p, files), tag)
  {
    hide Trailing, Debounced, HasData;
    if p.pending.Some? {
      TagLogAppend(p.notes, Settled(p.pending.value, true), tag);
      TagLogAppend(p.notes, Settled(p.pending.value, false), tag);
    }
    assert TagLog(p.notes, tag) + [] == TagLog(p.notes, tag);
  }

  lemma {:induction false} SampleAllKeepsTag(s: Settings, o: Outside, p: PerfState, targets: seq<string>, tag: string)
    requires TagInv(s, p, tag)
    ensures TagInv(s, SampleAll(s, o, p, targets), tag)
  {
    hide TagInv, SampleStep;
    if targets != [] {
      SampleAllKeepsTag(s, o, p, Front(targets), tag);
      SampleKeepsTag(s, SampleAll(s, o, p, Front(targets)), Last(targets), ReadingAt(o, |targets| - 1), tag);
    }
  }

  /** Debounce exactness, over every run and for every tag: a launch is attempted at a valid sample if and
      only if the latest ceil(D/5) valid samples since the previous attempt all reached the threshold, and
      the tag's timer is always a multiple of 5 in [0, D), or 0 when D is not positive. */
  lemma {:induction false} DebounceIsExact(s: Settings, actions: seq<Action>, tag: string)
    ensures var p := Run(s, actions);
            && Debounced(TagLog(p.notes, tag), SamplesNeeded(s.durationS))
            && TimerOf(p, tag) % SAMPLE_PERIOD_S == 0
            && (if s.durationS > 0 then 0 <= TimerOf(p, tag) < s.durationS else TimerOf(p, tag) == 0)
  {
    RunKeepsTag(s, actions, tag);
  }

  lemma {:induction false} RunKeepsTag(s: Settings, actions: seq<Action>, tag: string)
    ensures TagInv(s, Run(s, actions), tag)
  {
    hide SettleStep, SampleAll;
    if actions != [] {
      var p := Run(s, Front(actions));
      RunKeepsTag(s, Front(actions), tag);
      match Last(actions)
      case Round(o, files) =>
        SettleKeepsTag(s, o, p, files, tag);
        SampleAllKeepsTag(s, o, SettleStep(o, p, files), s.targets, tag);
      case Reset =>
    }
  }

  // ------------------------------------------------------------------------------------------
  // Launches, settlements and overwritten events
  // ------------------------------------------------------------------------------------------

  function Gather(f: Note -> seq<DiagEvent>, notes: seq<Note>): seq<DiagEvent> {
    if notes == [] then [] else Gather(f, Front(notes)) + f(Last(notes))
  }

  function One(e: Option<DiagEvent>): seq<DiagEvent> {
    if e.Some? then [e.value] else []
  }

  function LaunchedBy(n: Note): seq<DiagEvent> { if n.Sampled? then One(n.launched) else [] }
  function OverwrittenBy(n: Note): seq<DiagEvent> { if n.Sampled? then One(n.overwrote) else [] }
  function EmittedBy(n: Note): seq<DiagEvent> { if n.Settled? && n.emitted then [n.event] else [] }
  function DroppedBy(n: Note): seq<DiagEvent> { if n.Settled? && !n.emitted then [n.event] else [] }

  /** The events ever launched; a launch is settled as emitted or dropped, or overwritten by a later one. */
  function LaunchedIn(p: PerfState): seq<DiagEvent> { Gather(LaunchedBy, p.notes) }
  function OverwrittenIn(p: PerfState): seq<DiagEvent> { Gather(OverwrittenBy, p.notes) }
  function EmittedIn(p: PerfState): seq<DiagEvent> { Gather(EmittedBy, p.notes) }
  function DroppedIn(p: PerfState): seq<DiagEvent> { Gather(DroppedBy, p.notes) }

  predicate IsLaunch(n: Note) { n.Sampled? && n.launched.Some? }

  lemma GatherAppend(f: Note -> seq<DiagEvent>, notes: seq<Note>, n: Note)
    ensures Gather(f, notes + [n]) == Gather(f, notes) + f(n)
  {
    FrontOfAppend(notes, n);
  }

  /** Two launches of one tag always have a settled recording between them. */
  ghost predicate LaunchesSeparated(notes: seq<Note>) {
    forall i, j :: 0 <= i < j < |notes| && IsLaunch(notes[i]) && IsLaunch(notes[j]) && notes[i].tag == notes[j].tag
      ==> exists k :: i < k < j && notes[k].Settled?
  }

  /** Every tag launched since the latest settlement is still in the triggered set. */
  ghost predicate LaunchedSinceSettled(p: PerfState) {
    forall i :: 0 <= i < |p.notes| && IsLaunch(p.notes[i]) && p.notes[i].tag !in p.triggered
      ==> exists k :: i < k < |p.notes| && p.notes[k].Settled?
  }

  ghost predicate TriggerInv(p: PerfState) {
    && (p.pending.Some? <==> p.triggered != {})
    && (p.pending.Some? ==> TagOf(p.pending.value.processName) in p.triggered)
    && LaunchesSeparated(p.notes) && LaunchedSinceSettled(p)
  }

  ghost predicate Balanced(p: PerfState) {
    && multiset(LaunchedIn(p))
       == multiset(EmittedIn(p)) + multiset(DroppedIn(p)) + multiset(OverwrittenIn(p)) + multiset(One(p.pending))
    && |p.events| <= |EmittedIn(p)| && p.events == EmittedIn(p)[|EmittedIn(p)| - |p.events|..]
  }

  lemma NoteKeepsSeparated(p: PerfState, p': PerfState, n: Note)
    requires LaunchesSeparated(p.notes) && LaunchedSinceSettled(p)
    requires p'.notes == p.notes + [n]
    requires IsLaunch(n) ==> n.tag !in p.triggered && n.tag in p'.triggered
    requires n.Settled? || p.triggered <= p'.triggered
    ensures LaunchesSeparated(p'.notes) && LaunchedSinceSettled(p')
  {
    var before, after := p.notes, p'.notes;
    assert forall i :: 0 <= i < |before| ==> after[i] == before[i];
    assert after[|before|] == n;
    forall i, j | 0 <= i < j < |after| && IsLaunch(after[i]) && IsLaunch(after[j]) && after[i].tag == after[j].tag
      ensures exists k :: i < k < j && after[k].Settled?
    {
      var k :| i < k < j && before[k].Settled?;
      assert after[k].Settled?;
    }
    forall i | 0 <= i < |after| && IsLaunch(after[i]) && after[i].tag !in p'.triggered
      ensures exists k :: i < k < |after| && after[k].Settled?
    {
      if n.Settled? {
        assert after[|before|].Settled?;
      } else {
        var k :| i < k < |before| && before[k].Settled?;
        assert after[k].Settled?;
      }
    }
  }

  lemma SampleKeepsTriggers(s: Settings, p: PerfState, process: string, r: Reading)
    requires TriggerInv(p) && Balanced(p)
    ensures TriggerInv(SampleStep(s, p, process, r)) && Balanced(SampleStep(s, p, process, r))
  {
    hide LaunchesSeparated, LaunchedSinceSettled, Balanced, SampleStep;
    var p' := SampleStep(s, p, process, r);
    SampleEffect(s, p, process, r);
    if p' != p {
      NoteKeepsSeparated(p, p', Last(p'.notes));
      SampleKeepsBalance(p, p', Last(p'.notes));
    }
  }

  lemma SampleKeepsBalance(p: PerfState, p': PerfState, n: Note)
    requires Balanced(p) && n.Sampled?
    requires p'.events == p.events && p'.notes == p.notes + [n]
    requires if n.launched.Some? then n.overwrote == p.pending && p'.pending == n.launched
             else n.overwrote.None? && p'.pending == p.pending
    ensures Balanced(p')
  {
    hide Gather, LaunchedIn, EmittedIn, DroppedIn, OverwrittenIn;
    SampledParts(p, p', n);
  }

  lemma SampledParts(p: PerfState, p': PerfState, n: Note)
    requires n.Sampled? && p'.notes == p.notes + [n]
    ensures LaunchedIn(p') == LaunchedIn(p) + One(n.launched) && OverwrittenIn(p') == OverwrittenIn(p) + One(n.overwrote)
    ensures EmittedIn(p') == EmittedIn(p) && DroppedIn(p') == DroppedIn(p)
  {
    hide Gather;
    GatherAll(p.notes, n);
  }

  /** What a sample does to the triggers: nothing, or one note; a launch triggers its tag and replaces the
      pending event, which is noted as overwritten when there was one. */
  lemma SampleEffect(s: Settings, p: PerfState, process: string, r: Reading)
    ensures var p' := SampleStep(s, p, process, r);
            p'.events == p.events
            && (p' == p
                || (p'.notes != [] && p'.notes == p.notes + [Last(p'.notes)] && Last(p'.notes).Sampled?
                    && Last(p'.notes).tag == TagOf(process)
                    && if Last(p'.notes).launched.Some? then
                         && TagOf(process) !in p.triggered && p'.triggered == p.triggered + {TagOf(process)}
                         && p'.pending == Last(p'.notes).launched && p'.pending.value.processName == process
                         && Last(p'.notes).overwrote == p.pending
                       else Last(p'.notes).overwrote.None? && p'.triggered == p.triggered && p'.pending == p.pending))
  {
    hide CpuPct, FilePath, TagOf;
  }

  lemma GatherAll(notes: seq<Note>, n: Note)
    ensures Gather(LaunchedBy, notes + [n]) == Gather(LaunchedBy, notes) + LaunchedBy(n)
    ensures Gather(EmittedBy, notes + [n]) == Gather(EmittedBy, notes) + EmittedBy(n)
    ensures Gather(DroppedBy, notes + [n]) == Gather(DroppedBy, notes) + DroppedBy(n)
    ensures Gather(OverwrittenBy, notes + [n]) == Gather(OverwrittenBy, notes) + OverwrittenBy(n)
  {
    GatherAppend(LaunchedBy, notes, n);
    GatherAppend(EmittedBy, notes, n);
    GatherAppend(DroppedBy, notes, n);
    GatherAppend(OverwrittenBy, notes, n);
  }

  lemma SettleKeepsTriggers(o: Outside, p: PerfState, files: Files)
    requires TriggerInv(p) && Balanced(p)
    ensures TriggerInv(SettleStep(o, p, files)) && Balanced(SettleStep(o, p, files))
  {
    hide LaunchesSeparated, LaunchedSinceSettled, HasData, Balanced;
    var p' := SettleStep(o, p, files);
    if p' != p {
      var n := Last(p'.notes);
      assert p'.notes == p.notes + [n];
      NoteKeepsSeparated(p, p', n);
      SettleKeepsBalance(p, p', n);
    }
  }

  lemma SettleKeepsBalance(p: PerfState, p': PerfState, n: Note)
    requires Balanced(p) && n.Settled? && p.pending == Some(n.event)
    requires p'.pending.None? && p'.notes == p.notes + [n] && p'.events == p.events + EmittedBy(n)
    ensures Balanced(p')
  {
    hide LaunchedIn, EmittedIn, DroppedIn, OverwrittenIn, Gather;
    SettledParts(p, p', n);
    if n.emitted {
      assert p'.events == EmittedIn(p')[|EmittedIn(p')| - |p'.events|..];
    }
  }

  lemma SettledParts(p: PerfState, p': PerfState, n: Note)
    requires n.Settled? && p'.notes == p.notes + [n]
    ensures EmittedIn(p') == EmittedIn(p) + EmittedBy(n) && DroppedIn(p') == DroppedIn(p) + DroppedBy(n)
    ensures LaunchedIn(p') == LaunchedIn(p) && OverwrittenIn(p') == OverwrittenIn(p)
  {
    hide Gather;
    GatherAll(p.notes, n);
  }

  lemma {:induction false} SampleAllKeepsTriggers(s: Settings, o: Outside, p: PerfState, targets: seq<string>)
    requires TriggerInv(p) && Balanced(p)
    ensures TriggerInv(SampleAll(s, o, p, targets)) && Balanced(SampleAll(s, o, p, targets))
  {
    hide TriggerInv, Balanced, SampleStep;
    if targets != [] {
      SampleAllKeepsTriggers(s, o, p, Front(targets));
      SampleKeepsTriggers(s, SampleAll(s, o, p, Front(targets)), Last(targets), ReadingAt(o, |targets| - 1));
    }
  }

  /** At every loop head: an event is pending exactly when some tag is triggered, and its own tag is; no tag
      is launched twice without a settled recording between; every event launched is emitted, dropped for an
      empty file, overwritten by a later one, or the one pending; and the events waiting for a push are the
      latest emitted. */
  lemma {:induction false} LaunchesAreAccounted(s: Settings, actions: seq<Action>)
    ensures TriggerInv(Run(s, actions)) && Balanced(Run(s, actions))
  {
    hide LaunchesSeparated, LaunchedSinceSettled, SampleAll, SettleStep;
    if actions == [] {
      NothingYet();
    } else {
      var p := Run(s, Front(actions));
      LaunchesAreAccounted(s, Front(actions));
      match Last(actions)
      case Round(o, files) =>
        SettleKeepsTriggers(o, p, files);
        SampleAllKeepsTriggers(s, o, SettleStep(o, p, files), s.targets);
      case Reset => ResetKeepsTriggers(p);
    }
  }

  lemma NothingYet()
    ensures TriggerInv(IDLE) && Balanced(IDLE)
  {
  }

  lemma ResetKeepsTriggers(p: PerfState)
    requires TriggerInv(p)
    ensures TriggerInv(p.(events := []))
  {
  }

  /** Settling a recording leaves at most the configured number of perf files, and nothing else touches a file. */
  lemma SettlingRotates(s: Settings, o: Outside, p: PerfState, files: Files)
    ensures SettleStep(o, p, files).notes == p.notes ==> SettleFiles(s, o, p, files) == files
    ensures s.limitFileNum > 0 && o.stuck == {} ==> |SettleStep(o, p, files).notes| > |p.notes| ==>
              |Matching(SettleFiles(s, o, p, files), s.outputDir, RotationPrefix(Perf))| <= s.limitFileNum
  {
    hide Matching, Rotated;
    RotationCorrect(files, s.outputDir, "perf_", s.limitFileNum);
  }

  // ------------------------------------------------------------------------------------------
  // One target name: nothing is ever overwritten
  // ------------------------------------------------------------------------------------------

  ghost predicate OnlyTag(p: PerfState, tag: string) {
    p.triggered <= {tag} && OverwrittenIn(p) == []
  }

  lemma {:induction false} SampleAllOneName(s: Settings, o: Outside, p: PerfState, targets: seq<string>, name: string)
    requires TriggerInv(p) && Balanced(p) && OnlyTag(p, TagOf(name))
    requires forall i :: 0 <= i < |targets| ==> targets[i] == name
    ensures OnlyTag(SampleAll(s, o, p, targets), TagOf(name))
  {
    hide LaunchesSeparated, LaunchedSinceSettled, CpuPct, Balanced, FilePath;
    if targets != [] {
      var p0, r := SampleAll(s, o, p, Front(targets)), ReadingAt(o, |targets| - 1);
      SampleAllOneName(s, o, p, Front(targets), name);
      SampleAllKeepsTriggers(s, o, p, Front(targets));
      var p' := SampleStep(s, p0, name, r);
      if p' != p0 {
        assert p'.notes == p0.notes + [Last(p'.notes)];
        GatherAll(p0.notes, Last(p'.notes));
      }
    }
  }

  /** When all targets share one name, no pending event is ever overwritten. */
  lemma {:induction false} OneNameNeverOverwrites(s: Settings, actions: seq<Action>, name: string)
    requires forall i :: 0 <= i < |s.targets| ==> s.targets[i] == name
    ensures OnlyTag(Run(s, actions), TagOf(name))
  {
    hide SampleAll, TriggerInv, Balanced, HasData;
    if actions != [] {
      var p := Run(s, Front(actions));
      OneNameNeverOverwrites(s, Front(actions), name);
      LaunchesAreAccounted(s, Front(actions));
      match Last(actions)
      case Round(o, files) =>
        var p0 := SettleStep(o, p, files);
        SettleKeepsTriggers(o, p, files);
        if p.pending.Some? {
          GatherAll(p.notes, Settled(p.pending.value, true));
          GatherAll(p.notes, Settled(p.pending.value, false));
        }
        SampleAllOneName(s, o, p0, s.targets, name);
      case Reset =>
    }
  }

  // ------------------------------------------------------------------------------------------
  // The files recordings are named after
  // ------------------------------------------------------------------------------------------

  /** The event names its recording by the writer's naming scheme. */
  ghost predicate WellNamed(s: Settings, ev: DiagEvent) {
    ev.kind == KindName(Perf) && exists time :: ev.filePath == FilePath(s.outputDir, Perf, MakeTag(ev.processName, ""), time)
  }

  ghost predicate AllWellNamed(s: Settings, events: seq<DiagEvent>) {
    forall ev :: ev in events ==> WellNamed(s, ev)
  }

  lemma RecordingIsWellNamed(s: Settings, process: string, r: Reading)
    requires r.Sample?
    ensures WellNamed(s, EventFor(s, process, r))
  {
    hide FilePath, CpuPct;
    assert process + "" == process;
    assert EventFor(s, process, r).filePath == FilePath(s.outputDir, Perf, MakeTag(process, ""), r.fileTime);
  }

  lemma SampleLaunches(s: Settings, p: PerfState, process: string, r: Reading)
    ensures var after := LaunchedIn(SampleStep(s, p, process, r));
            after == LaunchedIn(p) || (r.Sample? && after == LaunchedIn(p) + [EventFor(s, process, r)])
  {
    hide Gather, CpuPct, EventFor;
    var p' := SampleStep(s, p, process, r);
    if p' != p {
      GatherAppend(LaunchedBy, p.notes, Last(p'.notes));
    }
  }

  lemma {:induction false} SampleAllWellNamed(s: Settings, o: Outside, p: PerfState, targets: seq<string>)
    requires AllWellNamed(s, LaunchedIn(p))
    ensures AllWellNamed(s, LaunchedIn(SampleAll(s, o, p, targets)))
  {
    hide WellNamed, EventFor, LaunchedIn, SampleStep;
    if targets != [] {
      SampleAllWellNamed(s, o, p, Front(targets));
      var r := ReadingAt(o, |targets| - 1);
      SampleLaunches(s, SampleAll(s, o, p, Front(targets)), Last(targets), r);
      if r.Sample? {
        RecordingIsWellNamed(s, Last(targets), r);
      }
    }
  }

  lemma SettlingLaunchesNothing(o: Outside, p: PerfState, files: Files)
    ensures LaunchedIn(SettleStep(o, p, files)) == LaunchedIn(p)
  {
    hide Gather, HasData;
    if p.pending.Some? {
      GatherAll(p.notes, Settled(p.pending.value, true));
      GatherAll(p.notes, Settled(p.pending.value, false));
    }
  }

  lemma {:induction false} LaunchedAreWellNamed(s: Settings, actions: seq<Action>)
    ensures AllWellNamed(s, LaunchedIn(Run(s, actions)))
  {
    hide WellNamed, SampleAll, SettleStep, HasData;
    if actions != [] {
      var p := Run(s, Front(actions));
      LaunchedAreWellNamed(s, Front(actions));
      match Last(actions)
      case Round(o, files) =>
        SettlingLaunchesNothing(o, p, files);
        SampleAllWellNamed(s, o, SettleStep(o, p, files), s.targets);
      case Reset =>
    }
  }

  /** In every run, every event ever launched, and hence the pending one, every event emitted and every event
      waiting for a push, is named by the writer's scheme. */
  lemma EveryEventIsWellNamed(s: Settings, actions: seq<Action>)
    ensures var p := Run(s, actions);
            && AllWellNamed(s, LaunchedIn(p)) && AllWellNamed(s, EmittedIn(p)) && AllWellNamed(s, p.events)
            && (p.pending.Some? ==> WellNamed(s, p.pending.value))
  {
    hide WellNamed, Run, TriggerInv, LaunchedIn, EmittedIn, DroppedIn, OverwrittenIn;
    LaunchedAreWellNamed(s, actions);
    LaunchesAreAccounted(s, actions);
    OthersWereLaunched(Run(s, actions));
  }

  lemma OthersWereLaunched(p: PerfState)
    requires Balanced(p)
    ensures forall ev :: ev in EmittedIn(p) ==> ev in LaunchedIn(p)
    ensures forall ev :: ev in p.events ==> ev in EmittedIn(p)
    ensures p.pending.Some? ==> p.pending.value in LaunchedIn(p)
  {
    hide LaunchedIn, EmittedIn, DroppedIn, OverwrittenIn;
    var all := multiset(LaunchedIn(p));
    forall ev | ev in EmittedIn(p)
      ensures ev in LaunchedIn(p)
    {
      assert ev in multiset(EmittedIn(p));
      assert ev in all;
    }
    if p.pending.Some? {
      assert p.pending.value in multiset(One(p.pending));
      assert p.pending.value in all;
    }
  }

  // ------------------------------------------------------------------------------------------
  // What a round emits
  // ------------------------------------------------------------------------------------------

  function Emission(o: Outside, p: PerfState, files: Files): seq<DiagEvent> {
    if p.triggered != {} && !o.recording && p.pending.Some? && HasData(files, p.pending.value.filePath)
    then [p.pending.value] else []
  }

  /** A round's emissions are exactly what it adds to the events waiting for a push. */
  lemma RoundEmits(s: Settings, o: Outside, p: PerfState, files: Files)
    ensures var p' := Step(s, p, Round(o, files));
            var settled := if p.triggered != {} && !o.recording && p.pending.Some? && p.pending.value.filePath in files
                              && files[p.pending.value.filePath].size > 0 then [p.pending.value] else [];
            && Emission(o, p, files) == settled
            && p'.events == p.events + settled
            && EmittedIn(p') == EmittedIn(p) + settled
  {
    hide Gather, SampleAll;
    if p.pending.Some? {
      GatherAll(p.notes, Settled(p.pending.value, true));
      GatherAll(p.notes, Settled(p.pending.value, false));
    }
    SamplingEmitsNothing(s, o, SettleStep(o, p, files), s.targets);
  }

  lemma {:induction false} SamplingEmitsNothing(s: Settings, o: Outside, p: PerfState, targets: seq<string>)
    ensures SampleAll(s, o, p, targets).events == p.events
    ensures EmittedIn(SampleAll(s, o, p, targets)) == EmittedIn(p)
  {
    hide SampleStep, Gather;
    if targets != [] {
      SamplingEmitsNothing(s, o, p, Front(targets));
      var p0, r := SampleAll(s, o, p, Front(targets)), ReadingAt(o, |targets| - 1);
      SampleEffect(s, p0, Last(targets), r);
      if SampleStep(s, p0, Last(targets), r) != p0 {
        GatherAll(p0.notes, Last(SampleStep(s, p0, Last(targets), r).notes));
      }
    }
  }

  // ------------------------------------------------------------------------------------------
  // The class
  // ------------------------------------------------------------------------------------------

  datatype PendingPerfEvent = PendingPerfEvent(pending: bool, event: DiagEvent)

  const NO_EVENT: DiagEvent := DiagEvent("", "", "", "", 0, 0.0)

  class PerfDiagnoser {
    var events: seq<DiagEvent>
    const settings: Settings
    var overflowTimers: map<string, int>
    var triggeredTags: set<string>
    var pendingEv: PendingPerfEvent
    ghost var notes: seq<Note>
    ghost var actions: seq<Action>

    ghost function View(): PerfState
      reads this
    {
      PerfState(overflowTimers, triggeredTags, if pendingEv.pending then Some(pendingEv.event) else None, events, notes)
    }

    ghost predicate Valid()
      reads this
    {
      View() == Run(settings, actions)
    }

    constructor (settings: Settings)
      ensures Valid() && actions == [] && this.settings == settings && events == []
    {
      this.settings := settings;
      events, overflowTimers, triggeredTags := [], map[], {};
      pendingEv := PendingPerfEvent(false, NO_EVENT);
      notes, actions := [], [];
    }

    /** The head of a round: settle the recording if it has finished. */
    method SettleFinished(o: Outside, fs: FileStore)
      modifies this`events, this`triggeredTags, this`pendingEv, this`notes, fs
      ensures View() == SettleStep(o, old(View()), old(fs.files))
      ensures fs.files == SettleFiles(settings, o, old(View()), old(fs.files))
    {
      hide Rotated;
      if triggeredTags != {} && !o.recording {
        if pendingEv.pending {
          var ev := pendingEv.event;
          ghost var note := Settled(ev, HasData(fs.files, ev.filePath));
          if ev.filePath in fs.files && fs.files[ev.filePath].size > 0 {
            events := events + [ev];
          } else {
            assert events + [] == events;
          }
          pendingEv := pendingEv.(pending := false);
          notes := notes + [note];
          CleanupFiles(fs, settings.outputDir, "perf_", settings.limitFileNum, o.stuck);
        }
        triggeredTags := {};
      }
    }

    /** Clock ticks to milliseconds. */
    method ScaleToMs(r: Reading) returns (cpuPct: real)
      requires r.Sample?
      ensures cpuPct == CpuPct(r)
    {
      cpuPct := r.raw;
      if r.hz > 0 {
        cpuPct := cpuPct * 1000.0 / r.hz as real;
      }
    }

    /** One target: skip it while its tag is triggered or it has no valid sample; otherwise run its timer
        and try to start a recording when the timer has reached the configured duration. */
    method SampleTarget(procName: string, r: Reading)
      modifies this`overflowTimers, this`triggeredTags, this`pendingEv, this`notes
      ensures View() == SampleStep(settings, old(View()), procName, r)
    {
      hide FilePath, CpuPct, EventFor, TagOf;
      var tag := TagOf(procName);
      if tag in triggeredTags || r.NoProcess? || r.raw < 0.0 {
        return;
      }
      var cpuPct := ScaleToMs(r);
      ghost var hit := cpuPct >= settings.thresholdPct as real;
      if cpuPct >= settings.thresholdPct as real {
        overflowTimers := overflowTimers[tag := (if tag in overflowTimers then overflowTimers[tag] else 0) + 5];
      } else {
        overflowTimers := overflowTimers[tag := 0];
      }
      if overflowTimers[tag] >= settings.durationS {
        ghost var before := View().pending;
        if r.forkOk {
          StartRecording(procName, r, cpuPct);
        }
        overflowTimers := overflowTimers[tag := 0];
        notes := notes + [if r.forkOk then Sampled(tag, hit, true, View().pending, before) else Sampled(tag, hit, true, None, None)];
      } else {
        notes := notes + [Sampled(tag, hit, false, None, None)];
      }
    }

    /** A recorder has been forked: its tag is triggered and its event becomes the pending one. */
    method StartRecording(procName: string, r: Reading, cpuPct: real)
      requires r.Sample? && cpuPct == CpuPct(r)
      modifies this`triggeredTags, this`pendingEv
      ensures triggeredTags == old(triggeredTags) + {TagOf(procName)}
      ensures pendingEv == PendingPerfEvent(true, EventFor(settings, procName, r))
    {
      hide CpuPct;
      triggeredTags := triggeredTags + {TagOf(procName)};
      var outFile := FilePath(settings.outputDir, Perf, procName, r.fileTime);
      pendingEv := PendingPerfEvent(true, DiagEvent("perf", procName, "", outFile, r.eventTime, cpuPct));
    }

    /** One iteration of the worker loop. */
    method LoopBody(o: Outside, fs: FileStore)
      requires Valid()
      modifies this, fs
      ensures Valid() && actions == old(actions) + [Round(o, old(fs.files))]
    {
      hide SampleStep, SettleStep, SettleFiles;
      ghost var files := fs.files;
      ghost var round := Round(o, files);
      SettleFinished(o, fs);
      ghost var settled := View();
      SampleNone(settings, o, settled);
      assert settings.targets[..0] == [];
      for i := 0 to |settings.targets|
        invariant View() == SampleAll(settings, o, settled, settings.targets[..i])
        invariant actions == old(actions)
      {
        SampleNext(settings, o, settled, i);
        SampleTarget(settings.targets[i], ReadingAt(o, i));
      }
      assert settings.targets[..|settings.targets|] == settings.targets;
      FrontOfAppend(actions, round);
      actions := actions + [round];
    }

    /** Clears the events for the next push; timers, triggers and the pending event stay. */
    method ResetEvents()
      requires Valid()
      modifies this
      ensures Valid() && actions == old(actions) + [Reset] && events == []
    {
      FrontOfAppend(actions, Reset);
      actions := actions + [Reset];
      events := [];
    }
  }

  lemma SampleNone(s: Settings, o: Outside, p: PerfState)
    ensures SampleAll(s, o, p, []) == p
  {
  }

  lemma SampleNext(s: Settings, o: Outside, p: PerfState, i: nat)
    requires i < |s.targets|
    ensures SampleAll(s, o, p, s.targets[..i + 1])
            == SampleStep(s, SampleAll(s, o, p, s.targets[..i]), s.targets[i], ReadingAt(o, i))
  {
    assert Front(s.targets[..i + 1]) == s.targets[..i];
  }
}
