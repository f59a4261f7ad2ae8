/** The perf trigger as each process sees it: the debounced launches of worker/src/diagnose/perf_diagnoser.cpp told from the
    readings alone, without timers, tags or notes. */
module PerfWatch {
  import opened Words
  import opened Collections
  import opened Text
  import opened Diagnosis
  import opened FileNames
  import opened Rotation
  import opened PerfDiagnosis

  // ------------------------------------------------------------------------------------------
  // The reference
  // ------------------------------------------------------------------------------------------

  /** One process: its valid samples while armed, whether it is armed, and the events of the recordings started for it. */
  datatype Watch = Watch(log: seq<Verdict>, armed: bool, launches: seq<DiagEvent>)

  const AT_START: Watch := Watch([], true, [])

  /** The reading reaches the threshold: in milliseconds when the clock tick rate is known, as it is otherwise. */
  predicate Busy(s: Settings, r: Reading)
    requires r.Sample?
  {
    if r.hz > 0 then r.raw * 1000.0 >= s.thresholdPct as real * r.hz as real else r.raw >= s.thresholdPct as real
  }

  /** The event of a recording of `name` started on this reading. */
  function Recording(s: Settings, name: string, r: Reading): DiagEvent
    requires r.Sample?
  {
    DiagEvent("perf", name, "", s.outputDir + "/perf_" + name + "_" + ToString(r.fileTime) + ".data", r.eventTime,
              if r.hz > 0 then r.raw * 1000.0 / r.hz as real else r.raw)
  }

  /** A launch is due when this sample and those before it make ceil(D/5) busy ones since the last attempt. */
  function Sampled(s: Settings, w: Watch, name: string, r: Reading): Watch {
    if !w.armed || r.NoProcess? || r.raw < 0.0 then w
    else
      var due := Due(w.log + [Verdict(Busy(s, r), false)], |w.log|, SamplesNeeded(s.durationS));
      Watch(w.log + [Verdict(Busy(s, r), due)], !(due && r.forkOk),
            w.launches + (if due && r.forkOk then [Recording(s, name, r)] else []))
  }

  /** The first `n` targets of a round: `name` is sampled wherever it stands among them. */
  function Sweep(s: Settings, o: Outside, w: Watch, name: string, targets: seq<string>): Watch {
    if targets == [] then w
    else
      var before, n := Sweep(s, o, w, name, Front(targets)), |targets| - 1;
      if targets[n] == name && n < |o.readings| then Sampled(s, before, name, o.readings[n]) else before
  }

  /** A round re-arms every process unless a recording is still running. */
  function Watched(s: Settings, w: Watch, name: string, a: Action): Watch {
    match a
    case Round(o, _) => Sweep(s, o, if o.recording then w else w.(armed := true), name, s.targets)
    case Reset => w
  }

  ghost function WatchRun(s: Settings, actions: seq<Action>, name: string): Watch {
    if actions == [] then AT_START else Watched(s, WatchRun(s, Front(actions), name), name, Last(actions))
  }

  // ------------------------------------------------------------------------------------------
  // One sample
  // ------------------------------------------------------------------------------------------

  /** A sample of an armed process with a reading adds exactly one note under its tag, a hit exactly when the reading
      reaches the threshold; any other changes nothing. */
  lemma SampleIsExact(s: Settings, p: PerfState, name: string, r: Reading)
    ensures var p' := SampleStep(s, p, name, r);
            if TagOf(name) in p.triggered || r.NoProcess? || r.raw < 0.0 then p' == p
            else
              && |p'.notes| == |p.notes| + 1 && p'.notes[..|p.notes|] == p.notes
              && var n := p'.notes[|p.notes|];
                 && n.Sampled? && n.tag == TagOf(name)
                 && (n.hit <==> if r.hz > 0 then r.raw * 1000.0 >= s.thresholdPct as real * r.hz as real
                                else r.raw >= s.thresholdPct as real)
                 && n.launched == (if n.attempted && r.forkOk then Some(Recording(s, name, r)) else None)
  {
    hide ToString;
    if r.Sample? {
      ReachesThreshold(s, r);
      EventIsRecording(s, name, r);
    }
  }

  lemma ReachesThreshold(s: Settings, r: Reading)
    requires r.Sample?
    ensures CpuPct(r) >= s.thresholdPct as real <==> Busy(s, r)
  {
    if r.hz > 0 {
      Scaled(r.raw * 1000.0, r.hz as real, s.thresholdPct as real);
    }
  }

  lemma Scaled(x: real, h: real, t: real)
    requires h > 0.0
    ensures x / h >= t <==> x >= t * h
  {
    var q := x / h;
    assert q * h == x;
    if q >= t {
      assert (q - t) * h >= 0.0;
    } else {
      assert (t - q) * h > 0.0;
    }
  }

  lemma EventIsRecording(s: Settings, name: string, r: Reading)
    requires r.Sample?
    ensures EventFor(s, name, r) == Recording(s, name, r)
  {
    hide ToString;
    var time := ToString(r.fileTime);
    assert s.outputDir + "/" + ("perf_" + name + "_" + time + ".data") == s.outputDir + "/perf_" + name + "_" + time + ".data";
  }

  // ------------------------------------------------------------------------------------------
  // The trigger follows the reference
  // ------------------------------------------------------------------------------------------

  /** The events of one process. */
  function Of(name: string, events: seq<DiagEvent>): seq<DiagEvent> {
    if events == [] then []
    else Of(name, Front(events)) + (if Last(events).processName == name then [Last(events)] else [])
  }

  lemma {:induction false} OfAppend(name: string, a: seq<DiagEvent>, b: seq<DiagEvent>)
    ensures Of(name, a + b) == Of(name, a) + Of(name, b)
  {
    if b == [] {
      assert a + b == a;
    } else {
      OfAppend(name, a, Front(b));
      assert Front(a + b) == a + Front(b) && Last(a + b) == Last(b);
    }
  }

  /** What the trigger holds of the process is what the reference says. */
  ghost predicate Follows(s: Settings, p: PerfState, w: Watch, name: string) {
    && TagInv(s, p, TagOf(name)) && TagLog(p.notes, TagOf(name)) == w.log
    && (TagOf(name) in p.triggered <==> !w.armed)
    && Of(name, LaunchedIn(p)) == w.launches
  }

  lemma TagsTellNames(a: string, b: string)
    ensures TagOf(a) == TagOf(b) <==> a == b
  {
    assert TagOf(a)[..|TagOf(a)| - 5] == a && TagOf(b)[..|TagOf(b)| - 5] == b;
  }

  /** Which attempts are made is decided by the window alone. */
  lemma AttemptIsDue(log: seq<Verdict>, v: Verdict, n: nat)
    requires Debounced(log + [v], n)
    ensures v.attempted <==> Due(log + [Verdict(v.hit, false)], |log|, n)
  {
    var with, without := log + [v], log + [Verdict(v.hit, false)];
    assert with[|log|] == v && forall j :: 0 <= j < |log| ==> with[j] == log[j] && without[j] == log[j];
    assert without[|log|].hit == v.hit;
  }

  lemma OwnSampleFollows(s: Settings, p: PerfState, w: Watch, name: string, r: Reading)
    requires Follows(s, p, w, name)
    ensures Follows(s, SampleStep(s, p, name, r), Sampled(s, w, name, r), name)
  {
    hide TagLog, Trailing, Debounced, CpuPct, EventFor, TagOf, SampleStep, Gather, Of, Due, Busy, Recording, TimerOf;
    var p' := SampleStep(s, p, name, r);
    SampleKeepsTag(s, p, name, r, TagOf(name));
    SampleIsExact(s, p, name, r);
    SampleEffect(s, p, name, r);
    if p' != p {
      var n := Last(p'.notes);
      var v := Verdict(n.hit, n.attempted);
      TagLogAppend(p.notes, n, TagOf(name));
      AttemptIsDue(w.log, v, SamplesNeeded(s.durationS));
      BusyMeans(s, r);
      GatherAll(p.notes, n);
      OfAppend(name, LaunchedIn(p), LaunchedBy(n));
      OfNone(name);
      if n.launched.Some? {
        RecordingIsOf(s, name, r);
      } else {
        assert Of(name, LaunchedIn(p)) + [] == Of(name, LaunchedIn(p));
      }
    }
  }

  lemma BusyMeans(s: Settings, r: Reading)
    requires r.Sample?
    ensures Busy(s, r) <==> if r.hz > 0 then r.raw * 1000.0 >= s.thresholdPct as real * r.hz as real else r.raw >= s.thresholdPct as real
  {
  }

  lemma OfNone(name: string)
    ensures Of(name, []) == []
  {
  }

  lemma RecordingIsOf(s: Settings, name: string, r: Reading)
    requires r.Sample?
    ensures Of(name, [Recording(s, name, r)]) == [Recording(s, name, r)]
  {
    hide ToString;
    assert Front([Recording(s, name, r)]) == [];
  }

  lemma OtherSampleFollows(s: Settings, p: PerfState, w: Watch, other: string, r: Reading, name: string)
    requires Follows(s, p, w, name) && other != name
    ensures Follows(s, SampleStep(s, p, other, r), w, name)
  {
    hide TagLog, Trailing, Debounced, CpuPct, EventFor, TagOf, SampleStep, Gather, Of, TimerOf;
    var p' := SampleStep(s, p, other, r);
    SampleKeepsTag(s, p, other, r, TagOf(name));
    SampleEffect(s, p, other, r);
    TagsTellNames(other, name);
    if p' != p {
      var n := Last(p'.notes);
      TagLogAppend(p.notes, n, TagOf(name));
      assert TagLog(p.notes, TagOf(name)) + [] == TagLog(p.notes, TagOf(name));
      GatherAll(p.notes, n);
      OfAppend(name, LaunchedIn(p), LaunchedBy(n));
      OfOther(name, n.launched);
      assert Of(name, LaunchedIn(p)) + [] == Of(name, LaunchedIn(p));
    }
  }

  lemma OfOther(name: string, e: Option<DiagEvent>)
    requires e.Some? ==> e.value.processName != name
    ensures Of(name, One(e)) == []
  {
    if e.Some? {
      assert Front([e.value]) == [];
    }
  }

  lemma SettlingFollows(s: Settings, o: Outside, p: PerfState, w: Watch, files: Files, name: string)
    requires Follows(s, p, w, name)
    ensures Follows(s, SettleStep(o, p, files), if o.recording then w else w.(armed := true), name)
  {
    hide TagLog, Trailing, Debounced, HasData, Of, LaunchedIn, TagInv;
    SettleKeepsTag(s, o, p, files, TagOf(name));
    SettlingLaunchesNothing(o, p, files);
    if p.pending.Some? {
      TagLogAppend(p.notes, Settled(p.pending.value, true), TagOf(name));
      TagLogAppend(p.notes, Settled(p.pending.value, false), TagOf(name));
    }
    assert TagLog(p.notes, TagOf(name)) + [] == TagLog(p.notes, TagOf(name));
  }

  lemma {:induction false} SweepFollows(s: Settings, o: Outside, p: PerfState, w: Watch, targets: seq<string>, name: string)
    requires Follows(s, p, w, name)
    ensures Follows(s, SampleAll(s, o, p, targets), Sweep(s, o, w, name, targets), name)
  {
    hide Follows, SampleStep, Sampled;
    if targets != [] {
      SweepFollows(s, o, p, w, Front(targets), name);
      var n, p0 := |targets| - 1, SampleAll(s, o, p, Front(targets));
      if targets[n] != name {
        OtherSampleFollows(s, p0, Sweep(s, o, w, name, Front(targets)), targets[n], ReadingAt(o, n), name);
      } else if n < |o.readings| {
        OwnSampleFollows(s, p0, Sweep(s, o, w, name, Front(targets)), name, o.readings[n]);
      } else {
        NothingToSample(s, p0, name);
      }
    }
  }

  lemma NothingToSample(s: Settings, p: PerfState, name: string)
    ensures SampleStep(s, p, name, NoProcess) == p
  {
  }

  lemma {:induction false} RunFollows(s: Settings, actions: seq<Action>, name: string)
    ensures Follows(s, Run(s, actions), WatchRun(s, actions, name), name)
  {
    hide Follows, SampleAll, SettleStep, Sweep;
    if actions == [] {
      StartFollows(s, name);
    } else {
      var p, w := Run(s, Front(actions)), WatchRun(s, Front(actions), name);
      RunFollows(s, Front(actions), name);
      match Last(actions)
      case Round(o, files) =>
        SettlingFollows(s, o, p, w, files, name);
        SweepFollows(s, o, SettleStep(o, p, files), if o.recording then w else w.(armed := true), s.targets, name);
      case Reset => ResetFollows(s, p, w, name);
    }
  }

  lemma StartFollows(s: Settings, name: string)
    ensures Follows(s, IDLE, AT_START, name)
  {
  }

  lemma ResetFollows(s: Settings, p: PerfState, w: Watch, name: string)
    requires Follows(s, p, w, name)
    ensures Follows(s, p.(events := []), w, name)
  {
  }

  /** Debouncing over the readings: in every run, whatever the other targets do, the recordings started for a process are
      exactly those the window rule calls for on that process's own readings, in order and under its own name and figures;
      and it is armed exactly when the rule says so. */
  lemma DebounceFollowsReadings(s: Settings, actions: seq<Action>, name: string)
    ensures var p, w := Run(s, actions), WatchRun(s, actions, name);
            && Of(name, LaunchedIn(p)) == w.launches
            && TagLog(p.notes, TagOf(name)) == w.log
            && (TagOf(name) in p.triggered <==> !w.armed)
  {
    hide Run, WatchRun, TagInv, TagLog, Of, LaunchedIn;
    RunFollows(s, actions, name);
  }
}
