/** The names the diagnosers give their output files, as the worker writes and rotates them and as the
    manager accepts, classifies and rebuilds them. */
module FileNames {
  import opened Collections
  import opened Text

  datatype Kind = Offcpu | Profile | Perf

  const DEFAULT_OUTPUT_DIR: string := "/tmp/monitor_system/diagnose"

  // ------------------------------------------------------------------------------------------
  // Writer: the worker's diagnosers
  // ------------------------------------------------------------------------------------------

  function KindPrefix(k: Kind): string {
    match k
    case Offcpu => "offcpu_"
    case Profile => "profile_"
    case Perf => "perf_"
  }

  /** The event type a diagnoser reports. */
  function KindName(k: Kind): string {
    match k
    case Offcpu => "offcpu"
    case Profile => "profile"
    case Perf => "perf"
  }

  /** The prefix each diagnoser rotates by: the BPF diagnosers use the bare type, perf keeps the underscore. */
  function RotationPrefix(k: Kind): string {
    match k
    case Offcpu => "offcpu"
    case Profile => "profile"
    case Perf => "perf_"
  }

  function MakeTag(process: string, thread: string): string {
    process + (if thread == "" then "" else "_" + thread)
  }

  function FileName(k: Kind, tag: string, time: int): string {
    KindPrefix(k) + tag + "_" + ToString(time) + ".data"
  }

  function FilePath(dir: string, k: Kind, tag: string, time: int): string {
    dir + "/" + FileName(k, tag, time)
  }

  // ------------------------------------------------------------------------------------------
  // Reader: the manager's HTTP side
  // ------------------------------------------------------------------------------------------

  function Basename(path: string): string {
    match RFindChar(path, '/')
    case Some(i) => path[i + 1..]
    case None => path
  }

  predicate IsSafeFilename(name: string) {
    if FindChar(name, '/', 0).Some? then false
    else if Find(name, "..", 0).Some? then false
    else if |name| < 6 || name[|name| - 5..] != ".data" then false
    else "perf_" <= name || "offcpu_" <= name || "profile_" <= name
  }

  function ServedPath(name: string): string {
    "/tmp/monitor_system/diagnose/" + name
  }

  /** Perf's binary data needs `perf script`; the BPF tools already write folded stacks. */
  predicate TreatedAsPerf(name: string) {
    "perf_" <= name
  }

  // ------------------------------------------------------------------------------------------
  // The contract between the two
  // ------------------------------------------------------------------------------------------

  ghost predicate DotDot(s: string) {
    exists i {:trigger s[i]} :: 0 <= i && i + 1 < |s| && s[i] == '.' && s[i + 1] == '.'
  }

  lemma DotDotIsFound(s: string)
    ensures DotDot(s) <==> Find(s, "..", 0).Some?
  {
    if i: int :| 0 <= i && i + 1 < |s| && s[i] == '.' && s[i + 1] == '.' {
      assert s[i..i + 2] == "..";
      assert OccursAt(s, "..", i);
    }
    if Find(s, "..", 0).Some? {
      var i := Find(s, "..", 0).value;
      assert s[i] == s[i..i + 2][0] == '.' && s[i + 1] == s[i..i + 2][1] == '.';
    }
  }

  lemma DotDotConcat(a: string, b: string)
    ensures DotDot(a + b) <==> DotDot(a) || DotDot(b) || (a != "" && b != "" && Last(a) == '.' && b[0] == '.')
  {
    var s := a + b;
    if DotDot(a) {
      var i :| 0 <= i && i + 1 < |a| && a[i] == '.' && a[i + 1] == '.';
      assert s[i] == '.' && s[i + 1] == '.';
    }
    if DotDot(b) {
      var i :| 0 <= i && i + 1 < |b| && b[i] == '.' && b[i + 1] == '.';
      assert s[|a| + i] == '.' && s[|a| + i + 1] == '.';
    }
    if a != "" && b != "" && Last(a) == '.' && b[0] == '.' {
      assert s[|a| - 1] == '.' && s[|a|] == '.';
    }
    if DotDot(s) {
      var i :| 0 <= i && i + 1 < |s| && s[i] == '.' && s[i + 1] == '.';
      if i + 1 < |a| {
        assert a[i] == '.' && a[i + 1] == '.';
      } else if |a| <= i {
        assert b[i - |a|] == '.' && b[i - |a| + 1] == '.';
      }
    }
  }

  /** A name part that the reader can take back: no directory separator and no parent reference. */
  ghost predicate Clean(part: string) {
    '/' !in part && !DotDot(part)
  }

  lemma TagIsClean(process: string, thread: string)
    ensures Clean(MakeTag(process, thread)) <==> Clean(process) && Clean(thread)
  {
    if thread != "" {
      DotDotConcat("_", thread);
      DotDotConcat(process, "_" + thread);
    } else {
      assert MakeTag(process, thread) == process;
    }
  }

  lemma NameIsClean(k: Kind, tag: string, time: int)
    ensures Clean(FileName(k, tag, time)) <==> Clean(tag)
  {
    hide ToString;
    var tail := "_" + ToString(time) + ".data";
    assert FileName(k, tag, time) == KindPrefix(k) + tag + tail;
    StampIsClean(time);
    DotDotConcat(KindPrefix(k) + tag, tail);
    DotDotConcat(KindPrefix(k), tag);
    assert '/' !in KindPrefix(k) && !DotDot(KindPrefix(k));
  }

  lemma StampIsClean(time: int)
    ensures Clean("_" + ToString(time) + ".data")
  {
    DotDotConcat("_" + ToString(time), ".data");
    DotDotConcat("_", ToString(time));
  }

  lemma NameShape(k: Kind, tag: string, time: int)
    ensures |FileName(k, tag, time)| >= 6
    ensures FileName(k, tag, time)[|FileName(k, tag, time)| - 5..] == ".data"
    ensures forall k' :: KindPrefix(k') <= FileName(k, tag, time) <==> k' == k
    ensures forall k' :: RotationPrefix(k') <= FileName(k, tag, time) <==> k' == k
  {
    hide ToString, KindPrefix, RotationPrefix;
    var stem := tag + "_" + ToString(time);
    assert FileName(k, tag, time) == KindPrefix(k) + (stem + ".data") == (KindPrefix(k) + stem) + ".data";
    forall k' {
      PrefixesTellKinds(k, k', stem + ".data");
    }
  }

  lemma PrefixesTellKinds(k: Kind, k': Kind, rest: string)
    ensures KindPrefix(k') <= KindPrefix(k) + rest <==> k' == k
    ensures RotationPrefix(k') <= KindPrefix(k) + rest <==> k' == k
  {
    var name := KindPrefix(k) + rest;
    assert name == RotationPrefix(k) + (KindPrefix(k)[|RotationPrefix(k)|..] + rest);
    // The second letter alone tells the kinds apart.
    assert name[1] == KindPrefix(k)[1];
    if KindPrefix(k') <= name || RotationPrefix(k') <= name {
      assert name[1] == KindPrefix(k')[1];
    }
  }

  lemma BasenameOf(dir: string, name: string)
    ensures Basename(dir + "/" + name) == name <==> '/' !in name
  {
    var path := dir + "/" + name;
    assert path[|dir|] == '/';
    assert path[|dir| + 1..] == name;
    var i := RFindChar(path, '/').value;
    if '/' in name {
      var j :| 0 <= j < |name| && name[j] == '/';
      assert path[|dir| + 1 + j] == '/';
    } else {
      assert forall j :: |dir| < j < |path| ==> path[j] == name[j - |dir| - 1];
    }
  }

  /** Every output path, for every configured name and time: the manager accepts the file name exactly
      when the process and thread names are clean; when they hold no '/', the name it publishes is the
      name that was written; the name is rotated by its own type and no other, classified as perf exactly
      when perf wrote it, and rebuilt to the path written exactly when the output directory is the default. */
  lemma NameContract(dir: string, k: Kind, process: string, thread: string, time: int)
    ensures var tag := MakeTag(process, thread);
            var name := FileName(k, tag, time);
            && (IsSafeFilename(name) <==> Clean(process) && Clean(thread))
            && (Basename(FilePath(dir, k, tag, time)) == name <==> '/' !in process && '/' !in thread)
            && (forall k' :: RotationPrefix(k') <= name <==> k' == k)
            && (TreatedAsPerf(name) <==> k == Perf)
            && (ServedPath(name) == FilePath(dir, k, tag, time) <==> dir == DEFAULT_OUTPUT_DIR)
  {
    var tag := MakeTag(process, thread);
    var name := FileName(k, tag, time);
    TagIsClean(process, thread);
    NameIsClean(k, tag, time);
    NameShape(k, tag, time);
    SafeIsClean(k, name);
    BasenameOf(dir, name);
    SlashInName(k, process, thread, time);
    assert TreatedAsPerf(name) <==> KindPrefix(Perf) <= name;
    SamePath(dir, name);
  }

  /** With a known prefix and suffix, accepted means clean. */
  lemma SafeIsClean(k: Kind, name: string)
    requires KindPrefix(k) <= name && |name| >= 6 && name[|name| - 5..] == ".data"
    ensures IsSafeFilename(name) <==> Clean(name)
  {
    DotDotIsFound(name);
  }

  /** The exact set of accepted names of a kind: between prefix and suffix anything is accepted that is clean and does
      not end in a dot. */
  lemma AcceptedExactly(k: Kind, middle: string)
    ensures IsSafeFilename(KindPrefix(k) + middle + ".data") <==> Clean(middle) && (middle != "" ==> Last(middle) != '.')
  {
    hide IsSafeFilename, DotDot;
    var prefix, name := KindPrefix(k), KindPrefix(k) + middle + ".data";
    assert name == prefix + (middle + ".data");
    SafeIsClean(k, name);
    DotDotConcat(prefix, middle + ".data");
    DotDotConcat(middle, ".data");
    FixedPartsAreClean(k);
    assert prefix != "" && Last(prefix) == '_';
  }

  lemma FixedPartsAreClean(k: Kind)
    ensures Clean(KindPrefix(k)) && Clean(".data")
  {
  }

  lemma AmpersandInName(k: Kind, process: string, thread: string, time: int)
    ensures '&' in FileName(k, MakeTag(process, thread), time) <==> '&' in process || '&' in thread
  {
    hide ToString;
    assert '&' !in ToString(time) && '&' !in KindPrefix(k);
  }

  lemma SlashInName(k: Kind, process: string, thread: string, time: int)
    ensures '/' !in FileName(k, MakeTag(process, thread), time) <==> '/' !in process && '/' !in thread
  {
    var head, tail := KindPrefix(k), "_" + ToString(time) + ".data";
    assert FileName(k, MakeTag(process, thread), time) == head + MakeTag(process, thread) + tail;
    assert '/' !in head && '/' !in tail;
  }

  lemma SamePath(dir: string, name: string)
    ensures ServedPath(name) == dir + "/" + name <==> dir == DEFAULT_OUTPUT_DIR
  {
    assert ServedPath(name) == DEFAULT_OUTPUT_DIR + ("/" + name) && dir + "/" + name == dir + ("/" + name);
    if ServedPath(name) == dir + "/" + name {
      assert |dir| == |DEFAULT_OUTPUT_DIR|;
      assert dir == (dir + ("/" + name))[..|dir|] == DEFAULT_OUTPUT_DIR;
    }
  }
}
