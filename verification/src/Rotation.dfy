/** File rotation of the diagnosers: keep the newest files of one type in the output directory
    (`cleanup_files` in worker/src/diagnose/bpf_diagnoser.cpp and perf_diagnoser.cpp). */
module Rotation {
  import opened Words
  import opened Collections
  import opened Text
  import opened FileNames

  datatype File = File(mtime: int, size: nat)

  type Files = map<string, File>

  /** What a finished tool must have left for its event to be emitted. */
  function HasData(files: Files, path: string): bool {
    path in files && files[path].size > 0
  }

  /** A file as the rotation sorts it: by modification time, then by path. */
  datatype Entry = Entry(mtime: int, path: string)

  predicate Older(a: Entry, b: Entry) {
    a.mtime < b.mtime || (a.mtime == b.mtime && LexLess(a.path, b.path))
  }

  lemma OlderIsTotal(a: Entry, b: Entry)
    ensures a == b || Older(a, b) || Older(b, a)
    ensures !(Older(a, b) && Older(b, a)) && !Older(a, a)
  {
    LexTotal(a.path, b.path);
    LexTotal(a.path, a.path);
  }

  lemma OlderIsTransitive(a: Entry, b: Entry, c: Entry)
    requires Older(a, b) && Older(b, c)
    ensures Older(a, c)
  {
    if LexLess(a.path, b.path) && LexLess(b.path, c.path) {
      LexTransitive(a.path, b.path, c.path);
    }
  }

  /** `path` names a visible file directly in `dir` whose name starts with `prefix`. */
  predicate Matches(dir: string, prefix: string, path: string) {
    && |path| > |dir| + 1 && path[..|dir| + 1] == dir + "/"
    && '/' !in path[|dir| + 1..] && path[|dir| + 1] != '.'
    && prefix <= path[|dir| + 1..]
  }

  function Matching(files: Files, dir: string, prefix: string): set<Entry> {
    set p | p in files && Matches(dir, prefix, p) :: Entry(files[p].mtime, p)
  }

  // ------------------------------------------------------------------------------------------
  // Specification by rank: a file goes when at least `limit` matching files are newer
  // ------------------------------------------------------------------------------------------

  function Newer(es: set<Entry>, e: Entry): set<Entry> {
    set x | x in es && Older(e, x)
  }

  function Victims(es: set<Entry>, limit: int): set<Entry> {
    if limit <= 0 then {} else set e | e in es && |Newer(es, e)| >= limit
  }

  function Paths(es: set<Entry>): set<string> {
    set e | e in es :: e.path
  }

  /** The directory after rotating `prefix`; `stuck` are the paths whose unlink fails. */
  function Rotated(files: Files, dir: string, prefix: string, limit: int, stuck: set<string>): Files {
    files - (Paths(Victims(Matching(files, dir, prefix), limit)) - stuck)
  }

  // ------------------------------------------------------------------------------------------
  // Sorting
  // ------------------------------------------------------------------------------------------

  ghost predicate Ascending(s: seq<Entry>) {
    forall i, j :: 0 <= i < j < |s| ==> Older(s[i], s[j])
  }

  function Elements(s: seq<Entry>): set<Entry> {
    set e | e in s
  }

  function Insert(e: Entry, s: seq<Entry>): (r: seq<Entry>) {
    if s == [] || Older(e, s[0]) then [e] + s else [s[0]] + Insert(e, s[1..])
  }

  lemma {:induction false} InsertElements(e: Entry, s: seq<Entry>)
    ensures Elements(Insert(e, s)) == Elements(s) + {e} && |Insert(e, s)| == |s| + 1
  {
    if s == [] || Older(e, s[0]) {
      assert forall x :: x in [e] + s <==> x == e || x in s;
    } else {
      var t := Insert(e, s[1..]);
      InsertElements(e, s[1..]);
      assert s == [s[0]] + s[1..];
      assert forall x :: x in t <==> x in Elements(t);
      assert forall x :: x in [s[0]] + t <==> x == s[0] || x in t;
    }
  }

  lemma Prepend(e: Entry, s: seq<Entry>)
    requires Ascending(s) && forall i :: 0 <= i < |s| ==> Older(e, s[i])
    ensures Ascending([e] + s)
  {
  }

  lemma {:induction false} InsertAscends(e: Entry, s: seq<Entry>)
    requires Ascending(s) && e !in s
    ensures Ascending(Insert(e, s))
  {
    if s == [] || Older(e, s[0]) {
      forall i | 0 <= i < |s|
        ensures Older(e, s[i])
      {
        if i > 0 {
          OlderIsTransitive(e, s[0], s[i]);
        }
      }
      Prepend(e, s);
    } else {
      var t := Insert(e, s[1..]);
      InsertAscends(e, s[1..]);
      InsertElements(e, s[1..]);
      OlderIsTotal(s[0], e);
      forall i | 0 <= i < |t|
        ensures Older(s[0], t[i])
      {
        assert t[i] in Elements(t);
        assert t[i] == e || t[i] in s[1..];
      }
      Prepend(s[0], t);
    }
  }

  /** std::sort. */
  function Sort(s: seq<Entry>): (r: seq<Entry>)
    requires forall i, j :: 0 <= i < j < |s| ==> s[i] != s[j]
    ensures Ascending(r) && Elements(r) == Elements(s) && |r| == |s|
  {
    if s == [] then []
    else
      var t := Sort(Front(s));
      assert Last(s) !in Elements(t);
      InsertAscends(Last(s), t);
      InsertElements(Last(s), t);
      assert s == Front(s) + [Last(s)];
      Insert(Last(s), t)
  }

  lemma {:induction false} AscendingHasNoRepeats(s: seq<Entry>)
    requires Ascending(s)
    ensures |Elements(s)| == |s|
  {
    if s != [] {
      AscendingHasNoRepeats(Front(s));
      OlderIsTotal(Last(s), Last(s));
      assert Elements(s) == Elements(Front(s)) + {Last(s)};
      assert Last(s) !in Front(s);
    }
  }

  /** Position decides the rank: the entries newer than the i-th are exactly those after it. */
  lemma NewerIsSuffix(s: seq<Entry>, i: nat)
    requires Ascending(s) && i < |s|
    ensures |Newer(Elements(s), s[i])| == |s| - 1 - i
  {
    assert Newer(Elements(s), s[i]) == Elements(s[i + 1..]) by {
      forall j | 0 <= j < |s|
        ensures Older(s[i], s[j]) <==> i < j
      {
        OlderIsTotal(s[i], s[j]);
      }
      assert forall j :: i < j < |s| ==> s[i + 1..][j - i - 1] == s[j];
    }
    AscendingHasNoRepeats(s[i + 1..]);
  }

  /** The victims are the oldest |s| - limit entries, none if there are fewer. */
  lemma VictimsArePrefix(s: seq<Entry>, limit: int)
    requires Ascending(s) && limit > 0
    ensures Victims(Elements(s), limit) == Elements(s[..Max(|s| - limit, 0)])
  {
    var n := Max(|s| - limit, 0);
    forall i | 0 <= i < |s|
      ensures s[i] in Victims(Elements(s), limit) <==> i < n
    {
      NewerIsSuffix(s, i);
    }
    forall e
      ensures e in Victims(Elements(s), limit) <==> e in Elements(s[..n])
    {
      if e in Elements(s) {
        var i :| 0 <= i < |s| && s[i] == e;
        forall j | 0 <= j < n && s[j] == e
          ensures i < n
        {
          OlderIsTotal(s[i], s[j]);
        }
        assert i < n ==> s[..n][i] == e;
      }
    }
  }

  // ------------------------------------------------------------------------------------------
  // What rotation guarantees
  // ------------------------------------------------------------------------------------------

  lemma {:induction false} SortedEnumeration(es: set<Entry>) returns (s: seq<Entry>)
    ensures Ascending(s) && Elements(s) == es && |s| == |es|
    decreases |es|
  {
    if es == {} {
      s := [];
    } else {
      var e :| e in es;
      var r := SortedEnumeration(es - {e});
      assert e !in Elements(r);
      InsertAscends(e, r);
      InsertElements(e, r);
      s := Insert(e, r);
    }
  }

  /** With a positive limit, exactly min(limit, n) of n matching files are kept, and every kept file was modified
      later than every deleted one, or at the same time and comes after it by path. */
  lemma RotationKeepsNewest(es: set<Entry>, limit: int)
    requires limit > 0
    ensures Victims(es, limit) <= es
    ensures |es - Victims(es, limit)| == Min(limit, |es|)
    ensures forall d, k :: d in Victims(es, limit) && k in es - Victims(es, limit) ==>
              d.mtime < k.mtime || (d.mtime == k.mtime && ComesBefore(d.path, k.path))
  {
    hide Victims, Ascending, Elements, Newer, ComesBefore, LexLess;
    var s := SortedEnumeration(es);
    var n := Max(|s| - limit, 0);
    VictimsArePrefix(s, limit);
    PrefixAscends(s, n);
    AscendingHasNoRepeats(s[..n]);
    SubsetSize(Elements(s[..n]), es);
    forall d, k | d in Victims(es, limit) && k in es - Victims(es, limit)
      ensures d.mtime < k.mtime || (d.mtime == k.mtime && ComesBefore(d.path, k.path))
    {
      PrefixIsOlder(s, n, d, k);
      LexLessExactly(d.path, k.path);
    }
  }

  lemma PrefixAscends(s: seq<Entry>, n: nat)
    requires Ascending(s) && n <= |s|
    ensures Ascending(s[..n]) && Elements(s[..n]) <= Elements(s)
  {
  }

  lemma PrefixIsOlder(s: seq<Entry>, n: nat, d: Entry, k: Entry)
    requires Ascending(s) && n <= |s| && d in Elements(s[..n]) && k in Elements(s) && k !in Elements(s[..n])
    ensures Older(d, k)
  {
    var i :| 0 <= i < n && s[..n][i] == d;
    var j :| 0 <= j < |s| && s[j] == k;
    assert forall j :: 0 <= j < n ==> s[..n][j] == s[j];
  }

  lemma SubsetSize<T>(a: set<T>, b: set<T>)
    requires a <= b
    ensures |b - a| == |b| - |a|
  {
    assert b == (b - a) + a;
  }

  /** Rotation of one prefix only deletes visible files of the directory that match it, keeps min(limit, n)
      of the n that do when every unlink succeeds, and otherwise changes nothing; whatever of these it deletes was
      modified before whatever it keeps, or at the same time and comes before it by path. */
  lemma RotationCorrect(files: Files, dir: string, prefix: string, limit: int)
    ensures var after := Rotated(files, dir, prefix, limit, {});
            && (forall p :: p in after ==> p in files && after[p] == files[p])
            && (forall p :: p in files && !Matches(dir, prefix, p) ==> p in after)
            && (limit <= 0 ==> after == files)
            && (limit > 0 ==> |Matching(after, dir, prefix)| == Min(limit, |Matching(files, dir, prefix)|))
            && (forall p, q :: p in files && p !in after && q in after && Matches(dir, prefix, q) ==>
                  files[p].mtime < files[q].mtime || (files[p].mtime == files[q].mtime && ComesBefore(p, q)))
  {
    hide ComesBefore, LexLess;
    var es := Matching(files, dir, prefix);
    var after := Rotated(files, dir, prefix, limit, {});
    if limit > 0 {
      RotationKeepsNewest(es, limit);
      KeptEntries(files, dir, prefix, limit);
      forall p, q | p in files && p !in after && q in after && Matches(dir, prefix, q)
        ensures files[p].mtime < files[q].mtime || (files[p].mtime == files[q].mtime && ComesBefore(p, q))
      {
        assert Entry(files[p].mtime, p) in Victims(es, limit);
        assert Entry(files[q].mtime, q) in es;
        assert Entry(files[q].mtime, q) !in Victims(es, limit);
      }
    }
  }

  /** Rotation only removes files. */
  lemma RotatedShrinks(files: Files, dir: string, prefix: string, limit: int, stuck: set<string>)
    ensures var after := Rotated(files, dir, prefix, limit, stuck);
            && after.Keys <= files.Keys && (forall p :: p in after ==> after[p] == files[p])
            && (limit <= 0 ==> after == files)
  {
    hide Matching;
  }

  lemma RotatedMatches(files: Files, dir: string, prefix: string, limit: int, stuck: set<string>, p: string)
    ensures p in files && p !in Rotated(files, dir, prefix, limit, stuck) ==> Matches(dir, prefix, p)
  {
    hide Matches;
  }

  /** A path that cannot be unlinked stays, and makes no difference to the others. */
  lemma StuckFilesStay(files: Files, dir: string, prefix: string, limit: int, stuck: set<string>, p: string)
    ensures p in Rotated(files, dir, prefix, limit, stuck)
            <==> p in Rotated(files, dir, prefix, limit, {}) || (p in files && p in stuck)
  {
    hide Matching;
  }

  /** A file of the directory is rotated by a prefix exactly when its name is visible and starts with it. */
  lemma MatchesExactly(dir: string, prefix: string, name: string)
    ensures Matches(dir, prefix, dir + "/" + name)
            <==> name != "" && name[0] != '.' && '/' !in name && |prefix| <= |name| && name[..|prefix|] == prefix
  {
    var path := dir + "/" + name;
    assert path[..|dir| + 1] == dir + "/" && path[|dir| + 1..] == name;
  }

  lemma KeptEntries(files: Files, dir: string, prefix: string, limit: int)
    ensures Matching(Rotated(files, dir, prefix, limit, {}), dir, prefix)
            == Matching(files, dir, prefix) - Victims(Matching(files, dir, prefix), limit)
  {
    var es := Matching(files, dir, prefix);
    forall e | e in es
      ensures e in Victims(es, limit) <==> e.path in Paths(Victims(es, limit))
    {
      if e.path in Paths(Victims(es, limit)) {
        var v :| v in Victims(es, limit) && v.path == e.path;
        assert v == e;
      }
    }
  }

  /** Rotating one type never deletes a file another diagnoser wrote. */
  lemma RotationSparesOtherTypes(files: Files, dir: string, k: Kind, k': Kind, tag: string, time: int,
                                 limit: int, stuck: set<string>)
    requires k != k' && FilePath(dir, k', tag, time) in files
    ensures FilePath(dir, k', tag, time) in Rotated(files, dir, RotationPrefix(k), limit, stuck)
  {
    hide FileName, RotationPrefix;
    var p := FilePath(dir, k', tag, time);
    NameShape(k', tag, time);
    assert p[|dir| + 1..] == FileName(k', tag, time);
    assert !Matches(dir, RotationPrefix(k), p);
    assert forall e :: e in Victims(Matching(files, dir, RotationPrefix(k)), limit) ==> Matches(dir, RotationPrefix(k), e.path);
  }

  /** Removing files never adds matching ones. */
  lemma FewerFilesFewerMatches(files: Files, fewer: Files, dir: string, prefix: string)
    requires fewer.Keys <= files.Keys && forall p :: p in fewer ==> fewer[p] == files[p]
    ensures |Matching(fewer, dir, prefix)| <= |Matching(files, dir, prefix)|
  {
    assert Matching(fewer, dir, prefix) <= Matching(files, dir, prefix);
    SubsetSize(Matching(fewer, dir, prefix), Matching(files, dir, prefix));
  }

  // ------------------------------------------------------------------------------------------
  // The directory scan, sort and unlink loop
  // ------------------------------------------------------------------------------------------

  class FileStore {
    var files: Files

    constructor (files: Files)
      ensures this.files == files
    {
      this.files := files;
    }
  }

  method ScanDirectory(fs: FileStore, dir: string, prefix: string) returns (found: seq<Entry>)
    ensures Elements(found) == Matching(fs.files, dir, prefix)
    ensures forall i, j :: 0 <= i < j < |found| ==> found[i] != found[j]
  {
    found := [];
    var rest := fs.files.Keys;
    while rest != {}
      invariant rest <= fs.files.Keys
      invariant forall e :: e in found <==> e in Matching(fs.files, dir, prefix) && e.path !in rest
      invariant forall i, j :: 0 <= i < j < |found| ==> found[i] != found[j]
      decreases rest
    {
      var path :| path in rest;
      if Matches(dir, prefix, path) {
        found := found + [Entry(fs.files[path].mtime, path)];
      }
      rest := rest - {path};
    }
  }

  method CleanupFiles(fs: FileStore, dir: string, prefix: string, limit: int, stuck: set<string>)
    modifies fs
    ensures fs.files == Rotated(old(fs.files), dir, prefix, limit, stuck)
  {
    hide Victims, Matching, Ascending;
    if limit <= 0 {
      NoVictims(fs.files, dir, prefix, limit, stuck);
      return;
    }
    var found := ScanDirectory(fs, dir, prefix);
    var sorted := Sort(found);
    VictimsArePrefix(sorted, limit);
    if |found| <= limit {
      assert sorted[..0] == [];
      assert fs.files == fs.files - ({} - stuck);
      return;
    }
    var toDelete := |found| - limit;
    NothingUnlinked(fs.files, sorted, stuck);
    for i := 0 to toDelete
      invariant fs.files == Unlinked(old(fs.files), sorted[..i], stuck)
    {
      UnlinkedStep(old(fs.files), sorted, i, stuck);
      if sorted[i].path !in stuck {
        fs.files := fs.files - {sorted[i].path};
      }
    }
  }

  lemma NoVictims(files: Files, dir: string, prefix: string, limit: int, stuck: set<string>)
    requires limit <= 0
    ensures Rotated(files, dir, prefix, limit, stuck) == files
  {
  }

  function Unlinked(files: Files, es: seq<Entry>, stuck: set<string>): Files {
    files - (Paths(Elements(es)) - stuck)
  }

  lemma NothingUnlinked(files: Files, es: seq<Entry>, stuck: set<string>)
    ensures Unlinked(files, es[..0], stuck) == files
  {
  }

  lemma UnlinkedStep(files: Files, es: seq<Entry>, i: nat, stuck: set<string>)
    requires i < |es|
    ensures Unlinked(files, es[..i + 1], stuck)
            == if es[i].path in stuck then Unlinked(files, es[..i], stuck) else Unlinked(files, es[..i], stuck) - {es[i].path}
  {
    assert es[..i + 1] == es[..i] + [es[i]];
    assert Elements(es[..i + 1]) == Elements(es[..i]) + {es[i]};
    assert Paths(Elements(es[..i + 1])) == Paths(Elements(es[..i])) + {es[i].path};
  }
}
