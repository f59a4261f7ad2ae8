/** How the manager's embedded HTTP server takes a request apart (manager/src/rpc/metrics_exporter.cpp). */
module HttpRequest {
  import opened Collections
  import opened Text
  import opened FileNames
  import opened Words

  const BUFFER: nat := 4095
  const NUL: char := '\0'

  /** The C string found in the read buffer: at most 4095 bytes, cut at the first NUL. */
  function Received(bytes: string): (r: string)
    ensures r <= bytes && |r| <= 4095 && '\0' !in r
    ensures |r| == 4095 || |r| == |bytes| || bytes[|r|] == '\0'
  {
    var buf := if |bytes| <= BUFFER then bytes else bytes[..BUFFER];
    match FindChar(buf, NUL, 0)
    case Some(i) => buf[..i]
    case None => buf
  }

  function RequestLine(req: string): (r: string)
    ensures r <= req && (forall i :: 0 <= i < |r| ==> !OccursAt(req, "\r\n", i)) && (r == req || OccursAt(req, "\r\n", |r|))
  {
    match Find(req, "\r\n", 0)
    case Some(i) => req[..i]
    case None => req
  }

  /** Everything between the first and the last space of the request line, or "/". */
  function FullPath(line: string): string {
    match (FindChar(line, ' ', 0), RFindChar(line, ' '))
    case (Some(p1), Some(p2)) => if p2 > p1 then line[p1 + 1..p2] else "/"
    case _ => "/"
  }

  datatype Target = Target(path: string, query: string)

  function SplitTarget(full: string): Target {
    match FindChar(full, '?', 0)
    case Some(q) => Target(full[..q], full[q + 1..])
    case None => Target(full, "")
  }

  function ParseRequest(bytes: string): Target {
    SplitTarget(FullPath(RequestLine(Received(bytes))))
  }

  /** The text after the first `key=` in the query, up to the next '&'. */
  function ParseParam(query: string, key: string): string {
    match Find(query, key + "=", 0)
    case None => ""
    case Some(pos) => UpToAmpersand(query, pos + |key| + 1)
  }

  function UpToAmpersand(query: string, start: nat): string
    requires start <= |query|
  {
    match FindChar(query, '&', start)
    case Some(end) => query[start..end]
    case None => query[start..]
  }

  datatype Render = BadRequest | PerfScript(path: string) | Folded(path: string)

  /** What the flame-graph endpoint runs for a query, given the sizes of the files it can see. */
  function Flamegraph(query: string, sizes: map<string, nat>): Render {
    var name := ParseParam(query, "file");
    if !IsSafeFilename(name) then BadRequest
    else
      var path := ServedPath(name);
      if path !in sizes || sizes[path] == 0 then BadRequest
      else if TreatedAsPerf(name) then PerfScript(path)
      else Folded(path)
  }

  // ------------------------------------------------------------------------------------------
  // Printing a request and taking it apart again
  // ------------------------------------------------------------------------------------------

  function Line(target: string): string {
    "GET " + target + " HTTP/1.1"
  }

  /** A GET request: request line, then whatever header fields the client sends. */
  function Request(target: string, headers: string): string {
    Line(target) + "\r\n" + headers
  }

  /** A target that survives the C-string and line-based reading: no NUL, no line break, and short enough. */
  ghost predicate Sendable(target: string) {
    NUL !in target && !Contains(target, "\r\n") && |Line(target)| + 2 <= BUFFER
  }

  lemma ReceivedKeepsLine(target: string, headers: string)
    requires Sendable(target)
    ensures Line(target) + "\r\n" <= Received(Request(target, headers))
  {
    var head := Line(target) + "\r\n";
    var bytes := Request(target, headers);
    var buf := if |bytes| <= BUFFER then bytes else bytes[..BUFFER];
    assert head <= buf;
    assert NUL !in head by {
      assert forall c :: c in head ==> c in "GET " || c in target || c in " HTTP/1.1" || c in "\r\n";
    }
    assert forall j :: 0 <= j < |head| ==> buf[j] == head[j] && head[j] in head;
  }

  lemma LineHasNoBreak(target: string, i: nat)
    requires !Contains(target, "\r\n")
    ensures !OccursAt(Line(target), "\r\n", i)
  {
    var line := Line(target);
    if OccursAt(line, "\r\n", i) {
      assert line[i] == line[i..i + 2][0] == '\r' && line[i + 1] == line[i..i + 2][1] == '\n';
      assert forall j :: 0 <= j < 4 ==> line[j] == "GET "[j];
      assert forall j :: 4 <= j < 4 + |target| ==> line[j] == target[j - 4];
      assert forall j :: 4 + |target| <= j < |line| ==> line[j] == " HTTP/1.1"[j - 4 - |target|];
      assert 4 <= i && i + 1 < 4 + |target|;
      assert target[i - 4..i - 2] == "\r\n";
      assert OccursAt(target, "\r\n", i - 4);
    }
  }

  lemma RequestLineIsRead(target: string, req: string)
    requires !Contains(target, "\r\n") && Line(target) + "\r\n" <= req
    ensures RequestLine(req) == Line(target)
  {
    var line := Line(target);
    var n := |line|;
    assert req[..n + 2] == line + "\r\n";
    assert req[n..n + 2] == "\r\n" && OccursAt(req, "\r\n", n);
    var i := Find(req, "\r\n", 0).value;
    assert req[i] == req[i..i + 2][0] == '\r';
    assert req[n - 1] == line[n - 1] == '1';
    if i + 1 < n {
      assert line[i..i + 2] == req[i..i + 2];
      LineHasNoBreak(target, i);
    }
    assert req[..n] == line;
  }

  lemma TargetIsRead(target: string)
    ensures FullPath(Line(target)) == target
  {
    var line := Line(target);
    var p2 := 4 + |target|;
    assert line[3] == ' ' && line[p2] == ' ';
    assert line[0] == 'G' && line[1] == 'E' && line[2] == 'T';
    assert forall j :: p2 < j < |line| ==> line[j] == " HTTP/1.1"[j - p2];
    assert FindChar(line, ' ', 0).value == 3;
    assert RFindChar(line, ' ').value == p2;
    assert line[4..p2] == target;
  }

  /** Whatever target a client sends in a GET request line, spaces included, is the target that is dispatched on. */
  lemma RequestIsTakenApart(target: string, headers: string)
    requires Sendable(target)
    ensures ParseRequest(Request(target, headers)) == SplitTarget(target)
  {
    ReceivedKeepsLine(target, headers);
    RequestLineIsRead(target, Received(Request(target, headers)));
    TargetIsRead(target);
  }

  lemma TargetSplits(path: string, query: string)
    requires '?' !in path
    ensures SplitTarget(path + "?" + query) == Target(path, query)
  {
    var full := path + "?" + query;
    assert full[|path|] == '?';
    assert forall j :: 0 <= j < |path| ==> full[j] == path[j];
    assert FindChar(full, '?', 0).value == |path|;
    assert full[..|path|] == path && full[|path| + 1..] == query;
  }

  /** A request line with fewer than two spaces asks for "/", and a target without '?' has no query. */
  lemma MalformedTargets(line: string, path: string)
    ensures (forall i, j :: 0 <= i < j < |line| && line[i] == ' ' ==> line[j] != ' ') ==> FullPath(line) == "/"
    ensures '?' !in path ==> SplitTarget(path) == Target(path, "")
  {
  }

  lemma ParamIsRead(key: string, value: string)
    requires '&' !in value
    ensures ParseParam(key + "=" + value, key) == value
  {
    var query := key + "=" + value;
    assert OccursAt(query, key + "=", 0);
    assert query[|key| + 1..] == value;
    assert forall j :: |key| < j < |query| ==> query[j] == value[j - |key| - 1];
  }

  /** Round trip: path and file name come back as they were sent. */
  lemma RequestRoundTrip(path: string, name: string, headers: string)
    requires '?' !in path && '&' !in name && Sendable(path + "?" + ("file=" + name))
    ensures var t := ParseRequest(Request(path + "?" + ("file=" + name), headers));
            t.path == path && ParseParam(t.query, "file") == name
  {
    hide *;
    RequestIsTakenApart(path + "?" + ("file=" + name), headers);
    TargetSplits(path, "file=" + name);
    assert "file=" + name == "file" + "=" + name;
    ParamIsRead("file", name);
  }

  // ------------------------------------------------------------------------------------------
  // Any list of parameters: exactly when the one asked for is the one returned
  // ------------------------------------------------------------------------------------------

  datatype Param = Param(name: string, value: string)

  function ParamText(p: Param): string {
    p.name + "=" + p.value
  }

  function Join(ps: seq<Param>): string {
    if ps == [] then ""
    else if |ps| == 1 then ParamText(ps[0])
    else ParamText(ps[0]) + ("&" + Join(ps[1..]))
  }

  predicate PlainParams(ps: seq<Param>) {
    forall i :: 0 <= i < |ps| ==> '&' !in ParamText(ps[i])
  }

  /** What follows the first `key=` in the first parameter whose text holds it anywhere. */
  function FirstTextMatch(ps: seq<Param>, key: string): string {
    if ps == [] then ""
    else match Find(ParamText(ps[0]), key + "=", 0)
      case Some(i) => ParamText(ps[0])[i + |key| + 1..]
      case None => FirstTextMatch(ps[1..], key)
  }

  lemma FirstOccurrence(s: string, p: string, i: nat)
    requires OccursAt(s, p, i) && forall j: nat :: j < i ==> !OccursAt(s, p, j)
    ensures Find(s, p, 0) == Some(i)
  {
    hide OccursAt;
  }

  lemma NoOccurrence(s: string, p: string)
    requires forall j: nat :: !OccursAt(s, p, j)
    ensures Find(s, p, 0) == None
  {
    hide OccursAt;
  }

  lemma OccurrenceFits(s: string, p: string, i: nat)
    requires OccursAt(s, p, i)
    ensures i + |p| <= |s|
  {
  }

  /** A pattern without '&' never straddles a separator: its occurrences lie in the text before or the query after. */
  lemma OccurrenceKeepsToOneSide(text: string, pat: string, rest: string, i: nat)
    requires '&' !in pat && pat != ""
    ensures OccursAt(text + ("&" + rest), pat, i)
            <==> if i + |pat| <= |text| then OccursAt(text, pat, i) else i > |text| && OccursAt(rest, pat, i - |text| - 1)
  {
    var q := text + ("&" + rest);
    assert q[|text|] == '&';
    if i + |pat| <= |text| {
      assert q[i..i + |pat|] == text[i..i + |pat|];
    } else if i > |text| {
      if i + |pat| <= |q| {
        assert q[i..i + |pat|] == rest[i - |text| - 1..i - |text| - 1 + |pat|];
      }
    } else if i + |pat| <= |q| {
      assert q[i..i + |pat|][|text| - i] == '&';
    }
  }

  /** A parameter's text ends at the separator that follows it. */
  lemma ValueInText(text: string, rest: string, start: nat)
    requires '&' !in text && start <= |text|
    ensures UpToAmpersand(text + ("&" + rest), start) == text[start..]
  {
    var q := text + ("&" + rest);
    assert q[|text|] == '&' && forall j :: 0 <= j < |text| ==> q[j] == text[j];
    assert FindChar(q, '&', start) == Some(|text|);
  }

  lemma ValueInRest(text: string, rest: string, start: nat)
    requires start <= |rest|
    ensures UpToAmpersand(text + ("&" + rest), start + |text| + 1) == UpToAmpersand(rest, start)
  {
    hide FindChar;
    var q, skip := text + ("&" + rest), |text| + 1;
    assert forall j :: skip <= j < |q| ==> q[j] == rest[j - skip];
    ShiftedAmpersand(q, rest, skip, start);
    match FindChar(rest, '&', start)
    case Some(end) => assert q[start + skip..end + skip] == rest[start..end];
    case None => assert q[start + skip..] == rest[start..];
  }

  lemma ParamFound(query: string, key: string, i: nat)
    requires Find(query, key + "=", 0) == Some(i)
    ensures i + |key| + 1 <= |query| && ParseParam(query, key) == UpToAmpersand(query, i + |key| + 1)
  {
    hide Find, UpToAmpersand;
  }

  lemma ParamMissing(query: string, key: string)
    requires Find(query, key + "=", 0) == None
    ensures ParseParam(query, key) == ""
  {
    hide Find;
  }

  /** A parameter whose text holds `key=` answers the query; otherwise the rest of the query does. */
  lemma ParseFirstParam(text: string, rest: string, key: string)
    requires '&' !in text && '&' !in key
    ensures ParseParam(text + ("&" + rest), key)
            == match Find(text, key + "=", 0) case Some(i) => text[i + |key| + 1..] case None => ParseParam(rest, key)
  {
    hide Find, ParseParam;
    match Find(text, key + "=", 0)
    case Some(i) => ParseInText(text, rest, key, i);
    case None => ParseInRest(text, rest, key);
  }

  lemma ParseInText(text: string, rest: string, key: string, i: nat)
    requires '&' !in text && '&' !in key && Find(text, key + "=", 0) == Some(i)
    ensures i + |key| < |text| && ParseParam(text + ("&" + rest), key) == text[i + |key| + 1..]
  {
    hide *;
    KeyPattern(key);
    FindInText(text, key + "=", rest, i);
    ParseAt(text, rest, text + ("&" + rest), key, i);
  }

  lemma ParseAt(text: string, rest: string, query: string, key: string, i: nat)
    requires '&' !in text && query == text + ("&" + rest) && i + |key| + 1 <= |text| && Find(query, key + "=", 0) == Some(i)
    ensures ParseParam(query, key) == text[i + |key| + 1..]
  {
    hide *;
    ParamFound(query, key, i);
    ValueInText(text, rest, i + |key| + 1);
  }

  lemma KeyPattern(key: string)
    ensures |key + "="| == |key| + 1 && ('&' in key + "=" <==> '&' in key)
  {
  }

  lemma FindInText(text: string, pat: string, rest: string, i: nat)
    requires '&' !in pat && pat != "" && Find(text, pat, 0) == Some(i)
    ensures i + |pat| <= |text| && Find(text + ("&" + rest), pat, 0) == Some(i)
  {
    hide OccursAt, Find;
    var q := text + ("&" + rest);
    OccurrenceFits(text, pat, i);
    OccurrenceKeepsToOneSide(text, pat, rest, i);
    forall j: nat | j < i
      ensures !OccursAt(q, pat, j)
    {
      OccurrenceKeepsToOneSide(text, pat, rest, j);
    }
    FirstOccurrence(q, pat, i);
  }

  lemma ParseInRest(text: string, rest: string, key: string)
    requires '&' !in text && '&' !in key && Find(text, key + "=", 0) == None
    ensures ParseParam(text + ("&" + rest), key) == ParseParam(rest, key)
  {
    hide OccursAt, Find, UpToAmpersand, ParseParam;
    var pat, q := key + "=", text + ("&" + rest);
    FindInRest(text, pat, rest);
    match Find(rest, pat, 0)
    case Some(i) =>
      ParamFound(rest, key, i);
      ParamFound(q, key, i + |text| + 1);
      ValueInRest(text, rest, i + |pat|);
    case None =>
      ParamMissing(rest, key);
      ParamMissing(q, key);
  }

  lemma FindInRest(text: string, pat: string, rest: string)
    requires '&' !in pat && pat != "" && Find(text, pat, 0) == None
    ensures Find(text + ("&" + rest), pat, 0)
            == match Find(rest, pat, 0) case Some(i) => Some(i + |text| + 1) case None => None
  {
    hide OccursAt, Find;
    var q, skip := text + ("&" + rest), |text| + 1;
    forall j: nat
      ensures OccursAt(q, pat, j) <==> j >= skip && OccursAt(rest, pat, j - skip)
    {
      OccurrenceKeepsToOneSide(text, pat, rest, j);
    }
    match Find(rest, pat, 0)
    case None => NoOccurrence(q, pat);
    case Some(i) => FirstOccurrence(q, pat, i + skip);
  }

  lemma ShiftedAmpersand(q: string, rest: string, skip: nat, start: nat)
    requires |q| == |rest| + skip && forall j :: skip <= j < |q| ==> q[j] == rest[j - skip]
    ensures FindChar(q, '&', start + skip)
            == match FindChar(rest, '&', start) case Some(i) => Some(i + skip) case None => None
  {
    var mine, theirs := FindChar(q, '&', start + skip), FindChar(rest, '&', start);
    if theirs.Some? {
      assert q[theirs.value + skip] == '&';
    }
    if mine.Some? {
      assert rest[mine.value - skip] == '&';
    }
  }

  lemma ParseLoneText(text: string, key: string)
    requires '&' !in text
    ensures ParseParam(text, key) == match Find(text, key + "=", 0) case Some(i) => text[i + |key| + 1..] case None => ""
  {
  }

  /** `ParseParam` searches for the text `key=` anywhere in the query. For every list of parameters and every key
      without '&' the result is exactly this. */
  lemma {:induction false} ParamsAreRead(ps: seq<Param>, key: string)
    requires PlainParams(ps) && '&' !in key
    ensures ParseParam(Join(ps), key) == FirstTextMatch(ps, key)
  {
    hide ParseParam, Find, ParamText;
    if ps == [] {
      EmptyQuery(key);
    } else if |ps| == 1 {
      ParseLoneText(ParamText(ps[0]), key);
      assert ps[1..] == [];
    } else {
      ParseFirstParam(ParamText(ps[0]), Join(ps[1..]), key);
      ParamsAreRead(ps[1..], key);
    }
  }

  lemma EmptyQuery(key: string)
    ensures ParseParam("", key) == ""
  {
  }

  /** The first parameter of that name. */
  predicate FirstNamed(ps: seq<Param>, key: string, i: nat) {
    i < |ps| && ps[i].name == key && forall j :: 0 <= j < i ==> ps[j].name != key
  }

  predicate HoldsText(p: Param, key: string) {
    Find(ParamText(p), key + "=", 0).Some?
  }

  function TailAfter(p: Param, key: string): string {
    match Find(ParamText(p), key + "=", 0)
    case Some(o) => ParamText(p)[o + |key| + 1..]
    case None => ""
  }

  lemma OwnTextMatches(p: Param, key: string)
    requires p.name == key
    ensures HoldsText(p, key) && TailAfter(p, key) == p.value
  {
    var text := ParamText(p);
    assert OccursAt(text, key + "=", 0);
    assert text[|key| + 1..] == p.value;
  }

  /** The first parameter whose text holds `key=`. */
  predicate FirstHolding(ps: seq<Param>, key: string, j: nat) {
    j < |ps| && HoldsText(ps[j], key) && forall l :: 0 <= l < j ==> !HoldsText(ps[l], key)
  }

  /** The value of the first parameter named `key` is returned if and only if no earlier parameter's text contains
      `key=`, or what follows it in the first that does happens to be the same value. */
  lemma ParamExactly(ps: seq<Param>, key: string, i: nat)
    requires PlainParams(ps) && '&' !in key && FirstNamed(ps, key, i)
    ensures ParseParam(Join(ps), key) == ps[i].value
            <==> forall j: nat :: j < i && FirstHolding(ps, key, j) ==> TailAfter(ps[j], key) == ps[i].value
  {
    hide ParseParam, Join, HoldsText, TailAfter, FirstTextMatch;
    ParamsAreRead(ps, key);
    OwnTextMatches(ps[i], key);
    var first := MatchIsFirst(ps, key, i);
    assert forall j: nat :: FirstHolding(ps, key, j) ==> j == first;
  }

  lemma {:induction false} MatchIsFirst(ps: seq<Param>, key: string, i: nat) returns (j: nat)
    requires i < |ps| && HoldsText(ps[i], key)
    ensures j <= i && FirstHolding(ps, key, j) && FirstTextMatch(ps, key) == TailAfter(ps[j], key)
  {
    hide ParamText, Find;
    if HoldsText(ps[0], key) {
      j := 0;
    } else {
      j := MatchIsFirst(ps[1..], key, i - 1);
      assert forall l :: 1 <= l < |ps| ==> ps[l] == ps[1..][l - 1];
      j := j + 1;
    }
  }

  // ------------------------------------------------------------------------------------------
  // The documented query: a host and a file
  // ------------------------------------------------------------------------------------------

  function HostQuery(host: string, name: string): string {
    "host=" + host + "&file=" + name
  }

  /** Looking for `file=` in a host parameter's text is looking for it in the host value. */
  lemma FindInHostText(host: string)
    ensures Find("host=" + host, "file=", 0)
            == match Find(host, "file=", 0) case Some(i) => Some(i + 5) case None => None
  {
    hide Find;
    var text := "host=" + host;
    forall j: nat
      ensures OccursAt(text, "file=", j) <==> j >= 5 && OccursAt(host, "file=", j - 5)
    {
      if j + 5 <= |text| {
        assert text[j..j + 5][0] == text[j];
        if j >= 5 {
          assert text[j..j + 5] == host[j - 5..j];
        } else {
          assert text[j] == "host="[j] && "file="[0] == 'f';
        }
      }
    }
    hide OccursAt;
    match Find(host, "file=", 0)
    case Some(i) => FirstOccurrence(text, "file=", i + 5);
    case None => NoOccurrence(text, "file=");
  }

  /** For every host and file value the result of the documented query is exactly this. */
  lemma HostQueryIsRead(host: string, name: string)
    requires '&' !in host && '&' !in name
    ensures ParseParam(HostQuery(host, name), "file")
            == match Find(host, "file=", 0) case Some(i) => host[i + 5..] case None => name
  {
    hide ParseParam, Find, OccursAt, HostQuery;
    var text, rest := "host=" + host, "file" + "=" + name;
    HostQueryParts(host, name);
    ParseFirstParam(text, rest, "file");
    FindInHostText(host);
    ParamIsRead("file", name);
    if Find(host, "file=", 0).Some? {
      var i := Find(host, "file=", 0).value;
      OccurrenceFits(host, "file=", i);
      HostTextTail(host, i + 5);
    }
  }

  lemma HostQueryParts(host: string, name: string)
    requires '&' !in host
    ensures HostQuery(host, name) == ("host=" + host) + ("&" + ("file" + "=" + name))
    ensures "file" + "=" == "file=" && '&' !in "host=" + host && '&' !in "file"
  {
  }

  lemma HostTextTail(host: string, i: nat)
    requires i <= |host|
    ensures ("host=" + host)[i + 5..] == host[i..]
  {
  }

  /** The file parameter of the documented query is read back if and only if the host value does not contain
      `file=`, or what follows it there happens to be the same name. */
  lemma FileParamExactly(host: string, name: string)
    requires '&' !in host && '&' !in name
    ensures ParseParam(HostQuery(host, name), "file") == name
            <==> !Contains(host, "file=") || host[Find(host, "file=", 0).value + 5..] == name
  {
    HostQueryIsRead(host, name);
    var at := Find(host, "file=", 0);
    assert at.Some? ==> OccursAt(host, "file=", at.value);
  }

  /** A query that goes wrong: a parameter whose name ends in "file" hides the one asked for. */
  lemma FileParamCanBeHidden()
    ensures ParseParam(Join([Param("profile", "x"), Param("file", "y")]), "file") == "x"
  {
    hide ParseParam, Find, Join, ParamText;
    var ps := [Param("profile", "x"), Param("file", "y")];
    ProfileHoldsFile(ps[0], ps[1]);
    ParamsAreRead(ps, "file");
  }

  lemma ProfileHoldsFile(p: Param, q: Param)
    requires p == Param("profile", "x") && q == Param("file", "y")
    ensures PlainParams([p, q]) && Find(ParamText(p), "file" + "=", 0) == Some(3) && ParamText(p)[8..] == "x"
  {
    hide Find;
    var text := ['p', 'r', 'o', 'f', 'i', 'l', 'e', '=', 'x'];
    var pat := ['f', 'i', 'l', 'e', '='];
    assert ParamText(p) == text && "file" + "=" == pat && ParamText(q) == ['f', 'i', 'l', 'e', '=', 'y'];
    assert text[3..8] == pat;
    forall j: nat | j < 3
      ensures !OccursAt(text, pat, j)
    {
      OccursFromFirst(text, pat, j);
    }
    FirstOccurrence(text, pat, 3);
  }

  lemma OccursFromFirst(s: string, p: string, i: nat)
    requires p != "" && i < |s|
    ensures OccursAt(s, p, i) ==> s[i] == p[0]
  {
    if OccursAt(s, p, i) {
      assert s[i..i + |p|][0] == s[i];
    }
  }

  // ------------------------------------------------------------------------------------------
  // Whatever the query: which files can be served
  // ------------------------------------------------------------------------------------------

  /** The path is that of a file directly in the default directory, named with a known prefix and suffix. */
  ghost predicate ServableAs(path: string, perf: bool) {
    exists name :: path == DEFAULT_OUTPUT_DIR + "/" + name && Clean(name)
                   && ".data" <= name[Max(|name| - 5, 0)..] && (exists k :: KindPrefix(k) <= name && (k == Perf <==> perf))
  }

  /** For every query, what is served is a direct child of the default directory, and only perf's files go through
      the perf pipeline. */
  lemma OnlyDirectChildrenAreServed(query: string, sizes: map<string, nat>)
    ensures match Flamegraph(query, sizes)
            case BadRequest => true
            case PerfScript(path) => ServableAs(path, true) && path in sizes && sizes[path] > 0
            case Folded(path) => ServableAs(path, false) && path in sizes && sizes[path] > 0
  {
    hide ParseParam, IsSafeFilename, ServableAs, ServedPath, TreatedAsPerf;
    var name := ParseParam(query, "file");
    if IsSafeFilename(name) {
      SafeNameIsServable(name);
    }
  }

  lemma SafeNameIsServable(name: string)
    requires IsSafeFilename(name)
    ensures ServableAs(ServedPath(name), TreatedAsPerf(name))
  {
    hide DotDot;
    DotDotIsFound(name);
    SamePath(DEFAULT_OUTPUT_DIR, name);
    var k := KindOf(name);
    assert KindPrefix(k) <= name && (k == Perf <==> TreatedAsPerf(name));
  }

  /** The kind a safe name is served as. */
  function KindOf(name: string): (k: Kind)
    requires IsSafeFilename(name)
    ensures KindPrefix(k) <= name && (k == Perf <==> TreatedAsPerf(name))
  {
    if TreatedAsPerf(name) then Perf else if "offcpu_" <= name then Offcpu else Profile
  }

  // ------------------------------------------------------------------------------------------
  // From the diagnoser's file to the flame graph
  // ------------------------------------------------------------------------------------------

  /** A non-empty file a diagnoser wrote to the default directory is served, from the very path that was
      written and by the pipeline for its kind, when its published name is requested. */
  lemma WrittenFileIsServed(k: Kind, process: string, thread: string, time: int, headers: string, sizes: map<string, nat>)
    requires Clean(process) && Clean(thread)
    requires var name := FileName(k, MakeTag(process, thread), time);
             '&' !in name && Sendable("/api/flamegraph?" + ("file=" + name))
    ensures var path := FilePath(DEFAULT_OUTPUT_DIR, k, MakeTag(process, thread), time);
            var target := ParseRequest(Request("/api/flamegraph?" + ("file=" + Basename(path)), headers));
            && target.path == "/api/flamegraph"
            && Flamegraph(target.query, sizes)
               == if path !in sizes || sizes[path] == 0 then BadRequest
                  else if k == Perf then PerfScript(path) else Folded(path)
  {
    hide FileName, FilePath, MakeTag, KindPrefix, IsSafeFilename, ServedPath, Basename, Sendable, ParseRequest, Request, ParseParam;
    var name := FileName(k, MakeTag(process, thread), time);
    NameContract(DEFAULT_OUTPUT_DIR, k, process, thread, time);
    assert "/api/flamegraph" + "?" + ("file=" + name) == "/api/flamegraph?" + ("file=" + name);
    RequestRoundTrip("/api/flamegraph", name, headers);
  }

  /** The endpoint serves the file written when its published name is requested, if and only if process and thread names
      are clean and hold no '&', at which the reader of the query stops. */
  lemma WrittenFileIsServedExactly(k: Kind, process: string, thread: string, time: int, headers: string, sizes: map<string, nat>)
    requires var path := FilePath(DEFAULT_OUTPUT_DIR, k, MakeTag(process, thread), time);
             path in sizes && sizes[path] > 0 && Sendable("/api/flamegraph?" + ("file=" + Basename(path)))
    ensures var path := FilePath(DEFAULT_OUTPUT_DIR, k, MakeTag(process, thread), time);
            var target := ParseRequest(Request("/api/flamegraph?" + ("file=" + Basename(path)), headers));
            Flamegraph(target.query, sizes) == (if k == Perf then PerfScript(path) else Folded(path))
            <==> Clean(process) && Clean(thread) && '&' !in process && '&' !in thread
  {
    hide FileName, FilePath, MakeTag, KindPrefix, DotDot, Basename, Sendable, ParseRequest, Request, ParseParam, Flamegraph;
    var name := FileName(k, MakeTag(process, thread), time);
    var path := FilePath(DEFAULT_OUTPUT_DIR, k, MakeTag(process, thread), time);
    AmpersandInName(k, process, thread, time);
    NameContract(DEFAULT_OUTPUT_DIR, k, process, thread, time);
    if Clean(process) && Clean(thread) && '&' !in name {
      WrittenFileIsServed(k, process, thread, time, headers, sizes);
    }
    var published := "file=" + Basename(path);
    assert "/api/flamegraph" + "?" + published == "/api/flamegraph?" + published;
    RequestIsTakenApart("/api/flamegraph?" + published, headers);
    TargetSplits("/api/flamegraph", published);
    OnlyItsNameServes(published, name, sizes);
  }

  /** The file of that name is served only to a query that asks for exactly this name, which the reader accepts. */
  lemma OnlyItsNameServes(query: string, name: string, sizes: map<string, nat>)
    ensures var served := Flamegraph(query, sizes);
            served == PerfScript(ServedPath(name)) || served == Folded(ServedPath(name)) ==> IsSafeFilename(name) && '&' !in name
  {
    hide IsSafeFilename, TreatedAsPerf;
    var asked := ParseParam(query, "file");
    if ServedPath(asked) == ServedPath(name) {
      assert asked == ServedPath(asked)[|ServedPath("")|..] == name;
    }
    NoAmpersandIsRead(query, "file");
  }

  lemma NoAmpersandIsRead(query: string, key: string)
    ensures '&' !in ParseParam(query, key)
  {
  }
}
