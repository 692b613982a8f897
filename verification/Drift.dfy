/**
 The drift checker's parser: the header and the marked regions of a copied file.
 */
module Drift {
  import opened Wrappers
  import opened Strings
  import opened Headers

  /** One header entry, with the number of its line counted from 1. */
  datatype SourceRef = SourceRef(mod: string, version: string, path: string, sha: string, line: nat)

  /** `end` is 0 while the region is open. */
  datatype Region = Region(path: string, begin: nat, end: nat)

  datatype Unit = Unit(sources: seq<SourceRef>, regions: seq<Region>, reason: string, deleteWhen: string)

  datatype ParseError =
    | BeginInside(line: nat)
    | EndWithoutBegin(line: nat)
    | EndOfOther(line: nat)
    | NeverClosed(begin: nat)
    | NoHeader
    | NoRegion
    | NoReason
    | Undeclared(begin: nat)

  // ----- What parsing means, line by line -----

  datatype Progress = Progress(unit: Unit, open: bool)

  const START := Progress(Unit([], [], "", ""), false)

  function Advance(p: Progress, n: nat, l: Line): Result<Progress, ParseError> {
    var u := p.unit;
    match l
    case Source(mod, version, path, sha) =>
      Ok(p.(unit := u.(sources := u.sources + [SourceRef(mod, version, path, sha, n)])))
    case Reason(text) => Ok(p.(unit := u.(reason := text)))
    case DeleteWhen(text) => Ok(p.(unit := u.(deleteWhen := text)))
    case Begin(path) =>
      if p.open then Err(BeginInside(n))
      else Ok(Progress(u.(regions := u.regions + [Region(path, n, 0)]), true))
    case End(path) =>
      if !p.open || u.regions == [] then Err(EndWithoutBegin(n))
      else
        var last := |u.regions| - 1;
        if u.regions[last].path != path then Err(EndOfOther(n))
        else Ok(Progress(u.(regions := u.regions[last := u.regions[last].(end := n)]), false))
    case Text => Ok(p)
  }

  function Scan(lines: seq<Line>): Result<Progress, ParseError> {
    if lines == [] then Ok(START)
    else
      match Scan(lines[..|lines| - 1])
      case Err(e) => Err(e)
      case Ok(p) => Advance(p, |lines|, lines[|lines| - 1])
  }

  function Declared(sources: seq<SourceRef>): set<string> {
    set s | s in sources :: s.path
  }

  function FirstUndeclared(regions: seq<Region>, declared: set<string>): Option<nat> {
    if regions == [] then None
    else if regions[0].path !in declared then Some(regions[0].begin)
    else FirstUndeclared(regions[1..], declared)
  }

  /** The checks after the last line. */
  function Completed(p: Progress): Result<Unit, ParseError> {
    var u := p.unit;
    if p.open then Err(NeverClosed(if u.regions == [] then 0 else u.regions[|u.regions| - 1].begin))
    else if u.sources == [] then Err(NoHeader)
    else if u.regions == [] then Err(NoRegion)
    else if u.reason == "" || u.deleteWhen == "" then Err(NoReason)
    else
      match FirstUndeclared(u.regions, Declared(u.sources))
      case Some(begin) => Err(Undeclared(begin))
      case None => Ok(u)
  }

  function Parsed(lines: seq<Line>): Result<Unit, ParseError> {
    match Scan(lines)
    case Err(e) => Err(e)
    case Ok(p) => Completed(p)
  }

  function Kinds(lines: seq<string>): seq<Line> {
    seq(|lines|, i requires 0 <= i < |lines| => Classify(lines[i]))
  }

  // ----- parseUnit -----

  /** `parseUnit` on the text of a file. */
  method ParseUnit(data: string) returns (r: Result<Unit, ParseError>)
    ensures r == Parsed(Kinds(Split(data, '\n')))
  {
    r := ParseLines(Kinds(Split(data, '\n')));
  }

  /**
   Its loop over the classified lines. The regions live in a growing buffer, as a Go slice does, and
   `open` is a pointer into it: `openBuf[openAt]`. A closed region is written through that pointer, which
   is right only as long as no append has moved the regions to another buffer meanwhile.
   */
  method ParseLines(lines: seq<Line>) returns (r: Result<Unit, ParseError>)
    ensures r == Parsed(lines)
  {
    var sources: seq<SourceRef> := [];
    var reason, deleteWhen := "", "";
    var buf := new Region[0];
    var n := 0;
    var openBuf: array?<Region> := null;
    var openAt := 0;
    for i := 0 to |lines|
      invariant fresh(buf) && n <= buf.Length
      invariant openBuf != null ==> openBuf == buf && openAt == n - 1 && openAt >= 0
      invariant Scan(lines[..i]) == Ok(Progress(Unit(sources, buf[..n], reason, deleteWhen), openBuf != null))
    {
      ScanStep(lines, i);
      match lines[i] {
        case Source(mod, version, path, sha) => sources := sources + [SourceRef(mod, version, path, sha, i + 1)];
        case Reason(text) => reason := text;
        case DeleteWhen(text) => deleteWhen := text;
        case Begin(path) =>
          if openBuf != null {
            return Err(BeginInside(i + 1));
          }
          buf, n := Append(buf, n, Region(path, i + 1, 0));
          openBuf, openAt := buf, n - 1;
        case End(path) =>
          if openBuf == null {
            return Err(EndWithoutBegin(i + 1));
          }
          if openBuf[openAt].path != path {
            return Err(EndOfOther(i + 1));
          }
          CloseRegion(openBuf, openAt, n, i + 1);
          openBuf := null;
        case Text =>
      }
    }
    assert lines[..|lines|] == lines;
    if openBuf != null {
      return Err(NeverClosed(openBuf[openAt].begin));
    }
    if |sources| == 0 {
      return Err(NoHeader);
    }
    if n == 0 {
      return Err(NoRegion);
    }
    if reason == "" || deleteWhen == "" {
      return Err(NoReason);
    }
    r := CheckDeclared(Unit(sources, buf[..n], reason, deleteWhen));
  }

  /** `open.End = n`: the write through the pointer. */
  method CloseRegion(open: array<Region>, at: nat, n: nat, line: nat)
    requires at < n <= open.Length
    modifies open
    ensures open[..n] == old(open[..n])[at := old(open[at]).(end := line)]
  {
    open[at] := open[at].(end := line);
  }

  /** One line further; and if that line is an error, it is the result of the whole file. */
  lemma ScanStep(lines: seq<Line>, i: nat)
    requires i < |lines| && Scan(lines[..i]).Ok?
    ensures Scan(lines[..i + 1]) == Advance(Scan(lines[..i]).value, i + 1, lines[i])
    ensures Scan(lines[..i + 1]).Err? ==> Scan(lines) == Scan(lines[..i + 1])
  {
    assert lines[..i + 1][..i] == lines[..i];
    if Scan(lines[..i + 1]).Err? {
      ScanFails(lines, i + 1);
    }
  }

  /** Go's append: in place while there is room, else into a larger copy. */
  method Append(buf: array<Region>, n: nat, region: Region) returns (out: array<Region>, m: nat)
    requires n <= buf.Length
    modifies buf
    ensures m == n + 1 <= out.Length
    ensures out == buf || fresh(out)
    ensures out[..m] == old(buf[..n]) + [region]
  {
    out := buf;
    if n == buf.Length {
      out := new Region[2 * n + 1](_ => region);
      for i := 0 to n
        invariant out[..i] == buf[..i]
        invariant buf[..] == old(buf[..])
      {
        out[i] := buf[i];
      }
    }
    out[n] := region;
    m := n + 1;
  }

  method CheckDeclared(u: Unit) returns (r: Result<Unit, ParseError>)
    ensures r == match FirstUndeclared(u.regions, Declared(u.sources))
                 case Some(begin) => Err(Undeclared(begin))
                 case None => Ok(u)
  {
    var declared: set<string> := {};
    for i := 0 to |u.sources|
      invariant declared == Declared(u.sources[..i])
    {
      assert u.sources[..i + 1] == u.sources[..i] + [u.sources[i]];
      declared := declared + {u.sources[i].path};
    }
    assert u.sources[..|u.sources|] == u.sources;
    for i := 0 to |u.regions|
      invariant FirstUndeclared(u.regions, declared) == FirstUndeclared(u.regions[i..], declared)
    {
      if u.regions[i].path !in declared {
        return Err(Undeclared(u.regions[i].begin));
      }
    }
    r := Ok(u);
  }

  /** An error stays: the rest of the file does not matter. */
  lemma {:induction false} ScanFails(lines: seq<Line>, i: nat)
    requires i <= |lines| && Scan(lines[..i]).Err?
    ensures Scan(lines) == Scan(lines[..i])
    decreases |lines|
  {
    if i < |lines| {
      assert lines[..|lines| - 1][..i] == lines[..i];
      ScanFails(lines[..|lines| - 1], i);
    } else {
      assert lines[..i] == lines;
    }
  }

  // ----- Which files are accepted -----

  datatype Marker = Marker(line: nat, begin: bool, path: string)

  /** The markers of a file, in order. */
  function Markers(lines: seq<Line>): seq<Marker> {
    if lines == [] then []
    else
      var n := |lines| - 1;
      Markers(lines[..n])
      + match lines[n]
        case Begin(path) => [Marker(n + 1, true, path)]
        case End(path) => [Marker(n + 1, false, path)]
        case _ => []
  }

  /** Begin and end in turn, each end with the path of its begin. */
  ghost predicate Alternates(ms: seq<Marker>) {
    forall j :: 0 <= j < |ms| ==>
                  (ms[j].begin <==> j % 2 == 0) && (j % 2 == 1 ==> ms[j].path == ms[j - 1].path)
  }

  /** The region of each begin marker, closed by the marker after it. */
  function Regions(ms: seq<Marker>): seq<Region> {
    seq((|ms| + 1) / 2, j requires 0 <= j < (|ms| + 1) / 2 =>
      Region(ms[2 * j].path, ms[2 * j].line, if 2 * j + 1 < |ms| then ms[2 * j + 1].line else 0))
  }

  /** The last text of a kind of header line, or nothing. */
  function LastReason(lines: seq<Line>): string {
    if lines == [] then ""
    else if lines[|lines| - 1].Reason? then lines[|lines| - 1].text else LastReason(lines[..|lines| - 1])
  }

  function LastDeleteWhen(lines: seq<Line>): string {
    if lines == [] then ""
    else if lines[|lines| - 1].DeleteWhen? then lines[|lines| - 1].text else LastDeleteWhen(lines[..|lines| - 1])
  }

  function Sources(lines: seq<Line>): seq<SourceRef> {
    if lines == [] then []
    else
      var n := |lines| - 1;
      Sources(lines[..n])
      + match lines[n]
        case Source(mod, version, path, sha) => [SourceRef(mod, version, path, sha, n + 1)]
        case _ => []
  }

  lemma AlternatesStep(ms: seq<Marker>, m: Marker)
    ensures Alternates(ms + [m]) <==>
            && Alternates(ms)
            && (m.begin <==> |ms| % 2 == 0)
            && (|ms| % 2 == 1 ==> m.path == ms[|ms| - 1].path)
  {
    var all := ms + [m];
    assert all[|ms|] == m;
    assert forall j :: 0 <= j < |ms| ==> all[j] == ms[j];
    if Alternates(all) {
      forall j | 0 <= j < |ms|
        ensures (ms[j].begin <==> j % 2 == 0) && (j % 2 == 1 ==> ms[j].path == ms[j - 1].path)
      {
        assert all[j] == ms[j];
      }
    }
  }

  lemma RegionsStep(ms: seq<Marker>, m: Marker)
    ensures |ms| % 2 == 0 ==> Regions(ms + [m]) == Regions(ms) + [Region(m.path, m.line, 0)]
    ensures |ms| % 2 == 1 ==> var k := |Regions(ms)| - 1;
                              Regions(ms + [m]) == Regions(ms)[k := Regions(ms)[k].(end := m.line)]
  {
  }

  /** What the scan has seen of the markers so far. */
  ghost predicate Tracks(p: Progress, ms: seq<Marker>) {
    Alternates(ms) && p.unit.regions == Regions(ms) && (p.open <==> |ms| % 2 == 1)
  }

  lemma BeginStep(p: Progress, ms: seq<Marker>, n: nat, path: string)
    requires Tracks(p, ms)
    ensures var next := Advance(p, n, Begin(path));
            && (next.Ok? <==> Alternates(ms + [Marker(n, true, path)]))
            && (next.Ok? ==> Tracks(next.value, ms + [Marker(n, true, path)])
                             && next.value.unit == p.unit.(regions := next.value.unit.regions))
  {
    AlternatesStep(ms, Marker(n, true, path));
    RegionsStep(ms, Marker(n, true, path));
  }

  lemma EndStep(p: Progress, ms: seq<Marker>, n: nat, path: string)
    requires Tracks(p, ms)
    ensures var next := Advance(p, n, End(path));
            && (next.Ok? <==> Alternates(ms + [Marker(n, false, path)]))
            && (next.Ok? ==> Tracks(next.value, ms + [Marker(n, false, path)])
                             && next.value.unit == p.unit.(regions := next.value.unit.regions))
  {
    AlternatesStep(ms, Marker(n, false, path));
    RegionsStep(ms, Marker(n, false, path));
    if |ms| % 2 == 1 {
      assert Regions(ms)[|Regions(ms)| - 1].path == ms[|ms| - 1].path;
    }
  }

  lemma PrefixAlternates(ms: seq<Marker>, m: Marker)
    requires Alternates(ms + [m])
    ensures Alternates(ms)
  {
    AlternatesStep(ms, m);
  }

  /** The header entries collected so far. */
  ghost predicate Collects(u: Unit, lines: seq<Line>) {
    u.sources == Sources(lines) && u.reason == LastReason(lines) && u.deleteWhen == LastDeleteWhen(lines)
  }

  lemma {:induction false} ScanTracks(lines: seq<Line>)
    ensures Scan(lines).Ok? <==> Alternates(Markers(lines))
    ensures Scan(lines).Ok? ==> Tracks(Scan(lines).value, Markers(lines)) && Collects(Scan(lines).value.unit, lines)
  {
    if lines != [] {
      var n := |lines| - 1;
      var front := lines[..n];
      var ms := Markers(front);
      ScanTracks(front);
      match lines[n] {
        case Begin(path) =>
          assert Markers(lines) == ms + [Marker(n + 1, true, path)];
          if Scan(front).Ok? {
            BeginStep(Scan(front).value, ms, n + 1, path);
          } else if Alternates(Markers(lines)) {
            PrefixAlternates(ms, Marker(n + 1, true, path));
          }
        case End(path) =>
          assert Markers(lines) == ms + [Marker(n + 1, false, path)];
          if Scan(front).Ok? {
            EndStep(Scan(front).value, ms, n + 1, path);
          } else if Alternates(Markers(lines)) {
            PrefixAlternates(ms, Marker(n + 1, false, path));
          }
        case _ =>
          assert Markers(lines) == ms;
      }
    }
  }

  /** The scan succeeds exactly when the markers alternate, and then has collected everything. */
  lemma ScanMeans(lines: seq<Line>)
    ensures Scan(lines).Ok? <==> Alternates(Markers(lines))
    ensures Scan(lines).Ok? ==>
              Scan(lines).value == Progress(Unit(Sources(lines), Regions(Markers(lines)), LastReason(lines),
                                                 LastDeleteWhen(lines)),
                                            |Markers(lines)| % 2 == 1)
  {
    ScanTracks(lines);
  }

  lemma {:induction false} FirstUndeclaredNone(regions: seq<Region>, declared: set<string>)
    ensures FirstUndeclared(regions, declared).None? <==>
            forall j :: 0 <= j < |regions| ==> regions[j].path in declared
  {
    if regions != [] {
      FirstUndeclaredNone(regions[1..], declared);
    }
  }

  /** The header is complete and the markers pair up under declared paths. */
  ghost predicate WellFormed(lines: seq<Line>) {
    var ms := Markers(lines);
    && Alternates(ms) && |ms| % 2 == 0 && ms != []
    && Sources(lines) != [] && LastReason(lines) != "" && LastDeleteWhen(lines) != ""
    && forall j :: 0 <= j < |ms| ==> ms[j].path in Declared(Sources(lines))
  }

  /** A file is accepted exactly when it is well formed, and the unit is what its lines say. */
  lemma AcceptsExactlyWellFormed(lines: seq<Line>)
    ensures Parsed(lines).Ok? <==> WellFormed(lines)
    ensures Parsed(lines).Ok? ==>
              Parsed(lines).value == Unit(Sources(lines), Regions(Markers(lines)), LastReason(lines),
                                          LastDeleteWhen(lines))
  {
    ScanMeans(lines);
    var ms := Markers(lines);
    var declared := Declared(Sources(lines));
    if Alternates(ms) && |ms| % 2 == 0 {
      PathsDeclared(ms, declared);
      FirstUndeclaredNone(Regions(ms), declared);
    }
  }

  lemma PathsDeclared(ms: seq<Marker>, declared: set<string>)
    requires Alternates(ms) && |ms| % 2 == 0
    ensures (forall j :: 0 <= j < |ms| ==> ms[j].path in declared) <==>
            (forall j :: 0 <= j < |Regions(ms)| ==> Regions(ms)[j].path in declared)
  {
    if forall j :: 0 <= j < |Regions(ms)| ==> Regions(ms)[j].path in declared {
      forall j | 0 <= j < |ms|
        ensures ms[j].path in declared
      {
        assert Regions(ms)[j / 2].path in declared;
      }
    }
  }

  // ----- Why a file is rejected -----

  /** The line numbered `n` is a marker out of turn behind these markers. */
  ghost predicate Misfits(ms: seq<Marker>, n: nat, l: Line, e: ParseError) {
    match l
    case Begin(_) => |ms| % 2 == 1 && e == BeginInside(n)
    case End(path) =>
      if |ms| % 2 == 0 then e == EndWithoutBegin(n) else path != ms[|ms| - 1].path && e == EndOfOther(n)
    case _ => false
  }

  /** The markers of the first `n` lines are in turn, and the next line is one out of turn. */
  ghost predicate BreaksAt(lines: seq<Line>, n: nat, e: ParseError) {
    n < |lines| && Alternates(Markers(lines[..n])) && Misfits(Markers(lines[..n]), n + 1, lines[n], e)
  }

  lemma AdvanceFailsIff(p: Progress, ms: seq<Marker>, n: nat, l: Line, e: ParseError)
    requires Tracks(p, ms)
    ensures Advance(p, n, l) == Err(e) <==> Misfits(ms, n, l, e)
  {
    if |ms| % 2 == 1 {
      assert Regions(ms)[|Regions(ms)| - 1].path == ms[|ms| - 1].path;
    }
  }

  lemma BreakIsFirst(lines: seq<Line>, n: nat, e: ParseError)
    requires BreaksAt(lines, n, e)
    ensures Scan(lines) == Err(e)
  {
    ScanTracks(lines[..n]);
    AdvanceFailsIff(Scan(lines[..n]).value, Markers(lines[..n]), n + 1, lines[n], e);
    ScanStep(lines, n);
  }

  lemma {:induction false} ScanBreaks(lines: seq<Line>, e: ParseError) returns (n: nat)
    requires Scan(lines) == Err(e)
    ensures BreaksAt(lines, n, e)
  {
    var last := |lines| - 1;
    var front := lines[..last];
    if Scan(front).Err? {
      n := ScanBreaks(front, e);
      assert front[..n] == lines[..n];
    } else {
      n := last;
      ScanTracks(front);
      AdvanceFailsIff(Scan(front).value, Markers(front), n + 1, lines[n], e);
    }
  }

  /** The scan fails with an error if and only if the first marker out of turn is that error's line. */
  lemma ScanFailsIff(lines: seq<Line>, e: ParseError)
    ensures Scan(lines) == Err(e) <==> exists n :: BreaksAt(lines, n, e)
  {
    if Scan(lines) == Err(e) {
      var n := ScanBreaks(lines, e);
    }
    if n :| BreaksAt(lines, n, e) {
      BreakIsFirst(lines, n, e);
    }
  }

  /** What is missing when the markers are in turn, in the order in which it is looked for. */
  ghost predicate Lacks(lines: seq<Line>, e: ParseError) {
    var ms := Markers(lines);
    && Alternates(ms)
    && match e
       case NeverClosed(begin) => |ms| % 2 == 1 && begin == ms[|ms| - 1].line
       case NoHeader => |ms| % 2 == 0 && Sources(lines) == []
       case NoRegion => ms == [] && Sources(lines) != []
       case NoReason =>
         && |ms| % 2 == 0 && ms != [] && Sources(lines) != []
         && (LastReason(lines) == "" || LastDeleteWhen(lines) == "")
       case Undeclared(begin) =>
         && |ms| % 2 == 0 && Sources(lines) != [] && LastReason(lines) != "" && LastDeleteWhen(lines) != ""
         && exists j: nat :: FirstStray(ms, Declared(Sources(lines)), j) && begin == ms[j].line
       case _ => false
  }

  /** The first begin marker whose path no header entry declares. */
  ghost predicate FirstStray(ms: seq<Marker>, declared: set<string>, j: nat) {
    && j < |ms| && j % 2 == 0 && ms[j].path !in declared
    && forall i :: 0 <= i < j && i % 2 == 0 ==> ms[i].path in declared
  }

  lemma {:induction false} FirstUndeclaredIs(regions: seq<Region>, declared: set<string>) returns (j: nat)
    requires FirstUndeclared(regions, declared).Some?
    ensures j < |regions| && regions[j].path !in declared
    ensures FirstUndeclared(regions, declared) == Some(regions[j].begin)
    ensures forall i :: 0 <= i < j ==> regions[i].path in declared
  {
    if regions[0].path !in declared {
      j := 0;
    } else {
      var k := FirstUndeclaredIs(regions[1..], declared);
      j := k + 1;
    }
  }

  /**
   A file is rejected with an error if and only if that is the error of the first marker out of turn,
   or, when all are in turn, of the first thing its header lacks.
   */
  lemma RejectedIff(lines: seq<Line>, e: ParseError)
    ensures Parsed(lines) == Err(e) <==> (exists n :: BreaksAt(lines, n, e)) || Lacks(lines, e)
  {
    ScanFailsIff(lines, e);
    ScanMeans(lines);
    if Scan(lines).Ok? {
      if Parsed(lines) == Err(e) {
        LacksSomething(lines, e);
      }
      if Lacks(lines, e) {
        LackIsReported(lines, e);
      }
    }
  }

  lemma LackIsReported(lines: seq<Line>, e: ParseError)
    requires Lacks(lines, e)
    ensures var ms := Markers(lines);
            Completed(Progress(Unit(Sources(lines), Regions(ms), LastReason(lines), LastDeleteWhen(lines)),
                               |ms| % 2 == 1)) == Err(e)
  {
    var ms := Markers(lines);
    if e.Undeclared? {
      var j: nat :| FirstStray(ms, Declared(Sources(lines)), j) && e.begin == ms[j].line;
      StrayRegion(ms, Declared(Sources(lines)), j);
    } else if |ms| % 2 == 1 {
      LastRegion(ms);
    }
  }

  lemma StrayRegion(ms: seq<Marker>, declared: set<string>, j: nat)
    requires |ms| % 2 == 0 && FirstStray(ms, declared, j)
    ensures FirstUndeclared(Regions(ms), declared) == Some(ms[j].line) && ms != []
  {
    var regions := Regions(ms);
    FirstUndeclaredNone(regions, declared);
    assert regions[j / 2].path == ms[j].path;
    var k := FirstUndeclaredIs(regions, declared);
    forall i | 0 <= i < j / 2
      ensures regions[i].path in declared
    {
      assert regions[i].path == ms[2 * i].path;
    }
  }

  lemma LacksSomething(lines: seq<Line>, e: ParseError)
    requires Alternates(Markers(lines))
    requires var ms := Markers(lines);
             Completed(Progress(Unit(Sources(lines), Regions(ms), LastReason(lines), LastDeleteWhen(lines)),
                                |ms| % 2 == 1)) == Err(e)
    ensures Lacks(lines, e)
  {
    var ms := Markers(lines);
    if e.Undeclared? {
      var j := FirstUndeclaredIs(Regions(ms), Declared(Sources(lines)));
      StrayMarker(ms, Declared(Sources(lines)), j);
      assert FirstStray(ms, Declared(Sources(lines)), 2 * j);
    } else if |ms| % 2 == 1 {
      LastRegion(ms);
    }
  }

  lemma LastRegion(ms: seq<Marker>)
    requires |ms| % 2 == 1
    ensures Regions(ms) != [] && Regions(ms)[|Regions(ms)| - 1].begin == ms[|ms| - 1].line
  {
  }

  lemma StrayMarker(ms: seq<Marker>, declared: set<string>, j: nat)
    requires |ms| % 2 == 0 && j < |Regions(ms)| && Regions(ms)[j].path !in declared
    requires forall i :: 0 <= i < j ==> Regions(ms)[i].path in declared
    ensures FirstStray(ms, declared, 2 * j) && ms[2 * j].line == Regions(ms)[j].begin
  {
    forall i | 0 <= i < 2 * j && i % 2 == 0
      ensures ms[i].path in declared
    {
      assert Regions(ms)[i / 2].path in declared;
    }
  }

  lemma {:induction false} MarkersIncrease(lines: seq<Line>)
    ensures forall i :: 0 <= i < |Markers(lines)| ==> 1 <= Markers(lines)[i].line <= |lines|
    ensures forall i, j :: 0 <= i < j < |Markers(lines)| ==> Markers(lines)[i].line < Markers(lines)[j].line
  {
    if lines != [] {
      MarkersIncrease(lines[..|lines| - 1]);
    }
  }

  /** An accepted region spans at least its two markers. */
  lemma RegionIsNotEmpty(lines: seq<Line>, i: nat)
    requires Parsed(lines).Ok? && i < |Parsed(lines).value.regions|
    ensures var r := Parsed(lines).value.regions[i]; 1 <= r.begin < r.end <= |lines|
  {
    AcceptsExactlyWellFormed(lines);
    MarkersIncrease(lines);
    RegionIs(Markers(lines), i);
  }

  lemma RegionIs(ms: seq<Marker>, i: nat)
    requires |ms| % 2 == 0 && i < |Regions(ms)|
    ensures 2 * i + 1 < |ms| && Regions(ms)[i] == Region(ms[2 * i].path, ms[2 * i].line, ms[2 * i + 1].line)
  {
  }

  /** Accepted regions are disjoint, and in the order of their lines. */
  lemma RegionsAreDisjointAndOrdered(lines: seq<Line>, i: nat, j: nat)
    requires Parsed(lines).Ok? && i < j < |Parsed(lines).value.regions|
    ensures var r := Parsed(lines).value.regions;
            1 <= r[i].begin < r[i].end < r[j].begin < r[j].end <= |lines|
  {
    RegionIsNotEmpty(lines, i);
    RegionIsNotEmpty(lines, j);
    AcceptsExactlyWellFormed(lines);
    MarkersIncrease(lines);
    RegionIs(Markers(lines), i);
    RegionIs(Markers(lines), j);
  }
}
