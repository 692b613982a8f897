/**
 Comparing a copied file's sources with the pinned modules, and rewriting its header lines in place.
 */
module DriftUpdate {
  import opened Wrappers
  import opened Seqs
  import opened Strings
  import opened Headers
  import opened Drift

  /** Reading and hashing a file of a pinned module. */
  datatype Sum = Hash(h: string) | Missing | Unreadable

  /** What the go tool says: the pinned version of each module, and the hashes of its files. */
  datatype Resolver = Resolver(versions: map<string, string>, sums: map<(string, string), Sum>)

  /** `NoSuchLine` is the index panic of a unit that does not belong to the file. */
  datatype Failure = NotPinned(mod: string) | CannotRead(mod: string, path: string) | NoSuchLine(line: nat)

  function SumOf(r: Resolver, s: SourceRef): Sum {
    if (s.mod, s.path) in r.sums then r.sums[(s.mod, s.path)] else Missing
  }

  // ----- Check -----

  datatype Finding = Gone(source: SourceRef) | Changed(source: SourceRef, now: string)

  /** One more source: nothing, a finding, or a failure. */
  function Verdict(s: SourceRef, r: Resolver): Result<seq<Finding>, Failure> {
    if s.mod !in r.versions then Err(NotPinned(s.mod))
    else
      match SumOf(r, s)
      case Missing => Ok([Gone(s)])
      case Unreadable => Err(CannotRead(s.mod, s.path))
      case Hash(h) => Ok(if h == s.sha then [] else [Changed(s, r.versions[s.mod])])
  }

  function Joined(a: Result<seq<Finding>, Failure>, b: Result<seq<Finding>, Failure>): Result<seq<Finding>, Failure> {
    if a.Err? then a else if b.Err? then b else Ok(a.value + b.value)
  }

  /** What `Check` reports for some sources; it stops at the first it cannot resolve or read. */
  function Findings(sources: seq<SourceRef>, r: Resolver): Result<seq<Finding>, Failure> {
    if sources == [] then Ok([])
    else Joined(Findings(sources[..|sources| - 1], r), Verdict(sources[|sources| - 1], r))
  }

  lemma FindingsSnoc(sources: seq<SourceRef>, s: SourceRef, r: Resolver)
    ensures Findings(sources + [s], r) == Joined(Findings(sources, r), Verdict(s, r))
  {
    assert (sources + [s])[..|sources|] == sources;
  }

  function AllSources(units: seq<Unit>): seq<SourceRef> {
    if units == [] then [] else AllSources(units[..|units| - 1]) + units[|units| - 1].sources
  }

  method Check(r: Resolver, units: seq<Unit>) returns (res: Result<seq<Finding>, Failure>)
    ensures res == Findings(AllSources(units), r)
  {
    var findings: seq<Finding> := [];
    for i := 0 to |units|
      invariant Findings(AllSources(units[..i]), r) == Ok(findings)
    {
      var sources := units[i].sources;
      ghost var before := AllSources(units[..i]);
      NextUnit(units, i);
      for j := 0 to |sources|
        invariant Findings(before + sources[..j], r) == Ok(findings)
      {
        var s := sources[j];
        NextSource(before, units, i, j, r);
        assert findings + [] == findings;
        if s.mod !in r.versions {
          return Err(NotPinned(s.mod));
        }
        match SumOf(r, s) {
          case Missing =>
            findings := findings + [Gone(s)];
          case Unreadable =>
            return Err(CannotRead(s.mod, s.path));
          case Hash(h) =>
            if h != s.sha {
              findings := findings + [Changed(s, r.versions[s.mod])];
            }
        }
      }
    }
    assert units[..|units|] == units;
    res := Ok(findings);
  }

  /** The sources of the units read so far, at the start and at the end of the next unit. */
  lemma NextUnit(units: seq<Unit>, i: nat)
    requires i < |units|
    ensures var sources := units[i].sources;
            && AllSources(units[..i]) + sources[..0] == AllSources(units[..i])
            && AllSources(units[..i + 1]) == AllSources(units[..i]) + sources[..|sources|]
  {
    assert units[..i + 1][..i] == units[..i];
  }

  /** One step of `Check`: what the next source adds, and that its failure is final. */
  lemma NextSource(before: seq<SourceRef>, units: seq<Unit>, i: nat, j: nat, r: Resolver)
    requires i < |units| && j < |units[i].sources| && before == AllSources(units[..i])
    ensures var some, s := before + units[i].sources[..j], units[i].sources[j];
            && Findings(before + units[i].sources[..j + 1], r) == Joined(Findings(some, r), Verdict(s, r))
            && (Joined(Findings(some, r), Verdict(s, r)).Err? ==>
                  Findings(AllSources(units), r) == Joined(Findings(some, r), Verdict(s, r)))
  {
    var some, s := before + units[i].sources[..j], units[i].sources[j];
    assert before + units[i].sources[..j + 1] == some + [s];
    FindingsSnoc(some, s, r);
    PrefixOfAll(units, i, j + 1);
    if Findings(some + [s], r).Err? {
      FindingsFail(some + [s], AllSources(units), r);
    }
  }

  lemma {:induction false} PrefixOfAll(units: seq<Unit>, i: nat, j: nat)
    requires i < |units| && j <= |units[i].sources|
    ensures AllSources(units[..i]) + units[i].sources[..j] <= AllSources(units)
    decreases |units|
  {
    var n := |units| - 1;
    assert units[..n][..i] == units[..i];
    if i < n {
      PrefixOfAll(units[..n], i, j);
    }
  }

  lemma {:induction false} FindingsFail(some: seq<SourceRef>, all: seq<SourceRef>, r: Resolver)
    requires some <= all && Findings(some, r).Err?
    ensures Findings(all, r) == Findings(some, r)
    decreases |all|
  {
    if some != all {
      var n := |all| - 1;
      assert some <= all[..n];
      FindingsFail(some, all[..n], r);
    }
  }

  lemma JoinedIsEmpty(a: Result<seq<Finding>, Failure>, b: Result<seq<Finding>, Failure>)
    ensures Joined(a, b) == Ok([]) <==> a == Ok([]) && b == Ok([])
  {
    if a.Ok? && b.Ok? {
      assert |a.value + b.value| == |a.value| + |b.value|;
    }
  }

  /** `Check` is content exactly when every source has the recorded hash in its pinned module. */
  lemma {:induction false} NoFindingsIff(sources: seq<SourceRef>, r: Resolver)
    ensures Findings(sources, r) == Ok([]) <==>
            forall k :: 0 <= k < |sources| ==>
                          sources[k].mod in r.versions && SumOf(r, sources[k]) == Hash(sources[k].sha)
  {
    if sources != [] {
      NoFindingsIff(sources[..|sources| - 1], r);
      JoinedIsEmpty(Findings(sources[..|sources| - 1], r), Verdict(sources[|sources| - 1], r));
    }
  }

  /** The module is pinned and its file can be read, or is known to be gone. */
  predicate Readable(s: SourceRef, r: Resolver) {
    s.mod in r.versions && !SumOf(r, s).Unreadable?
  }

  predicate Stale(s: SourceRef, r: Resolver) {
    SumOf(r, s) != Hash(s.sha)
  }

  /** The sources whose pinned file is gone or has another hash. */
  function StaleOf(sources: seq<SourceRef>, r: Resolver): seq<SourceRef> {
    if sources == [] then []
    else
      var n := |sources| - 1;
      StaleOf(sources[..n], r) + if Stale(sources[n], r) then [sources[n]] else []
  }

  /** What a finding says of its source. */
  ghost predicate Says(f: Finding, s: SourceRef, r: Resolver) {
    match f
    case Gone(source) => source == s && SumOf(r, s) == Missing
    case Changed(source, now) =>
      && source == s && SumOf(r, s).Hash? && SumOf(r, s).h != s.sha
      && s.mod in r.versions && now == r.versions[s.mod]
  }

  /** The first source that is not readable. */
  ghost predicate FirstUnreadable(sources: seq<SourceRef>, r: Resolver, k: nat) {
    k < |sources| && !Readable(sources[k], r) && forall i :: 0 <= i < k ==> Readable(sources[i], r)
  }

  /**
   When every source can be resolved there is one finding for each stale source, in order, and it says
   whether the file is gone or changed, and in which version.
   */
  lemma {:induction false} FindingsSay(sources: seq<SourceRef>, r: Resolver)
    requires forall k :: 0 <= k < |sources| ==> Readable(sources[k], r)
    ensures Findings(sources, r).Ok?
    ensures var fs, stale := Findings(sources, r).value, StaleOf(sources, r);
            |fs| == |stale| && forall i :: 0 <= i < |fs| ==> Says(fs[i], stale[i], r)
  {
    if sources != [] {
      FindingsSay(sources[..|sources| - 1], r);
    }
  }

  /** Otherwise checking fails with the first source that is not pinned or cannot be read. */
  lemma {:induction false} FirstFailureIsReported(sources: seq<SourceRef>, r: Resolver, k: nat)
    requires FirstUnreadable(sources, r, k)
    ensures var s := sources[k];
            Findings(sources, r) == Err(if s.mod !in r.versions then NotPinned(s.mod) else CannotRead(s.mod, s.path))
  {
    FindingsSay(sources[..k], r);
    assert sources[..k + 1][..k] == sources[..k];
    FindingsFail(sources[..k + 1], sources, r);
  }

  // ----- Update -----

  predicate Resolves(r: Resolver, s: SourceRef) {
    s.mod in r.versions && SumOf(r, s).Hash?
  }

  /** The entry `Update` writes for a source. */
  function Renewed(r: Resolver, s: SourceRef): SourceRef
    requires Resolves(r, s)
  {
    s.(version := r.versions[s.mod], sha := SumOf(r, s).h)
  }

  function LineOf(s: SourceRef): string {
    Render(s.mod, s.version, s.path, s.sha)
  }

  /** Sources of one file of `n` lines, in order. */
  ghost predicate Listed(sources: seq<SourceRef>, n: nat) {
    && (forall k :: 0 <= k < |sources| ==> 1 <= sources[k].line <= n)
    && (forall i, j :: 0 <= i < j < |sources| ==> sources[i].line < sources[j].line)
  }

  /** A line to be put in place of another. */
  datatype Edit = Edit(line: nat, text: string)

  /** The header line to write for a source in a file of `n` lines. */
  function EditOf(s: SourceRef, r: Resolver, n: nat): (e: Result<Edit, Failure>)
    ensures e.Ok? ==> Resolves(r, s) && 1 <= e.value.line <= n
  {
    if s.mod !in r.versions then Err(NotPinned(s.mod))
    else if !SumOf(r, s).Hash? then Err(CannotRead(s.mod, s.path))
    else if !(1 <= s.line <= n) then Err(NoSuchLine(s.line))
    else Ok(Edit(s.line, LineOf(Renewed(r, s))))
  }

  /** The header lines to write, up to the first source that fails. */
  function Edits(sources: seq<SourceRef>, r: Resolver, n: nat): Result<seq<Edit>, Failure> {
    if sources == [] then Ok([])
    else
      var last := |sources| - 1;
      match Edits(sources[..last], r, n)
      case Err(e) => Err(e)
      case Ok(edits) =>
        match EditOf(sources[last], r, n)
        case Err(e) => Err(e)
        case Ok(edit) => Ok(edits + [edit])
  }

  function Applied(lines: seq<string>, edits: seq<Edit>): (out: seq<string>)
    ensures |out| == |lines|
  {
    if edits == [] then lines
    else
      var n := |edits| - 1;
      var before := Applied(lines, edits[..n]);
      if 1 <= edits[n].line <= |lines| then before[edits[n].line - 1 := edits[n].text] else before
  }

  /** Some edit found another text in its line: what `changed` records. */
  predicate Changes(lines: seq<string>, edits: seq<Edit>) {
    && edits != []
    && var n := |edits| - 1;
       || Changes(lines, edits[..n])
       || (1 <= edits[n].line <= |lines| && Applied(lines, edits[..n])[edits[n].line - 1] != edits[n].text)
  }

  function Rewritten(lines: seq<string>, sources: seq<SourceRef>, r: Resolver): Result<seq<string>, Failure> {
    match Edits(sources, r, |lines|)
    case Err(e) => Err(e)
    case Ok(edits) => Ok(Applied(lines, edits))
  }

  predicate UpdateChanges(lines: seq<string>, sources: seq<SourceRef>, r: Resolver) {
    Edits(sources, r, |lines|).Ok? && Changes(lines, Edits(sources, r, |lines|).value)
  }

  class SourceFile {
    var text: string

    constructor (text: string)
      ensures this.text == text
    {
      this.text := text;
    }

    /**
     `Update`, with any unit: the header lines are assigned in place in the array of lines, and the file
     is written back only when some line changed. On an error the file is untouched.
     */
    method Update(u: Unit, r: Resolver) returns (res: Result<bool, Failure>)
      modifies this
      ensures match Rewritten(old(Split(text, '\n')), u.sources, r)
              case Err(e) => res == Err(e) && text == old(text)
              case Ok(out) =>
                && res == Ok(UpdateChanges(old(Split(text, '\n')), u.sources, r))
                && text == Join(out, "\n")
    {
      var parts := Split(text, '\n');
      JoinSplit(text, '\n');
      var lines := new string[|parts|](i requires 0 <= i < |parts| => parts[i]);
      assert lines[..] == parts;
      var changed, failure := UpdateLines(lines, u.sources, r);
      if failure.Some? {
        return Err(failure.value);
      }
      if !changed {
        UnchangedStays(parts, Edits(u.sources, r, |parts|).value);
        return Ok(false);
      }
      text := Join(lines[..], "\n");
      res := Ok(true);
    }
  }

  /** The loop of `Update` over the sources. */
  method UpdateLines(lines: array<string>, sources: seq<SourceRef>, r: Resolver)
    returns (changed: bool, failure: Option<Failure>)
    modifies lines
    ensures match Rewritten(old(lines[..]), sources, r)
            case Err(e) => failure == Some(e)
            case Ok(out) => failure == None && lines[..] == out && changed == UpdateChanges(old(lines[..]), sources, r)
  {
    ghost var parts := lines[..];
    ghost var edits: seq<Edit> := [];
    changed, failure := false, None;
    for i := 0 to |sources|
      invariant Edits(sources[..i], r, |parts|) == Ok(edits)
      invariant lines[..] == Applied(parts, edits)
      invariant changed <==> Changes(parts, edits)
    {
      var edit := NextEdit(sources, i, r, lines.Length);
      if edit.Err? {
        failure := Some(edit.error);
        return;
      }
      var different := PutEdit(lines, edit.value, parts, edits);
      changed := changed || different;
      edits := edits + [edit.value];
    }
    assert sources[..|sources|] == sources;
  }

  /** One more edit on top of those already made. */
  method PutEdit(lines: array<string>, e: Edit, ghost parts: seq<string>, ghost edits: seq<Edit>)
    returns (different: bool)
    requires lines[..] == Applied(parts, edits) && 1 <= e.line <= lines.Length
    modifies lines
    ensures lines[..] == Applied(parts, edits + [e])
    ensures Changes(parts, edits + [e]) <==> Changes(parts, edits) || different
  {
    AppliedSnoc(parts, edits, e);
    ChangesSnoc(parts, edits, e);
    different := PutLine(lines, e.line - 1, e.text);
  }

  /** The entry for one source, or the failure that ends the update. */
  method NextEdit(sources: seq<SourceRef>, i: nat, r: Resolver, n: nat) returns (edit: Result<Edit, Failure>)
    requires i < |sources| && Edits(sources[..i], r, n).Ok?
    ensures match edit
            case Err(e) => Edits(sources, r, n) == Err(e)
            case Ok(e) => 1 <= e.line <= n && Edits(sources[..i + 1], r, n) == Ok(Edits(sources[..i], r, n).value + [e])
  {
    var s := sources[i];
    EditsSnoc(sources, i, r, n);
    if s.mod !in r.versions {
      EditsFail(sources, i + 1, r, n);
      return Err(NotPinned(s.mod));
    }
    if !SumOf(r, s).Hash? {
      EditsFail(sources, i + 1, r, n);
      return Err(CannotRead(s.mod, s.path));
    }
    var line := LineOf(Renewed(r, s));
    if !(1 <= s.line <= n) {
      EditsFail(sources, i + 1, r, n);
      return Err(NoSuchLine(s.line));
    }
    edit := Ok(Edit(s.line, line));
  }

  method PutLine(lines: array<string>, k: nat, line: string) returns (different: bool)
    requires k < lines.Length
    modifies lines
    ensures lines[..] == old(lines[..])[k := line]
    ensures different <==> old(lines[k]) != line
  {
    different := lines[k] != line;
    if different {
      lines[k] := line;
    }
  }

  lemma EditsSnoc(sources: seq<SourceRef>, i: nat, r: Resolver, n: nat)
    requires i < |sources| && Edits(sources[..i], r, n).Ok?
    ensures Edits(sources[..i + 1], r, n) ==
            match EditOf(sources[i], r, n)
            case Err(e) => Err(e)
            case Ok(edit) => Ok(Edits(sources[..i], r, n).value + [edit])
  {
    assert sources[..i + 1][..i] == sources[..i];
  }

  lemma AppliedSnoc(lines: seq<string>, edits: seq<Edit>, e: Edit)
    requires 1 <= e.line <= |lines|
    ensures Applied(lines, edits + [e]) == Applied(lines, edits)[e.line - 1 := e.text]
  {
    SumParts(edits, [e]);
    assert |edits + [e]| - 1 == |edits|;
  }

  lemma ChangesSnoc(lines: seq<string>, edits: seq<Edit>, e: Edit)
    requires 1 <= e.line <= |lines|
    ensures Changes(lines, edits + [e]) <==> Changes(lines, edits) || Applied(lines, edits)[e.line - 1] != e.text
  {
    SumParts(edits, [e]);
    assert |edits + [e]| - 1 == |edits|;
  }

  lemma {:induction false} UnchangedStays(lines: seq<string>, edits: seq<Edit>)
    requires !Changes(lines, edits)
    ensures Applied(lines, edits) == lines
  {
    if edits != [] {
      UnchangedStays(lines, edits[..|edits| - 1]);
    }
  }

  lemma {:induction false} EditsFail(sources: seq<SourceRef>, i: nat, r: Resolver, n: nat)
    requires i <= |sources| && Edits(sources[..i], r, n).Err?
    ensures Edits(sources, r, n) == Edits(sources[..i], r, n)
    decreases |sources|
  {
    if i < |sources| {
      assert sources[..|sources| - 1][..i] == sources[..i];
      EditsFail(sources[..|sources| - 1], i, r, n);
    } else {
      assert sources[..i] == sources;
    }
  }

  /** A source for which no line can be written. */
  predicate Unresolved(s: SourceRef, r: Resolver) {
    s.mod !in r.versions || !SumOf(r, s).Hash?
  }

  /**
   `Update` of sources that belong to the file fails exactly when some source cannot be resolved, and
   with the first such source.
   */
  lemma UpdateFailsIff(lines: seq<string>, sources: seq<SourceRef>, r: Resolver)
    requires Listed(sources, |lines|)
    ensures Rewritten(lines, sources, r).Ok? <==> forall k :: 0 <= k < |sources| ==> !Unresolved(sources[k], r)
    ensures forall k :: 0 <= k < |sources| && Unresolved(sources[k], r)
                        && (forall i :: 0 <= i < k ==> !Unresolved(sources[i], r)) ==>
                          var s := sources[k];
                          Rewritten(lines, sources, r) ==
                          Err(if s.mod !in r.versions then NotPinned(s.mod) else CannotRead(s.mod, s.path))
  {
    if Rewritten(lines, sources, r).Ok? {
      EditsPerSource(sources, r, |lines|);
    }
    if forall k :: 0 <= k < |sources| ==> !Unresolved(sources[k], r) {
      EditsOf(sources, r, |lines|);
    }
    forall k |
      && 0 <= k < |sources| && Unresolved(sources[k], r)
      && (forall i :: 0 <= i < k ==> !Unresolved(sources[i], r))
      ensures var s := sources[k];
              Rewritten(lines, sources, r) ==
              Err(if s.mod !in r.versions then NotPinned(s.mod) else CannotRead(s.mod, s.path))
    {
      EditsOf(sources[..k], r, |lines|);
      EditsSnoc(sources, k, r, |lines|);
      EditsFail(sources, k + 1, r, |lines|);
    }
  }

  ghost predicate EditsAre(edits: seq<Edit>, sources: seq<SourceRef>, r: Resolver) {
    && |edits| == |sources|
    && forall k :: 0 <= k < |sources| ==>
                     Resolves(r, sources[k]) && edits[k] == Edit(sources[k].line, LineOf(Renewed(r, sources[k])))
  }

  lemma {:induction false} EditsPerSource(sources: seq<SourceRef>, r: Resolver, n: nat)
    requires Edits(sources, r, n).Ok?
    ensures EditsAre(Edits(sources, r, n).value, sources, r)
  {
    if sources != [] {
      var last := |sources| - 1;
      EditsPerSource(sources[..last], r, n);
      var front, edits := Edits(sources[..last], r, n).value, Edits(sources, r, n).value;
      assert forall k :: 0 <= k < last ==> edits[k] == front[k] && sources[..last][k] == sources[k];
    }
  }

  lemma {:induction false} EditsOf(sources: seq<SourceRef>, r: Resolver, n: nat)
    requires forall k :: 0 <= k < |sources| ==> Resolves(r, sources[k]) && 1 <= sources[k].line <= n
    ensures Edits(sources, r, n).Ok?
  {
    if sources != [] {
      EditsOf(sources[..|sources| - 1], r, n);
    }
  }

  /** Every edit is in place, and no other line has changed. */
  ghost predicate InPlace(lines: seq<string>, edits: seq<Edit>, out: seq<string>) {
    && |out| == |lines|
    && (forall k :: 0 <= k < |edits| ==> 1 <= edits[k].line <= |lines| && out[edits[k].line - 1] == edits[k].text)
    && (forall i :: 0 <= i < |lines| && !Edited(edits, i + 1) ==> out[i] == lines[i])
  }

  ghost predicate Edited(edits: seq<Edit>, line: nat) {
    exists k :: 0 <= k < |edits| && edits[k].line == line
  }

  ghost predicate Increasing(edits: seq<Edit>, n: nat) {
    && (forall k :: 0 <= k < |edits| ==> 1 <= edits[k].line <= n)
    && (forall i, j :: 0 <= i < j < |edits| ==> edits[i].line < edits[j].line)
  }

  lemma {:induction false} AppliedInPlace(lines: seq<string>, edits: seq<Edit>)
    requires Increasing(edits, |lines|)
    ensures InPlace(lines, edits, Applied(lines, edits))
  {
    if edits != [] {
      var front, last := edits[..|edits| - 1], edits[|edits| - 1];
      AppliedInPlace(lines, front);
      AppliedSnoc(lines, front, last);
      assert edits == front + [last] && 1 <= edits[|edits| - 1].line <= |lines|;
      OneMoreInPlace(lines, front, last, Applied(lines, front));
    }
  }

  lemma OneMoreInPlace(lines: seq<string>, edits: seq<Edit>, e: Edit, out: seq<string>)
    requires 1 <= e.line <= |lines| && Increasing(edits + [e], |lines|) && InPlace(lines, edits, out)
    ensures InPlace(lines, edits + [e], out[e.line - 1 := e.text])
  {
    var all := edits + [e];
    assert all[|edits|] == e && forall k :: 0 <= k < |edits| ==> all[k] == edits[k];
  }

  /** Lines that already are as they should be are left alone, and no change is recorded. */
  lemma {:induction false} AppliedIsIdle(out: seq<string>, edits: seq<Edit>)
    requires forall k :: 0 <= k < |edits| ==> 1 <= edits[k].line <= |out| && out[edits[k].line - 1] == edits[k].text
    ensures Applied(out, edits) == out && !Changes(out, edits)
  {
    if edits != [] {
      AppliedIsIdle(out, edits[..|edits| - 1]);
    }
  }

  /** An edit of an untouched line leaves the file different if it was different or the text is new. */
  lemma EditChanges(parts: seq<string>, before: seq<string>, k: nat, line: string)
    requires k < |parts| == |before| && before[k] == parts[k]
    ensures before[k := line] != parts <==> before != parts || before[k] != line
  {
    var after := before[k := line];
    if before[k] != line {
      assert after[k] != parts[k];
    } else {
      assert after == before;
    }
  }

  /** When every line is edited at most once, a change is recorded exactly when the lines differ. */
  lemma {:induction false} ChangesIff(lines: seq<string>, edits: seq<Edit>)
    requires Increasing(edits, |lines|)
    ensures Changes(lines, edits) <==> Applied(lines, edits) != lines
  {
    if edits != [] {
      var n := |edits| - 1;
      var front := edits[..n];
      assert forall k :: 0 <= k < n ==> front[k] == edits[k];
      ChangesIff(lines, front);
      AppliedInPlace(lines, front);
      assert !Edited(front, edits[n].line);
      EditChanges(lines, Applied(lines, front), edits[n].line - 1, edits[n].text);
    }
  }

  // ----- Reading back what was written -----

  /** Versions without white space or inner "@", and hashes of 64 hex digits: what Go modules have. */
  ghost predicate Sound(r: Resolver) {
    && (forall m :: m in r.versions ==> GoodVersion(r.versions[m]))
    && (forall k :: k in r.sums && r.sums[k].Hash? ==> IsHash(r.sums[k].h))
  }

  /** The lines of one file and of its update: source lines renewed, all others equal. */
  ghost predicate LineRenewed(a: Line, b: Line, r: Resolver) {
    if a.Source? then
      var s := SourceRef(a.mod, a.version, a.path, a.sha, 0);
      Resolves(r, s) && b == Source(a.mod, Renewed(r, s).version, a.path, Renewed(r, s).sha)
    else b == a
  }

  ghost predicate AllRenewed(a: seq<Line>, b: seq<Line>, r: Resolver) {
    |a| == |b| && forall i :: 0 <= i < |a| ==> LineRenewed(a[i], b[i], r)
  }

  ghost predicate SourcesRenewed(a: seq<SourceRef>, b: seq<SourceRef>, r: Resolver) {
    && |a| == |b|
    && forall k :: 0 <= k < |a| ==>
                     && Resolves(r, a[k])
                     && b[k] == SourceRef(a[k].mod, r.versions[a[k].mod], a[k].path, SumOf(r, a[k]).h, a[k].line)
  }

  lemma RenewedLast(a: seq<Line>, b: seq<Line>, r: Resolver)
    requires a != [] && AllRenewed(a, b, r)
    ensures AllRenewed(a[..|a| - 1], b[..|b| - 1], r) && LineRenewed(a[|a| - 1], b[|b| - 1], r)
  {
    var n := |a| - 1;
    forall i | 0 <= i < n
      ensures LineRenewed(a[..n][i], b[..n][i], r)
    {
      assert LineRenewed(a[i], b[i], r);
    }
  }

  lemma {:induction false} RenewedMarkers(a: seq<Line>, b: seq<Line>, r: Resolver)
    requires AllRenewed(a, b, r)
    ensures Markers(a) == Markers(b)
    ensures LastReason(a) == LastReason(b) && LastDeleteWhen(a) == LastDeleteWhen(b)
    decreases |a|
  {
    if a != [] {
      RenewedLast(a, b, r);
      RenewedMarkers(a[..|a| - 1], b[..|a| - 1], r);
    }
  }

  lemma {:induction false} RenewedSources(a: seq<Line>, b: seq<Line>, r: Resolver)
    requires AllRenewed(a, b, r)
    ensures SourcesRenewed(Sources(a), Sources(b), r)
    decreases |a|
  {
    if a != [] {
      RenewedLast(a, b, r);
      RenewedSources(a[..|a| - 1], b[..|a| - 1], r);
    }
  }

  lemma RenewedKeepsDeclared(a: seq<SourceRef>, b: seq<SourceRef>, r: Resolver)
    requires SourcesRenewed(a, b, r)
    ensures Declared(a) == Declared(b)
  {
    forall p
      ensures p in Declared(a) <==> p in Declared(b)
    {
      if p in Declared(a) {
        var k :| 0 <= k < |a| && a[k].path == p;
        assert b[k] in b && b[k].path == p;
      }
      if p in Declared(b) {
        var k :| 0 <= k < |b| && b[k].path == p;
        assert a[k] in a && a[k].path == p;
      }
    }
  }

  /** The source entries of a file, found at their lines and nowhere else. */
  ghost predicate SourceAt(lines: seq<Line>, s: SourceRef) {
    1 <= s.line <= |lines| && lines[s.line - 1] == Source(s.mod, s.version, s.path, s.sha)
  }

  ghost predicate HasSource(sources: seq<SourceRef>, line: nat) {
    exists k :: 0 <= k < |sources| && sources[k].line == line
  }

  lemma {:induction false} SourcesAreListed(lines: seq<Line>)
    ensures Listed(Sources(lines), |lines|)
    ensures forall k :: 0 <= k < |Sources(lines)| ==> SourceAt(lines, Sources(lines)[k])
  {
    if lines != [] {
      var n := |lines| - 1;
      SourcesAreListed(lines[..n]);
      var front, all := Sources(lines[..n]), Sources(lines);
      forall k | 0 <= k < |all|
        ensures SourceAt(lines, all[k])
      {
        if k < |front| {
          assert SourceAt(lines[..n], front[k]);
        }
      }
    }
  }

  lemma {:induction false} SourcesAreComplete(lines: seq<Line>)
    ensures forall i :: 0 <= i < |lines| ==> (lines[i].Source? <==> HasSource(Sources(lines), i + 1))
  {
    if lines != [] {
      var n := |lines| - 1;
      SourcesAreComplete(lines[..n]);
      SourcesAreListed(lines[..n]);
      var front, all := Sources(lines[..n]), Sources(lines);
      assert forall k :: 0 <= k < |front| ==> all[k] == front[k] && front[k].line <= n;
      forall i | 0 <= i < |lines|
        ensures lines[i].Source? <==> HasSource(all, i + 1)
      {
        if i < n {
          assert lines[..n][i] == lines[i];
          assert HasSource(front, i + 1) ==> HasSource(all, i + 1);
        } else if lines[n].Source? {
          assert all[|front|].line == i + 1;
        } else {
          assert all == front;
        }
      }
    }
  }

  /** The text of a line after the update: its source's entry, or what it was. */
  ghost predicate LineUpdated(before: string, after: string, kind: Line, r: Resolver) {
    if kind.Source? then
      var s := SourceRef(kind.mod, kind.version, kind.path, kind.sha, 0);
      Resolves(r, s) && after == LineOf(Renewed(r, s))
    else after == before
  }

  lemma LineIsRenewed(before: string, after: string, kind: Line, r: Resolver)
    requires Sound(r) && Classify(before) == kind && LineUpdated(before, after, kind, r)
    ensures LineRenewed(kind, Classify(after), r)
    ensures '\n' !in before ==> '\n' !in after
  {
    if kind.Source? {
      var s := Renewed(r, SourceRef(kind.mod, kind.version, kind.path, kind.sha, 0));
      RewrittenHeaderIsRead(before, kind, s.version, s.sha);
      ClassifiedShape(before);
      RenderedHasNoNewline(s.mod, s.version, s.path, s.sha);
    }
  }

  /** One edit for each source, at its line. */
  ghost predicate Aligned(edits: seq<Edit>, sources: seq<SourceRef>) {
    |edits| == |sources| && forall k :: 0 <= k < |edits| ==> edits[k].line == sources[k].line
  }

  lemma AlignedIncreases(edits: seq<Edit>, sources: seq<SourceRef>, n: nat)
    requires Aligned(edits, sources) && Listed(sources, n)
    ensures Increasing(edits, n)
  {
  }

  /** Applying one edit for each source of a file changes exactly the source lines. */
  lemma AppliedAt(lines: seq<string>, kinds: seq<Line>, edits: seq<Edit>, i: nat) returns (k: nat)
    requires |kinds| == |lines| && i < |lines| && Aligned(edits, Sources(kinds))
    ensures if kinds[i].Source? then
              && k < |edits| && SourceAt(kinds, Sources(kinds)[k]) && Sources(kinds)[k].line == i + 1
              && Applied(lines, edits)[i] == edits[k].text
            else Applied(lines, edits)[i] == lines[i]
  {
    var sources := Sources(kinds);
    SourcesAreListed(kinds);
    SourcesAreComplete(kinds);
    AlignedIncreases(edits, sources, |lines|);
    AppliedInPlace(lines, edits);
    k := 0;
    if kinds[i].Source? {
      assert HasSource(sources, i + 1);
      k :| 0 <= k < |sources| && sources[k].line == i + 1;
      assert SourceAt(kinds, sources[k]);
      assert edits[k].line == i + 1;
    } else {
      assert !HasSource(sources, i + 1);
      assert forall j :: 0 <= j < |edits| ==> edits[j].line == sources[j].line;
      assert !Edited(edits, i + 1);
    }
  }

  lemma EditsAlign(edits: seq<Edit>, sources: seq<SourceRef>, r: Resolver)
    requires EditsAre(edits, sources, r)
    ensures Aligned(edits, sources)
  {
  }

  /** Applying the edits of all sources of a file updates it line by line. */
  lemma AppliedByLine(lines: seq<string>, kinds: seq<Line>, edits: seq<Edit>, r: Resolver, i: nat)
    requires |kinds| == |lines| && i < |lines|
    requires EditsAre(edits, Sources(kinds), r)
    ensures LineUpdated(lines[i], Applied(lines, edits)[i], kinds[i], r)
  {
    EditsAlign(edits, Sources(kinds), r);
    var k := AppliedAt(lines, kinds, edits, i);
    if kinds[i].Source? {
      assert edits[k] == Edit(i + 1, LineOf(Renewed(r, Sources(kinds)[k])));
    }
  }

  /** The source's line holds its renewed entry. */
  ghost predicate Holds(out: seq<string>, s: SourceRef, r: Resolver) {
    1 <= s.line <= |out| && Resolves(r, s) && out[s.line - 1] == LineOf(Renewed(r, s))
  }

  ghost predicate HoldsAll(out: seq<string>, sources: seq<SourceRef>, r: Resolver) {
    forall k :: 0 <= k < |sources| ==> Holds(out, sources[k], r)
  }

  lemma AppliedBySource(lines: seq<string>, kinds: seq<Line>, edits: seq<Edit>, r: Resolver, k: nat)
    requires |kinds| == |lines| && EditsAre(edits, Sources(kinds), r) && k < |Sources(kinds)|
    ensures Holds(Applied(lines, edits), Sources(kinds)[k], r)
  {
    SourcesAreListed(kinds);
    EditsAlign(edits, Sources(kinds), r);
    AlignedIncreases(edits, Sources(kinds), |lines|);
    AppliedInPlace(lines, edits);
    assert edits[k].line == Sources(kinds)[k].line;
  }

  /** A second update of renewed sources writes the same lines again. */
  lemma SecondUpdateIsIdle(out: seq<string>, a: seq<SourceRef>, b: seq<SourceRef>, r: Resolver)
    requires SourcesRenewed(a, b, r)
    requires HoldsAll(out, a, r)
    ensures Rewritten(out, b, r) == Ok(out) && !UpdateChanges(out, b, r)
    ensures Findings(b, r) == Ok([])
  {
    assert forall k :: 0 <= k < |b| ==>
                         Resolves(r, b[k]) && Renewed(r, b[k]) == Renewed(r, a[k]) && Holds(out, a[k], r);
    EditsOf(b, r, |out|);
    EditsPerSource(b, r, |out|);
    AppliedIsIdle(out, Edits(b, r, |out|).value);
    NoFindingsIff(b, r);
  }

  ghost predicate AllUpdated(lines: seq<string>, out: seq<string>, kinds: seq<Line>, r: Resolver) {
    && |out| == |lines| == |kinds|
    && forall i :: 0 <= i < |lines| ==> LineUpdated(lines[i], out[i], kinds[i], r)
  }

  lemma AllLinesRenewed(lines: seq<string>, out: seq<string>, r: Resolver)
    requires Sound(r) && AllUpdated(lines, out, Kinds(lines), r)
    ensures AllRenewed(Kinds(lines), Kinds(out), r)
    ensures (forall i :: 0 <= i < |lines| ==> '\n' !in lines[i]) ==> forall i :: 0 <= i < |out| ==> '\n' !in out[i]
  {
    forall i | 0 <= i < |lines|
      ensures LineRenewed(Kinds(lines)[i], Kinds(out)[i], r)
      ensures '\n' !in lines[i] ==> '\n' !in out[i]
    {
      LineIsRenewed(lines[i], out[i], Kinds(lines)[i], r);
    }
  }

  lemma AppliedEverywhere(lines: seq<string>, kinds: seq<Line>, edits: seq<Edit>, r: Resolver)
    requires |kinds| == |lines| && EditsAre(edits, Sources(kinds), r)
    ensures AllUpdated(lines, Applied(lines, edits), kinds, r)
    ensures HoldsAll(Applied(lines, edits), Sources(kinds), r)
  {
    var out := Applied(lines, edits);
    forall i | 0 <= i < |lines|
      ensures LineUpdated(lines[i], out[i], kinds[i], r)
    {
      AppliedByLine(lines, kinds, edits, r, i);
    }
    forall k | 0 <= k < |Sources(kinds)|
      ensures Holds(out, Sources(kinds)[k], r)
    {
      AppliedBySource(lines, kinds, edits, r, k);
    }
  }

  /** What an update of a parsed unit gives, and that the lines it gives are renewed. */
  lemma UpdateRenews(lines: seq<string>, r: Resolver) returns (out: seq<string>)
    requires Parsed(Kinds(lines)).Ok?
    requires Rewritten(lines, Parsed(Kinds(lines)).value.sources, r).Ok?
    ensures Parsed(Kinds(lines)).value.sources == Sources(Kinds(lines))
    ensures Rewritten(lines, Sources(Kinds(lines)), r) == Ok(out)
    ensures AllUpdated(lines, out, Kinds(lines), r) && HoldsAll(out, Sources(Kinds(lines)), r)
  {
    var kinds := Kinds(lines);
    AcceptsExactlyWellFormed(kinds);
    EditsPerSource(Sources(kinds), r, |lines|);
    var edits := Edits(Sources(kinds), r, |lines|).value;
    out := Applied(lines, edits);
    AppliedEverywhere(lines, kinds, edits, r);
  }

  /** The renewed lines are accepted as the renewed unit. */
  lemma RenewedIsAccepted(a: seq<Line>, b: seq<Line>, r: Resolver)
    requires AllRenewed(a, b, r) && Parsed(a).Ok?
    ensures Parsed(b).Ok?
    ensures SourcesRenewed(Parsed(a).value.sources, Parsed(b).value.sources, r)
    ensures Parsed(b).value == Parsed(a).value.(sources := Parsed(b).value.sources)
    ensures Parsed(a).value.sources == Sources(a)
  {
    AcceptsExactlyWellFormed(a);
    RenewedMarkers(a, b, r);
    RenewedSources(a, b, r);
    RenewedKeepsDeclared(Sources(a), Sources(b), r);
    AcceptsExactlyWellFormed(b);
  }

  /**
   `Update` and then parsing: the same unit with only versions and hashes renewed, every other line and
   the number of lines as before; a second `Update` changes nothing; and `Check` finds nothing.
   */
  lemma UpdateReadsBack(lines: seq<string>, r: Resolver)
    requires Sound(r)
    requires Parsed(Kinds(lines)).Ok?
    requires Rewritten(lines, Parsed(Kinds(lines)).value.sources, r).Ok?
    ensures var u, out := Parsed(Kinds(lines)).value, Rewritten(lines, Parsed(Kinds(lines)).value.sources, r).value;
            && |out| == |lines|
            && (forall i :: 0 <= i < |lines| && !Kinds(lines)[i].Source? ==> out[i] == lines[i])
            && Parsed(Kinds(out)).Ok?
            && var v := Parsed(Kinds(out)).value;
               && SourcesRenewed(u.sources, v.sources, r)
               && v == u.(sources := v.sources)
               && Rewritten(out, v.sources, r) == Ok(out)
               && !UpdateChanges(out, v.sources, r)
               && Findings(v.sources, r) == Ok([])
  {
    var out := UpdateRenews(lines, r);
    AllLinesRenewed(lines, out, r);
    RenewedIsAccepted(Kinds(lines), Kinds(out), r);
    SecondUpdateIsIdle(out, Sources(Kinds(lines)), Parsed(Kinds(out)).value.sources, r);
    assert forall i :: 0 <= i < |lines| ==> LineUpdated(lines[i], out[i], Kinds(lines)[i], r);
  }

  /** The file that is written splits into exactly these lines again. */
  lemma WrittenFileSplits(text: string, r: Resolver)
    requires Sound(r) && Parsed(Kinds(Split(text, '\n'))).Ok?
    requires Rewritten(Split(text, '\n'), Parsed(Kinds(Split(text, '\n'))).value.sources, r).Ok?
    ensures var out := Rewritten(Split(text, '\n'), Parsed(Kinds(Split(text, '\n'))).value.sources, r).value;
            Split(Join(out, "\n"), '\n') == out
  {
    var out := UpdateRenews(Split(text, '\n'), r);
    SplitHasNoSeparator(text, '\n');
    AllLinesRenewed(Split(text, '\n'), out, r);
    SplitJoin(out, '\n');
  }

  /** For a unit parsed from the file `Update` reports a change exactly when a line differs. */
  lemma ChangeIsReported(lines: seq<string>, r: Resolver)
    requires Parsed(Kinds(lines)).Ok?
    requires Rewritten(lines, Parsed(Kinds(lines)).value.sources, r).Ok?
    ensures var sources := Parsed(Kinds(lines)).value.sources;
            UpdateChanges(lines, sources, r) <==> Rewritten(lines, sources, r).value != lines
  {
    var sources := Sources(Kinds(lines));
    AcceptsExactlyWellFormed(Kinds(lines));
    SourcesAreListed(Kinds(lines));
    EditsPerSource(sources, r, |lines|);
    var edits := Edits(sources, r, |lines|).value;
    EditsAlign(edits, sources, r);
    AlignedIncreases(edits, sources, |lines|);
    ChangesIff(lines, edits);
  }

  /** A unit that was parsed from a file never makes `Update` index outside it. */
  lemma ParsedUnitIsListed(lines: seq<string>)
    requires Parsed(Kinds(lines)).Ok?
    ensures Listed(Parsed(Kinds(lines)).value.sources, |lines|)
  {
    AcceptsExactlyWellFormed(Kinds(lines));
    SourcesAreListed(Kinds(lines));
  }
}
