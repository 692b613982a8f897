/**
 The pump between the captured stdout and the original one. Whatever pieces the pipe is read in, it
 is a line filter: lines that routing consumes are taken out, everything else goes through unchanged.
 */
module StdoutPump {
  import opened Wrappers
  import opened Seqs
  import opened Strings
  import Banner

  // ----- Lines -----

  /** The complete lines of a text, each with its newline. */
  function Lines(s: string): seq<string>
    decreases |s|
  {
    var k := Find(s, '\n');
    if k == |s| then [] else [s[..k + 1]] + Lines(s[k + 1..])
  }

  /** What follows the last newline. */
  function Tail(s: string): string
    decreases |s|
  {
    var k := Find(s, '\n');
    if k == |s| then s else Tail(s[k + 1..])
  }

  function Concat(parts: seq<string>): string {
    if parts == [] then "" else parts[0] + Concat(parts[1..])
  }

  lemma ConcatCons(part: string, parts: seq<string>)
    ensures Concat([part] + parts) == part + Concat(parts)
  {
    ConsTail(part, parts);
  }

  lemma {:induction false} LinesReassemble(s: string)
    ensures Concat(Lines(s)) + Tail(s) == s
    decreases |s|
  {
    var k := Find(s, '\n');
    if k < |s| {
      var line, rest := s[..k + 1], s[k + 1..];
      LinesReassemble(rest);
      ConcatCons(line, Lines(rest));
      Regroup(line, Concat(Lines(rest)), Tail(rest));
      Cut(s, k + 1);
    }
  }

  /** One newline, at the end. */
  predicate IsLine(line: string) {
    Find(line, '\n') == |line| - 1
  }

  lemma FirstIsLine(s: string, k: nat)
    requires k == Find(s, '\n') < |s|
    ensures IsLine(s[..k + 1])
  {
    assert s[..k + 1][..k] == s[..k];
    FindIs(s[..k + 1], '\n', k);
  }

  predicate AllLines(lines: seq<string>) {
    forall i :: 0 <= i < |lines| ==> IsLine(lines[i])
  }

  lemma AllLinesCons(line: string, lines: seq<string>)
    requires IsLine(line) && AllLines(lines)
    ensures AllLines([line] + lines)
  {
  }

  lemma {:induction false} LinesAreLines(s: string)
    ensures '\n' !in Tail(s) && AllLines(Lines(s))
    decreases |s|
  {
    var k := Find(s, '\n');
    if k < |s| {
      LinesAreLines(s[k + 1..]);
      FirstIsLine(s, k);
      AllLinesCons(s[..k + 1], Lines(s[k + 1..]));
    } else {
      assert s[..k] == s;
    }
  }

  /** Whether routing consumes the n-th line: any history of listeners gives such a function. */
  type Routing = (nat, string) -> bool

  /** The lines that routing does not consume, in order. */
  function Kept(lines: seq<string>, consumes: Routing): seq<string> {
    if lines == [] then []
    else
      var n := |lines| - 1;
      Kept(lines[..n], consumes) + if consumes(n, lines[n]) then [] else [lines[n]]
  }

  function Consumed(lines: seq<string>, consumes: Routing): seq<string> {
    if lines == [] then []
    else
      var n := |lines| - 1;
      Consumed(lines[..n], consumes) + if consumes(n, lines[n]) then [lines[n]] else []
  }

  // ----- bufio.Reader -----

  /** A buffered reader over a source that returns the stream in arbitrary pieces and then fails. */
  class Reader {
    var buffered: string
    var pieces: seq<string>

    /** What has not been returned yet. */
    ghost function Rest(): string
      reads this
    {
      buffered + Concat(pieces)
    }

    constructor (pieces: seq<string>)
      ensures Rest() == Concat(pieces)
    {
      this.buffered, this.pieces := "", pieces;
    }

    method ReadString() returns (chunk: string, err: bool)
      modifies this
      ensures old(Rest()) == chunk + Rest()
      ensures !err ==> chunk != "" && Find(chunk, '\n') == |chunk| - 1
      ensures err ==> '\n' !in chunk && Rest() == ""
    {
      chunk := "";
      while Find(buffered, '\n') == |buffered|
        invariant old(Rest()) == chunk + Rest()
        invariant '\n' !in chunk
        decreases |pieces|
      {
        NotFound(buffered);
        ghost var tail := Concat(pieces);
        Regroup(chunk, buffered, tail);
        chunk, buffered := chunk + buffered, "";
        if pieces == [] {
          return chunk, true;
        }
        buffered, pieces := pieces[0], pieces[1..];
        assert tail == Rest();
      }
      var k := Find(buffered, '\n');
      FirstNewline(chunk, buffered, k);
      CutApart(chunk, buffered, k + 1, Concat(pieces));
      chunk, buffered := chunk + buffered[..k + 1], buffered[k + 1..];
      err := false;
    }
  }

  lemma NotFound(s: string)
    requires Find(s, '\n') == |s|
    ensures '\n' !in s
  {
    assert s[..|s|] == s;
  }

  lemma FindBehind(chunk: string, line: string, k: nat)
    requires '\n' !in chunk && k < |line| && line[k] == '\n' && '\n' !in line[..k]
    ensures Find(chunk + line, '\n') == |chunk| + k
  {
    var all := chunk + line;
    assert all[..|chunk| + k] == chunk + line[..k];
    FindIs(all, '\n', |chunk| + k);
  }

  lemma FirstNewline(chunk: string, buffered: string, k: nat)
    requires '\n' !in chunk && k == Find(buffered, '\n') < |buffered|
    ensures Find(chunk + buffered[..k + 1], '\n') == |chunk| + k
  {
    assert buffered[..k + 1][..k] == buffered[..k];
    FindBehind(chunk, buffered[..k + 1], k);
  }

  lemma CutApart(chunk: string, buffered: string, k: nat, tail: string)
    requires k <= |buffered|
    ensures chunk + (buffered + tail) == (chunk + buffered[..k]) + (buffered[k..] + tail)
  {
    assert buffered == buffered[..k] + buffered[k..];
    Regroup(buffered[..k], buffered[k..], tail);
    Regroup(chunk, buffered[..k], buffered[k..] + tail);
  }

  lemma FirstLine(s: string, chunk: string, rest: string)
    requires s == chunk + rest && chunk != "" && Find(chunk, '\n') == |chunk| - 1
    ensures Lines(s) == [chunk] + Lines(rest) && Tail(s) == Tail(rest)
  {
    var k := |chunk| - 1;
    assert s[..k] == chunk[..k];
    FindIs(s, '\n', k);
    assert s[..k + 1] == chunk && s[k + 1..] == rest;
  }

  lemma NoLine(s: string)
    requires '\n' !in s
    ensures Lines(s) == [] && Tail(s) == s
  {
    assert forall i :: 0 <= i < |s| ==> s[i] != '\n';
  }

  /** The stream starts with a line: it is the next of the lines, and what follows holds the others. */
  lemma TakeLine(lines: seq<string>, n: nat, stream: string, line: string, rest: string, consumes: Routing)
    requires n <= |lines| && lines[n..] == Lines(stream) && stream == line + rest
    requires line != "" && Find(line, '\n') == |line| - 1
    ensures n < |lines| && Lines(rest) == lines[n + 1..] && Tail(rest) == Tail(stream)
    ensures line[|line| - 1] == '\n' && |rest| < |stream|
    ensures Kept(lines[..n + 1], consumes) == Kept(lines[..n], consumes) + if consumes(n, line) then [] else [line]
    ensures Consumed(lines[..n + 1], consumes)
            == Consumed(lines[..n], consumes) + if consumes(n, line) then [line] else []
  {
    FirstLine(stream, line, rest);
    assert lines[n] == lines[n..][0] && lines[n + 1..] == lines[n..][1..];
    assert lines[..n + 1][..n] == lines[..n];
  }

  lemma TakeTail(lines: seq<string>, n: nat, stream: string)
    requires n <= |lines| && lines[n..] == Lines(stream) && '\n' !in stream
    ensures n == |lines| && lines[..n] == lines && Tail(stream) == stream
    ensures stream != "" ==> stream[|stream| - 1] != '\n'
  {
    NoLine(stream);
  }

  /**
   `pumpStdout`: each write to the original stdout is one line that was not consumed, in order, and
   the unterminated tail is written exactly once, at the end. In particular nothing of an unterminated
   line is written while the source can still deliver its end. This holds for every test of unterminated
   lines, so for `maybeBanner`, which is Banner.MaybeBanner.
   */
  method PumpStdout(r: Reader, consumes: Routing, holdsBack: string -> bool)
    returns (writes: seq<string>, consumed: seq<string>)
    modifies r
    ensures var s := old(r.Rest());
            && writes == Kept(Lines(s), consumes) + (if Tail(s) == "" then [] else [Tail(s)])
            && consumed == Consumed(Lines(s), consumes)
  {
    writes, consumed := [], [];
    var partial := "";
    var n := 0;
    ghost var s := r.Rest();
    ghost var lines := Lines(s);
    assert lines[..0] == [] && lines[0..] == lines;
    while true
      invariant partial == ""
      invariant n <= |lines|
      invariant Lines(r.Rest()) == lines[n..] && Tail(r.Rest()) == Tail(s)
      invariant writes == Kept(lines[..n], consumes)
      invariant consumed == Consumed(lines[..n], consumes)
      decreases |r.Rest()|
    {
      ghost var stream := r.Rest();
      var chunk, err := r.ReadString();
      if err {
        assert stream == chunk;
        TakeTail(lines, n, stream);
      } else {
        TakeLine(lines, n, stream, chunk, r.Rest(), consumes);
      }
      if chunk != "" {
        partial := partial + chunk;
        assert partial == chunk;
        if chunk[|chunk| - 1] == '\n' {
          var line := partial;
          partial := "";
          if !consumes(n, line) {
            writes := writes + [line];
          } else {
            consumed := consumed + [line];
          }
          n := n + 1;
        } else if !holdsBack(partial) {
          writes := writes + [partial];
          partial := "";
        }
      }
      if err {
        if |partial| > 0 {
          writes := writes + [partial];
        }
        return;
      }
    }
  }

  lemma TwoPieces(a: string, b: string)
    ensures Concat([a, b]) == a + b
  {
    ConcatCons(a, [b]);
    ConcatCons(b, []);
    assert [a] + [b] == [a, b] && [b] + [] == [b] && b + "" == b;
  }

  lemma PromptLine(prompt: string, rest: string, consumes: Routing)
    requires '\n' !in prompt && IsLine(rest) && rest != "" && !consumes(0, prompt + rest)
    ensures Lines(prompt + rest) == [prompt + rest] && Tail(prompt + rest) == ""
    ensures Kept([prompt + rest], consumes) == [prompt + rest]
  {
    assert rest[..|rest| - 1] == rest[..Find(rest, '\n')];
    FindBehind(prompt, rest, |rest| - 1);
    OneLineText(prompt + rest);
    assert Kept([prompt + rest][..0], consumes) == [];
  }

  /**
   Any prompt is held back, whether or not it can become a banner: read in a piece of its own, it still
   goes out in one write with the end of its line.
   */
  method PromptIsHeldBack(prompt: string, rest: string, consumes: Routing, holdsBack: string -> bool)
    returns (writes: seq<string>)
    requires '\n' !in prompt && IsLine(rest) && rest != "" && !consumes(0, prompt + rest)
    ensures writes == [prompt + rest]
  {
    TwoPieces(prompt, rest);
    PromptLine(prompt, rest, consumes);
    var r := new Reader([prompt, rest]);
    var consumed;
    writes, consumed := PumpStdout(r, consumes, holdsBack);
  }

  lemma OneLineText(text: string)
    requires IsLine(text) && text != ""
    ensures Lines(text) == [text] && Tail(text) == ""
  {
    assert text[..|text|] == text && text[|text|..] == "";
  }

  // ----- What survives -----

  /** `Banner.Capture.Route`, with the listener table in force at each line. */
  function Decision(tables: nat -> Banner.Listeners): Routing {
    (n: nat, line: string) => Banner.Consumes(tables(n), line)
  }

  /** Text that is neither a sentinel nor a banner, whoever listens. */
  ghost predicate Ordinary(line: string) {
    !(Banner.SENTINEL <= line) && forall verb, ref :: verb in Banner.VERBS ==> !Banner.Prints(line, verb, ref)
  }

  lemma OrdinaryIsKept(table: Banner.Listeners, line: string)
    requires Ordinary(line)
    ensures !Banner.Consumes(table, line)
  {
    var m := Banner.BannerMatch(Banner.Plain(line));
    if m.Some? {
      Banner.MatchedIffPrinted(line, m.value.0, m.value.1);
    }
  }

  /** A host's own output goes through byte for byte, whoever is listening. */
  lemma OrdinaryTextPassesThrough(s: string, tables: nat -> Banner.Listeners)
    requires forall i :: 0 <= i < |Lines(s)| ==> Ordinary(Lines(s)[i])
    ensures Concat(Kept(Lines(s), Decision(tables))) + Tail(s) == s
  {
    LinesReassemble(s);
    forall i: nat | i < |Lines(s)|
      ensures !Decision(tables)(i, Lines(s)[i])
    {
      OrdinaryIsKept(tables(i), Lines(s)[i]);
    }
    AllKept(Lines(s), Decision(tables));
  }

  lemma {:induction false} AllKept(lines: seq<string>, consumes: Routing)
    requires forall i :: 0 <= i < |lines| ==> !consumes(i, lines[i])
    ensures Kept(lines, consumes) == lines
  {
    if lines != [] {
      AllKept(lines[..|lines| - 1], consumes);
    }
  }

  /** Nothing is lost or doubled: every line is either kept or consumed. */
  lemma {:induction false} NothingLost(lines: seq<string>, consumes: Routing)
    ensures multiset(Kept(lines, consumes)) + multiset(Consumed(lines, consumes)) == multiset(lines)
  {
    if lines != [] {
      var n := |lines| - 1;
      var front, line := lines[..n], lines[n];
      NothingLost(front, consumes);
      assert lines == front + [line];
      MultisetSnoc(front, line);
      if consumes(n, line) {
        MultisetSnoc(Consumed(front, consumes), line);
      } else {
        MultisetSnoc(Kept(front, consumes), line);
      }
    }
  }

  // ----- The pump with its routing -----

  /** The line is a sentinel or the banner of an operation that is listening after the history. */
  ghost predicate ForPulumi(history: seq<Banner.Change>, line: string) {
    Banner.SENTINEL <= line || exists o, ref :: Banner.Announces(history, line, o, ref)
  }

  /** The lines that are not; the n-th line meets the n-th history. */
  ghost function Others(lines: seq<string>, histories: nat -> seq<Banner.Change>): seq<string> {
    if lines == [] then []
    else
      var n := |lines| - 1;
      Others(lines[..n], histories) + if ForPulumi(histories(n), lines[n]) then [] else [lines[n]]
  }

  ghost function ForPulumiOf(lines: seq<string>, histories: nat -> seq<Banner.Change>): seq<string> {
    if lines == [] then []
    else
      var n := |lines| - 1;
      ForPulumiOf(lines[..n], histories) + if ForPulumi(histories(n), lines[n]) then [lines[n]] else []
  }

  lemma {:induction false} RoutedLines(
    lines: seq<string>, histories: nat -> seq<Banner.Change>, tables: nat -> Banner.Listeners)
    requires forall n: nat :: Banner.ListensOnce(histories(n)) && tables(n) == Banner.After(histories(n))
    ensures Kept(lines, Decision(tables)) == Others(lines, histories)
    ensures Consumed(lines, Decision(tables)) == ForPulumiOf(lines, histories)
  {
    if lines != [] {
      var n := |lines| - 1;
      RoutedLines(lines[..n], histories, tables);
      Banner.ConsumedIff(histories(n), lines[n]);
    }
  }

  /**
   `pumpStdout` as it is wired: whoever has listened and left by the time of each line, the original
   stdout gets exactly the lines that are no sentinel and no banner of an operation then listening, in
   order, and the unterminated tail; those lines, and no others, are taken out.
   */
  method PumpRouted(r: Reader, histories: nat -> seq<Banner.Change>) returns (writes: seq<string>, taken: seq<string>)
    requires forall n: nat :: Banner.ListensOnce(histories(n))
    modifies r
    ensures var s := old(r.Rest());
            && writes == Others(Lines(s), histories) + (if Tail(s) == "" then [] else [Tail(s)])
            && taken == ForPulumiOf(Lines(s), histories)
  {
    var tables := (n: nat) => Banner.After(histories(n));
    RoutedLines(Lines(r.Rest()), histories, tables);
    writes, taken := PumpStdout(r, Decision(tables), s => Banner.MaybeBanner(s));
  }
}
