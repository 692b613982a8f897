/**
 The header and marker lines of copied files: the fixed patterns the drift checker matches, and the
 header line it writes.
 */
module Headers {
  import opened Wrappers
  import opened Seqs
  import opened Strings

  datatype Line =
    | Source(mod: string, version: string, path: string, sha: string)
    | Reason(text: string)
    | DeleteWhen(text: string)
    | Begin(path: string)
    | End(path: string)
    | Text

  // ----- Words -----

  /** `\S+` taken greedily from the start. */
  function Token(s: string): (t: string)
    ensures t <= s
    ensures forall i :: 0 <= i < |t| ==> t[i] !in RE_SPACE
    ensures t == s || s[|t|] in RE_SPACE
  {
    if s == "" || s[0] in RE_SPACE then "" else [s[0]] + Token(s[1..])
  }

  /** The maximal runs without white space. */
  function Words(s: string): seq<string>
    decreases |s|
  {
    var t := TrimLeft(s, RE_SPACE);
    if t == "" then [] else [Token(t)] + Words(t[|Token(t)|..])
  }

  predicate IsToken(s: string) {
    s != "" && forall i :: 0 <= i < |s| ==> s[i] !in RE_SPACE
  }

  lemma TokenIs(s: string, t: string)
    requires t <= s && (forall i :: 0 <= i < |t| ==> t[i] !in RE_SPACE)
    requires t == s || s[|t|] in RE_SPACE
    ensures Token(s) == t
  {
    var u := Token(s);
    assert forall i :: 0 <= i < |u| ==> s[i] == u[i];
    assert forall i :: 0 <= i < |t| ==> s[i] == t[i];
    assert |u| == |t|;
    assert u == s[..|u|] && t == s[..|t|];
  }

  /** A word behind one blank, followed by a blank or nothing. */
  lemma WordsStep(word: string, rest: string)
    requires IsToken(word) && (rest == "" || rest[0] in RE_SPACE)
    ensures Words(" " + word + rest) == [word] + Words(rest)
  {
    var t := word + rest;
    Regroup(" ", word, rest);
    TrimLeftOfBlank(t, RE_SPACE);
    assert t[0] == word[0];
    assert TrimLeft(t, RE_SPACE) == t;
    SumParts(word, rest);
    TokenIs(t, word);
  }

  // ----- The patterns -----

  const KEYWORD: string := "upstream:"

  /** What follows the keyword in a comment that starts with it. */
  function After(line: string, keyword: string): Option<string> {
    if !("//" <= line) then None
    else
      var rest := TrimLeft(line[2..], RE_SPACE);
      if keyword <= rest then Some(rest[|keyword|..]) else None
  }

  predicate StartsWithSpace(s: string) {
    s != "" && s[0] in RE_SPACE
  }

  /** The greedy `(\S+)@(\S+)`: the last "@" from `i` down with something on both sides. */
  function LastAt(word: string, i: nat): (r: Option<nat>)
    requires i < |word|
    ensures r.Some? ==> 1 <= r.value <= i && word[r.value] == '@'
    ensures forall j :: 1 <= j <= i && (r.Some? ==> r.value < j) ==> word[j] != '@'
  {
    if i == 0 then None else if word[i] == '@' then Some(i) else LastAt(word, i - 1)
  }

  predicate IsHash(h: string) {
    |h| == 64 && forall i :: 0 <= i < |h| ==> '0' <= h[i] <= '9' || 'a' <= h[i] <= 'f'
  }

  const SHA: string := "sha256="

  function SourceIn(rest: string, tag: string): (r: Option<Line>)
    ensures r.Some? ==> r.value.Source?
  {
    if !StartsWithSpace(rest) then None else SourceOf(Words(rest), tag)
  }

  function SourceOf(w: seq<string>, tag: string): (r: Option<Line>)
    ensures r.Some? ==> r.value.Source?
  {
    if |w| != 3 || |w[0]| < 3 || !(tag <= w[2]) || !IsHash(w[2][|tag|..]) then None
    else
      match LastAt(w[0], |w[0]| - 2)
      case None => None
      case Some(i) => Some(Source(w[0][..i], w[0][i + 1..], w[1], w[2][|tag|..]))
  }

  /** The marker pattern: white space and then a path, which ends at the next white space. */
  function PathIn(rest: string): Option<string> {
    if StartsWithSpace(rest) && Words(rest) != [] then Some(Words(rest)[0]) else None
  }

  function SourceLine(line: string, keyword: string, tag: string): (r: Option<Line>)
    ensures r.Some? ==> r.value.Source?
  {
    if After(line, keyword).None? then None else SourceIn(After(line, keyword).value, tag)
  }

  function OtherLine(line: string): (l: Line)
    ensures !l.Source?
  {
    var reason := After(line, "upstream-reason:");
    var deleteWhen := After(line, "upstream-delete-when:");
    var begin := After(line, "upstream-begin:");
    var end := After(line, "upstream-end:");
    if reason.Some? then Reason(TrimLeft(reason.value, RE_SPACE))
    else if deleteWhen.Some? then DeleteWhen(TrimLeft(deleteWhen.value, RE_SPACE))
    else if begin.Some? && PathIn(begin.value).Some? then Begin(PathIn(begin.value).value)
    else if end.Some? && PathIn(end.value).Some? then End(PathIn(end.value).value)
    else Text
  }

  /** The first pattern of `parseUnit`'s switch that matches. */
  function Classify(line: string): Line {
    OrElse(SourceLine(line, KEYWORD, SHA), OtherLine(line))
  }

  // ----- The header line -----

  /** The line `Update` writes. */
  function Render(mod: string, version: string, path: string, sha: string): string {
    Header(KEYWORD, SHA, mod + "@" + version, path, sha)
  }

  function Header(keyword: string, tag: string, pin: string, path: string, sha: string): string {
    "// " + keyword + Fields(tag, pin, path, sha)
  }

  function Fields(tag: string, pin: string, path: string, sha: string): string {
    " " + pin + (" " + path + (" " + (tag + sha) + ""))
  }

  /** A version the pattern reads back whole: no white space, and no "@" but as its last character. */
  predicate GoodVersion(version: string) {
    IsToken(version) && '@' !in version[..|version| - 1]
  }

  ghost predicate AllTokens(words: seq<string>) {
    forall i :: 0 <= i < |words| ==> IsToken(words[i])
  }

  lemma TokenIsToken(t: string)
    requires t != "" && t[0] !in RE_SPACE
    ensures IsToken(Token(t))
  {
  }

  lemma AllTokensCons(word: string, words: seq<string>)
    requires IsToken(word) && AllTokens(words)
    ensures AllTokens([word] + words)
  {
  }

  lemma {:induction false} WordsAreTokens(s: string)
    ensures AllTokens(Words(s))
    decreases |s|
  {
    var t := TrimLeft(s, RE_SPACE);
    if t != "" {
      TokenIsToken(t);
      WordsAreTokens(t[|Token(t)|..]);
      AllTokensCons(Token(t), Words(t[|Token(t)|..]));
    }
  }

  /** What the header pattern captures is always of this shape. */
  lemma SourceShape(w: seq<string>, tag: string)
    requires AllTokens(w) && SourceOf(w, tag).Some?
    ensures var c := SourceOf(w, tag).value;
            c.Source? && IsToken(c.mod) && IsToken(c.version) && IsToken(c.path) && IsHash(c.sha)
  {
    var pin := w[0];
    assert IsToken(pin) && IsToken(w[1]);
    var i := LastAt(pin, |pin| - 2).value;
    var version := pin[i + 1..];
    assert forall j :: 0 <= j < |version| ==> version[j] == pin[i + 1 + j];
    assert forall j :: 0 <= j < i ==> pin[..i][j] == pin[j];
  }

  lemma CapturedShape(line: string, keyword: string, tag: string)
    requires SourceLine(line, keyword, tag).Some?
    ensures var c := SourceLine(line, keyword, tag).value;
            IsToken(c.mod) && IsToken(c.version) && IsToken(c.path) && IsHash(c.sha)
  {
    var rest := After(line, keyword).value;
    WordsAreTokens(rest);
    SourceShape(Words(rest), tag);
  }

  lemma CommentText(text: string)
    ensures "//" <= "// " + text && ("// " + text)[2..] == " " + text
  {
  }

  lemma AfterHeader(keyword: string, tail: string)
    requires keyword != "" && keyword[0] !in RE_SPACE
    ensures After("// " + keyword + tail, keyword) == Some(tail)
  {
    var text := keyword + tail;
    assert "// " + keyword + tail == "// " + text;
    CommentText(text);
    TrimLeftOfBlank(text, RE_SPACE);
    assert TrimLeft(text, RE_SPACE) == text;
    assert keyword <= text && text[|keyword|..] == tail;
  }

  lemma LastWord(word: string)
    requires IsToken(word)
    ensures Words(" " + word + "") == [word]
  {
    WordsStep(word, "");
    assert Words("") == [];
  }

  lemma StartsWithBlank(a: string, b: string)
    ensures (" " + a + b)[0] == ' ' && StartsWithSpace(" " + a + b)
  {
  }

  lemma ThreeWords(a: string, b: string, c: string)
    requires IsToken(a) && IsToken(b) && IsToken(c)
    ensures Words(" " + a + (" " + b + (" " + c + ""))) == [a, b, c]
  {
    var third := " " + c + "";
    var second := " " + b + third;
    LastWord(c);
    StartsWithBlank(c, "");
    WordsStep(b, third);
    StartsWithBlank(b, third);
    WordsStep(a, second);
  }

  lemma WordsOfFields(tag: string, pin: string, path: string, sha: string)
    requires IsToken(pin) && IsToken(path) && IsToken(tag + sha)
    ensures Words(Fields(tag, pin, path, sha)) == [pin, path, tag + sha]
    ensures StartsWithSpace(Fields(tag, pin, path, sha))
  {
    ThreeWords(pin, path, tag + sha);
    StartsWithBlank(pin, " " + path + (" " + (tag + sha) + ""));
  }

  lemma PinIsToken(mod: string, version: string)
    requires IsToken(mod) && IsToken(version)
    ensures IsToken(mod + "@" + version)
  {
  }

  lemma HashIsToken(tag: string, sha: string)
    requires IsToken(tag) && IsHash(sha)
    ensures IsToken(tag + sha) && (tag + sha)[|tag|..] == sha
  {
  }

  lemma HeaderIsRead(keyword: string, tag: string, mod: string, version: string, path: string, sha: string)
    requires keyword != "" && keyword[0] !in RE_SPACE && IsToken(tag)
    requires IsToken(mod) && IsToken(version) && IsToken(path) && IsHash(sha)
    ensures var read := SourceLine(Header(keyword, tag, mod + "@" + version, path, sha), keyword, tag);
            read.Some? && (read.value == Source(mod, version, path, sha) <==> GoodVersion(version))
  {
    var pin := mod + "@" + version;
    AfterHeader(keyword, Fields(tag, pin, path, sha));
    PinIsToken(mod, version);
    HashIsToken(tag, sha);
    WordsOfFields(tag, pin, path, sha);
    WordsRead(mod, version, path, tag, sha);
  }

  lemma WordsRead(mod: string, version: string, path: string, tag: string, sha: string)
    requires IsToken(mod) && IsToken(version) && IsHash(sha)
    ensures var read := SourceOf([mod + "@" + version, path, tag + sha], tag);
            read.Some? && (read.value == Source(mod, version, path, sha) <==> GoodVersion(version))
  {
    assert (tag + sha)[|tag|..] == sha;
    SplitAtLast(mod, version);
  }

  /**
   Printing and parsing a header: read back as written if and only if the version has no white space and
   no "@" before its last character.
   */
  lemma RenderedHeaderIsRead(mod: string, version: string, path: string, sha: string)
    requires IsToken(mod) && IsToken(path) && IsHash(sha)
    ensures Classify(Render(mod, version, path, sha)) == Source(mod, version, path, sha) <==> GoodVersion(version)
  {
    if IsToken(version) {
      HeaderIsRead(KEYWORD, SHA, mod, version, path, sha);
    } else if Classify(Render(mod, version, path, sha)).Source? {
      ClassifiedShape(Render(mod, version, path, sha));
    }
  }

  /** How a version with an inner "@" is misread: what stands before it becomes part of the module. */
  lemma InnerAtMovesTheSplit(mod: string, front: string, back: string, path: string, sha: string)
    requires IsToken(mod) && IsToken(front) && GoodVersion(back) && IsToken(path) && IsHash(sha)
    ensures Classify(Render(mod, front + "@" + back, path, sha)) == Source(mod + "@" + front, back, path, sha)
  {
    PinIsToken(mod, front);
    assert mod + "@" + (front + "@" + back) == (mod + "@" + front) + "@" + back;
    RenderedHeaderIsRead(mod + "@" + front, back, path, sha);
  }

  lemma SplitAtLast(mod: string, version: string)
    requires mod != "" && version != ""
    ensures var w := mod + "@" + version;
            && LastAt(w, |w| - 2).Some?
            && (var i := LastAt(w, |w| - 2).value;
                w[..i] == mod && w[i + 1..] == version <==> '@' !in version[..|version| - 1])
  {
    var w := mod + "@" + version;
    var i := LastAt(w, |w| - 2);
    assert w[|mod|] == '@' && w[..|mod|] == mod && w[|mod| + 1..] == version;
    assert forall j :: |mod| < j <= |w| - 2 ==> w[j] == version[..|version| - 1][j - |mod| - 1];
    if '@' !in version[..|version| - 1] {
      assert i.value == |mod|;
    } else {
      var k :| 0 <= k < |version| - 1 && version[..|version| - 1][k] == '@';
      assert w[|mod| + 1 + k] == '@';
      assert i.value > |mod|;
      assert |w[..i.value]| == i.value;
    }
  }

  lemma ClassifiedShape(line: string)
    requires Classify(line).Source?
    ensures var c := Classify(line); IsToken(c.mod) && IsToken(c.version) && IsToken(c.path) && IsHash(c.sha)
  {
    assert SourceLine(line, KEYWORD, SHA).Some?;
    CapturedShape(line, KEYWORD, SHA);
  }

  lemma HeaderHasNoNewline(keyword: string, tag: string, mod: string, version: string, path: string, sha: string)
    requires '\n' !in keyword && '\n' !in tag
    requires IsToken(mod) && IsToken(version) && IsToken(path) && IsHash(sha)
    ensures '\n' !in Header(keyword, tag, mod + "@" + version, path, sha)
  {
  }

  lemma RenderedHasNoNewline(mod: string, version: string, path: string, sha: string)
    requires IsToken(mod) && IsToken(version) && IsToken(path) && IsHash(sha)
    ensures '\n' !in Render(mod, version, path, sha)
  {
    assert '\n' !in KEYWORD && '\n' !in SHA;
    HeaderHasNoNewline(KEYWORD, SHA, mod, version, path, sha);
  }

  /** A header line rewritten with a good version and a hash is read as the entry it was written for. */
  lemma RewrittenHeaderIsRead(line: string, c: Line, version: string, sha: string)
    requires c.Source? && Classify(line) == c
    requires GoodVersion(version) && IsHash(sha)
    ensures Classify(Render(c.mod, version, c.path, sha)) == Source(c.mod, version, c.path, sha)
  {
    ClassifiedShape(line);
    RenderedHeaderIsRead(c.mod, version, c.path, sha);
  }
}
