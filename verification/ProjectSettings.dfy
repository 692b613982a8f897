/**
 The project settings file: its printer, and the dependency-free line parser that reads it.
 Strings are sequences of Unicode code points.
 */
module ProjectSettings {
  import opened Wrappers
  import opened Seqs
  import opened Strings

  // ----- JavaScript's character classes -----

  /** `\s`, which is also what `trim` removes. */
  predicate IsWhite(c: char) {
    || '\t' <= c <= '\r' || c == ' ' || c == '\U{00A0}' || c == '\U{1680}' || '\U{2000}' <= c <= '\U{200A}'
    || IsSeparator(c) || c == '\U{202F}' || c == '\U{205F}' || c == '\U{3000}' || c == '\U{FEFF}'
  }

  /** The two line breaks that JSON does not escape. */
  predicate IsSeparator(c: char) {
    c == '\U{2028}' || c == '\U{2029}'
  }

  /** What `.` does not match. */
  predicate IsBreak(c: char) {
    c == '\n' || c == '\r' || IsSeparator(c)
  }

  predicate IsWord(c: char) {
    'a' <= c <= 'z' || 'A' <= c <= 'Z' || '0' <= c <= '9' || c == '_'
  }

  predicate IsKeyChar(c: char) {
    IsWord(c) || c == '-'
  }

  const WHITE := set c: char | IsWhite(c)

  predicate NoBreak(s: string) {
    forall i :: 0 <= i < |s| ==> !IsBreak(s[i])
  }

  predicate NoSeparator(s: string) {
    forall i :: 0 <= i < |s| ==> !IsSeparator(s[i])
  }

  function TrimBoth(s: string): string {
    TrimRight(TrimLeft(s, WHITE), WHITE)
  }

  // ----- JSON strings -----

  function HexDigit(n: nat): (c: char)
    requires n < 16
    ensures HexValue(c) == Some(n)
  {
    if n < 10 then '0' + n as char else 'a' + (n - 10) as char
  }

  function HexValue(c: char): (r: Option<nat>)
    ensures r.Some? ==> r.value < 16
  {
    if '0' <= c <= '9' then Some((c - '0') as nat)
    else if 'a' <= c <= 'f' then Some(10 + (c - 'a') as nat)
    else if 'A' <= c <= 'F' then Some(10 + (c - 'A') as nat)
    else None
  }

  function EscapeChar(c: char): string {
    if c == '"' then "\\\""
    else if c == '\\' then "\\\\"
    else if c == '\n' then "\\n"
    else if c == '\r' then "\\r"
    else if c == '\t' then "\\t"
    else if c == '\U{08}' then "\\b"
    else if c == '\U{0C}' then "\\f"
    else if c < ' ' then "\\u00" + [HexDigit(c as nat / 16), HexDigit(c as nat % 16)]
    else [c]
  }

  function Escape(s: string): string {
    if s == "" then "" else EscapeChar(s[0]) + Escape(s[1..])
  }

  /** `JSON.stringify` of a string. */
  function Quote(s: string): string {
    "\"" + Escape(s) + "\""
  }

  /** The code point of four hexadecimal digits; surrogates have none. */
  function CodePoint(a: char, b: char, c: char, d: char): Option<char> {
    match (HexValue(a), HexValue(b), HexValue(c), HexValue(d))
    case (Some(w), Some(x), Some(y), Some(z)) =>
      var n := ((w * 16 + x) * 16 + y) * 16 + z;
      if 0xD800 <= n < 0xE000 then None else Some(n as char)
    case _ => None
  }

  /** One character of a JSON string, and the number of characters it takes. */
  function ReadChar(t: string): (r: Option<(char, nat)>)
    ensures r.Some? ==> 1 <= r.value.1 <= |t|
  {
    if t == "" || t[0] < ' ' || t[0] == '"' then None
    else if t[0] != '\\' then Some((t[0], 1))
    else if |t| < 2 then None
    else if t[1] == '"' || t[1] == '\\' || t[1] == '/' then Some((t[1], 2))
    else if t[1] == 'n' then Some(('\n', 2))
    else if t[1] == 'r' then Some(('\r', 2))
    else if t[1] == 't' then Some(('\t', 2))
    else if t[1] == 'b' then Some(('\U{08}', 2))
    else if t[1] == 'f' then Some(('\U{0C}', 2))
    else if t[1] == 'u' && |t| >= 6 then
      match CodePoint(t[2], t[3], t[4], t[5])
      case Some(c) => Some((c, 6))
      case None => None
    else None
  }

  /** The rest of a JSON string after its opening quote, which must close at the very end. */
  function ReadBody(t: string): (r: Option<string>)
    ensures r.Some? ==> |r.value| < |t|
    decreases |t|
  {
    if t == "\"" then Some("")
    else
      match ReadChar(t)
      case None => None
      case Some((c, n)) =>
        match ReadBody(t[n..])
        case None => None
        case Some(rest) => Some([c] + rest)
  }

  lemma ReadCharReadsEscape(c: char, rest: string)
    ensures ReadChar(EscapeChar(c) + rest) == Some((c, |EscapeChar(c)|))
  {
    if c < ' ' && c !in "\n\r\t\U{08}\U{0C}" {
      var n := c as nat;
      var t := EscapeChar(c) + rest;
      assert t[2] == '0' && t[3] == '0' && t[4] == HexDigit(n / 16) && t[5] == HexDigit(n % 16);
    }
  }

  /** `JSON.parse` inverts `JSON.stringify` on strings. */
  lemma {:induction false} QuoteIsRead(s: string)
    ensures ReadBody(Escape(s) + "\"") == Some(s)
  {
    if s != "" {
      QuoteIsRead(s[1..]);
      var head, rest := EscapeChar(s[0]), Escape(s[1..]) + "\"";
      ReadCharReadsEscape(s[0], rest);
      assert Escape(s) + "\"" == head + rest;
      assert (head + rest)[|head|..] == rest && |head + rest| >= 2;
      assert s == [s[0]] + s[1..];
    } else {
      assert Escape(s) + "\"" == "\"";
    }
  }

  // ----- Other spellings of JSON strings -----

  /** The value of a hexadecimal digit, in either case. */
  predicate IsHexOf(d: char, n: nat) {
    n < 16 && (d == "0123456789abcdef"[n] || d == "0123456789ABCDEF"[n])
  }

  /** A spelling of a character inside a JSON string. */
  ghost predicate Spells(form: string, c: char) {
    || (form == [c] && c >= ' ' && c != '"' && c != '\\')
    || (form == "\\" + [c] && (c == '"' || c == '\\' || c == '/'))
    || (form == "\\b" && c == '\U{08}')
    || (form == "\\f" && c == '\U{0C}')
    || (form == "\\n" && c == '\n')
    || (form == "\\r" && c == '\r')
    || (form == "\\t" && c == '\t')
    || SpellsByNumber(form, c)
  }

  ghost predicate SpellsByNumber(form: string, c: char) {
    && |form| == 6 && form[0] == '\\' && form[1] == 'u'
    && exists w: nat, x: nat, y: nat, z: nat ::
         && IsHexOf(form[2], w) && IsHexOf(form[3], x) && IsHexOf(form[4], y) && IsHexOf(form[5], z)
         && c as int == w * 4096 + x * 256 + y * 16 + z
  }

  lemma HexOfValue(d: char, n: nat)
    requires IsHexOf(d, n)
    ensures HexValue(d) == Some(n)
  {
    assert n in {0, 1, 2, 3, 4, 5, 6, 7, 8, 9, 10, 11, 12, 13, 14, 15};
  }

  lemma NumberIsRead(form: string, c: char, rest: string)
    requires SpellsByNumber(form, c)
    ensures ReadChar(form + rest) == Some((c, 6))
  {
    var w: nat, x: nat, y: nat, z: nat :|
      && IsHexOf(form[2], w) && IsHexOf(form[3], x) && IsHexOf(form[4], y) && IsHexOf(form[5], z)
      && c as int == w * 4096 + x * 256 + y * 16 + z;
    HexOfValue(form[2], w);
    HexOfValue(form[3], x);
    HexOfValue(form[4], y);
    HexOfValue(form[5], z);
    DigitsAreRead(form, c, rest, w, x, y, z);
  }

  lemma DigitsAreRead(form: string, c: char, rest: string, w: nat, x: nat, y: nat, z: nat)
    requires |form| == 6 && form[0] == '\\' && form[1] == 'u'
    requires HexValue(form[2]) == Some(w) && HexValue(form[3]) == Some(x)
    requires HexValue(form[4]) == Some(y) && HexValue(form[5]) == Some(z)
    requires c as int == w * 4096 + x * 256 + y * 16 + z
    ensures ReadChar(form + rest) == Some((c, 6))
  {
    var t := form + rest;
    assert t[0] == '\\' && t[1] == 'u' && t[2] == form[2] && t[3] == form[3] && t[4] == form[4] && t[5] == form[5];
    assert ((w * 16 + x) * 16 + y) * 16 + z == c as int;
  }

  lemma SpellingIsRead(form: string, c: char, rest: string)
    requires Spells(form, c)
    ensures ReadChar(form + rest) == Some((c, |form|))
  {
    if SpellsByNumber(form, c) {
      NumberIsRead(form, c, rest);
    } else {
      assert (form + rest)[0] == form[0];
      assert |form| == 2 ==> (form + rest)[1] == form[1];
    }
  }

  function Spelled(forms: seq<string>): string {
    if forms == [] then "\"" else forms[0] + Spelled(forms[1..])
  }

  /** `JSON.parse` reads every spelling of a string: plain characters, short escapes, and numbers in either case. */
  lemma {:induction false} AnySpellingIsRead(forms: seq<string>, s: string)
    requires |forms| == |s| && forall i :: 0 <= i < |s| ==> Spells(forms[i], s[i])
    ensures ReadBody(Spelled(forms)) == Some(s)
  {
    if s != "" {
      var rest := Spelled(forms[1..]);
      AnySpellingIsRead(forms[1..], s[1..]);
      SpellingIsRead(forms[0], s[0], rest);
      SumParts(forms[0], rest);
      ReadFirst(forms[0] + rest, s[0], |forms[0]|, rest, s[1..]);
      assert s == [s[0]] + s[1..];
    }
  }

  lemma ReadFirst(t: string, c: char, n: nat, rest: string, s: string)
    requires ReadChar(t) == Some((c, n)) && t[n..] == rest && ReadBody(rest) == Some(s)
    ensures ReadBody(t) == Some([c] + s)
  {
  }

  lemma EscapeCharBreaks(c: char)
    ensures NoBreak(EscapeChar(c)) <==> !IsSeparator(c)
  {
    var e := EscapeChar(c);
    if e == [c] {
      assert e[0] == c;
    } else {
      assert forall i :: 0 <= i < |e| ==> ' ' <= e[i] <= '~';
    }
  }

  lemma NoSeparatorStep(s: string)
    requires s != ""
    ensures NoSeparator(s) <==> !IsSeparator(s[0]) && NoSeparator(s[1..])
  {
    assert s == [s[0]] + s[1..];
  }

  /** JSON escapes every line break but the line and the paragraph separator. */
  lemma {:induction false} EscapeBreaks(s: string)
    ensures NoBreak(Escape(s)) <==> NoSeparator(s)
  {
    if s != "" {
      EscapeBreaks(s[1..]);
      EscapeCharBreaks(s[0]);
      NoBreakConcat(EscapeChar(s[0]), Escape(s[1..]));
      NoSeparatorStep(s);
    }
  }

  lemma NoBreakConcat(a: string, b: string)
    ensures NoBreak(a + b) <==> NoBreak(a) && NoBreak(b)
  {
    assert forall i :: 0 <= i < |a| ==> (a + b)[i] == a[i];
    assert forall i :: 0 <= i < |b| ==> (a + b)[|a| + i] == b[i];
  }

  // ----- parseScalar -----

  predicate Enclosed(s: string, quote: char) {
    s != "" && s[0] == quote && s[|s| - 1] == quote
  }

  predicate Quoted(s: string) {
    Enclosed(s, '"') || Enclosed(s, '\'')
  }

  /** `s.slice(1, -1)`. */
  function Inner(s: string): string {
    if |s| < 2 then "" else s[1..|s| - 1]
  }

  function ParseScalar(raw: string): string {
    var s := TrimBoth(raw);
    if Enclosed(s, '"') then OrElse(ReadBody(s[1..]), Inner(s))
    else if Quoted(s) then Inner(s)
    else s
  }

  /** A scalar that stands for itself: trimmed, on one line, without quotes around it. */
  predicate Plain(s: string) {
    s != "" && !IsWhite(s[0]) && !IsWhite(s[|s| - 1]) && !Quoted(s) && NoBreak(s)
  }

  lemma QuotedShrinks(raw: string)
    requires Quoted(TrimBoth(raw))
    ensures |ParseScalar(raw)| < |raw|
  {
  }

  lemma TrimIs(s: string, cut: set<char>)
    ensures TrimRight(TrimLeft(s, cut), cut) == s <==> s == "" || (s[0] !in cut && s[|s| - 1] !in cut)
  {
    var t := TrimLeft(s, cut);
    if TrimRight(t, cut) == s {
      assert t == s;
    }
  }

  lemma TrimBothIs(s: string)
    ensures TrimBoth(s) == s <==> s == "" || (!IsWhite(s[0]) && !IsWhite(s[|s| - 1]))
  {
    TrimIs(s, WHITE);
  }

  /** A scalar is read as itself exactly when it is trimmed and has no quotes around it. */
  lemma ParsesToItself(s: string)
    ensures ParseScalar(s) == s <==> !Quoted(s) && (s == "" || (!IsWhite(s[0]) && !IsWhite(s[|s| - 1])))
  {
    TrimBothIs(s);
    if Quoted(TrimBoth(s)) {
      QuotedShrinks(s);
    } else {
      assert ParseScalar(s) == TrimBoth(s);
    }
  }

  lemma QuoteParses(s: string)
    ensures ParseScalar(Quote(s)) == s
  {
    var q := Quote(s);
    assert q[0] == '"' && q[|q| - 1] == '"' && !IsWhite('"');
    assert TrimBoth(q) == q;
    assert q[1..] == Escape(s) + "\"";
    QuoteIsRead(s);
  }

  /** White space around something that starts and ends without it is trimmed off. */
  lemma TrimAround(a: string, s: string, b: string)
    requires (forall i :: 0 <= i < |a| ==> IsWhite(a[i])) && (forall i :: 0 <= i < |b| ==> IsWhite(b[i]))
    requires s != "" && !IsWhite(s[0]) && !IsWhite(s[|s| - 1])
    ensures TrimBoth(a + (s + b)) == s
  {
    assert (s + b)[0] == s[0];
    TrimLeftDrops(a, s + b, WHITE);
    TrimRightDropsSuffix(s, b, WHITE);
  }

  /** Single quotes are taken off, whatever is between them. */
  lemma SingleQuotesAreTakenOff(a: string, text: string, b: string)
    requires (forall i :: 0 <= i < |a| ==> IsWhite(a[i])) && (forall i :: 0 <= i < |b| ==> IsWhite(b[i]))
    ensures ParseScalar(a + ("'" + text + "'" + b)) == text
  {
    var s := "'" + text + "'";
    TrimAround(a, s, b);
    assert s[0] == '\'' && s[|s| - 1] == '\'' && s[1..|s| - 1] == text;
  }

  /** Between double quotes stands a JSON string, or else the text as it is. */
  lemma DoubleQuotesAreParsed(a: string, text: string, b: string)
    requires (forall i :: 0 <= i < |a| ==> IsWhite(a[i])) && (forall i :: 0 <= i < |b| ==> IsWhite(b[i]))
    ensures ParseScalar(a + ("\"" + text + "\"" + b)) == OrElse(ReadBody(text + "\""), text)
  {
    var s := "\"" + text + "\"";
    TrimAround(a, s, b);
    assert s[0] == '"' && s[|s| - 1] == '"' && s[1..|s| - 1] == text && s[1..] == text + "\"";
  }

  // ----- Lines -----

  function KeyRun(s: string): (k: string)
    ensures k <= s
  {
    if s == "" || !IsKeyChar(s[0]) then "" else [s[0]] + KeyRun(s[1..])
  }

  /** `(\w[\w-]*):\s*(.*)$`: the key and what follows its colon. */
  function KeyValue(s: string): Option<(string, string)> {
    var k := KeyRun(s);
    if k == "" || !IsWord(k[0]) || |k| == |s| || s[|k|] != ':' then None
    else
      match Raw(s[|k| + 1..])
      case None => None
      case Some(raw) => Some((k, raw))
  }

  /** `\s*(.*)$` after the colon. */
  function Raw(rest: string): Option<string> {
    var raw := TrimLeft(rest, WHITE);
    if NoBreak(raw) then Some(raw) else None
  }

  datatype Entry = Nothing | Top(key: string, raw: string) | Nested(key: string, raw: string)

  /** Blank lines and comments. */
  predicate Ignored(line: string) {
    var t := TrimBoth(line);
    t == "" || t[0] == '#'
  }

  /** `^\s+` in front of a key. */
  function Indented(line: string): Option<(string, string)> {
    var inner := TrimLeft(line, WHITE);
    if |inner| < |line| then KeyValue(inner) else None
  }

  function Kind(line: string): Entry {
    if Ignored(line) then Nothing
    else
      match KeyValue(line)
      case Some((key, raw)) => Top(key, raw)
      case None =>
        match Indented(line)
        case Some((key, raw)) => Nested(key, raw)
        case None => Nothing
  }

  datatype Value = Text(text: string) | Object(fields: map<string, string>)

  datatype Reading = Reading(out: map<string, Value>, section: Option<string>)

  function Enter(s: Reading, e: Entry): Reading {
    match e
    case Nothing => s
    case Top(key, raw) => if raw != "" then PutText(s, key, ParseScalar(raw)) else OpenSection(s, key)
    case Nested(key, raw) => PutField(s, key, ParseScalar(raw))
  }

  function PutText(s: Reading, key: string, text: string): Reading {
    Reading(s.out[key := Text(text)], None)
  }

  function OpenSection(s: Reading, key: string): Reading {
    Reading(s.out[key := Object(map[])], Some(key))
  }

  /** A nested line sets a field of the section it is in. */
  function PutField(s: Reading, key: string, value: string): Reading {
    if s.section.Some? && s.section.value in s.out && s.out[s.section.value].Object? then
      Reading(s.out[s.section.value := Object(s.out[s.section.value].fields[key := value])], s.section)
    else s
  }

  function EnterAll(s: Reading, entries: seq<Entry>): Reading {
    if entries == [] then s else Enter(EnterAll(s, entries[..|entries| - 1]), entries[|entries| - 1])
  }

  function Kinds(lines: seq<string>): (entries: seq<Entry>)
    ensures |entries| == |lines|
  {
    if lines == [] then [] else Kinds(lines[..|lines| - 1]) + [Kind(lines[|lines| - 1])]
  }

  function ReadLines(lines: seq<string>): map<string, Value> {
    EnterAll(START, Kinds(lines)).out
  }

  function DropCr(line: string): string {
    if line != "" && line[|line| - 1] == '\r' then line[..|line| - 1] else line
  }

  function DropCrs(lines: seq<string>): (out: seq<string>)
    ensures |out| == |lines|
    ensures forall i :: 0 <= i < |lines| ==> out[i] == DropCr(lines[i])
  {
    if lines == [] then [] else [DropCr(lines[0])] + DropCrs(lines[1..])
  }

  /** `text.split(/\r?\n/)`: the last piece keeps its carriage return. */
  function LinesOf(text: string): seq<string> {
    var parts := Split(text, '\n');
    DropCrs(parts[..|parts| - 1]) + [parts[|parts| - 1]]
  }

  // ----- Line endings -----

  /** Lines with a carriage return at the end of each but the last. */
  function WithCrs(lines: seq<string>): (out: seq<string>)
    ensures |out| == |lines|
  {
    seq(|lines|, i requires 0 <= i < |lines| => if i + 1 < |lines| then lines[i] + "\r" else lines[i])
  }

  lemma {:induction false} JoinCrLf(lines: seq<string>)
    ensures Join(lines, "\r\n") == Join(WithCrs(lines), "\n")
  {
    if |lines| > 1 {
      var rest := lines[1..];
      JoinCrLf(rest);
      assert WithCrs(lines)[1..] == WithCrs(rest);
      assert lines[0] + "\r\n" == (lines[0] + "\r") + "\n";
    }
  }

  predicate Bare(line: string) {
    '\n' !in line && (line == "" || line[|line| - 1] != '\r')
  }

  /** The line as it is, or with a carriage return behind it. */
  predicate EndsEither(some: string, line: string) {
    some == line || some == line + "\r"
  }

  lemma DropsEither(some: string, line: string)
    requires Bare(line) && EndsEither(some, line)
    ensures DropCr(some) == line && '\n' !in some
  {
    assert (line + "\r")[..|line|] == line;
  }

  lemma {:induction false} DropsAll(some: seq<string>, lines: seq<string>)
    requires |some| == |lines| && forall i :: 0 <= i < |lines| ==> Bare(lines[i]) && EndsEither(some[i], lines[i])
    ensures DropCrs(some) == lines
    ensures forall i :: 0 <= i < |some| ==> '\n' !in some[i]
  {
    forall i | 0 <= i < |lines|
      ensures DropCr(some[i]) == lines[i] && '\n' !in some[i]
    {
      DropsEither(some[i], lines[i]);
    }
  }

  lemma LinesOfPieces(text: string, pieces: seq<string>, lines: seq<string>)
    requires Split(text, '\n') == pieces && |pieces| == |lines|
    requires DropCrs(pieces[..|pieces| - 1]) == lines[..|lines| - 1] && pieces[|pieces| - 1] == lines[|lines| - 1]
    ensures LinesOf(text) == lines
  {
    var n := |lines| - 1;
    assert lines == lines[..n] + [lines[n]];
  }

  lemma PiecesOf(pieces: seq<string>, lines: seq<string>)
    requires lines != [] && |pieces| == |lines| && pieces[|lines| - 1] == lines[|lines| - 1]
    requires forall i :: 0 <= i < |lines| ==> Bare(lines[i]) && EndsEither(pieces[i], lines[i])
    ensures Split(Join(pieces, ['\n']), '\n') == pieces
    ensures DropCrs(pieces[..|pieces| - 1]) == lines[..|lines| - 1]
  {
    DropsAll(pieces, lines);
    DropsAll(pieces[..|lines| - 1], lines[..|lines| - 1]);
    SplitJoin(pieces, '\n');
  }

  lemma CrsEndEither(lines: seq<string>)
    ensures forall i :: 0 <= i < |lines| ==> EndsEither(lines[i], lines[i]) && EndsEither(WithCrs(lines)[i], lines[i])
  {
  }

  /** Files with either line ending are read as the same lines. */
  lemma LineEndingsDoNotMatter(lines: seq<string>)
    requires lines != [] && forall i :: 0 <= i < |lines| ==> Bare(lines[i])
    ensures LinesOf(Join(lines, "\n")) == lines && LinesOf(Join(lines, "\r\n")) == lines
    ensures ReadText(Join(lines, "\r\n")) == ReadText(Join(lines, "\n"))
  {
    JoinCrLf(lines);
    CrsEndEither(lines);
    SplitsInto(lines, lines, Join(lines, "\n"));
    SplitsInto(WithCrs(lines), lines, Join(lines, "\r\n"));
    SameLinesSameText(Join(lines, "\r\n"), Join(lines, "\n"));
  }

  lemma SplitsInto(pieces: seq<string>, lines: seq<string>, text: string)
    requires lines != [] && |pieces| == |lines| && pieces[|lines| - 1] == lines[|lines| - 1]
    requires forall i :: 0 <= i < |lines| ==> Bare(lines[i]) && EndsEither(pieces[i], lines[i])
    requires text == Join(pieces, "\n")
    ensures LinesOf(text) == lines
  {
    assert ['\n'] == "\n";
    PiecesOf(pieces, lines);
    LinesOfPieces(text, pieces, lines);
  }

  lemma SameLinesSameText(a: string, b: string)
    requires LinesOf(a) == LinesOf(b)
    ensures ReadText(a) == ReadText(b)
  {
  }

  const START := Reading(map[], None)

  function ReadText(text: string): Option<map<string, Value>> {
    Named(ReadLines(LinesOf(text)))
  }

  function Named(out: map<string, Value>): Option<map<string, Value>> {
    if "name" in out && out["name"].Text? then Some(out) else None
  }

  /** `readProjectSettings` where js-yaml is not installed. */
  method ReadProjectSettings(file: Option<string>) returns (settings: Option<map<string, Value>>)
    ensures settings == match file case None => None case Some(text) => ReadText(text)
  {
    if file.None? {
      return None;
    }
    var lines := LinesOf(file.value);
    var out: map<string, Value>, section: Option<string> := map[], None;
    for i := 0 to |lines|
      invariant EnterAll(START, Kinds(lines[..i])) == Reading(out, section)
    {
      assert lines[..i + 1][..i] == lines[..i];
      assert Kinds(lines[..i + 1])[..i] == Kinds(lines[..i]);
      match Kind(lines[i]) {
        case Nothing =>
        case Top(key, raw) =>
          if raw != "" {
            out := out[key := Text(ParseScalar(raw))];
            section := None;
          } else {
            out := out[key := Object(map[])];
            section := Some(key);
          }
        case Nested(key, raw) =>
          if section.Some? && section.value in out && out[section.value].Object? {
            out := out[section.value := Object(out[section.value].fields[key := ParseScalar(raw)])];
          }
      }
    }
    assert lines[..|lines|] == lines;
    settings := Named(out);
  }

  // ----- Settings without a name -----

  /** What the last line for a key says, if there is one. */
  function LastTop(entries: seq<Entry>, key: string): Option<string> {
    if entries == [] then None
    else
      var last := entries[|entries| - 1];
      if last.Top? && last.key == key then Some(last.raw) else LastTop(entries[..|entries| - 1], key)
  }

  lemma {:induction false} TextIffLast(entries: seq<Entry>, key: string)
    ensures var out := EnterAll(START, entries).out;
            match LastTop(entries, key)
            case None => key !in out
            case Some(raw) => key in out && (if raw == "" then out[key].Object? else out[key] == Text(ParseScalar(raw)))
  {
    if entries != [] {
      TextIffLast(entries[..|entries| - 1], key);
    }
  }

  /** A file is read as settings if and only if its last line for the name has a text, which is the name. */
  lemma NamedIff(text: string)
    ensures var raw := LastTop(Kinds(LinesOf(text)), "name");
            && (ReadText(text).Some? <==> raw.Some? && raw.value != "")
            && (ReadText(text).Some? ==> "name" in ReadText(text).value
                                         && ReadText(text).value["name"] == Text(ParseScalar(raw.value)))
  {
    TextIffLast(Kinds(LinesOf(text)), "name");
  }
}
