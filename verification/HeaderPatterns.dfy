/**
 What the patterns of header and marker lines match, read off the patterns themselves: white space,
 keyword, white space and fields put together. Classification recognises exactly these lines.
 */
module HeaderPatterns {
  import opened Wrappers
  import opened Seqs
  import opened Strings
  import opened Headers

  // ----- The forms of a line -----

  /** A comment that starts with the keyword, and what follows it. */
  ghost predicate Comment(line: string, keyword: string, rest: string) {
    exists blanks :: CommentWith(line, keyword, rest, blanks)
  }

  ghost predicate CommentWith(line: string, keyword: string, rest: string, blanks: string) {
    AllSpace(blanks) && line == "//" + (blanks + (keyword + rest))
  }

  predicate Blanks(s: string) {
    s != "" && AllSpace(s)
  }

  /** The keyword and, after white space, a text up to the end of the line. */
  ghost predicate TextLine(line: string, keyword: string, text: string) {
    exists blanks :: Comment(line, keyword, blanks + text) && TextAfter(blanks, text)
  }

  predicate TextAfter(blanks: string, text: string) {
    AllSpace(blanks) && (text == "" || !IsReSpace(text[0]))
  }

  /** The keyword and, after white space, a path; what follows the path does not matter. */
  ghost predicate PathLine(line: string, keyword: string, path: string) {
    exists rest :: Comment(line, keyword, rest) && PathFirst(rest, path)
  }

  ghost predicate PathFirst(s: string, path: string) {
    exists blanks, tail :: PathWith(s, path, blanks, tail)
  }

  ghost predicate PathWith(s: string, path: string, blanks: string, tail: string) {
    Blanks(blanks) && IsToken(path) && s == blanks + (path + tail) && (tail == "" || IsReSpace(tail[0]))
  }

  // ----- Keywords -----

  lemma AfterIff(line: string, keyword: string, rest: string)
    requires keyword != "" && !IsReSpace(keyword[0])
    ensures After(line, keyword) == Some(rest) <==> Comment(line, keyword, rest)
  {
    if After(line, keyword) == Some(rest) {
      var t := TrimLeft(line[2..], RE_SPACE);
      var blanks := TrimLeftCuts(line[2..], RE_SPACE);
      assert t == keyword + rest;
      Cut(line, 2);
      assert CommentWith(line, keyword, rest, blanks);
    }
    if blanks :| CommentWith(line, keyword, rest, blanks) {
      assert line[2..] == blanks + (keyword + rest);
      TrimLeftDrops(blanks, keyword + rest, RE_SPACE);
      SumParts(keyword, rest);
    }
  }

  /** No comment starts with two keywords unless one begins with the other. */
  lemma OneKeyword(line: string, k: string, l: string)
    requires After(line, k).Some? && After(line, l).Some?
    ensures k <= l || l <= k
  {
    var t := TrimLeft(line[2..], RE_SPACE);
    assert k == t[..|k|] && l == t[..|l|];
    if |k| <= |l| {
      assert k == l[..|k|];
    } else {
      assert l == k[..|l|];
    }
  }

  // ----- Texts and paths -----

  lemma TextIff(line: string, keyword: string, text: string)
    requires keyword != "" && !IsReSpace(keyword[0])
    ensures After(line, keyword).Some? && TrimLeft(After(line, keyword).value, RE_SPACE) == text
            <==> TextLine(line, keyword, text)
  {
    if After(line, keyword).Some? && TrimLeft(After(line, keyword).value, RE_SPACE) == text {
      var rest := After(line, keyword).value;
      AfterIff(line, keyword, rest);
      var blanks := TrimLeftCuts(rest, RE_SPACE);
      assert TextAfter(blanks, text);
    }
    if blanks :| Comment(line, keyword, blanks + text) && TextAfter(blanks, text) {
      AfterIff(line, keyword, blanks + text);
      TrimLeftDrops(blanks, text, RE_SPACE);
    }
  }

  lemma TokenOf(path: string, tail: string)
    requires IsToken(path) && (tail == "" || IsReSpace(tail[0]))
    ensures Token(path + tail) == path
  {
    SumParts(path, tail);
    TokenIs(path + tail, path);
  }

  /** The first word of a text. */
  lemma FirstWordIs(blanks: string, path: string, tail: string)
    requires AllSpace(blanks) && IsToken(path) && (tail == "" || IsReSpace(tail[0]))
    ensures Words(blanks + (path + tail)) == [path] + Words(tail)
  {
    var t := path + tail;
    TrimLeftDrops(blanks, t, RE_SPACE);
    TokenOf(path, tail);
    SumParts(path, tail);
  }

  lemma FirstWordSplits(s: string) returns (blanks: string, path: string, tail: string)
    requires Words(s) != []
    ensures AllSpace(blanks) && IsToken(path) && (tail == "" || IsReSpace(tail[0]))
    ensures s == blanks + (path + tail) && Words(s) == [path] + Words(tail)
  {
    var t := TrimLeft(s, RE_SPACE);
    blanks := TrimLeftCuts(s, RE_SPACE);
    path, tail := Token(t), t[|Token(t)|..];
    TokenIsToken(t);
    Cut(t, |path|);
  }

  lemma PathIff(rest: string, path: string)
    ensures PathIn(rest) == Some(path) <==> PathFirst(rest, path)
  {
    if PathIn(rest) == Some(path) {
      var blanks, p, tail := FirstWordSplits(rest);
      assert PathWith(rest, path, blanks, tail);
    }
    if blanks, tail :| PathWith(rest, path, blanks, tail) {
      FirstWordIs(blanks, path, tail);
    }
  }

  lemma PathLineIff(line: string, keyword: string, path: string)
    requires keyword != "" && !IsReSpace(keyword[0])
    ensures After(line, keyword).Some? && PathIn(After(line, keyword).value) == Some(path)
            <==> PathLine(line, keyword, path)
  {
    if After(line, keyword).Some? && PathIn(After(line, keyword).value) == Some(path) {
      AfterIff(line, keyword, After(line, keyword).value);
      PathIff(After(line, keyword).value, path);
    }
    if rest :| Comment(line, keyword, rest) && PathFirst(rest, path) {
      AfterIff(line, keyword, rest);
      PathIff(rest, path);
    }
  }

  // ----- Header entries -----

  predicate Sha256(s: string) {
    |s| == 64 && forall i :: 0 <= i < |s| ==> s[i] in "0123456789abcdef"
  }

  lemma HexDigits(c: char)
    ensures '0' <= c <= '9' || 'a' <= c <= 'f' <==> c in "0123456789abcdef"
  {
  }

  lemma Sha256IsHash(s: string)
    ensures Sha256(s) <==> IsHash(s)
  {
    forall i | 0 <= i < |s|
      ensures '0' <= s[i] <= '9' || 'a' <= s[i] <= 'f' <==> s[i] in "0123456789abcdef"
    {
      HexDigits(s[i]);
    }
  }

  /** The fields of a header entry, each behind white space, and white space up to the end of the line. */
  ghost predicate EntryLine(line: string, mod: string, version: string, path: string, sha: string) {
    && IsToken(mod) && GoodVersion(version)
    && Sha256(sha)
    && exists rest :: Comment(line, "upstream:", rest) && ThreeFields(rest, mod + "@" + version, path, "sha256=" + sha)
  }

  ghost predicate ThreeFields(s: string, a: string, b: string, c: string) {
    exists b1, b2, b3, b4 :: FieldsWith(s, a, b, c, b1, b2, b3, b4)
  }

  ghost predicate FieldsWith(
    s: string, a: string, b: string, c: string, b1: string, b2: string, b3: string, b4: string) {
    && IsToken(a) && IsToken(b) && IsToken(c)
    && Blanks(b1) && Blanks(b2) && Blanks(b3) && AllSpace(b4)
    && s == b1 + (a + (b2 + (b + (b3 + (c + b4)))))
  }

  lemma NoWords(s: string)
    ensures Words(s) == [] <==> AllSpace(s)
  {
    var blanks := TrimLeftCuts(s, RE_SPACE);
    assert TrimLeft(s, RE_SPACE) == "" ==> s == blanks;
    if AllSpace(s) {
      TrimLeftDrops(s, "", RE_SPACE);
      assert s + "" == s;
    }
  }

  lemma StartsBlank(blanks: string, s: string)
    requires Blanks(blanks)
    ensures IsReSpace((blanks + s)[0])
  {
  }

  lemma ThreeFieldsIff(s: string, a: string, b: string, c: string)
    ensures StartsWithSpace(s) && Words(s) == [a, b, c] <==> ThreeFields(s, a, b, c)
  {
    if b1, b2, b3, b4 :| FieldsWith(s, a, b, c, b1, b2, b3, b4) {
      NoWords(b4);
      var s3 := b3 + (c + b4);
      var s2 := b2 + (b + s3);
      StartsBlank(b3, c + b4);
      StartsBlank(b2, b + s3);
      StartsBlank(b1, a + s2);
      FirstWordIs(b3, c, b4);
      FirstWordIs(b2, b, s3);
      FirstWordIs(b1, a, s2);
    }
    if StartsWithSpace(s) && Words(s) == [a, b, c] {
      FieldsOf(s, a, b, c);
    }
  }

  /** A word behind the end of another one has white space before it. */
  lemma NextField(s: string, word: string, more: seq<string>) returns (blanks: string, tail: string)
    requires s != "" && IsReSpace(s[0]) && Words(s) == [word] + more
    ensures Blanks(blanks) && IsToken(word) && s == blanks + (word + tail) && Words(tail) == more
    ensures tail == "" || IsReSpace(tail[0])
  {
    var w;
    blanks, w, tail := FirstWordSplits(s);
    ConsTail(w, Words(tail));
    ConsTail(word, more);
    assert w == word;
  }

  lemma FieldsOf(s: string, a: string, b: string, c: string)
    requires StartsWithSpace(s) && Words(s) == [a, b, c]
    ensures ThreeFields(s, a, b, c)
  {
    assert [a, b, c] == [a] + [b, c] && [b, c] == [b] + [c] && [c] == [c] + [];
    var b1, s2 := NextField(s, a, [b, c]);
    NoWords(s2);
    var b2, s3 := NextField(s2, b, [c]);
    NoWords(s3);
    var b3, b4 := NextField(s3, c, []);
    NoWords(b4);
    assert FieldsWith(s, a, b, c, b1, b2, b3, b4);
  }

  /** Three words make an entry exactly when they are the fields of one. */
  lemma EntryOfWords(w: seq<string>, mod: string, version: string, path: string, sha: string, tag: string)
    requires AllTokens(w)
    ensures SourceOf(w, tag) == Some(Source(mod, version, path, sha)) <==>
            && w == [mod + "@" + version, path, tag + sha]
            && IsToken(mod) && GoodVersion(version) && IsHash(sha)
  {
    if SourceOf(w, tag) == Some(Source(mod, version, path, sha)) {
      SourceShape(w, tag);
      PinIs(w[0], mod, version);
      assert w[2] == tag + sha;
      WordsRead(mod, version, path, tag, sha);
    } else if w == [mod + "@" + version, path, tag + sha] && IsToken(mod) && GoodVersion(version) && IsHash(sha) {
      WordsRead(mod, version, path, tag, sha);
    }
  }

  lemma PinIs(pin: string, mod: string, version: string)
    requires |pin| >= 3 && LastAt(pin, |pin| - 2).Some?
    requires var i := LastAt(pin, |pin| - 2).value; mod == pin[..i] && version == pin[i + 1..]
    ensures pin == mod + "@" + version
  {
    CutAround(pin, LastAt(pin, |pin| - 2).value);
  }

  lemma EntryIff(line: string, mod: string, version: string, path: string, sha: string)
    ensures SourceLine(line, KEYWORD, SHA) == Some(Source(mod, version, path, sha)) <==>
            EntryLine(line, mod, version, path, sha)
  {
    var a, c := mod + "@" + version, SHA + sha;
    Sha256IsHash(sha);
    if After(line, KEYWORD).Some? {
      var rest := After(line, KEYWORD).value;
      AfterIff(line, KEYWORD, rest);
      WordsAreTokens(rest);
      EntryOfWords(Words(rest), mod, version, path, sha, SHA);
      ThreeFieldsIff(rest, a, path, c);
    }
    if EntryLine(line, mod, version, path, sha) {
      var rest :| Comment(line, "upstream:", rest) && ThreeFields(rest, a, path, c);
      AfterIff(line, KEYWORD, rest);
    }
  }

  // ----- Classification -----

  predicate Differ(k: string, l: string) {
    !(k <= l) && !(l <= k)
  }

  lemma DifferAt(k: string, l: string, i: nat)
    requires i < |k| && i < |l| && k[i] != l[i]
    ensures Differ(k, l)
  {
  }

  /** The texts of the five keywords. */
  lemma Keywords(r: string, d: string, b: string, e: string)
    requires r == "upstream-reason:" && d == "upstream-delete-when:" && b == "upstream-begin:" && e == "upstream-end:"
    ensures Differ(KEYWORD, r) && Differ(KEYWORD, d) && Differ(KEYWORD, b) && Differ(KEYWORD, e)
    ensures Differ(r, d) && Differ(r, b) && Differ(r, e) && Differ(d, b) && Differ(d, e) && Differ(b, e)
    ensures 'u' == KEYWORD[0] == r[0] == d[0] == b[0] == e[0]
  {
    DifferAt(KEYWORD, r, 8);
    DifferAt(KEYWORD, d, 8);
    DifferAt(KEYWORD, b, 8);
    DifferAt(KEYWORD, e, 8);
    DifferAt(r, d, 9);
    DifferAt(r, b, 9);
    DifferAt(r, e, 9);
    DifferAt(d, b, 9);
    DifferAt(d, e, 9);
    DifferAt(b, e, 9);
  }

  lemma Exclusive(line: string, k: string, l: string)
    requires Differ(k, l)
    ensures After(line, k).None? || After(line, l).None?
  {
    if After(line, k).Some? && After(line, l).Some? {
      OneKeyword(line, k, l);
    }
  }

  /** Of the five keywords a line has at most one. */
  lemma AtMostOne(line: string, r: string, d: string, b: string, e: string)
    requires r == "upstream-reason:" && d == "upstream-delete-when:" && b == "upstream-begin:" && e == "upstream-end:"
    ensures After(line, KEYWORD).Some? ==>
              After(line, r).None? && After(line, d).None? && After(line, b).None? && After(line, e).None?
    ensures After(line, r).Some? ==> After(line, d).None? && After(line, b).None? && After(line, e).None?
    ensures After(line, d).Some? ==> After(line, b).None? && After(line, e).None?
    ensures After(line, b).Some? ==> After(line, e).None?
  {
    Keywords(r, d, b, e);
    Exclusive(line, KEYWORD, r);
    Exclusive(line, KEYWORD, d);
    Exclusive(line, KEYWORD, b);
    Exclusive(line, KEYWORD, e);
    Exclusive(line, r, d);
    Exclusive(line, r, b);
    Exclusive(line, r, e);
    Exclusive(line, d, b);
    Exclusive(line, d, e);
    Exclusive(line, b, e);
  }

  lemma EntryClassified(line: string, mod: string, version: string, path: string, sha: string)
    ensures Classify(line) == Source(mod, version, path, sha) <==> EntryLine(line, mod, version, path, sha)
  {
    EntryIff(line, mod, version, path, sha);
  }

  lemma ReasonClassified(line: string, text: string)
    ensures Classify(line) == Reason(text) <==> TextLine(line, "upstream-reason:", text)
  {
    var r, d, b, e := "upstream-reason:", "upstream-delete-when:", "upstream-begin:", "upstream-end:";
    AtMostOne(line, r, d, b, e);
    TextIff(line, r, text);
  }

  lemma DeleteWhenClassified(line: string, text: string)
    ensures Classify(line) == DeleteWhen(text) <==> TextLine(line, "upstream-delete-when:", text)
  {
    var r, d, b, e := "upstream-reason:", "upstream-delete-when:", "upstream-begin:", "upstream-end:";
    AtMostOne(line, r, d, b, e);
    TextIff(line, d, text);
  }

  lemma BeginClassified(line: string, path: string)
    ensures Classify(line) == Begin(path) <==> PathLine(line, "upstream-begin:", path)
  {
    var r, d, b, e := "upstream-reason:", "upstream-delete-when:", "upstream-begin:", "upstream-end:";
    AtMostOne(line, r, d, b, e);
    PathLineIff(line, b, path);
  }

  lemma EndClassified(line: string, path: string)
    ensures Classify(line) == End(path) <==> PathLine(line, "upstream-end:", path)
  {
    var r, d, b, e := "upstream-reason:", "upstream-delete-when:", "upstream-begin:", "upstream-end:";
    AtMostOne(line, r, d, b, e);
    PathLineIff(line, e, path);
  }

  /** The line has the form of this kind of line. */
  ghost predicate HasForm(line: string, l: Line) {
    match l
    case Source(mod, version, path, sha) => EntryLine(line, mod, version, path, sha)
    case Reason(text) => TextLine(line, "upstream-reason:", text)
    case DeleteWhen(text) => TextLine(line, "upstream-delete-when:", text)
    case Begin(path) => PathLine(line, "upstream-begin:", path)
    case End(path) => PathLine(line, "upstream-end:", path)
    case Text => false
  }

  /**
   Classification finds the form a line has: it is read as a header entry, a reason, a delete-when text,
   a begin or an end marker if and only if it has that form with those fields, whatever the white space,
   and as text if and only if it has none.
   */
  lemma ClassifyIff(line: string, l: Line)
    ensures l != Text ==> (Classify(line) == l <==> HasForm(line, l))
    ensures Classify(line) == Text <==> forall form :: !HasForm(line, form)
  {
    forall form | form != Text
      ensures Classify(line) == form <==> HasForm(line, form)
    {
      match form
      case Source(mod, version, path, sha) => EntryClassified(line, mod, version, path, sha);
      case Reason(text) => ReasonClassified(line, text);
      case DeleteWhen(text) => DeleteWhenClassified(line, text);
      case Begin(path) => BeginClassified(line, path);
      case End(path) => EndClassified(line, path);
    }
    var c := Classify(line);
    assert c != Text ==> HasForm(line, c);
  }
}
