/** The string functions of the Go and JavaScript standard libraries that the modelled code calls. */
module Strings {
  import opened Seqs

  /** Position of the first `c`, or |s|. */
  function Find(s: string, c: char): (k: nat)
    ensures k <= |s|
    ensures c !in s[..k]
    ensures k < |s| ==> s[k] == c
  {
    if s == [] || s[0] == c then 0
    else
      var k := 1 + Find(s[1..], c);
      assert s[..k] == [s[0]] + s[1..][..k - 1];
      k
  }

  lemma FindIs(s: string, c: char, k: nat)
    requires k < |s| && s[k] == c && c !in s[..k]
    ensures Find(s, c) == k
  {
    var f := Find(s, c);
    assert forall i :: 0 <= i < k ==> s[i] in s[..k];
    assert forall i :: 0 <= i < f ==> s[i] in s[..f];
  }

  /** `strings.Contains`. */
  predicate Contains(s: string, sub: string) {
    exists i :: 0 <= i <= |s| && sub <= s[i..]
  }

  /** `strings.Join`. */
  function Join(parts: seq<string>, sep: string): string {
    if parts == [] then ""
    else if |parts| == 1 then parts[0]
    else parts[0] + sep + Join(parts[1..], sep)
  }

  /** `strings.Split` on a single character. */
  function Split(s: string, c: char): (parts: seq<string>)
    ensures parts != []
    decreases |s|
  {
    var k := Find(s, c);
    if k == |s| then [s] else [s[..k]] + Split(s[k + 1..], c)
  }

  lemma {:induction false} SplitHasNoSeparator(s: string, c: char)
    ensures forall i :: 0 <= i < |Split(s, c)| ==> c !in Split(s, c)[i]
    decreases |s|
  {
    var k := Find(s, c);
    if k < |s| {
      SplitHasNoSeparator(s[k + 1..], c);
    } else {
      assert s[..k] == s;
    }
  }

  lemma JoinCons(part: string, parts: seq<string>, sep: string)
    requires parts != []
    ensures Join([part] + parts, sep) == part + sep + Join(parts, sep)
  {
    ConsTail(part, parts);
  }

  /** A text that starts with a piece and a separator. */
  lemma SplitFirst(line: string, c: char, rest: string)
    requires c !in line
    ensures Split(line + [c] + rest, c) == [line] + Split(rest, c)
  {
    var s := line + [c] + rest;
    SumParts(line + [c], rest);
    SumParts(line, [c] + rest);
    Regroup(line, [c], rest);
    assert s[|line|] == c;
    FindIs(s, c, |line|);
  }

  lemma {:induction false} JoinSplit(s: string, c: char)
    ensures Join(Split(s, c), [c]) == s
    decreases |s|
  {
    var k := Find(s, c);
    if k < |s| {
      JoinSplit(s[k + 1..], c);
      JoinCons(s[..k], Split(s[k + 1..], c), [c]);
      CutAround(s, k);
    }
  }

  lemma {:induction false} SplitJoin(parts: seq<string>, c: char)
    requires parts != []
    requires forall i :: 0 <= i < |parts| ==> c !in parts[i]
    ensures Split(Join(parts, [c]), c) == parts
  {
    if |parts| == 1 {
      assert c !in parts[0];
      assert parts == [parts[0]];
    } else {
      SplitJoin(parts[1..], c);
      SplitFirst(parts[0], c, Join(parts[1..], [c]));
      assert parts == [parts[0]] + parts[1..];
    }
  }

  // ----- Trimming -----

  /** `unicode.IsSpace`. */
  predicate IsSpace(c: char) {
    || '\t' <= c <= '\r' || c == ' ' || c == '\U{0085}' || c == '\U{00A0}' || c == '\U{1680}'
    || '\U{2000}' <= c <= '\U{200A}' || c == '\U{2028}' || c == '\U{2029}' || c == '\U{202F}' || c == '\U{205F}'
    || c == '\U{3000}'
  }

  const SPACE := set c: char | IsSpace(c)

  /** `\s` of Go's regexp package, which does not contain the vertical tab. */
  const RE_SPACE: set<char> := {' ', '\t', '\n', '\U{0C}', '\r'}

  predicate IsReSpace(c: char) {
    c in RE_SPACE
  }

  /** What `\s*` matches. */
  predicate AllSpace(t: string) {
    forall i :: 0 <= i < |t| ==> IsReSpace(t[i])
  }

  /** `strings.TrimLeft` with a cut set. */
  function TrimLeft(s: string, cut: set<char>): (t: string)
    ensures |t| <= |s|
    ensures t != "" ==> t[0] !in cut
  {
    if s != "" && s[0] in cut then TrimLeft(s[1..], cut) else s
  }

  /** `strings.TrimRight` with a cut set. */
  function TrimRight(s: string, cut: set<char>): (t: string)
    ensures t <= s
    ensures t != "" ==> t[|t| - 1] !in cut
  {
    if s != "" && s[|s| - 1] in cut then TrimRight(s[..|s| - 1], cut) else s
  }

  function Trim(s: string): string {
    TrimRight(TrimLeft(s, SPACE), SPACE)
  }

  /** Starting and ending with something that is not white space. */
  predicate Trimmed(s: string) {
    s != "" && !IsSpace(s[0]) && !IsSpace(s[|s| - 1])
  }

  lemma TrimLeftOfBlank(w: string, cut: set<char>)
    requires ' ' in cut
    ensures TrimLeft(" " + w, cut) == TrimLeft(w, cut)
  {
    assert (" " + w)[1..] == w;
  }

  /** What is cut off in front are characters of the cut set, and the rest is the end of the text. */
  lemma {:induction false} TrimLeftCuts(s: string, cut: set<char>) returns (front: string)
    ensures s == front + TrimLeft(s, cut) && forall i :: 0 <= i < |front| ==> front[i] in cut
  {
    if s != "" && s[0] in cut {
      front := TrimLeftCuts(s[1..], cut);
      assert s == [s[0]] + s[1..];
      Regroup([s[0]], front, TrimLeft(s[1..], cut));
      front := [s[0]] + front;
    } else {
      front := "";
      assert s == "" + s;
    }
  }

  lemma {:induction false} TrimLeftDrops(front: string, s: string, cut: set<char>)
    requires forall i :: 0 <= i < |front| ==> front[i] in cut
    requires s == "" || s[0] !in cut
    ensures TrimLeft(front + s, cut) == s
  {
    if front == "" {
      assert front + s == s;
    } else {
      TailOfSum(front, s);
      TrimLeftDrops(front[1..], s, cut);
    }
  }

  lemma {:induction false} TrimRightDropsSuffix(s: string, tail: string, cut: set<char>)
    requires s == "" || s[|s| - 1] !in cut
    requires forall i :: 0 <= i < |tail| ==> tail[i] in cut
    ensures TrimRight(s + tail, cut) == s
    decreases |tail|
  {
    if tail == "" {
      assert s + tail == s;
    } else {
      assert (s + tail)[..|s + tail| - 1] == s + tail[..|tail| - 1];
      TrimRightDropsSuffix(s, tail[..|tail| - 1], cut);
    }
  }

  /** What is trimmed off are characters of the cut set. */
  lemma {:induction false} TrimRightCuts(s: string, cut: set<char>)
    ensures forall i :: |TrimRight(s, cut)| <= i < |s| ==> s[i] in cut
  {
    if s != "" && s[|s| - 1] in cut {
      TrimRightCuts(s[..|s| - 1], cut);
    }
  }

  lemma {:induction false} TrimRightOfSum(a: string, b: string, cut: set<char>)
    requires TrimRight(b, cut) != ""
    ensures TrimRight(a + b, cut) == a + TrimRight(b, cut)
  {
    if b[|b| - 1] in cut {
      assert (a + b)[..|a + b| - 1] == a + b[..|b| - 1];
      TrimRightOfSum(a, b[..|b| - 1], cut);
    }
  }

  lemma TrimLine(s: string)
    requires Trimmed(s)
    ensures Trim(s + "\n") == s
  {
    assert (s + "\n")[0] == s[0];
    TrimRightDropsSuffix(s, "\n", SPACE);
  }

  // ----- Ordering -----

  /** The order of `sort.Strings`. */
  predicate Less(a: string, b: string) {
    b != "" && (a == "" || a[0] < b[0] || (a[0] == b[0] && Less(a[1..], b[1..])))
  }

  lemma {:induction false} LessIsTotal(a: string, b: string)
    ensures Less(a, b) || a == b || Less(b, a)
    ensures !(Less(a, b) && Less(b, a)) && (Less(a, b) ==> a != b)
  {
    if a != "" && b != "" && a[0] == b[0] {
      LessIsTotal(a[1..], b[1..]);
      assert a == [a[0]] + a[1..] && b == [b[0]] + b[1..];
    }
  }

  lemma {:induction false} LessIsTransitive(a: string, b: string, c: string)
    requires Less(a, b) && Less(b, c)
    ensures Less(a, c)
  {
    if a != "" && a[0] == b[0] && b[0] == c[0] {
      LessIsTransitive(a[1..], b[1..], c[1..]);
    }
  }

  // ----- Decimal numbers -----

  /** `fmt.Sprint` of a non-negative integer. */
  function Decimal(n: nat): (s: string)
    ensures s != "" && forall i :: 0 <= i < |s| ==> '0' <= s[i] <= '9'
  {
    if n < 10 then [Digit(n)] else Decimal(n / 10) + [Digit(n % 10)]
  }

  function Digit(n: nat): (c: char)
    requires n < 10
    ensures '0' <= c <= '9' && Numeral(c) == n
  {
    '0' + n as char
  }

  function Numeral(c: char): nat
    requires '0' <= c <= '9'
  {
    (c - '0') as nat
  }

  /** Distinct numbers have distinct decimal forms. */
  lemma {:induction false} DecimalInjective(m: nat, n: nat)
    requires Decimal(m) == Decimal(n)
    ensures m == n
    decreases m
  {
    var d := Decimal(m);
    if m >= 10 && n >= 10 {
      assert Decimal(m / 10) == d[..|d| - 1] == Decimal(n / 10);
      assert Digit(m % 10) == d[|d| - 1] == Digit(n % 10);
      DecimalInjective(m / 10, n / 10);
    } else {
      assert m >= 10 <==> |d| >= 2;
      assert n >= 10 <==> |d| >= 2;
    }
  }
}
