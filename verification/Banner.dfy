/**
 The banner lines backends print ("Updating (dev):"): recognising them, and finding the running
 operation they belong to.
 */
module Banner {
  import opened Wrappers
  import opened Seqs
  import opened Strings

  const SENTINEL: string := "\0pulumi-engine-stdout-flush:"

  /** The alternatives of the banner pattern, in its order. */
  const VERBS: seq<string> := [
    "Previewing update", "Previewing refresh", "Previewing destroy", "Updating", "Refreshing",
    "Destroying", "Importing", "Renaming", "Previewing import"]

  const PREFIXES: seq<string> := [
    "Previewing ", "Updating ", "Refreshing ", "Destroying ", "Importing ", "Renaming "]

  // ----- The pattern -----

  /** A closing parenthesis, an optional colon and white space up to the end. */
  predicate Closes(t: string) {
    && t != ""
    && t[0] == ')'
    && (AllSpace(t[1..]) || (|t| > 1 && t[1] == ':' && AllSpace(t[2..])))
  }

  /** The greedy group: the longest non-empty reference that leaves a closing behind, tried from `n` down. */
  function LongestRef(rest: string, n: nat): (r: Option<nat>)
    requires n <= |rest|
    ensures r.Some? ==> 1 <= r.value <= n && '\n' !in rest[..r.value] && Closes(rest[r.value..])
  {
    if n == 0 then None
    else if '\n' !in rest[..n] && Closes(rest[n..]) then Some(n)
    else LongestRef(rest, n - 1)
  }

  /** The first of the alternatives that leads to a match, with the captured reference. */
  function MatchAny(plain: string, verbs: seq<string>): Option<(string, string)> {
    if verbs == [] then None
    else
      var head := verbs[0] + " (";
      if !(head <= plain) then MatchAny(plain, verbs[1..])
      else
        match LongestRef(plain[|head|..], |plain| - |head|)
        case None => MatchAny(plain, verbs[1..])
        case Some(n) => Some((verbs[0], plain[|head|..][..n]))
  }

  function BannerMatch(plain: string): Option<(string, string)> {
    MatchAny(plain, VERBS)
  }

  // ----- What the pattern means -----

  /** `plain` is the verb, the reference in parentheses and a closing, the reference as long as possible. */
  ghost predicate Reads(plain: string, verb: string, ref: string) {
    verb + " (" <= plain && Cuts(plain[|verb| + 2..], ref)
  }

  ghost predicate Cuts(rest: string, ref: string) {
    && ref <= rest
    && Reference(ref)
    && Closes(rest[|ref|..])
    && forall k :: |ref| < k <= |rest| ==> !Closes(rest[k..]) || '\n' in rest[..k]
  }

  predicate Reference(ref: string) {
    ref != "" && '\n' !in ref
  }

  lemma {:induction false} LongestRefIsLongest(rest: string, n: nat)
    requires n <= |rest|
    ensures forall k :: 1 <= k <= n && (LongestRef(rest, n).Some? ==> LongestRef(rest, n).value < k) ==>
                          '\n' in rest[..k] || !Closes(rest[k..])
  {
    if n != 0 && !('\n' !in rest[..n] && Closes(rest[n..])) {
      LongestRefIsLongest(rest, n - 1);
    }
  }

  /** The greedy search cuts off exactly the reference the declarative reading asks for. */
  lemma LongestRefCuts(rest: string)
    ensures match LongestRef(rest, |rest|)
            case None => forall ref :: !Cuts(rest, ref)
            case Some(n) => Cuts(rest, rest[..n])
  {
    LongestRefIsLongest(rest, |rest|);
    if LongestRef(rest, |rest|).None? {
      forall ref
        ensures !Cuts(rest, ref)
      {
        if ref <= rest && ref != "" {
          assert rest[..|ref|] == ref;
        }
      }
    }
  }

  /** No text starts with two different verbs, so the order of the alternatives does not matter. */
  lemma OneVerb(plain: string, v: string, w: string)
    requires v in VERBS && w in VERBS
    requires v + " (" <= plain && w + " (" <= plain
    ensures v == w
  {
    VerbsHaveNoParenthesis(v);
    VerbsHaveNoParenthesis(w);
    assert plain[|v| + 1] == '(' && plain[|w| + 1] == '(';
    assert forall i :: 0 <= i < |v| ==> plain[i] == v[i] && v[i] != '(';
    assert forall i :: 0 <= i < |w| ==> plain[i] == w[i] && w[i] != '(';
    assert plain[|v|] == ' ' && plain[|w|] == ' ';
    assert |v| == |w|;
    assert v == plain[..|v|] && w == plain[..|w|];
  }

  lemma VerbsHaveNoParenthesis(v: string)
    requires v in VERBS
    ensures '(' !in v
  {
  }

  /** One alternative: it matches with the reference the text reads as, or the text does not read as it. */
  lemma AlternativeReads(plain: string, v: string)
    ensures var head := v + " (";
            if head <= plain && LongestRef(plain[|head|..], |plain| - |head|).Some? then
              Reads(plain, v, plain[|head|..][..LongestRef(plain[|head|..], |plain| - |head|).value])
            else
              forall ref :: !Reads(plain, v, ref)
  {
    var head := v + " (";
    if head <= plain {
      LongestRefCuts(plain[|head|..]);
    }
  }

  lemma {:induction false} MatchAnyReads(plain: string, verbs: seq<string>)
    ensures match MatchAny(plain, verbs)
            case None => forall v, ref :: v in verbs ==> !Reads(plain, v, ref)
            case Some((v, ref)) => v in verbs && Reads(plain, v, ref)
  {
    if verbs != [] {
      AlternativeReads(plain, verbs[0]);
      MatchAnyReads(plain, verbs[1..]);
      assert forall v :: v in verbs ==> v == verbs[0] || v in verbs[1..];
    }
  }

  lemma CutsOnce(rest: string, r: string, q: string)
    requires Cuts(rest, r) && Cuts(rest, q)
    ensures r == q
  {
    assert r == rest[..|r|] && q == rest[..|q|];
    assert |r| <= |q|;
    assert |q| <= |r|;
  }

  /** The pattern matches with (verb, ref) exactly when the verb is one of its alternatives and the text reads so. */
  lemma BannerMatchIff(plain: string, v: string, ref: string)
    ensures BannerMatch(plain) == Some((v, ref)) <==> v in VERBS && Reads(plain, v, ref)
  {
    MatchAnyReads(plain, VERBS);
    if v in VERBS && Reads(plain, v, ref) {
      var m := BannerMatch(plain).value;
      OneVerb(plain, v, m.0);
      CutsOnce(plain[|v| + 2..], ref, m.1);
    }
  }

  /**
   Printing and parsing: whatever the reference contains, ")" and "):" included, a banner with that
   verb, reference and closing is read back as that verb and that reference.
   */
  lemma PrintedBannerIsRead(verb: string, ref: string, closing: string)
    requires verb in VERBS && Reference(ref) && Closes(closing)
    ensures BannerMatch(verb + " (" + ref + closing) == Some((verb, ref))
  {
    var plain := verb + " (" + ref + closing;
    var rest := plain[|verb| + 2..];
    assert rest == ref + closing;
    assert rest[|ref|..] == closing && rest[..|ref|] == ref;
    forall k | |ref| < k <= |rest|
      ensures !Closes(rest[k..])
    {
      assert rest[k..] == closing[k - |ref|..];
    }
    BannerMatchIff(plain, verb, ref);
  }

  /** The form the backends print. */
  lemma BackendBannerIsRead(verb: string, ref: string)
    requires verb in VERBS && Reference(ref)
    ensures BannerMatch(verb + " (" + ref + "):") == Some((verb, ref))
  {
    PrintedBannerIsRead(verb, ref, "):");
  }

  // ----- Partial lines -----

  predicate MaybeBanner(partial: string) {
    || SENTINEL <= partial
    || partial <= SENTINEL
    || exists i :: 0 <= i < |PREFIXES| && (partial <= PREFIXES[i] || PREFIXES[i] <= partial)
  }

  function Plain(line: string): string {
    TrimRight(line, {'\r', '\n'})
  }

  lemma PrefixesCompare(line: string, a: string, b: string)
    requires a <= line && b <= line
    ensures a <= b || b <= a
  {
    assert a == line[..|a|] && b == line[..|b|];
    if |a| <= |b| {
      assert b[..|a|] == a;
    } else {
      assert a[..|b|] == b;
    }
  }

  lemma VerbHasPrefix(v: string) returns (i: nat)
    requires v in VERBS
    ensures i < |PREFIXES| && PREFIXES[i] <= v + " "
  {
    if v == "Updating" { i := 1; }
    else if v == "Refreshing" { i := 2; }
    else if v == "Destroying" { i := 3; }
    else if v == "Importing" { i := 4; }
    else if v == "Renaming" { i := 5; }
    else { i := 0; }
  }

  /** Every prefix of a line that is a banner, or a flush sentinel, may still become one. */
  lemma PrefixMaybeBanner(line: string, partial: string)
    requires BannerMatch(Plain(line)).Some? || SENTINEL <= line
    requires partial <= line
    ensures MaybeBanner(partial)
  {
    if SENTINEL <= line {
      PrefixesCompare(line, partial, SENTINEL);
    } else {
      MatchAnyReads(Plain(line), VERBS);
      var v := BannerMatch(Plain(line)).value.0;
      var i := VerbHasPrefix(v);
      assert PREFIXES[i] <= v + " " <= v + " (" <= Plain(line) <= line;
      PrefixesCompare(line, partial, PREFIXES[i]);
    }
  }

  /** `w` is the first word of the verb. */
  predicate FirstWord(v: string, w: string) {
    w <= v && ' ' !in w && (|v| == |w| || v[|w|] == ' ')
  }

  /** A line of Pulumi's: a sentinel, or one that starts with the first word of a banner verb and a blank. */
  ghost predicate Reserved(line: string) {
    SENTINEL <= line || exists v, w :: v in VERBS && FirstWord(v, w) && w + " " <= line
  }

  lemma FirstWordIsLongest(v: string, w: string, u: string)
    requires FirstWord(v, w) && FirstWord(v, u)
    ensures |u| <= |w|
  {
    assert forall i :: 0 <= i < |u| ==> u[i] == v[i] && u[i] in u;
  }

  lemma OneFirstWord(v: string, w: string, u: string)
    requires FirstWord(v, w) && FirstWord(v, u)
    ensures w == u
  {
    FirstWordIsLongest(v, w, u);
    FirstWordIsLongest(v, u, w);
    assert w == v[..|w|] && u == v[..|u|];
  }

  const WORDS: seq<string> := ["Previewing", "Updating", "Refreshing", "Destroying", "Importing", "Renaming"]

  lemma PrefixesAreWords(i: nat)
    requires i < |WORDS|
    ensures |PREFIXES| == |WORDS| && PREFIXES[i] == WORDS[i] + " "
  {
  }

  lemma WordOf(v: string) returns (i: nat)
    requires v in VERBS
    ensures i < |WORDS| && FirstWord(v, WORDS[i])
  {
    if v == "Updating" { i := 1; }
    else if v == "Refreshing" { i := 2; }
    else if v == "Destroying" { i := 3; }
    else if v == "Importing" { i := 4; }
    else if v == "Renaming" { i := 5; }
    else { i := 0; }
  }

  lemma VerbOf(i: nat) returns (v: string)
    requires i < |WORDS|
    ensures v in VERBS && FirstWord(v, WORDS[i])
  {
    v := if i == 0 then VERBS[0] else VERBS[i + 2];
  }

  lemma ReservedIsPrefixed(partial: string, line: string)
    requires partial <= line && Reserved(line)
    ensures MaybeBanner(partial)
  {
    if SENTINEL <= line {
      PrefixesCompare(line, partial, SENTINEL);
    } else {
      var v, w :| v in VERBS && FirstWord(v, w) && w + " " <= line;
      var i := WordOf(v);
      OneFirstWord(v, w, WORDS[i]);
      PrefixesAreWords(i);
      PrefixesCompare(line, partial, PREFIXES[i]);
    }
  }

  lemma PrefixIsReserved(partial: string, i: nat, line: string)
    requires i < |PREFIXES| && PREFIXES[i] <= line
    ensures Reserved(line)
  {
    var v := VerbOf(i);
    PrefixesAreWords(i);
  }

  /** A partial line passes the test if and only if it can still become a line of Pulumi's. */
  lemma MaybeBannerIff(partial: string)
    ensures MaybeBanner(partial) <==> exists line :: partial <= line && Reserved(line)
  {
    if MaybeBanner(partial) {
      if SENTINEL <= partial || partial <= SENTINEL {
        var line := if SENTINEL <= partial then partial else SENTINEL;
        assert partial <= line && Reserved(line);
      } else {
        var i :| 0 <= i < |PREFIXES| && (partial <= PREFIXES[i] || PREFIXES[i] <= partial);
        var line := if partial <= PREFIXES[i] then PREFIXES[i] else partial;
        PrefixIsReserved(partial, i, line);
        assert partial <= line && Reserved(line);
      }
    }
    if line :| partial <= line && Reserved(line) {
      ReservedIsPrefixed(partial, line);
    }
  }

  // ----- Operations and their verbs -----

  datatype Kind = Preview | Up | Refresh | Destroy

  /** An operation as the listener table sees it. */
  datatype Operation = Operation(id: nat, kind: Kind, dryRun: bool)

  function Verb(o: Operation): (v: string)
    ensures v in VERBS
  {
    match o.kind
    case Preview => VERBS[0]
    case Up => VERBS[3]
    case Refresh => if o.dryRun then VERBS[1] else VERBS[4]
    case Destroy => if o.dryRun then VERBS[2] else VERBS[5]
  }

  /** What a verb says: the kind of operation, and whether it only previews. */
  function Reading(verb: string): (Option<Kind>, bool) {
    var previews := "Previewing " <= verb;
    var act := if previews then verb[|"Previewing "|..] else verb;
    var kind :=
      if act == "update" then Some(Preview)
      else if act == "Updating" then Some(Up)
      else if act == "refresh" || act == "Refreshing" then Some(Refresh)
      else if act == "destroy" || act == "Destroying" then Some(Destroy)
      else None;
    (kind, previews)
  }

  /** Read so, the verb of an operation says what it is: a preview, or a dry refresh or destroy, previews. */
  lemma VerbSaysWhat(o: Operation)
    ensures Reading(Verb(o)) == (Some(o.kind),
                                 o.kind == Preview || (o.dryRun && (o.kind == Refresh || o.kind == Destroy)))
  {
    assert "Previewing update"[11..] == "update" && "Previewing refresh"[11..] == "refresh";
    assert "Previewing destroy"[11..] == "destroy";
  }

  /** A banner tells operations apart by their kind, and refreshes and destroys also by whether they are dry. */
  lemma VerbTellsApart(o: Operation, p: Operation)
    ensures Verb(o) == Verb(p) <==>
            o.kind == p.kind && ((o.kind == Refresh || o.kind == Destroy) ==> o.dryRun == p.dryRun)
  {
  }

  // ----- The listener table -----

  type Listeners = map<string, seq<Operation>>

  function On(table: Listeners, ref: string): seq<Operation> {
    if ref in table then table[ref] else []
  }

  function WithoutFirst(ops: seq<Operation>, o: Operation): seq<Operation> {
    if ops == [] then [] else if ops[0] == o then ops[1..] else [ops[0]] + WithoutFirst(ops[1..], o)
  }

  /** The entry found at `i` is the one that goes. */
  lemma {:induction false} WithoutFirstAt(ops: seq<Operation>, i: nat, o: Operation)
    requires i <= |ops| && o !in ops[..i] && (i < |ops| ==> ops[i] == o)
    ensures WithoutFirst(ops, o) == if i < |ops| then ops[..i] + ops[i + 1..] else ops
    decreases i
  {
    if i == 0 {
      if ops != [] {
        assert ops[..0] + ops[1..] == ops[1..];
      }
    } else {
      var rest := ops[1..];
      assert ops[..i] == [ops[0]] + rest[..i - 1];
      WithoutFirstAt(rest, i - 1, o);
      if i < |ops| {
        assert rest[i..] == ops[i + 1..];
        Regroup([ops[0]], rest[..i - 1], rest[i..]);
      } else {
        assert ops == [ops[0]] + rest;
      }
    }
  }

  function Listened(table: Listeners, ref: string, o: Operation): Listeners {
    table[ref := On(table, ref) + [o]]
  }

  function Unlistened(table: Listeners, ref: string, o: Operation): Listeners {
    var ops := WithoutFirst(On(table, ref), o);
    if ops == [] then table - {ref} else table[ref := ops]
  }

  /** The operation a banner goes to: the first listener of that reference whose header is that verb. */
  function Target(ops: seq<Operation>, verb: string): Option<Operation> {
    if ops == [] then None else if Verb(ops[0]) == verb then Some(ops[0]) else Target(ops[1..], verb)
  }

  /** Whom a line is for, if it is a banner somebody waits for. */
  function TargetOf(table: Listeners, line: string): Option<Operation> {
    match BannerMatch(Plain(line))
    case None => None
    case Some((verb, ref)) => Target(On(table, ref), verb)
  }

  /** Whether routing takes the line out of the stream. */
  predicate Consumes(table: Listeners, line: string) {
    SENTINEL <= line || TargetOf(table, line).Some?
  }

  /** The listener part of `stdoutCapture`. */
  class Capture {
    var listeners: Listeners

    constructor ()
      ensures listeners == map[]
    {
      listeners := map[];
    }

    method Listen(ref: string, o: Operation)
      modifies this
      ensures listeners == Listened(old(listeners), ref, o)
    {
      listeners := listeners[ref := (if ref in listeners then listeners[ref] else []) + [o]];
    }

    method Unlisten(ref: string, o: Operation)
      modifies this
      ensures listeners == Unlistened(old(listeners), ref, o)
    {
      var ops := if ref in listeners then listeners[ref] else [];
      var i := 0;
      while i < |ops| && ops[i] != o
        invariant 0 <= i <= |ops|
        invariant o !in ops[..i]
      {
        assert ops[..i + 1] == ops[..i] + [ops[i]];
        i := i + 1;
      }
      WithoutFirstAt(ops, i, o);
      if i < |ops| {
        ops := ops[..i] + ops[i + 1..];
      }
      if |ops| == 0 {
        listeners := listeners - {ref};
      } else {
        listeners := listeners[ref := ops];
      }
    }

    /** `routeStdoutLine`: whether the line is consumed, and who gets it as an event, if anyone. */
    method Route(line: string) returns (consumed: bool, target: Option<Operation>)
      ensures consumed <==> Consumes(listeners, line)
      ensures target == if SENTINEL <= line then None else TargetOf(listeners, line)
    {
      if SENTINEL <= line {
        return true, None;
      }
      var m := BannerMatch(Plain(line));
      if m.None? {
        return false, None;
      }
      var ops := if m.value.1 in listeners then listeners[m.value.1] else [];
      target := None;
      for i := 0 to |ops|
        invariant target == None
        invariant Target(ops, m.value.0) == Target(ops[i..], m.value.0)
      {
        if Verb(ops[i]) == m.value.0 {
          target := Some(ops[i]);
          return true, target;
        }
      }
      consumed := false;
    }
  }

  /** The first with the verb stands at `i`. */
  ghost predicate FirstAt(ops: seq<Operation>, verb: string, i: nat, o: Operation) {
    i < |ops| && ops[i] == o && Verb(o) == verb && forall j :: 0 <= j < i ==> Verb(ops[j]) != verb
  }

  lemma FirstBehind(ops: seq<Operation>, verb: string, i: nat, o: Operation)
    requires ops != [] && Verb(ops[0]) != verb && FirstAt(ops[1..], verb, i, o)
    ensures FirstAt(ops, verb, i + 1, o)
  {
    forall j | 0 <= j < i + 1
      ensures Verb(ops[j]) != verb
    {
      assert j > 0 ==> ops[j] == ops[1..][j - 1];
    }
  }

  lemma {:induction false} NoTarget(ops: seq<Operation>, verb: string)
    requires Target(ops, verb).None?
    ensures forall i :: 0 <= i < |ops| ==> Verb(ops[i]) != verb
  {
    if ops != [] {
      NoTarget(ops[1..], verb);
      assert forall i :: 1 <= i < |ops| ==> ops[i] == ops[1..][i - 1];
    }
  }

  lemma {:induction false} TargetAt(ops: seq<Operation>, verb: string) returns (i: nat)
    requires Target(ops, verb).Some?
    ensures FirstAt(ops, verb, i, Target(ops, verb).value)
  {
    i := 0;
    if Verb(ops[0]) != verb {
      var k := TargetAt(ops[1..], verb);
      FirstBehind(ops, verb, k, Target(ops, verb).value);
      i := k + 1;
    }
  }

  lemma TargetIsFirst(ops: seq<Operation>, verb: string)
    ensures match Target(ops, verb)
            case None => forall i :: 0 <= i < |ops| ==> Verb(ops[i]) != verb
            case Some(o) => exists i :: FirstAt(ops, verb, i, o)
  {
    if Target(ops, verb).None? {
      NoTarget(ops, verb);
    } else {
      var i := TargetAt(ops, verb);
    }
  }

  // ----- Who is listening -----

  datatype Change = Listen(ref: string, op: Operation) | Unlisten(ref: string, op: Operation)

  function After(history: seq<Change>): Listeners {
    if history == [] then map[]
    else
      var table := After(history[..|history| - 1]);
      match history[|history| - 1]
      case Listen(ref, o) => Listened(table, ref, o)
      case Unlisten(ref, o) => Unlistened(table, ref, o)
  }

  /** Read backwards: those that listened on `ref` and did not unlisten later, in order of arrival. */
  function Live(history: seq<Change>, ref: string, gone: set<Operation>): seq<Operation> {
    if history == [] then []
    else
      var before := history[..|history| - 1];
      match history[|history| - 1]
      case Listen(r, o) => Live(before, ref, gone) + if r == ref && o !in gone then [o] else []
      case Unlisten(r, o) => Live(before, ref, if r == ref then gone + {o} else gone)
  }

  /** `execute` runs once per operation, so no operation listens twice. */
  ghost predicate ListensOnce(history: seq<Change>) {
    forall i, j :: 0 <= i < j < |history| && history[i].Listen? && history[j].Listen? ==>
                     history[i].op != history[j].op
  }

  lemma {:induction false} LiveCameFromListen(history: seq<Change>, ref: string, gone: set<Operation>, o: Operation)
    requires o in Live(history, ref, gone)
    ensures exists i :: 0 <= i < |history| && history[i] == Listen(ref, o)
    ensures o !in gone
  {
    var n := |history| - 1;
    var before := history[..n];
    match history[n]
    case Listen(r, p) =>
      if o in Live(before, ref, gone) {
        LiveCameFromListen(before, ref, gone, o);
        var i :| 0 <= i < n && before[i] == Listen(ref, o);
        assert history[i] == Listen(ref, o);
      }
    case Unlisten(r, p) =>
      LiveCameFromListen(before, ref, if r == ref then gone + {p} else gone, o);
      var i :| 0 <= i < n && before[i] == Listen(ref, o);
      assert history[i] == Listen(ref, o);
  }

  lemma {:induction false} WithoutFirstAppend(ops: seq<Operation>, p: Operation, o: Operation)
    ensures WithoutFirst(ops + [p], o) ==
            if o in ops then WithoutFirst(ops, o) + [p] else ops + if p == o then [] else [p]
  {
    if ops == [] {
      assert ops + [p] == [p];
    } else {
      assert (ops + [p])[1..] == ops[1..] + [p];
      if ops[0] != o {
        WithoutFirstAppend(ops[1..], p, o);
      }
    }
  }

  lemma {:induction false} WithoutAbsent(ops: seq<Operation>, o: Operation)
    requires o !in ops
    ensures WithoutFirst(ops, o) == ops
  {
    if ops != [] {
      WithoutAbsent(ops[1..], o);
    }
  }

  /** Unlistening now is the same as never having counted the operation. */
  lemma {:induction false} LiveWithout(history: seq<Change>, ref: string, gone: set<Operation>, o: Operation)
    requires ListensOnce(history)
    ensures Live(history, ref, gone + {o}) == WithoutFirst(Live(history, ref, gone), o)
  {
    if history != [] {
      var n := |history| - 1;
      var before := history[..n];
      match history[n]
      case Listen(r, p) =>
        LiveWithout(before, ref, gone, o);
        var ops := Live(before, ref, gone);
        if r == ref && p !in gone {
          WithoutFirstAppend(ops, p, o);
          if o in ops {
            LiveCameFromListen(before, ref, gone, o);
            assert p != o;
          }
          if o !in ops {
            WithoutAbsent(ops, o);
          }
        } else {
          assert ops + [] == ops;
        }
        assert WithoutFirst(ops, o) + [] == WithoutFirst(ops, o);
      case Unlisten(r, p) =>
        if r == ref {
          assert gone + {o} + {p} == gone + {p} + {o};
          LiveWithout(before, ref, gone + {p}, o);
        } else {
          LiveWithout(before, ref, gone, o);
        }
    }
  }

  /**
   After any history of listens and unlistens, the table holds for every reference exactly the
   operations still listening on it, in the order they came, and no empty entry.
   */
  lemma {:induction false} TableHoldsTheLive(history: seq<Change>, ref: string)
    requires ListensOnce(history)
    ensures On(After(history), ref) == Live(history, ref, {})
    ensures ref in After(history) <==> Live(history, ref, {}) != []
  {
    if history != [] {
      var before := history[..|history| - 1];
      TableHoldsTheLive(before, ref);
      match history[|history| - 1]
      case Listen(r, o) =>
      case Unlisten(r, o) =>
        LiveWithout(before, ref, {}, o);
    }
  }

  // ----- Which lines are consumed -----

  /**
   The line is a banner of that verb and reference: the reference in parentheses, a colon or none, and
   white space, the line end included.
   */
  ghost predicate Prints(line: string, verb: string, ref: string) {
    exists colon, blanks :: PrintsWith(line, verb, ref, colon, blanks)
  }

  ghost predicate PrintsWith(line: string, verb: string, ref: string, colon: string, blanks: string) {
    && Reference(ref) && (colon == "" || colon == ":") && AllSpace(blanks)
    && line == verb + " (" + ref + (")" + colon + blanks)
  }

  lemma ClosingParts(t: string) returns (colon: string, blanks: string)
    requires Closes(t)
    ensures (colon == "" || colon == ":") && AllSpace(blanks) && t == ")" + colon + blanks
  {
    if AllSpace(t[1..]) {
      colon, blanks := "", t[1..];
    } else {
      colon, blanks := ":", t[2..];
    }
  }

  lemma PartsClose(colon: string, blanks: string)
    requires (colon == "" || colon == ":") && AllSpace(blanks)
    ensures Closes(")" + colon + blanks)
  {
    var t := ")" + colon + blanks;
    assert t[1 + |colon|..] == blanks;
  }

  /** Cutting the line end off a closing leaves one, and putting it back too. */
  lemma ClosesWithoutEnd(t: string, cut: set<char>)
    requires Closes(t) && ')' !in cut
    ensures TrimRight(t, cut) != "" && Closes(TrimRight(t, cut))
  {
    var u := TrimRight(t, cut);
    TrimRightCuts(t, cut);
    assert forall i :: 0 <= i < |u| ==> u[i] == t[i];
  }

  lemma ClosesWithEnd(t: string, end: string)
    requires Closes(t) && AllSpace(end)
    ensures Closes(t + end)
  {
    if AllSpace(t[1..]) {
      assert (t + end)[1..] == t[1..] + end;
    } else {
      assert (t + end)[2..] == t[2..] + end;
    }
  }

  /** A line is matched exactly when it prints a banner, whatever its line end. */
  lemma MatchedIffPrinted(line: string, verb: string, ref: string)
    ensures BannerMatch(Plain(line)) == Some((verb, ref)) <==> verb in VERBS && Prints(line, verb, ref)
  {
    if verb in VERBS && Prints(line, verb, ref) {
      var colon, blanks :| PrintsWith(line, verb, ref, colon, blanks);
      var closing := ")" + colon + blanks;
      PartsClose(colon, blanks);
      ClosesWithoutEnd(closing, {'\r', '\n'});
      TrimRightOfSum(verb + " (" + ref, closing, {'\r', '\n'});
      PrintedBannerIsRead(verb, ref, Plain(closing));
    }
    if BannerMatch(Plain(line)) == Some((verb, ref)) {
      BannerMatchIff(Plain(line), verb, ref);
      MatchedIsPrinted(line, verb, ref);
    }
  }

  lemma CutTwice(plain: string, head: string, ref: string) returns (closing: string)
    requires head <= plain && ref <= plain[|head|..]
    ensures closing == plain[|head|..][|ref|..] && plain == head + ref + closing
  {
    var rest := plain[|head|..];
    closing := rest[|ref|..];
    Cut(plain, |head|);
    Cut(rest, |ref|);
    assert plain[..|head|] == head && rest[..|ref|] == ref;
    Regroup(head, ref, closing);
  }

  lemma MatchedIsPrinted(line: string, verb: string, ref: string)
    requires Reads(Plain(line), verb, ref)
    ensures Prints(line, verb, ref)
  {
    var plain := Plain(line);
    var head := verb + " (";
    var end := line[|plain|..];
    TrimRightCuts(line, {'\r', '\n'});
    var closing := CutTwice(plain, head, ref);
    ClosesWithEnd(closing, end);
    var colon, blanks := ClosingParts(closing + end);
    Cut(line, |plain|);
    Regroup(head + ref, closing, end);
    assert PrintsWith(line, verb, ref, colon, blanks);
  }

  /** The operation listens on the reference whose banner with the operation's verb the line is. */
  ghost predicate Announces(history: seq<Change>, line: string, o: Operation, ref: string) {
    Prints(line, Verb(o), ref) && o in Live(history, ref, {})
  }

  /**
   After any history of listens and unlistens a line is consumed if and only if it begins with the
   sentinel, or it is the printed banner of an operation that is listening.
   */
  lemma ConsumedIff(history: seq<Change>, line: string)
    requires ListensOnce(history)
    ensures Consumes(After(history), line) <==>
            SENTINEL <= line || exists o, ref :: Announces(history, line, o, ref)
  {
    var m := BannerMatch(Plain(line));
    if m.Some? {
      var (verb, ref) := m.value;
      MatchedIffPrinted(line, verb, ref);
      TableHoldsTheLive(history, ref);
      TargetIsFirst(Live(history, ref, {}), verb);
      if TargetOf(After(history), line).Some? {
        assert Announces(history, line, TargetOf(After(history), line).value, ref);
      }
    }
    if o, ref :| Announces(history, line, o, ref) {
      MatchedIffPrinted(line, Verb(o), ref);
      assert m == Some((Verb(o), ref));
    }
  }

  /** A banner goes to the first live operation that listens on its reference with its verb. */
  lemma BannerReachesFirstLive(history: seq<Change>, verb: string, ref: string, line: string)
    requires ListensOnce(history) && verb in VERBS && Prints(line, verb, ref)
    ensures var live, target := Live(history, ref, {}), TargetOf(After(history), line);
            match target
            case None => forall i :: 0 <= i < |live| ==> Verb(live[i]) != verb
            case Some(o) => exists i :: FirstAt(live, verb, i, o)
  {
    MatchedIffPrinted(line, verb, ref);
    TableHoldsTheLive(history, ref);
    TargetIsFirst(Live(history, ref, {}), verb);
  }
}
