/**
 What the line parser reads back from a printed project settings file.
 */
module SettingsRoundTrip {
  import opened Wrappers
  import opened Seqs
  import opened Strings
  import opened ProjectSettings

  // ----- One line -----

  predicate IsKey(key: string) {
    key != "" && IsWord(key[0]) && forall i :: 0 <= i < |key| ==> IsKeyChar(key[i])
  }

  lemma {:induction false} KeyRunStops(key: string, rest: string)
    requires forall i :: 0 <= i < |key| ==> IsKeyChar(key[i])
    ensures KeyRun(key + ":" + rest) == key
  {
    var s := key + ":" + rest;
    if key != "" {
      assert s[1..] == key[1..] + ":" + rest;
      KeyRunStops(key[1..], rest);
    }
  }

  lemma KeyValueOf(key: string, rest: string)
    requires IsKey(key)
    ensures KeyValue(key + ":" + rest) == match Raw(rest) case None => None case Some(raw) => Some((key, raw))
  {
    KeyRunStops(key, rest);
    assert (key + ":" + rest)[|key| + 1..] == rest;
  }

  /** `\w`. */
  lemma WordChars(c: char)
    ensures IsWord(c) <==> c in "abcdefghijklmnopqrstuvwxyz" || c in "ABCDEFGHIJKLMNOPQRSTUVWXYZ" || c in "0123456789_"
  {
  }

  /** `\w[\w-]*`. */
  predicate WordKey(key: string) {
    && key != "" && key[0] != '-'
    && forall i :: 0 <= i < |key| ==>
                     || key[i] in "abcdefghijklmnopqrstuvwxyz" || key[i] in "ABCDEFGHIJKLMNOPQRSTUVWXYZ"
                     || key[i] in "0123456789_" || key[i] == '-'
  }

  lemma KeyIsWords(key: string)
    ensures IsKey(key) <==> WordKey(key)
  {
    forall i | 0 <= i < |key|
      ensures IsKeyChar(key[i]) <==>
              || key[i] in "abcdefghijklmnopqrstuvwxyz" || key[i] in "ABCDEFGHIJKLMNOPQRSTUVWXYZ"
              || key[i] in "0123456789_" || key[i] == '-'
    {
      WordChars(key[i]);
    }
  }

  ghost predicate KeyedWith(s: string, key: string, raw: string, rest: string) {
    WordKey(key) && s == key + ":" + rest && Raw(rest) == Some(raw)
  }

  lemma {:induction false} KeyRunIsKeyChars(s: string)
    ensures forall i :: 0 <= i < |KeyRun(s)| ==> IsKeyChar(KeyRun(s)[i])
  {
    if s != "" && IsKeyChar(s[0]) {
      KeyRunIsKeyChars(s[1..]);
    }
  }

  lemma KeyValueParts(s: string, key: string, raw: string) returns (rest: string)
    requires KeyValue(s) == Some((key, raw))
    ensures IsKey(key) && s == key + ":" + rest && Raw(rest) == Some(raw)
  {
    rest := s[|key| + 1..];
    KeyRunIsKeyChars(s);
    CutAround(s, |key|);
    assert key == s[..|key|] && s[|key|] == ':';
  }

  /** A text is read as a key with what follows exactly when it is a key, a colon and that. */
  lemma KeyValueIff(s: string, key: string, raw: string)
    ensures KeyValue(s) == Some((key, raw)) <==> exists rest :: KeyedWith(s, key, raw, rest)
  {
    KeyIsWords(key);
    if KeyValue(s) == Some((key, raw)) {
      var rest := KeyValueParts(s, key, raw);
      assert KeyedWith(s, key, raw, rest);
    }
    if rest :| KeyedWith(s, key, raw, rest) {
      KeyValueOf(key, rest);
    }
  }

  lemma {:induction false} TrimRightKeeps(s: string, cut: set<char>)
    requires s != "" && s[0] !in cut
    ensures TrimRight(s, cut) != "" && TrimRight(s, cut)[0] == s[0]
    decreases |s|
  {
    if s[|s| - 1] in cut {
      TrimRightKeeps(s[..|s| - 1], cut);
    }
  }

  /** A line with a key on it is neither blank nor a comment. */
  lemma NotIgnored(indent: string, s: string)
    requires forall i :: 0 <= i < |indent| ==> indent[i] in WHITE
    requires s != "" && s[0] !in WHITE && s[0] != '#'
    ensures !Ignored(indent + s)
  {
    TrimLeftDrops(indent, s, WHITE);
    TrimRightKeeps(s, WHITE);
  }

  lemma KeyStart(key: string, rest: string)
    requires IsKey(key)
    ensures (key + ":" + rest)[0] == key[0] && key[0] !in WHITE && key[0] != '#'
  {
  }

  lemma TopKind(key: string, rest: string)
    requires IsKey(key)
    ensures Kind(key + ":" + rest) == match Raw(rest) case None => Nothing case Some(raw) => Top(key, raw)
  {
    var line := key + ":" + rest;
    KeyStart(key, rest);
    NotIgnored("", line);
    assert "" + line == line;
    assert TrimLeft(line, WHITE) == line;
    KeyValueOf(key, rest);
  }

  predicate IsIndent(indent: string) {
    indent != "" && forall i :: 0 <= i < |indent| ==> indent[i] in WHITE
  }

  lemma IndentedIs(indent: string, s: string)
    requires IsIndent(indent) && s != "" && s[0] !in WHITE
    ensures KeyValue(indent + s) == None && Indented(indent + s) == KeyValue(s)
  {
    TrimLeftDrops(indent, s, WHITE);
    assert (indent + s)[0] == indent[0];
    assert KeyRun(indent + s) == "";
  }

  lemma NestedKind(indent: string, key: string, rest: string)
    requires IsIndent(indent) && IsKey(key)
    ensures Kind(indent + (key + ":" + rest)) == match Raw(rest) case None => Nothing case Some(raw) => Nested(key, raw)
  {
    var s := key + ":" + rest;
    KeyStart(key, rest);
    NotIgnored(indent, s);
    IndentedIs(indent, s);
    KeyValueOf(key, rest);
  }

  // ----- Blocks -----

  /** A line below a section; `rest` is what follows the colon. */
  datatype Item = Item(indent: string, key: string, rest: string)

  /** What is printed for one setting. */
  datatype Block = Scalar(key: string, rest: string) | Section(key: string, items: seq<Item>)

  function ItemLine(item: Item): string {
    item.indent + (item.key + ":" + item.rest)
  }

  function ItemLines(items: seq<Item>): (lines: seq<string>)
    ensures |lines| == |items|
  {
    if items == [] then [] else ItemLines(items[..|items| - 1]) + [ItemLine(items[|items| - 1])]
  }

  function BlockLines(b: Block): (lines: seq<string>)
    ensures lines != []
  {
    match b
    case Scalar(key, rest) => [key + ":" + rest]
    case Section(key, items) => [key + ":"] + ItemLines(items)
  }

  function Lines(blocks: seq<Block>): seq<string> {
    if blocks == [] then [] else Lines(blocks[..|blocks| - 1]) + BlockLines(blocks[|blocks| - 1])
  }

  predicate GoodItem(item: Item) {
    IsIndent(item.indent) && IsKey(item.key)
  }

  predicate GoodBlock(b: Block) {
    IsKey(b.key) && (b.Section? ==> forall i :: 0 <= i < |b.items| ==> GoodItem(b.items[i]))
  }

  predicate Good(blocks: seq<Block>) {
    forall i :: 0 <= i < |blocks| ==> GoodBlock(blocks[i])
  }

  /** What is read behind a colon; a carriage return before the newline belongs to the line break. */
  function LineRaw(rest: string): Option<string> {
    Raw(DropCr(rest))
  }

  function WithItem(fields: map<string, string>, item: Item): map<string, string> {
    match LineRaw(item.rest)
    case None => fields
    case Some(raw) => fields[item.key := ParseScalar(raw)]
  }

  /** The fields a section gets from its lines: later ones win, and lines with a stray break are lost. */
  function ItemsValue(items: seq<Item>): map<string, string> {
    if items == [] then map[] else WithItem(ItemsValue(items[..|items| - 1]), items[|items| - 1])
  }

  function TopValue(raw: string): Value {
    if raw != "" then Text(ParseScalar(raw)) else Object(map[])
  }

  function BlockValue(b: Block): Option<Value> {
    match b
    case Section(_, items) => Some(Object(ItemsValue(items)))
    case Scalar(_, rest) =>
      match LineRaw(rest)
      case None => None
      case Some(raw) => Some(TopValue(raw))
  }

  function WithBlock(out: map<string, Value>, b: Block): map<string, Value> {
    match BlockValue(b)
    case None => out
    case Some(v) => out[b.key := v]
  }

  function Collected(blocks: seq<Block>): map<string, Value> {
    if blocks == [] then map[] else WithBlock(Collected(blocks[..|blocks| - 1]), blocks[|blocks| - 1])
  }

  /** The parser inside a section with the given fields so far. */
  function Inside(out: map<string, Value>, key: string, fields: map<string, string>): Reading {
    Reading(out[key := Object(fields)], Some(key))
  }

  function ItemEntry(item: Item): Entry {
    match LineRaw(item.rest)
    case None => Nothing
    case Some(raw) => Nested(item.key, raw)
  }

  function ItemEntries(items: seq<Item>): (entries: seq<Entry>)
    ensures |entries| == |items|
  {
    if items == [] then [] else ItemEntries(items[..|items| - 1]) + [ItemEntry(items[|items| - 1])]
  }

  function ScalarEntry(key: string, rest: string): Entry {
    match LineRaw(rest)
    case None => Nothing
    case Some(raw) => Top(key, raw)
  }

  function BlockEntries(b: Block): seq<Entry> {
    match b
    case Scalar(key, rest) => [ScalarEntry(key, rest)]
    case Section(key, items) => [Top(key, "")] + ItemEntries(items)
  }

  function Entries(blocks: seq<Block>): seq<Entry> {
    if blocks == [] then [] else Entries(blocks[..|blocks| - 1]) + BlockEntries(blocks[|blocks| - 1])
  }

  // Lines and what they say.

  lemma {:induction false} KindsConcat(a: seq<string>, b: seq<string>)
    ensures Kinds(a + b) == Kinds(a) + Kinds(b)
  {
    if b == [] {
      assert a + b == a;
    } else {
      assert (a + b)[..|a + b| - 1] == a + b[..|b| - 1];
      KindsConcat(a, b[..|b| - 1]);
    }
  }

  lemma KindsOfOne(line: string)
    ensures Kinds([line]) == [Kind(line)]
  {
    assert [line][..0] == [];
  }

  lemma DropCrsConcat(a: seq<string>, b: seq<string>)
    ensures DropCrs(a + b) == DropCrs(a) + DropCrs(b)
  {
  }

  lemma DropCrKeepsKey(key: string, rest: string)
    ensures DropCr(key + ":" + rest) == key + ":" + DropCr(rest)
  {
  }

  lemma DropCrKeepsIndent(indent: string, s: string)
    requires s != ""
    ensures DropCr(indent + s) == indent + DropCr(s)
  {
  }

  lemma ItemKind(item: Item)
    requires GoodItem(item)
    ensures Kind(DropCr(ItemLine(item))) == ItemEntry(item)
  {
    DropCrKeepsKey(item.key, item.rest);
    DropCrKeepsIndent(item.indent, item.key + ":" + item.rest);
    NestedKind(item.indent, item.key, DropCr(item.rest));
  }

  lemma {:induction false} KindsOfItems(items: seq<Item>)
    requires forall i :: 0 <= i < |items| ==> GoodItem(items[i])
    ensures Kinds(DropCrs(ItemLines(items))) == ItemEntries(items)
  {
    if items != [] {
      var n := |items| - 1;
      KindsOfItems(items[..n]);
      var front, last := ItemLines(items[..n]), ItemLine(items[n]);
      DropCrsConcat(front, [last]);
      assert DropCrs([last]) == [DropCr(last)];
      KindsConcat(DropCrs(front), [DropCr(last)]);
      KindsOfOne(DropCr(last));
      ItemKind(items[n]);
    }
  }

  lemma KindsOfScalar(key: string, rest: string)
    requires IsKey(key)
    ensures Kinds(DropCrs([key + ":" + rest])) == [ScalarEntry(key, rest)]
  {
    DropCrKeepsKey(key, rest);
    assert DropCrs([key + ":" + rest]) == [key + ":" + DropCr(rest)];
    TopKind(key, DropCr(rest));
    KindsOfOne(key + ":" + DropCr(rest));
  }

  lemma KindsOfBlock(b: Block)
    requires GoodBlock(b)
    ensures Kinds(DropCrs(BlockLines(b))) == BlockEntries(b)
  {
    match b
    case Scalar(key, rest) =>
      KindsOfScalar(key, rest);
    case Section(key, items) =>
      KindsOfScalar(key, "");
      assert key + ":" + "" == key + ":";
      DropCrsConcat([key + ":"], ItemLines(items));
      KindsConcat(DropCrs([key + ":"]), DropCrs(ItemLines(items)));
      KindsOfItems(items);
  }

  lemma {:induction false} KindsOfBlocks(blocks: seq<Block>)
    requires Good(blocks)
    ensures Kinds(DropCrs(Lines(blocks))) == Entries(blocks)
  {
    if blocks != [] {
      var n := |blocks| - 1;
      KindsOfBlocks(blocks[..n]);
      DropCrsConcat(Lines(blocks[..n]), BlockLines(blocks[n]));
      KindsConcat(DropCrs(Lines(blocks[..n])), DropCrs(BlockLines(blocks[n])));
      KindsOfBlock(blocks[n]);
    }
  }

  // Entries and what they leave.

  lemma {:induction false} EnterConcat(s: Reading, a: seq<Entry>, b: seq<Entry>)
    ensures EnterAll(s, a + b) == EnterAll(EnterAll(s, a), b)
  {
    if b == [] {
      assert a + b == a;
    } else {
      assert (a + b)[..|a + b| - 1] == a + b[..|b| - 1];
      EnterConcat(s, a, b[..|b| - 1]);
    }
  }

  lemma EnterOne(s: Reading, e: Entry)
    ensures EnterAll(s, [e]) == Enter(s, e)
  {
    assert [e][..0] == [];
  }

  lemma PutFieldInside(out: map<string, Value>, section: string, fields: map<string, string>,
                       key: string, value: string)
    ensures PutField(Inside(out, section, fields), key, value) == Inside(out, section, fields[key := value])
  {
    var a, b := Object(fields), Object(fields[key := value]);
    assert out[section := a][section := b] == out[section := b];
  }

  lemma EnterItem(out: map<string, Value>, key: string, fields: map<string, string>, item: Item)
    ensures Enter(Inside(out, key, fields), ItemEntry(item)) == Inside(out, key, WithItem(fields, item))
  {
    match LineRaw(item.rest)
    case None =>
    case Some(raw) => PutFieldInside(out, key, fields, item.key, ParseScalar(raw));
  }

  lemma {:induction false} EnterItems(out: map<string, Value>, key: string, items: seq<Item>)
    ensures EnterAll(Inside(out, key, map[]), ItemEntries(items)) == Inside(out, key, ItemsValue(items))
  {
    if items != [] {
      var n := |items| - 1;
      EnterItems(out, key, items[..n]);
      assert ItemEntries(items)[..n] == ItemEntries(items[..n]);
      EnterItem(out, key, ItemsValue(items[..n]), items[n]);
    }
  }

  lemma EnterScalar(s: Reading, key: string, rest: string)
    ensures Enter(s, ScalarEntry(key, rest)).out == WithBlock(s.out, Scalar(key, rest))
  {
    match LineRaw(rest)
    case None =>
    case Some(raw) => EnterTop(s, key, raw);
  }

  lemma EnterTop(s: Reading, key: string, raw: string)
    ensures Enter(s, Top(key, raw)).out == s.out[key := TopValue(raw)]
  {
  }

  lemma EnterSection(s: Reading, key: string, items: seq<Item>)
    ensures EnterAll(s, [Top(key, "")] + ItemEntries(items)) == Inside(s.out, key, ItemsValue(items))
  {
    EnterOne(s, Top(key, ""));
    EnterConcat(s, [Top(key, "")], ItemEntries(items));
    EnterItems(s.out, key, items);
  }

  lemma EnterBlock(s: Reading, b: Block)
    ensures EnterAll(s, BlockEntries(b)).out == WithBlock(s.out, b)
  {
    match b
    case Scalar(key, rest) =>
      EnterOne(s, ScalarEntry(key, rest));
      EnterScalar(s, key, rest);
    case Section(key, items) =>
      EnterSection(s, key, items);
  }

  lemma {:induction false} EnterBlocks(blocks: seq<Block>)
    ensures EnterAll(START, Entries(blocks)).out == Collected(blocks)
  {
    if blocks != [] {
      var n := |blocks| - 1;
      EnterBlocks(blocks[..n]);
      EnterConcat(START, Entries(blocks[..n]), BlockEntries(blocks[n]));
      EnterBlock(EnterAll(START, Entries(blocks[..n])), blocks[n]);
    }
  }

  /** Each printed setting is read on its own, whatever the parser was left with by the one before. */
  lemma ReadBlocks(blocks: seq<Block>)
    requires Good(blocks)
    ensures ReadLines(DropCrs(Lines(blocks))) == Collected(blocks)
  {
    KindsOfBlocks(blocks);
    EnterBlocks(blocks);
  }

  // ----- The printed text -----

  predicate NoNewline(lines: seq<string>) {
    forall i :: 0 <= i < |lines| ==> '\n' !in lines[i]
  }

  /** Reading a text that ends with a newline: the empty last piece says nothing. */
  lemma ReadSplit(text: string, parts: seq<string>)
    requires Split(text, '\n') == parts + [""]
    ensures ReadText(text) == Named(ReadLines(DropCrs(parts)))
  {
    assert (parts + [""])[..|parts|] == parts;
    assert LinesOf(text) == DropCrs(parts) + [""];
    KindsConcat(DropCrs(parts), [""]);
    KindsOfOne("");
    EnterConcat(START, Kinds(DropCrs(parts)), [Kind("")]);
    EnterOne(EnterAll(START, Kinds(DropCrs(parts))), Kind(""));
    assert Kind("") == Nothing;
  }

  // ----- Splitting what was joined -----

  /** The pieces of all lines. */
  function Pieces(lines: seq<string>): seq<string> {
    if lines == [] then [] else Split(lines[0], '\n') + Pieces(lines[1..])
  }

  lemma {:induction false} PiecesConcat(a: seq<string>, b: seq<string>)
    ensures Pieces(a + b) == Pieces(a) + Pieces(b)
  {
    if a == [] {
      assert a + b == b;
    } else {
      assert (a + b)[1..] == a[1..] + b;
      PiecesConcat(a[1..], b);
    }
  }

  lemma {:induction false} PiecesOfLines(lines: seq<string>)
    requires NoNewline(lines)
    ensures Pieces(lines) == lines
  {
    if lines != [] {
      PiecesOfLines(lines[1..]);
      SplitJoin([lines[0]], '\n');
      assert lines == [lines[0]] + lines[1..];
    }
  }

  lemma SplitBody(a: string, c: char, b: string, k: nat)
    requires k < |a| && a[k] == c
    ensures a + [c] + b == a[..k] + [c] + (a[k + 1..] + [c] + b)
  {
    CutAround(a, k);
  }

  /** Splitting a text in two at a separator. */
  lemma {:induction false} SplitAt(a: string, c: char, b: string)
    ensures Split(a + [c] + b, c) == Split(a, c) + Split(b, c)
    decreases |a|
  {
    var k := Find(a, c);
    if k == |a| {
      assert a[..k] == a;
      SplitFirst(a, c, b);
    } else {
      var first, rest := a[..k], a[k + 1..];
      SplitBody(a, c, b, k);
      SplitFirst(first, c, rest + [c] + b);
      SplitAt(rest, c, b);
      Regroup([first], Split(rest, c), Split(b, c));
    }
  }

  lemma {:induction false} SplitOfJoin(lines: seq<string>)
    requires lines != []
    ensures Split(Join(lines, "\n"), '\n') == Pieces(lines)
  {
    if |lines| == 1 {
      assert lines[1..] == [];
    } else {
      SplitOfJoin(lines[1..]);
      SplitAt(lines[0], '\n', Join(lines[1..], "\n"));
    }
  }

  lemma ReadPrinted(lines: seq<string>)
    requires lines != []
    ensures ReadText(Join(lines, "\n") + "\n") == Named(ReadLines(DropCrs(Pieces(lines))))
  {
    SplitOfJoin(lines);
    SplitAt(Join(lines, "\n"), '\n', "");
    assert Join(lines, "\n") + "\n" + "" == Join(lines, "\n") + "\n";
    assert Split("", '\n') == [""];
    ReadSplit(Join(lines, "\n") + "\n", Pieces(lines));
  }

  // ----- Scalars -----

  lemma ParseScalarShrinks(raw: string)
    ensures |ParseScalar(raw)| <= |raw|
  {
  }

  /** What a written scalar comes back as. */
  predicate ScalarReads(rest: string, v: string) {
    match LineRaw(rest)
    case None => false
    case Some(raw) => raw != "" && ParseScalar(raw) == v
  }

  predicate FieldReads(rest: string, v: string) {
    match LineRaw(rest)
    case None => false
    case Some(raw) => ParseScalar(raw) == v
  }

  lemma DropCrOfBlank(v: string)
    ensures DropCr(" " + v) == " " + DropCr(v)
  {
  }

  /** What stands behind the colon and the blank. */
  lemma RawOfWritten(v: string) returns (raw: string)
    ensures raw == TrimLeft(DropCr(v), WHITE) && LineRaw(" " + v) == if NoBreak(raw) then Some(raw) else None
  {
    raw := TrimLeft(DropCr(v), WHITE);
    DropCrOfBlank(v);
    TrimLeftOfBlank(DropCr(v), WHITE);
  }

  lemma RawIsShorter(v: string, cut: set<char>)
    ensures var raw := TrimLeft(DropCr(v), cut); |raw| <= |v| && (|raw| == |v| ==> raw == v)
  {
  }

  lemma RawOfTrimmed(v: string, cut: set<char>)
    requires v == "" || (v[0] !in cut && v[|v| - 1] != '\r')
    ensures TrimLeft(DropCr(v), cut) == v
  {
  }

  /** A scalar written as it is comes back exactly when it is plain; in a section the empty one does, too. */
  lemma UnquotedReads(v: string)
    ensures ScalarReads(" " + v, v) <==> Plain(v)
    ensures FieldReads(" " + v, v) <==> v == "" || Plain(v)
  {
    var raw := RawOfWritten(v);
    RawIsShorter(v, WHITE);
    ParseScalarShrinks(raw);
    ParsesToItself(v);
    if v == "" || Plain(v) {
      RawOfTrimmed(v, WHITE);
    }
  }

  lemma QuoteBreaks(v: string)
    ensures NoBreak(Quote(v)) <==> NoSeparator(v)
  {
    EscapeBreaks(v);
    NoBreakConcat("\"", Escape(v));
    NoBreakConcat("\"" + Escape(v), "\"");
  }

  lemma QuoteIsTrimmed(v: string)
    ensures Quote(v) != "" && Quote(v)[0] == '"' && Quote(v)[|Quote(v)| - 1] == '"'
  {
  }

  lemma TrimmedReads(q: string, v: string)
    requires q != "" && !IsWhite(q[0]) && !IsWhite(q[|q| - 1]) && ParseScalar(q) == v
    ensures ScalarReads(" " + q, v) <==> NoBreak(q)
    ensures FieldReads(" " + q, v) <==> NoBreak(q)
  {
    var raw := RawOfWritten(q);
    RawOfTrimmed(q, WHITE);
  }

  /** A quoted scalar comes back exactly when it has no line or paragraph separator. */
  lemma QuotedReads(v: string)
    ensures ScalarReads(" " + Quote(v), v) <==> NoSeparator(v)
    ensures FieldReads(" " + Quote(v), v) <==> NoSeparator(v)
  {
    QuoteIsTrimmed(v);
    assert !IsWhite('"');
    QuoteBreaks(v);
    QuoteParses(v);
    TrimmedReads(Quote(v), v);
  }
}
