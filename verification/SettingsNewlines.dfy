/**
 Scalars that contain newlines: they break the printed file into more lines, and never come back.
 */
module SettingsNewlines {
  import opened Wrappers
  import opened Strings
  import opened ProjectSettings
  import opened SettingsRoundTrip
  import opened SettingsFile

  // ----- Pieces of a text with newlines -----

  /** In front of a text without a newline the first piece grows, the others stay. */
  lemma SplitBehind(prefix: string, text: string)
    requires '\n' !in prefix
    ensures Split(prefix + text, '\n') == [prefix + Split(text, '\n')[0]] + Split(text, '\n')[1..]
  {
    var s := prefix + text;
    var k := Find(text, '\n');
    if k == |text| {
      assert text[..k] == text;
      assert '\n' !in s;
      assert Find(s, '\n') == |s|;
    } else {
      assert s[..|prefix| + k] == prefix + text[..k];
      assert s[|prefix| + k] == '\n' && s[|prefix| + k + 1..] == text[k + 1..];
      FindIs(s, '\n', |prefix| + k);
    }
  }

  /** Where there is a newline every piece is shorter than the text. */
  lemma {:induction false} PiecesAreShorter(text: string)
    ensures forall i :: 0 <= i < |Split(text, '\n')| ==> |Split(text, '\n')[i]| <= |text|
    ensures '\n' in text ==> forall i :: 0 <= i < |Split(text, '\n')| ==> |Split(text, '\n')[i]| < |text|
    decreases |text|
  {
    var k := Find(text, '\n');
    if k < |text| {
      PiecesAreShorter(text[k + 1..]);
    } else {
      assert text[..k] == text;
    }
  }

  // ----- Lines that cannot give a long scalar -----

  predicate HarmlessEntry(e: Entry, v: string) {
    e.Nothing? || ParseScalar(e.raw) != v
  }

  /** Whatever the line sets, it is not `v`. */
  predicate Harmless(line: string, v: string) {
    HarmlessEntry(Kind(line), v)
  }

  predicate AllHarmless(lines: seq<string>, v: string) {
    forall i :: 0 <= i < |lines| ==> Harmless(DropCr(lines[i]), v)
  }

  lemma KeyValueIsShort(s: string)
    ensures KeyValue(s).Some? ==> |KeyValue(s).value.1| < |s|
  {
  }

  lemma ShortRawIsHarmless(raw: string, v: string)
    requires |raw| < |v|
    ensures ParseScalar(raw) != v
  {
    ParseScalarShrinks(raw);
  }

  lemma ShortLineIsHarmless(line: string, v: string)
    requires |line| <= |v|
    ensures Harmless(line, v)
  {
    KeyValueIsShort(line);
    KeyValueIsShort(TrimLeft(line, WHITE));
    match Kind(line)
    case Nothing =>
    case Top(_, raw) => ShortRawIsHarmless(raw, v);
    case Nested(_, raw) => ShortRawIsHarmless(raw, v);
  }

  lemma RawIsShort(text: string)
    ensures Raw(DropCr(" " + text)).Some? ==> |Raw(DropCr(" " + text)).value| <= |text|
  {
    var raw := RawOfWritten(text);
    RawIsShorter(text, WHITE);
  }

  /** The first piece of a scalar's line: its key, and a value no longer than the piece. */
  lemma TopPieceIsHarmless(key: string, piece: string, v: string)
    requires IsKey(key) && |piece| < |v|
    ensures Harmless(DropCr(key + ":" + (" " + piece)), v)
  {
    DropCrKeepsKey(key, " " + piece);
    TopKind(key, DropCr(" " + piece));
    RawIsShort(piece);
    if Raw(DropCr(" " + piece)).Some? {
      ShortRawIsHarmless(Raw(DropCr(" " + piece)).value, v);
    }
  }

  lemma NestedPieceIsHarmless(indent: string, key: string, piece: string, v: string)
    requires IsIndent(indent) && IsKey(key) && |piece| < |v|
    ensures Harmless(DropCr(indent + (key + ":" + (" " + piece))), v)
  {
    DropCrKeepsKey(key, " " + piece);
    DropCrKeepsIndent(indent, key + ":" + (" " + piece));
    NestedKind(indent, key, DropCr(" " + piece));
    RawIsShort(piece);
    if Raw(DropCr(" " + piece)).Some? {
      ShortRawIsHarmless(Raw(DropCr(" " + piece)).value, v);
    }
  }

  /** A text with newlines behind a prefix: all its lines are harmless if the first is. */
  lemma PiecesAreHarmless(prefix: string, text: string, v: string)
    requires '\n' !in prefix && '\n' in text && |text| <= |v|
    requires Harmless(DropCr(prefix + Split(text, '\n')[0]), v)
    ensures AllHarmless(Split(prefix + text, '\n'), v)
  {
    SplitBehind(prefix, text);
    PiecesAreShorter(text);
    var pieces := Split(prefix + text, '\n');
    forall i | 0 <= i < |pieces|
      ensures Harmless(DropCr(pieces[i]), v)
    {
      if i > 0 {
        assert pieces[i] == Split(text, '\n')[i];
        ShortLineIsHarmless(DropCr(pieces[i]), v);
      }
    }
  }

  // ----- What harmless lines leave -----

  /** Neither the value under the key nor a field of it is `v`. */
  predicate Without(out: map<string, Value>, key: string, v: string) {
    key in out ==>
      match out[key]
      case Text(text) => text != v
      case Object(fields) => forall f :: f in fields ==> fields[f] != v
  }

  lemma EnterHarmless(s: Reading, line: string, key: string, v: string)
    requires Without(s.out, key, v) && Harmless(line, v)
    ensures Without(Enter(s, Kind(line)).out, key, v)
  {
    EntryKeeps(s, Kind(line), key, v);
  }

  lemma EntryKeeps(s: Reading, e: Entry, key: string, v: string)
    requires Without(s.out, key, v)
    requires !e.Nothing? ==> ParseScalar(e.raw) != v
    ensures Without(Enter(s, e).out, key, v)
  {
    match e
    case Nothing =>
    case Top(k, raw) =>
      if raw != "" {
        TextKeeps(s, k, ParseScalar(raw), key, v);
      } else {
        SectionKeeps(s, k, key, v);
      }
    case Nested(k, raw) => FieldKeeps(s, k, ParseScalar(raw), key, v);
  }

  lemma TextKeeps(s: Reading, k: string, text: string, key: string, v: string)
    requires Without(s.out, key, v) && text != v
    ensures Without(PutText(s, k, text).out, key, v)
  {
  }

  lemma SectionKeeps(s: Reading, k: string, key: string, v: string)
    requires Without(s.out, key, v)
    ensures Without(OpenSection(s, k).out, key, v)
  {
  }

  lemma FieldKeeps(s: Reading, field: string, value: string, key: string, v: string)
    requires Without(s.out, key, v) && value != v
    ensures Without(PutField(s, field, value).out, key, v)
  {
  }

  lemma {:induction false} EnterAllHarmless(s: Reading, lines: seq<string>, key: string, v: string)
    requires Without(s.out, key, v) && AllHarmless(lines, v)
    ensures Without(EnterAll(s, Kinds(DropCrs(lines))).out, key, v)
  {
    if lines != [] {
      var n := |lines| - 1;
      EnterAllHarmless(s, lines[..n], key, v);
      var all := DropCrs(lines);
      assert all[..n] == DropCrs(lines[..n]);
      assert Kinds(all)[..n] == Kinds(all[..n]);
      EnterHarmless(EnterAll(s, Kinds(all[..n])), all[n], key, v);
    }
  }

  // ----- Blocks -----

  /** A block that cannot put `v` under the key: it has another key, or only harmless lines. */
  predicate Keeps(b: Block, key: string, v: string) {
    || (b.key != key && GoodBlock(b) && OneLineBlock(b))
    || AllHarmless(Pieces(BlockLines(b)), v)
  }

  lemma BlockKeeps(s: Reading, b: Block, key: string, v: string)
    requires Without(s.out, key, v) && Keeps(b, key, v)
    ensures Without(EnterAll(s, Kinds(DropCrs(Pieces(BlockLines(b))))).out, key, v)
  {
    if AllHarmless(Pieces(BlockLines(b)), v) {
      EnterAllHarmless(s, Pieces(BlockLines(b)), key, v);
    } else {
      BlockLinesSplit(b);
      PiecesOfLines(BlockLines(b));
      KindsOfBlock(b);
      EnterBlock(s, b);
      OtherKeyKeeps(s.out, b, key, v);
    }
  }

  lemma OtherKeyKeeps(out: map<string, Value>, b: Block, key: string, v: string)
    requires Without(out, key, v) && b.key != key
    ensures Without(WithBlock(out, b), key, v)
  {
  }

  lemma {:induction false} BlocksKeep(blocks: seq<Block>, key: string, v: string)
    requires forall i :: 0 <= i < |blocks| ==> Keeps(blocks[i], key, v)
    ensures Without(EnterAll(START, Kinds(DropCrs(Pieces(Lines(blocks))))).out, key, v)
  {
    if blocks != [] {
      var n := |blocks| - 1;
      BlocksKeep(blocks[..n], key, v);
      var front, last := Pieces(Lines(blocks[..n])), Pieces(BlockLines(blocks[n]));
      PiecesConcat(Lines(blocks[..n]), BlockLines(blocks[n]));
      DropCrsConcat(front, last);
      KindsConcat(DropCrs(front), DropCrs(last));
      EnterConcat(START, Kinds(DropCrs(front)), Kinds(DropCrs(last)));
      BlockKeeps(EnterAll(START, Kinds(DropCrs(front))), blocks[n], key, v);
    }
  }

  lemma ScalarBlockKeeps(key: string, text: string, other: string, v: string)
    requires IsKey(key) && '\n' !in key
    requires if '\n' in text then |text| <= |v| else key != other
    ensures Keeps(Scalar(key, " " + text), other, v)
  {
    if '\n' in text {
      var prefix, first := key + ": ", Split(text, '\n')[0];
      var line := key + ":" + (" " + text);
      assert line == prefix + text && [line][1..] == [];
      assert prefix + first == key + ":" + (" " + first);
      PiecesAreShorter(text);
      TopPieceIsHarmless(key, first, v);
      PiecesAreHarmless(prefix, text, v);
      assert Pieces([line]) == Split(line, '\n');
    }
  }

  lemma HeaderKind(key: string)
    requires IsKey(key)
    ensures Kind(DropCr(key + ":")) == Top(key, "")
  {
    assert key + ":" + "" == key + ":" && DropCr("") == "";
    DropCrKeepsKey(key, "");
    TopKind(key, "");
    assert Raw("") == Some("");
  }

  lemma OneHarmless(line: string, e: Entry, v: string)
    requires Kind(DropCr(line)) == e && HarmlessEntry(e, v)
    ensures AllHarmless([line], v)
  {
  }

  lemma SectionIsHarmless(key: string, v: string)
    requires v != ""
    ensures HarmlessEntry(Top(key, ""), v)
  {
    ShortRawIsHarmless("", v);
  }

  lemma HeaderIsHarmless(key: string, v: string)
    requires IsKey(key) && v != ""
    ensures AllHarmless([key + ":"], v)
  {
    HeaderKind(key);
    SectionIsHarmless(key, v);
    OneHarmless(key + ":", Top(key, ""), v);
  }

  lemma FieldLineIsHarmless(field: string, text: string, v: string)
    requires IsKey(field) && '\n' !in field && '\n' in text && |text| <= |v|
    ensures AllHarmless(Split(ItemLine(Item("  ", field, " " + text)), '\n'), v)
  {
    var prefix, first := "  " + (field + ": "), Split(text, '\n')[0];
    assert ItemLine(Item("  ", field, " " + text)) == prefix + text;
    assert prefix + first == "  " + (field + ":" + (" " + first));
    PiecesAreShorter(text);
    NestedPieceIsHarmless("  ", field, first, v);
    PiecesAreHarmless(prefix, text, v);
  }

  lemma SectionIsLost(key: string, item: Item, v: string)
    requires IsKey(key) && '\n' !in key && v != "" && AllHarmless(Split(ItemLine(item), '\n'), v)
    ensures AllHarmless(Pieces(BlockLines(Section(key, [item]))), v)
  {
    ItemLinesOfOne(item);
    HeaderIsHarmless(key, v);
    TwoLines(key + ":", ItemLine(item));
    HarmlessConcat([key + ":"], Split(ItemLine(item), '\n'), v);
  }

  lemma SectionBlockKeeps(key: string, field: string, text: string, other: string, v: string)
    requires IsKey(key) && '\n' !in key && IsKey(field) && '\n' !in field
    requires if '\n' in text then |text| <= |v| else key != other
    ensures Keeps(Section(key, [Item("  ", field, " " + text)]), other, v)
  {
    var item := Item("  ", field, " " + text);
    if '\n' in text {
      FieldLineIsHarmless(field, text, v);
      SectionIsLost(key, item, v);
      KeepsByLines(Section(key, [item]), other, v);
    } else {
      FieldIsFine(field, text);
      KeepsByKey(key, item, other, v);
    }
  }

  lemma KeepsByLines(b: Block, other: string, v: string)
    requires AllHarmless(Pieces(BlockLines(b)), v)
    ensures Keeps(b, other, v)
  {
  }

  lemma KeepsByKey(key: string, item: Item, other: string, v: string)
    requires IsKey(key) && '\n' !in key && key != other && GoodItem(item) && OneLineItem(item)
    ensures Keeps(Section(key, [item]), other, v)
  {
  }

  lemma FieldIsFine(field: string, text: string)
    requires IsKey(field) && '\n' !in field && '\n' !in text
    ensures GoodItem(Item("  ", field, " " + text)) && OneLineItem(Item("  ", field, " " + text))
  {
  }

  lemma TwoLines(header: string, line: string)
    requires '\n' !in header
    ensures Pieces([header] + [line]) == [header] + Split(line, '\n')
  {
    PiecesConcat([header], [line]);
    PiecesOfLines([header]);
    assert [line][1..] == [];
  }

  lemma HarmlessConcat(a: seq<string>, b: seq<string>, v: string)
    requires AllHarmless(a, v) && AllHarmless(b, v)
    ensures AllHarmless(a + b, v)
  {
  }

  // ----- The longest scalar with a newline -----

  /** The scalar of a runtime without options. */
  function RuntimeText(runtime: Runtime): string {
    match runtime
    case Unset => "nodejs"
    case ByName(text) => text
    case WithOptions(name, _) => name
  }

  /** No scalar with a newline is longer than `v`, and the one under the key has one. */
  predicate Longest(s: Settings, key: string, v: string) {
    && (if '\n' in s.name then |s.name| <= |v| else key != "name")
    && (if '\n' in RuntimeText(s.runtime) then |RuntimeText(s.runtime)| <= |v| else key != "runtime")
    && (if '\n' in s.url then |s.url| <= |v| else key != "backend")
    && key != "main" && key != "description"
  }

  lemma RuntimeBlockKeeps(runtime: Runtime, key: string, v: string)
    requires runtime.WithOptions? ==> runtime.options == []
    requires if '\n' in RuntimeText(runtime) then |RuntimeText(runtime)| <= |v| else key != "runtime"
    ensures Keeps(RuntimeBlock(runtime), key, v)
  {
    match runtime
    case Unset => ScalarBlockKeeps("runtime", "nodejs", key, v);
    case ByName(text) => ScalarBlockKeeps("runtime", text, key, v);
    case WithOptions(name, options) =>
      assert RuntimeItems(name, []) == [Item("  ", "name", " " + name)];
      SectionBlockKeeps("runtime", "name", name, key, v);
  }

  predicate AllKeep(blocks: seq<Block>, key: string, v: string) {
    forall i :: 0 <= i < |blocks| ==> Keeps(blocks[i], key, v)
  }

  lemma AllKeepConcat(a: seq<Block>, b: seq<Block>, key: string, v: string)
    requires AllKeep(a, key, v) && AllKeep(b, key, v)
    ensures AllKeep(a + b, key, v)
  {
  }

  lemma QuotedBlockKeeps(own: string, text: string, key: string, v: string)
    requires IsKey(own) && '\n' !in own && own != key
    ensures AllKeep(QuotedBlock(own, text), key, v)
  {
    QuotedIsFine(own, text);
  }

  lemma BackendBlockKeeps(url: string, key: string, v: string)
    requires if '\n' in url then |url| <= |v| else key != "backend"
    ensures AllKeep(BackendBlock(url), key, v)
  {
    if url != "" {
      SectionBlockKeeps("backend", "url", url, key, v);
    }
  }

  lemma BlocksAllKeep(s: Settings, key: string, v: string)
    requires Longest(s, key, v) && (s.runtime.WithOptions? ==> s.runtime.options == [])
    ensures AllKeep(Blocks(s), key, v)
  {
    var main, description := QuotedBlock("main", s.main), QuotedBlock("description", s.description);
    ScalarBlockKeeps("name", s.name, key, v);
    RuntimeBlockKeeps(s.runtime, key, v);
    AllKeepConcat([Scalar("name", " " + s.name)], [RuntimeBlock(s.runtime)], key, v);
    QuotedBlockKeeps("main", s.main, key, v);
    AllKeepConcat(HeadBlocks(s), main, key, v);
    QuotedBlockKeeps("description", s.description, key, v);
    AllKeepConcat(HeadBlocks(s) + main, description, key, v);
    BackendBlockKeeps(s.url, key, v);
    AllKeepConcat(HeadBlocks(s) + main + description, BackendBlock(s.url), key, v);
  }

  /** What is read has nothing equal to the longest scalar with a newline at its place. */
  lemma LongestIsLost(s: Settings, key: string, v: string)
    requires Longest(s, key, v) && (s.runtime.WithOptions? ==> s.runtime.options == [])
    requires !Without(Meaning(s), key, v)
    ensures ReadText(Print(s)) != Some(Meaning(s))
  {
    BlocksAllKeep(s, key, v);
    BlocksKeep(Blocks(s), key, v);
    assert Lines(Blocks(s)) != [];
    ReadPrinted(Lines(Blocks(s)));
  }

  predicate Has(out: map<string, Value>, key: string, v: Value) {
    key in out && out[key] == v
  }

  lemma WithTextKeeps(out: map<string, Value>, own: string, text: string, key: string, v: Value)
    requires Has(out, key, v) && own != key
    ensures Has(WithText(out, own, text), key, v)
  {
  }

  lemma MeaningKeeps(s: Settings, key: string, v: Value)
    requires Has(HeadMeaning(s), key, v) && key != "main" && key != "description" && key != "backend"
    ensures Has(Meaning(s), key, v)
  {
    WithTextKeeps(HeadMeaning(s), "main", s.main, key, v);
    WithTextKeeps(WithText(HeadMeaning(s), "main", s.main), "description", s.description, key, v);
  }

  lemma MeaningHasAll(s: Settings)
    ensures Has(Meaning(s), "name", Text(s.name))
    ensures Has(Meaning(s), "runtime", RuntimeMeaning(s.runtime))
    ensures s.url != "" ==> Has(Meaning(s), "backend", Object(map["url" := s.url]))
  {
    assert "name"[0] == 'n' && "runtime"[0] == 'r' && "main"[0] == 'm';
    assert "description"[0] == 'd' && "backend"[0] == 'b';
    MeaningKeeps(s, "name", Text(s.name));
    MeaningKeeps(s, "runtime", RuntimeMeaning(s.runtime));
  }

  lemma TextIsNotWithout(out: map<string, Value>, key: string, v: string)
    requires Has(out, key, Text(v))
    ensures !Without(out, key, v)
  {
  }

  lemma FieldIsNotWithout(out: map<string, Value>, key: string, field: string, v: string)
    requires Has(out, key, Object(map[field := v]))
    ensures !Without(out, key, v)
  {
    var fields := out[key].fields;
    assert field in fields && fields[field] == v;
  }

  lemma RuntimeIsNotWithout(s: Settings)
    requires !s.runtime.Unset?
    ensures !Without(Meaning(s), "runtime", RuntimeText(s.runtime))
  {
    MeaningHasAll(s);
    match s.runtime
    case ByName(text) => TextIsNotWithout(Meaning(s), "runtime", text);
    case WithOptions(name, _) => FieldIsNotWithout(Meaning(s), "runtime", "name", name);
  }

  function NewlineLength(text: string): nat {
    if '\n' in text then |text| else 0
  }

  /** A scalar with a newline, and the longest of them. */
  lemma NewlinesAreLost(s: Settings)
    requires s.runtime.WithOptions? ==> s.runtime.options == []
    requires '\n' in s.name || '\n' in RuntimeText(s.runtime) || '\n' in s.url
    ensures ReadText(Print(s)) != Some(Meaning(s))
  {
    var n, r, u := NewlineLength(s.name), NewlineLength(RuntimeText(s.runtime)), NewlineLength(s.url);
    MeaningHasAll(s);
    assert "name"[0] == 'n' && "runtime"[0] == 'r' && "main"[0] == 'm';
    assert "description"[0] == 'd' && "backend"[0] == 'b';
    if n >= r && n >= u {
      TextIsNotWithout(Meaning(s), "name", s.name);
      LongestIsLost(s, "name", s.name);
    } else if r >= u {
      RuntimeIsNotWithout(s);
      LongestIsLost(s, "runtime", RuntimeText(s.runtime));
    } else {
      FieldIsNotWithout(Meaning(s), "backend", "url", s.url);
      LongestIsLost(s, "backend", s.url);
    }
  }

  lemma CleanIsOneLine(s: Settings)
    requires Clean(s) && (s.runtime.WithOptions? ==> s.runtime.options == [])
    ensures OneLine(s)
  {
  }

  /**
   Reading the written file gives exactly the name, runtime, main, description and backend URL that were
   written if and only if the settings are clean.
   */
  lemma SettingsReadBack(s: Settings)
    requires s.runtime.WithOptions? ==> s.runtime.options == []
    ensures ReadText(Print(s)) == Some(Meaning(s)) <==> Clean(s)
  {
    if OneLine(s) {
      OneLineSettingsReadBack(s);
    } else {
      NewlinesAreLost(s);
      if Clean(s) {
        CleanIsOneLine(s);
      }
    }
  }
}
