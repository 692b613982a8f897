/**
 Writing project settings, and when reading the written file gives them back.
 */
module SettingsFile {
  import opened Wrappers
  import opened Seqs
  import opened Strings
  import opened ProjectSettings
  import opened SettingsRoundTrip

  datatype Runtime =
    | Unset
    | ByName(text: string)
    | WithOptions(name: string, options: seq<(string, string)>)

  /**
   `main`, `description` and `url` are "" when they are not set: the writer does not tell the two apart.
   An option's value is its JSON text.
   */
  datatype Settings = Settings(name: string, runtime: Runtime, main: string, description: string, url: string)

  // ----- The printed blocks -----

  function OptionItems(options: seq<(string, string)>): (items: seq<Item>)
    ensures |items| == |options|
  {
    if options == [] then []
    else
      var n := |options| - 1;
      OptionItems(options[..n]) + [Item("    ", options[n].0, " " + options[n].1)]
  }

  function RuntimeItems(name: string, options: seq<(string, string)>): seq<Item> {
    [Item("  ", "name", " " + name)]
    + (if options == [] then [] else [Item("  ", "options", "")] + OptionItems(options))
  }

  function RuntimeBlock(runtime: Runtime): Block {
    match runtime
    case Unset => Scalar("runtime", " " + "nodejs")
    case ByName(text) => Scalar("runtime", " " + text)
    case WithOptions(name, options) => Section("runtime", RuntimeItems(name, options))
  }

  function QuotedBlock(key: string, text: string): seq<Block> {
    if text == "" then [] else [Scalar(key, " " + Quote(text))]
  }

  function BackendBlock(url: string): seq<Block> {
    if url == "" then [] else [Section("backend", [Item("  ", "url", " " + url)])]
  }

  function HeadBlocks(s: Settings): seq<Block> {
    [Scalar("name", " " + s.name)] + [RuntimeBlock(s.runtime)]
  }

  function Blocks(s: Settings): seq<Block> {
    HeadBlocks(s) + QuotedBlock("main", s.main) + QuotedBlock("description", s.description) + BackendBlock(s.url)
  }

  function Print(s: Settings): string {
    Join(Lines(Blocks(s)), "\n") + "\n"
  }

  // ----- The writer -----

  lemma LinesSnoc(blocks: seq<Block>, b: Block)
    ensures Lines(blocks + [b]) == Lines(blocks) + BlockLines(b)
  {
    assert (blocks + [b])[..|blocks|] == blocks;
  }

  lemma {:induction false} ItemLinesConcat(a: seq<Item>, b: seq<Item>)
    ensures ItemLines(a + b) == ItemLines(a) + ItemLines(b)
  {
    if b == [] {
      assert a + b == a;
    } else {
      assert (a + b)[..|a + b| - 1] == a + b[..|b| - 1];
      ItemLinesConcat(a, b[..|b| - 1]);
    }
  }

  lemma ItemLinesOfOne(item: Item)
    ensures ItemLines([item]) == [ItemLine(item)]
  {
    assert [item][..0] == [];
  }

  lemma LinesOfName(name: string)
    ensures ItemLine(Item("  ", "name", " " + name)) == "  name: " + name
  {
  }

  lemma LinesOfOptions(first: Item, second: Item, options: seq<Item>)
    ensures ItemLines([first]) == [ItemLine(first)]
    ensures ItemLines([first] + ([second] + options)) == [ItemLine(first)] + ([ItemLine(second)] + ItemLines(options))
  {
    ItemLinesOfOne(first);
    ItemLinesOfOne(second);
    ItemLinesConcat([second], options);
    ItemLinesConcat([first], [second] + options);
  }

  lemma LinesOfRuntime(name: string, options: seq<(string, string)>)
    ensures BlockLines(RuntimeBlock(WithOptions(name, options)))
            == ["runtime:"] + (["  name: " + name]
                               + (if options == [] then [] else ["  options:"] + ItemLines(OptionItems(options))))
  {
    var first, second := Item("  ", "name", " " + name), Item("  ", "options", "");
    LinesOfName(name);
    LinesOfOptions(first, second, OptionItems(options));
    assert ItemLine(second) == "  options:";
    assert "runtime" + ":" == "runtime:";
    assert RuntimeItems(name, options)
           == if options == [] then [first] else [first] + ([second] + OptionItems(options));
  }

  lemma LinesOfBackend(url: string)
    requires url != ""
    ensures BackendBlock(url) == [Section("backend", [Item("  ", "url", " " + url)])]
    ensures BlockLines(BackendBlock(url)[0]) == ["backend:", "  url: " + url]
  {
    var item := Item("  ", "url", " " + url);
    ItemLinesOfOne(item);
    assert ItemLine(item) == "  url: " + url;
    assert "backend" + ":" == "backend:";
  }

  method PushOptions(lines: seq<string>, options: seq<(string, string)>) returns (out: seq<string>)
    ensures out == lines + ItemLines(OptionItems(options))
  {
    out := lines;
    for i := 0 to |options|
      invariant out == lines + ItemLines(OptionItems(options[..i]))
    {
      var (k, v) := options[i];
      out := out + ["    " + k + ": " + v];
      assert options[..i + 1][..i] == options[..i];
      assert "    " + (k + ":" + (" " + v)) == "    " + k + ": " + v;
    }
    assert options[..|options|] == options;
  }

  method PushRuntime(lines: seq<string>, runtime: Runtime) returns (out: seq<string>)
    ensures out == lines + BlockLines(RuntimeBlock(runtime))
  {
    match runtime
    case Unset =>
      out := lines + ["runtime: " + "nodejs"];
      assert "runtime" + ":" + (" " + "nodejs") == "runtime: " + "nodejs";
    case ByName(text) =>
      out := lines + ["runtime: " + text];
      assert "runtime" + ":" + (" " + text) == "runtime: " + text;
    case WithOptions(name, options) =>
      out := lines + ["runtime:", "  name: " + name];
      assert "  " + ("name" + ":" + (" " + name)) == "  name: " + name;
      if |options| > 0 {
        out := out + ["  options:"];
        out := PushOptions(out, options);
      }
      LinesOfRuntime(name, options);
  }

  method PushQuoted(lines: seq<string>, ghost blocks: seq<Block>, key: string, text: string) returns (out: seq<string>)
    requires lines == Lines(blocks)
    ensures out == Lines(blocks + QuotedBlock(key, text))
  {
    out := lines;
    if text != "" {
      out := out + [key + ": " + Quote(text)];
      assert key + ":" + (" " + Quote(text)) == key + ": " + Quote(text);
      LinesSnoc(blocks, Scalar(key, " " + Quote(text)));
    } else {
      assert blocks + [] == blocks;
    }
  }

  /** `writeProjectSettings`. */
  method WriteProjectSettings(s: Settings) returns (text: string)
    ensures text == Print(s)
  {
    var lines := ["name: " + s.name];
    ghost var first := Scalar("name", " " + s.name);
    assert "name" + ":" + (" " + s.name) == "name: " + s.name;
    LinesSnoc([], first);
    assert [] + [first] == [first];
    lines := PushRuntime(lines, s.runtime);
    LinesSnoc([first], RuntimeBlock(s.runtime));
    lines := PushQuoted(lines, HeadBlocks(s), "main", s.main);
    lines := PushQuoted(lines, HeadBlocks(s) + QuotedBlock("main", s.main), "description", s.description);
    ghost var most := HeadBlocks(s) + QuotedBlock("main", s.main) + QuotedBlock("description", s.description);
    if s.url != "" {
      lines := lines + ["backend:", "  url: " + s.url];
      LinesOfBackend(s.url);
      LinesSnoc(most, BackendBlock(s.url)[0]);
    } else {
      assert most + [] == most;
    }
    text := Join(lines, "\n") + "\n";
  }

  // ----- The printed text splits into the printed lines -----

  predicate OneLineItem(item: Item) {
    '\n' !in item.indent && '\n' !in item.key && '\n' !in item.rest
  }

  predicate OneLineItems(items: seq<Item>) {
    forall i :: 0 <= i < |items| ==> OneLineItem(items[i])
  }

  predicate OneLineBlock(b: Block) {
    '\n' !in b.key && if b.Scalar? then '\n' !in b.rest else OneLineItems(b.items)
  }

  predicate OneLineBlocks(blocks: seq<Block>) {
    forall i :: 0 <= i < |blocks| ==> OneLineBlock(blocks[i])
  }

  lemma {:induction false} ItemLinesSplit(items: seq<Item>)
    requires OneLineItems(items)
    ensures NoNewline(ItemLines(items))
  {
    if items != [] {
      var n := |items| - 1;
      assert OneLineItem(items[n]);
      ItemLinesSplit(items[..n]);
    }
  }

  lemma BlockLinesSplit(b: Block)
    requires OneLineBlock(b)
    ensures NoNewline(BlockLines(b))
  {
    if b.Section? {
      ItemLinesSplit(b.items);
    }
  }

  lemma {:induction false} LinesSplit(blocks: seq<Block>)
    requires OneLineBlocks(blocks)
    ensures NoNewline(Lines(blocks))
  {
    if blocks != [] {
      var n := |blocks| - 1;
      BlockLinesSplit(blocks[n]);
      LinesSplit(blocks[..n]);
    }
  }

  lemma {:induction false} EscapeIsOneLine(s: string)
    ensures '\n' !in Escape(s)
  {
    if s != "" {
      EscapeIsOneLine(s[1..]);
    }
  }

  /** No scalar that is written as it is contains a newline. */
  predicate OneLine(s: Settings) {
    && '\n' !in s.name && '\n' !in s.url
    && match s.runtime
       case Unset => true
       case ByName(text) => '\n' !in text
       case WithOptions(name, options) =>
         '\n' !in name && forall i :: 0 <= i < |options| ==> '\n' !in options[i].0 && '\n' !in options[i].1
  }

  /** Option keys that the parser takes for keys. */
  predicate OptionsHaveKeys(s: Settings) {
    s.runtime.WithOptions? ==> forall i :: 0 <= i < |s.runtime.options| ==> IsKey(s.runtime.options[i].0)
  }

  predicate GoodItems(items: seq<Item>) {
    forall i :: 0 <= i < |items| ==> GoodItem(items[i])
  }

  predicate OneLineOptions(options: seq<(string, string)>) {
    forall i :: 0 <= i < |options| ==> '\n' !in options[i].0 && '\n' !in options[i].1
  }

  lemma OptionItemIsFine(k: string, v: string)
    requires IsKey(k)
    ensures GoodItem(Item("    ", k, " " + v))
    ensures '\n' !in k && '\n' !in v ==> OneLineItem(Item("    ", k, " " + v))
  {
  }

  lemma {:induction false} OptionItemsAre(options: seq<(string, string)>)
    requires forall i :: 0 <= i < |options| ==> IsKey(options[i].0)
    ensures GoodItems(OptionItems(options))
    ensures OneLineOptions(options) ==> OneLineItems(OptionItems(options))
  {
    if options != [] {
      var n := |options| - 1;
      OptionItemsAre(options[..n]);
      OptionItemIsFine(options[n].0, options[n].1);
    }
  }

  lemma ItemsConcat(a: seq<Item>, b: seq<Item>)
    ensures GoodItems(a) && GoodItems(b) ==> GoodItems(a + b)
    ensures OneLineItems(a) && OneLineItems(b) ==> OneLineItems(a + b)
  {
  }

  lemma NameItemIsFine(name: string)
    ensures GoodItems([Item("  ", "name", " " + name)]) && GoodItems([Item("  ", "options", "")])
    ensures '\n' !in name ==> OneLineItems([Item("  ", "name", " " + name)])
    ensures OneLineItems([Item("  ", "options", "")])
  {
  }

  lemma RuntimeItemsAre(name: string, options: seq<(string, string)>)
    requires forall i :: 0 <= i < |options| ==> IsKey(options[i].0)
    ensures GoodItems(RuntimeItems(name, options))
    ensures '\n' !in name && OneLineOptions(options) ==> OneLineItems(RuntimeItems(name, options))
  {
    var own, header := [Item("  ", "name", " " + name)], [Item("  ", "options", "")];
    OptionItemsAre(options);
    NameItemIsFine(name);
    ItemsConcat(header, OptionItems(options));
    ItemsConcat(own, header + OptionItems(options));
    ItemsConcat(own, []);
  }

  predicate Fine(blocks: seq<Block>) {
    Good(blocks) && OneLineBlocks(blocks)
  }

  lemma FineConcat(a: seq<Block>, b: seq<Block>)
    requires Fine(a) && Fine(b)
    ensures Fine(a + b)
  {
  }

  lemma QuotedIsFine(key: string, text: string)
    requires IsKey(key) && '\n' !in key
    ensures Fine(QuotedBlock(key, text))
  {
    EscapeIsOneLine(text);
  }

  lemma RuntimeIsFine(s: Settings)
    requires OneLine(s) && OptionsHaveKeys(s)
    ensures Fine([RuntimeBlock(s.runtime)])
  {
    if s.runtime.WithOptions? {
      RuntimeItemsAre(s.runtime.name, s.runtime.options);
    }
  }

  lemma BackendIsFine(url: string)
    requires '\n' !in url
    ensures Fine(BackendBlock(url))
  {
  }

  lemma BlocksAreFine(s: Settings)
    requires OneLine(s) && OptionsHaveKeys(s)
    ensures Fine(Blocks(s))
  {
    var main, description := QuotedBlock("main", s.main), QuotedBlock("description", s.description);
    RuntimeIsFine(s);
    FineConcat([Scalar("name", " " + s.name)], [RuntimeBlock(s.runtime)]);
    QuotedIsFine("main", s.main);
    FineConcat(HeadBlocks(s), main);
    QuotedIsFine("description", s.description);
    FineConcat(HeadBlocks(s) + main, description);
    BackendIsFine(s.url);
    FineConcat(HeadBlocks(s) + main + description, BackendBlock(s.url));
  }

  /** Reading what was written gives, setting by setting, what its own lines say. */
  lemma ReadBack(s: Settings)
    requires OneLine(s) && OptionsHaveKeys(s)
    ensures ReadText(Print(s)) == Named(Collected(Blocks(s)))
  {
    BlocksAreFine(s);
    LinesSplit(Blocks(s));
    assert Lines(Blocks(s)) != [];
    ReadPrinted(Lines(Blocks(s)));
    PiecesOfLines(Lines(Blocks(s)));
    ReadBlocks(Blocks(s));
  }

  // ----- When the settings come back -----

  /** The runtime as the parser represents it, when it has no options. */
  function RuntimeMeaning(runtime: Runtime): Value {
    match runtime
    case Unset => Text("nodejs")
    case ByName(text) => Text(text)
    case WithOptions(name, _) => Object(map["name" := name])
  }

  function HeadMeaning(s: Settings): map<string, Value> {
    map["name" := Text(s.name)]["runtime" := RuntimeMeaning(s.runtime)]
  }

  function WithText(out: map<string, Value>, key: string, text: string): map<string, Value> {
    if text == "" then out else out[key := Text(text)]
  }

  function WithUrl(out: map<string, Value>, url: string): map<string, Value> {
    if url == "" then out else out["backend" := Object(map["url" := url])]
  }

  /** What reading the file should give. */
  function Meaning(s: Settings): map<string, Value> {
    WithUrl(WithText(WithText(HeadMeaning(s), "main", s.main), "description", s.description), s.url)
  }

  predicate PlainRuntime(runtime: Runtime) {
    match runtime
    case Unset => true
    case ByName(text) => Plain(text)
    case WithOptions(name, _) => name == "" || Plain(name)
  }

  /** Unquoted scalars are plain; quoted ones have no line or paragraph separator, which JSON leaves as it is. */
  predicate Clean(s: Settings) {
    && Plain(s.name) && PlainRuntime(s.runtime)
    && NoSeparator(s.main) && NoSeparator(s.description)
    && (s.url == "" || Plain(s.url))
  }

  lemma MapSnoc(out: map<string, Value>, want: map<string, Value>, key: string, got: Value, v: Value)
    requires key !in out && key !in want
    ensures out[key := got] == want[key := v] <==> out == want && got == v
  {
    var all, wantAll := out[key := got], want[key := v];
    if all == wantAll {
      assert all[key] == got && wantAll[key] == v;
      assert forall k :: k in out <==> k in all && k != key;
      assert forall k :: k in want <==> k in wantAll && k != key;
      assert forall k :: k in out ==> out[k] == all[k] && want[k] == wantAll[k];
    }
  }

  lemma CollectedLast(front: seq<Block>, b: Block)
    ensures Collected(front + [b]) == WithBlock(Collected(front), b)
  {
    assert (front + [b])[..|front|] == front;
  }

  lemma WithBlockIff(out: map<string, Value>, want: map<string, Value>, b: Block, v: Value)
    requires b.key !in out && b.key !in want
    ensures WithBlock(out, b) == want[b.key := v] <==> out == want && BlockValue(b) == Some(v)
    ensures WithBlock(out, b).Keys <= out.Keys + {b.key}
  {
    match BlockValue(b)
    case None => assert b.key !in WithBlock(out, b);
    case Some(got) => MapSnoc(out, want, b.key, got, v);
  }

  lemma CollectedSnoc(front: seq<Block>, want: map<string, Value>, b: Block, v: Value)
    requires b.key !in Collected(front) && b.key !in want
    ensures Collected(front + [b]) == want[b.key := v] <==> Collected(front) == want && BlockValue(b) == Some(v)
    ensures Collected(front + [b]).Keys <= Collected(front).Keys + {b.key}
  {
    CollectedLast(front, b);
    WithBlockIff(Collected(front), want, b, v);
  }

  lemma FieldValue(section: string, indent: string, key: string, text: string)
    ensures BlockValue(Section(section, [Item(indent, key, " " + text)])) == Some(Object(map[key := text]))
            <==> text == "" || Plain(text)
  {
    var items := [Item(indent, key, " " + text)];
    assert items[..0] == [];
    UnquotedReads(text);
    assert ItemsValue(items) == WithItem(map[], items[0]);
    assert forall v: string :: map[][key := v] == map[key := v];
    assert forall v: string :: map[key := v][key] == v;
  }

  lemma TextValue(key: string, text: string)
    ensures BlockValue(Scalar(key, " " + text)) == Some(Text(text)) <==> Plain(text)
  {
    UnquotedReads(text);
  }

  lemma QuotedValue(key: string, text: string)
    ensures BlockValue(Scalar(key, " " + Quote(text))) == Some(Text(text)) <==> NoSeparator(text)
  {
    QuotedReads(text);
  }

  lemma UnsetValue()
    ensures BlockValue(RuntimeBlock(Unset)) == Some(RuntimeMeaning(Unset))
  {
    PlainWord("nodejs");
    TextValue("runtime", "nodejs");
  }

  lemma NamedRuntimeValue(name: string)
    ensures BlockValue(RuntimeBlock(WithOptions(name, []))) == Some(RuntimeMeaning(WithOptions(name, [])))
            <==> name == "" || Plain(name)
  {
    assert RuntimeItems(name, []) == [Item("  ", "name", " " + name)];
    FieldValue("runtime", "  ", "name", name);
  }

  lemma RuntimeValue(runtime: Runtime)
    requires runtime.WithOptions? ==> runtime.options == []
    ensures BlockValue(RuntimeBlock(runtime)) == Some(RuntimeMeaning(runtime)) <==> PlainRuntime(runtime)
  {
    match runtime
    case Unset => UnsetValue();
    case ByName(text) => TextValue("runtime", text);
    case WithOptions(name, options) => NamedRuntimeValue(name);
  }

  lemma PlainWord(word: string)
    requires word != "" && forall i :: 0 <= i < |word| ==> IsWord(word[i])
    ensures Plain(word)
  {
  }

  lemma TwoBlocks(first: Block, v: Value, second: Block, w: Value)
    requires first.key != second.key
    ensures Collected([first] + [second]) == map[first.key := v][second.key := w]
            <==> BlockValue(first) == Some(v) && BlockValue(second) == Some(w)
    ensures Collected([first] + [second]).Keys <= {first.key, second.key}
  {
    OneBlock(first, v);
    CollectedSnoc([first], map[first.key := v], second, w);
  }

  lemma OneBlock(b: Block, v: Value)
    ensures Collected([b]) == map[b.key := v] <==> BlockValue(b) == Some(v)
    ensures Collected([b]).Keys <= {b.key}
  {
    var none: map<string, Value> := map[];
    assert [] + [b] == [b];
    assert none[b.key := v] == map[b.key := v];
    CollectedSnoc([], none, b, v);
  }

  lemma HeadReads(s: Settings)
    requires s.runtime.WithOptions? ==> s.runtime.options == []
    ensures Collected(HeadBlocks(s)) == HeadMeaning(s) <==> Plain(s.name) && PlainRuntime(s.runtime)
    ensures Collected(HeadBlocks(s)).Keys <= {"name", "runtime"}
  {
    var first, second := Scalar("name", " " + s.name), RuntimeBlock(s.runtime);
    TextValue("name", s.name);
    RuntimeValue(s.runtime);
    assert "runtime"[0] != "name"[0];
    TwoBlocks(first, Text(s.name), second, RuntimeMeaning(s.runtime));
  }

  lemma QuotedStage(front: seq<Block>, want: map<string, Value>, key: string, text: string)
    requires key !in Collected(front) && key !in want
    ensures Collected(front + QuotedBlock(key, text)) == WithText(want, key, text)
            <==> Collected(front) == want && NoSeparator(text)
    ensures Collected(front + QuotedBlock(key, text)).Keys <= Collected(front).Keys + {key}
  {
    if text == "" {
      assert front + [] == front;
    } else {
      QuotedValue(key, text);
      CollectedSnoc(front, want, Scalar(key, " " + Quote(text)), Text(text));
    }
  }

  lemma BackendStage(front: seq<Block>, want: map<string, Value>, url: string)
    requires "backend" !in Collected(front) && "backend" !in want
    ensures Collected(front + BackendBlock(url)) == WithUrl(want, url)
            <==> Collected(front) == want && (url == "" || Plain(url))
  {
    if url == "" {
      assert front + [] == front;
    } else {
      FieldValue("backend", "  ", "url", url);
      CollectedSnoc(front, want, BackendBlock(url)[0], Object(map["url" := url]));
    }
  }

  predicate Fresh(blocks: seq<Block>, want: map<string, Value>, key: string) {
    key !in Collected(blocks) && key !in want
  }

  lemma StaysFresh(head: seq<Block>, want: map<string, Value>, key: string, text: string, other: string)
    requires Fresh(head, want, key) && Fresh(head, want, other) && other != key
    ensures Fresh(head + QuotedBlock(key, text), WithText(want, key, text), other)
  {
    QuotedStage(head, want, key, text);
  }

  lemma HeadIsFresh(s: Settings, key: string)
    requires key != "name" && key != "runtime" && (s.runtime.WithOptions? ==> s.runtime.options == [])
    ensures Fresh(HeadBlocks(s), HeadMeaning(s), key)
  {
    HeadReads(s);
  }

  lemma CollectedIff(s: Settings)
    requires s.runtime.WithOptions? ==> s.runtime.options == []
    ensures Collected(Blocks(s)) == Meaning(s) <==> Clean(s)
  {
    HeadReads(s);
    HeadIsFresh(s, "main");
    HeadIsFresh(s, "description");
    HeadIsFresh(s, "backend");
    AllStages(HeadBlocks(s), HeadMeaning(s), "main", s.main, "description", s.description, "backend", s.url);
  }

  lemma AllStages(head: seq<Block>, want: map<string, Value>,
                  a: string, x: string, b: string, y: string, c: string, url: string)
    requires Fresh(head, want, a) && Fresh(head, want, b) && Fresh(head, want, c)
    requires a != b && a != c && b != c && c == "backend"
    ensures Collected(head + QuotedBlock(a, x) + QuotedBlock(b, y) + BackendBlock(url))
            == WithUrl(WithText(WithText(want, a, x), b, y), url)
            <==> Collected(head) == want && NoSeparator(x) && NoSeparator(y) && (url == "" || Plain(url))
  {
    QuotedStage(head, want, a, x);
    StaysFresh(head, want, a, x, b);
    StaysFresh(head, want, a, x, c);
    LastStages(head + QuotedBlock(a, x), WithText(want, a, x), b, y, c, url);
  }

  lemma LastStages(head: seq<Block>, want: map<string, Value>, b: string, y: string, c: string, url: string)
    requires Fresh(head, want, b) && Fresh(head, want, c) && b != c && c == "backend"
    ensures Collected(head + QuotedBlock(b, y) + BackendBlock(url)) == WithUrl(WithText(want, b, y), url)
            <==> Collected(head) == want && NoSeparator(y) && (url == "" || Plain(url))
  {
    QuotedStage(head, want, b, y);
    StaysFresh(head, want, b, y, c);
    BackendStage(head + QuotedBlock(b, y), WithText(want, b, y), url);
  }

  lemma MeaningHasName(s: Settings)
    ensures Named(Meaning(s)) == Some(Meaning(s))
  {
    var head := HeadMeaning(s);
    assert "name" in head && head["name"] == Text(s.name) by {
      assert "name"[0] != "runtime"[0];
    }
    KeepsName(head, "main", s.main);
    KeepsName(WithText(head, "main", s.main), "description", s.description);
  }

  lemma KeepsName(out: map<string, Value>, key: string, text: string)
    requires Named(out) == Some(out)
    ensures Named(WithText(out, key, text)) == Some(WithText(out, key, text))
  {
  }

  /** Settings on one line each come back if and only if they are clean. */
  lemma OneLineSettingsReadBack(s: Settings)
    requires OneLine(s) && (s.runtime.WithOptions? ==> s.runtime.options == [])
    ensures ReadText(Print(s)) == Some(Meaning(s)) <==> Clean(s)
  {
    ReadBack(s);
    CollectedIff(s);
    MeaningHasName(s);
    var out, want := Collected(Blocks(s)), Meaning(s);
    assert Named(out) == Some(out) || Named(out) == None;
  }

  // ----- Runtime options do not come back -----

  predicate Holds(blocks: seq<Block>, key: string, v: Value) {
    key in Collected(blocks) && Collected(blocks)[key] == v
  }

  lemma HoldsLater(front: seq<Block>, more: seq<Block>, key: string, v: Value)
    requires Holds(front, key, v)
    requires more == [] || (|more| == 1 && more[0].key != key)
    ensures Holds(front + more, key, v)
  {
    if more == [] {
      assert front + more == front;
    } else {
      assert more == [more[0]];
      CollectedLast(front, more[0]);
      WithBlockKeeps(Collected(front), more[0], key);
    }
  }

  lemma WithBlockKeeps(out: map<string, Value>, b: Block, key: string)
    requires key in out && key != b.key
    ensures key in WithBlock(out, b) && WithBlock(out, b)[key] == out[key]
  {
  }

  lemma HeadHolds(s: Settings)
    requires Plain(s.name) && s.runtime.WithOptions?
    ensures Holds(HeadBlocks(s), "name", Text(s.name))
    ensures Holds(HeadBlocks(s), "runtime", Object(ItemsValue(RuntimeItems(s.runtime.name, s.runtime.options))))
  {
    var first, second := Scalar("name", " " + s.name), RuntimeBlock(s.runtime);
    TextValue("name", s.name);
    HoldsLast([], first, Text(s.name));
    assert [] + [first] == [first];
    assert "name"[0] != "runtime"[0];
    HoldsLater([first], [second], "name", Text(s.name));
    HoldsLast([first], second, Object(ItemsValue(RuntimeItems(s.runtime.name, s.runtime.options))));
  }

  lemma HoldsLast(front: seq<Block>, b: Block, v: Value)
    requires BlockValue(b) == Some(v)
    ensures Holds(front + [b], b.key, v)
  {
    CollectedLast(front, b);
  }

  lemma BlocksHold(s: Settings, key: string, v: Value)
    requires Holds(HeadBlocks(s), key, v) && key != "main" && key != "description" && key != "backend"
    ensures Holds(Blocks(s), key, v)
  {
    var main, description := QuotedBlock("main", s.main), QuotedBlock("description", s.description);
    HoldsLater(HeadBlocks(s), main, key, v);
    HoldsLater(HeadBlocks(s) + main, description, key, v);
    HoldsLater(HeadBlocks(s) + main + description, BackendBlock(s.url), key, v);
  }

  /** The options are read as further fields of the runtime itself. */
  lemma OptionsAreFlattened(s: Settings)
    requires OneLine(s) && OptionsHaveKeys(s) && Plain(s.name) && s.runtime.WithOptions?
    ensures var read := ReadText(Print(s));
            && read.Some? && "runtime" in read.value
            && read.value["runtime"] == Object(ItemsValue(RuntimeItems(s.runtime.name, s.runtime.options)))
  {
    ReadBack(s);
    HeadHolds(s);
    assert "name"[0] == 'n' && "runtime"[0] == 'r' && "main"[0] == 'm';
    assert "description"[0] == 'd' && "backend"[0] == 'b';
    BlocksHold(s, "name", Text(s.name));
    BlocksHold(s, "runtime", Object(ItemsValue(RuntimeItems(s.runtime.name, s.runtime.options))));
  }

  lemma LastOptionWins(name: string, front: seq<(string, string)>, v: string)
    requires NoSeparator(v)
    ensures var fields := ItemsValue(RuntimeItems(name, front + [("name", Quote(v))]));
            "name" in fields && fields["name"] == v
  {
    var options := front + [("name", Quote(v))];
    var last := Item("    ", "name", " " + Quote(v));
    assert options[..|front|] == front;
    var items := [Item("  ", "name", " " + name)] + ([Item("  ", "options", "")] + OptionItems(front));
    assert RuntimeItems(name, options) == items + [last];
    LastItem(items, last);
    QuotedReads(v);
    WithItemReads(ItemsValue(items), last, v);
  }

  /** The runtime's name as read back. */
  function NameRead(s: Settings): Option<string> {
    match ReadText(Print(s))
    case None => None
    case Some(out) =>
      if "runtime" in out && out["runtime"].Object? && "name" in out["runtime"].fields then
        Some(out["runtime"].fields["name"])
      else None
  }

  /** So an option called "name" takes the place of the runtime's name in what is read. */
  lemma OptionShadowsName(s: Settings, name: string, front: seq<(string, string)>, v: string)
    requires s.runtime == WithOptions(name, front + [("name", Quote(v))])
    requires OneLine(s) && OptionsHaveKeys(s) && Plain(s.name) && NoSeparator(v)
    ensures NameRead(s) == Some(v)
  {
    OptionsAreFlattened(s);
    LastOptionWins(name, front, v);
  }

  /** What the last option called "name" is read as, if there is one whose text has no stray line break. */
  function LastName(options: seq<(string, string)>): Option<string> {
    if options == [] then None
    else
      var n := |options| - 1;
      match LineRaw(" " + options[n].1)
      case Some(raw) => if options[n].0 == "name" then Some(ParseScalar(raw)) else LastName(options[..n])
      case None => LastName(options[..n])
  }

  /** The field "name" after some items: set by the last that has it and is readable. */
  function NameAfter(before: Option<string>, options: seq<(string, string)>): Option<string> {
    if LastName(options).Some? then LastName(options) else before
  }

  function NameIn(fields: map<string, string>): Option<string> {
    if "name" in fields then Some(fields["name"]) else None
  }

  lemma NameStep(fields: map<string, string>, item: Item)
    ensures NameIn(WithItem(fields, item)) ==
            match LineRaw(item.rest)
            case Some(raw) => if item.key == "name" then Some(ParseScalar(raw)) else NameIn(fields)
            case None => NameIn(fields)
  {
  }

  lemma {:induction false} NameAfterOptions(first: seq<Item>, options: seq<(string, string)>)
    ensures NameIn(ItemsValue(first + OptionItems(options))) == NameAfter(NameIn(ItemsValue(first)), options)
  {
    if options == [] {
      assert first + [] == first;
    } else {
      var n := |options| - 1;
      var last := Item("    ", options[n].0, " " + options[n].1);
      NameAfterOptions(first, options[..n]);
      Regroup(first, OptionItems(options[..n]), [last]);
      LastItem(first + OptionItems(options[..n]), last);
      NameStep(ItemsValue(first + OptionItems(options[..n])), last);
    }
  }

  /** What the runtime's own name is read as. */
  function OwnName(name: string): Option<string> {
    match LineRaw(" " + name)
    case Some(raw) => Some(ParseScalar(raw))
    case None => None
  }

  lemma OwnNameFirst(name: string)
    ensures NameIn(ItemsValue([Item("  ", "name", " " + name)])) == OwnName(name)
    ensures NameIn(ItemsValue([Item("  ", "name", " " + name), Item("  ", "options", "")])) == OwnName(name)
  {
    var own, header := Item("  ", "name", " " + name), Item("  ", "options", "");
    assert [] + [own] == [own] && [own] + [header] == [own, header];
    LastItem([], own);
    NameStep(map[], own);
    LastItem([own], header);
    NameStep(ItemsValue([own]), header);
    assert "options" != "name";
  }

  lemma RuntimeItemsShape(own: Item, header: Item, options: seq<Item>)
    ensures [own] + ([header] + options) == [own, header] + options && [own] + [] == [own]
  {
  }

  lemma NameOfRuntime(name: string, options: seq<(string, string)>)
    ensures NameIn(ItemsValue(RuntimeItems(name, options))) == NameAfter(OwnName(name), options)
  {
    var own, header := Item("  ", "name", " " + name), Item("  ", "options", "");
    RuntimeItemsShape(own, header, OptionItems(options));
    OwnNameFirst(name);
    if options != [] {
      NameAfterOptions([own, header], options);
    }
  }

  /**
   The runtime's name survives its options if and only if the last readable option called "name" is read
   as that very name, or there is none and the name is plain or empty.
   */
  lemma RuntimeNameSurvivesIff(s: Settings)
    requires OneLine(s) && OptionsHaveKeys(s) && Plain(s.name) && s.runtime.WithOptions?
    ensures NameRead(s) == Some(s.runtime.name) <==>
            match LastName(s.runtime.options)
            case Some(v) => v == s.runtime.name
            case None => s.runtime.name == "" || Plain(s.runtime.name)
  {
    OptionsAreFlattened(s);
    NameOfRuntime(s.runtime.name, s.runtime.options);
    UnquotedReads(s.runtime.name);
  }

  lemma WithItemReads(fields: map<string, string>, item: Item, v: string)
    requires FieldReads(item.rest, v)
    ensures item.key in WithItem(fields, item) && WithItem(fields, item)[item.key] == v
  {
  }

  lemma LastItem(front: seq<Item>, last: Item)
    ensures ItemsValue(front + [last]) == WithItem(ItemsValue(front), last)
  {
    assert (front + [last])[..|front|] == front;
  }
}
