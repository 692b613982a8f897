/**
 Copied files as texts: what is printed from header entries, a reason, a delete-when text and marked
 regions is parsed into exactly that unit.
 */
module CopiedFile {
  import opened Wrappers
  import opened Seqs
  import opened Strings
  import opened Headers
  import opened HeaderPatterns
  import opened Drift

  /** A header entry without its line. */
  datatype Pin = Pin(mod: string, version: string, path: string, sha: string)

  /** A marked region with the text in it, and the text after it. */
  datatype Block = Block(path: string, body: seq<string>, after: seq<string>)

  datatype Copy = Copy(pins: seq<Pin>, reason: string, deleteWhen: string, before: seq<string>, blocks: seq<Block>)

  // ----- Printing -----

  function PinLine(p: Pin): string {
    "// upstream: " + Entry(p.mod + "@" + p.version, p.path, "sha256=" + p.sha)
  }

  function Entry(pin: string, path: string, hash: string): string {
    pin + " " + path + " " + hash
  }

  function PinLines(pins: seq<Pin>): (lines: seq<string>)
    ensures |lines| == |pins|
  {
    if pins == [] then [] else PinLines(pins[..|pins| - 1]) + [PinLine(pins[|pins| - 1])]
  }

  function Top(c: Copy): seq<string> {
    PinLines(c.pins) + ["// upstream-reason: " + c.reason] + ["// upstream-delete-when: " + c.deleteWhen] + c.before
  }

  function BlockLines(b: Block): seq<string> {
    ["// upstream-begin: " + b.path] + b.body + ["// upstream-end: " + b.path] + b.after
  }

  /** The lines of some blocks below others. */
  function WithBlocks(top: seq<string>, blocks: seq<Block>): seq<string>
    decreases |blocks|
  {
    if blocks == [] then top else WithBlocks(top + BlockLines(blocks[0]), blocks[1..])
  }

  function Print(c: Copy): string {
    Join(WithBlocks(Top(c), c.blocks), "\n")
  }

  // ----- What is printed can be printed -----

  /** A line without a header or marker form, and without a line break. */
  ghost predicate PlainLine(line: string) {
    '\n' !in line && forall form :: !HasForm(line, form)
  }

  ghost predicate PlainLines(lines: seq<string>) {
    forall i :: 0 <= i < |lines| ==> PlainLine(lines[i])
  }

  predicate GoodText(text: string) {
    '\n' !in text && (text == "" || !IsReSpace(text[0]))
  }

  predicate GoodPin(p: Pin) {
    IsToken(p.mod) && GoodVersion(p.version) && IsToken(p.path) && IsHash(p.sha)
  }

  ghost predicate GoodBlock(b: Block) {
    IsToken(b.path) && PlainLines(b.body) && PlainLines(b.after)
  }

  ghost predicate Printable(c: Copy) {
    && (forall i :: 0 <= i < |c.pins| ==> GoodPin(c.pins[i]))
    && GoodText(c.reason) && GoodText(c.deleteWhen) && PlainLines(c.before)
    && forall i :: 0 <= i < |c.blocks| ==> GoodBlock(c.blocks[i])
  }

  // ----- The unit that was printed -----

  function SourcesOf(pins: seq<Pin>): seq<SourceRef> {
    seq(|pins|, i requires 0 <= i < |pins| =>
      SourceRef(pins[i].mod, pins[i].version, pins[i].path, pins[i].sha, i + 1))
  }

  function Height(b: Block): nat {
    |b.body| + |b.after| + 2
  }

  /** The regions of some blocks, the first of which starts below line `n`. */
  function RegionsFrom(n: nat, blocks: seq<Block>): seq<Region>
    decreases |blocks|
  {
    if blocks == [] then []
    else
      var b := blocks[0];
      [Region(b.path, n + 1, n + |b.body| + 2)] + RegionsFrom(n + Height(b), blocks[1..])
  }

  function UnitOf(c: Copy): Unit {
    Unit(SourcesOf(c.pins), RegionsFrom(|c.pins| + 2 + |c.before|, c.blocks), c.reason, c.deleteWhen)
  }

  /** The header says everything and every region belongs to an entry. */
  predicate Complete(c: Copy) {
    && c.pins != [] && c.blocks != [] && c.reason != "" && c.deleteWhen != ""
    && forall i :: 0 <= i < |c.blocks| ==> exists j :: 0 <= j < |c.pins| && c.pins[j].path == c.blocks[i].path
  }

  // ----- The kinds of the printed lines -----

  lemma CommentOf(keyword: string, rest: string)
    ensures Comment("// " + keyword + rest, keyword, rest)
  {
    Regroup("// ", keyword, rest);
    assert "// " == "//" + " ";
    Regroup("//", " ", keyword + rest);
    assert CommentWith("// " + keyword + rest, keyword, rest, " ");
  }

  lemma EntryHasFields(pin: string, path: string, hash: string)
    requires IsToken(pin) && IsToken(path) && IsToken(hash)
    ensures ThreeFields(" " + Entry(pin, path, hash), pin, path, hash)
  {
    var s := " " + Entry(pin, path, hash);
    assert s == " " + (pin + (" " + (path + (" " + (hash + "")))));
    assert FieldsWith(s, pin, path, hash, " ", " ", " ", "");
  }

  lemma PinIsRead(p: Pin)
    requires GoodPin(p)
    ensures Classify(PinLine(p)) == Source(p.mod, p.version, p.path, p.sha)
  {
    var pin, tag := p.mod + "@" + p.version, "sha256=";
    var entry := Entry(pin, p.path, tag + p.sha);
    PinIsToken(p.mod, p.version);
    HashIsToken(tag, p.sha);
    EntryHasFields(pin, p.path, tag + p.sha);
    assert PinLine(p) == "// " + "upstream:" + (" " + entry);
    CommentOf("upstream:", " " + entry);
    EntryClassified(PinLine(p), p.mod, p.version, p.path, p.sha);
  }

  lemma TextIsRead(line: string, keyword: string, text: string)
    requires line == "// " + keyword + (" " + text) && GoodText(text)
    ensures TextLine(line, keyword, text)
  {
    CommentOf(keyword, " " + text);
    assert TextAfter(" ", text);
  }

  lemma ReasonIsRead(text: string)
    requires GoodText(text)
    ensures Classify("// upstream-reason: " + text) == Reason(text)
  {
    assert "// upstream-reason: " + text == "// " + "upstream-reason:" + (" " + text);
    TextIsRead("// upstream-reason: " + text, "upstream-reason:", text);
    ReasonClassified("// upstream-reason: " + text, text);
  }

  lemma DeleteWhenIsRead(text: string)
    requires GoodText(text)
    ensures Classify("// upstream-delete-when: " + text) == DeleteWhen(text)
  {
    assert "// upstream-delete-when: " + text == "// " + "upstream-delete-when:" + (" " + text);
    TextIsRead("// upstream-delete-when: " + text, "upstream-delete-when:", text);
    DeleteWhenClassified("// upstream-delete-when: " + text, text);
  }

  lemma PathIsRead(line: string, keyword: string, path: string)
    requires line == "// " + keyword + (" " + path) && IsToken(path)
    ensures PathLine(line, keyword, path)
  {
    CommentOf(keyword, " " + path);
    assert " " + path == " " + (path + "");
    assert PathWith(" " + path, path, " ", "");
  }

  lemma BeginIsRead(path: string)
    requires IsToken(path)
    ensures Classify("// upstream-begin: " + path) == Begin(path)
  {
    assert "// upstream-begin: " + path == "// " + "upstream-begin:" + (" " + path);
    PathIsRead("// upstream-begin: " + path, "upstream-begin:", path);
    BeginClassified("// upstream-begin: " + path, path);
  }

  lemma EndIsRead(path: string)
    requires IsToken(path)
    ensures Classify("// upstream-end: " + path) == End(path)
  {
    assert "// upstream-end: " + path == "// " + "upstream-end:" + (" " + path);
    PathIsRead("// upstream-end: " + path, "upstream-end:", path);
    EndClassified("// upstream-end: " + path, path);
  }

  // ----- The kinds of whole files -----

  function Texts(n: nat): seq<Line> {
    seq(n, i requires 0 <= i < n => Text)
  }

  function PinKinds(pins: seq<Pin>): (kinds: seq<Line>)
    ensures |kinds| == |pins|
  {
    seq(|pins|, i requires 0 <= i < |pins| => Source(pins[i].mod, pins[i].version, pins[i].path, pins[i].sha))
  }

  function TopKinds(c: Copy): seq<Line> {
    PinKinds(c.pins) + [Reason(c.reason)] + [DeleteWhen(c.deleteWhen)] + Texts(|c.before|)
  }

  function BlockKinds(b: Block): (kinds: seq<Line>)
    ensures |kinds| == Height(b)
  {
    [Begin(b.path)] + Texts(|b.body|) + [End(b.path)] + Texts(|b.after|)
  }

  function AllKinds(top: seq<Line>, blocks: seq<Block>): seq<Line>
    decreases |blocks|
  {
    if blocks == [] then top else AllKinds(top + BlockKinds(blocks[0]), blocks[1..])
  }

  lemma KindsSum(a: seq<string>, b: seq<string>)
    ensures Kinds(a + b) == Kinds(a) + Kinds(b)
  {
  }

  lemma KindOfOne(line: string)
    ensures Kinds([line]) == [Classify(line)]
  {
  }

  lemma KindsOfPlain(lines: seq<string>)
    requires PlainLines(lines)
    ensures Kinds(lines) == Texts(|lines|)
  {
    forall i | 0 <= i < |lines|
      ensures Classify(lines[i]) == Text
    {
      ClassifyIff(lines[i], Text);
    }
  }

  lemma {:induction false} KindsOfPins(pins: seq<Pin>)
    requires forall i :: 0 <= i < |pins| ==> GoodPin(pins[i])
    ensures Kinds(PinLines(pins)) == PinKinds(pins)
  {
    if pins != [] {
      var front, p := pins[..|pins| - 1], pins[|pins| - 1];
      KindsOfPins(front);
      PinIsRead(p);
      KindsSnoc(PinLines(front), PinLine(p));
      PinKindsSnoc(front, p);
      assert pins == front + [p];
    }
  }

  lemma KindsSnoc(lines: seq<string>, line: string)
    ensures Kinds(lines + [line]) == Kinds(lines) + [Classify(line)]
  {
  }

  lemma PinKindsSnoc(pins: seq<Pin>, p: Pin)
    ensures PinKinds(pins + [p]) == PinKinds(pins) + [Source(p.mod, p.version, p.path, p.sha)]
  {
  }

  lemma FourParts(a: seq<string>, b: string, c: string, d: seq<string>)
    ensures Kinds(a + [b] + [c] + d) == Kinds(a) + [Classify(b)] + [Classify(c)] + Kinds(d)
  {
    KindsSum(a + [b] + [c], d);
    KindsSum(a + [b], [c]);
    KindsSum(a, [b]);
    KindOfOne(b);
    KindOfOne(c);
  }

  lemma KindsOfTop(c: Copy)
    requires Printable(c)
    ensures Kinds(Top(c)) == TopKinds(c)
  {
    KindsOfPins(c.pins);
    ReasonIsRead(c.reason);
    DeleteWhenIsRead(c.deleteWhen);
    KindsOfPlain(c.before);
    FourParts(PinLines(c.pins), "// upstream-reason: " + c.reason, "// upstream-delete-when: " + c.deleteWhen,
              c.before);
  }

  lemma BlockParts(a: string, b: seq<string>, c: string, d: seq<string>)
    ensures Kinds([a] + b + [c] + d) == [Classify(a)] + Kinds(b) + [Classify(c)] + Kinds(d)
  {
    KindsSum([a] + b + [c], d);
    KindsSum([a] + b, [c]);
    KindsSum([a], b);
    KindOfOne(a);
    KindOfOne(c);
  }

  lemma KindsOfBlock(b: Block)
    requires GoodBlock(b)
    ensures Kinds(BlockLines(b)) == BlockKinds(b)
  {
    BeginIsRead(b.path);
    EndIsRead(b.path);
    KindsOfPlain(b.body);
    KindsOfPlain(b.after);
    BlockParts("// upstream-begin: " + b.path, b.body, "// upstream-end: " + b.path, b.after);
  }

  lemma {:induction false} KindsOfAll(top: seq<string>, blocks: seq<Block>)
    requires forall i :: 0 <= i < |blocks| ==> GoodBlock(blocks[i])
    ensures Kinds(WithBlocks(top, blocks)) == AllKinds(Kinds(top), blocks)
    decreases |blocks|
  {
    if blocks != [] {
      KindsOfBlock(blocks[0]);
      KindsSum(top, BlockLines(blocks[0]));
      KindsOfAll(top + BlockLines(blocks[0]), blocks[1..]);
    }
  }

  // ----- Scanning them -----

  /** After these lines the scan has got this far. */
  ghost predicate Scanned(kinds: seq<Line>, u: Unit, open: bool) {
    Scan(kinds) == Ok(Progress(u, open))
  }

  lemma ScannedStep(kinds: seq<Line>, l: Line, u: Unit, open: bool)
    requires Scanned(kinds, u, open)
    ensures Scan(kinds + [l]) == Advance(Progress(u, open), |kinds| + 1, l)
  {
    assert (kinds + [l])[..|kinds|] == kinds;
  }

  lemma {:induction false} ScannedTexts(kinds: seq<Line>, n: nat, u: Unit, open: bool)
    requires Scanned(kinds, u, open)
    ensures Scanned(kinds + Texts(n), u, open)
  {
    if n == 0 {
      assert kinds + Texts(0) == kinds;
    } else {
      ScannedTexts(kinds, n - 1, u, open);
      ScannedStep(kinds + Texts(n - 1), Text, u, open);
      TextsSnoc(n - 1);
      Regroup(kinds, Texts(n - 1), [Text]);
    }
  }

  lemma TextsSnoc(n: nat)
    ensures Texts(n + 1) == Texts(n) + [Text]
  {
  }

  lemma {:induction false} ScannedPins(pins: seq<Pin>)
    ensures Scanned(PinKinds(pins), Unit(SourcesOf(pins), [], "", ""), false)
  {
    if pins == [] {
      assert PinKinds([]) == [] && SourcesOf([]) == [];
    } else {
      var front, p := pins[..|pins| - 1], pins[|pins| - 1];
      var l := Source(p.mod, p.version, p.path, p.sha);
      ScannedPins(front);
      ScannedStep(PinKinds(front), l, Unit(SourcesOf(front), [], "", ""), false);
      PinKindsSnoc(front, p);
      assert pins == front + [p];
      assert SourcesOf(pins) == SourcesOf(front) + [SourceRef(p.mod, p.version, p.path, p.sha, |pins|)];
    }
  }

  lemma ScannedTop(c: Copy)
    ensures Scanned(TopKinds(c), Unit(SourcesOf(c.pins), [], c.reason, c.deleteWhen), false)
    ensures |TopKinds(c)| == |c.pins| + 2 + |c.before|
  {
    var u := Unit(SourcesOf(c.pins), [], "", "");
    var kinds := PinKinds(c.pins);
    ScannedPins(c.pins);
    ScannedStep(kinds, Reason(c.reason), u, false);
    ScannedStep(kinds + [Reason(c.reason)], DeleteWhen(c.deleteWhen), u.(reason := c.reason), false);
    ScannedTexts(kinds + [Reason(c.reason)] + [DeleteWhen(c.deleteWhen)], |c.before|,
                 u.(reason := c.reason, deleteWhen := c.deleteWhen), false);
  }

  /** The region of a block below `n` lines. */
  function RegionOf(n: nat, b: Block): Region {
    Region(b.path, n + 1, n + |b.body| + 2)
  }

  lemma ScannedBegin(kinds: seq<Line>, path: string, u: Unit)
    requires Scanned(kinds, u, false)
    ensures Scanned(kinds + [Begin(path)], u.(regions := u.regions + [Region(path, |kinds| + 1, 0)]), true)
  {
    ScannedStep(kinds, Begin(path), u, false);
  }

  lemma ScannedEnd(kinds: seq<Line>, u: Unit, regions: seq<Region>, r: Region)
    requires Scanned(kinds, u, true) && u.regions == regions + [r]
    ensures Scanned(kinds + [End(r.path)], u.(regions := regions + [r.(end := |kinds| + 1)]), false)
  {
    ScannedStep(kinds, End(r.path), u, true);
    assert u.regions[|regions| := r.(end := |kinds| + 1)] == regions + [r.(end := |kinds| + 1)];
  }

  lemma Grouped(a: seq<Line>, b: seq<Line>, c: seq<Line>, d: seq<Line>, e: seq<Line>)
    ensures a + (b + c + d + e) == a + b + c + d + e
  {
  }

  lemma ScannedBlock(kinds: seq<Line>, b: Block, u: Unit)
    requires Scanned(kinds, u, false)
    ensures Scanned(kinds + BlockKinds(b), u.(regions := u.regions + [RegionOf(|kinds|, b)]), false)
  {
    var open := Region(b.path, |kinds| + 1, 0);
    var body, after := Texts(|b.body|), Texts(|b.after|);
    ScannedBegin(kinds, b.path, u);
    ScannedTexts(kinds + [Begin(b.path)], |b.body|, u.(regions := u.regions + [open]), true);
    ScannedEnd(kinds + [Begin(b.path)] + body, u.(regions := u.regions + [open]), u.regions, open);
    ScannedTexts(kinds + [Begin(b.path)] + body + [End(b.path)], |b.after|,
                 u.(regions := u.regions + [RegionOf(|kinds|, b)]), false);
    Grouped(kinds, [Begin(b.path)], body, [End(b.path)], after);
  }

  lemma {:induction false} ScannedBlocks(top: seq<Line>, blocks: seq<Block>, u: Unit)
    requires Scanned(top, u, false)
    ensures Scanned(AllKinds(top, blocks), u.(regions := u.regions + RegionsFrom(|top|, blocks)), false)
    decreases |blocks|
  {
    if blocks == [] {
      assert u.regions + [] == u.regions;
    } else {
      var b := blocks[0];
      var next := top + BlockKinds(b);
      ScannedBlock(top, b, u);
      ScannedBlocks(next, blocks[1..], u.(regions := u.regions + [RegionOf(|top|, b)]));
      Regroup(u.regions, [RegionOf(|top|, b)], RegionsFrom(|next|, blocks[1..]));
    }
  }

  // ----- Line breaks -----

  ghost predicate OneLiners(lines: seq<string>) {
    forall i :: 0 <= i < |lines| ==> '\n' !in lines[i]
  }

  lemma {:induction false} PinsAreOneLiners(pins: seq<Pin>)
    requires forall i :: 0 <= i < |pins| ==> GoodPin(pins[i])
    ensures OneLiners(PinLines(pins))
  {
    if pins != [] {
      PinsAreOneLiners(pins[..|pins| - 1]);
      PinIsOneLiner(pins[|pins| - 1]);
    }
  }

  lemma TokenIsOneLiner(t: string)
    requires IsToken(t)
    ensures '\n' !in t
  {
    assert IsReSpace('\n');
  }

  lemma PinIsOneLiner(p: Pin)
    requires GoodPin(p)
    ensures '\n' !in PinLine(p)
  {
    TokenIsOneLiner(p.mod);
    TokenIsOneLiner(p.version);
    TokenIsOneLiner(p.path);
    assert forall i :: 0 <= i < |p.sha| ==> p.sha[i] != '\n';
  }

  lemma TopIsOneLiners(c: Copy)
    requires Printable(c)
    ensures OneLiners(Top(c)) && Top(c) != []
  {
    PinsAreOneLiners(c.pins);
  }

  lemma {:induction false} BlocksAreOneLiners(top: seq<string>, blocks: seq<Block>)
    requires OneLiners(top) && forall i :: 0 <= i < |blocks| ==> GoodBlock(blocks[i])
    ensures OneLiners(WithBlocks(top, blocks)) && |WithBlocks(top, blocks)| >= |top|
    decreases |blocks|
  {
    if blocks != [] {
      TokenIsOneLiner(blocks[0].path);
      BlocksAreOneLiners(top + BlockLines(blocks[0]), blocks[1..]);
    }
  }

  // ----- The round trip -----

  lemma {:induction false} DeclaredPaths(pins: seq<Pin>, path: string)
    ensures path in Declared(SourcesOf(pins)) <==> exists j :: 0 <= j < |pins| && pins[j].path == path
  {
    var sources := SourcesOf(pins);
    if j :| 0 <= j < |pins| && pins[j].path == path {
      assert sources[j].path == path;
    }
  }

  lemma {:induction false} RegionPaths(n: nat, blocks: seq<Block>)
    ensures |RegionsFrom(n, blocks)| == |blocks|
    ensures forall i :: 0 <= i < |blocks| ==> RegionsFrom(n, blocks)[i].path == blocks[i].path
    decreases |blocks|
  {
    if blocks != [] {
      RegionPaths(n + Height(blocks[0]), blocks[1..]);
    }
  }

  lemma CompletedIff(c: Copy)
    ensures Completed(Progress(UnitOf(c), false)) == Ok(UnitOf(c)) <==> Complete(c)
    ensures Completed(Progress(UnitOf(c), false)).Ok? ==> Complete(c)
  {
    var u := UnitOf(c);
    RegionPaths(|c.pins| + 2 + |c.before|, c.blocks);
    FirstUndeclaredNone(u.regions, Declared(u.sources));
    forall i | 0 <= i < |c.blocks|
      ensures u.regions[i].path in Declared(u.sources) <==>
              exists j :: 0 <= j < |c.pins| && c.pins[j].path == c.blocks[i].path
    {
      DeclaredPaths(c.pins, c.blocks[i].path);
    }
  }

  /**
   A copied file printed from its entries, texts and regions, with any other text between and behind
   them, is accepted if and only if the header is complete and declares every region; and it is parsed
   into exactly the unit it was printed from, every entry and region with its lines.
   */
  lemma PrintedIsParsed(c: Copy)
    requires Printable(c)
    ensures Parsed(Kinds(Split(Print(c), '\n'))).Ok? <==> Complete(c)
    ensures Complete(c) ==> Parsed(Kinds(Split(Print(c), '\n'))) == Ok(UnitOf(c))
  {
    var lines := WithBlocks(Top(c), c.blocks);
    TopIsOneLiners(c);
    BlocksAreOneLiners(Top(c), c.blocks);
    SplitJoin(lines, '\n');
    assert ['\n'] == "\n";
    KindsOfTop(c);
    KindsOfAll(Top(c), c.blocks);
    ScannedCopy(c);
    CompletedIff(c);
  }

  lemma ScannedCopy(c: Copy)
    ensures Scanned(AllKinds(TopKinds(c), c.blocks), UnitOf(c), false)
  {
    var u := Unit(SourcesOf(c.pins), [], c.reason, c.deleteWhen);
    ScannedTop(c);
    ScannedBlocks(TopKinds(c), c.blocks, u);
    assert u.regions + RegionsFrom(|TopKinds(c)|, c.blocks) == RegionsFrom(|TopKinds(c)|, c.blocks);
  }
}
