// The world article editor's text handling (js/world-article/script.js):
// the main-content markdown parser (`_parseMarkdown`, a `while` loop over an
// explicit cursor), the anchor-list line parser of
// `handleParseAnchorMarkdown`, and `_getFullBlockInfo`.

module WorldArticle {
  import opened Wrappers
  import opened JsString
  import CommonLayouts
  import Selection

  datatype Block = Block(kind: string, content: map<string, string>)

  /** All blocks of a finished parse, or the cursor at which the loop stops
    * moving and the blocks pushed before it. */
  datatype Outcome = Parsed(blocks: seq<Block>) | Diverges(at: nat, emitted: seq<Block>)

  /** One turn of the loop: the blocks it pushes and the new cursor. */
  datatype StepResult = StepResult(emitted: seq<Block>, next: nat)

  const FallbackImage: string :=
    "https://system16.webtech.com.tw/web/202500107/archive/image/article1/images/about-pic-1.jpg"

  const ImageExts: seq<string> := ["jpg", "jpeg", "png", "webp"]
  const LinkImageExts: seq<string> := ["jpg", "jpeg", "png", "webp", "gif"]

  // ---------------------------------------------------------------------
  // Line predicates standing for the source's regular expressions

  /** `/^[\*\-]\s/` */
  predicate IsBullet(line: string)
  {
    |line| >= 2 && (line[0] == '*' || line[0] == '-') && IsSpace(line[1])
  }

  /** The length of the prefix matched by `/^\d+\\?\. /`, or 0. */
  function OrdinalPrefix(line: string): (n: nat)
    ensures n <= |line|
    ensures n > 0 ==> n >= 3 && IsDigit(line[0]) && line[n - 2..n] == ". "
  {
    var d := DigitsEnd(line, 0);
    if d == 0 then 0
    else if OccursAt(line, "\\. ", d) then d + 3
    else if OccursAt(line, ". ", d) then d + 2
    else 0
  }

  /** `/^(---|___|\*\*\*)$/` */
  predicate IsRule(line: string)
  {
    line == "---" || line == "___" || line == "***"
  }

  /** `/^\|.*\|$/` */
  predicate IsTableLine(line: string)
  {
    |line| >= 2 && line[0] == '|' && line[|line| - 1] == '|'
  }

  function LastIndexOfChar(s: string, c: char): (r: int)
    ensures r == -1 || (0 <= r < |s| && s[r] == c)
    ensures forall k :: r < k < |s| ==> s[k] != c
  {
    if s == [] then -1
    else if s[|s| - 1] == c then |s| - 1
    else LastIndexOfChar(s[..|s| - 1], c)
  }

  /** The largest `j` in `[p, hi]` where `](` occurs with a `)` at or after
    * `j + 2` (the last `)` of the line is at `last`), or -1. */
  function GreedyClose(s: string, p: nat, hi: int, last: int): (j: int)
    ensures j == -1 || (p <= j <= hi && OccursAt(s, "](", j) && last >= j + 2)
    ensures forall k :: p <= k <= hi && (j == -1 || j < k) ==> !(OccursAt(s, "](", k) && last >= k + 2)
    decreases hi - p + 1
  {
    if hi < p then -1
    else if OccursAt(s, "](", hi) && last >= hi + 2 then hi
    else GreedyClose(s, p, hi - 1, last)
  }

  /** The groups of `(.*)\\?\]\((.*)\)` matched from position `p`.  Both
    * groups are greedy: the first ends at the last `](` that still has a `)`
    * after it, the second at the last `)` of the line.  The optional
    * backslash before `]` never ends up outside the first group: wherever it
    * could match, the greedy first group already succeeds one character
    * further on. */
  function GreedyGroups(s: string, p: nat): (r: Option<(string, string)>)
    ensures r.Some? <==> exists j :: p <= j && OccursAt(s, "](", j) && j + 2 <= LastIndexOfChar(s, ')')
    ensures r.Some? ==>
      var last := LastIndexOfChar(s, ')');
      var j := p + |r.value.0|;
      && j + 2 <= last && OccursAt(s, "](", j)
      && r.value.0 == s[p..j] && r.value.1 == s[j + 2..last]
      && (forall k :: j < k && k + 2 <= last ==> !OccursAt(s, "](", k))
      && s[last] == ')' && (forall k :: last < k < |s| ==> s[k] != ')')
  {
    var last := LastIndexOfChar(s, ')');
    var j := GreedyClose(s, p, |s| - 2, last);
    if j < 0 || p > |s| then None
    else Some((s[p..j], s[j + 2..last]))
  }

  /** `line.match(/^!\\?\[(.*)\\?\]\((.*)\)/)` gives (alt group, url group). */
  function ImageMatch(line: string): Option<(string, string)>
  {
    if StartsWith(line, "!\\[") then GreedyGroups(line, 3)
    else if StartsWith(line, "![") then GreedyGroups(line, 2)
    else None
  }

  /** `line.match(/^\\?\[(.*)\\?\]\((.*)\)/)` gives (text group, href group). */
  function LinkMatch(line: string): Option<(string, string)>
  {
    if StartsWith(line, "\\[") then GreedyGroups(line, 2)
    else if StartsWith(line, "[") then GreedyGroups(line, 1)
    else None
  }

  /** `s.replace(/\\/g, '')` */
  function RemoveBackslashes(s: string): (r: string)
    ensures forall k :: 0 <= k < |r| ==> r[k] != '\\'
  {
    if s == [] then []
    else if s[0] == '\\' then RemoveBackslashes(s[1..])
    else [s[0]] + RemoveBackslashes(s[1..])
  }

  /** Alt and link text: bold markers, then backslashes removed. */
  function CleanLabel(s: string): string
  {
    RemoveBackslashes(RemoveBold(s))
  }

  function ImageBlock(m: (string, string)): Block
  {
    var url := Trim(m.1);
    Block("IMAGE", map["ALT" := CleanLabel(m.0),
                       "URL" := if EndsWithExt(url, ImageExts) then url else FallbackImage])
  }

  function LinkBlock(m: (string, string)): Block
  {
    var text := CleanLabel(m.0);
    var href := Trim(m.1);
    var isImage := EndsWithExt(href, LinkImageExts) || EndsWithExt(text, LinkImageExts)
                   || Contains(href, "drive.google.com");
    if isImage then
      Block("IMAGE", map["ALT" := text, "URL" := if EndsWithExt(href, LinkImageExts) then href else FallbackImage])
    else
      Block("A", map["TEXT" := text, "HREF" := href])
  }

  /** A heading: the line minus its marker, trimmed, bold markers removed. */
  function Heading(kind: string, line: string, n: nat): Block
  {
    Block(kind, map["TEXT" := RemoveBold(Trim(Substring(line, n, |line|)))])
  }

  // ---------------------------------------------------------------------
  // Runs of lines captured by the list and table branches

  function BulletRunEnd(lines: seq<string>, k: nat): (e: nat)
    requires k <= |lines|
    ensures k <= e <= |lines|
    ensures forall j :: k <= j < e ==> IsBullet(lines[j])
    ensures e == |lines| || !IsBullet(lines[e])
    decreases |lines| - k
  {
    if k < |lines| && IsBullet(lines[k]) then BulletRunEnd(lines, k + 1) else k
  }

  function OrdinalRunEnd(lines: seq<string>, k: nat): (e: nat)
    requires k <= |lines|
    ensures k <= e <= |lines|
    ensures forall j :: k <= j < e ==> OrdinalPrefix(lines[j]) > 0
    ensures e == |lines| || OrdinalPrefix(lines[e]) == 0
    decreases |lines| - k
  {
    if k < |lines| && OrdinalPrefix(lines[k]) > 0 then OrdinalRunEnd(lines, k + 1) else k
  }

  function TableRunEnd(lines: seq<string>, k: nat): (e: nat)
    requires k <= |lines|
    ensures k <= e <= |lines|
    ensures forall j :: k <= j < e ==> IsTableLine(lines[j])
    ensures e == |lines| || !IsTableLine(lines[e])
    decreases |lines| - k
  {
    if k < |lines| && IsTableLine(lines[k]) then TableRunEnd(lines, k + 1) else k
  }

  /** UL items: marker and following space removed, then bold markers. */
  function BulletItems(lines: seq<string>, a: nat, b: nat): (items: seq<string>)
    requires a <= b <= |lines|
    ensures |items| == b - a
  {
    seq(b - a, k requires 0 <= k < b - a => RemoveBold(Substring(lines[a + k], 2, |lines[a + k]|)))
  }

  function OrdinalItems(lines: seq<string>, a: nat, b: nat): (items: seq<string>)
    requires a <= b <= |lines|
    ensures |items| == b - a
  {
    seq(b - a, k requires 0 <= k < b - a =>
      var t := lines[a + k]; RemoveBold(t[OrdinalPrefix(t)..]))
  }

  // ---------------------------------------------------------------------
  // One turn of the loop, and the whole parse

  /** The QA rule's guard: a `# ` line followed by a rule line. */
  predicate QaAt(lines: seq<string>, i: nat)
    requires i < |lines|
  {
    StartsWith(lines[i], "# ") && i + 1 < |lines| && IsRule(lines[i + 1])
  }

  /** The rules after the list rules, in source order. */
  function StepInline(lines: seq<string>, i: nat): (r: StepResult)
    requires i < |lines|
    ensures i <= r.next <= |lines|
  {
    var line := lines[i];
    if ImageMatch(line).Some? then StepResult([ImageBlock(ImageMatch(line).value)], i + 1)
    else if LinkMatch(line).Some? then StepResult([LinkBlock(LinkMatch(line).value)], i + 1)
    else if IsRule(line) then StepResult([Block("HR", map[])], i + 1)
    else if IsTableLine(line) then
      var e := TableRunEnd(lines, i);
      StepResult([Block("TABLE", map["MARKDOWN" := Join(lines[i..e], "\n")])], e)
    else if QaAt(lines, i) then
      // The capture loop's guard demands `lineIndex > i`, false on entry, so
      // nothing is captured and the cursor is set back to `i`.
      StepResult([Block("QA_BLOCK", map["MARKDOWN" := Join(lines[i..i], "\n")])], i)
    else if line != [] then
      StepResult([Block("P", map["TEXT" := FixEscapedOrdinal(RemoveBold(line))])], i + 1)
    else StepResult([], i + 1)
  }

  function Step(lines: seq<string>, i: nat): (r: StepResult)
    requires i < |lines|
    ensures i <= r.next <= |lines|
  {
    var line := lines[i];
    if StartsWith(line, "//") then StepResult([], i + 1)
    else if StartsWith(line, "## ") then StepResult([Heading("H2", line, 3)], i + 1)
    else if StartsWith(line, "### ") then StepResult([Heading("H3", line, 4)], i + 1)
    else if StartsWith(line, "#### ") then StepResult([Heading("H4", line, 5)], i + 1)
    else if IsBullet(line) then
      var e := BulletRunEnd(lines, i);
      StepResult([Block("UL", map["LIST_ITEMS" := Join(BulletItems(lines, i, e), "\n")])], e)
    else if OrdinalPrefix(line) > 0 then
      var e := OrdinalRunEnd(lines, i);
      StepResult([Block("OL", map["LIST_ITEMS" := Join(OrdinalItems(lines, i, e), "\n")])], e)
    else StepInline(lines, i)
  }

  function Prepend(bs: seq<Block>, o: Outcome): Outcome
  {
    match o
    case Parsed(rest) => Parsed(bs + rest)
    case Diverges(at, rest) => Diverges(at, bs + rest)
  }

  lemma PrependAssoc(a: seq<Block>, b: seq<Block>, o: Outcome)
    ensures Prepend(a, Prepend(b, o)) == Prepend(a + b, o)
  {
    match o
    case Parsed(rest) => assert a + (b + rest) == (a + b) + rest;
    case Diverges(at, rest) => assert a + (b + rest) == (a + b) + rest;
  }

  /** The loop from cursor `i` on.  It diverges only at a cursor from
    * there on where a turn leaves the cursor where it was. */
  function ParseFrom(lines: seq<string>, i: nat): (o: Outcome)
    requires i <= |lines|
    ensures o.Diverges? ==> i <= o.at < |lines| && Step(lines, o.at).next == o.at
    decreases |lines| - i
  {
    if i == |lines| then Parsed([])
    else
      var st := Step(lines, i);
      if st.next == i then Diverges(i, st.emitted)
      else Prepend(st.emitted, ParseFrom(lines, st.next))
  }

  /** The input's lines, each trimmed.  The source trims a line wherever it
    * reads one; trimming them all up front reads the same. */
  function Lines(markdown: string): (lines: seq<string>)
    ensures |lines| == |Split(markdown, '\n')|
    ensures forall k :: 0 <= k < |lines| ==> lines[k] == Trim(Split(markdown, '\n')[k])
  {
    var parts := Split(markdown, '\n');
    seq(|parts|, k requires 0 <= k < |parts| => Trim(parts[k]))
  }

  /** The blocks of `_parseMarkdown(markdown)`. */
  function Parse(markdown: string): Outcome
  {
    ParseFrom(Lines(markdown), 0)
  }

  /** `_parseMarkdown(markdown)`: the source's `while` loop. */
  method ParseMarkdown(markdown: string) returns (out: Outcome)
    ensures out == Parse(markdown)
  {
    out := ParseLines(Lines(markdown));
  }

  /** The loop itself, over the trimmed lines. */
  method ParseLines(lines: seq<string>) returns (out: Outcome)
    ensures out == ParseFrom(lines, 0)
  {
    var blocks: seq<Block> := [];
    var i: nat := 0;
    while i < |lines|
      invariant i <= |lines|
      invariant Prepend(blocks, ParseFrom(lines, i)) == ParseFrom(lines, 0)
      decreases |lines| - i
    {
      var emitted, next := ParseLine(lines, i);
      if next == i {
        // The QA branch sets the cursor back to where it was.
        return Prepend(blocks, Diverges(i, emitted));
      }
      assert ParseFrom(lines, i) == Prepend(emitted, ParseFrom(lines, next));
      PrependAssoc(blocks, emitted, ParseFrom(lines, next));
      blocks := blocks + emitted;
      i := next;
    }
    assert blocks + [] == blocks;
    out := Parsed(blocks);
  }

  /** One turn of the loop at cursor `i`. */
  method ParseLine(lines: seq<string>, i: nat) returns (emitted: seq<Block>, next: nat)
    requires i < |lines|
    ensures Step(lines, i) == StepResult(emitted, next)
  {
    var line := lines[i];
    next := i + 1;
    if StartsWith(line, "//") {
      emitted := [];
    } else if StartsWith(line, "## ") {
      emitted := [Block("H2", map["TEXT" := RemoveBold(Trim(Substring(line, 3, |line|)))])];
    } else if StartsWith(line, "### ") {
      emitted := [Block("H3", map["TEXT" := RemoveBold(Trim(Substring(line, 4, |line|)))])];
    } else if StartsWith(line, "#### ") {
      emitted := [Block("H4", map["TEXT" := RemoveBold(Trim(Substring(line, 5, |line|)))])];
    } else if IsBullet(line) {
      var items;
      items, next := CaptureBullets(lines, i);
      emitted := [Block("UL", map["LIST_ITEMS" := Join(items, "\n")])];
    } else if OrdinalPrefix(line) > 0 {
      var items;
      items, next := CaptureOrdinals(lines, i);
      emitted := [Block("OL", map["LIST_ITEMS" := Join(items, "\n")])];
    } else {
      emitted, next := ParseInline(lines, i);
    }
  }

  method ParseInline(lines: seq<string>, i: nat) returns (emitted: seq<Block>, next: nat)
    requires i < |lines|
    ensures StepInline(lines, i) == StepResult(emitted, next)
  {
    var line := lines[i];
    next := i + 1;
    var image := ImageMatch(line);
    var link := LinkMatch(line);
    if image.Some? {
      emitted := [ImageBlock(image.value)];
    } else if link.Some? {
      emitted := [LinkBlock(link.value)];
    } else if IsRule(line) {
      emitted := [Block("HR", map[])];
    } else if IsTableLine(line) {
      var tableLines;
      tableLines, next := CaptureTable(lines, i);
      emitted := [Block("TABLE", map["MARKDOWN" := Join(tableLines, "\n")])];
    } else if StartsWith(line, "# ") && i + 1 < |lines| && IsRule(lines[i + 1]) {
      // The capture loop requires `lineIndex > i` and so never runs.
      var lineIndex := i;
      emitted := [Block("QA_BLOCK", map["MARKDOWN" := Join(lines[i..lineIndex], "\n")])];
      next := lineIndex;
    } else if line != [] {
      emitted := [Block("P", map["TEXT" := FixEscapedOrdinal(RemoveBold(line))])];
    } else {
      emitted := [];
    }
  }

  method CaptureBullets(lines: seq<string>, i: nat) returns (items: seq<string>, next: nat)
    requires i <= |lines|
    ensures next == BulletRunEnd(lines, i)
    ensures items == BulletItems(lines, i, next)
  {
    next := i;
    items := [];
    while next < |lines| && IsBullet(lines[next])
      invariant i <= next <= |lines|
      invariant BulletRunEnd(lines, next) == BulletRunEnd(lines, i)
      invariant items == BulletItems(lines, i, next)
      decreases |lines| - next
    {
      var t := lines[next];
      items := items + [RemoveBold(Substring(t, 2, |t|))];
      next := next + 1;
    }
  }

  method CaptureOrdinals(lines: seq<string>, i: nat) returns (items: seq<string>, next: nat)
    requires i <= |lines|
    ensures next == OrdinalRunEnd(lines, i)
    ensures items == OrdinalItems(lines, i, next)
  {
    next := i;
    items := [];
    while next < |lines| && OrdinalPrefix(lines[next]) > 0
      invariant i <= next <= |lines|
      invariant OrdinalRunEnd(lines, next) == OrdinalRunEnd(lines, i)
      invariant items == OrdinalItems(lines, i, next)
      decreases |lines| - next
    {
      var t := lines[next];
      items := items + [RemoveBold(t[OrdinalPrefix(t)..])];
      next := next + 1;
    }
  }

  method CaptureTable(lines: seq<string>, i: nat) returns (tableLines: seq<string>, next: nat)
    requires i <= |lines|
    ensures next == TableRunEnd(lines, i)
    ensures tableLines == lines[i..next]
  {
    next := i;
    tableLines := [];
    while next < |lines| && IsTableLine(lines[next])
      invariant i <= next <= |lines|
      invariant TableRunEnd(lines, next) == TableRunEnd(lines, i)
      invariant tableLines == lines[i..next]
      decreases |lines| - next
    {
      tableLines := tableLines + [lines[next]];
      next := next + 1;
    }
  }

  // ---------------------------------------------------------------------
  // The anchor-list input of `handleParseAnchorMarkdown`

  /** The trimmed lines that are neither blank nor `//` comments. */
  function AnchorLines(markdown: string): seq<string>
  {
    KeepContentLines(Split(markdown, '\n'))
  }

  /** A trimmed line that is neither empty nor a `//` comment. */
  predicate IsContentLine(t: string) { t != [] && !StartsWith(t, "//") }

  /** `lines.map(l => l.trim()).filter(l => l && !l.startsWith('//'))` */
  function KeepContentLines(lines: seq<string>): (r: seq<string>)
    ensures forall k :: 0 <= k < |r| ==> r[k] != [] && !StartsWith(r[k], "//")
    ensures Selection.Selects(r, Selection.Map(lines, Trim), IsContentLine)
  {
    if lines == [] then []
    else
      var t := Trim(lines[0]);
      var rest := KeepContentLines(lines[1..]);
      Selection.MapCons(lines[0], lines[1..], Trim);
      assert lines == [lines[0]] + lines[1..];
      Selection.SelectsCons(t, Selection.Map(lines[1..], Trim), IsContentLine, rest);
      if IsContentLine(t) then [t] + rest else rest
  }

  /** `/^\[(.*?)\]\((.*?)\)/`: text up to the first `](`, href up to the
    * first `)` after it. */
  function LinkPrefix(s: string): (r: Option<(string, string)>)
    ensures r.Some? ==> StartsWith(s, "[" + r.value.0 + "](" + r.value.1 + ")")
    ensures r.Some? ==> forall k :: 1 <= k < 1 + |r.value.0| ==> !OccursAt(s, "](", k)
    ensures r.Some? ==> forall k :: 0 <= k < |r.value.1| ==> r.value.1[k] != ')'
  {
    if !StartsWith(s, "[") then None
    else
      var j := IndexOf(s, "](", 1);
      if j < 0 then None
      else
        var k := IndexOfChar(s, ')', j + 2);
        if k < 0 then None
        else
          LinkShape(s, "[", j, k);
          Some((s[1..j], s[j + 2..k]))
  }

  /** The start of the leftmost digit run followed by `.`, from `a` on. */
  function FirstNumberDot(s: string, a: nat): (r: int)
    ensures r == -1 || (a <= r < |s| && IsDigit(s[r]) && DigitsEnd(s, r) < |s| && s[DigitsEnd(s, r)] == '.')
    decreases |s| - a
  {
    if a >= |s| then -1
    else if IsDigit(s[a]) && DigitsEnd(s, a) < |s| && s[DigitsEnd(s, a)] == '.' then a
    else FirstNumberDot(s, a + 1)
  }

  /** `line.replace(/^[\*\-]|\d+\.\s*\/, '')`: the first match of either a
    * leading `*`/`-` or, anywhere, a number, a dot and any white space. */
  function RemoveListMarker(line: string): string
  {
    if line != [] && (line[0] == '*' || line[0] == '-') then line[1..]
    else
      var a := FirstNumberDot(line, 0);
      if a < 0 then line
      else line[..a] + line[SpaceEnd(line, DigitsEnd(line, a) + 1)..]
  }

  function AnchorItem(text: string, href: string): Block
  {
    Block("ANCHOR_ITEM", map["TEXT" := text, "HREF" := href])
  }

  /** One anchor line: a `[text](href)` link, or `text,href` after an
    * optional list marker; anything else is dropped. */
  function ParseAnchorLine(line: string): Option<Block>
  {
    var m := LinkPrefix(line);
    if m.Some? then Some(AnchorItem(m.value.0, m.value.1))
    else
      CommaItem(Trim(RemoveListMarker(line)))
  }

  /** The `text,href` form of a cleaned anchor line: the part after the
    * last comma, with `\#` unescaped, is the href; the rest is the text. */
  function CommaItem(cleaned: string): Option<Block>
  {
    var parts := Split(cleaned, ',');
    if |parts| >= 2 then
      var href := ReplaceAll(Trim(parts[|parts| - 1]), "\\#", "#");
      var text := Trim(Join(parts[..|parts| - 1], ","));
      if text != [] && href != [] then Some(AnchorItem(text, href)) else None
    else None
  }

  /** The anchor parser's `.map(...).filter(Boolean)` chain. */
  function ParseAnchors(markdown: string): (r: seq<Block>)
    ensures forall k :: 0 <= k < |r| ==> r[k].kind == "ANCHOR_ITEM"
    ensures Selection.SelectsValues(r, Selection.Map(AnchorLines(markdown), ParseAnchorLine))
  {
    KeepParsed(AnchorLines(markdown))
  }

  /** The items of the lines that parse, in line order. */
  function KeepParsed(lines: seq<string>): (r: seq<Block>)
    ensures |r| <= |lines|
    ensures forall k :: 0 <= k < |r| ==> r[k].kind == "ANCHOR_ITEM"
    ensures Selection.SelectsValues(r, Selection.Map(lines, ParseAnchorLine))
  {
    if lines == [] then []
    else
      var b := ParseAnchorLine(lines[0]);
      var rest := KeepParsed(lines[1..]);
      Selection.MapCons(lines[0], lines[1..], ParseAnchorLine);
      assert lines == [lines[0]] + lines[1..];
      Selection.SelectsValuesCons(b, Selection.Map(lines[1..], ParseAnchorLine), rest);
      (if b.Some? then [b.value] else []) + rest
  }

  /** The section a block belongs to ends at the next section opener. */
  function SectionEnd(blocks: seq<Block>, k: nat): (e: nat)
    requires k <= |blocks|
    ensures k <= e <= |blocks|
    ensures forall j :: k <= j < e ==> blocks[j].kind !in CommonLayouts.SectionOpeners
    ensures e == |blocks| || blocks[e].kind in CommonLayouts.SectionOpeners
    decreases |blocks| - k
  {
    if k < |blocks| && blocks[k].kind !in CommonLayouts.SectionOpeners then SectionEnd(blocks, k + 1) else k
  }

  function FirstOfKind(blocks: seq<Block>, kind: string, k: nat): (r: int)
    ensures r == -1 || (k <= r < |blocks| && blocks[r].kind == kind)
    ensures forall j :: k <= j < |blocks| && (r == -1 || j < r) ==> blocks[j].kind != kind
    decreases |blocks| - k
  {
    if k >= |blocks| then -1
    else if blocks[k].kind == kind then k
    else FirstOfKind(blocks, kind, k + 1)
  }

  predicate NotAnchorItem(b: Block) { b.kind != "ANCHOR_ITEM" }

  /** `blocks.filter(b => b.type !== 'ANCHOR_ITEM')`: the other blocks stay,
    * in order. */
  function DropAnchorItems(bs: seq<Block>): (r: seq<Block>)
    ensures forall k :: 0 <= k < |r| ==> r[k].kind != "ANCHOR_ITEM"
    ensures Selection.Selects(r, bs, NotAnchorItem)
  {
    if bs == [] then []
    else
      var rest := DropAnchorItems(bs[1..]);
      Selection.SelectsCons(bs[0], bs[1..], NotAnchorItem, rest);
      assert bs == [bs[0]] + bs[1..];
      (if bs[0].kind == "ANCHOR_ITEM" then [] else [bs[0]]) + rest
  }

  /** The effect of `handleParseAnchorMarkdown` on the editor's block list
    * (each block its type and field values, in document order): a blank
    * input, an input with no usable line, or a list without an ANCHOR_LIST
    * section changes nothing; otherwise the section's ANCHOR_ITEMs are
    * replaced by the parsed ones, placed right after the ANCHOR_LIST. */
  function ApplyAnchorMarkdown(markdown: string, blocks: seq<Block>): (r: seq<Block>)
    ensures IsBlank(markdown) || ParseAnchors(markdown) == [] ==> r == blocks
  {
    if IsBlank(markdown) then blocks else ReplaceAnchorItems(ParseAnchors(markdown), blocks)
  }

  /** The parsed items replace those of the ANCHOR_LIST section: the
    * blocks up to the first ANCHOR_LIST stay, the parsed items follow it,
    * then the section's other blocks in their order, then the blocks after
    * the section.  With no items or no ANCHOR_LIST nothing changes. */
  function ReplaceAnchorItems(parsed: seq<Block>, blocks: seq<Block>): (r: seq<Block>)
    ensures parsed == [] || FirstOfKind(blocks, "ANCHOR_LIST", 0) < 0 ==> r == blocks
    ensures var a := FirstOfKind(blocks, "ANCHOR_LIST", 0);
      parsed != [] && a >= 0 ==>
        var e := SectionEnd(blocks, a + 1);
        var m := a + 1 + |parsed|;
        && m <= |r| - (|blocks| - e)
        && r[..a + 1] == blocks[..a + 1]
        && r[a + 1..m] == parsed
        && Selection.Selects(r[m..|r| - (|blocks| - e)], blocks[a + 1..e], NotAnchorItem)
        && r[|r| - (|blocks| - e)..] == blocks[e..]
  {
    if parsed == [] then blocks
    else
      var a := FirstOfKind(blocks, "ANCHOR_LIST", 0);
      if a < 0 then blocks
      else
        var e := SectionEnd(blocks, a + 1);
        SpliceParts(blocks[..a + 1], parsed, DropAnchorItems(blocks[a + 1..e]), blocks[e..]);
        blocks[..a + 1] + (parsed + DropAnchorItems(blocks[a + 1..e])) + blocks[e..]
  }

  /** Where each part of `pre + (mid + kept) + post` lies. */
  lemma SpliceParts(pre: seq<Block>, mid: seq<Block>, kept: seq<Block>, post: seq<Block>)
    ensures var r := pre + (mid + kept) + post;
      && r[..|pre|] == pre
      && r[|pre|..|pre| + |mid|] == mid
      && r[|pre| + |mid|..|r| - |post|] == kept
      && r[|r| - |post|..] == post
  {
    var r := pre + (mid + kept) + post;
    assert r[|pre| + |mid|..|r| - |post|] == kept;
  }

  // ---------------------------------------------------------------------

  /** `_getFullBlockInfo(blockInfo, layoutDef)`: the block's insertable
    * types are its own entry, else the layout's default entry, and are
    * undefined when the layout declares none. */
  function GetFullBlockInfo(kind: string, insertable: Option<map<string, seq<string>>>): (r: Option<seq<string>>)
    ensures insertable.None? ==> r.None?
    ensures insertable.Some? && kind in insertable.value ==> r == Some(insertable.value[kind])
    ensures insertable.Some? && kind !in insertable.value && "default" in insertable.value ==>
      r == Some(insertable.value["default"])
    ensures insertable.Some? && kind !in insertable.value && "default" !in insertable.value ==> r.None?
  {
    match insertable
    case None => None
    case Some(ib) =>
      if kind in ib then Some(ib[kind])
      else if "default" in ib then Some(ib["default"])
      else None
  }
}
