// The line-based markdown parser of the basic article editor
// (`App._parseMarkdown` in js/basic-article/script.js).  The source is a
// `for` loop over trimmed lines whose cursor some branches move forward and
// back (`i--`).  Here the loop is `ParseMarkdown`, proved against `Parse`,
// which is defined by one `Step` per cursor position.  Where the source's
// cursor never moves again the source loops forever; the model reports that
// input as `Diverges`.

module BasicMarkdown {
  import opened Wrappers
  import opened JsString

  /** A parsed block's content: a plain string or a record of named fields. */
  datatype Content = Text(text: string) | Fields(fields: map<string, string>)

  datatype Block = Block(kind: string, content: Content)

  /** The result of a whole parse: the blocks, or the cursor position at which
    * the source's loop stops making progress and the blocks pushed before. */
  datatype Outcome = Parsed(blocks: seq<Block>) | Diverges(at: nat, emitted: seq<Block>)

  /** What one turn of the loop does: the blocks it pushes and the value of
    * the cursor at the start of the next turn. */
  datatype StepResult = StepResult(emitted: seq<Block>, next: nat)

  const FallbackImage: string :=
    "https://system16.webtech.com.tw/web/202500107/archive/image/article1/images/about-pic-1.jpg"

  const KeptImageExts: seq<string> := ["jpg", "jpeg", "png", "webp"]
  const ImageLinkExts: seq<string> := ["webp", "jpg", "jpeg", "png", "gif"]

  /** The input's lines, each trimmed. */
  function Lines(markdown: string): (lines: seq<string>)
    ensures |lines| == |Split(markdown, '\n')|
    ensures forall k :: 0 <= k < |lines| ==> lines[k] == Trim(Split(markdown, '\n')[k])
  {
    var parts := Split(markdown, '\n');
    seq(|parts|, k requires 0 <= k < |parts| => Trim(parts[k]))
  }

  // ---------------------------------------------------------------------
  // Line predicates standing for the source's regular expressions

  /** `/!\[.*\]\[image.*\]/` found anywhere in the line, decided with the
    * leftmost `![`, the leftmost `][image` after it and any later `]`. */
  predicate IsCardImage(line: string)
  {
    var p := IndexOf(line, "![", 0);
    p >= 0 &&
    var q := IndexOf(line, "][image", p + 2);
    q >= 0 && IndexOfChar(line, ']', q + 7) >= 0
  }

  /** The regex's own reading: some `![`, later some `][image`, later a `]`. */
  ghost predicate CardPattern(line: string)
  {
    exists p, q, r :: OccursAt(line, "![", p) && OccursAt(line, "][image", q) && 0 <= r < |line|
                      && p + 2 <= q && q + 7 <= r && line[r] == ']'
  }

  /** The leftmost search decides the regex exactly. */
  lemma CardImageMatchesPattern(line: string)
    ensures IsCardImage(line) <==> CardPattern(line)
  {
    if CardPattern(line) {
      var p, q, r :| OccursAt(line, "![", p) && OccursAt(line, "][image", q) && 0 <= r < |line|
                     && p + 2 <= q && q + 7 <= r && line[r] == ']';
      var p0 := IndexOf(line, "![", 0);
      assert p0 >= 0 && p0 <= p;
      var q0 := IndexOf(line, "][image", p0 + 2);
      assert q0 >= 0 && q0 <= q;
      assert IndexOfChar(line, ']', q0 + 7) >= 0;
    }
    if IsCardImage(line) {
      var p := IndexOf(line, "![", 0);
      var q := IndexOf(line, "][image", p + 2);
      var r := IndexOfChar(line, ']', q + 7);
      assert OccursAt(line, "![", p) && OccursAt(line, "][image", q) && line[r] == ']';
    }
  }

  /** `/^\d+\.\s/` */
  predicate IsOrdinalLine(line: string)
  {
    var d := DigitsEnd(line, 0);
    1 <= d && d + 1 < |line| && line[d] == '.' && IsSpace(line[d + 1])
  }

  /** `line.replace(/^\d+\.\s/, '')` on a line that matches. */
  function StripOrdinal(line: string): string
    requires IsOrdinalLine(line)
  {
    line[DigitsEnd(line, 0) + 2..]
  }

  /** `lines[i] && /^[*-]\s+/.test(lines[i])` */
  predicate IsBulletLine(line: string)
  {
    line != [] && |line| >= 2 && (line[0] == '*' || line[0] == '-') && IsSpace(line[1])
  }

  // ---------------------------------------------------------------------
  // Inline rules for a single line: <a> tag, image, link, paragraph

  /** The part of `<a\s+(?:[^>]*?\s+)?href="([^"]*)"[^>]*>(.*?)<\/a>` after
    * `href="` at `h`: the value runs to the first `"`, the tag to the next
    * `>`, the text to the next `</a>`. */
  function HrefTail(s: string, h: nat): (r: Option<(string, string)>)
    requires OccursAt(s, "href=\"", h)
    ensures r.Some? ==> forall k :: 0 <= k < |r.value.0| ==> r.value.0[k] != '"'
  {
    var v := IndexOfChar(s, '"', h + 6);
    if v < 0 then None
    else
      var g := IndexOfChar(s, '>', v + 1);
      if g < 0 then None
      else
        var t := IndexOf(s, "</a>", g + 1);
        if t < 0 then None
        else
          Some((s[h + 6..v], s[g + 1..t]))
  }

  /** The candidates the regex engine tries after the greedy `\s+`: ends
    * `h` of later white-space runs, in increasing order, as long as no `>`
    * has been passed. */
  function LaterHref(s: string, h: nat): Option<(string, string)>
    requires 1 <= h
    decreases |s| - h
  {
    if h >= |s| || s[h - 1] == '>' then None
    else if IsSpace(s[h - 1]) && OccursAt(s, "href=\"", h) && HrefTail(s, h).Some? then HrefTail(s, h)
    else LaterHref(s, h + 1)
  }

  /** The anchor-tag regex tried at start position `a`. */
  function AnchorAt(s: string, a: nat): Option<(string, string)>
  {
    if !(OccursAt(s, "<a", a) && a + 2 < |s| && IsSpace(s[a + 2])) then None
    else
      var e := SpaceEnd(s, a + 2);
      var later := if e < |s| then LaterHref(s, e + 1) else None;
      if later.Some? then later
      else if OccursAt(s, "href=\"", e) then HrefTail(s, e)
      else None
  }

  /** `line.match(/<a\s+(?:[^>]*?\s+)?href="([^"]*)"[^>]*>(.*?)<\/a>/)`:
    * the leftmost start position that matches gives (href, text). */
  function AnchorTag(s: string, a: nat): (r: Option<(string, string)>)
    ensures r.Some? ==> forall k :: 0 <= k < |r.value.0| ==> r.value.0[k] != '"'
    decreases |s| - a
  {
    if a + 2 > |s| then None
    else
      var m := AnchorAt(s, a);
      if m.Some? then AnchorAtHrefClean(s, a); m else AnchorTag(s, a + 1)
  }

  lemma AnchorAtHrefClean(s: string, a: nat)
    ensures AnchorAt(s, a).Some? ==>
      forall k :: 0 <= k < |AnchorAt(s, a).value.0| ==> AnchorAt(s, a).value.0[k] != '"'
  {
    if OccursAt(s, "<a", a) && a + 2 < |s| && IsSpace(s[a + 2]) {
      var e := SpaceEnd(s, a + 2);
      if e < |s| { LaterHrefClean(s, e + 1); }
    }
  }

  lemma {:induction false} LaterHrefClean(s: string, h: nat)
    requires 1 <= h
    ensures LaterHref(s, h).Some? ==>
      forall k :: 0 <= k < |LaterHref(s, h).value.0| ==> LaterHref(s, h).value.0[k] != '"'
    decreases |s| - h
  {
    if !(h >= |s| || s[h - 1] == '>') && !(IsSpace(s[h - 1]) && OccursAt(s, "href=\"", h) && HrefTail(s, h).Some?) {
      LaterHrefClean(s, h + 1);
    }
  }

  /** `line.match(/^!\[(.*?)\]\((.*?)\)/)` gives (alt, url): alt runs to the
    * first `](`, url to the first `)` after it. */
  function ImageMarkdown(s: string): (r: Option<(string, string)>)
    ensures r.Some? ==> StartsWith(s, "![" + r.value.0 + "](" + r.value.1 + ")")
    ensures r.Some? ==> forall k :: 0 <= k < |r.value.1| ==> r.value.1[k] != ')'
    ensures r.Some? ==> forall k :: 2 <= k < 2 + |r.value.0| ==> !OccursAt(s, "](", k)
    ensures r.None? && StartsWith(s, "![") ==>
      forall k :: 2 <= k && OccursAt(s, "](", k) ==> forall m :: k + 2 <= m < |s| ==> s[m] != ')'
  {
    if !StartsWith(s, "![") then None
    else
      var j := IndexOf(s, "](", 2);
      if j < 0 then None
      else
        var k := IndexOfChar(s, ')', j + 2);
        if k < 0 then None
        else
          LinkShape(s, "![", j, k);
          Some((s[2..j], s[j + 2..k]))
  }

  /** The first `](` or `\](` at or after `m`, and where the url starts. */
  function LinkClose(s: string, m: nat): (r: Option<(nat, nat)>)
    ensures r.Some? ==> m <= r.value.0 && r.value.1 <= |s|
    ensures r.Some? ==> (OccursAt(s, "\\](", r.value.0) && r.value.1 == r.value.0 + 3)
                        || (OccursAt(s, "](", r.value.0) && r.value.1 == r.value.0 + 2)
    decreases |s| - m
  {
    if m >= |s| then None
    else if OccursAt(s, "\\](", m) then Some((m, m + 3))
    else if OccursAt(s, "](", m) then Some((m, m + 2))
    else LinkClose(s, m + 1)
  }

  /** `line.match(/^\\?\[(.*?)\\?\]\((.*?)\)/)` gives (text, href). */
  function LinkMarkdown(s: string): (r: Option<(string, string)>)
    ensures r.Some? ==> forall k :: 0 <= k < |r.value.1| ==> r.value.1[k] != ')'
    ensures r.Some? ==> StartsWith(s, "[") || StartsWith(s, "\\[")
  {
    var p := if StartsWith(s, "\\[") then 2 else if StartsWith(s, "[") then 1 else 0;
    if p == 0 then None
    else
      var c := LinkClose(s, p);
      if c.None? then None
      else
        var k := IndexOfChar(s, ')', c.value.1);
        if k < 0 then None
        else
          Some((s[p..c.value.0], s[c.value.1..k]))
  }

  /** An image url is kept only with a .jpg/.jpeg/.png/.webp ending. */
  function ImageUrl(url: string): (r: string)
    ensures EndsWithExt(url, KeptImageExts) ==> r == url
    ensures !EndsWithExt(url, KeptImageExts) ==> r == FallbackImage
    ensures EndsWithExt(r, KeptImageExts) || r == FallbackImage
  {
    if EndsWithExt(url, KeptImageExts) then url else FallbackImage
  }

  predicate LinkIsImage(text: string, href: string)
  {
    EndsWithExt(href, ImageLinkExts) || EndsWithExt(text, ImageLinkExts) || Contains(href, "drive.google.com")
  }

  /** The rules tried last: an `<a>` tag, a markdown image, a markdown link
    * (an image when it looks like one), else a paragraph. */
  function Inline(line: string): (b: Block)
    ensures b.kind in {"A", "IMAGE", "P"}
    ensures b.kind == "P" <==> AnchorTag(line, 0).None? && ImageMarkdown(line).None? && LinkMarkdown(line).None?
    ensures b.kind == "P" ==> b.content == Text(FixEscapedOrdinal(line))
    ensures b.kind == "A" ==> b.content.Fields? && b.content.fields.Keys == {"HREF", "TEXT"}
    ensures b.kind == "IMAGE" ==>
      && b.content.Fields? && b.content.fields.Keys == {"ALT", "URL"}
      && (EndsWithExt(b.content.fields["URL"], KeptImageExts) || b.content.fields["URL"] == FallbackImage)
  {
    var anchor := AnchorTag(line, 0);
    if anchor.Some? then
      Block("A", Fields(map["HREF" := anchor.value.0, "TEXT" := anchor.value.1]))
    else
      var image := ImageMarkdown(line);
      if image.Some? then
        Block("IMAGE", Fields(map["ALT" := image.value.0, "URL" := ImageUrl(image.value.1)]))
      else
        var link := LinkMarkdown(line);
        if link.Some? then
          var text := link.value.0;
          var href := link.value.1;
          if LinkIsImage(text, href) then
            Block("IMAGE", Fields(map["ALT" := text, "URL" := ImageUrl(href)]))
          else
            Block("A", Fields(map["HREF" := href, "TEXT" := text]))
        else
          Block("P", Text(FixEscapedOrdinal(line)))
  }

  // ---------------------------------------------------------------------
  // Runs of lines captured by the list and table branches

  /** The end of the run of bullet lines starting at `k`. */
  function BulletRunEnd(lines: seq<string>, k: nat): (e: nat)
    requires k <= |lines|
    ensures k <= e <= |lines|
    ensures forall j :: k <= j < e ==> IsBulletLine(lines[j])
    ensures e == |lines| || !IsBulletLine(lines[e])
    decreases |lines| - k
  {
    if k < |lines| && IsBulletLine(lines[k]) then BulletRunEnd(lines, k + 1) else k
  }

  function OrdinalRunEnd(lines: seq<string>, k: nat): (e: nat)
    requires k <= |lines|
    ensures k <= e <= |lines|
    ensures forall j :: k <= j < e ==> IsOrdinalLine(lines[j])
    ensures e == |lines| || !IsOrdinalLine(lines[e])
    decreases |lines| - k
  {
    if k < |lines| && IsOrdinalLine(lines[k]) then OrdinalRunEnd(lines, k + 1) else k
  }

  function TableRunEnd(lines: seq<string>, k: nat): (e: nat)
    requires k <= |lines|
    ensures k <= e <= |lines|
    ensures forall j :: k <= j < e ==> StartsWith(lines[j], "|")
    ensures e == |lines| || !StartsWith(lines[e], "|")
    decreases |lines| - k
  {
    if k < |lines| && StartsWith(lines[k], "|") then TableRunEnd(lines, k + 1) else k
  }

  function BulletItems(lines: seq<string>, a: nat, b: nat): (items: seq<string>)
    requires a <= b <= |lines|
    ensures |items| == b - a
  {
    seq(b - a, k requires 0 <= k < b - a => RemoveBold(lines[a + k]))
  }

  function OrdinalItems(lines: seq<string>, a: nat, b: nat): (items: seq<string>)
    requires a <= b <= |lines|
    requires forall j :: a <= j < b ==> IsOrdinalLine(lines[j])
    ensures |items| == b - a
  {
    seq(b - a, k requires 0 <= k < b - a => StripOrdinal(lines[a + k]))
  }

  // ---------------------------------------------------------------------
  // One turn of the loop, and the whole parse

  /** The card branch applies at `i`: an image reference followed by `### `. */
  predicate CardAt(lines: seq<string>, i: nat)
    requires i < |lines|
  {
    IsCardImage(lines[i]) && i + 1 < |lines| && StartsWith(lines[i + 1], "### ")
  }

  function CardDesc(lines: seq<string>, i: nat): string
  {
    if i + 2 < |lines| && !StartsWith(lines[i + 2], "#") then lines[i + 2] else []
  }

  function CardBlock(lines: seq<string>, i: nat): Block
    requires i + 1 < |lines|
  {
    Block("IMAGE_TITLE_DESC_CARD", Fields(map[
      "URL" := lines[i],
      "TITLE" := Trim(Substring(lines[i + 1], 4, |lines[i + 1]|)),
      "DESC" := CardDesc(lines, i)]))
  }

  /** A heading rule: the line minus its `n`-character marker, trimmed and
    * stripped of bold markers. */
  function Heading(kind: string, line: string, n: nat): Block
  {
    Block(kind, Text(RemoveBold(Trim(Substring(line, n, |line|)))))
  }

  /** The `**...**` rule: an H3 holding the text between the markers,
    * trimmed, with the backslash of its first `N\.` removed. */
  function BoldHeading(line: string): Block
  {
    Block("H3", Text(FixEscapedOrdinal(Trim(Substring(line, 2, |line| - 2)))))
  }

  /** The rules that follow the card rule, in source order. */
  function StepRest(lines: seq<string>, i: nat): (r: StepResult)
    requires i < |lines|
    ensures i <= r.next <= |lines|
  {
    var line := lines[i];
    if StartsWith(line, "**") && EndsWith(line, "**") then
      StepResult([BoldHeading(line)], i + 1)
    else if StartsWith(line, "# ") then StepResult([Heading("H1", line, 2)], i + 1)
    else if StartsWith(line, "## ") then StepResult([Heading("H2", line, 3)], i + 1)
    else if StartsWith(line, "###") then StepResult([Heading("H3", line, 3)], i + 1)
    else if StartsWith(line, "#### ") then StepResult([Heading("H4", line, 5)], i + 1)
    else StepLists(lines, i)
  }

  /** The list, table and inline rules, in source order. */
  function StepLists(lines: seq<string>, i: nat): (r: StepResult)
    requires i < |lines|
    ensures i <= r.next <= |lines|
  {
    var line := lines[i];
    if StartsWith(line, "*") || StartsWith(line, "-") then
      var e := BulletRunEnd(lines, i);
      StepResult([Block("UL", Text(Join(BulletItems(lines, i, e), "\n")))], e)
    else if IsOrdinalLine(line) && OrdinalRunEnd(lines, i) - i > 1 then
      var e := OrdinalRunEnd(lines, i);
      StepResult([Block("OL", Fields(map["LIST_ITEMS" := Join(OrdinalItems(lines, i, e), "\n")]))], e)
    else if StartsWith(line, "|") then
      var e := TableRunEnd(lines, i);
      StepResult([Block("TABLE", Text(Join(lines[i..e], "\n")))], e)
    else StepResult([Inline(line)], i + 1)
  }

  /** One turn of the source's `for` loop at cursor `i` (including its
    * closing `i++`). */
  function Step(lines: seq<string>, i: nat): (r: StepResult)
    requires i < |lines|
    ensures i <= r.next <= |lines|
  {
    var line := lines[i];
    if StartsWith(line, "//") then StepResult([], i + 1)
    else if line == [] || line == "---" then StepResult([], i + 1)
    else if CardAt(lines, i) then
      StepResult([CardBlock(lines, i)], if CardDesc(lines, i) != [] then i + 3 else i + 2)
    else StepRest(lines, i)
  }

  function Prepend(bs: seq<Block>, o: Outcome): Outcome
  {
    match o
    case Parsed(rest) => Parsed(bs + rest)
    case Diverges(at, rest) => Diverges(at, bs + rest)
  }

  lemma PrependAssoc(a: seq<Block>, b: seq<Block>, o: Outcome)
    ensures Prepend(a, Prepend(b, o)) == Prepend(a + b, o)
  {
    match o
    case Parsed(rest) => assert a + (b + rest) == (a + b) + rest;
    case Diverges(at, rest) => assert a + (b + rest) == (a + b) + rest;
  }

  /** The loop from cursor `i` on.  It diverges only at a cursor from
    * there on where a turn leaves the cursor where it was. */
  function ParseFrom(lines: seq<string>, i: nat): (o: Outcome)
    requires i <= |lines|
    ensures o.Diverges? ==> i <= o.at < |lines| && Step(lines, o.at).next == o.at
    decreases |lines| - i
  {
    if i == |lines| then Parsed([])
    else
      var st := Step(lines, i);
      if st.next == i then Diverges(i, st.emitted)
      else Prepend(st.emitted, ParseFrom(lines, st.next))
  }

  function Parse(markdown: string): Outcome
  {
    ParseFrom(Lines(markdown), 0)
  }

  /** `_parseMarkdown(markdown)`: the source's loop over the trimmed lines. */
  method ParseMarkdown(markdown: string) returns (out: Outcome)
    ensures out == Parse(markdown)
  {
    out := ParseLines(Lines(markdown));
  }

  /** The loop itself, over the trimmed lines. */
  method ParseLines(lines: seq<string>) returns (out: Outcome)
    ensures out == ParseFrom(lines, 0)
  {
    var blocks: seq<Block> := [];
    var i: nat := 0;
    while i < |lines|
      invariant i <= |lines|
      invariant Prepend(blocks, ParseFrom(lines, i)) == ParseFrom(lines, 0)
      decreases |lines| - i
    {
      var emitted, last := ParseLine(lines, i);
      if last < i {
        // The branch moved the cursor back before this line: the loop's
        // `i++` brings it here again, for ever.
        return Prepend(blocks, Diverges(i, emitted));
      }
      ghost var before := blocks;
      blocks := blocks + emitted;
      StepAgrees(lines, i, before, blocks, last + 1);
      i := last + 1;
    }
    assert blocks + [] == blocks;
    out := Parsed(blocks);
  }

  /** The body of the loop for the line at `i`: the blocks it pushes and
    * the cursor value before the loop's `i++`. */
  method ParseLine(lines: seq<string>, i: nat) returns (emitted: seq<Block>, last: int)
    requires i < |lines|
    ensures last + 1 >= i
    ensures Step(lines, i) == StepResult(emitted, last + 1)
  {
    var line := lines[i];
    if StartsWith(line, "//") {
      emitted, last := [], i;
    } else if line == [] || line == "---" {
      emitted, last := [], i;
    } else if IsCardImage(line) && i + 1 < |lines| && StartsWith(lines[i + 1], "### ") {
      var title := Trim(Substring(lines[i + 1], 4, |lines[i + 1]|));
      var desc := if i + 2 < |lines| && !StartsWith(lines[i + 2], "#") then lines[i + 2] else [];
      emitted := [Block("IMAGE_TITLE_DESC_CARD", Fields(map["URL" := line, "TITLE" := title, "DESC" := desc]))];
      last := if desc != [] then i + 2 else i + 1;
    } else {
      emitted, last := ParseLineRest(lines, i);
    }
  }

  method ParseLineRest(lines: seq<string>, i: nat) returns (emitted: seq<Block>, last: int)
    requires i < |lines|
    ensures last + 1 >= i
    ensures StepRest(lines, i) == StepResult(emitted, last + 1)
  {
    var line := lines[i];
    last := i;
    if StartsWith(line, "**") && EndsWith(line, "**") {
      emitted := [BoldHeading(line)];
    } else if StartsWith(line, "# ") {
      emitted := [Heading("H1", line, 2)];
    } else if StartsWith(line, "## ") {
      emitted := [Heading("H2", line, 3)];
    } else if StartsWith(line, "###") {
      emitted := [Heading("H3", line, 3)];
    } else if StartsWith(line, "#### ") {
      emitted := [Heading("H4", line, 5)];
    } else {
      emitted, last := ParseLineLists(lines, i);
    }
  }

  method ParseLineLists(lines: seq<string>, i: nat) returns (emitted: seq<Block>, last: int)
    requires i < |lines|
    ensures last + 1 >= i
    ensures StepLists(lines, i) == StepResult(emitted, last + 1)
  {
    var line := lines[i];
    last := i;
    if StartsWith(line, "*") || StartsWith(line, "-") {
      var items;
      items, last := CaptureBullets(lines, i);
      emitted := [Block("UL", Text(Join(items, "\n")))];
    } else {
      var handled := false;
      if IsOrdinalLine(line) {
        var count := OrdinalRun(lines, i);
        if count > 1 {
          var items;
          items, last := CaptureOrdinals(lines, i);
          emitted := [Block("OL", Fields(map["LIST_ITEMS" := Join(items, "\n")]))];
          handled := true;
        }
      }
      if handled {
      } else if StartsWith(line, "|") {
        var tableLines;
        tableLines, last := CaptureTable(lines, i);
        emitted := [Block("TABLE", Text(Join(tableLines, "\n")))];
      } else {
        emitted := [Inline(line)];
      }
    }
  }

  /** The UL capture: collects bullet lines from `i`, then steps back one. */
  method CaptureBullets(lines: seq<string>, i: nat) returns (items: seq<string>, last: int)
    requires i <= |lines|
    ensures last == BulletRunEnd(lines, i) - 1
    ensures items == BulletItems(lines, i, BulletRunEnd(lines, i))
  {
    var k := i;
    items := [];
    while k < |lines| && IsBulletLine(lines[k])
      invariant i <= k <= |lines|
      invariant BulletRunEnd(lines, k) == BulletRunEnd(lines, i)
      invariant items == BulletItems(lines, i, k)
      decreases |lines| - k
    {
      items := items + [RemoveBold(lines[k])];
      k := k + 1;
    }
    last := k - 1;
  }

  /** The OL capture, once the pre-scan has found at least two lines. */
  method CaptureOrdinals(lines: seq<string>, i: nat) returns (items: seq<string>, last: int)
    requires i <= |lines|
    ensures last == OrdinalRunEnd(lines, i) - 1
    ensures items == OrdinalItems(lines, i, OrdinalRunEnd(lines, i))
  {
    var k := i;
    items := [];
    while k < |lines| && IsOrdinalLine(lines[k])
      invariant i <= k <= |lines|
      invariant OrdinalRunEnd(lines, k) == OrdinalRunEnd(lines, i)
      invariant forall j :: i <= j < k ==> IsOrdinalLine(lines[j])
      invariant items == OrdinalItems(lines, i, k)
      decreases |lines| - k
    {
      items := items + [StripOrdinal(lines[k])];
      k := k + 1;
    }
    last := k - 1;
  }

  /** The TABLE capture: consecutive lines starting with `|`. */
  method CaptureTable(lines: seq<string>, i: nat) returns (tableLines: seq<string>, last: int)
    requires i <= |lines|
    ensures last == TableRunEnd(lines, i) - 1
    ensures tableLines == lines[i..TableRunEnd(lines, i)]
  {
    var k := i;
    tableLines := [];
    while k < |lines| && StartsWith(lines[k], "|")
      invariant i <= k <= |lines|
      invariant TableRunEnd(lines, k) == TableRunEnd(lines, i)
      invariant tableLines == lines[i..k]
      decreases |lines| - k
    {
      tableLines := tableLines + [lines[k]];
      k := k + 1;
    }
    last := k - 1;
  }

  /** The pre-scan of the ordered-list branch: how many consecutive lines
    * from `i` on match `/^\d+\.\s/`. */
  method OrdinalRun(lines: seq<string>, i: nat) returns (count: nat)
    requires i <= |lines|
    ensures count == OrdinalRunEnd(lines, i) - i
  {
    var t := i;
    while t < |lines| && IsOrdinalLine(lines[t])
      invariant i <= t <= |lines|
      invariant OrdinalRunEnd(lines, t) == OrdinalRunEnd(lines, i)
      decreases |lines| - t
    {
      t := t + 1;
    }
    count := t - i;
  }

  /** Closing one turn: the loop's state after the turn is the step's. */
  lemma StepAgrees(lines: seq<string>, i0: nat, before: seq<Block>, after: seq<Block>, i: int)
    requires i0 < |lines|
    requires Prepend(before, ParseFrom(lines, i0)) == ParseFrom(lines, 0)
    requires after == before + Step(lines, i0).emitted && i == Step(lines, i0).next
    requires i > i0
    ensures 0 <= i <= |lines|
    ensures Prepend(after, ParseFrom(lines, i)) == ParseFrom(lines, 0)
  {
    PrependAssoc(before, Step(lines, i0).emitted, ParseFrom(lines, i));
  }
}
