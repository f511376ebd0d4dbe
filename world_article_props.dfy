// Properties of the world article parser, anchor parser and block lookup.

module WorldArticleProperties {
  import opened Wrappers
  import opened JsString
  import opened WorldArticle
  import CommonLayouts

  function OutBlocks(o: Outcome): seq<Block>
  {
    match o
    case Parsed(bs) => bs
    case Diverges(_, bs) => bs
  }

  /** A property every step's blocks have is had by the whole parse. */
  lemma {:induction false} ParseFromAll(lines: seq<string>, i: nat, P: Block -> bool)
    requires i <= |lines|
    requires forall k :: i <= k < |lines| ==> forall b :: b in Step(lines, k).emitted ==> P(b)
    ensures forall b :: b in OutBlocks(ParseFrom(lines, i)) ==> P(b)
    decreases |lines| - i
  {
    if i < |lines| {
      var st := Step(lines, i);
      if st.next != i {
        ParseFromAll(lines, st.next, P);
        var rest := ParseFrom(lines, st.next);
        assert OutBlocks(Prepend(st.emitted, rest)) == st.emitted + OutBlocks(rest);
      }
    }
  }

  // ---------------------------------------------------------------------
  // Where the loop stops moving

  /** Line `i` falls through every earlier rule to the QA rule. */
  predicate QaStall(lines: seq<string>, i: nat)
    requires i < |lines|
  {
    var line := lines[i];
    !StartsWith(line, "//") && !StartsWith(line, "## ") && !StartsWith(line, "### ")
    && !StartsWith(line, "#### ") && !IsBullet(line) && OrdinalPrefix(line) == 0
    && ImageMatch(line).None? && LinkMatch(line).None? && !IsRule(line) && !IsTableLine(line)
    && QaAt(lines, i)
  }

  /** A `//` comment line and an empty line push nothing and the loop
    * moves on to the next line. */
  lemma SkippedLines(lines: seq<string>, i: nat)
    requires i < |lines| && (StartsWith(lines[i], "//") || lines[i] == [])
    ensures Step(lines, i) == StepResult([], i + 1)
  {
  }

  /** A step leaves the cursor where it was exactly at a QA stall. */
  lemma StepProgress(lines: seq<string>, i: nat)
    requires i < |lines|
    ensures Step(lines, i).next == i <==> QaStall(lines, i)
    ensures Step(lines, i).next > i <==> !QaStall(lines, i)
  {
    var line := lines[i];
    if IsBullet(line) {
      assert BulletRunEnd(lines, i) > i;
    } else if OrdinalPrefix(line) > 0 {
      assert OrdinalRunEnd(lines, i) > i;
    } else if IsTableLine(line) {
      assert TableRunEnd(lines, i) > i;
    }
  }

  /** The parse stops moving only at a QA stall, never before its start. */
  lemma {:induction false} DivergesOnlyAtQa(lines: seq<string>, i: nat)
    requires i <= |lines|
    ensures ParseFrom(lines, i).Diverges? ==>
      i <= ParseFrom(lines, i).at < |lines| && QaStall(lines, ParseFrom(lines, i).at)
    decreases |lines| - i
  {
    if i < |lines| {
      var st := Step(lines, i);
      StepProgress(lines, i);
      if st.next != i {
        DivergesOnlyAtQa(lines, st.next);
      }
    }
  }

  /** A `# ` line followed by a rule line pushes an empty QA block and
    * leaves the cursor where it was. */
  lemma TitleBeforeRuleStalls(lines: seq<string>, i: nat)
    requires i + 1 < |lines| && StartsWith(lines[i], "# ") && IsRule(lines[i + 1])
    ensures QaStall(lines, i)
    ensures Step(lines, i) == StepResult([Block("QA_BLOCK", map["MARKDOWN" := ""])], i)
  {
    TitleLineFallsThrough(lines[i]);
    assert Step(lines, i) == StepInline(lines, i);
    assert Join(lines[i..i], "\n") == "";
  }

  lemma ExampleSplit()
    ensures Split("# Q\n---", '\n') == ["# Q", "---"]
  {
    assert "# Q\n---" == "# Q" + ['\n'] + "---";
    SplitAppend("# Q", "---", '\n');
    SplitNoSep("# Q", '\n');
    SplitNoSep("---", '\n');
  }

  lemma ExampleLines()
    ensures Lines("# Q\n---") == ["# Q", "---"]
  {
    ExampleSplit();
    ExampleTrims();
    TwoTrimmedLines("# Q\n---", "# Q", "---");
  }

  lemma TwoTrimmedLines(m: string, a: string, b: string)
    requires Split(m, '\n') == [a, b] && Trim(a) == a && Trim(b) == b
    ensures Lines(m) == [a, b]
  {
  }

  lemma ExampleTrims()
    ensures Trim("# Q") == "# Q" && Trim("---") == "---"
  {
    TrimUnchanged("# Q");
    TrimUnchanged("---");
  }

  /** `# Q` followed by `---` makes the loop spin at line 0. */
  lemma QaDiverges()
    ensures Parse("# Q\n---") == Diverges(0, [Block("QA_BLOCK", map["MARKDOWN" := ""])])
  {
    ExampleLines();
    TitleBeforeRuleStalls(["# Q", "---"], 0);
  }

  /** A `# ` line passes every rule before the QA rule. */
  lemma TitleLineFallsThrough(line: string)
    requires StartsWith(line, "# ")
    ensures !StartsWith(line, "//") && !StartsWith(line, "## ") && !StartsWith(line, "### ")
      && !StartsWith(line, "#### ") && !IsBullet(line) && OrdinalPrefix(line) == 0
      && ImageMatch(line).None? && LinkMatch(line).None? && !IsRule(line) && !IsTableLine(line)
  {
    assert line[0] == '#' && line[1] == ' ';
    assert DigitsEnd(line, 0) == 0;
  }

  /** A `# ` line not followed by a rule line is a paragraph. */
  lemma TitleWithoutRuleIsParagraph(lines: seq<string>, i: nat)
    requires i < |lines| && StartsWith(lines[i], "# ")
    requires !(i + 1 < |lines| && IsRule(lines[i + 1]))
    ensures Step(lines, i) ==
      StepResult([Block("P", map["TEXT" := FixEscapedOrdinal(RemoveBold(lines[i]))])], i + 1)
  {
    TitleLineFallsThrough(lines[i]);
    assert Step(lines, i) == StepInline(lines, i);
  }

  // ---------------------------------------------------------------------
  // Lists

  /** Unlike the basic parser, a single numbered line is already an ordered
    * list, whose one item is the line without its number. */
  lemma SingleNumberedLineIsList(lines: seq<string>, i: nat)
    requires i < |lines| && OrdinalPrefix(lines[i]) > 0
    requires i + 1 == |lines| || OrdinalPrefix(lines[i + 1]) == 0
    ensures Step(lines, i) ==
      StepResult([Block("OL", map["LIST_ITEMS" := RemoveBold(lines[i][OrdinalPrefix(lines[i])..])])], i + 1)
  {
    var line := lines[i];
    assert IsDigit(line[0]);
    assert !StartsWith(line, "## ") && !StartsWith(line, "//") && !StartsWith(line, "### ")
      && !StartsWith(line, "#### ") && !IsBullet(line);
    assert OrdinalRunEnd(lines, i + 1) == i + 1;
    assert OrdinalRunEnd(lines, i) == i + 1;
    var items := OrdinalItems(lines, i, i + 1);
    assert |items| == 1;
  }

  // ---------------------------------------------------------------------
  // Headings and images

  predicate HeadingClean(b: Block)
  {
    b.kind in {"H2", "H3", "H4"} ==> "TEXT" in b.content && !HasBold(b.content["TEXT"])
  }

  /** The blocks of the rules after the list rules are never headings. */
  lemma StepInlineKinds(lines: seq<string>, i: nat)
    requires i < |lines|
    ensures forall b :: b in StepInline(lines, i).emitted ==> b.kind in {"IMAGE", "A", "HR", "TABLE", "QA_BLOCK", "P"}
  {
    var line := lines[i];
    if ImageMatch(line).None? && LinkMatch(line).Some? {
      var m := LinkMatch(line).value;
      assert LinkBlock(m).kind in {"IMAGE", "A"};
    }
  }

  lemma HeadingIsClean(kind: string, line: string, n: nat)
    ensures HeadingClean(Heading(kind, line, n))
  {
    RemoveBoldClean(Trim(Substring(line, n, |line|)));
  }

  lemma StepHeadings(lines: seq<string>, i: nat)
    requires i < |lines|
    ensures forall b :: b in Step(lines, i).emitted ==> HeadingClean(b)
  {
    var line := lines[i];
    if StartsWith(line, "//") {
    } else if StartsWith(line, "## ") {
      HeadingIsClean("H2", line, 3);
    } else if StartsWith(line, "### ") {
      HeadingIsClean("H3", line, 4);
    } else if StartsWith(line, "#### ") {
      HeadingIsClean("H4", line, 5);
    } else if IsBullet(line) || OrdinalPrefix(line) > 0 {
    } else {
      StepInlineKinds(lines, i);
    }
  }

  /** Headings never keep bold markers. */
  lemma HeadingsHaveNoBold(markdown: string)
    ensures forall b :: b in OutBlocks(Parse(markdown)) ==> HeadingClean(b)
  {
    var lines := Lines(markdown);
    forall k | 0 <= k < |lines| ensures forall b :: b in Step(lines, k).emitted ==> HeadingClean(b) {
      StepHeadings(lines, k);
    }
    ParseFromAll(lines, 0, HeadingClean);
  }

  /** An image block's alt text holds no backslash and its address is the
    * fallback or ends in an accepted image extension. */
  predicate ImageClean(b: Block)
  {
    b.kind == "IMAGE" ==>
      "ALT" in b.content && "URL" in b.content
      && (forall k :: 0 <= k < |b.content["ALT"]| ==> b.content["ALT"][k] != '\\')
      && (b.content["URL"] == FallbackImage || EndsWithExt(b.content["URL"], LinkImageExts))
  }

  lemma ImageExtsAccepted(url: string)
    requires EndsWithExt(url, ImageExts)
    ensures EndsWithExt(url, LinkImageExts)
  {
    var k :| 0 <= k < |ImageExts| && EndsWith(ToLower(url), "." + ImageExts[k]);
    assert ImageExts[k] == LinkImageExts[k];
  }

  lemma StepInlineImages(lines: seq<string>, i: nat)
    requires i < |lines|
    ensures forall b :: b in StepInline(lines, i).emitted ==> ImageClean(b)
  {
    var line := lines[i];
    if ImageMatch(line).Some? {
      ImageBlockClean(ImageMatch(line).value);
    } else if LinkMatch(line).Some? {
      LinkBlockClean(LinkMatch(line).value);
    } else {
      StepInlineOthers(lines, i);
    }
  }

  /** The rules after the image and link rules emit no IMAGE block. */
  lemma StepInlineOthers(lines: seq<string>, i: nat)
    requires i < |lines| && ImageMatch(lines[i]).None? && LinkMatch(lines[i]).None?
    ensures forall b :: b in StepInline(lines, i).emitted ==> b.kind != "IMAGE"
  {
  }

  lemma ImageBlockClean(m: (string, string))
    ensures ImageClean(ImageBlock(m))
  {
    var url := Trim(m.1);
    if EndsWithExt(url, ImageExts) {
      ImageExtsAccepted(url);
    }
  }

  lemma LinkBlockClean(m: (string, string))
    ensures ImageClean(LinkBlock(m))
  {
    var text := CleanLabel(m.0);
    var href := Trim(m.1);
    var b := LinkBlock(m);
    if b.kind == "IMAGE" {
      var url := if EndsWithExt(href, LinkImageExts) then href else FallbackImage;
      assert b.content == map["ALT" := text, "URL" := url];
    }
  }

  lemma StepImages(lines: seq<string>, i: nat)
    requires i < |lines|
    ensures forall b :: b in Step(lines, i).emitted ==> ImageClean(b)
  {
    var line := lines[i];
    var st := Step(lines, i);
    if StartsWith(line, "//") || StartsWith(line, "## ") || StartsWith(line, "### ")
       || StartsWith(line, "#### ") || IsBullet(line) || OrdinalPrefix(line) > 0 {
      assert forall b :: b in st.emitted ==> b.kind != "IMAGE";
    } else {
      assert st == StepInline(lines, i);
      StepInlineImages(lines, i);
    }
  }

  lemma ImagesAreClean(markdown: string)
    ensures forall b :: b in OutBlocks(Parse(markdown)) ==> ImageClean(b)
  {
    var lines := Lines(markdown);
    forall k | 0 <= k < |lines| ensures forall b :: b in Step(lines, k).emitted ==> ImageClean(b) {
      StepImages(lines, k);
    }
    ParseFromAll(lines, 0, ImageClean);
  }

  // ---------------------------------------------------------------------
  // The anchor parser

  /** A `[text](href)` line gives an anchor item with that text and href,
    * whatever follows the closing parenthesis. */
  lemma LinkLineParses(t: string, h: string, rest: string)
    requires forall k :: 0 <= k < |t| ==> t[k] != ']'
    requires forall k :: 0 <= k < |h| ==> h[k] != ')'
    ensures ParseAnchorLine("[" + t + "](" + h + ")" + rest) == Some(AnchorItem(t, h))
  {
    LinkPrefixOf(t, h, rest);
  }

  lemma LinkPrefixOf(t: string, h: string, rest: string)
    requires forall k :: 0 <= k < |t| ==> t[k] != ']'
    requires forall k :: 0 <= k < |h| ==> h[k] != ')'
    ensures LinkPrefix("[" + t + "](" + h + ")" + rest) == Some((t, h))
  {
    var a := "[" + t;
    var b := a + "](" + h;
    var s := b + (")" + rest);
    assert "[" + t + "](" + h + ")" + rest == s;
    assert s[..|b|] == b;
    assert b[..|a|] == a && b[|a|..|a| + 2] == "](" && b[|a| + 2..] == h;
    LinkPrefixParts(s, t, h);
  }

  /** `[t](h)` read off the front of `s`, stated position by position. */
  lemma LinkPrefixParts(s: string, t: string, h: string)
    requires forall k :: 0 <= k < |t| ==> t[k] != ']'
    requires forall k :: 0 <= k < |h| ==> h[k] != ')'
    requires 3 + |t| + |h| < |s| && s[0] == '[' && s[3 + |t| + |h|] == ')'
    requires s[1..1 + |t|] == t && s[1 + |t|..3 + |t|] == "](" && s[3 + |t|..3 + |t| + |h|] == h
    ensures LinkPrefix(s) == Some((t, h))
  {
    var j := 1 + |t|;
    forall k | 1 <= k < j
      ensures !OccursAt(s, "](", k)
    {
      assert s[k] == s[1..j][k - 1] == t[k - 1];
    }
    assert OccursAt(s, "](", j);
    assert IndexOf(s, "](", 1) == j;
    forall k | j + 2 <= k < j + 2 + |h|
      ensures s[k] != ')'
    {
      assert s[k] == s[j + 2..j + 2 + |h|][k - j - 2];
    }
    assert IndexOfChar(s, ')', j + 2) == j + 2 + |h|;
  }

  /** The `text,href` form, defined by the last comma of the cleaned line. */
  function LastCommaItem(cleaned: string): Option<Block>
  {
    var k := LastIndexOfChar(cleaned, ',');
    if k < 0 then None
    else
      var text := Trim(cleaned[..k]);
      var href := ReplaceAll(Trim(cleaned[k + 1..]), "\\#", "#");
      if text != [] && href != [] then Some(AnchorItem(text, href)) else None
  }

  /** Splitting at every comma, taking the last part as the href and
    * re-joining the rest, is splitting at the last comma. */
  lemma SplitAtLastComma(s: string)
    ensures var parts := Split(s, ','); var k := LastIndexOfChar(s, ',');
      (k < 0 <==> |parts| < 2)
      && (k >= 0 ==> parts[|parts| - 1] == s[k + 1..] && Join(parts[..|parts| - 1], ",") == s[..k])
  {
    var k := LastIndexOfChar(s, ',');
    if k < 0 {
      assert forall x :: x in s ==> x != ',';
      SplitNoSep(s, ',');
    } else {
      assert s == s[..k] + [','] + s[k + 1..];
      SplitAppend(s[..k], s[k + 1..], ',');
      assert forall m :: k < m < |s| ==> s[m] != ',';
      assert ',' !in s[k + 1..];
      SplitNoSep(s[k + 1..], ',');
      var parts := Split(s, ',');
      var front := Split(s[..k], ',');
      assert parts == front + [s[k + 1..]];
      assert parts[..|parts| - 1] == front;
      JoinSplit(s[..k], ',');
    }
  }

  /** A line that is not a `[text](href)` link is an anchor item exactly
    * when its cleaned form has a comma with non-empty text before the last
    * comma and a non-empty href after it. */
  lemma CommaFormAtLastComma(line: string)
    requires LinkPrefix(line).None?
    ensures ParseAnchorLine(line) == LastCommaItem(Trim(RemoveListMarker(line)))
  {
    CommaItemAtLastComma(Trim(RemoveListMarker(line)));
  }

  lemma CommaItemAtLastComma(cleaned: string)
    ensures CommaItem(cleaned) == LastCommaItem(cleaned)
  {
    SplitAtLastComma(cleaned);
  }

  // ---------------------------------------------------------------------
  // Applying the anchor list

  lemma {:induction false} DropAnchorItemsNoItems(bs: seq<Block>)
    requires forall k :: 0 <= k < |bs| ==> bs[k].kind != "ANCHOR_ITEM"
    ensures DropAnchorItems(bs) == bs
    decreases |bs|
  {
    if bs != [] {
      DropAnchorItemsNoItems(bs[1..]);
      assert [bs[0]] + bs[1..] == bs;
    }
  }

  lemma {:induction false} DropAnchorItemsAppend(a: seq<Block>, b: seq<Block>)
    ensures DropAnchorItems(a + b) == DropAnchorItems(a) + DropAnchorItems(b)
    decreases |a|
  {
    if a != [] {
      assert (a + b)[1..] == a[1..] + b;
      DropAnchorItemsAppend(a[1..], b);
    } else {
      assert a + b == b;
    }
  }

  lemma {:induction false} DropOnlyItems(a: seq<Block>)
    requires forall k :: 0 <= k < |a| ==> a[k].kind == "ANCHOR_ITEM"
    ensures DropAnchorItems(a) == []
    decreases |a|
  {
    if a != [] {
      DropOnlyItems(a[1..]);
    }
  }

  lemma {:induction false} DropAnchorItemsSubset(bs: seq<Block>)
    ensures forall x :: x in DropAnchorItems(bs) ==> x in bs
    decreases |bs|
  {
    if bs != [] {
      DropAnchorItemsSubset(bs[1..]);
    }
  }

  lemma {:induction false} SectionEndPrefix(bs: seq<Block>, mid: seq<Block>, tail: seq<Block>, k: nat)
    requires k <= |bs| + |mid|
    requires forall x :: x in mid ==> x.kind !in CommonLayouts.SectionOpeners
    requires tail == [] || tail[0].kind in CommonLayouts.SectionOpeners
    requires forall j :: k <= j < |bs| ==> bs[j].kind !in CommonLayouts.SectionOpeners
    ensures SectionEnd(bs + mid + tail, k) == |bs| + |mid|
    decreases |bs| + |mid| - k
  {
    var all := bs + mid + tail;
    if k < |bs| + |mid| {
      if k < |bs| {
        assert all[k] == bs[k];
      } else {
        assert all[k] == mid[k - |bs|];
        assert all[k] in mid;
      }
      SectionEndPrefix(bs, mid, tail, k + 1);
    } else if tail != [] {
      assert all[k] == tail[0];
    }
  }

  lemma FirstOfKindKeptPrefix(blocks: seq<Block>, mid: seq<Block>, tail: seq<Block>, kind: string)
    requires FirstOfKind(blocks, kind, 0) >= 0
    ensures var a := FirstOfKind(blocks, kind, 0);
      FirstOfKind(blocks[..a + 1] + mid + tail, kind, 0) == a
  {
    var a := FirstOfKind(blocks, kind, 0);
    var all := blocks[..a + 1] + mid + tail;
    assert forall j :: 0 <= j <= a ==> all[j] == blocks[j];
    var r := FirstOfKind(all, kind, 0);
    assert all[a].kind == kind;
  }

  lemma ItemIsNotOpener()
    ensures "ANCHOR_ITEM" !in CommonLayouts.SectionOpeners
  {
    var item := "ANCHOR_ITEM";
    assert |item| == 11;
    assert item != "AUTHOR_BLOCK" && item != "MAIN_CONTENT_BLOCK" && item != "CTA";
    assert item[7] != "ANCHOR_LIST"[7];
  }

  /** The kept blocks of a section hold no section opener. */
  lemma KeptHoldsNoOpener(parsed: seq<Block>, section: seq<Block>)
    requires forall k :: 0 <= k < |parsed| ==> parsed[k].kind == "ANCHOR_ITEM"
    requires forall k :: 0 <= k < |section| ==> section[k].kind !in CommonLayouts.SectionOpeners
    ensures forall x :: x in parsed + DropAnchorItems(section) ==> x.kind !in CommonLayouts.SectionOpeners
  {
    var d := DropAnchorItems(section);
    DropAnchorItemsSubset(section);
    ItemIsNotOpener();
    forall x | x in parsed + d
      ensures x.kind !in CommonLayouts.SectionOpeners
    {
      if x in parsed {
        var m :| 0 <= m < |parsed| && parsed[m] == x;
      } else {
        assert x in section;
        var m :| 0 <= m < |section| && section[m] == x;
      }
    }
  }

  /** Once the section's items are replaced, the ANCHOR_LIST is still the
    * first one and its section now holds the new items and the kept blocks. */
  lemma ReplacedShape(parsed: seq<Block>, blocks: seq<Block>)
    requires parsed != [] && FirstOfKind(blocks, "ANCHOR_LIST", 0) >= 0
    requires forall k :: 0 <= k < |parsed| ==> parsed[k].kind == "ANCHOR_ITEM"
    ensures var a := FirstOfKind(blocks, "ANCHOR_LIST", 0);
      var e := SectionEnd(blocks, a + 1);
      var mid := parsed + DropAnchorItems(blocks[a + 1..e]);
      ReplaceAnchorItems(parsed, blocks) == blocks[..a + 1] + mid + blocks[e..]
      && FirstOfKind(ReplaceAnchorItems(parsed, blocks), "ANCHOR_LIST", 0) == a
      && SectionEnd(ReplaceAnchorItems(parsed, blocks), a + 1) == a + 1 + |mid|
  {
    var a := FirstOfKind(blocks, "ANCHOR_LIST", 0);
    var e := SectionEnd(blocks, a + 1);
    var mid := parsed + DropAnchorItems(blocks[a + 1..e]);
    var once := blocks[..a + 1] + mid + blocks[e..];
    assert ReplaceAnchorItems(parsed, blocks) == once;
    FirstOfKindKeptPrefix(blocks, mid, blocks[e..], "ANCHOR_LIST");
    ReplacedEnd(parsed, blocks, a, e);
    assert SectionEnd(once, a + 1) == a + 1 + |mid|;
  }

  lemma ReplacedEnd(parsed: seq<Block>, blocks: seq<Block>, a: nat, e: nat)
    requires a < |blocks| && e == SectionEnd(blocks, a + 1)
    requires forall k :: 0 <= k < |parsed| ==> parsed[k].kind == "ANCHOR_ITEM"
    ensures var mid := parsed + DropAnchorItems(blocks[a + 1..e]);
      SectionEnd(blocks[..a + 1] + mid + blocks[e..], a + 1) == a + 1 + |mid|
  {
    var mid := parsed + DropAnchorItems(blocks[a + 1..e]);
    var tail := blocks[e..];
    KeptHoldsNoOpener(parsed, blocks[a + 1..e]);
    assert tail == [] || tail[0].kind in CommonLayouts.SectionOpeners;
    SectionEndPrefix(blocks[..a + 1], mid, tail, a + 1);
  }

  /** Replacing the section's items by the same items twice is replacing
    * them once. */
  lemma ReplaceIdempotent(parsed: seq<Block>, blocks: seq<Block>)
    requires forall k :: 0 <= k < |parsed| ==> parsed[k].kind == "ANCHOR_ITEM"
    ensures ReplaceAnchorItems(parsed, ReplaceAnchorItems(parsed, blocks)) == ReplaceAnchorItems(parsed, blocks)
  {
    if parsed != [] && FirstOfKind(blocks, "ANCHOR_LIST", 0) >= 0 {
      var a := FirstOfKind(blocks, "ANCHOR_LIST", 0);
      var e := SectionEnd(blocks, a + 1);
      var kept := DropAnchorItems(blocks[a + 1..e]);
      var mid := parsed + kept;
      var once := ReplaceAnchorItems(parsed, blocks);
      ReplacedShape(parsed, blocks);
      var e2 := a + 1 + |mid|;
      assert once[..a + 1] == blocks[..a + 1];
      assert once[a + 1..e2] == mid;
      assert once[e2..] == blocks[e..];
      assert DropAnchorItems(mid) == kept by {
        DropAnchorItemsAppend(parsed, kept);
        DropOnlyItems(parsed);
        DropAnchorItemsNoItems(kept);
      }
      assert ReplaceAnchorItems(parsed, once)
          == once[..a + 1] + (parsed + DropAnchorItems(once[a + 1..e2])) + once[e2..];
    }
  }

  /** Applying the same anchor markdown twice is the same as once. */
  lemma ApplyIdempotent(markdown: string, blocks: seq<Block>)
    ensures ApplyAnchorMarkdown(markdown, ApplyAnchorMarkdown(markdown, blocks))
         == ApplyAnchorMarkdown(markdown, blocks)
  {
    if !IsBlank(markdown) {
      ReplaceIdempotent(ParseAnchors(markdown), blocks);
    }
  }

  // ---------------------------------------------------------------------
  // Block information

  /** In the registered layout, anchor items accept only further anchor
    * items, and a type without its own entry gets the default list. */
  lemma InsertableInTextOverImage()
    ensures GetFullBlockInfo("ANCHOR_ITEM", Some(CommonLayouts.TextOverImage.insertableBlocks))
         == Some(["ANCHOR_ITEM"])
    ensures GetFullBlockInfo("TABLE", Some(CommonLayouts.TextOverImage.insertableBlocks))
         == Some(CommonLayouts.DefaultInsertableBlocks)
  {
  }
}
