// Properties of the basic article parser (`BasicMarkdown.Parse`).

module BasicMarkdownProperties {
  import opened Wrappers
  import opened JsString
  import opened BasicMarkdown

  /** The blocks an outcome carries: all of them, or those pushed before the
    * loop got stuck. */
  function OutBlocks(o: Outcome): seq<Block>
  {
    match o
    case Parsed(bs) => bs
    case Diverges(_, bs) => bs
  }

  /** A property every step's blocks have is had by the whole parse. */
  lemma {:induction false} ParseFromAll(lines: seq<string>, i: nat, P: Block -> bool)
    requires i <= |lines|
    requires forall k :: i <= k < |lines| ==> forall b :: b in Step(lines, k).emitted ==> P(b)
    ensures forall b :: b in OutBlocks(ParseFrom(lines, i)) ==> P(b)
    decreases |lines| - i
  {
    if i < |lines| {
      var st := Step(lines, i);
      if st.next != i {
        ParseFromAll(lines, st.next, P);
        var rest := ParseFrom(lines, st.next);
        assert OutBlocks(Prepend(st.emitted, rest)) == st.emitted + OutBlocks(rest);
      }
    }
  }

  // ---------------------------------------------------------------------
  // Headings

  /** The `###` test comes before the `#### ` test, so no step emits H4. */
  lemma StepNoH4(lines: seq<string>, i: nat)
    requires i < |lines|
    ensures forall b :: b in Step(lines, i).emitted ==> b.kind != "H4"
  {
    var line := lines[i];
    if StartsWith(line, "//") || line == [] || line == "---" || CardAt(lines, i) {
    } else if StartsWith(line, "**") && EndsWith(line, "**") {
    } else if StartsWith(line, "# ") || StartsWith(line, "## ") || StartsWith(line, "###") {
    } else {
      assert !StartsWith(line, "#### ") by {
        NoPrefixNoExtension(line, "###", "#### ");
      }
      assert Step(lines, i) == StepLists(lines, i);
      StepListsNoH4(lines, i);
    }
  }

  /** A line that does not start with `p` does not start with a longer
    * string that begins with `p`. */
  lemma NoPrefixNoExtension(line: string, p: string, q: string)
    requires |p| <= |q| && q[..|p|] == p && !StartsWith(line, p)
    ensures !StartsWith(line, q)
  {
    if |q| <= |line| {
      assert line[..|p|] == line[..|q|][..|p|];
    }
  }

  lemma StepListsNoH4(lines: seq<string>, i: nat)
    requires i < |lines|
    ensures forall b :: b in StepLists(lines, i).emitted ==> b.kind != "H4"
  {
  }

  /** The parser never produces an H4 block. */
  lemma NeverH4(markdown: string)
    ensures forall b :: b in OutBlocks(Parse(markdown)) ==> b.kind != "H4"
  {
    var lines := Lines(markdown);
    forall k | 0 <= k < |lines| ensures forall b :: b in Step(lines, k).emitted ==> b.kind != "H4" {
      StepNoH4(lines, k);
    }
    ParseFromAll(lines, 0, (b: Block) => b.kind != "H4");
  }

  /** A trimmed line `#### x` (not a card) becomes an H3 whose text is
    * `# x` without bold markers. */
  lemma FourHashesBecomeH3(lines: seq<string>, i: nat, x: string)
    requires i < |lines| && lines[i] == "#### " + x
    requires x != [] && !IsSpace(x[|x| - 1])
    requires !CardAt(lines, i)
    ensures Step(lines, i) == StepResult([Block("H3", Text(RemoveBold("# " + x)))], i + 1)
  {
    var line := lines[i];
    assert line[0] == '#' && line[1] == '#' && line[2] == '#';
    assert line[..3] == "###";
    assert !StartsWith(line, "//") && line != "---";
    assert !StartsWith(line, "**") && !StartsWith(line, "# ") && !StartsWith(line, "## ");
    assert Substring(line, 3, |line|) == "# " + x;
    TrimUnchanged("# " + x);
    assert Step(lines, i) == StepRest(lines, i);
    assert StepRest(lines, i) == StepResult([Heading("H3", line, 3)], i + 1);
  }

  // ---------------------------------------------------------------------
  // Ordered lists

  /** A numbered line makes an OL only when at least two consecutive lines
    * are numbered; the OL takes exactly that run, numbers stripped.  A lone
    * numbered line falls through to the inline rules. */
  lemma OrderedListNeedsTwo(lines: seq<string>, i: nat)
    requires i < |lines| && IsOrdinalLine(lines[i]) && !IsCardImage(lines[i])
    ensures var e := OrdinalRunEnd(lines, i);
      e - i >= 2 ==> Step(lines, i) == StepResult(
        [Block("OL", Fields(map["LIST_ITEMS" := Join(OrdinalItems(lines, i, e), "\n")]))], e)
    ensures OrdinalRunEnd(lines, i) - i == 1 ==> Step(lines, i) == StepResult([Inline(lines[i])], i + 1)
  {
    var line := lines[i];
    assert IsDigit(line[0]);
    assert !StartsWith(line, "//") && line != [] && line != "---" && !StartsWith(line, "**");
    assert !StartsWith(line, "#") && !StartsWith(line, "*") && !StartsWith(line, "-") && !StartsWith(line, "|");
    assert !StartsWith(line, "# ") && !StartsWith(line, "## ") && !StartsWith(line, "###") && !StartsWith(line, "#### ");
  }

  /** Each item of an OL is its line after the number, the dot and one
    * white-space character. */
  lemma OrdinalItemsStripNumbers(lines: seq<string>, a: nat, b: nat, k: nat)
    requires a <= b <= |lines| && k < b - a
    requires forall j :: a <= j < b ==> IsOrdinalLine(lines[j])
    ensures var line := lines[a + k]; var d := DigitsEnd(line, 0);
      d >= 1 && d + 1 < |line| && (forall j :: 0 <= j < d ==> IsDigit(line[j])) && IsSpace(line[d + 1])
      && line == line[..d] + "." + [line[d + 1]] + OrdinalItems(lines, a, b)[k]
  {
    var line := lines[a + k];
    var d := DigitsEnd(line, 0);
    assert OrdinalItems(lines, a, b)[k] == StripOrdinal(line) == line[d + 2..];
    assert [line[d]] == ".";
    assert line == line[..d] + [line[d]] + [line[d + 1]] + line[d + 2..];
  }

  // ---------------------------------------------------------------------
  // Images

  predicate ImageUrlKept(b: Block)
  {
    b.kind == "IMAGE" ==>
      b.content.Fields? && "URL" in b.content.fields &&
      (EndsWithExt(b.content.fields["URL"], KeptImageExts) || b.content.fields["URL"] == FallbackImage)
  }

  lemma StepImageUrls(lines: seq<string>, i: nat)
    requires i < |lines|
    ensures forall b :: b in Step(lines, i).emitted ==> ImageUrlKept(b)
  {
    var line := lines[i];
    if !StartsWith(line, "//") && line != [] && line != "---" && !CardAt(lines, i) {
      assert Step(lines, i) == StepRest(lines, i);
      StepRestImageUrls(lines, i);
    }
  }

  lemma StepRestImageUrls(lines: seq<string>, i: nat)
    requires i < |lines|
    ensures forall b :: b in StepRest(lines, i).emitted ==> ImageUrlKept(b)
  {
    var line := lines[i];
    if !(StartsWith(line, "**") && EndsWith(line, "**")) && !StartsWith(line, "# ") && !StartsWith(line, "## ")
      && !StartsWith(line, "###") && !StartsWith(line, "#### ") {
      assert StepRest(lines, i) == StepLists(lines, i);
      StepListsImageUrls(lines, i);
    }
  }

  lemma StepListsImageUrls(lines: seq<string>, i: nat)
    requires i < |lines|
    ensures forall b :: b in StepLists(lines, i).emitted ==> ImageUrlKept(b)
  {
    var line := lines[i];
    if !(StartsWith(line, "*") || StartsWith(line, "-")) && !(IsOrdinalLine(line) && OrdinalRunEnd(lines, i) - i > 1)
      && !StartsWith(line, "|") {
      assert StepLists(lines, i).emitted == [Inline(line)];
      InlineImageUrl(line);
    }
  }

  lemma InlineImageUrl(line: string)
    ensures ImageUrlKept(Inline(line))
  {
  }

  /** Every IMAGE block's URL ends in .jpg/.jpeg/.png/.webp (any case) or is
    * the fallback picture. */
  lemma ImagesHaveKeptUrls(markdown: string)
    ensures forall b :: b in OutBlocks(Parse(markdown)) ==> ImageUrlKept(b)
  {
    var lines := Lines(markdown);
    forall k | 0 <= k < |lines| ensures forall b :: b in Step(lines, k).emitted ==> ImageUrlKept(b) {
      StepImageUrls(lines, k);
    }
    ParseFromAll(lines, 0, ImageUrlKept);
  }

  /** A `.gif` ending is none of the kept ones. */
  lemma GifNotKept(url: string)
    requires EndsWith(ToLower(url), ".gif")
    ensures !EndsWithExt(url, KeptImageExts)
  {
    forall k | 0 <= k < |KeptImageExts| ensures !EndsWith(ToLower(url), "." + KeptImageExts[k]) {
      LastCharsDiffer(ToLower(url), "." + KeptImageExts[k]);
    }
  }

  lemma LastCharsDiffer(l: string, e: string)
    requires EndsWith(l, ".gif") && e != [] && e[|e| - 1] != 'f'
    ensures !EndsWith(l, e)
  {
    assert l[|l| - 4..][3] == l[|l| - 1];
    if |e| <= |l| {
      assert l[|l| - |e|..][|e| - 1] == l[|l| - 1];
    }
  }

  /** A markdown link to a `.gif` picture is taken as an image but gets the
    * fallback url. */
  lemma GifLinkGetsFallback(line: string, text: string, href: string)
    requires AnchorTag(line, 0).None? && ImageMarkdown(line).None?
    requires LinkMarkdown(line) == Some((text, href))
    requires EndsWith(ToLower(href), ".gif")
    ensures Inline(line) == Block("IMAGE", Fields(map["ALT" := text, "URL" := FallbackImage]))
  {
    GifNotKept(href);
    assert EndsWith(ToLower(href), "." + ImageLinkExts[4]);
  }

  // ---------------------------------------------------------------------
  // Image cards

  /** An image reference followed by a `### ` line is one card: URL is the
    * raw image line, TITLE the heading text, DESC the third line unless it
    * is missing or a heading; the card takes 3 lines when DESC is non-empty
    * and 2 otherwise. */
  lemma CardConsumesLines(lines: seq<string>, i: nat)
    requires i + 1 < |lines| && IsCardImage(lines[i]) && StartsWith(lines[i + 1], "### ")
    requires !StartsWith(lines[i], "//") && lines[i] != "---"
    ensures var st := Step(lines, i);
      var desc := if i + 2 < |lines| && !StartsWith(lines[i + 2], "#") then lines[i + 2] else [];
      |st.emitted| == 1 && st.emitted[0].kind == "IMAGE_TITLE_DESC_CARD"
      && st.emitted[0].content == Fields(map["URL" := lines[i], "TITLE" := Trim(lines[i + 1][4..]), "DESC" := desc])
      && st.next == i + (if desc != [] then 3 else 2)
  {
    assert lines[i] != [] by { assert IndexOf(lines[i], "![", 0) >= 0; }
    assert Substring(lines[i + 1], 4, |lines[i + 1]|) == lines[i + 1][4..];
  }

  // ---------------------------------------------------------------------
  // Progress and divergence

  /** The UL branch is reached by a line starting with `*` or `-` that the
    * earlier rules did not take, yet the line fails `/^[*-]\s+/`. */
  predicate BulletStall(lines: seq<string>, i: nat)
    requires i < |lines|
  {
    var line := lines[i];
    line != [] && (line[0] == '*' || line[0] == '-') && line != "---"
    && !CardAt(lines, i) && !(StartsWith(line, "**") && EndsWith(line, "**"))
    && !IsBulletLine(line)
  }

  /** A `//` comment line, an empty line and a `---` line push nothing and
    * the loop moves on to the next line. */
  lemma SkippedLines(lines: seq<string>, i: nat)
    requires i < |lines| && (StartsWith(lines[i], "//") || lines[i] == [] || lines[i] == "---")
    ensures Step(lines, i) == StepResult([], i + 1)
  {
  }

  /** Every step moves the cursor forward, except exactly the stalled
    * bullet line, where the cursor comes back to the same line. */
  lemma StepProgress(lines: seq<string>, i: nat)
    requires i < |lines|
    ensures Step(lines, i).next == i <==> BulletStall(lines, i)
  {
    var line := lines[i];
    if line != [] && (line[0] == '*' || line[0] == '-') {
      assert !StartsWith(line, "//") && !StartsWith(line, "#");
      assert StartsWith(line, "*") || StartsWith(line, "-");
      assert !StartsWith(line, "# ") && !StartsWith(line, "## ") && !StartsWith(line, "###") && !StartsWith(line, "#### ");
    } else if line != [] {
      assert !StartsWith(line, "*") && !StartsWith(line, "-");
      if StartsWith(line, "|") {
        assert TableRunEnd(lines, i) > i;
      }
    }
  }

  /** A parse gets stuck only at a stalled bullet line. */
  lemma {:induction false} DivergesOnlyAtBulletStall(lines: seq<string>, i: nat)
    requires i <= |lines|
    ensures ParseFrom(lines, i).Diverges? ==>
      i <= ParseFrom(lines, i).at < |lines| && BulletStall(lines, ParseFrom(lines, i).at)
    decreases |lines| - i
  {
    if i < |lines| {
      StepProgress(lines, i);
      var st := Step(lines, i);
      if st.next != i {
        DivergesOnlyAtBulletStall(lines, st.next);
      }
    }
  }

  /** A lone `-` line makes the source loop for ever. */
  lemma DashAloneDiverges()
    ensures Parse("-").Diverges? && Parse("-").at == 0
  {
    var lines := Lines("-");
    SplitNoSep("-", '\n');
    TrimUnchanged("-");
    assert lines == ["-"];
    assert IndexOf("-", "![", 0) == -1;
    assert !IsBulletLine("-") && !StartsWith("-", "**");
    assert BulletStall(lines, 0);
    StepProgress(lines, 0);
  }

  /** So does `*x`, a bullet without the space after the marker. */
  lemma StarWordDiverges()
    ensures Parse("*x").Diverges?
  {
    var lines := Lines("*x");
    SplitNoSep("*x", '\n');
    TrimUnchanged("*x");
    assert lines == ["*x"];
    assert IndexOf("*x", "![", 0) == -1 by {
      assert "*x"[..2] != "![";
      assert IndexOf("*x", "![", 1) == -1;
    }
    assert !IsBulletLine("*x") && !StartsWith("*x", "**");
    assert BulletStall(lines, 0);
    StepProgress(lines, 0);
  }

  // ---------------------------------------------------------------------
  // Paragraphs

  lemma {:induction false} NoAnchorWithoutAngle(s: string, a: nat)
    requires forall k :: 0 <= k < |s| ==> s[k] != '<'
    ensures AnchorTag(s, a).None?
    decreases |s| - a
  {
    if a + 2 <= |s| {
      assert !OccursAt(s, "<a", a) by { assert s[a] != '<'; }
      NoAnchorWithoutAngle(s, a + 1);
    }
  }

  /** A line that none of the tag, image or link rules can match becomes a
    * paragraph holding the line itself; only a backslash in `N\.` goes. */
  lemma PlainLineIsParagraph(line: string)
    requires line != [] && line[0] != '!' && line[0] != '[' && line[0] != '\\'
    requires forall k :: 0 <= k < |line| ==> line[k] != '<'
    ensures Inline(line) == Block("P", Text(FixEscapedOrdinal(line)))
  {
    NoAnchorWithoutAngle(line, 0);
    assert !StartsWith(line, "![") && !StartsWith(line, "[") && !StartsWith(line, "\\[");
    assert ImageMarkdown(line).None? && LinkMarkdown(line).None?;
  }

  lemma {:induction false} NoOrdinalBackslash(s: string, from: nat)
    requires from >= 1
    requires forall k :: 0 <= k < |s| ==> s[k] != '\\'
    ensures OrdinalBackslashFrom(s, from) == -1
    decreases |s| - from
  {
    if from + 1 < |s| {
      NoOrdinalBackslash(s, from + 1);
    }
  }

  /** Bold markers survive in paragraphs: a plain line such as `a **b**`
    * is kept verbatim. */
  lemma ParagraphKeepsBold(line: string)
    requires line != [] && line[0] != '!' && line[0] != '[' && line[0] != '\\'
    requires forall k :: 0 <= k < |line| ==> line[k] != '<' && line[k] != '\\'
    ensures Inline(line) == Block("P", Text(line))
  {
    PlainLineIsParagraph(line);
    NoOrdinalBackslash(line, 1);
  }
}
