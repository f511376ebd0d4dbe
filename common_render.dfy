// The world article's LayoutManager (js/common/layout-manager.js), part one:
// the effective configuration and the HTML of single blocks (independent
// blocks, lists, tables, Q&A, call-to-action, further reading, video).

module CommonRender {
  import opened Wrappers
  import opened JsString
  import opened HtmlEscape
  import BasicHtmlParts
  import Selection

  /** One entry of `orderedData`: a block type and its field values. A
    * field the block does not carry is a missing key. */
  datatype Block = Block(kind: string, content: map<string, string>)

  // ---------------------------------------------------------------------
  // Configuration
  // ---------------------------------------------------------------------

  datatype CtaConfig = CtaConfig(
    defaultTitle: string,
    defaultDescription: string,
    buttonText: string,
    buttonHref: string,
    bgImageUrl: string,
    bgImageAlt: string)

  /** `this.currentConfig`: the effective configuration. */
  datatype Config = Config(articleClassPrefix: string, ctaConfig: CtaConfig)

  /** The caller's `config` argument: an `articleClassPrefix` when one is
    * given, and the keys of its `ctaConfig` (a missing or falsy
    * `ctaConfig` is the empty map). */
  datatype UserConfig = UserConfig(articleClassPrefix: Option<string>, ctaConfig: map<string, string>)

  const DefaultCta: CtaConfig := CtaConfig(
    "準備好在市場脫穎而出了嗎？",
    "沃德品牌顧問憑藉精準的策略思維，找出品牌差異化的關鍵，從品牌形象規劃到影像製作、網站設計以及廣告行銷，透過整合全方位的品牌價值，助您打造獨特的競爭力。",
    "立即諮詢",
    "/contact",
    "https://www.world-group.com.tw/storage/news/3/ed_678ef9e6ed5fc.webp",
    "立即諮詢設計服務")

  const DefaultConfig: Config := Config("world-article", DefaultCta)

  /** The keys of `ctaConfig`, in declaration order. */
  const CtaKeys: seq<string> :=
    ["defaultTitle", "defaultDescription", "buttonText", "buttonHref", "bgImageUrl", "bgImageAlt"]

  /** The field of a CTA configuration that `key` names. */
  function CtaField(c: CtaConfig, key: string): string
  {
    if key == "defaultTitle" then c.defaultTitle
    else if key == "defaultDescription" then c.defaultDescription
    else if key == "buttonText" then c.buttonText
    else if key == "buttonHref" then c.buttonHref
    else if key == "bgImageUrl" then c.bgImageUrl
    else c.bgImageAlt
  }

  /** `{...defaults, ...m}` read at `key`: a key the caller gives wins,
    * whatever its value, the empty string included. */
  function Spread(m: map<string, string>, key: string, dflt: string): string
  {
    if key in m then m[key] else dflt
  }

  /** `{...defaultConfig.ctaConfig, ...(config.ctaConfig || {})}` */
  function MergeCta(user: map<string, string>): (r: CtaConfig)
    ensures forall key :: key in CtaKeys ==> CtaField(r, key) == Spread(user, key, CtaField(DefaultCta, key))
  {
    CtaConfig(
      Spread(user, "defaultTitle", DefaultCta.defaultTitle),
      Spread(user, "defaultDescription", DefaultCta.defaultDescription),
      Spread(user, "buttonText", DefaultCta.buttonText),
      Spread(user, "buttonHref", DefaultCta.buttonHref),
      Spread(user, "bgImageUrl", DefaultCta.bgImageUrl),
      Spread(user, "bgImageAlt", DefaultCta.bgImageAlt))
  }

  /** The configuration stored in `this.currentConfig`: the defaults with
    * the caller's keys laid over them, `ctaConfig` merged field by field. */
  function MergeConfig(config: UserConfig): (r: Config)
    ensures config.articleClassPrefix.Some? ==> r.articleClassPrefix == config.articleClassPrefix.value
    ensures config.articleClassPrefix.None? ==> r.articleClassPrefix == DefaultConfig.articleClassPrefix
    ensures forall key :: key in CtaKeys ==>
      CtaField(r.ctaConfig, key) == Spread(config.ctaConfig, key, CtaField(DefaultConfig.ctaConfig, key))
  {
    var prefix := match config.articleClassPrefix
      case Some(p) => p
      case None => DefaultConfig.articleClassPrefix;
    Config(prefix, MergeCta(config.ctaConfig))
  }

  /** An effective configuration handed back as a caller's `config`. */
  function AsUserConfig(c: Config): UserConfig
  {
    UserConfig(Some(c.articleClassPrefix), map[
      "defaultTitle" := c.ctaConfig.defaultTitle,
      "defaultDescription" := c.ctaConfig.defaultDescription,
      "buttonText" := c.ctaConfig.buttonText,
      "buttonHref" := c.ctaConfig.buttonHref,
      "bgImageUrl" := c.ctaConfig.bgImageUrl,
      "bgImageAlt" := c.ctaConfig.bgImageAlt])
  }

  /** Calling without a config gives the defaults. */
  lemma MergeNothing()
    ensures MergeConfig(UserConfig(None, map[])) == DefaultConfig
  {
  }

  /** Merging is idempotent: feeding an effective configuration back in as
    * the caller's config changes nothing. */
  lemma MergeIdempotent(config: UserConfig)
    ensures MergeConfig(AsUserConfig(MergeConfig(config))) == MergeConfig(config)
  {
  }

  /** Setting one `ctaConfig` key changes that field and no other. */
  lemma MergeOneKey(user: map<string, string>, key: string, v: string)
    requires key in CtaKeys
    ensures CtaField(MergeCta(user[key := v]), key) == v
    ensures forall other :: other in CtaKeys && other != key ==>
      CtaField(MergeCta(user[key := v]), other) == CtaField(MergeCta(user), other)
  {
  }

  // ---------------------------------------------------------------------
  // Text helpers
  // ---------------------------------------------------------------------

  /** `_escapeHtml(s).replace(/\n/g, "<br>")` */
  function EscapedLines(s: string): string
  {
    NewlinesToBr(Escape(s))
  }

  lemma {:induction false} EscapeNoNewline(s: string)
    requires '\n' !in s
    ensures '\n' !in Escape(s)
    decreases |s|
  {
    if s != [] {
      assert '\n' !in s[1..] by { assert forall x :: x in s[1..] ==> x in s; }
      EscapeNoNewline(s[1..]);
      assert s[0] != '\n';
      assert '\n' !in EscapeChar(s[0]);
    }
  }

  lemma {:induction false} NoNewlineNoBr(s: string)
    requires '\n' !in s
    ensures NewlinesToBr(s) == s
    decreases |s|
  {
    if |s| >= 1 {
      assert '\n' !in s[1..] by { assert forall x :: x in s[1..] ==> x in s; }
      NoNewlineNoBr(s[1..]);
      assert s[..1] != "\n" by { assert s[..1][0] == s[0]; }
      assert s == [s[0]] + s[1..];
    }
  }

  /** Text of one line reaches the page escaped, with no markup character
    * of its own: it cannot open or close an element or an attribute. */
  lemma EscapedLineSafe(s: string)
    requires '\n' !in s
    ensures EscapedLines(s) == Escape(s)
    ensures forall k :: 0 <= k < |EscapedLines(s)| ==> EscapedLines(s)[k] !in {'<', '>', '"', '\''}
  {
    EscapeNoNewline(s);
    NoNewlineNoBr(Escape(s));
    EscapeSafe(s);
  }

  /** `(content.TEXT || '').replace(/\*\*\/g, '')` */
  function PlainText(c: map<string, string>): string
  {
    RemoveBold(OrElse(c, "TEXT", ""))
  }

  // ---------------------------------------------------------------------
  // _generateIndependentBlockHtml, one function per block type
  // ---------------------------------------------------------------------

  const AuthorDefault: string := "葉大雄"
  const HeadingDefault: string := "範例標題"
  const ParagraphDefault: string :=
    "ㄤ~ㄤ~ㄤ~小叮噹幫我實現所有~的願望ㄤ~ㄤ~ㄤ~小叮噹幫我實現所有~的願望ㄤ~ㄤ~ㄤ~小叮噹幫我實現所有~的願望ㄤ~ㄤ~ㄤ~小叮噹幫我實現所有~的願望ㄤ~ㄤ~ㄤ~小叮噹幫我實現所有~的願望ㄤ~ㄤ~ㄤ~小叮噹幫我實現所有~的願望ㄤ~ㄤ~ㄤ~小叮噹幫我實現所有~的願望ㄤ~ㄤ~ㄤ~小叮噹幫我實現所有~的願望ㄤ~ㄤ~ㄤ~小叮噹幫我實現所有~的願望ㄤ~ㄤ~ㄤ~小叮噹幫我實現所有~的願望ㄤ~ㄤ~ㄤ~小叮噹幫我實現所有~的願望..."
  const BlockquoteEmpty: string := "<!-- 備註區塊內容為空 -->"

  function AuthorHtml(text: string): string
  {
    "        <span class=\"article-author\">小編：" + EscapedLines(if text != [] then text else AuthorDefault) + "</span>"
  }

  /** An anchor item: its text (bold markers kept) or `錨點{index}`, escaped;
    * its href or `#section-{index}`, not escaped. */
  function AnchorItemHtml(c: map<string, string>, index: nat): string
  {
    var text := OrElse(c, "TEXT", "錨點" + NatToString(index));
    var href := OrElse(c, "HREF", "#section-" + NatToString(index));
    "        <li><a href=\"" + href + "\">" + Escape(text) + "</a></li>"
  }

  /** The id of the `n`-th H2 of the article. */
  function SectionId(n: nat): (r: string)
    ensures |r| >= 10 && r[..8] == "section-"
    ensures forall k :: 8 <= k < |r| ==> IsDigit(r[k])
    ensures DecimalValue(r[8..]) == n
  {
    PadStart2Denotes(n);
    var r := "section-" + PadStart2(n);
    assert r[8..] == PadStart2(n);
    r
  }

  /** Different counters give different heading ids. */
  lemma SectionIdsDistinct(m: nat, n: nat)
    requires m != n
    ensures SectionId(m) != SectionId(n)
  {
    PadStart2Denotes(m);
    PadStart2Denotes(n);
    assert PadStart2(m) != PadStart2(n);
    assert SectionId(m)[8..] == PadStart2(m);
    assert SectionId(n)[8..] == PadStart2(n);
  }

  const H2Open: string := "        <h2 class=\"content-title\" id=\""

  /** The heading's id is the section id of its counter; its text is
    * escaped, the example title standing in for an empty one. */
  function H2Html(text: string, h2Index: nat): (r: string)
    ensures OccursAt(r, SectionId(h2Index), |H2Open|)
    ensures OccursAt(r, EscapedLines(if text != [] then text else HeadingDefault), |H2Open| + |SectionId(h2Index)| + 2)
  {
    var id := SectionId(h2Index);
    var body := EscapedLines(if text != [] then text else HeadingDefault);
    Fill(H2Open, id, "\">", body, "</h2>")
  }

  function H3Html(text: string): string
  {
    "        <h3>" + EscapedLines(text) + "</h3>"
  }

  /** An H4 appears only when it has text. */
  function H4Html(text: string): (r: string)
    ensures r == [] <==> text == []
  {
    if text != [] then "        <h4>" + EscapedLines(text) + "</h4>" else ""
  }

  function ParagraphHtml(text: string): string
  {
    "    <p>" + EscapedLines(if text != [] then text else ParagraphDefault) + "</p>"
  }

  /** An A block needs both a href and a text; the href is not escaped. */
  function LinkHtml(c: map<string, string>): (r: string)
    ensures r == [] <==> OrElse(c, "HREF", "") == [] || OrElse(c, "TEXT", "") == []
  {
    var href := OrElse(c, "HREF", "");
    var text := OrElse(c, "TEXT", "");
    if href != [] && text != [] then
      "    <a href=\"" + href + "\" class=\"article-link\">" + Escape(text) + "</a>"
    else ""
  }

  function BlockquoteHtml(prefix: string, text: string): (r: string)
    ensures r == BlockquoteEmpty <==> text == []
  {
    if text == [] then BlockquoteEmpty
    else
      var r := "<div class=\"" + prefix + " " + prefix + "-08\">\n    <blockquote>" + EscapedLines(text) + "</blockquote>\n</div>";
      assert r[1] != BlockquoteEmpty[1];
      r
  }

  /** An IMAGE block needs a URL; both the URL and the alt text are
    * escaped. */
  function ImageHtml(c: map<string, string>): (r: string)
    ensures r == [] <==> OrElse(c, "URL", "") == []
  {
    var url := OrElse(c, "URL", "");
    if url != [] then
      "    <img src=\"" + Escape(url) + "\" alt=\"" + Escape(OrElse(c, "ALT", "")) + "\">"
    else ""
  }

  function VideoHead(prefix: string): string
  {
    "<div class=\"" + prefix + " " + prefix + "-09\">\n    <div class=\"video-block\">\n        <iframe width=\"100%\" height=\"100%\" src=\""
  }

  /** The video `src` is not escaped. */
  function VideoHtml(prefix: string, c: map<string, string>): (r: string)
    ensures OccursAt(r, OrElse(c, "SRC", ""), |VideoHead(prefix)|)
  {
    MiddleOccurs(VideoHead(prefix), OrElse(c, "SRC", ""), VideoTail);
    VideoHead(prefix) + OrElse(c, "SRC", "") + VideoTail
  }

  const VideoTail: string :=
    "\" title=\"YouTube video player\" frameborder=\"0\" allow=\"accelerometer; autoplay; clipboard-write; encrypted-media; gyroscope; picture-in-picture; web-share\" referrerpolicy=\"strict-origin-when-cross-origin\" allowfullscreen></iframe>\n    </div>\n</div>"

  function UnknownHtml(kind: string): string
  {
    "<!-- 未知獨立區塊類型: " + kind + " -->"
  }

  /** Which field values reach the page escaped and which verbatim, at the
    * position where they appear. */
  lemma AnchorItemFields(c: map<string, string>, index: nat)
    ensures var href := OrElse(c, "HREF", "#section-" + NatToString(index));
      OccursAt(AnchorItemHtml(c, index), href, 21)
      && OccursAt(AnchorItemHtml(c, index), Escape(OrElse(c, "TEXT", "錨點" + NatToString(index))), 23 + |href|)
  {
    var href := OrElse(c, "HREF", "#section-" + NatToString(index));
    var text := Escape(OrElse(c, "TEXT", "錨點" + NatToString(index)));
    var r := AnchorItemHtml(c, index);
    var open := "        <li><a href=\"";
    assert |open| == 21;
    assert r == open + href + ("\">" + text + "</a></li>");
    MiddleOccurs(open, href, "\">" + text + "</a></li>");
    assert r == (open + href + "\">") + text + "</a></li>";
    MiddleOccurs(open + href + "\">", text, "</a></li>");
  }

  /** An anchor item without text or href points at its own section. */
  lemma AnchorItemDefaults(index: nat)
    ensures AnchorItemHtml(map[], index)
         == "        <li><a href=\"#section-" + NatToString(index) + "\">" + Escape("錨點" + NatToString(index)) + "</a></li>"
  {
    var n := NatToString(index);
    assert OrElse(map[], "HREF", "#section-" + n) == "#section-" + n;
    assert "        <li><a href=\"" + ("#section-" + n) == "        <li><a href=\"#section-" + n;
  }

  lemma LinkFields(c: map<string, string>)
    requires OrElse(c, "HREF", "") != [] && OrElse(c, "TEXT", "") != []
    ensures OccursAt(LinkHtml(c), OrElse(c, "HREF", ""), 13)
    ensures OccursAt(LinkHtml(c), Escape(OrElse(c, "TEXT", "")), 36 + |OrElse(c, "HREF", "")|)
  {
    var href := OrElse(c, "HREF", "");
    var text := Escape(OrElse(c, "TEXT", ""));
    var r := LinkHtml(c);
    var open := "    <a href=\"";
    var mid := "\" class=\"article-link\">";
    assert |open| == 13 && |mid| == 23;
    assert r == open + href + (mid + text + "</a>");
    MiddleOccurs(open, href, mid + text + "</a>");
    assert r == (open + href + mid) + text + "</a>";
    MiddleOccurs(open + href + mid, text, "</a>");
  }

  lemma ImageFields(c: map<string, string>)
    requires OrElse(c, "URL", "") != []
    ensures OccursAt(ImageHtml(c), Escape(OrElse(c, "URL", "")), 14)
  {
    var url := Escape(OrElse(c, "URL", ""));
    var r := ImageHtml(c);
    var open := "    <img src=\"";
    var rest := "\" alt=\"" + Escape(OrElse(c, "ALT", "")) + "\">";
    assert |open| == 14;
    assert r == open + url + rest;
    MiddleOccurs(open, url, rest);
  }

  // ---------------------------------------------------------------------
  // _generateListHtml
  // ---------------------------------------------------------------------

  /** `item.trim().replace(/^[\*\-]\s*\/, '')` */
  function CleanItem(item: string): string
  {
    StripBullet(Trim(item))
  }

  /** `t.replace(/^[\*\-]\s*\/, '')` on an already trimmed line. */
  function StripBullet(t: string): (r: string)
    ensures |r| <= |t| && r == t[|t| - |r|..]
    ensures t != [] && (t[0] == '*' || t[0] == '-') ==> |r| < |t| && (r == [] || !IsSpace(r[0]))
    ensures t == [] || (t[0] != '*' && t[0] != '-') ==> r == t
  {
    if t != [] && (t[0] == '*' || t[0] == '-') then t[SpaceEnd(t, 1)..] else t
  }

  function ListItemLine(item: string): string
  {
    "        <li>" + Escape(CleanItem(item)) + "</li>"
  }

  /** The `<li>` lines: one per non-blank line, in order. */
  function ListItemLines(s: string): (r: seq<string>)
    ensures |r| == |NonBlank(Split(s, '\n'))|
    ensures forall k :: 0 <= k < |r| ==> r[k] == ListItemLine(NonBlank(Split(s, '\n'))[k])
  {
    var lines := NonBlank(Split(s, '\n'));
    seq(|lines|, k requires 0 <= k < |lines| => ListItemLine(lines[k]))
  }

  /** `_generateListHtml(s, className, listType)`: nothing for a blank
    * field, otherwise one escaped `<li>` per non-blank line. */
  function ListHtml(s: string, className: string, listType: string): (r: string)
    ensures r == [] <==> IsBlank(s)
    ensures !IsBlank(s) ==>
      ListItemLines(s) != [] &&
      r == "        <" + listType + " class=\"" + (if listType == "ol" then "artilce-list-ol" else "artilce-list-ul")
           + " " + className + "\">\n" + Join(ListItemLines(s), "\n") + "\n        </" + listType + ">"
  {
    NonBlankLinesEmpty(s);
    if IsBlank(s) then ""
    else
      var lis := ListItemLines(s);
      if lis == [] then ""
      else
        var listClass := if listType == "ol" then "artilce-list-ol" else "artilce-list-ul";
        "        <" + listType + " class=\"" + listClass + " " + className + "\">\n" + Join(lis, "\n") + "\n        </" + listType + ">"
  }

  // ---------------------------------------------------------------------
  // _generateTableHtml
  // ---------------------------------------------------------------------

  const TableBlank: string := "<!-- 表格內容為空 -->"
  const TableTooShort: string := "<!-- 表格格式不完整：至少需要標題和分隔線 -->"
  const TableNoSeparator: string := "<!-- 表格格式不完整：缺少或無效的分隔線 -->"

  /** The end of the run of characters from `cs` starting at `k`. */
  function RunEnd(s: string, k: nat, cs: set<char>): (e: nat)
    requires k <= |s|
    ensures k <= e <= |s|
    ensures forall j :: k <= j < e ==> s[j] in cs
    ensures e == |s| || s[e] !in cs
    decreases |s| - k
  {
    if k < |s| && s[k] in cs then RunEnd(s, k + 1, cs) else k
  }

  /** A run that stops where the characters leave `cs` is the run. */
  lemma {:induction false} RunEndAt(s: string, k: nat, e: nat, cs: set<char>)
    requires k <= e <= |s|
    requires forall j :: k <= j < e ==> s[j] in cs
    requires e == |s| || s[e] !in cs
    ensures RunEnd(s, k, cs) == e
    decreases e - k
  {
    if k < e {
      RunEndAt(s, k + 1, e, cs);
    }
  }

  /** `line.match(/^\| *[-:]+ *\|/)`, matched greedily. */
  predicate IsSeparatorRow(line: string)
  {
    line != [] && line[0] == '|' &&
    var a := RunEnd(line, 1, {' '});
    var b := RunEnd(line, a, {'-', ':'});
    var c := RunEnd(line, b, {' '});
    a < b && c < |line| && line[c] == '|'
  }

  /** The regular expression read as it is written: a bar, spaces, at least
    * one dash or colon, spaces, a bar. */
  predicate SeparatorAt(line: string, a: nat, b: nat, c: nat)
  {
    1 <= a < b <= c < |line| && line[0] == '|' && line[c] == '|'
    && (forall j :: 1 <= j < a ==> line[j] == ' ')
    && (forall j :: a <= j < b ==> line[j] == '-' || line[j] == ':')
    && (forall j :: b <= j < c ==> line[j] == ' ')
  }

  /** The greedy test accepts exactly the lines the expression matches. */
  lemma SeparatorRowMatches(line: string)
    ensures IsSeparatorRow(line) <==> exists a, b, c :: SeparatorAt(line, a, b, c)
  {
    if IsSeparatorRow(line) {
      var a := RunEnd(line, 1, {' '});
      var b := RunEnd(line, a, {'-', ':'});
      var c := RunEnd(line, b, {' '});
      assert SeparatorAt(line, a, b, c);
    }
    if exists a, b, c :: SeparatorAt(line, a, b, c) {
      var a, b, c :| SeparatorAt(line, a, b, c);
      RunEndAt(line, 1, a, {' '});
      RunEndAt(line, a, b, {'-', ':'});
      RunEndAt(line, b, c, {' '});
    }
  }

  datatype Table = BlankTable | TooShort | NoSeparator | TableRows(lines: seq<string>)

  /** The table a markdown field describes: its non-blank lines with the
    * separator line dropped, or why there is none. */
  function ParseTable(markdown: string): (t: Table)
    ensures t.BlankTable? <==> IsBlank(markdown)
    ensures var lines := NonBlank(Split(markdown, '\n'));
      && (t.TooShort? <==> !IsBlank(markdown) && |lines| < 2)
      && (t.NoSeparator? <==> !IsBlank(markdown) && |lines| >= 2 && !IsSeparatorRow(lines[1]))
      && (t.TableRows? ==>
            |t.lines| == |lines| - 1 && t.lines[0] == lines[0]
            && forall k :: 1 <= k < |t.lines| ==> t.lines[k] == lines[k + 1])
  {
    if IsBlank(markdown) then BlankTable
    else
      var lines := NonBlank(Split(markdown, '\n'));
      if |lines| < 2 then TooShort
      else if !IsSeparatorRow(lines[1]) then NoSeparator
      else
        BasicHtmlParts.DropSecond(lines);
        TableRows([lines[0]] + lines[2..])
  }

  /** One `<tr>` per row: its cells trimmed, stripped of `**` and escaped. */
  function TableRowLine(row: string): string
  {
    "<tr>" + BasicHtmlParts.CellsHtml(BasicHtmlParts.RowCells(row)) + "</tr>"
  }

  function TableRowLines(lines: seq<string>): (r: seq<string>)
    ensures |r| == |lines|
    ensures forall k :: 0 <= k < |r| ==> r[k] == TableRowLine(lines[k])
  {
    seq(|lines|, k requires 0 <= k < |lines| => TableRowLine(lines[k]))
  }

  /** A line break, then `s`. */
  function OnNewLine(s: string): (r: string)
    ensures r != [] && r[0] == '\n'
  {
    "\n" + s
  }

  function TableWrap(trs: string): string
  {
    OnNewLine("    <div class=\"rwd-table\">\n        <div class=\"rwd-table-compare\">\n            <figure class=\"table\">\n                <table>\n                <tbody>\n                    "
      + trs + "\n                </tbody>\n            </table>\n            </figure>\n        </div>\n    </div>")
  }

  /** `_generateTableHtml(markdown)`: each of the three comments is
    * produced exactly in its own case. */
  function TableHtml(markdown: string): (r: string)
    ensures var lines := NonBlank(Split(markdown, '\n'));
      && (r == TableBlank <==> IsBlank(markdown))
      && (r == TableTooShort <==> (!IsBlank(markdown) && |lines| < 2))
      && (r == TableNoSeparator <==> (!IsBlank(markdown) && |lines| >= 2 && !IsSeparatorRow(lines[1])))
  {
    assert TableBlank[7] != TableTooShort[7];
    assert TableBlank[7] != TableNoSeparator[7];
    assert TableTooShort[13] != TableNoSeparator[13];
    assert TableBlank[0] == '<' && TableTooShort[0] == '<' && TableNoSeparator[0] == '<';
    match ParseTable(markdown)
    case BlankTable => TableBlank
    case TooShort => TableTooShort
    case NoSeparator => TableNoSeparator
    case TableRows(lines) => TableWrap(Join(TableRowLines(lines), "\n"))
  }

  // ---------------------------------------------------------------------
  // _generateQaBlockHtml
  // ---------------------------------------------------------------------

  const QaDefaultTitle: string := "網站架設 問與答FAQ"
  const QaDefaultMarkdown: string :=
    "### 1. 如果預算有限，但未來有擴充功能的打算，該選哪一種？\n答：建議初期可選擇高品質、具備擴充彈性的套版網站，先求快速上線建立市場能見度，待業務穩定成長後，再透過加購或升級方案來擴充所需功能。\n\n### 2. 套版網站的設計看起來會不會跟別家公司一模一樣？\n答：優質的網站公司會提供多元的模組化設計，並允許在顏色、字體、圖片和內容上進行客製化調整，只要用心規劃內容與視覺，依然能打造出具有品牌辨識度的網站。"

  predicate HasBlankRun(s: string)
  {
    exists k :: 0 <= k < |s| - 1 && s[k] == '\n' && s[k + 1] == '\n'
  }

  /** `s.split(/\n{2,}/)`: the pieces between maximal runs of two or more
    * newlines. */
  function SplitParagraphs(s: string): (r: seq<string>)
    ensures |r| >= 1
    decreases |s|
  {
    if s == [] then [[]]
    else if |s| >= 2 && s[0] == '\n' && s[1] == '\n' then
      [[]] + SplitParagraphs(s[RunEnd(s, 0, {'\n'})..])
    else
      var rest := SplitParagraphs(s[1..]);
      [[s[0]] + rest[0]] + rest[1..]
  }

  /** No piece holds a run of two newlines; text without such a run is one
    * piece. */
  lemma {:induction false} SplitParagraphsPieces(s: string)
    ensures forall k :: 0 <= k < |SplitParagraphs(s)| ==> !HasBlankRun(SplitParagraphs(s)[k])
    ensures !HasBlankRun(s) ==> SplitParagraphs(s) == [s]
    decreases |s|
  {
    var r := SplitParagraphs(s);
    if s == [] {
    } else if |s| >= 2 && s[0] == '\n' && s[1] == '\n' {
      var e := RunEnd(s, 0, {'\n'});
      SplitParagraphsPieces(s[e..]);
      assert HasBlankRun(s) by { assert s[0] == '\n' && s[1] == '\n'; }
      forall k | 0 <= k < |r| ensures !HasBlankRun(r[k]) {
        if k > 0 { assert r[k] == SplitParagraphs(s[e..])[k - 1]; }
      }
    } else {
      var rest := SplitParagraphs(s[1..]);
      SplitParagraphsPieces(s[1..]);
      var p := [s[0]] + rest[0];
      assert r[0] == p;
      // A leading newline is glued to a piece that does not start with one.
      forall k | 0 <= k < |p| - 1 ensures !(p[k] == '\n' && p[k + 1] == '\n') {
        if k == 0 {
          FirstPieceStart(s[1..]);
        } else {
          assert p[k] == rest[0][k - 1] && p[k + 1] == rest[0][k];
        }
      }
      forall k | 0 <= k < |r| ensures !HasBlankRun(r[k]) {
        if k > 0 { assert r[k] == rest[k]; }
      }
      if !HasBlankRun(s) {
        forall k | 0 <= k < |s| - 2 ensures !(s[1..][k] == '\n' && s[1..][k + 1] == '\n') {
          assert s[1..][k] == s[k + 1] && s[1..][k + 1] == s[k + 2];
        }
        assert rest == [s[1..]];
        assert [s[0]] + s[1..] == s;
      }
    }
  }

  /** A non-empty first piece starts where the text starts. */
  lemma FirstPieceStart(s: string)
    ensures SplitParagraphs(s)[0] != [] ==> s != [] && SplitParagraphs(s)[0][0] == s[0]
  {
    if s != [] && !(|s| >= 2 && s[0] == '\n' && s[1] == '\n') {
      assert SplitParagraphs(s)[0][0] == s[0];
    }
  }

  /** `line.replace(/^###\s*\/, '')` */
  function StripQuestionMark(line: string): string
  {
    if StartsWith(line, "###") then line[SpaceEnd(line, 3)..] else line
  }

  /** `answer.replace(/^答：/, '')` */
  function StripAnswerMark(answer: string): string
  {
    if StartsWith(answer, "答：") then answer[2..] else answer
  }

  /** The question of an item: its first line without `###` and `**`. */
  function Question(item: string): string
  {
    RemoveBold(StripQuestionMark(Split(Trim(item), '\n')[0]))
  }

  /** The answer of an item: its other lines joined with `<br>`, without the
    * leading `答：` and without `**`. */
  function Answer(item: string): string
  {
    var lines := Split(Trim(item), '\n');
    RemoveBold(StripAnswerMark(Join(lines[1..], "<br>")))
  }

  const QaItemOpen: string := "            <li>\n                <h4>"
  const QaItemMid: string := "</h4>\n                <p>答："
  const QaItemClose: string := "</p>\n            </li>"

  /** The markup of one item around an already escaped question and an
    * answer. */
  function QaItemMarkup(q: string, a: string): (r: string)
    ensures OccursAt(r, q, |QaItemOpen|)
    ensures OccursAt(r, a, |QaItemOpen| + |q| + |QaItemMid|)
  {
    MiddleOccurs(QaItemOpen, q, QaItemMid + a + QaItemClose);
    MiddleOccurs(QaItemOpen + q + QaItemMid, a, QaItemClose);
    assert QaItemOpen + q + (QaItemMid + a + QaItemClose) == (QaItemOpen + q + QaItemMid) + a + QaItemClose;
    (QaItemOpen + q + QaItemMid) + a + QaItemClose
  }

  /** One item: the question is escaped, the answer is not. */
  function QaItemHtml(item: string): (r: string)
    ensures OccursAt(r, Escape(Question(item)), |QaItemOpen|)
    ensures OccursAt(r, Answer(item), |QaItemOpen| + |Escape(Question(item))| + |QaItemMid|)
  {
    QaItemMarkup(Escape(Question(item)), Answer(item))
  }

  /** `TITLE ?? default` and `MARKDOWN ?? default`: a default only for a
    * missing field, never for an empty one. */
  function QaTitle(c: map<string, string>): (r: string)
    ensures "TITLE" in c ==> r == c["TITLE"]
    ensures "TITLE" !in c ==> r == QaDefaultTitle
  {
    match Get(c, "TITLE")
    case Some(t) => t
    case None => QaDefaultTitle
  }

  function QaMarkdown(c: map<string, string>): (r: string)
    ensures "MARKDOWN" in c ==> r == c["MARKDOWN"]
    ensures "MARKDOWN" !in c ==> r == QaDefaultMarkdown
  {
    match Get(c, "MARKDOWN")
    case Some(m) => m
    case None => QaDefaultMarkdown
  }

  /** The items: one per paragraph of the trimmed markdown, none for a
    * blank one. */
  function QaItems(markdown: string): (r: seq<string>)
    ensures IsBlank(markdown) ==> r == []
    ensures !IsBlank(markdown) ==>
      var pieces := SplitParagraphs(Trim(markdown));
      |r| == |pieces| && forall k :: 0 <= k < |r| ==> r[k] == QaItemHtml(pieces[k])
  {
    if IsBlank(markdown) then []
    else
      var pieces := SplitParagraphs(Trim(markdown));
      seq(|pieces|, k requires 0 <= k < |pieces| => QaItemHtml(pieces[k]))
  }

  function QaHead(prefix: string): string
  {
    "\n<div class=\"" + prefix + " " + prefix + "-06\">\n    <div class=\"faq-block\">\n        <h2 class=\"content-title\">"
  }

  const QaMiddle: string := "</h2>\n        <ul class=\"artilce-list-ul\">\n"
  const QaTail: string := "\n        </ul>\n    </div>\n</div>"

  /** The title is written escaped right after the block's opening; the
    * list that follows holds the items of `QaItems`. */
  function QaBlockHtml(prefix: string, c: map<string, string>): (r: string)
    ensures OccursAt(r, Escape(QaTitle(c)), |QaHead(prefix)|)
  {
    var head := QaHead(prefix);
    var title := Escape(QaTitle(c));
    var items := Join(QaItems(QaMarkdown(c)), "\n");
    Fill(head, title, QaMiddle, items, QaTail)
  }

  // ---------------------------------------------------------------------
  // _generateCtaHtml
  // ---------------------------------------------------------------------

  /** The values a CTA block shows: each of its own fields when non-empty,
    * otherwise the configured one. */
  function CtaValues(cfg: CtaConfig, c: map<string, string>): (v: CtaConfig)
    ensures forall key :: key in CtaKeys ==> CtaField(v, key) == OrElse(c, CtaBlockField(key), CtaField(cfg, key))
  {
    CtaConfig(
      OrElse(c, "TITLE", cfg.defaultTitle),
      OrElse(c, "DESCRIPTION", cfg.defaultDescription),
      OrElse(c, "BUTTON_TEXT", cfg.buttonText),
      OrElse(c, "BUTTON_HREF", cfg.buttonHref),
      OrElse(c, "BG_IMAGE_URL", cfg.bgImageUrl),
      OrElse(c, "BG_IMAGE_ALT", cfg.bgImageAlt))
  }

  /** The block field that overrides a `ctaConfig` key. */
  function CtaBlockField(key: string): string
  {
    if key == "defaultTitle" then "TITLE"
    else if key == "defaultDescription" then "DESCRIPTION"
    else if key == "buttonText" then "BUTTON_TEXT"
    else if key == "buttonHref" then "BUTTON_HREF"
    else if key == "bgImageUrl" then "BG_IMAGE_URL"
    else "BG_IMAGE_ALT"
  }

  /** A CTA block with no fields shows the configuration. */
  lemma CtaEmptyBlock(cfg: CtaConfig)
    ensures CtaValues(cfg, map[]) == cfg
  {
  }

  /** The title and description are escaped (bold markers removed first);
    * the button and background image attributes are written verbatim. */
  function CtaHtml(prefix: string, v: CtaConfig): (r: string)
    ensures OccursAt(r, EscapedLines(RemoveBold(v.defaultTitle)), |CtaHead(prefix)|)
    ensures OccursAt(r, v.buttonHref, |CtaBeforeHref(prefix, v)|)
  {
    var title := EscapedLines(RemoveBold(v.defaultTitle));
    var rest := "\" aria-label=\"" + v.buttonText + "\">" + v.buttonText + "</a></div>"
      + "\n        </div>\n"
      + "\n        <div class=\"bg-img\">\n            <img src=\"" + v.bgImageUrl + "\" alt=\"" + v.bgImageAlt + "\" loading=\"lazy\">\n        </div>"
      + "\n    </div>\n</div>";
    var head := CtaHead(prefix);
    var afterTitle := CtaAfterTitle(v);
    Fill(head, title, afterTitle, v.buttonHref, rest)
  }

  function CtaHead(prefix: string): string
  {
    "\n<div class=\"" + prefix + " " + prefix + "-05\">\n    <div class=\"cta-block\">\n        <div class=\"cta-text\">\n"
    + "            <h3>"
  }

  /** From the end of the title to the button's `href` value. */
  function CtaAfterTitle(v: CtaConfig): string
  {
    "</h3>\n"
    + "            <p>" + EscapedLines(RemoveBold(v.defaultDescription)) + "</p>\n"
    + "            <div><a class=\"cta-btn\" href=\""
  }

  function CtaBeforeHref(prefix: string, v: CtaConfig): string
  {
    CtaHead(prefix) + EscapedLines(RemoveBold(v.defaultTitle)) + CtaAfterTitle(v)
  }

  // ---------------------------------------------------------------------
  // EXTENDED_READING
  // ---------------------------------------------------------------------

  const ReadingEmpty: string := "<!-- 請在延伸閱讀區塊輸入連結 -->"

  /** `lines.map(l => l.trim()).filter(l => l.includes(','))` */
  function CommaLines(lines: seq<string>): (r: seq<string>)
    ensures |r| <= |lines|
    ensures forall k :: 0 <= k < |r| ==> ',' in r[k]
    ensures Selection.Selects(r, Selection.Map(lines, Trim), HasComma)
  {
    if lines == [] then []
    else
      var rest := CommaLines(lines[1..]);
      Selection.MapCons(lines[0], lines[1..], Trim);
      assert lines == [lines[0]] + lines[1..];
      Selection.SelectsCons(Trim(lines[0]), Selection.Map(lines[1..], Trim), HasComma, rest);
      (if ',' in Trim(lines[0]) then [Trim(lines[0])] else []) + rest
  }

  predicate HasComma(t: string) { ',' in t }

  /** No line survives exactly when no trimmed line holds a comma. */
  lemma {:induction false} CommaLinesEmpty(lines: seq<string>)
    ensures CommaLines(lines) == [] <==> forall k :: 0 <= k < |lines| ==> ',' !in Trim(lines[k])
    decreases |lines|
  {
    if lines != [] {
      CommaLinesEmpty(lines[1..]);
      assert forall k :: 1 <= k < |lines| ==> lines[k] == lines[1..][k - 1];
    }
  }

  /** The href of a line: what follows its last comma. */
  function RawHref(line: string): string
  {
    var parts := Split(line, ',');
    parts[|parts| - 1]
  }

  /** The text of a line: everything before its last comma. */
  function RawText(line: string): string
  {
    var parts := Split(line, ',');
    Join(parts[..|parts| - 1], ",")
  }

  lemma {:induction false} JoinLast(parts: seq<string>, sep: string)
    requires |parts| >= 2
    ensures Join(parts, sep) == Join(parts[..|parts| - 1], sep) + sep + parts[|parts| - 1]
    decreases |parts|
  {
    if |parts| > 2 {
      JoinLast(parts[1..], sep);
      assert parts[1..][..|parts| - 2] == parts[..|parts| - 1][1..];
    }
  }

  /** A line with a comma is its text, a comma and its href, and the href
    * holds no comma: the href is cut at the last comma. */
  lemma ReadingLineSplit(line: string)
    requires ',' in line
    ensures RawText(line) + "," + RawHref(line) == line
    ensures ',' !in RawHref(line)
  {
    var parts := Split(line, ',');
    JoinSplit(line, ',');
    JoinLast(parts, ",");
  }

  const ReadingOpen: string := "<a href=\""
  const ReadingMid: string := "\" target=\"_blank\">"
  const ReadingClose: string := "</a>"

  /** An `<a>` element around an href and an already escaped text. */
  function ReadingMarkup(href: string, text: string): (r: string)
    ensures |r| >= 2 && r[1] == 'a'
    ensures OccursAt(r, href, |ReadingOpen|)
    ensures OccursAt(r, text, |ReadingOpen| + |href| + |ReadingMid|)
  {
    MiddleOccurs(ReadingOpen, href, ReadingMid + text + ReadingClose);
    MiddleOccurs(ReadingOpen + href + ReadingMid, text, ReadingClose);
    assert ReadingOpen + href + (ReadingMid + text + ReadingClose) == (ReadingOpen + href + ReadingMid) + text + ReadingClose;
    assert ReadingOpen[1] == 'a';
    (ReadingOpen + href + ReadingMid) + text + ReadingClose
  }

  /** One link: the trimmed href verbatim, the trimmed text escaped. */
  function ReadingLink(line: string): (r: string)
    ensures |r| >= 2 && r[1] == 'a'
    ensures OccursAt(r, Trim(RawHref(line)), |ReadingOpen|)
    ensures OccursAt(r, Escape(Trim(RawText(line))), |ReadingOpen| + |Trim(RawHref(line))| + |ReadingMid|)
  {
    ReadingMarkup(Trim(RawHref(line)), Escape(Trim(RawText(line))))
  }

  /** The links, in order, one per line that holds a comma. */
  function ReadingLinks(links: string): (r: seq<string>)
    ensures var lines := CommaLines(Split(links, '\n'));
      |r| == |lines| && forall k :: 0 <= k < |r| ==> r[k] == ReadingLink(lines[k])
  {
    var lines := CommaLines(Split(links, '\n'));
    seq(|lines|, k requires 0 <= k < |lines| => ReadingLink(lines[k]))
  }

  lemma JoinSecond(items: seq<string>, sep: string)
    requires items != [] && |items[0]| >= 2
    ensures |Join(items, sep)| >= 2 && Join(items, sep)[1] == items[0][1]
  {
  }

  /** Links joined together are empty only when there are none, and never
    * look like the placeholder. */
  lemma JoinedLinks(items: seq<string>)
    requires forall k :: 0 <= k < |items| ==> |items[k]| >= 2 && items[k][1] == 'a'
    ensures Join(items, "、") == [] <==> items == []
    ensures Join(items, "、") != ReadingEmpty
  {
    if items != [] {
      JoinSecond(items, "、");
      assert ReadingEmpty[1] == '!';
    }
  }

  /** The block body: its links separated by `、`, or the placeholder when
    * no line holds a comma. */
  function ReadingBody(links: string): (r: string)
    ensures r == ReadingEmpty <==> CommaLines(Split(links, '\n')) == []
  {
    var items := ReadingLinks(links);
    JoinedLinks(items);
    var joined := Join(items, "、");
    if joined != [] then joined else ReadingEmpty
  }

  function ReadingHead(prefix: string): string
  {
    "<div class=\"" + prefix + " read-more\">\n    <p>\U{1F449} <strong>延伸閱讀</strong>："
  }

  /** The links, or the placeholder comment when there are none, right
    * after the block's label. */
  function ExtendedReadingHtml(prefix: string, links: string): (r: string)
    ensures OccursAt(r, ReadingBody(links), |ReadingHead(prefix)|)
  {
    MiddleOccurs(ReadingHead(prefix), ReadingBody(links), "</p>\n</div>");
    ReadingHead(prefix) + ReadingBody(links) + "</p>\n</div>"
  }

  // ---------------------------------------------------------------------
  // The dispatch on the block type
  // ---------------------------------------------------------------------

  /** The block types `_generateIndependentBlockHtml` has a case for. */
  const IndependentKinds: set<string> :=
    {"AUTHOR", "ANCHOR_ITEM", "H2", "H3", "H4", "P", "UL", "OL", "HR", "A", "TABLE",
     "EXTENDED_READING", "BLOCKQUOTE", "QA_BLOCK", "IMAGE", "CTA", "VIDEO"}

  /** `_generateIndependentBlockHtml(block, index, h2Index)` under the
    * configuration `cfg`: a type without a case gives the unknown-type
    * comment. */
  function IndependentHtml(cfg: Config, b: Block, index: nat, h2Index: nat): (r: string)
    ensures b.kind !in IndependentKinds ==> r == UnknownHtml(b.kind)
  {
    var c := b.content;
    var prefix := cfg.articleClassPrefix;
    var text := PlainText(c);
    match b.kind
    case "AUTHOR" => AuthorHtml(text)
    case "ANCHOR_ITEM" => AnchorItemHtml(c, index)
    case "H2" => H2Html(text, h2Index)
    case "H3" => H3Html(text)
    case "H4" => H4Html(text)
    case "P" => ParagraphHtml(text)
    case "UL" => ListHtml(OrElse(c, "LIST_ITEMS", ""), "", "ul")
    case "OL" => ListHtml(OrElse(c, "LIST_ITEMS", ""), "", "ol")
    case "HR" => "    <hr class=\"default-hr\">"
    case "A" => LinkHtml(c)
    case "TABLE" => TableHtml(OrElse(c, "MARKDOWN", ""))
    case "EXTENDED_READING" => ExtendedReadingHtml(prefix, OrElse(c, "LINKS", ""))
    case "BLOCKQUOTE" => BlockquoteHtml(prefix, text)
    case "QA_BLOCK" => QaBlockHtml(prefix, c)
    case "IMAGE" => ImageHtml(c)
    case "CTA" => CtaHtml(prefix, CtaValues(cfg.ctaConfig, c))
    case "VIDEO" => VideoHtml(prefix, c)
    case _ => UnknownHtml(b.kind)
  }
}
